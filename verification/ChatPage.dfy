/**
 * The routed chat screen (`src/pages/ChatPage.js`): the message list of one
 * conversation, the text input, and what the screen sends to the backend and
 * the socket. Each asynchronous callback of the screen is one method.
 */
module ChatPage {
  import opened Common
  import opened Text
  import opened Messages

  /** The payload of a `receiveMessage` push in this version: `{ senderId, message }`. */
  datatype Envelope = Envelope(senderId: string, message: Msg)

  /** The callbacks that touch the message list, in the order they fire. */
  datatype ListEvent =
    | HistoryLoaded(data: seq<Msg>)
    | HistoryFailed
    | Received(envelope: Envelope)
    | SendSucceeded(response: Msg)
    | SendFailed

  /** The list after one callback: `setMessages(response.data)` or one of the two appends. */
  function Apply(msgs: seq<Msg>, e: ListEvent): seq<Msg> {
    match e
    case HistoryLoaded(data) => data
    case HistoryFailed => msgs
    case Received(env) => AppendTagged(msgs, env.message, false)
    case SendSucceeded(response) => AppendTagged(msgs, response, true)
    case SendFailed => msgs
  }

  /** The list after a run of callbacks, applied in order. */
  function Replay(msgs: seq<Msg>, es: seq<ListEvent>): seq<Msg>
    decreases |es|
  {
    if es == [] then msgs else Replay(Apply(msgs, es[0]), es[1..])
  }

  /**
   * The entry one callback appends: `{ ...message, fromSelf: false }` for a
   * push, `{ ...response.data, fromSelf: true }` for a successful send, none
   * for the others.
   */
  function AppendedBy(e: ListEvent): seq<Msg> {
    match e
    case Received(env) => [env.message.(fromSelf := Some(false))]
    case SendSucceeded(response) => [response.(fromSelf := Some(true))]
    case _ => []
  }

  /** The entries a run of callbacks appends, in the order the callbacks fire. */
  function Appended(es: seq<ListEvent>): seq<Msg> {
    if es == [] then [] else AppendedBy(es[0]) + Appended(es[1..])
  }

  /** Running two runs of callbacks one after the other is running their concatenation. */
  lemma {:induction false} ReplayConcat(msgs: seq<Msg>, a: seq<ListEvent>, b: seq<ListEvent>)
    ensures Replay(msgs, a + b) == Replay(Replay(msgs, a), b)
    decreases |a|
  {
    if a != [] {
      assert (a + b)[1..] == a[1..] + b;
      ReplayConcat(Apply(msgs, a[0]), a[1..], b);
    } else {
      assert a + b == b;
    }
  }

  /** A callback other than a history load appends its entry, if any, and changes nothing else. */
  lemma ApplyAppends(msgs: seq<Msg>, e: ListEvent)
    requires !e.HistoryLoaded?
    ensures Apply(msgs, e) == msgs + AppendedBy(e)
  {
    if e.HistoryFailed? || e.SendFailed? {
      assert msgs + [] == msgs;
    }
  }

  /** A run without a history load starts with a callback that is not one, and continues as such a run. */
  lemma NoLoadTail(es: seq<ListEvent>)
    requires es != [] && forall i :: 0 <= i < |es| ==> !es[i].HistoryLoaded?
    ensures !es[0].HistoryLoaded? && forall i :: 0 <= i < |es[1..]| ==> !es[1..][i].HistoryLoaded?
  {
    forall i | 0 <= i < |es[1..]| ensures !es[1..][i].HistoryLoaded? {
      assert es[1..][i] == es[i + 1];
    }
  }

  /**
   * Between two history loads the list only grows at its end: the old list
   * stays as it was and the received and successfully sent messages follow it,
   * tagged, in the order their callbacks fired. No callback removes, reorders
   * or changes an entry (in particular none changes `seen`).
   */
  lemma {:induction false} ReplayOnlyAppends(msgs: seq<Msg>, es: seq<ListEvent>)
    requires forall i :: 0 <= i < |es| ==> !es[i].HistoryLoaded?
    ensures Replay(msgs, es) == msgs + Appended(es)
    decreases |es|
  {
    if es != [] {
      var next := Apply(msgs, es[0]);
      ApplyAppends(msgs, es[0]);
      NoLoadTail(es);
      ReplayOnlyAppends(next, es[1..]);
      AppendAssoc(msgs, AppendedBy(es[0]), Appended(es[1..]));
    } else {
      assert msgs + [] == msgs;
    }
  }

  /**
   * The list is replaced only by a history load: whatever came before, the list
   * is the most recent history response followed by the entries appended since.
   */
  lemma {:induction false} HistoryThenAppends(msgs: seq<Msg>, before: seq<ListEvent>, data: seq<Msg>, after: seq<ListEvent>)
    requires forall i :: 0 <= i < |after| ==> !after[i].HistoryLoaded?
    ensures Replay(msgs, before + [HistoryLoaded(data)] + after) == data + Appended(after)
  {
    ReplayConcat(msgs, before + [HistoryLoaded(data)], after);
    ReplayConcat(msgs, before, [HistoryLoaded(data)]);
    assert Replay(Replay(msgs, before), [HistoryLoaded(data)]) == data;
    ReplayOnlyAppends(data, after);
  }

  class ChatScreen {
    /** The logged-in user from the user context, if any. */
    const user: Option<User>
    /** The conversation partner passed in the route state, if any. */
    const selectedUser: Option<User>

    /** `messages`: the rendered list. */
    var messages: seq<Msg>
    /** `message`: the text input. */
    var input: string
    /** Requests and socket emits issued so far. */
    var outbox: seq<Event>

    constructor (user: Option<User>, selectedUser: Option<User>)
      ensures this.user == user && this.selectedUser == selectedUser
      ensures messages == [] && input == "" && outbox == []
    {
      this.user := user;
      this.selectedUser := selectedUser;
      messages := [];
      input := "";
      outbox := [];
    }

    /** `user && selectedUser`: both ids can be read. */
    predicate Ready() {
      user.Some? && selectedUser.Some?
    }

    /**
     * The opening effect: with both users present, request the history and emit
     * `joinRoom` with the local id, without waiting for the history; otherwise
     * do nothing.
     */
    method Open()
      modifies this`outbox
      ensures Ready() ==> outbox == old(outbox) + [FetchHistory(user.value.id, selectedUser.value.id), JoinRoom(user.value.id)]
      ensures !Ready() ==> outbox == old(outbox)
    {
      if Ready() {
        outbox := outbox + [FetchHistory(user.value.id, selectedUser.value.id)];
        outbox := outbox + [JoinRoom(user.value.id)];
      }
    }

    /** The history request succeeded: the list becomes the response, whatever it held. */
    method OnHistoryLoaded(data: seq<Msg>)
      modifies this`messages
      ensures messages == data
      ensures messages == Apply(old(messages), HistoryLoaded(data))
    {
      messages := data;
    }

    /** The history request failed: the error is logged and nothing changes. */
    method OnHistoryFailed()
      ensures messages == Apply(old(messages), HistoryFailed)
    {
    }

    /**
     * A `receiveMessage` push: the `message` part is appended as a received
     * entry. The sender is not consulted, so an echo of an own message is
     * appended as well.
     */
    method OnReceiveMessage(envelope: Envelope)
      modifies this`messages
      ensures |messages| == |old(messages)| + 1 && messages[..|old(messages)|] == old(messages)
      ensures messages[|old(messages)|] == envelope.message.(fromSelf := Some(false))
      ensures messages == Apply(old(messages), Received(envelope))
    {
      messages := AppendTagged(messages, envelope.message, false);
    }

    /** The input's `onChange`. */
    method SetInput(text: string)
      modifies this`input
      ensures input == text
    {
      input := text;
    }

    /**
     * `handleSendMessage`. Blank input (`trim()` is empty) is ignored. Otherwise
     * the untrimmed text is POSTed with the two ids and the input is cleared at
     * once, before the POST settles; nothing is appended yet. Without a user
     * or a selected user, reading `_id` throws before the POST and the clear,
     * so nothing changes either.
     */
    method HandleSendMessage()
      modifies this`outbox, this`input
      ensures IsBlank(old(input)) || !Ready() ==> input == old(input) && outbox == old(outbox)
      ensures !IsBlank(old(input)) && Ready() ==>
        && outbox == old(outbox) + [PostMessage(old(input), user.value.id, selectedUser.value.id)]
        && input == ""
    {
      if IsBlank(input) {
        return;
      }
      if !Ready() {
        return;
      }
      outbox := outbox + [PostMessage(input, user.value.id, selectedUser.value.id)];
      input := "";
    }

    /**
     * The POST succeeded: the response is appended as an own entry and then
     * emitted as `sendMessage` to the socket. A POST is only ever issued when
     * both users are present.
     */
    method OnSendSucceeded(response: Msg)
      requires Ready()
      modifies this`messages, this`outbox
      ensures |messages| == |old(messages)| + 1 && messages[..|old(messages)|] == old(messages)
      ensures messages[|old(messages)|] == response.(fromSelf := Some(true))
      ensures messages == Apply(old(messages), SendSucceeded(response))
      ensures outbox == old(outbox) + [EmitSendMessage(user.value.id, selectedUser.value.id, response)]
    {
      messages := AppendTagged(messages, response, true);
      outbox := outbox + [EmitSendMessage(user.value.id, selectedUser.value.id, response)];
    }

    /** The POST failed: the error is logged and nothing is appended. */
    method OnSendFailed()
      ensures messages == Apply(old(messages), SendFailed)
    {
    }
  }
}
