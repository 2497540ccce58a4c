/**
 * The later chat screen draft (`src/pages/cH.js`). It keeps the list, the
 * input and the requests of the routed screen, takes the whole push payload
 * as the message, and adds read marking: after every change of the list, a
 * pass asks the backend to mark read each unseen entry not tagged as own
 * (`fromSelf` falsy), which includes the user's own messages reloaded from
 * the history, and every successful acknowledgement sets `seen` on the
 * entries carrying that id.
 */
module ChatDraft {
  import opened Common
  import opened Text
  import opened Messages

  /** The callbacks that touch the message list, in the order they fire. */
  datatype ListEvent =
    | HistoryLoaded(data: seq<Msg>)
    | HistoryFailed
    | Received(payload: Msg)
    | SendSucceeded(response: Msg)
    | SendFailed
    | MarkedRead(messageId: string)
    | MarkReadFailed

  /** The list after one callback. */
  function Apply(msgs: seq<Msg>, e: ListEvent): seq<Msg> {
    match e
    case HistoryLoaded(data) => data
    case HistoryFailed => msgs
    case Received(payload) => AppendTagged(msgs, payload, false)
    case SendSucceeded(response) => AppendTagged(msgs, response, true)
    case SendFailed => msgs
    case MarkedRead(id) => MarkSeen(msgs, id)
    case MarkReadFailed => msgs
  }

  /** The list after a run of callbacks, applied in order. */
  function Replay(msgs: seq<Msg>, es: seq<ListEvent>): seq<Msg>
    decreases |es|
  {
    if es == [] then msgs else Replay(Apply(msgs, es[0]), es[1..])
  }

  /** The entry one callback appends, tagged; none for the others. */
  function AppendedBy(e: ListEvent): seq<Msg> {
    match e
    case Received(payload) => [payload.(fromSelf := Some(false))]
    case SendSucceeded(response) => [response.(fromSelf := Some(true))]
    case _ => []
  }

  /** The entries a run of callbacks appends, in the order the callbacks fire. */
  function Appended(es: seq<ListEvent>): seq<Msg> {
    if es == [] then [] else AppendedBy(es[0]) + Appended(es[1..])
  }

  /** `b` is `a` with some entries turned seen, and nothing else changed. */
  predicate AdvancedAll(a: seq<Msg>, b: seq<Msg>) {
    |a| == |b| && forall i :: 0 <= i < |a| ==> Advanced(a[i], b[i])
  }

  lemma AdvancedAllConcat(a: seq<Msg>, b: seq<Msg>, c: seq<Msg>)
    requires AdvancedAll(a, b)
    ensures AdvancedAll(a + c, b + c)
  {
    forall i | 0 <= i < |a + c| ensures Advanced((a + c)[i], (b + c)[i]) {
      if i >= |a| {
        assert (a + c)[i] == c[i - |a|] == (b + c)[i];
      }
    }
  }

  lemma AdvancedAllTrans(a: seq<Msg>, b: seq<Msg>, c: seq<Msg>)
    requires AdvancedAll(a, b) && AdvancedAll(b, c)
    ensures AdvancedAll(a, c)
  {
    forall i | 0 <= i < |a| ensures Advanced(a[i], c[i]) {
      assert Advanced(a[i], b[i]) && Advanced(b[i], c[i]);
    }
  }

  /** Advancing a prefix and then the whole list advances the list. */
  lemma AdvancedAllStep(x: seq<Msg>, y: seq<Msg>, rest: seq<Msg>, r: seq<Msg>)
    requires AdvancedAll(x, y) && AdvancedAll(y + rest, r)
    ensures AdvancedAll(x + rest, r)
  {
    AdvancedAllConcat(x, y, rest);
    AdvancedAllTrans(x + rest, y + rest, r);
  }

  /** One callback other than a history load appends its entry or marks entries seen. */
  lemma ApplyAdvances(msgs: seq<Msg>, e: ListEvent)
    requires !e.HistoryLoaded?
    ensures AdvancedAll(msgs + AppendedBy(e), Apply(msgs, e))
  {
    if e.MarkedRead? {
      assert msgs + [] == msgs;
    }
  }

  /** A run without a history load starts with a callback that is not one, and continues as such a run. */
  lemma NoLoadTail(es: seq<ListEvent>)
    requires es != [] && forall i :: 0 <= i < |es| ==> !es[i].HistoryLoaded?
    ensures !es[0].HistoryLoaded? && forall i :: 0 <= i < |es[1..]| ==> !es[1..][i].HistoryLoaded?
  {
    forall i | 0 <= i < |es[1..]| ensures !es[1..][i].HistoryLoaded? {
      assert es[1..][i] == es[i + 1];
    }
  }

  /**
   * Between two history loads no entry is removed or reordered, and an entry
   * only ever changes by becoming seen: text, ids, `fromSelf` and the time stay,
   * and a seen entry stays seen. The list is the old list followed by the
   * received and sent entries, in the order their callbacks fired, each of
   * them possibly seen by now.
   */
  lemma {:induction false} ReplayOnlyAdvances(msgs: seq<Msg>, es: seq<ListEvent>)
    requires forall i :: 0 <= i < |es| ==> !es[i].HistoryLoaded?
    ensures AdvancedAll(msgs + Appended(es), Replay(msgs, es))
    decreases |es|
  {
    if es == [] {
      assert msgs + [] == msgs;
    } else {
      var next := Apply(msgs, es[0]);
      var rest := Appended(es[1..]);
      ApplyAdvances(msgs, es[0]);
      NoLoadTail(es);
      ReplayOnlyAdvances(next, es[1..]);
      AdvancedAllStep(msgs + AppendedBy(es[0]), next, rest, Replay(next, es[1..]));
      AppendAssoc(msgs, AppendedBy(es[0]), rest);
    }
  }

  /**
   * Under the same conditions a receipt, once shown, is never lost and a `✓✓`
   * never turns back into `✓`.
   */
  lemma TicksOnlyAdvance(msgs: seq<Msg>, es: seq<ListEvent>, i: nat)
    requires forall k :: 0 <= k < |es| ==> !es[k].HistoryLoaded?
    requires i < |msgs|
    ensures i < |Replay(msgs, es)|
    ensures TickOf(msgs[i]) == DoubleTick ==> TickOf(Replay(msgs, es)[i]) == DoubleTick
    ensures TickOf(msgs[i]) != NoTick ==> TickOf(Replay(msgs, es)[i]) != NoTick
  {
    ReplayOnlyAdvances(msgs, es);
    assert (msgs + Appended(es))[i] == msgs[i];
    TickMonotone(msgs[i], Replay(msgs, es)[i]);
  }

  /**
   * The history response is stored as it arrives, and its entries carry no
   * `fromSelf`; the pass that follows a history load then selects every unseen
   * entry, whoever sent it, the user's own messages included.
   */
  lemma OwnHistoryEntryIsMarkedRead(msgs: seq<Msg>, data: seq<Msg>, id: string)
    requires forall i :: 0 <= i < |data| ==> data[i].fromSelf.None?
    ensures id in UnreadIds(Apply(msgs, HistoryLoaded(data))) <==>
      exists i :: 0 <= i < |data| && !data[i].seen && data[i].id == id
  {
    UnreadIdsMembership(data, id);
  }

  /** A received push is tagged as not own, so it is selected exactly when it arrives unseen. */
  lemma ReceivedEntryIsMarkedRead(msgs: seq<Msg>, payload: Msg)
    ensures payload.id in UnreadIds(Apply(msgs, Received(payload))) <==>
      !payload.seen || exists i :: 0 <= i < |msgs| && NeedsRead(msgs[i]) && msgs[i].id == payload.id
  {
    var after := Apply(msgs, Received(payload));
    UnreadIdsMembership(after, payload.id);
    UnreadIdsMembership(msgs, payload.id);
    assert after[|msgs|] == payload.(fromSelf := Some(false));
    if exists i :: 0 <= i < |after| && NeedsRead(after[i]) && after[i].id == payload.id {
      var i :| 0 <= i < |after| && NeedsRead(after[i]) && after[i].id == payload.id;
      if i < |msgs| {
        assert after[..|msgs|][i] == msgs[i];
      }
    }
    if exists i :: 0 <= i < |msgs| && NeedsRead(msgs[i]) && msgs[i].id == payload.id {
      var i :| 0 <= i < |msgs| && NeedsRead(msgs[i]) && msgs[i].id == payload.id;
      assert after[..|msgs|][i] == after[i];
    }
  }

  /** The PUT requests for a list of ids, in order. */
  function PutReads(ids: seq<string>): (r: seq<Event>)
    ensures |r| == |ids|
    ensures forall k :: 0 <= k < |ids| ==> r[k] == PutRead(ids[k])
  {
    if ids == [] then [] else [PutRead(ids[0])] + PutReads(ids[1..])
  }

  /** One more id adds its request at the end. */
  lemma PutReadsSnoc(ids: seq<string>, id: string)
    ensures PutReads(ids + [id]) == PutReads(ids) + [PutRead(id)]
  {
  }

  class ChatDraftScreen {
    /** The logged-in user from the user context, if any. */
    const user: Option<User>
    /** The conversation partner passed in the route state, if any. */
    const selectedUser: Option<User>

    /** `messages`: the rendered list. */
    var messages: seq<Msg>
    /** `message`: the text input. */
    var input: string
    /** Requests and socket emits issued so far. */
    var outbox: seq<Event>

    constructor (user: Option<User>, selectedUser: Option<User>)
      ensures this.user == user && this.selectedUser == selectedUser
      ensures messages == [] && input == "" && outbox == []
    {
      this.user := user;
      this.selectedUser := selectedUser;
      messages := [];
      input := "";
      outbox := [];
    }

    /** `user && selectedUser`: both ids can be read. */
    predicate Ready() {
      user.Some? && selectedUser.Some?
    }

    /**
     * The opening effect: with both users present, request the history and emit
     * `joinRoom` with the local id, without waiting for the history; otherwise
     * do nothing.
     */
    method Open()
      modifies this`outbox
      ensures Ready() ==> outbox == old(outbox) + [FetchHistory(user.value.id, selectedUser.value.id), JoinRoom(user.value.id)]
      ensures !Ready() ==> outbox == old(outbox)
    {
      if Ready() {
        outbox := outbox + [FetchHistory(user.value.id, selectedUser.value.id)];
        outbox := outbox + [JoinRoom(user.value.id)];
      }
    }

    /** The history request succeeded: the list becomes the response, whatever it held. */
    method OnHistoryLoaded(data: seq<Msg>)
      modifies this`messages
      ensures messages == data
      ensures messages == Apply(old(messages), HistoryLoaded(data))
    {
      messages := data;
    }

    /** The history request failed: the error is logged and nothing changes. */
    method OnHistoryFailed()
      ensures messages == Apply(old(messages), HistoryFailed)
    {
    }

    /**
     * A `receiveMessage` push: the whole payload is appended as a received
     * entry, with no check of its sender.
     */
    method OnReceiveMessage(payload: Msg)
      modifies this`messages
      ensures |messages| == |old(messages)| + 1 && messages[..|old(messages)|] == old(messages)
      ensures messages[|old(messages)|] == payload.(fromSelf := Some(false))
      ensures messages == Apply(old(messages), Received(payload))
    {
      messages := AppendTagged(messages, payload, false);
    }

    /** The input's `onChange`. */
    method SetInput(text: string)
      modifies this`input
      ensures input == text
    {
      input := text;
    }

    /**
     * `handleSendMessage`. Blank input is ignored. Otherwise the untrimmed text
     * is POSTed with the two ids and the input is cleared at once, whatever the
     * POST's outcome. Without a user or a selected user, reading `_id` throws
     * before the POST and the clear, so nothing changes either.
     */
    method HandleSendMessage()
      modifies this`outbox, this`input
      ensures IsBlank(old(input)) || !Ready() ==> input == old(input) && outbox == old(outbox)
      ensures !IsBlank(old(input)) && Ready() ==>
        && outbox == old(outbox) + [PostMessage(old(input), user.value.id, selectedUser.value.id)]
        && input == ""
    {
      if IsBlank(input) {
        return;
      }
      if !Ready() {
        return;
      }
      outbox := outbox + [PostMessage(input, user.value.id, selectedUser.value.id)];
      input := "";
    }

    /**
     * The POST succeeded: the response is appended as an own entry and then
     * emitted as `sendMessage`. A POST is only ever issued when both users are
     * present.
     */
    method OnSendSucceeded(response: Msg)
      requires Ready()
      modifies this`messages, this`outbox
      ensures |messages| == |old(messages)| + 1 && messages[..|old(messages)|] == old(messages)
      ensures messages[|old(messages)|] == response.(fromSelf := Some(true))
      ensures messages == Apply(old(messages), SendSucceeded(response))
      ensures outbox == old(outbox) + [EmitSendMessage(user.value.id, selectedUser.value.id, response)]
    {
      messages := AppendTagged(messages, response, true);
      outbox := outbox + [EmitSendMessage(user.value.id, selectedUser.value.id, response)];
    }

    /** The POST failed: the error is logged and nothing is appended. */
    method OnSendFailed()
      ensures messages == Apply(old(messages), SendFailed)
    {
    }

    /** `markAsRead(id)`: issue the PUT that marks one message read. */
    method MarkAsRead(id: string)
      modifies this`outbox
      ensures outbox == old(outbox) + [PutRead(id)]
    {
      outbox := outbox + [PutRead(id)];
    }

    /**
     * The PUT for `id` succeeded: every entry carrying `id` becomes seen,
     * nothing else changes.
     */
    method OnMarkAsReadSucceeded(id: string)
      modifies this`messages
      ensures |messages| == |old(messages)|
      ensures forall i :: 0 <= i < |messages| ==>
        messages[i] == if old(messages)[i].id == id then old(messages)[i].(seen := true) else old(messages)[i]
      ensures messages == Apply(old(messages), MarkedRead(id))
    {
      messages := MarkSeen(messages, id);
    }

    /** The PUT failed: the error is logged and nothing changes. */
    method OnMarkAsReadFailed()
      ensures messages == Apply(old(messages), MarkReadFailed)
    {
    }

    /**
     * The auto-read effect, run after every change of the list: with both users
     * present, one PUT per entry that is neither own nor seen, in list order.
     */
    method AutoRead()
      modifies this`outbox
      ensures Ready() ==> outbox == old(outbox) + PutReads(UnreadIds(messages))
      ensures !Ready() ==> outbox == old(outbox)
    {
      if !Ready() {
        return;
      }
      var list := messages;
      var i := 0;
      while i < |list|
        invariant 0 <= i <= |list| && messages == list
        invariant outbox == old(outbox) + PutReads(UnreadIds(list[..i]))
      {
        var m := list[i];
        ghost var done := UnreadIds(list[..i]);
        UnreadIdsSnoc(list[..i], m);
        assert list[..i + 1] == list[..i] + [m];
        if NeedsRead(m) {
          MarkAsRead(m.id);
          PutReadsSnoc(done, m.id);
        } else {
          assert UnreadIds(list[..i + 1]) == done;
        }
        i := i + 1;
      }
      assert list[..i] == list;
    }
  }
}
