/**
 * The message records both chat screens keep, the requests and socket emits
 * they issue, and the pure list updaters their callbacks apply.
 */
module Messages {
  import opened Common

  /**
   * A message as the backend returns it (`_id`, `messageText`, `senderId`,
   * `receiverId`, `seen`) plus the `fromSelf` flag the screen spreads into it.
   * History entries carry no `fromSelf` (`None`). `hasValidTime` stands for
   * "`createdAt` is present and parses as a date".
   */
  datatype Msg = Msg(
    id: string,
    messageText: string,
    senderId: string,
    receiverId: string,
    seen: bool,
    fromSelf: Option<bool>,
    hasValidTime: bool)

  /** The truthiness of `msg.fromSelf`: an absent flag and `false` are both falsy. */
  predicate IsSelf(m: Msg) {
    m.fromSelf == Some(true)
  }

  /** What a screen sends out: HTTP requests and socket.io emits, in issue order. */
  datatype Event =
    | FetchHistory(userId: string, targetUserId: string)                  // GET  /messages
    | JoinRoom(userId: string)                                            // emit 'joinRoom'
    | PostMessage(messageText: string, senderId: string, receiverId: string) // POST /messages
    | EmitSendMessage(senderId: string, receiverId: string, message: Msg) // emit 'sendMessage'
    | PutRead(messageId: string)                                          // PUT  /messages/:id/read

  /** `[...prev, { ...m, fromSelf: self }]`: one entry at the end, everything before it untouched. */
  function AppendTagged(msgs: seq<Msg>, m: Msg, self: bool): (r: seq<Msg>)
    ensures |r| == |msgs| + 1 && r[..|msgs|] == msgs
    ensures r[|msgs|].fromSelf == Some(self)
    ensures r[|msgs|].(fromSelf := m.fromSelf) == m
  {
    msgs + [m.(fromSelf := Some(self))]
  }

  /**
   * `prev.map(msg => msg._id === id ? { ...msg, seen: true } : msg)`: every entry
   * carrying `id` becomes seen, every other entry stays as it was, the length
   * does not change.
   */
  function MarkSeen(msgs: seq<Msg>, id: string): (r: seq<Msg>)
    ensures |r| == |msgs|
    ensures forall i :: 0 <= i < |msgs| && msgs[i].id == id ==> r[i] == msgs[i].(seen := true)
    ensures forall i :: 0 <= i < |msgs| && msgs[i].id != id ==> r[i] == msgs[i]
    ensures forall i :: 0 <= i < |msgs| ==> Advanced(msgs[i], r[i])
  {
    if msgs == [] then []
    else
      var head := if msgs[0].id == id then msgs[0].(seen := true) else msgs[0];
      [head] + MarkSeen(msgs[1..], id)
  }

  /** `b` is `a` except that `seen` may have turned from false to true. */
  predicate Advanced(a: Msg, b: Msg) {
    a.(seen := true) == b.(seen := true) && (a.seen ==> b.seen)
  }

  /** Concatenation regrouped, for the proofs about runs of callbacks. */
  lemma AppendAssoc(a: seq<Msg>, b: seq<Msg>, c: seq<Msg>)
    ensures (a + b) + c == a + (b + c)
  {
  }

  /** Marking the same id read a second time changes nothing. */
  lemma MarkSeenIdempotent(msgs: seq<Msg>, id: string)
    ensures MarkSeen(MarkSeen(msgs, id), id) == MarkSeen(msgs, id)
  {
  }

  /** Two read acknowledgements commute: the order in which the PUTs succeed does not matter. */
  lemma MarkSeenCommutes(msgs: seq<Msg>, a: string, b: string)
    ensures MarkSeen(MarkSeen(msgs, a), b) == MarkSeen(MarkSeen(msgs, b), a)
  {
  }

  /** The filter of the auto-read pass: `!msg.fromSelf && !msg.seen`. */
  predicate NeedsRead(m: Msg) {
    !IsSelf(m) && !m.seen
  }

  /** The ids the auto-read pass asks the backend to mark read, in list order. */
  function UnreadIds(msgs: seq<Msg>): (r: seq<string>)
    ensures |r| <= |msgs|
    ensures r == [] <==> forall i :: 0 <= i < |msgs| ==> !NeedsRead(msgs[i])
  {
    if msgs == [] then []
    else (if NeedsRead(msgs[0]) then [msgs[0].id] else []) + UnreadIds(msgs[1..])
  }

  /** Walking the list one entry further adds that entry's request, if any, at the end. */
  lemma {:induction false} UnreadIdsSnoc(msgs: seq<Msg>, m: Msg)
    ensures UnreadIds(msgs + [m]) == UnreadIds(msgs) + (if NeedsRead(m) then [m.id] else [])
  {
    if msgs == [] {
      assert msgs + [m] == [m];
    } else {
      var s := msgs + [m];
      var head := if NeedsRead(msgs[0]) then [msgs[0].id] else [];
      assert s[0] == msgs[0] && s[1..] == msgs[1..] + [m];
      UnreadIdsSnoc(msgs[1..], m);
      assert UnreadIds(s) == head + UnreadIds(msgs[1..] + [m]);
      assert UnreadIds(msgs) == head + UnreadIds(msgs[1..]);
    }
  }

  /** An id is requested exactly when some entry carrying it is neither own nor seen. */
  lemma {:induction false} UnreadIdsMembership(msgs: seq<Msg>, id: string)
    ensures id in UnreadIds(msgs) <==> exists i :: 0 <= i < |msgs| && NeedsRead(msgs[i]) && msgs[i].id == id
  {
    if msgs != [] {
      UnreadIdsMembership(msgs[1..], id);
      if id in UnreadIds(msgs[1..]) {
        var i :| 0 <= i < |msgs[1..]| && NeedsRead(msgs[1..][i]) && msgs[1..][i].id == id;
        assert NeedsRead(msgs[i + 1]) && msgs[i + 1].id == id;
      }
      if exists i :: 0 <= i < |msgs| && NeedsRead(msgs[i]) && msgs[i].id == id {
        var i :| 0 <= i < |msgs| && NeedsRead(msgs[i]) && msgs[i].id == id;
        if i > 0 {
          assert msgs[1..][i - 1] == msgs[i];
        }
      }
    }
  }

  /** The list after the read PUTs for `ids` have all succeeded, in that order. */
  function MarkAllSeen(msgs: seq<Msg>, ids: seq<string>): (r: seq<Msg>)
    ensures |r| == |msgs|
    ensures forall i :: 0 <= i < |msgs| && msgs[i].id in ids ==> r[i] == msgs[i].(seen := true)
    ensures forall i :: 0 <= i < |msgs| && msgs[i].id !in ids ==> r[i] == msgs[i]
    decreases ids
  {
    if ids == [] then msgs
    else
      var r := MarkAllSeen(MarkSeen(msgs, ids[0]), ids[1..]);
      assert forall i :: 0 <= i < |msgs| ==> MarkSeen(msgs, ids[0])[i].id == msgs[i].id;
      assert forall x :: x in ids <==> x == ids[0] || x in ids[1..];
      r
  }

  /**
   * One auto-read pass whose requests all succeed leaves nothing unread: the
   * pass issued by the screen after those updates requests nothing more.
   */
  lemma AutoReadConverges(msgs: seq<Msg>)
    ensures UnreadIds(MarkAllSeen(msgs, UnreadIds(msgs))) == []
  {
    var ids := UnreadIds(msgs);
    var after := MarkAllSeen(msgs, ids);
    forall i | 0 <= i < |after| ensures !NeedsRead(after[i]) {
      if NeedsRead(msgs[i]) {
        UnreadIdsMembership(msgs, msgs[i].id);
      }
    }
  }

  /** The receipt shown under a message: none, `✓` (sent) or `✓✓` (read). */
  datatype Tick = NoTick | SingleTick | DoubleTick

  /** The text a receipt is rendered as: one check mark when sent, two when read. */
  function Glyph(t: Tick): (g: string)
    ensures g == [] <==> t == NoTick
    ensures t == SingleTick <==> g == "✓"
    ensures t == DoubleTick <==> g == "✓✓"
  {
    match t
    case NoTick => ""
    case SingleTick => "✓"
    case DoubleTick => "✓✓"
  }

  /**
   * The receipt of one rendered message: only own messages with a valid time
   * carry one, and it is doubled exactly when the message is seen.
   */
  function TickOf(m: Msg): (t: Tick)
    ensures t != NoTick <==> m.hasValidTime && IsSelf(m)
    ensures t == DoubleTick <==> m.hasValidTime && IsSelf(m) && m.seen
  {
    if m.hasValidTime && IsSelf(m) then (if m.seen then DoubleTick else SingleTick) else NoTick
  }

  /** The receipts of a rendered list, one per entry, in list order. */
  function Receipts(msgs: seq<Msg>): (ts: seq<Tick>)
    ensures |ts| == |msgs|
    ensures forall i :: 0 <= i < |msgs| ==> ts[i] == TickOf(msgs[i])
  {
    if msgs == [] then [] else [TickOf(msgs[0])] + Receipts(msgs[1..])
  }

  /** An entry whose flags only advance never loses a receipt and never goes from `✓✓` back to `✓`. */
  lemma TickMonotone(a: Msg, b: Msg)
    requires Advanced(a, b)
    ensures TickOf(a) != NoTick ==> TickOf(b) != NoTick
    ensures TickOf(a) == DoubleTick ==> TickOf(b) == DoubleTick
  {
  }
}
