/**
 * The home screen (`src/pages/HomePage.js`): fetches the users, drops the
 * logged-in one, looks up the last message with each remaining user, and
 * shows a skeleton, an empty notice or one card per user.
 */
module HomePage {
  import opened Common
  import opened Users

  /**
   * The body of a `lastMessage` response: a falsy value (`null`, `undefined`,
   * ...), a string, or a message object. A `messageText` of `""` stands for an
   * object whose `messageText` is missing or falsy.
   */
  datatype Body = NoBody | StrBody(s: string) | MsgBody(messageText: string)

  /** JavaScript truthiness of a body: objects are truthy, strings when non-empty. */
  predicate Truthy(b: Body) {
    match b
    case NoBody => false
    case StrBody(s) => s != ""
    case MsgBody(_) => true
  }

  /** The `lastMessage` field of a card: a text, or the raw body when it is an object without text. */
  datatype Preview = PreviewText(text: string) | PreviewObject(body: Body)

  /** The fallback preview. */
  const NoMessagesYet: string := "No messages yet"

  /**
   * `(data || "No messages yet").messageText || (data || "No messages yet")`:
   * no last message gives the fallback, a message gives its text, a string is
   * shown as it is, and an object without text is passed through.
   */
  function PreviewOf(b: Body): (p: Preview)
    ensures !Truthy(b) ==> p == PreviewText(NoMessagesYet)
    ensures b.MsgBody? && b.messageText != "" ==> p == PreviewText(b.messageText)
    ensures b.StrBody? && b.s != "" ==> p == PreviewText(b.s)
    ensures b.MsgBody? && b.messageText == "" ==> p == PreviewObject(b)
    ensures p.PreviewText? ==> p.text != ""
  {
    var lastMessage := if Truthy(b) then b else StrBody(NoMessagesYet);
    if lastMessage.MsgBody? && lastMessage.messageText != "" then PreviewText(lastMessage.messageText)
    else if lastMessage.StrBody? then PreviewText(lastMessage.s)
    else PreviewObject(lastMessage)
  }

  /** A listed user: `{ ...u, lastMessage }`. */
  datatype Listed = Listed(user: User, lastMessage: Preview)

  /**
   * `Promise.all` over the per-user lookups: `bodies[i]` is the outcome of the
   * lookup for `users[i]` (`None` when it failed). One failure rejects the
   * whole; otherwise every user gets its preview, in the same order.
   */
  function Enrich(users: seq<User>, bodies: seq<Option<Body>>): (r: Option<seq<Listed>>)
    requires |bodies| == |users|
    ensures r.None? <==> exists i :: 0 <= i < |bodies| && bodies[i].None?
    ensures r.Some? ==> |r.value| == |users|
    ensures r.Some? ==> forall i :: 0 <= i < |users| ==>
      r.value[i] == Listed(users[i], PreviewOf(bodies[i].value))
  {
    if users == [] then Some([])
    else
      match (bodies[0], Enrich(users[1..], bodies[1..]))
      case (Some(b), Some(rest)) =>
        var r := [Listed(users[0], PreviewOf(b))] + rest;
        assert forall i :: 1 <= i < |users| ==> r[i] == rest[i - 1] && bodies[i] == bodies[1..][i - 1];
        Some(r)
      case (None, _) => None
      case (_, None) =>
        assert exists i :: 0 <= i < |bodies[1..]| && bodies[1..][i].None?;
        None
  }

  /** The lookups issued for the filtered users, in order. */
  function LastMessageRequests(me: string, users: seq<User>): (r: seq<Request>)
    ensures |r| == |users|
    ensures forall i :: 0 <= i < |users| ==> r[i] == GetLastMessage(me, users[i].id)
  {
    if users == [] then [] else [GetLastMessage(me, users[0].id)] + LastMessageRequests(me, users[1..])
  }

  /**
   * Whether React can render the cards: a card shows `lastMessage` as a child
   * of `<p>`, and an object there makes the render throw. The app has no error
   * boundary, so the whole screen goes blank instead.
   */
  predicate Renderable(cards: seq<Listed>) {
    forall i :: 0 <= i < |cards| ==> cards[i].lastMessage.PreviewText?
  }

  /** The empty notice of this screen. */
  const NoUsersFound: string := "No users found"

  class HomeScreen {
    /** The logged-in user from the user context, if any. */
    const user: Option<User>

    /** `otherUsers`. */
    var otherUsers: seq<Listed>
    /** `loadingUsers`. */
    var loadingUsers: bool
    /** Requests issued so far. */
    var requests: seq<Request>

    constructor (user: Option<User>)
      ensures this.user == user
      ensures otherUsers == [] && loadingUsers && requests == []
    {
      this.user := user;
      otherUsers := [];
      loadingUsers := true;
      requests := [];
    }

    /**
     * The mount effect `if (user) fetchUsers()`. `users` is the outcome of the
     * users request (`None` when it failed); `bodies[i]` is the outcome of the
     * last-message lookup for the i-th filtered user. The list is replaced only
     * when every request succeeds; `loadingUsers` ends false either way.
     */
    method FetchUsers(users: Option<seq<User>>, bodies: seq<Option<Body>>)
      requires user.Some? && users.Some? ==> |bodies| == |OtherUsers(users.value, user.value.email)|
      modifies this
      ensures user.None? ==> otherUsers == old(otherUsers) && loadingUsers == old(loadingUsers) && requests == old(requests)
      ensures user.Some? ==> !loadingUsers
      ensures user.Some? && users.None? ==>
        && otherUsers == old(otherUsers)
        && requests == old(requests) + [GetUsers(user.value.email, user.value.id)]
      ensures user.Some? && users.Some? ==>
        var filtered := OtherUsers(users.value, user.value.email);
        && requests == old(requests) + [GetUsers(user.value.email, user.value.id)] + LastMessageRequests(user.value.id, filtered)
        && otherUsers == match Enrich(filtered, bodies) { case Some(listed) => listed case None => old(otherUsers) }
    {
      if user.None? {
        return;
      }
      var me := user.value;
      requests := requests + [GetUsers(me.email, me.id)];
      if users.Some? {
        var filtered := OtherUsers(users.value, me.email);
        requests := requests + LastMessageRequests(me.id, filtered);
        var enriched := Enrich(filtered, bodies);
        if enriched.Some? {
          otherUsers := enriched.value;
        }
      }
      loadingUsers := false;
    }

    /** What the user list area shows now. */
    function View(): (v: View<Listed>)
      reads this
      ensures v == Spinner <==> user.None?
      ensures v == Skeleton(SkeletonRows) <==> user.Some? && loadingUsers
      ensures v == Notice(NoUsersFound) <==> user.Some? && !loadingUsers && otherUsers == []
      ensures v.Cards? <==> user.Some? && !loadingUsers && otherUsers != []
      ensures v.Cards? ==> v.cards == otherUsers
    {
      ViewOf(user.Some?, loadingUsers, otherUsers, NoUsersFound)
    }
  }

  /**
   * After a fetch whose requests all succeed, the screen lists exactly the
   * other users, in order, each with its preview, and no skeleton is shown.
   * Those cards render exactly when no last message is an object without text.
   */
  lemma FetchThenView(me: User, users: seq<User>, bodies: seq<Body>)
    requires |bodies| == |OtherUsers(users, me.email)|
    ensures
      var filtered := OtherUsers(users, me.email);
      var listed := Enrich(filtered, seq(|bodies|, i requires 0 <= i < |bodies| => Some(bodies[i])));
      && listed.Some?
      && ViewOf(true, false, listed.value, NoUsersFound) ==
         (if filtered == [] then Notice(NoUsersFound) else Cards(listed.value))
      && (forall i :: 0 <= i < |filtered| ==> listed.value[i].user.email != me.email)
      && (Renderable(listed.value) <==> forall i :: 0 <= i < |bodies| ==> !(bodies[i].MsgBody? && bodies[i].messageText == ""))
  {
    var filtered := OtherUsers(users, me.email);
    var listed := Enrich(filtered, seq(|bodies|, i requires 0 <= i < |bodies| => Some(bodies[i])));
    forall i | 0 <= i < |bodies|
      ensures listed.value[i].lastMessage.PreviewText? <==> !(bodies[i].MsgBody? && bodies[i].messageText == "")
    {
      assert listed.value[i].lastMessage == PreviewOf(bodies[i]);
    }
  }
}
