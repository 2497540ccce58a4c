/**
 * The older home screen (`src/pages/_Homepage.js`): fetches every user, drops
 * the logged-in one, and shows a skeleton, an empty notice or one card per
 * user. It has no last-message lookup; its cards show fixed placeholder text.
 */
module LegacyHome {
  import opened Common
  import opened Users

  /** The empty notice of this screen. */
  const NoOtherUsersFound: string := "No other users found."

  class LegacyHomeScreen {
    /** The logged-in user from the user context, if any. */
    const user: Option<User>

    /** `otherUsers`. */
    var otherUsers: seq<User>
    /** `loadingUsers`. */
    var loadingUsers: bool
    /** Requests issued so far. */
    var requests: seq<Request>

    constructor (user: Option<User>)
      ensures this.user == user
      ensures otherUsers == [] && loadingUsers && requests == []
    {
      this.user := user;
      otherUsers := [];
      loadingUsers := true;
      requests := [];
    }

    /**
     * The mount effect `if (user) fetchUsers()`. `users` is the outcome of the
     * request (`None` when it failed). On success the list becomes the fetched
     * users without the logged-in one; on failure it stays; `loadingUsers`
     * ends false either way.
     */
    method FetchUsers(users: Option<seq<User>>)
      modifies this
      ensures user.None? ==> otherUsers == old(otherUsers) && loadingUsers == old(loadingUsers) && requests == old(requests)
      ensures user.Some? ==> !loadingUsers && requests == old(requests) + [GetAllUsers]
      ensures user.Some? ==> otherUsers == match users {
        case Some(all) => OtherUsers(all, user.value.email)
        case None => old(otherUsers)
      }
    {
      if user.None? {
        return;
      }
      requests := requests + [GetAllUsers];
      if users.Some? {
        otherUsers := OtherUsers(users.value, user.value.email);
      }
      loadingUsers := false;
    }

    /** What the user list area shows now. */
    function View(): (v: View<User>)
      reads this
      ensures v == Spinner <==> user.None?
      ensures v == Skeleton(SkeletonRows) <==> user.Some? && loadingUsers
      ensures v == Notice(NoOtherUsersFound) <==> user.Some? && !loadingUsers && otherUsers == []
      ensures v.Cards? <==> user.Some? && !loadingUsers && otherUsers != []
      ensures v.Cards? ==> v.cards == otherUsers
    {
      ViewOf(user.Some?, loadingUsers, otherUsers, NoOtherUsersFound)
    }
  }
}
