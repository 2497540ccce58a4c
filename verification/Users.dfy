/**
 * What both home screens share: the requests they issue, the filter that
 * removes the logged-in user from the fetched users, and the choice of what
 * the user list area shows.
 */
module Users {
  import opened Common

  /** The HTTP requests of the home screens. */
  datatype Request =
    | GetAllUsers                                         // GET /api/users (older screen)
    | GetUsers(email: string, currentUserId: string)      // GET /users?email&currentUserId
    | GetLastMessage(senderId: string, receiverId: string) // GET /messages/lastMessage

  /** `users.filter(u => u.email !== email)`. */
  function OtherUsers(users: seq<User>, email: string): (r: seq<User>)
    ensures |r| <= |users|
    ensures forall u :: u in r <==> u in users && u.email != email
  {
    if users == [] then []
    else (if users[0].email != email then [users[0]] else []) + OtherUsers(users[1..], email)
  }

  /** Filtering works piecewise, so the kept users stay in their original order. */
  lemma {:induction false} OtherUsersAppend(a: seq<User>, b: seq<User>, email: string)
    ensures OtherUsers(a + b, email) == OtherUsers(a, email) + OtherUsers(b, email)
  {
    if a == [] {
      assert a + b == b;
    } else {
      assert (a + b)[1..] == a[1..] + b;
      OtherUsersAppend(a[1..], b, email);
    }
  }

  /** A list without the given email passes the filter unchanged. */
  lemma {:induction false} OtherUsersKeepsAll(users: seq<User>, email: string)
    requires forall i :: 0 <= i < |users| ==> users[i].email != email
    ensures OtherUsers(users, email) == users
  {
    if users != [] {
      OtherUsersKeepsAll(users[1..], email);
    }
  }

  /** Filtering twice is filtering once. */
  lemma OtherUsersIdempotent(users: seq<User>, email: string)
    ensures OtherUsers(OtherUsers(users, email), email) == OtherUsers(users, email)
  {
    var r := OtherUsers(users, email);
    forall i | 0 <= i < |r| ensures r[i].email != email {
      assert r[i] in r;
    }
    OtherUsersKeepsAll(r, email);
  }

  /** The result keeps every user exactly when nobody in the list has the given email. */
  lemma {:induction false} OtherUsersLength(users: seq<User>, email: string)
    ensures |OtherUsers(users, email)| == |users| <==> forall i :: 0 <= i < |users| ==> users[i].email != email
  {
    if users != [] {
      OtherUsersLength(users[1..], email);
      if forall i :: 0 <= i < |users[1..]| ==> users[1..][i].email != email {
        if users[0].email != email {
          forall i | 0 <= i < |users| ensures users[i].email != email {
            if i > 0 { assert users[i] == users[1..][i - 1]; }
          }
        }
      } else {
        var i :| 0 <= i < |users[1..]| && users[1..][i].email == email;
        assert users[i + 1].email == email;
      }
    }
  }

  /** What the user list area shows. */
  datatype View<T> =
    | Spinner                 // no user: the spinner instead of the page
    | Skeleton(rows: nat)     // loading: placeholder rows
    | Notice(text: string)    // loaded, nobody to list
    | Cards(cards: seq<T>)    // one card per listed user, in list order

  /** The number of placeholder rows (`[...Array(6)]`). */
  const SkeletonRows: nat := 6

  /**
   * The page's conditional rendering: the spinner without a user, otherwise
   * skeleton rows while loading, the empty notice when the list is empty, and
   * one card per entry of the list otherwise.
   */
  function ViewOf<T>(signedIn: bool, loading: bool, list: seq<T>, emptyText: string): (v: View<T>)
    ensures v == Spinner <==> !signedIn
    ensures v.Skeleton? <==> signedIn && loading
    ensures v.Skeleton? ==> v.rows == 6
    ensures v.Notice? <==> signedIn && !loading && list == []
    ensures v.Notice? ==> v.text == emptyText
    ensures v.Cards? ==> v.cards == list && |v.cards| > 0
  {
    if !signedIn then Spinner
    else if loading then Skeleton(SkeletonRows)
    else if |list| == 0 then Notice(emptyText)
    else Cards(list)
  }
}
