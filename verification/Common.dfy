/** Values shared by every screen of the client: an optional value and the user record. */
module Common {

  /** A value that may be absent (a JavaScript `null`/`undefined`). */
  datatype Option<+T> = None | Some(value: T)

  /**
   * A user as the backend returns it and as the login context stores it:
   * `_id`, `name`, `email` and `avatar`.
   */
  datatype User = User(id: string, name: string, email: string, avatar: string)
}
