/** The identity cell that App.js creates and shares through `UserContext`. */
module Context {
  import opened Common

  /** The user record as the client receives it (its fields are only displayed). */
  datatype Identity = Identity(id: int, username: string, email: string, createdAt: int)

  /**
   * `{ user, setUser }`: one mutable cell read by every screen. Screens hold a
   * reference to the same object, so a write by one is seen by all.
   */
  class UserContext {
    var user: Option<Identity>

    constructor ()
      ensures user == None
    {
      user := None;
    }
  }
}
