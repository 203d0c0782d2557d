/** The monolith's user record. The role is kept as the name of a `User.Role` constant. */
module Users {
  import opened Wrappers

  datatype User = User(
    id: nat,
    username: string,
    email: string,
    password: string,
    firstName: Option<string>,
    lastName: Option<string>,
    phoneNumber: Option<string>,
    role: string,
    enabled: bool,
    emailVerified: bool)

  type UserTable = map<nat, User>

  /** Rows are keyed by their own id. */
  predicate Keyed(t: UserTable)
  {
    forall id :: id in t ==> t[id].id == id
  }

  /** No two users share a user name or an e-mail address. */
  predicate UniqueLogins(t: UserTable)
  {
    forall i, j :: i in t && j in t && i != j
      ==> t[i].username != t[j].username && t[i].email != t[j].email
  }
}
