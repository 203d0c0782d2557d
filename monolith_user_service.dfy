/** The monolith's `UserService`: registration, which inserts into the user table, and
    login, a lookup followed by two checks. Password hashing is the caller's `encode`
    and `matches`; the names of the `User.Role` constants are the caller's `roles`. */
module MonolithUserService {
  import opened Wrappers
  import opened Text
  import opened Users
  import opened MonolithStore

  const DefaultRole := "CUSTOMER"

  datatype RegisterRequest = RegisterRequest(
    username: string,
    email: string,
    password: string,
    firstName: Option<string>,
    lastName: Option<string>,
    phoneNumber: Option<string>,
    role: Option<string>)

  /** `findByUsername(...).isPresent()`. */
  predicate UsernameInUse(users: UserTable, username: string)
  {
    exists id :: id in users && users[id].username == username
  }

  /** `findByEmail(...).isPresent()`. */
  predicate EmailInUse(users: UserTable, email: string)
  {
    exists id :: id in users && users[id].email == email
  }

  /** The role of a new user: the upper-cased name when it names a role, otherwise, and
      when none is given, CUSTOMER. */
  function ResolveRole(role: Option<string>, roles: set<string>): (r: string)
    requires DefaultRole in roles
    ensures r in roles
    ensures role.Some? && ToUpper(role.value) in roles ==> r == ToUpper(role.value)
    ensures role.None? || ToUpper(role.value) !in roles ==> r == DefaultRole
  {
    if role.Some? && ToUpper(role.value) in roles then ToUpper(role.value) else DefaultRole
  }

  /** A missing, empty or whitespace-only phone number is stored as null, any other
      unchanged. */
  function NormalisePhone(p: Option<string>): (r: Option<string>)
    ensures r.None? <==> p.None? || forall i :: 0 <= i < |p.value| ==> p.value[i] <= ' '
    ensures r.Some? ==> r == p
  {
    if p.Some? then BlankIffAllSpace(p.value); (if IsBlank(p.value) then None else p)
    else None
  }

  /** `register`: a taken user name is reported before a taken e-mail address, and a
      rejected registration stores nothing. A new user is enabled and not verified. */
  method Register(db: Database, req: RegisterRequest, encode: string -> string, roles: set<string>)
    returns (r: Result<User>)
    requires db.Valid() && DefaultRole in roles
    modifies db
    ensures db.Valid()
    ensures UsernameInUse(old(db.users), req.username) <==> r == Err(Runtime(UsernameTaken))
    ensures (!UsernameInUse(old(db.users), req.username) && EmailInUse(old(db.users), req.email))
            <==> r == Err(Runtime(EmailTaken))
    ensures r.Ok? <==> !UsernameInUse(old(db.users), req.username) && !EmailInUse(old(db.users), req.email)
    ensures r.Err? ==> unchanged(db)
    ensures r.Ok? ==> r.value.id == old(db.nextId) && r.value.id !in old(db.users)
                      && db.users == old(db.users)[r.value.id := r.value]
    ensures r.Ok? ==> r.value.username == req.username && r.value.email == req.email
                      && r.value.password == encode(req.password)
                      && r.value.firstName == req.firstName && r.value.lastName == req.lastName
    ensures r.Ok? ==> r.value.role == ResolveRole(req.role, roles) && r.value.phoneNumber == NormalisePhone(req.phoneNumber)
    ensures r.Ok? ==> r.value.enabled && !r.value.emailVerified
    ensures db.hotels == old(db.hotels) && db.rooms == old(db.rooms) && db.bookings == old(db.bookings)
  {
    if UsernameInUse(db.users, req.username) {
      return Err(Runtime(UsernameTaken));
    }
    if EmailInUse(db.users, req.email) {
      return Err(Runtime(EmailTaken));
    }
    var id := db.Allocate();
    var user := User(id, req.username, req.email, encode(req.password), req.firstName, req.lastName,
                     NormalisePhone(req.phoneNumber), ResolveRole(req.role, roles), true, false);
    db.users := db.users[id := user];
    r := Ok(user);
  }

  /** `findByEmail`: with unique e-mail addresses, the one user holding `email`. */
  function FindByEmail(users: UserTable, email: string): (r: Option<User>)
    requires Keyed(users) && UniqueLogins(users)
    ensures r.Some? <==> EmailInUse(users, email)
    ensures r.Some? ==> r.value.email == email && r.value.id in users && users[r.value.id] == r.value
  {
    if EmailInUse(users, email) then
      var id :| id in users && users[id].email == email;
      Some(users[id])
    else None
  }

  /** `login`: an unknown e-mail address and a wrong password give the same error; a
      disabled account is only reported to the holder of the right password. */
  function Login(users: UserTable, email: string, password: string, matches: (string, string) -> bool): (r: Result<User>)
    requires Keyed(users) && UniqueLogins(users)
    ensures r.Ok? <==> exists id :: id in users && users[id].email == email
                                    && matches(password, users[id].password) && users[id].enabled
    ensures r.Ok? ==> r.value in users.Values && r.value.email == email
    ensures r.Err? ==> r.failure == Runtime(BadCredentials) || r.failure == Runtime(AccountDisabled)
    ensures r == Err(Runtime(AccountDisabled)) <==>
              exists id :: id in users && users[id].email == email
                           && matches(password, users[id].password) && !users[id].enabled
  {
    match FindByEmail(users, email)
    case None => Err(Runtime(BadCredentials))
    case Some(u) =>
      if !matches(password, u.password) then Err(Runtime(BadCredentials))
      else if !u.enabled then Err(Runtime(AccountDisabled))
      else Ok(u)
  }

  /** A registered user can log in with the password they registered. */
  lemma RegisteredUserCanLogIn(users: UserTable, u: User, password: string,
                               encode: string -> string, matches: (string, string) -> bool)
    requires Keyed(users) && UniqueLogins(users)
    requires u.id in users && users[u.id] == u && u.enabled && u.password == encode(password)
    requires matches(password, encode(password))
    ensures Login(users, u.email, password, matches) == Ok(u)
  {
  }
}
