/** `AuthService`: registration and login over the `users` table. The password
    encoder and the token issuer are inputs: `encode` gives the stored hash of
    a raw password, `matches(raw, hash)` says whether a raw password fits a
    hash, and `token(username, role)` is the signed token. The role enum's
    constants are an input too (`roleNames`), the `User` entity not being
    part of this model. */
module AuthService {
  import opened Wrappers
  import opened Ascii
  import opened Store

  /** A stored user. The role is kept by its enum name; `active` is a boxed
      Boolean and may be null. */
  datatype UserRow = UserRow(
    username: string,
    email: string,
    password: string,
    firstName: string,
    lastName: string,
    role: string,
    active: Option<bool>)

  type Users = map<int, UserRow>

  datatype RegisterRequest = RegisterRequest(
    username: string,
    email: string,
    password: string,
    firstName: string,
    lastName: string,
    role: Option<string>)

  datatype LoginRequest = LoginRequest(username: string, password: string)

  predicate UsernamesUnique(t: Users) {
    forall i, j :: i in t && j in t && t[i].username == t[j].username ==> i == j
  }

  predicate EmailsUnique(t: Users) {
    forall i, j :: i in t && j in t && t[i].email == t[j].email ==> i == j
  }

  /** `existsByUsername`. */
  predicate UsernameTaken(t: Users, username: string) {
    exists id :: id in t && t[id].username == username
  }

  /** `existsByEmail`. */
  predicate EmailTaken(t: Users, email: string) {
    exists id :: id in t && t[id].email == email
  }

  /** `findByUsername`: with unique usernames, the one user of that name. */
  ghost function UserNamed(t: Users, username: string): (r: Option<UserRow>)
    requires UsernamesUnique(t)
    ensures r.None? <==> !UsernameTaken(t, username)
    ensures r.Some? ==> r.value.username == username && exists id :: id in t && t[id] == r.value
    ensures forall id :: id in t && t[id].username == username ==> r == Some(t[id])
  {
    if UsernameTaken(t, username) then
      var id :| id in t && t[id].username == username;
      Some(t[id])
    else None
  }

  /** `Role.valueOf(role.toUpperCase())`: a null role is a null dereference,
      an unknown one is refused. */
  function ParseRole(role: Option<string>, roleNames: set<string>): (r: Result<string>)
    ensures role.None? ==> r == Err(NullValue)
    ensures role.Some? ==> (r.Ok? <==> UpperString(role.value) in roleNames)
    ensures role.Some? && r.Ok? ==> r.value == UpperString(role.value)
    ensures role.Some? && r.Err? ==> r.error == InvalidEnum(role.value)
  {
    if role.None? then Err(NullValue)
    else if UpperString(role.value) in roleNames then Ok(UpperString(role.value))
    else Err(InvalidEnum(role.value))
  }

  /** The user `register` builds: active, with the encoded password. */
  function Registered(req: RegisterRequest, role: string, encode: string -> string): (u: UserRow)
    ensures u.active == Some(true)
    ensures u.password == encode(req.password)
    ensures u.username == req.username && u.email == req.email && u.role == role
    ensures u.firstName == req.firstName && u.lastName == req.lastName
  {
    UserRow(req.username, req.email, encode(req.password), req.firstName, req.lastName, role, Some(true))
  }

  /** The decision `login` takes about the user found (or not) under the
      requested name: unknown user, then wrong password, then disabled
      account; a token only when all three pass. */
  function LoginOutcome(user: Option<UserRow>, password: string,
                        matches: (string, string) -> bool, token: (string, string) -> string): (r: Result<string>)
    ensures user.None? ==> r == Err(NotFound("User not found"))
    ensures user.Some? && !matches(password, user.value.password) ==> r == Err(BadRequest("Invalid password"))
    ensures user.Some? && matches(password, user.value.password) && user.value.active == Some(false) ==>
      r == Err(BadRequest("User account is disabled"))
    ensures r.Ok? <==> user.Some? && matches(password, user.value.password) && user.value.active == Some(true)
    ensures r.Ok? ==> r.value == token(user.value.username, user.value.role)
  {
    if user.None? then Err(NotFound("User not found"))
    else if !matches(password, user.value.password) then Err(BadRequest("Invalid password"))
    else match user.value.active
      case None => Err(NullValue)
      case Some(false) => Err(BadRequest("User account is disabled"))
      case Some(true) => Ok(token(user.value.username, user.value.role))
  }

  /** A user just registered can log in with the raw password, when the
      encoder recognises its own hashes, and gets the same token the
      registration returned. */
  lemma RegisteredUserCanLogIn(t: Users, id: int, req: RegisterRequest, role: string,
                               encode: string -> string, matches: (string, string) -> bool,
                               token: (string, string) -> string)
    requires UsernamesUnique(t) && id !in t && !UsernameTaken(t, req.username)
    requires matches(req.password, encode(req.password))
    ensures UsernamesUnique(t[id := Registered(req, role, encode)])
    ensures LoginOutcome(UserNamed(t[id := Registered(req, role, encode)], req.username), req.password, matches, token)
      == Ok(token(req.username, role))
  {
    var t' := t[id := Registered(req, role, encode)];
    assert forall k :: k in t ==> t[k].username != req.username;
    assert t'[id].username == req.username;
  }

  class AuthService {
    var users: Users
    var nextId: int

    ghost predicate Valid()
      reads this
    {
      UsernamesUnique(users) && EmailsUnique(users) && forall id :: id in users ==> id < nextId
    }

    constructor ()
      ensures Valid() && users == map[]
    {
      users, nextId := map[], 1;
    }

    /** `register`: the username is checked before the e-mail, and nothing is
        saved when either is taken or the role is not a role. */
    method Register(req: RegisterRequest, roleNames: set<string>, encode: string -> string,
                    token: (string, string) -> string) returns (r: Result<string>)
      requires Valid()
      modifies this
      ensures Valid()
      ensures UsernameTaken(old(users), req.username) ==>
        r == Err(BadRequest("Username already exists")) && users == old(users) && nextId == old(nextId)
      ensures !UsernameTaken(old(users), req.username) && EmailTaken(old(users), req.email) ==>
        r == Err(BadRequest("Email already exists")) && users == old(users) && nextId == old(nextId)
      ensures !UsernameTaken(old(users), req.username) && !EmailTaken(old(users), req.email) ==>
        match ParseRole(req.role, roleNames)
        case Err(e) => r == Err(e) && users == old(users) && nextId == old(nextId)
        case Ok(role) =>
          old(nextId) !in old(users) && users == old(users)[old(nextId) := Registered(req, role, encode)] &&
          nextId == old(nextId) + 1 && r == Ok(token(req.username, role))
    {
      if exists id :: id in users && users[id].username == req.username {
        return Err(BadRequest("Username already exists"));
      }
      if exists id :: id in users && users[id].email == req.email {
        return Err(BadRequest("Email already exists"));
      }
      var role := ParseRole(req.role, roleNames);
      if role.Err? {
        return Err(role.error);
      }
      var user := Registered(req, role.value, encode);
      users := users[nextId := user];
      nextId := nextId + 1;
      r := Ok(token(user.username, user.role));
    }

    /** `login`: changes nothing; its answer is `LoginOutcome` for the user
        of the requested name. */
    method Login(req: LoginRequest, matches: (string, string) -> bool,
                 token: (string, string) -> string) returns (r: Result<string>)
      requires Valid()
      ensures r == LoginOutcome(UserNamed(users, req.username), req.password, matches, token)
    {
      var found := Where(users, (u: UserRow) => u.username == req.username);
      if found == map[] {
        return Err(NotFound("User not found"));
      }
      SomeRow(found);
      var id :| id in found;
      var user := found[id];
      if !matches(req.password, user.password) {
        return Err(BadRequest("Invalid password"));
      }
      match user.active {
        case None =>
          return Err(NullValue);
        case Some(false) =>
          return Err(BadRequest("User account is disabled"));
        case Some(true) =>
          return Ok(token(user.username, user.role));
      }
    }
  }
}
