/** Registration and login over a user store keyed by email. Password hashing
    (`bcrypt.hash`, `bcrypt.compare`) and token signing (`jwt.sign` with the
    server secret) are library calls and appear here as function parameters. */
module Users {
  import opened Http

  /** A stored user. The password field only ever holds a hash. */
  datatype User = User(id: string, username: string, email: string, passwordHash: string, role: string)

  /** What a login token carries. */
  datatype Claims = Claims(userId: string, role: string)

  /** The lifetime a token is signed with: one hour. */
  const TokenLifetimeSeconds: nat := 3600

  /** The role registration stores: the supplied role when it is truthy
      (present and non-empty), otherwise "user". */
  function RoleOrDefault(role: Option<string>): (r: string)
    ensures r != ""
    ensures role.Some? && role.value != "" ==> r == role.value
    ensures role.None? || role.value == "" ==> r == "user"
  {
    if role.Some? && role.value != "" then role.value else "user"
  }

  /** The record registration stores: the password replaced by its hash. */
  function NewUser(id: string, username: string, email: string, password: string, role: Option<string>,
                   hash: string -> string): (u: User)
    ensures u.email == email && u.id == id && u.username == username
    ensures u.passwordHash == hash(password)
    ensures u.role == RoleOrDefault(role)
  {
    User(id, username, email, hash(password), RoleOrDefault(role))
  }

  /** `loginUser`: 400 for validation errors before any lookup; 404 for an
      unknown email before any password check; 401 when the password does not
      match the stored hash; otherwise a token for the user's id and role
      that expires after one hour. */
  function Login(users: map<string, User>, errors: seq<string>, email: string, password: string,
                 compare: (string, string) -> bool, sign: (Claims, nat) -> string): (r: Result<string>)
    ensures errors != [] ==> r == Invalid(errors)
    ensures errors == [] && email !in users ==> r == Failure(NotFound, "User Not Found")
    ensures errors == [] && email in users && !compare(password, users[email].passwordHash) ==>
      r == Failure(Unauthorized, "Incorrect Password")
    ensures r.Success? <==> errors == [] && email in users && compare(password, users[email].passwordHash)
    ensures r.Success? ==> r.status == Ok
    ensures r.Success? ==> r.value == sign(Claims(users[email].id, users[email].role), TokenLifetimeSeconds)
  {
    if errors != [] then Invalid(errors)
    else if email !in users then Failure(NotFound, "User Not Found")
    else
      var user := users[email];
      if !compare(password, user.passwordHash) then Failure(Unauthorized, "Incorrect Password")
      else Success(Ok, "Login Successful", sign(Claims(user.id, user.role), TokenLifetimeSeconds))
  }

  /** Validation failures are decided without the store: the reply is the
      same whatever users exist. */
  lemma LoginValidationFirst(users1: map<string, User>, users2: map<string, User>, errors: seq<string>,
                             email: string, password: string,
                             compare: (string, string) -> bool, sign: (Claims, nat) -> string)
    requires errors != []
    ensures Login(users1, errors, email, password, compare, sign) == Login(users2, errors, email, password, compare, sign)
  {
  }

  /** An unknown email is decided without comparing any password: the reply
      is the same whatever the comparison function. */
  lemma LoginUnknownBeforeCompare(users: map<string, User>, email: string, password: string,
                                  compare1: (string, string) -> bool, compare2: (string, string) -> bool,
                                  sign: (Claims, nat) -> string)
    requires email !in users
    ensures Login(users, [], email, password, compare1, sign) == Login(users, [], email, password, compare2, sign)
  {
  }

  /** Registering and then logging in with the same password succeeds, given
      that the library accepts a password against its own hash. */
  lemma RegisterThenLogin(users: map<string, User>, id: string, username: string, email: string,
                          password: string, role: Option<string>,
                          hash: string -> string, compare: (string, string) -> bool,
                          sign: (Claims, nat) -> string)
    requires compare(password, hash(password))
    ensures var stored := users[email := NewUser(id, username, email, password, role, hash)];
      Login(stored, [], email, password, compare, sign) ==
        Success(Ok, "Login Successful", sign(Claims(id, RoleOrDefault(role)), TokenLifetimeSeconds))
  {
  }

  /** The user store. */
  class UserStore {
    var users: map<string, User>

    constructor ()
      ensures users == map[]
    {
      users := map[];
    }

    /** `registerUser`: 400 for validation errors before any lookup; 400
        "User Already Registered" for a known email, adding nothing;
        otherwise the new user is stored with the hashed password and the
        defaulted role. */
    method RegisterUser(errors: seq<string>, username: string, email: string, password: string,
                        role: Option<string>, newId: string, hash: string -> string)
      returns (r: Result<()>)
      requires forall e :: e in users ==> users[e].id != newId
      modifies this
      ensures errors != [] ==> r == Invalid(errors) && users == old(users)
      ensures errors == [] && email in old(users) ==>
        r == Failure(BadRequest, "User Already Registered") && users == old(users)
      ensures errors == [] && email !in old(users) ==>
        r == Success(Created, "Registration Successfull", ()) &&
        users == old(users)[email := NewUser(newId, username, email, password, role, hash)]
    {
      if errors != [] {
        return Invalid(errors);
      }
      if email in users {
        return Failure(BadRequest, "User Already Registered");
      }
      var hashed := hash(password);
      var stored := if role.Some? && role.value != "" then role.value else "user";
      users := users[email := User(newId, username, email, hashed, stored)];
      r := Success(Created, "Registration Successfull", ());
    }
  }
}
