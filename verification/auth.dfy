/** The account routes (backend/routes/auth.js): register (`createuser`), login and
    get-user. The user collection is a table from user id to user; hashing,
    e-mail syntax and normalisation and token signing are the capabilities of Env. */
module AccountService {
  import opened Common
  import opened Externals

  /** A stored user. `password` is the bcrypt digest; it is optional because the
      login route guards against a stored record without one. */
  datatype User = User(name: string, email: string, password: Option<string>)

  /** The user object the routes send back: never the password. */
  datatype PublicUser = PublicUser(id: UserId, name: string, email: string)

  /** The JSON an account route answers with. */
  datatype AuthReply =
    | Authenticated(status: nat, authToken: string, user: PublicUser)  // 201 / 200, { success: true, authToken, user }
    | Profile(user: PublicUser)                                        // 200, the user without its password
    | Invalid(errors: seq<FieldError>)                                 // 400, { success: false, errors }
    | Failed(status: nat, message: string)                             // { success: false, error: message }

  function ReplyStatus(r: AuthReply): nat {
    match r
    case Authenticated(status, _, _) => status
    case Profile(_) => 200
    case Invalid(_) => 400
    case Failed(status, _) => status
  }

  const NameMsg := "Name must be 3+ characters"
  const EmailMsg := "Invalid email"
  const PasswordMsg := "Password must be 5+ characters"
  const LoginEmailMsg := "Enter a valid email"
  const LoginPasswordMsg := "Password cannot be blank"
  const EmailTakenMsg := "Email already exists"
  const InternalErrorMsg := "Internal server error"
  const BadCredentialsMsg := "Invalid credentials"
  const ConfigErrorMsg := "Account configuration error"
  const UserNotFoundMsg := "User not found"

  /** Lifetime of a login token in seconds (`expiresIn: '1h'`). */
  const LoginTokenLifetime: nat := 3600

  /** `sendError`: the failure shape with the given status and message. */
  function SendError(status: nat, message: string): (r: AuthReply)
    ensures ReplyStatus(r) == status && r.Failed? && r.message == message
  {
    Failed(status, message)
  }

  /** The public-safe projection of a stored user. */
  function Project(id: UserId, u: User): PublicUser {
    PublicUser(id, u.name, u.email)
  }

  /** No two users share an e-mail address; the register route keeps this true. */
  ghost predicate UniqueEmails(users: map<UserId, User>) {
    forall a, b :: a in users && b in users && users[a].email == users[b].email ==> a == b
  }

  predicate EmailTaken(users: map<UserId, User>, email: string) {
    exists id :: id in users && users[id].email == email
  }

  /** `User.findOne({ email })`. */
  function FindByEmail(users: map<UserId, User>, email: string): (r: Option<UserId>)
    requires UniqueEmails(users)
    ensures r.Some? <==> EmailTaken(users, email)
    ensures r.Some? ==> r.value in users && users[r.value].email == email
  {
    if EmailTaken(users, email) then
      var id :| id in users && users[id].email == email; Some(id)
    else
      None
  }

  /** The validation chain of the register route, in its order: name, e-mail, password. */
  function CreateUserErrors(env: Env, name: Option<string>, email: Option<string>, password: Option<string>): (errors: seq<FieldError>)
    ensures FieldError("name", NameMsg) in errors <==> |Text(name)| < 3
    ensures FieldError("email", EmailMsg) in errors <==> !env.isEmail(Text(email))
    ensures FieldError("password", PasswordMsg) in errors <==> |Text(password)| < 5
    ensures forall e :: e in errors ==> e in [FieldError("name", NameMsg), FieldError("email", EmailMsg), FieldError("password", PasswordMsg)]
    ensures InChainOrder(errors, ["name", "email", "password"])
  {
    (if |Text(name)| < 3 then [FieldError("name", NameMsg)] else [])
    + (if !env.isEmail(Text(email)) then [FieldError("email", EmailMsg)] else [])
    + (if |Text(password)| < 5 then [FieldError("password", PasswordMsg)] else [])
  }

  /** A route's reply together with the user table it leaves behind. */
  datatype Registration = Registration(reply: AuthReply, users: map<UserId, User>)

  /** The register route. `salt` is bcrypt's random salt and `newId` the id the
      store assigns; an id already in use is the store's duplicate-key failure. */
  function CreateUserResult(env: Env, users: map<UserId, User>, name: Option<string>, email: Option<string>,
                            password: Option<string>, salt: string, newId: UserId): (o: Registration)
    requires UniqueEmails(users)
    ensures var errors := CreateUserErrors(env, name, email, password);
      errors != [] ==> o == Registration(Invalid(errors), users)
    ensures CreateUserErrors(env, name, email, password) == [] && EmailTaken(users, env.normalizeEmail(Text(email)))
      ==> o == Registration(Failed(400, EmailTakenMsg), users)
    ensures o.reply.Authenticated? <==>
      CreateUserErrors(env, name, email, password) == [] && !EmailTaken(users, env.normalizeEmail(Text(email))) && newId !in users
    ensures o.reply.Authenticated? ==>
      var stored := User(Text(name), env.normalizeEmail(Text(email)), Some(env.hash(Text(password), salt)));
      && o.users == users[newId := stored]
      && o.reply == Authenticated(201, env.sign(Claims(newId, None)), Project(newId, stored))
    ensures !o.reply.Authenticated? ==> o.users == users
    ensures UniqueEmails(o.users)
  {
    var errors := CreateUserErrors(env, name, email, password);
    var normalized := env.normalizeEmail(Text(email));
    if errors != [] then Registration(Invalid(errors), users)
    else if FindByEmail(users, normalized).Some? then Registration(SendError(400, EmailTakenMsg), users)
    else if newId in users then Registration(SendError(500, InternalErrorMsg), users)
    else
      var stored := User(Text(name), normalized, Some(env.hash(Text(password), salt)));
      Registration(Authenticated(201, env.sign(Claims(newId, None)), Project(newId, stored)), users[newId := stored])
  }

  /** The validation chain of the login route: e-mail syntax, then presence of a password. */
  function LoginErrors(env: Env, email: Option<string>, password: Option<string>): (errors: seq<FieldError>)
    ensures FieldError("email", LoginEmailMsg) in errors <==> !env.isEmail(Text(email))
    ensures FieldError("password", LoginPasswordMsg) in errors <==> password.None?
    ensures forall e :: e in errors ==> e in [FieldError("email", LoginEmailMsg), FieldError("password", LoginPasswordMsg)]
    ensures InChainOrder(errors, ["email", "password"])
  {
    (if !env.isEmail(Text(email)) then [FieldError("email", LoginEmailMsg)] else [])
    + (if password.None? then [FieldError("password", LoginPasswordMsg)] else [])
  }

  /** The login route: validation, lookup by normalised e-mail, the stored-password
      integrity check, then the password comparison. */
  function LoginResult(env: Env, users: map<UserId, User>, email: Option<string>, password: Option<string>): (r: AuthReply)
    requires UniqueEmails(users)
    ensures LoginErrors(env, email, password) != [] ==> r == Invalid(LoginErrors(env, email, password))
    ensures LoginErrors(env, email, password) == [] && !EmailTaken(users, env.normalizeEmail(Text(email)))
      ==> r == Failed(400, BadCredentialsMsg)
    ensures r.Authenticated? <==>
      && LoginErrors(env, email, password) == []
      && exists id :: id in users && users[id].email == env.normalizeEmail(Text(email))
           && Truthy(users[id].password) && env.compare(password.value, users[id].password.value)
    ensures r.Authenticated? ==>
      && r.user.id in users
      && users[r.user.id].email == env.normalizeEmail(Text(email))
      && Truthy(users[r.user.id].password) && env.compare(password.value, users[r.user.id].password.value)
      && r.user == Project(r.user.id, users[r.user.id])
      && r.status == 200
      && r.authToken == env.sign(Claims(r.user.id, Some(LoginTokenLifetime)))
  {
    var errors := LoginErrors(env, email, password);
    if errors != [] then Invalid(errors)
    else match FindByEmail(users, env.normalizeEmail(Text(email)))
      case None => Failed(400, BadCredentialsMsg)
      case Some(id) =>
        var user := users[id];
        if !Truthy(user.password) then Failed(500, ConfigErrorMsg)
        else if !env.compare(password.value, user.password.value) then Failed(400, BadCredentialsMsg)
        else Authenticated(200, env.sign(Claims(id, Some(LoginTokenLifetime))), Project(id, user))
  }

  /** The get-user route, for the caller the gate resolved. */
  function GetUserResult(users: map<UserId, User>, caller: UserId): (r: AuthReply)
    ensures caller !in users ==> r == Failed(404, UserNotFoundMsg)
    ensures caller in users ==>
      r.Profile? && r.user.id == caller && r.user.name == users[caller].name && r.user.email == users[caller].email
  {
    if caller in users then Profile(Project(caller, users[caller])) else SendError(404, UserNotFoundMsg)
  }

  /** Unknown e-mail and wrong password cannot be told apart: the reply for an
      address nobody registered is the reply for a known address whose stored
      digest rejects the password. */
  lemma UnknownEmailLooksLikeWrongPassword(env: Env, unknown: map<UserId, User>, known: map<UserId, User>,
                                          email: Option<string>, password: Option<string>, id: UserId)
    requires UniqueEmails(unknown) && UniqueEmails(known)
    requires LoginErrors(env, email, password) == []
    requires !EmailTaken(unknown, env.normalizeEmail(Text(email)))
    requires id in known && known[id].email == env.normalizeEmail(Text(email))
    requires Truthy(known[id].password) && !env.compare(password.value, known[id].password.value)
    ensures LoginResult(env, unknown, email, password) == LoginResult(env, known, email, password) == Failed(400, BadCredentialsMsg)
  {
  }

  /** A stored user without a password is reported as a configuration error before
      any comparison: the answer does not depend on bcrypt at all. */
  lemma MissingDigestBeforeCompare(env: Env, compare': (string, string) -> bool, users: map<UserId, User>,
                                   email: Option<string>, password: Option<string>, id: UserId)
    requires UniqueEmails(users)
    requires LoginErrors(env, email, password) == []
    requires id in users && users[id].email == env.normalizeEmail(Text(email)) && !Truthy(users[id].password)
    ensures LoginResult(env, users, email, password) == LoginResult(env.(compare := compare'), users, email, password)
              == Failed(500, ConfigErrorMsg)
  {
  }

  /** Register, then log in with the same credentials: the login succeeds for the
      new user, and both tokens pass the gate's verifier as that user. */
  lemma {:induction false} RegisterThenLogin(env: Env, users: map<UserId, User>, name: Option<string>, email: Option<string>,
                                             password: Option<string>, salt: string, newId: UserId)
    requires HashSound(env) && TokensSound(env) && UniqueEmails(users)
    requires CreateUserResult(env, users, name, email, password, salt, newId).reply.Authenticated?
    ensures var reg := CreateUserResult(env, users, name, email, password, salt, newId);
      var login := LoginResult(env, reg.users, email, password);
      && login.Authenticated? && login.user == reg.reply.user && login.user.id == newId
      && env.verify(reg.reply.authToken) == Some(newId) && reg.reply.authToken != ""
      && env.verify(login.authToken) == Some(newId) && login.authToken != ""
  {
    var reg := CreateUserResult(env, users, name, email, password, salt, newId);
    var normalized := env.normalizeEmail(Text(email));
    assert FieldError("email", EmailMsg) !in CreateUserErrors(env, name, email, password);
    assert FieldError("password", PasswordMsg) !in CreateUserErrors(env, name, email, password);
    assert LoginErrors(env, email, password) == [];
    assert reg.users[newId].email == normalized;
    assert FindByEmail(reg.users, normalized) == Some(newId);
    var digest := env.hash(Text(password), salt);
    assert digest != "" && env.compare(Text(password), digest);
    var login := LoginResult(env, reg.users, email, password);
    assert login == Authenticated(200, env.sign(Claims(newId, Some(LoginTokenLifetime))), Project(newId, reg.users[newId]));
    assert env.verify(env.sign(Claims(newId, None))) == Some(newId);
    assert env.verify(env.sign(Claims(newId, Some(LoginTokenLifetime)))) == Some(newId);
  }

  /** Registering a second time under an address with the same normalised form is
      refused as a duplicate and leaves the table as the first registration left it. */
  lemma {:induction false} RegisterTwice(env: Env, users: map<UserId, User>, name: Option<string>, email: Option<string>,
                                         password: Option<string>, salt: string, newId: UserId,
                                         name': Option<string>, email': Option<string>, password': Option<string>,
                                         salt': string, newId': UserId)
    requires UniqueEmails(users)
    requires CreateUserResult(env, users, name, email, password, salt, newId).reply.Authenticated?
    requires env.normalizeEmail(Text(email')) == env.normalizeEmail(Text(email))
    requires CreateUserErrors(env, name', email', password') == []
    ensures var first := CreateUserResult(env, users, name, email, password, salt, newId).users;
      CreateUserResult(env, first, name', email', password', salt', newId') == Registration(Failed(400, EmailTakenMsg), first)
  {
    var first := CreateUserResult(env, users, name, email, password, salt, newId).users;
    assert first[newId].email == env.normalizeEmail(Text(email'));
    assert EmailTaken(first, env.normalizeEmail(Text(email')));
  }

  /** The user collection as the routes see it. */
  class UserStore {
    const env: Env
    var users: map<UserId, User>

    ghost predicate Valid()
      reads this
    {
      UniqueEmails(users)
    }

    constructor (env: Env)
      ensures Valid() && this.env == env && users == map[]
    {
      this.env := env;
      users := map[];
    }

    /** POST /createuser */
    method CreateUser(name: Option<string>, email: Option<string>, password: Option<string>, salt: string, newId: UserId)
      returns (reply: AuthReply)
      requires Valid()
      modifies this
      ensures Valid()
      ensures Registration(reply, users) == CreateUserResult(env, old(users), name, email, password, salt, newId)
    {
      var errors := CreateUserErrors(env, name, email, password);
      if errors != [] {
        return Invalid(errors);
      }
      var normalized := env.normalizeEmail(Text(email));
      var existing := FindByEmail(users, normalized);
      if existing.Some? {
        return SendError(400, EmailTakenMsg);
      }
      var digest := env.hash(Text(password), salt);
      if newId in users {
        return SendError(500, InternalErrorMsg);
      }
      var user := User(Text(name), normalized, Some(digest));
      users := users[newId := user];
      var token := env.sign(Claims(newId, None));
      reply := Authenticated(201, token, Project(newId, user));
    }

    /** POST /login */
    method Login(email: Option<string>, password: Option<string>) returns (reply: AuthReply)
      requires Valid()
      ensures reply == LoginResult(env, users, email, password)
    {
      var errors := LoginErrors(env, email, password);
      if errors != [] {
        return Invalid(errors);
      }
      var found := FindByEmail(users, env.normalizeEmail(Text(email)));
      if found.None? {
        return Failed(400, BadCredentialsMsg);
      }
      var id := found.value;
      var user := users[id];
      if !Truthy(user.password) {
        return Failed(500, ConfigErrorMsg);
      }
      var isMatch := env.compare(password.value, user.password.value);
      if !isMatch {
        return Failed(400, BadCredentialsMsg);
      }
      var token := env.sign(Claims(id, Some(LoginTokenLifetime)));
      reply := Authenticated(200, token, Project(id, user));
    }

    /** GET /getuser, for the caller the gate resolved. */
    method GetUser(caller: UserId) returns (reply: AuthReply)
      ensures reply == GetUserResult(users, caller)
    {
      if caller !in users {
        return SendError(404, UserNotFoundMsg);
      }
      var user := users[caller];
      reply := Profile(Project(caller, user));
    }
  }
}
