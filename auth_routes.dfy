/** `POST /auth/register`, `POST /auth/login` and `GET /auth/me`
    (Backend/src/routes/authRoutes.js). bcrypt is the pair `hash` (what
    `bcrypt.hash(_, 10)` returns) and `compare`; `jwt.sign` with the
    server's secret and expiry is `sign`. A body field that is absent is
    `None`. */
module AuthRoutes {
  import opened Wrappers
  import opened JsText
  import opened Models
  import opened Store
  import opened Http
  import opened Access
  import opened Middleware

  /** The `user` object of a reply. `id` is `None` where the handler reads
      a property the object does not have. */
  datatype UserView = UserView(id: Option<string>, name: string, email: string, role: Role, tenantId: string)

  datatype AuthPayload =
    | Session(user: UserView, token: string)
    | Profile(user: UserView)
    | ValidationFailed(error: ValidationError)

  const FieldsRequired: string := "name, email, password, and tenantId are required"
  const EmailInUse: string := "Email already in use"
  const CredentialsRequired: string := "email and password are required"
  const InvalidCredentials: string := "Invalid credentials"

  /** `createToken(user)`: the signed claims `userId`, `role`, `tenantId`. */
  function CreateToken(u: User, sign: Claims -> string): string
  {
    sign(Claims(u.id, u.role, u.tenantId))
  }

  /** The token depends on the user's id, role and tenant only: name,
      address and password hash are not signed into it. */
  lemma TokenCarriesClaimsOnly(u: User, w: User, sign: Claims -> string)
    requires w.id == u.id && w.role == u.role && w.tenantId == u.tenantId
    ensures CreateToken(w, sign) == CreateToken(u, sign)
  {
  }

  /** The `user` object register and login answer with: no password hash. */
  function ViewOf(u: User): (v: UserView)
    ensures v.id == Some(u.id) && v.name == u.name && v.email == u.email
    ensures v.role == u.role && v.tenantId == u.tenantId
  {
    UserView(Some(u.id), u.name, u.email, u.role, u.tenantId)
  }

  // ------------------------------------------------------------- register

  datatype RegisterResult = RegisterResult(reply: Reply<AuthPayload>, created: Option<User>)

  predicate RegisterFieldsPresent(name: Option<string>, email: Option<string>, password: Option<string>,
                                  tenantId: Option<string>)
  {
    Truthy(name) && Truthy(email) && Truthy(password) && Truthy(tenantId)
  }

  /** `role || "viewer"`. */
  function RequestedRole(role: Option<string>): string
  {
    if Truthy(role) then role.value else "viewer"
  }

  /** The handler of `POST /auth/register` over the user table, with
      `newId` the `_id` Mongo assigns. A rejected `User.create` (a name
      or address of spaces only, an unknown role) ends in 500. */
  function Register(users: seq<User>, newId: string, name: Option<string>, email: Option<string>,
                    password: Option<string>, tenantId: Option<string>, role: Option<string>,
                    hash: string -> string, sign: Claims -> string): (r: RegisterResult)
    ensures !RegisterFieldsPresent(name, email, password, tenantId)
            ==> r == RegisterResult(JsonMessage(400, FieldsRequired), None)
    ensures RegisterFieldsPresent(name, email, password, tenantId)
            && FindUserByEmail(users, NormalizeEmail(email.value)).Some?
            ==> r == RegisterResult(JsonMessage(409, EmailInUse), None)
    ensures r.created.Some? <==>
      && RegisterFieldsPresent(name, email, password, tenantId)
      && (forall k :: 0 <= k < |users| ==> users[k].email != NormalizeEmail(email.value))
      && NewUser(newId, name.value, email.value, hash(password.value), tenantId.value, Some(RequestedRole(role))).Success?
    ensures r.created.Some? ==>
      var u := r.created.value;
      && u.id == newId && u.name == Trim(name.value) && u.email == NormalizeEmail(email.value)
      && u.passwordHash == hash(password.value) && u.tenantId == tenantId.value
      && RoleName(u.role) == RequestedRole(role)
      && r.reply == Reply(201, map[], Payload(Session(ViewOf(u), CreateToken(u, sign))))
    ensures r.reply.status == 500 <==>
      && RegisterFieldsPresent(name, email, password, tenantId)
      && FindUserByEmail(users, NormalizeEmail(email.value)).None?
      && r.created.None?
  {
    if !RegisterFieldsPresent(name, email, password, tenantId) then
      RegisterResult(JsonMessage(400, FieldsRequired), None)
    else if FindUserByEmail(users, NormalizeEmail(email.value)).Some? then
      RegisterResult(JsonMessage(409, EmailInUse), None)
    else
      var created := NewUser(newId, name.value, email.value, hash(password.value), tenantId.value,
                             Some(RequestedRole(role)));
      if created.Failure? then RegisterResult(Reply(500, map[], Payload(ValidationFailed(created.error))), None)
      else RegisterResult(Reply(201, map[], Payload(Session(ViewOf(created.value), CreateToken(created.value, sign)))),
                          Some(created.value))
  }

  /** The handler of `POST /auth/register` on the store. */
  method HandleRegister(db: Database, newId: string, name: Option<string>, email: Option<string>,
                        password: Option<string>, tenantId: Option<string>, role: Option<string>,
                        hash: string -> string, sign: Claims -> string) returns (reply: Reply<AuthPayload>)
    modifies db`users
    ensures var r := Register(old(db.users), newId, name, email, password, tenantId, role, hash, sign);
      && reply == r.reply
      && db.users == if r.created.Some? then old(db.users) + [r.created.value] else old(db.users)
  {
    if !(Truthy(name) && Truthy(email) && Truthy(password) && Truthy(tenantId)) {
      return JsonMessage(400, FieldsRequired);
    }
    var existing := FindUserByEmail(db.users, NormalizeEmail(email.value));
    if existing.Some? {
      return JsonMessage(409, EmailInUse);
    }
    var passwordHash := hash(password.value);
    var created := NewUser(newId, name.value, email.value, passwordHash, tenantId.value, Some(RequestedRole(role)));
    if created.Failure? {
      return Reply(500, map[], Payload(ValidationFailed(created.error)));
    }
    db.InsertUser(created.value);
    var token := CreateToken(created.value, sign);
    reply := Reply(201, map[], Payload(Session(ViewOf(created.value), token)));
  }

  // ---------------------------------------------------------------- login

  /** The handler of `POST /auth/login`. */
  function Login(users: seq<User>, email: Option<string>, password: Option<string>,
                 compare: (string, string) -> bool, sign: Claims -> string): (r: Reply<AuthPayload>)
    ensures !(Truthy(email) && Truthy(password)) ==> r == JsonMessage(400, CredentialsRequired)
    ensures Truthy(email) && Truthy(password) ==>
      var found := FindUserByEmail(users, NormalizeEmail(email.value));
      && (r.status == 200 <==> found.Some? && compare(password.value, found.value.passwordHash))
      && (r.status == 200 ==> r == Reply(200, map[], Payload(Session(ViewOf(found.value), CreateToken(found.value, sign)))))
      && (r.status != 200 ==> r == JsonMessage(401, InvalidCredentials))
  {
    if !(Truthy(email) && Truthy(password)) then JsonMessage(400, CredentialsRequired)
    else
      var found := FindUserByEmail(users, NormalizeEmail(email.value));
      if found.None? then JsonMessage(401, InvalidCredentials)
      else if !compare(password.value, found.value.passwordHash) then JsonMessage(401, InvalidCredentials)
      else Reply(200, map[], Payload(Session(ViewOf(found.value), CreateToken(found.value, sign))))
  }

  // ------------------------------------------------------------------- me

  /** `GET /auth/me` as written: it reads `req.user._id`, which the
      principal does not have, so `id` is always absent. */
  function Me(user: Principal): (r: Reply<AuthPayload>)
    ensures r.status == 200 && r.body.Payload? && r.body.value.Profile?
    ensures r.body.value.user.id.None?
    ensures var v := r.body.value.user;
      v.name == user.name && v.email == user.email && v.role == user.role && v.tenantId == user.tenantId
  {
    Reply(200, map[], Payload(Profile(UserView(None, user.name, user.email, user.role, user.tenantId))))
  }

  /** `GET /auth/me` reading `req.user.userId`, the id the principal carries. */
  function MeIntended(user: Principal): (r: Reply<AuthPayload>)
    ensures r.status == 200 && r.body.Payload? && r.body.value.Profile?
    ensures r.body.value.user.id == Some(user.userId)
  {
    Reply(200, map[], Payload(Profile(UserView(Some(user.userId), user.name, user.email, user.role, user.tenantId))))
  }

  // ----------------------------------------------------------- properties

  /** Registering keeps addresses unique: the new address is normalized
      exactly as the lookup before it. */
  lemma RegisterKeepsEmailsUnique(users: seq<User>, newId: string, name: Option<string>, email: Option<string>,
                                  password: Option<string>, tenantId: Option<string>, role: Option<string>,
                                  hash: string -> string, sign: Claims -> string)
    requires UniqueEmails(users)
    ensures var r := Register(users, newId, name, email, password, tenantId, role, hash, sign);
      UniqueEmails(if r.created.Some? then users + [r.created.value] else users)
  {
    var r := Register(users, newId, name, email, password, tenantId, role, hash, sign);
    if r.created.Some? {
      var after := users + [r.created.value];
      forall i, j | 0 <= i < j < |after| ensures after[i].email != after[j].email {
        if j == |users| {
          assert after[i] == users[i];
        } else {
          assert after[i] == users[i] && after[j] == users[j];
        }
      }
    }
  }

  /** Whoever registers can log in with the same address (in any case and
      spacing that normalizes alike) and password, and gets the user
      object register answered with. */
  lemma RegisteredUserCanLogIn(users: seq<User>, newId: string, name: Option<string>, email: Option<string>,
                               password: Option<string>, tenantId: Option<string>, role: Option<string>,
                               hash: string -> string, sign: Claims -> string,
                               compare: (string, string) -> bool, loginEmail: string)
    requires var r := Register(users, newId, name, email, password, tenantId, role, hash, sign);
      r.created.Some? && compare(password.value, hash(password.value))
    requires NormalizeEmail(loginEmail) == NormalizeEmail(email.value)
    ensures var r := Register(users, newId, name, email, password, tenantId, role, hash, sign);
      var l := Login(users + [r.created.value], Some(loginEmail), password, compare, sign);
      && l.status == 200
      && l.body.value.user == r.reply.body.value.user
  {
    var r := Register(users, newId, name, email, password, tenantId, role, hash, sign);
    var u := r.created.value;
    var after := users + [u];
    NormalizeEmailIdempotent(email.value);
    assert after[|users|] == u;
    assert FirstWithEmail(after, NormalizeEmail(loginEmail), |users|) by {
      forall j | 0 <= j < |users| ensures after[j].email != NormalizeEmail(loginEmail) {
        assert after[j] == users[j];
      }
    }
    var found := FindUserByEmail(after, NormalizeEmail(loginEmail));
    var k :| FirstWithEmail(after, NormalizeEmail(loginEmail), k) && after[k] == found.value;
    assert k == |users|;
  }

  /** An unknown address and a wrong password get the same answer. */
  lemma LoginFailuresAlike(users: seq<User>, unknown: string, known: string, password: string,
                           compare: (string, string) -> bool, sign: Claims -> string)
    requires unknown != "" && password != ""
    requires forall k :: 0 <= k < |users| ==> users[k].email != NormalizeEmail(unknown)
    requires var found := FindUserByEmail(users, NormalizeEmail(known));
      known != "" && found.Some? && !compare(password, found.value.passwordHash)
    ensures Login(users, Some(unknown), Some(password), compare, sign)
            == Login(users, Some(known), Some(password), compare, sign)
            == JsonMessage(401, InvalidCredentials)
  {
  }

  /** A token issued for a stored user authenticates as that user, when
      `verify` recovers what `sign` signed and ids are unique. */
  lemma IssuedTokenAuthenticates(users: seq<User>, k: nat, sign: Claims -> string, verify: string -> Option<Claims>)
    requires k < |users|
    requires forall j :: 0 <= j < k ==> users[j].id != users[k].id
    requires var c := Claims(users[k].id, users[k].role, users[k].tenantId);
      sign(c) != "" && verify(sign(c)) == Some(c)
    ensures Authenticate(Some(CreateToken(users[k], sign)), verify, users) == Authenticated(PrincipalOf(users[k]))
  {
    FirstUserWithId(users, k);
  }

  lemma {:induction false} FirstUserWithId(users: seq<User>, k: nat)
    requires k < |users|
    requires forall j :: 0 <= j < k ==> users[j].id != users[k].id
    ensures FindUserById(users, users[k].id) == Some(users[k])
  {
    if k > 0 {
      FirstUserWithId(users[1..], k - 1);
    }
  }

  /** As written, `/auth/me` never returns the user object that login
      returned for the same user: the id is lost. */
  lemma MeLosesSessionId(u: User)
    ensures Me(PrincipalOf(u)).body.value.user != ViewOf(u)
  {
  }

  /** Reading the principal's `userId`, `/auth/me` returns exactly the
      user object login returned. */
  lemma MeIntendedMatchesSession(u: User)
    ensures MeIntended(PrincipalOf(u)).body.value.user == ViewOf(u)
  {
  }
}
