/**
 * The authentication routes: registration against the e-mail-keyed user table, login with
 * its failure modes and `lastLogin` update, and the current-user lookup behind `protect`.
 */
module AuthRoutes {
  import opened Base
  import opened Text
  import opened Collaborators
  import opened UserModel
  import opened AuthMiddleware
  import opened Db

  /** The register request body; absent fields are `None`. */
  datatype RegisterRequest = RegisterRequest(
    email: Option<string>, password: Option<string>, name: Option<string>, role: Option<string>)

  /** The login request body. */
  datatype LoginRequest = LoginRequest(email: Option<string>, password: Option<string>)

  /** The answer of register and login: the user's id, e-mail, name and role, and a session token. */
  datatype Session = Session(id: nat, email: string, name: string, role: Role, token: string)

  /** The answer of `/me`. */
  datatype Profile = Profile(id: nat, email: string, name: string, role: Role, lastLogin: Option<int>)

  const UserExistsMessage: string := "User already exists"
  const InvalidCredentialsMessage: string := "Invalid credentials"
  const UserNotFoundMessage: string := "User not found"
  /** What `bcryptjs.compare` throws when the stored hash is absent, answered with 500. */
  const CompareFailedMessage: string := "Illegal arguments: string, undefined"

  /** The register validators: an e-mail, a password `isLength` counts at least six characters in, a non-blank name. */
  predicate RegisterValid(req: RegisterRequest, v: Validators) {
    && req.email.Some? && v.isEmail(req.email.value)
    && req.password.Some? && ValidatorLength(req.password.value) >= MinPasswordLength
    && req.name.Some? && Trim(req.name.value) != ""
  }

  /** `role || "admin"`: an absent or empty role is "admin". */
  function RoleOrAdmin(role: Option<string>): (s: string)
    ensures role.Some? && role.value != "" ==> s == role.value
    ensures role.None? || role.value == "" ==> s == "admin"
  {
    if role.Some? && role.value != "" then role.value else "admin"
  }

  /** What register passes to `User.create`: the sanitised e-mail and name, the password, the role. */
  function RegisterFields(req: RegisterRequest, v: Validators): UserFields
    requires RegisterValid(req, v)
  {
    UserFields(v.normalizeEmail(req.email.value), req.password, None, Some(RoleOrAdmin(req.role)),
               Trim(req.name.value), None)
  }

  /**
   * POST /register as a decision on the user table: the validators (400), the duplicate
   * check (400), `User.create` (500 on a schema error such as an unknown role), then the
   * pre-save hook, which hashes the new password. The result is the stored record.
   */
  function Register(users: seq<User>, req: RegisterRequest, v: Validators, crypto: Crypto): (r: Response<User>)
    ensures !RegisterValid(req, v) ==> r == Err(BadRequest, InvalidRequest)
    ensures RegisterValid(req, v) && FindByEmail(users, v.normalizeEmail(req.email.value)).Some? ==>
      r == Err(BadRequest, UserExistsMessage)
    ensures RegisterValid(req, v) && FindByEmail(users, v.normalizeEmail(req.email.value)).None?
            && ParseRole(RoleOrAdmin(req.role)).None? ==>
      r == Err(ServerError, SchemaValidationFailed)
    ensures RegisterValid(req, v) && FindByEmail(users, v.normalizeEmail(req.email.value)).None?
            && NormalEmail(v.normalizeEmail(req.email.value)) == "" ==>
      r == Err(ServerError, SchemaValidationFailed)
    ensures r.Ok? <==>
      && RegisterValid(req, v)
      && FindByEmail(users, v.normalizeEmail(req.email.value)).None?
      && ParseRole(RoleOrAdmin(req.role)).Some?
      && NormalEmail(v.normalizeEmail(req.email.value)) != ""
    ensures r.Ok? ==>
      && RegisterValid(req, v)
      && ValidUser(r.value)
      && r.value.email == NormalEmail(v.normalizeEmail(req.email.value))
      && (forall j :: 0 <= j < |users| ==> users[j].email != r.value.email)
      && r.value.name == Trim(req.name.value)
      && RoleName(r.value.role) == RoleOrAdmin(req.role)
      && r.value.password == Some(crypto.hash(req.password.value))
      && r.value.googleId.None? && r.value.isActive && r.value.lastLogin.None?
  {
    if !RegisterValid(req, v) then Err(BadRequest, InvalidRequest)
    else if FindByEmail(users, v.normalizeEmail(req.email.value)).Some? then Err(BadRequest, UserExistsMessage)
    else
      var created := CreateUser(RegisterFields(req, v));
      if created.None? then Err(ServerError, SchemaValidationFailed)
      else Ok(created.value.(password := Some(crypto.hash(req.password.value))))
  }

  /** `isLength` leaves out a trailing U+FE0F, so "abcde" with one is a five-character password and refused. */
  lemma RegisterSkipsPresentationSelector(users: seq<User>, req: RegisterRequest, v: Validators, crypto: Crypto)
    requires req.password == Some("abcde\U{FE0F}")
    ensures Register(users, req, v, crypto) == Err(BadRequest, InvalidRequest)
  {
    LengthExamples();
  }

  /** An address already in the table is refused, whatever case or surrounding spaces it is given in. */
  lemma RegisterDuplicate(users: seq<User>, req: RegisterRequest, v: Validators, crypto: Crypto, i: nat)
    requires RegisterValid(req, v)
    requires i < |users| && users[i].email == NormalEmail(v.normalizeEmail(req.email.value))
    ensures Register(users, req, v, crypto) == Err(BadRequest, UserExistsMessage)
  {
  }

  /** Register stores an admin when no role (or an empty one) is given, unlike the schema's default. */
  lemma RegisterDefaultRole(users: seq<User>, req: RegisterRequest, v: Validators, crypto: Crypto)
    requires RegisterValid(req, v) && (req.role.None? || req.role.value == "")
    requires FindByEmail(users, v.normalizeEmail(req.email.value)).None?
    requires NormalEmail(v.normalizeEmail(req.email.value)) != ""
    ensures Register(users, req, v, crypto).Ok? && Register(users, req, v, crypto).value.role == Admin
  {
    assert RegisterFields(req, v).role == Some("admin");
    assert FieldsAccepted(RegisterFields(req, v));
  }

  /** Registering keeps the table valid: the new address is unique and the record satisfies the schema. */
  lemma RegisterKeepsValid(users: seq<User>, req: RegisterRequest, v: Validators, crypto: Crypto)
    requires ValidUsers(users) && Register(users, req, v, crypto).Ok?
    ensures ValidUsers(users + [Register(users, req, v, crypto).value])
  {
    var u := Register(users, req, v, crypto).value;
    var us := users + [u];
    forall i, j | 0 <= i < j < |us|
      ensures us[i].email != us[j].email
      ensures us[i].googleId.Some? && us[j].googleId.Some? ==> us[i].googleId != us[j].googleId
    {
      if j == |users| {
        assert us[i] == users[i] && us[j] == u;
      } else {
        assert us[i] == users[i] && us[j] == users[j];
      }
    }
  }

  /** The login validators: an e-mail and a password field, which may be empty. */
  predicate LoginValid(req: LoginRequest, v: Validators) {
    req.email.Some? && v.isEmail(req.email.value) && req.password.Some?
  }

  /**
   * POST /login as a decision on the user table: the validators (400), an unknown address
   * and a wrong password (the same 401), an account without a password (the comparison
   * throws: 500), otherwise the id of the user. Whether the account is active is not checked.
   */
  function Login(users: seq<User>, req: LoginRequest, v: Validators, crypto: Crypto): (r: Response<nat>)
    ensures !LoginValid(req, v) ==> r == Err(BadRequest, InvalidRequest)
    ensures LoginValid(req, v) && FindByEmail(users, v.normalizeEmail(req.email.value)).None? ==>
      r == Err(Unauthorized, InvalidCredentialsMessage)
    ensures r.Ok? <==>
      && LoginValid(req, v)
      && FindByEmail(users, v.normalizeEmail(req.email.value)).Some?
      && users[FindByEmail(users, v.normalizeEmail(req.email.value)).value].password.Some?
      && crypto.compare(req.password.value,
                        users[FindByEmail(users, v.normalizeEmail(req.email.value)).value].password.value)
    ensures r.Ok? ==> r.value == FindByEmail(users, v.normalizeEmail(req.email.value)).value
    ensures r.Err? ==> r.status in {BadRequest, Unauthorized, ServerError}
  {
    if !LoginValid(req, v) then Err(BadRequest, InvalidRequest)
    else
      var found := FindByEmail(users, v.normalizeEmail(req.email.value));
      if found.None? then Err(Unauthorized, InvalidCredentialsMessage)
      else
        var stored := users[found.value].password;
        if stored.None? then Err(ServerError, CompareFailedMessage)
        else if !crypto.compare(req.password.value, stored.value) then Err(Unauthorized, InvalidCredentialsMessage)
        else Ok(found.value)
  }

  /** An unknown address and a wrong password for a known one get the identical answer. */
  lemma LoginFailuresIndistinguishable(users: seq<User>, unknown: LoginRequest, wrong: LoginRequest,
                                       v: Validators, crypto: Crypto)
    requires LoginValid(unknown, v) && FindByEmail(users, v.normalizeEmail(unknown.email.value)).None?
    requires LoginValid(wrong, v) && FindByEmail(users, v.normalizeEmail(wrong.email.value)).Some?
    requires var u := users[FindByEmail(users, v.normalizeEmail(wrong.email.value)).value];
      u.password.Some? && !crypto.compare(wrong.password.value, u.password.value)
    ensures Login(users, unknown, v, crypto) == Login(users, wrong, v, crypto)
    ensures Login(users, unknown, v, crypto) == Err(Unauthorized, InvalidCredentialsMessage)
  {
  }

  /** A deactivated account still logs in with the right password: login never reads `isActive`. */
  lemma LoginIgnoresActive(users: seq<User>, req: LoginRequest, v: Validators, crypto: Crypto, i: nat)
    requires Login(users, req, v, crypto) == Ok(i)
    ensures Login(users[i := users[i].(isActive := false)], req, v, crypto) == Ok(i)
  {
    var deactivated := users[i := users[i].(isActive := false)];
    var email := NormalEmail(v.normalizeEmail(req.email.value));
    FindSameEmails(users, deactivated, email, 0);
  }

  /** Two tables with the same addresses answer every lookup alike. */
  lemma {:induction false} FindSameEmails(a: seq<User>, b: seq<User>, email: string, from: nat)
    requires |a| == |b| && from <= |a|
    requires forall j :: 0 <= j < |a| ==> a[j].email == b[j].email
    ensures FindFrom(a, email, from) == FindFrom(b, email, from)
    decreases |a| - from
  {
    if from < |a| && a[from].email != email {
      FindSameEmails(a, b, email, from + 1);
    }
  }

  /**
   * Once registered, the same address and password log in as the new user, provided the
   * hash comparison accepts a password against its own hash.
   */
  lemma RegisterThenLogin(users: seq<User>, req: RegisterRequest, v: Validators, crypto: Crypto)
    requires ValidUsers(users) && Register(users, req, v, crypto).Ok?
    requires crypto.compare(req.password.value, crypto.hash(req.password.value))
    ensures var after := users + [Register(users, req, v, crypto).value];
      Login(after, LoginRequest(req.email, req.password), v, crypto) == Ok(|users|)
  {
    var u := Register(users, req, v, crypto).value;
    var after := users + [u];
    RegisterKeepsValid(users, req, v, crypto);
    FindByEmailUnique(after, v.normalizeEmail(req.email.value), |users|);
  }

  /**
   * The login handler: the checks above, then `lastLogin` is set and the user saved; the
   * password is not modified, so the pre-save hook does not hash it again.
   */
  method LoginHandler(db: Store, req: LoginRequest, v: Validators, crypto: Crypto, now: int)
    returns (r: Response<Session>)
    requires db.Valid()
    modifies db
    ensures db.Valid()
    ensures db.menu == old(db.menu) && db.orders == old(db.orders)
    ensures Login(old(db.users), req, v, crypto).Err? ==>
      && r == Err(Login(old(db.users), req, v, crypto).status, Login(old(db.users), req, v, crypto).message)
      && db.users == old(db.users)
    ensures Login(old(db.users), req, v, crypto).Ok? ==>
      var id := Login(old(db.users), req, v, crypto).value;
      && r == Ok(Session(id, old(db.users)[id].email, old(db.users)[id].name, old(db.users)[id].role, crypto.sign(id)))
      && db.users == old(db.users)[id := old(db.users)[id].(lastLogin := Some(now))]
  {
    if !LoginValid(req, v) {
      return Err(BadRequest, InvalidRequest);
    }
    var found := FindByEmail(db.users, v.normalizeEmail(req.email.value));
    if found.None? {
      return Err(Unauthorized, InvalidCredentialsMessage);
    }
    var id := found.value;
    var user := db.users[id];
    if user.password.None? {
      return Err(ServerError, CompareFailedMessage);
    }
    if !crypto.compare(req.password.value, user.password.value) {
      return Err(Unauthorized, InvalidCredentialsMessage);
    }
    var doc := new UserDocument(user, false);
    doc.data := doc.data.(lastLogin := Some(now));
    doc.PreSave(crypto);
    ValidUsersSetLastLogin(db.users, id, now);
    db.users := db.users[id := doc.data];
    r := Ok(Session(id, doc.data.email, doc.data.name, doc.data.role, crypto.sign(id)));
  }

  /** Setting one user's `lastLogin` keeps the table valid. */
  lemma ValidUsersSetLastLogin(users: seq<User>, i: nat, now: int)
    requires ValidUsers(users) && i < |users|
    ensures ValidUsers(users[i := users[i].(lastLogin := Some(now))])
  {
    var us := users[i := users[i].(lastLogin := Some(now))];
    assert forall j :: 0 <= j < |us| ==> us[j].email == users[j].email && us[j].googleId == users[j].googleId;
  }

  /**
   * The register handler: the checks above, then the new user is saved (its password
   * hashed by the pre-save hook) and answered with a token for its id.
   */
  method RegisterHandler(db: Store, req: RegisterRequest, v: Validators, crypto: Crypto)
    returns (r: Response<Session>)
    requires db.Valid()
    modifies db
    ensures db.Valid()
    ensures db.menu == old(db.menu) && db.orders == old(db.orders)
    ensures Register(old(db.users), req, v, crypto).Err? ==>
      && r == Err(Register(old(db.users), req, v, crypto).status, Register(old(db.users), req, v, crypto).message)
      && db.users == old(db.users)
    ensures Register(old(db.users), req, v, crypto).Ok? ==>
      var u := Register(old(db.users), req, v, crypto).value;
      && r == Ok(Session(|old(db.users)|, u.email, u.name, u.role, crypto.sign(|old(db.users)|)))
      && db.users == old(db.users) + [u]
  {
    if !RegisterValid(req, v) {
      return Err(BadRequest, InvalidRequest);
    }
    var email := v.normalizeEmail(req.email.value);
    if FindByEmail(db.users, email).Some? {
      return Err(BadRequest, UserExistsMessage);
    }
    var created := CreateUser(UserFields(email, req.password, None, Some(RoleOrAdmin(req.role)),
                                         Trim(req.name.value), None));
    if created.None? {
      return Err(ServerError, SchemaValidationFailed);
    }
    var doc := new UserDocument(created.value, true);
    doc.PreSave(crypto);
    RegisterKeepsValid(db.users, req, v, crypto);
    var id := |db.users|;
    db.users := db.users + [doc.data];
    r := Ok(Session(id, doc.data.email, doc.data.name, doc.data.role, crypto.sign(id)));
  }

  /**
   * The `/me` handler: the user `protect` attached is looked up again; a user no longer in
   * the table is 404. Being deactivated does not matter here.
   */
  function MeHandler(users: seq<User>, user: AuthUser): (r: Response<Profile>)
    ensures r.Err? <==> user.id >= |users|
    ensures r.Err? ==> r == Err(NotFound, UserNotFoundMessage)
    ensures r.Ok? ==> r.value == Profile(user.id, users[user.id].email, users[user.id].name,
                                         users[user.id].role, users[user.id].lastLogin)
  {
    if user.id >= |users| then Err(NotFound, UserNotFoundMessage)
    else
      var u := users[user.id];
      Ok(Profile(user.id, u.email, u.name, u.role, u.lastLogin))
  }

  /** GET /me: `protect` (no role check), then the handler. */
  function Me(users: seq<User>, header: Option<string>, crypto: Crypto): (r: Response<Profile>)
    ensures Authenticate(users, header, crypto).Reject? ==>
      r == Err(Authenticate(users, header, crypto).status, Authenticate(users, header, crypto).message)
    ensures Authenticate(users, header, crypto).Proceed? ==> r == MeHandler(users, Authenticate(users, header, crypto).user)
  {
    match Authenticate(users, header, crypto)
    case Reject(s, m) => Err(s, m)
    case Proceed(u) => MeHandler(users, u)
  }

  /**
   * Read against the table `protect` checked, `/me` answers every authenticated request with
   * the caller's own record: the 404 needs the user to vanish in between.
   */
  lemma MeAfterProtect(users: seq<User>, header: Option<string>, crypto: Crypto)
    requires Authenticate(users, header, crypto).Proceed?
    ensures var a := Authenticate(users, header, crypto).user;
      Me(users, header, crypto) == Ok(Profile(a.id, users[a.id].email, users[a.id].name, users[a.id].role,
                                               users[a.id].lastLogin))
  {
  }
}
