/**
 * The user schema: the role enumeration, the e-mail normalisation setters, defaults and
 * validators, the uniqueness constraints of the user collection, and the pre-save hook
 * that hashes a new or changed password.
 */
module UserModel {
  import opened Base
  import opened Text
  import opened Collaborators

  datatype Role = Admin | Staff | Customer

  function RoleName(r: Role): string {
    match r
    case Admin => "admin"
    case Staff => "staff"
    case Customer => "customer"
  }

  /** The `role` enum validator. */
  function ParseRole(s: string): (r: Option<Role>)
    ensures r.Some? ==> RoleName(r.value) == s
    ensures r.None? ==> forall t: Role :: RoleName(t) != s
  {
    if s == "admin" then Some(Admin) else if s == "staff" then Some(Staff)
    else if s == "customer" then Some(Customer) else None
  }

  datatype User = User(
    email: string,
    password: Option<string>,          // the stored hash; absent for OAuth-only accounts
    googleId: Option<string>,
    role: Role,
    name: string,
    isActive: bool,
    lastLogin: Option<int>,
    resetPasswordToken: Option<string>,
    resetPasswordExpire: Option<int>)

  /** What `User.create` is given; absent fields are `None`. */
  datatype UserFields = UserFields(
    email: string,
    password: Option<string>,
    googleId: Option<string>,
    role: Option<string>,
    name: string,
    isActive: Option<bool>)

  /** The `lowercase` and `trim` setters of `email`, which also apply to e-mail queries. */
  function NormalEmail(e: string): string {
    Lower(Trim(e))
  }

  /** Already normalised: no whitespace at the ends and no upper-case letter. */
  predicate IsNormalEmail(e: string) {
    Trimmed(e) && Lower(e) == e
  }

  /** The setters always produce a normalised address, and leave a normalised one alone. */
  lemma NormalEmailIsNormal(e: string)
    ensures IsNormalEmail(NormalEmail(e))
    ensures IsNormalEmail(e) ==> NormalEmail(e) == e
  {
    LowerKeepsTrimmed(Trim(e));
    LowerIdempotent(Trim(e));
    if IsNormalEmail(e) {
      TrimOfTrimmed(e);
    }
  }

  lemma LowerKeepsTrimmed(t: string)
    requires Trimmed(t)
    ensures Trimmed(Lower(t))
  {
    var l := Lower(t);
    if l != [] {
      assert l[0] == LowerChar(t[0]) && l[|l| - 1] == LowerChar(t[|t| - 1]);
    }
  }

  /** Normalising twice is normalising once. */
  lemma NormalEmailIdempotent(e: string)
    ensures NormalEmail(NormalEmail(e)) == NormalEmail(e)
  {
    NormalEmailIsNormal(e);
    NormalEmailIsNormal(NormalEmail(e));
  }

  const MinPasswordLength: nat := 6

  /** What the schema guarantees of every stored user. */
  predicate ValidUser(u: User) {
    u.email != "" && IsNormalEmail(u.email) && Trimmed(u.name) && u.name != ""
  }

  predicate FieldsAccepted(f: UserFields) {
    && NormalEmail(f.email) != ""
    && Trim(f.name) != ""
    && (f.password.Some? ==> Utf16Length(f.password.value) >= MinPasswordLength)
    && (f.role.Some? ==> ParseRole(f.role.value).Some?)
  }

  /**
   * Document creation: setters, defaults (role "customer", active), then validation. The
   * password is still the plain text; the pre-save hook hashes it.
   */
  function CreateUser(f: UserFields): (r: Option<User>)
    ensures r.Some? <==> FieldsAccepted(f)
    ensures r.Some? ==> ValidUser(r.value)
    ensures r.Some? ==>
      && r.value.email == NormalEmail(f.email) && r.value.name == Trim(f.name)
      && r.value.password == f.password && r.value.googleId == f.googleId
      && r.value.role == (if f.role.Some? then ParseRole(f.role.value).value else Customer)
      && r.value.isActive == (if f.isActive.Some? then f.isActive.value else true)
      && r.value.lastLogin.None?
  {
    if FieldsAccepted(f) then
      NormalEmailIsNormal(f.email);
      Some(User(NormalEmail(f.email), f.password, f.googleId,
                if f.role.Some? then ParseRole(f.role.value).value else Customer,
                Trim(f.name), if f.isActive.Some? then f.isActive.value else true,
                None, None, None))
    else None
  }

  /** With no role and no activity flag given, a user is an active customer. */
  lemma CreateUserDefaults(f: UserFields)
    requires FieldsAccepted(f) && f.role.None? && f.isActive.None?
    ensures CreateUser(f).value.role == Customer && CreateUser(f).value.isActive
  {
  }

  /** `minlength` counts code units, so three emoji make a six-unit password the schema accepts. */
  lemma CreateUserCountsCodeUnits(f: UserFields)
    requires NormalEmail(f.email) != "" && Trim(f.name) != "" && f.role.None?
    requires f.password == Some("\U{1F600}\U{1F600}\U{1F600}")
    ensures CreateUser(f).Some?
  {
    LengthExamples();
  }

  /** The collection's unique indexes: e-mail, and Google id among the users that have one. */
  predicate UniqueKeys(users: seq<User>) {
    forall i, j :: 0 <= i < j < |users| ==>
      users[i].email != users[j].email
      && (users[i].googleId.Some? && users[j].googleId.Some? ==> users[i].googleId != users[j].googleId)
  }

  predicate ValidUsers(users: seq<User>) {
    (forall i :: 0 <= i < |users| ==> ValidUser(users[i])) && UniqueKeys(users)
  }

  /** Any number of users may lack a Google id: the index is sparse. */
  lemma SparseGoogleId(users: seq<User>)
    requires forall i :: 0 <= i < |users| ==> users[i].googleId.None?
    requires forall i, j :: 0 <= i < j < |users| ==> users[i].email != users[j].email
    ensures UniqueKeys(users)
  {
  }

  /** `findOne({ email })`: the first user with that e-mail, the setters applied to the filter. */
  function FindByEmail(users: seq<User>, email: string): (r: Option<nat>)
    ensures r.Some? ==> r.value < |users| && users[r.value].email == NormalEmail(email)
    ensures r.None? ==> forall j :: 0 <= j < |users| ==> users[j].email != NormalEmail(email)
  {
    FindFrom(users, NormalEmail(email), 0)
  }

  function FindFrom(users: seq<User>, email: string, from: nat): (r: Option<nat>)
    requires from <= |users|
    ensures r.Some? ==> from <= r.value < |users| && users[r.value].email == email
    ensures r.None? ==> forall j :: from <= j < |users| ==> users[j].email != email
    decreases |users| - from
  {
    if from == |users| then None
    else if users[from].email == email then Some(from)
    else FindFrom(users, email, from + 1)
  }

  /** With unique e-mails the lookup finds the one user that has the address. */
  lemma FindByEmailUnique(users: seq<User>, email: string, i: nat)
    requires UniqueKeys(users) && i < |users| && users[i].email == NormalEmail(email)
    ensures FindByEmail(users, email) == Some(i)
  {
  }

  /** bcrypt is skipped for an absent or empty password and for an unmodified one. */
  predicate HashesOnSave(password: Option<string>, modified: bool) {
    password.Some? && password.value != "" && modified
  }

  /** A Mongoose user document: its data and whether `password` was modified since loading. */
  class UserDocument {
    var data: User
    var passwordModified: bool

    constructor (u: User, passwordModified: bool)
      ensures data == u && this.passwordModified == passwordModified
    {
      data := u;
      this.passwordModified := passwordModified;
    }

    /** The pre-save hook: a present, modified password is replaced by its hash. */
    method PreSave(crypto: Crypto)
      modifies this`data
      ensures HashesOnSave(old(data).password, passwordModified) ==>
        data == old(data).(password := Some(crypto.hash(old(data).password.value)))
      ensures !HashesOnSave(old(data).password, passwordModified) ==> data == old(data)
    {
      if data.password.None? || data.password.value == "" || !passwordModified {
        return;
      }
      data := data.(password := Some(crypto.hash(data.password.value)));
    }
  }
}
