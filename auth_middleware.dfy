/**
 * The authentication and authorization gate: extracting the bearer token from the
 * `Authorization` header, verifying it, re-reading the live user record, and the role check.
 */
module AuthMiddleware {
  import opened Base
  import opened Text
  import opened Collaborators
  import opened UserModel

  /** What `protect` attaches to the request: the user's id, e-mail and role name. */
  datatype AuthUser = AuthUser(id: nat, email: string, role: string)

  /** Either the request goes on to the handler, or it is answered with an error. */
  datatype GateOutcome = Proceed(user: AuthUser) | Reject(status: nat, message: string)

  const NoTokenMessage: string := "Not authorized, no token provided"
  const TokenFailedMessage: string := "Not authorized, token failed"
  const InactiveMessage: string := "User not found or inactive"

  /** The role list of `authorize("admin")`, which every guarded route of the core mounts. */
  const AdminOnly: seq<string> := ["admin"]

  /**
   * The token: the second space-separated field of a header that starts with "Bearer";
   * an empty or missing second field is no token.
   */
  function BearerToken(header: Option<string>): (t: Option<string>)
    ensures t.Some? ==> header.Some? && StartsWith(header.value, "Bearer")
    ensures t.Some? ==> t.value != "" && ' ' !in t.value
  {
    if header.Some? && StartsWith(header.value, "Bearer") then
      var fields := Split(header.value, ' ');
      if |fields| >= 2 && fields[1] != "" then Some(fields[1]) else None
    else None
  }

  /** The token a client sends as "Bearer <token>" is the token extracted. */
  lemma BearerRoundTrip(token: string)
    requires token != "" && ' ' !in token
    ensures BearerToken(Some("Bearer " + token)) == Some(token)
  {
    var h := "Bearer " + token;
    assert h == Join(["Bearer", token], ' ');
    SplitJoin(["Bearer", token], ' ');
    assert h[..6] == "Bearer";
  }

  /** "Bearer" alone, and "Bearer" followed by two spaces, carry no token. */
  lemma BearerWithoutToken(rest: string)
    ensures BearerToken(Some("Bearer")) == None
    ensures BearerToken(Some("Bearer  " + rest)) == None
  {
    assert Split("Bearer", ' ') == ["Bearer"] by {
      IndexOfAbsent("Bearer", ' ');
    }
    var h := "Bearer  " + rest;
    IndexOfFirst("Bearer", ' ', " " + rest);
    assert h == "Bearer" + [' '] + (" " + rest);
    assert h[7..] == " " + rest;
    IndexOfFirst("", ' ', rest);
    assert [] + [' '] + rest == " " + rest;
    assert Split(h[7..], ' ')[0] == "";
  }

  /** A header that does not start with "Bearer", or no header at all, carries no token. */
  lemma NoBearerPrefix(header: Option<string>)
    requires header.None? || !StartsWith(header.value, "Bearer")
    ensures BearerToken(header) == None
  {
  }

  /**
   * `protect` as a decision: no token gives 401 "no token provided", a token that does
   * not verify gives 401 "token failed", a verified id whose user is missing or inactive
   * gives 401 "not found or inactive", and otherwise the live record is attached.
   */
  function Authenticate(users: seq<User>, header: Option<string>, crypto: Crypto): (g: GateOutcome)
    ensures g.Reject? ==> g.status == Unauthorized
    ensures BearerToken(header).None? ==> g == Reject(Unauthorized, NoTokenMessage)
    ensures BearerToken(header).Some? && crypto.verify(BearerToken(header).value).None? ==>
      g == Reject(Unauthorized, TokenFailedMessage)
    ensures BearerToken(header).Some? && crypto.verify(BearerToken(header).value).Some? ==>
      var id := crypto.verify(BearerToken(header).value).value;
      (id >= |users| || !users[id].isActive) ==> g == Reject(Unauthorized, InactiveMessage)
    ensures g.Proceed? <==>
      && BearerToken(header).Some?
      && crypto.verify(BearerToken(header).value).Some?
      && crypto.verify(BearerToken(header).value).value < |users|
      && users[crypto.verify(BearerToken(header).value).value].isActive
    ensures g.Proceed? ==>
      var id := crypto.verify(BearerToken(header).value).value;
      g.user == AuthUser(id, users[id].email, RoleName(users[id].role))
  {
    var token := BearerToken(header);
    if token.None? then Reject(Unauthorized, NoTokenMessage)
    else
      var decoded := crypto.verify(token.value);
      if decoded.None? then Reject(Unauthorized, TokenFailedMessage)
      else if decoded.value >= |users| || !users[decoded.value].isActive then
        Reject(Unauthorized, InactiveMessage)
      else
        var u := users[decoded.value];
        Proceed(AuthUser(decoded.value, u.email, RoleName(u.role)))
  }

  /**
   * The middleware itself: the local token is assigned from the header, then each check
   * answers early; only a request that passes all of them proceeds.
   */
  method Protect(users: seq<User>, header: Option<string>, crypto: Crypto) returns (g: GateOutcome)
    ensures g == Authenticate(users, header, crypto)
  {
    var token: Option<string> := None;
    if header.Some? && StartsWith(header.value, "Bearer") {
      var fields := Split(header.value, ' ');
      if |fields| >= 2 {
        token := Some(fields[1]);
      }
    }
    if token.None? || token.value == "" {
      return Reject(Unauthorized, NoTokenMessage);
    }
    var decoded := crypto.verify(token.value);
    if decoded.None? {
      return Reject(Unauthorized, TokenFailedMessage);
    }
    if decoded.value >= |users| || !users[decoded.value].isActive {
      return Reject(Unauthorized, InactiveMessage);
    }
    var user := users[decoded.value];
    g := Proceed(AuthUser(decoded.value, user.email, RoleName(user.role)));
  }

  /** A session token issued for an active user lets that user through, with its role. */
  lemma SignedTokenProceeds(users: seq<User>, id: nat, crypto: Crypto)
    requires id < |users| && users[id].isActive
    requires crypto.sign(id) != "" && ' ' !in crypto.sign(id)
    requires crypto.verify(crypto.sign(id)) == Some(id)
    ensures Authenticate(users, Some("Bearer " + crypto.sign(id)), crypto)
      == Proceed(AuthUser(id, users[id].email, RoleName(users[id].role)))
  {
    BearerRoundTrip(crypto.sign(id));
  }

  /** A deactivated user is turned away even with a token that verifies. */
  lemma InactiveUserRejected(users: seq<User>, header: Option<string>, crypto: Crypto)
    requires BearerToken(header).Some?
    requires var d := crypto.verify(BearerToken(header).value); d.Some? && d.value < |users| && !users[d.value].isActive
    ensures Authenticate(users, header, crypto) == Reject(Unauthorized, InactiveMessage)
  {
  }

  /** `authorize(...roles)`: no user gives 401, a role outside the list 403, else on. */
  function Authorize(user: Option<AuthUser>, roles: seq<string>): (g: GateOutcome)
    ensures user.None? ==> g == Reject(Unauthorized, "Not authorized")
    ensures user.Some? && user.value.role !in roles ==> g == Reject(Forbidden, "Access denied")
    ensures user.Some? && user.value.role in roles ==> g == Proceed(user.value)
  {
    if user.None? then Reject(Unauthorized, "Not authorized")
    else if user.value.role !in roles then Reject(Forbidden, "Access denied")
    else Proceed(user.value)
  }

  /** `protect` followed by `authorize(...roles)`, as the guarded routes mount them. */
  function Gate(users: seq<User>, header: Option<string>, crypto: Crypto, roles: seq<string>): (g: GateOutcome)
    ensures g.Proceed? ==> g == Authenticate(users, header, crypto) && g.user.role in roles
    ensures Authenticate(users, header, crypto).Reject? ==> g == Authenticate(users, header, crypto)
  {
    match Authenticate(users, header, crypto)
    case Reject(s, m) => Reject(s, m)
    case Proceed(u) => Authorize(Some(u), roles)
  }

  /**
   * The 401/403 split of the gate: 403 exactly when authentication succeeded and the live
   * role is not allowed; every other rejection is 401.
   */
  lemma GateStatus(users: seq<User>, header: Option<string>, crypto: Crypto, roles: seq<string>)
    ensures var g := Gate(users, header, crypto, roles);
      g.Reject? ==> (g.status == Forbidden <==>
        Authenticate(users, header, crypto).Proceed? && Authenticate(users, header, crypto).user.role !in roles)
    ensures var g := Gate(users, header, crypto, roles);
      g.Reject? ==> g.status == Unauthorized || g.status == Forbidden
  {
  }

  /** An admin-only gate lets a request through exactly when its live user is an active admin. */
  lemma AdminGate(users: seq<User>, header: Option<string>, crypto: Crypto)
    ensures var a := Authenticate(users, header, crypto);
      Gate(users, header, crypto, ["admin"]).Proceed? <==>
        a.Proceed? && users[a.user.id].role == Admin
  {
    var a := Authenticate(users, header, crypto);
    if a.Proceed? {
      assert RoleName(users[a.user.id].role) == "admin" <==> users[a.user.id].role == Admin;
    }
  }
}
