/** The authentication middleware. `authenticate` takes the token after a
    `Bearer ` prefix of the Authorization header, has it verified, and
    attaches `{userId, role}` from the decoded claims as the request's user;
    `authorize(...roles)` lets a request through when its user's role is one
    of the allowed ones; `optionalAuth` attaches the user when it can and
    never refuses. The verification of the token is an oracle: a function
    from the token to its claims or to the name of the error thrown. */
module Auth {
  import opened Wrappers
  import opened Text
  import opened Json

  /** The three roles of a user account. */
  datatype Role = Citizen | ExecAdmin | MasterAdmin

  function RoleName(r: Role): string
  {
    match r
    case Citizen => "L3_CITIZEN"
    case ExecAdmin => "L2_EXEC_ADMIN"
    case MasterAdmin => "L1_MASTER_ADMIN"
  }

  /** The role a stored role name stands for, if any. */
  function RoleNamed(name: string): (r: Option<Role>)
    ensures r.Some? ==> RoleName(r.value) == name
  {
    if name == "L3_CITIZEN" then Some(Citizen)
    else if name == "L2_EXEC_ADMIN" then Some(ExecAdmin)
    else if name == "L1_MASTER_ADMIN" then Some(MasterAdmin)
    else None
  }

  /** Every role has its own name, and the name gives the role back. */
  lemma RoleNamesRoundTrip(r: Role)
    ensures RoleNamed(RoleName(r)) == Some(r)
  {
  }

  /** What `jwt.verify(token, secret)` does: return the decoded payload, or
      throw an error with a name. */
  datatype Verdict = Decoded(claims: Value) | Thrown(name: string)

  /** What the middleware does with the request. */
  datatype Outcome = Next | Reject(code: nat)

  /** The token of an Authorization header that starts with `Bearer `. */
  function BearerToken(header: Option<string>): (r: Option<string>)
    ensures r.Some? <==> header.Some? && StartsWith(header.value, "Bearer ")
    ensures r.Some? ==> header.value == "Bearer " + r.value
  {
    if header.Some? && StartsWith(header.value, "Bearer ") then
      assert header.value == header.value[..7] + header.value[7..];
      Some(header.value[7..])
    else None
  }

  /** The header built from a token gives that token back. */
  lemma BearerRoundTrip(token: string)
    ensures BearerToken(Some("Bearer " + token)) == Some(token)
  {
    assert ("Bearer " + token)[..7] == "Bearer ";
    assert ("Bearer " + token)[7..] == token;
  }

  /** The reply to a verification error: an expired or malformed token is
      401, anything else 500. */
  function ErrorStatus(name: string): (code: nat)
    ensures code == 401 || code == 500
    ensures code == 401 <==> name == "TokenExpiredError" || name == "JsonWebTokenError"
  {
    if name == "TokenExpiredError" then 401
    else if name == "JsonWebTokenError" then 401
    else 500
  }

  /** `req.user = {userId: decoded.userId, role: decoded.role}` */
  function UserOf(claims: Value): (u: Value)
    ensures u.Obj?
    ensures Prop(u, "userId") == Prop(claims, "userId") && Prop(u, "role") == Prop(claims, "role")
    ensures forall k :: k != "userId" && k != "role" ==> Prop(u, k) == Undefined
  {
    Obj(Defined(map["userId" := Prop(claims, "userId"), "role" := Prop(claims, "role")]))
  }

  /** The user `authenticate` attaches, or the status it refuses with. */
  function Authenticated(header: Option<string>, verify: string -> Verdict): Result<Value, nat>
  {
    match BearerToken(header)
    case None => Failure(401)
    case Some(token) =>
      match verify(token)
      case Decoded(claims) => Success(UserOf(claims))
      case Thrown(name) => Failure(ErrorStatus(name))
  }

  /** `authenticate` refuses with 401, 401 or 500, and the header alone
      decides whether the token is verified at all: without a `Bearer `
      header the answer is 401 whatever the verifier would say. */
  lemma AuthenticatedOutcome(header: Option<string>, verify: string -> Verdict, other: string -> Verdict)
    ensures var a := Authenticated(header, verify);
      && (a.Failure? ==> a.error == 401 || a.error == 500)
      && (BearerToken(header).None? ==> a == Failure(401) && Authenticated(header, other) == a)
      && (BearerToken(header).Some? ==>
            var v := verify(BearerToken(header).value);
            && (a.Success? <==> v.Decoded?)
            && (a.Success? ==> a.value == UserOf(v.claims))
            && (a == Failure(500) <==> v.Thrown? && v.name != "TokenExpiredError" && v.name != "JsonWebTokenError"))
  {
  }

  /** The user attached has no `id`: a handler that records `req.user.id`
      records nothing. */
  lemma AuthenticatedHasNoId(header: Option<string>, verify: string -> Verdict)
    requires Authenticated(header, verify).Success?
    ensures Prop(Authenticated(header, verify).value, "id") == Undefined
  {
  }

  /** `allowedRoles.includes(role)` */
  function Includes(allowed: seq<Role>, role: Value): (b: bool)
    ensures b <==> exists i :: 0 <= i < |allowed| && role == Str(RoleName(allowed[i]))
  {
    if allowed == [] then false
    else if role == Str(RoleName(allowed[|allowed| - 1])) then true
    else
      var b := Includes(allowed[..|allowed| - 1], role);
      assert forall i :: 0 <= i < |allowed| - 1 ==> allowed[..|allowed| - 1][i] == allowed[i];
      b
  }

  /** `authorize(...allowed)`: 401 without a user, 403 when the user's role
      is not one of `allowed`. */
  function Authorize(user: Option<Value>, allowed: seq<Role>): Outcome
  {
    if user.None? then Reject(401)
    else if !Includes(allowed, Prop(user.value, "role")) then Reject(403)
    else Next
  }

  /** A request passes `authorize` exactly when it has a user whose role is
      allowed; an unknown role string is refused whatever is allowed. */
  lemma AuthorizeMeans(user: Option<Value>, allowed: seq<Role>)
    ensures Authorize(user, allowed) == Next <==>
      user.Some? && exists i :: 0 <= i < |allowed| && Prop(user.value, "role") == Str(RoleName(allowed[i]))
    ensures user.Some? && Prop(user.value, "role").Str? && RoleNamed(Prop(user.value, "role").s).None? ==>
      Authorize(user, allowed) == Reject(403)
  {
    if user.Some? && Prop(user.value, "role").Str? && RoleNamed(Prop(user.value, "role").s).None? {
      forall i | 0 <= i < |allowed|
        ensures Prop(user.value, "role") != Str(RoleName(allowed[i]))
      {
        RoleNamesRoundTrip(allowed[i]);
      }
    }
  }

  /** `authenticate` then `authorize(...allowed)` on a fresh request. */
  function Gate(header: Option<string>, verify: string -> Verdict, allowed: seq<Role>): Outcome
  {
    match Authenticated(header, verify)
    case Failure(code) => Reject(code)
    case Success(u) => Authorize(Some(u), allowed)
  }

  /** Behind both middlewares a request reaches the handler exactly when its
      token verifies and its claims name an allowed role. */
  lemma GateMeans(header: Option<string>, verify: string -> Verdict, allowed: seq<Role>)
    ensures Gate(header, verify, allowed) == Next <==>
      && BearerToken(header).Some?
      && verify(BearerToken(header).value).Decoded?
      && exists i :: 0 <= i < |allowed|
           && Prop(verify(BearerToken(header).value).claims, "role") == Str(RoleName(allowed[i]))
  {
    var a := Authenticated(header, verify);
    if a.Success? {
      AuthorizeMeans(Some(a.value), allowed);
    }
  }

  /** The user `optionalAuth` leaves on the request: the verified one, or
      whatever was there. */
  function OptionalUser(header: Option<string>, verify: string -> Verdict, before: Option<Value>): Option<Value>
  {
    match Authenticated(header, verify)
    case Success(u) => Some(u)
    case Failure(_) => before
  }

  /** The request as the middleware sees it: its Authorization header and
      the user the middleware attaches. */
  class Request {
    const header: Option<string>
    var user: Option<Value>

    constructor(header: Option<string>)
      ensures this.header == header && user.None?
    {
      this.header := header;
      user := None;
    }

    /** `authenticate(req, res, next)` */
    method Authenticate(verify: string -> Verdict) returns (o: Outcome)
      modifies this
      ensures var a := Authenticated(header, verify);
        && (a.Success? ==> user == Some(a.value) && o == Next)
        && (a.Failure? ==> user == old(user) && o == Reject(a.error))
    {
      var token := BearerToken(header);
      if token.None? {
        return Reject(401);
      }
      var v := verify(token.value);
      if v.Thrown? {
        return Reject(ErrorStatus(v.name));
      }
      user := Some(UserOf(v.claims));
      o := Next;
    }

    /** `authorize(...allowed)(req, res, next)` */
    function Authorized(allowed: seq<Role>): Outcome
      reads this
    {
      Authorize(user, allowed)
    }

    /** `optionalAuth(req, res, next)`: never refuses. */
    method OptionalAuth(verify: string -> Verdict)
      modifies this
      ensures user == OptionalUser(header, verify, old(user))
    {
      var token := BearerToken(header);
      if token.Some? {
        var v := verify(token.value);
        if v.Decoded? {
          user := Some(UserOf(v.claims));
        }
      }
    }
  }

  /** On a fresh request `optionalAuth` attaches a user exactly when
      `authenticate` would have let the request through, and the same one. */
  lemma OptionalAgrees(header: Option<string>, verify: string -> Verdict)
    ensures OptionalUser(header, verify, None).Some? <==> Authenticated(header, verify).Success?
    ensures OptionalUser(header, verify, None).Some? ==>
      OptionalUser(header, verify, None).value == Authenticated(header, verify).value
  {
  }
}
