/**
 * Request authentication and the role gate. The identity provider's token
 * check is a parameter of `Authenticate`: a total function from token to the
 * decoded claims, or `None` when the provider rejects the token.
 */
module AuthMiddleware {
  import opened JsValues
  import opened Http

  /** A user id as the identity provider issues it: never empty. */
  type Uid = s: string | s != "" witness "uid"

  /** The claims of a verified token: its subject and its optional `role` claim. */
  datatype Decoded = Decoded(uid: Uid, role: Option<Value>)

  /** The caller a handler sees: `req.uid` and `req.userRole` after authentication. */
  datatype Caller = Caller(uid: Uid, role: Value)

  /** Whether a middleware hands the request on (`next()`) or answers it itself. */
  datatype Gate = Next | Halt(response: Response)

  const TokenRequired := "Authorization token required"
  const TokenInvalid := "Invalid or expired token"
  const RoleUndefined := "User role not defined"
  const RoleRefused := "Unauthorized access"

  /** The role a caller gets when the token carries no usable `role` claim. */
  const DefaultRole := Str("user")

  /** The index of the first space in `s` at or after `from`, or `|s|` when there is none. */
  function SpaceFrom(s: string, from: nat): (i: nat)
    requires from <= |s|
    ensures from <= i <= |s|
    ensures i < |s| ==> s[i] == ' '
    ensures forall k :: from <= k < i ==> s[k] != ' '
    decreases |s| - from
  {
    if from == |s| || s[from] == ' ' then from else SpaceFrom(s, from + 1)
  }

  /**
   * `authorization?.split(' ')[1]`: the second space-separated segment of the
   * header, which may be empty; `None` when the header is missing or has no space.
   */
  function BearerToken(header: Option<string>): (token: Option<string>)
    ensures token.None? <==> header.None? || ' ' !in header.value
    ensures token.Some? ==> ' ' !in token.value
  {
    match header
    case None => None
    case Some(h) =>
      var i := SpaceFrom(h, 0);
      if i == |h| then None else Some(h[i + 1 .. SpaceFrom(h, i + 1)])
  }

  /**
   * Whatever the first word of the header is, the token is the word after it:
   * the scheme is not checked.
   */
  lemma {:induction false} BearerTokenOfHeader(scheme: string, token: string, rest: string)
    requires ' ' !in scheme && ' ' !in token
    requires rest == [] || rest[0] == ' '
    ensures BearerToken(Some(scheme + " " + token + rest)) == Some(token)
  {
    var h := scheme + " " + token + rest;
    var i := SpaceFrom(h, 0);
    assert h[|scheme|] == ' ';
    assert i == |scheme|;
    var j := SpaceFrom(h, i + 1);
    var end := |scheme| + 1 + |token|;
    assert end < |h| ==> h[end] == ' ';
    assert j == end;
    assert h[i + 1 .. j] == token;
  }

  /** The request as the middleware sees it: the header it reads and the fields it sets. */
  class Request {
    const authorization: Option<string>
    var uid: Option<Uid>
    var userRole: Option<Value>

    constructor (authorization: Option<string>)
      ensures this.authorization == authorization
      ensures uid.None? && userRole.None?
    {
      this.authorization := authorization;
      uid, userRole := None, None;
    }
  }

  /**
   * `authenticate`: 401 without a token, 403 when the provider rejects it;
   * otherwise the caller's id and role are attached to the request and the
   * request goes on.
   */
  method Authenticate(req: Request, verify: string -> Option<Decoded>) returns (gate: Gate)
    modifies req
    ensures !TruthyText(BearerToken(req.authorization)) ==>
      gate == Halt(Response(401, Error(TokenRequired))) && unchanged(req)
    ensures TruthyText(BearerToken(req.authorization)) && verify(BearerToken(req.authorization).value).None? ==>
      gate == Halt(Response(403, Error(TokenInvalid))) && unchanged(req)
    ensures TruthyText(BearerToken(req.authorization)) && verify(BearerToken(req.authorization).value).Some? ==>
      var decoded := verify(BearerToken(req.authorization).value).value;
      && gate == Next
      && req.uid == Some(decoded.uid)
      && req.userRole == Some(Or(decoded.role, DefaultRole))
    ensures gate == Next ==> req.uid.Some? && Truthy(req.userRole)
  {
    var token := BearerToken(req.authorization);
    if !TruthyText(token) {
      return Halt(Response(401, Error(TokenRequired)));
    }
    match verify(token.value)
    case None =>
      return Halt(Response(403, Error(TokenInvalid)));
    case Some(decoded) =>
      req.uid := Some(decoded.uid);
      req.userRole := Some(Or(decoded.role, DefaultRole));
      gate := Next;
  }

  /**
   * `authorize(roles)`: refuses a request without a role, and, when `roles`
   * is not empty, one whose role is not among them.
   */
  function Authorize(roles: seq<string>, userRole: Option<Value>): (gate: Gate)
    ensures !Truthy(userRole) ==> gate == Halt(Response(403, Error(RoleUndefined)))
    ensures Truthy(userRole) && |roles| == 0 ==> gate == Next
    ensures Truthy(userRole) && |roles| > 0 ==>
      (gate == Next <==> exists i :: 0 <= i < |roles| && userRole.value == Str(roles[i]))
    ensures gate != Next ==> gate.response.status == 403
  {
    if !Truthy(userRole) then
      Halt(Response(403, Error(RoleUndefined)))
    else if |roles| > 0 && !(userRole.value.Str? && userRole.value.s in roles) then
      Halt(Response(403, Error(RoleRefused)))
    else
      Next
  }

  /**
   * A request that passed `authenticate` always has a role, so the role gate
   * can refuse it only because the role is not in the list.
   */
  lemma AuthenticatedRoleDefined(decoded: Decoded, roles: seq<string>)
    ensures Authorize(roles, Some(Or(decoded.role, DefaultRole))) != Halt(Response(403, Error(RoleUndefined)))
    ensures Authorize([], Some(Or(decoded.role, DefaultRole))) == Next
  {
  }
}
