/**
 * The route guards of Backend/middleware/authorize.js: `protect`, which takes
 * the token from the Authorization header, verifies it and stores the decoded
 * user on the request, and `authorize(...roles)`, which lets through only a
 * user whose role is listed.
 */
module Authorize {
  import opened Wrappers
  import opened Text
  import opened Jwt

  /** What a middleware does with a request: hand it to `next`, answer with a status, or throw. */
  datatype Outcome = Next | Respond(status: int, message: string) | Throws

  const TokenRequired := "Authentication token is required"
  const InvalidToken := "Invalid or expired token"
  const AccessDenied := "Access denied"

  /** The part of a request the guards look at and write: the Authorization header and `req.user`. */
  class Request {
    var authorization: Option<string>
    var user: Option<Claims>

    constructor (authorization: Option<string>)
      ensures this.authorization == authorization && user == None
    {
      this.authorization := authorization;
      user := None;
    }
  }

  /** `req.header('Authorization')?.split(' ')[1]`: the second space-separated word, `None` for `undefined`. */
  function HeaderToken(header: Option<string>): Option<string> {
    match header
    case None => None
    case Some(h) => Piece(h, ' ', 1)
  }

  /** The token `protect` accepts as present: defined and not empty. */
  predicate HasToken(header: Option<string>) {
    HeaderToken(header).Some? && HeaderToken(header).value != ""
  }

  /** What `jwt.verify` decodes from the header's token, if there is one and it is valid. */
  function Decoded(header: Option<string>, check: string -> Option<Claims>): Option<Claims> {
    if HasToken(header) then Verify(HeaderToken(header).value, check) else None
  }

  /** The outcome of `protect`: 401 without a token, 403 for a token that does not verify, `next` otherwise. */
  function ProtectOutcome(header: Option<string>, check: string -> Option<Claims>): Outcome {
    if !HasToken(header) then Respond(401, TokenRequired)
    else if Decoded(header, check).None? then Respond(403, InvalidToken)
    else Next
  }

  /**
   * `protect(req, res, next)`. Only on success is `req.user` written, with
   * the decoded payload; the header is never changed.
   */
  method Protect(req: Request, check: string -> Option<Claims>) returns (o: Outcome)
    modifies req
    ensures o == ProtectOutcome(old(req.authorization), check)
    ensures req.authorization == old(req.authorization)
    ensures req.user == if o.Next? then Decoded(old(req.authorization), check) else old(req.user)
  {
    var token := HeaderToken(req.authorization);
    if token.None? || token.value == "" {
      return Respond(401, TokenRequired);
    }
    var decoded := Verify(token.value, check);
    if decoded.None? {
      return Respond(403, InvalidToken);
    }
    req.user := decoded;
    return Next;
  }

  /**
   * The three answers of `protect`, each exactly when its condition holds:
   * 401 when the header has no second word or it is empty, 403 when the word
   * fails verification, and `next` with the decoded user when it passes.
   */
  lemma ProtectCases(header: Option<string>, check: string -> Option<Claims>)
    ensures ProtectOutcome(header, check) == Respond(401, TokenRequired) <==>
      header.None? || |Split(header.value, ' ')| < 2 || Split(header.value, ' ')[1] == ""
    ensures ProtectOutcome(header, check) == Respond(403, InvalidToken) <==>
      HasToken(header) && check(HeaderToken(header).value).None?
    ensures ProtectOutcome(header, check).Next? <==>
      HasToken(header) && check(HeaderToken(header).value).Some?
    ensures ProtectOutcome(header, check).Next? ==> Decoded(header, check) == check(HeaderToken(header).value)
  {
  }

  /** For the header the frontend sends, `Bearer <t>` with `t` free of spaces, the token is `t`. */
  lemma BearerHeaderToken(t: string)
    requires ' ' !in t
    ensures HeaderToken(Some("Bearer " + t)) == Some(t)
  {
    SplitAfterFirst("Bearer", ' ', t);
    assert "Bearer " + t == "Bearer" + [' '] + t;
  }

  /**
   * `protect` does not look at the scheme: any first word works, and only the
   * text up to the next space is the token.
   */
  lemma AnySchemeToken(scheme: string, t: string, rest: string)
    requires ' ' !in scheme && ' ' !in t
    ensures HeaderToken(Some(scheme + " " + t + " " + rest)) == Some(t)
  {
    var h := scheme + " " + t + " " + rest;
    assert h == scheme + [' '] + (t + [' '] + rest);
    SplitAfterFirst(scheme, ' ', t + [' '] + rest);
    SplitAfterFirst(t, ' ', rest);
  }

  /** A header with no space in it carries no token, so it is answered with 401. */
  lemma OneWordHeader(h: string, check: string -> Option<Claims>)
    requires ' ' !in h
    ensures ProtectOutcome(Some(h), check) == Respond(401, TokenRequired)
  {
  }

  /**
   * `authorize(...roles)` on `req.user`: `next` when the user's role is one of
   * `roles`, 403 otherwise (a payload without a role is never listed);
   * reading the role of an unset `req.user` throws a TypeError.
   */
  function AuthorizeOutcome(roles: seq<string>, user: Option<Claims>): (o: Outcome)
    ensures o.Throws? <==> user.None?
    ensures o.Next? <==> user.Some? && user.value.role.Some? && user.value.role.value in roles
    ensures !o.Next? && !o.Throws? ==> o == Respond(403, AccessDenied)
  {
    match user
    case None => Throws
    case Some(u) =>
      if u.role.Some? && u.role.value in roles then Next else Respond(403, AccessDenied)
  }

  /** `authorize(...roles)` as a method: it reads `req.user` and changes nothing. */
  method Authorize(roles: seq<string>, req: Request) returns (o: Outcome)
    ensures o == AuthorizeOutcome(roles, req.user)
  {
    if req.user.None? {
      return Throws;
    }
    var role := req.user.value.role;
    if role.None? || role.value !in roles {
      return Respond(403, AccessDenied);
    }
    return Next;
  }

  /**
   * A route guarded by `protect, authorize(...roles)`: `authorize` runs only
   * when `protect` called `next`, and then sees the user `protect` stored.
   */
  function GuardedOutcome(header: Option<string>, check: string -> Option<Claims>, roles: seq<string>): Outcome {
    var first := ProtectOutcome(header, check);
    if first.Next? then AuthorizeOutcome(roles, Decoded(header, check)) else first
  }

  /**
   * Behind `protect`, `authorize` never throws, and the route is reached
   * exactly when the token verifies to a payload whose role is listed.
   */
  lemma GuardedRoute(header: Option<string>, check: string -> Option<Claims>, roles: seq<string>)
    ensures !GuardedOutcome(header, check, roles).Throws?
    ensures GuardedOutcome(header, check, roles).Next? <==>
      HasToken(header) && check(HeaderToken(header).value).Some? &&
      check(HeaderToken(header).value).value.role.Some? &&
      check(HeaderToken(header).value).value.role.value in roles
  {
  }

  /** The two guards run one after the other on the same request. */
  method Guard(req: Request, check: string -> Option<Claims>, roles: seq<string>) returns (o: Outcome)
    modifies req
    ensures o == GuardedOutcome(old(req.authorization), check, roles)
    ensures req.authorization == old(req.authorization)
  {
    o := Protect(req, check);
    if o.Next? {
      o := Authorize(roles, req);
    }
  }
}
