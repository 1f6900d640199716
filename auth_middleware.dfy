/**
 * The role-based user module's token check (Backend/rolebaseUser/authMiddleware.js):
 * the Authorization header must start with `Bearer `, the word after the
 * first space is verified, and the decoded user is stored on the request.
 * Every failure is a 401.
 */
module AuthMiddleware {
  import opened Wrappers
  import opened Text
  import opened Jwt
  import Authorize

  const NoToken := "Access denied, no token provided"
  const InvalidToken := "Invalid or expired token"

  /** The header passes the first test: present, not empty, and starting with `Bearer `. */
  predicate HasBearer(header: Option<string>) {
    header.Some? && header.value != "" && StartsWith(header.value, "Bearer ")
  }

  /** A header starting with `Bearer ` always has a second space-separated word: the text after `Bearer ` up to the next space. */
  lemma BearerPiece(h: string)
    requires StartsWith(h, "Bearer ")
    ensures Piece(h, ' ', 1) == Some(Split(h[7..], ' ')[0])
  {
    assert h == "Bearer" + [' '] + h[7..];
    SplitAfterFirst("Bearer", ' ', h[7..]);
  }

  /** `authHeader.split(" ")[1]` for a header that passed the prefix test. */
  function BearerToken(header: Option<string>): (t: string)
    requires HasBearer(header)
    ensures Piece(header.value, ' ', 1) == Some(t)
  {
    BearerPiece(header.value);
    Split(header.value[7..], ' ')[0]
  }

  /** The outcome of the middleware: 401 unless the header is a `Bearer` header whose token verifies. */
  function Outcome(header: Option<string>, check: string -> Option<Claims>): Authorize.Outcome {
    if !HasBearer(header) then Authorize.Respond(401, NoToken)
    else if Verify(BearerToken(header), check).None? then Authorize.Respond(401, InvalidToken)
    else Authorize.Next
  }

  /**
   * The middleware on a request: on success `req.user` is the decoded payload
   * and `next` is called (once: the outcome is a single `Next`); otherwise
   * nothing on the request changes.
   */
  method Authenticate(req: Authorize.Request, check: string -> Option<Claims>) returns (o: Authorize.Outcome)
    modifies req
    ensures o == Outcome(old(req.authorization), check)
    ensures req.authorization == old(req.authorization)
    ensures req.user == if o.Next? then Verify(BearerToken(old(req.authorization)), check) else old(req.user)
  {
    var header := req.authorization;
    if header.None? || header.value == "" || !StartsWith(header.value, "Bearer ") {
      return Authorize.Respond(401, NoToken);
    }
    var token := BearerToken(header);
    var decoded := Verify(token, check);
    if decoded.None? {
      return Authorize.Respond(401, InvalidToken);
    }
    req.user := decoded;
    return Authorize.Next;
  }

  /**
   * Every outcome is `next` or a 401: a missing or non-`Bearer` header, and a
   * token that fails verification (an empty one included), are all refused
   * with 401, and `next` is reached exactly when the token verifies.
   */
  lemma OutcomeCases(header: Option<string>, check: string -> Option<Claims>)
    ensures Outcome(header, check).Next? || Outcome(header, check).status == 401
    ensures Outcome(header, check) == Authorize.Respond(401, NoToken) <==> !HasBearer(header)
    ensures Outcome(header, check).Next? <==>
      HasBearer(header) && BearerToken(header) != "" && check(BearerToken(header)).Some?
  {
  }

  /** For `Bearer <t>` with `t` free of spaces, the token verified is `t`. */
  lemma BearerHeaderToken(t: string)
    requires ' ' !in t
    ensures HasBearer(Some("Bearer " + t)) && BearerToken(Some("Bearer " + t)) == t
  {
    var h := "Bearer " + t;
    assert h[..7] == "Bearer ";
    assert h[7..] == t;
  }

  /**
   * On the header the frontend sends, this middleware and `protect` agree on
   * which requests go through and on the user they store, as long as their
   * verifiers agree on the token (this one checks against its own literal
   * secret, `protect` against the configured one); they differ in the status
   * of a refused token, 401 here and 403 in `protect`.
   */
  lemma AgreesWithProtect(t: string, check: string -> Option<Claims>, protectCheck: string -> Option<Claims>)
    requires ' ' !in t && check(t) == protectCheck(t)
    ensures var h := Some("Bearer " + t);
      && (Outcome(h, check).Next? <==> Authorize.ProtectOutcome(h, protectCheck).Next?)
      && (Outcome(h, check).Next? ==> Verify(BearerToken(h), check) == Authorize.Decoded(h, protectCheck))
      && (t != "" && check(t).None? ==>
            Outcome(h, check) == Authorize.Respond(401, InvalidToken) &&
            Authorize.ProtectOutcome(h, protectCheck) == Authorize.Respond(403, Authorize.InvalidToken))
  {
    BearerHeaderToken(t);
    Authorize.BearerHeaderToken(t);
  }

  /**
   * When the two secrets differ, a token signed with the one `protect` uses
   * passes `protect` and is refused here with 401.
   */
  lemma SecretsDisagree(t: string, check: string -> Option<Claims>, protectCheck: string -> Option<Claims>)
    requires ' ' !in t && t != "" && check(t).None? && protectCheck(t).Some?
    ensures Outcome(Some("Bearer " + t), check) == Authorize.Respond(401, InvalidToken)
    ensures Authorize.ProtectOutcome(Some("Bearer " + t), protectCheck).Next?
  {
    BearerHeaderToken(t);
    Authorize.BearerHeaderToken(t);
  }

  /** Unlike `protect`, this middleware refuses a valid token sent under another scheme (here `Token`). */
  lemma OtherSchemeRefused(t: string, check: string -> Option<Claims>, protectCheck: string -> Option<Claims>)
    requires ' ' !in t && t != "" && protectCheck(t).Some?
    ensures Outcome(Some("Token " + t), check) == Authorize.Respond(401, NoToken)
    ensures Authorize.ProtectOutcome(Some("Token " + t), protectCheck).Next?
  {
    var h := "Token " + t;
    assert h[5] == ' ' && "Bearer "[5] == 'r';
    assert !StartsWith(h, "Bearer ");
    assert h == "Token" + [' '] + t;
    SplitAfterFirst("Token", ' ', t);
  }
}
