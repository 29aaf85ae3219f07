/**
 * The token check: reads the `token` header, verifies it, and attaches the
 * payload's id to the request as `req.user`.
 */
module Auth {
  import opened Http
  import opened Ownership
  import ErrorMiddleware

  const MissingTokenMessage := "Memerlukan header token"
  const BadPayloadMessage := "Invalid token"

  /** The claims of a verified token that the check reads; `id` is `None` when the payload has none. */
  datatype Claims = Claims(id: Option<int>, issuedAt: Option<int>)

  /** What verifying a token gives: its claims, or the error the verifier throws. */
  datatype Verification = Decoded(claims: Claims) | Rejected(error: AppError)

  /** `!token` is false: the header is present and is not the empty string. */
  predicate HasToken(token: Option<string>)
  {
    token.Some? && token.value != ""
  }

  /** `!id` is false: the id is present and is not 0. */
  predicate Truthy(id: Option<int>)
  {
    id.Some? && id.value != 0
  }

  /** A request as the middleware chain sees it: its `token` header and the `user` the check attaches. */
  class Request {
    const token: Option<string>
    var user: Option<Identity>

    constructor (token: Option<string>)
      ensures this.token == token && user == None
    {
      this.token := token;
      user := None;
    }
  }

  /** The identity a token yields, if the check lets the request through. */
  function Authenticated(token: Option<string>, verify: string -> Verification): (r: Option<Identity>)
    ensures r.Some? <==> HasToken(token) && verify(token.value).Decoded? && Truthy(verify(token.value).claims.id)
    ensures r.Some? ==> r.value.id == verify(token.value).claims.id.value && r.value.id != 0
  {
    if !HasToken(token) then None
    else match verify(token.value)
      case Rejected(_) => None
      case Decoded(claims) => if Truthy(claims.id) then Some(Identity(claims.id.value)) else None
  }

  /**
   * What the check does with `token`: 401 without a token, the verifier's
   * error to `next(error)`, 401 for a payload without a truthy id, otherwise
   * `next()`.
   */
  function Decide(token: Option<string>, verify: string -> Verification): (r: Step)
    ensures r == Next <==> Authenticated(token, verify).Some?
    ensures !HasToken(token) ==> r == Respond(401, MissingTokenMessage)
    ensures HasToken(token) && verify(token.value).Rejected? ==> r == NextError(verify(token.value).error)
    ensures HasToken(token) && verify(token.value).Decoded? && !Truthy(verify(token.value).claims.id)
        ==> r == Respond(401, BadPayloadMessage)
  {
    if !HasToken(token) then Respond(401, MissingTokenMessage)
    else match verify(token.value)
      case Rejected(e) => NextError(e)
      case Decoded(claims) => if Truthy(claims.id) then Next else Respond(401, BadPayloadMessage)
  }

  /**
   * The middleware: decides, and on `next()` sets `req.user` to the payload's
   * id alone. On every other path `req.user` is left as it was.
   */
  method Authenticate(req: Request, verify: string -> Verification) returns (step: Step)
    modifies req
    ensures step == Decide(req.token, verify)
    ensures req.user == if step == Next then Authenticated(req.token, verify) else old(req.user)
  {
    if req.token.None? || req.token.value == "" {
      return Respond(401, MissingTokenMessage);
    }
    var verified := verify(req.token.value);
    if verified.Rejected? {
      return NextError(verified.error);
    }
    var id := verified.claims.id;
    if id.None? || id.value == 0 {
      return Respond(401, BadPayloadMessage);
    }
    req.user := Some(Identity(id.value));
    step := Next;
  }

  /** A rejected token reaches the error middleware, which answers 401 'Invalid Token' for a `JsonWebTokenError`. */
  lemma RejectedTokenAnswer(token: Option<string>, verify: string -> Verification)
    requires HasToken(token) && verify(token.value).Rejected?
    requires verify(token.value).error.name == "JsonWebTokenError"
    ensures Decide(token, verify).NextError?
    ensures ErrorMiddleware.Normalized(Decide(token, verify).error) == (401, Message.Text(ErrorMiddleware.InvalidTokenMessage))
  {
  }

  /** A payload id of 0 is refused like a missing one. */
  lemma ZeroIdRefused(token: Option<string>, verify: string -> Verification)
    requires HasToken(token) && verify(token.value) == Decoded(Claims(Some(0), None))
    ensures Decide(token, verify) == Respond(401, BadPayloadMessage)
    ensures Authenticated(token, verify) == None
  {
  }
}
