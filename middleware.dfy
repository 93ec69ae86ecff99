/**
 * `generateToken` and `jwtAuthMiddleware`. The middleware reads only the
 * `Authorization` header, the signing key and the clock: no store is an
 * argument of either, so no revocation can reach its decision.
 */
module Middleware {
  import opened Wrappers
  import opened Text
  import opened Jwt
  import opened Http

  /** `expiresIn: 300000`, in seconds. */
  const TOKEN_LIFETIME := 300000

  const NO_TOKEN := Reply(403, "No token, authorization denied", None)
  const UNAUTHORIZED := Reply(401, "Unauthorized", None)
  /** Written by the `catch` when `jwt.verify` throws. */
  const VERIFY_FAILED := Reply(401, "Invalid Token", None)
  /** Written when a verified payload lacks one of the three role objects. */
  const CLAIMS_MISSING := Reply(401, "Invalid token", None)

  /** The payload `generateToken` signs at second `now`. */
  function SessionPayload(who: Subject, now: int): Payload {
    Payload(Some(who), Some(who), Some(who), None, None, now, Some(now + TOKEN_LIFETIME))
  }

  /**
   * `generateToken({id, role})` at second `now`: the same subject under the
   * `user`, `dealership` and `admin` keys, signed to expire TOKEN_LIFETIME
   * seconds after issue.
   */
  function GenerateToken(who: Subject, key: string, now: int): string {
    Sign(SessionPayload(who, now), key)
  }

  /**
   * What a token from `generateToken` carries: the subject three times over,
   * `iat` and an `exp` TOKEN_LIFETIME seconds later, and that it verifies
   * under the signing key exactly until then.
   */
  lemma GeneratedTokenClaims(who: Subject, key: string, now: int)
    ensures var token := GenerateToken(who, key, now);
      && Decode(token).Some?
      && Decode(token).value.user == Some(who)
      && Decode(token).value.dealership == Some(who) && Decode(token).value.admin == Some(who)
      && Decode(token).value.iat == now && Decode(token).value.exp == Some(now + TOKEN_LIFETIME)
      && forall t :: Verify(token, key, t).Success? <==> t < now + TOKEN_LIFETIME
  {
    var payload := SessionPayload(who, now);
    DecodeSigned(payload, key);
    forall t ensures Verify(Sign(payload, key), key, t).Success? <==> t < now + TOKEN_LIFETIME {
      VerifySigned(payload, key, key, t);
    }
  }

  /** `authorization.split(" ")[1]`, absent where JavaScript gives `undefined`. */
  function TokenOf(authorization: string): Option<string> {
    var parts := Split(authorization, ' ');
    if |parts| > 1 then Some(parts[1]) else None
  }

  predicate HasAllClaims(p: Payload) {
    p.user.Some? && p.dealership.Some? && p.admin.Some?
  }

  /** How a middleware run ends: `next()` called, a reply returned, or an exception thrown. */
  datatype Flow = Next | Returned | Threw

  /** The replies a run writes, how it ends, and the payload it accepted. */
  datatype Gate = Gate(sent: seq<Reply>, flow: Flow, claims: Option<Payload>)

  /**
   * The decision `jwtAuthMiddleware` takes. A missing or empty header gets
   * the 403 written without a `return`, so the run throws: at the `split` of
   * a missing header, and for an empty one at the 401, since Express refuses
   * a second reply once the 403 has sent the headers.
   */
  function Authenticate(authorization: Option<string>, key: string, now: int): (g: Gate)
    ensures g.flow == Next <==>
      && authorization.Some? && Truthy(TokenOf(authorization.value))
      && Verify(TokenOf(authorization.value).value, key, now).Success?
      && HasAllClaims(Verify(TokenOf(authorization.value).value, key, now).value)
    ensures g.flow == Next ==>
      && g.sent == [] && g.claims.Some? && HasAllClaims(g.claims.value)
      && TokenOf(authorization.value) == Some(Sign(g.claims.value, key))
    ensures !Truthy(authorization) ==> g == Gate([NO_TOKEN], Threw, None)
    ensures Truthy(authorization) && !Truthy(TokenOf(authorization.value)) ==>
      g == Gate([UNAUTHORIZED], Returned, None)
    ensures Truthy(authorization) ==> |g.sent| <= 1 && g.flow != Threw
    ensures (Truthy(authorization) && Truthy(TokenOf(authorization.value))
             && Verify(TokenOf(authorization.value).value, key, now).Failure?) ==>
      g == Gate([VERIFY_FAILED], Returned, None)
    ensures (Truthy(authorization) && Truthy(TokenOf(authorization.value))
             && Verify(TokenOf(authorization.value).value, key, now).Success?
             && !HasAllClaims(Verify(TokenOf(authorization.value).value, key, now).value)) ==>
      g == Gate([CLAIMS_MISSING], Returned, None)
    ensures g.flow != Next ==> g.claims.None?
  {
    if !Truthy(authorization) then Gate([NO_TOKEN], Threw, None)
    else
      var token := TokenOf(authorization.value);
      if !Truthy(token) then Gate([UNAUTHORIZED], Returned, None)
      else
        match Verify(token.value, key, now)
        case Failure(_) => Gate([VERIFY_FAILED], Returned, None)
        case Success(p) =>
          if !HasAllClaims(p) then Gate([CLAIMS_MISSING], Returned, None)
          else Gate([], Next, Some(p))
  }

  /** The scheme word before the space is never looked at; the token is the second piece. */
  lemma TokenAfterScheme(scheme: string, token: string)
    requires ' ' !in scheme && ' ' !in token
    ensures TokenOf(scheme + " " + token) == Some(token)
  {
    assert scheme + " " + token == scheme + [' '] + token;
    SplitAtFirstSeparator(scheme, ' ', token);
    SplitWithoutSeparator(token, ' ');
  }

  /**
   * A header carrying a token from `generateToken` passes exactly while the
   * token is unexpired, and then exposes the issued subject three times over.
   */
  lemma IssuedTokenAccepted(scheme: string, who: Subject, key: string, issuedAt: int, now: int)
    requires ' ' !in scheme
    ensures var g := Authenticate(Some(scheme + " " + GenerateToken(who, key, issuedAt)), key, now);
      && (g.flow == Next <==> now < issuedAt + TOKEN_LIFETIME)
      && (g.flow == Next ==> g.claims.value.user == g.claims.value.dealership == g.claims.value.admin == Some(who))
      && (g.flow != Next ==> g.sent == [VERIFY_FAILED])
  {
    var token := GenerateToken(who, key, issuedAt);
    TokenAfterScheme(scheme, token);
    VerifySigned(SessionPayload(who, issuedAt), key, key, now);
  }

  /** A token signed with any other secret is refused by the `catch`. */
  lemma ForeignTokenRejected(scheme: string, payload: Payload, signingKey: string, key: string, now: int)
    requires ' ' !in scheme && signingKey != key
    ensures Authenticate(Some(scheme + " " + Sign(payload, signingKey)), key, now) == Gate([VERIFY_FAILED], Returned, None)
  {
    TokenAfterScheme(scheme, Sign(payload, signingKey));
    VerifySigned(payload, signingKey, key, now);
  }

  /** A valid, unexpired token that lacks one of the three role objects gets "Invalid token". */
  lemma MissingClaimRejected(scheme: string, payload: Payload, key: string, now: int)
    requires ' ' !in scheme && !HasAllClaims(payload)
    requires payload.exp.None? || now < payload.exp.value
    ensures Authenticate(Some(scheme + " " + Sign(payload, key)), key, now) == Gate([CLAIMS_MISSING], Returned, None)
  {
    TokenAfterScheme(scheme, Sign(payload, key));
    VerifySigned(payload, key, key, now);
  }

  /**
   * `jwtAuthMiddleware(req, res, next)`: appends the replies it writes to
   * `res.sent` and, when it calls `next()`, copies the three role objects of
   * the verified payload into `req`.
   */
  method JwtAuthMiddleware(req: Request, res: ServerResponse, key: string, now: int) returns (flow: Flow)
    modifies req`user, req`dealership, req`admin, res`sent
    ensures var g := Authenticate(req.authorization, key, now);
      && flow == g.flow
      && res.sent == old(res.sent) + g.sent
      && (flow == Next ==>
            req.user == g.claims.value.user && req.dealership == g.claims.value.dealership
            && req.admin == g.claims.value.admin)
    ensures flow != Next ==> req.user == old(req.user) && req.dealership == old(req.dealership) && req.admin == old(req.admin)
  {
    var authorization := req.authorization;
    if !Truthy(authorization) {
      res.sent := res.sent + [NO_TOKEN];
    }
    if authorization.None? {
      // `req.headers.authorization.split` on `undefined` throws a TypeError.
      return Threw;
    }
    var token := TokenOf(authorization.value);
    if !Truthy(token) {
      if authorization.value == "" {
        // The 403 above has sent the headers: `res.status(401).json` throws ERR_HTTP_HEADERS_SENT.
        return Threw;
      }
      res.sent := res.sent + [UNAUTHORIZED];
      return Returned;
    }
    var decoded := Verify(token.value, key, now);
    if decoded.Failure? {
      res.sent := res.sent + [VERIFY_FAILED];
      return Returned;
    }
    var payload := decoded.value;
    if !HasAllClaims(payload) {
      res.sent := res.sent + [CLAIMS_MISSING];
      return Returned;
    }
    req.user := payload.user;
    req.dealership := payload.dealership;
    req.admin := payload.admin;
    return Next;
  }
}
