/**
 * The blacklist logic that `user.model.js`, `Dealership.model.js` and
 * `Admin.model.js` each repeat word for word, written once over the shared
 * `blacklist` collection. Nothing here is read by the middleware.
 */
module Revocation {
  import opened Wrappers
  import opened Text
  import opened Jwt
  import opened Http
  import opened Middleware
  import opened Store

  /** `7 * 24 * 60 * 60`: the surrogate entry's lifetime, in seconds. */
  const SURROGATE_LIFETIME := 604800

  /**
   * The `expiresAt` that `blackListToken` computes: `new Date(exp * 1000)` of
   * the decoded payload. Absent where `jwt.decode` gives `null` (a malformed
   * or missing token), so that `decodedToken.exp` throws. This is the
   * definition that `SessionTokenExpiry` and the logout handlers build on.
   */
  function EntryExpiry(token: Option<string>): (e: Option<Expiry>)
    ensures e.Some? <==> token.Some? && Decode(token.value).Some?
    ensures e.Some? && Decode(token.value).value.exp.Some? ==> e == Some(At(Decode(token.value).value.exp.value * 1000))
    ensures e.Some? && Decode(token.value).value.exp.None? ==> e == Some(InvalidDate)
  {
    if token.None? then None
    else
      match Decode(token.value)
      case None => None
      case Some(p) => if p.exp.Some? then Some(At(p.exp.value * 1000)) else Some(InvalidDate)
  }

  /** A session token from `generateToken` is blacklisted until its own expiry. */
  lemma SessionTokenExpiry(who: Subject, key: string, now: int)
    ensures EntryExpiry(Some(GenerateToken(who, key, now))) == Some(At((now + TOKEN_LIFETIME) * 1000))
  {
    GeneratedTokenClaims(who, key, now);
  }

  /**
   * The token `blacklistAllTokens` signs at second `now`: `{id, role, iat: now - 1}`,
   * with no `expiresIn`, so no `exp` and none of the three role objects.
   */
  function SurrogateToken(id: string, role: Option<string>, key: string, now: int): (token: string)
    ensures Decode(token) == Some(Payload(None, None, None, Some(id), role, now - 1, None))
  {
    var payload := Payload(None, None, None, Some(id), role, now - 1, None);
    DecodeSigned(payload, key);
    Sign(payload, key)
  }

  /** The surrogate never coincides with any token `generateToken` issues. */
  lemma {:induction false} SurrogateIsNotASessionToken(id: string, role: Option<string>, who: Subject, key: string, now: int, issuedAt: int)
    ensures SurrogateToken(id, role, key, now) != GenerateToken(who, key, issuedAt)
  {
    var s := SurrogateToken(id, role, key, now);
    var g := GenerateToken(who, key, issuedAt);
    GeneratedTokenClaims(who, key, issuedAt);
    assert Decode(s).value.user != Decode(g).value.user;
  }

  /** Presented to the middleware, the surrogate gets "Invalid token": it lacks the role objects. */
  lemma SurrogateRejected(scheme: string, id: string, role: Option<string>, key: string, now: int, later: int)
    requires ' ' !in scheme
    ensures Authenticate(Some(scheme + " " + SurrogateToken(id, role, key, now)), key, later) == Gate([CLAIMS_MISSING], Returned, None)
  {
    MissingClaimRejected(scheme, Payload(None, None, None, Some(id), role, now - 1, None), key, later);
  }

  /**
   * The blacklist after `blacklistAllTokens` found the record: the surrogate
   * added, expiring seven days after `now` in milliseconds, and every other
   * entry as it was.
   */
  function WithSurrogate(entries: map<string, Expiry>, id: string, role: Option<string>, key: string, now: int): (r: map<string, Expiry>)
    ensures r.Keys == entries.Keys + {SurrogateToken(id, role, key, now)}
    ensures forall t | t in entries :: r[t] == entries[t]
    ensures SurrogateToken(id, role, key, now) !in entries ==>
      r[SurrogateToken(id, role, key, now)] == At((now + SURROGATE_LIFETIME) * 1000)
  {
    Inserted(entries, SurrogateToken(id, role, key, now), At((now + SURROGATE_LIFETIME) * 1000))
  }

  /** `blackListToken(token)`: true exactly when a new entry was inserted. */
  method BlacklistToken(blacklist: BlacklistCollection, token: Option<string>) returns (ok: bool)
    modifies blacklist
    ensures ok <==> EntryExpiry(token).Some? && token.value !in old(blacklist.entries)
    ensures EntryExpiry(token).Some? ==>
      blacklist.entries == Inserted(old(blacklist.entries), token.value, EntryExpiry(token).value)
    ensures EntryExpiry(token).None? ==> blacklist.entries == old(blacklist.entries)
  {
    var expiresAt := EntryExpiry(token);
    if expiresAt.None? {
      // `decodedToken.exp` on `null` throws; the `catch` returns false.
      return false;
    }
    ok := blacklist.InsertOne(token.value, expiresAt.value);
  }

  /**
   * `blacklistAllTokens(id)` at second `now`: false for an unknown id;
   * otherwise one surrogate entry, true unless that exact token is already present.
   */
  method BlacklistAllTokens(collection: PrincipalCollection, blacklist: BlacklistCollection,
                            id: string, key: string, now: int) returns (ok: bool)
    requires collection.Valid()
    modifies blacklist
    ensures id !in collection.docs ==> !ok && blacklist.entries == old(blacklist.entries)
    ensures id in collection.docs ==>
      && (ok <==> SurrogateToken(id, collection.docs[id].Role(), key, now) !in old(blacklist.entries))
      && blacklist.entries == WithSurrogate(old(blacklist.entries), id, collection.docs[id].Role(), key, now)
  {
    var record := collection.FindById(id);
    if record.None? {
      return false;
    }
    var token := SurrogateToken(id, record.value.Role(), key, now);
    ok := blacklist.InsertOne(token, At((now + SURROGATE_LIFETIME) * 1000));
  }

  /**
   * `blacklistAllTokens` adds no previously issued session token: every
   * session token is blacklisted after the call exactly when it was before.
   */
  lemma AllTokensKeepsSessions(before: map<string, Expiry>, after: map<string, Expiry>,
                               id: string, role: Option<string>, key: string, now: int, who: Subject, issuedAt: int)
    requires after == WithSurrogate(before, id, role, key, now)
    ensures GenerateToken(who, key, issuedAt) in after <==> GenerateToken(who, key, issuedAt) in before
  {
    SurrogateIsNotASessionToken(id, role, who, key, now, issuedAt);
  }
}
