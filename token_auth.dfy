/**
 * Access tokens of backend/app/utils/auth.py. HS256 signing is symbolic: a token produced by
 * `Encode` records the claims and the key it was signed with, and any other text is `Malformed`,
 * so a token verifies under a key exactly when it was signed with that key. `Decode` makes the
 * two checks of python-jose's `jwt.decode` that tokens issued here can fail: the signature,
 * then an integer `exp` not in the past.
 * Times are integer seconds; `now` is the clock reading of the call.
 */
module TokenAuth {

  import opened Wrappers

  datatype ClaimValue = Str(s: string) | Num(n: int)

  type Claims = map<string, ClaimValue>

  datatype Token = Signed(claims: Claims, key: string) | Malformed(text: string)

  /** `ACCESS_TOKEN_EXPIRE_MINUTES`. */
  const AccessTokenExpireMinutes: int := 30

  /** `jwt.encode(claims, key, algorithm="HS256")`. */
  function Encode(claims: Claims, key: string): Token {
    Signed(claims, key)
  }

  /** `jwt.decode(token, key, algorithms=["HS256"])`: `None` where jose raises `JWTError`. */
  function Decode(t: Token, key: string, now: int): (r: Option<Claims>)
    ensures r.Some? <==> t.Signed? && t.key == key &&
                          ("exp" in t.claims ==> t.claims["exp"].Num? && now <= t.claims["exp"].n)
    ensures r.Some? ==> r.value == t.claims
  {
    match t
    case Malformed(_) => None
    case Signed(c, k) =>
      if k != key then None
      else if "exp" in c && !(c["exp"].Num? && now <= c["exp"].n) then None
      else Some(c)
  }

  /** Python truthiness of a claim value. */
  predicate Truthy(v: ClaimValue) {
    match v
    case Str(s) => s != ""
    case Num(n) => n != 0
  }

  /**
   * The expiry `create_access_token` writes: `now + expires_delta` when the delta is truthy
   * (a non-zero timedelta), otherwise `now` plus the 30-minute default.
   */
  function Expiry(now: int, expiresDelta: Option<int>): (exp: int)
    ensures expiresDelta.Some? && expiresDelta.value != 0 ==> exp == now + expiresDelta.value
    ensures expiresDelta.None? || expiresDelta.value == 0 ==> exp == now + AccessTokenExpireMinutes * 60
  {
    if expiresDelta.Some? && expiresDelta.value != 0 then now + expiresDelta.value
    else now + AccessTokenExpireMinutes * 60
  }

  /** `create_access_token`: the claims are a copy of `data` with `exp` set, overwriting any `exp` in `data`. */
  function CreateAccessToken(data: Claims, expiresDelta: Option<int>, key: string, now: int): (t: Token)
    ensures t.Signed? && t.key == key
    ensures t.claims.Keys == data.Keys + {"exp"}
    ensures t.claims["exp"] == Num(Expiry(now, expiresDelta))
    ensures forall k :: k in data && k != "exp" ==> t.claims[k] == data[k]
  {
    Encode(data["exp" := Num(Expiry(now, expiresDelta))], key)
  }

  /** `verify_token`: the payload, or `None` for any token jose rejects. */
  function VerifyToken(t: Token, key: string, now: int): Option<Claims> {
    Decode(t, key, now)
  }

  /** `get_user_id_from_token`: the "sub" claim of a truthy (non-empty) payload, else `None`. */
  function GetUserIdFromToken(t: Token, key: string, now: int): (r: Option<ClaimValue>)
    ensures r.Some? <==> VerifyToken(t, key, now).Some? && VerifyToken(t, key, now).value != map[] &&
                         "sub" in VerifyToken(t, key, now).value
    ensures r.Some? ==> r.value == VerifyToken(t, key, now).value["sub"]
  {
    var payload := VerifyToken(t, key, now);
    if payload.Some? && payload.value != map[] && "sub" in payload.value then Some(payload.value["sub"])
    else None
  }

  /**
   * `is_token_expired`: true unless the token verifies with a truthy `exp`, and then
   * `now > exp`. (The local-time reading of `exp` is not modelled.)
   */
  function IsTokenExpired(t: Token, key: string, now: int): bool {
    var payload := VerifyToken(t, key, now);
    if payload.Some? && payload.value != map[] && "exp" in payload.value && Truthy(payload.value["exp"]) then
      var exp := payload.value["exp"];
      assert exp.Num?;
      now > exp.n
    else true
  }

  /**
   * Since verification already refuses a past `exp`, the clock comparison never fires:
   * a token counts as expired exactly when it fails verification or its `exp` is missing or 0.
   */
  lemma IsTokenExpiredIff(t: Token, key: string, now: int)
    ensures IsTokenExpired(t, key, now) <==>
      (VerifyToken(t, key, now).None? || "exp" !in VerifyToken(t, key, now).value ||
       VerifyToken(t, key, now).value["exp"] == Num(0))
  {
  }

  /** A token issued for a subject yields that subject under the same key until its expiry. */
  lemma IssuedSubjectRoundTrip(subject: string, expiresDelta: Option<int>, key: string, now: int, later: int)
    requires later <= Expiry(now, expiresDelta)
    ensures GetUserIdFromToken(CreateAccessToken(map["sub" := Str(subject)], expiresDelta, key, now), key, later)
            == Some(Str(subject))
    ensures !IsTokenExpired(CreateAccessToken(map["sub" := Str(subject)], expiresDelta, key, now), key, later)
            <==> Expiry(now, expiresDelta) != 0
  {
    var t := CreateAccessToken(map["sub" := Str(subject)], expiresDelta, key, now);
    assert "sub" in t.claims;
    IsTokenExpiredIff(t, key, later);
  }

  /** A token is refused under any other key. */
  lemma OtherKeyRejected(data: Claims, expiresDelta: Option<int>, key: string, otherKey: string, now: int, later: int)
    requires otherKey != key
    ensures VerifyToken(CreateAccessToken(data, expiresDelta, key, now), otherKey, later).None?
    ensures GetUserIdFromToken(CreateAccessToken(data, expiresDelta, key, now), otherKey, later).None?
    ensures IsTokenExpired(CreateAccessToken(data, expiresDelta, key, now), otherKey, later)
  {
  }

  /** Past its expiry a token is refused and counts as expired. */
  lemma PastExpiryRejected(data: Claims, expiresDelta: Option<int>, key: string, now: int, later: int)
    requires later > Expiry(now, expiresDelta)
    ensures VerifyToken(CreateAccessToken(data, expiresDelta, key, now), key, later).None?
    ensures GetUserIdFromToken(CreateAccessToken(data, expiresDelta, key, now), key, later).None?
    ensures IsTokenExpired(CreateAccessToken(data, expiresDelta, key, now), key, later)
  {
  }

  /** A zero delta is falsy, so such a token lives the default 30 minutes rather than expiring at once. */
  lemma ZeroDeltaFallsBack(now: int)
    ensures Expiry(now, Some(0)) == Expiry(now, None) == now + 1800
  {
  }
}
