/** Stand-ins for the two cryptographic libraries the service calls: passlib's
    bcrypt context and python-jose's HS256 JSON Web Tokens. Both are modelled
    symbolically, so that only the facts the handlers depend on hold:
    a password verifies against its own hash (bcrypt reading only its
    first 72 bytes), and a token decodes to the claims
    it was signed with when the key matches and it has not expired. */
module Crypto {

  /** A stored password: either a bcrypt hash produced by `CryptContext.hash`,
      or text stored as given (a partial update writes `contra` without
      hashing it). */
  datatype Contra = Bcrypt(of: string) | Plain(text: string)

  /** bcrypt reads at most 72 bytes of a password and ignores the rest. */
  const BCRYPT_MAX: nat := 72

  function Truncar(password: string): (t: string)
    ensures |t| <= BCRYPT_MAX && |t| <= |password| && t == password[..|t|]
    ensures |password| <= BCRYPT_MAX ==> t == password
  {
    if |password| <= BCRYPT_MAX then password else password[..BCRYPT_MAX]
  }

  function Hash(password: string): (h: Contra)
    ensures h.Bcrypt? && |h.of| <= BCRYPT_MAX
  {
    Bcrypt(Truncar(password))
  }

  /** `CryptContext.verify`: a boolean for a bcrypt hash; for a value that is
      not a recognisable hash passlib raises instead, which is `None` here. */
  datatype Verified = Match(ok: bool) | Unrecognised

  function Verify(password: string, stored: Contra): Verified
  {
    match stored
    case Bcrypt(p) => Match(Truncar(password) == p)
    case Plain(_) => Unrecognised
  }

  /** A password verifies against its own hash; another one verifies exactly
      when it agrees with it on the first 72 characters, so among passwords of
      at most 72 characters no other one does. */
  lemma VerifyHash(password: string, other: string)
    ensures Verify(password, Hash(password)) == Match(true)
    ensures Verify(other, Hash(password)).Match?
    ensures Verify(other, Hash(password)).ok <==> Truncar(other) == Truncar(password)
    ensures |password| <= BCRYPT_MAX && |other| <= BCRYPT_MAX && other != password ==>
              Verify(other, Hash(password)) == Match(false)
    ensures |password| >= BCRYPT_MAX && |other| >= BCRYPT_MAX && other[..BCRYPT_MAX] == password[..BCRYPT_MAX] ==>
              Verify(other, Hash(password)) == Match(true)
  {
  }

  // --- JSON Web Tokens (RFC 7519), signed with HMAC SHA-256 (RFC 7518 section 3.2)

  /** A claim value: text, or a NumericDate (seconds since the epoch), which is
      what python-jose turns a `datetime` into when it encodes `exp`. */
  datatype ClaimValue = Text(s: string) | NumericDate(t: int)

  type Claims = map<string, ClaimValue>

  /** A bearer token: signed claims, or a string that is not a JWT at all. */
  datatype Token = Signed(claims: Claims, key: string) | Garbage(raw: string)

  function Encode(claims: Claims, key: string): Token
  {
    Signed(claims, key)
  }

  datatype JwtError = BadSignature | Malformed | Expired | BadExpClaim

  datatype Decoded = DecodedClaims(claims: Claims) | JwtFailure(reason: JwtError)

  /** `jwt.decode(token, key, algorithms=["HS256"])`. Following python-jose, a
      token is expired once its `exp` (section 4.1.4 of RFC 7519) lies strictly
      before the current time, and a token without `exp` never expires. */
  function Decode(token: Token, key: string, now: int): Decoded
  {
    match token
    case Garbage(_) => JwtFailure(Malformed)
    case Signed(claims, k) =>
      if k != key then JwtFailure(BadSignature)
      else if "exp" in claims then
        match claims["exp"]
        case NumericDate(t) => if t < now then JwtFailure(Expired) else DecodedClaims(claims)
        case Text(_) => JwtFailure(BadExpClaim)
      else DecodedClaims(claims)
  }

  lemma DecodeEncode(claims: Claims, key: string, other: string, now: int)
    requires "exp" in claims && claims["exp"].NumericDate?
    ensures now <= claims["exp"].t ==> Decode(Encode(claims, key), key, now) == DecodedClaims(claims)
    ensures now > claims["exp"].t ==> Decode(Encode(claims, key), key, now) == JwtFailure(Expired)
    ensures other != key ==> Decode(Encode(claims, key), other, now) == JwtFailure(BadSignature)
  {
  }
}
