/**
 * The admin session token of apps/admin/dependencies.py: three base64 parts
 * `header.payload.signature`, shaped like a JSON Web Token (RFC 7519) with an
 * HS256 signature (RFC 7515), but written in standard padded base64
 * (section 4 of RFC 4648) rather than base64url. The signature is
 * HMAC-SHA256 (RFC 2104) of `header.payload`, keyed with the admin token.
 */
module Token {
  import opened Wrappers
  import opened Text
  import opened Json

  newtype Byte = b: int | 0 <= b < 256

  /**
   * The library calls the token code makes, as values: `hmac.new(key, msg,
   * "sha256").digest()` (key and message taken as their UTF-8 encoding),
   * `base64.b64encode(..).decode()`, `base64.b64decode` (None when it
   * raises), `json.dumps(..).encode()` and `json.loads` (None when it raises).
   */
  datatype Crypto = Crypto(
    hmacSha256: (string, string) -> seq<Byte>,
    b64encode: seq<Byte> -> string,
    b64decode: string -> Option<seq<Byte>>,
    dumps: Json -> seq<Byte>,
    loads: seq<Byte> -> Option<Json>)

  /** The alphabet of standard base64 with its padding character. */
  predicate IsBase64Char(c: char)
  {
    ('A' <= c <= 'Z') || ('a' <= c <= 'z') || ('0' <= c <= '9') || c == '+' || c == '/' || c == '='
  }

  ghost predicate IsBase64Text(s: string)
  {
    forall k :: 0 <= k < |s| ==> IsBase64Char(s[k])
  }

  /**
   * The laws the token code relies on: decoding undoes encoding, encoded text
   * stays inside the base64 alphabet, and JSON parsing undoes serialisation.
   * Nothing is assumed about HMAC.
   */
  ghost predicate Lawful(c: Crypto)
  {
    && (forall b :: c.b64decode(c.b64encode(b)) == Some(b))
    && (forall b :: IsBase64Text(c.b64encode(b)))
    && (forall j :: c.loads(c.dumps(j)) == Some(j))
  }

  /** Base64 text never contains a character outside the alphabet. */
  lemma Base64Excludes(c: Crypto, b: seq<Byte>, ch: char)
    requires Lawful(c) && !IsBase64Char(ch)
    ensures ch !in c.b64encode(b)
  {
    var s := c.b64encode(b);
    assert forall k :: 0 <= k < |s| ==> IsBase64Char(s[k]);
  }

  /** Base64 text never contains the part separator. */
  lemma Base64HasNoDot(c: Crypto, b: seq<Byte>)
    requires Lawful(c)
    ensures '.' !in c.b64encode(b)
  {
    Base64Excludes(c, b, '.');
  }

  /** The default lifetime of a token: 30 days, in seconds. */
  const DefaultExpiresIn: int := 3600 * 24 * 30

  /** The fixed header `{"alg": "HS256", "typ": "JWT"}`. */
  const JwtHeader: Json := Obj(map["alg" := Str("HS256"), "typ" := Str("JWT")])

  /** Python's `int(t)` on a float: truncation toward zero. */
  function Truncate(t: real): (n: int)
    ensures 0.0 <= t ==> 0 <= n && n as real <= t < (n + 1) as real
    ensures t < 0.0 ==> n <= 0 && (n - 1) as real < t <= n as real
  {
    if 0.0 <= t then t.Floor else -((-t).Floor)
  }

  /** The base64 signature of `header.payload` under `secret`. */
  function Signature(c: Crypto, secret: string, header: string, payload: string): string
  {
    c.b64encode(c.hmacSha256(secret, header + "." + payload))
  }

  /** The claims `create_token` signs: the caller's data with `exp` set (or overwritten). */
  function Claims(data: map<string, Json>, expiresIn: int, now: real): (claims: map<string, Json>)
    ensures claims.Keys == data.Keys + {"exp"}
    ensures claims["exp"] == Int(Truncate(now) + expiresIn)
    ensures forall k :: k in data && k != "exp" ==> claims[k] == data[k]
  {
    data["exp" := Int(Truncate(now) + expiresIn)]
  }

  /** `create_token(data, expires_in)` when the clock reads `now`. */
  function CreateToken(c: Crypto, secret: string, data: map<string, Json>, expiresIn: int, now: real): (token: string)
    ensures Lawful(c) ==> SignedUnder(c, secret, token)
  {
    var header := c.b64encode(c.dumps(JwtHeader));
    var payload := c.b64encode(c.dumps(Obj(Claims(data, expiresIn, now))));
    assert Lawful(c) ==> '.' !in header && '.' !in payload by {
      if Lawful(c) {
        Base64HasNoDot(c, c.dumps(JwtHeader));
        Base64HasNoDot(c, c.dumps(Obj(Claims(data, expiresIn, now))));
      }
    }
    header + "." + payload + "." + Signature(c, secret, header, payload)
  }

  /** What went wrong; every cause surfaces as the same ValueError. */
  datatype Cause =
    | WrongShape          // the token is not exactly three dot-separated parts
    | BadSignature        // the third part is not the signature of the first two
    | Undecodable         // the payload is not base64 of JSON text
    | NotAnObject         // the payload is JSON but not an object, so `.get` fails
    | ExpNotComparable    // `exp` is present but is not a number to compare with the clock
    | Expired             // `exp` is earlier than the clock

  datatype TokenError = ValueError(cause: Cause)

  /**
   * `payload.get("exp", 0)` as a number Python compares with a float: a
   * missing claim is 0, a boolean is 0 or 1, anything else but an integer
   * raises TypeError (None).
   */
  function ExpiryClaim(claims: map<string, Json>): (e: Option<int>)
    ensures "exp" !in claims ==> e == Some(0)
    ensures "exp" in claims && claims["exp"].Int? ==> e == Some(claims["exp"].i)
    ensures "exp" in claims && claims["exp"].Bool? ==> e == Some(if claims["exp"].b then 1 else 0)
    ensures e.None? <==> "exp" in claims && !claims["exp"].Int? && !claims["exp"].Bool?
  {
    match Get(claims, "exp", Int(0))
    case Int(i) => Some(i)
    case Bool(b) => Some(if b then 1 else 0)
    case _ => None
  }

  /** `verify_token(token)` when the clock reads `now`. */
  function VerifyToken(c: Crypto, secret: string, token: string, now: real): (r: Result<map<string, Json>, TokenError>)
    ensures |Split(token, '.')| != 3 ==> r == Err(ValueError(WrongShape))
    ensures r.Ok? ==>
      |Split(token, '.')| == 3 && Split(token, '.')[2] == Signature(c, secret, Split(token, '.')[0], Split(token, '.')[1])
    ensures r.Ok? ==>
      exists bytes :: c.b64decode(Split(token, '.')[1]) == Some(bytes) && c.loads(bytes) == Some(Obj(r.value))
    ensures r.Ok? ==> ExpiryClaim(r.value).Some? && now <= ExpiryClaim(r.value).value as real
  {
    var parts := Split(token, '.');
    if |parts| != 3 then Err(ValueError(WrongShape))
    else if parts[2] != Signature(c, secret, parts[0], parts[1]) then Err(ValueError(BadSignature))
    else
      match c.b64decode(parts[1])
      case None => Err(ValueError(Undecodable))
      case Some(bytes) =>
        match c.loads(bytes)
        case None => Err(ValueError(Undecodable))
        case Some(Obj(claims)) =>
          (match ExpiryClaim(claims)
           case None => Err(ValueError(ExpNotComparable))
           case Some(exp) => if (exp as real) < now then Err(ValueError(Expired)) else Ok(claims))
        case Some(_) => Err(ValueError(NotAnObject))
  }

  /** A well-shaped token whose third part is not the signature of the first two is refused. */
  lemma VerifyRejectsBadSignature(c: Crypto, secret: string, token: string, now: real)
    requires |Split(token, '.')| == 3
    requires Split(token, '.')[2] != Signature(c, secret, Split(token, '.')[0], Split(token, '.')[1])
    ensures VerifyToken(c, secret, token, now) == Err(ValueError(BadSignature))
  {
  }

  /**
   * A correctly signed token with an object payload is accepted exactly when
   * its `exp` claim (0 when missing) is a number not before the clock.
   */
  lemma VerifyChecksExpiry(c: Crypto, secret: string, token: string, now: real, bytes: seq<Byte>, claims: map<string, Json>)
    requires |Split(token, '.')| == 3
    requires Split(token, '.')[2] == Signature(c, secret, Split(token, '.')[0], Split(token, '.')[1])
    requires c.b64decode(Split(token, '.')[1]) == Some(bytes) && c.loads(bytes) == Some(Obj(claims))
    ensures VerifyToken(c, secret, token, now) ==
      match ExpiryClaim(claims)
      case None => Err(ValueError(ExpNotComparable))
      case Some(exp) => if (exp as real) < now then Err(ValueError(Expired)) else Ok(claims)
  {
  }

  /** The form of every token `create_token` could have produced under `secret`. */
  ghost predicate SignedUnder(c: Crypto, secret: string, token: string)
  {
    exists header: string, payload: string ::
      '.' !in header && '.' !in payload && token == header + "." + payload + "." + Signature(c, secret, header, payload)
  }

  /** Every accepted token is two dot-free parts followed by their signature under the secret. */
  lemma AcceptedTokenIsSigned(c: Crypto, secret: string, token: string, now: real)
    requires VerifyToken(c, secret, token, now).Ok?
    ensures SignedUnder(c, secret, token)
  {
    var parts := Split(token, '.');
    JoinSplit(token, '.');
    assert parts == [parts[0], parts[1], parts[2]];
    JoinThree(parts[0], parts[1], parts[2], '.');
    assert token == parts[0] + "." + parts[1] + "." + parts[2];
  }

  /** The three parts of a created token. */
  lemma CreatedTokenParts(c: Crypto, secret: string, data: map<string, Json>, expiresIn: int, now: real)
    requires Lawful(c)
    ensures var header := c.b64encode(c.dumps(JwtHeader));
      var payload := c.b64encode(c.dumps(Obj(Claims(data, expiresIn, now))));
      Split(CreateToken(c, secret, data, expiresIn, now), '.') == [header, payload, Signature(c, secret, header, payload)]
  {
    var header := c.b64encode(c.dumps(JwtHeader));
    var payload := c.b64encode(c.dumps(Obj(Claims(data, expiresIn, now))));
    var signature := Signature(c, secret, header, payload);
    Base64HasNoDot(c, c.dumps(JwtHeader));
    Base64HasNoDot(c, c.dumps(Obj(Claims(data, expiresIn, now))));
    Base64HasNoDot(c, c.hmacSha256(secret, header + "." + payload));
    var parts := [header, payload, signature];
    SplitJoin(parts, '.');
    JoinThree(header, payload, signature, '.');
    assert CreateToken(c, secret, data, expiresIn, now) == Join(parts, '.');
  }

  /**
   * Round trip: a token created at `created` verifies, under the same secret,
   * to the caller's data with `exp` = int(created) + expiresIn at every clock
   * reading up to that expiry, and is refused as expired after it.
   */
  lemma CreateThenVerify(c: Crypto, secret: string, data: map<string, Json>, expiresIn: int, created: real, now: real)
    requires Lawful(c)
    ensures var exp := Truncate(created) + expiresIn;
      VerifyToken(c, secret, CreateToken(c, secret, data, expiresIn, created), now) ==
        if now <= exp as real then Ok(data["exp" := Int(exp)]) else Err(ValueError(Expired))
  {
    CreatedTokenParts(c, secret, data, expiresIn, created);
    var claims := Claims(data, expiresIn, created);
    assert c.loads(c.dumps(Obj(claims))) == Some(Obj(claims));
    assert c.b64decode(c.b64encode(c.dumps(Obj(claims)))) == Some(c.dumps(Obj(claims)));
    assert ExpiryClaim(claims) == Some(Truncate(created) + expiresIn);
  }

  /** A created token contains no space, so it survives `authorization.split(" ")` whole. */
  lemma CreatedTokenHasNoSpace(c: Crypto, secret: string, data: map<string, Json>, expiresIn: int, now: real)
    requires Lawful(c)
    ensures ' ' !in CreateToken(c, secret, data, expiresIn, now)
  {
    var header := c.b64encode(c.dumps(JwtHeader));
    var payload := c.b64encode(c.dumps(Obj(Claims(data, expiresIn, now))));
    Base64Excludes(c, c.dumps(JwtHeader), ' ');
    Base64Excludes(c, c.dumps(Obj(Claims(data, expiresIn, now))), ' ');
    Base64Excludes(c, c.hmacSha256(secret, header + "." + payload), ' ');
  }
}
