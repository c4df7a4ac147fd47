/** Bearer tokens: how a token is taken from a header, decoded and validated. Texts that are split or compared
    byte by byte are bytes; JSON is a parameter. Sums of times wrap as 64-bit unsigned numbers do. */
module Jwt {
  import opened Common
  import opened Base64Url
  import H = Hmac

  const U64: nat := 0x1_0000_0000_0000_0000

  datatype Json = Text(text: string) | Number(text: string) | Items(items: seq<Json>) | Other

  datatype Claims = Claims(
    subject: Option<string>,
    exp: Option<nat>,
    nbf: Option<nat>,
    issuer: Option<string>,
    audience: Option<Json>,
    clientId: Option<string>,
    extra: map<string, Json>)

  datatype Config = Config(tenantClaim: string, issuer: string, audience: string, clockSkew: nat, secret: Option<Bytes>)

  datatype AuthContext = AuthContext(subject: string, tenant: string, client: string)

  datatype AuthError =
    | NoSecret | BadFormat | BadSignatureEncoding | BadSignature | BadPayload | BadClaims
    | BadIssuer | BadAudience | NotActiveYet | Expired | NoExpiry | NoTenant | NoClient

  /** What serde_json makes of the payload bytes. */
  type Parser = Bytes -> Option<Claims>

  // ----- splitting at dots -----

  function Split(t: Bytes): (parts: seq<Bytes>)
    ensures |parts| > 0
  {
    if t == [] then [[]]
    else
      var rest := Split(t[1..]);
      if t[0] == DOT then [[]] + rest else [[t[0]] + rest[0]] + rest[1..]
  }

  lemma {:induction false} SplitAfterPart(part: Bytes, rest: Bytes)
    requires DOT !in part
    ensures Split(part) == [part]
    ensures Split(part + [DOT] + rest) == [part] + Split(rest)
    decreases |part|
  {
    if part == [] {
      assert ([] + [DOT] + rest)[1..] == rest;
    } else {
      SplitAfterPart(part[1..], rest);
      assert (part + [DOT] + rest)[1..] == part[1..] + [DOT] + rest;
      assert part == [part[0]] + part[1..];
    }
  }

  /** Joining the parts with dots gives the text back. */
  lemma {:induction false} PartsJoin(t: Bytes)
    ensures DOT !in Split(t)[0]
    ensures if |Split(t)| == 1 then t == Split(t)[0]
            else exists rest :: t == Split(t)[0] + [DOT] + rest && Split(rest) == Split(t)[1..]
    decreases |t|
  {
    if t != [] {
      PartsJoin(t[1..]);
      var parts := Split(t[1..]);
      if t[0] == DOT {
        assert t == [] + [DOT] + t[1..];
      } else if |parts| > 1 {
        var rest :| t[1..] == parts[0] + [DOT] + rest && Split(rest) == parts[1..];
        assert t == ([t[0]] + parts[0]) + [DOT] + rest;
      }
    }
  }

  function Join3(a: Bytes, b: Bytes, c: Bytes): Bytes {
    a + [DOT] + (b + [DOT] + c)
  }

  lemma ThreeParts(a: Bytes, b: Bytes, c: Bytes)
    requires DOT !in a && DOT !in b && DOT !in c
    ensures Split(Join3(a, b, c)) == [a, b, c]
  {
    SplitAfterPart(a, b + [DOT] + c);
    SplitAfterPart(b, c);
    SplitAfterPart(c, []);
  }

  lemma ThreePartsJoin(t: Bytes)
    requires |Split(t)| == 3
    ensures t == Join3(Split(t)[0], Split(t)[1], Split(t)[2])
    ensures DOT !in Split(t)[0] && DOT !in Split(t)[1] && DOT !in Split(t)[2]
  {
    PartsJoin(t);
    var rest :| t == Split(t)[0] + [DOT] + rest && Split(rest) == Split(t)[1..];
    PartsJoin(rest);
    var last :| rest == Split(rest)[0] + [DOT] + last && Split(last) == Split(rest)[1..];
    PartsJoin(last);
  }

  // ----- validation -----

  function WrapAdd(a: nat, b: nat): nat {
    (a + b) % U64
  }

  function ValueToString(value: Json): Option<string> {
    match value
    case Text(t) => Some(t)
    case Number(t) => Some(t)
    case _ => None
  }

  predicate AudienceMatches(audience: Option<Json>, expected: string) {
    match audience
    case Some(Text(t)) => t == expected
    case Some(Items(items)) => exists i :: 0 <= i < |items| && items[i] == Text(expected)
    case _ => false
  }

  function ValidateClaims(config: Config, claims: Claims, now: nat): Option<AuthError> {
    if claims.issuer != Some(config.issuer) then Some(BadIssuer)
    else if !AudienceMatches(claims.audience, config.audience) then Some(BadAudience)
    else if claims.nbf.Some? && WrapAdd(now, config.clockSkew) < claims.nbf.value then Some(NotActiveYet)
    else if claims.exp.None? then Some(NoExpiry)
    else if now > WrapAdd(claims.exp.value, config.clockSkew) then Some(Expired)
    else None
  }

  /** Now lies in the closed interval from nbf less the leeway to exp plus the leeway. */
  predicate InInterval(config: Config, claims: Claims, now: nat) {
    && (claims.nbf.Some? ==> claims.nbf.value <= now + config.clockSkew)
    && claims.exp.Some? && now <= claims.exp.value + config.clockSkew
  }

  /** The times, the clock and the leeway are 64-bit numbers. */
  predicate Fits(config: Config, claims: Claims, now: nat) {
    now < U64 && config.clockSkew < U64 && (claims.exp.Some? ==> claims.exp.value < U64)
    && (claims.nbf.Some? ==> claims.nbf.value < U64)
  }

  /** The sums of the two comparisons stay below 2^64, or wrap without changing their outcome. */
  predicate SumsAreHarmless(config: Config, claims: Claims, now: nat) {
    && (claims.nbf.Some? && now + config.clockSkew >= U64 ==> claims.nbf.value <= now + config.clockSkew - U64)
    && (claims.exp.Some? && claims.exp.value + config.clockSkew >= U64 ==> now <= claims.exp.value + config.clockSkew - U64)
  }

  /** With the right issuer and audience, claims whose interval contains now are accepted exactly when no sum
      wraps to harm, and no others ever are. */
  lemma IntervalIsAccepted(config: Config, claims: Claims, now: nat)
    requires Fits(config, claims, now)
    requires claims.issuer == Some(config.issuer)
    requires || claims.audience == Some(Text(config.audience))
             || exists items :: claims.audience == Some(Items(items)) && Text(config.audience) in items
    ensures InInterval(config, claims, now) ==>
              (ValidateClaims(config, claims, now).None? <==> SumsAreHarmless(config, claims, now))
    ensures !InInterval(config, claims, now) ==> ValidateClaims(config, claims, now).Some?
  {
    AudienceIs(claims.audience, config.audience);
    WrapAddIs(now, config.clockSkew);
    if claims.exp.Some? {
      WrapAddIs(claims.exp.value, config.clockSkew);
    }
  }

  /** The audience is that text, or a list with that text in it. */
  lemma AudienceIs(audience: Option<Json>, expected: string)
    ensures AudienceMatches(audience, expected) <==>
              || audience == Some(Text(expected))
              || exists items :: audience == Some(Items(items)) && Text(expected) in items
  {
    if exists items :: audience == Some(Items(items)) && Text(expected) in items {
      var i :| 0 <= i < |audience.value.items| && audience.value.items[i] == Text(expected);
    }
  }

  lemma WrapAddIs(a: nat, b: nat)
    requires a < U64 && b < U64
    ensures WrapAdd(a, b) == if a + b < U64 then a + b else a + b - U64
  {
  }

  /** A token that expires in the last seconds the clock can show is refused for nearly all of its life. */
  lemma WrappedExpiryIsRefused() returns (config: Config, claims: Claims, now: nat)
    ensures Fits(config, claims, now) && InInterval(config, claims, now)
    ensures ValidateClaims(config, claims, now) == Some(Expired)
  {
    config := Config("tenant_id", "i", "a", 30, None);
    claims := Claims(Some("s"), Some(U64 - 1), None, Some("i"), Some(Text("a")), None, map[]);
    now := 100;
    WrapAddIs(U64 - 1, 30);
  }

  // ----- decoding -----

  function DecodeAndValidate(hash: H.Hash, parse: Parser, config: Config, token: Bytes, now: nat): Result<Claims, AuthError> {
    if config.secret.None? then Err(NoSecret)
    else
      var parts := Split(token);
      if |parts| != 3 then Err(BadFormat)
      else
        var expected := H.Mac(hash, config.secret.value, parts[0] + [DOT] + parts[1]);
        var actual := Decode(parts[2]);
        if actual.None? then Err(BadSignatureEncoding)
        else if expected != actual.value then Err(BadSignature)
        else
          var payload := Decode(parts[1]);
          if payload.None? then Err(BadPayload)
          else
            var claims := parse(payload.value);
            if claims.None? then Err(BadClaims)
            else
              var invalid := ValidateClaims(config, claims.value, now);
              if invalid.Some? then Err(invalid.value) else Ok(claims.value)
  }

  function Tenant(config: Config, claims: Claims): Option<string> {
    if config.tenantClaim in claims.extra then ValueToString(claims.extra[config.tenantClaim]) else None
  }

  function ClientOf(claims: Claims): Option<string> {
    if claims.clientId.Some? then claims.clientId else claims.subject
  }

  function DecodeJwt(hash: H.Hash, parse: Parser, config: Config, token: Bytes, now: nat): Result<AuthContext, AuthError> {
    var claims := DecodeAndValidate(hash, parse, config, token, now);
    if claims.Err? then Err(claims.error)
    else
      var tenant, client := Tenant(config, claims.value), ClientOf(claims.value);
      if tenant.None? then Err(NoTenant)
      else if client.None? then Err(NoClient)
      else
        var subject := if claims.value.subject.Some? then claims.value.subject.value else client.value;
        Ok(AuthContext(subject, tenant.value, client.value))
  }

  /** A token in compact serialization: header, payload and the code of both, each encoded, joined by dots. */
  function Issue(hash: H.Hash, secret: Bytes, header: Bytes, payload: Bytes): Bytes {
    var h, p := Encode(header), Encode(payload);
    Join3(h, p, Encode(H.Mac(hash, secret, h + [DOT] + p)))
  }

  /** Claims under which a token is accepted: the right issuer, the right audience, alone or in a list, a time of
      expiry that is not over, and no later begin, sums of times wrapping at 2^64. */
  lemma ValidClaimsAre(config: Config, claims: Claims, now: nat)
    ensures ValidateClaims(config, claims, now).None? <==>
              && claims.issuer == Some(config.issuer)
              && (|| claims.audience == Some(Text(config.audience))
                  || exists items :: claims.audience == Some(Items(items)) && Text(config.audience) in items)
              && (claims.nbf.Some? ==> claims.nbf.value <= (now + config.clockSkew) % 0x1_0000_0000_0000_0000)
              && claims.exp.Some? && now <= (claims.exp.value + config.clockSkew) % 0x1_0000_0000_0000_0000
  {
    AudienceIs(claims.audience, config.audience);
  }

  /** A token is accepted with these claims if and only if it consists of three parts between dots, of which the
      third encodes the code of the first two under the secret and the second encodes the claims, and issuer,
      audience and times are as they must be. */
  lemma AcceptedExactlyWhen(hash: H.Hash, parse: Parser, config: Config, token: Bytes, now: nat, claims: Claims)
    ensures DecodeAndValidate(hash, parse, config, token, now) == Ok(claims) <==>
              && config.secret.Some?
              && (exists header, payload :: 46 !in header
                    && token == header + [46] + Encode(payload) + [46]
                                + Encode(H.Mac(hash, config.secret.value, header + [46] + Encode(payload)))
                    && parse(payload) == Some(claims))
              && claims.issuer == Some(config.issuer)
              && (|| claims.audience == Some(Text(config.audience))
                  || exists items :: claims.audience == Some(Items(items)) && Text(config.audience) in items)
              && (claims.nbf.Some? ==> claims.nbf.value <= (now + config.clockSkew) % 0x1_0000_0000_0000_0000)
              && claims.exp.Some? && now <= (claims.exp.value + config.clockSkew) % 0x1_0000_0000_0000_0000
  {
    ValidClaimsAre(config, claims, now);
    if DecodeAndValidate(hash, parse, config, token, now) == Ok(claims) {
      var header, payload := AcceptedTokenIsIssued(hash, parse, config, token, now);
    }
    if config.secret.Some? {
      forall header, payload |
        46 !in header && parse(payload) == Some(claims)
        && token == header + [46] + Encode(payload) + [46]
                    + Encode(H.Mac(hash, config.secret.value, header + [46] + Encode(payload)))
        ensures DecodeAndValidate(hash, parse, config, token, now)
             == var invalid := ValidateClaims(config, claims, now); if invalid.Some? then Err(invalid.value) else Ok(claims)
      {
        SignedTokenDecodes(hash, parse, config, header, payload, now);
      }
    }
  }

  /** A token with the right code for its first part, whatever that is, comes down to its claims. */
  lemma SignedTokenDecodes(hash: H.Hash, parse: Parser, config: Config, header: Bytes, payload: Bytes, now: nat)
    requires config.secret.Some? && DOT !in header && parse(payload).Some?
    ensures var mac := H.Mac(hash, config.secret.value, header + [DOT] + Encode(payload));
            var token := header + [DOT] + Encode(payload) + [DOT] + Encode(mac);
            DecodeAndValidate(hash, parse, config, token, now)
            == var invalid := ValidateClaims(config, parse(payload).value, now);
               if invalid.Some? then Err(invalid.value) else Ok(parse(payload).value)
  {
    var p := Encode(payload);
    var mac := H.Mac(hash, config.secret.value, header + [DOT] + p);
    var token := header + [DOT] + p + [DOT] + Encode(mac);
    EncodingHasNoDot(payload);
    EncodingHasNoDot(mac);
    assert token == Join3(header, p, Encode(mac));
    ThreeParts(header, p, Encode(mac));
    DecodeEncode(mac);
    DecodeEncode(payload);
  }

  /** A token that does not consist of three parts is refused for its format, once there is a secret. */
  lemma FormatIsChecked(hash: H.Hash, parse: Parser, config: Config, token: Bytes, now: nat)
    ensures config.secret.None? <==> DecodeAndValidate(hash, parse, config, token, now) == Err(NoSecret)
    ensures config.secret.Some? ==>
              (DecodeAndValidate(hash, parse, config, token, now) == Err(BadFormat) <==>
               forall h, p, s :: 46 !in h && 46 !in p && 46 !in s ==> token != h + [46] + p + [46] + s)
  {
    if |Split(token)| == 3 {
      ThreePartsJoin(token);
      assert token == Split(token)[0] + [46] + Split(token)[1] + [46] + Split(token)[2];
    }
    forall h, p, s | 46 !in h && 46 !in p && 46 !in s && token == h + [46] + p + [46] + s
      ensures |Split(token)| == 3
    {
      PartsSplit(h, p, s);
    }
  }

  lemma PartsSplit(h: Bytes, p: Bytes, s: Bytes)
    requires 46 !in h && 46 !in p && 46 !in s
    ensures Split(h + [46] + p + [46] + s) == [h, p, s]
  {
    assert h + [46] + p + [46] + s == Join3(h, p, s);
    ThreeParts(h, p, s);
  }

  /** A client is told the first thing that is wrong with its token: the encoding of the code, the code, the
      encoding of the payload, the payload. */
  lemma FirstErrorIs(hash: H.Hash, parse: Parser, config: Config, h: Bytes, p: Bytes, s: Bytes, now: nat)
    requires config.secret.Some? && 46 !in h && 46 !in p && 46 !in s
    ensures var r := DecodeAndValidate(hash, parse, config, h + [46] + p + [46] + s, now);
            if Decode(s).None? then r == Err(BadSignatureEncoding)
            else if Decode(s) != Some(H.Mac(hash, config.secret.value, h + [46] + p)) then r == Err(BadSignature)
            else if Decode(p).None? then r == Err(BadPayload)
            else if parse(Decode(p).value).None? then r == Err(BadClaims)
            else r.Ok? || r.error in {BadIssuer, BadAudience, NotActiveYet, NoExpiry, Expired}
  {
    PartsSplit(h, p, s);
  }

  /** Of several things wrong with the claims, the first of these is told. */
  lemma FirstInvalidIs(config: Config, claims: Claims, now: nat)
    ensures var r := ValidateClaims(config, claims, now);
            if claims.issuer != Some(config.issuer) then r == Some(BadIssuer)
            else if claims.audience != Some(Text(config.audience))
                    && (forall items :: claims.audience == Some(Items(items)) ==> Text(config.audience) !in items)
            then r == Some(BadAudience)
            else if claims.nbf.Some? && (now + config.clockSkew) % 0x1_0000_0000_0000_0000 < claims.nbf.value
            then r == Some(NotActiveYet)
            else if claims.exp.None? then r == Some(NoExpiry)
            else if now > (claims.exp.value + config.clockSkew) % 0x1_0000_0000_0000_0000 then r == Some(Expired)
            else r == None
  {
    AudienceIs(claims.audience, config.audience);
  }

  /** The identity a token gives: the tenant is the configured claim, a text or a number; the client is the
      client id, or else the subject; and the subject is its own, or else the client. */
  lemma IdentityIs(hash: H.Hash, parse: Parser, config: Config, token: Bytes, now: nat, auth: AuthContext)
    ensures DecodeJwt(hash, parse, config, token, now) == Ok(auth) <==>
              exists claims ::
                && DecodeAndValidate(hash, parse, config, token, now) == Ok(claims)
                && config.tenantClaim in claims.extra
                && claims.extra[config.tenantClaim] in {Text(auth.tenant), Number(auth.tenant)}
                && Some(auth.client) == (if claims.clientId.Some? then claims.clientId else claims.subject)
                && auth.subject == (if claims.subject.Some? then claims.subject.value else auth.client)
  {
  }

  /** Round trip: a token issued under the secret for claims with the right issuer and audience, a tenant and
      a client identity, decodes to that tenant and client exactly when now lies in its interval. */
  lemma IssuedTokenDecodes(hash: H.Hash, parse: Parser, config: Config, header: Bytes, payload: Bytes, now: nat)
    requires config.secret.Some? && parse(payload).Some?
    requires var claims := parse(payload).value;
             && claims.issuer == Some(config.issuer)
             && (|| claims.audience == Some(Text(config.audience))
                 || exists items :: claims.audience == Some(Items(items)) && Text(config.audience) in items)
             && config.tenantClaim in claims.extra
             && (claims.extra[config.tenantClaim].Text? || claims.extra[config.tenantClaim].Number?)
             && (claims.clientId.Some? || claims.subject.Some?)
             && Fits(config, claims, now) && SumsAreHarmless(config, claims, now)
    ensures var claims := parse(payload).value;
            var r := DecodeJwt(hash, parse, config, Issue(hash, config.secret.value, header, payload), now);
            && (r.Ok? <==> InInterval(config, claims, now))
            && (r.Ok? ==>
                  && r.value.tenant == claims.extra[config.tenantClaim].text
                  && r.value.client == (if claims.clientId.Some? then claims.clientId.value else claims.subject.value))
  {
    EncodingHasNoDot(header);
    var h, p := Encode(header), Encode(payload);
    var mac := H.Mac(hash, config.secret.value, h + [DOT] + p);
    assert Issue(hash, config.secret.value, header, payload) == h + [DOT] + p + [DOT] + Encode(mac);
    SignedTokenDecodes(hash, parse, config, h, payload, now);
    IntervalIsAccepted(config, parse(payload).value, now);
  }

  lemma AcceptedParts(hash: H.Hash, parse: Parser, config: Config, token: Bytes, now: nat)
    requires DecodeAndValidate(hash, parse, config, token, now).Ok?
    ensures config.secret.Some? && |Split(token)| == 3
    ensures Decode(Split(token)[2]) == Some(H.Mac(hash, config.secret.value, Split(token)[0] + [DOT] + Split(token)[1]))
    ensures Decode(Split(token)[1]).Some?
    ensures parse(Decode(Split(token)[1]).value) == Some(DecodeAndValidate(hash, parse, config, token, now).value)
    ensures ValidateClaims(config, DecodeAndValidate(hash, parse, config, token, now).value, now).None?
  {
  }

  /** The text that the holder of the secret issues under an encoded header. */
  function Signed(hash: H.Hash, secret: Bytes, header: Bytes, payload: Bytes): Bytes {
    header + [46] + Encode(payload) + [46] + Encode(H.Mac(hash, secret, header + [46] + Encode(payload)))
  }

  /** An accepted token is the very text that the holder of the secret would have issued for its first two
      parts: the encoded header is any text, the payload has one encoding, and so has the code. */
  lemma AcceptedTokenIsIssued(hash: H.Hash, parse: Parser, config: Config, token: Bytes, now: nat)
    returns (header: Bytes, payload: Bytes)
    requires DecodeAndValidate(hash, parse, config, token, now).Ok?
    ensures config.secret.Some? && DOT !in header && parse(payload).Some?
    ensures token == Signed(hash, config.secret.value, header, payload)
    ensures DecodeAndValidate(hash, parse, config, token, now) == Ok(parse(payload).value)
    ensures ValidateClaims(config, parse(payload).value, now).None?
  {
    AcceptedParts(hash, parse, config, token, now);
    ThreePartsJoin(token);
    var parts := Split(token);
    header, payload := parts[0], Decode(parts[1]).value;
    JoinIsSigned(hash, config.secret.value, header, parts[1], parts[2], payload);
  }

  lemma JoinIsSigned(hash: H.Hash, secret: Bytes, h: Bytes, p: Bytes, s: Bytes, payload: Bytes)
    requires Decode(p) == Some(payload) && Decode(s) == Some(H.Mac(hash, secret, h + [DOT] + p))
    ensures Join3(h, p, s) == Signed(hash, secret, h, payload)
  {
    EncodeDecode(p);
    EncodeDecode(s);
  }

  // ----- the program -----

  /** The next part of a split at dots, and what is left, if a dot was found. */
  method NextPart(t: Bytes) returns (part: Bytes, rest: Option<Bytes>)
    ensures Split(t) == [part] + (if rest.Some? then Split(rest.value) else [])
    ensures rest.Some? ==> |rest.value| < |t|
  {
    for i := 0 to |t|
      invariant DOT !in t[..i]
    {
      if t[i] == DOT {
        assert t == t[..i] + [DOT] + t[i + 1..];
        SplitAfterPart(t[..i], t[i + 1..]);
        return t[..i], Some(t[i + 1..]);
      }
    }
    assert t[..|t|] == t;
    SplitAfterPart(t, []);
    return t, None;
  }

  /** It steps through the parts, checks the signature over the first two, and only then looks inside. */
  method DecodeAndValidateHs256(hash: H.Hash, parse: Parser, config: Config, token: Bytes, now: nat)
    returns (r: Result<Claims, AuthError>)
    ensures r == DecodeAndValidate(hash, parse, config, token, now)
    ensures r.Ok? ==>
              && config.secret.Some? && r.value.issuer == Some(config.issuer)
              && (|| r.value.audience == Some(Text(config.audience))
                  || exists items :: r.value.audience == Some(Items(items)) && Text(config.audience) in items)
              && (r.value.nbf.Some? ==> r.value.nbf.value <= (now + config.clockSkew) % 0x1_0000_0000_0000_0000)
              && r.value.exp.Some? && now <= (r.value.exp.value + config.clockSkew) % 0x1_0000_0000_0000_0000
  {
    if config.secret.None? {
      return Err(NoSecret);
    }
    var headerPart, afterHeader := NextPart(token);
    if afterHeader.None? {
      return Err(BadFormat);
    }
    var payloadPart, afterPayload := NextPart(afterHeader.value);
    if afterPayload.None? {
      return Err(BadFormat);
    }
    var sigPart, afterSig := NextPart(afterPayload.value);
    if afterSig.Some? {
      return Err(BadFormat);
    }
    assert Split(token) == [headerPart, payloadPart, sigPart];
    var expected := H.HmacSha256(hash, config.secret.value, headerPart + [DOT] + payloadPart);
    var actual := Decode(sigPart);
    if actual.None? {
      return Err(BadSignatureEncoding);
    }
    var equal := H.ConstantTimeEq(expected[..], actual.value);
    if !equal {
      return Err(BadSignature);
    }
    var payload := Decode(payloadPart);
    if payload.None? {
      return Err(BadPayload);
    }
    var claims := parse(payload.value);
    if claims.None? {
      return Err(BadClaims);
    }
    var invalid := ValidateClaims(config, claims.value, now);
    ValidClaimsAre(config, claims.value, now);
    return if invalid.Some? then Err(invalid.value) else Ok(claims.value);
  }

  // ----- the bearer header -----

  const SPACE: bv8 := 32

  function Lower(c: bv8): bv8 {
    if 65 <= c <= 90 then c + 32 else c
  }

  predicate EqIgnoreCase(a: Bytes, b: Bytes) {
    |a| == |b| && forall i :: 0 <= i < |a| ==> Lower(a[i]) == Lower(b[i])
  }

  /** "bearer" */
  const BEARER: Bytes := [98, 101, 97, 114, 101, 114]

  /** The position of the first space, or the length of the text. */
  function FirstSpace(t: Bytes): (n: nat)
    ensures n <= |t| && SPACE !in t[..n] && (n < |t| ==> t[n] == SPACE)
  {
    if t == [] || t[0] == SPACE then 0
    else
      var n := FirstSpace(t[1..]);
      assert t[..n + 1] == [t[0]] + t[1..][..n];
      n + 1
  }

  function ExtractBearer(value: Bytes): Option<Bytes> {
    var n := FirstSpace(value);
    if n < |value| && EqIgnoreCase(value[..n], BEARER) && n + 1 < |value| then Some(value[n + 1..]) else None
  }

  /** The six letters, each in either case. */
  lemma BearerIs(scheme: Bytes)
    ensures EqIgnoreCase(scheme, BEARER) <==>
              && |scheme| == 6
              && scheme[0] in {66, 98} && scheme[1] in {69, 101} && scheme[2] in {65, 97}
              && scheme[3] in {82, 114} && scheme[4] in {69, 101} && scheme[5] in {82, 114}
  {
    if |scheme| == 6 {
      assert forall i :: 0 <= i < 6 ==> (Lower(scheme[i]) == Lower(BEARER[i]) <==> scheme[i] in {BEARER[i] - 32, BEARER[i]});
    }
  }

  /** A token is taken from a header exactly when the header is the word "bearer", each letter in either case,
      one space, and that token, which is not empty and may itself begin with a space. */
  lemma BearerIsExtracted(value: Bytes, token: Bytes)
    ensures ExtractBearer(value) == Some(token) <==>
              && token != [] && |value| == |token| + 7
              && value[0] in {66, 98} && value[1] in {69, 101} && value[2] in {65, 97}
              && value[3] in {82, 114} && value[4] in {69, 101} && value[5] in {82, 114}
              && value[6] == 32 && value[7..] == token
  {
    SchemeIsExtracted(value, token);
    if ExtractBearer(value) == Some(token) {
      var scheme :| EqIgnoreCase(scheme, BEARER) && value == scheme + [SPACE] + token;
      BearerIs(scheme);
    }
    if token != [] && |value| == |token| + 7 && value[6] == SPACE && value[7..] == token {
      BearerIs(value[..6]);
      assert value == value[..6] + [SPACE] + token;
    }
  }

  lemma SchemeIsExtracted(value: Bytes, token: Bytes)
    ensures ExtractBearer(value) == Some(token) <==>
            token != [] && exists scheme :: EqIgnoreCase(scheme, BEARER) && value == scheme + [SPACE] + token
  {
    var n := FirstSpace(value);
    if ExtractBearer(value) == Some(token) {
      assert value == value[..n] + [SPACE] + token;
    }
    if scheme :| token != [] && EqIgnoreCase(scheme, BEARER) && value == scheme + [SPACE] + token {
      SchemeHasNoSpace(scheme);
      FirstSpaceOf(scheme, token);
      assert value[..n] == scheme && value[n + 1..] == token;
    }
  }

  lemma {:induction false} FirstSpaceOf(scheme: Bytes, token: Bytes)
    requires SPACE !in scheme
    ensures FirstSpace(scheme + [SPACE] + token) == |scheme|
  {
    var value := scheme + [SPACE] + token;
    if scheme == [] {
      assert value[0] == SPACE;
    } else {
      assert value[0] == scheme[0] && value[1..] == scheme[1..] + [SPACE] + token;
      FirstSpaceOf(scheme[1..], token);
    }
  }

  lemma SchemeHasNoSpace(scheme: Bytes)
    requires EqIgnoreCase(scheme, BEARER)
    ensures SPACE !in scheme
  {
    forall i | 0 <= i < |scheme|
      ensures scheme[i] != SPACE
    {
      assert Lower(scheme[i]) == Lower(BEARER[i]) == BEARER[i];
    }
  }
}
