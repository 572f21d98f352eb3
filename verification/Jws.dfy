/** Subject-token claims and their compact JWS form (section 7.1 of RFC 7515).

    JSON and RSA are parameters: a Codec marshals and strictly unmarshals the two fixed
    objects, an Rsa derives a key ID from a SubjectPublicKeyInfo and checks a signature.
    What a theorem needs of them is a hypothesis on the values it speaks about. */
module Jws {
  import opened Basics
  import Base64
  import Config

  const SUBJECT_PREFIX := "pivb-key:"

  datatype Provider = Provider(projectNumber: string, poolID: string, providerID: string, issuerURI: string) {
    function Resource(): string {
      "projects/" + projectNumber + "/locations/global/workloadIdentityPools/" + poolID + "/providers/" + providerID
    }

    function ExternalAccountAudience(): string {
      "//iam.googleapis.com/" + Resource()
    }

    function OIDCAudience(): string {
      "https://iam.googleapis.com/" + Resource()
    }
  }

  datatype Header = Header(alg: string, typ: string, kid: string)

  datatype Claims = Claims(
    iss: string, sub: string, aud: string, iat: int, exp: int, jti: string,
    alias: string, target: string, serial: string, keyID: string)

  datatype ClaimsError =
    IncompleteProvider | NoIssuer | NoAliasOrTarget | ZeroSerial | NoKeyID | NoJti | LifetimeOutOfRange

  /** Decimal rendering of a card serial. */
  function Decimal(n: nat): string {
    (if n < 10 then [] else Decimal(n / 10)) + [('0' as int + n % 10) as char]
  }

  /** Every field is required; iat is backdated by one clock skew and exp counts from iat. */
  function NewClaims(p: Provider, alias: string, target: string, serial: nat, keyID: string, jti: string,
                     now: Instant, lifetime: Duration): Result<Claims, ClaimsError> {
    if p.projectNumber == "" || p.poolID == "" || p.providerID == "" then Err(IncompleteProvider)
    else if p.issuerURI == "" then Err(NoIssuer)
    else if alias == "" || target == "" then Err(NoAliasOrTarget)
    else if serial == 0 then Err(ZeroSerial)
    else if keyID == "" then Err(NoKeyID)
    else if jti == "" then Err(NoJti)
    else if lifetime < Seconds(Config.DEFAULT_LIFETIME_S) || lifetime > Seconds(Config.MAX_LIFETIME_S) then Err(LifetimeOutOfRange)
    else
      var iat := Unix(now - Seconds(Config.CLOCK_SKEW_S));
      Ok(Claims(p.issuerURI, SUBJECT_PREFIX + keyID, p.OIDCAudience(), iat, iat + WholeSeconds(lifetime), jti,
                alias, target, Decimal(serial), keyID))
  }

  function HeaderOf(claims: Claims): Header {
    Header("RS256", "JWT", claims.keyID)
  }

  datatype Codec = Codec(
    putHeader: Header -> Bytes, getHeader: Bytes -> Option<Header>,
    putClaims: Claims -> Bytes, getClaims: Bytes -> Option<Claims>)
  {
    /** Unmarshalling gives back these claims, and the header they are signed under. */
    predicate Faithful(claims: Claims) {
      && getHeader(putHeader(HeaderOf(claims))) == Some(HeaderOf(claims))
      && getClaims(putClaims(claims)) == Some(claims)
    }
  }

  datatype Rsa = Rsa(keyID: Bytes -> Option<string>, verifies: (Bytes, Bytes, Bytes) -> bool)

  datatype JwsError =
    | EmptyKeyID | EmptyInput | EmptySignature
    | NotThreeParts | BadHeader | WrongHeader | BadClaims | BadKey | KeyMismatch | BadSignatureEncoding | SignatureInvalid

  datatype VerifiedToken = VerifiedToken(headerKeyID: string, claims: Claims)

  function SigningInput(codec: Codec, claims: Claims): Result<Bytes, JwsError> {
    if claims.keyID == "" then Err(EmptyKeyID)
    else Ok(Base64.Encode(codec.putHeader(HeaderOf(claims)))
            + [Base64.DOT] + Base64.Encode(codec.putClaims(claims)))
  }

  function Assemble(input: Bytes, signature: Bytes): Result<Bytes, JwsError> {
    if input == [] then Err(EmptyInput)
    else if signature == [] then Err(EmptySignature)
    else Ok(input + [Base64.DOT] + Base64.Encode(signature))
  }

  function Split(t: Bytes): seq<Bytes> {
    if Base64.DOT !in t then [t]
    else
      var i := DotIndex(t);
      [t[..i]] + Split(t[i + 1..])
  }

  function DotIndex(t: Bytes): (i: nat)
    requires Base64.DOT in t
    ensures i < |t| && t[i] == Base64.DOT && forall k :: 0 <= k < i ==> t[k] != Base64.DOT
  {
    if t[0] == Base64.DOT then 0 else DotIndex(t[1..]) + 1
  }

  function Unpack<T>(get: Bytes -> Option<T>, encoded: Bytes): Option<T> {
    match Base64.Decode(encoded)
    case None => None
    case Some(raw) => get(raw)
  }

  function VerifyForwarded(codec: Codec, rsa: Rsa, token: Bytes, spki: Bytes): Result<VerifiedToken, JwsError> {
    var parts := Split(token);
    if |parts| != 3 then Err(NotThreeParts) else VerifyParts(codec, rsa, parts[0], parts[1], parts[2], spki)
  }

  function VerifyParts(codec: Codec, rsa: Rsa, h: Bytes, c: Bytes, s: Bytes, spki: Bytes): Result<VerifiedToken, JwsError> {
    match Unpack(codec.getHeader, h)
    case None => Err(BadHeader)
    case Some(header) =>
      if header.alg != "RS256" || header.typ != "JWT" || header.kid == "" then Err(WrongHeader)
      else
        match Unpack(codec.getClaims, c)
        case None => Err(BadClaims)
        case Some(claims) =>
          match rsa.keyID(spki)
          case None => Err(BadKey)
          case Some(kid) =>
            if header.kid != kid || claims.keyID != kid then Err(KeyMismatch)
            else
              match Base64.Decode(s)
              case None => Err(BadSignatureEncoding)
              case Some(signature) =>
                if !rsa.verifies(spki, h + [Base64.DOT] + c, signature) then Err(SignatureInvalid)
                else Ok(VerifiedToken(header.kid, claims))
  }

  lemma FirstDot(head: Bytes, rest: Bytes)
    requires Base64.DOT !in head
    ensures var t := head + [Base64.DOT] + rest; Base64.DOT in t && DotIndex(t) == |head|
  {
    var t := head + [Base64.DOT] + rest;
    assert t[|head|] == Base64.DOT;
    assert forall k :: 0 <= k < |head| ==> t[k] == head[k] && head[k] in head;
  }

  lemma SplitAtFirstDot(head: Bytes, rest: Bytes)
    requires Base64.DOT !in head
    ensures Split(head + [Base64.DOT] + rest) == [head] + Split(rest)
  {
    var t := head + [Base64.DOT] + rest;
    FirstDot(head, rest);
    assert t[..|head|] == head;
    assert t[|head| + 1..] == rest;
  }

  lemma SplitThree(a: Bytes, b: Bytes, c: Bytes)
    requires Base64.DOT !in a && Base64.DOT !in b && Base64.DOT !in c
    ensures Split(a + [Base64.DOT] + b + [Base64.DOT] + c) == [a, b, c]
  {
    assert a + [Base64.DOT] + b + [Base64.DOT] + c == a + [Base64.DOT] + (b + [Base64.DOT] + c);
    SplitAtFirstDot(a, b + [Base64.DOT] + c);
    SplitAtFirstDot(b, c);
    assert Split(c) == [c];
  }

  /** The wire form of one signed claim set. */
  function Wire(codec: Codec, claims: Claims, signature: Bytes): Result<Bytes, JwsError> {
    match SigningInput(codec, claims)
    case Err(e) => Err(e)
    case Ok(input) => Assemble(input, signature)
  }

  /** Print, then parse: a token assembled from claims and a signature that verifies under
      the card's key is accepted with exactly those claims and that key ID. */
  lemma VerifyOfAssemble(codec: Codec, rsa: Rsa, claims: Claims, signature: Bytes, spki: Bytes)
    requires codec.Faithful(claims)
    requires claims.keyID != "" && signature != []
    requires rsa.keyID(spki) == Some(claims.keyID)
    requires rsa.verifies(spki, SigningInput(codec, claims).value, signature)
    ensures var wire := Wire(codec, claims, signature);
            wire.Ok? && VerifyForwarded(codec, rsa, wire.value, spki) == Ok(VerifiedToken(claims.keyID, claims))
  {
    var header := HeaderOf(claims);
    var h, c, s := Base64.Encode(codec.putHeader(header)), Base64.Encode(codec.putClaims(claims)), Base64.Encode(signature);
    Base64.RoundTrip(codec.putHeader(header));
    Base64.RoundTrip(codec.putClaims(claims));
    Base64.RoundTrip(signature);
    SplitThree(h, c, s);
  }

  /** Two signed claim sets with the same wire form are the same claims and signature. */
  lemma WireInjective(codec: Codec, c1: Claims, s1: Bytes, c2: Claims, s2: Bytes)
    requires codec.Faithful(c1) && codec.Faithful(c2)
    requires Wire(codec, c1, s1).Ok? && Wire(codec, c1, s1) == Wire(codec, c2, s2)
    ensures c1 == c2 && s1 == s2
  {
    WireParts(codec, c1, s1);
    WireParts(codec, c2, s2);
  }

  lemma WireParts(codec: Codec, c: Claims, s: Bytes)
    requires codec.Faithful(c)
    requires Wire(codec, c, s).Ok?
    ensures var parts := Split(Wire(codec, c, s).value);
            && |parts| == 3
            && Unpack(codec.getClaims, parts[1]) == Some(c)
            && Base64.Decode(parts[2]) == Some(s)
  {
    var h := codec.putHeader(HeaderOf(c));
    Base64.RoundTrip(h);
    Base64.RoundTrip(codec.putClaims(c));
    Base64.RoundTrip(s);
    SplitThree(Base64.Encode(h), Base64.Encode(codec.putClaims(c)), Base64.Encode(s));
  }

  /** token is h, c and s joined by dots, and everything the verdict says was signed: the
      claims are those of the second part, the key ID is the header's, and the signature
      over the first two parts verifies under the key that derives it. */
  predicate SignedParts(codec: Codec, rsa: Rsa, token: Bytes, spki: Bytes, v: VerifiedToken, h: Bytes, c: Bytes, s: Bytes) {
    && token == h + [Base64.DOT] + c + [Base64.DOT] + s
    && Unpack(codec.getHeader, h) == Some(Header("RS256", "JWT", v.headerKeyID))
    && Unpack(codec.getClaims, c) == Some(v.claims)
    && Base64.Decode(s).Some? && rsa.verifies(spki, h + [Base64.DOT] + c, Base64.Decode(s).value)
    && rsa.keyID(spki) == Some(v.headerKeyID) && v.claims.keyID == v.headerKeyID && v.headerKeyID != ""
  }

  lemma AcceptedParts(codec: Codec, rsa: Rsa, h: Bytes, c: Bytes, s: Bytes, spki: Bytes)
    requires VerifyParts(codec, rsa, h, c, s, spki).Ok?
    ensures SignedParts(codec, rsa, h + [Base64.DOT] + c + [Base64.DOT] + s, spki, VerifyParts(codec, rsa, h, c, s, spki).value, h, c, s)
  {
  }

  /** Acceptance is never on trust: the claims and the key ID an accepted token yields are
      the ones in the bytes the key has signed. */
  lemma AcceptedMeansSigned(codec: Codec, rsa: Rsa, token: Bytes, spki: Bytes) returns (h: Bytes, c: Bytes, s: Bytes)
    requires VerifyForwarded(codec, rsa, token, spki).Ok?
    ensures SignedParts(codec, rsa, token, spki, VerifyForwarded(codec, rsa, token, spki).value, h, c, s)
  {
    h, c, s := Split(token)[0], Split(token)[1], Split(token)[2];
    JoinOfSplit(token);
    JoinThree(Split(token));
    AcceptedParts(codec, rsa, h, c, s, spki);
  }

  lemma JoinThree(parts: seq<Bytes>)
    requires |parts| == 3
    ensures Join(parts) == parts[0] + [Base64.DOT] + parts[1] + [Base64.DOT] + parts[2]
  {
    var rest := parts[1..];
    assert Join(rest) == parts[1] + [Base64.DOT] + Join(rest[1..]);
    assert Join(rest[1..]) == parts[2];
  }

  function Join(parts: seq<Bytes>): Bytes
    requires parts != []
  {
    if |parts| == 1 then parts[0] else parts[0] + [Base64.DOT] + Join(parts[1..])
  }

  lemma {:induction false} JoinOfSplit(t: Bytes)
    ensures Split(t) != [] && Join(Split(t)) == t
    decreases |t|
  {
    if Base64.DOT in t {
      var i := DotIndex(t);
      JoinOfSplit(t[i + 1..]);
      assert Split(t)[1..] == Split(t[i + 1..]);
      assert t == t[..i] + [Base64.DOT] + t[i + 1..];
    }
  }

  /** A token is accepted with this verdict if and only if it consists of signed parts that
      say exactly that. */
  lemma AcceptedIff(codec: Codec, rsa: Rsa, token: Bytes, spki: Bytes, v: VerifiedToken)
    ensures VerifyForwarded(codec, rsa, token, spki) == Ok(v) <==> exists h, c, s :: SignedParts(codec, rsa, token, spki, v, h, c, s)
  {
    if VerifyForwarded(codec, rsa, token, spki) == Ok(v) {
      var h, c, s := AcceptedMeansSigned(codec, rsa, token, spki);
    }
    forall h, c, s | SignedParts(codec, rsa, token, spki, v, h, c, s) ensures VerifyForwarded(codec, rsa, token, spki) == Ok(v) {
      SignedPartsAccepted(codec, rsa, token, spki, v, h, c, s);
    }
  }

  lemma SignedPartsAccepted(codec: Codec, rsa: Rsa, token: Bytes, spki: Bytes, v: VerifiedToken, h: Bytes, c: Bytes, s: Bytes)
    requires SignedParts(codec, rsa, token, spki, v, h, c, s)
    ensures VerifyForwarded(codec, rsa, token, spki) == Ok(v)
  {
    Base64.DecodedHasNoDot(h);
    Base64.DecodedHasNoDot(c);
    Base64.DecodedHasNoDot(s);
    SplitThree(h, c, s);
  }

  // ---- Serials as text -------------------------------------------------------------

  function DigitValue(d: char): int {
    d as int - '0' as int
  }

  /** The number a decimal text denotes. */
  function ValueOf(text: string, n: nat): int
    requires n <= |text|
  {
    if n == 0 then 0 else ValueOf(text, n - 1) * 10 + DigitValue(text[n - 1])
  }

  lemma {:induction false} ValueOfPrefix(text: string, d: char, n: nat)
    requires n <= |text|
    ensures ValueOf(text + [d], n) == ValueOf(text, n)
  {
    if n > 0 {
      ValueOfPrefix(text, d, n - 1);
    }
  }

  /** A serial is rendered by digits that denote it, without a leading zero. */
  lemma {:induction false} DecimalDenotes(n: nat)
    ensures var text := Decimal(n);
            && |text| > 0 && ValueOf(text, |text|) == n
            && (forall i :: 0 <= i < |text| ==> '0' <= text[i] <= '9')
            && (n > 0 ==> text[0] != '0')
  {
    var last := ('0' as int + n % 10) as char;
    if n < 10 {
      assert Decimal(n) == [last];
      assert ValueOf([last], 0) == 0;
    } else {
      DecimalDenotes(n / 10);
      var head := Decimal(n / 10);
      assert Decimal(n) == head + [last];
      ValueOfPrefix(head, last, |head|);
    }
  }

  /** Two serials never read the same. */
  lemma DecimalInjective(m: nat, n: nat)
    requires Decimal(m) == Decimal(n)
    ensures m == n
  {
    DecimalDenotes(m);
    DecimalDenotes(n);
  }

  /** Claims are made for a whole configuration, a card with a serial and a lifetime from
      300 s to 3600 s, and for nothing else; every claim is what was asked for, iat is the
      signing instant less 30 s in whole seconds and exp a lifetime later. */
  lemma NewClaimsIff(p: Provider, alias: string, target: string, serial: nat, keyID: string, jti: string, now: Instant, lifetime: Duration, c: Claims)
    ensures NewClaims(p, alias, target, serial, keyID, jti, now, lifetime) == Ok(c) <==>
              && p.projectNumber != "" && p.poolID != "" && p.providerID != "" && p.issuerURI != ""
              && alias != "" && target != "" && serial != 0 && keyID != "" && jti != ""
              && 300_000_000_000 <= lifetime <= 3_600_000_000_000
              && c.iss == p.issuerURI && c.sub == "pivb-key:" + keyID
              && c.aud == "https://iam.googleapis.com/projects/" + p.projectNumber + "/locations/global/workloadIdentityPools/" + p.poolID
                          + "/providers/" + p.providerID
              && c.iat == (now - 30_000_000_000) / 1_000_000_000 && c.exp == c.iat + lifetime / 1_000_000_000
              && c.jti == jti && c.alias == alias && c.target == target && c.serial == Decimal(serial) && c.keyID == keyID
  {
    assert p.OIDCAudience() == "https://iam.googleapis.com/projects/" + p.projectNumber + "/locations/global/workloadIdentityPools/" + p.poolID
                               + "/providers/" + p.providerID;
  }
}
