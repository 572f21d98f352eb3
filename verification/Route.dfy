/** The checks an origin makes on a forwarded assertion, and that an honest provider whose
    clock is close enough always passes them. */
module Route {
  import opened Basics
  import opened Config
  import opened Requests
  import Jws

  const SKEW: Duration := 30_000_000_000
  const FLOOR: Duration := 60_000_000_000

  datatype Response = Response(token: Bytes, expirationTime: int, card: CardIdentity, expectedCard: CardIdentity)

  datatype RouteError =
    | NotTheClaimedCard | Unverified(e: Jws.JwsError) | CardNotEnrolled | ClaimsMismatch
    | LifetimeDisagreement | Stale | HeaderMismatch

  /** Freshness against the origin clock, which is read once for exp and once for iat. */
  predicate Fresh(iat: int, exp: int, reuse: Duration, started: Instant, expRead: Instant, iatRead: Instant) {
    && FromUnix(exp) > expRead
    && iat >= Unix(started - 2 * SKEW - reuse)
    && iat <= Unix(iatRead + SKEW)
  }

  function CheckResponse(cfg: Settings, req: Request, alias: Alias, resp: Response,
                         started: Instant, expRead: Instant, iatRead: Instant): Result<Jws.Claims, RouteError> {
    if resp.card != resp.expectedCard then Err(NotTheClaimedCard)
    else
      match Jws.VerifyForwarded(cfg.codec, cfg.rsa, resp.token, resp.card.spki)
      case Err(e) => Err(Unverified(e))
      case Ok(verified) =>
        var claims := verified.claims;
        if resp.card.serial !in cfg.keys || cfg.keys[resp.card.serial] != resp.card.keyID || claims.keyID != resp.card.keyID
        then Err(CardNotEnrolled)
        else if claims.iss != cfg.provider.issuerURI || claims.aud != cfg.provider.OIDCAudience()
                || claims.sub != Jws.SUBJECT_PREFIX + resp.card.keyID || claims.alias != req.alias
                || claims.target != alias.target || claims.serial != Jws.Decimal(resp.card.serial) || claims.jti == ""
        then Err(ClaimsMismatch)
        else if claims.exp - claims.iat != WholeSeconds(Lifetime(alias)) then Err(LifetimeDisagreement)
        else if resp.expirationTime != claims.exp || !Fresh(claims.iat, claims.exp, Reuse(alias), started, expRead, iatRead) then Err(Stale)
        else if resp.card.keyID != verified.headerKeyID then Err(HeaderMismatch)
        else Ok(claims)
  }

  /** One answered mint as both clocks saw it. Provider clock: signed over [signAt,
      completedAt], the request arrived at arrival and the answer was settled at settled.
      Origin clock: the request left at started and the response was read at expRead and
      iatRead. The origin clock is ahead of the provider's by ahead (negative when behind). */
  datatype Exchange = Exchange(
    signAt: Instant, completedAt: Instant, arrival: Instant, settled: Instant,
    started: Instant, expRead: Instant, iatRead: Instant, ahead: Duration)

  /** What makes x an exchange at all, and not a slow one: times in order, and less than the
      validity floor of transport plus skew between the answer and its first reading. */
  predicate Timely(x: Exchange) {
    && x.signAt <= x.completedAt
    && x.started <= x.arrival + x.ahead
    && x.settled + x.ahead <= x.expRead <= x.iatRead
    && x.expRead - x.settled < FLOOR
  }

  /** What the provider's admission rules promise of an answer: fresh from the card, or
      from a held assertion, above the floor, within its queue or inside its window. */
  predicate Honest(x: Exchange, exp: int, reuse: Duration) {
    || (x.arrival <= x.signAt && x.settled == x.completedAt)
    || (&& x.arrival <= x.settled && x.completedAt <= x.settled
        && (x.arrival <= x.completedAt || x.settled - x.completedAt < reuse)
        && FromUnix(exp) - x.settled >= FLOOR)
  }

  function IatOf(x: Exchange): int {
    Unix(x.signAt - SKEW)
  }

  function ExpOf(alias: Alias, x: Exchange): int {
    IatOf(x) + WholeSeconds(Lifetime(alias))
  }

  /** Validity left above the floor when a whole window has been used up. */
  function Headroom(alias: Alias): Duration {
    Lifetime(alias) - SKEW - FLOOR - Reuse(alias)
  }

  /** How much lead of the origin clock and how much signing latency an alias bears. With
      the latency added, the origin may be at most two allowances behind. The latency must
      leave a fresh answer above the floor in every phase of the second; the lead must not
      outrun the window plus one allowance; and either lead and latency fit one allowance
      together (a window ends strictly before its last instant, hence the nanosecond), or
      the floor refuses the answers that would be too old. A lead of a whole floor leaves no
      timely exchange at all. */
  predicate Bearable(alias: Alias, ahead: Duration, latency: Duration) {
    || FLOOR <= ahead
    || (&& -2 * SKEW <= ahead + latency
        && latency <= Headroom(alias) + Reuse(alias) - (Seconds(1) - 1)
        && ahead <= SKEW + Reuse(alias)
        && (|| ahead + latency <= SKEW + (if Reuse(alias) > 0 then 1 else 0)
            || ahead + Headroom(alias) < SKEW + Seconds(1)))
  }

  ghost predicate AlwaysFresh(alias: Alias, ahead: Duration, latency: Duration) {
    forall x: Exchange ::
      x.ahead == ahead && x.completedAt - x.signAt == latency && Timely(x) && Honest(x, ExpOf(alias, x), Reuse(alias))
      ==> Fresh(IatOf(x), ExpOf(alias, x), Reuse(alias), x.started, x.expRead, x.iatRead)
  }

  /** The rule operators go by: lead and latency within one allowance are always bearable. */
  lemma OneAllowanceIsBearable(alias: Alias, ahead: Duration, latency: Duration)
    requires ValidAlias(alias) && -2 * SKEW <= ahead && 0 <= latency && ahead + latency <= SKEW
    ensures Bearable(alias, ahead, latency)
  {
    AcceptedAliasBounds(alias);
  }

  lemma HonestAnswersAreFresh(alias: Alias, x: Exchange)
    requires ValidAlias(alias) && Timely(x) && Honest(x, ExpOf(alias, x), Reuse(alias))
    requires Bearable(alias, x.ahead, x.completedAt - x.signAt)
    ensures Fresh(IatOf(x), ExpOf(alias, x), Reuse(alias), x.started, x.expRead, x.iatRead)
  {
    AcceptedAliasBounds(alias);
    var signed := x.signAt - SKEW;
    UnixMonotone(0, signed);
    NotTooOld(x.started - 2 * SKEW - Reuse(alias), signed);
    UnixMonotone(signed, x.iatRead + SKEW);
  }

  /** A reading falls in no later second than another unless it reaches the next one. */
  lemma NotTooOld(a: Instant, b: Instant)
    ensures Unix(a) <= Unix(b) <==> a < FromUnix(Unix(b)) + Seconds(1)
  {
  }

  /** The exact bound: with these clocks and this latency every timely answer of an honest
      provider is fresh at the origin if and only if the alias bears them. */
  lemma FreshnessBoundIsExact(alias: Alias, ahead: Duration, latency: Duration)
    requires ValidAlias(alias) && 0 <= latency
    ensures AlwaysFresh(alias, ahead, latency) <==> Bearable(alias, ahead, latency)
  {
    if Bearable(alias, ahead, latency) {
      forall x: Exchange | x.ahead == ahead && x.completedAt - x.signAt == latency && Timely(x) && Honest(x, ExpOf(alias, x), Reuse(alias))
        ensures Fresh(IatOf(x), ExpOf(alias, x), Reuse(alias), x.started, x.expRead, x.iatRead)
      {
        HonestAnswersAreFresh(alias, x);
      }
    } else {
      var x := RefusedAnswer(alias, ahead, latency);
    }
  }

  /** An honest, timely answer the origin refuses, for each way of not being bearable: an
      origin so far behind that it is signed in its future, a touch that outlasts the validity above the floor, a lead that makes even a fresh answer
      look stale, and the last answer the window or the queue still admits. */
  lemma RefusedAnswer(alias: Alias, ahead: Duration, latency: Duration) returns (x: Exchange)
    requires ValidAlias(alias) && 0 <= latency && !Bearable(alias, ahead, latency)
    ensures x.ahead == ahead && x.completedAt - x.signAt == latency && Timely(x) && Honest(x, ExpOf(alias, x), Reuse(alias))
    ensures !Fresh(IatOf(x), ExpOf(alias, x), Reuse(alias), x.started, x.expRead, x.iatRead)
  {
    AcceptedAliasBounds(alias);
    var reuse := Reuse(alias);
    if ahead + latency < -2 * SKEW {
      x := Exchange(SKEW, SKEW + latency, SKEW, SKEW + latency, SKEW + ahead, SKEW + latency + ahead, SKEW + latency + ahead, ahead);
      assert IatOf(x) == 0;
    } else if latency > Headroom(alias) + reuse - (Seconds(1) - 1) || ahead > SKEW + reuse {
      var signAt := SKEW + Seconds(1) - 1;
      var read := signAt + latency + FLOOR - 1;
      x := Exchange(signAt, signAt + latency, signAt, signAt + latency, signAt + ahead, read, read, ahead);
      assert IatOf(x) == 0;
    } else {
      var phase := if SKEW + Seconds(1) + (if reuse > 0 then 1 else 0) > latency + ahead
                   then SKEW + Seconds(1) + (if reuse > 0 then 1 else 0) - latency - ahead else 0;
      var signAt := SKEW + phase;
      var completedAt := signAt + latency;
      var settled := Min(completedAt + (if reuse > 0 then reuse - 1 else 0), Lifetime(alias) - FLOOR);
      var read := settled + FLOOR - 1;
      x := Exchange(signAt, completedAt, settled, settled, settled + ahead, read, read, ahead);
      assert IatOf(x) == 0;
    }
  }

  lemma UnixMonotone(a: Instant, b: Instant)
    ensures a <= b ==> Unix(a) <= Unix(b)
    ensures FromUnix(Unix(b)) <= b < FromUnix(Unix(b)) + Seconds(1)
  {
  }

  /** What the callback promises of a digest it built. */
  predicate WellBuilt(cfg: Settings, req: Request, alias: Alias, serial: nat, now: Instant, d: Digest) {
    && cfg.rsa.keyID(d.spki) == Some(d.kid) && serial in cfg.keys && cfg.keys[serial] == d.kid && d.kid != ""
    && Jws.SigningInput(cfg.codec, d.claims) == Ok(d.input) && d.input != []
    && d.claims.keyID == d.kid && d.claims.sub == Jws.SUBJECT_PREFIX + d.kid && d.claims.serial == Jws.Decimal(serial)
    && d.claims.iss == cfg.provider.issuerURI && d.claims.aud == cfg.provider.OIDCAudience()
    && d.claims.alias == req.alias && d.claims.target == alias.target && d.claims.jti != ""
    && d.claims.iat == Unix(now - SKEW) && d.claims.exp == d.claims.iat + WholeSeconds(Lifetime(alias))
    && (req.expectedCard.serial != 0 ==> serial == req.expectedCard.serial && d.kid == req.expectedCard.keyID)
    && (req.expectedCard.spki != [] ==> d.spki == req.expectedCard.spki)
  }

  lemma DigestsAreWellBuilt(cfg: Settings, req: Request, alias: Alias, serial: nat, spki: Bytes, jti: string, now: Instant)
    requires DigestFor(cfg, req, alias, serial, spki, jti, now).Ok?
    ensures var d := DigestFor(cfg, req, alias, serial, spki, jti, now).value;
            d.spki == spki && WellBuilt(cfg, req, alias, serial, now, d)
  {
  }

  lemma ChecksPass(cfg: Settings, req: Request, alias: Alias, serial: nat, token: Bytes, d: Digest, x: Exchange)
    requires Jws.VerifyForwarded(cfg.codec, cfg.rsa, token, d.spki) == Ok(Jws.VerifiedToken(d.kid, d.claims))
    requires WellBuilt(cfg, req, alias, serial, x.signAt, d) && req.expectedCard == CardIdentity(serial, d.kid, d.spki)
    requires Fresh(d.claims.iat, d.claims.exp, Reuse(alias), x.started, x.expRead, x.iatRead)
    ensures CheckResponse(cfg, req, alias, Response(token, d.claims.exp, CardIdentity(serial, d.kid, d.spki), req.expectedCard),
                          x.started, x.expRead, x.iatRead) == Ok(d.claims)
  {
  }

  /** A well-built digest, signed, passes every check of an origin with the same
      configuration, whether the answer that carries it is fresh, coalesced or reused. */
  lemma SignedDigestAccepted(cfg: Settings, req: Request, alias: Alias, serial: nat, d: Digest, signature: Bytes, x: Exchange)
    requires ValidAlias(alias) && WellBuilt(cfg, req, alias, serial, x.signAt, d)
    requires req.expectedCard.serial != 0 && req.expectedCard.spki != []
    requires cfg.codec.Faithful(d.claims) && signature != [] && cfg.rsa.verifies(d.spki, d.input, signature)
    requires Timely(x) && Bearable(alias, x.ahead, x.completedAt - x.signAt) && Honest(x, d.claims.exp, Reuse(alias))
    ensures var token := Jws.Assemble(d.input, signature);
            && token.Ok?
            && CheckResponse(cfg, req, alias,
                             Response(token.value, d.claims.exp, CardIdentity(serial, d.kid, d.spki), req.expectedCard),
                             x.started, x.expRead, x.iatRead) == Ok(d.claims)
  {
    var token := TokenVerifies(cfg, d, signature);
    HonestDigestIsFresh(cfg, req, alias, serial, d, x);
    ChecksPass(cfg, req, alias, serial, token, d, x);
  }

  lemma TokenVerifies(cfg: Settings, d: Digest, signature: Bytes) returns (token: Bytes)
    requires cfg.rsa.keyID(d.spki) == Some(d.kid) && d.kid != "" && d.claims.keyID == d.kid
    requires Jws.SigningInput(cfg.codec, d.claims) == Ok(d.input) && d.input != []
    requires cfg.codec.Faithful(d.claims) && signature != [] && cfg.rsa.verifies(d.spki, d.input, signature)
    ensures Jws.Assemble(d.input, signature) == Ok(token)
    ensures Jws.VerifyForwarded(cfg.codec, cfg.rsa, token, d.spki) == Ok(Jws.VerifiedToken(d.kid, d.claims))
  {
    token := Jws.Assemble(d.input, signature).value;
    Jws.VerifyOfAssemble(cfg.codec, cfg.rsa, d.claims, signature, d.spki);
  }

  lemma HonestDigestIsFresh(cfg: Settings, req: Request, alias: Alias, serial: nat, d: Digest, x: Exchange)
    requires ValidAlias(alias) && WellBuilt(cfg, req, alias, serial, x.signAt, d)
    requires Timely(x) && Bearable(alias, x.ahead, x.completedAt - x.signAt) && Honest(x, d.claims.exp, Reuse(alias))
    ensures Fresh(d.claims.iat, d.claims.exp, Reuse(alias), x.started, x.expRead, x.iatRead)
  {
    HonestAnswersAreFresh(alias, x);
  }

  /** Every answer an honest provider gives is accepted with its claims. */
  lemma HonestProviderAccepted(cfg: Settings, t: Ticket, serial: nat, spki: Bytes, jti: string, signature: Bytes, x: Exchange)
    requires ValidAlias(t.alias) && t.req.expectedCard.serial != 0 && t.req.expectedCard.spki != []
    requires DigestFor(cfg, t.req, t.alias, serial, spki, jti, x.signAt).Ok?
    requires var d := DigestFor(cfg, t.req, t.alias, serial, spki, jti, x.signAt).value;
             && cfg.codec.Faithful(d.claims) && signature != [] && cfg.rsa.verifies(spki, d.input, signature)
             && Timely(x) && Bearable(t.alias, x.ahead, x.completedAt - x.signAt) && Honest(x, d.claims.exp, Reuse(t.alias))
    ensures var d := DigestFor(cfg, t.req, t.alias, serial, spki, jti, x.signAt).value;
            var token := Jws.Assemble(d.input, signature);
            && token.Ok?
            && CheckResponse(cfg, t.req, t.alias,
                             Response(token.value, d.claims.exp, CardIdentity(serial, d.kid, spki), t.req.expectedCard),
                             x.started, x.expRead, x.iatRead) == Ok(d.claims)
  {
    DigestsAreWellBuilt(cfg, t.req, t.alias, serial, spki, jti, x.signAt);
    SignedDigestAccepted(cfg, t.req, t.alias, serial, DigestFor(cfg, t.req, t.alias, serial, spki, jti, x.signAt).value, signature, x);
  }

  // ---- What an origin accepts --------------------------------------------------------

  /** How long an assertion is valid, as this origin configures the alias. */
  function ConfiguredSeconds(alias: Alias): int {
    if alias.assertionLifetimeS > 0 then alias.assertionLifetimeS else 300
  }

  /** Everything an accepted response has to be, check by check: from the claimed card, which
      is enrolled under its key ID; carrying the claims of signed parts that name that key
      and this origin's own configuration; as long-lived as configured here; and fresh. */
  ghost predicate Acceptable(cfg: Settings, req: Request, alias: Alias, resp: Response,
                             started: Instant, expRead: Instant, iatRead: Instant, claims: Jws.Claims) {
    && resp.card == resp.expectedCard
    && (exists h, c, s :: Jws.SignedParts(cfg.codec, cfg.rsa, resp.token, resp.card.spki, Jws.VerifiedToken(resp.card.keyID, claims), h, c, s))
    && resp.card.serial in cfg.keys && cfg.keys[resp.card.serial] == resp.card.keyID
    && claims.iss == cfg.provider.issuerURI
    && claims.aud == "https://iam.googleapis.com/projects/" + cfg.provider.projectNumber + "/locations/global/workloadIdentityPools/"
                     + cfg.provider.poolID + "/providers/" + cfg.provider.providerID
    && claims.sub == "pivb-key:" + resp.card.keyID && claims.serial == Jws.Decimal(resp.card.serial)
    && claims.alias == req.alias && claims.target == alias.target && claims.jti != ""
    && claims.exp - claims.iat == ConfiguredSeconds(alias) && resp.expirationTime == claims.exp
    && expRead < claims.exp * 1_000_000_000
    && (started - 60_000_000_000 - alias.assertionReuseS * 1_000_000_000) / 1_000_000_000 <= claims.iat
    && claims.iat <= (iatRead + 30_000_000_000) / 1_000_000_000
  }

  /** An origin accepts a response, at whatever readings of its clock, if and only if it is
      acceptable, and then for exactly those claims. */
  lemma CheckResponseIff(cfg: Settings, req: Request, alias: Alias, resp: Response,
                         started: Instant, expRead: Instant, iatRead: Instant, claims: Jws.Claims)
    ensures CheckResponse(cfg, req, alias, resp, started, expRead, iatRead) == Ok(claims)
            <==> Acceptable(cfg, req, alias, resp, started, expRead, iatRead, claims)
  {
    Jws.AcceptedIff(cfg.codec, cfg.rsa, resp.token, resp.card.spki, Jws.VerifiedToken(resp.card.keyID, claims));
    AudienceSpelledOut(cfg.provider);
    if CheckResponse(cfg, req, alias, resp, started, expRead, iatRead) == Ok(claims) {
      AcceptedHeader(cfg, req, alias, resp, started, expRead, iatRead);
    }
  }

  lemma AudienceSpelledOut(p: Jws.Provider)
    ensures p.OIDCAudience() == "https://iam.googleapis.com/projects/" + p.projectNumber + "/locations/global/workloadIdentityPools/"
                                + p.poolID + "/providers/" + p.providerID
  {
  }

  lemma AcceptedHeader(cfg: Settings, req: Request, alias: Alias, resp: Response, started: Instant, expRead: Instant, iatRead: Instant)
    requires CheckResponse(cfg, req, alias, resp, started, expRead, iatRead).Ok?
    ensures var claims := CheckResponse(cfg, req, alias, resp, started, expRead, iatRead).value;
            Jws.VerifyForwarded(cfg.codec, cfg.rsa, resp.token, resp.card.spki) == Ok(Jws.VerifiedToken(resp.card.keyID, claims))
  {
  }
}
