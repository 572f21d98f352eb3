/** What a caller may conclude from a credential: which touch produced it, that a cache hit
    is indistinguishable from a fresh mint, how far one touch reaches, and how few it takes. */
module MintServing {
  import opened Basics
  import opened Config
  import opened Requests
  import opened ReuseSpec
  import opened Mint
  import opened MintBase
  import Jws
  import Route
  import Window

  /** Step i hands a credential to the request whose ticket holds the outer lock. */
  ghost predicate Hands(cfg: Settings, r: Run, i: nat) {
    && IsRun(cfg, r) && i < |r.steps| && r.steps[i].Release?
    && r.states[i].outer.Minting? && r.states[i].outer.phase.Finished?
    && r.states[i].outer.phase.answer.Credential?
  }

  ghost function Handed(cfg: Settings, r: Run, i: nat): Answer
    requires Hands(cfg, r, i)
  {
    r.states[i].outer.phase.answer
  }

  ghost function Recipient(cfg: Settings, r: Run, i: nat): Ticket
    requires Hands(cfg, r, i)
  {
    r.states[i].outer.ticket
  }

  lemma HandedAnswerOk(cfg: Settings, r: Run, i: nat)
    requires Hands(cfg, r, i)
    ensures AnswerOk(cfg, r.states[i], Recipient(cfg, r, i), Handed(cfg, r, i))
    ensures TicketOk(cfg, Recipient(cfg, r, i), r.states[i].now)
  {
    RunKeepsBase(cfg, r, i);
  }

  /** Every credential handed out, reused or fresh, is byte for byte the token of one
      completed touch given for a request with the recipient's own requester tuple, and
      reports the recipient's own grant; and the callback, asked
      about the recipient's own request, that card and that draw, builds the very digest
      that was signed, so every enrolment, claimed-card, alias and target check holds. */
  lemma EveryCredentialIsOneTouchForTheSameTuple(cfg: Settings, r: Run, i: nat)
    requires Hands(cfg, r, i)
    ensures var (a, t, s) := (Handed(cfg, r, i), Recipient(cfg, r, i), r.states[i]);
            && a.touch < |s.touches|
            && var touch := s.touches[a.touch];
            && touch.signed.Some? && touch.ticket.key == t.key
            && SameTuple(touch.ticket.req, t.req, touch.ticket.alias.target, t.alias.target)
            && var sg := touch.signed.value;
            && Jws.Assemble(sg.digest.input, sg.signature) == Ok(a.token)
            && a.serial == sg.serial && a.keyID == sg.digest.kid && a.spki == sg.digest.spki
            && a.expiresAt == FromUnix(sg.digest.claims.exp)
            && DigestFor(cfg, t.req, t.alias, a.serial, a.spki, touch.jti, touch.signAt) == Ok(sg.digest)
            && cfg.rsa.verifies(a.spki, sg.digest.input, sg.signature)
            && (!a.reused ==> touch.ticket == t)
            && a.windowSeconds == t.grant.seconds
            && a.windowDeadline == (if t.grant.deadline.Some? then t.grant.deadline.value / 1_000_000_000 else 0)
  {
    HandedAnswerOk(cfg, r, i);
    var (a, t, s) := (Handed(cfg, r, i), Recipient(cfg, r, i), r.states[i]);
    var touch := s.touches[a.touch];
    KeysAgreeIff(cfg, touch.ticket, t);
    EqualKeysEqualDigests(cfg, touch.ticket, t, touch.signed.value.serial, touch.signed.value.digest.spki, touch.jti, touch.signAt);
    SignedTouchUnfolded(cfg, touch, s.now);
  }

  lemma SignedTouchUnfolded(cfg: Settings, touch: Touch, now: Instant)
    requires TouchSigned(cfg, touch, now)
    ensures var sg := touch.signed.value;
            && Jws.Assemble(sg.digest.input, sg.signature) == Ok(sg.Token())
            && DigestFor(cfg, touch.ticket.req, touch.ticket.alias, sg.serial, sg.digest.spki, touch.jti, touch.signAt) == Ok(sg.digest)
  {
    var sg := touch.signed.value;
    assert DigestFor(cfg, touch.ticket.req, touch.ticket.alias, sg.serial, sg.digest.spki, touch.jti, touch.signAt) == Ok(sg.digest);
  }

  /** Before the end of any window granted under the claim: both of what it asked for and of
      what this provider allows, counted from its start. */
  predicate BeforeGrantEnds(cfg: Settings, fc: ForwardContext, at: Instant) {
    && at < fc.windowDeadline * 1_000_000_000
    && at < (fc.windowDeadline - fc.windowSeconds + cfg.maxGrantWindowS) * 1_000_000_000
  }

  lemma GrantEndsInTime(cfg: Settings, t: Ticket, at: Instant)
    requires Accept(cfg, t.req, t.arrival) == Ok(t) && t.grant.deadline.Some? && at < t.grant.deadline.value
    ensures BeforeGrantEnds(cfg, t.req.forward, at)
  {
    AcceptIff(cfg, t.req, t.arrival);
    Window.GrantIsExact(cfg.maxGrantWindowS, t.req.forward.windowSeconds, t.req.forward.windowDeadline, t.arrival);
  }

  /** Why an answer settled at that instant may repeat a touch: it shares a queue with it, or
      it lies in the operator's window, before any granted window of the touch itself is
      over. With no window configured, a request that arrives strictly after a completion
      never shares that signature. */
  ghost predicate MayRepeat(cfg: Settings, touch: Touch, completedAt: Instant, t: Ticket, settled: Instant) {
    && completedAt <= settled && t.arrival <= settled
    && ((cfg.singleFlight && t.arrival <= completedAt)
        || (&& 0 < t.alias.assertionReuseS && settled - completedAt <= t.alias.assertionReuseS * 1_000_000_000
            && (touch.ticket.grant.deadline.Some? ==> BeforeGrantEnds(cfg, touch.ticket.req.forward, settled))))
    && (t.alias.assertionReuseS <= 0 ==> t.arrival <= completedAt)
  }

  lemma AdmittedMayRepeat(cfg: Settings, s: Sys, e: Entry, t: Ticket, at: Instant)
    requires EntryOf(cfg, s, e) && AdmittedAt(cfg, e, t, at) && s.touches[e.id].ticket.alias == t.alias
    ensures MayRepeat(cfg, s.touches[e.id], e.completedAt, t, at) && e.expiresAt - at >= 60_000_000_000
  {
    var touch := s.touches[e.id];
    if 0 < Reuse(t.alias) {
      Window.GrantOnlyShortens(e.completedAt, Reuse(t.alias), touch.ticket.grant.deadline, at);
      if touch.ticket.grant.deadline.Some? && at < touch.ticket.grant.deadline.value {
        GrantEndsInTime(cfg, touch.ticket, at);
      }
    }
  }

  lemma ReusedAnswerOk(cfg: Settings, s: Sys, t: Ticket, a: Answer)
    requires AnswerOk(cfg, s, t, a) && TicketOk(cfg, t, s.now) && a.Credential? && a.reused
    ensures a.touch < |s.touches| && s.touches[a.touch].completedAt.Some?
    ensures MayRepeat(cfg, s.touches[a.touch], s.touches[a.touch].completedAt.value, t, a.settled)
    ensures a.expiresAt - a.settled >= 60_000_000_000
  {
    var e :| EntryOf(cfg, s, e) && AdmittedAt(cfg, e, t, a.settled) && a == CachedAnswer(e, a.settled, t);
    KeysAgreeIff(cfg, s.touches[e.id].ticket, t);
    AdmittedMayRepeat(cfg, s, e, t, a.settled);
  }

  /** Admission law of a reused credential: it may repeat its touch, and at least a minute of
      its validity remains. */
  lemma ReusedCredentialWasAdmitted(cfg: Settings, r: Run, i: nat)
    requires Hands(cfg, r, i) && Handed(cfg, r, i).reused
    ensures var (a, t, s) := (Handed(cfg, r, i), Recipient(cfg, r, i), r.states[i]);
            && a.touch < |s.touches| && s.touches[a.touch].completedAt.Some?
            && MayRepeat(cfg, s.touches[a.touch], s.touches[a.touch].completedAt.value, t, a.settled)
            && a.expiresAt - a.settled >= 60_000_000_000
  {
    HandedAnswerOk(cfg, r, i);
    ReusedAnswerOk(cfg, r.states[i], Recipient(cfg, r, i), Handed(cfg, r, i));
  }

  /** Under an accepted configuration a touch-free window closes at least 59 seconds, less
      the time the touch took, before the assertion it serves expires. */
  lemma WindowEndsBeforeExpiry(cfg: Settings, touch: Touch, now: Instant)
    requires TouchDone(cfg, touch, now) && ValidAlias(touch.ticket.alias)
    ensures var latency := touch.completedAt.value - touch.signAt;
            var e := MadeEntry(0, touch, None);
            e.expiresAt - e.windowEndsAt > Seconds(59) - latency
  {
    var alias := touch.ticket.alias;
    SignedTouchUnfolded(cfg, touch, now);
    AcceptedAliasBounds(alias);
    Window.GrantOnlyShortens(touch.completedAt.value, Reuse(alias), touch.ticket.grant.deadline, now);
    Route.UnixMonotone(0, touch.signAt - Seconds(CLOCK_SKEW_S));
  }

  /** From card to origin: every credential this daemon hands a forwarded request passes
      every check of an origin that shares its configuration, whatever interleaving of
      invalidations, sweeps, polls, locks and swaps produced it, as long as the two clocks
      and the transport are within the tolerated bounds. */
  lemma EveryForwardedCredentialPassesTheOrigin(cfg: Settings, r: Run, i: nat, x: Route.Exchange)
    requires Hands(cfg, r, i)
    requires var (a, t, s) := (Handed(cfg, r, i), Recipient(cfg, r, i), r.states[i]);
             && t.req.forward != NO_FORWARD && ValidAlias(t.alias)
             && a.touch < |s.touches| && s.touches[a.touch].completedAt.Some? && s.touches[a.touch].signed.Some?
             && cfg.codec.Faithful(s.touches[a.touch].signed.value.digest.claims)
             && Route.Timely(x) && Route.Bearable(t.alias, x.ahead, x.completedAt - x.signAt)
             && x.signAt == s.touches[a.touch].signAt && x.completedAt == s.touches[a.touch].completedAt.value
             && x.arrival == t.arrival && x.settled == a.settled
    ensures var (a, t) := (Handed(cfg, r, i), Recipient(cfg, r, i));
            Route.CheckResponse(cfg, t.req, t.alias,
              Route.Response(a.token, Unix(a.expiresAt), CardIdentity(a.serial, a.keyID, a.spki), t.req.expectedCard),
              x.started, x.expRead, x.iatRead).Ok?
  {
    var (a, t, s) := (Handed(cfg, r, i), Recipient(cfg, r, i), r.states[i]);
    HandedAnswerOk(cfg, r, i);
    EveryCredentialIsOneTouchForTheSameTuple(cfg, r, i);
    var touch := s.touches[a.touch];
    var sg := touch.signed.value;
    if a.reused {
      ReusedCredentialWasAdmitted(cfg, r, i);
    }
    assert Route.Honest(x, sg.digest.claims.exp, Reuse(t.alias));
    assert Unix(FromUnix(sg.digest.claims.exp)) == sg.digest.claims.exp;
    Route.HonestProviderAccepted(cfg, t, a.serial, a.spki, touch.jti, sg.signature, x);
  }
}
