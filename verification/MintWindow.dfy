/** The operator's opt-in, over runs: while a held assertion is fresh, its card is still there
    and its window is open, nobody with its tuple needs another touch. */
module MintWindow {
  import opened Basics
  import opened Config
  import opened Requests
  import opened ReuseSpec
  import opened Mint
  import opened MintBase
  import MintHolding
  import ReuseLaws
  import Window

  /** The window the alias opens for this entry, as configured now, is still open. */
  ghost predicate WindowOpen(cfg: Settings, s: Sys, e: Entry) {
    && e.key.alias in cfg.aliases
    && var reuse := cfg.aliases[e.key.alias].assertionReuseS * 1_000_000_000;
    && 0 < reuse && s.now - e.completedAt <= reuse && s.now < e.windowEndsAt
  }

  /** The request holding the outer lock asks for e's tuple. */
  ghost predicate HolderAsks(s: Sys, e: Entry) {
    s.outer.Minting? && s.outer.ticket.key == e.key
  }

  ghost predicate OnlyServing(s: Sys, e: Entry) {
    HolderAsks(s, e) ==> MintHolding.ServingPhase(s.outer.phase, e)
  }

  lemma LookUpFinds(cfg: Settings, s: Sys, step: Step, s': Sys, e: Entry)
    requires Next(cfg, s, step, s') && OfRequest(step)
    requires HolderAsks(s, e) && TicketOk(cfg, s.outer.ticket, s.now) && s.outer.phase.Holding?
    requires MintHolding.Servable(cfg, s, e) && WindowOpen(cfg, s, e) && e.completedAt <= s.now
    ensures step.LookUp? && s'.outer == Minting(s.outer.ticket, Admitted(s.g.cache[e.key], s.now))
  {
    HolderFinds(cfg, s, e);
    assert LookUpStep(cfg, s, s');
  }

  lemma HolderFinds(cfg: Settings, s: Sys, e: Entry)
    requires HolderAsks(s, e) && TicketOk(cfg, s.outer.ticket, s.now) && e.completedAt <= s.now
    requires MintHolding.Servable(cfg, s, e) && WindowOpen(cfg, s, e)
    ensures var t := s.outer.ticket;
            Lookup(s.g.cache, t.key, s.now, t.arrival, Reuse(t.alias), cfg.singleFlight) == Some(s.g.cache[e.key])
  {
    var t := s.outer.ticket;
    AliasOfKey(cfg, t, s.now);
    ReuseLaws.OpenWindowAnswers(s.g.cache, t.key, s.now, t.arrival, Reuse(t.alias), cfg.singleFlight);
  }

  lemma AliasOfKey(cfg: Settings, t: Ticket, now: Instant)
    requires TicketOk(cfg, t, now)
    ensures t.key.alias in cfg.aliases && t.alias == cfg.aliases[t.key.alias]
  {
    AcceptIff(cfg, t.req, t.arrival);
  }

  lemma ServingContinues(cfg: Settings, s: Sys, step: Step, s': Sys, e: Entry)
    requires OuterOk(cfg, s) && Next(cfg, s, step, s') && OnlyServing(s, e)
    requires MintHolding.Servable(cfg, s, e) && WindowOpen(cfg, s, e) && e.completedAt <= s.now
    ensures OnlyServing(s', e)
    ensures step.Begin? ==> !HolderAsks(s, e)
  {
    if !OfRequest(step) {
      WorldOnlyRemoves(cfg, s, step, s');
    } else if HolderAsks(s, e) {
      if s.outer.phase.Holding? {
        LookUpFinds(cfg, s, step, s', e);
      } else {
        MintHolding.PhaseServes(cfg, s, step, s', e);
      }
    } else {
      MintHolding.HolderKeepsTicket(cfg, s, step, s');
    }
  }

  lemma StepServes(cfg: Settings, r: Run, e: Entry, m: nat)
    requires IsRun(cfg, r) && m < |r.steps| && OnlyServing(r.states[m], e)
    requires MintHolding.Servable(cfg, r.states[m], e) && WindowOpen(cfg, r.states[m], e)
    ensures OnlyServing(r.states[m + 1], e)
    ensures r.steps[m].Begin? ==> !HolderAsks(r.states[m], e)
  {
    HeldWasCompleted(cfg, r, e, m);
    RunKeepsBase(cfg, r, m);
    assert StepAt(cfg, r, m);
    ServingContinues(cfg, r.states[m], r.steps[m], r.states[m + 1], e);
  }

  lemma {:induction false} StaysServing(cfg: Settings, r: Run, e: Entry, lo: nat, hi: nat)
    requires IsRun(cfg, r) && lo <= hi < |r.states| && OnlyServing(r.states[lo], e)
    requires forall m :: lo <= m < hi ==> MintHolding.Servable(cfg, r.states[m], e) && WindowOpen(cfg, r.states[m], e)
    ensures OnlyServing(r.states[hi], e)
    ensures forall m :: lo <= m < hi && r.steps[m].Begin? ==> !HolderAsks(r.states[m], e)
  {
    if lo < hi {
      StaysServing(cfg, r, e, lo, hi - 1);
      StepServes(cfg, r, e, hi - 1);
    }
  }

  /** From any moment when the outer lock is free to any later one up to which the entry
      stays servable and its window open, no request of its tuple begins a signature,
      whenever it arrived, and every one that returns gets the entry's bytes. */
  lemma OpenWindowCostsNoTouch(cfg: Settings, r: Run, e: Entry, lo: nat, hi: nat)
    requires IsRun(cfg, r) && lo <= hi < |r.states| && r.states[lo].outer.Free?
    requires forall m :: lo <= m < hi ==> MintHolding.Servable(cfg, r.states[m], e) && WindowOpen(cfg, r.states[m], e)
    ensures forall m :: lo <= m < hi && r.steps[m].Begin? ==> !HolderAsks(r.states[m], e)
    ensures forall m :: lo <= m < hi && r.steps[m].Release? && HolderAsks(r.states[m], e) ==>
              MintHolding.GetsBytesOf(r.states[m].outer.phase, e)
  {
    StaysServing(cfg, r, e, lo, hi);
    forall m | lo <= m < hi && r.steps[m].Release? && HolderAsks(r.states[m], e)
      ensures MintHolding.GetsBytesOf(r.states[m].outer.phase, e)
    {
      StaysServing(cfg, r, e, lo, m);
      assert StepAt(cfg, r, m);
    }
  }

  lemma HeldWasCompleted(cfg: Settings, r: Run, e: Entry, m: nat)
    requires IsRun(cfg, r) && m < |r.states| && MintHolding.Servable(cfg, r.states[m], e)
    ensures e.completedAt <= r.states[m].now
  {
    RunKeepsBase(cfg, r, m);
    assert HeldOk(cfg, r.states[m], e.key);
  }

  /** The window an entry is made with: exactly from its completion to the end of the alias
      window or of the grant it was signed under, whichever comes first. */
  lemma MadeWindowIff(i: nat, touch: Touch, readers: Option<seq<string>>, now: Instant)
    requires touch.signed.Some? && touch.completedAt.Some? && touch.ticket.alias.assertionReuseS >= 0
    requires touch.completedAt.value <= now
    ensures var (e, at) := (MadeEntry(i, touch, readers), touch.completedAt.value);
            && e.id == i && e.key == touch.ticket.key && e.completedAt == at && e.readers == readers && !e.notifiedPre
            && (now < e.windowEndsAt <==>
                  && now < at + touch.ticket.alias.assertionReuseS * 1_000_000_000
                  && (touch.ticket.grant.deadline.Some? ==> now < touch.ticket.grant.deadline.value))
  {
    Window.GrantOnlyShortens(touch.completedAt.value, Reuse(touch.ticket.alias), touch.ticket.grant.deadline, now);
  }

  /** A completed touch leaves an entry unless neither coalescing nor a window is configured,
      or the readers cannot be listed; and the next poll keeps it exactly if it lists the
      readers that were there when it was made. */
  lemma KeptIff(cfg: Settings, i: nat, touch: Touch, atSnapshot: Reading, c: Cache, atPoll: Reading)
    requires touch.signed.Some? && touch.completedAt.Some?
    ensures var made := NewEntry(cfg, i, touch, atSnapshot);
            && (made.Some? <==> (cfg.singleFlight || touch.ticket.alias.assertionReuseS != 0) && (cfg.listsReaders ==> atSnapshot.Names?))
            && (made.Some? ==> made.value == MadeEntry(i, touch, if cfg.listsReaders then Some(atSnapshot.names) else None))
            && (made.Some? && cfg.listsReaders && made.value.key in c && c[made.value.key] == made.value ==>
                  (made.value.key in PurgeReaders(c, atPoll) <==> atPoll == atSnapshot))
  {
    var made := NewEntry(cfg, i, touch, atSnapshot);
    if made.Some? && made.value.key in c {
      ReuseLaws.ReadersIff(c, atPoll, made.value.key);
    }
  }

  /** Every instant the daemon works with is read when the thing it dates happens: arrival
      before the queue, the draw before the touch, completion after it, the look-up when it
      admits, and the readers when the poll looks. */
  lemma StampsAreNow(cfg: Settings, s: Sys, step: Step, s': Sys)
    requires Next(cfg, s, step, s')
    ensures step.Arrive? ==> forall t :: t in s'.queued && t !in s.queued ==> t.req == step.req && t.arrival == s.now
    ensures step.Draw? && step.jti.Some? ==> s'.outer.Minting? && s'.outer.phase == Drawn(step.jti.value, s.now)
    ensures step.Complete? ==> s'.outer.Minting? && s'.outer.phase.Completed? && s'.outer.phase.touch < |s'.touches|
                               && s'.touches[s'.outer.phase.touch].completedAt == Some(s.now)
    ensures step.LookUp? && s'.outer.Minting? && s'.outer.phase.Admitted? ==> s'.outer.phase.at == s.now
    ensures step.PollRead? ==> s'.polled == Some(s.reading)
  {
    match step
    case Arrive(req) => ArrivalIsNow(cfg, s, req, s');
    case Draw(jti) => assert DrawStep(s, jti, s');
    case Complete => assert CompleteStep(s, s');
    case LookUp => assert LookUpStep(cfg, s, s');
    case _ =>
  }

  lemma ArrivalIsNow(cfg: Settings, s: Sys, req: Request, s': Sys)
    requires ArriveStep(cfg, s, req, s')
    ensures forall t :: t in s'.queued && t !in s.queued ==> t.req == req && t.arrival == s.now
  {
    AcceptIff(cfg, req, s.now);
  }
}
