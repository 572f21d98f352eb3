/** How long a held assertion stays the same one, and how many touches a queue costs. */
module MintHolding {
  import opened Basics
  import opened Config
  import opened Requests
  import opened ReuseSpec
  import opened Mint
  import opened MintBase

  ghost predicate Holds(s: Sys, id: nat) {
    exists k :: k in s.g.cache && s.g.cache[k].id == id
  }

  /** The touch is over: not inside the card and not on its way into the cache. */
  ghost predicate Over(s: Sys, id: nat) {
    id < |s.touches| && InFlight(s.outer) != Some(id)
  }

  /** A finished touch that is not held now is never held again. */
  lemma GoneStaysGone(cfg: Settings, s: Sys, step: Step, s': Sys, id: nat)
    requires Base(cfg, s) && Next(cfg, s, step, s')
    requires Over(s, id) && !Holds(s, id)
    ensures Over(s', id) && !Holds(s', id)
  {
    if !OfRequest(step) {
      WorldOnlyRemoves(cfg, s, step, s');
    } else if step.Insert? {
      InsertAddsOnlyItsTouch(s, s', id);
    } else {
      RequestOnlyInserts(cfg, s, step, s');
    }
    OverIsStable(cfg, s, step, s', id);
  }

  lemma InsertAddsOnlyItsTouch(s: Sys, s': Sys, id: nat)
    requires InsertStep(s, s') && !Holds(s, id)
    requires s.outer.phase.made.Some? ==> s.outer.phase.made.value.id != id
    ensures !Holds(s', id)
  {
    if s.outer.phase.made.Some? {
      forall k | k in s'.g.cache ensures s'.g.cache[k].id != id {
        InsertAddsOne(s.g, s.outer.phase.made.value, s'.g, k);
      }
    }
  }

  lemma {:induction false} GoneForRest(cfg: Settings, r: Run, i: nat, j: nat, id: nat)
    requires IsRun(cfg, r) && i <= j < |r.states|
    requires Over(r.states[i], id) && !Holds(r.states[i], id)
    ensures !Holds(r.states[j], id) && Over(r.states[j], id)
  {
    if i < j {
      GoneForRest(cfg, r, i, j - 1, id);
      RunKeepsBase(cfg, r, j - 1);
      assert StepAt(cfg, r, j - 1);
      GoneStaysGone(cfg, r.states[j - 1], r.steps[j - 1], r.states[j], id);
    }
  }

  /** An entry that a lookup admitted and the serve step handed out was in the cache, under
      the same key and with the same bytes, at every state in between, although the inner
      lock was released for the reader probe and every purge could run meanwhile. */
  lemma ServedEntryWasHeldThroughout(cfg: Settings, r: Run, i: nat, j: nat, m: nat)
    requires IsRun(cfg, r) && i <= m <= j < |r.steps|
    requires r.states[i].outer.Minting? && r.states[i].outer.phase.Admitted?
    requires r.steps[j].Serve? && r.states[j].outer.Minting? && r.states[j].outer.phase.CardSame?
    requires r.states[j].outer.phase.entry == r.states[i].outer.phase.entry
    requires r.states[j + 1].outer.Minting? && r.states[j + 1].outer.phase.Finished?
    ensures var e := r.states[i].outer.phase.entry;
            var c := r.states[m].g.cache;
            e.key in c && c[e.key].id == e.id && c[e.key].token == e.token
  {
    var e := r.states[i].outer.phase.entry;
    RunKeepsBase(cfg, r, i);
    AdmittedEntryOk(cfg, r.states[i]);
    assert StepAt(cfg, r, j);
    ServedIsHeld(r.states[j], r.states[j + 1]);
    OverFrom(cfg, r, i, m, e.id);
    if !Holds(r.states[m], e.id) {
      GoneForRest(cfg, r, m, j, e.id);
      assert false;
    }
    RunKeepsBase(cfg, r, m);
    var k :| k in r.states[m].g.cache && r.states[m].g.cache[k].id == e.id;
    assert HeldOk(cfg, r.states[m], k);
    OneTouchOneEntry(cfg, r.states[i], e, r.states[m], r.states[m].g.cache[k]);
  }

  /** Only a look-up admits an entry and only a probe confirms its card. */
  lemma ServingOrigin(cfg: Settings, s: Sys, step: Step, s': Sys)
    requires Next(cfg, s, step, s') && s'.outer.Minting?
    ensures s'.outer.phase.CardSame? ==> s'.outer == s.outer || (step.Probe? && ProbeStep(cfg, s, s'))
    ensures s'.outer.phase.Admitted? ==> s'.outer == s.outer || (step.LookUp? && LookUpStep(cfg, s, s'))
  {
    if !OfRequest(step) {
      WorldOnlyRemoves(cfg, s, step, s');
    }
  }

  lemma {:induction false} CardSameWasProbed(cfg: Settings, r: Run, j: nat) returns (m: nat)
    requires IsRun(cfg, r) && j < |r.states| && r.states[j].outer.Minting? && r.states[j].outer.phase.CardSame?
    ensures m < j && r.steps[m].Probe? && r.states[m].outer.Minting? && r.states[m].outer.phase.Admitted?
    ensures r.states[m].outer.ticket == r.states[j].outer.ticket && r.states[m].outer.phase.entry == r.states[j].outer.phase.entry
    ensures CardUnchanged(r.states[j].outer.phase.entry.readers, cfg.listsReaders, r.states[m].reading)
  {
    assert StepAt(cfg, r, j - 1);
    ServingOrigin(cfg, r.states[j - 1], r.steps[j - 1], r.states[j]);
    if r.states[j].outer == r.states[j - 1].outer {
      m := CardSameWasProbed(cfg, r, j - 1);
    } else {
      m := j - 1;
    }
  }

  lemma {:induction false} AdmittedWasFound(cfg: Settings, r: Run, j: nat) returns (l: nat)
    requires IsRun(cfg, r) && j < |r.states| && r.states[j].outer.Minting? && r.states[j].outer.phase.Admitted?
    ensures l < j && r.steps[l].LookUp? && r.states[l + 1].outer == r.states[j].outer
    ensures var (t, c) := (r.states[j].outer.ticket, r.states[l].g.cache);
            Lookup(c, t.key, r.states[l].now, t.arrival, Reuse(t.alias), cfg.singleFlight) == Some(r.states[j].outer.phase.entry)
  {
    assert StepAt(cfg, r, j - 1);
    ServingOrigin(cfg, r.states[j - 1], r.steps[j - 1], r.states[j]);
    if r.states[j].outer == r.states[j - 1].outer {
      l := AdmittedWasFound(cfg, r, j - 1);
    } else {
      l := j - 1;
    }
  }

  /** The whole of a cache hit: a serve that answers goes back to one look-up that admitted
      the entry and one reader probe that found its card still there, and the entry was held
      from the first of them to the last, whatever ran in between. */
  lemma ServedSinceLookUp(cfg: Settings, r: Run, j: nat) returns (l: nat, m: nat)
    requires IsRun(cfg, r) && j < |r.steps|
    requires r.steps[j].Serve? && r.states[j].outer.Minting? && r.states[j].outer.phase.CardSame?
    requires r.states[j + 1].outer.Minting? && r.states[j + 1].outer.phase.Finished?
    ensures l < m < j && r.steps[l].LookUp? && r.steps[m].Probe?
    ensures var (t, e) := (r.states[j].outer.ticket, r.states[j].outer.phase.entry);
            && Lookup(r.states[l].g.cache, t.key, r.states[l].now, t.arrival, Reuse(t.alias), cfg.singleFlight) == Some(e)
            && CardUnchanged(e.readers, cfg.listsReaders, r.states[m].reading)
            && forall n :: l < n <= j ==>
                 var c := r.states[n].g.cache; e.key in c && c[e.key].id == e.id && c[e.key].token == e.token
  {
    m := CardSameWasProbed(cfg, r, j);
    l := AdmittedWasFound(cfg, r, m);
    var e := r.states[j].outer.phase.entry;
    forall n | l < n <= j
      ensures var c := r.states[n].g.cache; e.key in c && c[e.key].id == e.id && c[e.key].token == e.token
    {
      ServedEntryWasHeldThroughout(cfg, r, l + 1, j, n);
    }
  }

  lemma AdmittedEntryOk(cfg: Settings, s: Sys)
    requires OuterOk(cfg, s) && s.outer.Minting? && s.outer.phase.Admitted?
    ensures EntryOf(cfg, s, s.outer.phase.entry) && Over(s, s.outer.phase.entry.id)
  {
  }

  lemma ServedIsHeld(s: Sys, s': Sys)
    requires ServeStep(s, s') && s'.outer.phase.Finished?
    ensures Holds(s, s.outer.phase.entry.id)
  {
  }

  lemma OneTouchOneEntry(cfg: Settings, s1: Sys, e1: Entry, s2: Sys, e2: Entry)
    requires EntryOf(cfg, s1, e1) && EntryOf(cfg, s2, e2) && e1.id == e2.id
    requires s2.touches[e1.id] == s1.touches[e1.id]
    ensures e2.key == e1.key && e2.token == e1.token
  {
  }

  lemma {:induction false} OverFrom(cfg: Settings, r: Run, i: nat, m: nat, id: nat)
    requires IsRun(cfg, r) && i <= m < |r.states|
    requires Over(r.states[i], id)
    ensures Over(r.states[m], id) && r.states[m].touches[id] == r.states[i].touches[id]
  {
    if i < m {
      OverFrom(cfg, r, i, m - 1, id);
      RunKeepsBase(cfg, r, m - 1);
      assert StepAt(cfg, r, m - 1);
      NextKeepsBase(cfg, r.states[m - 1], r.steps[m - 1], r.states[m]);
      OverIsStable(cfg, r.states[m - 1], r.steps[m - 1], r.states[m], id);
    }
  }

  lemma OverIsStable(cfg: Settings, s: Sys, step: Step, s': Sys, id: nat)
    requires Next(cfg, s, step, s') && Over(s, id)
    ensures Over(s', id)
  {
    if !OfRequest(step) {
      WorldOnlyRemoves(cfg, s, step, s');
    } else {
      FlightContinues(cfg, s, step, s');
    }
  }

  // ---- Signature economy -------------------------------------------------------

  /** The request asks for the tuple of touch e and arrived before it completed. */
  ghost predicate Queued(e: Entry, t: Ticket) {
    t.key == e.key && t.arrival <= e.completedAt
  }

  ghost predicate HolderQueued(s: Sys, e: Entry) {
    s.outer.Minting? && Queued(e, s.outer.ticket)
  }

  /** The same entry up to the notifier's mark. */
  predicate SameEntry(f: Entry, e: Entry) {
    f.(notifiedPre := e.notifiedPre) == e
  }

  /** The entry is held, fresh enough, and its card is still in the reader. */
  ghost predicate Servable(cfg: Settings, s: Sys, e: Entry) {
    && e.key in s.g.cache && SameEntry(s.g.cache[e.key], e)
    && AboveFloor(e, s.now)
    && CardUnchanged(e.readers, cfg.listsReaders, s.reading)
  }

  predicate GetsBytesOf(p: Phase, e: Entry) {
    p.Finished? && p.answer.Credential? && p.answer.reused && p.answer.touch == e.id && p.answer.token == e.token
  }

  /** Where a queued request holding the outer lock may stand: on its way to e's token. */
  ghost predicate ServingPhase(p: Phase, e: Entry) {
    match p
    case Holding => true
    case Admitted(f, _) => SameEntry(f, e)
    case CardSame(f, _) => SameEntry(f, e)
    case Finished(_) => GetsBytesOf(p, e)
    case _ => false
  }

  ghost predicate OnlyServing(s: Sys, e: Entry) {
    HolderQueued(s, e) ==> ServingPhase(s.outer.phase, e)
  }

  lemma ServingContinues(cfg: Settings, s: Sys, step: Step, s': Sys, e: Entry)
    requires Next(cfg, s, step, s') && cfg.singleFlight
    requires Servable(cfg, s, e) && OnlyServing(s, e)
    ensures OnlyServing(s', e)
    ensures step.Begin? ==> !HolderQueued(s, e)
  {
    if !OfRequest(step) {
      WorldOnlyRemoves(cfg, s, step, s');
    } else if HolderQueued(s, e) {
      if s.outer.phase.Holding? {
        LookUpFinds(cfg, s, step, s', e);
      } else {
        PhaseServes(cfg, s, step, s', e);
      }
    } else {
      HolderKeepsTicket(cfg, s, step, s');
    }
  }

  /** Once admitted to e, a request goes on to its bytes and to nothing else. */
  lemma PhaseServes(cfg: Settings, s: Sys, step: Step, s': Sys, e: Entry)
    requires OfRequest(step) && Next(cfg, s, step, s') && Servable(cfg, s, e)
    requires s.outer.Minting? && s.outer.ticket.key == e.key && ServingPhase(s.outer.phase, e) && !s.outer.phase.Holding?
    ensures s'.outer.Minting? ==> s'.outer.ticket == s.outer.ticket && ServingPhase(s'.outer.phase, e)
    ensures !step.Begin?
  {
    match s.outer.phase
    case Admitted(f, _) => ProbeServes(cfg, s, s', e);
    case CardSame(f, _) => ServeServes(s, s', e);
    case Finished(_) => assert ReleaseStep(s, s');
  }

  lemma ProbeServes(cfg: Settings, s: Sys, s': Sys, e: Entry)
    requires ProbeStep(cfg, s, s') && CardUnchanged(e.readers, cfg.listsReaders, s.reading) && SameEntry(s.outer.phase.entry, e)
    ensures s'.outer.Minting? && s'.outer.ticket == s.outer.ticket && ServingPhase(s'.outer.phase, e)
  {
  }

  lemma ServeServes(s: Sys, s': Sys, e: Entry)
    requires ServeStep(s, s') && s.outer.ticket.key == e.key && SameEntry(s.outer.phase.entry, e)
    requires e.key in s.g.cache && SameEntry(s.g.cache[e.key], e)
    ensures s'.outer.Minting? && s'.outer.ticket == s.outer.ticket && ServingPhase(s'.outer.phase, e)
  {
  }

  lemma LookUpFinds(cfg: Settings, s: Sys, step: Step, s': Sys, e: Entry)
    requires Next(cfg, s, step, s') && cfg.singleFlight && OfRequest(step)
    requires s.outer.Minting? && s.outer.phase.Holding? && Queued(e, s.outer.ticket) && Servable(cfg, s, e)
    ensures step.LookUp? && s'.outer == Minting(s.outer.ticket, Admitted(s.g.cache[e.key], s.now))
  {
    assert LookUpStep(cfg, s, s');
  }

  lemma HolderKeepsTicket(cfg: Settings, s: Sys, step: Step, s': Sys)
    requires OfRequest(step) && Next(cfg, s, step, s')
    ensures s.outer.Minting?
    ensures s'.outer.Minting? ==> s'.outer.ticket == s.outer.ticket
  {
  }

  /** How many signatures steps lo..hi begin for requests queued on e's touch. */
  ghost function Begins(r: Run, e: Entry, lo: nat, hi: nat): nat
    requires lo <= hi <= |r.steps| < |r.states|
  {
    if lo == hi then 0
    else
      Begins(r, e, lo, hi - 1) + if r.steps[hi - 1].Begin? && HolderQueued(r.states[hi - 1], e) then 1 else 0
  }

  lemma {:induction false} BeginsSplit(r: Run, e: Entry, lo: nat, mid: nat, hi: nat)
    requires lo <= mid <= hi <= |r.steps| < |r.states|
    ensures Begins(r, e, lo, hi) == Begins(r, e, lo, mid) + Begins(r, e, mid, hi)
  {
    if mid < hi {
      BeginsSplit(r, e, lo, mid, hi - 1);
    }
  }

  lemma {:induction false} QueueOnlyServed(cfg: Settings, r: Run, e: Entry, lo: nat, hi: nat)
    requires IsRun(cfg, r) && cfg.singleFlight && lo <= hi <= |r.steps|
    requires OnlyServing(r.states[lo], e)
    requires forall m :: lo <= m < hi ==> Servable(cfg, r.states[m], e)
    ensures Begins(r, e, lo, hi) == 0 && OnlyServing(r.states[hi], e)
  {
    if lo < hi {
      QueueOnlyServed(cfg, r, e, lo, hi - 1);
      assert StepAt(cfg, r, hi - 1);
      ServingContinues(cfg, r.states[hi - 1], r.steps[hi - 1], r.states[hi], e);
    }
  }

  predicate InsideTouch(o: OuterLock) {
    o.Minting? && (InFlight(o).Some? || o.phase.Ending? || o.phase.Finished?)
  }

  lemma TouchGoesOn(cfg: Settings, s: Sys, step: Step, s': Sys)
    requires Next(cfg, s, step, s') && InsideTouch(s.outer) && !step.Release?
    ensures InsideTouch(s'.outer) && !step.Begin?
  {
    if !OfRequest(step) {
      WorldOnlyRemoves(cfg, s, step, s');
    }
  }

  /** The outer lock keeps every other signature out from Begin to Release. */
  lemma {:induction false} TouchRunsAlone(cfg: Settings, r: Run, e: Entry, b: nat, hi: nat)
    requires IsRun(cfg, r) && b < hi <= |r.steps|
    requires r.steps[b].Begin? && HolderQueued(r.states[b], e)
    requires forall m :: b < m < hi ==> !r.steps[m].Release?
    ensures Begins(r, e, b, hi) == 1 && InsideTouch(r.states[hi].outer)
  {
    assert StepAt(cfg, r, hi - 1);
    if b + 1 == hi {
      assert BeginStep(r.states[b], r.states[hi]);
      assert Begins(r, e, b, b) == 0;
    } else {
      TouchRunsAlone(cfg, r, e, b, hi - 1);
      TouchGoesOn(cfg, r.states[hi - 1], r.steps[hi - 1], r.states[hi]);
    }
  }

  /** Signature economy: of any number of requests for one tuple that all arrive before the
      first of them completes, from the Begin of that first touch (at step b, released at
      step rel) to any later moment up to which the entry it left stays servable, exactly one
      signature is begun, and every one of them that returns meanwhile gets its bytes. */
  lemma IdenticalQueueCostsOneTouch(cfg: Settings, r: Run, e: Entry, b: nat, rel: nat, hi: nat)
    requires IsRun(cfg, r) && cfg.singleFlight && b < rel < hi <= |r.steps|
    requires r.steps[b].Begin? && HolderQueued(r.states[b], e) && e.id == |r.states[b].touches|
    requires r.steps[rel].Release? && forall m :: b < m < rel ==> !r.steps[m].Release?
    requires forall m :: rel < m < hi ==> Servable(cfg, r.states[m], e)
    ensures Begins(r, e, b, hi) == 1
    ensures forall m :: rel < m < hi && r.steps[m].Release? && HolderQueued(r.states[m], e) ==>
              GetsBytesOf(r.states[m].outer.phase, e)
  {
    TouchRunsAlone(cfg, r, e, b, rel);
    assert StepAt(cfg, r, rel);
    assert r.states[rel + 1].outer == Free;
    QueueOnlyServed(cfg, r, e, rel + 1, hi);
    BeginsSplit(r, e, b, rel, hi);
    BeginsSplit(r, e, rel, rel + 1, hi);
    assert Begins(r, e, rel, rel) == 0;
    forall m | rel < m < hi && r.steps[m].Release? && HolderQueued(r.states[m], e)
      ensures GetsBytesOf(r.states[m].outer.phase, e)
    {
      QueueOnlyServed(cfg, r, e, rel + 1, m);
      assert StepAt(cfg, r, m);
    }
  }
}
