/** A local request never gets stuck and never loops: whoever holds the outer lock always has
    a next step, and gives the lock back after at most thirteen of its own. */
module MintProgress {
  import opened Basics
  import opened Requests
  import opened ReuseSpec
  import opened Mint
  import opened MintBase

  /** How many steps a request at this phase still has before it at most. */
  function Rank(p: Phase): nat {
    match p
    case Holding => 13
    case Admitted(_, _) => 12
    case CardSame(_, _) => 11
    case CardChanged => 11
    case Missed => 10
    case Armed => 9
    case Drawn(_, _) => 8
    case InCard(_) => 7
    case Returned(_, _) => 6
    case PinNoted(_) => 5
    case Completed(_) => 4
    case Prepared(_, _) => 3
    case Ending(_) => 2
    case Finished(_) => 1
  }

  function Left(o: OuterLock): nat {
    if o.Minting? then Rank(o.phase) else 0
  }

  lemma EarlyStepsDescend(cfg: Settings, s: Sys, step: Step, s': Sys)
    requires Next(cfg, s, step, s')
    requires step.LookUp? || step.Probe? || step.Drop? || step.Serve? || step.FetchPin? || step.Draw?
    ensures s.outer.Minting? && Left(s'.outer) < Left(s.outer)
  {
    match step
    case LookUp => assert LookUpStep(cfg, s, s');
    case Probe => assert ProbeStep(cfg, s, s');
    case Drop => assert DropStep(s, s');
    case Serve => assert ServeStep(s, s');
    case FetchPin => assert FetchPinStep(cfg, s, s');
    case Draw(jti) => assert DrawStep(s, jti, s');
  }

  lemma CardStepsDescend(cfg: Settings, s: Sys, step: Step, s': Sys)
    requires Next(cfg, s, step, s')
    requires step.Begin? || step.SignReturns? || step.NotePin? || step.Complete?
    ensures s.outer.Minting? && Left(s'.outer) < Left(s.outer)
  {
    match step
    case Begin => assert BeginStep(s, s');
    case SignReturns(outcome) => assert SignReturnsStep(cfg, s, outcome, s');
    case NotePin => assert NotePinStep(s, s');
    case Complete => assert CompleteStep(s, s');
  }

  lemma SnapshotDescends(cfg: Settings, s: Sys, s': Sys)
    requires SnapshotStep(cfg, s, s')
    ensures s.outer.Minting? && Left(s'.outer) < Left(s.outer)
  {
  }

  lemma InsertDescends(s: Sys, s': Sys)
    requires InsertStep(s, s')
    ensures s.outer.Minting? && Left(s'.outer) < Left(s.outer)
  {
  }

  lemma LateStepsDescend(cfg: Settings, s: Sys, step: Step, s': Sys)
    requires Next(cfg, s, step, s')
    requires step.Snapshot? || step.Insert? || step.EndPending? || step.Release?
    ensures s.outer.Minting? && Left(s'.outer) < Left(s.outer)
  {
    match step
    case Snapshot => SnapshotDescends(cfg, s, s');
    case Insert => InsertDescends(s, s');
    case EndPending => assert EndPendingStep(s, s');
    case Release => assert ReleaseStep(s, s');
  }

  lemma RequestStepsDescend(cfg: Settings, s: Sys, step: Step, s': Sys)
    requires OfRequest(step) && Next(cfg, s, step, s')
    ensures s.outer.Minting? && Left(s'.outer) < Left(s.outer)
  {
    if step.Begin? || step.SignReturns? || step.NotePin? || step.Complete? {
      CardStepsDescend(cfg, s, step, s');
    } else if step.Snapshot? || step.Insert? || step.EndPending? || step.Release? {
      LateStepsDescend(cfg, s, step, s');
    } else {
      EarlyStepsDescend(cfg, s, step, s');
    }
  }

  lemma WorldStepsKeepPhase(cfg: Settings, s: Sys, step: Step, s': Sys)
    requires !OfRequest(step) && Next(cfg, s, step, s') && s.outer.Minting?
    ensures s'.outer == s.outer
  {
  }

  /** Own steps of the request holding the lock in steps [lo, hi). */
  ghost function OwnSteps(r: Run, lo: nat, hi: nat): nat
    requires lo <= hi <= |r.steps|
  {
    if lo == hi then 0 else OwnSteps(r, lo, hi - 1) + if OfRequest(r.steps[hi - 1]) then 1 else 0
  }

  /** From taking the lock until it is released, in any interleaving, a request takes at most
      thirteen steps of its own, so no run of its steps can hold the lock for ever. */
  lemma {:induction false} HolderFinishes(cfg: Settings, r: Run, lo: nat, hi: nat)
    requires IsRun(cfg, r) && lo < hi <= |r.steps| && r.steps[lo].Take?
    requires forall m :: lo < m < hi ==> !r.steps[m].Release?
    ensures r.states[hi].outer.Minting? && OwnSteps(r, lo, hi) + Left(r.states[hi].outer) <= 13
  {
    assert StepAt(cfg, r, hi - 1);
    var (s, step, s') := (r.states[hi - 1], r.steps[hi - 1], r.states[hi]);
    if lo < hi - 1 {
      HolderFinishes(cfg, r, lo, hi - 1);
      if OfRequest(step) {
        RequestStepsDescend(cfg, s, step, s');
        StaysUnlessReleased(cfg, s, step, s');
      } else {
        WorldStepsKeepPhase(cfg, s, step, s');
      }
    } else {
      assert OwnSteps(r, lo, lo) == 0;
    }
  }

  lemma StaysUnlessReleased(cfg: Settings, s: Sys, step: Step, s': Sys)
    requires OfRequest(step) && !step.Release? && Next(cfg, s, step, s')
    ensures s'.outer.Minting?
  {
  }

  // ---- There is always a next step -----------------------------------------------

  lemma {:induction false} OldestOf(c: Cache, keys: set<Key>) returns (oldest: Key)
    requires keys <= c.Keys && keys != {}
    ensures oldest in keys && forall k :: k in keys ==> c[oldest].completedAt <= c[k].completedAt
    decreases keys
  {
    oldest :| oldest in keys;
    var rest := keys - {oldest};
    if rest != {} {
      var other := OldestOf(c, rest);
      if c[other].completedAt < c[oldest].completedAt {
        oldest := other;
      }
    }
  }

  /** Eviction can always be carried out. */
  lemma EvictionExists(full: Cache) returns (kept: Cache)
    ensures Evicted(full, kept)
  {
    kept := full;
    while |kept| > CACHE_CAP
      invariant kept.Keys <= full.Keys && forall k :: k in kept ==> kept[k] == full[k]
      invariant |full| <= CACHE_CAP ==> kept == full
      invariant |full| > CACHE_CAP ==> |kept| >= CACHE_CAP
      invariant forall lost, k :: lost in full && lost !in kept && k in kept ==> full[lost].completedAt <= full[k].completedAt
      decreases |kept|
    {
      assert |kept.Keys| == |kept|;
      var oldest := OldestOf(kept, kept.Keys);
      assert (kept - {oldest}).Keys == kept.Keys - {oldest};
      kept := kept - {oldest};
    }
  }

  lemma InsertionExists(g: Guarded, e: Entry) returns (g': Guarded)
    ensures Inserted(g, e, g')
  {
    g' := g;
    if !Refused(g.invalidated, e.key) {
      var kept := EvictionExists(g.cache[e.key := e]);
      g' := g.(cache := kept);
    }
  }

  /** The step the holder takes next when the world gives it nothing: no jti, no signature. */
  function NextStep(p: Phase): Step {
    match p
    case Holding => LookUp
    case Admitted(_, _) => Probe
    case CardSame(_, _) => Serve
    case CardChanged => Drop
    case Missed => FetchPin
    case Armed => Draw(None)
    case Drawn(_, _) => Begin
    case InCard(_) => SignReturns(SignFailed(0, NotAPinError))
    case Returned(_, _) => NotePin
    case PinNoted(_) => Complete
    case Completed(_) => Snapshot
    case Prepared(_, _) => Insert
    case Ending(_) => EndPending
    case Finished(_) => Release
  }

  /** Before the card: every phase has its successor. */
  lemma EarlyPhasesMove(cfg: Settings, s: Sys) returns (s': Sys)
    requires s.outer.Minting? && Rank(s.outer.phase) > 7
    ensures Next(cfg, s, NextStep(s.outer.phase), s')
  {
    var (t, p) := (s.outer.ticket, s.outer.phase);
    match p
    case Holding =>
      var found := Lookup(s.g.cache, t.key, s.now, t.arrival, Config.Reuse(t.alias), cfg.singleFlight);
      s' := s.(outer := Minting(t, if found.None? then Missed else Admitted(found.value, s.now)));
    case Admitted(e, at) =>
      s' := s.(outer := Minting(t, if CardUnchanged(e.readers, cfg.listsReaders, s.reading) then CardSame(e, at) else CardChanged));
    case CardSame(e, at) =>
      s' := s.(outer := Minting(t, if t.key in s.g.cache && s.g.cache[t.key].id == e.id then Finished(CachedAnswer(e, at, t)) else Missed));
    case CardChanged =>
      s' := s.(g := s.g.(cache := s.g.cache - {t.key}), outer := Minting(t, Missed));
    case Missed =>
      s' := if s.g.pin == "" then s.(outer := Minting(t, Finished(Refusal)))
            else s.(g := TakePin(s.g, cfg.pinCacheNever), outer := Minting(t, Armed));
    case Armed =>
      s' := s.(outer := Minting(t, Finished(Refusal)));
    case Drawn(jti, signAt) =>
      s' := s.(g := s.g.(pendingWorkspace := t.key.workspaceID, pendingGeneration := t.key.claimGeneration),
               outer := Minting(t, InCard(|s.touches|)), touches := s.touches + [Touch(t, jti, signAt, None, None)]);
  }

  /** In the card and after it. */
  lemma LatePhasesMove(cfg: Settings, s: Sys) returns (s': Sys)
    requires s.outer.Minting? && Rank(s.outer.phase) <= 7 && !s.outer.phase.Prepared? && OuterOk(cfg, s)
    ensures Next(cfg, s, NextStep(s.outer.phase), s')
  {
    var (t, p) := (s.outer.ticket, s.outer.phase);
    match p
    case InCard(i) =>
      var outcome := SignFailed(0, NotAPinError);
      s' := s.(outer := Minting(t, Returned(i, outcome)), touches := s.touches[i := s.touches[i].(signed := None)]);
    case Returned(i, outcome) =>
      s' := s.(g := PinRecorded(s.g, outcome.serial, OutcomeVerdict(outcome)),
               outer := Minting(t, if outcome.SignFailed? || outcome.signature == [] then Ending(Refusal) else PinNoted(i)));
    case PinNoted(i) =>
      s' := s.(outer := Minting(t, Completed(i)), touches := s.touches[i := s.touches[i].(completedAt := Some(s.now))]);
    case Completed(i) =>
      s' := s.(outer := Minting(t, Prepared(i, NewEntry(cfg, i, s.touches[i], s.reading))));
    case Ending(answer) =>
      s' := s.(g := s.g.(pendingWorkspace := "", pendingGeneration := 0), outer := Minting(t, Finished(answer)));
    case Finished(_) =>
      s' := s.(outer := Free);
  }

  lemma PreparedMoves(cfg: Settings, s: Sys) returns (s': Sys)
    requires s.outer.Minting? && s.outer.phase.Prepared? && OuterOk(cfg, s)
    ensures Next(cfg, s, Insert, s')
  {
    var (t, i, made) := (s.outer.ticket, s.outer.phase.touch, s.outer.phase.made);
    var g' := s.g;
    if made.Some? {
      g' := InsertionExists(s.g, made.value);
    }
    s' := s.(g := g', outer := Minting(t, Ending(FreshAnswer(i, s.touches[i], t))));
  }

  lemma HolderMoves(cfg: Settings, s: Sys) returns (s': Sys)
    requires s.outer.Minting? && OuterOk(cfg, s)
    ensures Next(cfg, s, NextStep(s.outer.phase), s')
  {
    if Rank(s.outer.phase) > 7 {
      s' := EarlyPhasesMove(cfg, s);
    } else if s.outer.phase.Prepared? {
      s' := PreparedMoves(cfg, s);
    } else {
      s' := LatePhasesMove(cfg, s);
    }
  }

  /** No reachable state leaves the holder of the outer lock without a step of its own. */
  lemma HolderNeverStuck(cfg: Settings, r: Run, n: nat) returns (s': Sys)
    requires IsRun(cfg, r) && n < |r.states| && r.states[n].outer.Minting?
    ensures Next(cfg, r.states[n], NextStep(r.states[n].outer.phase), s') && OfRequest(NextStep(r.states[n].outer.phase))
  {
    RunKeepsBase(cfg, r, n);
    s' := HolderMoves(cfg, r.states[n]);
  }
}
