/** What the cached PIN guarantees: Lock is a fence, a PIN used once buys one signature,
    and in session mode the daemon never trades on two cards at once. */
module MintPin {
  import opened Basics
  import opened Requests
  import opened ReuseSpec
  import opened Mint
  import opened MintBase
  import MintServing

  // ---- Lock --------------------------------------------------------------------

  /** Nothing is cached and whoever holds the outer lock cannot get past the missing PIN. */
  ghost predicate LockedOut(s: Sys) {
    && s.g.pin == "" && s.g.cache == map[]
    && (s.outer.Minting? ==>
          s.outer.phase.Holding? || s.outer.phase.Missed? || (s.outer.phase.Finished? && s.outer.phase.answer.Refusal?))
  }

  lemma LockedOutHolds(cfg: Settings, s: Sys, step: Step, s': Sys)
    requires Next(cfg, s, step, s') && LockedOut(s)
    requires !(step.UnlockEnd? && step.verified.Some?)
    ensures LockedOut(s')
  {
    if OfRequest(step) {
      RequestStaysLockedOut(cfg, s, step, s');
    } else {
      WorldOnlyRemoves(cfg, s, step, s');
      assert s'.g.cache.Keys == {};
      assert s'.g.cache == map[];
      WorldKeepsNoPin(cfg, s, step, s');
    }
  }

  lemma WorldKeepsNoPin(cfg: Settings, s: Sys, step: Step, s': Sys)
    requires Next(cfg, s, step, s') && !OfRequest(step) && s.g.pin == ""
    requires !(step.UnlockEnd? && step.verified.Some?)
    ensures s'.g.pin == ""
  {
  }

  lemma RequestStaysLockedOut(cfg: Settings, s: Sys, step: Step, s': Sys)
    requires Next(cfg, s, step, s') && OfRequest(step) && LockedOut(s)
    ensures LockedOut(s')
  {
    match s.outer.phase
    case Holding => assert LookUpStep(cfg, s, s');
    case Missed => assert FetchPinStep(cfg, s, s');
    case Finished(_) => assert ReleaseStep(s, s');
  }

  lemma {:induction false} LockedOutFrom(cfg: Settings, r: Run, i: nat, j: nat)
    requires IsRun(cfg, r) && i < j < |r.states| && r.steps[i].Lock?
    requires forall m :: i < m < j ==> !(r.steps[m].UnlockEnd? && r.steps[m].verified.Some?)
    ensures LockedOut(r.states[j])
  {
    assert StepAt(cfg, r, j - 1);
    if i + 1 < j {
      LockedOutFrom(cfg, r, i, j - 1);
      LockedOutHolds(cfg, r.states[j - 1], r.steps[j - 1], r.states[j]);
    }
  }

  /** Between a Lock and the next successful Unlock no local request is handed a
      credential, fresh or reused, whatever was queued or under way around it. */
  lemma LockIsAFence(cfg: Settings, r: Run, i: nat, j: nat)
    requires IsRun(cfg, r) && i < j < |r.steps| && r.steps[i].Lock?
    requires forall m :: i < m < j ==> !(r.steps[m].UnlockEnd? && r.steps[m].verified.Some?)
    ensures !MintServing.Hands(cfg, r, j)
  {
    LockedOutFrom(cfg, r, i, j);
  }

  // ---- A PIN used once ---------------------------------------------------------

  ghost function Signatures(r: Run, i: nat): nat
    requires i <= |r.steps|
  {
    if i == 0 then 0 else Signatures(r, i - 1) + if r.steps[i - 1].Begin? then 1 else 0
  }

  ghost function Unlocks(r: Run, i: nat): nat
    requires i <= |r.steps|
  {
    if i == 0 then 0
    else Unlocks(r, i - 1) + if r.steps[i - 1].UnlockEnd? && r.steps[i - 1].verified.Some? then 1 else 0
  }

  /** The PIN in the cache, or the one in the hands of a request about to sign. */
  ghost function PinsInHand(s: Sys): nat {
    (if s.g.pin != "" then 1 else 0)
    + (if s.outer.Minting? && (s.outer.phase.Armed? || s.outer.phase.Drawn?) then 1 else 0)
  }

  lemma PinsAreConserved(cfg: Settings, s: Sys, step: Step, s': Sys)
    requires Next(cfg, s, step, s') && cfg.pinCacheNever
    ensures PinsInHand(s') + (if step.Begin? then 1 else 0)
            <= PinsInHand(s) + (if step.UnlockEnd? && step.verified.Some? then 1 else 0)
  {
    if !OfRequest(step) {
      WorldOnlyRemoves(cfg, s, step, s');
    } else if step.FetchPin? || step.Draw? || step.Begin? {
      PinChangesHands(cfg, s, step, s');
    } else {
      OtherStepsTakeNoPin(cfg, s, step, s');
    }
  }

  lemma PinChangesHands(cfg: Settings, s: Sys, step: Step, s': Sys)
    requires Next(cfg, s, step, s') && cfg.pinCacheNever && (step.FetchPin? || step.Draw? || step.Begin?)
    ensures PinsInHand(s') + (if step.Begin? then 1 else 0) <= PinsInHand(s)
  {
    match step
    case FetchPin => assert FetchPinStep(cfg, s, s');
    case Draw(jti) => assert DrawStep(s, jti, s');
    case Begin => assert BeginStep(s, s');
  }

  lemma OtherStepsTakeNoPin(cfg: Settings, s: Sys, step: Step, s': Sys)
    requires Next(cfg, s, step, s') && OfRequest(step) && !step.FetchPin? && !step.Draw? && !step.Begin?
    ensures s'.g.pin == s.g.pin || s'.g.pin == ""
    ensures s'.outer.Minting? ==> !s'.outer.phase.Armed? && !s'.outer.phase.Drawn?
  {
    if step.Insert? {
      assert InsertStep(s, s');
      if s.outer.phase.made.Some? {
        assert Inserted(s.g, s.outer.phase.made.value, s'.g);
      }
    }
  }

  /** With pin_cache = "never" the daemon begins at most one signature per successful
      unlock, over any run. */
  lemma {:induction false} NeverModeOneSignaturePerUnlock(cfg: Settings, r: Run, i: nat)
    requires IsRun(cfg, r) && i < |r.states| && cfg.pinCacheNever
    ensures Signatures(r, i) + PinsInHand(r.states[i]) <= Unlocks(r, i)
  {
    if i > 0 {
      NeverModeOneSignaturePerUnlock(cfg, r, i - 1);
      assert StepAt(cfg, r, i - 1);
      PinsAreConserved(cfg, r.states[i - 1], r.steps[i - 1], r.states[i]);
    }
  }

  /** In session mode nothing takes the PIN away but a lock, another unlock, or the card
      rejecting it for good. */
  lemma SessionPinLasts(cfg: Settings, s: Sys, step: Step, s': Sys)
    requires Next(cfg, s, step, s') && !cfg.pinCacheNever && !step.Lock? && !step.UnlockEnd?
    ensures s'.g.pin == s.g.pin
         || (step.NotePin? && s.outer.Minting? && s.outer.phase.Returned? && OutcomeVerdict(s.outer.phase.outcome) == PinError(true))
  {
    if !OfRequest(step) {
      WorldKeepsPin(cfg, s, step, s');
    } else if step.NotePin? {
      assert NotePinStep(s, s');
    } else {
      RequestKeepsPin(cfg, s, step, s');
    }
  }

  lemma RequestKeepsPin(cfg: Settings, s: Sys, step: Step, s': Sys)
    requires Next(cfg, s, step, s') && OfRequest(step) && !step.NotePin? && !cfg.pinCacheNever
    ensures s'.g.pin == s.g.pin
  {
    if step.Insert? {
      assert InsertStep(s, s');
      if s.outer.phase.made.Some? {
        assert Inserted(s.g, s.outer.phase.made.value, s'.g);
      }
    }
  }

  // ---- One card at a time ------------------------------------------------------

  ghost predicate SpendingPin(p: Phase) {
    p.Armed? || p.Drawn? || p.InCard? || p.Returned?
  }

  /** Session mode: every held assertion, and one about to be kept, carries the serial the
      cached PIN was last verified against, and a request that took the PIN left it cached. */
  ghost predicate OneSerial(s: Sys) {
    && (forall k :: k in s.g.cache ==> s.g.cache[k].serial == s.g.pinSerial)
    && (s.outer.Minting? ==>
          && (SpendingPin(s.outer.phase) ==> s.g.pin != "")
          && (s.outer.phase.Prepared? || s.outer.phase.Completed? || s.outer.phase.PinNoted? ==>
                && s.outer.phase.touch < |s.touches| && s.touches[s.outer.phase.touch].signed.Some?
                && s.touches[s.outer.phase.touch].signed.value.serial == s.g.pinSerial))
    && (s.outer.Unlocking? ==> s.outer.pin != "")
  }

  lemma WorldKeepsOneSerial(cfg: Settings, s: Sys, step: Step, s': Sys)
    requires Next(cfg, s, step, s') && !OfRequest(step) && OneSerial(s)
    ensures OneSerial(s')
  {
    WorldOnlyRemoves(cfg, s, step, s');
    if step.UnlockEnd? {
      assert UnlockEndStep(s, step.verified, s');
    } else {
      WorldKeepsPin(cfg, s, step, s');
      forall k | k in s'.g.cache ensures s'.g.cache[k].serial == s'.g.pinSerial {
        assert s'.g.cache[k].(notifiedPre := false).serial == s.g.cache[k].(notifiedPre := false).serial;
      }
    }
  }

  lemma WorldKeepsPin(cfg: Settings, s: Sys, step: Step, s': Sys)
    requires Next(cfg, s, step, s') && !OfRequest(step) && !step.UnlockEnd?
    ensures step.Lock? ==> s'.g.cache == map[] && s'.outer.Free?
    ensures !step.Lock? ==> s'.g.pin == s.g.pin && s'.g.pinSerial == s.g.pinSerial
    ensures s'.outer.Unlocking? ==> s'.outer.pin != "" || s'.outer == s.outer
  {
  }

  lemma NotePinKeepsOneSerial(cfg: Settings, s: Sys, s': Sys)
    requires OuterOk(cfg, s) && NotePinStep(s, s') && OneSerial(s)
    ensures OneSerial(s')
  {
    if s.outer.phase.outcome.Signature? {
      SigningSerialNonzero(cfg, s);
    }
  }

  lemma InsertKeepsOneSerial(s: Sys, s': Sys)
    requires InsertStep(s, s') && OneSerial(s)
    requires s.outer.phase.made.Some? ==> s.outer.phase.made.value.serial == s.g.pinSerial
    ensures OneSerial(s')
  {
    var made := s.outer.phase.made;
    if made.Some? {
      forall k | k in s'.g.cache ensures s'.g.cache[k].serial == s'.g.pinSerial {
        InsertAddsOne(s.g, made.value, s'.g, k);
      }
    }
  }

  lemma TouchStepsKeepOneSerial(cfg: Settings, s: Sys, step: Step, s': Sys)
    requires Next(cfg, s, step, s') && OneSerial(s)
    requires step.SignReturns? || step.Complete? || step.Begin? || step.Snapshot?
    ensures OneSerial(s')
  {
    match step
    case SignReturns(outcome) => assert SignReturnsStep(cfg, s, outcome, s');
    case Complete => assert CompleteStep(s, s');
    case Begin => assert BeginStep(s, s');
    case Snapshot => assert SnapshotStep(cfg, s, s');
  }

  lemma QuietStepsKeepOneSerial(cfg: Settings, s: Sys, step: Step, s': Sys)
    requires Next(cfg, s, step, s') && OneSerial(s) && !cfg.pinCacheNever
    requires step.LookUp? || step.Probe? || step.Drop? || step.Serve? || step.FetchPin? || step.Draw? || step.EndPending? || step.Release?
    ensures OneSerial(s')
  {
    match step
    case LookUp => assert LookUpStep(cfg, s, s');
    case Probe => assert ProbeStep(cfg, s, s');
    case Drop => assert DropStep(s, s');
    case Serve => assert ServeStep(s, s');
    case FetchPin => assert FetchPinStep(cfg, s, s');
    case Draw(jti) => assert DrawStep(s, jti, s');
    case EndPending => assert EndPendingStep(s, s');
    case Release => assert ReleaseStep(s, s');
  }

  /** In session mode every state of every run trades on one card: all held assertions
      carry the serial the PIN was last verified against, across unlocks, card swaps,
      failed touches, rejected PINs, sweeps, polls and invalidations. */
  lemma {:induction false} SessionModeOneSerial(cfg: Settings, r: Run, i: nat)
    requires IsRun(cfg, r) && i < |r.states| && !cfg.pinCacheNever
    ensures OneSerial(r.states[i])
  {
    if i > 0 {
      SessionModeOneSerial(cfg, r, i - 1);
      RunKeepsBase(cfg, r, i - 1);
      assert StepAt(cfg, r, i - 1);
      var (s, step, s') := (r.states[i - 1], r.steps[i - 1], r.states[i]);
      if !OfRequest(step) {
        WorldKeepsOneSerial(cfg, s, step, s');
      } else if step.NotePin? {
        NotePinKeepsOneSerial(cfg, s, s');
      } else if step.Insert? {
        PreparedEntryOk(cfg, s);
        InsertKeepsOneSerial(s, s');
      } else if step.SignReturns? || step.Complete? || step.Begin? || step.Snapshot? {
        TouchStepsKeepOneSerial(cfg, s, step, s');
      } else {
        QuietStepsKeepOneSerial(cfg, s, step, s');
      }
    }
  }

  // ---- Where the swap purge does not reach -------------------------------------

  /** With pin_cache = "never" the PIN has already left the cache when the card answers. */
  ghost predicate PinSpent(s: Sys) {
    s.outer.Minting? && SpendingPin(s.outer.phase) ==> s.g.pin == ""
  }

  lemma PinStaysSpent(cfg: Settings, s: Sys, step: Step, s': Sys)
    requires Next(cfg, s, step, s') && cfg.pinCacheNever && PinSpent(s)
    ensures PinSpent(s')
  {
    if !OfRequest(step) {
      WorldKeepsPinSpent(cfg, s, step, s');
    } else if step.FetchPin? || step.Draw? || step.Begin? || step.SignReturns? {
      SpendingStepsKeepPinSpent(cfg, s, step, s');
    } else {
      NoPinPhaseAfter(cfg, s, step, s');
    }
  }

  lemma WorldKeepsPinSpent(cfg: Settings, s: Sys, step: Step, s': Sys)
    requires Next(cfg, s, step, s') && !OfRequest(step) && PinSpent(s)
    ensures PinSpent(s')
  {
    WorldOnlyRemoves(cfg, s, step, s');
    if s.outer.Minting? && !step.UnlockEnd? {
      WorldKeepsPin(cfg, s, step, s');
    }
  }

  lemma SpendingStepsKeepPinSpent(cfg: Settings, s: Sys, step: Step, s': Sys)
    requires Next(cfg, s, step, s') && cfg.pinCacheNever && PinSpent(s)
    requires step.FetchPin? || step.Draw? || step.Begin? || step.SignReturns?
    ensures PinSpent(s')
  {
    match step
    case FetchPin => assert FetchPinStep(cfg, s, s');
    case Draw(jti) => assert DrawStep(s, jti, s');
    case Begin => assert BeginStep(s, s');
    case SignReturns(outcome) => assert SignReturnsStep(cfg, s, outcome, s');
  }

  lemma NoPinPhaseAfter(cfg: Settings, s: Sys, step: Step, s': Sys)
    requires Next(cfg, s, step, s') && OfRequest(step)
    requires !step.FetchPin? && !step.Draw? && !step.Begin? && !step.SignReturns?
    ensures !s'.outer.Minting? || !SpendingPin(s'.outer.phase)
  {
  }

  lemma {:induction false} NeverModePinSpent(cfg: Settings, r: Run, i: nat)
    requires IsRun(cfg, r) && i < |r.states| && cfg.pinCacheNever
    ensures PinSpent(r.states[i])
  {
    if i > 0 {
      NeverModePinSpent(cfg, r, i - 1);
      assert StepAt(cfg, r, i - 1);
      PinStaysSpent(cfg, r.states[i - 1], r.steps[i - 1], r.states[i]);
    }
  }

  /** What a successful signature does to assertions another card authorised depends on the
      mode: in session mode it drops exactly those; with pin_cache = "never" it drops
      nothing at all, so after a swap the earlier card's assertions stay held. */
  lemma SwapPurgeDependsOnMode(cfg: Settings, r: Run, i: nat)
    requires IsRun(cfg, r) && i < |r.steps| && r.steps[i].NotePin?
    requires r.states[i].outer.Minting? && r.states[i].outer.phase.Returned? && r.states[i].outer.phase.outcome.Signature?
    ensures var (before, after) := (r.states[i].g.cache, r.states[i + 1].g.cache);
            if cfg.pinCacheNever then after == before
            else after == PurgeOtherSerials(before, r.states[i].outer.phase.outcome.serial)
  {
    var s := r.states[i];
    RunKeepsBase(cfg, r, i);
    assert StepAt(cfg, r, i);
    assert NotePinStep(s, r.states[i + 1]);
    if cfg.pinCacheNever {
      NeverModePinSpent(cfg, r, i);
    } else {
      SessionModeOneSerial(cfg, r, i);
      SigningSerialNonzero(cfg, s);
    }
  }
}
