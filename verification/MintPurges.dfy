/** Every way a held assertion leaves the cache, and that there is no other: what each step of
    the daemon keeps, entry by entry, in plain terms. */
module MintPurges {
  import opened Basics
  import opened Requests
  import opened ReuseSpec
  import opened Mint
  import opened MintBase
  import ReuseLaws

  predicate Stays(s: Sys, s': Sys, k: Key) {
    k in s.g.cache && k in s'.g.cache && s'.g.cache[k].(notifiedPre := false) == s.g.cache[k].(notifiedPre := false)
  }

  /** A lock keeps nothing; an unlock keeps the verified card's entries, or all of them when
      the PIN is rejected; a sweep keeps those whose window is not over and that have not
      expired; a reader poll those made with the readers it has seen; an invalidation those
      it does not name. */
  lemma WorldKeepsExactly(cfg: Settings, s: Sys, step: Step, s': Sys, k: Key)
    requires Next(cfg, s, step, s') && !OfRequest(step) && k in s.g.cache
    ensures var e := s.g.cache[k];
            Stays(s, s', k) <==>
              match step
              case Lock => false
              case UnlockEnd(verified) => verified.None? || e.serial == verified.value
              case SweepNow => !(e.windowEndsAt > e.completedAt && e.windowEndsAt <= s.now) && s.now < e.expiresAt
              case PollPurge => s.polled.Some? && s.polled.value.Names? && s.polled.value.names == (if e.readers.Some? then e.readers.value else [])
              case Invalidate(workspace, maxGeneration) =>
                workspace == "" || k.workspaceID != workspace || (maxGeneration > 0 && k.claimGeneration > maxGeneration)
              case _ => true
    ensures k !in s'.g.cache || Stays(s, s', k)
  {
    if step.Invalidate? {
      assert InvalidateStep(s, step.workspace, step.maxGeneration, s');
    } else if step.UnlockEnd? {
      assert UnlockEndStep(s, step.verified, s');
    } else if !step.Lock? && !step.SweepNow? && !step.PollPurge? {
      QuietStepsKeepCache(cfg, s, step, s');
    }
  }

  lemma QuietStepsKeepCache(cfg: Settings, s: Sys, step: Step, s': Sys)
    requires Next(cfg, s, step, s') && !OfRequest(step)
    requires !step.Invalidate? && !step.UnlockEnd? && !step.Lock? && !step.SweepNow? && !step.PollPurge?
    ensures s'.g == s.g
  {
  }

  /** Of the steps of a request, three drop entries: the drop after a reader change, exactly
      the entry asked for; the noting of a PIN the card rejected for good, all of them; and
      the noting of another card while a PIN is cached, exactly the other cards'. An insert
      may replace or evict, and every other step keeps every entry as it is. */
  lemma RequestKeepsExactly(cfg: Settings, s: Sys, step: Step, s': Sys, k: Key)
    requires Next(cfg, s, step, s') && OfRequest(step) && !step.Insert? && k in s.g.cache
    ensures s.outer.Minting? && (step.NotePin? ==> s.outer.phase.Returned?)
    ensures k in s'.g.cache <==>
              if step.Drop? then k != s.outer.ticket.key
              else if step.NotePin? then KeptByVerdict(s, s.outer.phase.outcome, k)
              else true
    ensures k in s'.g.cache ==> s'.g.cache[k] == s.g.cache[k]
  {
    if step.Drop? {
      assert DropStep(s, s');
    } else if step.NotePin? {
      NotePinKeeps(s, s', k);
    } else if step.FetchPin? {
      assert FetchPinStep(cfg, s, s');
    } else {
      OthersKeepCache(cfg, s, step, s');
    }
  }

  predicate KeptByVerdict(s: Sys, outcome: SignOutcome, k: Key)
    requires k in s.g.cache
  {
    match OutcomeVerdict(outcome)
    case PinError(clear) => !clear
    case NotAPinError => outcome.serial == 0 || s.g.pin == "" || s.g.cache[k].serial == outcome.serial
  }

  lemma NotePinKeeps(s: Sys, s': Sys, k: Key)
    requires NotePinStep(s, s') && k in s.g.cache
    ensures k in s'.g.cache <==> KeptByVerdict(s, s.outer.phase.outcome, k)
    ensures k in s'.g.cache ==> s'.g.cache[k] == s.g.cache[k]
  {
    var outcome := s.outer.phase.outcome;
    ReuseLaws.RecordingPin(s.g, outcome.serial, OutcomeVerdict(outcome), k);
  }

  lemma OthersKeepCache(cfg: Settings, s: Sys, step: Step, s': Sys)
    requires Next(cfg, s, step, s') && OfRequest(step)
    requires !step.Insert? && !step.Drop? && !step.NotePin? && !step.FetchPin?
    ensures s.outer.Minting? && s'.g.cache == s.g.cache
  {
  }

  /** An insert keeps the new entry unless it is refused, and every other one unless the cache
      was full; then one goes, of those completed longest ago. */
  lemma InsertKeepsExactly(s: Sys, s': Sys)
    requires InsertStep(s, s') && |s.g.cache| <= 64
    ensures match s.outer.phase.made
            case None => s'.g == s.g
            case Some(e) =>
              var ws := e.key.workspaceID;
              if ws != "" && ws in s.g.invalidated && e.key.claimGeneration <= s.g.invalidated[ws] then s'.g == s.g
              else if e.key in s.g.cache || |s.g.cache| < 64 then s'.g.cache == s.g.cache[e.key := e]
              else ReuseLaws.OldestWent(s.g.cache[e.key := e], s'.g.cache)
  {
    if s.outer.phase.made.Some? {
      ReuseLaws.InsertedIff(s.g, s.outer.phase.made.value, s'.g);
    }
  }

  /** No state of any run holds more than 64 assertions. */
  lemma {:induction false} AtMostSixtyFour(cfg: Settings, r: Run, i: nat)
    requires IsRun(cfg, r) && i < |r.states|
    ensures |r.states[i].g.cache| <= 64
  {
    if i > 0 {
      AtMostSixtyFour(cfg, r, i - 1);
      assert StepAt(cfg, r, i - 1);
      StepKeepsBound(cfg, r.states[i - 1], r.steps[i - 1], r.states[i]);
    }
  }

  lemma StepKeepsBound(cfg: Settings, s: Sys, step: Step, s': Sys)
    requires Next(cfg, s, step, s') && |s.g.cache| <= 64
    ensures |s'.g.cache| <= 64
  {
    if !OfRequest(step) {
      WorldOnlyRemoves(cfg, s, step, s');
      SubsetCardinality(s'.g.cache.Keys, s.g.cache.Keys);
    } else if step.Insert? {
      InsertKeepsBound(s, s');
    } else {
      RequestOnlyInserts(cfg, s, step, s');
      SubsetCardinality(s'.g.cache.Keys, s.g.cache.Keys);
    }
  }

  lemma InsertKeepsBound(s: Sys, s': Sys)
    requires InsertStep(s, s') && |s.g.cache| <= 64
    ensures |s'.g.cache| <= 64
  {
    InsertKeepsExactly(s, s');
    if s.outer.phase.made.Some? {
      var e := s.outer.phase.made.value;
      ReuseLaws.SizeAfter(s.g.cache, e);
      if e.key !in s.g.cache && |s.g.cache| == 64 && ReuseLaws.OldestWent(s.g.cache[e.key := e], s'.g.cache) {
        var lost :| lost in s.g.cache[e.key := e] && s'.g.cache == s.g.cache[e.key := e] - {lost};
        assert s'.g.cache.Keys == s.g.cache[e.key := e].Keys - {lost};
      }
    }
  }
}
