/** What invalidating a workspace puts out of reach, in every interleaving, and exactly how
    long its watermark has to stand for that. */
module MintFences {
  import opened Basics
  import opened Requests
  import opened ReuseSpec
  import opened Mint
  import opened MintBase

  // ---- The fence ----------------------------------------------------------------

  /** One of the first n touches is still on its way into the cache, and the invalidation
      speaks for its claim. */
  predicate Racing(s: Sys, workspace: string, maxGeneration: nat, n: nat) {
    && s.outer.Minting? && InFlight(s.outer).Some? && InFlight(s.outer).value < n
    && SpeaksFor(workspace, maxGeneration, s.outer.ticket.key)
  }

  /** No assertion of the first n touches that the invalidation speaks for is held, and one
      still on its way will be refused when it asks to be kept. */
  ghost predicate Fenced(s: Sys, workspace: string, maxGeneration: nat, n: nat) {
    && (forall k :: k in s.g.cache && SpeaksFor(workspace, maxGeneration, k) ==> s.g.cache[k].id >= n)
    && (Racing(s, workspace, maxGeneration, n) ==> Refused(s.g.invalidated, s.outer.ticket.key))
    && n <= |s.touches|
  }

  /** A record made while such a mint is on its way leaves the workspace's watermark in the
      map. Nothing is asked of records made at any other time. */
  predicate Spares(s: Sys, s': Sys, workspace: string, maxGeneration: nat, n: nat) {
    Racing(s, workspace, maxGeneration, n) ==> workspace in s'.g.invalidated
  }

  /** A watermark that stays in the map does not fall. */
  lemma StandingMarksOnlyRise(g: Guarded, workspace: string, maxGeneration: nat, g': Guarded, w: string)
    requires Invalidated(g, workspace, maxGeneration, g') && w in g.invalidated && w in g'.invalidated
    ensures g.invalidated[w] <= g'.invalidated[w]
  {
  }

  lemma MarkOf(g: Guarded, workspace: string, maxGeneration: nat, g': Guarded) returns (w: nat)
    requires Invalidated(g, workspace, maxGeneration, g') && workspace != ""
    ensures IsWatermark(g, workspace, maxGeneration, w)
    ensures if w == 0 then g'.invalidated == g.invalidated else WatermarkRecorded(g.invalidated, workspace, w, g'.invalidated)
    ensures w != 0 && workspace in g'.invalidated ==> w <= g'.invalidated[workspace]
  {
    w :| IsWatermark(g, workspace, maxGeneration, w)
         && if w == 0 then g'.invalidated == g.invalidated else WatermarkRecorded(g.invalidated, workspace, w, g'.invalidated);
  }

  lemma InvalidateFences(cfg: Settings, s: Sys, workspace: string, maxGeneration: nat, s': Sys)
    requires OuterOk(cfg, s) && InvalidateStep(s, workspace, maxGeneration, s') && workspace != ""
    requires Spares(s, s', workspace, maxGeneration, |s.touches|)
    ensures Fenced(s', workspace, maxGeneration, |s.touches|)
  {
    if Racing(s, workspace, maxGeneration, |s.touches|) {
      RacingClaim(cfg, s);
      var w := MarkOf(s.g, workspace, maxGeneration, s'.g);
    }
  }

  /** The pending claim is the one inside the card, and its generation is not zero. */
  lemma RacingClaim(cfg: Settings, s: Sys)
    requires OuterOk(cfg, s) && s.outer.Minting? && InFlight(s.outer).Some?
    ensures var key := s.outer.ticket.key;
            && s.g.pendingWorkspace == key.workspaceID && s.g.pendingGeneration == key.claimGeneration
            && (key.workspaceID != "" ==> key.claimGeneration != 0)
  {
    AdaptersNeverSendGenerationZero(s.outer.ticket.req);
  }

  /** Entries only leave, and a touch on its way keeps its ticket. */
  lemma FenceFrame(s: Sys, s': Sys, workspace: string, maxGeneration: nat, n: nat)
    requires Fenced(s, workspace, maxGeneration, n) && |s.touches| <= |s'.touches|
    requires s'.g.cache.Keys <= s.g.cache.Keys
    requires forall k :: k in s'.g.cache ==> s'.g.cache[k].id == s.g.cache[k].id
    requires InFlight(s'.outer).Some? ==>
               || InFlight(s'.outer) == Some(|s.touches|)
               || (InFlight(s'.outer) == InFlight(s.outer) && s'.outer.ticket == s.outer.ticket)
    requires Racing(s, workspace, maxGeneration, n) && Refused(s.g.invalidated, s.outer.ticket.key) ==>
               Refused(s'.g.invalidated, s.outer.ticket.key)
    ensures Fenced(s', workspace, maxGeneration, n)
  {
  }

  lemma RequestFence(cfg: Settings, s: Sys, step: Step, s': Sys, workspace: string, maxGeneration: nat, n: nat)
    requires OfRequest(step) && !step.Insert? && Next(cfg, s, step, s') && Fenced(s, workspace, maxGeneration, n)
    ensures Fenced(s', workspace, maxGeneration, n)
  {
    RequestOnlyInserts(cfg, s, step, s');
    FlightContinues(cfg, s, step, s');
    FenceFrame(s, s', workspace, maxGeneration, n);
  }

  lemma WorldFence(cfg: Settings, s: Sys, step: Step, s': Sys, workspace: string, maxGeneration: nat, n: nat)
    requires Next(cfg, s, step, s') && !OfRequest(step) && Fenced(s, workspace, maxGeneration, n)
    requires step.Invalidate? ==> Spares(s, s', workspace, maxGeneration, n)
    ensures Fenced(s', workspace, maxGeneration, n)
  {
    WorldOnlyRemoves(cfg, s, step, s');
    if step.Invalidate? {
      assert InvalidateStep(s, step.workspace, step.maxGeneration, s');
      if Racing(s, workspace, maxGeneration, n) {
        StandingMarksOnlyRise(s.g, step.workspace, step.maxGeneration, s'.g, workspace);
      }
    } else {
      WorldKeepsWatermarks(cfg, s, step, s');
    }
    FenceFrame(s, s', workspace, maxGeneration, n);
  }

  lemma WorldKeepsWatermarks(cfg: Settings, s: Sys, step: Step, s': Sys)
    requires !OfRequest(step) && !step.Invalidate? && Next(cfg, s, step, s')
    ensures s'.g.invalidated == s.g.invalidated
  {
  }

  lemma InsertRespectsFence(s: Sys, s': Sys, workspace: string, maxGeneration: nat, n: nat)
    requires InsertStep(s, s') && Fenced(s, workspace, maxGeneration, n)
    requires s.outer.phase.made.Some? ==>
               s.outer.phase.made.value.id == s.outer.phase.touch && s.outer.phase.made.value.key == s.outer.ticket.key
    ensures Fenced(s', workspace, maxGeneration, n)
  {
    var made := s.outer.phase.made;
    if made.Some? {
      forall k | k in s'.g.cache && SpeaksFor(workspace, maxGeneration, k) ensures s'.g.cache[k].id >= n {
        InsertAddsOne(s.g, made.value, s'.g, k);
      }
    }
  }

  lemma FenceHolds(cfg: Settings, s: Sys, step: Step, s': Sys, workspace: string, maxGeneration: nat, n: nat)
    requires OuterOk(cfg, s) && Next(cfg, s, step, s') && Fenced(s, workspace, maxGeneration, n)
    requires step.Invalidate? ==> Spares(s, s', workspace, maxGeneration, n)
    ensures Fenced(s', workspace, maxGeneration, n)
  {
    if step.Insert? {
      assert InsertStep(s, s');
      PreparedEntryOk(cfg, s);
      InsertRespectsFence(s, s', workspace, maxGeneration, n);
    } else if OfRequest(step) {
      RequestFence(cfg, s, step, s', workspace, maxGeneration, n);
    } else {
      WorldFence(cfg, s, step, s', workspace, maxGeneration, n);
    }
  }

  // ---- When a watermark stands -----------------------------------------------------

  lemma {:induction false} WatermarksAreBounded(cfg: Settings, r: Run, i: nat)
    requires IsRun(cfg, r) && i < |r.states|
    ensures |r.states[i].g.invalidated| <= INVALIDATED_CAP
  {
    if i > 0 {
      WatermarksAreBounded(cfg, r, i - 1);
      assert StepAt(cfg, r, i - 1);
      var (s, step, s') := (r.states[i - 1], r.steps[i - 1], r.states[i]);
      if step.Invalidate? {
        RecordingKeepsCap(s.g, step.workspace, step.maxGeneration, s'.g);
      } else if OfRequest(step) {
        RequestKeepsWatermarks(cfg, s, step, s');
      } else {
        WorldKeepsWatermarks(cfg, s, step, s');
      }
    }
  }

  lemma RecordingKeepsCap(g: Guarded, workspace: string, maxGeneration: nat, g': Guarded)
    requires Invalidated(g, workspace, maxGeneration, g') && |g.invalidated| <= INVALIDATED_CAP
    ensures |g'.invalidated| <= INVALIDATED_CAP
  {
    if workspace != "" {
      var w := MarkOf(g, workspace, maxGeneration, g');
    }
  }

  lemma RequestKeepsWatermarks(cfg: Settings, s: Sys, step: Step, s': Sys)
    requires OfRequest(step) && Next(cfg, s, step, s')
    ensures s'.g.invalidated == s.g.invalidated
  {
    if !step.Insert? {
      RequestOnlyInserts(cfg, s, step, s');
    } else {
      assert InsertStep(s, s');
    }
  }

  /** A record is sure to leave ws in the map, in every order the trimming loop may take:
      it changes nothing, or there is room, or some other watermark stands strictly lower. */
  predicate SureToStay(before: map<string, nat>, workspace: string, generation: nat, ws: string) {
    var full := before[workspace := generation];
    && ws in full
    && (|| (workspace in before && before[workspace] >= generation)
        || |before.Keys + {workspace}| <= 256
        || exists w :: w in full && full[w] < full[ws])
  }

  /** Exactly which watermarks survive a record, the new one and every other. */
  lemma WatermarkStaysIff(before: map<string, nat>, workspace: string, generation: nat, ws: string)
    requires |before| <= INVALIDATED_CAP && (ws in before || ws == workspace)
    ensures (forall after :: WatermarkRecorded(before, workspace, generation, after) ==> ws in after)
            <==> SureToStay(before, workspace, generation, ws)
  {
    var full := before[workspace := generation];
    assert full.Keys == before.Keys + {workspace};
    if SureToStay(before, workspace, generation, ws) {
      forall after | WatermarkRecorded(before, workspace, generation, after) ensures ws in after {
        StaysInMap(before, workspace, generation, ws, after);
      }
    } else {
      var after := full - {ws};
      assert after.Keys == full.Keys - {ws};
      assert |full| == INVALIDATED_CAP + 1;
      assert WatermarkRecorded(before, workspace, generation, after);
    }
  }

  /** Trimming a map that is one over the cap forgets one watermark only. */
  lemma TwoGone(full: map<string, nat>, after: map<string, nat>, v: string, w: string)
    requires TrimmedTo(INVALIDATED_CAP, full, after) && |full| == INVALIDATED_CAP + 1
    requires v in full && w in full && v != w && v !in after
    ensures w in after
  {
    if w !in after {
      SubsetCardinality(after.Keys, full.Keys - {v, w});
    }
  }

  lemma StaysInMap(before: map<string, nat>, workspace: string, generation: nat, ws: string, after: map<string, nat>)
    requires |before| <= INVALIDATED_CAP && (ws in before || ws == workspace)
    requires SureToStay(before, workspace, generation, ws) && WatermarkRecorded(before, workspace, generation, after)
    ensures ws in after
  {
    var full := before[workspace := generation];
    assert full.Keys == before.Keys + {workspace};
    if !(workspace in before && before[workspace] >= generation) && |full| > INVALIDATED_CAP && ws !in after {
      var w :| w in full && full[w] < full[ws];
      TwoGone(full, after, ws, w);
    }
  }

  /** Why a watermark stands at that generation: step k invalidated the workspace up to it, or
      invalidated every generation while that one was held or on its way. */
  ghost predicate Earned(r: Run, k: nat, workspace: string, generation: nat)
    requires k < |r.steps| && k < |r.states|
  {
    var g := r.states[k].g;
    && r.steps[k].Invalidate? && r.steps[k].workspace == workspace != "" && generation > 0
    && (|| r.steps[k].maxGeneration == generation
        || (&& r.steps[k].maxGeneration == 0
            && (|| (exists key :: key in g.cache && key.workspaceID == workspace && key.claimGeneration == generation)
                || (g.pendingWorkspace == workspace && g.pendingGeneration == generation))))
  }

  /** Nothing is refused without cause: in every reachable state each watermark was earned by
      an invalidation of its workspace that reached exactly so far. */
  lemma {:induction false} WatermarksAreEarned(cfg: Settings, r: Run, i: nat, workspace: string) returns (k: nat)
    requires IsRun(cfg, r) && i < |r.states| && workspace in r.states[i].g.invalidated
    ensures k < i && k < |r.steps| && Earned(r, k, workspace, r.states[i].g.invalidated[workspace])
  {
    var (s, step, s') := (r.states[i - 1], r.steps[i - 1], r.states[i]);
    assert StepAt(cfg, r, i - 1);
    if OfRequest(step) {
      RequestKeepsWatermarks(cfg, s, step, s');
    } else if !step.Invalidate? {
      WorldKeepsWatermarks(cfg, s, step, s');
    }
    if workspace in s.g.invalidated && s.g.invalidated[workspace] == s'.g.invalidated[workspace] {
      k := WatermarksAreEarned(cfg, r, i - 1, workspace);
    } else {
      NewMark(s, step, s', workspace);
      k := i - 1;
    }
  }

  lemma NewMark(s: Sys, step: Step, s': Sys, workspace: string)
    requires step.Invalidate? && InvalidateStep(s, step.workspace, step.maxGeneration, s') && workspace in s'.g.invalidated
    requires !(workspace in s.g.invalidated && s.g.invalidated[workspace] == s'.g.invalidated[workspace])
    ensures step.workspace == workspace != "" && s'.g.invalidated[workspace] > 0
    ensures IsWatermark(s.g, workspace, step.maxGeneration, s'.g.invalidated[workspace])
  {
    var w := MarkOf(s.g, step.workspace, step.maxGeneration, s'.g);
  }

  // ---- The guard a caller can check -------------------------------------------------

  /** Whatever watermark an invalidation of other is about to record, it is sure to leave
      the workspace's in the map. */
  ghost predicate SureAt(g: Guarded, other: string, otherGeneration: nat, workspace: string) {
    forall w: nat :: w != 0 && IsWatermark(g, other, otherGeneration, w) ==> SureToStay(g.invalidated, other, w, workspace)
  }

  /** Asked of an invalidation only while a mint the fence is about is on its way. */
  ghost predicate Safe(s: Sys, other: string, otherGeneration: nat, workspace: string, maxGeneration: nat, n: nat) {
    Racing(s, workspace, maxGeneration, n) && other != "" ==> SureAt(s.g, other, otherGeneration, workspace)
  }

  /** A safe record spares the racing mint's workspace, be it another's record or its own. */
  lemma SparedWhenSafe(s: Sys, other: string, otherGeneration: nat, s': Sys, workspace: string, maxGeneration: nat, n: nat)
    requires InvalidateStep(s, other, otherGeneration, s') && |s.g.invalidated| <= INVALIDATED_CAP && workspace != ""
    requires workspace in s.g.invalidated || (workspace == other && !IsWatermark(s.g, other, otherGeneration, 0))
    requires Safe(s, other, otherGeneration, workspace, maxGeneration, n)
    ensures Spares(s, s', workspace, maxGeneration, n)
  {
    if Racing(s, workspace, maxGeneration, n) && other != "" {
      var w := MarkOf(s.g, other, otherGeneration, s'.g);
      if w != 0 {
        StaysInMap(s.g.invalidated, other, w, workspace, s'.g.invalidated);
      }
    }
  }

  /** The invalidation's own watermark is not zero while a mint it speaks for is on its way. */
  lemma OwnMarkNonzero(cfg: Settings, s: Sys, workspace: string, maxGeneration: nat)
    requires OuterOk(cfg, s) && workspace != "" && Racing(s, workspace, maxGeneration, |s.touches|)
    ensures !IsWatermark(s.g, workspace, maxGeneration, 0)
  {
    RacingClaim(cfg, s);
  }

  /** A record not sure to leave the workspace in the map may be trimmed so that it goes. */
  lemma DroppedBy(g: Guarded, other: string, otherGeneration: nat, w: nat, workspace: string) returns (g': Guarded)
    requires other != "" && |g.invalidated| <= INVALIDATED_CAP && (workspace in g.invalidated || workspace == other)
    requires w != 0 && IsWatermark(g, other, otherGeneration, w) && !SureToStay(g.invalidated, other, w, workspace)
    ensures Invalidated(g, other, otherGeneration, g') && workspace !in g'.invalidated
  {
    WatermarkStaysIff(g.invalidated, other, w, workspace);
    var after :| WatermarkRecorded(g.invalidated, other, w, after) && workspace !in after;
    g' := g.(cache := PurgeWorkspace(g.cache, other, otherGeneration), invalidated := after);
  }

  lemma Dropping(s: Sys, other: string, otherGeneration: nat, workspace: string) returns (s': Sys)
    requires other != "" && |s.g.invalidated| <= INVALIDATED_CAP && (workspace in s.g.invalidated || workspace == other)
    requires !SureAt(s.g, other, otherGeneration, workspace)
    ensures InvalidateStep(s, other, otherGeneration, s') && workspace !in s'.g.invalidated && s'.outer == s.outer
  {
    var w: nat :| w != 0 && IsWatermark(s.g, other, otherGeneration, w) && !SureToStay(s.g.invalidated, other, w, workspace);
    var g' := DroppedBy(s.g, other, otherGeneration, w, workspace);
    s' := s.(g := g');
  }

  lemma NotFenced(s: Sys, workspace: string, maxGeneration: nat, n: nat)
    requires Racing(s, workspace, maxGeneration, n) && workspace !in s.g.invalidated
    ensures !Fenced(s, workspace, maxGeneration, n)
  {
  }

  /** Exactly when an invalidation, however its own record is trimmed, puts what it speaks
      for out of reach: when that record is safe. */
  lemma OwnRecordFencesIff(cfg: Settings, s: Sys, workspace: string, maxGeneration: nat)
    requires OuterOk(cfg, s) && |s.g.invalidated| <= INVALIDATED_CAP && workspace != ""
    ensures (forall s' :: InvalidateStep(s, workspace, maxGeneration, s') ==> Fenced(s', workspace, maxGeneration, |s.touches|))
            <==> Safe(s, workspace, maxGeneration, workspace, maxGeneration, |s.touches|)
  {
    var n := |s.touches|;
    if Safe(s, workspace, maxGeneration, workspace, maxGeneration, n) {
      forall s' | InvalidateStep(s, workspace, maxGeneration, s') ensures Fenced(s', workspace, maxGeneration, n) {
        OwnRecordSpares(cfg, s, workspace, maxGeneration, s');
        InvalidateFences(cfg, s, workspace, maxGeneration, s');
      }
    } else {
      var s' := Dropping(s, workspace, maxGeneration, workspace);
      NotFenced(s', workspace, maxGeneration, n);
    }
  }

  lemma OwnRecordSpares(cfg: Settings, s: Sys, workspace: string, maxGeneration: nat, s': Sys)
    requires OuterOk(cfg, s) && |s.g.invalidated| <= INVALIDATED_CAP && workspace != ""
    requires InvalidateStep(s, workspace, maxGeneration, s')
    requires Safe(s, workspace, maxGeneration, workspace, maxGeneration, |s.touches|)
    ensures Spares(s, s', workspace, maxGeneration, |s.touches|)
  {
    if Racing(s, workspace, maxGeneration, |s.touches|) {
      OwnMarkNonzero(cfg, s, workspace, maxGeneration);
      SparedWhenSafe(s, workspace, maxGeneration, s', workspace, maxGeneration, |s.touches|);
    }
  }

  /** Exactly when a fence survives any other invalidation, however that one is trimmed. */
  lemma FenceSurvivesIff(cfg: Settings, s: Sys, other: string, otherGeneration: nat, workspace: string, maxGeneration: nat, n: nat)
    requires Fenced(s, workspace, maxGeneration, n) && |s.g.invalidated| <= INVALIDATED_CAP && workspace != ""
    ensures (forall s' :: InvalidateStep(s, other, otherGeneration, s') ==> Fenced(s', workspace, maxGeneration, n))
            <==> Safe(s, other, otherGeneration, workspace, maxGeneration, n)
  {
    if Safe(s, other, otherGeneration, workspace, maxGeneration, n) {
      forall s' | InvalidateStep(s, other, otherGeneration, s') ensures Fenced(s', workspace, maxGeneration, n) {
        if Racing(s, workspace, maxGeneration, n) {
          SparedWhenSafe(s, other, otherGeneration, s', workspace, maxGeneration, n);
        }
        WorldFence(cfg, s, Invalidate(other, otherGeneration), s', workspace, maxGeneration, n);
      }
    } else {
      var s' := Dropping(s, other, otherGeneration, workspace);
      NotFenced(s', workspace, maxGeneration, n);
    }
  }

  // ---- Over a run ----------------------------------------------------------------

  /** From the invalidation at step i up to state j, no record made while the mint it races
      was on its way pushed its watermark out. */
  ghost predicate MarkStands(cfg: Settings, r: Run, i: nat, j: nat)
    requires IsRun(cfg, r) && i < j < |r.states| && r.steps[i].Invalidate?
  {
    forall k :: i <= k < j && r.steps[k].Invalidate? ==>
      Spares(r.states[k], r.states[k + 1], r.steps[i].workspace, r.steps[i].maxGeneration, |r.states[i].touches|)
  }

  lemma {:induction false} FencedFrom(cfg: Settings, r: Run, i: nat, j: nat)
    requires IsRun(cfg, r) && i < j < |r.states|
    requires r.steps[i].Invalidate? && r.steps[i].workspace != "" && MarkStands(cfg, r, i, j)
    ensures Fenced(r.states[j], r.steps[i].workspace, r.steps[i].maxGeneration, |r.states[i].touches|)
  {
    var step := r.steps[j - 1];
    RunKeepsBase(cfg, r, j - 1);
    assert StepAt(cfg, r, j - 1);
    if i + 1 == j {
      InvalidateFences(cfg, r.states[i], step.workspace, step.maxGeneration, r.states[j]);
    } else {
      FencedFrom(cfg, r, i, j - 1);
      FenceHolds(cfg, r.states[j - 1], step, r.states[j], r.steps[i].workspace, r.steps[i].maxGeneration, |r.states[i].touches|);
    }
  }

  /** The same as a guard: every record made from the invalidation on is safe when it is made. */
  ghost predicate RecordsSafe(cfg: Settings, r: Run, i: nat, j: nat)
    requires IsRun(cfg, r) && i < j < |r.states| && r.steps[i].Invalidate?
  {
    forall k {:trigger r.steps[k]} :: i <= k < j && r.steps[k].Invalidate? ==>
      Safe(r.states[k], r.steps[k].workspace, r.steps[k].maxGeneration,
           r.steps[i].workspace, r.steps[i].maxGeneration, |r.states[i].touches|)
  }

  lemma SafeRecordSpares(cfg: Settings, r: Run, i: nat, k: nat)
    requires IsRun(cfg, r) && i <= k < |r.steps| && r.steps[i].Invalidate? && r.steps[i].workspace != "" && r.steps[k].Invalidate?
    requires i < k ==> Fenced(r.states[k], r.steps[i].workspace, r.steps[i].maxGeneration, |r.states[i].touches|)
    requires Safe(r.states[k], r.steps[k].workspace, r.steps[k].maxGeneration,
                  r.steps[i].workspace, r.steps[i].maxGeneration, |r.states[i].touches|)
    ensures Spares(r.states[k], r.states[k + 1], r.steps[i].workspace, r.steps[i].maxGeneration, |r.states[i].touches|)
  {
    var (s, step, own) := (r.states[k], r.steps[k], r.steps[i]);
    RunKeepsBase(cfg, r, k);
    WatermarksAreBounded(cfg, r, k);
    assert StepAt(cfg, r, k);
    if i == k {
      OwnRecordSpares(cfg, s, own.workspace, own.maxGeneration, r.states[k + 1]);
    } else if Racing(s, own.workspace, own.maxGeneration, |r.states[i].touches|) {
      SparedWhenSafe(s, step.workspace, step.maxGeneration, r.states[k + 1], own.workspace, own.maxGeneration, |r.states[i].touches|);
    }
  }

  /** Safe records leave the watermark standing. */
  lemma {:induction false} SafeRecordsStand(cfg: Settings, r: Run, i: nat, j: nat)
    requires IsRun(cfg, r) && i < j < |r.states| && r.steps[i].Invalidate? && r.steps[i].workspace != ""
    requires RecordsSafe(cfg, r, i, j)
    ensures MarkStands(cfg, r, i, j)
  {
    if i + 1 < j {
      SafeRecordsStand(cfg, r, i, j - 1);
      FencedFrom(cfg, r, i, j - 1);
    }
    if r.steps[j - 1].Invalidate? {
      SafeRecordSpares(cfg, r, i, j - 1);
    }
  }

  lemma NeverServedWhileMarked(cfg: Settings, r: Run, i: nat, j: nat)
    requires IsRun(cfg, r) && i < j < |r.steps|
    requires r.steps[i].Invalidate? && r.steps[i].workspace != "" && MarkStands(cfg, r, i, j)
    requires r.steps[j].Serve? && r.states[j].outer.Minting? && r.states[j].outer.phase.CardSame?
    requires r.states[j + 1].outer.Minting? && r.states[j + 1].outer.phase.Finished?
    ensures var e := r.states[j].outer.phase.entry;
            r.states[j + 1].outer.phase.answer == CachedAnswer(e, r.states[j].outer.phase.at, r.states[j].outer.ticket)
            && (e.id < |r.states[i].touches| ==> !NamedBy(r.steps[i].workspace, r.steps[i].maxGeneration, e.key))
  {
    FencedFrom(cfg, r, i, j);
    RunKeepsBase(cfg, r, j);
    assert StepAt(cfg, r, j);
    ServedUnderFence(cfg, r.states[j], r.states[j + 1], r.steps[i].workspace, r.steps[i].maxGeneration, |r.states[i].touches|);
  }

  /** The invalidation names that claim: its workspace, and every generation or those up to one. */
  predicate NamedBy(workspace: string, maxGeneration: nat, key: Key) {
    key.workspaceID == workspace && (maxGeneration == 0 || key.claimGeneration <= maxGeneration)
  }

  /** Once an invalidation has run, no assertion it speaks for whose signing had begun by
      then is served from the cache: not one held at the time, not one a request had already
      been admitted to and was probing readers for, and not the one still inside the card,
      provided every record made while that one is on its way is safe when it is made. */
  lemma InvalidationIsFinal(cfg: Settings, r: Run, i: nat, j: nat)
    requires IsRun(cfg, r) && i < j < |r.steps|
    requires r.steps[i].Invalidate? && r.steps[i].workspace != "" && RecordsSafe(cfg, r, i, j)
    requires r.steps[j].Serve? && r.states[j].outer.Minting? && r.states[j].outer.phase.CardSame?
    requires r.states[j + 1].outer.Minting? && r.states[j + 1].outer.phase.Finished?
    ensures var e := r.states[j].outer.phase.entry;
            r.states[j + 1].outer.phase.answer == CachedAnswer(e, r.states[j].outer.phase.at, r.states[j].outer.ticket)
            && (e.id < |r.states[i].touches| ==> !NamedBy(r.steps[i].workspace, r.steps[i].maxGeneration, e.key))
  {
    SafeRecordsStand(cfg, r, i, j);
    NeverServedWhileMarked(cfg, r, i, j);
  }

  lemma ServedUnderFence(cfg: Settings, s: Sys, s': Sys, workspace: string, maxGeneration: nat, n: nat)
    requires OuterOk(cfg, s) && ServeStep(s, s') && Fenced(s, workspace, maxGeneration, n)
    requires s'.outer.Minting? && s'.outer.phase.Finished?
    ensures var e := s.outer.phase.entry;
            s'.outer.phase.answer == CachedAnswer(e, s.outer.phase.at, s.outer.ticket)
            && (e.id < n ==> !SpeaksFor(workspace, maxGeneration, e.key))
  {
  }

  // ---- Releasing every generation --------------------------------------------------

  /** The cap on watermarks is not reached. */
  predicate RoomFor(inv: map<string, nat>, workspace: string) {
    |inv.Keys + {workspace}| <= INVALIDATED_CAP
  }

  /** Exactly when releasing every generation refuses the claim now inside the card, however
      the record is trimmed: the watermark it leaves is not zero and sure to stay, or it is
      zero and the workspace already has one. */
  lemma ReleaseRefusesInFlightIff(g: Guarded, key: Key)
    requires key.workspaceID != "" && |g.invalidated| <= INVALIDATED_CAP
    requires g.pendingWorkspace == key.workspaceID && g.pendingGeneration == key.claimGeneration
    ensures (forall g' :: Invalidated(g, key.workspaceID, 0, g') ==> Refused(g'.invalidated, key))
            <==> forall w: nat :: IsWatermark(g, key.workspaceID, 0, w) ==>
                   if w == 0 then key.workspaceID in g.invalidated else SureToStay(g.invalidated, key.workspaceID, w, key.workspaceID)
  {
    var workspace := key.workspaceID;
    if forall w: nat :: IsWatermark(g, workspace, 0, w) ==>
         if w == 0 then workspace in g.invalidated else SureToStay(g.invalidated, workspace, w, workspace) {
      forall g' | Invalidated(g, workspace, 0, g') ensures Refused(g'.invalidated, key) {
        var w := MarkOf(g, workspace, 0, g');
        if w != 0 {
          StaysInMap(g.invalidated, workspace, w, workspace, g'.invalidated);
        }
      }
    } else {
      var w: nat :| IsWatermark(g, workspace, 0, w)
                    && if w == 0 then workspace !in g.invalidated else !SureToStay(g.invalidated, workspace, w, workspace);
      var g' := MayNotRefuse(g, workspace, w);
    }
  }

  lemma MayNotRefuse(g: Guarded, workspace: string, w: nat) returns (g': Guarded)
    requires workspace != "" && |g.invalidated| <= INVALIDATED_CAP && IsWatermark(g, workspace, 0, w)
    requires if w == 0 then workspace !in g.invalidated else !SureToStay(g.invalidated, workspace, w, workspace)
    ensures Invalidated(g, workspace, 0, g') && workspace !in g'.invalidated
  {
    if w == 0 {
      g' := g.(cache := PurgeWorkspace(g.cache, workspace, 0));
    } else {
      g' := DroppedBy(g, workspace, 0, w, workspace);
    }
  }

  /** Below the cap that comes to: the mint's generation is not zero, or the workspace already
      has a watermark, or an assertion of a nonzero generation is held for it. The adapters
      reject generation zero. */
  lemma ReleaseBelowCapIff(g: Guarded, key: Key)
    requires key.workspaceID != "" && RoomFor(g.invalidated, key.workspaceID)
    requires g.pendingWorkspace == key.workspaceID && g.pendingGeneration == key.claimGeneration
    ensures (forall g' :: Invalidated(g, key.workspaceID, 0, g') ==> Refused(g'.invalidated, key))
            <==> || key.claimGeneration != 0 || key.workspaceID in g.invalidated
                 || exists k :: k in g.cache && k.workspaceID == key.workspaceID && k.claimGeneration > 0
  {
    var workspace := key.workspaceID;
    if key.claimGeneration == 0 && workspace !in g.invalidated
       && forall k :: k in g.cache && k.workspaceID == workspace ==> k.claimGeneration == 0 {
      var g' := g.(cache := PurgeWorkspace(g.cache, workspace, 0));
      assert IsWatermark(g, workspace, 0, 0);
      assert Invalidated(g, workspace, 0, g');
    } else {
      forall g' | Invalidated(g, workspace, 0, g') ensures Refused(g'.invalidated, key) {
        var w := MarkOf(g, workspace, 0, g');
        if w != 0 {
          assert g.invalidated[workspace := w].Keys == g.invalidated.Keys + {workspace};
        }
      }
    }
  }
}
