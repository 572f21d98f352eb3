/** Runs that reach what the fences do not cover, built step by step from the initial state:
    each shows that a hypothesis of a theorem is needed and not merely convenient. */
module MintWitness {
  import opened Basics
  import opened Config
  import opened Requests
  import opened ReuseSpec
  import opened Mint

  // ---- Building a run -------------------------------------------------------------

  function Last(r: Run): Sys
    requires r.states != []
  {
    r.states[|r.states| - 1]
  }

  /** r' continues r. */
  predicate Grows(r: Run, r': Run) {
    && |r.states| <= |r'.states| && |r.steps| <= |r'.steps|
    && (forall i :: 0 <= i < |r.states| ==> r'.states[i] == r.states[i])
    && (forall i :: 0 <= i < |r.steps| ==> r'.steps[i] == r.steps[i])
  }

  lemma Extend(cfg: Settings, r: Run, step: Step, s': Sys) returns (r': Run)
    requires IsRun(cfg, r) && Next(cfg, Last(r), step, s')
    ensures IsRun(cfg, r') && Last(r') == s' && Grows(r, r')
    ensures |r'.steps| == |r.steps| + 1 && r'.steps[|r.steps|] == step
  {
    r' := Run(r.states + [s'], r.steps + [step]);
    forall i | 0 <= i < |r'.steps| ensures StepAt(cfg, r', i) {
      if i < |r.steps| {
        assert StepAt(cfg, r, i);
      }
    }
  }

  lemma Start(cfg: Settings, now: Instant, names: seq<string>) returns (r: Run)
    ensures IsRun(cfg, r) && r.steps == []
    ensures Last(r) == Sys(now, Names(names), None, EMPTY, Free, multiset{}, [])
  {
    r := Run([Sys(now, Names(names), None, EMPTY, Free, multiset{}, [])], []);
  }

  lemma Unlock(cfg: Settings, r: Run, pin: string, serial: nat) returns (r': Run)
    requires IsRun(cfg, r) && Last(r).outer.Free? && pin != ""
    ensures IsRun(cfg, r') && Grows(r, r') && Last(r') == Last(r).(g := Unlocked(Last(r).g, pin, serial))
  {
    var s := Last(r);
    var r1 := Extend(cfg, r, UnlockBegin(pin), s.(outer := Unlocking(pin)));
    assert UnlockEndStep(Last(r1), Some(serial), s.(g := Unlocked(s.g, pin, serial)));
    r' := Extend(cfg, r1, UnlockEnd(Some(serial)), s.(g := Unlocked(s.g, pin, serial)));
  }

  /** The request is accepted and waits for the outer lock. */
  lemma ArriveOne(cfg: Settings, r: Run, req: Request, t: Ticket) returns (r': Run)
    requires IsRun(cfg, r) && FromAdapters(req) && Accept(cfg, req, Last(r).now) == Ok(t)
    ensures IsRun(cfg, r') && Grows(r, r') && Last(r') == Last(r).(queued := Last(r).queued + multiset{t})
  {
    var s' := Last(r).(queued := Last(r).queued + multiset{t});
    assert ArriveStep(cfg, Last(r), req, s');
    r' := Extend(cfg, r, Arrive(req), s');
  }

  lemma TakeIt(cfg: Settings, r: Run, t: Ticket) returns (r': Run)
    requires IsRun(cfg, r) && Last(r).outer.Free? && t in Last(r).queued
    ensures IsRun(cfg, r') && Grows(r, r')
    ensures Last(r') == Last(r).(queued := Last(r).queued - multiset{t}, outer := Minting(t, Holding))
  {
    r' := Extend(cfg, r, Take(t), Last(r).(queued := Last(r).queued - multiset{t}, outer := Minting(t, Holding)));
  }

  lemma Miss(cfg: Settings, r: Run, t: Ticket) returns (r': Run)
    requires IsRun(cfg, r) && Last(r).outer == Minting(t, Holding) && t.key !in Last(r).g.cache
    ensures IsRun(cfg, r') && Grows(r, r') && Last(r') == Last(r).(outer := Minting(t, Missed))
  {
    var s' := Last(r).(outer := Minting(t, Missed));
    assert LookUpStep(cfg, Last(r), s');
    r' := Extend(cfg, r, LookUp, s');
  }

  lemma Arm(cfg: Settings, r: Run, t: Ticket) returns (r': Run)
    requires IsRun(cfg, r) && Last(r).outer == Minting(t, Missed) && Last(r).g.pin != ""
    ensures IsRun(cfg, r') && Grows(r, r')
    ensures Last(r') == Last(r).(g := TakePin(Last(r).g, cfg.pinCacheNever), outer := Minting(t, Armed))
  {
    var s' := Last(r).(g := TakePin(Last(r).g, cfg.pinCacheNever), outer := Minting(t, Armed));
    assert FetchPinStep(cfg, Last(r), s');
    r' := Extend(cfg, r, FetchPin, s');
  }

  lemma DrawOne(cfg: Settings, r: Run, t: Ticket, jti: string) returns (r': Run)
    requires IsRun(cfg, r) && Last(r).outer == Minting(t, Armed)
    ensures IsRun(cfg, r') && Grows(r, r') && Last(r') == Last(r).(outer := Minting(t, Drawn(jti, Last(r).now)))
  {
    var s' := Last(r).(outer := Minting(t, Drawn(jti, Last(r).now)));
    assert DrawStep(Last(r), Some(jti), s');
    r' := Extend(cfg, r, Draw(Some(jti)), s');
  }

  /** The state with t's touch begun. */
  function Begun(s: Sys, t: Ticket, jti: string, signAt: Instant): Sys {
    s.(g := s.g.(pendingWorkspace := t.key.workspaceID, pendingGeneration := t.key.claimGeneration),
       outer := Minting(t, InCard(|s.touches|)), touches := s.touches + [Touch(t, jti, signAt, None, None)])
  }

  lemma BeginOne(cfg: Settings, r: Run, t: Ticket, jti: string, signAt: Instant) returns (r': Run)
    requires IsRun(cfg, r) && Last(r).outer == Minting(t, Drawn(jti, signAt))
    ensures IsRun(cfg, r') && Grows(r, r') && Last(r') == Begun(Last(r), t, jti, signAt)
  {
    var s' := Begun(Last(r), t, jti, signAt);
    assert BeginStep(Last(r), s');
    r' := Extend(cfg, r, Begin, s');
  }

  /** From the queue into the card. */
  lemma UpToCard(cfg: Settings, r: Run, t: Ticket, jti: string) returns (r': Run)
    requires IsRun(cfg, r) && Last(r).outer.Free? && t in Last(r).queued
    requires t.key !in Last(r).g.cache && Last(r).g.pin != ""
    ensures IsRun(cfg, r') && Grows(r, r')
    ensures var s := Last(r);
            Last(r') == Begun(s.(queued := s.queued - multiset{t}, g := TakePin(s.g, cfg.pinCacheNever)), t, jti, s.now)
  {
    var r1 := TakeIt(cfg, r, t);
    var r2 := Miss(cfg, r1, t);
    var r3 := Arm(cfg, r2, t);
    var r4 := DrawOne(cfg, r3, t, jti);
    r' := BeginOne(cfg, r4, t, jti, Last(r).now);
  }

  // ---- Out of the card ------------------------------------------------------------

  /** A card, the request it signs, and a signature that verifies. */
  datatype Signing = Signing(t: Ticket, jti: string, serial: nat, spki: Bytes, signature: Bytes)

  function Unsigned(g: Signing, now: Instant): Touch {
    Touch(g.t, g.jti, now, None, None)
  }

  ghost predicate CanSign(cfg: Settings, g: Signing, now: Instant) {
    && Accept(cfg, g.t.req, now) == Ok(g.t) && FromAdapters(g.t.req) && g.signature != []
    && DigestFor(cfg, g.t.req, g.t.alias, g.serial, g.spki, g.jti, now).Ok?
    && Genuine(cfg, Unsigned(g, now), Signature(g.serial, g.spki, g.signature))
  }

  /** The touch once the card has answered, completed at once. */
  function DoneTouch(cfg: Settings, g: Signing, now: Instant): Touch {
    Unsigned(g, now).(signed := OutcomeSigned(cfg, Unsigned(g, now), Signature(g.serial, g.spki, g.signature)), completedAt := Some(now))
  }

  lemma SignReturnsOne(cfg: Settings, r: Run, g: Signing, i: nat) returns (r': Run)
    requires IsRun(cfg, r) && CanSign(cfg, g, Last(r).now)
    requires Last(r).outer == Minting(g.t, InCard(i)) && i < |Last(r).touches| && Last(r).touches[i] == Unsigned(g, Last(r).now)
    ensures IsRun(cfg, r') && Grows(r, r')
    ensures var s := Last(r);
            Last(r') == s.(outer := Minting(g.t, Returned(i, Signature(g.serial, g.spki, g.signature))),
                           touches := s.touches[i := DoneTouch(cfg, g, s.now).(completedAt := None)])
  {
    var s := Last(r);
    var s' := s.(outer := Minting(g.t, Returned(i, Signature(g.serial, g.spki, g.signature))),
                 touches := s.touches[i := DoneTouch(cfg, g, s.now).(completedAt := None)]);
    assert SignReturnsStep(cfg, s, Signature(g.serial, g.spki, g.signature), s');
    r' := Extend(cfg, r, SignReturns(Signature(g.serial, g.spki, g.signature)), s');
  }

  lemma NoteAndComplete(cfg: Settings, r: Run, g: Signing, i: nat) returns (r': Run)
    requires IsRun(cfg, r) && g.signature != [] && i < |Last(r).touches|
    requires Last(r).outer == Minting(g.t, Returned(i, Signature(g.serial, g.spki, g.signature)))
    ensures IsRun(cfg, r') && Grows(r, r')
    ensures var s := Last(r);
            Last(r') == s.(g := PinRecorded(s.g, g.serial, NotAPinError), outer := Minting(g.t, Completed(i)),
                           touches := s.touches[i := s.touches[i].(completedAt := Some(s.now))])
  {
    var s := Last(r);
    var noted := s.(g := PinRecorded(s.g, g.serial, NotAPinError), outer := Minting(g.t, PinNoted(i)));
    assert NotePinStep(s, noted);
    var r1 := Extend(cfg, r, NotePin, noted);
    r' := CompleteOne(cfg, r1, g.t, i);
  }

  lemma CompleteOne(cfg: Settings, r: Run, t: Ticket, i: nat) returns (r': Run)
    requires IsRun(cfg, r) && Last(r).outer == Minting(t, PinNoted(i)) && i < |Last(r).touches|
    ensures IsRun(cfg, r') && Grows(r, r')
    ensures var s := Last(r);
            Last(r') == s.(outer := Minting(t, Completed(i)), touches := s.touches[i := s.touches[i].(completedAt := Some(s.now))])
  {
    var s := Last(r);
    var s' := s.(outer := Minting(t, Completed(i)), touches := s.touches[i := s.touches[i].(completedAt := Some(s.now))]);
    assert CompleteStep(s, s');
    r' := Extend(cfg, r, Complete, s');
  }

  lemma SnapshotOne(cfg: Settings, r: Run, t: Ticket, i: nat) returns (r': Run)
    requires IsRun(cfg, r) && Last(r).outer == Minting(t, Completed(i)) && i < |Last(r).touches|
    requires Last(r).touches[i].signed.Some? && Last(r).touches[i].completedAt.Some?
    ensures IsRun(cfg, r') && Grows(r, r')
    ensures Last(r') == Last(r).(outer := Minting(t, Prepared(i, NewEntry(cfg, i, Last(r).touches[i], Last(r).reading))))
  {
    var s' := Last(r).(outer := Minting(t, Prepared(i, NewEntry(cfg, i, Last(r).touches[i], Last(r).reading))));
    assert SnapshotStep(cfg, Last(r), s');
    r' := Extend(cfg, r, Snapshot, s');
  }

  lemma InsertAndRelease(cfg: Settings, r: Run, t: Ticket, i: nat, e: Entry) returns (r': Run)
    requires IsRun(cfg, r) && Last(r).outer == Minting(t, Prepared(i, Some(e))) && i < |Last(r).touches|
    requires Last(r).touches[i].signed.Some? && Last(r).touches[i].completedAt.Some?
    requires !Refused(Last(r).g.invalidated, e.key) && |Last(r).g.cache[e.key := e]| <= CACHE_CAP
    ensures IsRun(cfg, r') && Grows(r, r')
    ensures var s := Last(r);
            Last(r') == s.(g := s.g.(cache := s.g.cache[e.key := e], pendingWorkspace := "", pendingGeneration := 0), outer := Free)
  {
    var s := Last(r);
    var s1 := s.(g := s.g.(cache := s.g.cache[e.key := e]), outer := Minting(t, Ending(FreshAnswer(i, s.touches[i], t))));
    assert InsertStep(s, s1);
    var r1 := Extend(cfg, r, Insert, s1);
    r' := EndAndRelease(cfg, r1, t, FreshAnswer(i, s.touches[i], t));
  }

  lemma EndAndRelease(cfg: Settings, r: Run, t: Ticket, answer: Answer) returns (r': Run)
    requires IsRun(cfg, r) && Last(r).outer == Minting(t, Ending(answer))
    ensures IsRun(cfg, r') && Grows(r, r')
    ensures Last(r') == Last(r).(g := Last(r).g.(pendingWorkspace := "", pendingGeneration := 0), outer := Free)
  {
    var s := Last(r);
    var s1 := s.(g := s.g.(pendingWorkspace := "", pendingGeneration := 0), outer := Minting(t, Finished(answer)));
    assert EndPendingStep(s, s1);
    var r1 := Extend(cfg, r, EndPending, s1);
    assert ReleaseStep(s1, s1.(outer := Free));
    r' := Extend(cfg, r1, Release, s1.(outer := Free));
  }

  /** The entry this signing leaves in a daemon that keeps entries. */
  function EntryFor(cfg: Settings, g: Signing, i: nat, now: Instant, names: seq<string>): Entry
    requires DoneTouch(cfg, g, now).signed.Some?
  {
    MadeEntry(i, DoneTouch(cfg, g, now), if cfg.listsReaders then Some(names) else None)
  }

  lemma EntryForKey(cfg: Settings, g: Signing, i: nat, now: Instant, names: seq<string>)
    requires CanSign(cfg, g, now)
    ensures DoneTouch(cfg, g, now).signed.Some?
    ensures var e := EntryFor(cfg, g, i, now, names);
            e.key == g.t.key && e.id == i && e.serial == g.serial && e.completedAt == now
  {
  }

  lemma SignAndComplete(cfg: Settings, r: Run, g: Signing, i: nat) returns (r': Run)
    requires IsRun(cfg, r) && CanSign(cfg, g, Last(r).now)
    requires Last(r).outer == Minting(g.t, InCard(i)) && i < |Last(r).touches| && Last(r).touches[i] == Unsigned(g, Last(r).now)
    ensures IsRun(cfg, r') && Grows(r, r')
    ensures var s := Last(r);
            Last(r') == s.(g := PinRecorded(s.g, g.serial, NotAPinError), outer := Minting(g.t, Completed(i)),
                           touches := s.touches[i := DoneTouch(cfg, g, s.now)])
  {
    var s := Last(r);
    var r1 := SignReturnsOne(cfg, r, g, i);
    r' := NoteAndComplete(cfg, r1, g, i);
    assert Last(r').touches == s.touches[i := DoneTouch(cfg, g, s.now)];
  }

  lemma KeepEntry(cfg: Settings, r: Run, g: Signing, i: nat, now: Instant, names: seq<string>) returns (r': Run)
    requires IsRun(cfg, r) && cfg.singleFlight && Last(r).reading == Names(names)
    requires Last(r).outer == Minting(g.t, Completed(i)) && i < |Last(r).touches| && Last(r).touches[i] == DoneTouch(cfg, g, now)
    requires DoneTouch(cfg, g, now).signed.Some? && EntryFor(cfg, g, i, now, names).key == g.t.key
    requires !Refused(Last(r).g.invalidated, g.t.key) && |Last(r).g.cache| < CACHE_CAP
    ensures IsRun(cfg, r') && Grows(r, r')
    ensures var s := Last(r);
            Last(r') == s.(g := s.g.(cache := s.g.cache[g.t.key := EntryFor(cfg, g, i, now, names)], pendingWorkspace := "",
                                     pendingGeneration := 0), outer := Free)
  {
    var r1 := SnapshotOne(cfg, r, g.t, i);
    r' := InsertAndRelease(cfg, r1, g.t, i, EntryFor(cfg, g, i, now, names));
  }

  /** From the card back to a free lock, with the entry held. */
  lemma FromCard(cfg: Settings, r: Run, g: Signing, i: nat, names: seq<string>) returns (r': Run)
    requires IsRun(cfg, r) && CanSign(cfg, g, Last(r).now) && cfg.singleFlight && Last(r).reading == Names(names)
    requires Last(r).outer == Minting(g.t, InCard(i)) && i < |Last(r).touches| && Last(r).touches[i] == Unsigned(g, Last(r).now)
    requires !Refused(Last(r).g.invalidated, g.t.key)
    requires |PinRecorded(Last(r).g, g.serial, NotAPinError).cache| < CACHE_CAP
    ensures IsRun(cfg, r') && Grows(r, r') && DoneTouch(cfg, g, Last(r).now).signed.Some?
    ensures var s := Last(r);
            var noted := PinRecorded(s.g, g.serial, NotAPinError);
            Last(r') == s.(g := noted.(cache := noted.cache[g.t.key := EntryFor(cfg, g, i, s.now, names)], pendingWorkspace := "",
                                       pendingGeneration := 0),
                           outer := Free, touches := s.touches[i := DoneTouch(cfg, g, s.now)])
  {
    EntryForKey(cfg, g, i, Last(r).now, names);
    var r1 := SignAndComplete(cfg, r, g, i);
    r' := KeepEntry(cfg, r1, g, i, Last(r).now, names);
  }

  // ---- Two cards in never mode ------------------------------------------------------

  /** A mint from the queue to a free lock, by a daemon that holds few entries. */
  lemma MintOnce(cfg: Settings, r: Run, g: Signing, names: seq<string>) returns (r': Run)
    requires IsRun(cfg, r) && CanSign(cfg, g, Last(r).now) && cfg.singleFlight && Last(r).reading == Names(names)
    requires cfg.pinCacheNever && Last(r).g.pin != "" && Last(r).outer.Free? && g.t in Last(r).queued
    requires g.t.key !in Last(r).g.cache && |Last(r).g.cache| < CACHE_CAP && Last(r).g.invalidated == map[]
    ensures IsRun(cfg, r') && Grows(r, r') && DoneTouch(cfg, g, Last(r).now).signed.Some?
    ensures var s := Last(r);
            Last(r') == s.(g := ClearPin(s.g).(cache := s.g.cache[g.t.key := EntryFor(cfg, g, |s.touches|, s.now, names)],
                                               pendingWorkspace := "", pendingGeneration := 0),
                           queued := s.queued - multiset{g.t}, touches := s.touches + [DoneTouch(cfg, g, s.now)])
  {
    var s := Last(r);
    var r1 := UpToCard(cfg, r, g.t, g.jti);
    r' := FromCard(cfg, r1, g, |s.touches|, names);
    assert Last(r1).touches[|s.touches| := DoneTouch(cfg, g, s.now)] == s.touches + [DoneTouch(cfg, g, s.now)];
  }

  /** The swap purge really is missing with pin_cache = "never": any daemon with two cards
      that can sign for two requests reaches a state that holds an assertion of each. It is
      unlocked on the first card, mints, is unlocked on the first card again, and then the
      second card signs. */
  lemma NeverModeHoldsTwoSerials(cfg: Settings, a: Signing, b: Signing, now: Instant, names: seq<string>, pin: string) returns (r: Run)
    requires cfg.pinCacheNever && cfg.singleFlight && pin != ""
    requires CanSign(cfg, a, now) && CanSign(cfg, b, now) && a.t.key != b.t.key && a.serial != b.serial
    ensures IsRun(cfg, r) && Last(r).outer.Free?
    ensures a.t.key in Last(r).g.cache && Last(r).g.cache[a.t.key].serial == a.serial
    ensures b.t.key in Last(r).g.cache && Last(r).g.cache[b.t.key].serial == b.serial
  {
    EntryForKey(cfg, a, 0, now, names);
    EntryForKey(cfg, b, 1, now, names);
    var r1 := FirstCardMints(cfg, a, b, now, names, pin);
    r := MintOnce(cfg, r1, b, names);
  }

  lemma FirstCardMints(cfg: Settings, a: Signing, b: Signing, now: Instant, names: seq<string>, pin: string) returns (r: Run)
    requires cfg.pinCacheNever && cfg.singleFlight && pin != "" && CanSign(cfg, a, now) && CanSign(cfg, b, now)
    ensures IsRun(cfg, r) && DoneTouch(cfg, a, now).signed.Some?
    ensures var s := Last(r);
            && s.now == now && s.reading == Names(names) && s.outer.Free? && s.queued == multiset{b.t} && |s.touches| == 1
            && s.g == EMPTY.(pin := pin, pinSerial := a.serial, cache := map[a.t.key := EntryFor(cfg, a, 0, now, names)])
  {
    EntryForKey(cfg, a, 0, now, names);
    var r1 := BothQueued(cfg, a, b, now, names, pin);
    var r2 := MintOnce(cfg, r1, a, names);
    r := Unlock(cfg, r2, pin, a.serial);
  }

  lemma BothQueued(cfg: Settings, a: Signing, b: Signing, now: Instant, names: seq<string>, pin: string) returns (r: Run)
    requires pin != "" && CanSign(cfg, a, now) && CanSign(cfg, b, now)
    ensures IsRun(cfg, r)
    ensures Last(r) == Sys(now, Names(names), None, EMPTY.(pin := pin, pinSerial := a.serial), Free, multiset{a.t, b.t}, [])
  {
    var r1 := Start(cfg, now, names);
    var r2 := Unlock(cfg, r1, pin, a.serial);
    var r3 := ArriveOne(cfg, r2, a.t.req, a.t);
    r := ArriveOne(cfg, r3, b.t.req, b.t);
    assert Unlocked(EMPTY, pin, a.serial) == EMPTY.(pin := pin, pinSerial := a.serial);
  }

  // ---- A watermark pushed out -------------------------------------------------------

  /** A claim of the given generation is invalidated and its watermark recorded. */
  lemma InvalidateOne(cfg: Settings, r: Run, workspace: string, generation: nat, after: map<string, nat>) returns (r': Run)
    requires IsRun(cfg, r) && workspace != "" && generation != 0 && Last(r).g.cache == map[]
    requires WatermarkRecorded(Last(r).g.invalidated, workspace, generation, after)
    ensures IsRun(cfg, r') && Grows(r, r') && Last(r') == Last(r).(g := Last(r).g.(invalidated := after))
    ensures |r'.steps| == |r.steps| + 1 && r'.steps[|r.steps|] == Invalidate(workspace, generation)
  {
    var s := Last(r);
    var s' := s.(g := s.g.(invalidated := after));
    assert PurgeWorkspace(s.g.cache, workspace, generation) == map[];
    assert IsWatermark(s.g, workspace, generation, generation);
    assert InvalidateStep(s, workspace, generation, s');
    r' := Extend(cfg, r, Invalidate(workspace, generation), s');
  }

  /** Names longer than any used so far are new ones. */
  function Longer(name: string, k: nat): (longer: string)
    ensures |longer| == |name| + k
  {
    if k == 0 then name else Longer(name, k - 1) + "x"
  }

  /** k other workspaces have been invalidated at a higher generation. */
  ghost predicate Crowded(inv: map<string, nat>, workspace: string, generation: nat, k: nat) {
    && |inv| == k + 1 && workspace in inv && inv[workspace] == generation
    && forall w :: w in inv && w != workspace ==> inv[w] == generation + 1 && |w| <= |workspace| + k
  }

  lemma OneMoreCrowds(inv: map<string, nat>, workspace: string, generation: nat, k: nat, name: string)
    requires Crowded(inv, workspace, generation, k) && |name| == |workspace| + k + 1
    ensures name !in inv && Crowded(inv[name := generation + 1], workspace, generation, k + 1)
    ensures k + 1 < INVALIDATED_CAP ==> WatermarkRecorded(inv, name, generation + 1, inv[name := generation + 1])
  {
    assert |inv[name := generation + 1]| == |inv| + 1;
  }

  lemma {:induction false} Crowd(cfg: Settings, r: Run, workspace: string, generation: nat, k: nat) returns (r': Run)
    requires IsRun(cfg, r) && workspace != "" && generation != 0 && Last(r).g.cache == map[] && k < INVALIDATED_CAP
    requires Last(r).g.invalidated == map[workspace := generation]
    ensures IsRun(cfg, r') && Grows(r, r') && Crowded(Last(r').g.invalidated, workspace, generation, k)
    ensures Last(r') == Last(r).(g := Last(r).g.(invalidated := Last(r').g.invalidated))
  {
    if k == 0 {
      r' := r;
    } else {
      var r1 := Crowd(cfg, r, workspace, generation, k - 1);
      var (inv, name) := (Last(r1).g.invalidated, Longer(workspace, k));
      OneMoreCrowds(inv, workspace, generation, k - 1, name);
      r' := InvalidateOne(cfg, r1, name, generation + 1, inv[name := generation + 1]);
    }
  }

  lemma LowestGoes(inv: map<string, nat>, workspace: string, generation: nat, name: string)
    requires Crowded(inv, workspace, generation, INVALIDATED_CAP - 1) && |name| == |workspace| + INVALIDATED_CAP
    ensures WatermarkRecorded(inv, name, generation + 1, inv[name := generation + 1] - {workspace})
  {
    OneMoreCrowds(inv, workspace, generation, INVALIDATED_CAP - 1, name);
    var full := inv[name := generation + 1];
    assert (full - {workspace}).Keys == full.Keys - {workspace};
  }

  /** With 255 others recorded, one more pushes the lowest watermark out. */
  lemma PushOut(cfg: Settings, r: Run, workspace: string, generation: nat) returns (r': Run)
    requires IsRun(cfg, r) && workspace != "" && generation != 0 && Last(r).g.cache == map[]
    requires Last(r).g.invalidated == map[workspace := generation]
    ensures IsRun(cfg, r') && Grows(r, r') && workspace !in Last(r').g.invalidated
    ensures Last(r') == Last(r).(g := Last(r).g.(invalidated := Last(r').g.invalidated))
  {
    var r1 := Crowd(cfg, r, workspace, generation, INVALIDATED_CAP - 1);
    var (inv, name) := (Last(r1).g.invalidated, Longer(workspace, INVALIDATED_CAP));
    LowestGoes(inv, workspace, generation, name);
    r' := InvalidateOne(cfg, r1, name, generation + 1, inv[name := generation + 1] - {workspace});
  }

  lemma Hit(cfg: Settings, r: Run, t: Ticket, e: Entry) returns (r': Run)
    requires IsRun(cfg, r) && Last(r).outer.Free? && t in Last(r).queued
    requires t.key in Last(r).g.cache && Last(r).g.cache[t.key] == e
    requires Admits(e, Last(r).now, t.arrival, Reuse(t.alias), cfg.singleFlight) && CardUnchanged(e.readers, cfg.listsReaders, Last(r).reading)
    ensures IsRun(cfg, r') && Grows(r, r')
    ensures var s := Last(r);
            Last(r') == s.(queued := s.queued - multiset{t}, outer := Minting(t, CardSame(e, s.now)))
  {
    var s := Last(r);
    var r1 := TakeIt(cfg, r, t);
    var admitted := Last(r1).(outer := Minting(t, Admitted(e, s.now)));
    assert LookUpStep(cfg, Last(r1), admitted);
    var r2 := Extend(cfg, r1, LookUp, admitted);
    r' := ProbeOne(cfg, r2, t, e);
  }

  lemma ProbeOne(cfg: Settings, r: Run, t: Ticket, e: Entry) returns (r': Run)
    requires IsRun(cfg, r) && Last(r).outer.Minting? && Last(r).outer.ticket == t && Last(r).outer.phase.Admitted?
    requires Last(r).outer.phase.entry == e && CardUnchanged(e.readers, cfg.listsReaders, Last(r).reading)
    ensures IsRun(cfg, r') && Grows(r, r') && |r'.steps| == |r.steps| + 1
    ensures Last(r') == Last(r).(outer := Minting(t, CardSame(e, Last(r).outer.phase.at)))
  {
    var s' := Last(r).(outer := Minting(t, CardSame(e, Last(r).outer.phase.at)));
    assert ProbeStep(cfg, Last(r), s');
    r' := Extend(cfg, r, Probe, s');
  }

  lemma ServeOne(cfg: Settings, r: Run, t: Ticket, e: Entry, at: Instant) returns (r': Run)
    requires IsRun(cfg, r) && Last(r).outer == Minting(t, CardSame(e, at))
    requires t.key in Last(r).g.cache && Last(r).g.cache[t.key] == e
    ensures IsRun(cfg, r') && Grows(r, r') && |r'.steps| == |r.steps| + 1 && r'.steps[|r.steps|] == Serve
    ensures Last(r') == Last(r).(outer := Minting(t, Finished(CachedAnswer(e, at, t))))
  {
    var s' := Last(r).(outer := Minting(t, Finished(CachedAnswer(e, at, t))));
    assert ServeStep(Last(r), s');
    r' := Extend(cfg, r, Serve, s');
  }

  /** A new entry is good for anyone who queued behind it. */
  lemma NewEntryAdmits(cfg: Settings, g: Signing, i: nat, now: Instant, names: seq<string>)
    requires CanSign(cfg, g, now)
    ensures DoneTouch(cfg, g, now).signed.Some? && g.t.arrival == now
    ensures Admits(EntryFor(cfg, g, i, now, names), now, now, Reuse(g.t.alias), true)
  {
    EntryForKey(cfg, g, i, now, names);
  }

  /** Of two queued requests for one tuple the first is in the card. */
  lemma OneInCard(cfg: Settings, g: Signing, now: Instant, names: seq<string>, pin: string) returns (r: Run)
    requires CanSign(cfg, g, now) && pin != ""
    ensures IsRun(cfg, r)
    ensures Last(r).outer == Minting(g.t, InCard(0)) && Last(r).touches == [Unsigned(g, now)]
    ensures Last(r).now == now && Last(r).reading == Names(names) && Last(r).queued == multiset{g.t}
    ensures Last(r).g.cache == map[] && Last(r).g.invalidated == map[]
  {
    var r1 := BothQueued(cfg, g, g, now, names, pin);
    r := UpToCard(cfg, r1, g.t, g.jti);
  }

  /** The queue, the card and the invalidation, up to the moment the watermark is gone. */
  lemma InvalidatedInCard(cfg: Settings, g: Signing, now: Instant, names: seq<string>, pin: string) returns (r: Run, i: nat)
    requires CanSign(cfg, g, now) && pin != "" && g.t.key.workspaceID != ""
    ensures IsRun(cfg, r) && i < |r.steps| && r.steps[i] == Invalidate(g.t.key.workspaceID, g.t.key.claimGeneration)
    ensures |r.states[i].touches| == 1 && Last(r).outer == Minting(g.t, InCard(0)) && Last(r).touches == [Unsigned(g, now)]
    ensures Last(r).now == now && Last(r).reading == Names(names) && Last(r).queued == multiset{g.t} && Last(r).g.cache == map[]
    ensures g.t.key.workspaceID !in Last(r).g.invalidated
  {
    var r1 := OneInCard(cfg, g, now, names, pin);
    AdaptersNeverSendGenerationZero(g.t.req);
    r, i := InvalidateAndForget(cfg, r1, g.t.key.workspaceID, g.t.key.claimGeneration);
  }

  lemma InvalidateAndForget(cfg: Settings, r: Run, workspace: string, generation: nat) returns (r': Run, i: nat)
    requires IsRun(cfg, r) && workspace != "" && generation > 0
    requires Last(r).g.cache == map[] && Last(r).g.invalidated == map[]
    ensures IsRun(cfg, r') && Grows(r, r') && i == |r.steps| < |r'.steps| && r'.steps[i] == Invalidate(workspace, generation)
    ensures Last(r') == Last(r).(g := Last(r).g.(invalidated := Last(r').g.invalidated)) && workspace !in Last(r').g.invalidated
  {
    i := |r.steps|;
    var r1 := InvalidateOne(cfg, r, workspace, generation, map[workspace := generation]);
    r' := PushOut(cfg, r1, workspace, generation);
  }

  /** From the card to a second request served from the cache. */
  lemma KeptThenServed(cfg: Settings, r: Run, g: Signing, now: Instant, names: seq<string>) returns (r': Run, j: nat)
    requires IsRun(cfg, r) && cfg.singleFlight && CanSign(cfg, g, now) && !Refused(Last(r).g.invalidated, g.t.key)
    requires Last(r).outer == Minting(g.t, InCard(0)) && Last(r).touches == [Unsigned(g, now)] && g.t in Last(r).queued
    requires Last(r).now == now && Last(r).reading == Names(names) && Last(r).g.cache == map[]
    ensures IsRun(cfg, r') && Grows(r, r') && |r.steps| <= j < |r'.steps| && r'.steps[j] == Serve
    ensures exists e: Entry :: e.id == 0 && r'.states[j + 1].outer == Minting(g.t, Finished(CachedAnswer(e, now, g.t)))
  {
    NewEntryAdmits(cfg, g, 0, now, names);
    EntryForKey(cfg, g, 0, now, names);
    var e := EntryFor(cfg, g, 0, now, names);
    var r1 := FromCard(cfg, r, g, 0, names);
    r', j := HitAndServe(cfg, r1, g.t, e);
  }

  lemma HitAndServe(cfg: Settings, r: Run, t: Ticket, e: Entry) returns (r': Run, j: nat)
    requires IsRun(cfg, r) && Last(r).outer.Free? && t in Last(r).queued
    requires t.key in Last(r).g.cache && Last(r).g.cache[t.key] == e
    requires Admits(e, Last(r).now, t.arrival, Reuse(t.alias), cfg.singleFlight) && CardUnchanged(e.readers, cfg.listsReaders, Last(r).reading)
    ensures IsRun(cfg, r') && Grows(r, r') && |r.steps| <= j < |r'.steps| && r'.steps[j] == Serve
    ensures r'.states[j + 1].outer == Minting(t, Finished(CachedAnswer(e, Last(r).now, t)))
  {
    var r1 := Hit(cfg, r, t, e);
    j := |r1.steps|;
    r' := ServeOne(cfg, r1, t, e, Last(r).now);
  }

  /** Past the cap the promise fails: any daemon that can sign for a forwarded claim has a
      run in which the claim is invalidated while its mint is in the card, 256 other
      workspaces are invalidated before the card answers, and the assertion is then kept
      and served to the next identical request. */
  lemma PushedOutWatermarkServes(cfg: Settings, g: Signing, now: Instant, names: seq<string>, pin: string)
    returns (r: Run, i: nat, j: nat)
    requires cfg.singleFlight && CanSign(cfg, g, now) && pin != "" && g.t.key.workspaceID != ""
    ensures IsRun(cfg, r) && i < j < |r.steps| && r.steps[i].Invalidate? && r.steps[j].Serve?
    ensures r.states[j + 1].outer.Minting? && r.states[j + 1].outer.phase.Finished? && r.states[j + 1].outer.phase.answer.Credential?
    ensures r.states[j + 1].outer.phase.answer.touch < |r.states[i].touches|
    ensures SpeaksFor(r.steps[i].workspace, r.steps[i].maxGeneration, r.states[j + 1].outer.ticket.key)
  {
    var r1;
    r1, i := InvalidatedInCard(cfg, g, now, names, pin);
    r, j := KeptThenServed(cfg, r1, g, now, names);
  }
}
