/** When recovery sleeps, polls, inspects and asks, in plain milliseconds: how long a sleep may
    be, how promptly the first inspection follows the end of grace, exactly when scdaemon is
    asked to let go, and the whole default schedule for calls that return at once. */
module RecoverySchedule {
  import opened Basics
  import opened Recovery
  import opened RecoveryLaws

  function Ms(n: int): Duration {
    n * 1_000_000
  }

  // ---- How long a sleep is ---------------------------------------------------------

  /** The steps of the ladder, in milliseconds. */
  function StepMs(rung: nat): int {
    if rung == 0 then 50 else if rung == 1 then 100 else if rung == 2 then 200 else if rung == 3 then 400 else 800
  }

  /** A sleep that is on time lasts one step of the ladder, unless the end of grace or of the
      budget comes first: never past grace when it began before, and never past the budget. */
  lemma SleepLength(t: Terms, world: nat -> Round, log: seq<Event>, n: nat)
    requires n <= |log| && world(PollsOf(log, n)).sleep == Slept(0) && t.Left(StandingOf(t, world, log, n).ended) > 0
    ensures var s := StandingOf(t, world, log, n);
            var (woken, step) := (Woken(t, world, log, n), s.ended + Ms(StepMs(s.rung)));
            && s.rung < 5 && s.ended < woken <= step && woken <= t.budgetStarted + t.limit
            && (!s.late && s.ended < t.start + t.grace ==> woken <= t.start + t.grace)
            && (woken == step || woken == t.budgetStarted + t.limit || (!s.late && s.ended < t.start + t.grace && woken == t.start + t.grace))
  {
    var s := StandingOf(t, world, log, n);
    assert LADDER[s.rung] == Ms(StepMs(s.rung));
  }

  /** The ladder is climbed one step a poll, up to the last, from the start and again from
      the hand-off. */
  lemma {:induction false} RungIs(t: Terms, world: nat -> Round, log: seq<Event>, since: nat, n: nat)
    requires since <= n <= |log| && (since == 0 || log[since - 1].HandedOff?)
    requires forall i :: since <= i < n ==> !log[i].HandedOff?
    ensures PollsOf(log, since) <= PollsOf(log, n)
    ensures StandingOf(t, world, log, n).rung == Min(PollsOf(log, n) - PollsOf(log, since), 4)
    decreases n
  {
    if since < n {
      RungIs(t, world, log, since, n - 1);
    }
  }

  // ---- The end of grace --------------------------------------------------------------

  /** Poll i is the first made at or after the end of grace. */
  predicate FirstLate(t: Terms, log: seq<Event>, i: nat) {
    && i < |log| && log[i].Polled? && t.start + t.grace <= log[i].at
    && forall j :: 0 <= j < i && log[j].Polled? ==> log[j].at < t.start + t.grace
  }

  /** One poll moves the standing on by itself. */
  lemma PollStanding(t: Terms, world: nat -> Round, log: seq<Event>, n: nat)
    requires n < |log| && log[n].Polled?
    ensures var s := StandingOf(t, world, log, n);
            && PollsOf(log, n + 1) == PollsOf(log, n) + 1
            && StandingOf(t, world, log, n + 1)
               == s.(rung := Min(s.rung + 1, 4), late := s.late || t.start + t.grace <= log[n].at, ended := log[n].at)
  {
  }

  lemma EarlyPollAlone(t: Terms, world: nat -> Round, log: seq<Event>, p: nat)
    requires p + 1 < |log| && log[p].Polled? && FollowedUp(t, world, log, p)
    requires !StandingOf(t, world, log, p).late && log[p].at < t.start + t.grace
    ensures log[p + 1].Polled?
  {
    assert AfterPoll(t, world, log, p) == [];
  }

  /** After n polls and nothing else. */
  ghost predicate Polling(t: Terms, world: nat -> Round, log: seq<Event>, n: nat) {
    && n <= |log| && PollsOf(log, n) == n
    && StandingOf(t, world, log, n) == Standing(Min(n, 4), false, Unknown, None, if n == 0 then t.start else log[n - 1].at)
  }

  /** Before it there are only polls, one per round, each ending its round inside grace. */
  lemma {:induction false} OnlyPollsBefore(t: Terms, world: nat -> Round, log: seq<Event>, i: nat, n: nat)
    requires Played(t, world, log) && FirstLate(t, log, i) && n <= i && t.grace > 0
    ensures Polling(t, world, log, n) && log[n].Polled?
    ensures n > 0 ==> log[n - 1].Polled? && log[n - 1].at < t.start + t.grace
  {
    if n == 0 {
      StartsWithPoll(t, world, log);
    } else {
      OnlyPollsBefore(t, world, log, i, n - 1);
      PollStanding(t, world, log, n - 1);
      EarlyPollAlone(t, world, log, n - 1);
    }
  }

  /** The end of grace is met, not overslept: when nothing overruns, the first poll at or past
      it begins no later than that very instant, and exactly then if a whole step would lead
      past it and the budget does not end before; so it is over a probe limit of 250 ms later,
      and the inspection that follows it another 500 ms later, at the latest. */
  lemma GraceIsMet(t: Terms, world: nat -> Round, log: seq<Event>, i: nat)
    requires Played(t, world, log) && FirstLate(t, log, i) && t.grace > 0 && Undisturbed(world)
    ensures var s := StandingOf(t, world, log, i);
            var woken := Woken(t, world, log, i);
            && woken <= t.start + t.grace && log[i].at <= woken + Ms(250)
            && (t.start + t.grace <= s.ended + Ms(StepMs(i)) && t.start + t.grace < t.budgetStarted + t.limit ==> woken == t.start + t.grace)
            && (world(i).probing.needs == 0 ==> log[i].at == woken)
    ensures log[i].at <= t.start + t.grace + Ms(250)
    ensures i + 1 < |log| && log[i + 1].Inspected? && FollowedUp(t, world, log, i) ==> log[i + 1].at <= t.start + t.grace + Ms(750)
  {
    OnlyPollsBefore(t, world, log, i, i);
    PollMeetsGrace(t, world, log, i);
    if i + 1 < |log| && log[i + 1].Inspected? && FollowedUp(t, world, log, i) {
      InspectionFollows(t, world, log, i);
      assert Overrun(world(i)) == 0;
    }
  }

  lemma PollMeetsGrace(t: Terms, world: nat -> Round, log: seq<Event>, i: nat)
    requires i < |log| && OnTime(t, world, log, i) && Undisturbed(world)
    requires Polling(t, world, log, i) && StandingOf(t, world, log, i).ended < t.start + t.grace
    ensures var s := StandingOf(t, world, log, i);
            var woken := Woken(t, world, log, i);
            && woken <= t.start + t.grace && log[i].at <= woken + Ms(250)
            && (t.start + t.grace <= s.ended + Ms(StepMs(i)) && t.start + t.grace < t.budgetStarted + t.limit ==> woken == t.start + t.grace)
            && (world(i).probing.needs == 0 ==> log[i].at == woken)
  {
    assert Overrun(world(i)) == 0 && world(i).sleep.Slept?;
    SleepLength(t, world, log, i);
  }

  lemma InspectionFollows(t: Terms, world: nat -> Round, log: seq<Event>, i: nat)
    requires i + 1 < |log| && log[i + 1].Inspected? && FollowedUp(t, world, log, i)
    ensures log[i + 1].at <= log[i].at + Ms(500) + world(PollsOf(log, i)).inspecting.late
  {
    var tail := AfterPoll(t, world, log, i);
    if |tail| > 0 {
      assert log[i + 1] == tail[0];
    }
  }

  /** Exactly what follows the first poll past grace that did not get the card: with budget
      left an inspection, which takes what it needs up to 500 ms or the rest of the budget;
      and at its end a hand-off if and only if this process was holding the card neither at
      the start nor after any poll so far, scdaemon was not found stopped, budget is left and
      the reservation is granted. */
  lemma HandOffIff(t: Terms, world: nat -> Round, log: seq<Event>, i: nat)
    requires Played(t, world, log) && FirstLate(t, log, i) && t.grace > 0 && FollowedUp(t, world, log, i)
    requires log[i].at < t.budgetStarted + t.limit
    ensures var (round, left) := (world(i), t.budgetStarted + t.limit - log[i].at);
            var at := log[i].at + Min(round.inspecting.needs, Min(Ms(500), left)) + round.inspecting.late;
            && i + 1 < |log| && log[i + 1] == Inspected(at, round.scd)
            && ((i + 2 < |log| && log[i + 2].HandedOff?) <==>
                  && !t.selfAtStart && (forall k :: 0 <= k <= i ==> !world(k).selfHeld)
                  && round.scd != Stopped && at < t.budgetStarted + t.limit && round.reservation.Granted?)
            && (i + 2 < |log| && log[i + 2].HandedOff? ==> log[i + 2].at == at)
  {
    OnlyPollsBefore(t, world, log, i, i);
    FirstLateTail(t, world, log, i);
    assert NoHolderSeen(world, i + 1) <==> forall k :: 0 <= k <= i ==> !world(k).selfHeld;
    var tail := AfterPoll(t, world, log, i);
    assert log[i + 1] == tail[0];
    if |tail| == 2 {
      assert log[i + 2] == tail[1];
    }
  }

  lemma FirstLateTail(t: Terms, world: nat -> Round, log: seq<Event>, i: nat)
    requires i < |log| && PollsOf(log, i) == i && !StandingOf(t, world, log, i).late
    requires t.start + t.grace <= log[i].at < t.budgetStarted + t.limit
    ensures var (round, left) := (world(i), t.budgetStarted + t.limit - log[i].at);
            var at := log[i].at + Min(round.inspecting.needs, Min(Ms(500), left)) + round.inspecting.late;
            AfterPoll(t, world, log, i) ==
              if !t.selfAtStart && NoHolderSeen(world, i + 1)
                 && round.scd != Stopped && at < t.budgetStarted + t.limit && round.reservation.Granted?
              then [Inspected(at, round.scd), HandedOff(at)] else [Inspected(at, round.scd)]
  {
    var round := world(i);
    assert RoundOf(world, i + 1) == round;
    assert InspectedBy(t, round, log[i].at)
        == log[i].at + Min(round.inspecting.needs, Min(Ms(500), t.budgetStarted + t.limit - log[i].at)) + round.inspecting.late;
  }

  /** And no hand-off is made anywhere else: there is at most one, past grace and inside the
      budget, at the end of an inspection that did not find scdaemon stopped, with the
      reservation granted, and never after this process was seen holding the card. */
  lemma HandOffLaw(t: Terms, world: nat -> Round, log: seq<Event>, q: nat)
    requires LogOk(t, world, log) && q < |log| && log[q].HandedOff?
    ensures q > 1 && log[q - 1].Inspected? && log[q - 1].at == log[q].at && log[q - 1].state != Stopped
    ensures t.start + t.grace <= log[q].at < t.budgetStarted + t.limit
    ensures !t.selfAtStart && forall k :: 0 <= k < PollsOf(log, q) ==> !world(k).selfHeld
    ensures PollsOf(log, q) > 0 && world(PollsOf(log, q) - 1).reservation.Granted?
    ensures forall other :: 0 <= other < |log| && log[other].HandedOff? ==> other == q
  {
    assert Meant(t, world, log, q);
    assert Meant(t, world, log, q - 1);
    assert PollsOf(log, q - 1) > 0;
  }

  /** From then on scdaemon is inspected again exactly when this process's own session, seen
      after the poll before, has just gone and budget is left; and never asked. */
  lemma ReinspectedIff(t: Terms, world: nat -> Round, log: seq<Event>, i: nat)
    requires i < |log| && log[i].Polled? && FollowedUp(t, world, log, i)
    requires StandingOf(t, world, log, i).late && PollsOf(log, i) > 0
    ensures var (k, left) := (PollsOf(log, i), t.budgetStarted + t.limit - log[i].at);
            && ((i + 1 < |log| && !log[i + 1].Polled?) <==> world(k - 1).selfHeld && !world(k).selfHeld && 0 < left)
            && (i + 1 < |log| && !log[i + 1].Polled? ==>
                  log[i + 1] == Inspected(log[i].at + Min(world(k).inspecting.needs, Min(Ms(500), left)) + world(k).inspecting.late, world(k).scd))
  {
    var tail := AfterPoll(t, world, log, i);
    assert |tail| <= 1;
    if |tail| == 1 {
      assert log[i + 1] == tail[0];
    }
  }

  /** A probe takes what it needs up to 250 ms or the rest of the budget; a hand-off delays the
      next sleep by what it needs up to 500 ms or the rest; each plus what it overruns. */
  lemma CallsTake(t: Terms, world: nat -> Round, log: seq<Event>, i: nat)
    requires i < |log| && (log[i].Polled? ==> OnTime(t, world, log, i))
    ensures log[i].Polled? ==>
              var (round, from) := (world(PollsOf(log, i)), Woken(t, world, log, i));
              && 0 < t.budgetStarted + t.limit - from
              && log[i].at == from + Min(round.probing.needs, Min(Ms(250), t.budgetStarted + t.limit - from)) + round.probing.late
    ensures log[i].HandedOff? && PollsOf(log, i) > 0 && log[i].at < t.budgetStarted + t.limit ==>
              var handing := world(PollsOf(log, i) - 1).handing;
              StandingOf(t, world, log, i + 1).ended
              == log[i].at + Min(handing.needs, Min(Ms(500), t.budgetStarted + t.limit - log[i].at)) + handing.late
  {
    StandingByStep(t, world, log, i);
  }

  /** The grace of an episode is the configured one, or 500 ms. */
  lemma GraceIs(budgetStarted: Instant, limit: Duration, configured: Duration, start: Instant, selfAtStart: bool, initial: string)
    ensures var t := TermsOf(budgetStarted, limit, configured, start, selfAtStart, initial);
            && t.grace == (if configured > 0 then configured else Ms(500))
            && t.budgetStarted == budgetStarted && t.limit == limit && t.start == start && t.selfAtStart == selfAtStart && t.initial == initial
  {
  }

  // ---- The default schedule -----------------------------------------------------------

  /** Every call returns at once, nothing overruns, nobody gives up, and each probe launches
      one open and finds the card shared by a running scdaemon. */
  ghost predicate AtOnce(world: nat -> Round, reservation: Reservation) {
    && Undisturbed(world)
    && forall k {:trigger world(k)} ::
         && world(k).probing.needs == 0 && world(k).inspecting.needs == 0 && world(k).handing.needs == 0
         && world(k).probe == StillShared("busy") && world(k).launched == 1
         && !world(k).selfHeld && world(k).scd == Running && world(k).reservation == reservation
  }

  /** What the first n events amount to, the next one, if any, being a poll. */
  ghost predicate StandsAt(t: Terms, world: nat -> Round, log: seq<Event>, n: nat, polls: nat, s: Standing) {
    n <= |log| && PollsOf(log, n) == polls && StandingOf(t, world, log, n) == s && (n < |log| ==> log[n].Polled?)
  }

  /** An episode of the default budget to itself that failed. */
  ghost predicate Failed(t: Terms, world: nat -> Round, log: seq<Event>, end: Instant, reservation: Reservation) {
    && Whole(t) && !t.selfAtStart && AtOnce(world, reservation)
    && Played(t, world, log) && AllFollowedUp(t, world, log, |log|) && Stops(t, world, log, end)
  }

  /** While a whole step fits, another poll comes. */
  lemma AnotherPoll(t: Terms, world: nat -> Round, log: seq<Event>, end: Instant, reservation: Reservation,
                    n: nat, polls: nat, s: Standing)
    requires Failed(t, world, log, end, reservation) && StandsAt(t, world, log, n, polls, s) && s.rung < 5
    requires s.ended + Ms(StepMs(s.rung)) < t.start + Ms(2000)
    ensures n < |log| && OnTime(t, world, log, n)
  {
    assert LADDER[s.rung] == Ms(StepMs(s.rung));
    if n == |log| {
      NoStopWithRoom(t, world, log, end);
    }
  }

  lemma NextPoll(t: Terms, world: nat -> Round, log: seq<Event>, end: Instant, reservation: Reservation,
                 n: nat, polls: nat, s: Standing)
    requires Failed(t, world, log, end, reservation) && StandsAt(t, world, log, n, polls, s) && s.rung < 5
    requires t.start <= s.ended && s.ended + Ms(StepMs(s.rung)) < t.start + Ms(2000)
    ensures n < |log|
    ensures var wake := if !s.late && s.ended < t.start + Ms(500) then Min(s.ended + Ms(StepMs(s.rung)), t.start + Ms(500))
                        else s.ended + Ms(StepMs(s.rung));
            log[n] == Polled(wake) && PollsOf(log, n + 1) == polls + 1
            && StandingOf(t, world, log, n + 1) == s.(rung := Min(s.rung + 1, 4), late := s.late || t.start + Ms(500) <= wake, ended := wake)
  {
    AnotherPoll(t, world, log, end, reservation, n, polls, s);
    InstantPoll(t, world, log, n, polls, s);
    PollStanding(t, world, log, n);
  }

  /** A punctual poll that returns at once is made when its sleep is over. */
  lemma InstantPoll(t: Terms, world: nat -> Round, log: seq<Event>, n: nat, polls: nat, s: Standing)
    requires n < |log| && OnTime(t, world, log, n) && PollsOf(log, n) == polls && StandingOf(t, world, log, n) == s && s.rung < 5
    requires Overrun(world(polls)) == 0 && world(polls).probing.needs == 0 && Whole(t)
    requires t.start <= s.ended && s.ended + Ms(StepMs(s.rung)) < t.start + Ms(2000)
    ensures log[n] == Polled(if !s.late && s.ended < t.start + Ms(500) then Min(s.ended + Ms(StepMs(s.rung)), t.start + Ms(500))
                             else s.ended + Ms(StepMs(s.rung)))
  {
    SleepLength(t, world, log, n);
  }

  /** A poll inside grace is followed by the next one. */
  lemma EarlyPoll(t: Terms, world: nat -> Round, log: seq<Event>, end: Instant, reservation: Reservation,
                  n: nat, polls: nat, rung: nat, ended: Instant, wake: Instant)
    requires Failed(t, world, log, end, reservation) && rung < 4
    requires StandsAt(t, world, log, n, polls, Standing(rung, false, Unknown, None, ended))
    requires t.start <= ended && wake == ended + Ms(StepMs(rung)) < t.start + Ms(500)
    ensures n < |log| && log[n] == Polled(wake)
    ensures StandsAt(t, world, log, n + 1, polls + 1, Standing(rung + 1, false, Unknown, None, wake))
  {
    NextPoll(t, world, log, end, reservation, n, polls, Standing(rung, false, Unknown, None, ended));
    if n + 1 < |log| {
      EarlyPollAlone(t, world, log, n);
    }
  }

  /** A poll past grace after the hand-off too, as this process never held the card. */
  lemma LatePoll(t: Terms, world: nat -> Round, log: seq<Event>, end: Instant, reservation: Reservation,
                 n: nat, polls: nat, s: Standing, wake: Instant)
    requires Failed(t, world, log, end, reservation) && s.rung < 5 && s.late && StandsAt(t, world, log, n, polls, s)
    requires t.start <= s.ended && wake == s.ended + Ms(StepMs(s.rung)) < t.start + Ms(2000)
    ensures n < |log| && log[n] == Polled(wake)
    ensures StandsAt(t, world, log, n + 1, polls + 1, s.(rung := Min(s.rung + 1, 4), ended := wake))
  {
    NextPoll(t, world, log, end, reservation, n, polls, s);
    assert FollowedUp(t, world, log, n);
    assert !HeldBefore(t, world, polls);
  }

  /** The first three polls and the fourth at the end of grace; z is zero. */
  lemma UpToGrace(t: Terms, world: nat -> Round, log: seq<Event>, end: Instant, reservation: Reservation, z: nat)
    requires Failed(t, world, log, end, reservation) && z == 0
    ensures |log| > z + 3 && log[z] == Polled(t.start + Ms(50)) && log[z + 1] == Polled(t.start + Ms(150))
    ensures log[z + 2] == Polled(t.start + Ms(350)) && log[z + 3] == Polled(t.start + Ms(500))
    ensures PollsOf(log, z + 3) == 3 && !StandingOf(t, world, log, z + 3).late && PollsOf(log, z + 4) == 4
    ensures StandingOf(t, world, log, z + 4) == Standing(4, true, Unknown, None, t.start + Ms(500))
  {
    AtTheStart(t, world, log, z);
    EarlyPoll(t, world, log, end, reservation, z, 0, 0, t.start, t.start + Ms(50));
    EarlyPoll(t, world, log, end, reservation, z + 1, 1, 1, t.start + Ms(50), t.start + Ms(150));
    EarlyPoll(t, world, log, end, reservation, z + 2, 2, 2, t.start + Ms(150), t.start + Ms(350));
    NextPoll(t, world, log, end, reservation, z + 3, 3, Standing(3, false, Unknown, None, t.start + Ms(350)));
  }

  lemma AtTheStart(t: Terms, world: nat -> Round, log: seq<Event>, z: nat)
    requires Played(t, world, log) && z == 0
    ensures StandsAt(t, world, log, z, 0, Standing(0, false, Unknown, None, t.start))
  {
    if log != [] {
      StartsWithPoll(t, world, log);
    }
  }

  /** Only the end of the budget is left when no whole step fits: the last sleep runs into it. */
  lemma LastSleep(t: Terms, world: nat -> Round, log: seq<Event>, end: Instant, reservation: Reservation,
                  n: nat, polls: nat, s: Standing)
    requires Failed(t, world, log, end, reservation) && StandsAt(t, world, log, n, polls, s) && s.rung < 5 && s.late
    requires t.start <= s.ended < t.start + Ms(2000) <= s.ended + Ms(StepMs(s.rung))
    ensures |log| == n && end == t.start + Ms(2000)
  {
    assert n < |log| ==> OnTime(t, world, log, n);
    assert world(polls).sleep == Slept(0) by {
      assert Overrun(world(polls)) == 0;
    }
    SleepLength(t, world, log, n);
  }

  /** After the hand-off: the ladder from its foot, four times, and then the budget is over. */
  lemma AfterHandOff(t: Terms, world: nat -> Round, log: seq<Event>, end: Instant, reservation: Reservation, n: nat)
    requires Failed(t, world, log, end, reservation)
    requires StandsAt(t, world, log, n, 4, Standing(0, true, Running, None, t.start + Ms(500)))
    ensures |log| == n + 4 && end == t.start + Ms(2000) && Polls(log) == 8
    ensures log[n] == Polled(t.start + Ms(550)) && log[n + 1] == Polled(t.start + Ms(650))
    ensures log[n + 2] == Polled(t.start + Ms(850)) && log[n + 3] == Polled(t.start + Ms(1250))
    ensures StandingOf(t, world, log, |log|) == Standing(4, true, Running, None, t.start + Ms(1250))
  {
    var s := Standing(0, true, Running, None, t.start + Ms(500));
    LatePoll(t, world, log, end, reservation, n, 4, s, t.start + Ms(550));
    LatePoll(t, world, log, end, reservation, n + 1, 5, s.(rung := 1, ended := t.start + Ms(550)), t.start + Ms(650));
    LatePoll(t, world, log, end, reservation, n + 2, 6, s.(rung := 2, ended := t.start + Ms(650)), t.start + Ms(850));
    LatePoll(t, world, log, end, reservation, n + 3, 7, s.(rung := 3, ended := t.start + Ms(850)), t.start + Ms(1250));
    LastSleep(t, world, log, end, reservation, n + 4, 8, s.(rung := 4, ended := t.start + Ms(1250)));
  }

  lemma LookStanding(t: Terms, world: nat -> Round, log: seq<Event>, n: nat, k: nat, s: Standing)
    requires n < |log| && log[n].Inspected? && PollsOf(log, n) == k && StandingOf(t, world, log, n) == s
    requires RoundOf(world, k).reservation.Granted?
    ensures PollsOf(log, n + 1) == k && StandingOf(t, world, log, n + 1) == s.(seen := log[n].state, ended := log[n].at)
  {
  }

  lemma AskStanding(t: Terms, world: nat -> Round, log: seq<Event>, n: nat, k: nat, s: Standing)
    requires n < |log| && log[n].HandedOff? && PollsOf(log, n) == k && StandingOf(t, world, log, n) == s
    requires RoundOf(world, k).handing.needs == 0 && RoundOf(world, k).handing.late == 0
    ensures PollsOf(log, n + 1) == k && StandingOf(t, world, log, n + 1) == s.(rung := 0, ended := log[n].at)
  {
    StandingByStep(t, world, log, n);
    AskEndsAtOnce(t, world, k, s, log[n].at);
    assert log[n] == HandedOff(log[n].at);
  }

  lemma AskEndsAtOnce(t: Terms, world: nat -> Round, k: nat, s: Standing, at: Instant)
    requires RoundOf(world, k).handing.needs == 0 && RoundOf(world, k).handing.late == 0
    ensures Then(t, world, k, s, HandedOff(at)) == s.(rung := 0, ended := at)
  {
    HandOffTakesNoTime(t, RoundOf(world, k), at);
    AskEndsAt(t, world, k, s, at, at);
  }

  lemma AskEndsAt(t: Terms, world: nat -> Round, k: nat, s: Standing, at: Instant, ended: Instant)
    requires ended == at + Took(RoundOf(world, k).handing, Min(HANDOFF_LIMIT, t.Left(at)))
    ensures Then(t, world, k, s, HandedOff(at)) == s.(rung := 0, ended := ended)
  {
  }

  lemma HandOffTakesNoTime(t: Terms, round: Round, at: Instant)
    requires round.handing.needs == 0 && round.handing.late == 0
    ensures Took(round.handing, Min(HANDOFF_LIMIT, t.Left(at))) == 0
  {
  }

  lemma StandingByStep(t: Terms, world: nat -> Round, log: seq<Event>, n: nat)
    requires n < |log|
    ensures StandingOf(t, world, log, n + 1) == Then(t, world, PollsOf(log, n + 1), StandingOf(t, world, log, n), log[n])
    ensures PollsOf(log, n + 1) == PollsOf(log, n) + if log[n].Polled? then 1 else 0
  {
  }

  lemma TailAtGrace(t: Terms, world: nat -> Round, log: seq<Event>, n: nat, at: Instant)
    requires Whole(t) && !t.selfAtStart && AtOnce(world, Granted) && n < |log| && log[n] == Polled(at) && FollowedUp(t, world, log, n)
    requires PollsOf(log, n) == n && !StandingOf(t, world, log, n).late && at == t.start + Ms(500)
    ensures |log| > n + 2 && log[n + 1] == Inspected(at, Running) && log[n + 2] == HandedOff(at)
    ensures n + 3 < |log| ==> log[n + 3].Polled?
  {
    FirstLateTail(t, world, log, n);
    assert Overrun(world(n)) == 0 && world(n).scd == Running;
    TwoFollow(t, world, log, n, AfterPoll(t, world, log, n));
  }

  lemma TwoFollow(t: Terms, world: nat -> Round, log: seq<Event>, n: nat, tail: seq<Event>)
    requires n < |log| && FollowedUp(t, world, log, n) && AfterPoll(t, world, log, n) == tail && |tail| == 2
    ensures |log| > n + 2 && log[n + 1] == tail[0] && log[n + 2] == tail[1]
    ensures n + 3 < |log| ==> log[n + 3].Polled?
  {
    assert log[n + 1 + 0] == tail[0] && log[n + 1 + 1] == tail[1];
  }

  /** What follows the fourth poll when the reservation is granted. */
  lemma AsksAtGrace(t: Terms, world: nat -> Round, log: seq<Event>, end: Instant, n: nat)
    requires Failed(t, world, log, end, Granted) && n == 3 && n < |log| && log[n] == Polled(t.start + Ms(500))
    requires PollsOf(log, n) == 3 && !StandingOf(t, world, log, n).late && PollsOf(log, n + 1) == 4
    requires StandingOf(t, world, log, n + 1) == Standing(4, true, Unknown, None, t.start + Ms(500))
    ensures |log| > n + 2 && log[n + 1] == Inspected(t.start + Ms(500), Running) && log[n + 2] == HandedOff(t.start + Ms(500))
    ensures StandsAt(t, world, log, n + 3, 4, Standing(0, true, Running, None, t.start + Ms(500)))
  {
    assert FollowedUp(t, world, log, n);
    TailAtGrace(t, world, log, n, t.start + Ms(500));
    assert Overrun(world(n)) == 0 && world(n).handing.needs == 0 && RoundOf(world, 4) == world(n);
    LookStanding(t, world, log, n + 1, 4, Standing(4, true, Unknown, None, t.start + Ms(500)));
    AskStanding(t, world, log, n + 2, 4, Standing(4, true, Running, None, t.start + Ms(500)));
  }

  /** The events of the default schedule, one by one; z is zero. */
  lemma EventByEvent(t: Terms, world: nat -> Round, log: seq<Event>, end: Instant, z: nat)
    requires Failed(t, world, log, end, Granted) && z == 0
    ensures |log| == z + 10 && end == t.start + Ms(2000) && Polls(log) == 8
    ensures log[z] == Polled(t.start + Ms(50)) && log[z + 1] == Polled(t.start + Ms(150))
    ensures log[z + 2] == Polled(t.start + Ms(350)) && log[z + 3] == Polled(t.start + Ms(500))
    ensures log[z + 4] == Inspected(t.start + Ms(500), Running) && log[z + 5] == HandedOff(t.start + Ms(500))
    ensures log[z + 6] == Polled(t.start + Ms(550)) && log[z + 7] == Polled(t.start + Ms(650))
    ensures log[z + 8] == Polled(t.start + Ms(850)) && log[z + 9] == Polled(t.start + Ms(1250))
    ensures StandingOf(t, world, log, |log|) == Standing(4, true, Running, None, t.start + Ms(1250))
  {
    UpToGrace(t, world, log, end, Granted, z);
    AsksAtGrace(t, world, log, end, z + 3);
    AfterHandOff(t, world, log, end, Granted, z + 6);
  }

  /** The whole default schedule, for calls that return at once and a card that stays shared:
      polls 50, 150, 350 and 500 ms in; at 500 ms, the end of grace, the inspection and the
      hand-off; then 50, 150, 350 and 750 ms after that; and at 2 s the report. */
  lemma DefaultSchedule(t: Terms, world: nat -> Round, log: seq<Event>, end: Instant, c: Contention)
    requires Whole(t) && !t.selfAtStart && AtOnce(world, Granted) && Ends(t, world, log, end, Exhausted(c))
    ensures log == [Polled(t.start + Ms(50)), Polled(t.start + Ms(150)), Polled(t.start + Ms(350)), Polled(t.start + Ms(500)),
                    Inspected(t.start + Ms(500), Running), HandedOff(t.start + Ms(500)),
                    Polled(t.start + Ms(550)), Polled(t.start + Ms(650)), Polled(t.start + Ms(850)), Polled(t.start + Ms(1250))]
    ensures end == t.start + Ms(2000) && c == Contention("busy", 9, 8, Running, true, false, 0)
  {
    EndsPlayed(t, world, log, end, Exhausted(c));
    EventByEvent(t, world, log, end, 0);
    InstantReport(t, world, log, end, c);
  }

  lemma InstantReport(t: Terms, world: nat -> Round, log: seq<Event>, end: Instant, c: Contention)
    requires !t.selfAtStart && AtOnce(world, Granted) && Reported(t, world, log, end, c) && Polls(log) > 0
    requires StandingOf(t, world, log, |log|).seen == Running && StandingOf(t, world, log, |log|).refusedUntil == None
    requires |log| > 5 && log[5].HandedOff?
    ensures c == Contention("busy", 1 + Polls(log), Polls(log), Running, true, false, 0)
  {
    Opens(world, Polls(log));
    assert world(Polls(log) - 1).probe == StillShared("busy");
    assert world(Polls(log)).sleep.Slept?;
    assert NoHolderSeen(world, Polls(log));
    assert HandedOffIn(log);
  }

  /** What follows the fourth poll when the reservation is refused. */
  lemma RefusedAtGrace(t: Terms, world: nat -> Round, log: seq<Event>, end: Instant, n: nat, retryAfter: Duration)
    requires Failed(t, world, log, end, CoolingDown(retryAfter)) && n == 3 && n < |log| && log[n] == Polled(t.start + Ms(500))
    requires PollsOf(log, n) == 3 && !StandingOf(t, world, log, n).late && PollsOf(log, n + 1) == 4
    requires StandingOf(t, world, log, n + 1) == Standing(4, true, Unknown, None, t.start + Ms(500))
    ensures |log| > n + 1 && log[n + 1] == Inspected(t.start + Ms(500), Running)
    ensures StandsAt(t, world, log, n + 2, 4, Standing(4, true, Running, Some(t.start + Ms(500) + retryAfter), t.start + Ms(500)))
  {
    assert FollowedUp(t, world, log, n);
    OneAtGrace(t, world, log, n, t.start + Ms(500), retryAfter);
    assert RoundOf(world, 4) == world(n) && world(n).scd == Running && world(n).reservation == CoolingDown(retryAfter);
    assert NoHolderSeen(world, n + 1);
    StandingByStep(t, world, log, n + 1);
    RefusalIsNoted(t, world, n + 1, Standing(4, true, Unknown, None, t.start + Ms(500)), t.start + Ms(500));
  }

  lemma OneAtGrace(t: Terms, world: nat -> Round, log: seq<Event>, n: nat, at: Instant, retryAfter: Duration)
    requires Whole(t) && AtOnce(world, CoolingDown(retryAfter)) && n < |log| && log[n] == Polled(at) && FollowedUp(t, world, log, n)
    requires PollsOf(log, n) == n && !StandingOf(t, world, log, n).late && at == t.start + Ms(500)
    ensures |log| > n + 1 && log[n + 1] == Inspected(at, Running) && (n + 2 < |log| ==> log[n + 2].Polled?)
  {
    FirstLateTail(t, world, log, n);
    assert Overrun(world(n)) == 0 && world(n).scd == Running && world(n).reservation == CoolingDown(retryAfter);
    OneFollows(t, world, log, n, AfterPoll(t, world, log, n));
  }

  lemma OneFollows(t: Terms, world: nat -> Round, log: seq<Event>, n: nat, tail: seq<Event>)
    requires n < |log| && FollowedUp(t, world, log, n) && AfterPoll(t, world, log, n) == tail && |tail| == 1
    ensures |log| > n + 1 && log[n + 1] == tail[0] && (n + 2 < |log| ==> log[n + 2].Polled?)
  {
    assert log[n + 1 + 0] == tail[0];
  }

  /** An inspection after which a hand-off would be due leaves, if refused, the cooldown. */
  lemma RefusalIsNoted(t: Terms, world: nat -> Round, k: nat, s: Standing, at: Instant)
    requires !t.selfAtStart && NoHolderSeen(world, k) && RoundOf(world, k).scd == Running && t.Left(at) > 0
    requires RoundOf(world, k).reservation.CoolingDown?
    ensures Then(t, world, k, s, Inspected(at, Running))
         == s.(seen := Running, ended := at, refusedUntil := Some(at + RoundOf(world, k).reservation.retryAfter))
  {
    assert MayAsk(t, world, k, at);
  }

  /** The same schedule when the hand-off is refused: the ladder is not restarted, one more
      poll fits, and the report says how much of the cooldown is left. */
  lemma RefusedSchedule(t: Terms, world: nat -> Round, log: seq<Event>, end: Instant, c: Contention, retryAfter: Duration, z: nat)
    requires Whole(t) && !t.selfAtStart && AtOnce(world, CoolingDown(retryAfter)) && Ends(t, world, log, end, Exhausted(c)) && z == 0
    ensures |log| == z + 6 && log[z + 3] == Polled(t.start + Ms(500)) && log[z + 4] == Inspected(t.start + Ms(500), Running)
    ensures log[z + 5] == Polled(t.start + Ms(1300)) && end == t.start + Ms(2000)
    ensures c.probeWaits == 5 && !c.handoffAttempted && c.state == Running
    ensures c.cooldownRemaining == if retryAfter > Ms(1500) then retryAfter - Ms(1500) else 0
  {
    var cooling := CoolingDown(retryAfter);
    EndsPlayed(t, world, log, end, Exhausted(c));
    UpToGrace(t, world, log, end, cooling, z);
    RefusedAtGrace(t, world, log, end, z + 3, retryAfter);
    var s := Standing(4, true, Running, Some(t.start + Ms(500) + retryAfter), t.start + Ms(500));
    LatePoll(t, world, log, end, cooling, z + 5, 4, s, t.start + Ms(1300));
    LastSleep(t, world, log, end, cooling, z + 6, 5, s.(ended := t.start + Ms(1300)));
    NoneHandedOff(log);
  }

  lemma NoneHandedOff(log: seq<Event>)
    requires |log| == 6 && log[0].Polled? && log[1].Polled? && log[2].Polled? && log[3].Polled? && log[4].Inspected? && log[5].Polled?
    ensures !HandedOffIn(log)
  {
  }

  lemma {:induction false} Opens(world: nat -> Round, n: nat)
    requires forall k {:trigger world(k)} :: world(k).launched == 1
    ensures OpensBy(world, n) == n
  {
    if n > 0 {
      Opens(world, n - 1);
    }
  }
}
