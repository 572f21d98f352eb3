/** Recovery from a shared smart card: bounded polling with at most one hand-off, inside one
    budget that a whole signing operation shares.

    The outside world is a parameter: what happens in the n-th round of polling, and how
    long each timed call needs. A call granted a limit takes what it needs up to that limit,
    plus whatever it is late in returning. */
module Recovery {
  import opened Basics

  const DEFAULT_GRACE: Duration := 500_000_000
  const DEFAULT_LIMIT: Duration := 2_000_000_000
  const PROBE_OPEN_LIMIT: Duration := 250_000_000
  const INSPECT_LIMIT: Duration := 500_000_000
  const HANDOFF_LIMIT: Duration := 500_000_000
  const DIAGNOSTIC_SCAN_LIMIT: Duration := 250_000_000
  const LADDER: seq<Duration> := [50_000_000, 100_000_000, 200_000_000, 400_000_000, 800_000_000]

  /** What the sleep of a caller that has given up reports. */
  const INTERRUPTED := "context done"

  datatype ScdState = Running | Stopped | Unknown

  /** Sleeping takes at least the delay asked for, unless the caller gives up meanwhile. */
  datatype Sleep = Slept(late: nat) | Interrupted(after: nat)

  datatype Timing = Timing(needs: nat, late: nat)

  datatype ProbeResult = Acquired(card: nat, serial: nat) | StillShared(error: string)

  datatype Reservation = Granted | CoolingDown(retryAfter: Duration)

  /** What the world answers in one round; a round consults only the parts it reaches. */
  datatype Round = Round(
    cancelled: bool, sleep: Sleep,
    probe: ProbeResult, launched: nat, probing: Timing, selfHeld: bool,
    scd: ScdState, inspecting: Timing,
    reservation: Reservation, handing: Timing)

  datatype Event = Polled(at: Instant) | Inspected(at: Instant, state: ScdState) | HandedOff(at: Instant)

  datatype Contention = Contention(
    final: string, attempts: nat, probeWaits: nat, state: ScdState,
    handoffAttempted: bool, everSelfHeld: bool, cooldownRemaining: Duration)

  datatype Outcome = Recovered(card: nat, serial: nat) | Exhausted(contention: Contention)

  function Remaining(limit: Duration, started: Instant, now: Instant): Duration {
    if limit - (now - started) < 0 then 0 else limit - (now - started)
  }

  function Took(t: Timing, granted: Duration): Duration {
    Min(t.needs, granted) + t.late
  }

  // ---- What the first rounds of the world amount to ------------------------------

  /** How far the calls of one round overrun what they were granted. */
  function Overrun(r: Round): nat {
    (if r.sleep.Slept? then r.sleep.late else 0) + r.probing.late + r.inspecting.late + r.handing.late
  }

  function LateBy(world: nat -> Round, n: nat): nat {
    if n == 0 then 0 else LateBy(world, n - 1) + Overrun(world(n - 1))
  }

  function OpensBy(world: nat -> Round, n: nat): nat {
    if n == 0 then 0 else OpensBy(world, n - 1) + world(n - 1).launched
  }

  predicate NoHolderSeen(world: nat -> Round, n: nat) {
    forall k :: 0 <= k < n ==> !world(k).selfHeld
  }

  predicate AllShared(world: nat -> Round, n: nat) {
    forall k :: 0 <= k < n ==> world(k).probe.StillShared?
  }

  /** Calls that keep their limits add nothing. */
  lemma {:induction false} PunctualWorld(world: nat -> Round, n: nat)
    requires forall k :: Overrun(world(k)) == 0
    ensures LateBy(world, n) == 0
  {
    if n > 0 {
      PunctualWorld(world, n - 1);
    }
  }

  // ---- The polling ladder --------------------------------------------------------

  /** Time that must have passed since polling started once this many polls were made with
      no hand-off: the sums of the ladder, with the step that would overshoot the default
      grace shortened to it. */
  function ElapsedFor(polls: nat): Duration {
    if polls == 0 then 0 else if polls == 1 then 50_000_000 else if polls == 2 then 150_000_000
    else if polls == 3 then 350_000_000 else if polls == 4 then 500_000_000
    else if polls == 5 then 1_300_000_000 else 2_100_000_000
  }

  /** The same after a hand-off, which restarts the ladder at the grace deadline. */
  function ElapsedSince(polls: nat): Duration {
    if polls == 0 then 500_000_000 else if polls == 1 then 550_000_000 else if polls == 2 then 650_000_000
    else if polls == 3 then 850_000_000 else if polls == 4 then 1_250_000_000 else 2_050_000_000
  }

  /** How far polling has come at the default grace: total polls, of which some before the
      hand-off, where the ladder stands and how much time that must have cost. */
  ghost predicate Paced(polls: nat, before: nat, handedOff: bool, inspected: bool, delayIndex: nat, elapsed: Duration) {
    && (inspected <==> elapsed >= DEFAULT_GRACE)
    && if handedOff then
         && inspected && before <= 4 && before <= polls
         && delayIndex == Min(polls - before, 4) && ElapsedSince(polls - before) <= elapsed
       else
         delayIndex == Min(polls, 4) && ElapsedFor(polls) <= elapsed
  }

  /** The delay of one round, clipped so as not to overshoot the grace deadline before the
      inspection, nor the budget. */
  function Delay(delayIndex: nat, inspected: bool, toGrace: Duration, remaining: Duration): Duration
    requires delayIndex < |LADDER|
  {
    Min(if !inspected && 0 < toGrace < LADDER[delayIndex] then toGrace else LADDER[delayIndex], remaining)
  }

  function NextIndex(delayIndex: nat): nat {
    if delayIndex < |LADDER| - 1 then delayIndex + 1 else delayIndex
  }

  /** A poll made inside the budget after sleeping the delay moves the pace on by one, to no
      more than four before the inspection and eight in all. */
  lemma PollKeepsPace(polls: nat, before: nat, handedOff: bool, inspected: bool, delayIndex: nat, elapsed: Duration,
                      remaining: Duration, polledAt: Duration)
    requires Paced(polls, before, handedOff, inspected, delayIndex, elapsed) && delayIndex < |LADDER|
    requires 0 <= elapsed && 0 < remaining <= DEFAULT_LIMIT - elapsed
    requires elapsed + Delay(delayIndex, inspected, DEFAULT_GRACE - elapsed, remaining) <= polledAt < elapsed + remaining
    ensures polls + 1 <= 8 && (!inspected ==> polls + 1 <= 4)
    ensures NextIndex(delayIndex) == Min(if handedOff then polls + 1 - before else polls + 1, 4)
    ensures if handedOff then ElapsedSince(polls + 1 - before) <= polledAt else ElapsedFor(polls + 1) <= polledAt
  {
  }

  // ---- One episode ----------------------------------------------------------------

  /** What stays fixed during one episode; the budget may have started running earlier. */
  datatype Terms = Terms(
    budgetStarted: Instant, limit: Duration, grace: Duration, start: Instant, selfAtStart: bool, initial: string)
  {
    function Deadline(): Instant {
      budgetStarted + limit
    }

    function GraceDeadline(): Instant {
      start + grace
    }

    function Left(now: Instant): Duration {
      Remaining(limit, budgetStarted, now)
    }

    predicate Default() {
      limit <= DEFAULT_LIMIT && grace == DEFAULT_GRACE
    }
  }

  function PollsOf(log: seq<Event>, n: nat): nat
    requires n <= |log|
  {
    if n == 0 then 0 else PollsOf(log, n - 1) + if log[n - 1].Polled? then 1 else 0
  }

  function Polls(log: seq<Event>): nat {
    PollsOf(log, |log|)
  }

  predicate HandedOffIn(log: seq<Event>) {
    exists i :: 0 <= i < |log| && log[i].HandedOff?
  }

  /** When the inspection of a round that begins at now is over. */
  function InspectedBy(t: Terms, round: Round, now: Instant): Instant {
    now + Took(round.inspecting, Min(INSPECT_LIMIT, t.Left(now)))
  }

  /** The round of the k-th poll. */
  function RoundOf(world: nat -> Round, k: nat): Round {
    world(if k == 0 then 0 else k - 1)
  }

  /** After k polls nothing speaks against asking scdaemon to let go at that instant: neither
      at the start nor after any poll was this process holding the card, scdaemon was not
      found stopped, and budget is left. */
  predicate MayAsk(t: Terms, world: nat -> Round, k: nat, at: Instant) {
    !t.selfAtStart && NoHolderSeen(world, k) && RoundOf(world, k).scd != Stopped && t.Left(at) > 0
  }

  /** What event i means, in terms of what the world showed: an inspection reports what the
      round of the last poll says of scdaemon; a hand-off follows such an inspection at once,
      made after grace, when nothing speaks against it and the reservation is granted. */
  ghost predicate Meant(t: Terms, world: nat -> Round, log: seq<Event>, i: nat)
    requires i < |log|
  {
    var k := PollsOf(log, i);
    match log[i]
    case Polled(_) => true
    case Inspected(_, state) => k > 0 && state == world(k - 1).scd
    case HandedOff(at) =>
      && k > 0 && i > 0 && log[i - 1] == Inspected(at, world(k - 1).scd)
      && t.GraceDeadline() <= at && MayAsk(t, world, k, at) && world(k - 1).reservation.Granted?
  }

  ghost predicate LogOk(t: Terms, world: nat -> Round, log: seq<Event>) {
    && (forall i :: 0 <= i < |log| ==> Meant(t, world, log, i))
    && (forall i, j :: 0 <= i < j < |log| ==> log[i].at <= log[j].at)
    && (forall i, j :: 0 <= i < j < |log| ==> !(log[i].HandedOff? && log[j].HandedOff?))
  }

  // ---- What a log says of the loop -------------------------------------------------

  /** Where an episode stands, as far as its log tells: the rung of the ladder it is on,
      whether a poll has come after grace, what was last seen of scdaemon, until when
      hand-offs are refused, and when the last round ended. */
  datatype Standing = Standing(rung: nat, late: bool, seen: ScdState, refusedUntil: Option<Instant>, ended: Instant)

  /** One more event, the k-th poll being made. */
  function Then(t: Terms, world: nat -> Round, k: nat, s: Standing, e: Event): Standing {
    var round := RoundOf(world, k);
    match e
    case Polled(at) => s.(rung := NextIndex(s.rung), late := s.late || t.GraceDeadline() <= at, ended := at)
    case Inspected(at, state) =>
      s.(seen := state, ended := at,
         refusedUntil := if MayAsk(t, world, k, at) && round.reservation.CoolingDown?
                         then Some(at + round.reservation.retryAfter) else s.refusedUntil)
    case HandedOff(at) => s.(rung := 0, ended := at + Took(round.handing, Min(HANDOFF_LIMIT, t.Left(at))))
  }

  function StandingOf(t: Terms, world: nat -> Round, log: seq<Event>, n: nat): (s: Standing)
    requires n <= |log|
    ensures s.rung < |LADDER|
  {
    if n == 0 then Standing(0, false, Unknown, None, t.start)
    else Then(t, world, PollsOf(log, n), StandingOf(t, world, log, n - 1), log[n - 1])
  }

  /** When the sleep of a round that begins at now ends, and so its probe begins. */
  function Wakes(t: Terms, round: Round, now: Instant, rung: nat, late: bool): Instant
    requires rung < |LADDER|
  {
    var delay := Delay(rung, late, t.GraceDeadline() - now, t.Left(now));
    match round.sleep
    case Interrupted(after) => now + Min(after, delay)
    case Slept(over) => now + delay + over
  }

  function Woken(t: Terms, world: nat -> Round, log: seq<Event>, n: nat): Instant
    requires n <= |log|
  {
    var s := StandingOf(t, world, log, n);
    Wakes(t, world(PollsOf(log, n)), s.ended, s.rung, s.late)
  }

  function ProbedBy(t: Terms, round: Round, from: Instant): Instant {
    from + Took(round.probing, Min(PROBE_OPEN_LIMIT, t.Left(from)))
  }

  /** Poll i was made as the ladder demands: one delay after the last round ended, which
      left budget before and after it, and with nobody giving up. */
  predicate OnTime(t: Terms, world: nat -> Round, log: seq<Event>, i: nat)
    requires i < |log|
  {
    var (round, from) := (world(PollsOf(log, i)), Woken(t, world, log, i));
    && !round.cancelled && round.sleep.Slept?
    && t.Left(StandingOf(t, world, log, i).ended) > 0 && t.Left(from) > 0
    && log[i] == Polled(ProbedBy(t, round, from))
  }

  ghost predicate PollsOnTime(t: Terms, world: nat -> Round, log: seq<Event>) {
    forall i {:trigger OnTime(t, world, log, i)} :: 0 <= i < |log| && log[i].Polled? ==> OnTime(t, world, log, i)
  }

  predicate HeldBefore(t: Terms, world: nat -> Round, k: nat) {
    if k == 0 then t.selfAtStart else world(k - 1).selfHeld
  }

  /** What has to follow poll i, which did not get the card. The first poll after grace is
      followed by an inspection if any budget is left, and that by a hand-off exactly when
      nothing speaks against it and it is granted; later ones by an inspection exactly when
      this process's own session has just gone. */
  function AfterPoll(t: Terms, world: nat -> Round, log: seq<Event>, i: nat): seq<Event>
    requires i < |log|
  {
    var (k, now) := (PollsOf(log, i), log[i].at);
    var (round, at) := (world(k), InspectedBy(t, world(k), now));
    if t.Left(now) <= 0 then []
    else if StandingOf(t, world, log, i).late then
      if HeldBefore(t, world, k) && !round.selfHeld then [Inspected(at, round.scd)] else []
    else if now < t.GraceDeadline() then []
    else if MayAsk(t, world, k + 1, at) && round.reservation.Granted? then [Inspected(at, round.scd), HandedOff(at)]
    else [Inspected(at, round.scd)]
  }

  /** It did follow, and then the next poll or nothing. */
  predicate FollowedUp(t: Terms, world: nat -> Round, log: seq<Event>, i: nat)
    requires i < |log|
  {
    var tail := AfterPoll(t, world, log, i);
    && i + 1 + |tail| <= |log|
    && (forall q :: 0 <= q < |tail| ==> log[i + 1 + q] == tail[q])
    && (i + 1 + |tail| < |log| ==> log[i + 1 + |tail|].Polled?)
  }

  /** Of every poll among the first n events. */
  ghost predicate AllFollowedUp(t: Terms, world: nat -> Round, log: seq<Event>, n: nat)
    requires n <= |log|
  {
    forall i {:trigger FollowedUp(t, world, log, i)} :: 0 <= i < n && log[i].Polled? ==> FollowedUp(t, world, log, i)
  }

  /** Logs that agree so far say the same so far. */
  lemma {:induction false} SameSoFar(t: Terms, world: nat -> Round, a: seq<Event>, b: seq<Event>, n: nat)
    requires n <= |a| && n <= |b| && forall i :: 0 <= i < n ==> a[i] == b[i]
    ensures PollsOf(a, n) == PollsOf(b, n) && StandingOf(t, world, a, n) == StandingOf(t, world, b, n)
  {
    if n > 0 {
      SameSoFar(t, world, a, b, n - 1);
    }
  }

  lemma StandingOneMore(t: Terms, world: nat -> Round, log: seq<Event>, e: Event)
    ensures var more := log + [e];
            StandingOf(t, world, more, |more|) == Then(t, world, Polls(more), StandingOf(t, world, log, |log|), e)
  {
    SameSoFar(t, world, log, log + [e], |log|);
  }

  lemma {:induction false} PollsOfPrefix(log: seq<Event>, tail: seq<Event>, n: nat)
    requires n <= |log|
    ensures PollsOf(log + tail, n) == PollsOf(log, n)
  {
    if n > 0 {
      PollsOfPrefix(log, tail, n - 1);
    }
  }

  lemma PollsOfOneMore(log: seq<Event>, e: Event)
    ensures Polls(log + [e]) == Polls(log) + if e.Polled? then 1 else 0
  {
    PollsOfPrefix(log, [e], |log|);
  }

  lemma MeantStill(t: Terms, world: nat -> Round, log: seq<Event>, tail: seq<Event>, i: nat)
    requires i < |log| && Meant(t, world, log, i)
    ensures Meant(t, world, log + tail, i)
  {
    PollsOfPrefix(log, tail, i);
  }

  /** One more event that is not earlier, means what it should and is no second hand-off. */
  lemma Append(t: Terms, world: nat -> Round, log: seq<Event>, e: Event)
    requires LogOk(t, world, log) && (log != [] ==> log[|log| - 1].at <= e.at)
    requires Meant(t, world, log + [e], |log|)
    requires e.HandedOff? ==> !HandedOffIn(log)
    ensures LogOk(t, world, log + [e]) && Polls(log + [e]) == Polls(log) + if e.Polled? then 1 else 0
    ensures HandedOffIn(log + [e]) <==> HandedOffIn(log) || e.HandedOff?
  {
    var more := log + [e];
    PollsOfOneMore(log, e);
    forall i | 0 <= i < |more| ensures Meant(t, world, more, i) {
      if i < |log| {
        MeantStill(t, world, log, [e], i);
      }
    }
    assert e == more[|log|];
    if HandedOffIn(log) {
      var i :| 0 <= i < |log| && log[i].HandedOff?;
      assert more[i] == log[i];
    }
  }

  /** The variables of the polling loop; late sums how far calls overran and before counts
      the polls made up to the hand-off. */
  datatype Episode = Episode(
    now: Instant, late: nat, delayIndex: nat, attempts: nat, probeWaits: nat, before: nat,
    lastErr: string, state: ScdState, inspected: bool, handoffAttempted: bool,
    stickySelf: bool, lastSelfObserved: bool, cooldownUntil: Option<Instant>, log: seq<Event>)

  /** The counters and flags say what the first rounds of the world showed. */
  ghost predicate Tallied(t: Terms, world: nat -> Round, e: Episode) {
    && e.attempts == 1 + OpensBy(world, e.probeWaits)
    && (e.stickySelf <==> t.selfAtStart || !NoHolderSeen(world, e.probeWaits))
    && (e.lastSelfObserved <==> HeldBefore(t, world, e.probeWaits))
    && AllShared(world, e.probeWaits)
    && e.lastErr == if e.probeWaits == 0 then t.initial else world(e.probeWaits - 1).probe.error
  }

  /** And the log tells the rest. */
  ghost predicate Told(t: Terms, world: nat -> Round, e: Episode) {
    && e.probeWaits == Polls(e.log) && (e.handoffAttempted <==> HandedOffIn(e.log))
    && StandingOf(t, world, e.log, |e.log|) == Standing(e.delayIndex, e.inspected, e.state, e.cooldownUntil, e.now)
  }

  ghost predicate Logged(t: Terms, world: nat -> Round, e: Episode) {
    && LogOk(t, world, e.log)
    && (e.log != [] ==> e.log[|e.log| - 1].at <= e.now)
    && (e.handoffAttempted <==> HandedOffIn(e.log))
    && (e.handoffAttempted ==> e.inspected)
  }

  ghost predicate Timed(t: Terms, e: Episode) {
    t.start <= e.now <= t.Deadline() + e.late && e.delayIndex < |LADDER|
  }

  ghost predicate InPace(t: Terms, e: Episode) {
    t.Default() ==> e.probeWaits <= 8 && Paced(e.probeWaits, e.before, e.handoffAttempted, e.inspected, e.delayIndex, e.now - t.start)
  }

  // ---- The first half of a round ---------------------------------------------------

  datatype Turn = GaveUp | Got(card: nat, serial: nat) | Shared

  function WokenAt(t: Terms, round: Round, e: Episode): Instant
    requires e.delayIndex < |LADDER|
  {
    Wakes(t, round, e.now, e.delayIndex, e.inspected)
  }

  /** One poll was made: its place in the log and what it changed. */
  ghost predicate PolledOnce(t: Terms, round: Round, e: Episode, e': Episode)
    requires e.delayIndex < |LADDER|
  {
    && round.sleep.Slept?
    && var from := WokenAt(t, round, e);
    && from < e.now + t.Left(e.now)
    && e'.now == ProbedBy(t, round, from)
    && e'.late == e.late + round.sleep.late + round.probing.late
    && e'.log == e.log + [Polled(e'.now)]
    && e'.delayIndex == NextIndex(e.delayIndex)
    && e'.probeWaits == e.probeWaits + 1 && e'.attempts == e.attempts + round.launched
    && e'.before == e.before && e'.inspected == e.inspected && e'.handoffAttempted == e.handoffAttempted
    && e'.lastSelfObserved == e.lastSelfObserved && e'.cooldownUntil == e.cooldownUntil && e'.state == e.state
  }

  /** Sleeps, then makes one bounded probe. It gives up only when the sleep was interrupted
      or no budget is left after it. */
  method SleepAndPoll(t: Terms, round: Round, e: Episode) returns (e': Episode, turn: Turn)
    requires e.delayIndex < |LADDER| && t.Left(e.now) > 0
    ensures turn.GaveUp? <==> round.sleep.Interrupted? || t.Left(WokenAt(t, round, e)) <= 0
    ensures turn.GaveUp? ==>
              e' == e.(now := WokenAt(t, round, e), late := e.late + if round.sleep.Slept? then round.sleep.late else 0,
                       lastErr := if round.sleep.Slept? then e.lastErr else INTERRUPTED)
    ensures !turn.GaveUp? ==> PolledOnce(t, round, e, e')
    ensures turn.Got? ==> round.probe == Acquired(turn.card, turn.serial)
    ensures turn.Shared? ==>
              && round.probe.StillShared? && e'.lastErr == round.probe.error
              && e'.stickySelf == (e.stickySelf || round.selfHeld)
  {
    var delay := Delay(e.delayIndex, e.inspected, t.GraceDeadline() - e.now, t.Left(e.now));
    match round.sleep
    case Interrupted(after) =>
      e', turn := e.(now := e.now + Min(after, delay), lastErr := INTERRUPTED), GaveUp;
    case Slept(over) =>
      e' := e.(now := e.now + delay + over, late := e.late + over);
      var probeLimit := Min(PROBE_OPEN_LIMIT, t.Left(e'.now));
      if probeLimit <= 0 {
        turn := GaveUp;
      } else {
        e', turn := Poll(round, e', probeLimit);
      }
  }

  method Poll(round: Round, e: Episode, granted: Duration) returns (e': Episode, turn: Turn)
    requires e.delayIndex < |LADDER|
    ensures var doneAt := e.now + Took(round.probing, granted);
            e' == e.(now := doneAt, late := e.late + round.probing.late, delayIndex := NextIndex(e.delayIndex),
                     probeWaits := e.probeWaits + 1, attempts := e.attempts + round.launched, log := e.log + [Polled(doneAt)],
                     lastErr := e'.lastErr, stickySelf := e'.stickySelf)
    ensures !turn.GaveUp?
    ensures turn.Got? ==> round.probe == Acquired(turn.card, turn.serial)
    ensures turn.Shared? ==>
              && round.probe.StillShared? && e'.lastErr == round.probe.error
              && e'.stickySelf == (e.stickySelf || round.selfHeld)
  {
    var doneAt := e.now + Took(round.probing, granted);
    e' := e.(now := doneAt, late := e.late + round.probing.late, delayIndex := NextIndex(e.delayIndex),
             probeWaits := e.probeWaits + 1, attempts := e.attempts + round.launched, log := e.log + [Polled(doneAt)]);
    match round.probe
    case Acquired(card, serial) =>
      turn := Got(card, serial);
    case StillShared(error) =>
      e', turn := e'.(lastErr := error, stickySelf := e.stickySelf || round.selfHeld), Shared;
  }

  // ---- The second half of a round --------------------------------------------------

  /** Once this process's own session has gone, the blocker is measured again. */
  predicate Reinspects(t: Terms, round: Round, e: Episode) {
    e.inspected && e.stickySelf && e.lastSelfObserved && !round.selfHeld && t.Left(e.now) > 0
  }

  /** Everything that asking scdaemon to let go takes: grace is over, the one inspection is
      made now and does not find it stopped, this process was never seen holding the card,
      and budget is left. */
  predicate WouldHandOff(t: Terms, round: Round, e: Episode) {
    && !e.inspected && !e.stickySelf && t.GraceDeadline() <= e.now && t.Left(e.now) > 0
    && round.scd != Stopped && t.Left(InspectedBy(t, round, e.now)) > 0
  }

  /** What the second half adds to the log. */
  function Tail(t: Terms, round: Round, e: Episode): seq<Event> {
    var at := InspectedBy(t, round, e.now);
    if Reinspects(t, round, e) then [Inspected(at, round.scd)]
    else if e.inspected || e.now < t.GraceDeadline() || t.Left(e.now) <= 0 then []
    else if WouldHandOff(t, round, e) && round.reservation.Granted? then [Inspected(at, round.scd), HandedOff(at)]
    else [Inspected(at, round.scd)]
  }

  method Inspect(t: Terms, round: Round, e: Episode, granted: Duration) returns (e': Episode)
    requires granted == Min(INSPECT_LIMIT, t.Left(e.now))
    ensures e' == e.(now := InspectedBy(t, round, e.now), late := e.late + round.inspecting.late, state := round.scd,
                     log := e.log + [Inspected(InspectedBy(t, round, e.now), round.scd)])
  {
    var doneAt := e.now + Took(round.inspecting, granted);
    e' := e.(now := doneAt, late := e.late + round.inspecting.late, state := round.scd, log := e.log + [Inspected(doneAt, round.scd)]);
  }

  method HandOff(t: Terms, round: Round, e: Episode, granted: Duration) returns (e': Episode)
    ensures e' == e.(now := e.now + Took(round.handing, granted), late := e.late + round.handing.late,
                     handoffAttempted := true, before := e.probeWaits, delayIndex := 0, log := e.log + [HandedOff(e.now)])
  {
    e' := e.(now := e.now + Took(round.handing, granted), late := e.late + round.handing.late,
             handoffAttempted := true, before := e.probeWaits, delayIndex := 0, log := e.log + [HandedOff(e.now)]);
  }

  /** What the second half of a round does to the variables, given what the world shows. */
  ghost predicate Intervened(t: Terms, round: Round, e: Episode, e': Episode) {
    && e'.log == e.log + Tail(t, round, e)
    && e.now <= e'.now && e.late <= e'.late <= e.late + round.inspecting.late + round.handing.late
    && (t.Left(e.now) > 0 ==> e'.now <= t.Deadline() + (e'.late - e.late))
    && (t.Left(e.now) <= 0 ==> e'.now == e.now)
    && (Tail(t, round, e) != [] ==> Tail(t, round, e)[|Tail(t, round, e)| - 1].at <= e'.now)
    && e'.probeWaits == e.probeWaits && e'.attempts == e.attempts && e'.lastErr == e.lastErr
    && e'.stickySelf == e.stickySelf && e'.lastSelfObserved == round.selfHeld
    && e'.inspected == (e.inspected || t.GraceDeadline() <= e.now)
    && (!e'.inspected ==> e'.now == e.now)
    && var asked := WouldHandOff(t, round, e) && round.reservation.Granted?;
    && e'.handoffAttempted == (e.handoffAttempted || asked)
    && e'.before == (if asked then e.probeWaits else e.before)
    && e'.delayIndex == (if asked then 0 else e.delayIndex)
    && e'.state == (if Tail(t, round, e) == [] then e.state else round.scd)
    && e'.now == (if asked then InspectedBy(t, round, e.now) + Took(round.handing, Min(HANDOFF_LIMIT, t.Left(InspectedBy(t, round, e.now))))
                  else if Tail(t, round, e) == [] then e.now else InspectedBy(t, round, e.now))
    && e'.cooldownUntil == (if WouldHandOff(t, round, e) && round.reservation.CoolingDown?
                            then Some(InspectedBy(t, round, e.now) + round.reservation.retryAfter) else e.cooldownUntil)
  }

  /** After a probe that did not get the card: watches for this process's own session,
      inspects scdaemon once grace is over, and may ask it to let go. */
  method Intervene(t: Terms, round: Round, e: Episode) returns (e': Episode)
    ensures Intervened(t, round, e, e')
  {
    if e.inspected {
      e' := WatchOwnSession(t, round, e);
    } else if e.now < t.GraceDeadline() {
      e' := e.(lastSelfObserved := round.selfHeld);
    } else {
      e' := InspectOnce(t, round, e);
    }
  }

  method WatchOwnSession(t: Terms, round: Round, e: Episode) returns (e': Episode)
    requires e.inspected
    ensures Intervened(t, round, e, e')
  {
    e' := e;
    if e.stickySelf && e.lastSelfObserved && !round.selfHeld {
      var granted := Min(INSPECT_LIMIT, t.Left(e.now));
      if granted > 0 {
        e' := Inspect(t, round, e, granted);
      }
    }
    e' := e'.(lastSelfObserved := round.selfHeld);
  }

  method InspectOnce(t: Terms, round: Round, e: Episode) returns (e': Episode)
    requires !e.inspected && t.GraceDeadline() <= e.now
    ensures Intervened(t, round, e, e')
  {
    e' := e.(lastSelfObserved := round.selfHeld, inspected := true);
    var granted := Min(INSPECT_LIMIT, t.Left(e'.now));
    if granted <= 0 {
      return;
    }
    e' := Inspect(t, round, e', granted);
    if e'.stickySelf || e'.state == Stopped {
      return;
    }
    granted := Min(HANDOFF_LIMIT, t.Left(e'.now));
    if granted <= 0 {
      return;
    }
    match round.reservation
    case CoolingDown(retryAfter) =>
      e' := e'.(cooldownUntil := Some(e'.now + retryAfter));
    case Granted =>
      e' := HandOff(t, round, e', granted);
  }

  // ---- One whole round --------------------------------------------------------------

  /** A round that did not get the card: polled in between, then watched and acted upon. */
  ghost predicate Rounded(t: Terms, world: nat -> Round, e: Episode, polled: Episode, e': Episode)
    requires e.delayIndex < |LADDER|
  {
    var round := world(e.probeWaits);
    && t.budgetStarted <= t.start && t.Left(e.now) > 0 && !round.cancelled
    && PolledOnce(t, round, e, polled) && Intervened(t, round, polled, e')
    && round.probe.StillShared? && polled.lastErr == round.probe.error
    && polled.stickySelf == (e.stickySelf || round.selfHeld)
  }

  lemma RoundKeepsTally(t: Terms, world: nat -> Round, e: Episode, polled: Episode, e': Episode)
    requires e.delayIndex < |LADDER| && Rounded(t, world, e, polled, e') && Tallied(t, world, e)
    ensures Tallied(t, world, e')
  {
    var (k, round) := (e.probeWaits, world(e.probeWaits));
    assert NoHolderSeen(world, k + 1) <==> NoHolderSeen(world, k) && !round.selfHeld;
  }

  lemma PollsOfTail(t: Terms, round: Round, e: Episode)
    ensures Polls(e.log + Tail(t, round, e)) == Polls(e.log)
  {
    var tail := Tail(t, round, e);
    if |tail| == 0 {
      assert e.log + tail == e.log;
    } else if |tail| == 1 {
      PollsOfOneMore(e.log, tail[0]);
      assert e.log + tail == e.log + [tail[0]];
    } else {
      PollsOfOneMore(e.log, tail[0]);
      PollsOfOneMore(e.log + [tail[0]], tail[1]);
      assert e.log + tail == e.log + [tail[0]] + [tail[1]];
    }
  }

  lemma RoundKeepsTime(t: Terms, world: nat -> Round, e: Episode, polled: Episode, e': Episode)
    requires e.delayIndex < |LADDER| && Rounded(t, world, e, polled, e') && Timed(t, e)
    requires e.late <= LateBy(world, e.probeWaits)
    ensures Timed(t, e') && e'.late <= LateBy(world, e'.probeWaits) && e.now < e'.now
  {
  }

  lemma PollWithinEight(t: Terms, round: Round, e: Episode, polled: Episode)
    requires t.Default() && t.budgetStarted <= t.start <= e.now && t.Left(e.now) > 0
    requires e.delayIndex < |LADDER| && InPace(t, e) && PolledOnce(t, round, e, polled)
    ensures polled.probeWaits <= 8
  {
    PollKeepsPace(e.probeWaits, e.before, e.handoffAttempted, e.inspected, e.delayIndex, e.now - t.start, t.Left(e.now),
                  WokenAt(t, round, e) - t.start);
  }

  lemma RoundKeepsPace(t: Terms, world: nat -> Round, e: Episode, polled: Episode, e': Episode)
    requires e.delayIndex < |LADDER| && Rounded(t, world, e, polled, e') && Timed(t, e) && InPace(t, e)
    ensures InPace(t, e')
  {
    if t.Default() {
      PollKeepsPace(e.probeWaits, e.before, e.handoffAttempted, e.inspected, e.delayIndex, e.now - t.start, t.Left(e.now),
                    WokenAt(t, world(e.probeWaits), e) - t.start);
    }
  }

  // ---- The log of a round ------------------------------------------------------------

  lemma PollLogged(t: Terms, world: nat -> Round, e: Episode, at: Instant)
    requires LogOk(t, world, e.log) && (e.log != [] ==> e.log[|e.log| - 1].at <= at)
    ensures var log := e.log + [Polled(at)];
            LogOk(t, world, log) && Polls(log) == Polls(e.log) + 1 && (HandedOffIn(log) <==> HandedOffIn(e.log))
  {
    Append(t, world, e.log, Polled(at));
  }

  lemma TailLogged(t: Terms, world: nat -> Round, e: Episode)
    requires LogOk(t, world, e.log) && e.log != [] && e.log[|e.log| - 1].at <= e.now
    requires Polls(e.log) == e.probeWaits > 0
    requires e.stickySelf <==> t.selfAtStart || !NoHolderSeen(world, e.probeWaits)
    requires HandedOffIn(e.log) ==> e.inspected
    ensures var (round, tail) := (world(e.probeWaits - 1), Tail(t, world(e.probeWaits - 1), e));
            && LogOk(t, world, e.log + tail)
            && (HandedOffIn(e.log + tail) <==> HandedOffIn(e.log) || (WouldHandOff(t, round, e) && round.reservation.Granted?))
  {
    var round := world(e.probeWaits - 1);
    var (at, tail) := (InspectedBy(t, round, e.now), Tail(t, round, e));
    if tail == [] {
      assert e.log + tail == e.log;
    } else {
      var inspected := e.log + [Inspected(at, round.scd)];
      PollsOfPrefix(e.log, [Inspected(at, round.scd)], |e.log|);
      Append(t, world, e.log, Inspected(at, round.scd));
      if |tail| == 2 {
        PollsOfPrefix(inspected, [HandedOff(at)], |inspected|);
        Append(t, world, inspected, HandedOff(at));
        assert e.log + tail == inspected + [HandedOff(at)];
      } else {
        assert e.log + tail == inspected;
      }
    }
  }

  lemma RoundKeepsLog(t: Terms, world: nat -> Round, e: Episode, polled: Episode, e': Episode)
    requires e.delayIndex < |LADDER| && Rounded(t, world, e, polled, e') && Logged(t, world, e)
    requires e.probeWaits == Polls(e.log) && (e.stickySelf <==> t.selfAtStart || !NoHolderSeen(world, e.probeWaits))
    ensures Logged(t, world, e')
  {
    var round := world(e.probeWaits);
    assert NoHolderSeen(world, e.probeWaits + 1) <==> NoHolderSeen(world, e.probeWaits) && !round.selfHeld;
    PollLogged(t, world, e, polled.now);
    TailLogged(t, world, polled);
    LastOf(polled.log, Tail(t, round, polled));
  }

  lemma LastOf(log: seq<Event>, tail: seq<Event>)
    requires log != []
    ensures (log + tail)[|log + tail| - 1] == if tail == [] then log[|log| - 1] else tail[|tail| - 1]
  {
  }

  // ---- The log of a round tells what it did -----------------------------------------

  /** The second half of a round, as the log tells it. */
  lemma TailTold(t: Terms, world: nat -> Round, e: Episode, e': Episode)
    requires e.probeWaits > 0 && Told(t, world, e.(inspected := e.inspected || t.GraceDeadline() <= e.now))
    requires Intervened(t, world(e.probeWaits - 1), e, e') && (e.stickySelf <==> t.selfAtStart || !NoHolderSeen(world, e.probeWaits))
    ensures Told(t, world, e')
  {
    var round := world(e.probeWaits - 1);
    var (at, tail) := (InspectedBy(t, round, e.now), Tail(t, round, e));
    PollsOfTail(t, round, e);
    HandedOffInTail(t, round, e);
    if tail == [] {
      assert e.log + tail == e.log;
    } else {
      var looked := e.log + [tail[0]];
      PollsOfOneMore(e.log, tail[0]);
      StandingOneMore(t, world, e.log, tail[0]);
      if |tail| == 2 {
        PollsOfOneMore(looked, tail[1]);
        StandingOneMore(t, world, looked, tail[1]);
        assert e.log + tail == looked + [tail[1]];
      } else {
        assert e.log + tail == looked;
      }
    }
  }

  lemma HandedOffInTail(t: Terms, round: Round, e: Episode)
    ensures HandedOffIn(e.log + Tail(t, round, e)) <==> HandedOffIn(e.log) || (WouldHandOff(t, round, e) && round.reservation.Granted?)
  {
    var (tail, more) := (Tail(t, round, e), e.log + Tail(t, round, e));
    assert forall i :: 0 <= i < |e.log| ==> more[i] == e.log[i];
    assert forall i :: 0 <= i < |tail| ==> more[|e.log| + i] == tail[i];
    if WouldHandOff(t, round, e) && round.reservation.Granted? {
      assert more[|e.log| + 1].HandedOff?;
    } else if HandedOffIn(more) {
      var i :| 0 <= i < |more| && more[i].HandedOff?;
      assert i < |e.log|;
    }
    if HandedOffIn(e.log) {
      var i :| 0 <= i < |e.log| && e.log[i].HandedOff?;
      assert more[i].HandedOff?;
    }
  }

  lemma PollTold(t: Terms, world: nat -> Round, e: Episode, polled: Episode)
    requires e.delayIndex < |LADDER| && Told(t, world, e) && PolledOnce(t, world(e.probeWaits), e, polled)
    ensures Told(t, world, polled.(inspected := polled.inspected || t.GraceDeadline() <= polled.now))
  {
    PollsOfOneMore(e.log, Polled(polled.now));
    StandingOneMore(t, world, e.log, Polled(polled.now));
    assert HandedOffIn(polled.log) <==> HandedOffIn(e.log) by {
      assert forall i :: 0 <= i < |e.log| ==> polled.log[i] == e.log[i];
    }
  }

  lemma RoundTold(t: Terms, world: nat -> Round, e: Episode, polled: Episode, e': Episode)
    requires e.delayIndex < |LADDER| && Rounded(t, world, e, polled, e') && Told(t, world, e) && Tallied(t, world, e)
    ensures Told(t, world, e')
  {
    var k := e.probeWaits;
    assert NoHolderSeen(world, k + 1) <==> NoHolderSeen(world, k) && !world(k).selfHeld;
    PollTold(t, world, e, polled);
    TailTold(t, world, polled, e');
  }

  lemma PollStaysOnTime(t: Terms, world: nat -> Round, log: seq<Event>, tail: seq<Event>, i: nat)
    requires i < |log| && OnTime(t, world, log, i)
    ensures OnTime(t, world, log + tail, i)
  {
    SameSoFar(t, world, log, log + tail, i);
  }

  lemma PolledOnTime(t: Terms, world: nat -> Round, e: Episode, polled: Episode)
    requires e.delayIndex < |LADDER| && Told(t, world, e) && PollsOnTime(t, world, e.log)
    requires t.Left(e.now) > 0 && !world(e.probeWaits).cancelled && PolledOnce(t, world(e.probeWaits), e, polled)
    ensures PollsOnTime(t, world, polled.log)
  {
    forall i | 0 <= i < |polled.log| && polled.log[i].Polled? ensures OnTime(t, world, polled.log, i) {
      if i < |e.log| {
        PollStaysOnTime(t, world, e.log, [Polled(polled.now)], i);
      } else {
        SameSoFar(t, world, e.log, polled.log, i);
      }
    }
  }

  lemma RoundOnTime(t: Terms, world: nat -> Round, e: Episode, polled: Episode, e': Episode)
    requires e.delayIndex < |LADDER| && Rounded(t, world, e, polled, e') && Told(t, world, e) && PollsOnTime(t, world, e.log)
    ensures PollsOnTime(t, world, e'.log)
  {
    PolledOnTime(t, world, e, polled);
    var tail := Tail(t, world(e.probeWaits), polled);
    forall i | 0 <= i < |polled.log| && polled.log[i].Polled? ensures OnTime(t, world, e'.log, i) {
      PollStaysOnTime(t, world, polled.log, tail, i);
    }
    assert forall i :: 0 <= i < |polled.log| ==> e'.log[i] == polled.log[i];
    assert forall q :: 0 <= q < |tail| ==> e'.log[|polled.log| + q] == tail[q] && !tail[q].Polled?;
    assert forall i :: |polled.log| <= i < |e'.log| ==> e'.log[i] == tail[i - |polled.log|];
  }

  /** What was due earlier stays done when the next thing added is a poll. */
  lemma EarlierFollowedUp(t: Terms, world: nat -> Round, log: seq<Event>, added: seq<Event>, i: nat)
    requires i < |log| && FollowedUp(t, world, log, i) && added != [] && added[0].Polled?
    ensures FollowedUp(t, world, log + added, i)
  {
    SameSoFar(t, world, log, log + added, i);
    assert (log + added)[i] == log[i] && AfterPoll(t, world, log + added, i) == AfterPoll(t, world, log, i);
    assert (log + added)[|log|] == added[0];
  }

  lemma TailIsDue(t: Terms, world: nat -> Round, e: Episode, polled: Episode)
    requires e.delayIndex < |LADDER| && Told(t, world, e) && Tallied(t, world, e) && PolledOnce(t, world(e.probeWaits), e, polled)
    requires polled.stickySelf == (e.stickySelf || world(e.probeWaits).selfHeld)
    ensures AfterPoll(t, world, polled.log, |e.log|) == Tail(t, world(e.probeWaits), polled)
  {
    var k := e.probeWaits;
    assert NoHolderSeen(world, k + 1) <==> NoHolderSeen(world, k) && !world(k).selfHeld;
    SameSoFar(t, world, e.log, polled.log, |e.log|);
    if k > 0 && world(k - 1).selfHeld {
      assert !NoHolderSeen(world, k);
    }
  }

  lemma OwnFollowedUp(t: Terms, world: nat -> Round, log: seq<Event>, i: nat)
    requires i + 1 == |log|
    ensures var more := log + AfterPoll(t, world, log, i); FollowedUp(t, world, more, i)
  {
    var tail := AfterPoll(t, world, log, i);
    SameSoFar(t, world, log, log + tail, i);
    assert (log + tail)[i] == log[i] && AfterPoll(t, world, log + tail, i) == tail;
  }

  lemma AddedFollowedUp(t: Terms, world: nat -> Round, log: seq<Event>, added: seq<Event>)
    requires AllFollowedUp(t, world, log, |log|) && added != [] && added[0].Polled?
    requires forall q :: 0 < q < |added| ==> !added[q].Polled?
    requires FollowedUp(t, world, log + added, |log|)
    ensures AllFollowedUp(t, world, log + added, |log + added|)
  {
    var more := log + added;
    forall i | 0 <= i < |more| && more[i].Polled? ensures FollowedUp(t, world, more, i) {
      if i < |log| {
        EarlierFollowedUp(t, world, log, added, i);
      }
    }
  }

  lemma RoundFollowedUp(t: Terms, world: nat -> Round, e: Episode, polled: Episode, e': Episode)
    requires e.delayIndex < |LADDER| && Rounded(t, world, e, polled, e') && Told(t, world, e) && Tallied(t, world, e)
    requires AllFollowedUp(t, world, e.log, |e.log|)
    ensures AllFollowedUp(t, world, e'.log, |e'.log|)
  {
    var tail := Tail(t, world(e.probeWaits), polled);
    var added := [Polled(polled.now)] + tail;
    assert e'.log == e.log + added;
    TailIsDue(t, world, e, polled);
    OwnFollowedUp(t, world, polled.log, |e.log|);
    assert polled.log + tail == e.log + added;
    AddedFollowedUp(t, world, e.log, added);
  }

  // ---- The loop ------------------------------------------------------------------------

  function TermsOf(budgetStarted: Instant, limit: Duration, configuredGrace: Duration, start: Instant, selfAtStart: bool, initial: string): Terms {
    Terms(budgetStarted, limit, if configuredGrace <= 0 then DEFAULT_GRACE else configuredGrace, start, selfAtStart, initial)
  }

  /** Where an episode that never got the card stopped: at once after a round when the budget
      was spent or the caller had been cancelled, and else asleep, because the next delay
      was interrupted or used up what was left. */
  predicate Stops(t: Terms, world: nat -> Round, log: seq<Event>, end: Instant) {
    var (ended, woken) := (StandingOf(t, world, log, |log|).ended, Woken(t, world, log, |log|));
    if GivesUpAwake(t, world, log) then end == ended
    else end == woken && (world(Polls(log)).sleep.Interrupted? || t.Left(woken) <= 0)
  }

  predicate GivesUpAwake(t: Terms, world: nat -> Round, log: seq<Event>) {
    t.Left(StandingOf(t, world, log, |log|).ended) <= 0 || world(Polls(log)).cancelled
  }

  function LastError(t: Terms, world: nat -> Round, log: seq<Event>): string {
    var n := Polls(log);
    if !GivesUpAwake(t, world, log) && world(n).sleep.Interrupted? then INTERRUPTED
    else if n > 0 && world(n - 1).probe.StillShared? then world(n - 1).probe.error
    else t.initial
  }

  function Until(at: Option<Instant>, now: Instant): Duration {
    if at.Some? && at.value > now then at.value - now else 0
  }

  /** The report tells what the polled rounds showed and what the log says was done. */
  ghost predicate Reported(t: Terms, world: nat -> Round, log: seq<Event>, end: Instant, c: Contention) {
    var (n, s) := (Polls(log), StandingOf(t, world, log, |log|));
    && c.final == LastError(t, world, log)
    && c.attempts == 1 + OpensBy(world, n) && c.probeWaits == n
    && c.state == s.seen
    && (c.handoffAttempted <==> HandedOffIn(log))
    && (c.everSelfHeld <==> t.selfAtStart || !NoHolderSeen(world, n))
    && c.cooldownRemaining == Until(s.refusedUntil, end)
  }

  /** How an episode that had budget to start with ends. */
  ghost predicate Ends(t: Terms, world: nat -> Round, log: seq<Event>, end: Instant, outcome: Outcome) {
    && LogOk(t, world, log) && (log != [] ==> log[|log| - 1].at <= end)
    && (t.Default() ==> Polls(log) <= 8)
    && t.start <= end <= t.Deadline() + LateBy(world, if outcome.Recovered? then Polls(log) else Polls(log) + 1)
    && ((forall k :: Overrun(world(k)) == 0) ==> end <= t.Deadline())
    && PollsOnTime(t, world, log)
    && match outcome
       case Recovered(card, serial) =>
         && Polls(log) > 0 && AllShared(world, Polls(log) - 1) && world(Polls(log) - 1).probe == Acquired(card, serial)
         && log[|log| - 1] == Polled(end) && AllFollowedUp(t, world, log, |log| - 1)
       case Exhausted(c) =>
         && AllShared(world, Polls(log)) && AllFollowedUp(t, world, log, |log|)
         && Stops(t, world, log, end) && Reported(t, world, log, end, c)
  }

  /** A whole episode; without any budget to start with it fails at once. */
  ghost predicate Recovers(t: Terms, world: nat -> Round, log: seq<Event>, end: Instant, outcome: Outcome) {
    if t.Left(t.start) > 0 then Ends(t, world, log, end, outcome)
    else log == [] && end == t.start && outcome == Exhausted(Contention(t.initial, 1, 0, Unknown, false, false, 0))
  }

  ghost predicate Sound(t: Terms, world: nat -> Round, e: Episode) {
    && t.budgetStarted <= t.start && e.late <= LateBy(world, e.probeWaits)
    && Tallied(t, world, e) && Told(t, world, e) && Logged(t, world, e) && Timed(t, e) && InPace(t, e)
    && PollsOnTime(t, world, e.log) && AllFollowedUp(t, world, e.log, |e.log|)
  }

  function ContentionOf(e: Episode): Contention {
    Contention(e.lastErr, e.attempts, e.probeWaits, e.state, e.handoffAttempted, e.stickySelf, Until(e.cooldownUntil, e.now))
  }

  /** Polls until the card is free or the budget is spent; log tells what was done when.

      No more than one hand-off, only where the world shows it due, and always where it does;
      never more than eight polls at the defaults; the first card a poll opens is returned;
      without one it goes on until the budget is spent or the caller gives up; and calls that
      keep their limits keep the whole episode inside the budget. */
  method RecoverSharing(world: nat -> Round, budgetStarted: Instant, limit: Duration, configuredGrace: Duration,
                        initial: string, start: Instant, selfAtStart: bool)
    returns (outcome: Outcome, log: seq<Event>, end: Instant)
    requires budgetStarted <= start
    ensures Recovers(TermsOf(budgetStarted, limit, configuredGrace, start, selfAtStart, initial), world, log, end, outcome)
  {
    log, end := [], start;
    var t := TermsOf(budgetStarted, limit, configuredGrace, start, selfAtStart, initial);
    if t.Left(start) <= 0 {
      outcome := Exhausted(Contention(initial, 1, 0, Unknown, false, false, 0));
      return;
    }
    var e := Episode(start, 0, 0, 1, 0, 0, initial, Unknown, false, false, selfAtStart, selfAtStart, None, []);
    while t.Left(e.now) > 0 && !world(e.probeWaits).cancelled
      invariant Sound(t, world, e)
      decreases t.Deadline() - e.now
    {
      var polled, turn := SleepAndPoll(t, world(e.probeWaits), e);
      if turn.GaveUp? {
        GivenUp(t, world, e, polled);
        return Exhausted(ContentionOf(polled)), e.log, polled.now;
      }
      if turn.Got? {
        PolledLast(t, world, e, polled, turn.card, turn.serial);
        return Recovered(turn.card, turn.serial), polled.log, polled.now;
      }
      var next := Intervene(t, world(e.probeWaits), polled);
      RoundDone(t, world, e, polled, next);
      e := next;
    }
    GivenUp(t, world, e, e);
    return Exhausted(ContentionOf(e)), e.log, e.now;
  }

  lemma RoundDone(t: Terms, world: nat -> Round, e: Episode, polled: Episode, e': Episode)
    requires Sound(t, world, e) && Rounded(t, world, e, polled, e')
    ensures Sound(t, world, e') && e.now < e'.now
  {
    RoundKeepsTally(t, world, e, polled, e');
    RoundKeepsLog(t, world, e, polled, e');
    RoundKeepsTime(t, world, e, polled, e');
    RoundKeepsPace(t, world, e, polled, e');
    RoundTold(t, world, e, polled, e');
    RoundOnTime(t, world, e, polled, e');
    RoundFollowedUp(t, world, e, polled, e');
  }

  lemma EndsInTime(t: Terms, world: nat -> Round, e: Episode, end: Instant)
    requires Timed(t, e) && e.late <= LateBy(world, e.probeWaits)
    requires e.now <= end <= t.Deadline() + e.late + Overrun(world(e.probeWaits))
    ensures t.start <= end <= t.Deadline() + LateBy(world, e.probeWaits + 1)
    ensures (forall k :: Overrun(world(k)) == 0) ==> end <= t.Deadline()
  {
    if forall k :: Overrun(world(k)) == 0 {
      PunctualWorld(world, e.probeWaits);
    }
  }

  /** No further poll was made: last is the loop head itself, or it was left asleep. */
  ghost predicate LeftOff(t: Terms, world: nat -> Round, e: Episode, last: Episode)
    requires e.delayIndex < |LADDER|
  {
    var round := world(e.probeWaits);
    || (last == e && (t.Left(e.now) <= 0 || round.cancelled))
    || (&& t.Left(e.now) > 0 && !round.cancelled && (round.sleep.Interrupted? || t.Left(WokenAt(t, round, e)) <= 0)
        && last == e.(now := WokenAt(t, round, e), late := last.late,
                      lastErr := if round.sleep.Slept? then e.lastErr else INTERRUPTED))
  }

  lemma ReportIsRight(t: Terms, world: nat -> Round, e: Episode, last: Episode)
    requires e.delayIndex < |LADDER| && Told(t, world, e) && Tallied(t, world, e) && LeftOff(t, world, e, last)
    ensures Stops(t, world, e.log, last.now) && Reported(t, world, e.log, last.now, ContentionOf(last))
  {
  }

  lemma GivenUp(t: Terms, world: nat -> Round, e: Episode, last: Episode)
    requires Sound(t, world, e) && LeftOff(t, world, e, last)
    ensures Ends(t, world, e.log, last.now, Exhausted(ContentionOf(last)))
  {
    EndsInTime(t, world, e, last.now);
    ReportIsRight(t, world, e, last);
  }

  lemma LastPollFollows(t: Terms, world: nat -> Round, log: seq<Event>, at: Instant)
    requires AllFollowedUp(t, world, log, |log|)
    ensures AllFollowedUp(t, world, log + [Polled(at)], |log|)
  {
    forall i | 0 <= i < |log| && log[i].Polled? ensures FollowedUp(t, world, log + [Polled(at)], i) {
      EarlierFollowedUp(t, world, log, [Polled(at)], i);
    }
  }

  lemma PolledInTime(t: Terms, world: nat -> Round, e: Episode, polled: Episode)
    requires Timed(t, e) && InPace(t, e) && e.late <= LateBy(world, e.probeWaits) && e.probeWaits == Polls(e.log)
    requires t.budgetStarted <= t.start && t.Left(e.now) > 0 && PolledOnce(t, world(e.probeWaits), e, polled)
    ensures t.Default() ==> polled.probeWaits <= 8
    ensures t.start <= polled.now <= t.Deadline() + LateBy(world, polled.probeWaits)
    ensures (forall k :: Overrun(world(k)) == 0) ==> polled.now <= t.Deadline()
    ensures e.now <= polled.now
  {
    if t.Default() {
      PollWithinEight(t, world(e.probeWaits), e, polled);
    }
    EndsInTime(t, world, e, polled.now);
  }

  lemma PolledLast(t: Terms, world: nat -> Round, e: Episode, polled: Episode, card: nat, serial: nat)
    requires Sound(t, world, e) && t.Left(e.now) > 0 && !world(e.probeWaits).cancelled
    requires PolledOnce(t, world(e.probeWaits), e, polled)
    requires world(e.probeWaits).probe == Acquired(card, serial)
    ensures Ends(t, world, polled.log, polled.now, Recovered(card, serial))
  {
    PolledInTime(t, world, e, polled);
    PollLogged(t, world, e, polled.now);
    PolledOnTime(t, world, e, polled);
    LastPollFollows(t, world, e.log, polled.now);
  }

  // ---- The budget one operation shares ----------------------------------------------

  datatype OpenError = OpenError(sharing: bool, text: string)

  datatype Acquisition = Opened(card: nat, serial: nat) | Refused(error: OpenError) | Handled(contention: Contention)

  /** Started by the first sharing violation and never restarted, so that a retried
      operation recovers only for what its first attempt left over. */
  class RecoveryBudget {
    const limit: Duration
    var started: Option<Instant>
    var diagnosed: bool

    constructor (configured: Duration)
      ensures started == None && !diagnosed && limit > 0
      ensures limit == if configured <= 0 then 2_000_000_000 else configured
    {
      limit := if configured <= 0 then DEFAULT_LIMIT else configured;
      started, diagnosed := None, false;
    }

    method RemainingAt(now: Instant) returns (left: Duration)
      modifies this`started
      ensures started == Some(if old(started).Some? then old(started).value else now)
      ensures left == Remaining(limit, started.value, now)
    {
      if started.None? {
        started := Some(now);
      }
      left := Remaining(limit, started.value, now);
    }

    /** One acquisition. Only a sharing violation starts the clock; what recovery could not
        cure comes back handled, so that the operation does not try it all again. The
        diagnostic look at the readers is made once per budget and spent from it. */
    method AcquireCard(attempt: Result<(nat, nat), OpenError>, world: nat -> Round, configuredGrace: Duration,
                       now: Instant, rescan: Timing, selfHeld: bool)
      returns (result: Acquisition, log: seq<Event>, end: Instant)
      requires started.Some? ==> started.value <= now
      modifies this
      ensures attempt.Ok? ==> result == Opened(attempt.value.0, attempt.value.1)
      ensures attempt.Err? && !attempt.error.sharing ==> result == Refused(attempt.error)
      ensures attempt.Ok? || !attempt.error.sharing ==>
                log == [] && end == now && started == old(started) && diagnosed == old(diagnosed)
      ensures attempt.Err? && attempt.error.sharing ==>
                && started == Some(if old(started).Some? then old(started).value else now)
                && diagnosed == (old(diagnosed) || Remaining(limit, started.value, now) > 0)
                && var scan := if old(diagnosed) || Remaining(limit, started.value, now) <= 0 then 0
                               else Min(rescan.needs, 250_000_000) + rescan.late;
                   var t := TermsOf(started.value, limit, configuredGrace, now + scan, selfHeld, attempt.error.text);
                && match result
                   case Opened(card, serial) => Recovers(t, world, log, end, Recovered(card, serial))
                   case Handled(c) => Recovers(t, world, log, end, Exhausted(c))
                   case Refused(_) => false
    {
      log, end := [], now;
      match attempt
      case Ok((card, serial)) =>
        result := Opened(card, serial);
      case Err(error) =>
        if !error.sharing {
          result := Refused(error);
        } else {
          var left := RemainingAt(now);
          var start := now;
          if !diagnosed && left > 0 {
            diagnosed := true;
            start := now + Took(rescan, DIAGNOSTIC_SCAN_LIMIT);
          }
          var outcome;
          outcome, log, end := RecoverSharing(world, started.value, limit, configuredGrace, error.text, start, selfHeld);
          match outcome
          case Recovered(card, serial) => result := Opened(card, serial);
          case Exhausted(contention) => result := Handled(contention);
        }
    }
  }
}
