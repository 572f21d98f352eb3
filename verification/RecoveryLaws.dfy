/** What the contract of a recovery episode amounts to: the world leaves exactly one episode
    that meets it, and an episode with its whole budget makes at least three polls. */
module RecoveryLaws {
  import opened Basics
  import opened Recovery

  // ---- One world, one episode ------------------------------------------------------

  /** What the log of an episode meets in either outcome. */
  ghost predicate Played(t: Terms, world: nat -> Round, log: seq<Event>) {
    && LogOk(t, world, log) && PollsOnTime(t, world, log)
    && (log != [] ==> AllFollowedUp(t, world, log, |log| - 1))
  }

  lemma EndsPlayed(t: Terms, world: nat -> Round, log: seq<Event>, end: Instant, outcome: Outcome)
    requires Ends(t, world, log, end, outcome)
    ensures Played(t, world, log)
  {
  }

  lemma StartsWithPoll(t: Terms, world: nat -> Round, log: seq<Event>)
    requires LogOk(t, world, log) && log != []
    ensures log[0].Polled?
  {
    assert Meant(t, world, log, 0);
  }

  lemma {:induction false} PollsGrow(log: seq<Event>, m: nat, n: nat)
    requires m <= n <= |log|
    ensures PollsOf(log, m) <= PollsOf(log, n)
    ensures (exists i :: m <= i < n && log[i].Polled?) ==> PollsOf(log, m) < PollsOf(log, n)
    decreases n
  {
    if m < n {
      PollsGrow(log, m, n - 1);
    }
  }

  /** The last poll among the first n events. */
  function LastPoll(log: seq<Event>, n: nat): (p: nat)
    requires 0 < n <= |log| && log[0].Polled?
    ensures p < n && log[p].Polled? && forall i :: p < i < n ==> !log[i].Polled?
  {
    if log[n - 1].Polled? then n - 1 else LastPoll(log, n - 1)
  }

  /** What follows the last poll among the first n events is all there is between. */
  lemma TailReaches(t: Terms, world: nat -> Round, log: seq<Event>, n: nat)
    requires 0 < n <= |log| && log[0].Polled? && FollowedUp(t, world, log, LastPoll(log, n))
    ensures n <= LastPoll(log, n) + 1 + |AfterPoll(t, world, log, LastPoll(log, n))|
  {
  }

  lemma SameDuty(t: Terms, world: nat -> Round, a: seq<Event>, b: seq<Event>, p: nat)
    requires p < |a| && p < |b| && forall i :: 0 <= i <= p ==> a[i] == b[i]
    ensures AfterPoll(t, world, a, p) == AfterPoll(t, world, b, p)
  {
    SameSoFar(t, world, a, b, p);
  }

  lemma SamePoll(t: Terms, world: nat -> Round, a: seq<Event>, b: seq<Event>, n: nat)
    requires n < |a| && n < |b| && forall i :: 0 <= i < n ==> a[i] == b[i]
    requires OnTime(t, world, a, n) && OnTime(t, world, b, n)
    ensures a[n] == b[n]
  {
    SameSoFar(t, world, a, b, n);
  }

  /** After the same poll with the same duty comes the same event, or the next poll in both. */
  lemma SameFollowUp(t: Terms, world: nat -> Round, a: seq<Event>, b: seq<Event>, p: nat, n: nat)
    requires p < n < |a| && n < |b| && FollowedUp(t, world, a, p) && FollowedUp(t, world, b, p)
    requires AfterPoll(t, world, a, p) == AfterPoll(t, world, b, p)
    requires n <= p + 1 + |AfterPoll(t, world, a, p)|
    ensures a[n] == b[n] || (a[n].Polled? && b[n].Polled?)
  {
    var (tail, q) := (AfterPoll(t, world, a, p), n - p - 1);
    assert q < |tail| ==> a[p + 1 + q] == tail[q] == b[p + 1 + q];
  }

  lemma NextEventIsDetermined(t: Terms, world: nat -> Round, a: seq<Event>, b: seq<Event>, n: nat)
    requires Played(t, world, a) && Played(t, world, b) && n < |a| && n < |b|
    requires forall i :: 0 <= i < n ==> a[i] == b[i]
    ensures a[n] == b[n]
  {
    StartsWithPoll(t, world, a);
    StartsWithPoll(t, world, b);
    if n > 0 {
      var p := LastPoll(a, n);
      SameDuty(t, world, a, b, p);
      TailReaches(t, world, a, n);
      SameFollowUp(t, world, a, b, p, n);
    }
    if a[n].Polled? && b[n].Polled? {
      SamePoll(t, world, a, b, n);
    }
  }

  lemma {:induction false} LogsAgree(t: Terms, world: nat -> Round, a: seq<Event>, b: seq<Event>, n: nat)
    requires Played(t, world, a) && Played(t, world, b) && n <= |a| && n <= |b|
    ensures forall i :: 0 <= i < n ==> a[i] == b[i]
  {
    if n > 0 {
      LogsAgree(t, world, a, b, n - 1);
      NextEventIsDetermined(t, world, a, b, n - 1);
    }
  }

  /** Where an episode stopped without the card no poll could have followed. */
  lemma NoPollAfterStop(t: Terms, world: nat -> Round, a: seq<Event>, end: Instant, b: seq<Event>)
    requires Stops(t, world, a, end) && |a| < |b| && forall i :: 0 <= i < |a| ==> a[i] == b[i]
    ensures !OnTime(t, world, b, |a|)
  {
    SameSoFar(t, world, a, b, |a|);
  }

  lemma PollComesNext(t: Terms, world: nat -> Round, a: seq<Event>, b: seq<Event>, p: nat)
    requires p < |a| < |b| && FollowedUp(t, world, a, p) && FollowedUp(t, world, b, p)
    requires AfterPoll(t, world, a, p) == AfterPoll(t, world, b, p)
    requires |a| <= p + 1 + |AfterPoll(t, world, a, p)|
    ensures b[|a|].Polled?
  {
  }

  /** A log in which everything due was done goes on, if at all, with a poll. */
  lemma GoesOnWithPoll(t: Terms, world: nat -> Round, a: seq<Event>, b: seq<Event>)
    requires Played(t, world, b) && AllFollowedUp(t, world, a, |a|) && |a| < |b|
    requires forall i :: 0 <= i < |a| ==> a[i] == b[i]
    ensures b[|a|].Polled?
  {
    StartsWithPoll(t, world, b);
    if a != [] {
      var p := LastPoll(a, |a|);
      assert FollowedUp(t, world, a, p);
      assert FollowedUp(t, world, b, p) by {
        assert b[p].Polled?;
      }
      SameDuty(t, world, a, b, p);
      TailReaches(t, world, a, |a|);
      PollComesNext(t, world, a, b, p);
    }
  }

  /** Every poll of a log that goes on found the card still shared. */
  lemma SharedBefore(t: Terms, world: nat -> Round, a: seq<Event>, b: seq<Event>, endB: Instant, outcomeB: Outcome)
    requires Ends(t, world, b, endB, outcomeB) && |a| < |b| && forall i :: 0 <= i < |a| ==> a[i] == b[i]
    ensures AllShared(world, Polls(a))
  {
    SameSoFar(t, world, a, b, |a|);
    PollsGrow(b, |a|, |b|);
  }

  lemma NotShorter(t: Terms, world: nat -> Round, a: seq<Event>, endA: Instant, outcomeA: Outcome,
                   b: seq<Event>, endB: Instant, outcomeB: Outcome)
    requires Ends(t, world, a, endA, outcomeA) && Ends(t, world, b, endB, outcomeB)
    ensures |b| <= |a|
  {
    EndsPlayed(t, world, a, endA, outcomeA);
    EndsPlayed(t, world, b, endB, outcomeB);
    if |a| < |b| {
      LogsAgree(t, world, a, b, |a|);
      if outcomeA.Recovered? {
        assert world(Polls(a) - 1).probe.Acquired?;
        SharedBefore(t, world, a, b, endB, outcomeB);
      } else {
        GoesOnWithPoll(t, world, a, b);
        NoPollAfterStop(t, world, a, endA, b);
      }
    }
  }

  /** The contract leaves nothing open: the world and the terms determine every event and its
      instant, the outcome, the whole report and the end. */
  lemma EpisodeIsDetermined(t: Terms, world: nat -> Round, a: seq<Event>, endA: Instant, outcomeA: Outcome,
                            b: seq<Event>, endB: Instant, outcomeB: Outcome)
    requires Recovers(t, world, a, endA, outcomeA) && Recovers(t, world, b, endB, outcomeB)
    ensures a == b && endA == endB && outcomeA == outcomeB
  {
    if t.Left(t.start) > 0 {
      NotShorter(t, world, a, endA, outcomeA, b, endB, outcomeB);
      NotShorter(t, world, b, endB, outcomeB, a, endA, outcomeA);
      EndsPlayed(t, world, a, endA, outcomeA);
      EndsPlayed(t, world, b, endB, outcomeB);
      LogsAgree(t, world, a, b, |a|);
      assert a == b;
    }
  }

  // ---- Recovery does try -----------------------------------------------------------

  /** The defaults, with the whole budget left. */
  predicate Whole(t: Terms) {
    t.limit == DEFAULT_LIMIT && t.grace == DEFAULT_GRACE && t.start == t.budgetStarted
  }

  /** Every call keeps its limit and nobody gives up. */
  ghost predicate Undisturbed(world: nat -> Round) {
    forall k {:trigger world(k)} :: Overrun(world(k)) == 0 && !world(k).cancelled && world(k).sleep.Slept?
  }

  /** While there is room for a delay, an undisturbed episode does not stop. */
  lemma NoStopWithRoom(t: Terms, world: nat -> Round, log: seq<Event>, end: Instant)
    requires Undisturbed(world) && Stops(t, world, log, end)
    ensures var s := StandingOf(t, world, log, |log|);
            t.Left(s.ended) <= LADDER[s.rung]
  {
    assert world(Polls(log)).sleep.Slept? && Overrun(world(Polls(log))) == 0;
  }

  /** The first poll is over 300 ms into the episode at the latest, the second 650 ms. */
  lemma FirstPoll(t: Terms, world: nat -> Round, log: seq<Event>)
    requires Whole(t) && Undisturbed(world) && Played(t, world, log) && log != []
    ensures log[0].Polled? && t.start <= log[0].at <= t.start + 300_000_000
    ensures PollsOf(log, 1) == 1 && StandingOf(t, world, log, 1) == Standing(1, false, Unknown, None, log[0].at)
    ensures AfterPoll(t, world, log, 0) == []
  {
    StartsWithPoll(t, world, log);
    assert OnTime(t, world, log, 0);
    assert Overrun(world(0)) == 0;
    assert StandingOf(t, world, log, 0) == Standing(0, false, Unknown, None, t.start);
    assert StandingOf(t, world, log, 1) == Then(t, world, PollsOf(log, 1), StandingOf(t, world, log, 0), log[0]);
  }

  lemma SecondPoll(t: Terms, world: nat -> Round, log: seq<Event>)
    requires Whole(t) && Undisturbed(world) && Played(t, world, log) && |log| > 1
    requires FollowedUp(t, world, log, 0)
    ensures log[1].Polled? && t.start <= log[1].at <= t.start + 650_000_000
    ensures PollsOf(log, 2) == 2
    ensures StandingOf(t, world, log, 2) == Standing(2, t.GraceDeadline() <= log[1].at, Unknown, None, log[1].at)
  {
    FirstPoll(t, world, log);
    assert log[1].Polled?;
    assert OnTime(t, world, log, 1);
    assert Overrun(world(1)) == 0;
    assert StandingOf(t, world, log, 2) == Then(t, world, PollsOf(log, 2), StandingOf(t, world, log, 1), log[1]);
  }

  /** What may follow the second poll leaves room for a third. */
  lemma RoomForThird(t: Terms, world: nat -> Round, log: seq<Event>)
    requires Whole(t) && Undisturbed(world) && Played(t, world, log) && |log| > 1
    requires FollowedUp(t, world, log, 0) && FollowedUp(t, world, log, 1)
    requires |log| == 2 + |AfterPoll(t, world, log, 1)|
    ensures Polls(log) == 2
    ensures var s := StandingOf(t, world, log, |log|); t.Left(s.ended) > LADDER[s.rung]
  {
    SecondPoll(t, world, log);
    assert Overrun(world(1)) == 0;
    var (second, tail) := (StandingOf(t, world, log, 2), AfterPoll(t, world, log, 1));
    if |tail| > 0 {
      assert log[2] == tail[0] && PollsOf(log, 3) == 2;
      assert StandingOf(t, world, log, 3) == Then(t, world, 2, second, log[2]);
    }
    if |tail| > 1 {
      assert log[3] == tail[1] && PollsOf(log, 4) == 2;
      assert StandingOf(t, world, log, 4) == Then(t, world, 2, StandingOf(t, world, log, 3), log[3]);
    }
  }

  /** An episode that has the default budget to itself and is not disturbed never reports
      contention before its third poll, however slow every call is within its limit. */
  lemma AtLeastThreePolls(t: Terms, world: nat -> Round, log: seq<Event>, end: Instant, c: Contention)
    requires Whole(t) && Undisturbed(world) && Ends(t, world, log, end, Exhausted(c))
    ensures Polls(log) >= 3
  {
    EndsPlayed(t, world, log, end, Exhausted(c));
    NoStopWithRoom(t, world, log, end);
    if log != [] {
      FirstPoll(t, world, log);
      if |log| > 1 {
        SecondPoll(t, world, log);
        SecondFollowedUp(t, world, log);
      }
    }
  }

  lemma SecondFollowedUp(t: Terms, world: nat -> Round, log: seq<Event>)
    requires Whole(t) && Undisturbed(world) && Played(t, world, log) && |log| > 1
    requires AllFollowedUp(t, world, log, |log|) && log[0].Polled? && log[1].Polled?
    ensures Polls(log) >= 3 || (var s := StandingOf(t, world, log, |log|); t.Left(s.ended) > LADDER[s.rung])
  {
    var next := 2 + |AfterPoll(t, world, log, 1)|;
    assert FollowedUp(t, world, log, 1);
    if |log| == next {
      RoomForThird(t, world, log);
    } else {
      assert log[next].Polled?;
      PollsGrow(log, 2, next + 1);
      PollsGrow(log, next + 1, |log|);
    }
  }
}
