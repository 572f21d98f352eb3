/** The cooperative limit on scdaemon hand-offs: a sliding window over the reservations of
    forwarded and agent operations; direct-local operations are never throttled. */
module Limiter {
  import opened Basics

  const WINDOW: Duration := 10_000_000_000
  const CAPACITY := 2

  datatype Origin = Unclassified | Forwarded | AgentSession | LocalWif | Unlock

  predicate Throttled(o: Origin) {
    o != LocalWif && o != Unlock
  }

  /** Those of the first n reservations that are younger than one window. */
  function KeptOf(handoffs: seq<Instant>, n: nat, now: Instant): seq<Instant>
    requires n <= |handoffs|
  {
    if n == 0 then []
    else if handoffs[n - 1] > now - WINDOW then KeptOf(handoffs, n - 1, now) + [handoffs[n - 1]]
    else KeptOf(handoffs, n - 1, now)
  }

  function Kept(handoffs: seq<Instant>, now: Instant): seq<Instant> {
    KeptOf(handoffs, |handoffs|, now)
  }

  datatype Reservation = Reservation(handoffs: seq<Instant>, allowed: bool, retryAfter: Duration)

  function Reserve(handoffs: seq<Instant>, origin: Origin, now: Instant): Reservation {
    if !Throttled(origin) then Reservation(handoffs, true, 0)
    else
      var kept := Kept(handoffs, now);
      if |kept| >= CAPACITY then Reservation(kept, false, kept[0] + WINDOW - now)
      else Reservation(kept + [now], true, 0)
  }

  class Hardware {
    var handoffs: seq<Instant>

    constructor ()
      ensures handoffs == []
    {
      handoffs := [];
    }

    method ReserveHandoff(origin: Origin, now: Instant) returns (allowed: bool, retryAfter: Duration)
      modifies this
      ensures Reserve(old(handoffs), origin, now) == Reservation(handoffs, allowed, retryAfter)
    {
      if origin == LocalWif || origin == Unlock {
        return true, 0;
      }
      var kept := [];
      for i := 0 to |handoffs|
        invariant handoffs == old(handoffs)
        invariant kept == KeptOf(handoffs, i, now)
      {
        if handoffs[i] > now - WINDOW {
          kept := kept + [handoffs[i]];
        }
      }
      handoffs := kept;
      if |handoffs| >= CAPACITY {
        return false, handoffs[0] + WINDOW - now;
      }
      handoffs := handoffs + [now];
      return true, 0;
    }
  }

  // ---- Runs ---------------------------------------------------------------------

  datatype Attempt = Attempt(origin: Origin, now: Instant)

  /** What the process remembers, and every throttled reservation it ever granted. */
  datatype Ledger = Ledger(handoffs: seq<Instant>, grants: seq<Instant>)

  function Step(l: Ledger, a: Attempt): Ledger {
    var r := Reserve(l.handoffs, a.origin, a.now);
    Ledger(r.handoffs, if Throttled(a.origin) && r.allowed then l.grants + [a.now] else l.grants)
  }

  /** The ledger after the first n attempts on a fresh process. */
  function After(run: seq<Attempt>, n: nat): Ledger
    requires n <= |run|
  {
    if n == 0 then Ledger([], []) else Step(After(run, n - 1), run[n - 1])
  }

  predicate Allows(l: Ledger, a: Attempt) {
    Reserve(l.handoffs, a.origin, a.now).allowed
  }

  predicate ClockMonotone(run: seq<Attempt>) {
    forall i, j :: 0 <= i < j < |run| ==> run[i].now <= run[j].now
  }

  ghost predicate Sorted(s: seq<Instant>, upTo: Instant) {
    (forall i, j :: 0 <= i < j < |s| ==> s[i] <= s[j]) && (forall i :: 0 <= i < |s| ==> s[i] <= upTo)
  }

  /** What the process remembers is the last of the grants, at most two of them, and what it
      has forgotten is a whole window older than now. */
  ghost predicate Remembers(grants: seq<Instant>, handoffs: seq<Instant>, now: Instant) {
    && Sorted(grants, now)
    && |handoffs| <= |grants| && |handoffs| <= CAPACITY
    && (|handoffs| == 1 ==> handoffs[0] == grants[|grants| - 1])
    && (|handoffs| == 2 ==> handoffs[0] == grants[|grants| - 2] && handoffs[1] == grants[|grants| - 1])
    && (forall i :: 0 <= i < |grants| - |handoffs| ==> grants[i] <= now - WINDOW)
  }

  lemma KeptOfTwo(a: Instant, b: Instant, now: Instant)
    ensures Kept([b], now) == if b > now - WINDOW then [b] else []
    ensures a <= b ==> Kept([a, b], now) == if a > now - WINDOW then [a, b] else if b > now - WINDOW then [b] else []
  {
    assert KeptOf([a, b], 1, now) == if a > now - WINDOW then [a] else [];
    assert KeptOf([a, b], 0, now) == KeptOf([b], 0, now) == [];
  }

  /** Pruning leaves a tail of the at most two reservations remembered. */
  lemma PruneRemembers(grants: seq<Instant>, handoffs: seq<Instant>, before: Instant, now: Instant)
    requires Remembers(grants, handoffs, before) && before <= now
    ensures var kept := Kept(handoffs, now);
            Remembers(grants, kept, now) && forall i :: 0 <= i < |kept| ==> kept[i] > now - WINDOW
  {
    if |handoffs| == 2 {
      assert handoffs == [handoffs[0], handoffs[1]];
      KeptOfTwo(handoffs[0], handoffs[1], now);
    } else if |handoffs| == 1 {
      assert handoffs == [handoffs[0]];
      KeptOfTwo(0, handoffs[0], now);
    }
  }

  lemma GrantRemembers(grants: seq<Instant>, kept: seq<Instant>, now: Instant)
    requires Remembers(grants, kept, now) && |kept| < CAPACITY
    ensures Remembers(grants + [now], kept + [now], now)
  {
  }

  lemma StepRemembers(l: Ledger, before: Instant, a: Attempt)
    requires Remembers(l.grants, l.handoffs, before) && before <= a.now
    ensures Remembers(Step(l, a).grants, Step(l, a).handoffs, a.now)
  {
    PruneRemembers(l.grants, l.handoffs, before, a.now);
    if Throttled(a.origin) && |Kept(l.handoffs, a.now)| < CAPACITY {
      GrantRemembers(l.grants, Kept(l.handoffs, a.now), a.now);
    }
  }

  lemma {:induction false} RunRemembers(run: seq<Attempt>, n: nat, now: Instant)
    requires ClockMonotone(run) && n <= |run| && (n > 0 ==> run[n - 1].now <= now)
    ensures Remembers(After(run, n).grants, After(run, n).handoffs, now)
  {
    if n > 0 {
      RunRemembers(run, n - 1, run[n - 1].now);
      StepRemembers(After(run, n - 1), run[n - 1].now, run[n - 1]);
    }
  }

  // ---- The window law ---------------------------------------------------------------

  /** Every reading is at most d behind every earlier one. */
  predicate StaleBy(run: seq<Attempt>, d: Duration) {
    forall i, j :: 0 <= i < j < |run| ==> run[i].now <= run[j].now + d
  }

  /** How many of the first n instants are later than cut. */
  function Above(s: seq<Instant>, n: nat, cut: Instant): nat
    requires n <= |s|
  {
    if n == 0 then 0 else Above(s, n - 1, cut) + if s[n - 1] > cut then 1 else 0
  }

  /** How many of the first n grants fall into the half-open window of that length at from. */
  function GrantedOf(grants: seq<Instant>, n: nat, from: Instant, length: Duration): nat
    requires n <= |grants|
  {
    if n == 0 then 0 else GrantedOf(grants, n - 1, from, length) + if from <= grants[n - 1] < from + length then 1 else 0
  }

  function GrantedIn(grants: seq<Instant>, from: Instant, length: Duration): nat {
    GrantedOf(grants, |grants|, from, length)
  }

  lemma {:induction false} AboveOfPrefix(s: seq<Instant>, n: nat, x: Instant, cut: Instant)
    requires n <= |s|
    ensures Above(s + [x], n, cut) == Above(s, n, cut)
  {
    if n > 0 {
      AboveOfPrefix(s, n - 1, x, cut);
    }
  }

  lemma AboveOneMore(s: seq<Instant>, x: Instant, cut: Instant)
    ensures Above(s + [x], |s| + 1, cut) == Above(s, |s|, cut) + if x > cut then 1 else 0
  {
    AboveOfPrefix(s, |s|, x, cut);
  }

  lemma {:induction false} AboveAtMost(s: seq<Instant>, n: nat, cut: Instant, lower: Instant)
    requires n <= |s| && lower <= cut
    ensures Above(s, n, cut) <= Above(s, n, lower) <= n
  {
    if n > 0 {
      AboveAtMost(s, n - 1, cut, lower);
    }
  }

  lemma {:induction false} PruningKeepsAbove(s: seq<Instant>, n: nat, now: Instant, cut: Instant)
    requires n <= |s| && now - WINDOW <= cut
    ensures Above(KeptOf(s, n, now), |KeptOf(s, n, now)|, cut) == Above(s, n, cut)
  {
    if n > 0 {
      PruningKeepsAbove(s, n - 1, now, cut);
      AboveOneMore(KeptOf(s, n - 1, now), s[n - 1], cut);
    }
  }

  /** Of the grants no older than a window before the latest reading, none is forgotten. */
  ghost predicate Accounts(l: Ledger, latest: Instant) {
    forall cut :: latest - WINDOW <= cut ==> Above(l.grants, |l.grants|, cut) == Above(l.handoffs, |l.handoffs|, cut)
  }

  /** At each grant at most one other was later than the window that ends d after it. */
  ghost predicate Sparse(grants: seq<Instant>, n: nat, d: Duration)
    requires n <= |grants|
  {
    forall k {:trigger grants[k]} :: 0 <= k < n ==> Above(grants, k, grants[k] + d - WINDOW) < CAPACITY
  }

  lemma StepAccounts(l: Ledger, a: Attempt, latest: Instant)
    requires Accounts(l, latest) && a.now <= latest
    ensures Accounts(Step(l, a), latest)
  {
    var (kept, l') := (Kept(l.handoffs, a.now), Step(l, a));
    forall cut | latest - WINDOW <= cut
      ensures Above(l'.grants, |l'.grants|, cut) == Above(l'.handoffs, |l'.handoffs|, cut)
    {
      PruningKeepsAbove(l.handoffs, |l.handoffs|, a.now, cut);
      AboveOneMore(l.grants, a.now, cut);
      AboveOneMore(kept, a.now, cut);
    }
  }

  lemma GrantStaysSparse(l: Ledger, a: Attempt, latest: Instant, d: Duration)
    requires Accounts(l, latest) && a.now <= latest <= a.now + d && |Kept(l.handoffs, a.now)| < CAPACITY
    ensures Above(l.grants, |l.grants|, a.now + d - WINDOW) < CAPACITY
  {
    var (kept, cut) := (Kept(l.handoffs, a.now), a.now + d - WINDOW);
    PruningKeepsAbove(l.handoffs, |l.handoffs|, a.now, cut);
    AboveAtMost(kept, |kept|, cut, cut);
  }

  lemma SparseOneMore(grants: seq<Instant>, x: Instant, d: Duration)
    requires Sparse(grants, |grants|, d) && Above(grants, |grants|, x + d - WINDOW) < CAPACITY
    ensures Sparse(grants + [x], |grants| + 1, d)
  {
    var more := grants + [x];
    forall k | 0 <= k < |more| ensures Above(more, k, more[k] + d - WINDOW) < CAPACITY {
      AboveOfPrefix(grants, k, x, more[k] + d - WINDOW);
      if k < |grants| {
        assert more[k] == grants[k];
      }
    }
  }

  /** The latest of the first n readings. */
  function Latest(run: seq<Attempt>, n: nat): Instant
    requires 0 < n <= |run|
  {
    if n == 1 || run[n - 1].now > Latest(run, n - 1) then run[n - 1].now else Latest(run, n - 1)
  }

  lemma {:induction false} LatestIsRead(run: seq<Attempt>, n: nat) returns (i: nat)
    requires 0 < n <= |run|
    ensures i < n && Latest(run, n) == run[i].now
  {
    i := n - 1;
    if Latest(run, n) != run[n - 1].now {
      i := LatestIsRead(run, n - 1);
    }
  }

  lemma {:induction false} RunStaysSparse(run: seq<Attempt>, n: nat, d: Duration)
    requires d >= 0 && StaleBy(run, d) && n <= |run|
    ensures Sparse(After(run, n).grants, |After(run, n).grants|, d)
    ensures n > 0 ==> Accounts(After(run, n), Latest(run, n))
  {
    if n > 0 {
      var (l, a, latest) := (After(run, n - 1), run[n - 1], Latest(run, n));
      RunStaysSparse(run, n - 1, d);
      var i := LatestIsRead(run, n);
      StepAccounts(l, a, latest);
      if Throttled(a.origin) && |Kept(l.handoffs, a.now)| < CAPACITY {
        GrantStaysSparse(l, a, latest, d);
        SparseOneMore(l.grants, a.now, d);
      }
    }
  }

  lemma {:induction false} WindowWithinAbove(grants: seq<Instant>, n: nat, from: Instant, length: Duration, cut: Instant)
    requires n <= |grants| && cut < from
    ensures GrantedOf(grants, n, from, length) <= Above(grants, n, cut)
  {
    if n > 0 {
      WindowWithinAbove(grants, n - 1, from, length, cut);
    }
  }

  lemma {:induction false} FewWhenSparse(grants: seq<Instant>, n: nat, from: Instant, d: Duration)
    requires n <= |grants| && Sparse(grants, n, d)
    ensures GrantedOf(grants, n, from, WINDOW - d) <= CAPACITY
  {
    if n > 0 {
      FewWhenSparse(grants, n - 1, from, d);
      if from <= grants[n - 1] < from + (WINDOW - d) {
        WindowWithinAbove(grants, n - 1, from, WINDOW - d, grants[n - 1] + d - WINDOW);
      }
    }
  }

  lemma FewInTenSeconds(grants: seq<Instant>, from: Instant, d: Duration)
    requires Sparse(grants, |grants|, d)
    ensures GrantedIn(grants, from, 10_000_000_000 - d) <= 2
  {
    FewWhenSparse(grants, |grants|, from, d);
  }

  /** The limit and what it needs of the clock: over any run whose readings are never more
      than d behind an earlier one, every half-open window shorter by d than ten seconds,
      wherever it starts, holds at most two throttled hand-offs. */
  lemma AtMostTwoPerWindow(run: seq<Attempt>, d: Duration, from: Instant)
    requires d >= 0 && StaleBy(run, d)
    ensures GrantedIn(After(run, |run|).grants, from, 10_000_000_000 - d) <= 2
  {
    RunStaysSparse(run, |run|, d);
    FewInTenSeconds(After(run, |run|).grants, from, d);
  }

  /** Attempt d is refused and told to come back at retryAt. */
  predicate Denied(run: seq<Attempt>, d: nat, retryAt: Instant)
    requires d < |run|
  {
    var r := Reserve(After(run, d).handoffs, run[d].origin, run[d].now);
    !r.allowed && retryAt == run[d].now + r.retryAfter
  }

  /** A denial is exact: every throttled attempt before the instant it names is denied too,
      however many there are, and the first one at that instant is granted. */
  lemma RetryAfterIsExact(run: seq<Attempt>, d: nat, retryAt: Instant, k: nat)
    requires ClockMonotone(run) && d < k <= |run| && Denied(run, d, retryAt)
    requires forall i :: d < i < k ==> run[i].now < retryAt
    ensures run[d].now < retryAt <= run[d].now + 10_000_000_000
    ensures After(run, k).grants == After(run, d).grants
    ensures k < |run| && run[k].now == retryAt ==> Allows(After(run, k), run[k])
  {
    var standing := DenialLeaves(run, d, retryAt);
    StillDenied(run, d + 1, standing, k);
    if k < |run| && run[k].now == retryAt {
      OldestRunsOut(standing, run[k].origin);
    }
  }

  lemma DenialLeaves(run: seq<Attempt>, d: nat, retryAt: Instant) returns (standing: seq<Instant>)
    requires ClockMonotone(run) && d < |run| && Denied(run, d, retryAt)
    ensures |standing| == CAPACITY && standing[0] <= standing[1]
    ensures After(run, d + 1) == Ledger(standing, After(run, d).grants)
    ensures retryAt == standing[0] + WINDOW && run[d].now < retryAt <= run[d].now + WINDOW
  {
    var (l, now) := (After(run, d), run[d].now);
    RunRemembers(run, d, now);
    PruneRemembers(l.grants, l.handoffs, now, now);
    standing := Kept(l.handoffs, now);
    assert standing[0] == l.grants[|l.grants| - CAPACITY] && standing[1] == l.grants[|l.grants| - 1];
  }

  lemma OldestRunsOut(standing: seq<Instant>, origin: Origin)
    requires |standing| == CAPACITY && standing[0] <= standing[1]
    ensures Reserve(standing, origin, standing[0] + WINDOW).allowed
  {
    assert standing == [standing[0], standing[1]];
    KeptOfTwo(standing[0], standing[1], standing[0] + WINDOW);
  }

  lemma StandsUntil(l: Ledger, a: Attempt)
    requires |l.handoffs| == CAPACITY && l.handoffs[0] <= l.handoffs[1] && a.now < l.handoffs[0] + WINDOW
    ensures Step(l, a) == l
  {
    assert l.handoffs == [l.handoffs[0], l.handoffs[1]];
    KeptOfTwo(l.handoffs[0], l.handoffs[1], a.now);
  }

  /** With two reservations standing, nothing is granted until the older one runs out. */
  lemma {:induction false} StillDenied(run: seq<Attempt>, start: nat, standing: seq<Instant>, k: nat)
    requires start <= k <= |run|
    requires After(run, start).handoffs == standing && |standing| == CAPACITY && standing[0] <= standing[1]
    requires forall i :: start <= i < k ==> run[i].now < standing[0] + WINDOW
    ensures After(run, k) == After(run, start)
    decreases k
  {
    if start < k {
      StillDenied(run, start, standing, k - 1);
      StandsUntil(After(run, k - 1), run[k - 1]);
    }
  }

  lemma Granted(l: Ledger, a: Attempt, kept: seq<Instant>)
    requires Throttled(a.origin) && Kept(l.handoffs, a.now) == kept && |kept| < CAPACITY
    ensures Step(l, a) == Ledger(kept + [a.now], l.grants + [a.now])
  {
  }

  lemma FirstTwoGranted(l: Ledger, a: Attempt, b: Attempt)
    requires Throttled(a.origin) && Throttled(b.origin) && a.now <= b.now < a.now + WINDOW
    requires |l.handoffs| == 0 && |l.grants| == 0
    ensures Step(Step(l, a), b) == Ledger([a.now, b.now], [a.now, b.now])
  {
    Granted(l, a, l.handoffs);
    assert l.handoffs + [a.now] == [a.now] == l.grants + [a.now];
    KeptOfTwo(a.now, a.now, b.now);
    Granted(Step(l, a), b, [a.now]);
  }

  /** The third attempt prunes both; the fourth, with a reading from before it, sees only
      the third. */
  lemma NextTwoGranted(l: Ledger, a: Instant, b: Instant, c: Attempt, d: Attempt)
    requires Throttled(c.origin) && Throttled(d.origin) && a <= b && b + WINDOW <= c.now && d.now < c.now
    requires l == Ledger([a, b], [a, b])
    ensures Step(Step(l, c), d).grants == [a, b, c.now, d.now]
  {
    KeptOfTwo(a, b, c.now);
    var none: seq<Instant> := Kept(l.handoffs, c.now);
    Granted(l, c, none);
    assert none + [c.now] == [c.now];
    KeptOfTwo(c.now, c.now, d.now);
    Granted(Step(l, c), d, [c.now]);
  }

  lemma ThreeOfFour(grants: seq<Instant>, from: Instant, length: Duration)
    requires |grants| == 4 && from + length <= grants[2]
    requires forall i :: 0 <= i < 4 && i != 2 ==> from <= grants[i] < from + length
    ensures GrantedIn(grants, from, length) == 3
  {
    assert GrantedOf(grants, 1, from, length) == 1;
    assert GrantedOf(grants, 2, from, length) == 2;
    assert GrantedOf(grants, 3, from, length) == 2;
  }

  lemma GrantsOfFour(run: seq<Attempt>, length: Duration)
    requires |run| == 4 && forall i :: 0 <= i < 4 ==> Throttled(run[i].origin)
    requires run[0].now <= run[3].now < run[0].now + length && run[0].now <= run[1].now < run[0].now + length
    requires run[1].now + WINDOW <= run[2].now && length <= WINDOW
    ensures GrantedIn(After(run, 4).grants, run[0].now, length) == 3
  {
    var start := After(run, 0);
    FirstTwoGranted(start, run[0], run[1]);
    assert After(run, 1) == Step(start, run[0]);
    assert After(run, 2) == Step(After(run, 1), run[1]);
    NextTwoGranted(After(run, 2), run[0].now, run[1].now, run[2], run[3]);
    assert After(run, 3) == Step(After(run, 2), run[2]);
    assert After(run, 4) == Step(After(run, 3), run[3]);
    ThreeOfFour(After(run, 4).grants, run[0].now, length);
  }

  /** The law is exact: with readings up to d stale, however small d is, a window one
      nanosecond longer can hold three. An attempt that read the clock before another but
      reached the lock after it is the third. */
  lemma StaleReadExceedsLimit(d: Duration) returns (run: seq<Attempt>)
    requires 0 < d <= 10_000_000_000
    ensures StaleBy(run, d) && GrantedIn(After(run, |run|).grants, 0, 10_000_000_000 - d + 1) > 2
  {
    run := [Attempt(Forwarded, 0), Attempt(Forwarded, 0), Attempt(Forwarded, WINDOW), Attempt(Forwarded, WINDOW - d)];
    GrantsOfFour(run, WINDOW - d + 1);
  }

  // ---- Who is throttled, and when ----------------------------------------------------

  lemma {:induction false} KeptAreAbove(s: seq<Instant>, n: nat, now: Instant)
    requires n <= |s|
    ensures var kept := KeptOf(s, n, now); Above(kept, |kept|, now - WINDOW) == |kept|
  {
    if n > 0 {
      KeptAreAbove(s, n - 1, now);
      AboveOneMore(KeptOf(s, n - 1, now), s[n - 1], now - WINDOW);
    }
  }

  lemma {:induction false} LatestIsLast(run: seq<Attempt>, n: nat)
    requires ClockMonotone(run) && 0 < n <= |run|
    ensures Latest(run, n) <= run[n - 1].now
  {
    if n > 1 {
      LatestIsLast(run, n - 1);
    }
  }

  /** Local and unlock operations always have room; any other unless two grants to such were
      made in the last ten seconds. */
  predicate RoomFor(grants: seq<Instant>, a: Attempt) {
    a.origin == LocalWif || a.origin == Unlock || Above(grants, |grants|, a.now - 10_000_000_000) < 2
  }

  /** Exactly who is let through: local and unlock operations always; a forwarded, agent or
      unclassified one unless two of those have been granted in the last ten seconds. */
  lemma AllowedIff(run: seq<Attempt>, k: nat)
    requires ClockMonotone(run) && k < |run|
    ensures Allows(After(run, k), run[k]) <==> RoomFor(After(run, k).grants, run[k])
  {
    AccountsAt(run, k);
    CountDecides(After(run, k), run[k]);
  }

  lemma CountDecides(l: Ledger, a: Attempt)
    requires Accounts(l, a.now)
    ensures Allows(l, a) <==> RoomFor(l.grants, a)
  {
    KeptAreCounted(l, a.now);
    AllowsByKept(l, a);
  }

  lemma AllowsByKept(l: Ledger, a: Attempt)
    ensures Allows(l, a) <==> a.origin in {LocalWif, Unlock} || |Kept(l.handoffs, a.now)| < 2
  {
  }

  lemma AccountsAt(run: seq<Attempt>, k: nat)
    requires ClockMonotone(run) && k < |run|
    ensures Accounts(After(run, k), run[k].now)
  {
    RunStaysSparse(run, k, 0);
    if k > 0 {
      LatestIsLast(run, k);
    }
  }

  /** What is kept now are the grants of the last ten seconds. */
  lemma KeptAreCounted(l: Ledger, now: Instant)
    requires Accounts(l, now)
    ensures |Kept(l.handoffs, now)| == Above(l.grants, |l.grants|, now - 10_000_000_000)
  {
    PruningKeepsAbove(l.handoffs, |l.handoffs|, now, now - WINDOW);
    KeptAreAbove(l.handoffs, |l.handoffs|, now);
  }
}
