/** The rolling record of mints: pruned as it grows, counted on demand, and the source of one
    warning per busy session. The theorems compare it with the full history nobody keeps. */
module MintRing {
  import opened Basics

  const RING_WINDOW: Duration := 3_600_000_000_000
  const RING_CAP := 4096
  const MINUTE: Duration := 60_000_000_000
  const WARN_WINDOW: Duration := 300_000_000_000
  const WARN_THRESHOLD := 30

  datatype Mint = Mint(at: Instant, alias: string, session: string, reused: bool)

  /** Those of the first n mints that are younger than the cutoff. */
  function PrunedOf(s: seq<Mint>, n: nat, cutoff: Instant): seq<Mint>
    requires n <= |s|
  {
    if n == 0 then []
    else if s[n - 1].at > cutoff then PrunedOf(s, n - 1, cutoff) + [s[n - 1]]
    else PrunedOf(s, n - 1, cutoff)
  }

  function Pruned(s: seq<Mint>, cutoff: Instant): seq<Mint> {
    PrunedOf(s, |s|, cutoff)
  }

  function Capped(s: seq<Mint>): seq<Mint> {
    if |s| > RING_CAP then s[|s| - RING_CAP..] else s
  }

  /** How many of the first n mints are of one session and younger than since. */
  function RecentOf(s: seq<Mint>, n: nat, session: string, since: Instant): nat
    requires n <= |s|
  {
    if n == 0 then 0
    else RecentOf(s, n - 1, session, since) + if s[n - 1].session == session && s[n - 1].at > since then 1 else 0
  }

  function Recent(s: seq<Mint>, session: string, since: Instant): nat {
    RecentOf(s, |s|, session, since)
  }

  type WarnedAt = map<string, Instant>

  datatype State = State(ring: seq<Mint>, warnedAt: WarnedAt)

  const EMPTY := State([], map[])

  function RingAfter(ring: seq<Mint>, m: Mint): seq<Mint> {
    Capped(Pruned(ring + [m], m.at - RING_WINDOW))
  }

  /** A session is warned about when it crosses the threshold, once per window; ring already
      holds the mint. */
  predicate Warns(ring: seq<Mint>, warnedAt: WarnedAt, m: Mint) {
    && m.session != ""
    && Recent(ring, m.session, m.at - WARN_WINDOW) >= WARN_THRESHOLD
    && !(m.session in warnedAt && warnedAt[m.session] > m.at - WARN_WINDOW)
  }

  function Forgotten(warnedAt: WarnedAt, cutoff: Instant): WarnedAt {
    map session | session in warnedAt && warnedAt[session] > cutoff :: warnedAt[session]
  }

  function WarnedAfter(warnedAt: WarnedAt, m: Mint, warned: bool): WarnedAt {
    if m.session == "" then warnedAt
    else Forgotten(if warned then warnedAt[m.session := m.at] else warnedAt, m.at - RING_WINDOW)
  }

  function Recorded(st: State, m: Mint): State {
    var ring := RingAfter(st.ring, m);
    State(ring, WarnedAfter(st.warnedAt, m, Warns(ring, st.warnedAt, m)))
  }

  // ---- Counters -----------------------------------------------------------------

  /** The things the status report counts. */
  datatype Measure = Total60m | Signatures60m | Total5m | Total1m | OfAlias(alias: string) | OfSession(session: string)

  predicate Counts(what: Measure, m: Mint, now: Instant) {
    && now - m.at < RING_WINDOW
    && match what
       case Total60m => true
       case Signatures60m => !m.reused
       case Total5m => now - m.at < WARN_WINDOW
       case Total1m => now - m.at < MINUTE
       case OfAlias(alias) => alias != "" && m.alias == alias
       case OfSession(session) => session != "" && m.session == session
  }

  function TallyOf(what: Measure, s: seq<Mint>, n: nat, now: Instant): nat
    requires n <= |s|
  {
    if n == 0 then 0 else TallyOf(what, s, n - 1, now) + if Counts(what, s[n - 1], now) then 1 else 0
  }

  function Tally(what: Measure, s: seq<Mint>, now: Instant): nat {
    TallyOf(what, s, |s|, now)
  }

  datatype Counters = Counters(
    total60m: nat, signatures60m: nat, total5m: nat, total1m: nat,
    perAlias: map<string, nat>, perSession: map<string, nat>)

  /** The report says what these mints amount to at now, and nothing when that is nothing. */
  ghost predicate Reports(report: Option<Counters>, s: seq<Mint>, now: Instant) {
    match report
    case None => Tally(Total60m, s, now) == 0
    case Some(c) => Tally(Total60m, s, now) > 0 && Counted(c, s, |s|, now)
  }

  ghost predicate Counted(c: Counters, s: seq<Mint>, n: nat, now: Instant)
    requires n <= |s|
  {
    && c.total60m == TallyOf(Total60m, s, n, now) && c.signatures60m == TallyOf(Signatures60m, s, n, now)
    && c.total5m == TallyOf(Total5m, s, n, now) && c.total1m == TallyOf(Total1m, s, n, now)
    && CountedByAlias(c.perAlias, s, n, now) && CountedBySession(c.perSession, s, n, now)
  }

  /** Every alias with mints in the window has its number of them, and no other is listed. */
  ghost predicate CountedByAlias(counts: map<string, nat>, s: seq<Mint>, n: nat, now: Instant)
    requires n <= |s|
  {
    forall a :: Count(counts, a) == TallyOf(OfAlias(a), s, n, now) && (a in counts ==> counts[a] > 0)
  }

  ghost predicate CountedBySession(counts: map<string, nat>, s: seq<Mint>, n: nat, now: Instant)
    requires n <= |s|
  {
    forall a :: Count(counts, a) == TallyOf(OfSession(a), s, n, now) && (a in counts ==> counts[a] > 0)
  }

  function Count(counts: map<string, nat>, name: string): nat {
    if name in counts then counts[name] else 0
  }

  function Bumped(counts: map<string, nat>, name: string): map<string, nat> {
    if name == "" then counts else counts[name := Count(counts, name) + 1]
  }

  class MintLog {
    var ring: seq<Mint>
    var warnedAt: WarnedAt

    constructor ()
      ensures View() == EMPTY
    {
      ring, warnedAt := [], map[];
    }

    function View(): State
      reads this
    {
      State(ring, warnedAt)
    }

    /** Appends one completed mint and reports whether its session is to be warned about. */
    method RecordMint(m: Mint) returns (warned: bool)
      modifies this
      ensures View() == Recorded(old(View()), m) && warned == Warns(ring, old(warnedAt), m)
    {
      Append(m);
      warned := false;
      if m.session != "" {
        var recent := CountRecent(ring, m.session, m.at - WARN_WINDOW);
        warned := recent >= WARN_THRESHOLD && !(m.session in warnedAt && warnedAt[m.session] > m.at - WARN_WINDOW);
        Remember(m, warned);
      }
    }

    method Append(m: Mint)
      modifies this`ring
      ensures ring == RingAfter(old(ring), m)
    {
      ring := Prune(ring + [m], m.at - RING_WINDOW);
      if |ring| > RING_CAP {
        ring := ring[|ring| - RING_CAP..];
      }
    }

    method Remember(m: Mint, warned: bool)
      modifies this`warnedAt
      ensures warnedAt == Forgotten(if warned then old(warnedAt)[m.session := m.at] else old(warnedAt), m.at - RING_WINDOW)
    {
      if warned {
        warnedAt := warnedAt[m.session := m.at];
      }
      warnedAt := Forget(warnedAt, m.at - RING_WINDOW);
    }

    /** Aggregates the ring without pruning it. */
    method MintCounters(now: Instant) returns (report: Option<Counters>)
      ensures Reports(report, ring, now)
    {
      var c := Counters(0, 0, 0, 0, map[], map[]);
      for i := 0 to |ring|
        invariant Counted(c, ring, i, now)
      {
        c := WithMint(c, ring, i, now);
      }
      report := if c.total60m == 0 then None else Some(c);
    }
  }

  /** The body of the counting loop. */
  method WithMint(c: Counters, s: seq<Mint>, i: nat, now: Instant) returns (c': Counters)
    requires i < |s| && Counted(c, s, i, now)
    ensures Counted(c', s, i + 1, now)
  {
    c' := c;
    var age := now - s[i].at;
    if age < RING_WINDOW {
      c' := Counters(c.total60m + 1, if s[i].reused then c.signatures60m else c.signatures60m + 1,
                     if age < WARN_WINDOW then c.total5m + 1 else c.total5m,
                     if age < MINUTE then c.total1m + 1 else c.total1m,
                     Bumped(c.perAlias, s[i].alias), Bumped(c.perSession, s[i].session));
    }
  }

  method Prune(s: seq<Mint>, cutoff: Instant) returns (kept: seq<Mint>)
    ensures kept == Pruned(s, cutoff)
  {
    kept := [];
    for i := 0 to |s|
      invariant kept == PrunedOf(s, i, cutoff)
    {
      if s[i].at > cutoff {
        kept := kept + [s[i]];
      }
    }
  }

  method CountRecent(s: seq<Mint>, session: string, since: Instant) returns (recent: nat)
    ensures recent == Recent(s, session, since)
  {
    recent := 0;
    for i := 0 to |s|
      invariant recent == RecentOf(s, i, session, since)
    {
      if s[i].session == session && s[i].at > since {
        recent := recent + 1;
      }
    }
  }

  method Forget(warnedAt: WarnedAt, cutoff: Instant) returns (kept: WarnedAt)
    ensures kept == Forgotten(warnedAt, cutoff)
  {
    kept := warnedAt;
    var names := warnedAt.Keys;
    while names != {}
      invariant names <= warnedAt.Keys && kept.Keys <= warnedAt.Keys
      invariant forall w :: w in kept ==> kept[w] == warnedAt[w]
      invariant forall w :: w in names ==> w in kept
      invariant forall w :: w in warnedAt && w !in names ==> (w in kept <==> warnedAt[w] > cutoff)
      decreases names
    {
      var name :| name in names;
      names := names - {name};
      if kept[name] <= cutoff {
        kept := kept - {name};
      }
    }
  }

  // ---- Ring and history -----------------------------------------------------------

  /** The ring after the first n mints of a history; the warnings do not influence it. */
  function RingAt(history: seq<Mint>, n: nat): seq<Mint>
    requires n <= |history|
  {
    if n == 0 then [] else RingAfter(RingAt(history, n - 1), history[n - 1])
  }

  function MapAt(history: seq<Mint>, n: nat): WarnedAt
    requires n <= |history|
    decreases n, 0
  {
    if n == 0 then map[] else WarnedAfter(MapAt(history, n - 1), history[n - 1], WarnedAbout(history, n - 1))
  }

  predicate WarnedAbout(history: seq<Mint>, i: nat)
    requires i < |history|
    decreases i, 1
  {
    Warns(RingAt(history, i + 1), MapAt(history, i), history[i])
  }

  /** The state after the first n mints of a history. */
  function StateAfter(history: seq<Mint>, n: nat): State
    requires n <= |history|
  {
    if n == 0 then EMPTY else Recorded(StateAfter(history, n - 1), history[n - 1])
  }

  lemma {:induction false} StateByParts(history: seq<Mint>, n: nat)
    requires n <= |history|
    ensures StateAfter(history, n) == State(RingAt(history, n), MapAt(history, n))
  {
    if n > 0 {
      StateByParts(history, n - 1);
    }
  }

  predicate Fits(ring: seq<Mint>, m: Mint) {
    |Pruned(ring + [m], m.at - RING_WINDOW)| <= RING_CAP
  }

  /** The cap was never reached while the first n mints were recorded. */
  predicate NeverFull(history: seq<Mint>, n: nat)
    requires n <= |history|
  {
    forall i {:trigger RingAt(history, i)} :: 0 <= i < n ==> Fits(RingAt(history, i), history[i])
  }

  predicate NotAheadOf(history: seq<Mint>, now: Instant) {
    forall i :: 0 <= i < |history| ==> history[i].at <= now
  }

  lemma {:induction false} TallyOfPrefix(what: Measure, s: seq<Mint>, m: Mint, n: nat, now: Instant)
    requires n <= |s|
    ensures TallyOf(what, s + [m], n, now) == TallyOf(what, s, n, now)
  {
    if n > 0 {
      TallyOfPrefix(what, s, m, n - 1, now);
    }
  }

  lemma TallyOneMore(what: Measure, s: seq<Mint>, m: Mint, now: Instant)
    ensures Tally(what, s + [m], now) == Tally(what, s, now) + if Counts(what, m, now) then 1 else 0
  {
    TallyOfPrefix(what, s, m, |s|, now);
  }

  lemma {:induction false} PruningHidesNothing(what: Measure, s: seq<Mint>, n: nat, cutoff: Instant, now: Instant)
    requires n <= |s| && cutoff + RING_WINDOW <= now
    ensures Tally(what, PrunedOf(s, n, cutoff), now) == TallyOf(what, s, n, now)
  {
    if n > 0 {
      PruningHidesNothing(what, s, n - 1, cutoff, now);
      TallyOneMore(what, PrunedOf(s, n - 1, cutoff), s[n - 1], now);
    }
  }

  lemma RingTalliesOneMore(what: Measure, ring: seq<Mint>, m: Mint, now: Instant)
    requires m.at <= now && Fits(ring, m)
    ensures Tally(what, RingAfter(ring, m), now) == Tally(what, ring, now) + if Counts(what, m, now) then 1 else 0
  {
    PruningHidesNothing(what, ring + [m], |ring| + 1, m.at - RING_WINDOW, now);
    TallyOneMore(what, ring, m, now);
  }

  lemma {:induction false} RingTallies(what: Measure, history: seq<Mint>, n: nat, now: Instant)
    requires n <= |history| && NeverFull(history, n) && NotAheadOf(history, now)
    ensures Tally(what, RingAt(history, n), now) == TallyOf(what, history, n, now)
  {
    if n > 0 {
      RingTallies(what, history, n - 1, now);
      RingTalliesOneMore(what, RingAt(history, n - 1), history[n - 1], now);
    }
  }

  lemma EqualTalliesEqualReports(report: Option<Counters>, s1: seq<Mint>, s2: seq<Mint>, now: Instant)
    requires forall what :: Tally(what, s1, now) == Tally(what, s2, now)
    ensures Reports(report, s1, now) ==> Reports(report, s2, now)
  {
    assert Tally(Total60m, s1, now) == Tally(Total60m, s2, now);
    assert Tally(Signatures60m, s1, now) == Tally(Signatures60m, s2, now);
    assert Tally(Total5m, s1, now) == Tally(Total5m, s2, now);
    assert Tally(Total1m, s1, now) == Tally(Total1m, s2, now);
    assert forall a :: Tally(OfAlias(a), s1, now) == Tally(OfAlias(a), s2, now);
    assert forall a :: Tally(OfSession(a), s1, now) == Tally(OfSession(a), s2, now);
  }

  /** The ring agrees with the whole history: whatever order the mints were recorded in, a
      report is right for the ring if and only if it is right for every mint ever recorded. */
  lemma RingReportsTheHistory(report: Option<Counters>, history: seq<Mint>, now: Instant)
    requires NeverFull(history, |history|) && NotAheadOf(history, now)
    ensures Reports(report, StateAfter(history, |history|).ring, now) <==> Reports(report, history, now)
  {
    var ring := RingAt(history, |history|);
    StateByParts(history, |history|);
    forall what: Measure ensures Tally(what, ring, now) == Tally(what, history, now) {
      RingTallies(what, history, |history|, now);
    }
    EqualTalliesEqualReports(report, ring, history, now);
    EqualTalliesEqualReports(report, history, ring, now);
  }

  function CountedMints(what: Measure, s: seq<Mint>, n: nat, now: Instant): set<int>
    requires n <= |s|
  {
    set i | 0 <= i < n && Counts(what, s[i], now)
  }

  lemma CountedOneMore(what: Measure, s: seq<Mint>, n: nat, now: Instant)
    requires n < |s|
    ensures |CountedMints(what, s, n + 1, now)| == |CountedMints(what, s, n, now)| + if Counts(what, s[n], now) then 1 else 0
  {
    if Counts(what, s[n], now) {
      assert CountedMints(what, s, n + 1, now) == CountedMints(what, s, n, now) + {n};
    } else {
      assert CountedMints(what, s, n + 1, now) == CountedMints(what, s, n, now);
    }
  }

  lemma {:induction false} TallyIsSize(what: Measure, s: seq<Mint>, n: nat, now: Instant)
    requires n <= |s|
    ensures TallyOf(what, s, n, now) == |CountedMints(what, s, n, now)|
  {
    if n > 0 {
      TallyIsSize(what, s, n - 1, now);
      CountedOneMore(what, s, n - 1, now);
    } else {
      assert CountedMints(what, s, n, now) == {};
    }
  }

  /** What the report's figures are: how many of the mints recorded are younger than an hour,
      how many of those were signatures, and how many are younger than five minutes or one. */
  lemma TotalsAre(c: Counters, s: seq<Mint>, now: Instant)
    requires Reports(Some(c), s, now)
    ensures c.total60m == |set i | 0 <= i < |s| && now - s[i].at < 3_600_000_000_000| > 0
    ensures c.signatures60m == |set i | 0 <= i < |s| && now - s[i].at < 3_600_000_000_000 && !s[i].reused|
    ensures c.total5m == |set i | 0 <= i < |s| && now - s[i].at < 300_000_000_000|
    ensures c.total1m == |set i | 0 <= i < |s| && now - s[i].at < 60_000_000_000|
  {
    TallyIsSize(Total60m, s, |s|, now);
    TallyIsSize(Signatures60m, s, |s|, now);
    TallyIsSize(Total5m, s, |s|, now);
    TallyIsSize(Total1m, s, |s|, now);
    assert CountedMints(Total60m, s, |s|, now) == set i | 0 <= i < |s| && now - s[i].at < 3_600_000_000_000;
    assert CountedMints(Signatures60m, s, |s|, now)
        == set i | 0 <= i < |s| && now - s[i].at < 3_600_000_000_000 && !s[i].reused;
    assert CountedMints(Total5m, s, |s|, now) == set i | 0 <= i < |s| && now - s[i].at < 300_000_000_000;
    assert CountedMints(Total1m, s, |s|, now) == set i | 0 <= i < |s| && now - s[i].at < 60_000_000_000;
  }

  /** And every alias and session with mints in that hour is listed with its number of them,
      and no other. */
  lemma ListsAre(c: Counters, s: seq<Mint>, now: Instant, name: string)
    requires Reports(Some(c), s, now)
    ensures var minted := set i | 0 <= i < |s| && now - s[i].at < 3_600_000_000_000 && s[i].alias == name;
            (name in c.perAlias <==> name != "" && minted != {}) && (name in c.perAlias ==> c.perAlias[name] == |minted|)
    ensures var minted := set i | 0 <= i < |s| && now - s[i].at < 3_600_000_000_000 && s[i].session == name;
            (name in c.perSession <==> name != "" && minted != {}) && (name in c.perSession ==> c.perSession[name] == |minted|)
  {
    ListedAs(c.perAlias, OfAlias(name), s, now, name, set i | 0 <= i < |s| && now - s[i].at < 3_600_000_000_000 && s[i].alias == name);
    ListedAs(c.perSession, OfSession(name), s, now, name, set i | 0 <= i < |s| && now - s[i].at < 3_600_000_000_000 && s[i].session == name);
  }

  lemma ListedAs(counts: map<string, nat>, what: Measure, s: seq<Mint>, now: Instant, name: string, minted: set<int>)
    requires Count(counts, name) == Tally(what, s, now) && (name in counts ==> counts[name] > 0)
    requires forall i :: 0 <= i < |s| ==> (Counts(what, s[i], now) <==> name != "" && i in minted)
    requires forall i :: i in minted ==> 0 <= i < |s|
    ensures (name in counts <==> name != "" && minted != {}) && (name in counts ==> counts[name] == |minted|)
  {
    TallyIsSize(what, s, |s|, now);
    assert CountedMints(what, s, |s|, now) == if name != "" then minted else {};
  }

  lemma {:induction false} PrunedIff(s: seq<Mint>, n: nat, cutoff: Instant)
    requires n <= |s|
    ensures forall m :: m in PrunedOf(s, n, cutoff) <==> m in s[..n] && m.at > cutoff
  {
    if n > 0 {
      PrunedIff(s, n - 1, cutoff);
      assert s[..n] == s[..n - 1] + [s[n - 1]];
    }
  }

  /** The ring after one mint: what is younger than an hour before it, itself last, and of
      more than 4096 those recorded last. */
  lemma RingAfterIs(ring: seq<Mint>, m: Mint)
    ensures var (young, after) := (Pruned(ring + [m], m.at - 3_600_000_000_000), RingAfter(ring, m));
            && (forall x :: x in young <==> (x in ring || x == m) && x.at > m.at - 3_600_000_000_000)
            && 0 < |after| <= 4096 && after[|after| - 1] == m
            && after == young[|young| - |after|..] && (|after| < 4096 ==> after == young)
  {
    var more := ring + [m];
    PrunedIff(more, |more|, m.at - 3_600_000_000_000);
    assert more[..|more|] == more;
    assert forall x :: x in more <==> x in ring || x == m;
  }

  // ---- Warnings ---------------------------------------------------------------------

  lemma RememberedOn(warnedAt: WarnedAt, m: Mint, warned: bool, session: string)
    requires session in warnedAt && (warned ==> m.session in warnedAt ==> warnedAt[m.session] <= m.at)
    ensures var after := WarnedAfter(warnedAt, m, warned);
            || (session in after && warnedAt[session] <= after[session])
            || warnedAt[session] + 3_600_000_000_000 <= m.at
  {
  }

  /** A mint that names a session and is dated a whole hour after mint i has been recorded
      since. Mints without a session forget nothing. */
  ghost predicate HourPassed(history: seq<Mint>, i: nat, n: nat)
    requires i < |history| && n <= |history|
  {
    exists j :: i < j < n && history[j].session != "" && history[i].at + 3_600_000_000_000 <= history[j].at
  }

  /** A warning once given is still remembered, or superseded by a later one, unless an hour
      has passed. */
  lemma {:induction false} WarningRemembered(history: seq<Mint>, i: nat, n: nat)
    requires i < n <= |history| && WarnedAbout(history, i)
    ensures var (m, warnedAt) := (history[i], MapAt(history, n));
            (m.session in warnedAt && m.at <= warnedAt[m.session]) || HourPassed(history, i, n)
    decreases n
  {
    if i < n - 1 {
      WarningRemembered(history, i, n - 1);
      if !HourPassed(history, i, n - 1) && history[n - 1].session != "" {
        RememberedOn(MapAt(history, n - 1), history[n - 1], WarnedAbout(history, n - 1), history[i].session);
      }
    }
  }

  /** Mint i's is the latest warning of its session before mint n. */
  ghost predicate LatestWarning(history: seq<Mint>, i: nat, n: nat)
    requires n <= |history|
  {
    && i < n && WarnedAbout(history, i)
    && forall k {:trigger WarnedAbout(history, k)} :: i < k < n && history[k].session == history[i].session ==> !WarnedAbout(history, k)
  }

  /** What a mint leaves of a session's warning that it does not replace. */
  lemma ForgottenIff(warnedAt: WarnedAt, m: Mint, warned: bool, session: string)
    requires warned ==> m.session != session
    ensures var after := WarnedAfter(warnedAt, m, warned);
            && (session in after <==> session in warnedAt && (m.session == "" || m.at < warnedAt[session] + 3_600_000_000_000))
            && (session in after ==> after[session] == warnedAt[session])
  {
  }

  lemma HourPassedOneMore(history: seq<Mint>, i: nat, n: nat)
    requires i < n < |history|
    ensures HourPassed(history, i, n + 1) <==>
              HourPassed(history, i, n) || (history[n].session != "" && history[i].at + 3_600_000_000_000 <= history[n].at)
  {
  }

  /** Exactly how long a session's latest warning is remembered: until an hour has passed. */
  lemma {:induction false} RememberedIff(history: seq<Mint>, i: nat, n: nat)
    requires n <= |history| && LatestWarning(history, i, n)
    ensures var (m, warnedAt) := (history[i], MapAt(history, n));
            && m.session != ""
            && (m.session in warnedAt <==> !HourPassed(history, i, n))
            && (m.session in warnedAt ==> warnedAt[m.session] == m.at)
    decreases n
  {
    if i < n - 1 {
      RememberedIff(history, i, n - 1);
      assert history[n - 1].session == history[i].session ==> !WarnedAbout(history, n - 1);
      ForgottenIff(MapAt(history, n - 1), history[n - 1], WarnedAbout(history, n - 1), history[i].session);
      HourPassedOneMore(history, i, n - 1);
    } else {
      WarningRemembered(history, i, n);
    }
  }

  lemma WarnsAgain(ring: seq<Mint>, warnedAt: WarnedAt, m: Mint, first: Instant)
    requires m.session != "" && m.at < first + 300_000_000_000 && (m.session in warnedAt ==> warnedAt[m.session] == first)
    ensures Warns(ring, warnedAt, m) <==>
              Recent(ring, m.session, m.at - 300_000_000_000) >= 30 && m.session !in warnedAt
  {
  }

  lemma WarnedByMap(history: seq<Mint>, i: nat, j: nat)
    requires i < j < |history| && history[i].session == history[j].session != ""
    requires history[j].at < history[i].at + 300_000_000_000
    requires history[j].session in MapAt(history, j) ==> MapAt(history, j)[history[j].session] == history[i].at
    ensures WarnedAbout(history, j) <==>
              && Recent(RingAt(history, j + 1), history[j].session, history[j].at - 300_000_000_000) >= 30
              && history[j].session !in MapAt(history, j)
  {
    WarnedAboutIs(history, j);
    WarnsAgain(RingAt(history, j + 1), MapAt(history, j), history[j], history[i].at);
  }

  lemma WarnedAboutIs(history: seq<Mint>, j: nat)
    requires j < |history|
    ensures WarnedAbout(history, j) == Warns(RingAt(history, j + 1), MapAt(history, j), history[j])
  {
  }

  /** The exact law of one session's warnings. A mint within five minutes of the latest one
      raises another if and only if its session is over the threshold and a mint that names
      any session and is dated a whole hour after the first was recorded between them. */
  lemma WarnedAgainIff(history: seq<Mint>, i: nat, j: nat)
    requires j < |history| && LatestWarning(history, i, j)
    requires history[i].session == history[j].session && history[j].at < history[i].at + 300_000_000_000
    ensures WarnedAbout(history, j) <==>
              && Recent(RingAt(history, j + 1), history[j].session, history[j].at - 300_000_000_000) >= 30
              && HourPassed(history, i, j)
  {
    RememberedIff(history, i, j);
    WarnedByMap(history, i, j);
  }

  /** So two warnings are at least five minutes apart unless such a mint came between. */
  lemma WarningsAreSpaced(history: seq<Mint>, i: nat, j: nat)
    requires i < j < |history| && WarnedAbout(history, i) && WarnedAbout(history, j)
    requires history[i].session == history[j].session && !HourPassed(history, i, j)
    ensures history[i].at + 300_000_000_000 <= history[j].at
  {
    WarningRemembered(history, i, j);
  }

  /** No earlier mint is dated more than 55 minutes after mint j. */
  predicate NoneFarAhead(history: seq<Mint>, j: nat)
    requires j < |history|
  {
    forall i :: 0 <= i < j ==> history[i].at <= history[j].at + 3_300_000_000_000
  }

  /** Which holds in particular when no mint before the second is dated far ahead of it. */
  lemma WarningsAreSpacedInOrder(history: seq<Mint>, i: nat, j: nat)
    requires i < j < |history| && WarnedAbout(history, i) && WarnedAbout(history, j)
    requires history[i].session == history[j].session && NoneFarAhead(history, j)
    ensures history[i].at + 300_000_000_000 <= history[j].at
  {
    if !HourPassed(history, i, j) {
      WarningsAreSpaced(history, i, j);
    }
  }

  lemma {:induction false} RecentOfPrefix(s: seq<Mint>, m: Mint, n: nat, session: string, since: Instant)
    requires n <= |s|
    ensures RecentOf(s + [m], n, session, since) == RecentOf(s, n, session, since)
  {
    if n > 0 {
      RecentOfPrefix(s, m, n - 1, session, since);
    }
  }

  lemma RecentOneMore(s: seq<Mint>, m: Mint, session: string, since: Instant)
    ensures Recent(s + [m], session, since) == Recent(s, session, since) + if m.session == session && m.at > since then 1 else 0
  {
    RecentOfPrefix(s, m, |s|, session, since);
  }

  lemma {:induction false} PruningKeepsRecent(s: seq<Mint>, n: nat, cutoff: Instant, session: string, since: Instant)
    requires n <= |s| && cutoff <= since
    ensures Recent(PrunedOf(s, n, cutoff), session, since) == RecentOf(s, n, session, since)
  {
    if n > 0 {
      PruningKeepsRecent(s, n - 1, cutoff, session, since);
      RecentOneMore(PrunedOf(s, n - 1, cutoff), s[n - 1], session, since);
    }
  }

  lemma RingRecentOneMore(ring: seq<Mint>, m: Mint, session: string, since: Instant)
    requires m.at - 3_600_000_000_000 <= since && Fits(ring, m)
    ensures Recent(RingAfter(ring, m), session, since)
         == Recent(ring, session, since) + if m.session == session && m.at > since then 1 else 0
  {
    PruningKeepsRecent(ring + [m], |ring| + 1, m.at - 3_600_000_000_000, session, since);
    RecentOneMore(ring, m, session, since);
  }

  lemma {:induction false} RingKeepsRecent(history: seq<Mint>, n: nat, session: string, since: Instant)
    requires n <= |history| && NeverFull(history, n)
    requires forall i :: 0 <= i < n ==> history[i].at - 3_600_000_000_000 <= since
    ensures Recent(RingAt(history, n), session, since) == RecentOf(history, n, session, since)
  {
    if n > 0 {
      RingKeepsRecent(history, n - 1, session, since);
      RingRecentOneMore(RingAt(history, n - 1), history[n - 1], session, since);
    }
  }

  /** What is remembered about a session is one of its warnings. */
  lemma {:induction false} RememberedWasGiven(history: seq<Mint>, n: nat, session: string) returns (i: nat)
    requires n <= |history| && session in MapAt(history, n)
    ensures i < n && WarnedAbout(history, i) && history[i].session == session
    ensures history[i].at == MapAt(history, n)[session]
  {
    if history[n - 1].session == session && WarnedAbout(history, n - 1) {
      i := n - 1;
    } else {
      i := RememberedWasGiven(history, n - 1, session);
    }
  }

  /** The session of mint j has been warned about within the five minutes before it. */
  ghost predicate LatelyWarned(history: seq<Mint>, j: nat)
    requires j < |history|
  {
    exists i {:trigger WarnedAbout(history, i)} :: 0 <= i < j && history[i].session == history[j].session
                && history[i].at > history[j].at - 300_000_000_000 && WarnedAbout(history, i)
  }

  lemma LatelyWarnedIsRemembered(history: seq<Mint>, j: nat)
    requires j < |history| && NoneFarAhead(history, j)
    ensures var (m, warnedAt) := (history[j], MapAt(history, j));
            LatelyWarned(history, j) <==> m.session in warnedAt && warnedAt[m.session] > m.at - 300_000_000_000
  {
    var (m, warnedAt) := (history[j], MapAt(history, j));
    if LatelyWarned(history, j) {
      var i :| 0 <= i < j && history[i].session == m.session && history[i].at > m.at - 300_000_000_000 && WarnedAbout(history, i);
      WarningRemembered(history, i, j);
    }
    if m.session in warnedAt && warnedAt[m.session] > m.at - 300_000_000_000 {
      var i := RememberedWasGiven(history, j, m.session);
      assert WarnedAbout(history, i);
    }
  }

  /** Exactly who is warned about: judged on every mint ever recorded, a mint raises a
      warning if and only if it names a session, at least thirty of that session's mints fall
      within the last five minutes, and none of them has already raised one. */
  lemma WarningsAreExact(history: seq<Mint>, j: nat)
    requires j < |history| && NoneFarAhead(history, j) && NeverFull(history, j + 1)
    ensures WarnedAbout(history, j) <==>
              && history[j].session != ""
              && RecentOf(history, j + 1, history[j].session, history[j].at - 300_000_000_000) >= 30
              && !LatelyWarned(history, j)
  {
    RingKeepsRecent(history, j + 1, history[j].session, history[j].at - 300_000_000_000);
    LatelyWarnedIsRemembered(history, j);
  }

  // ---- The law's exception happens -----------------------------------------------------

  predicate AllAre(s: seq<Mint>, from: nat, upTo: nat, m: Mint)
    requires from <= upTo <= |s|
  {
    forall i :: from <= i < upTo ==> s[i] == m
  }

  lemma {:induction false} RecentOfCopies(s: seq<Mint>, from: nat, n: nat, m: Mint, since: Instant)
    requires from <= n <= |s| && AllAre(s, from, n, m) && m.at > since
    ensures RecentOf(s, n, m.session, since) == RecentOf(s, from, m.session, since) + n - from
    decreases n
  {
    if from < n {
      RecentOfCopies(s, from, n - 1, m, since);
    }
  }

  lemma {:induction false} NothingPruned(s: seq<Mint>, n: nat, cutoff: Instant)
    requires n <= |s| && forall i :: 0 <= i < n ==> s[i].at > cutoff
    ensures PrunedOf(s, n, cutoff) == s[..n]
  {
    if n > 0 {
      NothingPruned(s, n - 1, cutoff);
    }
  }

  lemma {:induction false} AllPruned(s: seq<Mint>, n: nat, cutoff: Instant)
    requires n <= |s| && forall i :: 0 <= i < n ==> s[i].at <= cutoff
    ensures PrunedOf(s, n, cutoff) == []
  {
    if n > 0 {
      AllPruned(s, n - 1, cutoff);
    }
  }

  /** A small ring of young mints simply grows. */
  lemma RingGrows(ring: seq<Mint>, m: Mint)
    requires |ring| < RING_CAP && forall i :: 0 <= i < |ring| ==> ring[i].at > m.at - RING_WINDOW
    ensures RingAfter(ring, m) == ring + [m]
  {
    var more := ring + [m];
    NothingPruned(more, |more|, m.at - RING_WINDOW);
    assert more[..|more|] == more;
  }

  lemma RingStartsOver(ring: seq<Mint>, m: Mint)
    requires forall i :: 0 <= i < |ring| ==> ring[i].at <= m.at - RING_WINDOW
    ensures RingAfter(ring, m) == [m]
  {
    var more := ring + [m];
    PrunedOfPrefix(ring, m, |ring|, m.at - RING_WINDOW);
    AllPruned(ring, |ring|, m.at - RING_WINDOW);
  }

  lemma {:induction false} PrunedOfPrefix(s: seq<Mint>, m: Mint, n: nat, cutoff: Instant)
    requires n <= |s|
    ensures PrunedOf(s + [m], n, cutoff) == PrunedOf(s, n, cutoff)
  {
    if n > 0 {
      PrunedOfPrefix(s, m, n - 1, cutoff);
    }
  }

  /** From a state that remembers nothing of the session, fewer than thirty of its mints at
      one instant raise no warning, and the thirtieth does. */
  lemma {:induction false} Burst(history: seq<Mint>, from: nat, n: nat, base: seq<Mint>, m: Mint)
    requires from <= n <= |history| && n - from < WARN_THRESHOLD && AllAre(history, from, n, m) && m.session != ""
    requires RingAt(history, from) == base && MapAt(history, from) == map[] && |base| <= 1
    requires forall i :: 0 <= i < |base| ==> base[i].at > m.at - RING_WINDOW && base[i].session != m.session
    ensures |RingAt(history, n)| == |base| + n - from && RingAt(history, n)[..|base|] == base
    ensures AllAre(RingAt(history, n), |base|, |base| + n - from, m) && MapAt(history, n) == map[]
    decreases n
  {
    if from < n {
      Burst(history, from, n - 1, base, m);
      var ring := RingAt(history, n - 1);
      RingGrows(ring, m);
      assert RingAt(history, n) == ring + [m];
      NotYet(ring + [m], base, m);
      assert !WarnedAbout(history, n - 1);
    }
  }

  /** How many of the session's mints a base followed by copies of one of them counts. */
  lemma CopiesCounted(ring: seq<Mint>, base: seq<Mint>, m: Mint)
    requires |base| <= 1 <= |ring| && |base| <= |ring| && ring[..|base|] == base && AllAre(ring, |base|, |ring|, m)
    requires forall i :: 0 <= i < |base| ==> base[i].session != m.session
    ensures Recent(ring, m.session, m.at - WARN_WINDOW) == |ring| - |base|
  {
    RecentOfCopies(ring, |base|, |ring|, m, m.at - WARN_WINDOW);
    assert forall i :: 0 <= i < |base| ==> ring[i] == base[i];
    assert RecentOf(ring, 0, m.session, m.at - WARN_WINDOW) == 0;
  }

  lemma NotYet(ring: seq<Mint>, base: seq<Mint>, m: Mint)
    requires |base| <= 1 <= |ring| && |base| <= |ring| && ring[..|base|] == base && AllAre(ring, |base|, |ring|, m)
    requires forall i :: 0 <= i < |base| ==> base[i].session != m.session
    requires |ring| - |base| < WARN_THRESHOLD
    ensures !Warns(ring, map[], m)
  {
    CopiesCounted(ring, base, m);
  }

  lemma CopiesWarn(ring: seq<Mint>, base: seq<Mint>, m: Mint)
    requires |base| <= 1 && |ring| == |base| + WARN_THRESHOLD && ring[..|base|] == base && AllAre(ring, |base|, |ring|, m)
    requires m.session != "" && forall i :: 0 <= i < |base| ==> base[i].session != m.session
    ensures Warns(ring, map[], m)
  {
    CopiesCounted(ring, base, m);
  }

  lemma ThirtiethWarns(history: seq<Mint>, from: nat, n: nat, base: seq<Mint>, m: Mint)
    requires from + WARN_THRESHOLD == n + 1 <= |history| && AllAre(history, from, n + 1, m) && m.session != ""
    requires RingAt(history, from) == base && MapAt(history, from) == map[] && |base| <= 1
    requires forall i :: 0 <= i < |base| ==> base[i].at > m.at - RING_WINDOW && base[i].session != m.session
    ensures WarnedAbout(history, n)
    ensures var ring := RingAt(history, n + 1);
            |ring| == |base| + WARN_THRESHOLD && ring[..|base|] == base && AllAre(ring, |base|, |ring|, m)
  {
    Burst(history, from, n, base, m);
    var ring := RingAt(history, n);
    RingGrows(ring, m);
    assert RingAt(history, n + 1) == ring + [m];
    CopiesWarn(ring + [m], base, m);
  }

  lemma OneRemembered(history: seq<Mint>, n: nat)
    requires n < |history| && MapAt(history, n) == map[] && WarnedAbout(history, n) && history[n].session != ""
    ensures MapAt(history, n + 1) == map[history[n].session := history[n].at]
  {
  }

  /** A mint of another session dated an hour after every mint in the ring and every warning
      remembered makes the record forget them all. */
  lemma FarAheadForgets(history: seq<Mint>, n: nat, session: string, at: Instant)
    requires n < |history| && MapAt(history, n) == map[session := at]
    requires history[n].session != "" && history[n].session != session && at <= history[n].at - RING_WINDOW
    requires forall i :: 0 <= i < |RingAt(history, n)| ==> RingAt(history, n)[i].at <= history[n].at - RING_WINDOW
    ensures RingAt(history, n + 1) == [history[n]] && MapAt(history, n + 1) == map[]
  {
    RingStartsOver(RingAt(history, n), history[n]);
    OneIsNotEnough(history[n], MapAt(history, n));
  }

  lemma OneIsNotEnough(m: Mint, warnedAt: WarnedAt)
    ensures !Warns([m], warnedAt, m)
  {
    RecentOneMore([], m, m.session, m.at - WARN_WINDOW);
    assert [] + [m] == [m];
  }

  /** Up to n thirty mints m, then one mint ahead, then thirty more m. */
  predicate Interrupted(history: seq<Mint>, n: nat, m: Mint, ahead: Mint) {
    && n == WARN_THRESHOLD && |history| == n + 1 + WARN_THRESHOLD
    && AllAre(history, 0, n, m) && history[n] == ahead && AllAre(history, n + 1, |history|, m)
    && m.session != "" && ahead.session != "" && ahead.session != m.session
    && ahead.at == m.at + RING_WINDOW
  }

  lemma FirstBurst(history: seq<Mint>, n: nat, m: Mint, ahead: Mint)
    requires Interrupted(history, n, m, ahead)
    ensures WarnedAbout(history, n - 1) && RingAt(history, n + 1) == [ahead] && MapAt(history, n + 1) == map[]
  {
    Starts(history);
    ThirtiethWarns(history, 0, n - 1, [], m);
    Burst(history, 0, n - 1, [], m);
    OneRemembered(history, n - 1);
    FarAheadForgets(history, n, m.session, m.at);
  }

  lemma SecondBurst(history: seq<Mint>, n: nat, m: Mint, ahead: Mint)
    requires Interrupted(history, n, m, ahead)
    ensures WarnedAbout(history, n + n)
  {
    FirstBurst(history, n, m, ahead);
    ThirtiethWarns(history, n + 1, n + n, [ahead], m);
  }

  lemma Starts(history: seq<Mint>)
    ensures RingAt(history, 0) == [] && MapAt(history, 0) == map[]
  {
  }

  /** Thirty mints of one session, one of another session dated an hour later, and thirty
      more of the first at the same instant as before: the first session is warned about
      twice within the five minutes, although its own mints are in order. */
  lemma WarningsCanCrowd(session: string, other: string) returns (history: seq<Mint>, i: nat, j: nat)
    requires session != "" && other != "" && session != other
    ensures i < j < |history| && WarnedAbout(history, i) && WarnedAbout(history, j)
    ensures history[i].session == history[j].session == session && history[j].at < history[i].at + 300_000_000_000
    ensures forall k, n :: 0 <= k < n < |history| && history[k].session == history[n].session ==> history[k].at <= history[n].at
  {
    var (m, ahead, n) := (Mint(0, "", session, false), Mint(RING_WINDOW, "", other, false), WARN_THRESHOLD);
    history, i, j := seq(n + 1 + n, k => if k == n then ahead else m), n - 1, n + n;
    FirstBurst(history, n, m, ahead);
    SecondBurst(history, n, m, ahead);
  }
}
