/** The notifier's schedule: it wakes exactly when something is due, says each thing once,
    and retiring an entry never changes the answer to a request that arrives afterwards. */
module Notifier {
  import opened Basics
  import opened Requests
  import opened ReuseSpec

  /** An instant at which something is due for an entry: its expiry, the end of its window, or
      a minute before that end while the notice of it is still to come. */
  ghost predicate DueFor(e: Entry, now: Instant, at: Instant) {
    || at == e.expiresAt
    || (e.windowEndsAt > e.completedAt && at == e.windowEndsAt)
    || (&& e.windowEndsAt - e.completedAt > 60_000_000_000 && !e.notifiedPre
        && at == e.windowEndsAt - 60_000_000_000 && now < at)
  }

  /** The next sweep is unset exactly when nothing is left held. Otherwise it is strictly
      later, two seconds from now or when something is due for a held entry, and no later
      than either. */
  lemma NextSweepIsTight(c: Cache, now: Instant, next: Option<Instant>)
    requires NextSweep(c, now, next)
    ensures next.None? <==> Sweep(c, now) == map[]
    ensures next.Some? ==> now < next.value <= now + 2_000_000_000
    ensures next.Some? ==> next.value == now + 2_000_000_000 || exists k :: k in Sweep(c, now) && DueFor(c[k], now, next.value)
    ensures forall k, at :: k in Sweep(c, now) && DueFor(c[k], now, at) ==> next.Some? && next.value <= at
  {
    if next.Some? {
      assert DueAt(c, now, now + POLL_INTERVAL);
      forall k, at | k in Sweep(c, now) && DueFor(c[k], now, at) ensures next.value <= at {
        assert DeadlineOf(c[k], now, at) && DueAt(c, now, at);
      }
      if next.value != now + POLL_INTERVAL {
        var k :| k in c && !Retires(c[k], now) && DeadlineOf(c[k], now, next.value);
        assert k in Sweep(c, now) && DueFor(c[k], now, next.value);
      }
    }
  }

  /** A sweep strictly between two scheduled ones finds nothing to do and nothing to say. */
  lemma QuietUntilNext(c: Cache, now: Instant, next: Option<Instant>, between: Instant, messages: multiset<string>)
    requires NextSweep(c, now, next)
    requires now < between && (next.Some? ==> between < next.value)
    requires Messages(Sweep(c, now), between, messages)
    ensures Sweep(Sweep(c, now), between) == Sweep(c, now)
    ensures messages == multiset{}
  {
    NextSweepIsTight(c, now, next);
    var held := Sweep(c, now);
    forall k | k in held
      ensures !Retires(held[k], between) && Swept(held[k], between) == held[k] && Notice(held[k], between) == None
    {
      var e := c[k];
      assert held[k] == Swept(e, now) && DueFor(e, now, e.expiresAt);
      if Windowed(e) {
        assert DueFor(e, now, e.windowEndsAt);
      }
      if AwaitsPreNotice(held[k]) {
        assert DueFor(e, now, e.windowEndsAt - NOTIFY_LEAD);
      }
    }
    forall text ensures messages[text] == 0 {
      assert Speakers(held, between, text) == {};
    }
  }

  /** Everything a series of sweeps says about one entry until it is retired. */
  function NoticesOver(e: Entry, times: seq<Instant>): seq<string>
    decreases |times|
  {
    if times == [] then []
    else
      var said := match Notice(e, times[0]) { case None => [] case Some(text) => [text] };
      said + if Retires(e, times[0]) then [] else NoticesOver(Swept(e, times[0]), times[1..])
  }

  /** However often it is swept, an entry announces its closing at most once, its close at
      most once and only last, and a window no longer than the lead never announces ahead. */
  lemma {:induction false} EachNoticeAtMostOnce(e: Entry, times: seq<Instant>)
    ensures var (ahead, over) := (ClosingText(e.key.alias), ExpiredText(e.key.alias));
            && NoticesOver(e, times) in {[], [ahead], [over], [ahead, over]}
            && (!AwaitsPreNotice(e) ==> NoticesOver(e, times) in {[], [over]})
            && (!Windowed(e) ==> NoticesOver(e, times) == [])
    decreases |times|
  {
    if times != [] {
      var (ahead, over) := (ClosingText(e.key.alias), ExpiredText(e.key.alias));
      var none: seq<string> := [];
      if Retires(e, times[0]) {
        assert [over] + none == [over] && none + none == none;
      } else {
        EachNoticeAtMostOnce(Swept(e, times[0]), times[1..]);
        var rest := NoticesOver(Swept(e, times[0]), times[1..]);
        assert none + rest == rest;
        assert [ahead] + none == [ahead] && [ahead] + [over] == [ahead, over];
      }
    }
  }

  /** Retirement is visible to a later lookup in exactly one case: a request that arrived
      before the signature completed, still queued when the window it would have shared
      closed, could have been answered until the assertion neared its expiry. */
  lemma RetirementVisibleIff(c: Cache, sweptAt: Instant, key: Key, now: Instant, arrival: Instant, aliasReuse: Duration, singleFlight: bool)
    requires sweptAt <= now
    ensures var (plain, swept) := (Lookup(c, key, now, arrival, aliasReuse, singleFlight),
                                   Lookup(Sweep(c, sweptAt), key, now, arrival, aliasReuse, singleFlight));
            && (plain.Some? && swept.None? <==>
                  && key in c && WindowOver(c[key], sweptAt)
                  && AboveFloor(c[key], now) && Coalesces(c[key], arrival, singleFlight))
            && (swept.Some? ==> plain.Some? && swept.value.(notifiedPre := plain.value.notifiedPre) == plain.value)
  {
  }

  /** So for requests that arrive at or after the sweep, retiring changes nothing: they find
      the same entry, or none both times; only its notice may meanwhile have been given. */
  lemma RetirementInvisibleToLaterArrivals(c: Cache, sweptAt: Instant, key: Key, now: Instant, arrival: Instant,
                                           aliasReuse: Duration, singleFlight: bool)
    requires sweptAt <= arrival <= now
    ensures match Lookup(Sweep(c, sweptAt), key, now, arrival, aliasReuse, singleFlight)
            case None => Lookup(c, key, now, arrival, aliasReuse, singleFlight) == None
            case Some(e) => Lookup(c, key, now, arrival, aliasReuse, singleFlight) == Some(e.(notifiedPre := c[key].notifiedPre))
  {
    RetirementVisibleIff(c, sweptAt, key, now, arrival, aliasReuse, singleFlight);
  }
}
