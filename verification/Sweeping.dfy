/** One entry at a time: how the notifier's loop over the cache adds up to one sweep. */
module Sweeping {
  import opened Basics
  import opened Requests
  import opened ReuseSpec

  /** The cache after the entries of done have been swept and the others not yet. */
  function SweptSoFar(c: Cache, now: Instant, done: set<Key>): Cache {
    map k | k in c && !(k in done && Retires(c[k], now)) :: if k in done then Swept(c[k], now) else c[k]
  }

  lemma SweepOneMore(c: Cache, now: Instant, done: set<Key>, key: Key)
    requires key in c && key !in done
    ensures SweptSoFar(SweptSoFar(c, now, done), now, {key}) == SweptSoFar(c, now, done + {key})
  {
  }

  lemma SweptAll(c: Cache, now: Instant)
    ensures SweptSoFar(c, now, c.Keys) == Sweep(c, now)
    ensures SweptSoFar(c, now, {}) == c
  {
  }

  /** What has been said after the entries of done have been swept. */
  ghost predicate SaidSoFar(c: Cache, now: Instant, done: set<Key>, messages: multiset<string>) {
    forall text :: messages[text] == |Speakers(c, now, text) * done|
  }

  lemma SayOneMore(c: Cache, now: Instant, done: set<Key>, key: Key, messages: multiset<string>)
    requires key in c && key !in done && SaidSoFar(c, now, done, messages)
    ensures SaidSoFar(c, now, done + {key}, messages + NoticeSet(c[key], now))
  {
    forall text ensures (messages + NoticeSet(c[key], now))[text] == |Speakers(c, now, text) * (done + {key})| {
      SpeakerOneMore(c, now, done, key, text);
    }
  }

  lemma SpeakerOneMore(c: Cache, now: Instant, done: set<Key>, key: Key, text: string)
    requires key in c && key !in done
    ensures |Speakers(c, now, text) * (done + {key})|
         == |Speakers(c, now, text) * done| + NoticeSet(c[key], now)[text]
  {
    var speakers := Speakers(c, now, text);
    if key in speakers {
      assert speakers * (done + {key}) == speakers * done + {key};
    } else {
      assert speakers * (done + {key}) == speakers * done;
    }
  }

  function Consider(next: Option<Instant>, at: Instant): Option<Instant> {
    if next.None? || at < next.value then Some(at) else next
  }

  /** The deadlines one surviving entry puts forward. */
  function ConsiderEntry(e: Entry, now: Instant, next: Option<Instant>): Option<Instant> {
    if Retires(e, now) then next
    else
      var ahead := if AwaitsPreNotice(e) && now < e.windowEndsAt - NOTIFY_LEAD then Consider(next, e.windowEndsAt - NOTIFY_LEAD) else next;
      var over := if Windowed(e) then Consider(ahead, e.windowEndsAt) else ahead;
      Consider(over, e.expiresAt)
  }

  ghost predicate DueWithin(c: Cache, now: Instant, done: set<Key>, at: Instant) {
    exists k :: k in done && k in c && !Retires(c[k], now) && DeadlineOf(c[k], now, at)
  }

  ghost predicate Earliest(c: Cache, now: Instant, done: set<Key>, next: Option<Instant>) {
    match next
    case None => forall at :: !DueWithin(c, now, done, at)
    case Some(first) => DueWithin(c, now, done, first) && forall at :: DueWithin(c, now, done, at) ==> first <= at
  }

  lemma DueOneMore(c: Cache, now: Instant, done: set<Key>, key: Key, at: Instant)
    requires key in c
    ensures DueWithin(c, now, done + {key}, at) <==>
              DueWithin(c, now, done, at) || (!Retires(c[key], now) && DeadlineOf(c[key], now, at))
  {
  }

  lemma ConsiderOneMore(c: Cache, now: Instant, done: set<Key>, key: Key, next: Option<Instant>)
    requires key in c && Earliest(c, now, done, next)
    ensures Earliest(c, now, done + {key}, ConsiderEntry(c[key], now, next))
  {
    forall at ensures DueWithin(c, now, done + {key}, at) <==>
                        DueWithin(c, now, done, at) || (!Retires(c[key], now) && DeadlineOf(c[key], now, at))
    {
      DueOneMore(c, now, done, key, at);
    }
  }

  /** With everything swept, the reader poll is the last deadline considered. */
  lemma EarliestOfAll(c: Cache, now: Instant, next: Option<Instant>)
    requires Earliest(c, now, c.Keys, next)
    ensures NextSweep(c, now, if Sweep(c, now) != map[] then Consider(next, now + POLL_INTERVAL) else next)
  {
    forall at ensures DueAt(c, now, at) <==> at == now + POLL_INTERVAL || DueWithin(c, now, c.Keys, at) {
    }
    if Sweep(c, now) == map[] {
      forall k | k in c ensures Retires(c[k], now) {
        assert k !in Sweep(c, now);
      }
    } else {
      assert DueAt(c, now, now + POLL_INTERVAL);
    }
  }

  function NoticeSet(e: Entry, now: Instant): multiset<string> {
    match Notice(e, now)
    case None => multiset{}
    case Some(text) => multiset{text}
  }

  /** The loop has swept exactly the entries of done. */
  ghost predicate Progress(c: Cache, current: Cache, now: Instant, done: set<Key>, messages: multiset<string>, next: Option<Instant>) {
    && done <= c.Keys
    && current == SweptSoFar(c, now, done)
    && SaidSoFar(c, now, done, messages)
    && Earliest(c, now, done, next)
  }

  lemma Start(c: Cache, now: Instant)
    ensures Progress(c, c, now, {}, multiset{}, None)
  {
    SweptAll(c, now);
    assert forall text :: Speakers(c, now, text) * {} == {};
  }

  lemma Advance(c: Cache, current: Cache, now: Instant, done: set<Key>, messages: multiset<string>, next: Option<Instant>, key: Key)
    requires Progress(c, current, now, done, messages, next) && key in c && key !in done
    ensures key in current && current[key] == c[key]
    ensures Progress(c, SweptSoFar(current, now, {key}), now, done + {key},
              messages + NoticeSet(c[key], now), ConsiderEntry(c[key], now, next))
  {
    SweepOneMore(c, now, done, key);
    SayOneMore(c, now, done, key, messages);
    ConsiderOneMore(c, now, done, key, next);
  }

  lemma Finish(c: Cache, current: Cache, now: Instant, messages: multiset<string>, next: Option<Instant>)
    requires Progress(c, current, now, c.Keys, messages, next)
    ensures current == Sweep(c, now) && Messages(c, now, messages)
    ensures NextSweep(c, now, if current != map[] then Consider(next, now + POLL_INTERVAL) else next)
  {
    SweptAll(c, now);
    EarliestOfAll(c, now, next);
    forall text ensures messages[text] == |Speakers(c, now, text)| {
      assert Speakers(c, now, text) * c.Keys == Speakers(c, now, text);
    }
  }
}
