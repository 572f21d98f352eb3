/** What the reuse cache's sections mean, in the fields of entries and in plain numbers: who
    is answered, what each purge keeps, what an insertion costs, what a sweep says, and what
    happens to the PIN. Each law is exact in both directions. */
module ReuseLaws {
  import opened Basics
  import opened Requests
  import opened ReuseSpec

  // ---- Answering -------------------------------------------------------------------

  /** A key is answered exactly by the entry held under it, while at least a minute of its
      validity remains: to whoever arrived before its touch completed, if requests coalesce,
      and to everyone while the operator's window is open. */
  lemma HitIff(c: Cache, key: Key, now: Instant, arrival: Instant, aliasReuse: Duration, singleFlight: bool)
    ensures var found := Lookup(c, key, now, arrival, aliasReuse, singleFlight);
            && (found.Some? <==>
                  && key in c && c[key].expiresAt - now >= 60_000_000_000
                  && (|| (singleFlight && arrival <= c[key].completedAt)
                      || (0 < aliasReuse && now - c[key].completedAt <= aliasReuse && now < c[key].windowEndsAt)))
            && (found.Some? ==> found.value == c[key])
  {
  }

  /** The opt-in itself: inside an open window a held entry answers, whenever the request
      arrived and whether or not requests coalesce. */
  lemma OpenWindowAnswers(c: Cache, key: Key, now: Instant, arrival: Instant, aliasReuse: Duration, singleFlight: bool)
    requires key in c && c[key].completedAt <= now < c[key].windowEndsAt && now - c[key].completedAt <= aliasReuse
    requires 0 < aliasReuse && c[key].expiresAt - now >= 60_000_000_000
    ensures Lookup(c, key, now, arrival, aliasReuse, singleFlight) == Some(c[key])
  {
    HitIff(c, key, now, arrival, aliasReuse, singleFlight);
  }

  // ---- Purging ---------------------------------------------------------------------

  /** Another card's verification drops exactly the other cards' entries. */
  lemma OtherSerialsIff(c: Cache, serial: nat, k: Key)
    ensures k in PurgeOtherSerials(c, serial) <==> k in c && c[k].serial == serial
    ensures k in PurgeOtherSerials(c, serial) ==> PurgeOtherSerials(c, serial)[k] == c[k]
  {
  }

  /** Invalidation drops exactly the entries of that workspace, of every generation or of
      those up to the one named. */
  lemma WorkspaceIff(c: Cache, workspace: string, maxGeneration: nat, k: Key)
    ensures k in PurgeWorkspace(c, workspace, maxGeneration) <==>
              k in c && (k.workspaceID != workspace || (maxGeneration > 0 && k.claimGeneration > maxGeneration))
    ensures k in PurgeWorkspace(c, workspace, maxGeneration) ==> PurgeWorkspace(c, workspace, maxGeneration)[k] == c[k]
  {
  }

  /** A reader poll keeps exactly the entries made when the same readers were there, name by
      name; a failed enumeration keeps none. */
  lemma ReadersIff(c: Cache, reading: Reading, k: Key)
    ensures k in PurgeReaders(c, reading) <==>
              && k in c && reading.Names?
              && |reading.names| == (if c[k].readers.Some? then |c[k].readers.value| else 0)
              && forall i :: 0 <= i < |reading.names| ==> reading.names[i] == c[k].readers.value[i]
    ensures k in PurgeReaders(c, reading) ==> PurgeReaders(c, reading)[k] == c[k]
    ensures k in c ==> (CardUnchanged(c[k].readers, true, reading) <==> k in PurgeReaders(c, reading))
    ensures k in c ==> CardUnchanged(c[k].readers, false, reading)
  {
  }

  // ---- Inserting -------------------------------------------------------------------

  /** One entry has gone, one of those completed longest ago. */
  ghost predicate OldestWent(full: Cache, kept: Cache) {
    exists lost :: lost in full && kept == full - {lost} && forall k :: k in full ==> full[lost].completedAt <= full[k].completedAt
  }

  /** An insertion is refused exactly under a watermark of its workspace that is not below its
      generation. Otherwise the entry goes in under its key; up to 64 nothing else changes,
      and past that one entry goes, one of those completed longest ago. */
  lemma InsertedIff(g: Guarded, e: Entry, g': Guarded)
    requires Inserted(g, e, g') && |g.cache| <= 64
    ensures var ws := e.key.workspaceID;
            if ws != "" && ws in g.invalidated && e.key.claimGeneration <= g.invalidated[ws] then g' == g
            else
              && g' == g.(cache := g'.cache)
              && if e.key in g.cache || |g.cache| < 64 then g'.cache == g.cache[e.key := e] else OldestWent(g.cache[e.key := e], g'.cache)
  {
    SizeAfter(g.cache, e);
    if !Refused(g.invalidated, e.key) && e.key !in g.cache && |g.cache| == 64 {
      OneGoes(g.cache[e.key := e], g'.cache);
    }
  }

  lemma SizeAfter(c: Cache, e: Entry)
    ensures |c[e.key := e]| == |c| + if e.key in c then 0 else 1
  {
    var full := c[e.key := e];
    if e.key in c {
      assert full.Keys == c.Keys;
    } else {
      assert full.Keys == c.Keys + {e.key};
    }
  }

  lemma OneGoes(full: Cache, kept: Cache)
    requires Evicted(full, kept) && |full| == 65
    ensures OldestWent(full, kept)
  {
    assert |full.Keys - kept.Keys| == 1 by {
      assert full.Keys == kept.Keys + (full.Keys - kept.Keys);
    }
    var lost :| lost in full.Keys - kept.Keys;
    OnlyMember(full.Keys - kept.Keys, lost);
    assert kept == full - {lost};
  }

  lemma OnlyMember<T>(s: set<T>, x: T)
    requires |s| == 1 && x in s
    ensures s == {x}
  {
    assert |s - {x}| == 0;
  }

  // ---- The PIN ---------------------------------------------------------------------

  /** A PIN is handed out only while one is cached; it stays cached in session mode and is
      spent in never mode, and the assertions stay either way. */
  lemma TakingPin(g: Guarded, pinCacheNever: bool)
    ensures var g' := TakePin(g, pinCacheNever);
            && g'.cache == g.cache && g'.invalidated == g.invalidated
            && g'.pin == (if pinCacheNever then "" else g.pin)
            && g'.pinSerial == (if pinCacheNever then 0 else g.pinSerial)
  {
  }

  /** Unlocking caches the PIN for its card and keeps that card's assertions, all of them. */
  lemma UnlockingKeepsItsCard(g: Guarded, pin: string, serial: nat, k: Key)
    ensures var g' := Unlocked(g, pin, serial);
            && g'.pin == pin && g'.pinSerial == serial && g'.invalidated == g.invalidated
            && (k in g'.cache <==> k in g.cache && g.cache[k].serial == serial)
            && (k in g'.cache ==> g'.cache[k] == g.cache[k])
  {
  }

  /** Locking forgets the PIN and every assertion, and no watermark. */
  lemma LockingForgets(g: Guarded)
    ensures var g' := Locked(g);
            g'.pin == "" && g'.pinSerial == 0 && g'.cache == map[] && g'.invalidated == g.invalidated
  {
  }

  /** After a signing attempt: a PIN the card rejected for good takes everything with it; any
      other PIN failure changes nothing; and a card verified meanwhile, while a PIN is still
      cached, becomes the one whose assertions are kept. */
  lemma RecordingPin(g: Guarded, serial: nat, verdict: PinVerdict, k: Key)
    ensures var g' := PinRecorded(g, serial, verdict);
            && g'.invalidated == g.invalidated
            && (verdict == PinError(true) ==> g'.pin == "" && g'.pinSerial == 0 && g'.cache == map[])
            && (verdict == PinError(false) ==> g' == g)
            && (verdict.NotAPinError? && (serial == 0 || g.pin == "") ==> g' == g)
            && (verdict.NotAPinError? && serial != 0 && g.pin != "" ==>
                  && g'.pin == g.pin && g'.pinSerial == serial
                  && (k in g'.cache <==> k in g.cache && g.cache[k].serial == serial)
                  && (k in g'.cache ==> g'.cache[k] == g.cache[k]))
  {
  }

  // ---- The sweep -------------------------------------------------------------------

  /** A sweep drops exactly the entries whose window is over or whose assertion has expired,
      and marks exactly those whose close it announces. */
  lemma SweepIff(c: Cache, now: Instant, k: Key)
    requires k in c
    ensures var e := c[k];
            var (wide, over) := (e.windowEndsAt > e.completedAt, e.windowEndsAt > e.completedAt && e.windowEndsAt <= now);
            && (k in Sweep(c, now) <==> !over && now < e.expiresAt)
            && (k in Sweep(c, now) ==>
                  Sweep(c, now)[k] == e.(notifiedPre := e.notifiedPre ||
                    (wide && e.windowEndsAt - e.completedAt > 60_000_000_000 && e.windowEndsAt - 60_000_000_000 <= now)))
  {
  }

  /** What is said of an entry, and that it is said: its close, when its window is over; that
      it closes in a minute, once that minute has begun, if the window was longer than that
      and it was not said before; and otherwise nothing. */
  lemma NoticeIff(e: Entry, now: Instant)
    ensures var (wide, over) := (e.windowEndsAt > e.completedAt, e.windowEndsAt > e.completedAt && e.windowEndsAt <= now);
            Notice(e, now) ==
              if over then Some("window for " + e.key.alias + " expired; next mint needs a touch")
              else if wide && now < e.expiresAt && !e.notifiedPre
                      && e.windowEndsAt - e.completedAt > 60_000_000_000 && e.windowEndsAt - 60_000_000_000 <= now
              then Some("window for " + e.key.alias + " expires in 60s")
              else None
  {
  }

  /** No due notice stays unsaid: a sweep that meets an entry whose window is over, or is
      about to close unannounced, says so. */
  lemma DueNoticesAreGiven(c: Cache, now: Instant, messages: multiset<string>, k: Key)
    requires k in c && Messages(c, now, messages)
    ensures var e := c[k];
            && (e.windowEndsAt > e.completedAt && e.windowEndsAt <= now ==>
                  messages["window for " + e.key.alias + " expired; next mint needs a touch"] > 0)
            && (e.windowEndsAt - 60_000_000_000 <= now < e.windowEndsAt && now < e.expiresAt && !e.notifiedPre
                && e.windowEndsAt - e.completedAt > 60_000_000_000 ==>
                  messages["window for " + e.key.alias + " expires in 60s"] > 0)
  {
    NoticeIff(c[k], now);
    var said := Notice(c[k], now);
    if said.Some? {
      assert k in Speakers(c, now, said.value);
    }
  }
}
