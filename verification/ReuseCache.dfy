/** The cache itself: mutable entries over mutable token buffers, updated in place by the
    critical sections of the inner lock.

    Every section is proved against ReuseSpec, and Valid() carries the heap law: each token
    buffer ever handed to the cache is either held, with its original bytes, or all zeros. */
module ReuseCache {
  import opened Basics
  import opened Requests
  import opened ReuseSpec
  import Sweeping

  method Zero(b: array<byte>)
    modifies b
    ensures AllZero(b[..])
  {
    for i := 0 to b.Length
      invariant forall j :: 0 <= j < i ==> b[j] == 0
    {
      b[i] := 0;
    }
  }

  /** id and original are what the daemon's history knows of the entry: which signature
      produced it, and the bytes it was given. */
  class CacheEntry {
    const key: Key
    const token: array<byte>
    const completedAt: Instant
    const expiresAt: Instant
    const serial: nat
    const keyID: string
    const spki: Bytes
    const readers: Option<seq<string>>
    const windowEndsAt: Instant
    var notifiedPre: bool
    var notifiedExpired: bool
    ghost const id: nat
    ghost const original: Bytes

    constructor (ghost id: nat, key: Key, bytes: Bytes, completedAt: Instant, expiresAt: Instant, serial: nat, keyID: string,
                 spki: Bytes, readers: Option<seq<string>>, windowEndsAt: Instant)
      ensures fresh(token) && token[..] == bytes && !notifiedPre && !notifiedExpired
      ensures View(false) == Entry(id, key, bytes, completedAt, expiresAt, serial, keyID, spki, readers, windowEndsAt, false)
    {
      var copied := new byte[|bytes|](i requires 0 <= i < |bytes| => bytes[i]);
      this.id, this.key, this.original, this.token := id, key, bytes, copied;
      this.completedAt, this.expiresAt, this.windowEndsAt := completedAt, expiresAt, windowEndsAt;
      this.serial, this.keyID, this.spki, this.readers := serial, keyID, spki, readers;
      this.notifiedPre, this.notifiedExpired := false, false;
      new;
      assert copied[..] == bytes;
    }

    ghost function View(marked: bool): Entry {
      Entry(id, key, original, completedAt, expiresAt, serial, keyID, spki, readers, windowEndsAt, marked)
    }

    ghost predicate Intact()
      reads token
    {
      token[..] == original
    }

    ghost predicate Wiped()
      reads token
    {
      AllZero(token[..])
    }
  }

  /** The held entries as values; marked are those whose closing has been announced. */
  ghost function EntriesOf(cache: map<Key, CacheEntry>, marked: set<CacheEntry>): Cache {
    map k | k in cache :: cache[k].View(cache[k] in marked)
  }

  lemma EntriesMinus(cache: map<Key, CacheEntry>, marked: set<CacheEntry>, doomed: set<Key>)
    ensures EntriesOf(cache - doomed, marked) == EntriesOf(cache, marked) - doomed
  {
  }

  lemma OtherSerialsMinus(cache: map<Key, CacheEntry>, marked: set<CacheEntry>, serial: nat, doomed: set<Key>)
    requires doomed == set k | k in cache && cache[k].serial != serial
    ensures PurgeOtherSerials(EntriesOf(cache, marked), serial) == EntriesOf(cache, marked) - doomed
  {
  }

  lemma ReadersMinus(cache: map<Key, CacheEntry>, marked: set<CacheEntry>, reading: Reading, doomed: set<Key>)
    requires doomed == set k | k in cache && !(reading.Names? && SameReaders(cache[k].readers, reading.names))
    ensures PurgeReaders(EntriesOf(cache, marked), reading) == EntriesOf(cache, marked) - doomed
  {
  }

  lemma WorkspaceMinus(cache: map<Key, CacheEntry>, marked: set<CacheEntry>, workspace: string, maxGeneration: nat, doomed: set<Key>)
    requires doomed == set k | k in cache && SpeaksFor(workspace, maxGeneration, k)
    ensures PurgeWorkspace(EntriesOf(cache, marked), workspace, maxGeneration) == EntriesOf(cache, marked) - doomed
    ensures EntriesOf(cache, marked).Keys == cache.Keys
  {
  }

  lemma EntriesPlus(cache: map<Key, CacheEntry>, marked: set<CacheEntry>, e: CacheEntry)
    ensures EntriesOf(cache[e.key := e], marked) == EntriesOf(cache, marked)[e.key := e.View(e in marked)]
  {
  }

  ghost predicate IsHighest(keys: set<Key>, workspace: string, maxGeneration: nat, highest: nat) {
    && (forall k :: k in keys && SpeaksFor(workspace, maxGeneration, k) ==> k.claimGeneration <= highest)
    && (highest == 0 || exists k :: k in keys && SpeaksFor(workspace, maxGeneration, k) && k.claimGeneration == highest)
  }

  lemma HighestIsWatermark(g: Guarded, workspace: string, maxGeneration: nat, highest: nat, watermark: nat)
    requires IsHighest(g.cache.Keys, workspace, maxGeneration, highest)
    requires watermark == if maxGeneration != 0 then maxGeneration
                          else if g.pendingWorkspace == workspace && g.pendingGeneration > highest then g.pendingGeneration
                          else highest
    ensures IsWatermark(g, workspace, maxGeneration, watermark)
  {
    if maxGeneration == 0 {
      forall k | k in g.cache && k.workspaceID == workspace ensures k.claimGeneration <= watermark {
        assert k in g.cache.Keys && SpeaksFor(workspace, maxGeneration, k);
      }
    }
  }

  lemma InvalidatedWith(g: Guarded, workspace: string, maxGeneration: nat, watermark: nat, after: map<string, nat>)
    requires workspace != "" && IsWatermark(g, workspace, maxGeneration, watermark)
    requires if watermark == 0 then after == g.invalidated else WatermarkRecorded(g.invalidated, workspace, watermark, after)
    ensures Invalidated(g, workspace, maxGeneration,
              g.(cache := PurgeWorkspace(g.cache, workspace, maxGeneration), invalidated := after))
  {
  }

  lemma InsertedWith(g: Guarded, e: Entry, kept: Cache)
    requires !Refused(g.invalidated, e.key) && Evicted(g.cache[e.key := e], kept)
    ensures Inserted(g, e, g.(cache := kept))
  {
  }

  /** Some entries have left a cache over its cap: each completed no later than horizon, and
      every one left no earlier. */
  ghost predicate OldestGone(before: map<Key, CacheEntry>, after: map<Key, CacheEntry>, horizon: Instant) {
    && after.Keys <= before.Keys
    && (forall k :: k in after ==> after[k] == before[k])
    && (after == before || (|after| >= CACHE_CAP && forall k :: k in after ==> horizon <= after[k].completedAt))
    && (forall lost :: lost in before && lost !in after ==> before[lost].completedAt <= horizon)
  }

  lemma OneMoreGone(before: map<Key, CacheEntry>, after: map<Key, CacheEntry>, horizon: Instant, oldest: Key)
    requires OldestGone(before, after, horizon) && |after| > CACHE_CAP
    requires oldest in after && forall k :: k in after ==> after[oldest].completedAt <= after[k].completedAt
    ensures OldestGone(before, after - {oldest}, after[oldest].completedAt) && |after - {oldest}| < |after|
  {
    assert (after - {oldest}).Keys == after.Keys - {oldest};
  }

  lemma OldestGoneEvicts(before: map<Key, CacheEntry>, after: map<Key, CacheEntry>, marked: set<CacheEntry>, horizon: Instant)
    requires OldestGone(before, after, horizon) && |after| <= CACHE_CAP
    ensures Evicted(EntriesOf(before, marked), EntriesOf(after, marked))
  {
    assert EntriesOf(before, marked).Keys == before.Keys && EntriesOf(after, marked).Keys == after.Keys;
    SubsetCardinality(after.Keys, before.Keys);
  }

  class Core {
    var cache: map<Key, CacheEntry>
    var invalidated: map<string, nat>
    var pendingWorkspace: string
    var pendingGeneration: nat
    var pin: string
    var pinSerial: nat
    /** Every entry ever handed to insertLocked, by its buffer and by its signature. */
    ghost var handed: set<CacheEntry>
    ghost var buffers: set<array<byte>>
    ghost var owner: map<array<byte>, CacheEntry>
    ghost var byId: map<nat, CacheEntry>
    ghost var marked: set<CacheEntry>

    /** Every handed entry has a buffer and a signature of its own. */
    ghost predicate Owned(e: CacheEntry)
      reads this`buffers, this`owner, this`byId
    {
      && e.token in buffers && e.token in owner && owner[e.token] == e
      && e.id in byId && byId[e.id] == e
    }

    ghost predicate Held(e: CacheEntry)
      reads this`cache
    {
      e.key in cache && cache[e.key] == e
    }

    /** The heap law for one handed entry: its original bytes while it is held, all zeros
        from then on. */
    ghost predicate Lawful(e: CacheEntry)
      reads this`cache, e.token
    {
      if Held(e) then e.Intact() else e.Wiped()
    }

    ghost predicate Valid()
      reads this`cache, this`handed, this`buffers, this`owner, this`byId, this`marked
      reads handed, buffers
    {
      && (forall k :: k in cache ==> cache[k] in handed && cache[k].key == k && !cache[k].notifiedExpired)
      && (forall e :: e in handed ==> Owned(e))
      && (forall e :: e in handed ==> Lawful(e))
      && (forall e :: e in handed ==> (e.notifiedPre <==> e in marked))
    }

    lemma ForgottenIsWiped()
      requires Valid()
      ensures forall e :: e in handed && !Held(e) ==> e.Wiped()
    {
      assert forall e :: e in handed ==> Lawful(e);
    }

    ghost function Entries(): Cache
      reads this
    {
      EntriesOf(cache, marked)
    }

    ghost function View(): Guarded
      reads this
    {
      Guarded(Entries(), invalidated, pendingWorkspace, pendingGeneration, pin, pinSerial)
    }

    constructor ()
      ensures Valid() && View() == EMPTY && handed == {}
    {
      cache, invalidated := map[], map[];
      pendingWorkspace, pendingGeneration, pin, pinSerial := "", 0, "", 0;
      handed, buffers, owner, byId, marked := {}, {}, map[], map[], {};
    }

    // ---- Purging -------------------------------------------------------------

    /** Zeroizes one held token and forgets the entry. */
    method Discard(key: Key)
      requires Valid() && key in cache
      modifies this`cache, buffers
      ensures Valid()
      ensures cache == old(cache) - {key}
    {
      var entry := cache[key];
      assert Owned(entry);
      Zero(entry.token);
      cache := cache - {key};
      forall e | e in handed ensures Lawful(e) {
        assert old(Lawful(e)) && Owned(e);
      }
    }

    /** The loop every purge runs over the keys it has decided to drop. */
    method DiscardAll(doomed: set<Key>)
      requires Valid() && doomed <= cache.Keys
      modifies this`cache, buffers
      ensures Valid()
      ensures cache == old(cache) - doomed
    {
      var keys := doomed;
      while keys != {}
        invariant Valid()
        invariant keys <= cache.Keys <= old(cache.Keys)
        invariant forall k :: k in cache ==> cache[k] == old(cache)[k]
        invariant forall k :: k in old(cache) && k !in cache ==> k in doomed
        invariant forall k :: k in doomed && k in cache ==> k in keys
        decreases keys
      {
        var key :| key in keys;
        Discard(key);
        keys := keys - {key};
      }
    }

    method PurgeKeys(doomed: set<Key>)
      requires Valid() && doomed <= cache.Keys
      modifies this`cache, buffers
      ensures Valid()
      ensures cache == old(cache) - doomed && Entries() == old(Entries()) - doomed
      ensures old(cache.Keys) - cache.Keys == doomed
    {
      EntriesMinus(cache, marked, doomed);
      DiscardAll(doomed);
      assert cache.Keys == old(cache.Keys) - doomed;
    }

    method DropEntry(key: Key)
      requires Valid()
      modifies this`cache, buffers
      ensures Valid()
      ensures View() == old(View()).(cache := old(Entries()) - {key})
    {
      if key in cache {
        EntriesMinus(cache, marked, {key});
        Discard(key);
      }
    }

    method PurgeAllLocked() returns (purged: nat)
      requires Valid()
      modifies this`cache, buffers
      ensures Valid() && purged == |old(cache)|
      ensures View() == old(View()).(cache := map[])
      ensures forall e :: e in handed ==> e.Wiped()
    {
      purged := |cache|;
      PurgeKeys(cache.Keys);
      ForgottenIsWiped();
    }

    method PurgeOtherSerialsLocked(serial: nat) returns (purged: nat)
      requires Valid()
      modifies this`cache, buffers
      ensures Valid()
      ensures View() == old(View()).(cache := PurgeOtherSerials(old(Entries()), serial))
      ensures forall e :: e in handed && e.serial != serial ==> e.Wiped()
      ensures purged == |old(cache.Keys) - cache.Keys|
    {
      var doomed := set k | k in cache && cache[k].serial != serial;
      OtherSerialsMinus(cache, marked, serial, doomed);
      purged := |doomed|;
      PurgeKeys(doomed);
      ForgottenIsWiped();
    }

    /** Drops every entry whose card is no longer the one in the reader. */
    method PollReaders(reading: Reading) returns (purged: nat)
      requires Valid()
      modifies this`cache, buffers
      ensures Valid()
      ensures View() == old(View()).(cache := PurgeReaders(old(Entries()), reading))
      ensures purged == |old(cache.Keys) - cache.Keys|
    {
      var doomed := set k | k in cache && !(reading.Names? && SameReaders(cache[k].readers, reading.names));
      ReadersMinus(cache, marked, reading, doomed);
      purged := |doomed|;
      PurgeKeys(doomed);
    }

    // ---- Invalidation --------------------------------------------------------

    /** Drops every assertion the claim speaks for and reports the highest generation dropped. */
    method PurgeWorkspaceLocked(workspace: string, maxGeneration: nat) returns (purged: nat, highest: nat)
      requires Valid()
      modifies this`cache, buffers
      ensures Valid()
      ensures View() == old(View()).(cache := PurgeWorkspace(old(Entries()), workspace, maxGeneration))
      ensures purged == |old(cache.Keys) - cache.Keys|
      ensures IsHighest(old(Entries()).Keys, workspace, maxGeneration, highest)
    {
      var doomed := set k | k in cache && SpeaksFor(workspace, maxGeneration, k);
      WorkspaceMinus(cache, marked, workspace, maxGeneration, doomed);
      highest := HighestGeneration(doomed);
      purged := |doomed|;
      PurgeKeys(doomed);
    }

    /** Drops every assertion held for one workspace claim and leaves a watermark against
        the one that may still be inside the card. */
    method InvalidateWorkspace(workspace: string, maxGeneration: nat) returns (purged: nat)
      requires Valid()
      modifies this`cache, this`invalidated, buffers
      ensures Valid()
      ensures Invalidated(old(View()), workspace, maxGeneration, View())
      ensures purged == |old(cache.Keys) - cache.Keys|
    {
      if workspace == "" {
        assert cache.Keys - cache.Keys == {};
        purged := 0;
      } else {
        ghost var before := View();
        var highest: nat;
        purged, highest := PurgeWorkspaceLocked(workspace, maxGeneration);
        LeaveWatermark(before, workspace, maxGeneration, highest);
      }
    }

    method LeaveWatermark(ghost before: Guarded, workspace: string, maxGeneration: nat, highest: nat)
      requires Valid()
      requires workspace != "" && View() == before.(cache := PurgeWorkspace(before.cache, workspace, maxGeneration))
      requires IsHighest(before.cache.Keys, workspace, maxGeneration, highest)
      modifies this`invalidated
      ensures Valid()
      ensures Invalidated(before, workspace, maxGeneration, View())
    {
      var watermark := maxGeneration;
      if maxGeneration == 0 {
        watermark := highest;
        if pendingWorkspace == workspace && pendingGeneration > watermark {
          watermark := pendingGeneration;
        }
      }
      HighestIsWatermark(before, workspace, maxGeneration, highest, watermark);
      if watermark != 0 {
        RecordWatermarkLocked(workspace, watermark);
      }
      InvalidatedWith(before, workspace, maxGeneration, watermark, invalidated);
    }

    method RecordWatermarkLocked(workspace: string, generation: nat)
      requires Valid()
      modifies this`invalidated
      ensures Valid()
      ensures WatermarkRecorded(old(invalidated), workspace, generation, invalidated)
    {
      invalidated := WithWatermark(invalidated, workspace, generation);
    }

    // ---- Inserting -----------------------------------------------------------

    method EvictOldest() returns (oldest: Key)
      requires Valid() && cache != map[]
      modifies this`cache, buffers
      ensures Valid()
      ensures oldest in old(cache) && cache == old(cache) - {oldest}
      ensures forall k :: k in old(cache) ==> old(cache)[oldest].completedAt <= old(cache)[k].completedAt
    {
      oldest := OldestKey(cache);
      Discard(oldest);
    }

    /** Bounds the cache by dropping the least recently authorised entries. */
    method EvictLocked() returns (ghost horizon: Instant)
      requires Valid()
      modifies this`cache, buffers
      ensures Valid()
      ensures OldestGone(old(cache), cache, horizon) && |cache| <= 64
    {
      horizon := 0;
      ghost var before := cache;
      while |cache| > CACHE_CAP
        invariant Valid()
        invariant OldestGone(before, cache, horizon)
        decreases |cache|
      {
        ghost var full := cache;
        var oldest := EvictOldest();
        OneMoreGone(before, full, horizon, oldest);
        horizon := full[oldest].completedAt;
      }
    }

    /** An entry no one has handed over before, still carrying its bytes. */
    ghost predicate Newcomer(entry: CacheEntry)
      reads this, entry, entry.token
    {
      && entry !in handed && entry.token !in buffers && entry.token !in owner && entry.id !in byId
      && entry !in marked && !entry.notifiedPre && !entry.notifiedExpired && entry.Intact()
    }

    ghost method Adopt(entry: CacheEntry)
      requires entry.token !in owner && entry.id !in byId && entry !in handed
      requires forall e :: e in handed ==> Owned(e)
      modifies this`handed, this`buffers, this`owner, this`byId
      ensures handed == old(handed) + {entry} && buffers == old(buffers) + {entry.token}
      ensures forall e :: e in handed ==> Owned(e)
    {
      ghost var before := handed;
      assert forall e :: e in before ==> e.token != entry.token && e.id != entry.id;
      handed, buffers := handed + {entry}, buffers + {entry.token};
      owner, byId := owner[entry.token := entry], byId[entry.id := entry];
    }

    /** An invalidation has already spoken for the entry: its token is wiped, not kept. */
    method Refuse(entry: CacheEntry)
      requires Valid() && Newcomer(entry)
      modifies this`handed, this`buffers, this`owner, this`byId, entry.token
      ensures Valid() && handed == old(handed) + {entry} && entry.Wiped() && View() == old(View())
    {
      Zero(entry.token);
      Adopt(entry);
    }

    method PlaceInFreeSlot(entry: CacheEntry)
      requires Valid() && Newcomer(entry) && entry.key !in cache
      modifies this`cache, this`handed, this`buffers, this`owner, this`byId
      ensures Valid() && handed == old(handed) + {entry} && buffers == old(buffers) + {entry.token}
      ensures cache == old(cache)[entry.key := entry]
    {
      Adopt(entry);
      cache := cache[entry.key := entry];
      forall e | e in handed ensures Lawful(e) {
        assert e != entry ==> old(Lawful(e));
      }
    }

    /** Replaces whatever is held under the key, wiping it first. */
    method Place(entry: CacheEntry)
      requires Valid() && Newcomer(entry)
      modifies this`cache, this`handed, this`buffers, this`owner, this`byId, buffers
      ensures Valid() && handed == old(handed) + {entry} && buffers == old(buffers) + {entry.token}
      ensures cache == old(cache)[entry.key := entry]
    {
      ghost var before := cache;
      if entry.key in cache {
        Discard(entry.key);
        assert (before - {entry.key})[entry.key := entry] == before[entry.key := entry];
      }
      PlaceInFreeSlot(entry);
    }

    method Keep(entry: CacheEntry)
      requires Valid() && Newcomer(entry)
      modifies this`cache, this`handed, this`buffers, this`owner, this`byId, buffers, entry.token
      ensures Valid() && handed == old(handed) + {entry} && |cache| <= 64
      ensures Evicted(old(Entries())[entry.key := entry.View(false)], Entries())
    {
      EntriesPlus(cache, marked, entry);
      Place(entry);
      ghost var full := cache;
      ghost var horizon := EvictLocked();
      OldestGoneEvicts(full, cache, marked, horizon);
    }

    /** Keeps a completed mint's assertion unless an invalidation has already spoken for its
        workspace claim; None stands for a mint that left nothing to keep. */
    method InsertLocked(made: Option<CacheEntry>) returns (kept: bool)
      requires Valid() && (made.Some? ==> Newcomer(made.value))
      modifies this`cache, this`handed, this`buffers, this`owner, this`byId
      modifies buffers, if made.None? then {} else {made.value.token}
      ensures Valid()
      ensures made.None? ==> !kept && View() == old(View()) && handed == old(handed)
      ensures made.Some? ==>
                && handed == old(handed) + {made.value}
                && kept == !Refused(old(invalidated), made.value.key)
                && Inserted(old(View()), made.value.View(false), View())
      ensures kept ==> |cache| <= 64
      ensures made.Some? && !kept ==> made.value.Wiped()
    {
      match made
      case None =>
        kept := false;
      case Some(entry) =>
        kept := !Refused(invalidated, entry.key);
        ghost var before := View();
        if kept {
          Keep(entry);
          InsertedWith(before, entry.View(false), Entries());
        } else {
          Refuse(entry);
        }
    }

    method BeginPendingMint(key: Key)
      requires Valid()
      modifies this`pendingWorkspace, this`pendingGeneration
      ensures Valid()
      ensures View() == old(View()).(pendingWorkspace := key.workspaceID, pendingGeneration := key.claimGeneration)
    {
      pendingWorkspace, pendingGeneration := key.workspaceID, key.claimGeneration;
    }

    method EndPendingMint()
      requires Valid()
      modifies this`pendingWorkspace, this`pendingGeneration
      ensures Valid()
      ensures View() == old(View()).(pendingWorkspace := "", pendingGeneration := 0)
    {
      pendingWorkspace, pendingGeneration := "", 0;
    }

    // ---- Serving -------------------------------------------------------------

    /** The first section of a serve: is there an entry that may answer? */
    method Find(key: Key, now: Instant, arrival: Instant, aliasReuse: Duration, singleFlight: bool) returns (found: Option<CacheEntry>)
      requires Valid()
      ensures found.Some? ==> found.value in handed && found.value.key == key
      ensures Lookup(Entries(), key, now, arrival, aliasReuse, singleFlight)
           == match found { case None => None case Some(e) => Some(e.View(e in marked)) }
      ensures found.Some? <==>
                && key in cache && cache[key].expiresAt - now >= 60_000_000_000
                && (|| (singleFlight && arrival <= cache[key].completedAt)
                    || (0 < aliasReuse && now - cache[key].completedAt <= aliasReuse && now < cache[key].windowEndsAt))
    {
      found := None;
      if key in cache {
        var entry := cache[key];
        if entry.expiresAt - now >= VALIDITY_FLOOR {
          var coalesced := singleFlight && arrival <= entry.completedAt;
          var reusable := aliasReuse > 0 && now - entry.completedAt <= aliasReuse && now < entry.windowEndsAt;
          if coalesced || reusable {
            found := Some(entry);
          }
        }
      }
    }

    /** The last section of a serve, after the reader probe ran with the lock released: the
        token is given out only if the very entry that was found is still held, and then it
        is the byte-identical one. */
    method Redeem(entry: CacheEntry) returns (token: Option<Bytes>)
      requires Valid() && entry in handed
      ensures token.Some? <==> entry.key in Entries() && Entries()[entry.key].id == entry.id
      ensures token.Some? ==> token.value == entry.original == Entries()[entry.key].token
    {
      token := None;
      if entry.key in cache {
        assert Owned(entry) && Owned(cache[entry.key]);
        if cache[entry.key] == entry {
          assert Lawful(entry);
          token := Some(entry.token[..]);
        }
      }
    }

    // ---- PIN state -----------------------------------------------------------

    method SetPin(newPin: string, serial: nat)
      requires Valid()
      modifies this`pin, this`pinSerial
      ensures Valid() && View() == old(View()).(pin := newPin, pinSerial := serial)
    {
      pin, pinSerial := newPin, serial;
    }

    method ClearPinLocked()
      requires Valid()
      modifies this`pin, this`pinSerial
      ensures Valid() && View() == ClearPin(old(View()))
    {
      SetPin("", 0);
    }

    method FetchPin(pinCacheNever: bool) returns (copy: Option<string>)
      requires Valid()
      modifies this`pin, this`pinSerial
      ensures Valid()
      ensures if old(pin) == "" then copy == None && View() == old(View())
              else copy == Some(old(pin)) && View() == TakePin(old(View()), pinCacheNever)
    {
      copy := None;
      if pin != "" {
        copy := Some(pin);
        if pinCacheNever {
          ClearPinLocked();
        }
      }
    }

    method UnlockWith(newPin: string, serial: nat)
      requires Valid()
      modifies this`cache, this`pin, this`pinSerial, buffers
      ensures Valid() && View() == Unlocked(old(View()), newPin, serial)
    {
      ClearPinLocked();
      SetPin(newPin, serial);
      var purged := PurgeOtherSerialsLocked(serial);
    }

    method LockDaemon()
      requires Valid()
      modifies this`cache, this`pin, this`pinSerial, buffers
      ensures Valid() && View() == Locked(old(View()))
      ensures forall e :: e in handed ==> e.Wiped()
    {
      ClearPinLocked();
      var purged := PurgeAllLocked();
    }

    /** Updates the cached-PIN state after a signing attempt. */
    method RecordPinVerification(serial: nat, verdict: PinVerdict)
      requires Valid()
      modifies this`cache, this`pin, this`pinSerial, buffers
      ensures Valid() && View() == PinRecorded(old(View()), serial, verdict)
    {
      match verdict
      case PinError(clearCached) =>
        if clearCached {
          LockDaemon();
        }
      case NotAPinError =>
        if serial != 0 && pin != "" {
          SetPin(pin, serial);
          var purged := PurgeOtherSerialsLocked(serial);
        }
    }

    // ---- The notifier --------------------------------------------------------

    /** Remembers that the entry's closing has been announced. */
    method MarkAnnounced(key: Key)
      requires Valid() && key in cache
      modifies cache[key], this`marked
      ensures Valid() && marked == old(marked) + {cache[key]}
    {
      var entry := cache[key];
      entry.notifiedPre := true;
      marked := marked + {entry};
    }

    /** Announces the close of a window that is over, once, and forgets the entry. */
    method Retire(key: Key, now: Instant) returns (said: multiset<string>)
      requires Valid() && key in cache && Retires(Entries()[key], now)
      modifies this`cache, buffers, cache[key]
      ensures Valid() && cache == old(cache) - {key}
      ensures said == Sweeping.NoticeSet(old(Entries())[key], now)
    {
      var entry := cache[key];
      said := multiset{};
      if entry.windowEndsAt > entry.completedAt && now >= entry.windowEndsAt {
        if !entry.notifiedExpired {
          said := multiset{ExpiredText(key.alias)};
        }
      }
      Discard(key);
      if said != multiset{} {
        entry.notifiedExpired := true;
      }
    }

    /** The body of the sweep's loop for one entry. */
    method SweepEntry(key: Key, now: Instant, due: Option<Instant>) returns (said: multiset<string>, next: Option<Instant>)
      requires Valid() && key in cache
      modifies this`cache, this`marked, buffers, cache[key]
      ensures Valid()
      ensures Entries() == Sweeping.SweptSoFar(old(Entries()), now, {key})
      ensures said == Sweeping.NoticeSet(old(Entries())[key], now)
      ensures next == Sweeping.ConsiderEntry(old(Entries())[key], now, due)
    {
      said, next := multiset{}, due;
      var entry := cache[key];
      var windowed := entry.windowEndsAt > entry.completedAt;
      SweepOfOne(cache, marked, key, now);
      if (windowed && now >= entry.windowEndsAt) || now >= entry.expiresAt {
        said := Retire(key, now);
      } else {
        if windowed && !entry.notifiedPre && entry.windowEndsAt - entry.completedAt > NOTIFY_LEAD {
          var preAt := entry.windowEndsAt - NOTIFY_LEAD;
          if now < preAt {
            next := Sweeping.Consider(next, preAt);
          } else {
            MarkAnnounced(key);
            said := multiset{ClosingText(key.alias)};
          }
        }
        if windowed {
          next := Sweeping.Consider(next, entry.windowEndsAt);
        }
        next := Sweeping.Consider(next, entry.expiresAt);
      }
    }

    /** The pure step of the notifier: emits the notices due, retires what is finished, and
        reports when it next needs to run. */
    method NotifierSweep(now: Instant) returns (messages: multiset<string>, next: Option<Instant>)
      requires Valid()
      modifies this`cache, this`marked, buffers, handed
      ensures Valid()
      ensures View() == old(View()).(cache := Sweep(old(Entries()), now))
      ensures Messages(old(Entries()), now, messages)
      ensures NextSweep(old(Entries()), now, next)
    {
      ghost var before := Entries();
      messages, next := SweepLoop(now);
      Sweeping.Finish(before, Entries(), now, messages, next);
      assert cache != map[] <==> cache.Keys != {};
      if cache != map[] {
        next := Sweeping.Consider(next, now + POLL_INTERVAL);
      }
    }

    method SweepLoop(now: Instant) returns (messages: multiset<string>, next: Option<Instant>)
      requires Valid()
      modifies this`cache, this`marked, buffers, handed
      ensures Valid() && cache.Keys == Entries().Keys
      ensures Sweeping.Progress(old(Entries()), Entries(), now, old(Entries()).Keys, messages, next)
    {
      messages, next := multiset{}, None;
      ghost var c := Entries();
      ghost var done: set<Key> := {};
      var keys := cache.Keys;
      assert c.Keys == keys;
      Sweeping.Start(c, now);
      while keys != {}
        invariant Valid()
        invariant done + keys == c.Keys && done !! keys
        invariant Sweeping.Progress(c, Entries(), now, done, messages, next)
        decreases keys
      {
        var key :| key in keys;
        messages, next := SweepNext(key, now, messages, next, c, done);
        keys, done := keys - {key}, done + {key};
      }
      assert done == c.Keys;
    }

    method SweepNext(key: Key, now: Instant, messages: multiset<string>, next: Option<Instant>, ghost c: Cache, ghost done: set<Key>)
      returns (messages': multiset<string>, next': Option<Instant>)
      requires Valid() && key in c && key !in done
      requires Sweeping.Progress(c, Entries(), now, done, messages, next)
      modifies this`cache, this`marked, buffers, handed
      ensures Valid()
      ensures Sweeping.Progress(c, Entries(), now, done + {key}, messages', next')
    {
      Sweeping.Advance(c, Entries(), now, done, messages, next, key);
      var said;
      said, next' := SweepEntry(key, now, next);
      messages' := messages + said;
    }
  }

  lemma SweepOfOne(cache: map<Key, CacheEntry>, marked: set<CacheEntry>, key: Key, now: Instant)
    requires key in cache && forall k :: k in cache ==> cache[k].key == k
    ensures var (c, e) := (EntriesOf(cache, marked), cache[key]);
            Sweeping.SweptSoFar(c, now, {key})
            == if Retires(c[key], now) then EntriesOf(cache - {key}, marked)
               else if PreNoticeDue(c[key], now) then EntriesOf(cache, marked + {e})
               else c
  {
    EntriesMinus(cache, marked, {key});
  }

  method OldestKey(cache: map<Key, CacheEntry>) returns (oldest: Key)
    requires cache != map[]
    ensures oldest in cache && forall k :: k in cache ==> cache[oldest].completedAt <= cache[k].completedAt
  {
    var keys := cache.Keys;
    oldest :| oldest in keys;
    while keys != {}
      invariant keys <= cache.Keys && oldest in cache
      invariant forall k :: k in cache && k !in keys ==> cache[oldest].completedAt <= cache[k].completedAt
      decreases keys
    {
      var key :| key in keys;
      keys := keys - {key};
      if cache[key].completedAt < cache[oldest].completedAt {
        oldest := key;
      }
    }
  }

  /** The highest claim generation among some keys, zero when there is none. */
  method HighestGeneration(doomed: set<Key>) returns (highest: nat)
    ensures forall k :: k in doomed ==> k.claimGeneration <= highest
    ensures highest == 0 || exists k :: k in doomed && k.claimGeneration == highest
  {
    highest := 0;
    var keys := doomed;
    while keys != {}
      invariant keys <= doomed
      invariant forall k :: k in doomed && k !in keys ==> k.claimGeneration <= highest
      invariant highest == 0 || exists k :: k in doomed && k.claimGeneration == highest
      decreases keys
    {
      var key :| key in keys;
      keys := keys - {key};
      if key.claimGeneration > highest {
        highest := key.claimGeneration;
      }
    }
  }

  method LowestWorkspace(invalidated: map<string, nat>) returns (lowest: string)
    requires invalidated != map[]
    ensures lowest in invalidated && forall w :: w in invalidated ==> invalidated[lowest] <= invalidated[w]
  {
    var names := invalidated.Keys;
    lowest :| lowest in names;
    while names != {}
      invariant names <= invalidated.Keys && lowest in invalidated
      invariant forall w :: w in invalidated && w !in names ==> invalidated[lowest] <= invalidated[w]
      decreases names
    {
      var name :| name in names;
      names := names - {name};
      if invalidated[name] < invalidated[lowest] {
        lowest := name;
      }
    }
  }

  /** Raises one workspace's watermark, bounding the map. */
  method WithWatermark(invalidated: map<string, nat>, workspace: string, generation: nat) returns (kept: map<string, nat>)
    ensures WatermarkRecorded(invalidated, workspace, generation, kept)
  {
    if workspace in invalidated && invalidated[workspace] >= generation {
      return invalidated;
    }
    var full := invalidated[workspace := generation];
    kept := full;
    while |kept| > INVALIDATED_CAP
      invariant kept.Keys <= full.Keys
      invariant forall w :: w in kept ==> kept[w] == full[w]
      invariant |full| > INVALIDATED_CAP ==> |kept| >= INVALIDATED_CAP
      invariant |full| <= INVALIDATED_CAP ==> kept == full
      invariant forall lost, w :: lost in full && lost !in kept && w in kept ==> full[lost] <= full[w]
      decreases |kept|
    {
      var lowest := LowestWorkspace(kept);
      kept := kept - {lowest};
    }
  }
}
