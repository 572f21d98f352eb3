/** The state the daemon's inner lock guards, and what each critical section does to it.

    Where the program's own loop leaves a choice open (the order of map iteration), the
    section is a relation between the states before and after; otherwise it is a function. */
module ReuseSpec {
  import opened Basics
  import opened Requests

  const VALIDITY_FLOOR: Duration := 60_000_000_000
  const NOTIFY_LEAD: Duration := 60_000_000_000
  const POLL_INTERVAL: Duration := 2_000_000_000
  const CACHE_CAP := 64
  const INVALIDATED_CAP := 256

  /** One already-authorised assertion. id tells apart the signatures that produced two
      entries, as the identity of the entry object does in the program. readers is None when the signer
      cannot enumerate readers at all. */
  datatype Entry = Entry(
    id: nat, key: Key, token: Bytes, completedAt: Instant, expiresAt: Instant,
    serial: nat, keyID: string, spki: Bytes, readers: Option<seq<string>>,
    windowEndsAt: Instant, notifiedPre: bool)

  type Cache = map<Key, Entry>

  /** pin is "" when none is cached; invalidated holds each workspace's watermark. */
  datatype Guarded = Guarded(
    cache: Cache, invalidated: map<string, nat>,
    pendingWorkspace: string, pendingGeneration: nat,
    pin: string, pinSerial: nat)

  const EMPTY := Guarded(map[], map[], "", 0, "", 0)

  // ---- Serving -----------------------------------------------------------------

  predicate AboveFloor(e: Entry, now: Instant) {
    e.expiresAt - now >= VALIDITY_FLOOR
  }

  /** The request arrived before that signature completed. */
  predicate Coalesces(e: Entry, arrival: Instant, singleFlight: bool) {
    singleFlight && arrival <= e.completedAt
  }

  /** The operator's own window for the alias is still open for this entry. */
  predicate InWindow(e: Entry, now: Instant, aliasReuse: Duration) {
    aliasReuse > 0 && now - e.completedAt <= aliasReuse && now < e.windowEndsAt
  }

  predicate Admits(e: Entry, now: Instant, arrival: Instant, aliasReuse: Duration, singleFlight: bool) {
    AboveFloor(e, now) && (Coalesces(e, arrival, singleFlight) || InWindow(e, now, aliasReuse))
  }

  function Lookup(c: Cache, key: Key, now: Instant, arrival: Instant, aliasReuse: Duration, singleFlight: bool): Option<Entry> {
    if key in c && Admits(c[key], now, arrival, aliasReuse, singleFlight) then Some(c[key]) else None
  }

  /** What enumerating the readers reports: sorted names, or a failure. */
  datatype Reading = Names(names: seq<string>) | EnumerationFailed

  predicate CardUnchanged(snapshot: Option<seq<string>>, supported: bool, reading: Reading) {
    !supported || (reading.Names? && SameReaders(snapshot, reading.names))
  }

  /** A snapshot taken without reader support compares as an empty list. */
  predicate SameReaders(snapshot: Option<seq<string>>, names: seq<string>) {
    names == if snapshot.Some? then snapshot.value else []
  }

  // ---- Purging -----------------------------------------------------------------

  function PurgeOtherSerials(c: Cache, serial: nat): Cache {
    map k | k in c && c[k].serial == serial :: c[k]
  }

  predicate SpeaksFor(workspace: string, maxGeneration: nat, key: Key) {
    key.workspaceID == workspace && (maxGeneration == 0 || key.claimGeneration <= maxGeneration)
  }

  function PurgeWorkspace(c: Cache, workspace: string, maxGeneration: nat): Cache {
    map k | k in c && !SpeaksFor(workspace, maxGeneration, k) :: c[k]
  }

  function PurgeReaders(c: Cache, reading: Reading): Cache {
    map k | k in c && reading.Names? && SameReaders(c[k].readers, reading.names) :: c[k]
  }

  /** A bounded purge is recorded as given; an unbounded one as the highest generation
      actually seen for the workspace, purged here or inside the card now. */
  ghost predicate IsWatermark(g: Guarded, workspace: string, maxGeneration: nat, w: nat) {
    if maxGeneration != 0 then w == maxGeneration
    else
      && (forall k :: k in g.cache && k.workspaceID == workspace ==> k.claimGeneration <= w)
      && (g.pendingWorkspace == workspace ==> g.pendingGeneration <= w)
      && (|| w == 0
          || (exists k :: k in g.cache && k.workspaceID == workspace && k.claimGeneration == w)
          || (g.pendingWorkspace == workspace && g.pendingGeneration == w))
  }

  /** Watermarks only rise, and past the cap the lowest generations are forgotten. */
  ghost predicate WatermarkRecorded(before: map<string, nat>, workspace: string, generation: nat, after: map<string, nat>) {
    if workspace in before && before[workspace] >= generation then after == before
    else TrimmedTo(INVALIDATED_CAP, before[workspace := generation], after)
  }

  ghost predicate TrimmedTo(cap: nat, full: map<string, nat>, kept: map<string, nat>) {
    && kept.Keys <= full.Keys
    && (forall w :: w in kept ==> kept[w] == full[w])
    && (|full| <= cap ==> kept == full)
    && (|full| > cap ==> |kept| == cap)
    && (forall lost, w :: lost in full && lost !in kept && w in kept ==> full[lost] <= full[w])
  }

  ghost predicate Invalidated(g: Guarded, workspace: string, maxGeneration: nat, g': Guarded) {
    if workspace == "" then g' == g
    else
      && g' == g.(cache := PurgeWorkspace(g.cache, workspace, maxGeneration), invalidated := g'.invalidated)
      && exists w: nat ::
           && IsWatermark(g, workspace, maxGeneration, w)
           && if w == 0 then g'.invalidated == g.invalidated
              else WatermarkRecorded(g.invalidated, workspace, w, g'.invalidated)
  }

  // ---- Inserting ---------------------------------------------------------------

  predicate Refused(invalidated: map<string, nat>, key: Key) {
    key.workspaceID in invalidated && key.workspaceID != "" && key.claimGeneration <= invalidated[key.workspaceID]
  }

  /** Past the cap the entries completed longest ago go first. */
  ghost predicate Evicted(full: Cache, kept: Cache) {
    && kept.Keys <= full.Keys
    && (forall k :: k in kept ==> kept[k] == full[k])
    && (|full| <= CACHE_CAP ==> kept == full)
    && (|full| > CACHE_CAP ==> |kept| == CACHE_CAP)
    && (forall lost, k :: lost in full && lost !in kept && k in kept ==> full[lost].completedAt <= full[k].completedAt)
  }

  ghost predicate Inserted(g: Guarded, e: Entry, g': Guarded) {
    if Refused(g.invalidated, e.key) then g' == g
    else g' == g.(cache := g'.cache) && Evicted(g.cache[e.key := e], g'.cache)
  }

  // ---- PIN state ---------------------------------------------------------------

  function ClearPin(g: Guarded): Guarded {
    g.(pin := "", pinSerial := 0)
  }

  function TakePin(g: Guarded, pinCacheNever: bool): Guarded {
    if pinCacheNever then ClearPin(g) else g
  }

  /** A PIN that a card has just verified replaces whatever was cached. */
  function Unlocked(g: Guarded, pin: string, serial: nat): Guarded {
    g.(pin := pin, pinSerial := serial, cache := PurgeOtherSerials(g.cache, serial))
  }

  function Locked(g: Guarded): Guarded {
    ClearPin(g).(cache := map[])
  }

  /** How a signing attempt ended, as far as the cached PIN is concerned. */
  datatype PinVerdict = NotAPinError | PinError(clearCached: bool)

  /** A nonzero serial means the cached PIN was verified against that card meanwhile. */
  function PinRecorded(g: Guarded, serial: nat, verdict: PinVerdict): Guarded {
    match verdict
    case PinError(clear) => if clear then Locked(g) else g
    case NotAPinError =>
      if serial != 0 && g.pin != "" then g.(pinSerial := serial, cache := PurgeOtherSerials(g.cache, serial)) else g
  }

  // ---- The notifier's sweep ----------------------------------------------------

  predicate Windowed(e: Entry) {
    e.windowEndsAt > e.completedAt
  }

  predicate WindowOver(e: Entry, now: Instant) {
    Windowed(e) && now >= e.windowEndsAt
  }

  predicate Retires(e: Entry, now: Instant) {
    WindowOver(e, now) || now >= e.expiresAt
  }

  /** A window no longer than the lead would announce its own opening. */
  predicate AwaitsPreNotice(e: Entry) {
    Windowed(e) && !e.notifiedPre && e.windowEndsAt - e.completedAt > NOTIFY_LEAD
  }

  predicate PreNoticeDue(e: Entry, now: Instant) {
    !Retires(e, now) && AwaitsPreNotice(e) && now >= e.windowEndsAt - NOTIFY_LEAD
  }

  function Swept(e: Entry, now: Instant): Entry {
    if PreNoticeDue(e, now) then e.(notifiedPre := true) else e
  }

  function Sweep(c: Cache, now: Instant): Cache {
    map k | k in c && !Retires(c[k], now) :: Swept(c[k], now)
  }

  /** What the sweep says about one entry; None is silence. */
  function Notice(e: Entry, now: Instant): Option<string> {
    if WindowOver(e, now) then Some(ExpiredText(e.key.alias))
    else if PreNoticeDue(e, now) then Some(ClosingText(e.key.alias))
    else None
  }

  function ExpiredText(alias: string): string {
    "window for " + alias + " expired; next mint needs a touch"
  }

  function ClosingText(alias: string): string {
    "window for " + alias + " expires in 60s"
  }

  ghost function Speakers(c: Cache, now: Instant, text: string): set<Key> {
    set k | k in c && Notice(c[k], now) == Some(text)
  }

  /** Each entry's notice once, and nothing else. */
  ghost predicate Messages(c: Cache, now: Instant, messages: multiset<string>) {
    forall text :: messages[text] == |Speakers(c, now, text)|
  }

  /** The instants at which a surviving entry next needs attention. */
  ghost predicate DeadlineOf(e: Entry, now: Instant, at: Instant) {
    || at == e.expiresAt
    || (Windowed(e) && at == e.windowEndsAt)
    || (AwaitsPreNotice(e) && now < e.windowEndsAt - NOTIFY_LEAD && at == e.windowEndsAt - NOTIFY_LEAD)
  }

  ghost predicate DueAt(c: Cache, now: Instant, at: Instant) {
    || at == now + POLL_INTERVAL
    || exists k :: k in c && !Retires(c[k], now) && DeadlineOf(c[k], now, at)
  }

  /** The earliest of those instants and the reader poll, or None when nothing is held. */
  ghost predicate NextSweep(c: Cache, now: Instant, next: Option<Instant>) {
    match next
    case None => Sweep(c, now) == map[]
    case Some(at) => Sweep(c, now) != map[] && DueAt(c, now, at) && forall other :: DueAt(c, now, other) ==> at <= other
  }
}
