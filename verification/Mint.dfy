/** The daemon as a step system. The outer lock serializes local mints, unlock and lock;
    every critical section of the inner lock is one step, so invalidation, the notifier's
    sweep and its reader poll interleave with a touch in progress at every point where the
    program lets them. */
module Mint {
  import opened Basics
  import opened Config
  import opened Requests
  import opened ReuseSpec
  import Jws
  import Window

  /** The card that signed and what it signed. */
  datatype Signed = Signed(serial: nat, digest: Digest, signature: Bytes) {
    function Token(): Bytes {
      match Jws.Assemble(digest.input, signature)
      case Ok(token) => token
      case Err(_) => []
    }

    function ExpiresAt(): Instant {
      FromUnix(digest.claims.exp)
    }
  }

  /** One signature begun: who asked, the jti and instant drawn for it, and how it went. */
  datatype Touch = Touch(ticket: Ticket, jti: string, signAt: Instant, signed: Option<Signed>, completedAt: Option<Instant>)

  datatype SignOutcome =
    | Signature(serial: nat, spki: Bytes, signature: Bytes)
    | SignFailed(serial: nat, verdict: PinVerdict)

  /** touch and settled record which signature answered and at which instant the answer
      became fixed; the rest is what the caller receives. */
  datatype Answer =
    | Refusal
    | Credential(touch: nat, settled: Instant, token: Bytes, expiresAt: Instant, serial: nat, keyID: string, spki: Bytes,
                 reused: bool, windowSeconds: int, windowDeadline: int)

  /** Where the request holding the outer lock stands. */
  datatype Phase =
    | Holding
    | Admitted(entry: Entry, at: Instant)
    | CardSame(entry: Entry, at: Instant)
    | CardChanged
    | Missed
    | Armed
    | Drawn(jti: string, signAt: Instant)
    | InCard(touch: nat)
    | Returned(touch: nat, outcome: SignOutcome)
    | PinNoted(touch: nat)
    | Completed(touch: nat)
    | Prepared(touch: nat, made: Option<Entry>)
    | Ending(answer: Answer)
    | Finished(answer: Answer)

  datatype OuterLock = Free | Unlocking(pin: string) | Minting(ticket: Ticket, phase: Phase)

  datatype Sys = Sys(
    now: Instant, reading: Reading, polled: Option<Reading>,
    g: Guarded, outer: OuterLock, queued: multiset<Ticket>, touches: seq<Touch>)

  datatype Step =
    // the world
    | Tick(to: Instant) | ReadersChange(shown: Reading)
    // one local request
    | Arrive(req: Request) | Take(ticket: Ticket)
    | LookUp | Probe | Drop | Serve
    | FetchPin | Draw(jti: Option<string>) | Begin | SignReturns(outcome: SignOutcome)
    | NotePin | Complete | Snapshot | Insert | EndPending | Release
    // everything that interleaves with it
    | Lock | UnlockBegin(pin: string) | UnlockEnd(verified: Option<nat>)
    | Invalidate(workspace: string, maxGeneration: nat) | SweepNow | PollRead | PollPurge

  ghost predicate Initial(s: Sys) {
    s.g == EMPTY && s.outer == Free && s.queued == multiset{} && s.touches == [] && s.polled == None
  }

  function UnixOrZero(deadline: Option<Instant>): int {
    if deadline.None? then 0 else Unix(deadline.value)
  }

  function CachedAnswer(e: Entry, at: Instant, t: Ticket): Answer {
    Credential(e.id, at, e.token, e.expiresAt, e.serial, e.keyID, e.spki, true, t.grant.seconds, UnixOrZero(t.grant.deadline))
  }

  function FreshAnswer(i: nat, touch: Touch, t: Ticket): Answer
    requires touch.signed.Some? && touch.completedAt.Some?
  {
    var sg := touch.signed.value;
    Credential(i, touch.completedAt.value, sg.Token(), sg.ExpiresAt(), sg.serial, sg.digest.kid, sg.digest.spki,
               false, t.grant.seconds, UnixOrZero(t.grant.deadline))
  }

  /** The entry of a completed touch, given the reader names seen just after it. */
  function MadeEntry(i: nat, touch: Touch, readers: Option<seq<string>>): Entry
    requires touch.signed.Some? && touch.completedAt.Some?
  {
    var t, sg, at := touch.ticket, touch.signed.value, touch.completedAt.value;
    Entry(i, t.key, sg.Token(), at, sg.ExpiresAt(), sg.serial, sg.digest.kid, sg.digest.spki, readers,
          Window.TouchFreeUntil(at, Reuse(t.alias), t.grant.deadline), false)
  }

  /** None when the daemon keeps nothing: neither coalescing nor a window is configured, or
      the readers could not be enumerated. */
  function NewEntry(cfg: Settings, i: nat, touch: Touch, reading: Reading): Option<Entry>
    requires touch.signed.Some? && touch.completedAt.Some?
  {
    if !cfg.singleFlight && Reuse(touch.ticket.alias) == 0 then None
    else if !cfg.listsReaders then Some(MadeEntry(i, touch, None))
    else if reading.EnumerationFailed? then None
    else Some(MadeEntry(i, touch, Some(reading.names)))
  }

  /** The hardware's part: it signed the digest the callback built for the card it found,
      and the signature verifies under that card's key. */
  ghost predicate Genuine(cfg: Settings, touch: Touch, outcome: SignOutcome) {
    outcome.Signature? ==>
      var d := DigestFor(cfg, touch.ticket.req, touch.ticket.alias, outcome.serial, outcome.spki, touch.jti, touch.signAt);
      d.Ok? && cfg.rsa.verifies(outcome.spki, d.value.input, outcome.signature)
  }

  function OutcomeSigned(cfg: Settings, touch: Touch, outcome: SignOutcome): Option<Signed> {
    if outcome.SignFailed? then None
    else
      match DigestFor(cfg, touch.ticket.req, touch.ticket.alias, outcome.serial, outcome.spki, touch.jti, touch.signAt)
      case Err(_) => None
      case Ok(d) => Some(Signed(outcome.serial, d, outcome.signature))
  }

  function OutcomeVerdict(outcome: SignOutcome): PinVerdict {
    match outcome
    case Signature(_, _, _) => NotAPinError
    case SignFailed(_, verdict) => verdict
  }

  // ---- The request that holds the outer lock ------------------------------------

  ghost predicate LookUpStep(cfg: Settings, s: Sys, s': Sys) {
    && s.outer.Minting? && s.outer.phase.Holding?
    && var t := s.outer.ticket;
       match Lookup(s.g.cache, t.key, s.now, t.arrival, Reuse(t.alias), cfg.singleFlight)
       case None => s' == s.(outer := Minting(t, Missed))
       case Some(e) => s' == s.(outer := Minting(t, Admitted(e, s.now)))
  }

  /** Enumerates hardware, so it runs with the inner lock released. */
  ghost predicate ProbeStep(cfg: Settings, s: Sys, s': Sys) {
    && s.outer.Minting? && s.outer.phase.Admitted?
    && var (t, p) := (s.outer.ticket, s.outer.phase);
       s' == s.(outer := Minting(t, if CardUnchanged(p.entry.readers, cfg.listsReaders, s.reading)
                                    then CardSame(p.entry, p.at) else CardChanged))
  }

  ghost predicate DropStep(s: Sys, s': Sys) {
    && s.outer.Minting? && s.outer.phase.CardChanged?
    && var t := s.outer.ticket;
       s' == s.(g := s.g.(cache := s.g.cache - {t.key}), outer := Minting(t, Missed))
  }

  /** A purge may have overtaken the probe; then the entry is no longer the one admitted. */
  ghost predicate ServeStep(s: Sys, s': Sys) {
    && s.outer.Minting? && s.outer.phase.CardSame?
    && var (t, p) := (s.outer.ticket, s.outer.phase);
       s' == s.(outer := Minting(t, if t.key in s.g.cache && s.g.cache[t.key].id == p.entry.id
                                    then Finished(CachedAnswer(p.entry, p.at, t)) else Missed))
  }

  ghost predicate FetchPinStep(cfg: Settings, s: Sys, s': Sys) {
    && s.outer.Minting? && s.outer.phase.Missed?
    && var t := s.outer.ticket;
       if s.g.pin == "" then s' == s.(outer := Minting(t, Finished(Refusal)))
       else s' == s.(g := TakePin(s.g, cfg.pinCacheNever), outer := Minting(t, Armed))
  }

  ghost predicate DrawStep(s: Sys, jti: Option<string>, s': Sys) {
    && s.outer.Minting? && s.outer.phase.Armed?
    && s' == s.(outer := Minting(s.outer.ticket, if jti.None? then Finished(Refusal) else Drawn(jti.value, s.now)))
  }

  ghost predicate BeginStep(s: Sys, s': Sys) {
    && s.outer.Minting? && s.outer.phase.Drawn?
    && var (t, p) := (s.outer.ticket, s.outer.phase);
       s' == s.(g := s.g.(pendingWorkspace := t.key.workspaceID, pendingGeneration := t.key.claimGeneration),
                outer := Minting(t, InCard(|s.touches|)),
                touches := s.touches + [Touch(t, p.jti, p.signAt, None, None)])
  }

  ghost predicate SignReturnsStep(cfg: Settings, s: Sys, outcome: SignOutcome, s': Sys) {
    && s.outer.Minting? && s.outer.phase.InCard?
    && var (t, i) := (s.outer.ticket, s.outer.phase.touch);
    && i < |s.touches| && Genuine(cfg, s.touches[i], outcome)
    && s' == s.(outer := Minting(t, Returned(i, outcome)),
                touches := s.touches[i := s.touches[i].(signed := OutcomeSigned(cfg, s.touches[i], outcome))])
  }

  ghost predicate NotePinStep(s: Sys, s': Sys) {
    && s.outer.Minting? && s.outer.phase.Returned?
    && var (t, i, outcome) := (s.outer.ticket, s.outer.phase.touch, s.outer.phase.outcome);
       s' == s.(g := PinRecorded(s.g, outcome.serial, OutcomeVerdict(outcome)),
                outer := Minting(t, if outcome.SignFailed? || outcome.signature == [] then Ending(Refusal) else PinNoted(i)))
  }

  ghost predicate CompleteStep(s: Sys, s': Sys) {
    && s.outer.Minting? && s.outer.phase.PinNoted?
    && var (t, i) := (s.outer.ticket, s.outer.phase.touch);
    && i < |s.touches|
    && s' == s.(outer := Minting(t, Completed(i)), touches := s.touches[i := s.touches[i].(completedAt := Some(s.now))])
  }

  ghost predicate SnapshotStep(cfg: Settings, s: Sys, s': Sys) {
    && s.outer.Minting? && s.outer.phase.Completed?
    && var (t, i) := (s.outer.ticket, s.outer.phase.touch);
    && i < |s.touches| && s.touches[i].signed.Some? && s.touches[i].completedAt.Some?
    && s' == s.(outer := Minting(t, Prepared(i, NewEntry(cfg, i, s.touches[i], s.reading))))
  }

  ghost predicate InsertStep(s: Sys, s': Sys) {
    && s.outer.Minting? && s.outer.phase.Prepared?
    && var (t, i, made) := (s.outer.ticket, s.outer.phase.touch, s.outer.phase.made);
    && i < |s.touches| && s.touches[i].signed.Some? && s.touches[i].completedAt.Some?
    && s' == s.(g := s'.g, outer := Minting(t, Ending(FreshAnswer(i, s.touches[i], t))))
    && (if made.None? then s'.g == s.g else Inserted(s.g, made.value, s'.g))
  }

  ghost predicate EndPendingStep(s: Sys, s': Sys) {
    && s.outer.Minting? && s.outer.phase.Ending?
    && s' == s.(g := s.g.(pendingWorkspace := "", pendingGeneration := 0),
                outer := Minting(s.outer.ticket, Finished(s.outer.phase.answer)))
  }

  ghost predicate ReleaseStep(s: Sys, s': Sys) {
    s.outer.Minting? && s.outer.phase.Finished? && s' == s.(outer := Free)
  }

  // ---- Everything else, whoever holds the outer lock -----------------------------

  ghost predicate ArriveStep(cfg: Settings, s: Sys, req: Request, s': Sys) {
    && FromAdapters(req)
    && match Accept(cfg, req, s.now)
       case Err(_) => s' == s
       case Ok(t) => s' == s.(queued := s.queued + multiset{t})
  }

  ghost predicate UnlockEndStep(s: Sys, verified: Option<nat>, s': Sys) {
    && s.outer.Unlocking?
    && s' == s.(outer := Free, g := if verified.None? then s.g else Unlocked(s.g, s.outer.pin, verified.value))
  }

  ghost predicate InvalidateStep(s: Sys, workspace: string, maxGeneration: nat, s': Sys) {
    s' == s.(g := s'.g) && Invalidated(s.g, workspace, maxGeneration, s'.g)
  }

  ghost predicate Next(cfg: Settings, s: Sys, step: Step, s': Sys) {
    match step
    case LookUp => LookUpStep(cfg, s, s')
    case Probe => ProbeStep(cfg, s, s')
    case Drop => DropStep(s, s')
    case Serve => ServeStep(s, s')
    case FetchPin => FetchPinStep(cfg, s, s')
    case Draw(jti) => DrawStep(s, jti, s')
    case Begin => BeginStep(s, s')
    case SignReturns(outcome) => SignReturnsStep(cfg, s, outcome, s')
    case NotePin => NotePinStep(s, s')
    case Complete => CompleteStep(s, s')
    case Snapshot => SnapshotStep(cfg, s, s')
    case Insert => InsertStep(s, s')
    case EndPending => EndPendingStep(s, s')
    case Release => ReleaseStep(s, s')
    case Tick(to) => s.now <= to && s' == s.(now := to)
    case ReadersChange(shown) => s' == s.(reading := shown)
    case Arrive(req) => ArriveStep(cfg, s, req, s')
    case Take(t) =>
      s.outer.Free? && t in s.queued && s' == s.(queued := s.queued - multiset{t}, outer := Minting(t, Holding))
    case Lock => s.outer.Free? && s' == s.(g := Locked(s.g))
    case UnlockBegin(pin) => s.outer.Free? && pin != "" && s' == s.(outer := Unlocking(pin))
    case UnlockEnd(verified) => UnlockEndStep(s, verified, s')
    case Invalidate(workspace, maxGeneration) => InvalidateStep(s, workspace, maxGeneration, s')
    case SweepNow => s' == s.(g := s.g.(cache := Sweep(s.g.cache, s.now)))
    case PollRead => s.polled.None? && cfg.listsReaders && s' == s.(polled := Some(s.reading))
    case PollPurge =>
      s.polled.Some? && s' == s.(polled := None, g := s.g.(cache := PurgeReaders(s.g.cache, s.polled.value)))
  }

  /** Steps of the request holding the outer lock; the rest belong to the world around it. */
  predicate OfRequest(step: Step) {
    match step
    case LookUp | Probe | Drop | Serve | FetchPin | Draw(_) | Begin | SignReturns(_) => true
    case NotePin | Complete | Snapshot | Insert | EndPending | Release => true
    case _ => false
  }

  /** A finite run of the daemon: states[i] --steps[i]--> states[i + 1]. */
  datatype Run = Run(states: seq<Sys>, steps: seq<Step>)

  ghost predicate IsRun(cfg: Settings, r: Run) {
    && |r.states| == |r.steps| + 1
    && Initial(r.states[0])
    && forall i :: 0 <= i < |r.steps| ==> StepAt(cfg, r, i)
  }

  ghost predicate StepAt(cfg: Settings, r: Run, i: nat)
    requires |r.states| == |r.steps| + 1 && i < |r.steps|
  {
    Next(cfg, r.states[i], r.steps[i], r.states[i + 1])
  }
}
