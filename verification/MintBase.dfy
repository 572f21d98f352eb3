/** What every reachable state of the daemon satisfies: each held assertion, and each answer
    about to be given, is the work of one completed signature for the same requester tuple. */
module MintBase {
  import opened Basics
  import opened Config
  import opened Requests
  import opened ReuseSpec
  import opened Mint

  ghost predicate TicketOk(cfg: Settings, t: Ticket, now: Instant) {
    Accept(cfg, t.req, t.arrival) == Ok(t) && FromAdapters(t.req) && t.arrival <= now
  }

  /** The digest is the one the callback built for the card and the key that signed. */
  ghost predicate BuiltFor(cfg: Settings, touch: Touch, serial: nat, d: Digest) {
    forall spki :: spki == d.spki ==>
      DigestFor(cfg, touch.ticket.req, touch.ticket.alias, serial, spki, touch.jti, touch.signAt) == Ok(d)
  }

  /** The signature was made for the digest of its own request, by a card that passed every
      check, between the draw and the completion. */
  ghost predicate TouchSigned(cfg: Settings, touch: Touch, now: Instant) {
    && TicketOk(cfg, touch.ticket, now)
    && touch.ticket.arrival <= touch.signAt <= now
    && touch.signed.Some?
    && var sg := touch.signed.value;
    && BuiltFor(cfg, touch.(signed := None, completedAt := None), sg.serial, sg.digest)
    && cfg.rsa.verifies(sg.digest.spki, sg.digest.input, sg.signature)
    && sg.signature != []
  }

  ghost predicate TouchDone(cfg: Settings, touch: Touch, now: Instant) {
    TouchSigned(cfg, touch, now) && touch.completedAt.Some? && touch.signAt <= touch.completedAt.value <= now
  }

  ghost predicate EntryOf(cfg: Settings, s: Sys, e: Entry) {
    && e.id < |s.touches|
    && TouchDone(cfg, s.touches[e.id], s.now)
    && e == MadeEntry(e.id, s.touches[e.id], e.readers).(notifiedPre := e.notifiedPre)
  }

  function InFlight(o: OuterLock): Option<nat> {
    if !o.Minting? then None
    else
      match o.phase
      case InCard(i) => Some(i)
      case Returned(i, _) => Some(i)
      case PinNoted(i) => Some(i)
      case Completed(i) => Some(i)
      case Prepared(i, _) => Some(i)
      case _ => None
  }

  /** The answer repeats one completed touch for an equal requester tuple; a reused one was
      admitted at the instant it was settled. */
  ghost predicate AnswerOk(cfg: Settings, s: Sys, t: Ticket, a: Answer) {
    a.Credential? ==>
      && a.touch < |s.touches|
      && var touch := s.touches[a.touch];
      && TouchDone(cfg, touch, s.now)
      && touch.ticket.key == t.key
      && a.settled <= s.now
      && if a.reused
         then exists e: Entry :: EntryOf(cfg, s, e) && AdmittedAt(cfg, e, t, a.settled) && a == CachedAnswer(e, a.settled, t)
         else touch.ticket == t && a == FreshAnswer(a.touch, touch, t)
  }

  ghost predicate AdmittedAt(cfg: Settings, e: Entry, t: Ticket, at: Instant) {
    e.key == t.key && t.arrival <= at && e.completedAt <= at && Admits(e, at, t.arrival, Reuse(t.alias), cfg.singleFlight)
  }

  ghost predicate InFlightOk(cfg: Settings, s: Sys, t: Ticket, i: nat) {
    && i + 1 == |s.touches|
    && s.touches[i].ticket == t && t.arrival <= s.touches[i].signAt <= s.now
  }

  ghost predicate PhaseOk(cfg: Settings, s: Sys, t: Ticket, p: Phase) {
    match p
    case Admitted(e, at) => EntryOf(cfg, s, e) && AdmittedAt(cfg, e, t, at) && at <= s.now
    case CardSame(e, at) => EntryOf(cfg, s, e) && AdmittedAt(cfg, e, t, at) && at <= s.now
    case Drawn(jti, signAt) => t.arrival <= signAt <= s.now
    case InCard(i) => InFlightOk(cfg, s, t, i)
    case Returned(i, outcome) =>
      InFlightOk(cfg, s, t, i) && Genuine(cfg, s.touches[i], outcome) && s.touches[i].signed == OutcomeSigned(cfg, s.touches[i], outcome)
    case PinNoted(i) => InFlightOk(cfg, s, t, i) && TouchSigned(cfg, s.touches[i], s.now)
    case Completed(i) => InFlightOk(cfg, s, t, i) && TouchDone(cfg, s.touches[i], s.now)
    case Prepared(i, made) =>
      && InFlightOk(cfg, s, t, i) && TouchDone(cfg, s.touches[i], s.now)
      && (made.Some? ==> made.value.id == i && EntryOf(cfg, s, made.value))
    case Ending(a) => AnswerOk(cfg, s, t, a)
    case Finished(a) => AnswerOk(cfg, s, t, a)
    case _ => true
  }

  ghost predicate HeldOk(cfg: Settings, s: Sys, k: Key)
    requires k in s.g.cache
  {
    && s.g.cache[k].key == k
    && EntryOf(cfg, s, s.g.cache[k])
    && InFlight(s.outer) != Some(s.g.cache[k].id)
  }

  ghost predicate OuterOk(cfg: Settings, s: Sys) {
    match s.outer
    case Minting(t, p) =>
      && TicketOk(cfg, t, s.now)
      && PhaseOk(cfg, s, t, p)
      && (InFlight(s.outer).Some? ==>
            s.g.pendingWorkspace == t.key.workspaceID && s.g.pendingGeneration == t.key.claimGeneration)
    case _ => true
  }

  ghost predicate Base(cfg: Settings, s: Sys) {
    && (forall t :: t in s.queued ==> TicketOk(cfg, t, s.now))
    && (forall k :: k in s.g.cache ==> HeldOk(cfg, s, k))
    && OuterOk(cfg, s)
  }

  /** History only grows: a later state knows every finished touch an earlier one did. */
  ghost predicate Extends(cfg: Settings, s: Sys, s': Sys) {
    && s.now <= s'.now
    && |s.touches| <= |s'.touches|
    && forall i :: 0 <= i < |s.touches| && Some(i) != InFlight(s.outer) ==> s'.touches[i] == s.touches[i]
  }

  /** An entry may be marked and history may grow; it is still the work of its touch. */
  lemma EntrySurvives(cfg: Settings, s: Sys, e: Entry, s': Sys, e': Entry)
    requires EntryOf(cfg, s, e) && e' == e.(notifiedPre := e'.notifiedPre)
    requires s.now <= s'.now && e.id < |s'.touches| && s'.touches[e.id] == s.touches[e.id]
    ensures EntryOf(cfg, s', e')
  {
    DoneForGood(cfg, s.touches[e.id], s.now, s'.now);
  }

  lemma DoneForGood(cfg: Settings, touch: Touch, now: Instant, later: Instant)
    requires TouchDone(cfg, touch, now) && now <= later
    ensures TouchDone(cfg, touch, later)
  {
  }

  lemma AnswerSurvives(cfg: Settings, s: Sys, s': Sys, t: Ticket, a: Answer)
    requires Extends(cfg, s, s') && AnswerOk(cfg, s, t, a) && InFlight(s.outer).None?
    ensures AnswerOk(cfg, s', t, a)
  {
    if a.Credential? && a.reused {
      var e :| EntryOf(cfg, s, e) && AdmittedAt(cfg, e, t, a.settled) && a == CachedAnswer(e, a.settled, t);
      EntrySurvives(cfg, s, e, s', e);
    }
  }

  /** Entries that only leave or are marked stay the work of finished touches. */
  lemma HeldSurvives(cfg: Settings, s: Sys, s': Sys)
    requires forall k :: k in s.g.cache ==> HeldOk(cfg, s, k)
    requires Extends(cfg, s, s')
    requires InFlight(s'.outer) in {InFlight(s.outer), None, Some(|s.touches|)}
    requires s'.g.cache.Keys <= s.g.cache.Keys
    requires forall k :: k in s'.g.cache ==> s'.g.cache[k].(notifiedPre := false) == s.g.cache[k].(notifiedPre := false)
    ensures forall k :: k in s'.g.cache ==> HeldOk(cfg, s', k)
  {
    forall k | k in s'.g.cache ensures HeldOk(cfg, s', k) {
      var (e, e') := (s.g.cache[k], s'.g.cache[k]);
      assert HeldOk(cfg, s, k);
      assert e.(notifiedPre := e'.notifiedPre) == e'.(notifiedPre := false).(notifiedPre := e'.notifiedPre);
      EntrySurvives(cfg, s, e, s', e');
    }
  }

  /** What no step outside the holding request does: change history, the pending claim or
      the phase, or put anything into the cache. */
  lemma WorldOnlyRemoves(cfg: Settings, s: Sys, step: Step, s': Sys)
    requires !OfRequest(step) && Next(cfg, s, step, s')
    ensures s'.touches == s.touches && s.now <= s'.now
    ensures s'.g.pendingWorkspace == s.g.pendingWorkspace && s'.g.pendingGeneration == s.g.pendingGeneration
    ensures s.outer.Minting? ==> s'.outer == s.outer
    ensures s'.outer.Minting? && s'.outer != s.outer ==> step.Take? && s'.outer == Minting(step.ticket, Holding) && step.ticket in s.queued
    ensures forall t :: t in s'.queued ==> t in s.queued || (step.Arrive? && FromAdapters(t.req) && Accept(cfg, t.req, s.now) == Ok(t))
    ensures s'.g.cache.Keys <= s.g.cache.Keys
    ensures forall k :: k in s'.g.cache ==> s'.g.cache[k].(notifiedPre := false) == s.g.cache[k].(notifiedPre := false)
  {
  }

  lemma OuterSurvives(cfg: Settings, s: Sys, s': Sys)
    requires Base(cfg, s) && s.outer.Minting? && s'.outer == s.outer
    requires s'.touches == s.touches && s.now <= s'.now
    requires s'.g.pendingWorkspace == s.g.pendingWorkspace && s'.g.pendingGeneration == s.g.pendingGeneration
    ensures OuterOk(cfg, s')
  {
    var t := s.outer.ticket;
    match s.outer.phase
    case Ending(a) => AnswerSurvives(cfg, s, s', t, a);
    case Finished(a) => AnswerSurvives(cfg, s, s', t, a);
    case _ =>
  }

  lemma QueueSurvives(cfg: Settings, s: Sys, s': Sys)
    requires (forall t :: t in s.queued ==> TicketOk(cfg, t, s.now)) && s.now <= s'.now
    requires forall t :: t in s'.queued ==> t in s.queued || (FromAdapters(t.req) && Accept(cfg, t.req, s.now) == Ok(t))
    ensures forall t :: t in s'.queued ==> TicketOk(cfg, t, s'.now)
  {
  }

  lemma TakenIsOk(cfg: Settings, s: Sys, t: Ticket)
    requires TicketOk(cfg, t, s.now) && s.outer == Minting(t, Holding)
    ensures OuterOk(cfg, s)
  {
  }

  lemma WorldKeepsBase(cfg: Settings, s: Sys, step: Step, s': Sys)
    requires Base(cfg, s) && !OfRequest(step) && Next(cfg, s, step, s')
    ensures Base(cfg, s')
  {
    WorldOnlyRemoves(cfg, s, step, s');
    HeldSurvives(cfg, s, s');
    QueueSurvives(cfg, s, s');
    if s.outer.Minting? {
      OuterSurvives(cfg, s, s');
    } else if s'.outer.Minting? {
      TakenIsOk(cfg, s', step.ticket);
    }
  }

  // ---- The request that holds the outer lock, step by step ------------------------

  /** The outcome of the serve step, and nothing else, answers from the cache. */
  lemma ServeKeepsOuter(cfg: Settings, s: Sys, s': Sys)
    requires OuterOk(cfg, s) && ServeStep(s, s')
    ensures OuterOk(cfg, s')
  {
    ServedEntryOk(cfg, s);
    if s'.outer.phase.Finished? {
      CachedAnswerOk(cfg, s', s.outer.ticket, s.outer.phase.entry, s.outer.phase.at);
      AnsweredOk(cfg, s', s.outer.ticket, CachedAnswer(s.outer.phase.entry, s.outer.phase.at, s.outer.ticket));
    }
  }

  lemma ServedEntryOk(cfg: Settings, s: Sys)
    requires OuterOk(cfg, s) && s.outer.Minting? && s.outer.phase.CardSame?
    ensures TicketOk(cfg, s.outer.ticket, s.now)
    ensures var (e, at) := (s.outer.phase.entry, s.outer.phase.at);
            EntryOf(cfg, s, e) && AdmittedAt(cfg, e, s.outer.ticket, at) && at <= s.now
  {
  }

  lemma AnsweredOk(cfg: Settings, s: Sys, t: Ticket, a: Answer)
    requires s.outer == Minting(t, Finished(a)) && TicketOk(cfg, t, s.now) && AnswerOk(cfg, s, t, a)
    ensures OuterOk(cfg, s)
  {
  }

  lemma CachedAnswerOk(cfg: Settings, s: Sys, t: Ticket, e: Entry, at: Instant)
    requires EntryOf(cfg, s, e) && AdmittedAt(cfg, e, t, at) && at <= s.now
    ensures AnswerOk(cfg, s, t, CachedAnswer(e, at, t))
  {
    assert e.key == s.touches[e.id].ticket.key;
  }

  lemma LookUpKeepsOuter(cfg: Settings, s: Sys, s': Sys)
    requires OuterOk(cfg, s) && LookUpStep(cfg, s, s')
    requires s.outer.ticket.key in s.g.cache ==> HeldOk(cfg, s, s.outer.ticket.key)
    ensures OuterOk(cfg, s')
  {
    var t := s.outer.ticket;
    if s'.outer.phase.Admitted? {
      FoundEntryOk(cfg, s, t, s.g.cache[t.key]);
      EntryDependsOnHistory(cfg, s, s', s.g.cache[t.key]);
    }
  }

  lemma FoundEntryOk(cfg: Settings, s: Sys, t: Ticket, e: Entry)
    requires EntryOf(cfg, s, e) && e.key == t.key && t.arrival <= s.now
    requires Admits(e, s.now, t.arrival, Reuse(t.alias), cfg.singleFlight)
    ensures AdmittedAt(cfg, e, t, s.now)
  {
  }

  lemma ProbeKeepsOuter(cfg: Settings, s: Sys, s': Sys)
    requires OuterOk(cfg, s) && ProbeStep(cfg, s, s')
    ensures OuterOk(cfg, s')
  {
  }

  /** Where the request has nothing in hand but its ticket. */
  predicate Bare(p: Phase) {
    p.Holding? || p.Missed? || p.Armed? || (p.Finished? && p.answer.Refusal?)
  }

  lemma BareIsOk(cfg: Settings, s: Sys)
    requires s.outer.Minting? ==> TicketOk(cfg, s.outer.ticket, s.now) && Bare(s.outer.phase)
    ensures OuterOk(cfg, s)
  {
  }

  predicate IsBareStep(step: Step) {
    step.Drop? || step.FetchPin? || step.Release?
  }

  lemma BareStepsLeaveBare(cfg: Settings, s: Sys, step: Step, s': Sys)
    requires IsBareStep(step) && Next(cfg, s, step, s')
    ensures s.outer.Minting? && s'.now == s.now
    ensures s'.outer.Minting? ==> s'.outer.ticket == s.outer.ticket && Bare(s'.outer.phase)
  {
    match step
    case Drop => assert DropStep(s, s');
    case FetchPin => assert FetchPinStep(cfg, s, s');
    case Release => assert ReleaseStep(s, s');
  }

  lemma DrawKeepsOuter(cfg: Settings, s: Sys, jti: Option<string>, s': Sys)
    requires OuterOk(cfg, s) && DrawStep(s, jti, s')
    ensures OuterOk(cfg, s')
  {
  }

  lemma BareStepsKeepOuter(cfg: Settings, s: Sys, step: Step, s': Sys)
    requires OuterOk(cfg, s) && IsBareStep(step) && Next(cfg, s, step, s')
    ensures OuterOk(cfg, s')
  {
    BareStepsLeaveBare(cfg, s, step, s');
    BareIsOk(cfg, s');
  }

  lemma BeginKeepsOuter(cfg: Settings, s: Sys, s': Sys)
    requires OuterOk(cfg, s) && BeginStep(s, s')
    ensures OuterOk(cfg, s')
  {
  }

  lemma SignReturnsKeepsOuter(cfg: Settings, s: Sys, outcome: SignOutcome, s': Sys)
    requires OuterOk(cfg, s) && SignReturnsStep(cfg, s, outcome, s')
    ensures OuterOk(cfg, s')
  {
  }

  lemma NotePinKeepsOuter(cfg: Settings, s: Sys, s': Sys)
    requires OuterOk(cfg, s) && NotePinStep(s, s')
    ensures OuterOk(cfg, s')
  {
    if s'.outer.phase.PinNoted? {
      SignedTouch(cfg, s.touches[s.outer.phase.touch], s.outer.phase.outcome, s.now);
    }
  }

  lemma SignedTouch(cfg: Settings, touch: Touch, outcome: SignOutcome, now: Instant)
    requires TicketOk(cfg, touch.ticket, now) && touch.ticket.arrival <= touch.signAt <= now
    requires outcome.Signature? && outcome.signature != []
    requires Genuine(cfg, touch.(signed := None), outcome) && touch.signed == OutcomeSigned(cfg, touch.(signed := None), outcome)
    ensures TouchSigned(cfg, touch, now)
  {
    var d := DigestFor(cfg, touch.ticket.req, touch.ticket.alias, outcome.serial, outcome.spki, touch.jti, touch.signAt);
    assert d.value.spki == outcome.spki;
  }

  lemma CompleteKeepsOuter(cfg: Settings, s: Sys, s': Sys)
    requires OuterOk(cfg, s) && CompleteStep(s, s')
    ensures OuterOk(cfg, s')
  {
  }

  lemma SnapshotKeepsOuter(cfg: Settings, s: Sys, s': Sys)
    requires OuterOk(cfg, s) && SnapshotStep(cfg, s, s')
    ensures OuterOk(cfg, s')
  {
  }

  lemma InsertKeepsOuter(cfg: Settings, s: Sys, s': Sys)
    requires OuterOk(cfg, s) && InsertStep(s, s')
    ensures OuterOk(cfg, s')
  {
    FreshAnswerOk(cfg, s', s.outer.ticket, s.outer.phase.touch);
  }

  lemma FreshAnswerOk(cfg: Settings, s: Sys, t: Ticket, i: nat)
    requires i < |s.touches| && TouchDone(cfg, s.touches[i], s.now) && s.touches[i].ticket == t
    ensures AnswerOk(cfg, s, t, FreshAnswer(i, s.touches[i], t))
  {
  }

  lemma EndPendingKeepsOuter(cfg: Settings, s: Sys, s': Sys)
    requires OuterOk(cfg, s) && EndPendingStep(s, s')
    ensures OuterOk(cfg, s')
  {
    AnswerSurvives(cfg, s, s', s.outer.ticket, s.outer.phase.answer);
  }

  lemma EntryDependsOnHistory(cfg: Settings, s: Sys, s': Sys, e: Entry)
    requires EntryOf(cfg, s, e) && s'.touches == s.touches && s'.now == s.now
    ensures EntryOf(cfg, s', e)
  {
  }

  predicate IsTouchStep(step: Step) {
    step.Begin? || step.SignReturns? || step.NotePin? || step.Complete? || step.Snapshot? || step.Insert? || step.EndPending?
  }

  lemma TouchStepsKeepOuter(cfg: Settings, s: Sys, step: Step, s': Sys)
    requires OuterOk(cfg, s) && IsTouchStep(step) && Next(cfg, s, step, s')
    ensures OuterOk(cfg, s')
  {
    match step
    case Begin => BeginKeepsOuter(cfg, s, s');
    case SignReturns(outcome) => SignReturnsKeepsOuter(cfg, s, outcome, s');
    case NotePin => NotePinKeepsOuter(cfg, s, s');
    case Complete => CompleteKeepsOuter(cfg, s, s');
    case Snapshot => SnapshotKeepsOuter(cfg, s, s');
    case Insert => InsertKeepsOuter(cfg, s, s');
    case EndPending => EndPendingKeepsOuter(cfg, s, s');
  }

  lemma RequestKeepsOuter(cfg: Settings, s: Sys, step: Step, s': Sys)
    requires OuterOk(cfg, s) && OfRequest(step) && Next(cfg, s, step, s')
    requires s.outer.Minting? && s.outer.ticket.key in s.g.cache ==> HeldOk(cfg, s, s.outer.ticket.key)
    ensures OuterOk(cfg, s')
  {
    if step.LookUp? {
      LookUpKeepsOuter(cfg, s, s');
    } else if step.Probe? {
      ProbeKeepsOuter(cfg, s, s');
    } else if step.Serve? {
      ServeKeepsOuter(cfg, s, s');
    } else if IsTouchStep(step) {
      TouchStepsKeepOuter(cfg, s, step, s');
    } else if step.Draw? {
      DrawKeepsOuter(cfg, s, step.jti, s');
    } else {
      BareStepsKeepOuter(cfg, s, step, s');
    }
  }

  // ---- What it does to history and to the cache ------------------------------------

  /** Its touches go through the card one at a time. */
  lemma FlightContinues(cfg: Settings, s: Sys, step: Step, s': Sys)
    requires OfRequest(step) && Next(cfg, s, step, s')
    ensures s.outer.Minting? && |s.touches| <= |s'.touches|
    ensures InFlight(s'.outer).Some? ==> s'.outer.ticket == s.outer.ticket
    ensures InFlight(s'.outer) in {InFlight(s.outer), None, Some(|s.touches|)}
  {
  }

  lemma RequestExtends(cfg: Settings, s: Sys, step: Step, s': Sys)
    requires OfRequest(step) && Next(cfg, s, step, s')
    ensures Extends(cfg, s, s') && s'.now == s.now && s'.queued == s.queued
  {
    match step
    case Begin => assert BeginStep(s, s');
    case SignReturns(outcome) => assert SignReturnsStep(cfg, s, outcome, s');
    case Complete => assert CompleteStep(s, s');
    case _ =>
  }

  /** After an insert every held entry is the new one or was there before. */
  lemma InsertAddsOne(g: Guarded, e: Entry, g': Guarded, k: Key)
    requires Inserted(g, e, g') && k in g'.cache
    ensures (g'.cache[k] == e && k == e.key) || (k in g.cache && g'.cache[k] == g.cache[k])
    ensures g' == g.(cache := g'.cache)
  {
  }

  lemma InsertedFrom(s: Sys, s': Sys, k: Key)
    requires InsertStep(s, s') && k in s'.g.cache
    ensures var (made, e) := (s.outer.phase.made, s'.g.cache[k]);
            (made.Some? && e == made.value && k == e.key) || (k in s.g.cache && e == s.g.cache[k])
  {
    if s.outer.phase.made.Some? {
      InsertAddsOne(s.g, s.outer.phase.made.value, s'.g, k);
    }
  }

  /** The holding request adds to the cache only at its insert step; it removes entries at
      the drop and PIN-noting steps and otherwise leaves the cache alone. */
  lemma RequestOnlyInserts(cfg: Settings, s: Sys, step: Step, s': Sys)
    requires OfRequest(step) && !step.Insert? && Next(cfg, s, step, s')
    ensures s'.g.cache.Keys <= s.g.cache.Keys
    ensures forall k :: k in s'.g.cache ==> s'.g.cache[k] == s.g.cache[k]
    ensures s'.now == s.now && s'.reading == s.reading && s'.g.invalidated == s.g.invalidated
  {
    if step.Drop? {
      assert DropStep(s, s');
    } else if step.NotePin? {
      assert NotePinStep(s, s');
    } else if step.FetchPin? {
      assert FetchPinStep(cfg, s, s');
    } else {
      assert s'.g.cache == s.g.cache;
    }
  }

  /** The entry about to be kept belongs to the request and the touch that are in flight. */
  lemma PreparedEntryOk(cfg: Settings, s: Sys)
    requires OuterOk(cfg, s) && s.outer.Minting? && s.outer.phase.Prepared?
    ensures s.outer.phase.made.Some? ==>
              var (e, i) := (s.outer.phase.made.value, s.outer.phase.touch);
              && EntryOf(cfg, s, e) && e.id == i && i < |s.touches| && e.key == s.outer.ticket.key
              && s.touches[i].signed.Some? && e.serial == s.touches[i].signed.value.serial
  {
  }

  /** No card without a serial signs. */
  lemma SigningSerialNonzero(cfg: Settings, s: Sys)
    requires OuterOk(cfg, s) && s.outer.Minting? && s.outer.phase.Returned? && s.outer.phase.outcome.Signature?
    ensures s.outer.phase.outcome.serial != 0
    ensures s.outer.phase.touch < |s.touches| && s.touches[s.outer.phase.touch].signed.Some?
    ensures s.touches[s.outer.phase.touch].signed.value.serial == s.outer.phase.outcome.serial
  {
    var (touch, outcome) := (s.touches[s.outer.phase.touch], s.outer.phase.outcome);
    assert DigestFor(cfg, touch.ticket.req, touch.ticket.alias, outcome.serial, outcome.spki, touch.jti, touch.signAt).Ok?;
  }

  lemma InsertFrame(s: Sys, s': Sys)
    requires InsertStep(s, s')
    ensures s'.touches == s.touches && s'.now == s.now && InFlight(s'.outer).None?
    ensures forall k :: k in s'.g.cache ==>
              var (made, e) := (s.outer.phase.made, s'.g.cache[k]);
              (made.Some? && e == made.value && k == e.key) || (k in s.g.cache && e == s.g.cache[k])
  {
    forall k | k in s'.g.cache
      ensures var (made, e) := (s.outer.phase.made, s'.g.cache[k]);
              (made.Some? && e == made.value && k == e.key) || (k in s.g.cache && e == s.g.cache[k])
    {
      InsertedFrom(s, s', k);
    }
  }

  lemma HeldAtRest(cfg: Settings, s: Sys, e: Entry, s': Sys, k: Key)
    requires EntryOf(cfg, s, e) && e.key == k && k in s'.g.cache && s'.g.cache[k] == e
    requires s'.touches == s.touches && s'.now == s.now && InFlight(s'.outer).None?
    ensures HeldOk(cfg, s', k)
  {
    EntryDependsOnHistory(cfg, s, s', e);
  }

  lemma InsertKeepsHeld(cfg: Settings, s: Sys, made: Option<Entry>, s': Sys)
    requires made.Some? ==> EntryOf(cfg, s, made.value)
    requires forall k :: k in s.g.cache ==> HeldOk(cfg, s, k)
    requires s'.touches == s.touches && s'.now == s.now && InFlight(s'.outer).None?
    requires forall k :: k in s'.g.cache ==>
               var e := s'.g.cache[k]; (made.Some? && e == made.value && k == e.key) || (k in s.g.cache && e == s.g.cache[k])
    ensures forall k :: k in s'.g.cache ==> HeldOk(cfg, s', k)
  {
    forall k | k in s'.g.cache ensures HeldOk(cfg, s', k) {
      if k in s.g.cache && s'.g.cache[k] == s.g.cache[k] {
        assert HeldOk(cfg, s, k);
        HeldAtRest(cfg, s, s.g.cache[k], s', k);
      } else {
        HeldAtRest(cfg, s, made.value, s', k);
      }
    }
  }

  lemma OthersKeepHeld(cfg: Settings, s: Sys, step: Step, s': Sys)
    requires OfRequest(step) && !step.Insert? && Next(cfg, s, step, s')
    requires forall k :: k in s.g.cache ==> HeldOk(cfg, s, k)
    ensures forall k :: k in s'.g.cache ==> HeldOk(cfg, s', k)
  {
    RequestExtends(cfg, s, step, s');
    RequestOnlyInserts(cfg, s, step, s');
    FlightContinues(cfg, s, step, s');
    HeldSurvives(cfg, s, s');
  }

  lemma RequestKeepsBase(cfg: Settings, s: Sys, step: Step, s': Sys)
    requires Base(cfg, s) && OfRequest(step) && Next(cfg, s, step, s')
    ensures Base(cfg, s') && Extends(cfg, s, s')
  {
    RequestExtends(cfg, s, step, s');
    if step.Insert? {
      PreparedEntryOk(cfg, s);
      InsertFrame(s, s');
      InsertKeepsHeld(cfg, s, s.outer.phase.made, s');
    } else {
      OthersKeepHeld(cfg, s, step, s');
    }
    RequestKeepsOuter(cfg, s, step, s');
  }

  lemma NextKeepsBase(cfg: Settings, s: Sys, step: Step, s': Sys)
    requires Base(cfg, s) && Next(cfg, s, step, s')
    ensures Base(cfg, s') && Extends(cfg, s, s')
  {
    if OfRequest(step) {
      RequestKeepsBase(cfg, s, step, s');
    } else {
      WorldOnlyRemoves(cfg, s, step, s');
      WorldKeepsBase(cfg, s, step, s');
    }
  }

  /** Every state of every run satisfies the base invariant. */
  lemma {:induction false} RunKeepsBase(cfg: Settings, r: Run, i: nat)
    requires IsRun(cfg, r) && i < |r.states|
    ensures Base(cfg, r.states[i])
  {
    if i > 0 {
      RunKeepsBase(cfg, r, i - 1);
      assert StepAt(cfg, r, i - 1);
      NextKeepsBase(cfg, r.states[i - 1], r.steps[i - 1], r.states[i]);
    }
  }
}
