/** Any number of recovery callers sharing probes, as a step system: every section of the
    probe lock is one step and everything between sections interleaves freely.

    A card handle is a linear resource. Each opened card has one ghost owner, and the
    theorems account for every card, every worker launched and every open session. */
module ProbeRuns {
  import opened Basics
  import opened CardProbe

  /** Where one caller stands in its loop. */
  datatype Spot =
    | Entering
    | Waiting(call: nat)
    | Lost
    | Claimed(card: nat)
    | Holding(card: nat)
    | Uncounting
    | Disposing(card: nat)
    | Gone

  /** started counts the opens this caller launched. */
  datatype Caller = Caller(started: nat, at: Spot)

  datatype Worker = Opening | Carrying(outcome: Outcome) | Discarding(card: nat) | Finished

  datatype Owner = AtWorker(worker: nat) | InCall(call: nat) | AtCaller(caller: nat) | Shut

  /** One opened session: who has it, how often it was delivered to a caller, closed by a
      caller it was delivered to, and closed by someone it was not delivered to. */
  datatype Handle = Handle(owner: Owner, claims: nat, heldCloses: nat, lateCloses: nat)

  /** calls[i] is worked on by workers[i]; probe names the call in flight. */
  datatype Sys = Sys(
    probe: Option<nat>, calls: seq<CallState>, workers: seq<Worker>, callers: seq<Caller>,
    cards: seq<Handle>, openWorkers: int, openSessions: int)

  datatype Step =
    | Arrive
    | Enter(caller: nat)
    | Collect(caller: nat)
    | GiveUp(caller: nat)
    | LoopAgain(caller: nat)
    | Leave(caller: nat)
    | Track(caller: nat)
    | CloseHeld(caller: nat)
    | Uncount(caller: nat)
    | CloseAbandoned(caller: nat)
    | OpenReturns(worker: nat, serial: nat, error: Option<string>)
    | Complete(worker: nat)
    | CloseOrphan(worker: nat)

  const INITIAL := Sys(None, [], [], [], [], 0, 0)

  // ---- Steps of a caller --------------------------------------------------------

  predicate At(s: Sys, j: nat, spot: Spot) {
    j < |s.callers| && s.callers[j].at == spot
  }

  function Moved(s: Sys, j: nat, spot: Spot): Sys
    requires j < |s.callers|
  {
    s.(callers := s.callers[j := s.callers[j].(at := spot)])
  }

  function Owned(s: Sys, card: nat, owner: Owner): Sys {
    if card < |s.cards| then s.(cards := s.cards[card := s.cards[card].(owner := owner)]) else s
  }

  function Delivered(s: Sys, card: nat, caller: nat): Sys {
    if card < |s.cards|
    then s.(cards := s.cards[card := s.cards[card].(owner := AtCaller(caller), claims := s.cards[card].claims + 1)])
    else s
  }

  function ClosedLate(s: Sys, card: nat): Sys {
    if card < |s.cards|
    then s.(cards := s.cards[card := s.cards[card].(owner := Shut, lateCloses := s.cards[card].lateCloses + 1)])
    else s
  }

  function ClosedHeld(s: Sys, card: nat): Sys {
    if card < |s.cards|
    then s.(cards := s.cards[card := s.cards[card].(owner := Shut, heldCloses := s.cards[card].heldCloses + 1)])
    else s
  }

  function Unslotted(s: Sys, call: nat, clears: bool): Sys {
    if clears && s.probe == Some(call) then s.(probe := None) else s
  }

  predicate EnterStep(s: Sys, j: nat, s': Sys) {
    && At(s, j, Entering)
    && match s.probe
       case None =>
         s' == s.(probe := Some(|s.calls|), calls := s.calls + [Joined(NEW_CALL)], workers := s.workers + [Opening],
                  openWorkers := s.openWorkers + 1,
                  callers := s.callers[j := Caller(s.callers[j].started + 1, Waiting(|s.calls|))])
       case Some(i) =>
         i < |s.calls| && s' == Moved(s, j, Waiting(i)).(calls := s.calls[i := Joined(s.calls[i])])
  }

  predicate Waits(s: Sys, j: nat) {
    j < |s.callers| && s.callers[j].at.Waiting? && s.callers[j].at.call < |s.calls|
  }

  predicate CollectStep(s: Sys, j: nat, s': Sys) {
    && Waits(s, j)
    && var i := s.callers[j].at.call;
       var c := s.calls[i];
    && c.result.Some?
    && var shared := Unslotted(s.(calls := s.calls[i := Collected(c)]), i, CollectClears(c));
       match CollectVerdict(c)
       case Failed(_) => s' == Moved(shared, j, Gone)
       case Taken => s' == Moved(shared, j, Lost)
       case Yours(card, _) => s' == Delivered(Moved(shared, j, Claimed(card)), card, j)
  }

  predicate GiveUpStep(s: Sys, j: nat, s': Sys) {
    && Waits(s, j)
    && var i := s.callers[j].at.call;
       var c := s.calls[i];
       var shared := Unslotted(s.(calls := s.calls[i := Released(c)]), i, ReleaseClears(c));
       if Abandoned(c)
       then s' == Owned(Moved(shared, j, Disposing(c.result.value.card)), c.result.value.card, AtCaller(j))
       else s' == Moved(shared, j, Gone)
  }

  predicate TrackStep(s: Sys, j: nat, s': Sys) {
    && j < |s.callers| && s.callers[j].at.Claimed?
    && s' == Moved(s, j, Holding(s.callers[j].at.card)).(openSessions := s.openSessions + 1)
  }

  predicate CloseHeldStep(s: Sys, j: nat, s': Sys) {
    && j < |s.callers| && s.callers[j].at.Holding?
    && s' == ClosedHeld(Moved(s, j, Uncounting), s.callers[j].at.card)
  }

  predicate CloseAbandonedStep(s: Sys, j: nat, s': Sys) {
    && j < |s.callers| && s.callers[j].at.Disposing?
    && s' == ClosedLate(Moved(s, j, Gone), s.callers[j].at.card)
  }

  // ---- Steps of a worker --------------------------------------------------------

  predicate Works(s: Sys, i: nat) {
    i < |s.workers| && i < |s.calls|
  }

  /** An open that succeeds makes a new session; its handle is the next number. */
  predicate OpenReturnsStep(s: Sys, i: nat, serial: nat, error: Option<string>, s': Sys) {
    && Works(s, i) && s.workers[i].Opening?
    && match error
       case Some(e) =>
         s' == s.(workers := s.workers[i := Carrying(NotOpened(e))], openWorkers := s.openWorkers - 1)
       case None =>
         s' == s.(workers := s.workers[i := Carrying(Opened(|s.cards|, serial))], openWorkers := s.openWorkers - 1,
                  cards := s.cards + [Handle(AtWorker(i), 0, 0, 0)])
  }

  predicate CompleteStep(s: Sys, i: nat, s': Sys) {
    && Works(s, i) && s.workers[i].Carrying?
    && var (c, outcome) := (s.calls[i], s.workers[i].outcome);
       var shared := Unslotted(s.(calls := s.calls[i := Completed(c, outcome)]), i, true);
       if Orphaned(c, outcome) then s' == shared.(workers := s.workers[i := Discarding(outcome.card)])
       else
         var done := shared.(workers := s.workers[i := Finished]);
         s' == if outcome.Opened? then Owned(done, outcome.card, InCall(i)) else done
  }

  predicate CloseOrphanStep(s: Sys, i: nat, s': Sys) {
    && Works(s, i) && s.workers[i].Discarding?
    && s' == ClosedLate(s.(workers := s.workers[i := Finished]), s.workers[i].card)
  }

  predicate Next(s: Sys, step: Step, s': Sys) {
    match step
    case Arrive => s' == s.(callers := s.callers + [Caller(0, Entering)])
    case Enter(j) => EnterStep(s, j, s')
    case Collect(j) => CollectStep(s, j, s')
    case GiveUp(j) => GiveUpStep(s, j, s')
    case LoopAgain(j) => At(s, j, Lost) && s' == Moved(s, j, Entering)
    case Leave(j) => At(s, j, Lost) && s' == Moved(s, j, Gone)
    case Track(j) => TrackStep(s, j, s')
    case CloseHeld(j) => CloseHeldStep(s, j, s')
    case Uncount(j) => At(s, j, Uncounting) && s' == Moved(s, j, Gone).(openSessions := s.openSessions - 1)
    case CloseAbandoned(j) => CloseAbandonedStep(s, j, s')
    case OpenReturns(i, serial, error) => OpenReturnsStep(s, i, serial, error, s')
    case Complete(i) => CompleteStep(s, i, s')
    case CloseOrphan(i) => CloseOrphanStep(s, i, s')
  }

  datatype Run = Run(states: seq<Sys>, steps: seq<Step>)

  ghost predicate IsRun(r: Run) {
    && |r.states| == |r.steps| + 1
    && r.states[0] == INITIAL
    && forall i :: 0 <= i < |r.steps| ==> Next(r.states[i], r.steps[i], r.states[i + 1])
  }

  // ---- Sums over the callers ----------------------------------------------------

  function Sum(callers: seq<Caller>, weight: Caller -> nat): nat {
    if callers == [] then 0 else weight(callers[0]) + Sum(callers[1..], weight)
  }

  function Bit(b: bool): nat {
    if b then 1 else 0
  }

  function StartedBy(c: Caller): nat {
    c.started
  }

  function WaitsOn(call: nat): Caller -> nat {
    (c: Caller) => Bit(c.at == Waiting(call))
  }

  function HasSession(c: Caller): nat {
    Bit(c.at.Holding? || c.at.Uncounting?)
  }

  lemma {:induction false} SumUpdate(callers: seq<Caller>, j: nat, c: Caller, weight: Caller -> nat)
    requires j < |callers|
    ensures Sum(callers[j := c], weight) + weight(callers[j]) == Sum(callers, weight) + weight(c)
  {
    if j == 0 {
      assert callers[0 := c][1..] == callers[1..];
    } else {
      SumUpdate(callers[1..], j - 1, c, weight);
      assert callers[j := c][1..] == callers[1..][j - 1 := c];
    }
  }

  lemma {:induction false} SumAppend(callers: seq<Caller>, c: Caller, weight: Caller -> nat)
    ensures Sum(callers + [c], weight) == Sum(callers, weight) + weight(c)
  {
    if callers == [] {
      assert callers + [c] == [c];
    } else {
      SumAppend(callers[1..], c, weight);
      assert (callers + [c])[1..] == callers[1..] + [c];
    }
  }

  lemma {:induction false} SumAtLeast(callers: seq<Caller>, j: nat, weight: Caller -> nat)
    requires j < |callers|
    ensures Sum(callers, weight) >= weight(callers[j])
  {
    if j > 0 {
      SumAtLeast(callers[1..], j - 1, weight);
    }
  }

  lemma {:induction false} SumPositive(callers: seq<Caller>, weight: Caller -> nat)
    requires Sum(callers, weight) > 0
    ensures exists j :: 0 <= j < |callers| && weight(callers[j]) > 0
  {
    if weight(callers[0]) == 0 {
      SumPositive(callers[1..], weight);
      var j :| 0 <= j < |callers[1..]| && weight(callers[1..][j]) > 0;
      assert callers[j + 1] == callers[1..][j];
    }
  }

  // ---- The invariant ------------------------------------------------------------

  predicate InFlight(w: Worker) {
    w.Opening? || w.Carrying?
  }

  /** One worker per call, in flight exactly while the slot names its call. */
  ghost predicate SlotOk(s: Sys) {
    && |s.calls| == |s.workers|
    && (s.probe.Some? ==> s.probe.value < |s.workers|)
    && (forall i :: 0 <= i < |s.workers| ==> (InFlight(s.workers[i]) <==> s.probe == Some(i)))
    && (forall i :: 0 <= i < |s.calls| ==> (s.calls[i].result.None? <==> s.probe == Some(i)))
    && s.openWorkers == if s.probe.Some? && s.workers[s.probe.value].Opening? then 1 else 0
  }

  ghost predicate CountsOk(s: Sys) {
    && (forall j :: 0 <= j < |s.callers| && s.callers[j].at.Waiting? ==> s.callers[j].at.call < |s.calls|)
    && (forall i :: 0 <= i < |s.calls| ==> s.calls[i].waiters == Sum(s.callers, WaitsOn(i)))
    && Sum(s.callers, StartedBy) == |s.calls|
    && s.openSessions == Sum(s.callers, HasSession)
  }

  /** The card someone concretely has: its ghost record names them as the owner. */
  function WorkerCard(w: Worker): Option<nat> {
    if w.Carrying? && w.outcome.Opened? then Some(w.outcome.card)
    else if w.Discarding? then Some(w.card)
    else None
  }

  function CallCard(c: CallState): Option<nat> {
    if c.result.Some? && c.result.value.Opened? && !c.claimed && c.waiters > 0 then Some(c.result.value.card) else None
  }

  function CallerCard(c: Caller): Option<nat> {
    match c.at
    case Claimed(card) => Some(card)
    case Holding(card) => Some(card)
    case Disposing(card) => Some(card)
    case _ => None
  }

  predicate OwnerIs(cards: seq<Handle>, card: Option<nat>, owner: Owner) {
    card.Some? ==> card.value < |cards| && cards[card.value].owner == owner
  }

  ghost predicate OwnersOk(s: Sys) {
    && (forall i: nat :: i < |s.workers| ==> OwnerIs(s.cards, WorkerCard(s.workers[i]), AtWorker(i)))
    && (forall i: nat :: i < |s.calls| ==> OwnerIs(s.cards, CallCard(s.calls[i]), InCall(i)))
    && (forall j: nat :: j < |s.callers| ==> OwnerIs(s.cards, CallerCard(s.callers[j]), AtCaller(j)))
    && (forall i :: 0 <= i < |s.calls| && s.calls[i].result.None? ==> !s.calls[i].claimed)
  }

  ghost predicate CardOk(s: Sys, k: nat)
    requires k < |s.cards|
  {
    var h := s.cards[k];
    match h.owner
    case AtWorker(i) => i < |s.workers| && WorkerCard(s.workers[i]) == Some(k) && h == Handle(h.owner, 0, 0, 0)
    case InCall(i) => i < |s.calls| && CallCard(s.calls[i]) == Some(k) && h == Handle(h.owner, 0, 0, 0)
    case AtCaller(j) =>
      j < |s.callers| && CallerCard(s.callers[j]) == Some(k)
      && h == Handle(h.owner, if s.callers[j].at.Disposing? then 0 else 1, 0, 0)
    case Shut => h == Handle(Shut, 1, 1, 0) || h == Handle(Shut, 0, 0, 1)
  }

  ghost predicate Inv(s: Sys) {
    SlotOk(s) && CountsOk(s) && OwnersOk(s) && forall k :: 0 <= k < |s.cards| ==> CardOk(s, k)
  }

  // ---- Every step keeps it ------------------------------------------------------

  lemma SumsMove(callers: seq<Caller>, j: nat, c: Caller)
    requires j < |callers|
    ensures forall i: nat :: Sum(callers[j := c], WaitsOn(i)) + Bit(callers[j].at == Waiting(i)) == Sum(callers, WaitsOn(i)) + Bit(c.at == Waiting(i))
    ensures Sum(callers[j := c], StartedBy) + callers[j].started == Sum(callers, StartedBy) + c.started
    ensures Sum(callers[j := c], HasSession) + HasSession(callers[j]) == Sum(callers, HasSession) + HasSession(c)
  {
    forall i: nat
      ensures Sum(callers[j := c], WaitsOn(i)) + Bit(callers[j].at == Waiting(i)) == Sum(callers, WaitsOn(i)) + Bit(c.at == Waiting(i))
    {
      SumUpdate(callers, j, c, WaitsOn(i));
    }
    SumUpdate(callers, j, c, StartedBy);
    SumUpdate(callers, j, c, HasSession);
  }

  lemma {:induction false} NobodyWaitsAhead(callers: seq<Caller>, call: nat)
    requires forall j :: 0 <= j < |callers| && callers[j].at.Waiting? ==> callers[j].at.call < call
    ensures Sum(callers, WaitsOn(call)) == 0
  {
    if callers != [] {
      NobodyWaitsAhead(callers[1..], call);
    }
  }

  lemma ArriveKeeps(s: Sys, s': Sys)
    requires Inv(s) && Next(s, Arrive, s')
    ensures Inv(s')
  {
    var c := Caller(0, Entering);
    forall i: nat ensures Sum(s'.callers, WaitsOn(i)) == Sum(s.callers, WaitsOn(i)) {
      SumAppend(s.callers, c, WaitsOn(i));
    }
    SumAppend(s.callers, c, StartedBy);
    SumAppend(s.callers, c, HasSession);
    forall k | 0 <= k < |s'.cards| ensures CardOk(s', k) {
      assert CardOk(s, k);
    }
  }

  /** A step that moves caller j and touches no card keeps every card where it is. */
  lemma CardsStay(s: Sys, s': Sys, j: nat)
    requires OwnersOk(s) && (forall k :: 0 <= k < |s.cards| ==> CardOk(s, k))
    requires j < |s.callers| == |s'.callers| && s'.cards == s.cards
    requires forall i :: 0 <= i < |s.callers| && i != j ==> s'.callers[i] == s.callers[i]
    requires CallerCard(s'.callers[j]) == CallerCard(s.callers[j])
    requires s'.callers[j].at.Disposing? <==> s.callers[j].at.Disposing?
    requires |s.workers| <= |s'.workers| && |s.calls| <= |s'.calls|
    requires forall i :: 0 <= i < |s.workers| ==> s'.workers[i] == s.workers[i]
    requires forall i :: |s.workers| <= i < |s'.workers| ==> s'.workers[i] == Opening
    requires forall i :: 0 <= i < |s.calls| ==> CallCard(s'.calls[i]) == CallCard(s.calls[i])
    requires forall i :: 0 <= i < |s'.calls| && s'.calls[i].result.None? ==> !s'.calls[i].claimed
    requires forall i :: |s.calls| <= i < |s'.calls| ==> s'.calls[i].result.None?
    ensures OwnersOk(s') && forall k :: 0 <= k < |s'.cards| ==> CardOk(s', k)
  {
    forall k | 0 <= k < |s'.cards| ensures CardOk(s', k) {
      assert CardOk(s, k);
    }
  }

  lemma EnterCounts(s: Sys, j: nat, s': Sys)
    requires SlotOk(s) && CountsOk(s) && EnterStep(s, j, s')
    ensures CountsOk(s')
  {
    SumsMove(s.callers, j, s'.callers[j]);
    if s.probe.None? {
      NobodyWaitsAhead(s.callers, |s.calls|);
    }
  }

  lemma EnterSlot(s: Sys, j: nat, s': Sys)
    requires SlotOk(s) && EnterStep(s, j, s')
    ensures SlotOk(s')
  {
  }

  lemma EnterKeeps(s: Sys, j: nat, s': Sys)
    requires Inv(s) && EnterStep(s, j, s')
    ensures Inv(s')
  {
    EnterSlot(s, j, s');
    EnterCounts(s, j, s');
    CardsStay(s, s', j);
  }

  lemma MovesKeepCounts(s: Sys, j: nat, step: Step, s': Sys)
    requires CountsOk(s) && Next(s, step, s')
    requires step == LoopAgain(j) || step == Leave(j) || step == Uncount(j)
    ensures CountsOk(s')
  {
    SumsMove(s.callers, j, s'.callers[j]);
  }

  lemma MovesKeep(s: Sys, j: nat, step: Step, s': Sys)
    requires Inv(s) && Next(s, step, s')
    requires step == LoopAgain(j) || step == Leave(j) || step == Uncount(j)
    ensures Inv(s')
  {
    MovesKeepCounts(s, j, step, s');
    CardsStay(s, s', j);
  }

  lemma TrackKeeps(s: Sys, j: nat, s': Sys)
    requires Inv(s) && TrackStep(s, j, s')
    ensures Inv(s')
  {
    SumsMove(s.callers, j, s'.callers[j]);
    CardsStay(s, s', j);
  }

  /** Someone either keeps what they have or gives up or receives card k. */
  predicate HandsOn(before: Option<nat>, after: Option<nat>, k: nat) {
    before == after || (before in {None, Some(k)} && after in {None, Some(k)})
  }

  predicate CallerHandsOn(before: Caller, after: Caller, k: nat) {
    before.at == after.at || (CallerCard(before) in {None, Some(k)} && CallerCard(after) in {None, Some(k)})
  }

  /** A step that hands on, opens or closes card k leaves every other card where it is. */
  lemma OneCardMoves(s: Sys, s': Sys, k: nat)
    requires OwnersOk(s) && (forall q :: 0 <= q < |s.cards| ==> CardOk(s, q))
    requires |s.workers| == |s'.workers| && |s.calls| == |s'.calls| && |s.callers| == |s'.callers|
    requires k < |s'.cards| && (|s'.cards| == |s.cards| || (k == |s.cards| && |s'.cards| == k + 1))
    requires forall q :: 0 <= q < |s.cards| && q != k ==> s'.cards[q] == s.cards[q]
    requires forall i: nat :: i < |s.workers| ==> HandsOn(WorkerCard(s.workers[i]), WorkerCard(s'.workers[i]), k)
    requires forall i: nat :: i < |s.calls| ==> HandsOn(CallCard(s.calls[i]), CallCard(s'.calls[i]), k)
    requires forall j: nat :: j < |s.callers| ==> CallerHandsOn(s.callers[j], s'.callers[j], k)
    requires forall i: nat :: i < |s.workers| && WorkerCard(s'.workers[i]) == Some(k) ==> s'.cards[k].owner == AtWorker(i)
    requires forall i: nat :: i < |s.calls| && CallCard(s'.calls[i]) == Some(k) ==> s'.cards[k].owner == InCall(i)
    requires forall j: nat :: j < |s.callers| && CallerCard(s'.callers[j]) == Some(k) ==> s'.cards[k].owner == AtCaller(j)
    requires forall i: nat :: i < |s'.calls| && s'.calls[i].result.None? ==> !s'.calls[i].claimed
    requires CardOk(s', k)
    ensures OwnersOk(s') && forall q :: 0 <= q < |s'.cards| ==> CardOk(s', q)
  {
    forall q | 0 <= q < |s'.cards| ensures CardOk(s', q) {
      if q != k {
        assert CardOk(s, q);
      }
    }
  }

  /** Caller j stops waiting on its call, whose waiters go down by one. */
  lemma WaiterLeaves(s: Sys, j: nat, s': Sys)
    requires CountsOk(s) && Waits(s, j) && j < |s'.callers|
    requires s'.callers == s.callers[j := s.callers[j].(at := s'.callers[j].at)] && !s'.callers[j].at.Waiting? && HasSession(s'.callers[j]) == 0
    requires var i := s.callers[j].at.call;
             |s'.calls| == |s.calls| && s'.calls == s.calls[i := s'.calls[i]] && s'.calls[i].waiters == s.calls[i].waiters - 1
    requires s'.openSessions == s.openSessions
    ensures CountsOk(s') && s.calls[s.callers[j].at.call].waiters > 0
  {
    SumsMove(s.callers, j, s'.callers[j]);
    SumAtLeast(s.callers, j, WaitsOn(s.callers[j].at.call));
  }

  lemma CollectCounts(s: Sys, j: nat, s': Sys)
    requires CountsOk(s) && CollectStep(s, j, s')
    ensures CountsOk(s') && s.calls[s.callers[j].at.call].waiters > 0
  {
    WaiterLeaves(s, j, s');
  }

  lemma CollectSlot(s: Sys, j: nat, s': Sys)
    requires SlotOk(s) && CollectStep(s, j, s')
    ensures SlotOk(s') && s'.probe == s.probe
  {
  }

  lemma CollectKeeps(s: Sys, j: nat, s': Sys)
    requires Inv(s) && CollectStep(s, j, s')
    ensures Inv(s')
  {
    CollectSlot(s, j, s');
    CollectCounts(s, j, s');
    var c := s.calls[s.callers[j].at.call];
    if CollectVerdict(c).Yours? {
      ClaimMovesCard(s, j, s', CollectVerdict(c).card);
    } else {
      CardsStay(s, s', j);
    }
  }

  lemma ClaimMovesCard(s: Sys, j: nat, s': Sys, k: nat)
    requires OwnersOk(s) && (forall q :: 0 <= q < |s.cards| ==> CardOk(s, q)) && CollectStep(s, j, s')
    requires s.calls[s.callers[j].at.call].waiters > 0
    requires CollectVerdict(s.calls[s.callers[j].at.call]).Yours? && k == CollectVerdict(s.calls[s.callers[j].at.call]).card
    ensures OwnersOk(s') && forall q :: 0 <= q < |s'.cards| ==> CardOk(s', q)
  {
    var i := s.callers[j].at.call;
    assert CallCard(s.calls[i]) == Some(k) && CardOk(s, k);
    OneCardMoves(s, s', k);
  }

  lemma GiveUpCounts(s: Sys, j: nat, s': Sys)
    requires CountsOk(s) && GiveUpStep(s, j, s')
    ensures CountsOk(s') && s.calls[s.callers[j].at.call].waiters > 0
  {
    WaiterLeaves(s, j, s');
  }

  lemma GiveUpSlot(s: Sys, j: nat, s': Sys)
    requires SlotOk(s) && GiveUpStep(s, j, s')
    ensures SlotOk(s') && s'.probe == s.probe
  {
  }

  lemma GiveUpKeeps(s: Sys, j: nat, s': Sys)
    requires Inv(s) && GiveUpStep(s, j, s')
    ensures Inv(s')
  {
    GiveUpSlot(s, j, s');
    GiveUpCounts(s, j, s');
    if Abandoned(s.calls[s.callers[j].at.call]) {
      AbandonMovesCard(s, j, s', s.calls[s.callers[j].at.call].result.value.card);
    } else {
      CardsStay(s, s', j);
    }
  }

  lemma AbandonMovesCard(s: Sys, j: nat, s': Sys, k: nat)
    requires OwnersOk(s) && (forall q :: 0 <= q < |s.cards| ==> CardOk(s, q)) && GiveUpStep(s, j, s')
    requires Abandoned(s.calls[s.callers[j].at.call]) && k == s.calls[s.callers[j].at.call].result.value.card
    ensures OwnersOk(s') && forall q :: 0 <= q < |s'.cards| ==> CardOk(s', q)
  {
    var i := s.callers[j].at.call;
    assert CallCard(s.calls[i]) == Some(k) && CardOk(s, k);
    OneCardMoves(s, s', k);
  }

  lemma CloseCounts(s: Sys, j: nat, s': Sys)
    requires CountsOk(s) && (CloseHeldStep(s, j, s') || CloseAbandonedStep(s, j, s'))
    ensures CountsOk(s')
  {
    SumsMove(s.callers, j, s'.callers[j]);
  }

  lemma ClosesKeep(s: Sys, j: nat, s': Sys)
    requires Inv(s) && (CloseHeldStep(s, j, s') || CloseAbandonedStep(s, j, s'))
    ensures Inv(s')
  {
    CloseCounts(s, j, s');
    CloseMovesCard(s, j, s');
  }

  lemma CloseMovesCard(s: Sys, j: nat, s': Sys)
    requires OwnersOk(s) && (forall q :: 0 <= q < |s.cards| ==> CardOk(s, q))
    requires CloseHeldStep(s, j, s') || CloseAbandonedStep(s, j, s')
    ensures OwnersOk(s') && forall q :: 0 <= q < |s'.cards| ==> CardOk(s', q)
  {
    var k := s.callers[j].at.card;
    assert CallerCard(s.callers[j]) == Some(k) && CardOk(s, k);
    OneCardMoves(s, s', k);
  }

  lemma CardsStayAtWorkers(s: Sys, s': Sys)
    requires OwnersOk(s) && (forall k :: 0 <= k < |s.cards| ==> CardOk(s, k))
    requires s'.cards == s.cards && s'.callers == s.callers && |s'.workers| == |s.workers| && |s'.calls| == |s.calls|
    requires forall i: nat :: i < |s.workers| ==> WorkerCard(s'.workers[i]) == WorkerCard(s.workers[i])
    requires forall i: nat :: i < |s.calls| ==> CallCard(s'.calls[i]) == CallCard(s.calls[i])
    requires forall i: nat :: i < |s'.calls| && s'.calls[i].result.None? ==> !s'.calls[i].claimed
    ensures OwnersOk(s') && forall k :: 0 <= k < |s'.cards| ==> CardOk(s', k)
  {
    forall k | 0 <= k < |s'.cards| ensures CardOk(s', k) {
      assert CardOk(s, k);
    }
  }

  lemma OpenReturnsKeeps(s: Sys, i: nat, serial: nat, error: Option<string>, s': Sys)
    requires Inv(s) && OpenReturnsStep(s, i, serial, error, s')
    ensures Inv(s')
  {
    if error.None? {
      OneCardMoves(s, s', |s.cards|);
    } else {
      CardsStayAtWorkers(s, s');
    }
  }

  lemma CompleteMovesCard(s: Sys, i: nat, s': Sys, k: nat)
    requires Inv(s) && CompleteStep(s, i, s')
    requires s.workers[i].outcome.Opened? && k == s.workers[i].outcome.card
    ensures OwnersOk(s') && forall q :: 0 <= q < |s'.cards| ==> CardOk(s', q)
  {
    assert WorkerCard(s.workers[i]) == Some(k) && CardOk(s, k);
    OneCardMoves(s, s', k);
  }

  lemma CompleteKeeps(s: Sys, i: nat, s': Sys)
    requires Inv(s) && CompleteStep(s, i, s')
    ensures Inv(s')
  {
    if s.workers[i].outcome.Opened? {
      CompleteMovesCard(s, i, s', s.workers[i].outcome.card);
    } else {
      CardsStayAtWorkers(s, s');
    }
  }

  lemma CloseOrphanKeeps(s: Sys, i: nat, s': Sys)
    requires Inv(s) && CloseOrphanStep(s, i, s')
    ensures Inv(s')
  {
    var k := s.workers[i].card;
    assert WorkerCard(s.workers[i]) == Some(k) && CardOk(s, k);
    OneCardMoves(s, s', k);
  }

  lemma NextKeeps(s: Sys, step: Step, s': Sys)
    requires Inv(s) && Next(s, step, s')
    ensures Inv(s')
  {
    match step
    case Arrive => ArriveKeeps(s, s');
    case Enter(j) => EnterKeeps(s, j, s');
    case Collect(j) => CollectKeeps(s, j, s');
    case GiveUp(j) => GiveUpKeeps(s, j, s');
    case LoopAgain(j) => MovesKeep(s, j, step, s');
    case Leave(j) => MovesKeep(s, j, step, s');
    case Uncount(j) => MovesKeep(s, j, step, s');
    case Track(j) => TrackKeeps(s, j, s');
    case CloseHeld(j) => ClosesKeep(s, j, s');
    case CloseAbandoned(j) => ClosesKeep(s, j, s');
    case OpenReturns(i, serial, error) => OpenReturnsKeeps(s, i, serial, error, s');
    case Complete(i) => CompleteKeeps(s, i, s');
    case CloseOrphan(i) => CloseOrphanKeeps(s, i, s');
  }

  lemma {:induction false} RunKeeps(r: Run, n: nat)
    requires IsRun(r) && n < |r.states|
    ensures Inv(r.states[n])
  {
    if n > 0 {
      RunKeeps(r, n - 1);
      NextKeeps(r.states[n - 1], r.steps[n - 1], r.states[n]);
    }
  }

  // ---- Theorems -----------------------------------------------------------------

  /** Someone still has to act on the card: the worker that opened it, a caller waiting on
      the ready call that carries it, or the last waiter on its way to closing it. */
  ghost predicate Undecided(s: Sys, k: nat)
    requires k < |s.cards|
  {
    || (exists i :: 0 <= i < |s.workers| && WorkerCard(s.workers[i]) == Some(k))
    || (exists j :: 0 <= j < |s.callers| && s.callers[j].at == Disposing(k))
    || (exists i, j :: 0 <= i < |s.calls| && 0 <= j < |s.callers| && CallCard(s.calls[i]) == Some(k) && s.callers[j].at == Waiting(i))
  }

  /** Cards are conserved: in every reachable state each opened card is still on its way to
      someone who will act on it, or was delivered to exactly one caller, or was closed
      exactly once undelivered, never two of these; a delivered card is closed at most once,
      and only one caller can be holding it. */
  lemma CardsAreConserved(r: Run, n: nat, k: nat)
    requires IsRun(r) && n < |r.states| && k < |r.states[n].cards|
    ensures var s := r.states[n];
            && (Undecided(s, k) ==> s.cards[k].claims + s.cards[k].lateCloses == 0)
            && (!Undecided(s, k) ==> s.cards[k].claims + s.cards[k].lateCloses == 1)
            && s.cards[k].heldCloses <= s.cards[k].claims
    ensures forall i, j ::
              (&& 0 <= i < |r.states[n].callers| && 0 <= j < |r.states[n].callers|
               && CallerCard(r.states[n].callers[i]) == Some(k) && CallerCard(r.states[n].callers[j]) == Some(k))
              ==> i == j
  {
    RunKeeps(r, n);
    var s := r.states[n];
    assert CardOk(s, k);
    forall i, j | 0 <= i < |s.callers| && 0 <= j < |s.callers|
      && CallerCard(s.callers[i]) == Some(k) && CallerCard(s.callers[j]) == Some(k) ensures i == j
    {
      assert OwnerIs(s.cards, CallerCard(s.callers[i]), AtCaller(i)) && OwnerIs(s.cards, CallerCard(s.callers[j]), AtCaller(j));
    }
    if s.cards[k].owner.InCall? {
      var i := s.cards[k].owner.call;
      SumPositive(s.callers, WaitsOn(i));
    }
  }

  /** One probe at a time: at most one worker is in flight, exactly while the slot names its
      call, and a caller only ever joins a call whose result is not out yet. */
  lemma ProbesAreSingleFlight(r: Run, n: nat)
    requires IsRun(r) && n < |r.states|
    ensures var s := r.states[n];
            && (forall i, j :: 0 <= i < |s.workers| && 0 <= j < |s.workers| && InFlight(s.workers[i]) && InFlight(s.workers[j]) ==> i == j)
            && (s.probe.Some? <==> exists i :: 0 <= i < |s.workers| && InFlight(s.workers[i]))
            && 0 <= s.openWorkers <= 1
    ensures n < |r.steps| && r.steps[n].Enter? ==>
              var spot := r.states[n + 1].callers[r.steps[n].caller].at;
              && spot.Waiting? && spot.call < |r.states[n + 1].calls| == |r.states[n + 1].workers|
              && r.states[n + 1].calls[spot.call].result.None?
              && InFlight(r.states[n + 1].workers[spot.call])
  {
    RunKeeps(r, n);
    if n < |r.steps| {
      RunKeeps(r, n + 1);
    }
  }

  /** The callers' own counts of opens they launched add up to the opens launched, and the
      process counts as self-held exactly the sessions delivered and not yet given back. */
  lemma LaunchesAndSessionsAddUp(r: Run, n: nat)
    requires IsRun(r) && n < |r.states|
    ensures var s := r.states[n];
            && Sum(s.callers, StartedBy) == |s.workers|
            && s.openSessions == Sum(s.callers, HasSession)
            && (s.openSessions > 0 <==> exists j :: 0 <= j < |s.callers| && (s.callers[j].at.Holding? || s.callers[j].at.Uncounting?))
  {
    RunKeeps(r, n);
    var s := r.states[n];
    if s.openSessions > 0 {
      SumPositive(s.callers, HasSession);
    }
    forall j | 0 <= j < |s.callers| && (s.callers[j].at.Holding? || s.callers[j].at.Uncounting?) ensures s.openSessions > 0 {
      SumAtLeast(s.callers, j, HasSession);
    }
  }

  /** The waiters of a ready call never touch the slot: its clearing belongs to the worker
      alone, so the guards that would clear it elsewhere never fire. */
  lemma OnlyTheWorkerFreesTheSlot(r: Run, n: nat)
    requires IsRun(r) && n < |r.steps|
    requires r.states[n].probe.Some? && r.states[n + 1].probe != r.states[n].probe
    ensures r.steps[n] == Complete(r.states[n].probe.value) && r.states[n + 1].probe == None
  {
    RunKeeps(r, n);
    var (s, step, s') := (r.states[n], r.steps[n], r.states[n + 1]);
    if step.Complete? {
      CompleteFreesItsSlot(s, step.worker, s');
    } else {
      OthersKeepTheSlot(s, step, s');
    }
  }

  lemma CompleteFreesItsSlot(s: Sys, i: nat, s': Sys)
    requires SlotOk(s) && CompleteStep(s, i, s')
    ensures s.probe == Some(i) && s'.probe == None
  {
  }

  lemma OthersKeepTheSlot(s: Sys, step: Step, s': Sys)
    requires SlotOk(s) && Next(s, step, s') && !step.Complete? && s.probe.Some?
    ensures s'.probe == s.probe
  {
    match step
    case Collect(j) => CollectSlot(s, j, s');
    case GiveUp(j) => GiveUpSlot(s, j, s');
    case _ =>
  }

  /** When every worker is done and no caller is still deciding, each opened card has either
      reached one caller or been closed. */
  lemma NoCardLeaks(r: Run, n: nat, k: nat)
    requires IsRun(r) && n < |r.states| && k < |r.states[n].cards|
    requires forall i :: 0 <= i < |r.states[n].workers| ==> r.states[n].workers[i].Finished?
    requires forall j :: 0 <= j < |r.states[n].callers| ==> r.states[n].callers[j].at.Gone?
    ensures var h := r.states[n].cards[k]; h.heldCloses + h.lateCloses == 1
    ensures r.states[n].openSessions == 0
  {
    CardsAreConserved(r, n, k);
    LaunchesAndSessionsAddUp(r, n);
    RunKeeps(r, n);
    assert CardOk(r.states[n], k);
  }
}
