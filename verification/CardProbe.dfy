/** The critical sections of the shared card probe: one smart-card open that cannot be
    cancelled, shared by every bounded waiter that arrives while it is in flight.

    Each section is a function of one call's guarded fields; the methods below perform them
    in place on the call and on the slot that names the call in flight. */
module CardProbe {
  import opened Basics

  /** What one pass over the readers came back with; card names the opened session. */
  datatype Outcome = Opened(card: nat, serial: nat) | NotOpened(error: string)

  /** The fields of a call that the probe lock guards; it is ready once it has a result. */
  datatype CallState = CallState(result: Option<Outcome>, claimed: bool, waiters: int)

  datatype Verdict = Failed(error: string) | Yours(card: nat, serial: nat) | Taken

  const NEW_CALL := CallState(None, false, 0)

  function Joined(c: CallState): CallState {
    c.(waiters := c.waiters + 1)
  }

  function Completed(c: CallState, outcome: Outcome): CallState {
    c.(result := Some(outcome))
  }

  /** Nobody is waiting any more: the worker has to close what it opened. */
  predicate Orphaned(c: CallState, outcome: Outcome) {
    c.waiters == 0 && outcome.Opened?
  }

  function Collected(c: CallState): CallState
    requires c.result.Some?
  {
    CallState(c.result, c.claimed || c.result.value.Opened?, c.waiters - 1)
  }

  function CollectVerdict(c: CallState): Verdict
    requires c.result.Some?
  {
    match c.result.value
    case NotOpened(error) => Failed(error)
    case Opened(card, serial) => if c.claimed then Taken else Yours(card, serial)
  }

  /** Whether collecting also clears the slot, should it still name this call. */
  predicate CollectClears(c: CallState)
    requires c.result.Some?
  {
    match c.result.value
    case NotOpened(_) => c.waiters == 1
    case Opened(_, _) => !c.claimed
  }

  /** The last waiter to give up on a ready call owns what nobody claimed. */
  predicate Abandoned(c: CallState) {
    c.result.Some? && c.waiters == 1 && c.result.value.Opened? && !c.claimed
  }

  function Released(c: CallState): CallState {
    CallState(c.result, c.claimed || Abandoned(c), c.waiters - 1)
  }

  predicate ReleaseClears(c: CallState) {
    c.result.Some? && c.waiters == 1
  }

  class ProbeCall {
    var result: Option<Outcome>
    var claimed: bool
    var waiters: int

    constructor ()
      ensures View() == NEW_CALL
    {
      result, claimed, waiters := None, false, 0;
    }

    function View(): CallState
      reads this
    {
      CallState(result, claimed, waiters)
    }
  }

  class Hardware {
    var probe: ProbeCall?
    var openWorkers: int
    var openSessions: int

    constructor ()
      ensures probe == null && openWorkers == 0 && openSessions == 0
    {
      probe, openWorkers, openSessions := null, 0, 0;
    }

    /** Joins the call in flight, or starts one and reports that its worker must be launched. */
    method Enter() returns (call: ProbeCall, launched: bool)
      modifies this`probe, this`openWorkers, probe
      ensures launched == (old(probe) == null) && probe == call
      ensures launched ==> fresh(call) && call.View() == Joined(NEW_CALL) && openWorkers == old(openWorkers) + 1
      ensures !launched ==> call == old(probe) && call.View() == Joined(old(call.View())) && openWorkers == old(openWorkers)
    {
      var current := probe;
      launched := current == null;
      if current == null {
        current := new ProbeCall();
        probe := current;
        openWorkers := openWorkers + 1;
      }
      call := current;
      call.waiters := call.waiters + 1;
    }

    /** The worker's section: publishes the result, frees the slot for the next open, and
        keeps for closing a card that nobody is waiting for. */
    method Complete(call: ProbeCall, outcome: Outcome) returns (closeLate: Option<nat>)
      modifies this`probe, call
      ensures call.View() == Completed(old(call.View()), outcome)
      ensures probe == if old(probe) == call then null else old(probe)
      ensures closeLate.Some? <==> Orphaned(old(call.View()), outcome)
      ensures closeLate.Some? ==> closeLate.value == outcome.card
    {
      closeLate := None;
      call.result := Some(outcome);
      if probe == call {
        probe := null;
      }
      if call.waiters == 0 && outcome.Opened? {
        closeLate := Some(outcome.card);
      }
    }

    /** A waiter that saw the call become ready takes its share of the result. */
    method Collect(call: ProbeCall) returns (verdict: Verdict)
      requires call.result.Some?
      modifies this`probe, call
      ensures call.View() == Collected(old(call.View())) && verdict == CollectVerdict(old(call.View()))
      ensures probe == if old(probe) == call && CollectClears(old(call.View())) then null else old(probe)
    {
      call.waiters := call.waiters - 1;
      match call.result.value
      case NotOpened(error) =>
        if call.waiters == 0 && probe == call {
          probe := null;
        }
        verdict := Failed(error);
      case Opened(card, serial) =>
        if call.claimed {
          verdict := Taken;
        } else {
          call.claimed := true;
          if probe == call {
            probe := null;
          }
          verdict := Yours(card, serial);
        }
    }

    /** A waiter whose own deadline passed first. */
    method ReleaseWaiter(call: ProbeCall) returns (closeLate: Option<nat>)
      modifies this`probe, call
      ensures call.View() == Released(old(call.View()))
      ensures probe == if old(probe) == call && ReleaseClears(old(call.View())) then null else old(probe)
      ensures closeLate.Some? <==> Abandoned(old(call.View()))
      ensures closeLate.Some? ==> closeLate.value == old(call.View()).result.value.card
    {
      closeLate := None;
      call.waiters := call.waiters - 1;
      if call.result.Some? && call.waiters == 0 {
        if probe == call {
          probe := null;
        }
        if call.result.value.Opened? && !call.claimed {
          call.claimed := true;
          closeLate := Some(call.result.value.card);
        }
      }
    }

    method Track(card: nat) returns (tracked: TrackedCard)
      modifies this`openSessions
      ensures fresh(tracked) && tracked.card == card && tracked.h == this && !tracked.closed
      ensures openSessions == old(openSessions) + 1
    {
      openSessions := openSessions + 1;
      tracked := new TrackedCard(card, this);
    }
  }

  /** A delivered session; however often it is closed, the card is closed and the session
      uncounted once. */
  class TrackedCard {
    const card: nat
    const h: Hardware
    var closed: bool

    constructor (card: nat, h: Hardware)
      ensures this.card == card && this.h == h && !closed
    {
      this.card, this.h, closed := card, h, false;
    }

    /** reached tells whether the card itself was closed by this call. */
    method Close() returns (reached: bool)
      modifies this, h`openSessions
      ensures closed && reached == !old(closed)
      ensures h.openSessions == old(h.openSessions) - if reached then 1 else 0
    {
      reached := !closed;
      if !closed {
        closed := true;
        h.openSessions := h.openSessions - 1;
      }
    }
  }

  /** What the worker found reaches the caller unchanged: the first of them to collect gets the
      very session opened with the serial read from it, every later one learns it is taken,
      and a failure reaches each of them in its own words. */
  lemma CollectDelivers(c: CallState, outcome: Outcome)
    requires !c.claimed
    ensures var ready := Completed(c, outcome);
            && (outcome.Opened? ==> CollectVerdict(ready) == Yours(outcome.card, outcome.serial) && CollectVerdict(Collected(ready)) == Taken)
            && (outcome.NotOpened? ==> CollectVerdict(ready) == Failed(outcome.error) && CollectVerdict(Collected(ready)) == Failed(outcome.error))
  {
  }
}
