/** Per-agent mutable state: the event emitter over the store, the budget, the cancellation signal
    and the context projection. Whatever the environment decides is an arbitrary choice. */
module Runtime {
  import opened Wrappers
  import opened Transcript
  import opened Replay

  datatype Limit = ModelSteps | ToolCalls | ProtocolErrors | WallTime | ContextWindow

  /** What the modelled code raises. Interrupt stands for KeyboardInterrupt and
      asyncio.CancelledError; Fatal for any other exception that is not an Exception. */
  datatype Exn =
    | Interrupt
    | Fatal
    | CancellationRequested
    | StoreFault
    | ModelFault(overflow: bool)
    | ProtocolFault
    | LoopLimit(reason: Limit)
    | WindowExceeded
    | LoopClosed
    | OtherFault
  {
    /** Caught by `except Exception`. */
    predicate IsException() {
      !Interrupt? && !Fatal?
    }

    /** Raised by a model, a policy, an approval port or a tool; the others are internal signals. */
    predicate External() {
      !StoreFault? && !LoopLimit? && !WindowExceeded? && !LoopClosed?
    }
  }

  method AnyFault() returns (x: Exn)
    ensures x.External()
  {
    x := *;
    if !x.External() {
      x := OtherFault;
    }
  }

  /** What the store makes of one record: it acknowledges or refuses it, or breaks while writing it, and then
      the bytes of the record may have reached the file all the same. */
  datatype StoreOutcome = Acknowledged | Refused | Broken(durable: bool)

  /** The acknowledged records, whether the store is broken, and the record that broke it if the file has it
      as a whole. */
  datatype Held = Held(events: seq<Event>, broken: bool, unacknowledged: Option<Event>) {
    function After(e: Event, outcome: StoreOutcome): Held {
      match outcome
      case Acknowledged => this.(events := events + [e])
      case Refused => this
      case Broken(durable) => Held(events, true, if durable then Some(e) else None)
    }
  }

  /** events.py EventEmitter over session.py SessionStore, at the level of whole records. */
  class EventEmitter {
    /** The acknowledged records. */
    var events: seq<Event>
    /** The store refuses every append after a failed write. */
    var broken: bool
    /** The record of that failed write, if its bytes reached the file all the same. */
    var unacknowledged: Option<Event>
    /** How many publications did not reach the store. */
    var failures: nat
    /** The log was disciplined and had no open call when this emitter took it over. */
    ghost const clean: bool
    /** The tools whose names the log may show. */
    ghost const registered: set<string>

    ghost predicate Valid()
      reads this
    {
      && SaneLog(registered, events) && (clean ==> Disciplined(events))
      && (broken ==> failures > 0)
      && (unacknowledged.Some? ==>
            && broken && SaneLog(registered, events + [unacknowledged.value])
            && (clean ==> Disciplined(events + [unacknowledged.value])))
    }

    constructor (log: seq<Event>, ghost isClean: bool, ghost names: set<string>)
      requires SaneLog(names, log) && (isClean ==> Disciplined(log))
      ensures Valid() && events == log && failures == 0 && !broken && unacknowledged == None
      ensures clean == isClean && registered == names
    {
      events, broken, unacknowledged, failures := log, false, None, 0;
      clean, registered := isClean, names;
    }

    function Holding(): Held
      reads this
    {
      Held(events, broken, unacknowledged)
    }

    /** The store's part of a publication. The environment chooses the outcome; after a failed write the
        store refuses everything. */
    method Write(e: Event) returns (outcome: StoreOutcome)
      modifies this`events, this`broken, this`unacknowledged
      ensures Holding() == old(Holding()).After(e, outcome)
      ensures old(broken) ==> outcome == Refused
    {
      outcome := *;
      if broken {
        outcome := Refused;
      }
      match outcome {
        case Acknowledged => events := events + [e];
        case Refused =>
        case Broken(durable) => broken, unacknowledged := true, if durable then Some(e) else None;
      }
    }

    /** Store first: a record has a sequence only if the store acknowledged it. Only records that
        are sane and legal at this point are ever handed to the store, so a record that survives a failed
        write keeps the file disciplined as well. */
    method Publish(e: Event) returns (sequence: Option<nat>)
      requires Valid()
      requires Sane(registered, e, |events|) && (clean ==> Legal(events, e))
      modifies this
      ensures Valid()
      ensures sequence.Some? ==>
                && events == old(events) + [e] && sequence.value == |events|
                && !old(broken) && broken == old(broken) && failures == old(failures)
      ensures sequence.None? ==> events == old(events) && failures == old(failures) + 1
      ensures old(broken) ==> sequence.None? && broken && unacknowledged == old(unacknowledged)
    {
      DisciplinedAppended(events, e);
      var outcome := Write(e);
      if outcome != Acknowledged {
        failures := failures + 1;
        return None;
      }
      return Some(|events|);
    }
  }

  /** runtime.py BudgetTracker, without token and wall-clock bookkeeping. */
  class BudgetTracker {
    const maxSteps: nat
    const maxToolCalls: nat
    const maxProtocolErrors: nat
    var modelSteps: nat
    var toolCalls: nat
    var protocolErrors: nat

    constructor (maxSteps: nat, maxToolCalls: nat, maxProtocolErrors: nat, start: Counters)
      ensures this.maxSteps == maxSteps && this.maxToolCalls == maxToolCalls
      ensures this.maxProtocolErrors == maxProtocolErrors
      ensures Snapshot() == start
    {
      this.maxSteps, this.maxToolCalls := maxSteps, maxToolCalls;
      this.maxProtocolErrors := maxProtocolErrors;
      modelSteps, toolCalls, protocolErrors := start.steps, start.calls, start.protocolErrors;
    }

    function Snapshot(): Counters
      reads this
    {
      Counters(modelSteps, toolCalls, protocolErrors)
    }

    /** The wall clock is an arbitrary input. */
    method DeadlinePassed() returns (passed: bool) {
      passed := *;
    }
  }

  /** runtime.py CancellationSignal; another thread may set it before any read. */
  class CancellationSignal {
    var cancelled: bool

    constructor ()
      ensures !cancelled
    {
      cancelled := false;
    }

    method Cancel()
      modifies this
      ensures cancelled
    {
      cancelled := true;
    }

    method IsCancelled() returns (seen: bool)
      modifies this
      ensures seen == cancelled && (old(cancelled) ==> cancelled)
    {
      var elsewhere: bool := *;
      cancelled := cancelled || elsewhere;
      return cancelled;
    }
  }

  /** runtime.py ContextState. */
  class ContextState {
    var summary: Option<string>
    var covered: nat
    var degraded: nat
    var notice: Option<string>
    var entries: seq<Entry>

    constructor ()
      ensures summary == None && covered == 0 && degraded == 0 && notice == None && entries == []
    {
      summary, covered, degraded, notice, entries := None, 0, 0, None, [];
    }

    /** assembly.py _context_state_from_plan */
    constructor FromPlan(plan: Restored)
      ensures Cuts() == (plan.summary, plan.covered, plan.degraded, plan.notice)
      ensures entries == plan.messages
    {
      summary, covered, degraded, notice := plan.summary, plan.covered, plan.degraded, plan.notice;
      entries := [];
      new;
      for i := 0 to |plan.messages|
        invariant entries == plan.messages[..i]
        invariant Cuts() == (plan.summary, plan.covered, plan.degraded, plan.notice)
      {
        AppendMessage(plan.messages[i].msg, plan.messages[i].sequence);
      }
    }

    function Cuts(): (Option<string>, nat, nat, Option<string>)
      reads this
    {
      (summary, covered, degraded, notice)
    }

    function Cutoff(): nat
      reads this
    {
      Max(covered, degraded)
    }

    method AppendMessage(m: Msg, sequence: nat)
      modifies this`entries
      ensures entries == old(entries) + [Entry(m, sequence)]
    {
      entries := entries + [Entry(m, sequence)];
    }
  }
}
