/** agent_loop.py AgentLoop: the turn state machine over model, tools, limits, cancellation and
    failures. */
module Loop {
  import opened Wrappers
  import opened Transcript
  import opened Grouping
  import opened Replay
  import opened Runtime
  import opened Model
  import opened Context
  import opened Executor
  import opened Live
  import opened Turn

  class AgentLoop {
    const emitter: EventEmitter
    const budget: BudgetTracker
    const cancellation: CancellationSignal
    const context: ContextState
    const builder: ContextBuilder
    const compactor: Compactor
    const model: ModelClient
    const executor: ToolExecutor
    const registry: Registry
    const port: ApprovalPort
    const maxCompactions: nat
    /** The cost of the active tool schemas. */
    const tools: nat
    ghost const origin: Origin
    ghost const base: nat
    ghost const start: Counters

    var state: RunState
    var sessionStarted: bool
    var sessionClosed: bool
    var turnActive: bool
    var lastText: string
    var issued: set<Id>
    /** The declared calls of this turn that are not handled yet. */
    var pending: seq<Planned>

    /** The context's messages as complete groups and an open one, and the declared calls whose
        result could not be stored. */
    ghost var groups: seq<Group>
    ghost var open: seq<Entry>
    ghost var lost: seq<OpenCall>
    /** How much of the log the context reflects while a published result is not consumed. */
    ghost var synced: nat
    /** What the current turn is about. */
    ghost var asked: string

    ghost function Now(): View
      reads this, emitter, context
    {
      View(emitter.events, context.summary, context.covered, context.degraded, context.notice,
           groups, open, lost, Waiting(pending))
    }

    ghost predicate Wired() {
      && executor.emitter == emitter && executor.registry == registry && executor.port == port
      && compactor.model == model && builder.window == model.window && builder.Valid()
      && origin.clean == emitter.clean && origin.registered == emitter.registered == registry.registered
      && ProperNames(registry.registered) && maxCompactions >= 1
    }

    /** The budgets bound all work of this runtime. */
    ghost predicate Spent()
      reads budget, registry, model
    {
      && start.steps <= budget.modelSteps <= Max(budget.maxSteps, start.steps)
      && start.calls <= budget.toolCalls <= Max(budget.maxToolCalls, start.calls)
      && |registry.dispatches| <= budget.toolCalls - start.calls
    }

    ghost function Accounts(waiting: seq<Id>): Books
      reads this, emitter
    {
      Books(base, emitter.failures, lost, waiting, issued)
    }

    /** The records of this loop leave these calls without a result. */
    ghost predicate Sound(waiting: seq<Id>)
      reads this, emitter, budget, model, executor, registry, port
    {
      && Wired() && emitter.Valid() && executor.WriteAhead() && model.AllFit() && Spent()
      && Ledger(emitter.events, Accounts(waiting), sessionClosed)
    }

    ghost predicate Tracked()
      reads this, emitter, context
    {
      && Consistent(origin, Now())
      && context.entries == Now().Entries()
    }

    /** No published result waits for its message. */
    ghost predicate Consumed()
      reads this, executor
    {
      && (forall i :: 0 <= i < |pending| ==> pending[i].correlation in issued)
      && (executor.lastPublished ==>
            && executor.lastResult.Some? && executor.lastResult.value.correlation in issued
            && forall i :: 0 <= i < |pending| ==> pending[i].correlation != executor.lastResult.value.correlation)
    }

    /** Between two steps of a turn. */
    ghost predicate InTurn()
      reads this, emitter, budget, context, model, executor, registry, port
    {
      Sound(PlanIds(pending)) && Tracked() && Consumed() && turnActive && !sessionClosed
    }

    /** The executor has stored the result of the first pending call and then raised. */
    ghost predicate Unconsumed()
      reads this, emitter, budget, context, model, executor, registry, port
    {
      && pending != [] && Sound(PlanIds(pending[1..])) && turnActive && !sessionClosed
      && synced <= |emitter.events| && Consistent(origin, Now().(events := emitter.events[..synced]))
      && context.entries == Now().Entries()
      && (forall i :: 0 <= i < |pending| ==> pending[i].correlation in issued)
      && executor.lastPublished && executor.lastResult.Some? && executor.lastSequence == Some(|emitter.events|)
      && executor.lastResult.value.correlation == pending[0].correlation
      && CallTrace(emitter.events[synced..], pending[0].correlation, executor.lastResult.value.provider,
                   executor.project(executor.lastResult.value.data))
    }

    ghost predicate Valid()
      reads this, emitter, budget, context, model, executor, registry, port
    {
      && Sound(PlanIds(pending)) && Tracked() && Consumed()
      && (!turnActive && !sessionClosed ==> open == [])
    }

    // -------------------------------------------------------------- records and messages

    method Emit(e: Event) returns (r: Result<nat, Exn>)
      requires Wired() && emitter.Valid() && executor.WriteAhead()
      requires Sane(emitter.registered, e, |emitter.events|) && (emitter.clean ==> Legal(emitter.events, e))
      modifies emitter
      ensures emitter.Valid() && executor.WriteAhead()
      ensures r.Ok? ==>
                && emitter.events == old(emitter.events) + [e] && r.value == |emitter.events|
                && emitter.failures == old(emitter.failures)
      ensures r.Err? ==>
                && r.error == StoreFault
                && emitter.events == old(emitter.events) && emitter.failures > old(emitter.failures)
    {
      var sequence := emitter.Publish(e);
      executor.WriteAheadKept();
      return if sequence.Some? then Ok(sequence.value) else Err(StoreFault);
    }

    constructor (emitter: EventEmitter, budget: BudgetTracker, cancellation: CancellationSignal,
                 context: ContextState, builder: ContextBuilder, compactor: Compactor, model: ModelClient,
                 executor: ToolExecutor, registry: Registry, port: ApprovalPort,
                 maxCompactions: nat, tools: nat, ghost origin: Origin, ghost groups: seq<Group>)
      requires executor.emitter == emitter && executor.registry == registry && executor.port == port
      requires compactor.model == model && builder.window == model.window && builder.Valid()
      requires ProperNames(registry.registered) && maxCompactions >= 1
      requires emitter.Valid() && emitter.failures == 0 && registry.dispatches == [] && model.sent == []
      requires !executor.lastPublished
      requires origin.clean == emitter.clean
      requires origin.registered == emitter.registered == registry.registered
      requires Consistent(origin, View(emitter.events, context.summary, context.covered, context.degraded,
                                       context.notice, groups, [], [], []))
      requires context.entries == Flatten(groups)
      ensures Valid() && !turnActive && !sessionClosed && !sessionStarted && open == []
      ensures this.emitter == emitter && this.budget == budget && this.cancellation == cancellation
      ensures this.context == context && this.model == model && this.executor == executor
      ensures this.registry == registry && this.port == port
      ensures this.origin == origin && this.groups == groups
      ensures this.start == budget.Snapshot() && this.base == |emitter.events|
    {
      hide Consistent, Ledger;
      LedgerStart(emitter.events);
      this.emitter, this.budget, this.cancellation, this.context := emitter, budget, cancellation, context;
      this.builder, this.compactor, this.model := builder, compactor, model;
      this.executor, this.registry, this.port := executor, registry, port;
      this.maxCompactions, this.tools := maxCompactions, tools;
      this.origin, this.groups, this.open, this.lost := origin, groups, [], [];
      synced, asked := 0, "";
      base, start := |emitter.events|, budget.Snapshot();
      state, sessionStarted, sessionClosed, turnActive := Running, false, false, false;
      lastText, issued, pending := "", {}, [];
      new;
      assert Waiting([]) == [] && PlanIds([]) == [];
    }

    /** A record that becomes one message of its own. */
    method EmitLone(e: Event, m: Msg) returns (r: Result<(), Exn>)
      requires InTurn() && open == [] && LoneRecord(e, m)
      modifies emitter, context`entries, `groups
      ensures InTurn() && open == []
      ensures r.Ok? ==> emitter.events == old(emitter.events) + [e] && emitter.failures == old(emitter.failures)
      ensures r.Err? ==>
                && r.error == StoreFault
                && emitter.events == old(emitter.events) && emitter.failures > old(emitter.failures)
    {
      hide Consistent, Ledger;
      ghost var v := Now();
      LoneRecordStep(origin, v, e, m);
      LedgerNeutral(emitter.events, e, Accounts(PlanIds(pending)));
      var stored := Emit(e);
      if stored.Err? {
        LedgerFailed(emitter.events, old(Accounts(PlanIds(pending))), emitter.failures);
        return Err(stored.error);
      }
      var sequence := stored.value;
      context.AppendMessage(m, sequence);
      groups := groups + [[Entry(m, sequence)]];
      FlattenSnoc(v.groups, [Entry(m, sequence)]);
      assert Flatten(v.groups) + [] + [Entry(m, sequence)] == Flatten(v.groups) + [Entry(m, sequence)];
      assert Now() == LoneView(v, e, m);
      return Ok(());
    }

    method NewCorrelationId() returns (c: Id)
      modifies `issued
      ensures c.Internal? && c !in old(issued) && issued == old(issued) + {c}
    {
      var serial: nat := *;
      if Internal(serial) in issued {
        ghost var unused := UnusedSerial(issued);
        while Internal(serial) in issued
          decreases unused - serial
        {
          serial := serial + 1;
        }
      }
      c := Internal(serial);
      issued := issued + {c};
    }

    method PlanCalls(calls: seq<Call>) returns (plans: seq<Planned>)
      modifies `issued
      ensures WellPlanned(plans, calls) && old(issued) <= issued
      ensures forall i :: 0 <= i < |plans| ==> plans[i].correlation in issued && plans[i].correlation !in old(issued)
    {
      plans := [];
      for n := 0 to |calls|
        invariant WellPlanned(plans, calls[..n]) && old(issued) <= issued
        invariant forall i :: 0 <= i < |plans| ==>
                    plans[i].correlation in issued && plans[i].correlation !in old(issued)
      {
        var call := calls[n];
        var correlation := NewCorrelationId();
        var contextId := if call.provider.Some? then call.provider.value else correlation;
        if call.badId {
          contextId := correlation;
        }
        plans := plans + [Planned(call, correlation, contextId)];
      }
      assert calls[..|calls|] == calls;
    }

    /** The message of a stored assistant record; from here on every declared call is waiting. */
    method Adopt(text: string, plans: seq<Planned>, sequence: nat, ghost v: View)
      requires context.entries == Flatten(v.groups) && v.open == [] && groups == v.groups && open == [] && lost == []
      requires v.waiting == [] && v.lost == [] && v.(events := emitter.events) == Now().(waiting := [])
      requires sequence == |v.events| + 1 == |emitter.events| && emitter.events[..|v.events|] == v.events
      modifies this`pending, this`groups, this`open, context`entries
      ensures pending == plans && (open == [] <==> plans == []) && context.entries == Now().Entries()
      ensures Now() == DeclaredView(v, emitter.events[|v.events|], Assistant(text, Refs(plans)), Waiting(plans))
    {
      var m := Assistant(text, Refs(plans));
      context.AppendMessage(m, sequence);
      pending := plans;
      if plans == [] {
        groups := groups + [[Entry(m, sequence)]];
        FlattenSnoc(v.groups, [Entry(m, sequence)]);
        assert Flatten(groups) + [] == Flatten(groups);
      } else {
        open := [Entry(m, sequence)];
      }
      assert emitter.events == v.events + [emitter.events[|v.events|]];
    }

    /** The assistant record comes before its message. */
    method Declare(text: string, plans: seq<Planned>, ghost calls: seq<Call>) returns (r: Result<(), Exn>)
      requires InTurn() && open == [] && WellPlanned(plans, calls) && Normalized(calls)
      requires forall i :: 0 <= i < |plans| ==> plans[i].correlation in issued
      requires forall i :: 0 <= i < |plans| ==> plans[i].correlation !in Declared(emitter.events[base..])
      requires executor.lastPublished ==>
                 forall i :: 0 <= i < |plans| ==> plans[i].correlation != executor.lastResult.value.correlation
      modifies this`pending, this`groups, this`open, emitter, context`entries
      ensures InTurn()
      ensures r.Ok? ==>
                && pending == plans && (open == [] <==> pending == []) && lost == []
                && emitter.failures == old(emitter.failures)
                && emitter.events == old(emitter.events) + [AssistantMessage(text, Records(registry.registered, plans))]
      ensures r.Err? ==>
                && r.error == StoreFault && open == []
                && emitter.events == old(emitter.events) && emitter.failures > old(emitter.failures)
    {
      hide Consistent, Ledger, Legal, Sane, WellPlanned, Normalized, executor.WriteAhead, model.AllFit, emitter.Valid;
      ghost var v := Now();
      RestingView(origin, v);
      var e := AssistantMessage(text, Records(registry.registered, plans));
      AssistantStep(origin, v, text, plans, calls);
      RestingLoop();
      LedgerDeclared(emitter.events, text, registry.registered, plans, calls, Accounts([]));
      var stored := Emit(e);
      if stored.Err? {
        LedgerFailed(emitter.events, old(Accounts([])), emitter.failures);
        return Err(stored.error);
      }
      assert context.entries == Flatten(v.groups) by {
        assert Flatten(v.groups) + [] == Flatten(v.groups);
      }
      Adopt(text, plans, stored.value, v);
      return Ok(());
    }

    // -------------------------------------------------------------- closing calls

    /** The message of the stored result of the first pending call. */
    method Conclude(plan: Planned, data: ToolData, sequence: nat, ghost v: View, ghost plans: seq<Planned>)
      requires plans != [] && plan == plans[0] && pending == plans[1..] && v.waiting == Waiting(plans)
      requires context.entries == v.Entries() && groups == v.groups && open == v.open && lost == v.lost
      requires Now() == v.(events := emitter.events, waiting := Waiting(plans[1..]))
      requires sequence == |emitter.events|
      modifies this`groups, this`open, context`entries
      ensures context.entries == Now().Entries()
      ensures Now() == AnsweredView(v, emitter.events, plans, data)
    {
      var entry := Entry(Tool(plan.contextId, data), sequence);
      context.AppendMessage(entry.msg, sequence);
      ghost var full := open + [entry];
      assert Flatten(groups) + open + [entry] == Flatten(groups) + full;
      if lost == [] && pending == [] {
        FlattenSnoc(groups, full);
        groups, open := groups + [full], [];
        assert Flatten(groups) + [] == Flatten(groups);
      } else {
        open := full;
      }
    }

    lemma LoseRecords(v: View, plans: seq<Planned>, seg: seq<Event>, failures: nat)
      requires Consistent(origin, v) && plans != [] && v.waiting == Waiting(plans)
      requires AllNeutral(seg) && Quiet(seg) && emitter.failures > failures
      requires Ledger(v.events, Books(base, failures, v.lost, PlanIds(plans), issued), false)
      ensures var books := Books(base, emitter.failures, v.lost + [Waiting(plans)[0]], PlanIds(plans[1..]), issued);
              Ledger(v.events + seg, books, false)
      ensures QuietGrowth(v.events, v.events + seg)
      ensures Consistent(origin, v.(events := v.events + seg, lost := v.lost + [Waiting(plans)[0]],
                                    waiting := Waiting(plans[1..])))
    {
      hide Consistent, Ledger, AllNeutral, Quiet;
      LoseFirst(origin, v, seg, plans);
      LedgerLost(v.events, seg, Books(base, failures, v.lost, PlanIds(plans), issued),
                 Books(base, emitter.failures, v.lost + [Waiting(plans)[0]], PlanIds(plans[1..]), issued));
      QuietGrown(v.events, seg);
    }

    /** The records that skipping these calls leaves: for each one its call, a denial and its result. */
    function SkippedAll(plans: seq<Planned>, reason: string, status: Status): seq<Event> {
      if plans == [] then []
      else Skipped(plans[0], reason, status) + SkippedAll(plans[1..], reason, status)
    }

    function Skipped(plan: Planned, reason: string, status: Status): seq<Event> {
      var value := executor.SkippedValue(plan.call, plan.correlation, reason, status);
      SkipRecords(plan.correlation, value.provider, executor.project(value.data))
    }

    /** A skipped call leaves the list whether or not its result could be stored. */
    method SkipNext(reason: string, status: Status) returns (r: Result<(), Exn>)
      requires InTurn() && pending != [] && status != Success
      modifies this`pending, this`groups, this`open, this`lost, this`synced, emitter, context`entries, executor
      ensures InTurn() && pending == old(pending)[1..]
      ensures QuietGrowth(old(emitter.events), emitter.events)
      ensures pending == [] && lost == [] ==> open == []
      ensures r.Ok? ==>
                && emitter.events == old(emitter.events) + Skipped(old(pending[0]), reason, status)
                && emitter.failures == old(emitter.failures) && lost == old(lost)
      ensures r.Err? ==> r.error == StoreFault && emitter.failures > old(emitter.failures)
    {
      hide Sound, Tracked, Consumed, Consistent, QuietGrowth;
      r := SkipFirst(reason, status);
      if r.Ok? {
        TakeResult(executor.lastResult.value);
      }
    }

    method SkipFirst(reason: string, status: Status) returns (r: Result<(), Exn>)
      requires InTurn() && pending != [] && status != Success
      modifies this`pending, this`lost, this`synced, emitter, executor
      ensures QuietGrowth(old(emitter.events), emitter.events)
      ensures r.Ok? ==>
                && Unconsumed() && pending == old(pending) && lost == old(lost)
                && emitter.events == old(emitter.events) + Skipped(old(pending[0]), reason, status)
                && emitter.failures == old(emitter.failures)
      ensures r.Err? ==>
                && InTurn() && pending == old(pending)[1..] && lost != []
                && r.error == StoreFault && emitter.failures > old(emitter.failures)
    {
      hide Consistent, Ledger, CallTrace, QuietGrowth, AllNeutral, Quiet, Spent, executor.WriteAhead, model.AllFit,
        emitter.Valid;
      ghost var v, plans := Now(), pending;
      WaitingOpen(origin, v, plans);
      var plan := pending[0];
      var result := executor.Skip(plan.call, plan.correlation, reason, status);
      ghost var seg := emitter.events[|v.events|..];
      assert emitter.events == v.events + seg;
      synced := |v.events|;
      if result.Err? {
        pending, lost := pending[1..], lost + [Waiting(plans)[0]];
        LoseRecords(v, plans, seg, old(emitter.failures));
        return Err(result.error);
      }
      assert emitter.events[..synced] == v.events;
      RunRecords(v, plans, seg, result.value, emitter.failures);
      return Ok(());
    }

    lemma SkippedStep(events: seq<Event>, plans: seq<Planned>, reason: string, status: Status)
      ensures plans == [] ==> events + SkippedAll(plans, reason, status) == events
      ensures plans != [] ==>
                events + SkippedAll(plans, reason, status) ==
                events + Skipped(plans[0], reason, status) + SkippedAll(plans[1..], reason, status)
    {
    }

    method SkipPending(reason: string, status: Status) returns (r: Result<(), Exn>)
      requires InTurn() && status != Success
      requires pending == [] && lost == [] ==> open == []
      modifies this`pending, this`groups, this`open, this`lost, this`synced, emitter, context`entries, executor
      ensures InTurn()
      ensures QuietGrowth(old(emitter.events), emitter.events)
      ensures pending == [] && lost == [] ==> open == []
      ensures r.Ok? ==>
                && emitter.events == old(emitter.events) + SkippedAll(old(pending), reason, status)
                && pending == [] && emitter.failures == old(emitter.failures) && lost == old(lost)
      ensures r.Err? ==> r.error == StoreFault && emitter.failures > old(emitter.failures)
    {
      hide Sound, Tracked, Consumed, Consistent, SkippedAll, Skipped;
      while pending != []
        invariant InTurn() && QuietGrowth(old(emitter.events), emitter.events)
        invariant emitter.failures == old(emitter.failures) && lost == old(lost)
        invariant pending == [] && lost == [] ==> open == []
        invariant emitter.events + SkippedAll(pending, reason, status) ==
                  old(emitter.events) + SkippedAll(old(pending), reason, status)
        decreases |pending|
      {
        SkippedStep(emitter.events, pending, reason, status);
        var skipped :- SkipNext(reason, status);
      }
      SkippedStep(emitter.events, pending, reason, status);
      return Ok(());
    }

    /** Run the first pending call. Its result is stored, unless the store failed. */
    method RunFirst() returns (r: Result<ToolValue, Exn>)
      requires InTurn() && pending != [] && budget.toolCalls < budget.maxToolCalls
      modifies this`synced, budget`toolCalls, emitter, executor, registry, port
      ensures QuietGrowth(old(emitter.events), emitter.events)
      ensures emitter.failures >= old(emitter.failures)
      ensures budget.toolCalls == old(budget.toolCalls) + 1
      ensures if executor.lastPublished then Unconsumed() else InTurn()
      ensures !executor.lastPublished ==> r.Err? && emitter.failures > old(emitter.failures)
      ensures r.Ok? ==> executor.lastResult == Some(r.value)
      ensures r.Err? ==> (r.error.External() && !r.error.IsException())
                         || (r.error.StoreFault? && emitter.failures > old(emitter.failures))
    {
      hide Consistent, Ledger, CallTrace, executor.WriteAhead, model.AllFit, emitter.Valid;
      ghost var v, plans := Now(), pending;
      WaitingOpen(origin, v, plans);
      var plan := pending[0];
      budget.toolCalls := budget.toolCalls + 1;
      r := executor.Execute(plan.call, plan.correlation);
      ghost var seg := emitter.events[|v.events|..];
      assert emitter.events == v.events + seg;
      synced := |v.events|;
      if executor.lastPublished {
        assert emitter.events[..synced] == v.events;
        RunRecords(v, plans, seg, executor.lastResult.value, old(emitter.failures));
      } else {
        NeutralStep(origin, v, seg);
        QuietGrown(v.events, seg);
        LedgerPassed(v.events, seg, old(Accounts(PlanIds(pending))), emitter.failures);
      }
    }

    lemma RunRecords(v: View, plans: seq<Planned>, seg: seq<Event>, value: ToolValue, failures: nat)
      requires Consistent(origin, v) && plans != [] && v.waiting == Waiting(plans)
      requires CallTrace(seg, plans[0].correlation, value.provider, executor.project(value.data))
      requires Ledger(v.events, Books(base, failures, v.lost, PlanIds(plans), issued), false)
      requires emitter.failures >= failures
      ensures Ledger(v.events + seg, Books(base, emitter.failures, v.lost, PlanIds(plans[1..]), issued), false)
      ensures QuietGrowth(v.events, v.events + seg)
      ensures v.open != []
      ensures Consistent(origin, AnsweredView(v, v.events + seg, plans, executor.project(value.data)))
    {
      hide Consistent, CallTrace, Ledger;
      LedgerBase(v.events, Books(base, failures, v.lost, PlanIds(plans), issued));
      AnswerFirst(origin, v, seg, plans, value.provider, executor.project(value.data), base);
      TraceQuiet(seg, plans[0].correlation, value.provider, executor.project(value.data));
      QuietGrown(v.events, seg);
      assert PlanIds(plans) == [plans[0].correlation] + PlanIds(plans[1..]);
      LedgerGrown(v.events, seg, Books(base, failures, v.lost, PlanIds(plans), issued),
                  Books(base, emitter.failures, v.lost, PlanIds(plans[1..]), issued));
    }

    /** The stored result of the first pending call gets its message, once. */
    method TakeResult(value: ToolValue)
      requires Unconsumed() && executor.lastResult == Some(value)
      modifies this`pending, this`groups, this`open, context`entries
      ensures InTurn() && pending == old(pending)[1..]
      ensures pending == [] && lost == [] ==> open == []
    {
      hide Consistent, Ledger, CallTrace, executor.WriteAhead, model.AllFit, emitter.Valid;
      ghost var v, plans := Now().(events := emitter.events[..synced]), pending;
      ghost var seg := emitter.events[synced..];
      var plan := pending[0];
      var data := executor.project(value.data);
      WaitingDiffer(origin, v, plans);
      AnswerFirst(origin, v, seg, plans, value.provider, data, 0);
      assert emitter.events == v.events + seg;
      pending := pending[1..];
      assert forall i :: 0 <= i < |pending| ==> pending[i] == plans[i + 1];
      Conclude(plan, data, executor.lastSequence.value, v, plans);
    }

    /** One iteration of the tool loop. When the executor raises, its result may already be stored. */
    method ExecuteNext() returns (r: Result<Status, Exn>)
      requires InTurn() && pending != [] && budget.toolCalls < budget.maxToolCalls
      modifies this`pending, this`groups, this`open, this`synced, budget`toolCalls,
               emitter, context`entries, executor, registry, port
      ensures QuietGrowth(old(emitter.events), emitter.events)
      ensures emitter.failures >= old(emitter.failures) && lost == old(lost)
      ensures budget.toolCalls == old(budget.toolCalls) + 1
      ensures r.Ok? ==> InTurn() && pending == old(pending)[1..] && (pending == [] && lost == [] ==> open == [])
      ensures r.Err? ==> (InTurn() || Unconsumed()) && pending == old(pending) && open == old(open)
      ensures r.Err? ==> (r.error.External() && !r.error.IsException())
                         || (r.error.StoreFault? && emitter.failures > old(emitter.failures))
    {
      hide Consistent, Sound, Tracked, Consumed;
      var result :- RunFirst();
      TakeResult(result);
      return Ok(result.data.status);
    }

    /** A result stored while an exception unwound the execution is consumed before the rest of the
        calls is skipped. */
    method ConsumePublished()
      requires InTurn() || Unconsumed()
      modifies this`pending, this`groups, this`open, context`entries
      ensures InTurn() && lost == old(lost)
      ensures old(Unconsumed()) ==> pending == old(pending)[1..] && (pending == [] && lost == [] ==> open == [])
      ensures !old(Unconsumed()) ==> pending == old(pending) && open == old(open)
    {
      hide Consistent, Sound, Tracked, CallTrace;
      if pending == [] || !executor.lastPublished {
        return;
      }
      var value := executor.lastResult.value;
      if value.correlation != pending[0].correlation {
        return;
      }
      TakeResult(value);
    }

    // -------------------------------------------------------------- preparing a request

    /** The stored messages always split into complete groups: the builder never refuses them. */
    lemma ContextGroups()
      requires Tracked() && open == []
      ensures Grouped(context.entries) == Ok(groups) && AllComplete(groups)
    {
      GroupedExactly(context.entries, groups);
      assert Flatten(groups) + [] == Flatten(groups);
    }

    method CheckInterrupt() returns (r: Result<(), Exn>)
      modifies cancellation
      ensures r.Err? ==> r.error == CancellationRequested && cancellation.cancelled
    {
      var cancelled := cancellation.IsCancelled();
      return if cancelled then Err(CancellationRequested) else Ok(());
    }

    method CheckPreparation() returns (r: Result<(), Exn>)
      modifies cancellation
      ensures r.Err? ==> r.error == LoopLimit(WallTime) || (r.error == CancellationRequested && cancellation.cancelled)
    {
      var checked :- CheckInterrupt();
      var passed := budget.DeadlinePassed();
      return if passed then Err(LoopLimit(WallTime)) else Ok(());
    }

    /** Store a compaction record, or put the context fields back. */
    method EmitCompaction(outcome: Outcome, degraded: Option<nat>, previous: (Option<string>, nat, nat, Option<string>),
                          ghost v: View)
      returns (r: Result<(), Exn>)
      requires Sound(PlanIds(pending)) && Consumed() && turnActive && !sessionClosed
      requires v == Now().(summary := previous.0, covered := previous.1, degraded := previous.2, notice := previous.3)
      requires Consistent(origin, v) && context.entries == v.Entries()
      requires var e := Compaction(outcome.succeeded, outcome.forced, outcome.sourceStart, outcome.sourceEnd,
                                   context.covered, degraded, outcome.summary);
               && Sane(emitter.registered, e, |emitter.events|) && (emitter.clean ==> Legal(emitter.events, e))
               && Consistent(origin, Now().(events := emitter.events + [e]))
      requires outcome.succeeded ==> context.covered > previous.1
      modifies emitter, context
      ensures InTurn() && QuietGrowth(old(emitter.events), emitter.events)
      ensures r.Ok? ==>
                && context.Cuts() == old(context.Cuts()) && emitter.failures == old(emitter.failures)
                && emitter.events == old(emitter.events)
                  + [Compaction(outcome.succeeded, outcome.forced, outcome.sourceStart, outcome.sourceEnd,
                                context.covered, degraded, outcome.summary)]
      ensures r.Err? ==> context.Cuts() == previous && r.error == StoreFault && emitter.failures > old(emitter.failures)
    {
      hide Consistent, Ledger, Legal, Sane, executor.WriteAhead, model.AllFit, emitter.Valid;
      var e := Compaction(outcome.succeeded, outcome.forced, outcome.sourceStart, outcome.sourceEnd,
                          context.covered, degraded, outcome.summary);
      LoggedCoverage(origin, v);
      LedgerNeutral(emitter.events, e, Accounts(PlanIds(pending)));
      var stored := Emit(e);
      if stored.Err? {
        LedgerFailed(emitter.events, old(Accounts(PlanIds(pending))), emitter.failures);
        context.summary, context.covered := previous.0, previous.1;
        context.degraded, context.notice := previous.2, previous.3;
        assert Now() == v;
        return Err(stored.error);
      }
      assert context.entries == Now().Entries();
      return Ok(());
    }

    /** The groups that end no later than the source, or at least the first one. */
    method FallbackGroups(source: seq<Group>, end: nat) returns (selected: seq<Group>)
      requires NonEmpty(source) && source != []
      ensures NonEmpty(selected) && selected != []
      ensures selected[|selected| - 1] in source
      ensures LastThrough(source, end, selected)
              || (selected == [source[0]] && forall g :: g in source ==> EndSequence(g) > end)
    {
      selected := [];
      ghost var last: nat := 0;
      for i := 0 to |source|
        invariant NonEmpty(selected)
        invariant selected == [] ==> forall j :: 0 <= j < i ==> EndSequence(source[j]) > end
        invariant selected != [] ==>
                    last < i && source[last] == selected[|selected| - 1] && EndSequence(source[last]) <= end
        invariant selected != [] ==> forall j :: last < j < i ==> EndSequence(source[j]) > end
      {
        if EndSequence(source[i]) <= end {
          selected, last := selected + [source[i]], i;
        }
      }
      if selected == [] {
        selected := [source[0]];
      } else {
        assert selected[|selected| - 1] == source[last];
      }
    }

    /** The record of a summary that the compactor has put into the context. */
    method StoreSummary(plan: Plan, outcome: Outcome, previous: (Option<string>, nat, nat, Option<string>),
                        ghost v: View)
      returns (r: Result<bool, Exn>)
      requires Sound(PlanIds(pending)) && Consumed() && turnActive && !sessionClosed && open == []
      requires Consistent(origin, v) && context.entries == v.Entries() && PlanOf(v, plan)
      requires v == Now().(summary := previous.0, covered := previous.1, degraded := previous.2, notice := previous.3)
      requires outcome.succeeded && outcome.summary.Some?
      requires context.Cuts() == (outcome.summary, outcome.sourceEnd, 0, None)
      requires EndsIn(plan, outcome.sourceEnd)
      modifies emitter, context, cancellation
      ensures InTurn() && QuietGrowth(old(emitter.events), emitter.events)
      ensures context.covered >= previous.1 && emitter.failures >= old(emitter.failures)
      ensures r.Ok? ==>
                && r.value && context.covered > previous.1
                && SummaryStored(old(emitter.events), emitter.events, outcome, context.Cuts())
      ensures r.Err? ==> PreparationFault(r.error) && !r.error.WindowExceeded?
      ensures r.Err? && r.error == StoreFault ==> emitter.failures > old(emitter.failures)
    {
      hide Consistent, Tracked, Consumed, Ledger, executor.WriteAhead, emitter.Valid, model.AllFit;
      SummaryRecord(origin, v, plan, outcome);
      var stored :- EmitCompaction(outcome, None, previous, v);
      var checked :- CheckPreparation();
      return Ok(true);
    }

    /** The groups that a failed compaction leaves out, and the record that says so. */
    method StoreFailure(plan: Plan, outcome: Outcome, previous: (Option<string>, nat, nat, Option<string>),
                        ghost v: View)
      returns (r: Result<bool, Exn>)
      requires InTurn() && open == [] && v == Now() && previous == context.Cuts()
      requires PlanOf(v, plan) && !outcome.succeeded && EndsIn(plan, outcome.sourceEnd)
      modifies emitter, context, cancellation
      ensures InTurn() && QuietGrowth(old(emitter.events), emitter.events)
      ensures context.covered == old(context.covered) && emitter.failures >= old(emitter.failures)
      ensures r.Ok? ==>
                !r.value && FailureStored(old(emitter.events), emitter.events, outcome, previous, context.Cuts())
      ensures r.Err? ==> PreparationFault(r.error) && !r.error.WindowExceeded?
      ensures r.Err? && r.error == StoreFault ==> emitter.failures > old(emitter.failures)
    {
      hide Consistent, Consumed, Ledger, executor.WriteAhead, emitter.Valid, model.AllFit;
      var selected := FallbackGroups(plan.groups, outcome.sourceEnd);
      var fallback := plan.(groups := selected);
      SelectedThrough(origin, v, plan, selected, outcome.sourceEnd);
      DegradedRecord(origin, v, plan, fallback, outcome);
      builder.ApplyDegradedFallback(context, fallback);
      assert Sound(PlanIds(pending)) && Consumed();
      var stored :- EmitCompaction(outcome, Some(context.degraded), previous, v);
      var checked :- CheckPreparation();
      return Ok(false);
    }

    /** What was summarised are the n oldest groups past the old coverage, in one request that carries the
        old summary, and the coverage now ends with the last of them. */
    ghost predicate SourceRead(n: nat, summary: Option<string>, covered: nat, sent: seq<Sent>)
      reads this, context, model
    {
      && NonEmpty(groups)
      && var eligible := GroupsAbove(groups, covered);
         && 1 <= n < |eligible| && context.covered == EndSequence(eligible[n - 1])
         && model.sent == sent + [Sent.Sent(compactor.MessagesFor(summary, eligible[..n]), 0)]
    }

    /** The same for the groups of a plan. */
    ghost predicate PlanRead(n: nat, plan: Plan, end: nat, sent: seq<Sent>)
      reads model
    {
      && 1 <= n <= |plan.groups| && plan.groups[..n][n - 1] != [] && end == EndSequence(plan.groups[..n][n - 1])
      && model.sent == sent + [Sent.Sent(compactor.MessagesFor(plan.oldSummary, plan.groups[..n]), 0)]
    }

    method Attempt(plan: Plan) returns (r: Result<Outcome, Exn>)
      requires plan.Valid() && Wired()
      modifies context, model
      ensures |model.sent| <= |old(model.sent)| + 1 && old(model.sent) <= model.sent
      ensures old(model.AllFit()) ==> model.AllFit()
      ensures context.entries == old(context.entries)
      ensures r.Err? ==> context.Cuts() == old(context.Cuts()) && r.error.External() && !r.error.IsException()
      ensures r.Ok? ==> r.value.forced == plan.forced && EndsIn(plan, r.value.sourceEnd)
      ensures r.Ok? && r.value.succeeded ==>
                && r.value.summary.Some? && context.Cuts() == (r.value.summary, r.value.sourceEnd, 0, None)
                && exists n :: PlanRead(n, plan, r.value.sourceEnd, old(model.sent))
      ensures r.Ok? && !r.value.succeeded ==> context.Cuts() == old(context.Cuts())
    {
      r := compactor.Compact(context, plan);
      if r.Ok? && r.value.succeeded {
        ghost var n :| 1 <= n <= |plan.groups| && r.value.sourceEnd == EndSequence(plan.groups[..n][n - 1])
          && model.sent == old(model.sent) + [Sent.Sent(compactor.MessagesFor(plan.oldSummary, plan.groups[..n]), 0)];
        assert PlanRead(n, plan, r.value.sourceEnd, old(model.sent));
      }
    }

    /** The record of a summary, and what was read for it. */
    method StoreRead(plan: Plan, outcome: Outcome, previous: (Option<string>, nat, nat, Option<string>),
                     ghost v: View, ghost sent: seq<Sent>)
      returns (r: Result<bool, Exn>)
      requires Sound(PlanIds(pending)) && Consumed() && turnActive && !sessionClosed && open == []
      requires Consistent(origin, v) && context.entries == v.Entries() && PlanOf(v, plan)
      requires v == Now().(summary := previous.0, covered := previous.1, degraded := previous.2, notice := previous.3)
      requires outcome.succeeded && outcome.summary.Some?
      requires context.Cuts() == (outcome.summary, outcome.sourceEnd, 0, None)
      requires EndsIn(plan, outcome.sourceEnd) && plan.oldSummary == previous.0
      requires exists n :: PlanRead(n, plan, outcome.sourceEnd, sent)
      modifies emitter, context, cancellation
      ensures InTurn() && QuietGrowth(old(emitter.events), emitter.events)
      ensures context.covered >= previous.1 && emitter.failures >= old(emitter.failures)
      ensures r.Ok? ==>
                && r.value && context.covered > previous.1
                && SummaryStored(old(emitter.events), emitter.events, outcome, context.Cuts())
                && exists n :: SourceRead(n, previous.0, previous.1, sent)
      ensures r.Err? ==> PreparationFault(r.error) && !r.error.WindowExceeded?
      ensures r.Err? && r.error == StoreFault ==> emitter.failures > old(emitter.failures)
    {
      hide Consistent, Sound, Tracked, Consumed;
      ghost var n :| PlanRead(n, plan, outcome.sourceEnd, sent);
      PlannedSource(v, plan, n);
      hide PlanOf;
      r := StoreSummary(plan, outcome, previous, v);
      assert r.Ok? ==> SourceRead(n, previous.0, previous.1, sent);
    }

    /** One compaction attempt: true exactly when a summary is stored. */
    method CompactOnce(forced: bool) returns (r: Result<bool, Exn>)
      requires InTurn() && open == []
      modifies context, emitter, model, cancellation
      ensures InTurn() && QuietGrowth(old(emitter.events), emitter.events)
      ensures context.covered >= old(context.covered)
      ensures r == Ok(true) ==>
                && context.covered > old(context.covered)
                && (exists n :: SourceRead(n, old(context.summary), old(context.covered), old(model.sent)))
                && exists outcome: Outcome ::
                     && outcome.forced == forced
                     && SummaryStored(old(emitter.events), emitter.events, outcome, context.Cuts())
      ensures r == Ok(false) ==>
                || (emitter.events == old(emitter.events) && context.Cuts() == old(context.Cuts()))
                || exists outcome: Outcome ::
                     && outcome.forced == forced
                     && FailureStored(old(emitter.events), emitter.events, outcome, old(context.Cuts()), context.Cuts())
      ensures |model.sent| <= |old(model.sent)| + 1 && old(model.sent) <= model.sent
      ensures emitter.failures >= old(emitter.failures)
      ensures r.Err? ==> PreparationFault(r.error) && !r.error.WindowExceeded?
      ensures r.Err? && r.error == StoreFault ==> emitter.failures > old(emitter.failures)
    {
      hide Consistent, Ledger, PlanOf, SourceRead, SummaryStored, FailureStored, executor.WriteAhead, emitter.Valid,
        model.AllFit;
      ghost var v := Now();
      var checked :- CheckPreparation();
      var planned := PlanNext(forced);
      if planned.None? {
        return Ok(false);
      }
      var previous := context.Cuts();
      var compacted := Attempt(planned.value);
      if compacted.Err? {
        return Err(compacted.error);
      }
      if compacted.value.succeeded {
        r := StoreRead(planned.value, compacted.value, previous, v, old(model.sent));
      } else {
        r := StoreFailure(planned.value, compacted.value, previous, v);
      }
    }

    method PlanNext(forced: bool) returns (plan: Option<Plan>)
      requires InTurn() && open == []
      ensures plan.Some? ==>
                && plan.value.Valid() && PlanOf(Now(), plan.value) && plan.value.forced == forced
                && plan.value.oldSummary == context.summary
      ensures plan.None? <==> |GroupsAbove(groups, context.covered)| <= if forced then 1 else builder.keepRecent
    {
      hide Consistent, Ledger, executor.WriteAhead, emitter.Valid, model.AllFit;
      ContextGroups();
      var planned := builder.PlanCompaction(context, forced);
      return planned.value;
    }

    /** The request for the live context. */
    ghost function Request(): seq<Msg>
      requires NonEmpty(groups)
      reads this, context
    {
      RequestMessages(builder.prompt, context.summary, context.covered, context.notice,
                      GroupsAbove(groups, context.Cutoff()))
    }

    /** Even after compaction the request is larger than the size at which compaction starts. */
    ghost predicate Oversized()
      reads this, context
    {
      NonEmpty(groups) && builder.Valid() && builder.Total(Request(), tools) > builder.Trigger()
    }

    method Projection() returns (p: Projected)
      requires InTurn() && open == []
      ensures NonEmpty(groups) && p.messages == Request() && p.total == builder.Total(p.messages, tools)
      ensures p.total > builder.Trigger() || p.total > builder.window.size ==> Oversized()
    {
      hide Consistent, Ledger, executor.WriteAhead, emitter.Valid, model.AllFit;
      ContextGroups();
      var projected := builder.Project(context, tools);
      return projected.value;
    }

    /** The projection, if it is no larger than the window, or than the size at which compaction starts. */
    method Bounded(whole: bool) returns (r: Result<seq<Msg>, Exn>)
      requires InTurn() && open == []
      ensures r.Ok? ==> NonEmpty(groups) && r.value == Request() && model.window.Fits(r.value, tools)
      ensures r.Err? ==> r.error.WindowExceeded? && Oversized()
    {
      hide Consistent, Ledger, executor.WriteAhead, emitter.Valid, model.AllFit, Request;
      var size := if whole then builder.window.size else builder.Trigger();
      var projection := Projection();
      return if projection.total > size then Err(WindowExceeded) else Ok(projection.messages);
    }

    /** What is sent next: the projection of the live context, made to fit the window. */
    method PrepareContext(forced: bool) returns (r: Result<seq<Msg>, Exn>)
      requires InTurn() && open == []
      modifies context, emitter, model, cancellation
      ensures InTurn() && QuietGrowth(old(emitter.events), emitter.events)
      ensures context.covered >= old(context.covered) && emitter.failures >= old(emitter.failures)
      ensures |model.sent| <= |old(model.sent)| + if forced then 1 else maxCompactions
      ensures old(model.sent) <= model.sent
      ensures r.Ok? ==> NonEmpty(groups) && r.value == Request() && model.window.Fits(r.value, tools)
      ensures r.Err? ==> PreparationFault(r.error) && (r.error.WindowExceeded? ==> Oversized())
      ensures r.Err? && r.error == StoreFault ==> emitter.failures > old(emitter.failures)
    {
      hide InTurn, Request, Oversized, SummaryStored, FailureStored, SourceRead;
      var checked :- CheckPreparation();
      if forced {
        var compacted :- CompactOnce(true);
        r := Bounded(true);
        return;
      }
      for attempt := 0 to maxCompactions
        invariant InTurn() && QuietGrowth(old(emitter.events), emitter.events)
        invariant context.covered >= old(context.covered) && emitter.failures >= old(emitter.failures)
        invariant |model.sent| <= |old(model.sent)| + attempt && old(model.sent) <= model.sent
      {
        checked :- CheckPreparation();
        var projection := Bounded(false);
        if projection.Ok? {
          return projection;
        }
        var compacted :- CompactOnce(false);
        if !compacted {
          r := Bounded(true);
          return;
        }
      }
      r := Bounded(false);
    }

    /** A record that replay and the context ignore. */
    method EmitNeutral(e: Event) returns (r: Result<(), Exn>)
      requires InTurn() && Neutral(e) && !e.SessionEnd?
      modifies emitter
      ensures InTurn()
      ensures r.Ok? ==> emitter.events == old(emitter.events) + [e] && emitter.failures == old(emitter.failures)
      ensures r.Err? ==>
                && r.error == StoreFault
                && emitter.events == old(emitter.events) && emitter.failures > old(emitter.failures)
    {
      hide Consistent, Ledger, executor.WriteAhead, emitter.Valid, model.AllFit;
      ghost var v := Now();
      NeutralStep(origin, v, [e]);
      LedgerNeutral(emitter.events, e, Accounts(PlanIds(pending)));
      var stored := Emit(e);
      if stored.Err? {
        LedgerFailed(emitter.events, old(Accounts(PlanIds(pending))), emitter.failures);
        return Err(stored.error);
      }
      return Ok(());
    }

    method Send(messages: seq<Msg>) returns (r: Result<Response, Exn>)
      requires InTurn() && model.window.Fits(messages, tools)
      modifies model, cancellation
      ensures InTurn() && model.sent <= old(model.sent) + [Sent.Sent(messages, tools)] && old(model.sent) <= model.sent
      ensures r.Ok? ==> Normalized(r.value.calls) && model.sent == old(model.sent) + [Sent.Sent(messages, tools)]
      ensures r.Err? ==>
                && !r.error.StoreFault? && !r.error.WindowExceeded?
                && (PreparationFault(r.error) || r.error.External())
    {
      hide Consistent, Ledger, Tracked, Consumed, executor.WriteAhead, emitter.Valid, Normalized;
      var checked :- CheckPreparation();
      r := model.Complete(messages, tools);
    }

    /** One model step, with at most one forced compaction and one more attempt after an overflow. */
    method CompleteModelRequest() returns (r: Result<Response, Exn>)
      requires InTurn() && open == []
      modifies context, emitter, model, cancellation
      ensures InTurn() && QuietGrowth(old(emitter.events), emitter.events)
      ensures context.covered >= old(context.covered) && emitter.failures >= old(emitter.failures)
      ensures |model.sent| <= |old(model.sent)| + maxCompactions + 3 && old(model.sent) <= model.sent
      ensures r.Ok? ==>
                && Normalized(r.value.calls) && NonEmpty(groups)
                && |model.sent| > 0 && model.sent[|model.sent| - 1] == Sent.Sent(Request(), tools)
      ensures r.Err? ==> PreparationFault(r.error) || r.error.External()
      ensures r.Err? && r.error.WindowExceeded? ==> Oversized()
      ensures r.Err? && r.error == StoreFault ==> emitter.failures > old(emitter.failures)
    {
      hide InTurn, Request, Oversized, Normalized, model.window.Fits;
      var messages :- PrepareContext(false);
      r := Send(messages);
      if r.Ok? || !r.error.ModelFault? || !r.error.overflow {
        return;
      }
      var retried :- EmitNeutral(Retry);
      var forced :- PrepareContext(true);
      r := Send(forced);
    }

    // -------------------------------------------------------------- ending a turn

    /** Best effort: a refused end record does not hide the turn's result. */
    method FinishSession(ended: RunState)
      requires Sound(PlanIds(pending)) && Tracked() && Consumed()
      modifies emitter, `sessionClosed
      ensures Valid() && sessionClosed
      ensures old(emitter.events) <= emitter.events && emitter.failures >= old(emitter.failures)
      ensures old(sessionClosed) ==> emitter.events == old(emitter.events)
      ensures !old(sessionClosed) && emitter.failures == old(emitter.failures) ==>
                emitter.events == old(emitter.events)
                                  + [AgentEnd(ended, budget.Snapshot()), SessionEnd(ended, budget.Snapshot())]
    {
      hide Consistent, Ledger, executor.WriteAhead, emitter.Valid, model.AllFit;
      if sessionClosed {
        return;
      }
      ghost var v, failures := Now(), emitter.failures;
      var agentEnd := AgentEnd(ended, budget.Snapshot());
      var sessionEnd := SessionEnd(ended, budget.Snapshot());
      var first := Emit(agentEnd);
      ghost var middle := emitter.events;
      assert middle == v.events + if first.Ok? then [agentEnd] else [];
      EndRecorded(origin, v, middle, agentEnd, old(Accounts(PlanIds(pending))), emitter.failures);
      ghost var u, again := Now(), Accounts(PlanIds(pending));
      var second := Emit(sessionEnd);
      EndRecorded(origin, u, emitter.events, sessionEnd, again, emitter.failures);
      sessionClosed := true;
      LedgerClosed(middle, emitter.events, sessionEnd, again, emitter.failures);
    }

    ghost predicate LimitHolds(limit: Limit)
      reads this, budget, context
    {
      match limit
      case ModelSteps => budget.modelSteps >= budget.maxSteps
      case ToolCalls => budget.toolCalls >= budget.maxToolCalls
      case ProtocolErrors => budget.protocolErrors >= budget.maxProtocolErrors
      case WallTime => true
      case ContextWindow => Oversized()
    }

    /** The loop's own records answer every call they declare, exactly once and in order. */
    ghost predicate AllAnswered()
      reads this, emitter
    {
      && base <= |emitter.events| && InOrder(emitter.events, base)
      && Declared(emitter.events[base..]) == Answered(emitter.events[base..])
      && Distinct(Declared(emitter.events[base..]))
    }

    /** How an accepted turn ends. Without a refused record the log closes the turn and every call that
        this loop declared in any turn is answered exactly once. */
    ghost predicate Finished(t: TurnResult, before: seq<Event>, failures: nat)
      reads this, emitter, budget, context, model, executor, registry, port, cancellation
    {
      && Valid() && !turnActive && state == t.state
      && (sessionClosed <==> t.state != CompletedTurn)
      && before <= emitter.events && emitter.failures >= failures
      && (emitter.failures == failures ==> open == [] && Closing(before, emitter.events, t.state, asked)
                                           && RecoveredBudget(emitter.events) == budget.Snapshot())
      && (open == [] ==> AllAnswered())
      && (t.limit.Some? <==> t.state == LimitReached) && (t.limit.Some? ==> LimitHolds(t.limit.value))
      && (t.state == Interrupted ==> cancellation.cancelled)
      && (t.state == CompletedTurn ==> Completed())
    }

    /** The turn ended on a reply with text and without calls. */
    ghost predicate Completed()
      reads this, emitter
    {
      var n := |emitter.events|;
      n >= 2 && emitter.events[n - 2] == AssistantMessage(lastText, []) && lastText != ""
    }

    /** The user's message stands in the log of this turn. */
    ghost predicate Said(from: nat)
      reads this, emitter
    {
      exists i :: from <= i < |emitter.events| && emitter.events[i] == UserMessage(asked)
    }

    /** What is left of a turn that raises. */
    ghost predicate Raised(before: seq<Event>, failures: nat)
      reads this, emitter, budget, context, model, executor, registry, port
    {
      && (InTurn() || Unconsumed())
      && TurnGrowth(before, emitter.events, asked) && emitter.failures >= failures
      && (emitter.failures == failures ==> lost == [])
      && (pending == [] && lost == [] ==> open == [])
    }

    method BestEffort(e: Event)
      requires InTurn() && Neutral(e) && !e.SessionEnd?
      modifies emitter
      ensures InTurn()
      ensures StoredOrRefused(old(emitter.events), emitter.events, e, old(emitter.failures), emitter.failures)
    {
      hide Consistent, Sound, Tracked, Consumed;
      var stored := EmitNeutral(e);
    }

    /** The turn is over and the session with it. */
    method Terminate(ended: RunState)
      requires InTurn() && ended != CompletedTurn
      modifies this`turnActive, this`state, this`sessionClosed, emitter
      ensures Valid() && !turnActive && sessionClosed && state == ended
      ensures old(emitter.events) <= emitter.events && emitter.failures >= old(emitter.failures)
      ensures emitter.failures == old(emitter.failures) ==>
                emitter.events == old(emitter.events)
                                  + [AgentEnd(ended, budget.Snapshot()), SessionEnd(ended, budget.Snapshot())]
    {
      hide Consistent, Ledger, executor.WriteAhead, emitter.Valid, model.AllFit;
      turnActive := false;
      state := ended;
      FinishSession(ended);
    }

    method EndTurn(ended: RunState, limit: Option<Limit>, ghost before: seq<Event>, ghost failures: nat)
      returns (r: Result<TurnResult, Exn>)
      requires InTurn() && open == [] && TurnGrowth(before, emitter.events, asked) && emitter.failures >= failures
      requires ended == CompletedTurn || ended == LimitReached
      requires (limit.Some? <==> ended == LimitReached) && (limit.Some? ==> LimitHolds(limit.value))
      requires ended == CompletedTurn ==>
                 && emitter.events != [] && lastText != ""
                 && emitter.events[|emitter.events| - 1] == AssistantMessage(lastText, [])
      modifies this`turnActive, this`state, this`sessionClosed, emitter
      ensures old(emitter.events) <= emitter.events
      ensures r.Ok? ==> r.value == TurnResult(ended, limit) && Finished(r.value, before, failures)
      ensures r.Err? ==>
                && InTurn() && r.error == StoreFault
                && emitter.events == old(emitter.events) && emitter.failures > old(emitter.failures)
    {
      hide Consistent, Ledger, Closing, AllAnswered, executor.WriteAhead, emitter.Valid, model.AllFit;
      ghost var start := emitter.events;
      var turnEnd := TurnEnd(ended, budget.Snapshot());
      var stored :- EmitNeutral(turnEnd);
      if ended == CompletedTurn {
        turnActive := false;
        state := ended;
      } else {
        Terminate(ended);
      }
      if emitter.failures == failures {
        ClosingBuilt(before, start, emitter.events, turnEnd, asked);
      }
      ClosedIfResting();
      return Ok(TurnResult(ended, limit));
    }

    method LimitResult(limit: Limit, ghost before: seq<Event>, ghost failures: nat) returns (r: Result<TurnResult, Exn>)
      requires InTurn() && open == [] && TurnGrowth(before, emitter.events, asked) && emitter.failures >= failures
      requires LimitHolds(limit)
      modifies this`turnActive, this`state, this`sessionClosed, emitter
      ensures old(emitter.events) <= emitter.events
      ensures r.Ok? ==> r.value == TurnResult(LimitReached, Some(limit)) && Finished(r.value, before, failures)
      ensures r.Err? ==>
                && InTurn() && r.error == StoreFault
                && emitter.events == old(emitter.events) && emitter.failures > old(emitter.failures)
    {
      hide InTurn, Finished, LimitHolds;
      r := EndTurn(LimitReached, Some(limit), before, failures);
    }

    method FailedResult(ghost before: seq<Event>, ghost failures: nat) returns (t: TurnResult)
      requires InTurn() && TurnGrowth(before, emitter.events, asked) && emitter.failures >= failures
      requires emitter.failures == failures ==> open == []
      modifies this`turnActive, this`state, this`sessionClosed, emitter
      ensures old(emitter.events) <= emitter.events
      ensures t == TurnResult(Failed, None) && Finished(t, before, failures)
    {
      hide Consistent, Ledger, Closing, AllAnswered, executor.WriteAhead, emitter.Valid, model.AllFit;
      BestEffort(ErrorEvent);
      ghost var start := emitter.events;
      var turnEnd := TurnEnd(Failed, budget.Snapshot());
      BestEffort(turnEnd);
      Terminate(Failed);
      if emitter.failures == failures {
        ClosingBuilt(before, start, emitter.events, turnEnd, asked);
      }
      ClosedIfResting();
      return TurnResult(Failed, None);
    }

    method InterruptedResult(ghost before: seq<Event>, ghost failures: nat) returns (t: TurnResult)
      requires InTurn() && TurnGrowth(before, emitter.events, asked) && emitter.failures >= failures
      requires emitter.failures == failures ==> open == []
      requires cancellation.cancelled
      modifies this`turnActive, this`state, this`sessionClosed, emitter
      ensures old(emitter.events) <= emitter.events
      ensures t == TurnResult(Interrupted, None) && Finished(t, before, failures)
    {
      hide Consistent, Ledger, Closing, AllAnswered, executor.WriteAhead, emitter.Valid, model.AllFit;
      ghost var start := emitter.events;
      var turnEnd := TurnEnd(Interrupted, budget.Snapshot());
      BestEffort(turnEnd);
      Terminate(Interrupted);
      if emitter.failures == failures {
        ClosingBuilt(before, start, emitter.events, turnEnd, asked);
      }
      ClosedIfResting();
      return TurnResult(Interrupted, None);
    }

    // -------------------------------------------------------------- a turn

    /** The environment may refuse to start. */
    method StartSession() returns (r: Result<(), Exn>)
      requires InTurn()
      modifies `sessionStarted, emitter
      ensures InTurn() && QuietGrowth(old(emitter.events), emitter.events) && emitter.failures >= old(emitter.failures)
      ensures r.Err? ==> r.error.External() || (r.error == StoreFault && emitter.failures > old(emitter.failures))
    {
      hide Consistent, Ledger, executor.WriteAhead, emitter.Valid, model.AllFit;
      if sessionStarted {
        return Ok(());
      }
      var fails: bool := *;
      if fails {
        var x := AnyFault();
        return Err(x);
      }
      var started :- EmitNeutral(SessionStart);
      started :- EmitNeutral(AgentStart);
      sessionStarted := true;
      return Ok(());
    }

    method CurrentLimit() returns (limit: Option<Limit>)
      ensures limit.Some? ==> LimitHolds(limit.value) && limit.value in {ModelSteps, ProtocolErrors, WallTime}
      ensures limit.None? ==>
                && budget.modelSteps < budget.maxSteps
                && (budget.protocolErrors == 0 || budget.protocolErrors < budget.maxProtocolErrors)
    {
      if budget.modelSteps >= budget.maxSteps {
        return Some(ModelSteps);
      }
      if budget.protocolErrors > 0 && budget.protocolErrors >= budget.maxProtocolErrors {
        return Some(ProtocolErrors);
      }
      var passed := budget.DeadlinePassed();
      return if passed then Some(WallTime) else None;
    }

    method SkipThenLimit(reason: string, limit: Limit, ghost before: seq<Event>, ghost failures: nat)
      returns (r: Result<TurnResult, Exn>)
      requires InTurn() && TurnGrowth(before, emitter.events, asked) && emitter.failures >= failures
      requires lost == [] && (pending == [] ==> open == []) && LimitHolds(limit) && !limit.ContextWindow?
      modifies this`pending, this`groups, this`open, this`lost, this`synced, this`turnActive, this`state,
               this`sessionClosed, emitter, context`entries, executor
      ensures old(emitter.events) <= emitter.events
      ensures r.Ok? ==> r.value == TurnResult(LimitReached, Some(limit)) && Finished(r.value, before, failures)
      ensures r.Err? ==> r.error == StoreFault && Raised(before, failures)
    {
      hide Consistent, Sound, Tracked, Consumed, Finished;
      var skipped :- SkipPending(reason, Denied);
      r := LimitResult(limit, before, failures);
    }

    method SkipThenInterrupt(ghost before: seq<Event>, ghost failures: nat) returns (r: Result<TurnResult, Exn>)
      requires InTurn() && TurnGrowth(before, emitter.events, asked) && emitter.failures >= failures
      requires lost == [] && (pending == [] ==> open == []) && cancellation.cancelled
      modifies this`pending, this`groups, this`open, this`lost, this`synced, this`turnActive, this`state,
               this`sessionClosed, emitter, context`entries, executor
      ensures old(emitter.events) <= emitter.events
      ensures r.Ok? ==> r.value == TurnResult(Interrupted, None) && Finished(r.value, before, failures)
      ensures r.Err? ==> r.error == StoreFault && Raised(before, failures)
    {
      hide Consistent, Sound, Tracked, Consumed, Finished;
      var skipped :- SkipPending("interrupted", Cancelled);
      var t := InterruptedResult(before, failures);
      return Ok(t);
    }

    method RecordOutcome(status: Status)
      requires InTurn()
      modifies budget`protocolErrors
      ensures InTurn()
      ensures budget.protocolErrors == if status == Invalid then old(budget.protocolErrors) + 1 else 0
    {
      hide Consistent, Ledger, executor.WriteAhead, emitter.Valid, model.AllFit;
      budget.protocolErrors := if status == Invalid then budget.protocolErrors + 1 else 0;
    }

    /** One declared call, with the checks around it; None goes on to the next. */
    method RunNext(ghost before: seq<Event>, ghost failures: nat) returns (r: Result<Option<TurnResult>, Exn>)
      requires InTurn() && TurnGrowth(before, emitter.events, asked) && emitter.failures >= failures
      requires pending != [] && lost == []
      modifies this`pending, this`groups, this`open, this`lost, this`synced, this`turnActive, this`state,
               this`sessionClosed, budget`toolCalls, budget`protocolErrors, emitter, context`entries, executor,
               registry, port, cancellation
      ensures old(emitter.events) <= emitter.events
      ensures r.Ok? && r.value.Some? ==> Finished(r.value.value, before, failures)
      ensures r.Ok? && r.value.None? ==>
                && InTurn() && TurnGrowth(before, emitter.events, asked) && emitter.failures >= failures
                && pending == old(pending)[1..] && lost == [] && (pending == [] ==> open == [])
                && budget.protocolErrors < budget.maxProtocolErrors
      ensures r.Err? ==> Raised(before, failures) && !r.error.LoopLimit? && !r.error.WindowExceeded?
    {
      hide Consistent, Sound, Tracked, Consumed, Finished;
      var checked :- CheckInterrupt();
      var passed := budget.DeadlinePassed();
      if passed {
        var t :- SkipThenLimit("wall_time", WallTime, before, failures);
        return Ok(Some(t));
      }
      if budget.toolCalls >= budget.maxToolCalls {
        var t :- SkipThenLimit("tool_calls", ToolCalls, before, failures);
        return Ok(Some(t));
      }
      var status :- ExecuteNext();
      RecordOutcome(status);
      var cancelled := cancellation.IsCancelled();
      if cancelled {
        var t :- SkipThenInterrupt(before, failures);
        return Ok(Some(t));
      }
      if budget.protocolErrors >= budget.maxProtocolErrors {
        var t :- SkipThenLimit("protocol_errors", ProtocolErrors, before, failures);
        return Ok(Some(t));
      }
      return Ok(None);
    }

    /** The loop over the declared calls. It goes on to another model step only below the protocol error
        limit, which a limit of zero never is, even without any protocol error. */
    method RunTools(ghost before: seq<Event>, ghost failures: nat) returns (r: Result<Option<TurnResult>, Exn>)
      requires InTurn() && TurnGrowth(before, emitter.events, asked) && emitter.failures >= failures
      requires pending != [] && lost == []
      modifies this`pending, this`groups, this`open, this`lost, this`synced, this`turnActive, this`state,
               this`sessionClosed, budget`toolCalls, budget`protocolErrors, emitter, context`entries, executor,
               registry, port, cancellation
      ensures old(emitter.events) <= emitter.events
      ensures r.Ok? && r.value.Some? ==> Finished(r.value.value, before, failures)
      ensures r.Ok? && r.value.None? ==>
                && InTurn() && open == [] && TurnGrowth(before, emitter.events, asked) && emitter.failures >= failures
                && budget.protocolErrors < budget.maxProtocolErrors
      ensures r.Err? ==> Raised(before, failures) && !r.error.LoopLimit? && !r.error.WindowExceeded?
    {
      hide Sound, Tracked, Consumed, Finished, Raised, TurnGrowth;
      while pending != []
        invariant InTurn() && TurnGrowth(before, emitter.events, asked) && emitter.failures >= failures
        invariant lost == [] && (pending == [] ==> open == []) && old(emitter.events) <= emitter.events
        invariant pending == old(pending) || budget.protocolErrors < budget.maxProtocolErrors
        decreases |pending|
      {
        var step := RunNext(before, failures);
        if step.Err? || step.value.Some? {
          return step;
        }
      }
      return Ok(None);
    }

    method RecoverEmptyResponse() returns (r: Result<(), Exn>)
      requires InTurn() && open == []
      modifies budget`protocolErrors, emitter, context`entries, `groups
      ensures InTurn() && open == [] && QuietGrowth(old(emitter.events), emitter.events)
      ensures emitter.failures >= old(emitter.failures) && budget.protocolErrors == old(budget.protocolErrors) + 1
      ensures r.Err? ==> r.error == StoreFault && emitter.failures > old(emitter.failures)
    {
      hide Consistent, Ledger, executor.WriteAhead, emitter.Valid, model.AllFit;
      budget.protocolErrors := budget.protocolErrors + 1;
      r := EmitLone(EmptyResponse(budget.protocolErrors), System(PROTOCOL_NOTICE));
    }

    /** Ask the model, store its answer and declare its calls. */
    method Ask() returns (r: Result<Response, Exn>)
      requires InTurn() && open == [] && budget.modelSteps < budget.maxSteps
      modifies this`issued, this`pending, this`groups, this`open, this`lastText, budget`modelSteps,
               context, emitter, model, cancellation
      ensures InTurn() && QuietGrowth(old(emitter.events), emitter.events)
      ensures context.covered >= old(context.covered)
      ensures emitter.failures >= old(emitter.failures) && budget.modelSteps == old(budget.modelSteps) + 1
      ensures |model.sent| <= |old(model.sent)| + maxCompactions + 3
      ensures r.Ok? ==> Asked(r.value)
      ensures r.Err? ==> open == [] && (PreparationFault(r.error) || r.error.External())
      ensures r.Err? && r.error.WindowExceeded? ==> Oversized()
      ensures r.Err? && r.error == StoreFault ==> emitter.failures > old(emitter.failures)
    {
      hide InTurn, Asked, Normalized, Request, Oversized;
      StartStep();
      var response :- CompleteModelRequest();
      var stored :- StoreAnswer(response);
      return Ok(response);
    }

    method StartStep()
      requires InTurn() && budget.modelSteps < budget.maxSteps
      modifies budget`modelSteps
      ensures InTurn() && budget.modelSteps == old(budget.modelSteps) + 1
    {
      hide Consistent, Ledger, executor.WriteAhead, emitter.Valid, model.AllFit;
      budget.modelSteps := budget.modelSteps + 1;
    }

    /** The reply is stored, and its calls are waiting. */
    ghost predicate Asked(response: Response)
      reads this, emitter
    {
      && lost == [] && (open == [] <==> pending == []) && |pending| == |response.calls|
      && (response.calls == [] ==>
            && emitter.events != []
            && emitter.events[|emitter.events| - 1] == AssistantMessage(response.text, []))
      && (response.text != "" ==> lastText == response.text)
    }

    method StoreAnswer(response: Response) returns (r: Result<(), Exn>)
      requires InTurn() && open == [] && Normalized(response.calls)
      modifies this`issued, this`pending, this`groups, this`open, this`lastText, context`entries, emitter
      ensures InTurn() && QuietGrowth(old(emitter.events), emitter.events)
      ensures emitter.failures >= old(emitter.failures)
      ensures r.Ok? ==> Asked(response)
      ensures r.Err? ==> open == [] && r.error == StoreFault && emitter.failures > old(emitter.failures)
    {
      hide Consistent, Ledger, Normalized, WellPlanned, executor.WriteAhead, emitter.Valid, model.AllFit;
      var plans := PlanAnswer(response.calls);
      var declared :- Declare(response.text, plans, response.calls);
      assert response.calls == [] ==> Records(registry.registered, plans) == [];
      if response.text != "" {
        lastText := response.text;
      }
      return Ok(());
    }

    method PlanAnswer(calls: seq<Call>) returns (plans: seq<Planned>)
      requires InTurn() && open == []
      modifies `issued
      ensures InTurn() && WellPlanned(plans, calls) && |plans| == |calls|
      ensures forall i :: 0 <= i < |plans| ==> plans[i].correlation in issued
      ensures forall i :: 0 <= i < |plans| ==> plans[i].correlation !in Declared(emitter.events[base..])
      ensures executor.lastPublished ==>
                forall i :: 0 <= i < |plans| ==> plans[i].correlation != executor.lastResult.value.correlation
    {
      hide Consistent, Ledger, executor.WriteAhead, emitter.Valid, model.AllFit;
      ghost var books := Accounts(PlanIds(pending));
      LedgerBase(emitter.events, books);
      plans := PlanCalls(calls);
      LedgerIssued(emitter.events, books, issued);
    }

    /** A reply with text completes the turn; an empty one is a protocol error. */
    method AnswerWithoutCalls(response: Response, ghost before: seq<Event>, ghost failures: nat)
      returns (r: Result<Option<TurnResult>, Exn>)
      requires InTurn() && open == [] && TurnGrowth(before, emitter.events, asked) && emitter.failures >= failures
      requires emitter.events != [] && emitter.events[|emitter.events| - 1] == AssistantMessage(response.text, [])
      requires response.text != "" ==> lastText == response.text
      modifies this`groups, this`turnActive, this`state, this`sessionClosed, budget`protocolErrors, emitter,
               context`entries
      ensures old(emitter.events) <= emitter.events
      ensures r.Ok? && r.value.Some? ==>
                && Finished(r.value.value, before, failures)
                && r.value.value == if response.text != "" then TurnResult(CompletedTurn, None)
                                    else TurnResult(LimitReached, Some(ProtocolErrors))
      ensures r.Ok? && r.value.None? ==>
                && InTurn() && open == [] && TurnGrowth(before, emitter.events, asked) && emitter.failures >= failures
                && response.text == "" && budget.protocolErrors < budget.maxProtocolErrors
      ensures r.Err? ==> r.error == StoreFault && Raised(before, failures)
    {
      hide Consistent, Sound, Tracked, Consumed, Finished;
      RestingLoop();
      if response.text != "" {
        RecordOutcome(Success);
        var t :- EndTurn(CompletedTurn, None, before, failures);
        return Ok(Some(t));
      }
      var recovered :- RecoverEmptyResponse();
      RestingLoop();
      if budget.protocolErrors >= budget.maxProtocolErrors {
        var t :- LimitResult(ProtocolErrors, before, failures);
        return Ok(Some(t));
      }
      return Ok(None);
    }

    lemma RestingLoop()
      requires Tracked() && open == []
      ensures pending == [] && lost == []
    {
      RestingView(origin, Now());
      assert |Waiting(pending)| == 0;
    }

    /** At rest the loop's own records answer every call they declare, exactly once. */
    lemma CallsClosed()
      requires Valid() && open == []
      ensures AllAnswered()
    {
      RestingLoop();
      hide Consistent, Advancing, InOrder;
      assert PlanIds(pending) == [];
      var own := emitter.events[base..];
      assert Answered(own) + [] == Answered(own);
    }

    lemma ClosedIfResting()
      requires Valid()
      ensures open == [] ==> AllAnswered()
    {
      hide Valid, AllAnswered;
      if open == [] {
        CallsClosed();
      }
    }

    /** What follows a stored reply. */
    method React(response: Response, ghost before: seq<Event>, ghost failures: nat)
      returns (r: Result<Option<TurnResult>, Exn>)
      requires InTurn() && Asked(response) && TurnGrowth(before, emitter.events, asked) && emitter.failures >= failures
      modifies this`pending, this`groups, this`open, this`lost, this`synced, this`turnActive, this`state,
               this`sessionClosed, budget`toolCalls, budget`protocolErrors, emitter, context`entries, executor,
               registry, port, cancellation
      ensures old(emitter.events) <= emitter.events
      ensures r.Ok? && r.value.Some? ==> Finished(r.value.value, before, failures)
      ensures r.Ok? && r.value.None? ==>
                && InTurn() && open == [] && TurnGrowth(before, emitter.events, asked) && emitter.failures >= failures
      ensures r.Err? ==> Raised(before, failures) && !r.error.LoopLimit? && !r.error.WindowExceeded?
    {
      hide Consistent, Sound, Tracked, Consumed, Finished, Raised;
      var cancelled := cancellation.IsCancelled();
      if cancelled {
        var t :- SkipThenInterrupt(before, failures);
        return Ok(Some(t));
      }
      var passed := budget.DeadlinePassed();
      if passed {
        var t :- SkipThenLimit("wall_time", WallTime, before, failures);
        return Ok(Some(t));
      }
      if response.calls == [] {
        r := AnswerWithoutCalls(response, before, failures);
      } else {
        r := RunTools(before, failures);
      }
    }

    /** One iteration of the model loop; None continues the turn. */
    method ModelStep(ghost before: seq<Event>, ghost failures: nat) returns (r: Result<Option<TurnResult>, Exn>)
      requires InTurn() && open == [] && TurnGrowth(before, emitter.events, asked) && emitter.failures >= failures
      modifies this, budget, context, emitter, model, cancellation, executor, registry, port
      ensures old(emitter.events) <= emitter.events
      ensures context.covered >= old(context.covered)
      ensures asked == old(asked)
      ensures budget.modelSteps >= old(budget.modelSteps)
      ensures |model.sent| <= |old(model.sent)| + (budget.modelSteps - old(budget.modelSteps)) * (maxCompactions + 3)
      ensures r.Ok? && r.value.Some? ==> Finished(r.value.value, before, failures)
      ensures r.Ok? && r.value.None? ==>
                && InTurn() && open == [] && TurnGrowth(before, emitter.events, asked) && emitter.failures >= failures
                && old(budget.modelSteps) < budget.modelSteps <= budget.maxSteps
      ensures r.Err? ==> Raised(before, failures)
      ensures r.Err? && (r.error.LoopLimit? || r.error.WindowExceeded?) ==>
                InTurn() && open == [] && (r.error.LoopLimit? ==> r.error.reason == WallTime)
      ensures r.Err? && r.error.WindowExceeded? ==> Oversized()
    {
      hide InTurn, Asked, Oversized, Finished, TurnGrowth, QuietGrowth;
      RestingTurn();
      var checked :- CheckInterrupt();
      var limit := CurrentLimit();
      if limit.Some? {
        var t :- LimitResult(limit.value, before, failures);
        return Ok(Some(t));
      }
      ghost var start := emitter.events;
      var asking := Ask();
      TurnGoesOn(before, start, emitter.events, asked);
      GrowthExtends(start, emitter.events);
      if asking.Err? {
        RestingTurn();
        return Err(asking.error);
      }
      r := React(asking.value, before, failures);
    }

    lemma RestingTurn()
      requires InTurn() && open == []
      ensures pending == [] && lost == []
    {
      hide Sound, Consumed, Tracked;
      RestingLoop();
    }

    /** The try block of run_turn. */
    method TurnBody(userMessage: string, ghost before: seq<Event>, ghost failures: nat)
      returns (r: Result<TurnResult, Exn>)
      requires InTurn() && open == [] && userMessage == asked
      requires before == emitter.events && failures == emitter.failures
      modifies this, budget, context, emitter, model, cancellation, executor, registry, port
      ensures asked == old(asked)
      ensures context.covered >= old(context.covered)
      ensures r.Ok? ==> Said(|before|)
      ensures |model.sent| <= |old(model.sent)| + (budget.modelSteps - old(budget.modelSteps)) * (maxCompactions + 3)
      ensures r.Ok? ==> Finished(r.value, before, failures)
      ensures r.Err? ==> Raised(before, failures)
      ensures r.Err? && (r.error.LoopLimit? || r.error.WindowExceeded?) ==>
                InTurn() && open == [] && (r.error.LoopLimit? ==> r.error.reason == WallTime) && Said(|before|)
      ensures r.Err? && r.error.WindowExceeded? ==> Oversized()
    {
      hide InTurn, Oversized, Finished, TurnGrowth, QuietGrowth;
      RestingTurn();
      var started := StartSession();
      ghost var begun := emitter.events;
      QuietTurn(before, begun, asked);
      if started.Err? {
        return Err(started.error);
      }
      var spoken := EmitLone(UserMessage(userMessage), User(userMessage));
      if spoken.Err? {
        RestingTurn();
        return Err(spoken.error);
      }
      SpokenTurn(before, begun, asked);
      ghost var said := |emitter.events| - 1;
      while true
        invariant InTurn() && open == [] && TurnGrowth(before, emitter.events, asked) && emitter.failures >= failures
        invariant asked == userMessage && |before| <= said < |emitter.events|
        invariant emitter.events[said] == UserMessage(asked)
        invariant budget.modelSteps >= old(budget.modelSteps) && context.covered >= old(context.covered)
        invariant |model.sent| <=
                  |old(model.sent)| + (budget.modelSteps - old(budget.modelSteps)) * (maxCompactions + 3)
        decreases budget.maxSteps - budget.modelSteps
      {
        ghost var steps, requests := budget.modelSteps, |model.sent|;
        var step := ModelStep(before, failures);
        WorkAdds(steps - old(budget.modelSteps), budget.modelSteps - steps, maxCompactions + 3);
        if step.Err? {
          return Err(step.error);
        }
        if step.value.Some? {
          return Ok(step.value.value);
        }
      }
    }

    /** The except clauses of run_turn: whatever was raised, every remaining call is closed first. Only
        a limit whose end the store refuses is raised again. */
    method Handle(x: Exn, ghost before: seq<Event>, ghost failures: nat) returns (r: Result<TurnResult, Exn>)
      requires Raised(before, failures)
      requires x.LoopLimit? || x.WindowExceeded? ==> InTurn() && open == [] && (x.LoopLimit? ==> x.reason == WallTime)
      requires x.WindowExceeded? ==> Oversized()
      modifies this, emitter, context`entries, executor, cancellation
      ensures asked == old(asked) && old(emitter.events) <= emitter.events
      ensures r.Ok? ==> Finished(r.value, before, failures)
      ensures r.Ok? && !x.LoopLimit? && !x.WindowExceeded? ==> r.value.state == Failed || r.value.state == Interrupted
      ensures r.Err? ==>
                && r.error == StoreFault && InTurn() && open == [] && emitter.failures > failures
                && TurnGrowth(before, emitter.events, asked) && (x.LoopLimit? || x.WindowExceeded?)
    {
      hide Consistent, Sound, Tracked, Consumed, Finished, QuietGrowth, TurnGrowth;
      if x.LoopLimit? {
        r := LimitResult(x.reason, before, failures);
        return;
      }
      if x.WindowExceeded? {
        r := LimitResult(ContextWindow, before, failures);
        return;
      }
      var t := Unwind(x.Interrupt? || x.CancellationRequested?, before, failures);
      return Ok(t);
    }

    method Unwind(interrupted: bool, ghost before: seq<Event>, ghost failures: nat) returns (t: TurnResult)
      requires Raised(before, failures)
      modifies this`pending, this`groups, this`open, this`lost, this`synced, this`turnActive, this`state,
               this`sessionClosed, emitter, context`entries, executor, cancellation
      ensures old(emitter.events) <= emitter.events
      ensures Finished(t, before, failures) && (t.state == Failed || t.state == Interrupted)
    {
      hide Consistent, Sound, Tracked, Consumed, Finished, QuietGrowth, TurnGrowth;
      ghost var raised := emitter.events;
      ConsumePublished();
      var skipped := SkipPending(if interrupted then "interrupted" else "agent_failed",
                                 if interrupted then Cancelled else Error);
      TurnGoesOn(before, raised, emitter.events, asked);
      GrowthExtends(raised, emitter.events);
      if interrupted && skipped.Ok? {
        cancellation.Cancel();
        t := InterruptedResult(before, failures);
      } else {
        t := FailedResult(before, failures);
      }
    }

    /** One user turn. It terminates for every behaviour of the model, the tools, the policy, the
        approval port, the clock, the store and the cancelling thread. An accepted turn is finished,
        except when the store refuses the end of a limit raised inside the request preparation: then
        the loop stays in its turn. */
    method RunTurn(userMessage: string) returns (r: Result<TurnResult, Exn>)
      requires Valid()
      modifies this, budget, context, emitter, model, cancellation, executor, registry, port
      ensures Valid()
      ensures context.covered >= old(context.covered)
      ensures |model.sent| <= |old(model.sent)| + (budget.modelSteps - old(budget.modelSteps)) * (maxCompactions + 3)
      ensures old(emitter.events) <= emitter.events && emitter.failures >= old(emitter.failures)
      ensures Blank(userMessage) || old(sessionClosed) || old(turnActive) ==>
                r.Err? && emitter.failures == old(emitter.failures) && Now() == old(Now())
      ensures !Blank(userMessage) && !old(sessionClosed) && !old(turnActive) ==> asked == userMessage
      ensures r.Ok? ==> Finished(r.value, old(emitter.events), old(emitter.failures))
      ensures r.Ok? && r.value.state != Failed && r.value.state != Interrupted ==> Said(|old(emitter.events)|)
      ensures r.Err? && !Blank(userMessage) && !old(sessionClosed) && !old(turnActive) ==>
                && r.error == StoreFault && InTurn() && open == [] && emitter.failures > old(emitter.failures)
                && TurnGrowth(old(emitter.events), emitter.events, userMessage)
    {
      hide Consistent, Ledger, Finished, TurnGrowth, executor.WriteAhead, emitter.Valid, model.AllFit;
      if Blank(userMessage) {
        return Err(OtherFault);
      }
      if sessionClosed {
        return Err(LoopClosed);
      }
      if turnActive {
        return Err(OtherFault);
      }
      StartTurn(userMessage);
      r := TryTurn(userMessage, emitter.events, emitter.failures);
    }

    method StartTurn(userMessage: string)
      requires Valid() && !turnActive && !sessionClosed
      modifies `state, `turnActive, `lastText, `asked
      ensures InTurn() && open == [] && asked == userMessage
    {
      hide Consistent, Ledger, executor.WriteAhead, emitter.Valid, model.AllFit;
      state := Running;
      turnActive := true;
      lastText := "";
      asked := userMessage;
    }

    /** The body with its except clauses. */
    method TryTurn(userMessage: string, ghost before: seq<Event>, ghost failures: nat)
      returns (r: Result<TurnResult, Exn>)
      requires InTurn() && open == [] && userMessage == asked
      requires before == emitter.events && failures == emitter.failures
      modifies this, budget, context, emitter, model, cancellation, executor, registry, port
      ensures Valid() && asked == userMessage && before <= emitter.events && emitter.failures >= failures
      ensures context.covered >= old(context.covered)
      ensures |model.sent| <= |old(model.sent)| + (budget.modelSteps - old(budget.modelSteps)) * (maxCompactions + 3)
      ensures r.Ok? ==> Finished(r.value, before, failures)
      ensures r.Ok? && r.value.state != Failed && r.value.state != Interrupted ==> Said(|before|)
      ensures r.Err? ==>
                && r.error == StoreFault && InTurn() && open == [] && emitter.failures > failures
                && TurnGrowth(before, emitter.events, userMessage)
    {
      hide Sound, Tracked, Consumed, Finished, Raised, TurnGrowth;
      r := TurnBody(userMessage, before, failures);
      if r.Err? {
        r := Handle(r.error, before, failures);
      }
      if r.Ok? {
        FinishedIsValid(r.value, before, failures);
      } else {
        StuckIsValid(before);
      }
    }

    lemma StuckIsValid(before: seq<Event>)
      requires InTurn() && TurnGrowth(before, emitter.events, asked)
      ensures Valid() && before <= emitter.events
    {
      hide Sound, Tracked, Consumed;
    }

    lemma FinishedIsValid(t: TurnResult, before: seq<Event>, failures: nat)
      requires Finished(t, before, failures)
      ensures Valid() && before <= emitter.events && emitter.failures >= failures && !turnActive
      ensures emitter.failures == failures ==> open == []
    {
      hide Valid, Closing;
    }

    /** End an open session exactly once. */
    method Close()
      requires Valid()
      modifies emitter, `sessionClosed
      ensures Valid() && sessionClosed
      ensures old(emitter.events) <= emitter.events && emitter.failures >= old(emitter.failures)
      ensures old(sessionClosed) ==> emitter.events == old(emitter.events)
      ensures !old(sessionClosed) && emitter.failures == old(emitter.failures) ==>
                exists s :: s != Running && emitter.events == old(emitter.events)
                  + [AgentEnd(s, budget.Snapshot()), SessionEnd(s, budget.Snapshot())]
    {
      hide Consistent, Ledger, executor.WriteAhead, emitter.Valid, model.AllFit;
      if sessionClosed {
        return;
      }
      FinishSession(if state == Running then CompletedTurn else state);
    }
  }
}
