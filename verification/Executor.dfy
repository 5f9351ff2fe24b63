/** executor.py ToolExecutor: the lifecycle of one declared tool call. */
module Executor {
  import opened Wrappers
  import opened Transcript
  import opened Replay
  import opened Runtime
  import opened Model

  /** What a tool hands back; a custom registry may return a result tied to another call. */
  datatype Raw = NotAResult | Value(result: ToolValue)

  datatype ToolValue = ToolValue(correlation: Id, provider: Option<Id>, data: ToolData)

  datatype Answer = Answer(correlation: Id, approved: bool)

  /** One call that reached the registry: the log position of its tool_call, the length of the log
      and the number of approval answers at that moment. */
  datatype Dispatch = Dispatch(correlation: Id, start: nat, at: nat, answers: nat)

  /** The last record allows the call, its tool_call is already logged, and an ask was approved. */
  predicate Allowed(events: seq<Event>, answers: seq<Answer>, correlation: Id, start: nat) {
    && start + 1 < |events|
    && events[start] == ToolCall(correlation)
    && (forall i :: start < i < |events| - 1 ==> events[i] == ApprovalRequest(correlation))
    && var last := events[|events| - 1];
       && last.PolicyDecision? && last.correlation == correlation && last.decision == Allow
       && (last.requested == Allow
           || (last.requested == Ask && last.approved == Some(true)
               && answers != [] && answers[|answers| - 1] == Answer(correlation, true)))
  }

  predicate Justified(d: Dispatch, events: seq<Event>, answers: seq<Answer>, validated: set<Id>) {
    && d.at <= |events| && d.answers <= |answers|
    && d.correlation in validated
    && Allowed(events[..d.at], answers[..d.answers], d.correlation, d.start)
  }

  /** Evidence in an append-only log does not go away. */
  lemma {:induction false} JustifiedLater(d: Dispatch, events: seq<Event>, answers: seq<Answer>, validated: set<Id>,
                       events': seq<Event>, answers': seq<Answer>, validated': set<Id>)
    requires Justified(d, events, answers, validated)
    requires events <= events' && answers <= answers' && validated <= validated'
    ensures Justified(d, events', answers', validated')
  {
    assert events'[..d.at] == events[..d.at] && answers'[..d.answers] == answers[..d.answers];
  }

  /** Records between a call and its result. */
  predicate Middle(seg: seq<Event>, correlation: Id) {
    forall i :: 0 <= i < |seg| ==>
      && (seg[i].ApprovalRequest? || seg[i].PolicyDecision?)
      && seg[i].correlation == correlation
  }

  lemma {:induction false} Rejoin(before: seq<Event>, e: Event, after: seq<Event>)
    requires before + [e] <= after
    ensures after == before + ([e] + after[|before| + 1..])
  {
  }

  /** At most one approval request and at most one decision, in this order. */
  predicate Span(seg: seq<Event>, correlation: Id) {
    && Middle(seg, correlation)
    && |seg| <= 2
    && (|seg| == 2 ==> seg[0].ApprovalRequest? && seg[1].PolicyDecision?)
  }

  /** The records of one closed call: the call, at most one approval request, at most one decision,
      the result. */
  predicate CallTrace(seg: seq<Event>, correlation: Id, provider: Option<Id>, data: ToolData) {
    && 2 <= |seg|
    && seg[0] == ToolCall(correlation)
    && seg[|seg| - 1] == ToolResult(correlation, provider, data)
    && Span(seg[1..|seg| - 1], correlation)
  }

  /** Records that change neither the replayed context nor the open calls. */
  predicate Neutral(e: Event) {
    !e.UserMessage? && !e.AssistantMessage? && !e.ToolResult? && !e.Compaction? && !e.EmptyResponse?
  }

  predicate AllNeutral(seg: seq<Event>) {
    forall i :: 0 <= i < |seg| ==> Neutral(seg[i])
  }

  predicate Terminal(e: Event) {
    e.TurnEnd? || e.AgentEnd? || e.SessionEnd?
  }

  /** No turn, agent or session ends here, and the user says nothing. */
  predicate Quiet(seg: seq<Event>) {
    forall i :: 0 <= i < |seg| ==> !Terminal(seg[i]) && !seg[i].UserMessage?
  }

  /** An append-only step that writes only records neutral to replay. */
  ghost predicate NeutralGrowth(before: seq<Event>, after: seq<Event>) {
    && before <= after && AllNeutral(after[|before|..]) && Quiet(after[|before|..])
  }

  lemma {:induction false} NeutralKeeps(log: seq<Event>, more: seq<Event>)
    requires AllNeutral(more)
    ensures Replayed(log + more) == Replayed(log) && Open(log + more) == Open(log)
    decreases |more|
  {
    if more == [] {
      assert log + more == log;
    } else {
      NeutralKeeps(log, more[..|more| - 1]);
      Appended(log + more[..|more| - 1], more[|more| - 1]);
      assert log + more == (log + more[..|more| - 1]) + [more[|more| - 1]];
    }
  }

  class Policy {
    constructor () {}

    method Decide() returns (r: Result<Decision, Exn>)
      ensures r.Err? ==> r.error.External()
    {
      var fails: bool := *;
      if fails {
        var x := AnyFault();
        return Err(x);
      }
      var d: Decision := *;
      return Ok(d);
    }
  }

  /** backend_service.py ChannelApprovalPort: the request is durable before anyone can answer it. */
  class ApprovalPort {
    var answers: seq<Answer>

    constructor ()
      ensures answers == []
    {
      answers := [];
    }

    method RequestApproval(correlation: Id, emitter: EventEmitter) returns (r: Result<bool, Exn>)
      requires emitter.Valid()
      modifies this, emitter
      ensures emitter.Valid() && emitter.failures >= old(emitter.failures)
      ensures emitter.events == old(emitter.events)
              || emitter.events == old(emitter.events) + [ApprovalRequest(correlation)]
      ensures old(answers) <= answers
      ensures r == Ok(true) ==>
                && answers == old(answers) + [Answer(correlation, true)]
                && emitter.events == old(emitter.events) + [ApprovalRequest(correlation)]
      ensures answers != old(answers) ==> emitter.events == old(emitter.events) + [ApprovalRequest(correlation)]
      ensures r.Err? ==> r.error.External()
    {
      var sequence := emitter.Publish(ApprovalRequest(correlation));
      if sequence.None? {
        return Ok(false);
      }
      var fails: bool, approved: bool := *, *;
      if fails {
        var x := AnyFault();
        return Err(x);
      }
      answers := answers + [Answer(correlation, approved)];
      return Ok(approved);
    }
  }

  /** The registry and every side effect behind it. */
  class Registry {
    const registered: set<string>
    var validated: set<Id>
    var dispatches: seq<Dispatch>

    constructor (registered: set<string>)
      ensures this.registered == registered && validated == {} && dispatches == []
    {
      this.registered, validated, dispatches := registered, {}, [];
    }

    method Validate(correlation: Id) returns (r: Result<(), Exn>)
      modifies this`validated
      ensures r.Ok? ==> validated == old(validated) + {correlation}
      ensures r.Err? ==> validated == old(validated) && r.error.External()
    {
      var fails: bool := *;
      if fails {
        var x := AnyFault();
        return Err(x);
      }
      validated := validated + {correlation};
      return Ok(());
    }

    /** A tool runs only when its evidence is already in the log. */
    method Execute(correlation: Id, start: nat, events: seq<Event>, answers: seq<Answer>)
      returns (r: Result<Raw, Exn>)
      requires correlation in validated
      requires Allowed(events, answers, correlation, start)
      modifies this`dispatches
      ensures dispatches == old(dispatches) + [Dispatch(correlation, start, |events|, |answers|)]
      ensures r.Err? ==> r.error.External()
    {
      dispatches := dispatches + [Dispatch(correlation, start, |events|, |answers|)];
      var fails: bool, raw: Raw := *, *;
      if fails {
        var x := AnyFault();
        return Err(x);
      }
      return Ok(raw);
    }
  }

  class ToolExecutor {
    const emitter: EventEmitter
    const registry: Registry
    const policy: Policy
    const port: ApprovalPort
    const hasPort: bool
    const interactive: bool
    /** The bounded projection of a result. */
    const project: ToolData -> ToolData
    var lastResult: Option<ToolValue>
    var lastPublished: bool
    var policyEmitted: bool
    /** agent_loop.py _StoreFirstToolEventPublisher.last_sequence */
    var lastSequence: Option<nat>

    constructor (emitter: EventEmitter, registry: Registry, policy: Policy, port: ApprovalPort,
                 hasPort: bool, interactive: bool, project: ToolData -> ToolData)
      ensures this.emitter == emitter && this.registry == registry && this.policy == policy
      ensures this.port == port && this.hasPort == hasPort && this.interactive == interactive
      ensures this.project == project && lastResult == None && !lastPublished
    {
      this.emitter, this.registry, this.policy, this.port := emitter, registry, policy, port;
      this.hasPort, this.interactive, this.project := hasPort, interactive, project;
      lastResult, lastPublished, policyEmitted, lastSequence := None, false, false, None;
    }

    /** Write-ahead execution over everything dispatched so far. */
    ghost predicate WriteAhead()
      reads emitter, registry, port
    {
      forall i :: 0 <= i < |registry.dispatches| ==>
        Justified(registry.dispatches[i], emitter.events, port.answers, registry.validated)
    }

    twostate lemma WriteAheadKept()
      requires old(WriteAhead())
      requires old(emitter.events) <= emitter.events && old(port.answers) <= port.answers
      requires old(registry.validated) <= registry.validated
      requires registry.dispatches == old(registry.dispatches)
      ensures WriteAhead()
    {
      forall i | 0 <= i < |registry.dispatches|
        ensures Justified(registry.dispatches[i], emitter.events, port.answers, registry.validated)
      {
        JustifiedLater(registry.dispatches[i], old(emitter.events), old(port.answers), old(registry.validated),
                       emitter.events, port.answers, registry.validated);
      }
    }

    method Emit(e: Event) returns (ok: bool)
      requires emitter.Valid() && WriteAhead()
      requires Sane(emitter.registered, e, |emitter.events|) && (emitter.clean ==> Legal(emitter.events, e))
      modifies emitter, `lastSequence
      ensures emitter.Valid() && WriteAhead()
      ensures ok ==>
                && emitter.events == old(emitter.events) + [e] && emitter.failures == old(emitter.failures)
                && lastSequence == Some(|emitter.events|)
      ensures !ok ==>
                && emitter.events == old(emitter.events) && emitter.failures == old(emitter.failures) + 1
                && lastSequence == None
    {
      lastSequence := emitter.Publish(e);
      WriteAheadKept();
      return lastSequence.Some?;
    }

    method EmitPolicy(c: Id, requested: Decision, decision: Decision, approved: Option<bool>) returns (ok: bool)
      requires emitter.Valid() && WriteAhead()
      modifies emitter, `policyEmitted, `lastSequence
      ensures emitter.Valid() && WriteAhead()
      ensures ok ==>
                && policyEmitted && emitter.failures == old(emitter.failures)
                && emitter.events == old(emitter.events) + [PolicyDecision(c, requested, decision, approved)]
      ensures !ok ==>
                && policyEmitted == old(policyEmitted) && emitter.failures == old(emitter.failures) + 1
                && emitter.events == old(emitter.events)
    {
      ok := Emit(PolicyDecision(c, requested, decision, approved));
      policyEmitted := policyEmitted || ok;
    }

    function ErrorValue(c: Id, provider: Option<Id>): ToolValue {
      ToolValue(c, provider, ToolData(Error, "tool execution failed", true))
    }

    function DeniedValue(c: Id, provider: Option<Id>): ToolValue {
      ToolValue(c, provider, ToolData(Denied, "tool execution denied", true))
    }

    function InvalidValue(c: Id, provider: Option<Id>): ToolValue {
      ToolValue(c, provider, ToolData(Invalid, "tool protocol error", true))
    }

    /** The result is tied to this call, whatever the registry returned. */
    method NormalizeResult(raw: Raw, c: Id, provider: Option<Id>) returns (v: ToolValue)
      ensures v.correlation == c && v.provider == provider
      ensures raw.NotAResult? ==> v == ErrorValue(c, provider)
      ensures raw.Value? ==> v.data == raw.result.data
    {
      if raw.NotAResult? {
        return ErrorValue(c, provider);
      }
      v := raw.result;
      if v.correlation != c || v.provider != provider {
        v := v.(correlation := c, provider := provider);
      }
    }

    /** The decision for a policy answer; an ask is allowed only by an approval that returned true. */
    method Consult(c: Id, requested: Decision) returns (r: Result<Verdict, Exn>)
      requires emitter.Valid() && WriteAhead()
      modifies emitter, port
      ensures emitter.Valid() && WriteAhead()
      ensures emitter.events == old(emitter.events)
              || emitter.events == old(emitter.events) + [ApprovalRequest(c)]
      ensures old(port.answers) <= port.answers && emitter.failures >= old(emitter.failures)
      ensures r.Err? ==> r.error.External() && !r.error.IsException()
      ensures !requested.Ask? ==> r == Ok(Verdict(requested, None))
      ensures r.Ok? && r.value.decision == Allow ==>
                || requested == Allow
                || (requested == Ask && r.value.approved == Some(true)
                    && port.answers != [] && port.answers[|port.answers| - 1] == Answer(c, true))
    {
      if !requested.Ask? {
        return Ok(Verdict(requested, None));
      }
      if !interactive || !hasPort {
        return Ok(Verdict(Deny, None));
      }
      var answer := port.RequestApproval(c, emitter);
      WriteAheadKept();
      if answer.Err? && !answer.error.IsException() {
        return Err(answer.error);
      }
      var approved := answer.Ok? && answer.value;
      return Ok(Verdict(if approved then Allow else Deny, Some(approved)));
    }

    /** Log the decision, and only then run the tool. */
    method DecideAndRun(c: Id, provider: Option<Id>, start: nat) returns (r: Result<Raw, Exn>)
      requires emitter.Valid() && c in registry.validated && !policyEmitted
      requires start + 1 == |emitter.events| && emitter.events[start] == ToolCall(c)
      requires WriteAhead()
      modifies emitter, port, registry`dispatches, `policyEmitted, `lastSequence
      ensures emitter.Valid() && WriteAhead()
      ensures old(emitter.events) <= emitter.events && old(port.answers) <= port.answers
      ensures Between(emitter.events[start + 1..], c, policyEmitted)
      ensures emitter.failures >= old(emitter.failures)
      ensures Ran(old(registry.dispatches), registry.dispatches, emitter.events[|emitter.events| - 1], c)
      ensures r.Ok? ==> policyEmitted
      ensures r.Err? ==> r.error.External() || r.error.StoreFault?
      ensures r.Err? && r.error.StoreFault? ==> emitter.failures > old(emitter.failures) && !policyEmitted
    {
      hide WriteAhead, emitter.Valid, Justified;
      var requested :- policy.Decide();
      var verdict :- Consult(c, requested);
      var emitted := EmitPolicy(c, requested, verdict.decision, verdict.approved);
      if !emitted {
        return Err(StoreFault);
      }
      if verdict.decision != Allow {
        return Ok(Value(DeniedValue(c, provider)));
      }
      r := Run(c, start);
    }

    method Run(c: Id, start: nat) returns (r: Result<Raw, Exn>)
      requires c in registry.validated && WriteAhead()
      requires Allowed(emitter.events, port.answers, c, start)
      modifies registry`dispatches
      ensures WriteAhead()
      ensures registry.dispatches == old(registry.dispatches)
                                     + [Dispatch(c, start, |emitter.events|, |port.answers|)]
      ensures r.Err? ==> r.error.External()
    {
      assert emitter.events[..|emitter.events|] == emitter.events;
      assert port.answers[..|port.answers|] == port.answers;
      r := registry.Execute(c, start, emitter.events, port.answers);
    }

    method Validate(c: Id) returns (valid: Result<(), Exn>)
      requires WriteAhead()
      modifies registry`validated
      ensures WriteAhead() && old(registry.validated) <= registry.validated
      ensures valid.Ok? ==> c in registry.validated
      ensures valid.Err? ==> valid.error.External()
    {
      valid := registry.Validate(c);
      WriteAheadKept();
    }

    /** The body of execute: every refusal is logged as a denial before it becomes a result. */
    method Attempt(call: Call, c: Id, start: nat) returns (r: Result<Raw, Exn>)
      requires emitter.Valid() && WriteAhead() && !policyEmitted
      requires start + 1 == |emitter.events| && emitter.events[start] == ToolCall(c)
      modifies emitter, port, registry`dispatches, registry`validated, `policyEmitted, `lastSequence
      ensures emitter.Valid() && WriteAhead()
      ensures old(emitter.events) <= emitter.events && emitter.failures >= old(emitter.failures)
      ensures Between(emitter.events[start + 1..], c, policyEmitted)
      ensures Ran(old(registry.dispatches), registry.dispatches, emitter.events[|emitter.events| - 1], c)
      ensures r.Ok? ==> policyEmitted
      ensures r.Err? ==> (r.error.External() && !r.error.IsException())
                         || (r.error.StoreFault? && emitter.failures > old(emitter.failures))
    {
      hide WriteAhead, emitter.Valid, Justified, Allowed;
      var provider := if call.badId then None else call.provider;
      if call.badId || call.name == None || call.name == Some("") {
        var emitted := EmitPolicy(c, Deny, Deny, None);
        return if emitted then Ok(Value(InvalidValue(c, provider))) else Err(StoreFault);
      }
      var valid := Validate(c);
      if valid.Err? {
        if !valid.error.IsException() {
          return Err(valid.error);
        }
        var emitted := EmitPolicy(c, Deny, Deny, None);
        var value := if valid.error.ProtocolFault? then InvalidValue(c, provider) else ErrorValue(c, provider);
        return if emitted then Ok(Value(value)) else Err(StoreFault);
      }
      r := DecideAndRun(c, provider, start);
      if r.Err? && r.error.IsException() {
        r := AfterFault(c, provider);
      }
    }

    /** An exception after the decision is an executor error; before it, a logged denial. */
    method AfterFault(c: Id, provider: Option<Id>) returns (r: Result<Raw, Exn>)
      requires emitter.Valid() && WriteAhead()
      modifies emitter, `policyEmitted, `lastSequence
      ensures emitter.Valid() && WriteAhead()
      ensures old(policyEmitted) ==>
                && r == Ok(Value(ErrorValue(c, provider))) && policyEmitted
                && emitter.events == old(emitter.events) && emitter.failures == old(emitter.failures)
      ensures !old(policyEmitted) && r.Ok? ==>
                && r == Ok(Value(DeniedValue(c, provider))) && policyEmitted
                && emitter.events == old(emitter.events) + [PolicyDecision(c, Deny, Deny, None)]
                && emitter.failures == old(emitter.failures)
      ensures r.Err? ==>
                && r.error.StoreFault? && !policyEmitted
                && emitter.events == old(emitter.events) && emitter.failures > old(emitter.failures)
    {
      if policyEmitted {
        return Ok(Value(ErrorValue(c, provider)));
      }
      var emitted := EmitPolicy(c, Deny, Deny, None);
      return if emitted then Ok(Value(DeniedValue(c, provider))) else Err(StoreFault);
    }

    /** The records an execution leaves, whether it returns or raises. */
    ghost predicate Left(before: seq<Event>, c: Id)
      reads this, emitter
    {
      if lastPublished then
        && lastResult.Some? && lastResult.value.correlation == c
        && lastSequence == Some(|emitter.events|)
        && before < emitter.events
        && CallTrace(emitter.events[|before|..], c, lastResult.value.provider, project(lastResult.value.data))
      else NeutralGrowth(before, emitter.events)
    }

    /** Log the result of a call whose other records are in place. */
    method Conclude(c: Id, value: ToolValue, ghost before: seq<Event>, ghost mid: seq<Event>) returns (ok: bool)
      requires emitter.Valid() && WriteAhead() && !lastPublished && value.correlation == c
      requires emitter.events == before + ([ToolCall(c)] + mid) && Span(mid, c)
      requires emitter.clean ==> IsOpen(Open(before), c)
      modifies emitter, `lastResult, `lastPublished, `lastSequence
      ensures emitter.Valid() && WriteAhead() && Left(before, c)
      ensures lastResult == Some(value) && lastPublished == ok
      ensures ok ==>
                && emitter.failures == old(emitter.failures)
                && emitter.events == old(emitter.events) + [ToolResult(c, value.provider, project(value.data))]
      ensures !ok ==> emitter.failures > old(emitter.failures)
    {
      hide WriteAhead, emitter.Valid, Justified;
      lastResult := Some(value);
      ghost var seg := [ToolCall(c)] + mid;
      NeutralKeeps(before, seg);
      assert emitter.events[|before|..] == seg;
      lastPublished := Emit(ToolResult(c, value.provider, project(value.data)));
      if lastPublished {
        ghost var all := emitter.events[|before|..];
        assert all == seg + [ToolResult(c, value.provider, project(value.data))];
        assert all[1..|all| - 1] == mid;
      }
      return lastPublished;
    }

    /** The try and except clauses of execute: what was raised, and the result so far. */
    method Guarded(call: Call, c: Id, start: nat) returns (raw: Raw, raised: Option<Exn>)
      requires emitter.Valid() && WriteAhead() && !policyEmitted
      requires start + 1 == |emitter.events| && emitter.events[start] == ToolCall(c)
      modifies emitter, port, registry`dispatches, registry`validated, `policyEmitted, `lastSequence
      ensures emitter.Valid() && WriteAhead()
      ensures old(emitter.events) <= emitter.events && emitter.failures >= old(emitter.failures)
      ensures Span(emitter.events[start + 1..], c)
      ensures Ran(old(registry.dispatches), registry.dispatches, emitter.events[|emitter.events| - 1], c)
      ensures raised == None ==> emitter.events[|emitter.events| - 1].PolicyDecision?
      ensures raised.Some? ==> (raised.value.External() && !raised.value.IsException())
                               || (raised.value.StoreFault? && emitter.failures > old(emitter.failures))
    {
      hide WriteAhead, emitter.Valid, Justified, Allowed;
      var attempt := Attempt(call, c, start);
      if attempt.Ok? {
        return attempt.value, None;
      }
      raw, raised := NotAResult, None;
      if !attempt.error.IsException() {
        raised := Some(attempt.error);
      } else if !policyEmitted {
        ghost var mid := emitter.events[start + 1..];
        var emitted := EmitPolicy(c, Deny, Deny, None);
        if !emitted {
          raised := Some(StoreFault);
        } else {
          assert emitter.events[start + 1..] == mid + [PolicyDecision(c, Deny, Deny, None)];
        }
      }
    }

    /** One call: exactly one result whatever happens inside, unless the store fails; an exception
        that must unwind the loop is raised again only after the result was logged. */
    method Execute(call: Call, c: Id) returns (r: Result<ToolValue, Exn>)
      requires emitter.Valid() && WriteAhead()
      requires emitter.clean ==> IsOpen(Open(emitter.events), c)
      modifies this, emitter, port, registry
      ensures emitter.Valid() && WriteAhead()
      ensures emitter.failures >= old(emitter.failures)
      ensures Left(old(emitter.events), c)
      ensures |registry.dispatches| <= |old(registry.dispatches)| + 1
      ensures emitter.failures == old(emitter.failures) ==> lastPublished
      ensures r.Ok? ==>
                && lastPublished && lastResult == Some(r.value)
                && emitter.events[|emitter.events| - 2].PolicyDecision?
      ensures lastPublished ==>
                Ran(old(registry.dispatches), registry.dispatches, emitter.events[|emitter.events| - 2], c)
      ensures r.Err? ==> (r.error.External() && !r.error.IsException() && lastPublished)
                         || (r.error.StoreFault? && emitter.failures > old(emitter.failures))
    {
      hide WriteAhead, emitter.Valid, Justified, Allowed, CallTrace, Ran, Span;
      lastResult, lastPublished, policyEmitted := None, false, false;
      ghost var before := emitter.events;
      var called := Emit(ToolCall(c));
      if !called {
        return Err(StoreFault);
      }
      r := ExecuteLogged(call, c, before);
    }

    /** The rest of execute, once the call is in the log. */
    method ExecuteLogged(call: Call, c: Id, ghost before: seq<Event>) returns (r: Result<ToolValue, Exn>)
      requires emitter.Valid() && WriteAhead() && !policyEmitted && !lastPublished
      requires emitter.events == before + [ToolCall(c)]
      requires emitter.clean ==> IsOpen(Open(before), c)
      modifies this, emitter, port, registry
      ensures emitter.Valid() && WriteAhead() && Left(before, c)
      ensures emitter.failures >= old(emitter.failures)
      ensures |registry.dispatches| <= |old(registry.dispatches)| + 1
      ensures emitter.failures == old(emitter.failures) ==> lastPublished
      ensures r.Ok? ==>
                && lastPublished && lastResult == Some(r.value)
                && |emitter.events| >= 2 && emitter.events[|emitter.events| - 2].PolicyDecision?
      ensures lastPublished ==>
                && |emitter.events| >= 2
                && Ran(old(registry.dispatches), registry.dispatches, emitter.events[|emitter.events| - 2], c)
      ensures r.Err? ==> (r.error.External() && !r.error.IsException() && lastPublished)
                         || (r.error.StoreFault? && emitter.failures > old(emitter.failures))
    {
      hide WriteAhead, emitter.Valid, Justified, Allowed, CallTrace, Ran, Span, Left;
      var start := |emitter.events| - 1;
      var raw, raised := Guarded(call, c, start);
      RanOnce(old(registry.dispatches), registry.dispatches, emitter.events[|emitter.events| - 1], c);
      ghost var mid := emitter.events[start + 1..];
      Rejoin(before, ToolCall(c), emitter.events);
      var value := NormalizeResult(raw, c, if call.badId then None else call.provider);
      var published := Conclude(c, value, before, mid);
      if !published {
        return Err(StoreFault);
      }
      return if raised.Some? then Err(raised.value) else Ok(value);
    }

    /** Close a declared call without running it. */
    method Skip(call: Call, c: Id, reason: string, status: Status) returns (r: Result<ToolValue, Exn>)
      requires emitter.Valid() && WriteAhead() && status != Success
      requires emitter.clean ==> IsOpen(Open(emitter.events), c)
      modifies this, emitter
      ensures emitter.Valid() && WriteAhead()
      ensures Left(old(emitter.events), c)
      ensures r.Ok? ==>
                && lastPublished && lastResult == Some(r.value) && emitter.failures == old(emitter.failures)
                && r.value == SkippedValue(call, c, reason, status)
                && emitter.events == old(emitter.events) + SkipRecords(c, r.value.provider, project(r.value.data))
      ensures r.Err? ==> r.error == StoreFault && !lastPublished && emitter.failures > old(emitter.failures)
    {
      lastResult, lastPublished := None, false;
      ghost var before := emitter.events;
      var called := Emit(ToolCall(c));
      if !called {
        return Err(StoreFault);
      }
      var value := SkippedValue(call, c, reason, status);
      r := DenyAndConclude(c, value, before);
    }

    method DenyAndConclude(c: Id, value: ToolValue, ghost before: seq<Event>) returns (r: Result<ToolValue, Exn>)
      requires emitter.Valid() && WriteAhead() && !lastPublished && value.correlation == c
      requires emitter.events == before + [ToolCall(c)]
      requires emitter.clean ==> IsOpen(Open(before), c)
      modifies this, emitter
      ensures emitter.Valid() && WriteAhead() && Left(before, c)
      ensures r.Ok? ==>
                && r.value == value && lastPublished && lastResult == Some(value)
                && emitter.failures == old(emitter.failures)
                && emitter.events == before + SkipRecords(c, value.provider, project(value.data))
      ensures r.Err? ==> r.error == StoreFault && !lastPublished && emitter.failures > old(emitter.failures)
    {
      var decided := EmitPolicy(c, Deny, Deny, None);
      if !decided {
        return Err(StoreFault);
      }
      ghost var mid := [PolicyDecision(c, Deny, Deny, None)];
      assert emitter.events == before + [ToolCall(c)] + mid;
      assert emitter.events == before + ([ToolCall(c)] + mid);
      var published := Conclude(c, value, before, mid);
      if !published {
        return Err(StoreFault);
      }
      return Ok(value);
    }

    function SkippedValue(call: Call, c: Id, reason: string, status: Status): ToolValue {
      ToolValue(c, call.provider, ToolData(status, "tool call was not executed: " + reason, false))
    }
  }

  function SkipRecords(c: Id, provider: Option<Id>, data: ToolData): seq<Event> {
    [ToolCall(c), PolicyDecision(c, Deny, Deny, None), ToolResult(c, provider, data)]
  }

  datatype Verdict = Verdict(decision: Decision, approved: Option<bool>)

  /** The tool was reached once if the last decision allows it, and not at all otherwise. */
  predicate Ran(before: seq<Dispatch>, after: seq<Dispatch>, last: Event, c: Id) {
    if last.PolicyDecision? && last.decision == Allow then
      |after| == |before| + 1 && before <= after && after[|before|].correlation == c
    else after == before
  }

  lemma {:induction false} RanOnce(before: seq<Dispatch>, after: seq<Dispatch>, last: Event, c: Id)
    requires Ran(before, after, last, c)
    ensures |after| <= |before| + 1
  {
  }

  /** What one attempt writes between a call and its result. */
  predicate Between(seg: seq<Event>, c: Id, decided: bool) {
    Span(seg, c) && (decided <==> |seg| > 0 && seg[|seg| - 1].PolicyDecision?)
  }
}
