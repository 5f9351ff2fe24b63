/** assembly.py: building a loop, new or resumed, and what holds over whole lifetimes of a session. */
module Assembly {
  import opened Wrappers
  import opened Transcript
  import opened Grouping
  import opened Replay
  import opened Runtime
  import opened Model
  import opened Context
  import opened Executor
  import opened Live
  import opened Agreement
  import opened Loop
  import opened Turn

  datatype ResumeError = EmptyLog | NoRootAgent | Inconsistent(error: GroupError)

  datatype ResumePlan = ResumePlan(counters: Counters, context: Restored)

  /** recover_session_plan on the records that could be read. */
  method RecoverSessionPlan(log: seq<Event>) returns (r: Result<ResumePlan, ResumeError>)
    ensures r == (if log == [] then Err(EmptyLog)
                  else if AgentStart !in log then Err(NoRootAgent)
                  else if Recovered(log).Err? then Err(Inconsistent(Recovered(log).error))
                  else Ok(ResumePlan(RecoveredBudget(log), Recovered(log).value)))
  {
    if log == [] {
      return Err(EmptyLog);
    }
    if AgentStart !in log {
      return Err(NoRootAgent);
    }
    var counters := BudgetFromEvents(log);
    var context := ContextFromEvents(log);
    if context.Err? {
      return Err(Inconsistent(context.error));
    }
    return Ok(ResumePlan(counters, context.value));
  }

  datatype Config = Config(
    prompt: string, window: Window, threshold: real, keepRecent: nat, maxCompactions: nat, tools: nat,
    maxSteps: nat, maxToolCalls: nat, maxProtocolErrors: nat, registered: set<string>, interactive: bool,
    hasPort: bool, project: ToolData -> ToolData,
    payload: (Option<string>, seq<Group>) -> string, sections: string -> string)
  {
    predicate Valid() {
      && window.reserve < window.size && 0.0 < threshold <= 1.0 && keepRecent >= 1 && maxCompactions >= 1
      && ProperNames(registered)
    }
  }

  /** A loop over a log: its context is the recovered one, its budget starts from the recovered
      counters. */
  method BuildLoop(config: Config, log: seq<Event>, plan: ResumePlan) returns (loop: AgentLoop)
    requires config.Valid() && SaneLog(config.registered, log)
    requires Recovered(log) == Ok(plan.context)
    ensures fresh(loop) && fresh(loop.emitter) && fresh(loop.budget) && fresh(loop.context) && fresh(loop.model)
    ensures fresh(loop.cancellation) && fresh(loop.executor) && fresh(loop.registry) && fresh(loop.port)
    ensures loop.Valid() && !loop.turnActive && !loop.sessionClosed && loop.open == []
    ensures loop.emitter.events == log && loop.emitter.failures == 0 && loop.base == |log|
    ensures loop.context.Cuts() ==
            (plan.context.summary, plan.context.covered, plan.context.degraded, plan.context.notice)
    ensures loop.context.entries == plan.context.messages
    ensures loop.budget.Snapshot() == plan.counters && loop.start == plan.counters
    ensures (loop.origin.clean <==> AtRest(log)) && loop.origin.registered == config.registered
    ensures Above(Replayed(log).pairs, Cutoff(Replayed(log))) == plan.context.messages + loop.origin.dropped
  {
    hide Consistent, SaneLog, Disciplined, Ledger, Replayed, CompletedGroups, Above;
    ghost var origin, groups := ResumeConsistent(log, config.registered);
    AtRestIsDisciplined(log);
    var emitter := new EventEmitter(log, AtRest(log), config.registered);
    var budget := new BudgetTracker(config.maxSteps, config.maxToolCalls, config.maxProtocolErrors, plan.counters);
    var cancellation := new CancellationSignal();
    var context := new ContextState.FromPlan(plan.context);
    var builder, compactor := BuildContext(config);
    var executor := BuildExecutor(config, emitter);
    loop := new AgentLoop(emitter, budget, cancellation, context, builder, compactor, compactor.model, executor,
                          executor.registry, executor.port, config.maxCompactions, config.tools, origin, groups);
  }

  method BuildContext(config: Config) returns (builder: ContextBuilder, compactor: Compactor)
    requires config.Valid()
    ensures fresh(builder) && fresh(compactor) && fresh(compactor.model)
    ensures builder.Valid() && builder.window == compactor.model.window && compactor.model.sent == []
  {
    builder := new ContextBuilder(config.prompt, config.window, config.threshold, config.keepRecent);
    var model := new ModelClient(config.window);
    compactor := new Compactor(model, config.prompt, config.payload, config.sections);
  }

  method BuildExecutor(config: Config, emitter: EventEmitter) returns (executor: ToolExecutor)
    ensures fresh(executor) && fresh(executor.registry) && fresh(executor.port)
    ensures executor.emitter == emitter && executor.registry.registered == config.registered
    ensures executor.registry.dispatches == [] && !executor.lastPublished
  {
    var registry := new Registry(config.registered);
    var port := new ApprovalPort();
    var policy := new Policy();
    executor := new ToolExecutor(emitter, registry, policy, port, config.hasPort, config.interactive, config.project);
  }

  lemma {:induction false} AtRestIsDisciplined(log: seq<Event>)
    ensures AtRest(log) ==> Disciplined(log)
  {
  }

  /** A new session, or a resumed one: it is refused exactly when its log cannot be recovered. */
  method BuildAgentBackend(config: Config, resume: Option<seq<Event>>) returns (r: Result<AgentLoop, ResumeError>)
    requires config.Valid() && (resume.Some? ==> SaneLog(config.registered, resume.value))
    ensures r.Err? <==> resume.Some? && (AgentStart !in resume.value || Recovered(resume.value).Err?)
    ensures r.Ok? ==>
              var loop, log := r.value, if resume.Some? then resume.value else [];
              && fresh(loop) && fresh(loop.emitter) && fresh(loop.budget) && fresh(loop.context) && fresh(loop.model)
              && fresh(loop.cancellation) && fresh(loop.executor) && fresh(loop.registry) && fresh(loop.port)
              && loop.Valid() && !loop.turnActive && !loop.sessionClosed && loop.open == []
              && loop.emitter.events == log && loop.emitter.failures == 0 && loop.origin.registered == config.registered
              && (loop.origin.clean <==> AtRest(log)) && loop.base == |log|
              && loop.budget.Snapshot() == RecoveredBudget(log)
  {
    hide SaneLog, Disciplined, Consistent;
    var log, plan := [], ResumePlan(Counters(0, 0, 0), Restored(None, 0, 0, None, []));
    if resume.Some? {
      log := resume.value;
      plan :- RecoverSessionPlan(log);
    } else {
      NothingWritten(config.registered);
    }
    var loop := BuildLoop(config, log, plan);
    return Ok(loop);
  }

  lemma {:induction false} NothingWritten(registered: set<string>)
    ensures SaneLog(registered, []) && Recovered([]) == Ok(Restored(None, 0, 0, None, []))
    ensures RecoveredBudget([]) == Counters(0, 0, 0)
  {
  }

  // ---------------------------------------------------------------- what a loop's log promises

  /** Whenever a loop rests, its log would restore its context; only an interaction that an earlier
      resume dropped can stand in the way, and only once something follows it. */
  lemma {:induction false} ReplayAgrees(loop: AgentLoop)
    requires loop.Valid() && loop.open == []
    ensures Recovered(loop.emitter.events) ==
            if Resumable(loop.origin, loop.Now()) then Ok(Agreed(loop.origin, loop.Now())) else Err(MissingResults)
  {
    LiveReplayAgreement(loop.origin, loop.Now());
  }

  /** And a restart sends the very request this loop would send, if every declared tool is registered. */
  lemma {:induction false} SameRequestAfterRestart(loop: AgentLoop)
    requires loop.Valid() && loop.open == [] && Resumable(loop.origin, loop.Now()) && NonEmpty(loop.groups)
    requires AllRegistered(loop.origin.registered, Flatten(GroupsAbove(loop.groups, loop.context.Cutoff())))
    ensures var r := Recovered(loop.emitter.events);
            && r.Ok? && Grouped(r.value.messages).Ok?
            && var groups := GroupsAbove(Grouped(r.value.messages).value, Max(r.value.covered, r.value.degraded));
               RequestMessages(loop.builder.prompt, r.value.summary, r.value.covered, r.value.notice, groups) ==
               loop.Request()
  {
    hide Consistent, Ledger;
    SameRequest(loop.origin, loop.Now(), loop.builder.prompt);
  }

  /** A loop that started from a log at rest keeps a log that every crash leaves resumable, at any
      moment, also between the records of a turn, and with the record of a failed write. */
  lemma {:induction false} CrashLeavesResumable(loop: AgentLoop, file: seq<Event>, survived: nat)
    requires loop.emitter.Valid() && loop.emitter.clean && survived <= |file|
    requires file == loop.emitter.events
             || (loop.emitter.unacknowledged.Some? && file == loop.emitter.events + [loop.emitter.unacknowledged.value])
    ensures Disciplined(file[..survived]) && Recovered(file[..survived]).Ok?
  {
    DisciplinedPrefix(file, survived);
    var gs, tail := CrashRecovery(file, survived);
  }

  /** Exactly-once closure, whatever log the loop started from, also one that a crash left inside an
      interaction, and whatever the store refused: a loop at rest has answered every call that it declared
      exactly once, with the call's own correlation, in declaration order. */
  lemma {:induction false} EveryCallClosedOnce(loop: AgentLoop)
    requires loop.Valid() && loop.open == []
    ensures var own := loop.emitter.events[loop.base..];
            && InOrder(loop.emitter.events, loop.base)
            && Declared(own) == Answered(own) && Distinct(Declared(own))
  {
    loop.CallsClosed();
  }

  /** In the middle of a turn the calls without a result are exactly the pending ones, as long as none was
      lost to the store. */
  lemma {:induction false} OnlyPendingCallsOpen(loop: AgentLoop)
    requires loop.Valid() && loop.lost == []
    ensures var own := loop.emitter.events[loop.base..];
            Declared(own) == Answered(own) + PlanIds(loop.pending) && InOrder(loop.emitter.events, loop.base)
  {
    hide Consistent;
  }

  /** What the log says is summarised never shrinks, and every summary this loop stored covers strictly
      more than anything before it. */
  lemma {:induction false} CoverageNeverShrinks(loop: AgentLoop, i: nat, j: nat)
    requires loop.Valid() && loop.base <= i <= j <= |loop.emitter.events|
    ensures var events := loop.emitter.events;
            && Replayed(events[..i]).covered <= Replayed(events[..j]).covered
            && (i < j && events[j - 1].Compaction? && events[j - 1].succeeded ==>
                  Replayed(events[..i]).covered < events[j - 1].covered)
  {
    hide Consistent, Settled;
    CoverageAdvances(loop.emitter.events, loop.base, i, j);
  }

  /** Write-ahead execution: whatever reached the registry was validated, its tool_call stands in the
      log, and the last record before it allows it; an ask was allowed by an approval that said yes. */
  lemma {:induction false} ToolsRunBehindTheirDecision(loop: AgentLoop, i: nat)
    requires loop.Valid() && i < |loop.registry.dispatches|
    ensures var d, events := loop.registry.dispatches[i], loop.emitter.events;
            && d.correlation in loop.registry.validated
            && d.start + 1 < d.at <= |events| && events[d.start] == ToolCall(d.correlation)
            && var decision := events[d.at - 1];
               && decision.PolicyDecision? && decision.correlation == d.correlation && decision.decision == Allow
               && (decision.requested != Allow ==> Answer(d.correlation, true) in loop.port.answers)
  {
    hide Consistent, Ledger;
    var d, events := loop.registry.dispatches[i], loop.emitter.events;
    assert Justified(d, events, loop.port.answers, loop.registry.validated);
    assert events[..d.at][d.start] == events[d.start] && events[..d.at][d.at - 1] == events[d.at - 1];
  }

  /** All work is bounded, over all turns and whatever the model asks for: steps and tool calls by their
      limits, unless the resumed count is larger, and every request by the context window. */
  lemma {:induction false} WorkIsBounded(loop: AgentLoop, i: nat)
    requires loop.Valid() && i < |loop.model.sent|
    ensures loop.budget.modelSteps <= Max(loop.budget.maxSteps, loop.start.steps)
    ensures loop.start.calls + |loop.registry.dispatches| <= Max(loop.budget.maxToolCalls, loop.start.calls)
    ensures loop.model.window.Fits(loop.model.sent[i].messages, loop.model.sent[i].tools)
  {
    hide Consistent, Ledger;
  }

  /** Nothing of this loop comes behind the end of its session, which closes the loop. */
  lemma {:induction false} SessionEndIsLast(loop: AgentLoop, i: nat)
    requires loop.Valid() && loop.base <= i < |loop.emitter.events| && loop.emitter.events[i].SessionEnd?
    ensures i == |loop.emitter.events| - 1 && loop.sessionClosed
  {
    hide Consistent;
  }

  // ---------------------------------------------------------------- lifetimes

  /** From this record on the log answers every call it declares, exactly once and in order. */
  ghost predicate SmoothPart(log: seq<Event>, from: nat)
    requires from <= |log|
  {
    InOrder(log, from) && Declared(log[from..]) == Answered(log[from..]) && Distinct(Declared(log[from..]))
  }

  /** One turn; the next one may follow unless it was refused or ended the session. */
  method NextTurn(loop: AgentLoop, message: string) returns (goesOn: bool)
    requires loop.Valid() && (loop.emitter.failures == 0 ==> loop.open == [])
    modifies loop, loop.budget, loop.context, loop.emitter, loop.model, loop.cancellation, loop.executor,
             loop.registry, loop.port
    ensures loop.Valid() && old(loop.emitter.events) <= loop.emitter.events
    ensures loop.emitter.failures == 0 ==> loop.open == []
    ensures goesOn ==> !loop.turnActive && !loop.sessionClosed
  {
    hide loop.Valid, loop.Finished, loop.Said, TurnGrowth;
    ghost var before, failures := loop.emitter.events, loop.emitter.failures;
    var r := loop.RunTurn(message);
    if r.Ok? {
      loop.FinishedIsValid(r.value, before, failures);
    }
    return r.Ok? && !loop.sessionClosed;
  }

  /** Turns until one is refused or ends the session; then close. The file may hold the record of a
      failed write. */
  method RunLoop(loop: AgentLoop, messages: seq<string>) returns (file: seq<Event>, smooth: bool)
    requires loop.Valid() && !loop.turnActive && !loop.sessionClosed && loop.open == []
    requires loop.emitter.failures == 0
    modifies loop, loop.budget, loop.context, loop.emitter, loop.model, loop.cancellation, loop.executor,
             loop.registry, loop.port
    ensures SaneLog(loop.emitter.registered, file) && old(loop.emitter.events) <= file
    ensures loop.emitter.clean ==> Disciplined(file)
    ensures loop.base <= |file| && (smooth ==> SmoothPart(file, loop.base) && (loop.emitter.clean ==> Open(file) == []))
  {
    hide loop.Valid, loop.Finished, loop.Said, SmoothPart, SaneLog, Disciplined, Open, TurnGrowth;
    for i := 0 to |messages|
      invariant loop.Valid() && old(loop.emitter.events) <= loop.emitter.events
      invariant loop.emitter.failures == 0 ==> loop.open == []
    {
      var goesOn := NextTurn(loop, messages[i]);
      if !goesOn {
        break;
      }
    }
    loop.Close();
    smooth := loop.emitter.failures == 0;
    file := loop.emitter.events;
    LogFacts(loop);
    var survived: bool := *;
    if survived && loop.emitter.unacknowledged.Some? {
      file := file + [loop.emitter.unacknowledged.value];
    }
  }

  /** What the file of a loop holds. */
  lemma {:induction false} LogFacts(loop: AgentLoop)
    requires loop.Valid()
    ensures var emitter := loop.emitter;
            && SaneLog(emitter.registered, emitter.events) && (emitter.clean ==> Disciplined(emitter.events))
            && (emitter.unacknowledged.Some? ==>
                  && emitter.failures > 0
                  && SaneLog(emitter.registered, emitter.events + [emitter.unacknowledged.value])
                  && (emitter.clean ==> Disciplined(emitter.events + [emitter.unacknowledged.value])))
            && loop.base <= |emitter.events| && (loop.open == [] ==> SmoothPart(emitter.events, loop.base))
            && (loop.open == [] && emitter.clean ==> Open(emitter.events) == [])
  {
    hide InOrder, Advancing, Issued, SaneLog, Disciplined;
    if loop.open == [] {
      loop.CallsClosed();
      RestingView(loop.origin, loop.Now());
    }
  }

  /** One process: resume, run turns until one is refused or ends the session, close. */
  method Lifetime(config: Config, log: seq<Event>, messages: seq<string>)
    returns (file: seq<Event>, started: bool, smooth: bool)
    requires config.Valid() && SaneLog(config.registered, log)
    ensures SaneLog(config.registered, file) && log <= file
    ensures started <==> log == [] || (AgentStart in log && Recovered(log).Ok?)
    ensures !started ==> file == log
    ensures AtRest(log) ==> Disciplined(file)
    ensures AtRest(log) && smooth ==> AtRest(file)
    ensures smooth ==> SmoothPart(file, |log|)
    ensures AtRest(log) && InOrder(log, 0) && smooth ==> InOrder(file, 0) && Declared(file) == Answered(file)
  {
    hide Consistent, InOrder, SaneLog, Disciplined, SmoothPart;
    var built := BuildAgentBackend(config, if log == [] then None else Some(log));
    if built.Err? {
      NothingAdded(log);
      return log, false, true;
    }
    var loop := built.value;
    file, smooth := RunLoop(loop, messages);
    started := true;
    if AtRest(log) && InOrder(log, 0) && smooth {
      WholeFile(log, file);
    }
  }

  lemma {:induction false} NothingAdded(log: seq<Event>)
    ensures SmoothPart(log, |log|)
    ensures AtRest(log) && InOrder(log, 0) ==> Declared(log) == Answered(log)
  {
    assert log[|log|..] == [];
    if AtRest(log) && InOrder(log, 0) {
      CallsAnsweredInOrder(log);
    }
  }

  lemma {:induction false} WholeFile(log: seq<Event>, file: seq<Event>)
    requires log <= file && InOrder(log, 0) && SmoothPart(file, |log|) && AtRest(file)
    ensures InOrder(file, 0) && Declared(file) == Answered(file)
  {
    assert file == log + file[|log|..];
    InOrderJoined(log, file[|log|..]);
    CallsAnsweredInOrder(file);
  }
}
