/** web/src/domain/reducer.ts: the browser's state as a pure function of what it was told. */
module Reducer {
  import opened Wrappers

  datatype Status = Running | WaitingForApproval | CompletedTurn | LimitReached | Interrupted | Failed

  datatype Connection = Disconnected | Connecting | Connected | Closed | Error

  datatype CommandKind = SubmitTask | ApprovalResponse | SetApprovalMode | Interrupt | CloseSession

  /** What the reducer reads of a payload, per event type. */
  datatype Kind =
    | SessionStart(state: Option<Status>)
    | AgentStart(state: Option<Status>)
    | UserMessage
    | AssistantMessage(text: Option<string>)
    | ToolCall
    | ApprovalRequest(request: Option<string>, tool: string)
    | PolicyDecision
    | TurnEnd(state: Option<Status>, text: Option<string>)
    | AgentEnd(state: Option<Status>)
    | SessionEnd(state: Option<Status>)
    | ErrorEvent(message: Option<string>)
    | Retry
    | Compaction
    | ToolResult
    | Unknown

  datatype Envelope = Envelope(session: string, sequence: nat, correlation: Option<string>, kind: Kind)

  datatype Diagnostic = Diagnostic(code: string, sequence: Option<nat>)

  /** web/src/domain/events.ts parseEventEnvelopeResult: the sequence may be readable although the rest
      is not. */
  datatype Parsed = Parsed(envelope: Option<Envelope>, sequence: Option<nat>, diagnostics: seq<Diagnostic>) {
    predicate Valid() {
      && (sequence.Some? ==> sequence.value > 0)
      && (envelope.Some? ==> sequence == Some(envelope.value.sequence))
    }
  }

  datatype Approval = Approval(request: string, tool: string)

  /** Everything that events alone decide. */
  datatype Facts = Facts(
    agentSession: Option<string>, cursor: nat, status: Status, turnActive: bool, ambiguous: bool,
    pending: Option<Approval>, inFlight: Option<CommandKind>, uncertain: bool,
    lastEvent: Option<Envelope>, events: seq<Envelope>, latestText: string, finalText: string)

  datatype State = State(
    facts: Facts, transport: Option<string>, connection: Connection, streamAvailable: bool,
    needsResubscribe: bool, retryExhausted: bool, lastError: Option<string>, diagnostics: seq<Diagnostic>)

  datatype Action =
    | DoConnecting
    | DoConnected(transport: string, cursor: nat, status: Status)
    | DoAttached(transport: string, cursor: nat, status: Status)
    | DoEvent(input: Parsed)
    | DoHydrate(input: Parsed)
    | StreamOpened
    | StreamError(message: string)
    | StreamClosed
    | StreamRetryExhausted(message: string)
    | CommandStarted(command: CommandKind)
    | CommandAccepted(command: CommandKind)
    | CommandFailed(command: CommandKind, message: string, unsure: bool)
    | DoClosed
    | SessionUnavailable(message: string)
    | Reset

  const MAX_RETAINED_EVENTS := 500
  const MAX_DIAGNOSTICS := 100

  function LastOf<T>(s: seq<T>, n: nat): (r: seq<T>)
    ensures |r| <= n && |r| <= |s| && r == s[|s| - |r|..]
  {
    if |s| <= n then s else s[|s| - n..]
  }

  function Initial(): State {
    State(Facts(None, 0, Running, false, false, None, None, false, None, [], "", ""),
          None, Disconnected, false, false, false, None, [])
  }

  predicate Terminal(s: Status) {
    s.LimitReached? || s.Interrupted? || s.Failed?
  }

  function Diagnosed(s: State, more: seq<Diagnostic>): State {
    if more == [] then s else s.(diagnostics := LastOf(s.diagnostics + more, MAX_DIAGNOSTICS))
  }

  // ---------------------------------------------------------------- one event

  function Consumed(f: Facts, e: Envelope): Facts {
    f.(agentSession := if f.agentSession.Some? then f.agentSession else Some(e.session),
       cursor := e.sequence, lastEvent := Some(e), events := LastOf(f.events + [e], MAX_RETAINED_EVENTS))
  }

  function WithStatus(f: Facts, next: Status): Facts {
    if Terminal(f.status) then f else f.(status := next)
  }

  function StateOr(state: Option<Status>, default: Status): Status {
    if state.Some? then state.value else default
  }

  function TextOr(text: Option<string>, default: string): string {
    if text.Some? then text.value else default
  }

  function ApprovalFrom(e: Envelope): Option<Approval>
    requires e.kind.ApprovalRequest?
  {
    if e.kind.request.Some? && e.correlation == e.kind.request then Some(Approval(e.kind.request.value, e.kind.tool))
    else None
  }

  predicate Settles(f: Facts, e: Envelope) {
    e.kind.PolicyDecision? && f.pending.Some? && e.correlation == Some(f.pending.value.request)
  }

  /** applyKnownEvent, as far as events alone decide. */
  function ApplyFacts(f: Facts, e: Envelope): Facts {
    if Terminal(f.status) && !e.kind.SessionEnd? then f
    else
      match e.kind
      case SessionStart(state) => WithStatus(f, StateOr(state, Running))
      case AgentStart(state) => WithStatus(f, StateOr(state, Running))
      case UserMessage => f.(status := Running, turnActive := true)
      case AssistantMessage(text) =>
        WithStatus(f, Running).(turnActive := true, latestText := TextOr(text, f.latestText))
      case ToolCall => WithStatus(f, Running)
      case ApprovalRequest(_, _) =>
        var approval := ApprovalFrom(e);
        if approval.Some? then f.(status := WaitingForApproval, turnActive := true, pending := approval)
        else if f.pending.None? then f.(status := Running, turnActive := true)
        else f
      case PolicyDecision =>
        if Settles(f, e) then
          f.(pending := None, inFlight := if f.inFlight == Some(ApprovalResponse) then None else f.inFlight,
             status := Running)
        else f
      case TurnEnd(state, text) =>
        if state.None? then f.(turnActive := true, pending := None)
        else
          f.(status := state.value, turnActive := false, ambiguous := false, pending := None, inFlight := None,
             uncertain := false, finalText := TextOr(text, f.latestText))
      case AgentEnd(state) =>
        if state.None? then f
        else
          f.(status := state.value, turnActive := f.ambiguous, pending := None, inFlight := None, uncertain := false)
      case SessionEnd(state) =>
        f.(status := if state.Some? && (!Terminal(f.status) || Terminal(state.value)) then state.value else f.status,
           turnActive := false, ambiguous := false, pending := None, inFlight := None, uncertain := false)
      case _ => f
  }

  /** applyKnownEvent: the facts, and the connection, the error line and the diagnostics beside them. */
  function ApplyKnown(s: State, e: Envelope): State {
    var f := s.facts;
    var t := s.(facts := ApplyFacts(f, e));
    if Terminal(f.status) && !e.kind.SessionEnd? then s
    else
      match e.kind
      case ApprovalRequest(_, _) =>
        if ApprovalFrom(e).None? then Diagnosed(t, [Diagnostic("invalid_field", Some(e.sequence))]) else t
      case PolicyDecision =>
        if f.pending.Some? && !Settles(f, e) then Diagnosed(t, [Diagnostic("invalid_field", Some(e.sequence))]) else t
      case TurnEnd(state, _) =>
        if state.None? then Diagnosed(t, [Diagnostic("invalid_field", Some(e.sequence))]) else t
      case SessionEnd(_) => t.(connection := Closed, streamAvailable := false, retryExhausted := false)
      case ErrorEvent(message) => t.(lastError := if message.Some? then message else s.lastError)
      case Unknown => Diagnosed(t, [Diagnostic("unknown_event_type", Some(e.sequence))])
      case _ => t
  }

  function ReduceEvent(s: State, input: Parsed): State {
    if input.sequence.Some? && input.sequence.value <= s.facts.cursor then s
    else if input.envelope.None? then Diagnosed(s, input.diagnostics)
    else
      var e := input.envelope.value;
      if e.sequence > s.facts.cursor + 1 then
        Diagnosed(s, input.diagnostics + [Diagnostic("sequence_gap", Some(e.sequence))]).(needsResubscribe := true)
      else
        ApplyKnown(Diagnosed(s.(facts := Consumed(s.facts, e)), input.diagnostics).(streamAvailable := true), e)
  }

  /** History replayed into a live session never ends it. */
  function ReduceHydrate(s: State, input: Parsed): State {
    var r := ReduceEvent(s, input);
    r.(connection := s.connection, transport := s.transport, streamAvailable := s.streamAvailable,
       retryExhausted := s.retryExhausted,
       facts := r.facts.(status :=
         if Terminal(r.facts.status) && !Terminal(s.facts.status) then s.facts.status else r.facts.status))
  }

  // ---------------------------------------------------------------- every action

  function Reduce(s: State, a: Action): State {
    match a
    case DoConnecting =>
      s.(connection := Connecting, lastError := None, streamAvailable := false, retryExhausted := false)
    case DoConnected(transport, cursor, status) =>
      s.(transport := Some(transport), connection := Connected, streamAvailable := false, retryExhausted := false,
         lastError := None,
         facts := s.facts.(status := status, cursor := cursor, turnActive := false, ambiguous := false, pending := None,
                           inFlight := None, uncertain := false))
    case DoAttached(transport, cursor, status) =>
      Diagnosed(s, if status.Running? then [Diagnostic("invalid_field", None)] else [])
      .(transport := Some(transport), connection := Connected, streamAvailable := false, needsResubscribe := false,
        retryExhausted := false, lastError := None,
        facts := s.facts.(cursor := if s.facts.cursor < cursor then cursor else s.facts.cursor, status := status,
                          turnActive :=
                            if status.Running? || status.WaitingForApproval? then true else s.facts.turnActive,
                          ambiguous := status.Running?))
    case DoEvent(input) => ReduceEvent(s, input)
    case DoHydrate(input) => ReduceHydrate(s, input)
    case StreamOpened =>
      if s.connection.Closed? then s
      else s.(streamAvailable := true, needsResubscribe := false, retryExhausted := false, lastError := None)
    case StreamError(message) =>
      s.(connection := if s.connection.Closed? then Closed
                       else if s.transport.None? || s.connection.Connecting? then Error else Connected,
         lastError := Some(message), streamAvailable := false, retryExhausted := false)
    case StreamClosed =>
      if s.connection.Closed? then s
      else
        s.(connection := if s.transport.None? then Error else Connected,
           streamAvailable := false, retryExhausted := false)
    case StreamRetryExhausted(message) =>
      if s.connection.Closed? then s
      else s.(connection := Error, streamAvailable := false, retryExhausted := true, lastError := Some(message))
    case CommandStarted(command) =>
      var f := s.facts.(inFlight := Some(command), uncertain := false);
      s.(facts := if command.SubmitTask? && !Terminal(f.status) then f.(status := Running, turnActive := true) else f)
    case CommandAccepted(command) =>
      var locked := (command.ApprovalResponse? && s.facts.pending.Some?) || (command.Interrupt? && s.facts.turnActive);
      var t := s.(facts := s.facts.(inFlight := if locked then Some(command) else None, uncertain := false));
      if command.CloseSession? then t.(connection := Closed, streamAvailable := false) else t
    case CommandFailed(command, message, unsure) =>
      s.(lastError := Some(message),
         facts := s.facts.(inFlight := if unsure then Some(command) else None, uncertain := unsure,
                           turnActive := if command.SubmitTask? then unsure else s.facts.turnActive))
    case DoClosed =>
      s.(connection := Closed, streamAvailable := false, retryExhausted := false,
         facts := s.facts.(inFlight := None, uncertain := false, turnActive := false, ambiguous := false,
                           pending := None))
    case SessionUnavailable(message) => Initial().(connection := Error, lastError := Some(message))
    case Reset => Initial()
  }

  datatype Gate = Gate(canSubmit: bool, canApprove: bool, canInterrupt: bool, canClose: bool)

  function GateFor(s: State): Gate {
    var f := s.facts;
    if !s.connection.Connected? || s.transport.None? then Gate(false, false, false, false)
    else if f.status.WaitingForApproval? then
      Gate(false, f.pending.Some? && f.inFlight != Some(ApprovalResponse) && s.streamAvailable,
           f.turnActive && f.inFlight.None?, true)
    else if Terminal(f.status) then Gate(false, false, false, true)
    else if f.ambiguous || f.turnActive then Gate(false, false, f.inFlight.None?, true)
    else if f.uncertain || f.inFlight.Some? then Gate(false, false, false, true)
    else Gate(true, false, false, true)
  }

  // ---------------------------------------------------------------- deliveries of a log

  /** A log as the store numbers it. */
  predicate Canonical(log: seq<Envelope>) {
    forall i :: 0 <= i < |log| ==> log[i].sequence == i + 1
  }

  /** What the connection can bring: an event of the log at any time and any number of times, something
      unreadable, or a change of the stream. */
  predicate Delivers(a: Action, log: seq<Envelope>) {
    match a
    case DoEvent(input) =>
      && input.Valid()
      && (input.envelope.Some? ==> input.envelope.value in log)
    case StreamOpened => true
    case StreamError(_) => true
    case StreamClosed => true
    case StreamRetryExhausted(_) => true
    case _ => false
  }

  function Run(s: State, actions: seq<Action>): State {
    if actions == [] then s else Reduce(Run(s, actions[..|actions| - 1]), actions[|actions| - 1])
  }

  /** The plain fold over the log: every entry once, in order. */
  function Fold(f: Facts, log: seq<Envelope>): Facts {
    if log == [] then f
    else
      var e := log[|log| - 1];
      ApplyFacts(Consumed(Fold(f, log[..|log| - 1]), e), e)
  }

  lemma {:induction false} KeepsCursor(f: Facts, e: Envelope)
    ensures ApplyFacts(f, e).cursor == f.cursor && ApplyFacts(f, e).events == f.events
    ensures ApplyFacts(f, e).lastEvent == f.lastEvent && ApplyFacts(f, e).agentSession == f.agentSession
  {
  }

  /** An event counts exactly when it is the next one. */
  lemma {:induction false} EventFacts(s: State, input: Parsed)
    requires input.Valid()
    ensures ReduceEvent(s, input).facts ==
            if input.envelope.Some? && input.envelope.value.sequence == s.facts.cursor + 1
            then ApplyFacts(Consumed(s.facts, input.envelope.value), input.envelope.value)
            else s.facts
  {
    hide ApplyKnown, LastOf;
    if input.envelope.Some? {
      var e := input.envelope.value;
      KnownFacts(Diagnosed(s.(facts := Consumed(s.facts, e)), input.diagnostics).(streamAvailable := true), e);
    }
  }

  lemma {:induction false} KnownFacts(s: State, e: Envelope)
    ensures ApplyKnown(s, e).facts == ApplyFacts(s.facts, e)
  {
    hide LastOf;
  }

  /** One delivery consumes the next log entry or changes no fact. */
  lemma {:induction false} DeliveryStep(s: State, log: seq<Envelope>, a: Action)
    requires Canonical(log) && Delivers(a, log)
    ensures var f, t := s.facts, Reduce(s, a).facts;
            || t == f
            || (f.cursor < |log| && t == ApplyFacts(Consumed(f, log[f.cursor]), log[f.cursor])
                && t.cursor == f.cursor + 1)
  {
    if a.DoEvent? {
      EventFacts(s, a.input);
      if a.input.envelope.Some? {
        var e := a.input.envelope.value;
        var i :| 0 <= i < |log| && log[i] == e;
        KeepsCursor(Consumed(s.facts, e), e);
      }
    }
  }

  lemma {:induction false} FoldNext(f: Facts, log: seq<Envelope>, from: nat, to: nat)
    requires from <= to < |log|
    ensures Fold(f, log[from..to + 1]) == ApplyFacts(Consumed(Fold(f, log[from..to]), log[to]), log[to])
  {
    hide ApplyFacts, Consumed;
    var part := log[from..to + 1];
    assert part[..|part| - 1] == log[from..to] && part[|part| - 1] == log[to];
  }

  /** Whatever is delivered, how often and in which order, and however the stream breaks in between: the
      cursor never goes back, and the facts are those of the plain fold over exactly the log entries up
      to it. */
  lemma {:induction false} ClientRefines(s: State, log: seq<Envelope>, actions: seq<Action>)
    requires Canonical(log) && s.facts.cursor <= |log|
    requires forall i :: 0 <= i < |actions| ==> Delivers(actions[i], log)
    ensures var t := Run(s, actions);
            && s.facts.cursor <= t.facts.cursor <= |log|
            && t.facts.cursor <= s.facts.cursor + |actions|
            && t.facts == Fold(s.facts, log[s.facts.cursor..t.facts.cursor])
  {
    if actions != [] {
      hide ApplyFacts, Consumed, Reduce, Delivers, Canonical;
      var before, a := actions[..|actions| - 1], actions[|actions| - 1];
      ClientRefines(s, log, before);
      var t := Run(s, before);
      DeliveryStep(t, log, a);
      if t.facts.cursor < |log| {
        FoldNext(s.facts, log, s.facts.cursor, t.facts.cursor);
      }
    }
  }

  /** The events of the log up to n are delivered in order, whatever else comes in between. */
  predicate Complete(log: seq<Envelope>, actions: seq<Action>, n: nat) {
    if n == 0 then true
    else if actions == [] || n > |log| then false
    else
      var before, a := actions[..|actions| - 1], actions[|actions| - 1];
      Complete(log, before, n) || (Complete(log, before, n - 1) && a.DoEvent? && a.input.envelope == Some(log[n - 1]))
  }

  lemma {:induction false} NextConsumed(s: State, log: seq<Envelope>, a: Action)
    requires Canonical(log) && Delivers(a, log) && a.DoEvent? && s.facts.cursor < |log|
    requires a.input.envelope == Some(log[s.facts.cursor])
    ensures Reduce(s, a).facts.cursor == s.facts.cursor + 1
  {
    EventFacts(s, a.input);
    KeepsCursor(Consumed(s.facts, log[s.facts.cursor]), log[s.facts.cursor]);
  }

  lemma {:induction false} CompleteCases(log: seq<Envelope>, actions: seq<Action>, n: nat)
    requires Complete(log, actions, n) && n > 0
    ensures actions != [] && n <= |log|
    ensures var before, a := actions[..|actions| - 1], actions[|actions| - 1];
            || Complete(log, before, n)
            || (Complete(log, before, n - 1) && a.DoEvent? && a.input.envelope == Some(log[n - 1]))
  {
  }

  lemma {:induction false} ArrivesStep(s: State, log: seq<Envelope>, a: Action, n: nat)
    requires Canonical(log) && Delivers(a, log) && s.facts.cursor <= |log| && 0 < n <= |log|
    requires s.facts.cursor >= n
             || (s.facts.cursor == n - 1 && a.DoEvent? && a.input.envelope == Some(log[n - 1]))
    ensures Reduce(s, a).facts.cursor >= n
  {
    if s.facts.cursor == n - 1 {
      NextConsumed(s, log, a);
    } else {
      DeliveryStep(s, log, a);
    }
  }

  /** Resubscribing from the cursor is enough: once every entry came after its predecessors at least
      once, all of them are consumed. */
  lemma {:induction false} EverythingArrives(s: State, log: seq<Envelope>, actions: seq<Action>, n: nat)
    requires Canonical(log) && s.facts.cursor <= |log|
    requires forall i :: 0 <= i < |actions| ==> Delivers(actions[i], log)
    requires Complete(log, actions, n)
    ensures Run(s, actions).facts.cursor >= n
    decreases |actions|
  {
    if n > 0 {
      CompleteCases(log, actions, n);
      hide Complete, Fold, Reduce, Delivers, Canonical;
      var before, a := actions[..|actions| - 1], actions[|actions| - 1];
      ClientRefines(s, log, before);
      if Complete(log, before, n) {
        EverythingArrives(s, log, before, n);
      } else {
        EverythingArrives(s, log, before, n - 1);
      }
      ArrivesStep(Run(s, before), log, a, n);
    }
  }

  // ---------------------------------------------------------------- one-way facts

  /** A terminal state stays terminal, and no task can be submitted any more. */
  lemma {:induction false} TerminalStays(s: State, log: seq<Envelope>, actions: seq<Action>)
    requires Terminal(s.facts.status)
    requires forall i :: 0 <= i < |actions| ==> Delivers(actions[i], log)
    ensures Terminal(Run(s, actions).facts.status) && !GateFor(Run(s, actions)).canSubmit
  {
    if actions != [] {
      TerminalStays(s, log, actions[..|actions| - 1]);
      var a := actions[|actions| - 1];
      if a.DoEvent? {
        EventFacts(Run(s, actions[..|actions| - 1]), a.input);
      }
    }
  }

  lemma {:induction false} EventConnection(s: State, input: Parsed)
    ensures ReduceEvent(s, input).connection == s.connection || ReduceEvent(s, input).connection == Closed
  {
    hide ApplyFacts, Consumed, LastOf;
  }

  /** No event and no stream change reopens a closed connection, and every command stays locked. */
  lemma {:induction false} ClosedStays(s: State, log: seq<Envelope>, actions: seq<Action>)
    requires s.connection == Closed
    requires forall i :: 0 <= i < |actions| ==> Delivers(actions[i], log)
    ensures Run(s, actions).connection == Closed && GateFor(Run(s, actions)) == Gate(false, false, false, false)
  {
    if actions != [] {
      ClosedStays(s, log, actions[..|actions| - 1]);
      var a := actions[|actions| - 1];
      if a.DoEvent? {
        EventConnection(Run(s, actions[..|actions| - 1]), a.input);
      }
    }
  }

  /** Hydrating history never ends a live session: connection, transport and a live status survive. */
  lemma {:induction false} HydrationKeepsLive(s: State, input: Parsed)
    requires input.Valid()
    ensures var r := Reduce(s, DoHydrate(input));
            && r.connection == s.connection && r.transport == s.transport && r.streamAvailable == s.streamAvailable
            && (!Terminal(s.facts.status) ==> !Terminal(r.facts.status))
            && r.facts.cursor == Reduce(s, DoEvent(input)).facts.cursor
            && r.facts.events == Reduce(s, DoEvent(input)).facts.events
  {
  }

  // ---------------------------------------------------------------- the pending approval

  /** Nothing after the request has settled it. */
  predicate StillOpen(log: seq<Envelope>, k: nat) {
    forall j :: k < j < |log| ==>
      !(log[j].kind.PolicyDecision? && log[j].correlation == log[k].correlation) && !log[j].kind.TurnEnd?
  }

  ghost predicate PendingExplained(f: Facts, log: seq<Envelope>) {
    f.pending.Some? ==>
      exists k :: 0 <= k < |log| && log[k].kind.ApprovalRequest? && ApprovalFrom(log[k]) == f.pending
                  && StillOpen(log, k)
  }

  lemma {:induction false} StillOpenNext(log: seq<Envelope>, e: Envelope, k: nat)
    requires k < |log| && StillOpen(log, k)
    requires !(e.kind.PolicyDecision? && e.correlation == log[k].correlation) && !e.kind.TurnEnd?
    ensures StillOpen(log + [e], k)
  {
    var next := log + [e];
    assert next[k] == log[k];
    forall j | k < j < |next|
      ensures !(next[j].kind.PolicyDecision? && next[j].correlation == next[k].correlation) && !next[j].kind.TurnEnd?
    {
      if j < |log| {
        assert next[j] == log[j];
      }
    }
  }

  lemma {:induction false} PendingStep(f: Facts, log: seq<Envelope>, e: Envelope)
    requires PendingExplained(f, log) && !Terminal(f.status)
    ensures PendingExplained(ApplyFacts(Consumed(f, e), e), log + [e])
  {
    var next, g := log + [e], ApplyFacts(Consumed(f, e), e);
    if g.pending.Some? {
      if e.kind.ApprovalRequest? && g.pending == ApprovalFrom(e) {
        assert next[|log|] == e && StillOpen(next, |log|);
      } else {
        assert g.pending == f.pending;
        var k :| 0 <= k < |log| && log[k].kind.ApprovalRequest? && ApprovalFrom(log[k]) == f.pending
                 && StillOpen(log, k);
        assert next[k] == log[k];
        StillOpenNext(log, e, k);
      }
    }
  }

  lemma {:induction false} TerminalPending(f: Facts, e: Envelope)
    requires Terminal(f.status)
    ensures Terminal(ApplyFacts(Consumed(f, e), e).status)
    ensures ApplyFacts(Consumed(f, e), e).pending.Some? ==> ApplyFacts(Consumed(f, e), e).pending == f.pending
  {
  }

  /** A response can be given only to a request of the log that names its own correlation and is neither
      decided nor followed by the end of its turn. */
  lemma {:induction false} ApprovalIsOpen(s: State, log: seq<Envelope>, actions: seq<Action>)
    requires Canonical(log) && s.facts.cursor == 0 && s.facts.pending.None?
    requires forall i :: 0 <= i < |actions| ==> Delivers(actions[i], log)
    requires GateFor(Run(s, actions)).canApprove
    ensures var t := Run(s, actions);
            && t.facts.cursor <= |log|
            && exists k :: 0 <= k < t.facts.cursor && log[k].kind.ApprovalRequest?
                 && log[k].correlation == log[k].kind.request == Some(t.facts.pending.value.request)
                 && StillOpen(log[..t.facts.cursor], k)
  {
    ClientRefines(s, log, actions);
    var t := Run(s, actions);
    assert log[0..t.facts.cursor] == log[..t.facts.cursor];
    FoldExplained(s.facts, log[..t.facts.cursor]);
    var k :| 0 <= k < t.facts.cursor && log[..t.facts.cursor][k].kind.ApprovalRequest?
             && ApprovalFrom(log[..t.facts.cursor][k]) == t.facts.pending && StillOpen(log[..t.facts.cursor], k);
    assert log[..t.facts.cursor][k] == log[k];
  }

  lemma {:induction false} FoldExplained(f: Facts, log: seq<Envelope>)
    requires f.pending.None?
    ensures Terminal(Fold(f, log).status) || PendingExplained(Fold(f, log), log)
  {
    if log != [] {
      var init, e := log[..|log| - 1], log[|log| - 1];
      FoldExplained(f, init);
      assert log == init + [e];
      if Terminal(Fold(f, init).status) {
        TerminalPending(Fold(f, init), e);
      } else {
        PendingStep(Fold(f, init), init, e);
      }
    }
  }
}
