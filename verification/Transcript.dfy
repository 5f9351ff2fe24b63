/** The facts of one session: what the loop writes to the log and what the model reads back.

    A record's sequence is its position in the log plus one: module SessionStore proves that the
    store allocates exactly 1..n. Provider identifiers and internal correlation identifiers are
    different constructors, so they never collide. */
module Transcript {
  import opened Wrappers

  datatype Id = Provider(text: string) | Internal(serial: nat)

  datatype Status = Success | Error | Denied | Invalid | Cancelled | Timeout

  /** The model-visible projection of a tool result, as a JSON value. */
  datatype ToolData = ToolData(status: Status, text: string, executed: bool)

  datatype ToolRef = ToolRef(id: Id, name: string, arguments: string)

  datatype Msg =
    | User(text: string)
    | Assistant(text: string, calls: seq<ToolRef>)
    | Tool(id: Id, data: ToolData)
    | System(text: string)

  /** One projected message with the sequence of the record that produced it. */
  datatype Entry = Entry(msg: Msg, sequence: nat)

  datatype Decision = Allow | Ask | Deny

  datatype RunState = Running | CompletedTurn | LimitReached | Interrupted | Failed

  /** The counters of a budget snapshot that replay reads back. */
  datatype Counters = Counters(steps: nat, calls: nat, protocolErrors: nat)

  /** A declared call in an assistant record. `badId` says that its diagnostics contain one of the
      three provider-identifier codes. */
  datatype CallRecord = CallRecord(
    correlation: Id, provider: Option<Id>, name: string, arguments: string, badId: bool)

  datatype Event =
    | SessionStart
    | AgentStart
    | UserMessage(text: string)
    | AssistantMessage(text: string, calls: seq<CallRecord>)
    | ToolCall(correlation: Id)
    | ApprovalRequest(correlation: Id)
    | PolicyDecision(correlation: Id, requested: Decision, decision: Decision, approved: Option<bool>)
    | ToolResult(correlation: Id, provider: Option<Id>, data: ToolData)
    | Compaction(succeeded: bool, forced: bool, sourceStart: nat, sourceEnd: nat,
                 covered: nat, degraded: Option<nat>, summary: Option<string>)
    | Retry
    | EmptyResponse(consecutive: nat)
    | ErrorEvent
    | TurnEnd(state: RunState, budget: Counters)
    | AgentEnd(state: RunState, budget: Counters)
    | SessionEnd(state: RunState, budget: Counters)

  const INVALID_TOOL_NAME := "invalid_tool_name"
  const HIDDEN_TOOL_NAME := "<invalid-tool-name>"

  // The opening words of the two fixed notices stand for their whole text.
  const DEGRADED_NOTICE := "compaction failed"
  const PROTOCOL_NOTICE := "Protocol error"

  function Max(a: nat, b: nat): nat {
    if a < b then b else a
  }

  /** The identifier that pairs a declaration with its result in the model context. */
  function ContextId(c: CallRecord): Id {
    if c.provider.Some? && !c.badId then c.provider.value else c.correlation
  }

  predicate Distinct<T(==)>(s: seq<T>) {
    forall i, j :: 0 <= i < j < |s| ==> s[i] != s[j]
  }

  predicate IsDeclaration(m: Msg) {
    m.Assistant? && m.calls != []
  }

  function RefIds(calls: seq<ToolRef>): (ids: seq<Id>)
    ensures |ids| == |calls|
    ensures forall i :: 0 <= i < |ids| ==> ids[i] == calls[i].id
  {
    seq(|calls|, i requires 0 <= i < |calls| => calls[i].id)
  }

  predicate Increasing(es: seq<Entry>) {
    forall i, j :: 0 <= i < j < |es| ==> es[i].sequence < es[j].sequence
  }
}
