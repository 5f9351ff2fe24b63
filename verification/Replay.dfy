/** Rebuilding a runtime from its log, and the discipline of the logs a loop writes.

    Events of child agents are not modelled: every event belongs to the root agent. */
module Replay {
  import opened Wrappers
  import opened Transcript
  import opened Grouping

  // ---------------------------------------------------------------- the context projection

  datatype Projection = Projection(
    summary: Option<string>, covered: nat, degraded: nat, notice: Option<string>,
    pairs: seq<Entry>, pending: map<Id, Id>)

  const NOTHING := Projection(None, 0, 0, None, [], map[])

  function ShownName(name: string): string {
    if name == "" || name == HIDDEN_TOOL_NAME then INVALID_TOOL_NAME else name
  }

  function ShownCall(c: CallRecord): ToolRef {
    ToolRef(ContextId(c), ShownName(c.name), c.arguments)
  }

  function ShownCalls(calls: seq<CallRecord>): (refs: seq<ToolRef>)
    ensures |refs| == |calls|
    ensures forall i :: 0 <= i < |refs| ==> refs[i] == ShownCall(calls[i])
  {
    seq(|calls|, i requires 0 <= i < |calls| => ShownCall(calls[i]))
  }

  function PendingIds(calls: seq<CallRecord>): map<Id, Id> {
    if calls == [] then map[]
    else
      var last := calls[|calls| - 1];
      PendingIds(calls[..|calls| - 1])[last.correlation := ContextId(last)]
  }

  function ResultContextId(pending: map<Id, Id>, correlation: Id, provider: Option<Id>): Id {
    if correlation in pending then pending[correlation]
    else if provider.Some? then provider.value
    else correlation
  }

  /** One record of the replay loop. */
  function Step(p: Projection, e: Event, sequence: nat): Projection {
    match e
    case UserMessage(text) => p.(pairs := p.pairs + [Entry(User(text), sequence)])
    case AssistantMessage(text, calls) =>
      p.(pairs := p.pairs + [Entry(Assistant(text, ShownCalls(calls)), sequence)],
         pending := PendingIds(calls))
    case ToolResult(correlation, provider, data) =>
      p.(pairs := p.pairs
                  + [Entry(Tool(ResultContextId(p.pending, correlation, provider), data), sequence)])
    case EmptyResponse(_) => p.(pairs := p.pairs + [Entry(System(PROTOCOL_NOTICE), sequence)])
    case Compaction(succeeded, _, _, _, covered, degraded, summary) =>
      if succeeded then p.(summary := summary, covered := covered, degraded := 0, notice := None)
      else
        p.(degraded := if degraded.Some? && degraded.value != 0 then degraded.value else p.degraded,
           notice := Some(DEGRADED_NOTICE))
    case _ => p
  }

  function Replayed(log: seq<Event>): Projection {
    if log == [] then NOTHING
    else Step(Replayed(log[..|log| - 1]), log[|log| - 1], |log|)
  }

  function Cutoff(p: Projection): nat {
    Max(p.covered, p.degraded)
  }

  datatype Restored = Restored(
    summary: Option<string>, covered: nat, degraded: nat, notice: Option<string>,
    messages: seq<Entry>)

  /** The context a resumed runtime starts from, or the reason why the log is refused. */
  function Recovered(log: seq<Event>): Result<Restored, GroupError> {
    var p := Replayed(log);
    match CompletedGroups(Above(p.pairs, Cutoff(p)))
    case Ok(gs) => Ok(Restored(p.summary, p.covered, p.degraded, p.notice, Flatten(gs)))
    case Err(e) => Err(e)
  }

  /** assembly.py _context_from_events: one pass over the records, then cut and group. */
  method ContextFromEvents(log: seq<Event>) returns (r: Result<Restored, GroupError>)
    ensures r == Recovered(log)
  {
    var summary: Option<string> := None;
    var covered: nat, degraded: nat := 0, 0;
    var notice: Option<string> := None;
    var pairs: seq<Entry> := [];
    var pending: map<Id, Id> := map[];
    var index := 0;
    while index < |log|
      invariant index <= |log|
      invariant Replayed(log[..index]) == Projection(summary, covered, degraded, notice, pairs, pending)
    {
      assert log[..index + 1][..index] == log[..index];
      var sequence := index + 1;
      match log[index] {
        case Compaction(true, _, _, _, newCovered, _, text) =>
          summary, covered, degraded, notice := text, newCovered, 0, None;
        case Compaction(false, _, _, _, _, newDegraded, _) =>
          if newDegraded.Some? && newDegraded.value != 0 {
            degraded := newDegraded.value;
          }
          notice := Some(DEGRADED_NOTICE);
        case UserMessage(text) =>
          pairs := pairs + [Entry(User(text), sequence)];
        case AssistantMessage(text, calls) =>
          pending := map[];
          var k := 0;
          while k < |calls|
            invariant k <= |calls|
            invariant pending == PendingIds(calls[..k])
          {
            assert calls[..k + 1][..k] == calls[..k];
            pending := pending[calls[k].correlation := ContextId(calls[k])];
            k := k + 1;
          }
          assert calls[..k] == calls;
          pairs := pairs + [Entry(Assistant(text, ShownCalls(calls)), sequence)];
        case ToolResult(correlation, provider, data) =>
          var contextId := correlation;
          if correlation in pending {
            contextId := pending[correlation];
          } else if provider.Some? {
            contextId := provider.value;
          }
          pairs := pairs + [Entry(Tool(contextId, data), sequence)];
        case EmptyResponse(_) =>
          pairs := pairs + [Entry(System(PROTOCOL_NOTICE), sequence)];
        case _ =>
      }
      index := index + 1;
    }
    assert log[..index] == log;
    var groups := CompleteMessageGroups(Above(pairs, Max(covered, degraded)));
    if groups.Err? {
      return Err(groups.error);
    }
    return Ok(Restored(summary, covered, degraded, notice, Flatten(groups.value)));
  }

  // ---------------------------------------------------------------- the budget

  datatype Tally = Tally(counted: Counters, snapshot: Option<Counters>)

  function TallyStep(t: Tally, e: Event): Tally {
    match e
    case AssistantMessage(_, _) => t.(counted := t.counted.(steps := t.counted.steps + 1))
    case ToolResult(_, _, data) =>
      if data.executed then t.(counted := t.counted.(calls := t.counted.calls + 1)) else t
    case EmptyResponse(n) =>
      t.(counted := t.counted.(protocolErrors := if n != 0 then n else t.counted.protocolErrors + 1))
    case TurnEnd(_, b) => t.(snapshot := Some(b))
    case AgentEnd(_, b) => t.(snapshot := Some(b))
    case SessionEnd(_, b) => t.(snapshot := Some(b))
    case _ => t
  }

  function Tallied(log: seq<Event>): Tally {
    if log == [] then Tally(Counters(0, 0, 0), None)
    else TallyStep(Tallied(log[..|log| - 1]), log[|log| - 1])
  }

  function RecoveredBudget(log: seq<Event>): Counters {
    var t := Tallied(log);
    if t.snapshot.Some? then t.snapshot.value else t.counted
  }

  /** assembly.py _budget_from_events: the last snapshot wins over the counts. */
  method BudgetFromEvents(log: seq<Event>) returns (c: Counters)
    ensures c == RecoveredBudget(log)
  {
    var steps: nat, calls: nat, protocolErrors: nat := 0, 0, 0;
    var snapshot: Option<Counters> := None;
    for index := 0 to |log|
      invariant Tallied(log[..index]) == Tally(Counters(steps, calls, protocolErrors), snapshot)
    {
      assert log[..index + 1][..index] == log[..index];
      match log[index] {
        case AssistantMessage(_, _) => steps := steps + 1;
        case ToolResult(_, _, data) =>
          if data.executed {
            calls := calls + 1;
          }
        case EmptyResponse(n) => protocolErrors := if n != 0 then n else protocolErrors + 1;
        case TurnEnd(_, b) => snapshot := Some(b);
        case AgentEnd(_, b) => snapshot := Some(b);
        case SessionEnd(_, b) => snapshot := Some(b);
        case _ =>
      }
    }
    assert log[..|log|] == log;
    if snapshot.Some? {
      return snapshot.value;
    }
    return Counters(steps, calls, protocolErrors);
  }

  // ---------------------------------------------------------------- open calls

  datatype OpenCall = OpenCall(correlation: Id, contextId: Id)

  function OpenOf(calls: seq<CallRecord>): (s: seq<OpenCall>)
    ensures |s| == |calls|
    ensures forall i :: 0 <= i < |s| ==> s[i] == OpenCall(calls[i].correlation, ContextId(calls[i]))
  {
    seq(|calls|, i requires 0 <= i < |calls| => OpenCall(calls[i].correlation, ContextId(calls[i])))
  }

  function WithoutCall(open: seq<OpenCall>, correlation: Id): seq<OpenCall> {
    if open == [] then []
    else if open[0].correlation == correlation then open[1..]
    else [open[0]] + WithoutCall(open[1..], correlation)
  }

  predicate IsOpen(open: seq<OpenCall>, correlation: Id) {
    exists i :: 0 <= i < |open| && open[i].correlation == correlation
  }

  function OpenStep(open: seq<OpenCall>, e: Event): seq<OpenCall> {
    match e
    case AssistantMessage(_, calls) => OpenOf(calls)
    case ToolResult(correlation, _, _) => WithoutCall(open, correlation)
    case _ => open
  }

  /** The declared calls that have no result yet, in declaration order. */
  function Open(log: seq<Event>): seq<OpenCall> {
    if log == [] then [] else OpenStep(Open(log[..|log| - 1]), log[|log| - 1])
  }

  /** The cutoff is the last message of one of the groups. */
  ghost predicate IsEnd(gs: seq<Group>, c: nat) {
    exists k :: 0 <= k < |gs| && gs[k] != [] && EndSequence(gs[k]) == c
  }

  /** The cutoff is the last message of an interaction of this log. */
  ghost predicate EndsGroup(log: seq<Event>, c: nat) {
    var groups := Grouped(Replayed(log).pairs);
    groups.Ok? && IsEnd(groups.value, c)
  }

  function Correlations(calls: seq<CallRecord>): (ids: seq<Id>)
    ensures |ids| == |calls|
    ensures forall i :: 0 <= i < |ids| ==> ids[i] == calls[i].correlation
  {
    seq(|calls|, i requires 0 <= i < |calls| => calls[i].correlation)
  }

  predicate WellDeclared(calls: seq<CallRecord>) {
    Distinct(Correlations(calls)) && Distinct(RefIds(ShownCalls(calls)))
  }

  /** What a loop may append: interactions never interleave, a result closes an open call, and
      compaction cuts only between interactions. */
  ghost predicate Legal(log: seq<Event>, e: Event) {
    match e
    case UserMessage(_) => Open(log) == []
    case EmptyResponse(_) => Open(log) == []
    case AssistantMessage(_, calls) => Open(log) == [] && WellDeclared(calls)
    case ToolResult(correlation, _, _) => IsOpen(Open(log), correlation)
    case Compaction(succeeded, _, _, _, covered, degraded, _) =>
      && Open(log) == []
      && (succeeded ==> EndsGroup(log, covered))
      && (!succeeded ==> degraded.Some? && EndsGroup(log, degraded.value))
    case _ => true
  }

  ghost predicate Disciplined(log: seq<Event>) {
    forall n :: 0 <= n < |log| ==> Legal(log[..n], log[n])
  }

  /** What holds of every record the program writes, also in logs that were resumed in the middle of
      an interaction: declared identifiers are distinct, tools are registered or hidden, and cuts lie
      in the past. */
  predicate Sane(registered: set<string>, e: Event, n: nat) {
    match e
    case AssistantMessage(_, calls) => Distinct(RefIds(ShownCalls(calls))) && KnownNames(registered, calls)
    case Compaction(succeeded, _, _, _, covered, degraded, _) =>
      if succeeded then covered <= n else degraded.Some? ==> degraded.value <= n
    case _ => true
  }

  predicate KnownNames(registered: set<string>, calls: seq<CallRecord>) {
    forall i :: 0 <= i < |calls| ==> calls[i].name in registered || calls[i].name == HIDDEN_TOOL_NAME
  }

  predicate SaneLog(registered: set<string>, log: seq<Event>) {
    forall n :: 0 <= n < |log| ==> Sane(registered, log[n], n)
  }

  /** A crash keeps a prefix, and a prefix of a disciplined log is disciplined. */
  lemma {:induction false} DisciplinedPrefix(log: seq<Event>, m: nat)
    requires Disciplined(log) && m <= |log|
    ensures Disciplined(log[..m])
  {
    forall n | 0 <= n < m ensures Legal(log[..m][..n], log[..m][n]) {
      assert log[..m][..n] == log[..n];
    }
  }

  /** What one appended record does to the functions of the log. */
  lemma {:induction false} Appended(log: seq<Event>, e: Event)
    ensures Replayed(log + [e]) == Step(Replayed(log), e, |log| + 1)
    ensures Open(log + [e]) == OpenStep(Open(log), e)
    ensures Tallied(log + [e]) == TallyStep(Tallied(log), e)
  {
    assert (log + [e])[..|log|] == log;
  }

  lemma {:induction false} DisciplinedAppended(log: seq<Event>, e: Event)
    ensures Disciplined(log + [e]) <==> Disciplined(log) && Legal(log, e)
  {
    var next := log + [e];
    assert next[..|log|] == log;
    if Disciplined(next) {
      DisciplinedPrefix(next, |log|);
      assert Legal(next[..|log|], next[|log|]);
    }
    if Disciplined(log) && Legal(log, e) {
      forall n | 0 <= n < |next| ensures Legal(next[..n], next[n]) {
        if n < |log| {
          assert next[..n] == log[..n] && next[n] == log[n];
        }
      }
    }
  }

  // ---------------------------------------------------------------- the shape of a disciplined log

  /** The open declaration and the results it already has, against the calls still open. */
  ghost predicate OpenShape(open: seq<OpenCall>, pending: map<Id, Id>, tail: seq<Entry>) {
    && Partial(tail)
    && |open| + |tail| - 1 == |tail[0].msg.calls|
    && (forall i :: 0 <= i < |open| ==> Awaited(open[i].contextId, tail))
    && (forall i, j :: 0 <= i < j < |open| ==>
          open[i].correlation != open[j].correlation && open[i].contextId != open[j].contextId)
    && (forall i :: 0 <= i < |open| ==>
          open[i].correlation in pending && pending[open[i].correlation] == open[i].contextId)
  }

  /** The identifier is declared by the first message and not answered by the others. */
  predicate Awaited(id: Id, tail: seq<Entry>) {
    && tail != [] && tail[0].msg.Assistant? && id in RefIds(tail[0].msg.calls)
    && forall i :: 1 <= i < |tail| && tail[i].msg.Tool? ==> tail[i].msg.id != id
  }

  /** A projection of n records: complete interactions and at most one unfinished declaration. */
  ghost predicate Shaped(p: Projection, open: seq<OpenCall>, n: nat, gs: seq<Group>, tail: seq<Entry>) {
    && p.pairs == Flatten(gs) + tail
    && AllComplete(gs)
    && Increasing(p.pairs) && AtMost(p.pairs, n) && Over(p.pairs, 0)
    && (if open == [] then tail == [] else OpenShape(open, p.pending, tail))
    && (p.covered == 0 || IsEnd(gs, p.covered))
    && (p.degraded == 0 || IsEnd(gs, p.degraded))
  }

  ghost predicate Shape(log: seq<Event>, gs: seq<Group>, tail: seq<Entry>) {
    Shaped(Replayed(log), Open(log), |log|, gs, tail)
  }

  lemma {:induction false} IncreasingEnds(es: seq<Entry>)
    requires es != [] && Increasing(es)
    ensures EndSequence(es) == es[|es| - 1].sequence && StartSequence(es) == es[0].sequence
  {
    var first, last := SequenceBounds(es);
  }

  lemma {:induction false} IsEndGrows(gs: seq<Group>, hs: seq<Group>, c: nat)
    requires IsEnd(gs, c)
    ensures IsEnd(gs + hs, c)
  {
    var k :| 0 <= k < |gs| && gs[k] != [] && EndSequence(gs[k]) == c;
    assert (gs + hs)[k] == gs[k];
  }

  /** Cutting after an interaction splits none. */
  lemma {:induction false} EndIsBoundary(gs: seq<Group>, tail: seq<Entry>, c: nat)
    requires NonEmpty(gs) && Increasing(Flatten(gs) + tail) && IsEnd(gs, c)
    ensures Boundary(gs, c) && Over(tail, c)
  {
    var g, rest := gs[0], gs[1..];
    var es := Flatten(rest) + tail;
    assert Flatten(gs) + tail == g + es;
    IncreasingParts(g, es);
    IncreasingEnds(g);
    if IsEnd(rest, c) {
      EndIsBoundary(rest, tail, c);
      var k :| 0 <= k < |rest| && rest[k] != [] && EndSequence(rest[k]) == c;
      EndLies(rest, tail, k);
      assert AtMost(g, c);
    } else {
      assert EndSequence(g) == c;
      assert Over(es, c);
      OverParts(rest, tail, c);
    }
    assert forall i :: 1 <= i < |gs| ==> gs[i] == rest[i - 1];
  }

  lemma {:induction false} IncreasingParts(es: seq<Entry>, fs: seq<Entry>)
    requires Increasing(es + fs)
    ensures Increasing(es) && Increasing(fs)
    ensures forall i, j :: 0 <= i < |es| && 0 <= j < |fs| ==> es[i].sequence < fs[j].sequence
  {
    var all := es + fs;
    assert forall i :: 0 <= i < |es| ==> es[i] == all[i];
    assert forall j :: 0 <= j < |fs| ==> fs[j] == all[|es| + j];
  }

  lemma {:induction false} OverParts(gs: seq<Group>, tail: seq<Entry>, c: nat)
    requires Over(Flatten(gs) + tail, c)
    ensures Boundary(gs, c) && Over(tail, c)
  {
    var all := Flatten(gs) + tail;
    assert forall j :: 0 <= j < |tail| ==> tail[j] == all[|Flatten(gs)| + j];
    if gs != [] {
      var rest := all[|gs[0]|..];
      assert rest == Flatten(gs[1..]) + tail;
      OverParts(gs[1..], tail, c);
      assert forall i :: 0 <= i < |gs[0]| ==> gs[0][i] == all[i];
      assert forall i :: 1 <= i < |gs| ==> gs[i] == gs[1..][i - 1];
    }
  }

  /** The last message of a group is one of the messages. */
  lemma {:induction false} EndLies(gs: seq<Group>, tail: seq<Entry>, k: nat)
    requires k < |gs| && gs[k] != []
    ensures exists i :: 0 <= i < |Flatten(gs) + tail| && (Flatten(gs) + tail)[i].sequence == EndSequence(gs[k])
  {
    var all := Flatten(gs) + tail;
    if k == 0 {
      var first, last := SequenceBounds(gs[0]);
      assert all[last] == gs[0][last];
    } else {
      EndLies(gs[1..], tail, k - 1);
      var rest := Flatten(gs[1..]) + tail;
      assert all == gs[0] + rest;
      var i :| 0 <= i < |rest| && rest[i].sequence == EndSequence(gs[1..][k - 1]);
      assert all[|gs[0]| + i] == rest[i];
    }
  }

  lemma {:induction false} PendingIdsFind(calls: seq<CallRecord>, i: nat)
    requires i < |calls| && Distinct(Correlations(calls))
    ensures calls[i].correlation in PendingIds(calls)
    ensures PendingIds(calls)[calls[i].correlation] == ContextId(calls[i])
  {
    var n := |calls| - 1;
    if i < n {
      var init := calls[..n];
      assert forall j :: 0 <= j < n ==> Correlations(init)[j] == Correlations(calls)[j];
      PendingIdsFind(init, i);
      assert Correlations(calls)[i] != Correlations(calls)[n];
    }
  }

  lemma {:induction false} IncreasingSnoc(es: seq<Entry>, n: nat, m: Msg)
    requires Increasing(es) && AtMost(es, n) && Over(es, 0)
    ensures var fs := es + [Entry(m, n + 1)]; Increasing(fs) && AtMost(fs, n + 1) && Over(fs, 0)
  {
  }

  lemma {:induction false} ShapeCompacted(p: Projection, n: nat, gs: seq<Group>, e: Event)
    requires Shaped(p, [], n, gs, []) && e.Compaction?
    requires e.succeeded ==> Grouped(p.pairs) == Ok(gs) ==> IsEnd(gs, e.covered)
    requires !e.succeeded ==> e.degraded.Some? && (Grouped(p.pairs) == Ok(gs) ==> IsEnd(gs, e.degraded.value))
    ensures Shaped(Step(p, e, n + 1), [], n + 1, gs, [])
  {
    assert Flatten(gs) + [] == Flatten(gs);
    GroupedExactly(Flatten(gs), gs);
  }

  lemma {:induction false} EndsGrow(p: Projection, gs: seq<Group>, g: Group)
    ensures IsEnd(gs, p.covered) ==> IsEnd(gs + [g], p.covered)
    ensures IsEnd(gs, p.degraded) ==> IsEnd(gs + [g], p.degraded)
  {
    if IsEnd(gs, p.covered) {
      IsEndGrows(gs, [g], p.covered);
    }
    if IsEnd(gs, p.degraded) {
      IsEndGrows(gs, [g], p.degraded);
    }
  }

  lemma {:induction false} ShapeLone(p: Projection, n: nat, gs: seq<Group>, m: Msg, q: Projection)
    requires Shaped(p, [], n, gs, []) && !m.Tool? && !IsDeclaration(m)
    requires q.pairs == p.pairs + [Entry(m, n + 1)] && q.covered == p.covered && q.degraded == p.degraded
    ensures Shaped(q, [], n + 1, gs + [[Entry(m, n + 1)]], [])
  {
    var g := [Entry(m, n + 1)];
    FlattenSnoc(gs, g);
    assert Flatten(gs) + [] == Flatten(gs) && Flatten(gs + [g]) + [] == Flatten(gs + [g]);
    IncreasingSnoc(p.pairs, n, m);
    EndsGrow(p, gs, g);
  }

  lemma {:induction false} OpenDeclared(calls: seq<CallRecord>, text: string, sequence: nat)
    requires calls != [] && WellDeclared(calls)
    ensures OpenShape(OpenOf(calls), PendingIds(calls), [Entry(Assistant(text, ShownCalls(calls)), sequence)])
  {
    var tail, open := [Entry(Assistant(text, ShownCalls(calls)), sequence)], OpenOf(calls);
    assert tail[1..] == [];
    forall i | 0 <= i < |open|
      ensures open[i].correlation in PendingIds(calls)
      ensures PendingIds(calls)[open[i].correlation] == open[i].contextId
      ensures Awaited(open[i].contextId, tail)
    {
      PendingIdsFind(calls, i);
      assert RefIds(ShownCalls(calls))[i] == open[i].contextId;
    }
    forall i, j | 0 <= i < j < |open|
      ensures open[i].correlation != open[j].correlation && open[i].contextId != open[j].contextId
    {
      assert Correlations(calls)[i] != Correlations(calls)[j];
      assert RefIds(ShownCalls(calls))[i] != RefIds(ShownCalls(calls))[j];
    }
  }

  lemma {:induction false} ShapeDeclared(p: Projection, n: nat, gs: seq<Group>, e: Event)
    requires Shaped(p, [], n, gs, [])
    requires e.AssistantMessage? && e.calls != [] && WellDeclared(e.calls)
    ensures Shaped(Step(p, e, n + 1), OpenOf(e.calls), n + 1, gs,
                   [Entry(Assistant(e.text, ShownCalls(e.calls)), n + 1)])
  {
    OpenDeclared(e.calls, e.text, n + 1);
    assert Flatten(gs) + [] == Flatten(gs);
    IncreasingSnoc(p.pairs, n, Assistant(e.text, ShownCalls(e.calls)));
  }

  /** One more result of the open declaration keeps it partial, or completes it. */
  lemma {:induction false} TailAnswered(tail: seq<Entry>, result: Entry)
    requires Partial(tail) && result.msg.Tool? && Awaited(result.msg.id, tail)
    ensures var next := tail + [result];
            if |next| <= |tail[0].msg.calls| then Partial(next) else Complete(next)
  {
    var next, ids := tail + [result], RefIds(tail[0].msg.calls);
    var results := next[1..];
    assert next[0] == tail[0] && results == tail[1..] + [result];
    assert forall i :: 0 <= i < |tail| - 1 ==> tail[1..][i] == tail[i + 1];
    assert Answers(ids, results);
  }

  lemma {:induction false} WithoutCallAt(open: seq<OpenCall>, k: nat)
    requires k < |open|
    requires forall i :: 0 <= i < k ==> open[i].correlation != open[k].correlation
    ensures WithoutCall(open, open[k].correlation) == open[..k] + open[k + 1..]
  {
    if k > 0 {
      assert open[1..][k - 1] == open[k];
      WithoutCallAt(open[1..], k - 1);
      assert [open[0]] + (open[1..][..k - 1] + open[1..][k..]) == open[..k] + open[k + 1..];
    }
  }

  /** The calls that stay open keep their shape. */
  lemma {:induction false} OpenLeft(open: seq<OpenCall>, pending: map<Id, Id>, tail: seq<Entry>, result: Entry, k: nat,
                                    left: seq<OpenCall>)
    requires k < |open| && OpenShape(open, pending, tail)
    requires result.msg.Tool? && result.msg.id == open[k].contextId
    requires left == open[..k] + open[k + 1..] && left != []
    ensures OpenShape(left, pending, tail + [result])
  {
    var full := tail + [result];
    TailAnswered(tail, result);
    assert forall i :: 0 <= i < |left| ==> left[i] == if i < k then open[i] else open[i + 1];
    forall i | 0 <= i < |left| ensures Awaited(left[i].contextId, full) {
      AwaitedStill(left[i].contextId, tail, result);
    }
  }

  lemma {:induction false} AwaitedStill(id: Id, tail: seq<Entry>, result: Entry)
    requires Awaited(id, tail) && result.msg.Tool? && result.msg.id != id
    ensures Awaited(id, tail + [result])
  {
  }

  lemma {:induction false} OpenAnswered(open: seq<OpenCall>, pending: map<Id, Id>, tail: seq<Entry>,
                                        result: Entry, k: nat)
    requires k < |open| && OpenShape(open, pending, tail)
    requires result.msg.Tool? && result.msg.id == open[k].contextId
    ensures var left := WithoutCall(open, open[k].correlation);
            && left == open[..k] + open[k + 1..]
            && if left == [] then Complete(tail + [result]) else OpenShape(left, pending, tail + [result])
  {
    WithoutCallAt(open, k);
    var left := open[..k] + open[k + 1..];
    if left == [] {
      TailAnswered(tail, result);
    } else {
      OpenLeft(open, pending, tail, result, k, left);
    }
  }

  lemma {:induction false} ShapeAnswered(p: Projection, open: seq<OpenCall>, n: nat, gs: seq<Group>,
                                         tail: seq<Entry>, e: Event, k: nat)
    requires Shaped(p, open, n, gs, tail)
    requires e.ToolResult? && k < |open| && open[k].correlation == e.correlation
    ensures var full := tail + [Entry(Tool(open[k].contextId, e.data), n + 1)];
            var left := WithoutCall(open, e.correlation);
            if left == [] then Shaped(Step(p, e, n + 1), left, n + 1, gs + [full], [])
            else Shaped(Step(p, e, n + 1), left, n + 1, gs, full)
  {
    var entry := Entry(Tool(open[k].contextId, e.data), n + 1);
    var full := tail + [entry];
    OpenAnswered(open, p.pending, tail, entry, k);
    AnswerAppended(p, open, n, gs, tail, entry);
    if WithoutCall(open, e.correlation) == [] {
      FlattenSnoc(gs, full);
      assert Flatten(gs + [full]) + [] == Flatten(gs + [full]);
      EndsGrow(p, gs, full);
    }
  }

  lemma {:induction false} AnswerAppended(p: Projection, open: seq<OpenCall>, n: nat, gs: seq<Group>,
                                          tail: seq<Entry>, entry: Entry)
    requires Shaped(p, open, n, gs, tail) && entry.sequence == n + 1
    ensures p.pairs + [entry] == Flatten(gs) + (tail + [entry])
    ensures Increasing(p.pairs + [entry]) && AtMost(p.pairs + [entry], n + 1) && Over(p.pairs + [entry], 0)
  {
    IncreasingSnoc(p.pairs, n, entry.msg);
    assert Flatten(gs) + tail + [entry] == Flatten(gs) + (tail + [entry]);
  }

  /** Every disciplined log has the shape. */
  lemma {:induction false} ShapeOf(log: seq<Event>) returns (gs: seq<Group>, tail: seq<Entry>)
    requires Disciplined(log)
    ensures Shape(log, gs, tail)
  {
    if log == [] {
      gs, tail := [], [];
      assert Flatten(gs) + tail == [];
    } else {
      var prev, e := log[..|log| - 1], log[|log| - 1];
      assert log == prev + [e];
      DisciplinedAppended(prev, e);
      gs, tail := ShapeOf(prev);
      gs, tail := ShapeNext(prev, e, gs, tail);
    }
  }

  lemma {:induction false} ShapeNext(log: seq<Event>, e: Event, gs: seq<Group>, tail: seq<Entry>)
    returns (gs': seq<Group>, tail': seq<Entry>)
    requires Shape(log, gs, tail) && Legal(log, e)
    ensures Shape(log + [e], gs', tail')
  {
    var p, open, n := Replayed(log), Open(log), |log|;
    Appended(log, e);
    gs', tail' := gs, tail;
    match e {
      case UserMessage(text) =>
        ShapeLone(p, n, gs, User(text), Step(p, e, n + 1));
        gs' := gs + [[Entry(User(text), n + 1)]];
      case EmptyResponse(_) =>
        ShapeLone(p, n, gs, System(PROTOCOL_NOTICE), Step(p, e, n + 1));
        gs' := gs + [[Entry(System(PROTOCOL_NOTICE), n + 1)]];
      case AssistantMessage(text, calls) =>
        if calls == [] {
          ShapeLone(p, n, gs, Assistant(text, ShownCalls(calls)), Step(p, e, n + 1));
          gs' := gs + [[Entry(Assistant(text, ShownCalls(calls)), n + 1)]];
        } else {
          ShapeDeclared(p, n, gs, e);
          tail' := [Entry(Assistant(text, ShownCalls(calls)), n + 1)];
        }
      case ToolResult(_, _, data) =>
        var k: nat :| k < |open| && open[k].correlation == e.correlation;
        ShapeAnswered(p, open, n, gs, tail, e, k);
        var full := tail + [Entry(Tool(open[k].contextId, data), n + 1)];
        if WithoutCall(open, e.correlation) == [] {
          gs', tail' := gs + [full], [];
        } else {
          tail' := full;
        }
      case Compaction(_, _, _, _, _, _, _) => ShapeCompacted(p, n, gs, e);
      case _ =>
    }
  }

  /** The cutoff of a disciplined log splits no interaction. */
  lemma {:induction false} CutoffIsBoundary(log: seq<Event>, gs: seq<Group>, tail: seq<Entry>)
    requires Shape(log, gs, tail)
    ensures Boundary(gs, Cutoff(Replayed(log))) && Over(tail, Cutoff(Replayed(log)))
  {
    var c := Cutoff(Replayed(log));
    if c == 0 {
      OverParts(gs, tail, 0);
    } else {
      EndIsBoundary(gs, tail, c);
    }
  }

  /** Resume succeeds on every prefix of a disciplined log, and restores exactly the complete
      interactions past the cutoff: only a trailing unfinished declaration is dropped. */
  lemma {:induction false} CrashRecovery(log: seq<Event>, survived: nat) returns (gs: seq<Group>, tail: seq<Entry>)
    requires Disciplined(log) && survived <= |log|
    ensures var p := Replayed(log[..survived]);
            && p.pairs == Flatten(gs) + tail && AllComplete(gs)
            && (if Open(log[..survived]) == [] then tail == [] else Partial(tail))
            && Recovered(log[..survived]) ==
               Ok(Restored(p.summary, p.covered, p.degraded, p.notice,
                           Flatten(GroupsAbove(gs, Cutoff(p)))))
  {
    var prefix := log[..survived];
    DisciplinedPrefix(log, survived);
    gs, tail := ShapeOf(prefix);
    RecoveredShape(prefix, gs, tail);
  }

  lemma {:induction false} GroupsAboveComplete(gs: seq<Group>, c: nat)
    requires AllComplete(gs)
    ensures AllComplete(GroupsAbove(gs, c))
  {
    if gs != [] {
      GroupsAboveComplete(gs[1..], c);
    }
  }

  lemma {:induction false} RecoveredShape(log: seq<Event>, gs: seq<Group>, tail: seq<Entry>)
    requires Shape(log, gs, tail)
    ensures var p := Replayed(log);
            Recovered(log) == Ok(Restored(p.summary, p.covered, p.degraded, p.notice,
                                          Flatten(GroupsAbove(gs, Cutoff(p)))))
  {
    var c := Cutoff(Replayed(log));
    CutoffIsBoundary(log, gs, tail);
    AboveConcat(Flatten(gs), tail, c);
    AboveFlatten(gs, c);
    AboveAll(tail, c);
    GroupsAboveComplete(gs, c);
    PartialDropped(GroupsAbove(gs, c), tail);
  }

  // ---------------------------------------------------------------- every call is answered once

  /** The correlations of all declared calls, in declaration order. */
  function Declared(log: seq<Event>): seq<Id> {
    if log == [] then []
    else
      var last := log[|log| - 1];
      Declared(log[..|log| - 1]) + if last.AssistantMessage? then Correlations(last.calls) else []
  }

  /** The correlations of all tool results, in log order. */
  function Answered(log: seq<Event>): seq<Id> {
    if log == [] then []
    else
      var last := log[|log| - 1];
      Answered(log[..|log| - 1]) + if last.ToolResult? then [last.correlation] else []
  }

  function OpenIds(open: seq<OpenCall>): (ids: seq<Id>)
    ensures |ids| == |open|
    ensures forall i :: 0 <= i < |ids| ==> ids[i] == open[i].correlation
  {
    seq(|open|, i requires 0 <= i < |open| => open[i].correlation)
  }

  /** From this record on each result answers the oldest open call. */
  predicate InOrder(log: seq<Event>, from: nat) {
    forall n :: from <= n < |log| && log[n].ToolResult? ==> HeadIs(Open(log[..n]), log[n].correlation)
  }

  predicate HeadIs(open: seq<OpenCall>, correlation: Id) {
    open != [] && open[0].correlation == correlation
  }

  lemma {:induction false} InOrderAppended(log: seq<Event>, e: Event, from: nat)
    requires from <= |log|
    ensures InOrder(log + [e], from) <==> InOrder(log, from) && (e.ToolResult? ==> HeadIs(Open(log), e.correlation))
  {
    var next := log + [e];
    assert next[..|log|] == log && next[|log|] == e;
    if InOrder(next, from) {
      forall n | from <= n < |log| && log[n].ToolResult? ensures HeadIs(Open(log[..n]), log[n].correlation) {
        assert next[..n] == log[..n] && next[n] == log[n];
      }
    }
    if InOrder(log, from) && (e.ToolResult? ==> HeadIs(Open(log), e.correlation)) {
      forall n | from <= n < |next| && next[n].ToolResult? ensures HeadIs(Open(next[..n]), next[n].correlation) {
        if n < |log| {
          assert next[..n] == log[..n] && next[n] == log[n];
        }
      }
    }
  }

  /** What is in order up to a record and from it on is in order. */
  lemma {:induction false} InOrderJoined(log: seq<Event>, more: seq<Event>)
    requires InOrder(log, 0) && InOrder(log + more, |log|)
    ensures InOrder(log + more, 0)
  {
    var all := log + more;
    forall n | 0 <= n < |all| && all[n].ToolResult? ensures HeadIs(Open(all[..n]), all[n].correlation) {
      if n < |log| {
        assert all[..n] == log[..n] && all[n] == log[n];
      }
    }
  }

  lemma {:induction false} Associative<T>(a: seq<T>, b: seq<T>, c: seq<T>)
    ensures a + b + c == a + (b + c)
  {
  }

  lemma {:induction false} CallsConcat(log: seq<Event>, more: seq<Event>)
    ensures Declared(log + more) == Declared(log) + Declared(more)
    ensures Answered(log + more) == Answered(log) + Answered(more)
    decreases |more|
  {
    if more == [] {
      assert log + more == log;
    } else {
      var init, last := more[..|more| - 1], more[|more| - 1];
      CallsConcat(log, init);
      CallsAppended(log + init, last);
      CallsAppended(init, last);
      hide Declared, Answered;
      assert log + more == log + init + [last] && more == init + [last];
      Associative(Declared(log), Declared(init), if last.AssistantMessage? then Correlations(last.calls) else []);
      Associative(Answered(log), Answered(init), if last.ToolResult? then [last.correlation] else []);
    }
  }

  /** Every stored summary covers strictly more than the records before it. */
  ghost predicate Advancing(log: seq<Event>, from: nat) {
    forall n :: from <= n < |log| && log[n].Compaction? && log[n].succeeded ==>
      log[n].covered > Replayed(log[..n]).covered
  }

  lemma {:induction false} AdvancingAppended(log: seq<Event>, more: seq<Event>, from: nat)
    requires from <= |log| && Advancing(log, from)
    requires forall i :: 0 <= i < |more| ==> !more[i].Compaction?
    ensures Advancing(log + more, from)
  {
    var all := log + more;
    assert forall i :: |log| <= i < |all| ==> all[i] == more[i - |log|];
    forall n | from <= n < |all| && all[n].Compaction? && all[n].succeeded
      ensures all[n].covered > Replayed(all[..n]).covered
    {
      assert n < |log|;
      assert all[..n] == log[..n] && all[n] == log[n];
    }
  }

  lemma {:induction false} AdvancingStep(log: seq<Event>, e: Event, from: nat)
    requires from <= |log| && Advancing(log, from)
    requires e.Compaction? && e.succeeded ==> e.covered > Replayed(log).covered
    ensures Advancing(log + [e], from)
  {
    var all := log + [e];
    assert all[..|log|] == log;
    forall n | from <= n < |all| && all[n].Compaction? && all[n].succeeded
      ensures all[n].covered > Replayed(all[..n]).covered
    {
      if n < |log| {
        assert all[..n] == log[..n] && all[n] == log[n];
      }
    }
  }

  lemma {:induction false} CoverageStep(log: seq<Event>, from: nat, n: nat)
    requires from <= n < |log| && Advancing(log, from)
    ensures Replayed(log[..n]).covered <= Replayed(log[..n + 1]).covered
    ensures log[n].Compaction? && log[n].succeeded ==>
              Replayed(log[..n]).covered < Replayed(log[..n + 1]).covered == log[n].covered
  {
    hide Replayed;
    Appended(log[..n], log[n]);
    assert log[..n + 1] == log[..n] + [log[n]];
  }

  /** Coverage never goes back, and each later stored summary covers strictly more. */
  lemma {:induction false} CoverageAdvances(log: seq<Event>, from: nat, i: nat, j: nat)
    requires from <= i <= j <= |log| && Advancing(log, from)
    ensures Replayed(log[..i]).covered <= Replayed(log[..j]).covered
    ensures i < j && log[j - 1].Compaction? && log[j - 1].succeeded ==>
              Replayed(log[..i]).covered < Replayed(log[..j]).covered == log[j - 1].covered
    decreases j
  {
    if i < j {
      CoverageStep(log, from, j - 1);
      hide Replayed, Advancing;
      CoverageAdvances(log, from, i, j - 1);
    }
  }

  lemma {:induction false} OpenIdsWithout(open: seq<OpenCall>, k: nat)
    requires k < |open|
    requires forall i :: 0 <= i < k ==> open[i].correlation != open[k].correlation
    ensures var left := WithoutCall(open, open[k].correlation);
            && OpenIds(left) == OpenIds(open)[..k] + OpenIds(open)[k + 1..]
            && multiset(OpenIds(open)) == multiset(OpenIds(left)) + multiset{open[k].correlation}
  {
    hide WithoutCall;
    WithoutCallAt(open, k);
    var ids := OpenIds(open);
    assert ids == ids[..k] + ([ids[k]] + ids[k + 1..]);
    assert OpenIds(WithoutCall(open, open[k].correlation)) == ids[..k] + ids[k + 1..];
  }

  lemma {:induction false} FirstOpen(open: seq<OpenCall>, correlation: Id) returns (k: nat)
    requires IsOpen(open, correlation)
    ensures k < |open| && open[k].correlation == correlation
    ensures forall i :: 0 <= i < k ==> open[i].correlation != correlation
  {
    if open[0].correlation == correlation {
      k := 0;
    } else {
      var i :| 0 <= i < |open| && open[i].correlation == correlation;
      assert open[1..][i - 1] == open[i];
      k := FirstOpen(open[1..], correlation);
      k := k + 1;
    }
  }

  lemma {:induction false} CallsAppended(log: seq<Event>, e: Event)
    ensures Declared(log + [e]) == Declared(log) + if e.AssistantMessage? then Correlations(e.calls) else []
    ensures Answered(log + [e]) == Answered(log) + if e.ToolResult? then [e.correlation] else []
  {
    assert (log + [e])[..|log|] == log;
  }

  lemma {:induction false} ConservedStep(log: seq<Event>, e: Event)
    requires multiset(Declared(log)) == multiset(Answered(log)) + multiset(OpenIds(Open(log)))
    requires Legal(log, e)
    ensures multiset(Declared(log + [e])) == multiset(Answered(log + [e])) + multiset(OpenIds(Open(log + [e])))
  {
    Appended(log, e);
    CallsAppended(log, e);
    if e.AssistantMessage? {
      assert OpenIds(Open(log)) == [];
      assert OpenIds(OpenOf(e.calls)) == Correlations(e.calls);
    } else if e.ToolResult? {
      var k := FirstOpen(Open(log), e.correlation);
      OpenIdsWithout(Open(log), k);
    }
  }

  /** A disciplined log answers no call twice and none that was not declared: the declared calls are
      exactly the answered ones and the open ones. */
  lemma {:induction false} CallsConserved(log: seq<Event>)
    requires Disciplined(log)
    ensures multiset(Declared(log)) == multiset(Answered(log)) + multiset(OpenIds(Open(log)))
  {
    if log != [] {
      var prev, e := log[..|log| - 1], log[|log| - 1];
      DisciplinedAppended(prev, e);
      assert prev + [e] == log;
      CallsConserved(prev);
      ConservedStep(prev, e);
    }
  }

  lemma {:induction false} OpenIdsStep(open: seq<OpenCall>, e: Event)
    requires e.AssistantMessage? ==> open == []
    requires e.ToolResult? ==> HeadIs(open, e.correlation)
    ensures OpenIds(open) + (if e.AssistantMessage? then Correlations(e.calls) else []) ==
            (if e.ToolResult? then [e.correlation] else []) + OpenIds(OpenStep(open, e))
  {
    if e.AssistantMessage? {
      assert OpenIds(OpenOf(e.calls)) == Correlations(e.calls);
    }
  }

  lemma {:induction false} Regrouped(answered: seq<Id>, declared: seq<Id>, open: seq<Id>, more: seq<Id>,
                                     result: seq<Id>, left: seq<Id>)
    requires declared == answered + open && open + more == result + left
    ensures declared + more == answered + result + left
  {
    assert answered + open + more == answered + (open + more);
    assert answered + (result + left) == answered + result + left;
  }

  lemma {:induction false} AnsweredInOrderStep(log: seq<Event>, e: Event)
    requires Declared(log) == Answered(log) + OpenIds(Open(log))
    requires Legal(log, e) && (e.ToolResult? ==> HeadIs(Open(log), e.correlation))
    ensures Declared(log + [e]) == Answered(log + [e]) + OpenIds(Open(log + [e]))
  {
    Appended(log, e);
    CallsAppended(log, e);
    OpenIdsStep(Open(log), e);
    Regrouped(Answered(log), Declared(log), OpenIds(Open(log)),
              if e.AssistantMessage? then Correlations(e.calls) else [],
              if e.ToolResult? then [e.correlation] else [], OpenIds(OpenStep(Open(log), e)));
  }

  lemma {:induction false} LastInOrder(log: seq<Event>)
    requires log != [] && Disciplined(log) && InOrder(log, 0)
    ensures var prev, e := log[..|log| - 1], log[|log| - 1];
            && Disciplined(prev) && InOrder(prev, 0) && Legal(prev, e)
            && (e.ToolResult? ==> HeadIs(Open(prev), e.correlation))
  {
    var prev, e := log[..|log| - 1], log[|log| - 1];
    hide Disciplined, InOrder, Legal, Open;
    assert prev + [e] == log;
    DisciplinedAppended(prev, e);
    InOrderAppended(prev, e, 0);
  }

  /** When results also come in order, the log answers the declared calls one by one, in declaration
      order; at rest every declared call has exactly one result. */
  lemma {:induction false} CallsAnsweredInOrder(log: seq<Event>)
    requires Disciplined(log) && InOrder(log, 0)
    ensures Declared(log) == Answered(log) + OpenIds(Open(log))
    ensures Open(log) == [] ==> Declared(log) == Answered(log)
  {
    if log != [] {
      hide Disciplined, InOrder, Declared, Answered, Open, Legal;
      var prev, e := log[..|log| - 1], log[|log| - 1];
      LastInOrder(log);
      CallsAnsweredInOrder(prev);
      AnsweredInOrderStep(prev, e);
      assert prev + [e] == log && Answered(log) + [] == Answered(log);
    }
  }
}
