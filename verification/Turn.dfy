/** agent_loop.py: what a turn plans, writes and accounts for, as values; the lemmas behind the loop. */
module Turn {
  import opened Wrappers
  import opened Transcript
  import opened Grouping
  import opened Replay
  import opened Runtime
  import opened Model
  import opened Context
  import opened Executor
  import opened Live
  import opened Agreement

  datatype Planned = Planned(call: Call, correlation: Id, contextId: Id)

  datatype TurnResult = TurnResult(state: RunState, limit: Option<Limit>)

  function Waiting(plans: seq<Planned>): (calls: seq<OpenCall>)
    ensures |calls| == |plans|
    ensures forall i :: 0 <= i < |calls| ==> calls[i] == OpenCall(plans[i].correlation, plans[i].contextId)
  {
    seq(|plans|, i requires 0 <= i < |plans| => OpenCall(plans[i].correlation, plans[i].contextId))
  }

  /** The identifier under which the model sees a call. */
  function ContextIdOf(call: Call, correlation: Id): Id {
    if call.provider.Some? && !call.badId then call.provider.value else correlation
  }

  function LoggedName(registered: set<string>, name: Option<string>): string {
    if name.Some? && name.value in registered then name.value else HIDDEN_TOOL_NAME
  }

  function ContextName(name: Option<string>): string {
    if name.Some? && name.value != "" then name.value else INVALID_TOOL_NAME
  }

  function Refs(plans: seq<Planned>): (refs: seq<ToolRef>)
    ensures |refs| == |plans|
    ensures forall i :: 0 <= i < |refs| ==>
      refs[i] == ToolRef(plans[i].contextId, ContextName(plans[i].call.name), plans[i].call.arguments)
  {
    seq(|plans|, i requires 0 <= i < |plans| =>
      ToolRef(plans[i].contextId, ContextName(plans[i].call.name), plans[i].call.arguments))
  }

  function Records(registered: set<string>, plans: seq<Planned>): (records: seq<CallRecord>)
    ensures |records| == |plans|
    ensures forall i :: 0 <= i < |records| ==>
      records[i] == CallRecord(plans[i].correlation, plans[i].call.provider,
                               LoggedName(registered, plans[i].call.name), plans[i].call.arguments, plans[i].call.badId)
  {
    seq(|plans|, i requires 0 <= i < |plans| =>
      CallRecord(plans[i].correlation, plans[i].call.provider,
                 LoggedName(registered, plans[i].call.name), plans[i].call.arguments, plans[i].call.badId))
  }

  /** Plans as _plan_calls makes them: new correlations, and an identifier the provider chose only
      where it is usable. */
  ghost predicate WellPlanned(plans: seq<Planned>, calls: seq<Call>) {
    && |plans| == |calls|
    && (forall i :: 0 <= i < |plans| ==>
          && plans[i].call == calls[i] && plans[i].correlation.Internal?
          && plans[i].contextId == ContextIdOf(calls[i], plans[i].correlation))
    && (forall i, j :: 0 <= i < j < |plans| ==> plans[i].correlation != plans[j].correlation)
  }

  /** The names a log may carry for tools that do not exist are never registered. */
  predicate ProperNames(registered: set<string>) {
    "" !in registered && HIDDEN_TOOL_NAME !in registered
  }

  lemma {:induction false} PlannedIdsDiffer(plans: seq<Planned>, calls: seq<Call>, i: nat, j: nat)
    requires WellPlanned(plans, calls) && Normalized(calls) && i < j < |plans|
    ensures plans[i].contextId != plans[j].contextId
  {
    assert plans[i].correlation != plans[j].correlation;
    if Usable(calls[i]) && Usable(calls[j]) {
      assert calls[i].provider != calls[j].provider;
    }
  }

  /** Every declaration has distinct identifiers, in the log and in the context, whatever the
      provider sent. */
  lemma {:induction false} RecordsWellDeclared(registered: set<string>, plans: seq<Planned>, calls: seq<Call>)
    requires WellPlanned(plans, calls) && Normalized(calls)
    ensures WellDeclared(Records(registered, plans))
    ensures OpenOf(Records(registered, plans)) == Waiting(plans)
  {
    var records := Records(registered, plans);
    forall i, j | 0 <= i < j < |plans|
      ensures Correlations(records)[i] != Correlations(records)[j]
      ensures RefIds(ShownCalls(records))[i] != RefIds(ShownCalls(records))[j]
    {
      PlannedIdsDiffer(plans, calls, i, j);
    }
  }

  /** The live declaration reads like the logged one once unregistered names are hidden. */
  lemma {:induction false} SameDeclaration(registered: set<string>, text: string, plans: seq<Planned>, calls: seq<Call>)
    requires WellPlanned(plans, calls) && ProperNames(registered)
    ensures KeptMsg(registered, Assistant(text, Refs(plans))) == Assistant(text, ShownCalls(Records(registered, plans)))
  {
    var live := KeptMsg(registered, Assistant(text, Refs(plans)));
    var logged := ShownCalls(Records(registered, plans));
    forall i | 0 <= i < |plans| ensures live.calls[i] == logged[i] {
      assert logged[i] == ShownCall(Records(registered, plans)[i]);
      assert live.calls[i] == KeptRef(registered, Refs(plans)[i]);
    }
    assert live.calls == logged;
  }

  lemma {:induction false} UnusedSerial(ids: set<Id>) returns (serial: nat)
    ensures forall n: nat :: n >= serial ==> Internal(n) !in ids
  {
    if ids == {} {
      serial := 0;
    } else {
      var id :| id in ids;
      serial := UnusedSerial(ids - {id});
      if id.Internal? && id.serial >= serial {
        serial := id.serial + 1;
      }
    }
  }

  // ---------------------------------------------------------------- what a turn writes

  /** An append-only step in which nothing ends and the user says nothing. */
  ghost predicate QuietGrowth(before: seq<Event>, after: seq<Event>) {
    && before <= after
    && forall i :: |before| <= i < |after| ==> !Terminal(after[i]) && !after[i].UserMessage?
  }

  /** A turn that goes on: nothing ends, and the user says at most once what the turn is about. */
  ghost predicate TurnGrowth(before: seq<Event>, after: seq<Event>, asked: string) {
    && before <= after
    && (forall i :: |before| <= i < |after| ==>
          !Terminal(after[i]) && (after[i].UserMessage? ==> after[i].text == asked))
    && (forall i, j :: |before| <= i < j < |after| ==> !after[i].UserMessage? || !after[j].UserMessage?)
  }

  lemma {:induction false} GrowthExtends(before: seq<Event>, after: seq<Event>)
    requires QuietGrowth(before, after)
    ensures before <= after
  {
  }

  lemma {:induction false} TurnGoesOn(before: seq<Event>, middle: seq<Event>, after: seq<Event>, asked: string)
    requires TurnGrowth(before, middle, asked) && QuietGrowth(middle, after)
    ensures TurnGrowth(before, after, asked)
  {
  }

  lemma {:induction false} QuietTurn(before: seq<Event>, after: seq<Event>, asked: string)
    requires QuietGrowth(before, after)
    ensures TurnGrowth(before, after, asked) && before <= after
  {
  }

  /** The user's message comes once, behind the start of the session. */
  lemma {:induction false} SpokenTurn(before: seq<Event>, begun: seq<Event>, asked: string)
    requires QuietGrowth(before, begun)
    ensures TurnGrowth(before, begun + [UserMessage(asked)], asked)
  {
  }

  /** How a turn is closed: one turn_end, and unless the turn completed, the end of the agent and of
      the session right behind it. */
  ghost predicate Closing(before: seq<Event>, after: seq<Event>, state: RunState, asked: string) {
    exists n :: |before| <= n < |after| && ClosedAt(before, after, state, n, asked)
  }

  ghost predicate ClosedAt(before: seq<Event>, after: seq<Event>, state: RunState, n: nat, asked: string) {
    && n < |after| && TurnGrowth(before, after[..n], asked)
    && after[n].TurnEnd? && after[n].state == state
    && if state == CompletedTurn then |after| == n + 1
       else |after| == n + 3 && after[n + 1].AgentEnd? && after[n + 2].SessionEnd?
            && after[n + 1].state == state && after[n + 2].state == state
  }

  function PlanIds(plans: seq<Planned>): (ids: seq<Id>)
    ensures |ids| == |plans|
    ensures forall i :: 0 <= i < |ids| ==> ids[i] == plans[i].correlation
  {
    seq(|plans|, i requires 0 <= i < |plans| => plans[i].correlation)
  }

  /** What a loop knows of its own part of the log: where it begins, the refused records, the calls whose
      result is lost, those that wait for one, and every correlation it has given out. */
  datatype Books = Books(base: nat, failures: nat, lost: seq<OpenCall>, waiting: seq<Id>, issued: set<Id>)

  /** The records of this loop answer the calls they declare, each once and in the order of declaration,
      up to those that wait. */
  ghost predicate Settled(events: seq<Event>, base: nat, waiting: seq<Id>)
    requires base <= |events|
  {
    InOrder(events, base) && Declared(events[base..]) == Answered(events[base..]) + waiting
  }

  /** No correlation is declared twice, and none that was not given out. */
  ghost predicate Issued(declared: seq<Id>, issued: set<Id>) {
    Distinct(declared) && forall id :: id in declared ==> id in issued
  }

  /** What the log of this loop keeps from its start on, whatever log it started from. */
  ghost predicate Ledger(events: seq<Event>, books: Books, closed: bool) {
    && books.base <= |events|
    && (books.failures == 0 ==> books.lost == [])
    && Issued(Declared(events[books.base..]), books.issued)
    && (books.lost == [] ==> Settled(events, books.base, books.waiting))
    && Advancing(events, books.base)
    && (forall i :: books.base <= i < |events| && events[i].SessionEnd? ==> closed && i == |events| - 1)
  }

  lemma {:induction false} WorkAdds(a: nat, b: nat, k: nat)
    ensures (a + b) * k == a * k + b * k
  {
  }

  lemma {:induction false} ClosingBuilt(before: seq<Event>, start: seq<Event>, after: seq<Event>,
                                        turnEnd: Event, asked: string)
    requires TurnGrowth(before, start, asked) && turnEnd.TurnEnd?
    requires after == start + [turnEnd]
                      + if turnEnd.state == CompletedTurn then []
                        else [AgentEnd(turnEnd.state, turnEnd.budget), SessionEnd(turnEnd.state, turnEnd.budget)]
    ensures Closing(before, after, turnEnd.state, asked)
    ensures RecoveredBudget(after) == turnEnd.budget
  {
    assert after[..|start|] == start;
    assert ClosedAt(before, after, turnEnd.state, |start|, asked);
    LastSnapshot(after);
  }

  /** A log that ends in a snapshot recovers that snapshot. */
  lemma {:induction false} LastSnapshot(log: seq<Event>)
    requires log != [] && Terminal(log[|log| - 1])
    ensures RecoveredBudget(log) == log[|log| - 1].budget
  {
  }

  predicate StoredOrRefused(before: seq<Event>, after: seq<Event>, e: Event, failures: nat, failures': nat) {
    (after == before + [e] && failures' == failures) || (after == before && failures' > failures)
  }

  /** An end record that was stored, or refused. */
  lemma {:induction false} EndRecorded(o: Origin, v: View, events: seq<Event>, e: Event, books: Books, failures': nat)
    requires Consistent(o, v) && Terminal(e)
    requires StoredOrRefused(v.events, events, e, books.failures, failures')
    requires Ledger(v.events, books, false)
    ensures Consistent(o, v.(events := events))
    ensures !e.SessionEnd? ==> Ledger(events, books.(failures := failures'), false)
  {
    hide Consistent, Ledger;
    if events == v.events {
      LedgerFailed(events, books, failures');
    } else {
      NeutralStep(o, v, [e]);
      if !e.SessionEnd? {
        LedgerNeutral(v.events, e, books);
      }
    }
  }

  lemma {:induction false} LedgerClosed(events: seq<Event>, events': seq<Event>, e: Event, books: Books, failures': nat)
    requires Ledger(events, books, false) && e.SessionEnd?
    requires StoredOrRefused(events, events', e, books.failures, failures')
    ensures Ledger(events', books.(failures := failures'), true)
  {
    hide Settled, Advancing, Issued;
    if events' == events {
    } else {
      OwnStep(events, e, books);
    }
  }

  /** A summary that is stored covers its source and takes the notice away. */
  predicate SummaryStored(before: seq<Event>, after: seq<Event>, outcome: Outcome, cuts: (Option<string>, nat,
                          nat, Option<string>)) {
    && outcome.succeeded && outcome.summary.Some? && cuts == (outcome.summary, outcome.sourceEnd, 0, None)
    && after == before + [Compaction(true, outcome.forced, outcome.sourceStart, outcome.sourceEnd, outcome.sourceEnd,
                                     None, outcome.summary)]
  }

  /** A failure that is stored leaves out everything up to the end of its source, never less than before,
      and says so; what was summarised stays. */
  predicate FailureStored(before: seq<Event>, after: seq<Event>, outcome: Outcome,
                          previous: (Option<string>, nat, nat, Option<string>),
                          cuts: (Option<string>, nat, nat, Option<string>)) {
    && !outcome.succeeded
    && cuts == (previous.0, previous.1, Max(previous.2, outcome.sourceEnd), Some(DEGRADED_NOTICE))
    && after == before + [Compaction(false, outcome.forced, outcome.sourceStart, outcome.sourceEnd, cuts.1,
                                     Some(cuts.2), outcome.summary)]
  }

  predicate PreparationFault(x: Exn) {
    x.CancellationRequested? || x == LoopLimit(WallTime) || x.WindowExceeded? || x.StoreFault?
    || (x.External() && !x.IsException())
  }

  /** The source of a compaction: the oldest groups that are not covered, without the last one. */
  ghost predicate PlanOf(v: View, plan: Plan) {
    && NonEmpty(v.groups) && plan.Valid()
    && var eligible := GroupsAbove(v.groups, v.covered);
       |plan.groups| < |eligible| && plan.groups == eligible[..|plan.groups|]
  }

  lemma {:induction false} PlannedSource(v: View, plan: Plan, n: nat)
    requires PlanOf(v, plan) && 1 <= n <= |plan.groups|
    ensures NonEmpty(v.groups) && n < |GroupsAbove(v.groups, v.covered)|
    ensures plan.groups[..n] == GroupsAbove(v.groups, v.covered)[..n]
    ensures plan.groups[..n][n - 1] == GroupsAbove(v.groups, v.covered)[n - 1]
  {
  }

  /** A stored summary is consistent, legal and a strict step forward. */
  lemma {:induction false} SummaryRecord(o: Origin, v: View, plan: Plan, outcome: Outcome)
    requires Consistent(o, v) && v.open == [] && PlanOf(v, plan) && outcome.succeeded
    requires EndsIn(plan, outcome.sourceEnd)
    ensures var e := Compaction(true, outcome.forced, outcome.sourceStart, outcome.sourceEnd, outcome.sourceEnd, None,
                                outcome.summary);
            && Consistent(o, v.(events := v.events + [e], summary := outcome.summary, covered := outcome.sourceEnd,
                                degraded := 0, notice := None))
            && Sane(o.registered, e, |v.events|) && (o.clean ==> Legal(v.events, e)) && v.covered < outcome.sourceEnd
  {
    hide Consistent;
    var n :| 0 <= n < |plan.groups| && EndSequence(plan.groups[n]) == outcome.sourceEnd;
    var j := SelectedGroup(o, v, n + 1);
    var e := Compaction(true, outcome.forced, outcome.sourceStart, outcome.sourceEnd, outcome.sourceEnd, None,
                        outcome.summary);
    CompactedStep(o, v, e, j);
    CutAtGroup(o, v, j);
    RestingView(o, v);
    if o.clean {
      CutEndsGroup(o, v, outcome.sourceEnd);
    }
  }

  /** So is a stored failure. */
  lemma {:induction false} DegradedRecord(o: Origin, v: View, plan: Plan, fallback: Plan, outcome: Outcome)
    requires Consistent(o, v) && v.open == [] && PlanOf(v, plan) && !outcome.succeeded
    requires fallback.Valid() && fallback.groups[|fallback.groups| - 1] in plan.groups
    ensures var d := Max(v.degraded, fallback.Covered());
            var e := Compaction(false, outcome.forced, outcome.sourceStart, outcome.sourceEnd, v.covered, Some(d),
                                outcome.summary);
            && Consistent(o, v.(events := v.events + [e], degraded := d, notice := Some(DEGRADED_NOTICE)))
            && Sane(o.registered, e, |v.events|) && (o.clean ==> Legal(v.events, e))
  {
    hide Consistent;
    var last := fallback.groups[|fallback.groups| - 1];
    var i :| 0 <= i < |plan.groups| && plan.groups[i] == last;
    var j := SelectedGroup(o, v, i + 1);
    var d := Max(v.degraded, fallback.Covered());
    var e := Compaction(false, outcome.forced, outcome.sourceStart, outcome.sourceEnd, v.covered, Some(d),
                        outcome.summary);
    DegradedStep(o, v, e, j);
    CutAtGroup(o, v, j);
    DegradedCut(o, v);
    RestingView(o, v);
    if o.clean {
      CutEndsGroup(o, v, d);
    }
  }

  lemma {:induction false} PlanIncreases(o: Origin, v: View, plan: Plan, i: nat, j: nat)
    requires Consistent(o, v) && v.open == [] && PlanOf(v, plan) && i < j < |plan.groups|
    ensures EndSequence(plan.groups[i]) < EndSequence(plan.groups[j])
  {
    RestingOrder(o, v);
    hide Consistent, Increasing, GroupsAbove, EndSequence, Flatten;
    var from := AboveIsSuffix(v.groups, v.covered);
    EndsIncrease(v.groups, from + i, from + j);
    var f, l := SequenceBounds(v.groups[from + j]);
    assert plan.groups == v.groups[from..][..|plan.groups|];
  }

  /** The last selected group is the last one of the source that ends no later. */
  ghost predicate LastThrough(source: seq<Group>, end: nat, selected: seq<Group>) {
    && selected != [] && NonEmpty(source) && NonEmpty(selected) && EndSequence(selected[|selected| - 1]) <= end
    && exists k :: 0 <= k < |source| && source[k] == selected[|selected| - 1]
         && forall j :: k < j < |source| ==> EndSequence(source[j]) > end
  }

  /** What is left out after a failure ends exactly where the source ended. */
  lemma {:induction false} SelectedThrough(o: Origin, v: View, plan: Plan, selected: seq<Group>, end: nat)
    requires Consistent(o, v) && v.open == [] && PlanOf(v, plan) && EndsIn(plan, end)
    requires NonEmpty(selected) && selected != []
    requires LastThrough(plan.groups, end, selected)
             || (selected == [plan.groups[0]] && forall g :: g in plan.groups ==> EndSequence(g) > end)
    ensures EndSequence(selected[|selected| - 1]) == end
  {
    hide Consistent;
    var n :| 0 <= n < |plan.groups| && plan.groups[n] != [] && EndSequence(plan.groups[n]) == end;
    assert plan.groups[n] in plan.groups;
    var k :| 0 <= k < |plan.groups| && plan.groups[k] == selected[|selected| - 1]
             && forall j :: k < j < |plan.groups| ==> EndSequence(plan.groups[j]) > end;
    if n < k {
      PlanIncreases(o, v, plan, n, k);
    }
  }

  lemma {:induction false} LoggedCoverage(o: Origin, v: View)
    requires Consistent(o, v)
    ensures v.covered == Replayed(v.events).covered
  {
  }

  lemma {:induction false} DegradedCut(o: Origin, v: View)
    requires Consistent(o, v)
    ensures Cut(o, v, v.degraded)
  {
  }

  lemma {:induction false} WaitingOpen(o: Origin, v: View, plans: seq<Planned>)
    requires Consistent(o, v) && v.waiting == Waiting(plans) && plans != []
    ensures IsOpen(Open(v.events), plans[0].correlation)
  {
    WaitingDiffer(o, v, plans);
    assert Open(v.events)[|v.lost|] == Waiting(plans)[0];
  }

  /** Nothing is waiting while no interaction is open. */
  lemma {:induction false} RestingView(o: Origin, v: View)
    requires Consistent(o, v) && v.open == []
    ensures v.waiting == [] && v.lost == [] && (o.clean ==> Open(v.events) == [])
  {
  }

  /** The message that a record outside any tool interaction becomes. */
  predicate LoneRecord(e: Event, m: Msg) {
    match e
    case UserMessage(text) => m == User(text)
    case AssistantMessage(text, calls) => calls == [] && m == Assistant(text, [])
    case EmptyResponse(_) => m == System(PROTOCOL_NOTICE)
    case _ => false
  }

  function LoneView(v: View, e: Event, m: Msg): View {
    v.(events := v.events + [e], groups := v.groups + [[Entry(m, |v.events| + 1)]])
  }

  lemma {:induction false} LoneRecordStep(o: Origin, v: View, e: Event, m: Msg)
    requires Consistent(o, v) && v.open == [] && LoneRecord(e, m)
    ensures Consistent(o, LoneView(v, e, m))
    ensures Sane(o.registered, e, |v.events|) && (o.clean ==> Legal(v.events, e))
  {
    var w := LoneView(v, e, m);
    Appended(v.events, e);
    if e.AssistantMessage? {
      assert Correlations(e.calls) == [] && RefIds(ShownCalls(e.calls)) == [];
      assert ShownCalls(e.calls) == [];
    }
    assert KeptMsg(o.registered, m) == m;
    LoneStep(o, v, w, e, m, Replayed(w.events).pending);
  }

  lemma {:induction false} LedgerStart(events: seq<Event>)
    ensures Ledger(events, Books(|events|, 0, [], [], {}), false)
  {
    assert events[|events|..] == [];
  }

  // ---------------------------------------------------------------- the ledger

  lemma {:induction false} LedgerBase(events: seq<Event>, books: Books)
    requires Ledger(events, books, false)
    ensures books.base <= |events| && (books.failures == 0 ==> books.lost == [])
    ensures forall id :: id in Declared(events[books.base..]) ==> id in books.issued
  {
  }

  /** The part of the log that begins here, after more records. */
  lemma {:induction false} OwnPart(events: seq<Event>, more: seq<Event>, base: nat)
    requires base <= |events|
    ensures Declared((events + more)[base..]) == Declared(events[base..]) + Declared(more)
    ensures Answered((events + more)[base..]) == Answered(events[base..]) + Answered(more)
  {
    assert (events + more)[base..] == events[base..] + more;
    CallsConcat(events[base..], more);
  }

  /** Records that declare nothing and compact nothing. */
  predicate Plain(more: seq<Event>) {
    forall i :: 0 <= i < |more| ==> !more[i].AssistantMessage? && !more[i].Compaction?
  }

  lemma {:induction false} PlainCalls(more: seq<Event>)
    requires Plain(more)
    ensures Declared(more) == []
    ensures AllNeutral(more) ==> Answered(more) == []
  {
    if more != [] {
      PlainCalls(more[..|more| - 1]);
    }
  }

  lemma {:induction false} SettledGrown(events: seq<Event>, more: seq<Event>, base: nat, waiting: seq<Id>,
                                        left: seq<Id>)
    requires base <= |events| && Settled(events, base, waiting) && InOrder(events + more, base)
    requires Declared(more) == [] && waiting == Answered(more) + left
    ensures Settled(events + more, base, left)
  {
    OwnPart(events, more, base);
    var declared, answered := Declared(events[base..]), Answered(events[base..]);
    assert answered + (Answered(more) + left) == answered + Answered(more) + left;
    assert declared + [] == declared;
  }

  /** Records that end nothing and declare nothing keep the ledger. */
  lemma {:induction false} LedgerGrown(events: seq<Event>, more: seq<Event>, books: Books, books': Books)
    requires Ledger(events, books, false) && Quiet(more) && Plain(more)
    requires books'.base == books.base && books'.issued == books.issued
    requires books'.failures == 0 ==> books'.lost == []
    requires books'.lost == [] ==>
               && books.lost == [] && books.waiting == Answered(more) + books'.waiting
               && (InOrder(events, books.base) ==> InOrder(events + more, books.base))
    ensures Ledger(events + more, books', false)
  {
    hide Declared, Answered, InOrder, Distinct;
    var all := events + more;
    assert forall i :: |events| <= i < |all| ==> all[i] == more[i - |events|];
    OwnPart(events, more, books.base);
    PlainCalls(more);
    assert Declared(events[books.base..]) + [] == Declared(events[books.base..]);
    AdvancingAppended(events, more, books.base);
    if books'.lost == [] {
      SettledGrown(events, more, books.base, books.waiting, books'.waiting);
    }
  }

  /** Neutral records, and possibly one that was refused. */
  lemma {:induction false} LedgerPassed(events: seq<Event>, more: seq<Event>, books: Books, failures': nat)
    requires Ledger(events, books, false) && AllNeutral(more) && Quiet(more) && failures' >= books.failures
    ensures Ledger(events + more, books.(failures := failures'), false)
  {
    if InOrder(events, books.base) {
      InOrderNeutral(events, more, books.base);
    }
    PlainCalls(more);
    hide InOrder, Settled, Advancing, Issued;
    assert [] + books.waiting == books.waiting;
    LedgerGrown(events, more, books, books.(failures := failures'));
  }

  /** A call is lost: from here on the log says nothing about the order of results. */
  lemma {:induction false} LedgerLost(events: seq<Event>, more: seq<Event>, books: Books, books': Books)
    requires Ledger(events, books, false) && AllNeutral(more) && Quiet(more)
    requires books'.base == books.base && books'.issued == books.issued && books'.failures > 0 && books'.lost != []
    ensures Ledger(events + more, books', false)
  {
    hide Ledger;
    LedgerGrown(events, more, books, books');
  }

  lemma {:induction false} LedgerFailed(events: seq<Event>, books: Books, failures': nat)
    requires Ledger(events, books, false) && failures' > 0
    ensures Ledger(events, books.(failures := failures'), false)
  {
  }

  /** One record that neither declares nor answers. */
  lemma {:induction false} OwnStep(events: seq<Event>, e: Event, books: Books)
    requires Ledger(events, books, false)
    requires !e.ToolResult? && (e.AssistantMessage? ==> e.calls == [])
    requires e.Compaction? && e.succeeded ==> e.covered > Replayed(events).covered
    ensures Issued(Declared((events + [e])[books.base..]), books.issued)
    ensures books.lost == [] ==> Settled(events + [e], books.base, books.waiting)
    ensures Advancing(events + [e], books.base)
  {
    var base := books.base;
    OwnPart(events, [e], base);
    AdvancingStep(events, e, base);
    assert [e][..0] == [] && Declared([]) == [] && Answered([]) == [];
    assert Declared([e]) == [] && Answered([e]) == [];
    assert Declared(events[base..]) + [] == Declared(events[base..]);
    if books.lost == [] {
      InOrderAppended(events, e, base);
      assert [] + books.waiting == books.waiting;
      SettledGrown(events, [e], base, books.waiting, books.waiting);
    }
  }

  lemma {:induction false} LedgerNeutral(events: seq<Event>, e: Event, books: Books)
    requires Ledger(events, books, false)
    requires !e.ToolResult? && !e.SessionEnd? && (e.AssistantMessage? ==> e.calls == [])
    requires e.Compaction? && e.succeeded ==> e.covered > Replayed(events).covered
    ensures Ledger(events + [e], books, false)
  {
    OwnStep(events, e, books);
    hide Settled, Advancing, Issued;
    assert [e][0] == e;
  }

  lemma {:induction false} LedgerIssued(events: seq<Event>, books: Books, issued': set<Id>)
    requires Ledger(events, books, false) && books.issued <= issued'
    ensures Ledger(events, books.(issued := issued'), false)
  {
    hide Settled, Advancing;
  }

  lemma {:induction false} IssuedMore(declared: seq<Id>, more: seq<Id>, issued: set<Id>)
    requires Issued(declared, issued) && Distinct(more)
    requires forall i :: 0 <= i < |more| ==> more[i] in issued && more[i] !in declared
    ensures Issued(declared + more, issued)
  {
    var all := declared + more;
    forall i, j | 0 <= i < j < |all| ensures all[i] != all[j] {
      if j < |declared| {
        assert all[i] == declared[i] && all[j] == declared[j];
      } else if i < |declared| {
        assert all[i] == declared[i] && declared[i] in declared && all[j] == more[j - |declared|];
      } else {
        assert all[i] == more[i - |declared|] && all[j] == more[j - |declared|];
      }
    }
  }

  /** A declaration of new calls; all of them wait. */
  lemma {:induction false} LedgerDeclared(events: seq<Event>, text: string, registered: set<string>,
                                          plans: seq<Planned>, calls: seq<Call>, books: Books)
    requires Ledger(events, books, false) && books.waiting == [] && books.lost == [] && WellPlanned(plans, calls)
    requires forall i :: 0 <= i < |plans| ==>
               plans[i].correlation in books.issued && plans[i].correlation !in Declared(events[books.base..])
    ensures Ledger(events + [AssistantMessage(text, Records(registered, plans))],
                   books.(waiting := PlanIds(plans)), false)
  {
    var base, ids := books.base, PlanIds(plans);
    var e := AssistantMessage(text, Records(registered, plans));
    assert Correlations(e.calls) == ids;
    OwnPart(events, [e], base);
    assert [e][..0] == [] && [e][0] == e;
    assert Declared([]) == [] && Answered([]) == [] && [] + ids == ids;
    assert Declared([e]) == ids && Answered([e]) == [];
    hide Declared, Answered;
    IssuedMore(Declared(events[base..]), ids, books.issued);
    AdvancingStep(events, e, base);
    InOrderAppended(events, e, base);
    var answered := Answered(events[base..]);
    assert answered + [] == answered;
  }

  lemma {:induction false} QuietGrown(before: seq<Event>, more: seq<Event>)
    requires Quiet(more)
    ensures QuietGrowth(before, before + more)
  {
    var all := before + more;
    assert forall i :: |before| <= i < |all| ==> all[i] == more[i - |before|];
  }

  /** The records of a closed call end nothing and declare nothing. */
  lemma {:induction false} TraceQuiet(seg: seq<Event>, c: Id, provider: Option<Id>, data: ToolData)
    requires CallTrace(seg, c, provider, data)
    ensures Quiet(seg) && Plain(seg) && Answered(seg) == [c]
  {
    assert forall i :: 1 <= i < |seg| - 1 ==> seg[i] == seg[1..|seg| - 1][i - 1];
    PlainCalls(seg[..|seg| - 1]);
  }

  /** An assistant message and its declarations. */
  function DeclaredView(v: View, e: Event, m: Msg, waiting: seq<OpenCall>): View {
    if waiting == [] then LoneView(v, e, m)
    else v.(events := v.events + [e], open := [Entry(m, |v.events| + 1)], waiting := waiting)
  }

  lemma {:induction false} AssistantStep(o: Origin, v: View, text: string, plans: seq<Planned>, calls: seq<Call>)
    requires Consistent(o, v) && v.open == [] && WellPlanned(plans, calls) && Normalized(calls)
    requires ProperNames(o.registered)
    ensures var e := AssistantMessage(text, Records(o.registered, plans));
            && Consistent(o, DeclaredView(v, e, Assistant(text, Refs(plans)), Waiting(plans)))
            && Sane(o.registered, e, |v.events|) && (o.clean ==> Legal(v.events, e))
  {
    hide Consistent;
    var e := AssistantMessage(text, Records(o.registered, plans));
    RestingView(o, v);
    RecordsWellDeclared(o.registered, plans, calls);
    assert [e][0] == e;
    if plans == [] {
      assert Records(o.registered, plans) == [] && Refs(plans) == [];
      LoneRecordStep(o, v, e, Assistant(text, []));
    } else {
      SameDeclaration(o.registered, text, plans, calls);
      DeclareStep(o, v, e, Refs(plans));
    }
  }

  lemma {:induction false} WaitingDiffer(o: Origin, v: View, plans: seq<Planned>)
    requires Consistent(o, v) && v.waiting == Waiting(plans) && plans != []
    ensures v.open != []
    ensures Open(v.events) == v.lost + Waiting(plans)
    ensures forall i :: 1 <= i < |plans| ==> plans[i].correlation != plans[0].correlation
  {
    var open := Open(v.events);
    forall i | 1 <= i < |plans| ensures plans[i].correlation != plans[0].correlation {
      assert open[|v.lost|] == Waiting(plans)[0] && open[|v.lost| + i] == Waiting(plans)[i];
    }
  }

  /** The first waiting call is answered. */
  function AnsweredView(v: View, events: seq<Event>, plans: seq<Planned>, data: ToolData): View
    requires plans != []
  {
    var full := v.open + [Entry(Tool(plans[0].contextId, data), |events|)];
    if v.lost == [] && |plans| == 1 then
      v.(events := events, groups := v.groups + [full], open := [], lost := [], waiting := [])
    else
      v.(events := events, open := full, waiting := Waiting(plans[1..]))
  }

  lemma {:induction false} AnswerFirst(o: Origin, v: View, seg: seq<Event>, plans: seq<Planned>,
                                       provider: Option<Id>, data: ToolData, from: nat)
    requires Consistent(o, v) && plans != [] && v.waiting == Waiting(plans) && from <= |v.events|
    requires CallTrace(seg, plans[0].correlation, provider, data)
    ensures v.open != []
    ensures Consistent(o, AnsweredView(v, v.events + seg, plans, data))
    ensures v.lost == [] && InOrder(v.events, from) ==> InOrder(v.events + seg, from)
  {
    hide Consistent, CallTrace, InOrder, Open;
    var k := |v.lost|;
    WaitingDiffer(o, v, plans);
    var open := Open(v.events);
    assert open[k] == Waiting(plans)[0];
    assert open[..k] == v.lost && open[k + 1..] == Waiting(plans[1..]);
    CallStep(o, v, seg, plans[0].correlation, provider, data, k, v.lost, Waiting(plans[1..]), from);
    assert v.lost + Waiting(plans[1..]) == [] <==> v.lost == [] && |plans| == 1;
  }

  lemma {:induction false} LoseFirst(o: Origin, v: View, more: seq<Event>, plans: seq<Planned>)
    requires Consistent(o, v) && plans != [] && v.waiting == Waiting(plans) && AllNeutral(more)
    ensures Consistent(o, v.(events := v.events + more, lost := v.lost + [Waiting(plans)[0]],
                             waiting := Waiting(plans[1..])))
  {
    NeutralStep(o, v, more);
    LostStep(o, v.(events := v.events + more));
    assert Waiting(plans)[1..] == Waiting(plans[1..]);
  }
}
