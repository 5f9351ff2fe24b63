/** context.py ContextBuilder and compactor.py Compactor: what is sent, what is summarised, and what
    a failed summary leaves out. */
module Context {
  import opened Wrappers
  import opened Transcript
  import opened Grouping
  import opened Runtime
  import opened Model

  datatype Projected = Projected(messages: seq<Msg>, total: nat, groups: seq<Group>)

  datatype Plan = Plan(oldSummary: Option<string>, groups: seq<Group>, forced: bool, previous: nat) {
    predicate Valid() {
      groups != [] && NonEmpty(groups)
    }

    function SourceStart(): nat
      requires Valid()
    {
      StartSequence(groups[0])
    }

    function Covered(): nat
      requires Valid()
    {
      EndSequence(groups[|groups| - 1])
    }
  }

  function SummaryText(covered: nat, summary: string): string {
    "Incremental context summary through sequence " + Decimal(covered) + ":\n" + summary
  }

  function Messages(es: seq<Entry>): (ms: seq<Msg>)
    ensures |ms| == |es|
    ensures forall i :: 0 <= i < |ms| ==> ms[i] == es[i].msg
  {
    seq(|es|, i requires 0 <= i < |es| => es[i].msg)
  }

  /** The request for a projection: prompt, summary, notice, then every group past the cutoff. */
  function RequestMessages(prompt: string, summary: Option<string>, covered: nat,
                           notice: Option<string>, groups: seq<Group>): seq<Msg> {
    [System(prompt)]
    + (if summary.Some? then [System(SummaryText(covered, summary.value))] else [])
    + (if notice.Some? then [System(notice.value)] else [])
    + Messages(Flatten(groups))
  }

  lemma {:induction false} GroupsAboveSnoc(gs: seq<Group>, g: Group, cutoff: nat)
    requires NonEmpty(gs) && g != []
    ensures GroupsAbove(gs + [g], cutoff) ==
            GroupsAbove(gs, cutoff) + if EndSequence(g) > cutoff then [g] else []
  {
    if gs == [] {
      assert gs + [g] == [g] && [g][1..] == [];
    } else {
      assert (gs + [g])[1..] == gs[1..] + [g];
      GroupsAboveSnoc(gs[1..], g, cutoff);
    }
  }

  lemma {:induction false} ScaledDown(n: nat, t: real)
    requires 0.0 < t <= 1.0
    ensures (n as real * t).Floor <= n
  {
    assert n as real * t <= n as real * 1.0;
  }

  class ContextBuilder {
    const prompt: string
    const window: Window
    const threshold: real
    const keepRecent: nat

    constructor (prompt: string, window: Window, threshold: real, keepRecent: nat)
      requires window.reserve < window.size && 0.0 < threshold <= 1.0 && keepRecent >= 1
      ensures this.prompt == prompt && this.window == window
      ensures this.threshold == threshold && this.keepRecent == keepRecent
      ensures Valid()
    {
      this.prompt, this.window := prompt, window;
      this.threshold, this.keepRecent := threshold, keepRecent;
    }

    predicate Valid() {
      window.reserve < window.size && 0.0 < threshold <= 1.0 && keepRecent >= 1
    }

    /** The size at which compaction starts never exceeds the window. */
    function Trigger(): (t: int)
      requires Valid()
      ensures 1 <= t <= window.size
    {
      var scaled := (window.size as real * threshold).Floor;
      ScaledDown(window.size, threshold);
      if scaled < 1 then 1 else scaled
    }

    function Total(messages: seq<Msg>, tools: nat): nat {
      window.estimator.Request(messages, tools) + window.reserve
    }

    method AllGroups(context: ContextState) returns (r: Result<seq<Group>, GroupError>)
      ensures r == Grouped(context.entries)
    {
      r := GroupMessages(context.entries);
    }

    method EffectiveGroups(context: ContextState) returns (r: Result<seq<Group>, GroupError>)
      ensures Grouped(context.entries).Err? ==> r == Grouped(context.entries)
      ensures Grouped(context.entries).Ok? ==>
                r == Ok(GroupsAbove(Grouped(context.entries).value, context.Cutoff()))
    {
      var cutoff := Max(context.covered, context.degraded);
      var all :- AllGroups(context);
      var groups: seq<Group> := [];
      for i := 0 to |all|
        invariant groups == GroupsAbove(all[..i], cutoff)
      {
        assert all[..i + 1] == all[..i] + [all[i]];
        GroupsAboveSnoc(all[..i], all[i], cutoff);
        if EndSequence(all[i]) <= cutoff {
          continue;
        }
        groups := groups + [all[i]];
      }
      assert all[..|all|] == all;
      return Ok(groups);
    }

    method Project(context: ContextState, tools: nat) returns (r: Result<Projected, GroupError>)
      ensures Grouped(context.entries).Err? ==> r == Err(Grouped(context.entries).error)
      ensures Grouped(context.entries).Ok? ==>
                && r.Ok?
                && r.value.groups == GroupsAbove(Grouped(context.entries).value, context.Cutoff())
                && r.value.messages == RequestMessages(prompt, context.summary, context.covered,
                                                       context.notice, r.value.groups)
                && r.value.total == Total(r.value.messages, tools)
    {
      var messages := [System(prompt)];
      if context.summary.Some? {
        messages := messages + [System(SummaryText(context.covered, context.summary.value))];
      }
      if context.notice.Some? {
        messages := messages + [System(context.notice.value)];
      }
      var groups :- EffectiveGroups(context);
      var interactions := MessagesOf(groups);
      messages := messages + interactions;
      return Ok(Projected(messages, Total(messages, tools), groups));
    }

    method MessagesOf(groups: seq<Group>) returns (messages: seq<Msg>)
      ensures messages == Messages(Flatten(groups))
    {
      messages := [];
      for i := 0 to |groups|
        invariant messages == Messages(Flatten(groups[..i]))
      {
        assert groups[..i + 1] == groups[..i] + [groups[i]];
        FlattenSnoc(groups[..i], groups[i]);
        messages := messages + Messages(groups[i]);
      }
      assert groups[..|groups|] == groups;
    }

    /** The oldest groups that are not yet summarised, without the most recent ones. */
    method PlanCompaction(context: ContextState, forced: bool) returns (r: Result<Option<Plan>, GroupError>)
      requires Valid()
      ensures Grouped(context.entries).Err? ==> r == Err(Grouped(context.entries).error)
      ensures Grouped(context.entries).Ok? ==>
                && r.Ok?
                && var eligible := GroupsAbove(Grouped(context.entries).value, context.covered);
                   var kept := if forced then 1 else keepRecent;
                   if |eligible| <= kept then r.value == None
                   else r.value == Some(Plan(context.summary, eligible[..|eligible| - kept], forced, context.covered))
                        && r.value.value.Valid()
    {
      var all :- AllGroups(context);
      var eligible := GroupsAbove(all, context.covered);
      var kept := if forced then 1 else keepRecent;
      var count := |eligible| - kept;
      if count <= 0 {
        return Ok(None);
      }
      return Ok(Some(Plan(context.summary, eligible[..count], forced, context.covered)));
    }

    /** A failed compaction leaves out a prefix of complete groups and says so. */
    method ApplyDegradedFallback(context: ContextState, plan: Plan)
      requires plan.Valid()
      modifies context
      ensures context.degraded == Max(old(context.degraded), plan.Covered())
      ensures context.notice == Some(DEGRADED_NOTICE)
      ensures context.summary == old(context.summary) && context.covered == old(context.covered)
      ensures context.entries == old(context.entries)
    {
      context.degraded := Max(context.degraded, EndSequence(plan.groups[|plan.groups| - 1]));
      context.notice := Some(DEGRADED_NOTICE);
    }
  }

  // ---------------------------------------------------------------- compaction

  /** The sequence is the end of one of the planned groups. */
  predicate EndsIn(plan: Plan, end: nat) {
    exists k :: 0 <= k < |plan.groups| && plan.groups[k] != [] && EndSequence(plan.groups[k]) == end
  }

  const INSTRUCTION :=
    "Create an incremental working summary of the supplied history."

  datatype Outcome = Outcome(succeeded: bool, forced: bool, sourceStart: nat, sourceEnd: nat,
                             summary: Option<string>)

  class Compactor {
    const model: ModelClient
    const prompt: string
    /** The JSON text of the old summary and the groups. */
    const payload: (Option<string>, seq<Group>) -> string
    /** The summary text with the required sections. */
    const sections: string -> string

    constructor (model: ModelClient, prompt: string,
                 payload: (Option<string>, seq<Group>) -> string, sections: string -> string)
      ensures this.model == model && this.prompt == prompt
      ensures this.payload == payload && this.sections == sections
    {
      this.model, this.prompt := model, prompt;
      this.payload, this.sections := payload, sections;
    }

    function MessagesFor(oldSummary: Option<string>, groups: seq<Group>): seq<Msg> {
      [System(prompt), System(INSTRUCTION), User(payload(oldSummary, groups))]
    }

    predicate Fits(plan: Plan, n: nat)
      requires n <= |plan.groups|
    {
      model.window.Fits(MessagesFor(plan.oldSummary, plan.groups[..n]), 0)
    }

    /** The longest run of groups that can be reached one by one within the window. */
    method BoundedGroups(plan: Plan) returns (selected: seq<Group>)
      requires plan.Valid()
      ensures exists n :: 0 <= n <= |plan.groups| && selected == plan.groups[..n]
                && (forall m :: 1 <= m <= n ==> Fits(plan, m))
                && (n < |plan.groups| ==> !Fits(plan, n + 1))
    {
      selected := [];
      ghost var n := 0;
      for i := 0 to |plan.groups|
        invariant n == i && selected == plan.groups[..n]
        invariant forall m :: 1 <= m <= n ==> Fits(plan, m)
      {
        var candidate := selected + [plan.groups[i]];
        assert candidate == plan.groups[..i + 1];
        if !model.window.Fits(MessagesFor(plan.oldSummary, candidate), 0) {
          assert !Fits(plan, n + 1);
          break;
        }
        selected, n := candidate, n + 1;
      }
    }

    /** One attempt, never retried. On success the source is a non-empty prefix of the plan, was
        sent whole, and the context covers exactly up to its end; on failure nothing changes. */
    method Compact(context: ContextState, plan: Plan) returns (r: Result<Outcome, Exn>)
      requires plan.Valid()
      modifies context, model
      ensures |model.sent| <= |old(model.sent)| + 1 && old(model.sent) <= model.sent
      ensures old(model.AllFit()) ==> model.AllFit()
      ensures context.entries == old(context.entries)
      ensures r.Err? ==> context.Cuts() == old(context.Cuts()) && r.error.External() && !r.error.IsException()
      ensures r.Ok? ==> r.value.forced == plan.forced && r.value.sourceStart == plan.SourceStart()
      ensures r.Ok? ==> EndsIn(plan, r.value.sourceEnd)
      ensures r.Ok? && r.value.succeeded ==>
                (exists n :: 1 <= n <= |plan.groups| && r.value.sourceEnd == EndSequence(plan.groups[..n][n - 1])
                   && model.sent == old(model.sent) + [Sent(MessagesFor(plan.oldSummary, plan.groups[..n]), 0)])
      ensures r.Ok? && r.value.succeeded ==>
                && r.value.summary.Some?
                && context.Cuts() == (r.value.summary, r.value.sourceEnd, 0, None)
      ensures r.Ok? && !r.value.succeeded ==> context.Cuts() == old(context.Cuts()) && r.value.summary == None
    {
      var selected := BoundedGroups(plan);
      ghost var n := |selected|;
      assert selected == plan.groups[..n];
      if selected == [] {
        return Ok(Outcome(false, plan.forced, plan.SourceStart(), EndSequence(plan.groups[0]), None));
      }
      var messages := MessagesFor(plan.oldSummary, selected);
      assert Fits(plan, n);
      var last := selected[|selected| - 1];
      assert last == plan.groups[n - 1];
      var reply := model.Complete(messages, 0);
      if reply.Err? && !reply.error.IsException() {
        return Err(reply.error);
      }
      if reply.Err? || reply.value.calls != [] || Blank(reply.value.text) {
        return Ok(Outcome(false, plan.forced, plan.SourceStart(), EndSequence(last), None));
      }
      context.summary := Some(sections(reply.value.text));
      context.covered := EndSequence(last);
      context.degraded := 0;
      context.notice := None;
      return Ok(Outcome(true, plan.forced, plan.SourceStart(), EndSequence(last), context.summary));
    }
  }

  /** The text is empty once white space is stripped. */
  predicate Blank(text: string) {
    forall c :: c in text ==> c in {' ', '\t', '\n', '\r'}
  }
}
