/** The live context against the log: what every step of a loop keeps, and what it means for the
    next resume. */
module Live {
  import opened Wrappers
  import opened Transcript
  import opened Grouping
  import opened Replay
  import opened Executor

  // ---------------------------------------------------------------- names as the log keeps them

  /** The log does not keep the names of unregistered tools. */
  function KeptRef(registered: set<string>, r: ToolRef): ToolRef {
    if r.name in registered then r else r.(name := INVALID_TOOL_NAME)
  }

  function KeptMsg(registered: set<string>, m: Msg): Msg {
    if m.Assistant? then
      m.(calls := seq(|m.calls|, i requires 0 <= i < |m.calls| => KeptRef(registered, m.calls[i])))
    else m
  }

  function Kept(registered: set<string>, es: seq<Entry>): (ks: seq<Entry>)
    ensures |ks| == |es|
    ensures forall i :: 0 <= i < |ks| ==> ks[i] == es[i].(msg := KeptMsg(registered, es[i].msg))
  {
    seq(|es|, i requires 0 <= i < |es| => es[i].(msg := KeptMsg(registered, es[i].msg)))
  }

  function KeptGroups(registered: set<string>, gs: seq<Group>): (ks: seq<Group>)
    ensures |ks| == |gs|
    ensures forall i :: 0 <= i < |ks| ==> ks[i] == Kept(registered, gs[i])
  {
    seq(|gs|, i requires 0 <= i < |gs| => Kept(registered, gs[i]))
  }

  lemma {:induction false} KeptConcat(registered: set<string>, es: seq<Entry>, fs: seq<Entry>)
    ensures Kept(registered, es + fs) == Kept(registered, es) + Kept(registered, fs)
  {
  }

  lemma {:induction false} KeptFlatten(registered: set<string>, gs: seq<Group>)
    ensures Kept(registered, Flatten(gs)) == Flatten(KeptGroups(registered, gs))
  {
    if gs != [] {
      KeptFlatten(registered, gs[1..]);
      KeptConcat(registered, gs[0], Flatten(gs[1..]));
      assert KeptGroups(registered, gs)[1..] == KeptGroups(registered, gs[1..]);
    }
  }

  lemma {:induction false} KeptComplete(registered: set<string>, g: Group)
    requires Complete(g)
    ensures Complete(Kept(registered, g))
  {
    var k := Kept(registered, g);
    if IsDeclaration(g[0].msg) {
      assert RefIds(k[0].msg.calls) == RefIds(g[0].msg.calls);
      assert forall i :: 0 <= i < |g| - 1 ==> k[1..][i].msg == g[1..][i].msg || !g[1..][i].msg.Tool?;
    }
  }

  lemma {:induction false} KeptAbove(registered: set<string>, es: seq<Entry>, cutoff: nat)
    ensures Above(Kept(registered, es), cutoff) == Kept(registered, Above(es, cutoff))
  {
    if es != [] {
      assert Kept(registered, es)[1..] == Kept(registered, es[1..]);
      KeptAbove(registered, es[1..], cutoff);
      KeptConcat(registered, if es[0].sequence > cutoff then [es[0]] else [], Above(es[1..], cutoff));
    }
  }

  // ---------------------------------------------------------------- the pairs of any log

  lemma {:induction false} PairsOrdered(log: seq<Event>)
    ensures Increasing(Replayed(log).pairs)
    ensures AtMost(Replayed(log).pairs, |log|) && Over(Replayed(log).pairs, 0)
  {
    if log != [] {
      PairsOrdered(log[..|log| - 1]);
    }
  }

  // ---------------------------------------------------------------- the consistency of a loop

  /** Where a loop started: what its resume cut off, loaded and dropped. */
  datatype Origin = Origin(
    clean: bool, hidden: seq<Entry>, hiddenGroups: seq<Group>, loaded: nat, dropped: seq<Entry>,
    registered: set<string>)

  /** The log, the context fields, its messages as complete groups and an open one, and the declared
      calls that are lost (their result could not be stored) or still waiting. */
  datatype View = View(
    events: seq<Event>, summary: Option<string>, covered: nat, degraded: nat, notice: Option<string>,
    groups: seq<Group>, open: seq<Entry>, lost: seq<OpenCall>, waiting: seq<OpenCall>)
  {
    function Cutoff(): nat {
      Max(covered, degraded)
    }

    function Entries(): seq<Entry> {
      Flatten(groups) + open
    }
  }

  ghost predicate Before(es: seq<Entry>, fs: seq<Entry>) {
    forall i, j :: 0 <= i < |es| && 0 <= j < |fs| ==> es[i].sequence < fs[j].sequence
  }

  /** The messages the loop has added since it started. */
  function Added(o: Origin, v: View): seq<Entry>
    requires o.loaded <= |v.groups|
  {
    Flatten(v.groups[o.loaded..]) + v.open
  }

  /** The cut splits neither a group nor what the resume dropped. */
  ghost predicate Cut(o: Origin, v: View, c: nat) {
    && c <= |v.events|
    && Boundary(v.groups, c) && Over(v.open, c)
    && (AtMost(o.dropped, c) || Over(o.dropped, c))
    && (o.clean ==> c == 0 || IsEnd(o.hiddenGroups + v.groups, c))
  }

  ghost predicate SamePairs(o: Origin, v: View) {
    && o.loaded <= |v.groups|
    && Replayed(v.events).pairs ==
       o.hidden + Kept(o.registered, Flatten(v.groups[..o.loaded])) + o.dropped
       + Kept(o.registered, Added(o, v))
  }

  ghost predicate SameCuts(v: View) {
    var p := Replayed(v.events);
    v.summary == p.summary && v.covered == p.covered && v.degraded == p.degraded && v.notice == p.notice
  }

  ghost predicate CallsTracked(o: Origin, v: View) {
    if v.open == [] then
      v.waiting == [] && v.lost == [] && (o.clean ==> Open(v.events) == [])
    else
      && Open(v.events) == v.lost + v.waiting && Open(v.events) != []
      && OpenShape(Open(v.events), Replayed(v.events).pending, v.open)
  }

  ghost predicate CleanOrigin(o: Origin) {
    o.clean ==> o.hidden == Flatten(o.hiddenGroups) && AllComplete(o.hiddenGroups) && o.dropped == []
  }

  /** Everything is cut between interactions, and the most recent one is never cut. */
  ghost predicate CutsFit(o: Origin, v: View) {
    && AllComplete(v.groups)
    && Cut(o, v, v.covered) && Cut(o, v, v.degraded)
    && (v.groups != [] ==> v.Cutoff() < EndSequence(v.groups[|v.groups| - 1]))
  }

  ghost predicate OriginFits(o: Origin, v: View) {
    && CleanOrigin(o)
    && (o.dropped == [] || Partial(o.dropped))
    && AtMost(o.hidden, v.Cutoff())
  }

  ghost predicate Consistent(o: Origin, v: View) {
    && (v.open == [] || Partial(v.open))
    && SamePairs(o, v) && SameCuts(v) && CallsTracked(o, v)
    && OriginFits(o, v) && CutsFit(o, v)
    && (v.degraded != 0 ==> v.notice.Some?)
  }

  // ---------------------------------------------------------------- what a step may be

  lemma {:induction false} NeutralStep(o: Origin, v: View, more: seq<Event>)
    requires Consistent(o, v) && AllNeutral(more)
    ensures Consistent(o, v.(events := v.events + more))
    ensures o.clean && Disciplined(v.events) ==> Disciplined(v.events + more)
  {
    NeutralKeeps(v.events, more);
    if o.clean && Disciplined(v.events) {
      NeutralDisciplined(v.events, more);
    }
  }

  lemma {:induction false} NeutralDisciplined(log: seq<Event>, more: seq<Event>)
    requires Disciplined(log) && AllNeutral(more)
    ensures Disciplined(log + more)
    decreases |more|
  {
    if more == [] {
      assert log + more == log;
    } else {
      var init := more[..|more| - 1];
      NeutralDisciplined(log, init);
      DisciplinedAppended(log + init, more[|more| - 1]);
      assert log + more == log + init + [more[|more| - 1]];
    }
  }

  /** A new complete group behind all others. */
  lemma {:induction false} GroupAdded(o: Origin, v: View, w: View, g: Group)
    requires CutsFit(o, v) && Complete(g) && Over(g, v.covered) && Over(g, v.degraded)
    requires w.groups == v.groups + [g] && w.open == []
    requires w.covered == v.covered && w.degraded == v.degraded && |w.events| > |v.events|
    ensures CutsFit(o, w)
  {
    CutKept(o, v, w, g, v.covered);
    CutKept(o, v, w, g, v.degraded);
    var first, last := SequenceBounds(g);
  }

  lemma {:induction false} CutKept(o: Origin, v: View, w: View, g: Group, c: nat)
    requires Cut(o, v, c) && Over(g, c)
    requires w.groups == v.groups + [g] && w.open == [] && |w.events| > |v.events|
    ensures Cut(o, w, c)
  {
    if o.clean && c != 0 {
      assert o.hiddenGroups + w.groups == o.hiddenGroups + v.groups + [g];
      IsEndGrows(o.hiddenGroups + v.groups, [g], c);
    }
  }

  lemma {:induction false} AddedGroup(o: Origin, v: View, w: View, g: Group, more: seq<Entry>)
    requires o.loaded <= |v.groups| && w.groups == v.groups + [g] && w.open == []
    requires g == v.open + more
    ensures Added(o, w) == Added(o, v) + more
    ensures w.groups[..o.loaded] == v.groups[..o.loaded]
  {
    assert w.groups[o.loaded..] == v.groups[o.loaded..] + [g];
    FlattenSnoc(v.groups[o.loaded..], g);
    assert Flatten(v.groups[o.loaded..]) + (v.open + more) == Flatten(v.groups[o.loaded..]) + v.open + more;
    assert Flatten(w.groups[o.loaded..]) + [] == Flatten(w.groups[o.loaded..]);
  }

  lemma {:induction false} AddedOpen(o: Origin, v: View, w: View, more: seq<Entry>)
    requires o.loaded <= |v.groups| && w.groups == v.groups && w.open == v.open + more
    ensures Added(o, w) == Added(o, v) + more
  {
    assert Flatten(v.groups[o.loaded..]) + (v.open + more) == Flatten(v.groups[o.loaded..]) + v.open + more;
  }

  /** One more message on both sides. */
  lemma {:induction false} PairsStep(o: Origin, v: View, w: View, entry: Entry)
    requires SamePairs(o, v) && o.loaded <= |w.groups|
    requires w.groups[..o.loaded] == v.groups[..o.loaded]
    requires Added(o, w) == Added(o, v) + [entry]
    requires Replayed(w.events).pairs == Replayed(v.events).pairs + Kept(o.registered, [entry])
    ensures SamePairs(o, w)
  {
    KeptConcat(o.registered, Added(o, v), [entry]);
    var front := o.hidden + Kept(o.registered, Flatten(v.groups[..o.loaded])) + o.dropped;
    assert front + Kept(o.registered, Added(o, v)) + Kept(o.registered, [entry]) ==
           front + (Kept(o.registered, Added(o, v)) + Kept(o.registered, [entry]));
  }

  /** A record that projects to one message outside any tool interaction. */
  lemma {:induction false} LoneStep(o: Origin, v: View, w: View, e: Event, m: Msg, pending: map<Id, Id>)
    requires Consistent(o, v) && v.open == [] && !m.Tool? && !IsDeclaration(m)
    requires w == v.(events := v.events + [e], groups := v.groups + [[Entry(m, |v.events| + 1)]])
    requires Replayed(w.events) == Replayed(v.events).(
               pairs := Replayed(v.events).pairs + [Entry(KeptMsg(o.registered, m), |v.events| + 1)],
               pending := pending)
    requires Open(w.events) == Open(v.events) || Open(w.events) == []
    ensures Consistent(o, w)
  {
    var entry := Entry(m, |v.events| + 1);
    GroupAdded(o, v, w, [entry]);
    assert v.open + [entry] == [entry];
    AddedGroup(o, v, w, [entry], [entry]);
    assert Kept(o.registered, [entry]) == [entry.(msg := KeptMsg(o.registered, m))];
    PairsStep(o, v, w, entry);
  }

  /** The declared identifiers are the ones the log keeps. */
  lemma {:induction false} KeptIds(registered: set<string>, text: string, refs: seq<ToolRef>, kept: seq<ToolRef>)
    requires KeptMsg(registered, Assistant(text, refs)) == Assistant(text, kept)
    ensures RefIds(refs) == RefIds(kept)
  {
    var k := KeptMsg(registered, Assistant(text, refs));
    assert k.calls == kept && |kept| == |refs|;
    assert forall i :: 0 <= i < |refs| ==> k.calls[i] == KeptRef(registered, refs[i]);
  }

  lemma {:induction false} OpenDeclaredLive(registered: set<string>, text: string, refs: seq<ToolRef>,
                                            calls: seq<CallRecord>, sequence: nat)
    requires calls != [] && WellDeclared(calls)
    requires KeptMsg(registered, Assistant(text, refs)) == Assistant(text, ShownCalls(calls))
    ensures OpenShape(OpenOf(calls), PendingIds(calls), [Entry(Assistant(text, refs), sequence)])
  {
    OpenDeclared(calls, text, sequence);
    KeptIds(registered, text, refs, ShownCalls(calls));
    var live := [Entry(Assistant(text, refs), sequence)];
    var kept := [Entry(Assistant(text, ShownCalls(calls)), sequence)];
    assert live[1..] == kept[1..];
    assert forall id :: Awaited(id, kept) ==> Awaited(id, live);
  }

  /** An assistant record with calls opens an interaction and leaves all of them waiting. */
  lemma {:induction false} DeclareStep(o: Origin, v: View, e: Event, refs: seq<ToolRef>)
    requires Consistent(o, v) && v.open == []
    requires e.AssistantMessage? && e.calls != [] && WellDeclared(e.calls)
    requires KeptMsg(o.registered, Assistant(e.text, refs)) == Assistant(e.text, ShownCalls(e.calls))
    ensures Consistent(o, v.(events := v.events + [e], open := [Entry(Assistant(e.text, refs), |v.events| + 1)],
                             lost := [], waiting := OpenOf(e.calls)))
  {
    var entry := Entry(Assistant(e.text, refs), |v.events| + 1);
    var w := v.(events := v.events + [e], open := [entry], lost := [], waiting := OpenOf(e.calls));
    Appended(v.events, e);
    OpenDeclaredLive(o.registered, e.text, refs, e.calls, |v.events| + 1);
    assert [] + OpenOf(e.calls) == OpenOf(e.calls);
    assert v.open + [entry] == [entry];
    AddedOpen(o, v, w, [entry]);
    assert Kept(o.registered, [entry]) == [Entry(Assistant(e.text, ShownCalls(e.calls)), |v.events| + 1)];
    PairsStep(o, v, w, entry);
  }

  /** What a result record does to the log's functions. */
  lemma {:induction false} AnswerRecord(o: Origin, v: View, e: Event, k: nat)
    requires Consistent(o, v) && v.open != []
    requires e.ToolResult? && k < |Open(v.events)| && Open(v.events)[k].correlation == e.correlation
    ensures Replayed(v.events + [e]) == Replayed(v.events).(
              pairs := Replayed(v.events).pairs
                       + [Entry(Tool(Open(v.events)[k].contextId, e.data), |v.events| + 1)])
    ensures var left := Open(v.events)[..k] + Open(v.events)[k + 1..];
            var full := v.open + [Entry(Tool(Open(v.events)[k].contextId, e.data), |v.events| + 1)];
            && Open(v.events + [e]) == left
            && if left == [] then Complete(full) else OpenShape(left, Replayed(v.events).pending, full)
  {
    Appended(v.events, e);
    OpenAnswered(Open(v.events), Replayed(v.events).pending, v.open,
                 Entry(Tool(Open(v.events)[k].contextId, e.data), |v.events| + 1), k);
  }

  /** A result record for the open call k, once its message is appended, when others stay open. */
  lemma {:induction false} AnswerStep(o: Origin, v: View, w: View, e: Event, k: nat, entry: Entry)
    requires Consistent(o, v) && v.open != []
    requires e.ToolResult? && k < |Open(v.events)| && Open(v.events)[k].correlation == e.correlation
    requires entry == Entry(Tool(Open(v.events)[k].contextId, e.data), |v.events| + 1)
    requires w.lost + w.waiting == Open(v.events)[..k] + Open(v.events)[k + 1..] != []
    requires w == v.(events := v.events + [e], open := v.open + [entry], lost := w.lost, waiting := w.waiting)
    ensures Consistent(o, w)
  {
    AnswerRecord(o, v, e, k);
    assert Kept(o.registered, [entry]) == [entry];
    AddedOpen(o, v, w, [entry]);
    PairsStep(o, v, w, entry);
  }

  /** The same for the last open call: the interaction is complete. */
  lemma {:induction false} LastAnswerStep(o: Origin, v: View, w: View, e: Event, entry: Entry)
    requires Consistent(o, v) && v.open != [] && |Open(v.events)| == 1
    requires e.ToolResult? && Open(v.events)[0].correlation == e.correlation
    requires entry == Entry(Tool(Open(v.events)[0].contextId, e.data), |v.events| + 1)
    requires w == v.(events := v.events + [e], groups := v.groups + [v.open + [entry]], open := [],
                     lost := [], waiting := [])
    ensures Consistent(o, w)
  {
    AnswerRecord(o, v, e, 0);
    assert Open(v.events)[..0] + Open(v.events)[1..] == [];
    assert Kept(o.registered, [entry]) == [entry];
    AddedGroup(o, v, w, v.open + [entry], [entry]);
    PairsStep(o, v, w, entry);
    GroupAdded(o, v, w, v.open + [entry]);
  }

  // ---------------------------------------------------------------- the order of everything

  lemma {:induction false} IncreasingSplit(es: seq<Entry>, fs: seq<Entry>)
    ensures Increasing(es + fs) <==> Increasing(es) && Increasing(fs) && Before(es, fs)
  {
    var all := es + fs;
    if Increasing(all) {
      IncreasingParts(es, fs);
      forall i, j | 0 <= i < |es| && 0 <= j < |fs| ensures es[i].sequence < fs[j].sequence {
        assert all[i] == es[i] && all[|es| + j] == fs[j];
      }
    }
  }

  lemma {:induction false} BeforeParts(es: seq<Entry>, fs: seq<Entry>, gs: seq<Entry>)
    requires Before(es, fs + gs)
    ensures Before(es, fs) && Before(es, gs)
  {
    assert forall j :: 0 <= j < |fs| ==> (fs + gs)[j] == fs[j];
    assert forall j :: 0 <= j < |gs| ==> (fs + gs)[|fs| + j] == gs[j];
  }

  lemma {:induction false} FourParts(a: seq<Entry>, b: seq<Entry>, d: seq<Entry>, k: seq<Entry>)
    requires Increasing(a + b + d + k)
    ensures Increasing(b + k) && Before(a, b + k) && Before(b, d) && Before(d, k)
  {
    assert a + b + d + k == a + (b + (d + k));
    IncreasingSplit(a, b + (d + k));
    IncreasingSplit(b, d + k);
    IncreasingSplit(d, k);
    BeforeParts(a, b, d + k);
    BeforeParts(a, d, k);
    BeforeParts(b, d, k);
    IncreasingSplit(b, k);
  }

  lemma {:induction false} LiveParts(o: Origin, v: View)
    requires o.loaded <= |v.groups|
    ensures Flatten(v.groups[..o.loaded]) + Added(o, v) == v.Entries()
  {
    FlattenConcat(v.groups[..o.loaded], v.groups[o.loaded..]);
    assert v.groups[..o.loaded] + v.groups[o.loaded..] == v.groups;
    assert Flatten(v.groups[..o.loaded]) + Added(o, v)
        == Flatten(v.groups[..o.loaded]) + Flatten(v.groups[o.loaded..]) + v.open;
  }

  /** What was hidden, loaded, dropped and added follow each other in the log. */
  lemma {:induction false} LiveOrdered(o: Origin, v: View)
    requires SamePairs(o, v)
    ensures Increasing(v.Entries()) && Before(o.hidden, v.Entries())
    ensures Before(Flatten(v.groups[..o.loaded]), o.dropped) && Before(o.dropped, Added(o, v))
  {
    var b, k := Flatten(v.groups[..o.loaded]), Added(o, v);
    PairsOrdered(v.events);
    FourParts(o.hidden, Kept(o.registered, b), o.dropped, Kept(o.registered, k));
    LiveParts(o, v);
    KeptConcat(o.registered, b, k);
    var kept := Kept(o.registered, v.Entries());
    assert forall i :: 0 <= i < |kept| ==> kept[i].sequence == v.Entries()[i].sequence;
  }

  lemma {:induction false} LiveBounded(o: Origin, v: View)
    requires SamePairs(o, v)
    ensures AtMost(v.Entries(), |v.events|) && Over(v.Entries(), 0)
  {
    var b, k := Flatten(v.groups[..o.loaded]), Added(o, v);
    PairsOrdered(v.events);
    LiveParts(o, v);
    KeptConcat(o.registered, b, k);
    var kept := Kept(o.registered, v.Entries());
    var front, mid := o.hidden + Kept(o.registered, b), o.dropped;
    var all := front + mid + Kept(o.registered, k);
    forall i | 0 <= i < |kept| ensures kept[i] in all {
      var at := if i < |b| then |o.hidden| + i else |front| + |mid| + (i - |b|);
      assert all[at] == kept[i];
    }
    assert forall i :: 0 <= i < |kept| ==> kept[i].sequence == v.Entries()[i].sequence;
  }

  /** A message of a group is a message of the context. */
  lemma {:induction false} GroupInside(gs: seq<Group>, j: nat, i: nat)
    requires j < |gs| && i < |gs[j]|
    ensures gs[j][i] in Flatten(gs)
  {
    if j == 0 {
      assert Flatten(gs)[i] == gs[0][i];
    } else {
      GroupInside(gs[1..], j - 1, i);
    }
  }

  lemma {:induction false} EndInside(gs: seq<Group>, j: nat) returns (k: nat)
    requires j < |gs| && gs[j] != []
    ensures k < |Flatten(gs)| && Flatten(gs)[k].sequence == EndSequence(gs[j])
  {
    var first, last := SequenceBounds(gs[j]);
    GroupInside(gs, j, last);
    k :| k < |Flatten(gs)| && Flatten(gs)[k] == gs[j][last];
  }

  /** Groups that follow each other end one after the other. */
  lemma {:induction false} EndsIncrease(gs: seq<Group>, j: nat, k: nat)
    requires j < k < |gs| && NonEmpty(gs) && Increasing(Flatten(gs))
    ensures EndSequence(gs[j]) < StartSequence(gs[k])
  {
    IncreasingParts(gs[0], Flatten(gs[1..]));
    if j == 0 {
      var first, last := SequenceBounds(gs[0]);
      var f, l := SequenceBounds(gs[k]);
      GroupInside(gs[1..], k - 1, f);
      var i :| 0 <= i < |Flatten(gs[1..])| && Flatten(gs[1..])[i] == gs[k][f];
      assert Flatten(gs)[|gs[0]| + i] == gs[k][f] && Flatten(gs)[last] == gs[0][last];
    } else {
      EndsIncrease(gs[1..], j - 1, k - 1);
    }
  }

  // ---------------------------------------------------------------- compaction

  lemma {:induction false} EndBounds(o: Origin, v: View, j: nat)
    requires SamePairs(o, v) && v.open == [] && NonEmpty(v.groups) && j < |v.groups|
    ensures 0 < EndSequence(v.groups[j]) <= |v.events| && AtMost(o.hidden, EndSequence(v.groups[j]))
  {
    LiveOrdered(o, v);
    LiveBounded(o, v);
    assert v.Entries() == Flatten(v.groups);
    var k := EndInside(v.groups, j);
  }

  lemma {:induction false} EndSplitsNothing(o: Origin, v: View, j: nat)
    requires SamePairs(o, v) && v.open == [] && NonEmpty(v.groups) && j + 1 < |v.groups|
    ensures Boundary(v.groups, EndSequence(v.groups[j]))
    ensures EndSequence(v.groups[j]) < EndSequence(v.groups[|v.groups| - 1])
  {
    LiveOrdered(o, v);
    assert v.Entries() == Flatten(v.groups);
    assert Flatten(v.groups) + [] == Flatten(v.groups);
    EndIsBoundary(v.groups, [], EndSequence(v.groups[j]));
    EndsIncrease(v.groups, j, |v.groups| - 1);
    var f, l := SequenceBounds(v.groups[|v.groups| - 1]);
  }

  /** The end of a group behind which another one follows is a place to cut. */
  lemma {:induction false} CutAtGroup(o: Origin, v: View, j: nat)
    requires Consistent(o, v) && v.open == [] && j + 1 < |v.groups|
    ensures var c := EndSequence(v.groups[j]);
            && Cut(o, v, c) && 0 < c < EndSequence(v.groups[|v.groups| - 1])
            && AtMost(o.hidden, c)
  {
    EndBounds(o, v, j);
    EndSplitsNothing(o, v, j);
    DroppedAside(o, v, j);
    assert (o.hiddenGroups + v.groups)[|o.hiddenGroups| + j] == v.groups[j];
  }

  lemma {:induction false} DroppedAside(o: Origin, v: View, j: nat)
    requires SamePairs(o, v) && v.open == [] && AllComplete(v.groups) && j < |v.groups|
    ensures if j < o.loaded then Over(o.dropped, EndSequence(v.groups[j]))
            else AtMost(o.dropped, EndSequence(v.groups[j]))
  {
    LiveOrdered(o, v);
    if j < o.loaded {
      var k := EndInside(v.groups[..o.loaded], j);
    } else {
      var k := EndInside(v.groups[o.loaded..], j - o.loaded);
      assert Added(o, v) == Flatten(v.groups[o.loaded..]);
    }
  }

  /** A cut concerns only the groups. */
  lemma {:induction false} CutsCarried(o: Origin, v: View, w: View)
    requires CutsFit(o, v) && w.groups == v.groups && w.open == v.open && |w.events| >= |v.events|
    requires w.covered == v.covered || Cut(o, v, w.covered)
    requires w.degraded == v.degraded || Cut(o, v, w.degraded)
    requires v.groups != [] ==> w.Cutoff() < EndSequence(v.groups[|v.groups| - 1])
    ensures CutsFit(o, w)
  {
    assert Cut(o, w, w.covered);
    assert Cut(o, w, w.degraded);
  }

  lemma {:induction false} NothingCut(o: Origin, v: View)
    requires SamePairs(o, v) && AllComplete(v.groups) && v.open == [] && (o.dropped == [] || Over(o.dropped, 0))
    ensures Cut(o, v, 0)
  {
    LiveBounded(o, v);
    assert v.Entries() == Flatten(v.groups);
    OverParts(v.groups, [], 0);
  }

  lemma {:induction false} DroppedPositive(o: Origin, v: View)
    requires SamePairs(o, v)
    ensures Over(o.dropped, 0)
  {
    PairsOrdered(v.events);
    var front := o.hidden + Kept(o.registered, Flatten(v.groups[..o.loaded]));
    var all := Replayed(v.events).pairs;
    assert forall i :: 0 <= i < |o.dropped| ==> all[|front| + i] == o.dropped[i];
  }

  /** A stored success covers up to a group behind which another one follows. */
  lemma {:induction false} CompactedStep(o: Origin, v: View, e: Event, j: nat)
    requires Consistent(o, v) && v.open == [] && j + 1 < |v.groups|
    requires e.Compaction? && e.succeeded && e.covered == EndSequence(v.groups[j])
    ensures Consistent(o, v.(events := v.events + [e], summary := e.summary, covered := e.covered,
                             degraded := 0, notice := None))
  {
    var w := v.(events := v.events + [e], summary := e.summary, covered := e.covered, degraded := 0, notice := None);
    Appended(v.events, e);
    CutAtGroup(o, v, j);
    DroppedPositive(o, v);
    NothingCut(o, v);
    CutsCarried(o, v, w);
    assert Added(o, w) == Added(o, v);
  }

  /** A stored failure leaves out the groups up to such a group, and says so. */
  lemma {:induction false} DegradedStep(o: Origin, v: View, e: Event, j: nat)
    requires Consistent(o, v) && v.open == [] && j + 1 < |v.groups|
    requires e.Compaction? && !e.succeeded && e.degraded == Some(Max(v.degraded, EndSequence(v.groups[j])))
    ensures Consistent(o, v.(events := v.events + [e], degraded := e.degraded.value, notice := Some(DEGRADED_NOTICE)))
  {
    var w := v.(events := v.events + [e], degraded := e.degraded.value, notice := Some(DEGRADED_NOTICE));
    Appended(v.events, e);
    CutAtGroup(o, v, j);
    CutsCarried(o, v, w);
    assert Added(o, w) == Added(o, v);
  }

  lemma {:induction false} KeptAllComplete(registered: set<string>, gs: seq<Group>)
    requires AllComplete(gs)
    ensures AllComplete(KeptGroups(registered, gs))
  {
    forall k | 0 <= k < |gs| ensures Complete(KeptGroups(registered, gs)[k]) {
      KeptComplete(registered, gs[k]);
    }
  }

  /** At rest the log's messages are the hidden ones, the loop's own, and between them what the
      resume dropped. */
  lemma {:induction false} PairsAtRest(o: Origin, v: View)
    requires SamePairs(o, v) && v.open == []
    ensures Replayed(v.events).pairs ==
            o.hidden + (Flatten(KeptGroups(o.registered, v.groups[..o.loaded]))
                        + (o.dropped + Flatten(KeptGroups(o.registered, v.groups[o.loaded..]))))
  {
    KeptFlatten(o.registered, v.groups[..o.loaded]);
    KeptFlatten(o.registered, v.groups[o.loaded..]);
    assert Added(o, v) == Flatten(v.groups[o.loaded..]);
    var b, k := Kept(o.registered, Flatten(v.groups[..o.loaded])), Kept(o.registered, Added(o, v));
    assert o.hidden + b + o.dropped + k == o.hidden + (b + (o.dropped + k));
  }

  lemma {:induction false} KeptSplit(registered: set<string>, gs: seq<Group>, n: nat)
    requires n <= |gs|
    ensures Flatten(KeptGroups(registered, gs[..n])) + Flatten(KeptGroups(registered, gs[n..])) ==
            Flatten(KeptGroups(registered, gs))
  {
    FlattenConcat(KeptGroups(registered, gs[..n]), KeptGroups(registered, gs[n..]));
    assert KeptGroups(registered, gs[..n]) + KeptGroups(registered, gs[n..]) == KeptGroups(registered, gs);
  }

  lemma {:induction false} CleanParts(o: Origin, v: View)
    requires Consistent(o, v) && o.clean
    ensures o.hidden == Flatten(o.hiddenGroups) && AllComplete(o.hiddenGroups) && o.dropped == []
    ensures SamePairs(o, v) && AllComplete(v.groups) && o.loaded <= |v.groups|
  {
  }

  /** The groups of a clean log at rest. */
  lemma {:induction false} CleanGroups(o: Origin, v: View)
    requires Consistent(o, v) && v.open == [] && o.clean
    ensures Grouped(Replayed(v.events).pairs) == Ok(o.hiddenGroups + KeptGroups(o.registered, v.groups))
  {
    CleanParts(o, v);
    hide Consistent, Complete, SamePairs, Grouped;
    PairsAtRest(o, v);
    KeptSplit(o.registered, v.groups, o.loaded);
    var later := Flatten(KeptGroups(o.registered, v.groups[o.loaded..]));
    assert [] + later == later;
    KeptAllComplete(o.registered, v.groups);
    FlattenConcat(o.hiddenGroups, KeptGroups(o.registered, v.groups));
    GroupedExactly(Replayed(v.events).pairs, o.hiddenGroups + KeptGroups(o.registered, v.groups));
  }

  lemma {:induction false} KeptEnd(registered: set<string>, g: Group)
    requires g != []
    ensures EndSequence(Kept(registered, g)) == EndSequence(g)
  {
    if |g| > 1 {
      assert Kept(registered, g)[1..] == Kept(registered, g[1..]);
      KeptEnd(registered, g[1..]);
    }
  }

  /** A cut of a clean log ends one of its interactions, so the compaction record is legal. */
  lemma {:induction false} CutEndsGroup(o: Origin, v: View, c: nat)
    requires Consistent(o, v) && v.open == [] && o.clean && Cut(o, v, c) && c != 0
    ensures EndsGroup(v.events, c)
  {
    CleanGroups(o, v);
    var live, logged := o.hiddenGroups + v.groups, o.hiddenGroups + KeptGroups(o.registered, v.groups);
    var k :| 0 <= k < |live| && live[k] != [] && EndSequence(live[k]) == c;
    if k >= |o.hiddenGroups| {
      KeptEnd(o.registered, live[k]);
      assert logged[k] == Kept(o.registered, live[k]);
    } else {
      assert logged[k] == live[k];
    }
  }

  // ---------------------------------------------------------------- closing a call

  lemma {:induction false} InOrderNeutral(log: seq<Event>, more: seq<Event>, from: nat)
    requires from <= |log| && InOrder(log, from) && AllNeutral(more)
    ensures InOrder(log + more, from)
    decreases |more|
  {
    if more == [] {
      assert log + more == log;
    } else {
      var init := more[..|more| - 1];
      InOrderNeutral(log, init, from);
      InOrderAppended(log + init, more[|more| - 1], from);
      assert log + more == log + init + [more[|more| - 1]];
    }
  }

  /** The view once the open call k is answered by the last record of events. */
  function Closed(v: View, events: seq<Event>, k: nat, data: ToolData,
                    lost: seq<OpenCall>, waiting: seq<OpenCall>): View
    requires k < |Open(v.events)|
  {
    var full := v.open + [Entry(Tool(Open(v.events)[k].contextId, data), |events|)];
    if lost + waiting == [] then
      v.(events := events, groups := v.groups + [full], open := [], lost := [], waiting := [])
    else
      v.(events := events, open := full, lost := lost, waiting := waiting)
  }

  /** The records of a closed call, and its result in the context. */
  lemma {:induction false} CallStep(o: Origin, v: View, seg: seq<Event>, c: Id, provider: Option<Id>, data: ToolData,
                                    k: nat, lost: seq<OpenCall>, waiting: seq<OpenCall>, from: nat)
    requires Consistent(o, v) && v.open != [] && from <= |v.events|
    requires k < |Open(v.events)| && Open(v.events)[k].correlation == c
    requires CallTrace(seg, c, provider, data)
    requires lost + waiting == Open(v.events)[..k] + Open(v.events)[k + 1..]
    ensures Consistent(o, Closed(v, v.events + seg, k, data, lost, waiting))
    ensures k == 0 && InOrder(v.events, from) ==> InOrder(v.events + seg, from)
  {
    hide Consistent, InOrder, Complete, OpenShape;
    var init, e := seg[..|seg| - 1], seg[|seg| - 1];
    assert forall i :: 1 <= i < |init| ==> init[i] == seg[1..|seg| - 1][i - 1];
    assert v.events + seg == v.events + init + [e];
    var u := v.(events := v.events + init);
    NeutralStep(o, v, init);
    NeutralKeeps(v.events, init);
    if k == 0 && InOrder(v.events, from) {
      InOrderNeutral(v.events, init, from);
      InOrderAppended(v.events + init, e, from);
    }
    var w := Closed(v, v.events + seg, k, data, lost, waiting);
    var entry := Entry(Tool(Open(v.events)[k].contextId, data), |v.events + seg|);
    if lost + waiting == [] {
      LastAnswerStep(o, u, w, e, entry);
    } else {
      AnswerStep(o, u, w, e, k, entry);
    }
  }

  /** A call whose result could not be stored stays open. */
  lemma {:induction false} LostStep(o: Origin, v: View)
    requires Consistent(o, v) && v.waiting != []
    ensures Consistent(o, v.(lost := v.lost + [v.waiting[0]], waiting := v.waiting[1..]))
  {
    var w := v.(lost := v.lost + [v.waiting[0]], waiting := v.waiting[1..]);
    assert w.lost + w.waiting == v.lost + v.waiting;
    assert Added(o, w) == Added(o, v);
  }
}
