/** What a consistent loop promises about the next resume, and what its cuts mean for the model. */
module Agreement {
  import opened Wrappers
  import opened Transcript
  import opened Grouping
  import opened Replay
  import opened Live
  import opened Context
  import Executor

  // ---------------------------------------------------------------- live and replayed context

  lemma {:induction false} GroupsAboveConcat(gs: seq<Group>, hs: seq<Group>, c: nat)
    requires NonEmpty(gs) && NonEmpty(hs)
    ensures GroupsAbove(gs + hs, c) == GroupsAbove(gs, c) + GroupsAbove(hs, c)
  {
    if gs == [] {
      assert gs + hs == hs;
    } else {
      assert (gs + hs)[0] == gs[0] && (gs + hs)[1..] == gs[1..] + hs;
      GroupsAboveConcat(gs[1..], hs, c);
    }
  }

  lemma {:induction false} KeptGroupsConcat(registered: set<string>, gs: seq<Group>, hs: seq<Group>)
    ensures KeptGroups(registered, gs + hs) == KeptGroups(registered, gs) + KeptGroups(registered, hs)
  {
  }

  lemma {:induction false} KeptNonEmpty(registered: set<string>, gs: seq<Group>)
    requires NonEmpty(gs)
    ensures NonEmpty(KeptGroups(registered, gs))
  {
  }

  lemma {:induction false} GroupsAboveKept(registered: set<string>, gs: seq<Group>, c: nat)
    requires NonEmpty(gs)
    ensures NonEmpty(KeptGroups(registered, gs))
    ensures GroupsAbove(KeptGroups(registered, gs), c) == KeptGroups(registered, GroupsAbove(gs, c))
  {
    KeptNonEmpty(registered, gs);
    if gs != [] {
      hide EndSequence, Kept;
      KeptEnd(registered, gs[0]);
      GroupsAboveKept(registered, gs[1..], c);
      assert KeptGroups(registered, gs)[1..] == KeptGroups(registered, gs[1..]);
      KeptGroupsConcat(registered, if EndSequence(gs[0]) > c then [gs[0]] else [], GroupsAbove(gs[1..], c));
      assert KeptGroups(registered, [gs[0]]) == [Kept(registered, gs[0])] && KeptGroups(registered, []) == [];
    }
  }

  lemma {:induction false} BoundaryPart(gs: seq<Group>, hs: seq<Group>, c: nat)
    requires Boundary(gs + hs, c)
    ensures Boundary(gs, c) && Boundary(hs, c)
  {
    assert forall k :: 0 <= k < |gs| ==> (gs + hs)[k] == gs[k];
    assert forall k :: 0 <= k < |hs| ==> (gs + hs)[|gs| + k] == hs[k];
  }

  lemma {:induction false} BoundaryKept(registered: set<string>, gs: seq<Group>, c: nat)
    requires Boundary(gs, c)
    ensures Boundary(KeptGroups(registered, gs), c)
  {
    forall k | 0 <= k < |gs|
      ensures AtMost(KeptGroups(registered, gs)[k], c) || Over(KeptGroups(registered, gs)[k], c)
    {
      assert AtMost(gs[k], c) || Over(gs[k], c);
    }
  }

  /** Cutting the log's groups is cutting the live groups. */
  lemma {:induction false} KeptCut(registered: set<string>, gs: seq<Group>, c: nat)
    requires AllComplete(gs) && Boundary(gs, c)
    ensures Above(Flatten(KeptGroups(registered, gs)), c) == Flatten(KeptGroups(registered, GroupsAbove(gs, c)))
  {
    GroupsAboveKept(registered, gs, c);
    BoundaryKept(registered, gs, c);
    AboveFlatten(KeptGroups(registered, gs), c);
  }

  lemma {:induction false} AboveFour(a: seq<Entry>, b: seq<Entry>, d: seq<Entry>, k: seq<Entry>, c: nat)
    requires AtMost(a, c)
    ensures Above(a + (b + (d + k)), c) == Above(b, c) + (Above(d, c) + Above(k, c))
  {
    AboveConcat(a, b + (d + k), c);
    AboveNone(a, c);
    AboveConcat(b, d + k, c);
    AboveConcat(d, k, c);
  }

  lemma {:induction false} UncutAtCutoff(o: Origin, v: View)
    requires Consistent(o, v)
    ensures SamePairs(o, v) && AllComplete(v.groups) && o.loaded <= |v.groups|
    ensures Boundary(v.groups, v.Cutoff()) && AtMost(o.hidden, v.Cutoff())
  {
  }

  /** What is left of the log past the cutoff of a loop at rest. */
  lemma {:induction false} AboveAtRest(o: Origin, v: View)
    requires Consistent(o, v) && v.open == []
    ensures Above(Replayed(v.events).pairs, v.Cutoff()) ==
            Flatten(KeptGroups(o.registered, GroupsAbove(v.groups[..o.loaded], v.Cutoff())))
            + (Above(o.dropped, v.Cutoff())
               + Flatten(KeptGroups(o.registered, GroupsAbove(v.groups[o.loaded..], v.Cutoff()))))
  {
    var c, b, k := v.Cutoff(), v.groups[..o.loaded], v.groups[o.loaded..];
    UncutAtCutoff(o, v);
    hide Consistent, SamePairs, Complete, Boundary, Above, Flatten, KeptGroups, GroupsAbove, Replayed;
    PairsAtRest(o, v);
    assert v.groups == b + k;
    BoundaryPart(b, k, c);
    KeptCut(o.registered, b, c);
    KeptCut(o.registered, k, c);
    AboveFour(o.hidden, Flatten(KeptGroups(o.registered, b)), o.dropped, Flatten(KeptGroups(o.registered, k)), c);
  }

  /** The context a resume should restore from this loop. */
  function Agreed(o: Origin, v: View): Restored
    requires NonEmpty(v.groups)
  {
    Restored(v.summary, v.covered, v.degraded, v.notice,
             Kept(o.registered, Flatten(GroupsAbove(v.groups, v.Cutoff()))))
  }

  /** An interaction that an earlier resume dropped no longer matters once it is cut off, and does
      not matter before something follows it. */
  predicate Resumable(o: Origin, v: View) {
    o.dropped == [] || AtMost(o.dropped, v.Cutoff()) || |v.groups| <= o.loaded
  }

  lemma {:induction false} CompleteCut(registered: set<string>, gs: seq<Group>, c: nat)
    requires AllComplete(gs)
    ensures AllComplete(KeptGroups(registered, GroupsAbove(gs, c)))
  {
    GroupsAboveComplete(gs, c);
    KeptAllComplete(registered, GroupsAbove(gs, c));
  }

  /** The effective groups are those of the loaded part and those of the added part. */
  lemma {:induction false} EffectiveParts(registered: set<string>, b: seq<Group>, k: seq<Group>, c: nat)
    requires NonEmpty(b) && NonEmpty(k)
    ensures NonEmpty(b + k)
    ensures Kept(registered, Flatten(GroupsAbove(b + k, c))) ==
            Flatten(KeptGroups(registered, GroupsAbove(b, c)) + KeptGroups(registered, GroupsAbove(k, c)))
  {
    var gb, gk := GroupsAbove(b, c), GroupsAbove(k, c);
    GroupsAboveConcat(b, k, c);
    KeptFlatten(registered, gb + gk);
    KeptGroupsConcat(registered, gb, gk);
  }

  lemma {:induction false} AgreedGroups(o: Origin, v: View)
    requires Consistent(o, v) && v.open == []
    ensures var kb := KeptGroups(o.registered, GroupsAbove(v.groups[..o.loaded], v.Cutoff()));
            var kk := KeptGroups(o.registered, GroupsAbove(v.groups[o.loaded..], v.Cutoff()));
            && AllComplete(kb) && AllComplete(kk) && Agreed(o, v).messages == Flatten(kb + kk)
  {
    LastPastCutoff(o, v);
    hide Consistent, Complete, KeptGroups, GroupsAbove;
    CompleteCut(o.registered, v.groups[..o.loaded], v.Cutoff());
    CompleteCut(o.registered, v.groups[o.loaded..], v.Cutoff());
    assert v.groups == v.groups[..o.loaded] + v.groups[o.loaded..];
    EffectiveParts(o.registered, v.groups[..o.loaded], v.groups[o.loaded..], v.Cutoff());
  }

  /** An unfinished declaration between complete groups is harmless only at the end. */
  lemma {:induction false} GroupedAround(before: seq<Group>, unfinished: seq<Entry>, after: seq<Group>)
    requires AllComplete(before) && AllComplete(after) && (unfinished == [] || Partial(unfinished))
    ensures CompletedGroups(Flatten(before) + (unfinished + Flatten(after))) ==
            if unfinished == [] || after == [] then Ok(before + after) else Err(MissingResults)
  {
    if unfinished == [] {
      assert [] + Flatten(after) == Flatten(after);
      FlattenConcat(before, after);
      assert Flatten(before + after) + [] == Flatten(before + after);
      PartialDropped(before + after, []);
    } else if after == [] {
      assert before + after == before && unfinished + Flatten(after) == unfinished;
      PartialDropped(before, unfinished);
    } else {
      assert Complete(after[0]) && Flatten(after)[0] == after[0][0];
      PartialInside(before, unfinished, Flatten(after));
    }
  }

  /** Live/replay agreement. Whenever no declared call is pending, replaying the log restores the
      live summary, cutoffs, notice and effective messages - with the names the log keeps - unless an
      interaction abandoned by an earlier resume still stands before newer ones; then the log is
      refused. */
  lemma {:induction false} LiveReplayAgreement(o: Origin, v: View)
    requires Consistent(o, v) && v.open == []
    ensures Recovered(v.events) == if Resumable(o, v) then Ok(Agreed(o, v)) else Err(MissingResults)
  {
    var kb := KeptGroups(o.registered, GroupsAbove(v.groups[..o.loaded], v.Cutoff()));
    var kk := KeptGroups(o.registered, GroupsAbove(v.groups[o.loaded..], v.Cutoff()));
    AboveAtRest(o, v);
    AgreedGroups(o, v);
    DroppedLeft(o, v);
    AddedLeft(o, v);
    GroupedAround(kb, Above(o.dropped, v.Cutoff()), kk);
  }

  /** Records that compact nothing only add messages behind those of the log. */
  lemma {:induction false} ReplayedFurther(log: seq<Event>, more: seq<Event>)
    requires forall i :: 0 <= i < |more| ==> !more[i].Compaction?
    ensures Replayed(log).pairs <= Replayed(log + more).pairs
    ensures Cutoff(Replayed(log + more)) == Cutoff(Replayed(log))
    ensures Over(Replayed(log + more).pairs[|Replayed(log).pairs|..], |log|)
    decreases |more|
  {
    hide Replayed, Step;
    if more == [] {
      assert log + more == log;
    } else {
      var init := more[..|more| - 1];
      ReplayedFurther(log, init);
      Appended(log + init, more[|more| - 1]);
      assert log + more == log + init + [more[|more| - 1]];
      StepFurther(Replayed(log + init), more[|more| - 1], |log + init| + 1);
      OverJoined(Replayed(log + init).pairs, Replayed(log + more).pairs, |Replayed(log).pairs|, |log|);
    }
  }

  lemma {:induction false} StepFurther(p: Projection, e: Event, sequence: nat)
    requires !e.Compaction? && sequence > 0
    ensures p.pairs <= Step(p, e, sequence).pairs && Cutoff(Step(p, e, sequence)) == Cutoff(p)
    ensures Over(Step(p, e, sequence).pairs[|p.pairs|..], sequence - 1)
  {
  }

  lemma {:induction false} OverJoined(es: seq<Entry>, fs: seq<Entry>, n: nat, c: nat)
    requires n <= |es| && es <= fs && Over(es[n..], c) && Over(fs[|es|..], c)
    ensures Over(fs[n..], c)
  {
    forall i | n <= i < |fs| ensures fs[i].sequence > c {
      if i < |es| {
        assert es[n..][i - n] == fs[i];
      } else {
        assert fs[|es|..][i - |es|] == fs[i];
      }
    }
  }

  /** The next message of a resumed session, and whatever follows it without a compaction. */
  lemma {:induction false} ContinuedPairs(log: seq<Event>, seg: seq<Event>, text: string, more: seq<Event>)
    requires Executor.AllNeutral(seg) && forall i :: 0 <= i < |more| ==> !more[i].Compaction?
    ensures var p, q := Replayed(log), Replayed(log + seg + [UserMessage(text)] + more);
            && p.pairs < q.pairs && q.pairs[|p.pairs|].msg == User(text)
            && Cutoff(q) == Cutoff(p) && Over(q.pairs[|p.pairs|..], |log|)
  {
    var next := log + seg + [UserMessage(text)];
    Executor.NeutralKeeps(log, seg);
    Appended(log + seg, UserMessage(text));
    ReplayedFurther(next, more);
    var n, q := |Replayed(log).pairs|, Replayed(next + more);
    forall i | n <= i < |q.pairs| ensures q.pairs[i].sequence > |log| {
      if i > n {
        assert q.pairs[n + 1..][i - n - 1] == q.pairs[i];
      }
    }
  }

  /** The exception has an input. A crash that leaves declared calls open leaves a log that resumes, because
      the unfinished interaction comes last. Once the resumed session has said anything, the next resume
      refuses the log, whatever follows, until a compaction is stored. */
  lemma {:induction false} CrashThenContinue(log: seq<Event>, seg: seq<Event>, text: string, more: seq<Event>)
    requires Disciplined(log) && Open(log) != []
    requires Executor.AllNeutral(seg) && forall i :: 0 <= i < |more| ==> !more[i].Compaction?
    ensures Recovered(log).Ok?
    ensures Recovered(log + seg + [UserMessage(text)] + more) == Err(MissingResults)
  {
    hide Disciplined, Shape, Replayed, Recovered, Above, Flatten, CompletedGroups, GroupsAbove, Boundary, Open,
      Complete;
    var gs, tail := ShapeOf(log);
    RecoveredShape(log, gs, tail);
    CutoffIsBoundary(log, gs, tail);
    ContinuedPairs(log, seg, text, more);
    var c := Cutoff(Replayed(log));
    var pairs := Replayed(log + seg + [UserMessage(text)] + more).pairs;
    TailPastCutoff(log, gs, tail, c);
    var rest := pairs[|Replayed(log).pairs|..];
    assert pairs == Flatten(gs) + tail + rest;
    RefusedBehind(gs, tail, rest, c);
    RefusedAbove(log + seg + [UserMessage(text)] + more);
  }

  /** An unfinished interaction past the cutoff with a message of the user behind it. */
  lemma {:induction false} RefusedBehind(gs: seq<Group>, tail: seq<Entry>, rest: seq<Entry>, c: nat)
    requires AllComplete(gs) && Boundary(gs, c) && Partial(tail) && Over(tail, c) && Over(rest, c)
    requires rest != [] && rest[0].msg.User?
    ensures CompletedGroups(Above(Flatten(gs) + tail + rest, c)) == Err(MissingResults)
  {
    hide Above, Flatten, CompletedGroups, GroupsAbove, Boundary, Partial;
    AboveBehind(gs, tail, rest, c);
    GroupsAboveComplete(gs, c);
    PartialInside(GroupsAbove(gs, c), tail, rest);
  }

  lemma {:induction false} RefusedAbove(log: seq<Event>)
    requires CompletedGroups(Above(Replayed(log).pairs, Cutoff(Replayed(log)))) == Err(MissingResults)
    ensures Recovered(log) == Err(MissingResults)
  {
  }

  lemma {:induction false} TailPastCutoff(log: seq<Event>, gs: seq<Group>, tail: seq<Entry>, c: nat)
    requires Shape(log, gs, tail) && Open(log) != [] && Over(tail, c)
    ensures c < |log| && Partial(tail) && AllComplete(gs) && Replayed(log).pairs == Flatten(gs) + tail
  {
    assert tail[0] == Replayed(log).pairs[|Flatten(gs)|];
  }

  lemma {:induction false} AboveBehind(gs: seq<Group>, tail: seq<Entry>, rest: seq<Entry>, c: nat)
    requires NonEmpty(gs) && Boundary(gs, c) && Over(tail, c) && Over(rest, c)
    ensures Above(Flatten(gs) + tail + rest, c) == Flatten(GroupsAbove(gs, c)) + (tail + rest)
  {
    assert Flatten(gs) + tail + rest == Flatten(gs) + (tail + rest);
    AboveConcat(Flatten(gs), tail + rest, c);
    AboveFlatten(gs, c);
    AboveAll(tail + rest, c);
  }

  lemma {:induction false} DroppedLeft(o: Origin, v: View)
    requires Consistent(o, v)
    ensures Above(o.dropped, v.Cutoff()) == if AtMost(o.dropped, v.Cutoff()) then [] else o.dropped
    ensures o.dropped == [] ==> AtMost(o.dropped, v.Cutoff())
  {
    if AtMost(o.dropped, v.Cutoff()) {
      AboveNone(o.dropped, v.Cutoff());
    } else {
      AboveAll(o.dropped, v.Cutoff());
    }
  }

  lemma {:induction false} LastPastCutoff(o: Origin, v: View)
    requires Consistent(o, v)
    ensures NonEmpty(v.groups) && AllComplete(v.groups) && o.loaded <= |v.groups|
    ensures v.groups != [] ==> EndSequence(v.groups[|v.groups| - 1]) > v.Cutoff()
  {
  }

  /** Something the loop has added is always sent. */
  lemma {:induction false} AddedLeft(o: Origin, v: View)
    requires Consistent(o, v)
    ensures GroupsAbove(v.groups[o.loaded..], v.Cutoff()) == [] <==> |v.groups| == o.loaded
  {
    hide Consistent;
    LastPastCutoff(o, v);
    var added := v.groups[o.loaded..];
    if added != [] {
      assert added[|added| - 1] == v.groups[|v.groups| - 1];
      LastAbove(added, v.Cutoff());
    }
  }

  /** The most recent group is always past the cutoff. */
  lemma {:induction false} LastAbove(gs: seq<Group>, c: nat)
    requires NonEmpty(gs) && gs != [] && EndSequence(gs[|gs| - 1]) > c
    ensures GroupsAbove(gs, c) != []
    ensures var sent := GroupsAbove(gs, c); sent[|sent| - 1] == gs[|gs| - 1]
  {
    var init := gs[..|gs| - 1];
    assert gs == init + [gs[|gs| - 1]];
    GroupsAboveSnoc(init, gs[|gs| - 1], c);
  }

  // ---------------------------------------------------------------- the same request

  /** Every declared name is a registered tool. */
  predicate AllRegistered(registered: set<string>, es: seq<Entry>) {
    forall i, j :: 0 <= i < |es| && es[i].msg.Assistant? && 0 <= j < |es[i].msg.calls| ==>
      es[i].msg.calls[j].name in registered
  }

  lemma {:induction false} RegisteredKept(registered: set<string>, es: seq<Entry>)
    requires AllRegistered(registered, es)
    ensures Kept(registered, es) == es
  {
    forall i | 0 <= i < |es| ensures Kept(registered, es)[i] == es[i] {
      if es[i].msg.Assistant? {
        var kept := KeptMsg(registered, es[i].msg);
        assert forall j :: 0 <= j < |es[i].msg.calls| ==> kept.calls[j] == es[i].msg.calls[j];
        assert kept.calls == es[i].msg.calls;
      }
    }
  }

  lemma {:induction false} AboveTwice(gs: seq<Group>, c: nat)
    requires NonEmpty(gs)
    ensures NonEmpty(GroupsAbove(gs, c)) && GroupsAbove(GroupsAbove(gs, c), c) == GroupsAbove(gs, c)
  {
    if gs != [] {
      AboveTwice(gs[1..], c);
      if EndSequence(gs[0]) > c {
        assert GroupsAbove(gs, c)[1..] == GroupsAbove(gs[1..], c);
      } else {
        assert GroupsAbove(gs, c) == GroupsAbove(gs[1..], c);
      }
    }
  }

  /** The context rebuilt from the log groups into the live effective groups, with the names the log
      keeps, and nothing of it is cut again. */
  lemma {:induction false} RestoredGroups(o: Origin, v: View)
    requires Consistent(o, v) && v.open == []
    ensures var effective := KeptGroups(o.registered, GroupsAbove(v.groups, v.Cutoff()));
            && Grouped(Agreed(o, v).messages) == Ok(effective)
            && GroupsAbove(effective, v.Cutoff()) == effective
  {
    var sent := GroupsAbove(v.groups, v.Cutoff());
    GroupsAboveComplete(v.groups, v.Cutoff());
    KeptAllComplete(o.registered, sent);
    KeptFlatten(o.registered, sent);
    GroupedExactly(Agreed(o, v).messages, KeptGroups(o.registered, sent));
    AboveTwice(v.groups, v.Cutoff());
    GroupsAboveKept(o.registered, sent, v.Cutoff());
  }

  /** When every declared tool is registered, the resumed builder sends the very request the live
      builder sends. */
  lemma {:induction false} SameRequest(o: Origin, v: View, prompt: string)
    requires Consistent(o, v) && v.open == [] && Resumable(o, v)
    requires AllRegistered(o.registered, Flatten(GroupsAbove(v.groups, v.Cutoff())))
    ensures var r := Recovered(v.events);
            && r.Ok? && Grouped(r.value.messages).Ok?
            && var cutoff := Max(r.value.covered, r.value.degraded);
               var groups := GroupsAbove(Grouped(r.value.messages).value, cutoff);
               && RequestMessages(prompt, r.value.summary, r.value.covered, r.value.notice, groups) ==
                  RequestMessages(prompt, v.summary, v.covered, v.notice, GroupsAbove(v.groups, v.Cutoff()))
  {
    LiveReplayAgreement(o, v);
    RestoredGroups(o, v);
    var sent := GroupsAbove(v.groups, v.Cutoff());
    KeptFlatten(o.registered, sent);
    RegisteredKept(o.registered, Flatten(sent));
  }

  // ---------------------------------------------------------------- coverage

  datatype Fate = Summarised | Omitted | Sent

  function FateOf(v: View, g: Group): Fate
    requires g != []
  {
    if EndSequence(g) <= v.covered then Summarised
    else if EndSequence(g) <= v.degraded then Omitted
    else Sent
  }

  lemma {:induction false} SentExactly(gs: seq<Group>, c: nat, g: Group)
    requires NonEmpty(gs)
    ensures g in GroupsAbove(gs, c) <==> g in gs && EndSequence(g) > c
  {
    if gs != [] {
      SentExactly(gs[1..], c, g);
    }
  }

  /** Every group is summarised as a whole, or omitted as a whole while the request carries the
      notice, or sent as a whole; the most recent one is always sent. */
  lemma {:induction false} Coverage(o: Origin, v: View, g: Group)
    requires Consistent(o, v) && g in v.groups
    ensures match FateOf(v, g)
            case Summarised => AtMost(g, v.covered) && g !in GroupsAbove(v.groups, v.Cutoff())
            case Omitted => Over(g, v.covered) && AtMost(g, v.degraded) && v.notice.Some?
                            && g !in GroupsAbove(v.groups, v.Cutoff())
            case Sent => Over(g, v.Cutoff()) && g in GroupsAbove(v.groups, v.Cutoff())
    ensures v.groups != [] ==> FateOf(v, v.groups[|v.groups| - 1]) == Sent
  {
    UncutGroup(o, v, g);
    LastPastCutoff(o, v);
    hide Consistent, Complete;
    SentExactly(v.groups, v.Cutoff(), g);
    var first, last := SequenceBounds(g);
  }

  lemma {:induction false} UncutGroup(o: Origin, v: View, g: Group)
    requires Consistent(o, v) && g in v.groups
    ensures g != []
    ensures (AtMost(g, v.covered) || Over(g, v.covered)) && (AtMost(g, v.degraded) || Over(g, v.degraded))
    ensures v.degraded != 0 ==> v.notice.Some?
  {
    var k :| 0 <= k < |v.groups| && v.groups[k] == g;
    assert AtMost(v.groups[k], v.covered) || Over(v.groups[k], v.covered);
    assert AtMost(v.groups[k], v.degraded) || Over(v.groups[k], v.degraded);
  }

  // ---------------------------------------------------------------- what a compaction selects

  /** The groups past a cutoff are a run at the end of the context. */
  lemma {:induction false} AboveIsSuffix(gs: seq<Group>, c: nat) returns (from: nat)
    requires NonEmpty(gs) && Increasing(Flatten(gs))
    ensures from <= |gs| && GroupsAbove(gs, c) == gs[from..]
    ensures forall k :: 0 <= k < from ==> EndSequence(gs[k]) <= c
  {
    if gs == [] {
      from := 0;
    } else {
      IncreasingParts(gs[0], Flatten(gs[1..]));
      var rest := AboveIsSuffix(gs[1..], c);
      if EndSequence(gs[0]) <= c {
        from := rest + 1;
        assert gs[1..][rest..] == gs[from..];
        assert forall k :: 1 <= k < from ==> gs[k] == gs[1..][k - 1];
      } else {
        from := 0;
        if rest > 0 {
          EndBelow(gs, c);
          assert false;
        }
      }
    }
  }

  lemma {:induction false} EndBelow(gs: seq<Group>, c: nat)
    requires NonEmpty(gs) && Increasing(Flatten(gs)) && |gs| > 1 && EndSequence(gs[0]) > c
    ensures EndSequence(gs[1..][0]) > c
  {
    EndsIncrease(gs, 0, 1);
    var f, l := SequenceBounds(gs[1]);
  }

  lemma {:induction false} RestingOrder(o: Origin, v: View)
    requires Consistent(o, v) && v.open == []
    ensures NonEmpty(v.groups) && Increasing(Flatten(v.groups))
  {
    LiveOrdered(o, v);
    assert v.Entries() == Flatten(v.groups);
  }

  /** The last group of a compaction source is a group of the context, past what was covered, and
      another group follows it. */
  lemma {:induction false} SelectedGroup(o: Origin, v: View, n: nat) returns (j: nat)
    requires Consistent(o, v) && v.open == []
    requires 1 <= n < |GroupsAbove(v.groups, v.covered)|
    ensures j + 1 < |v.groups| && v.groups[j] == GroupsAbove(v.groups, v.covered)[n - 1]
    ensures EndSequence(v.groups[j]) > v.covered
  {
    RestingOrder(o, v);
    hide Consistent, Increasing, GroupsAbove;
    var from := AboveIsSuffix(v.groups, v.covered);
    j := from + n - 1;
    assert v.groups[j] == v.groups[from..][n - 1];
    SentExactly(v.groups, v.covered, v.groups[j]);
  }

  lemma {:induction false} SourceComplete(gs: seq<Group>, covered: nat, n: nat, g: Group)
    requires NonEmpty(gs) && Increasing(Flatten(gs)) && 1 <= n <= |GroupsAbove(gs, covered)|
    requires g in gs && covered < EndSequence(g) <= EndSequence(GroupsAbove(gs, covered)[n - 1])
    ensures g in GroupsAbove(gs, covered)[..n]
  {
    var from := AboveIsSuffix(gs, covered);
    var k :| 0 <= k < |gs| && gs[k] == g;
    if k < from + n {
      assert GroupsAbove(gs, covered)[..n][k - from] == g;
    } else {
      EndsIncrease(gs, from + n - 1, k);
      var f, l := SequenceBounds(g);
      assert false;
    }
  }

  /** A successful summary reads every live group between the old and the new coverage, but no group
      hidden by the resume: groups omitted before the restart are covered without being read. */
  lemma {:induction false} SummarySource(o: Origin, v: View, n: nat)
    requires Consistent(o, v) && v.open == []
    requires 1 <= n < |GroupsAbove(v.groups, v.covered)|
    ensures var source := GroupsAbove(v.groups, v.covered)[..n];
            var c := EndSequence(GroupsAbove(v.groups, v.covered)[n - 1]);
            && v.covered < c && AtMost(o.hidden, c)
            && (forall g :: g in v.groups && v.covered < EndSequence(g) <= c ==> g in source)
            && (forall g, i :: g in source && 0 <= i < |o.hidden| ==> o.hidden[i] !in g)
  {
    var eligible := GroupsAbove(v.groups, v.covered);
    var c := EndSequence(eligible[n - 1]);
    var j := SelectedGroup(o, v, n);
    CutAtGroup(o, v, j);
    LiveOrdered(o, v);
    assert v.Entries() == Flatten(v.groups);
    forall g | g in v.groups && v.covered < EndSequence(g) <= c ensures g in eligible[..n] {
      SourceComplete(v.groups, v.covered, n, g);
    }
    forall g, i | g in eligible[..n] && 0 <= i < |o.hidden| ensures o.hidden[i] !in g {
      SentExactly(v.groups, v.covered, g);
      HiddenElsewhere(o, v, g, i);
    }
  }

  lemma {:induction false} HiddenElsewhere(o: Origin, v: View, g: Group, i: nat)
    requires Consistent(o, v) && v.open == [] && g in v.groups && i < |o.hidden|
    ensures o.hidden[i] !in g
  {
    LiveOrdered(o, v);
    assert v.Entries() == Flatten(v.groups);
    var k :| 0 <= k < |v.groups| && v.groups[k] == g;
    forall m | 0 <= m < |g| ensures g[m] != o.hidden[i] {
      GroupInside(v.groups, k, m);
    }
  }

  /** A hidden group ends no later than any live one begins, and is none of them. */
  lemma {:induction false} HiddenGroup(o: Origin, v: View, h: Group)
    requires Consistent(o, v) && v.open == [] && o.clean && h in o.hiddenGroups
    ensures h != [] && h !in v.groups
    ensures forall c :: AtMost(o.hidden, c) ==> EndSequence(h) <= c
  {
    CleanParts(o, v);
    var k :| 0 <= k < |o.hiddenGroups| && o.hiddenGroups[k] == h;
    assert Complete(o.hiddenGroups[k]);
    var f, l := SequenceBounds(h);
    GroupInside(o.hiddenGroups, k, l);
    var i :| 0 <= i < |o.hidden| && o.hidden[i] == h[l];
    if h in v.groups {
      HiddenElsewhere(o, v, h, i);
    }
  }

  /** Every group between the old and the new coverage, whether the loop still has it or its resume cut it
      off. */
  ghost predicate SourceIsWhole(o: Origin, v: View, n: nat)
    requires NonEmpty(v.groups) && 1 <= n <= |GroupsAbove(v.groups, v.covered)|
  {
    var eligible := GroupsAbove(v.groups, v.covered);
    var c := EndSequence(eligible[n - 1]);
    forall g :: g in o.hiddenGroups + v.groups && g != [] && v.covered < EndSequence(g) <= c ==> g in eligible[..n]
  }

  /** Exactly when a summary reads all that it covers: no group that the resume cut off lies past the
      coverage. It can only lie there if it was omitted under a notice, which the summary takes away. */
  lemma {:induction false} SummaryReadsAll(o: Origin, v: View, n: nat)
    requires Consistent(o, v) && v.open == [] && o.clean
    requires 1 <= n < |GroupsAbove(v.groups, v.covered)|
    ensures SourceIsWhole(o, v, n) <==> forall h :: h in o.hiddenGroups ==> h != [] && EndSequence(h) <= v.covered
  {
    var eligible := GroupsAbove(v.groups, v.covered);
    var c := EndSequence(eligible[n - 1]);
    SummarySource(o, v, n);
    assert forall h :: h in o.hiddenGroups ==> h in o.hiddenGroups + v.groups;
    hide Consistent;
    forall h | h in o.hiddenGroups
      ensures h != [] && EndSequence(h) <= c && h !in eligible[..n]
    {
      HiddenGroup(o, v, h);
      SentExactly(v.groups, v.covered, h);
    }
  }

  /** A session at rest resumes into that state exactly when its log ends in a failed compaction that
      omitted more than what is summarised. */
  lemma {:induction false} ResumeHides(log: seq<Event>, registered: set<string>, o: Origin, groups: seq<Group>)
    requires Consistent(o, ResumedView(log, groups)) && o.clean
    requires Over(Flatten(groups), Cutoff(Replayed(log)))
    ensures (forall h :: h in o.hiddenGroups ==> h != [] && EndSequence(h) <= Replayed(log).covered) <==>
            Replayed(log).degraded <= Replayed(log).covered
  {
    var v, p := ResumedView(log, groups), Replayed(log);
    forall h | h in o.hiddenGroups ensures h != [] && EndSequence(h) <= v.Cutoff() {
      HiddenGroup(o, v, h);
    }
    if p.degraded > p.covered {
      var all := o.hiddenGroups + groups;
      var k :| 0 <= k < |all| && all[k] != [] && EndSequence(all[k]) == p.degraded;
      if k >= |o.hiddenGroups| {
        var f, l := SequenceBounds(all[k]);
        GroupInside(groups, k - |o.hiddenGroups|, l);
        assert false;
      }
      assert all[k] in o.hiddenGroups;
    }
  }

  /** A log of two turns: the second began with a compaction that failed, which omitted the first message. */
  function OmittingLog(a: string, b: string, c: string, budget: Counters): seq<Event> {
    [AgentStart, UserMessage(a), AssistantMessage(b, []), TurnEnd(CompletedTurn, budget), UserMessage(c),
     Compaction(false, false, 2, 2, 0, Some(2), None)]
  }

  /** One record of that log: what it does to the projection, and that nothing is open. */
  lemma {:induction false} RestingRecord(log: seq<Event>, e: Event, next: seq<Event>, p: Projection)
    requires next == log + [e] && Replayed(log) == p && Disciplined(log) && Open(log) == []
    requires !e.ToolResult? && (e.AssistantMessage? ==> e.calls == []) && !e.Compaction?
    ensures Replayed(next) == Step(p, e, |log| + 1)
    ensures Disciplined(next) && Open(next) == []
  {
    Appended(log, e);
    DisciplinedAppended(log, e);
    if e.AssistantMessage? {
      assert Correlations(e.calls) == [] && RefIds(ShownCalls(e.calls)) == [];
    }
  }

  /** What its records project to. */
  lemma {:induction false} OmittingStart(a: string, b: string, c: string, budget: Counters)
    ensures var log, first, second := OmittingLog(a, b, c, budget), Entry(User(a), 2), Entry(Assistant(b, []), 3);
            && Replayed(log[..3]) == NOTHING.(pairs := [first, second]) && Disciplined(log[..3]) && Open(log[..3]) == []
  {
    hide Disciplined, Replayed, Open;
    var log, first, second := OmittingLog(a, b, c, budget), Entry(User(a), 2), Entry(Assistant(b, []), 3);
    NothingReplayed();
    RestingRecord([], log[0], [log[0]], NOTHING);
    RestingRecord([log[0]], log[1], log[..2], NOTHING);
    assert ShownCalls([]) == [] && PendingIds([]) == map[] && [] + [first] == [first];
    RestingRecord(log[..2], log[2], log[..3], NOTHING.(pairs := [first]));
    assert [first] + [second] == [first, second];
  }

  lemma {:induction false} OmittingReplay(a: string, b: string, c: string, budget: Counters)
    ensures var log := OmittingLog(a, b, c, budget);
            var pairs := [Entry(User(a), 2), Entry(Assistant(b, []), 3), Entry(User(c), 5)];
            && Replayed(log) == Projection(None, 0, 2, Some(DEGRADED_NOTICE), pairs, map[])
            && Replayed(log[..5]) == Projection(None, 0, 0, None, pairs, map[])
            && Disciplined(log[..5]) && Open(log[..5]) == [] && Open(log) == []
  {
    hide Disciplined, Replayed, Open;
    var log := OmittingLog(a, b, c, budget);
    var pairs := [Entry(User(a), 2), Entry(Assistant(b, []), 3)];
    OmittingStart(a, b, c, budget);
    RestingRecord(log[..3], log[3], log[..4], NOTHING.(pairs := pairs));
    RestingRecord(log[..4], log[4], log[..5], NOTHING.(pairs := pairs));
    assert pairs + [Entry(User(c), 5)] == [Entry(User(a), 2), Entry(Assistant(b, []), 3), Entry(User(c), 5)];
    assert log == log[..5] + [log[5]];
    Appended(log[..5], log[5]);
  }

  lemma {:induction false} NothingReplayed()
    ensures Replayed([]) == NOTHING && Disciplined([]) && Open([]) == []
  {
  }

  lemma {:induction false} OmittingGroups(a: string, b: string, c: string)
    ensures var pairs := [Entry(User(a), 2), Entry(Assistant(b, []), 3), Entry(User(c), 5)];
            var gs := [[Entry(User(a), 2)], [Entry(Assistant(b, []), 3)], [Entry(User(c), 5)]];
            && AllComplete(gs) && Flatten(gs) == pairs && Grouped(pairs) == Ok(gs) && IsEnd(gs, 2)
            && Above(pairs, 2) == Flatten(gs[1..])
            && GroupsAbove(gs[1..], 0) == gs[1..]
  {
    var pairs := [Entry(User(a), 2), Entry(Assistant(b, []), 3), Entry(User(c), 5)];
    var gs := [[Entry(User(a), 2)], [Entry(Assistant(b, []), 3)], [Entry(User(c), 5)]];
    assert gs[1..] == [gs[1], gs[2]] && gs[2..] == [gs[2]] && gs[3..] == [];
    assert gs[1..][1..] == gs[2..] && gs[2..][1..] == gs[3..];
    assert Flatten(gs[3..]) == [] && Flatten(gs[2..]) == gs[2] + [] && Flatten(gs[1..]) == gs[1] + Flatten(gs[2..]);
    assert Flatten(gs) == pairs;
    assert EndSequence(gs[0]) == 2;
    GroupedExactly(pairs, gs);
    assert pairs == [pairs[0]] + [pairs[1], pairs[2]] && Above([pairs[0]], 2) == [] by {
      assert [pairs[0]][1..] == [];
    }
    AboveConcat([pairs[0]], [pairs[1], pairs[2]], 2);
    AboveAll([pairs[1], pairs[2]], 2);
    GroupsAboveAll(gs[1..]);
  }

  lemma {:induction false} GroupsAboveAll(gs: seq<Group>)
    requires NonEmpty(gs) && forall k :: 0 <= k < |gs| ==> EndSequence(gs[k]) > 0
    ensures GroupsAbove(gs, 0) == gs
  {
    if gs != [] {
      GroupsAboveAll(gs[1..]);
      assert gs == [gs[0]] + gs[1..];
    }
  }

  lemma {:induction false} OmittingRests(a: string, b: string, c: string, budget: Counters)
    ensures AtRest(OmittingLog(a, b, c, budget))
  {
    var log := OmittingLog(a, b, c, budget);
    hide Disciplined, Open, Replayed, Grouped;
    OmittingReplay(a, b, c, budget);
    OmittingGroups(a, b, c);
    assert EndsGroup(log[..5], 2);
    assert log == log[..5] + [log[5]];
    DisciplinedAppended(log[..5], log[5]);
  }

  lemma {:induction false} OmittingSane(a: string, b: string, c: string, budget: Counters, registered: set<string>)
    ensures SaneLog(registered, OmittingLog(a, b, c, budget))
  {
    assert RefIds(ShownCalls([])) == [];
  }

  lemma {:induction false} OmittingResumes(a: string, b: string, c: string, budget: Counters)
    ensures var groups := [[Entry(Assistant(b, []), 3)], [Entry(User(c), 5)]];
            && AllComplete(groups) && Over(Flatten(groups), 2)
            && Recovered(OmittingLog(a, b, c, budget)) ==
               Ok(Restored(None, 0, 2, Some(DEGRADED_NOTICE), Flatten(groups)))
  {
    var groups := [[Entry(Assistant(b, []), 3)], [Entry(User(c), 5)]];
    OmittingReplay(a, b, c, budget);
    OmittingGroups(a, b, c);
    assert ([[Entry(User(a), 2)]] + groups)[1..] == groups;
    assert Flatten(groups) + [] == Flatten(groups);
    AboveIsOver([Entry(User(a), 2), Entry(Assistant(b, []), 3), Entry(User(c), 5)], 2);
    assert forall k :: 0 <= k < |groups| ==> Complete(groups[k]);
    hide Replayed, Above, CompletedGroups, Flatten, OmittingLog, Complete, Over;
    PartialDropped(groups, []);
  }

  lemma {:induction false} AboveIsOver(es: seq<Entry>, c: nat)
    ensures Over(Above(es, c), c)
  {
    if es != [] {
      AboveIsOver(es[1..], c);
    }
  }

  lemma {:induction false} SameGroups(o: Origin, v: View, groups: seq<Group>)
    requires Consistent(o, v) && AllComplete(groups) && Flatten(v.groups) == Flatten(groups)
    ensures v.groups == groups
  {
    assert AllComplete(v.groups);
    hide Consistent;
    GroupedExactly(Flatten(groups), groups);
    GroupedExactly(Flatten(groups), v.groups);
  }

  lemma {:induction false} OneHidden(o: Origin, v: View, first: Entry)
    requires Consistent(o, v) && o.clean && v.open == [] && |Replayed(v.events).pairs| == |Flatten(v.groups)| + 1
    requires Replayed(v.events).pairs[0] == first
    ensures o.hidden == [first]
  {
    CleanParts(o, v);
    hide Consistent;
    LiveParts(o, v);
    assert |Flatten(v.groups)| == |v.Entries()|;
    assert |o.hidden| == 1 && o.hidden[0] == first;
  }

  /** The case has an input. That log is at rest; the resume loads the last two messages, and the next
      summary may read the first of them alone: the message that was omitted before the restart is then
      covered without having been read. */
  lemma {:induction false} OmittedGroupIsLost(a: string, b: string, c: string, budget: Counters,
                                              registered: set<string>)
    returns (o: Origin)
    ensures var log := OmittingLog(a, b, c, budget);
            var groups := [[Entry(Assistant(b, []), 3)], [Entry(User(c), 5)]];
            var v := ResumedView(log, groups);
            && AtRest(log) && AgentStart in log && SaneLog(registered, log)
            && Recovered(log) == Ok(Restored(None, 0, 2, Some(DEGRADED_NOTICE), Flatten(groups)))
            && Consistent(o, v) && o.clean && o.registered == registered && o.hidden == [Entry(User(a), 2)]
            && NonEmpty(groups) && GroupsAbove(groups, 0) == groups && EndSequence(groups[0]) == 3
            && !SourceIsWhole(o, v, 1)
  {
    var log := OmittingLog(a, b, c, budget);
    var groups := [[Entry(Assistant(b, []), 3)], [Entry(User(c), 5)]];
    OmittingReplay(a, b, c, budget);
    OmittingRests(a, b, c, budget);
    OmittingSane(a, b, c, budget, registered);
    OmittingResumes(a, b, c, budget);
    OmittingGroups(a, b, c);
    assert ([[Entry(User(a), 2)]] + groups)[1..] == groups;
    assert log[0] in log;
    hide Replayed, Recovered, Flatten, Disciplined, SaneLog, Above, GroupsAbove, OmittingLog, Over;
    var live;
    o, live := ResumeConsistent(log, registered);
    SameGroups(o, ResumedView(log, live), groups);
    OneHidden(o, ResumedView(log, groups), Entry(User(a), 2));
    hide Consistent;
    ResumeHides(log, registered, o, groups);
    SummaryReadsAll(o, ResumedView(log, groups), 1);
  }

  // ---------------------------------------------------------------- the recovered budget

  /** A crash inside a turn forgets the steps since the last snapshot: whatever follows a snapshot
      without a new one does not change the recovered budget. */
  lemma {:induction false} SnapshotWins(log: seq<Event>, more: seq<Event>)
    requires forall i :: 0 <= i < |more| ==> !Executor.Terminal(more[i])
    ensures Tallied(log + more).snapshot == Tallied(log).snapshot
    ensures Tallied(log).snapshot.Some? ==> RecoveredBudget(log + more) == RecoveredBudget(log)
    ensures Tallied(log).snapshot.None? ==> RecoveredBudget(log + more) == Tallied(log + more).counted
    decreases |more|
  {
    if more == [] {
      assert log + more == log;
    } else {
      var init := more[..|more| - 1];
      SnapshotWins(log, init);
      Appended(log + init, more[|more| - 1]);
      assert log + more == log + init + [more[|more| - 1]];
    }
  }

  // ---------------------------------------------------------------- resuming

  lemma {:induction false} SaneStep(registered: set<string>, log: seq<Event>)
    requires SaneLog(registered, log)
    ensures var p := Replayed(log);
            && DistinctCalls(p.pairs) && p.covered <= |log| && p.degraded <= |log|
            && (p.degraded != 0 ==> p.notice.Some?)
  {
    if log != [] {
      SaneStep(registered, log[..|log| - 1]);
    }
  }

  lemma {:induction false} IncreasingRest(es: seq<Entry>, c: nat)
    requires Increasing(es) && es != []
    ensures Increasing(es[1..]) && (es[0].sequence > c ==> Over(es, c))
  {
  }

  lemma {:induction false} CutLater<T>(s: seq<T>, n: nat)
    requires n < |s|
    ensures s[n + 1..] == s[1..][n..] && s[..n + 1] == [s[0]] + s[1..][..n]
  {
  }

  /** Cutting an increasing list keeps a suffix. */
  lemma {:induction false} AboveSuffix(es: seq<Entry>, c: nat) returns (from: nat)
    requires Increasing(es)
    ensures from <= |es| && AtMost(es[..from], c) && Over(es[from..], c) && Above(es, c) == es[from..]
  {
    hide Increasing;
    if es == [] {
      from := 0;
    } else if es[0].sequence > c {
      from := 0;
      IncreasingRest(es, c);
      AboveAll(es, c);
    } else {
      IncreasingRest(es, c);
      var rest := AboveSuffix(es[1..], c);
      from := rest + 1;
      CutLater(es, rest);
      assert Above(es, c) == [] + Above(es[1..], c);
    }
  }

  function ResumedView(log: seq<Event>, groups: seq<Group>): View {
    var p := Replayed(log);
    View(log, p.summary, p.covered, p.degraded, p.notice, groups, [], [], [])
  }

  ghost predicate AtRest(log: seq<Event>) {
    Disciplined(log) && Open(log) == []
  }

  lemma {:induction false} DistinctSuffix(es: seq<Entry>, from: nat)
    requires DistinctCalls(es) && from <= |es|
    ensures DistinctCalls(es[from..])
  {
  }

  lemma {:induction false} AllOver(gs: seq<Group>, tail: seq<Entry>, c: nat)
    requires NonEmpty(gs) && Over(Flatten(gs) + tail, c)
    ensures Boundary(gs, c) && Over(tail, c)
    ensures forall k :: 0 <= k < |gs| ==> EndSequence(gs[k]) > c
  {
    OverParts(gs, tail, c);
    forall k | 0 <= k < |gs| ensures EndSequence(gs[k]) > c {
      var f, l := SequenceBounds(gs[k]);
      GroupInside(gs, k, l);
      var i :| 0 <= i < |Flatten(gs)| && Flatten(gs)[i] == gs[k][l];
      assert (Flatten(gs) + tail)[i] == gs[k][l];
    }
  }

  /** Cutting and grouping an increasing list: what is hidden, kept and dropped. */
  lemma {:induction false} CutAndGroup(es: seq<Entry>, c: nat)
    returns (hidden: seq<Entry>, groups: seq<Group>, dropped: seq<Entry>)
    requires Increasing(es) && DistinctCalls(es) && CompletedGroups(Above(es, c)).Ok?
    ensures es == hidden + (Flatten(groups) + dropped) && Above(es, c) == Flatten(groups) + dropped
    ensures AtMost(hidden, c) && Over(Flatten(groups) + dropped, c)
    ensures AllComplete(groups) && (dropped == [] || Partial(dropped))
    ensures CompletedGroups(Above(es, c)) == Ok(groups)
  {
    var from := AboveSuffix(es, c);
    hidden := es[..from];
    groups := CompletedGroups(es[from..]).value;
    DistinctSuffix(es, from);
    dropped := CompletedYields(es[from..], groups);
    assert es == es[..from] + es[from..];
  }

  lemma {:induction false} CompleteAbove(gs: seq<Group>, c: nat)
    requires AllComplete(gs) && Boundary(gs, c)
    ensures CompletedGroups(Above(Flatten(gs), c)) == Ok(GroupsAbove(gs, c))
    ensures Above(Flatten(gs), c) == Flatten(GroupsAbove(gs, c))
  {
    AboveFlatten(gs, c);
    GroupsAboveComplete(gs, c);
    PartialDropped(GroupsAbove(gs, c), []);
    assert Flatten(GroupsAbove(gs, c)) + [] == Flatten(GroupsAbove(gs, c));
  }

  /** The groups of complete interactions past a cutoff, and those before it. */
  lemma {:induction false} CutGroups(gs: seq<Group>, c: nat) returns (before: seq<Group>, past: seq<Group>)
    requires AllComplete(gs) && Increasing(Flatten(gs)) && Boundary(gs, c)
    ensures gs == before + past && AllComplete(before)
    ensures CompletedGroups(Above(Flatten(gs), c)) == Ok(past) && Above(Flatten(gs), c) == Flatten(past)
    ensures Flatten(gs) == Flatten(before) + Flatten(past)
  {
    hide Increasing, Boundary, CompletedGroups, Above, Flatten;
    CompleteAbove(gs, c);
    var from := AboveIsSuffix(gs, c);
    before, past := gs[..from], gs[from..];
    FlattenConcat(before, past);
    assert gs == before + past;
  }

  lemma {:induction false} SameFront<T>(a: seq<T>, b: seq<T>, rest: seq<T>)
    requires a + rest == b + rest
    ensures a == b
  {
    assert |a| == |b|;
    assert a == (a + rest)[..|a|];
    assert b == (b + rest)[..|b|];
  }

  /** The hidden part of a log at rest consists of complete interactions, and nothing is dropped. */
  lemma {:induction false} ResumeClean(log: seq<Event>, hidden: seq<Entry>, groups: seq<Group>, dropped: seq<Entry>)
    returns (hiddenGroups: seq<Group>)
    requires AtRest(log)
    requires Replayed(log).pairs == hidden + (Flatten(groups) + dropped)
    requires Above(Replayed(log).pairs, Cutoff(Replayed(log))) == Flatten(groups) + dropped
    requires CompletedGroups(Flatten(groups) + dropped) == Ok(groups)
    ensures dropped == [] && hidden == Flatten(hiddenGroups) && AllComplete(hiddenGroups)
    ensures Replayed(log).covered == 0 || IsEnd(hiddenGroups + groups, Replayed(log).covered)
    ensures Replayed(log).degraded == 0 || IsEnd(hiddenGroups + groups, Replayed(log).degraded)
  {
    var gs, tail := ShapeOf(log);
    assert Flatten(gs) + [] == Flatten(gs);
    CutoffIsBoundary(log, gs, tail);
    var past;
    hiddenGroups, past := CutGroups(gs, Cutoff(Replayed(log)));
    assert past == groups;
    assert |dropped| == 0;
    assert Flatten(groups) + dropped == Flatten(groups);
    SameFront(hidden, Flatten(hiddenGroups), Flatten(groups));
  }

  lemma {:induction false} ReplayedNames(registered: set<string>, log: seq<Event>)
    requires SaneLog(registered, log)
    ensures Kept(registered, Replayed(log).pairs) == Replayed(log).pairs
  {
    if log != [] {
      var prev, e := log[..|log| - 1], log[|log| - 1];
      ReplayedNames(registered, prev);
      var more := Replayed(log).pairs[|Replayed(prev).pairs|..];
      assert Replayed(log).pairs == Replayed(prev).pairs + more;
      if e.AssistantMessage? {
        var m := Assistant(e.text, ShownCalls(e.calls));
        assert forall i :: 0 <= i < |e.calls| ==> KeptMsg(registered, m).calls[i] == m.calls[i];
        assert KeptMsg(registered, m).calls == m.calls;
      }
      KeptConcat(registered, Replayed(prev).pairs, more);
      assert Kept(registered, more) == more;
    }
  }

  /** A resumed context is consistent with its log, whatever the log of an earlier run looks like. */
  lemma {:induction false} ResumeConsistent(log: seq<Event>, registered: set<string>)
    returns (o: Origin, groups: seq<Group>)
    requires SaneLog(registered, log) && Recovered(log).Ok?
    ensures Flatten(groups) == Recovered(log).value.messages
    ensures Consistent(o, ResumedView(log, groups))
    ensures (o.clean <==> AtRest(log)) && o.registered == registered && o.loaded == |groups|
    ensures Above(Replayed(log).pairs, Cutoff(Replayed(log))) == Flatten(groups) + o.dropped
  {
    SaneStep(registered, log);
    PairsOrdered(log);
    var hidden, gs, dropped := CutAndGroup(Replayed(log).pairs, Cutoff(Replayed(log)));
    groups := gs;
    var hiddenGroups: seq<Group> := [];
    if AtRest(log) {
      hiddenGroups := ResumeClean(log, hidden, groups, dropped);
    }
    o := Origin(AtRest(log), hidden, hiddenGroups, |groups|, dropped, registered);
    var v := ResumedView(log, groups);
    ResumedPairs(o, v);
    ResumedCuts(o, v);
  }

  lemma {:induction false} KeptPart(registered: set<string>, es: seq<Entry>, fs: seq<Entry>, gs: seq<Entry>)
    requires Kept(registered, es + (fs + gs)) == es + (fs + gs)
    ensures Kept(registered, fs) == fs
  {
    var all := es + (fs + gs);
    forall i | 0 <= i < |fs| ensures Kept(registered, fs)[i] == fs[i] {
      assert all[|es| + i] == fs[i];
      assert Kept(registered, all)[|es| + i] == all[|es| + i];
    }
  }

  lemma {:induction false} ResumedPairs(o: Origin, v: View)
    requires Replayed(v.events).pairs == o.hidden + (Flatten(v.groups) + o.dropped)
    requires o.loaded == |v.groups| && v.open == [] && SaneLog(o.registered, v.events)
    ensures SamePairs(o, v)
  {
    assert v.groups[..o.loaded] == v.groups && v.groups[o.loaded..] == [];
    assert Added(o, v) == [];
    ReplayedNames(o.registered, v.events);
    var middle := Flatten(v.groups);
    KeptPart(o.registered, o.hidden, middle, o.dropped);
    assert o.hidden + middle + o.dropped + [] == o.hidden + (middle + o.dropped);
  }

  /** Nothing the resume loads or drops lies before a cut. */
  lemma {:induction false} ResumedCuts(o: Origin, v: View)
    requires v.open == [] && AllComplete(v.groups) && v.covered <= |v.events| && v.degraded <= |v.events|
    requires Over(Flatten(v.groups) + o.dropped, v.Cutoff())
    requires o.clean ==> v.covered == 0 || IsEnd(o.hiddenGroups + v.groups, v.covered)
    requires o.clean ==> v.degraded == 0 || IsEnd(o.hiddenGroups + v.groups, v.degraded)
    ensures CutsFit(o, v)
  {
    AllOver(v.groups, o.dropped, v.Cutoff());
    assert forall k :: 0 <= k < |v.groups| && Over(v.groups[k], v.Cutoff()) ==>
      Over(v.groups[k], v.covered) && Over(v.groups[k], v.degraded);
    forall k | 0 <= k < |v.groups| ensures Over(v.groups[k], v.covered) && Over(v.groups[k], v.degraded) {
      var f, l := SequenceBounds(v.groups[k]);
      assert AtMost(v.groups[k], v.Cutoff()) || Over(v.groups[k], v.Cutoff());
    }
  }
}
