/** Splitting projected messages into indivisible interactions: the strict grouping of the live
    context builder and the lenient grouping of session resume. */
module Grouping {
  import opened Wrappers
  import opened Transcript

  /** The messages of one interaction; never empty where it is used. */
  type Group = seq<Entry>

  datatype GroupError =
    | OrphanedResult
    | RepeatedCallId
    | MismatchedResult
    | RepeatedResult
    | MissingResults

  // ---------------------------------------------------------------- sequence bounds

  function StartSequence(g: Group): nat
    requires g != []
  {
    if |g| == 1 then g[0].sequence
    else
      var rest := StartSequence(g[1..]);
      if g[0].sequence < rest then g[0].sequence else rest
  }

  function EndSequence(g: Group): nat
    requires g != []
  {
    if |g| == 1 then g[0].sequence else Max(g[0].sequence, EndSequence(g[1..]))
  }

  /** The bounds are attained and bound every message. */
  lemma {:induction false} SequenceBounds(g: Group) returns (first: nat, last: nat)
    requires g != []
    ensures first < |g| && last < |g|
    ensures g[first].sequence == StartSequence(g) && g[last].sequence == EndSequence(g)
    ensures forall i :: 0 <= i < |g| ==> StartSequence(g) <= g[i].sequence <= EndSequence(g)
  {
    first, last := 0, 0;
    if |g| > 1 {
      var f, l := SequenceBounds(g[1..]);
      assert forall i :: 1 <= i < |g| ==> g[i] == g[1..][i - 1];
      first := if g[0].sequence < StartSequence(g[1..]) then 0 else f + 1;
      last := if g[0].sequence < EndSequence(g[1..]) then l + 1 else 0;
    }
  }

  // ---------------------------------------------------------------- what a group is

  /** Every message is a result, for a declared call, and no call is answered twice. */
  predicate Answers(ids: seq<Id>, results: seq<Entry>) {
    && (forall i :: 0 <= i < |results| ==> results[i].msg.Tool? && results[i].msg.id in ids)
    && (forall i, j :: 0 <= i < j < |results| && results[i].msg.Tool? && results[j].msg.Tool?
          ==> results[i].msg.id != results[j].msg.id)
  }

  /** A lone message, or a declaration with exactly one result for each of its distinct calls. */
  predicate Complete(g: Group) {
    && g != []
    && !g[0].msg.Tool?
    && if IsDeclaration(g[0].msg) then
         var ids := RefIds(g[0].msg.calls);
         Distinct(ids) && |g| == |ids| + 1 && Answers(ids, g[1..])
       else |g| == 1
  }

  /** A declaration that is still waiting for at least one result. */
  predicate Partial(g: Group) {
    && g != []
    && IsDeclaration(g[0].msg)
    && var ids := RefIds(g[0].msg.calls);
       Distinct(ids) && |g| <= |ids| && Answers(ids, g[1..])
  }

  ghost predicate AllComplete(gs: seq<Group>) {
    forall k :: 0 <= k < |gs| ==> Complete(gs[k])
  }

  predicate NonEmpty(gs: seq<Group>) {
    forall k :: 0 <= k < |gs| ==> gs[k] != []
  }

  function Flatten(gs: seq<Group>): seq<Entry> {
    if gs == [] then [] else gs[0] + Flatten(gs[1..])
  }

  lemma {:induction false} FlattenConcat(gs: seq<Group>, hs: seq<Group>)
    ensures Flatten(gs + hs) == Flatten(gs) + Flatten(hs)
  {
    if gs == [] {
      assert gs + hs == hs;
    } else {
      assert (gs + hs)[0] == gs[0] && (gs + hs)[1..] == gs[1..] + hs;
      FlattenConcat(gs[1..], hs);
    }
  }

  lemma {:induction false} FlattenSnoc(gs: seq<Group>, g: Group)
    ensures Flatten(gs + [g]) == Flatten(gs) + g
  {
    FlattenConcat(gs, [g]);
    assert [g][1..] == [];
  }

  // ---------------------------------------------------------------- collecting results

  datatype Collected = Taken(count: nat, seen: set<Id>) | Refused(error: GroupError)

  /** The inner loop of both groupings: results that directly follow a declaration. */
  function Collect(ids: seq<Id>, seen: set<Id>, rest: seq<Entry>): (c: Collected)
    ensures c.Taken? ==> c.count <= |rest|
    decreases |rest|
  {
    if rest == [] || |seen| >= |ids| || !rest[0].msg.Tool? then Taken(0, seen)
    else if rest[0].msg.id !in ids then Refused(MismatchedResult)
    else if rest[0].msg.id in seen then Refused(RepeatedResult)
    else
      match Collect(ids, seen + {rest[0].msg.id}, rest[1..])
      case Taken(n, s) => Taken(n + 1, s)
      case Refused(e) => Refused(e)
  }

  function IdsOf(results: seq<Entry>): set<Id> {
    if results == [] then {}
    else if results[0].msg.Tool? then {results[0].msg.id} + IdsOf(results[1..])
    else IdsOf(results[1..])
  }

  lemma {:induction false} IdsOfMember(results: seq<Entry>, id: Id)
    ensures id in IdsOf(results) <==> exists i :: 0 <= i < |results| && results[i].msg.Tool? && results[i].msg.id == id
  {
    if results != [] {
      IdsOfMember(results[1..], id);
      if i :| 1 <= i < |results| && results[i].msg.Tool? && results[i].msg.id == id {
        assert results[1..][i - 1] == results[i];
      }
    }
  }

  function ToSet(ids: seq<Id>): set<Id> {
    set id | id in ids
  }

  lemma {:induction false} DistinctSize(ids: seq<Id>)
    requires Distinct(ids)
    ensures |ToSet(ids)| == |ids|
  {
    if ids != [] {
      var init := ids[..|ids| - 1];
      DistinctSize(init);
      assert ToSet(ids) == ToSet(init) + {ids[|ids| - 1]};
    }
  }

  lemma {:induction false} SubsetOfSameSize<T>(a: set<T>, b: set<T>)
    requires a <= b && |a| == |b|
    ensures a == b
  {
    if x :| x in b && x !in a {
      SubsetSize(a, b - {x});
      assert false;
    }
  }

  lemma {:induction false} SubsetSize<T>(a: set<T>, b: set<T>)
    requires a <= b
    ensures |a| <= |b|
  {
    if a != {} {
      var x :| x in a;
      SubsetSize(a - {x}, b - {x});
    }
  }

  lemma {:induction false} AnswersCons(ids: seq<Id>, first: Entry, results: seq<Entry>)
    ensures Answers(ids, [first] + results) <==>
            && first.msg.Tool? && first.msg.id in ids
            && Answers(ids, results) && first.msg.id !in IdsOf(results)
  {
    var all := [first] + results;
    assert all[0] == first && all[1..] == results;
    if first.msg.Tool? {
      IdsOfMember(results, first.msg.id);
    }
    if Answers(ids, all) {
      assert forall i :: 0 <= i < |results| ==> results[i] == all[i + 1];
    }
    if first.msg.Tool? && first.msg.id in ids && Answers(ids, results) && first.msg.id !in IdsOf(results) {
      assert forall i :: 1 <= i < |all| ==> all[i] == results[i - 1];
    }
  }

  /** Taking one more result first. */
  lemma {:induction false} TakesCons(ids: seq<Id>, seen: set<Id>, first: Entry, taken: seq<Entry>, s: set<Id>)
    requires first.msg.Tool? && first.msg.id in ids && first.msg.id !in seen
    requires Answers(ids, taken) && seen + {first.msg.id} !! IdsOf(taken)
    requires s == seen + {first.msg.id} + IdsOf(taken) && |s| == |seen + {first.msg.id}| + |taken|
    ensures Answers(ids, [first] + taken) && IdsOf([first] + taken) == {first.msg.id} + IdsOf(taken)
    ensures s == seen + IdsOf([first] + taken) && seen !! IdsOf([first] + taken) && |s| == |seen| + |taken| + 1
  {
    AnswersCons(ids, first, taken);
    assert ([first] + taken)[0] == first && ([first] + taken)[1..] == taken;
  }

  /** What a successful collection has taken. */
  lemma {:induction false} CollectTakes(ids: seq<Id>, seen: set<Id>, rest: seq<Entry>)
    requires Collect(ids, seen, rest).Taken?
    requires seen <= ToSet(ids)
    ensures var Taken(n, s) := Collect(ids, seen, rest);
            && Answers(ids, rest[..n])
            && s == seen + IdsOf(rest[..n]) && seen !! IdsOf(rest[..n])
            && |s| == |seen| + n && s <= ToSet(ids)
            && (n < |rest| && |s| < |ids| ==> !rest[n].msg.Tool?)
    decreases |rest|
  {
    var Taken(n, s) := Collect(ids, seen, rest);
    if n > 0 {
      var id, taken := rest[0].msg.id, rest[1..][..n - 1];
      CollectTakes(ids, seen + {id}, rest[1..]);
      TakesCons(ids, seen, rest[0], taken, s);
      assert rest[..n] == [rest[0]] + taken;
      if n < |rest| {
        assert rest[n] == rest[1..][n - 1];
      }
    }
  }

  /** The collecting loop accepts each of these results. */
  predicate Accepted(ids: seq<Id>, seen: set<Id>, results: seq<Entry>)
    decreases |results|
  {
    results == [] || (
      && results[0].msg.Tool? && results[0].msg.id in ids && results[0].msg.id !in seen
      && |seen| < |ids| && Accepted(ids, seen + {results[0].msg.id}, results[1..]))
  }

  lemma {:induction false} AnswersAccepted(ids: seq<Id>, seen: set<Id>, results: seq<Entry>)
    requires Answers(ids, results) && seen * IdsOf(results) == {}
    requires |seen| + |results| <= |ids|
    ensures Accepted(ids, seen, results)
    decreases |results|
  {
    if results != [] {
      var tail := results[1..];
      assert results == [results[0]] + tail;
      AnswersCons(ids, results[0], tail);
      assert (seen + {results[0].msg.id}) * IdsOf(tail) == {};
      AnswersAccepted(ids, seen + {results[0].msg.id}, tail);
    }
  }

  /** Accepted results are collected, and collection stops after them if the calls are all answered
      or a message other than a result follows. */
  lemma {:induction false} CollectAccepted(ids: seq<Id>, seen: set<Id>, results: seq<Entry>, rest: seq<Entry>)
    requires Accepted(ids, seen, results)
    requires |seen| + |results| == |ids| || rest == [] || !rest[0].msg.Tool?
    ensures Collect(ids, seen, results + rest) == Taken(|results|, seen + IdsOf(results))
    decreases |results|
  {
    if results == [] {
      assert results + rest == rest;
    } else {
      var id, tail := results[0].msg.id, results[1..];
      CollectAccepted(ids, seen + {id}, tail, rest);
      assert (results + rest)[0] == results[0] && (results + rest)[1..] == tail + rest;
      assert seen + {id} + IdsOf(tail) == seen + IdsOf(results);
    }
  }

  // ---------------------------------------------------------------- the strict grouping

  function Prepend(gs: seq<Group>, r: Result<seq<Group>, GroupError>): Result<seq<Group>, GroupError> {
    if r.Ok? then Ok(gs + r.value) else r
  }

  /** The identifiers a message declares, checked as the live builder checks them. */
  function DeclaredIds(m: Msg): Result<seq<Id>, GroupError> {
    if !m.Assistant? then Ok([])
    else if Distinct(RefIds(m.calls)) then Ok(RefIds(m.calls))
    else Err(RepeatedCallId)
  }

  function Grouped(es: seq<Entry>): (r: Result<seq<Group>, GroupError>)
    ensures r.Ok? ==> NonEmpty(r.value)
  {
    if es == [] then Ok([])
    else if es[0].msg.Tool? then Err(OrphanedResult)
    else if DeclaredIds(es[0].msg).Err? then Err(DeclaredIds(es[0].msg).error)
    else
      var ids := DeclaredIds(es[0].msg).value;
      if ids == [] then Prepend([[es[0]]], Grouped(es[1..]))
      else
        match Collect(ids, {}, es[1..])
        case Refused(e) => Err(e)
        case Taken(n, seen) =>
          if seen != ToSet(ids) then Err(MissingResults)
          else Prepend([es[..n + 1]], Grouped(es[n + 1..]))
  }

  // ---------------------------------------------------------------- the lenient grouping

  /** Resume does not check that declared identifiers are distinct, and stops without an error at
      a trailing declaration whose results are incomplete. */
  function CompletedGroups(es: seq<Entry>): Result<seq<Group>, GroupError> {
    if es == [] then Ok([])
    else if es[0].msg.Tool? then Err(OrphanedResult)
    else if !IsDeclaration(es[0].msg) then Prepend([[es[0]]], CompletedGroups(es[1..]))
    else
      var ids := RefIds(es[0].msg.calls);
      match Collect(ids, {}, es[1..])
      case Refused(e) => Err(e)
      case Taken(n, seen) =>
        if seen != ToSet(ids) then
          if n + 1 >= |es| then Ok([]) else Err(MissingResults)
        else Prepend([es[..n + 1]], CompletedGroups(es[n + 1..]))
  }

  lemma {:induction false} PrependLaws(gs: seq<Group>, hs: seq<Group>, r: Result<seq<Group>, GroupError>)
    ensures Prepend([], r) == r
    ensures Prepend(gs, Prepend(hs, r)) == Prepend(gs + hs, r)
    ensures Prepend(gs, Ok([])) == Ok(gs)
  {
    assert gs + [] == gs;
    if r.Ok? {
      assert [] + r.value == r.value;
      assert gs + (hs + r.value) == gs + hs + r.value;
    }
  }

  /** The inner loop of both methods below: collect the results that follow a declaration. */
  method CollectResults(expected: seq<Id>, es: seq<Entry>, first: nat) returns (c: Collected)
    requires first <= |es|
    ensures c == Collect(expected, {}, es[first..])
  {
    var seen: set<Id> := {};
    var index := first;
    while index < |es| && |seen| < |expected|
      invariant first <= index <= |es|
      invariant Collect(expected, {}, es[first..]) ==
                match Collect(expected, seen, es[index..])
                case Taken(n, s) => Taken(n + (index - first), s)
                case Refused(e) => Refused(e)
    {
      var result := es[index].msg;
      assert es[index..][0] == es[index] && es[index..][1..] == es[index + 1..];
      if !result.Tool? {
        break;
      }
      if result.id !in expected {
        return Refused(MismatchedResult);
      }
      if result.id in seen {
        return Refused(RepeatedResult);
      }
      seen := seen + {result.id};
      index := index + 1;
    }
    return Taken(index - first, seen);
  }

  /** context.py group_messages: index loops over the stored messages. */
  method GroupMessages(es: seq<Entry>) returns (r: Result<seq<Group>, GroupError>)
    ensures r == Grouped(es)
  {
    var groups: seq<Group> := [];
    var index := 0;
    PrependLaws([], [], Grouped(es));
    assert es[0..] == es;
    while index < |es|
      invariant index <= |es|
      invariant Grouped(es) == Prepend(groups, Grouped(es[index..]))
    {
      var message := es[index].msg;
      ghost var here := es[index..];
      assert here[0] == es[index] && here[1..] == es[index + 1..];
      if message.Tool? {
        return Err(OrphanedResult);
      }
      var declared := DeclaredIds(message);
      if declared.Err? {
        return Err(declared.error);
      }
      var expected := declared.value;
      if expected == [] {
        PrependLaws(groups, [[es[index]]], Grouped(es[index + 1..]));
        groups := groups + [[es[index]]];
        index := index + 1;
        continue;
      }
      var collected := CollectResults(expected, es, index + 1);
      if collected.Refused? {
        return Err(collected.error);
      }
      var next := index + 1 + collected.count;
      if collected.seen != ToSet(expected) {
        return Err(MissingResults);
      }
      assert here[..collected.count + 1] == es[index..next] && here[collected.count + 1..] == es[next..];
      PrependLaws(groups, [es[index..next]], Grouped(es[next..]));
      groups := groups + [es[index..next]];
      index := next;
    }
    assert es[index..] == [];
    PrependLaws(groups, [], Ok([]));
    return Ok(groups);
  }

  /** assembly.py _complete_message_groups: no distinctness check, and a trailing incomplete
      declaration ends the list without an error. */
  method CompleteMessageGroups(es: seq<Entry>) returns (r: Result<seq<Group>, GroupError>)
    ensures r == CompletedGroups(es)
  {
    var groups: seq<Group> := [];
    var index := 0;
    PrependLaws([], [], CompletedGroups(es));
    assert es[0..] == es;
    while index < |es|
      invariant index <= |es|
      invariant CompletedGroups(es) == Prepend(groups, CompletedGroups(es[index..]))
    {
      var message := es[index].msg;
      ghost var here := es[index..];
      assert here[0] == es[index] && here[1..] == es[index + 1..];
      if message.Tool? {
        return Err(OrphanedResult);
      }
      var expected := if message.Assistant? then RefIds(message.calls) else [];
      if expected == [] {
        PrependLaws(groups, [[es[index]]], CompletedGroups(es[index + 1..]));
        groups := groups + [[es[index]]];
        index := index + 1;
        continue;
      }
      var collected := CollectResults(expected, es, index + 1);
      if collected.Refused? {
        return Err(collected.error);
      }
      var next := index + 1 + collected.count;
      if collected.seen != ToSet(expected) {
        if next >= |es| {
          PrependLaws(groups, [], Ok([]));
          return Ok(groups);
        }
        return Err(MissingResults);
      }
      assert here[..collected.count + 1] == es[index..next] && here[collected.count + 1..] == es[next..];
      PrependLaws(groups, [es[index..next]], CompletedGroups(es[next..]));
      groups := groups + [es[index..next]];
      index := next;
    }
    assert es[index..] == [];
    PrependLaws(groups, [], Ok([]));
    return Ok(groups);
  }

  // ---------------------------------------------------------------- grouping inverts flattening

  lemma {:induction false} AnsweredHead(ids: seq<Id>, results: seq<Entry>, rest: seq<Entry>)
    requires Distinct(ids) && Answers(ids, results) && |results| <= |ids|
    requires |results| == |ids| || rest == [] || !rest[0].msg.Tool?
    ensures Collect(ids, {}, results + rest).Taken?
    ensures Collect(ids, {}, results + rest).count == |results|
    ensures Collect(ids, {}, results + rest).seen == ToSet(ids) <==> |results| == |ids|
  {
    AnswersAccepted(ids, {}, results);
    CollectAccepted(ids, {}, results, rest);
    CollectTakes(ids, {}, results + rest);
    DistinctSize(ids);
    if |results| == |ids| {
      SubsetOfSameSize(Collect(ids, {}, results + rest).seen, ToSet(ids));
    }
  }

  lemma {:induction false} CompleteHead(g: Group, rest: seq<Entry>)
    requires Complete(g)
    ensures Grouped(g + rest) == Prepend([g], Grouped(rest))
    ensures CompletedGroups(g + rest) == Prepend([g], CompletedGroups(rest))
  {
    var es := g + rest;
    assert es[0] == g[0];
    if IsDeclaration(g[0].msg) {
      var ids := RefIds(g[0].msg.calls);
      AnsweredHead(ids, g[1..], rest);
      assert es[1..] == g[1..] + rest;
      assert es[..|g|] == g && es[|g|..] == rest;
    } else {
      assert g == [g[0]] && es[1..] == rest;
      assert g[0].msg.Assistant? ==> RefIds(g[0].msg.calls) == [];
    }
  }

  lemma {:induction false} FlattenGroups(gs: seq<Group>, tail: seq<Entry>)
    requires AllComplete(gs)
    ensures Grouped(Flatten(gs) + tail) == Prepend(gs, Grouped(tail))
    ensures CompletedGroups(Flatten(gs) + tail) == Prepend(gs, CompletedGroups(tail))
  {
    if gs == [] {
      assert Flatten(gs) + tail == tail;
      PrependLaws([], [], Grouped(tail));
      PrependLaws([], [], CompletedGroups(tail));
    } else {
      var rest := Flatten(gs[1..]) + tail;
      assert Flatten(gs) + tail == gs[0] + rest;
      CompleteHead(gs[0], rest);
      FlattenGroups(gs[1..], tail);
      PrependLaws([gs[0]], gs[1..], Grouped(tail));
      PrependLaws([gs[0]], gs[1..], CompletedGroups(tail));
      assert [gs[0]] + gs[1..] == gs;
    }
  }

  lemma {:induction false} YieldsCons(g: Group, gs: seq<Group>, es: seq<Entry>, tail: seq<Entry>)
    requires Complete(g) && AllComplete(gs) && es == Flatten(gs) + tail
    ensures AllComplete([g] + gs) && g + es == Flatten([g] + gs) + tail
  {
    assert ([g] + gs)[1..] == gs;
    assert g + es == g + Flatten(gs) + tail;
  }

  lemma {:induction false} YieldsStep(es: seq<Entry>, n: nat, rest: seq<Group>, tail: seq<Entry>)
    requires n <= |es| && Complete(es[..n]) && AllComplete(rest) && es[n..] == Flatten(rest) + tail
    ensures AllComplete([es[..n]] + rest) && es == Flatten([es[..n]] + rest) + tail
  {
    YieldsCons(es[..n], rest, es[n..], tail);
    assert es == es[..n] + es[n..];
  }

  lemma {:induction false} YieldsEnd(es: seq<Entry>, n: nat, rest: seq<Group>)
    requires n <= |es| && Complete(es[..n]) && AllComplete(rest) && es[n..] == Flatten(rest)
    ensures AllComplete([es[..n]] + rest) && es == Flatten([es[..n]] + rest)
  {
    hide Flatten, Complete;
    assert Flatten(rest) + [] == Flatten(rest) && Flatten([es[..n]] + rest) + [] == Flatten([es[..n]] + rest);
    YieldsStep(es, n, rest, []);
  }

  lemma {:induction false} NothingYields(es: seq<Entry>)
    ensures AllComplete([]) && es == Flatten([]) + es
  {
  }

  /** What the collecting loop says about a declaration and the messages after it. */
  lemma {:induction false} DeclarationHead(es: seq<Entry>)
    requires es != [] && IsDeclaration(es[0].msg) && Distinct(RefIds(es[0].msg.calls))
    requires Collect(RefIds(es[0].msg.calls), {}, es[1..]).Taken?
    ensures var ids := RefIds(es[0].msg.calls);
            var Taken(n, seen) := Collect(ids, {}, es[1..]);
            if seen == ToSet(ids) then Complete(es[..n + 1]) else n + 1 >= |es| ==> Partial(es)
  {
    var ids := RefIds(es[0].msg.calls);
    var Taken(n, seen) := Collect(ids, {}, es[1..]);
    CollectTakes(ids, {}, es[1..]);
    DistinctSize(ids);
    assert es[..n + 1][1..] == es[1..][..n];
    if seen != ToSet(ids) {
      SubsetSize(seen, ToSet(ids));
      if |seen| == |ids| {
        SubsetOfSameSize(seen, ToSet(ids));
      }
      if n + 1 >= |es| {
        assert es[1..][..n] == es[1..];
      }
    }
  }

  lemma {:induction false} GroupedYields(es: seq<Entry>, gs: seq<Group>)
    requires Grouped(es) == Ok(gs)
    ensures Flatten(gs) == es && AllComplete(gs)
    decreases |es|
  {
    if es != [] {
      var n, rest := FirstGrouped(es);
      hide Grouped, Flatten, Complete, AllComplete;
      GroupedYields(es[n..], rest);
      YieldsEnd(es, n, rest);
    }
  }

  /** The first interaction that the strict grouping takes, and the grouping of the rest. */
  lemma {:induction false} FirstGrouped(es: seq<Entry>) returns (n: nat, rest: seq<Group>)
    requires es != [] && Grouped(es).Ok?
    ensures 1 <= n <= |es| && Complete(es[..n])
    ensures Grouped(es[n..]) == Ok(rest) && Grouped(es) == Ok([es[..n]] + rest)
  {
    if !IsDeclaration(es[0].msg) {
      n := 1;
      assert es[..1] == [es[0]];
    } else {
      DeclarationHead(es);
      n := Collect(RefIds(es[0].msg.calls), {}, es[1..]).count + 1;
    }
    rest := Grouped(es[n..]).value;
  }

  /** The strict grouping succeeds exactly on concatenations of complete interactions, and returns
      those interactions. */
  lemma {:induction false} GroupedExactly(es: seq<Entry>, gs: seq<Group>)
    ensures Grouped(es) == Ok(gs) <==> es == Flatten(gs) && AllComplete(gs)
  {
    if Grouped(es) == Ok(gs) {
      GroupedYields(es, gs);
    }
    if es == Flatten(gs) && AllComplete(gs) {
      FlattenGroups(gs, []);
      assert Flatten(gs) + [] == es;
      PrependLaws(gs, [], Ok([]));
    }
  }

  /** Resume groups every list the live builder accepts in the same way. */
  lemma {:induction false} LenientAgrees(es: seq<Entry>)
    requires Grouped(es).Ok?
    ensures CompletedGroups(es) == Grouped(es)
  {
    var gs := Grouped(es).value;
    GroupedYields(es, gs);
    FlattenGroups(gs, []);
    assert Flatten(gs) + [] == es;
    PrependLaws(gs, [], Ok([]));
  }

  lemma {:induction false} OneAnswer(ids: seq<Id>, answer: Entry, note: Entry)
    requires answer.msg.Tool? && answer.msg.id in ids && !note.msg.Tool?
    ensures Collect(ids, {}, [answer, note]) == Taken(1, {answer.msg.id})
  {
    var a := answer.msg.id;
    assert [answer, note][1..] == [note];
    assert Collect(ids, {a}, [note]) == Taken(0, {a});
    assert {} + {a} == {a};
  }

  lemma {:induction false} StrictRefusesRepeats(a: Id, data: ToolData)
    ensures Grouped([Entry(Assistant("", [ToolRef(a, "", ""), ToolRef(a, "", "")]), 1),
                     Entry(Tool(a, data), 2), Entry(User(""), 3)]) == Err(RepeatedCallId)
  {
    var ids := RefIds([ToolRef(a, "", ""), ToolRef(a, "", "")]);
    assert ids[0] == ids[1];
  }

  lemma {:induction false} LoneNote(note: Entry)
    requires note.msg.User?
    ensures CompletedGroups([note]) == Ok([[note]])
  {
    assert [note][1..] == [];
    PrependLaws([[note]], [], Ok([]));
  }

  lemma {:induction false} LenientGroup(ask: Entry, answer: Entry, note: Entry)
    requires answer.msg.Tool? && !note.msg.Tool? && IsDeclaration(ask.msg)
    requires ToSet(RefIds(ask.msg.calls)) == {answer.msg.id}
    ensures CompletedGroups([ask, answer, note]) == Prepend([[ask, answer]], CompletedGroups([note]))
  {
    var es := [ask, answer, note];
    assert es[1..] == [answer, note] && es[2..] == [note] && es[..2] == [ask, answer];
    OneAnswer(RefIds(ask.msg.calls), answer, note);
    hide Collect;
  }

  /** Resume accepts a declaration that repeats an identifier; the live builder does not. */
  lemma {:induction false} LenientAcceptsRepeats(a: Id, data: ToolData)
    ensures var es := [Entry(Assistant("", [ToolRef(a, "", ""), ToolRef(a, "", "")]), 1),
                       Entry(Tool(a, data), 2), Entry(User(""), 3)];
            Grouped(es) == Err(RepeatedCallId) && CompletedGroups(es) == Ok([es[..2], es[2..]])
  {
    var ask := Entry(Assistant("", [ToolRef(a, "", ""), ToolRef(a, "", "")]), 1);
    var answer, note := Entry(Tool(a, data), 2), Entry(User(""), 3);
    var ids := RefIds(ask.msg.calls);
    assert ids[0] == ids[1] == a && ToSet(ids) == {a};
    hide Grouped, CompletedGroups, Prepend;
    StrictRefusesRepeats(a, data);
    LenientGroup(ask, answer, note);
    LoneNote(note);
    PrependLaws([[ask, answer]], [[note]], Ok([]));
    var es := [ask, answer, note];
    assert es[..2] == [ask, answer] && es[2..] == [note] && [[ask, answer]] + [[note]] == [es[..2], es[2..]];
  }

  /** A trailing declaration with missing results is dropped without an error. */
  lemma {:induction false} PartialDropped(gs: seq<Group>, tail: seq<Entry>)
    requires AllComplete(gs) && (tail == [] || Partial(tail))
    ensures CompletedGroups(Flatten(gs) + tail) == Ok(gs)
  {
    FlattenGroups(gs, tail);
    PrependLaws(gs, [], Ok([]));
    if tail != [] {
      AnsweredHead(RefIds(tail[0].msg.calls), tail[1..], []);
      assert tail[1..] + [] == tail[1..];
    }
  }

  /** A declaration with missing results anywhere else is an error. */
  lemma {:induction false} PartialInside(gs: seq<Group>, broken: seq<Entry>, rest: seq<Entry>)
    requires AllComplete(gs) && Partial(broken)
    requires rest != [] && !rest[0].msg.Tool?
    ensures CompletedGroups(Flatten(gs) + (broken + rest)) == Err(MissingResults)
  {
    FlattenGroups(gs, broken + rest);
    var es := broken + rest;
    assert es[0] == broken[0] && es[1..] == broken[1..] + rest;
    AnsweredHead(RefIds(broken[0].msg.calls), broken[1..], rest);
  }

  predicate DistinctCalls(es: seq<Entry>) {
    forall i :: 0 <= i < |es| && es[i].msg.Assistant? ==> Distinct(RefIds(es[i].msg.calls))
  }

  /** The first interaction that resume takes, and its grouping of the rest; or an unfinished declaration
      and nothing else. */
  lemma {:induction false} FirstCompleted(es: seq<Entry>) returns (n: nat, rest: seq<Group>)
    requires es != [] && CompletedGroups(es).Ok? && DistinctCalls(es)
    ensures n <= |es| && DistinctCalls(es[n..])
    ensures if n == 0 then Partial(es) && CompletedGroups(es) == Ok([])
            else
              && Complete(es[..n])
              && CompletedGroups(es[n..]) == Ok(rest) && CompletedGroups(es) == Ok([es[..n]] + rest)
  {
    n, rest := 0, [];
    if !IsDeclaration(es[0].msg) {
      n := 1;
      assert es[..1] == [es[0]];
    } else {
      DeclarationHead(es);
      var Taken(taken, seen) := Collect(RefIds(es[0].msg.calls), {}, es[1..]);
      if seen == ToSet(RefIds(es[0].msg.calls)) {
        n := taken + 1;
      }
    }
    if n > 0 {
      rest := CompletedGroups(es[n..]).value;
    }
  }

  /** On lists whose declarations are distinct, resume succeeds exactly on complete interactions
      followed by at most one unfinished declaration. */
  lemma {:induction false} CompletedYields(es: seq<Entry>, gs: seq<Group>) returns (tail: seq<Entry>)
    requires CompletedGroups(es) == Ok(gs)
    requires DistinctCalls(es)
    ensures es == Flatten(gs) + tail && AllComplete(gs) && (tail == [] || Partial(tail))
    decreases |es|
  {
    NothingYields(es);
    tail := es;
    if es != [] {
      hide CompletedGroups, Flatten, Complete, Partial, DistinctCalls, AllComplete;
      var n, rest := FirstCompleted(es);
      if n > 0 {
        tail := CompletedYields(es[n..], rest);
        YieldsStep(es, n, rest, tail);
      }
    }
  }

  // ---------------------------------------------------------------- cutting at a sequence

  function Above(es: seq<Entry>, cutoff: nat): seq<Entry> {
    if es == [] then []
    else (if es[0].sequence > cutoff then [es[0]] else []) + Above(es[1..], cutoff)
  }

  function GroupsAbove(gs: seq<Group>, cutoff: nat): (past: seq<Group>)
    requires NonEmpty(gs)
    ensures NonEmpty(past)
  {
    if gs == [] then []
    else (if EndSequence(gs[0]) > cutoff then [gs[0]] else []) + GroupsAbove(gs[1..], cutoff)
  }

  predicate AtMost(es: seq<Entry>, cutoff: nat) {
    forall i :: 0 <= i < |es| ==> es[i].sequence <= cutoff
  }

  predicate Over(es: seq<Entry>, cutoff: nat) {
    forall i :: 0 <= i < |es| ==> es[i].sequence > cutoff
  }

  /** No group has messages on both sides of the cutoff. */
  ghost predicate Boundary(gs: seq<Group>, cutoff: nat) {
    forall k :: 0 <= k < |gs| ==> AtMost(gs[k], cutoff) || Over(gs[k], cutoff)
  }

  lemma {:induction false} AboveConcat(es: seq<Entry>, fs: seq<Entry>, cutoff: nat)
    ensures Above(es + fs, cutoff) == Above(es, cutoff) + Above(fs, cutoff)
  {
    if es == [] {
      assert es + fs == fs;
    } else {
      assert (es + fs)[0] == es[0] && (es + fs)[1..] == es[1..] + fs;
      AboveConcat(es[1..], fs, cutoff);
    }
  }

  lemma {:induction false} AboveAll(es: seq<Entry>, cutoff: nat)
    requires Over(es, cutoff)
    ensures Above(es, cutoff) == es
  {
    if es != [] {
      AboveAll(es[1..], cutoff);
    }
  }

  lemma {:induction false} AboveNone(es: seq<Entry>, cutoff: nat)
    requires AtMost(es, cutoff)
    ensures Above(es, cutoff) == []
  {
    if es != [] {
      AboveNone(es[1..], cutoff);
    }
  }

  /** At a boundary, cutting messages and cutting whole groups is the same. */
  lemma {:induction false} AboveFlatten(gs: seq<Group>, cutoff: nat)
    requires NonEmpty(gs)
    requires Boundary(gs, cutoff)
    ensures Above(Flatten(gs), cutoff) == Flatten(GroupsAbove(gs, cutoff))
  {
    if gs != [] {
      var g, rest := gs[0], gs[1..];
      AboveConcat(g, Flatten(rest), cutoff);
      AboveFlatten(rest, cutoff);
      var first, last := SequenceBounds(g);
      if EndSequence(g) > cutoff {
        AboveAll(g, cutoff);
        assert [g] + GroupsAbove(rest, cutoff) == GroupsAbove(gs, cutoff);
        FlattenConcat([g], GroupsAbove(rest, cutoff));
        assert Flatten([g]) == g by {
          assert [g][1..] == [];
        }
      } else {
        AboveNone(g, cutoff);
        assert [] + GroupsAbove(rest, cutoff) == GroupsAbove(rest, cutoff);
        assert [] + Flatten(GroupsAbove(rest, cutoff)) == Flatten(GroupsAbove(rest, cutoff));
      }
    }
  }
}
