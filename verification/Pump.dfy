/** transports/http/registry.py _SessionEventPump and _EventSubscription over backend_service.py
    EventStreamBuffer: one thread reads the backend's events and fans them out to subscribers. Every
    step is one critical section of some thread; the threads interleave arbitrarily. */
module Pump {
  datatype Ev = Ev(sequence: nat, body: string)

  datatype Item = Event(event: Ev) | Done

  /** A subscription: the cursor it asked for, its queue, and whether its consumer has closed it. */
  datatype Subscription = Subscription(cursor: nat, queue: seq<Item>, closed: bool) {
    function Put(item: Item): Subscription {
      if closed then this else this.(queue := queue + [item])
    }
  }

  /** Where the pump thread is. */
  datatype Phase =
    | Idle
    | Reading
    | Delivering(event: Ev, targets: set<nat>)
    | Drained
    | Finishing(leaving: set<nat>)
    | Finished

  datatype Reason = EndOfStream | Stopped | Raised

  datatype State = State(
    published: seq<Ev>, bufferClosed: bool,
    cache: seq<Ev>, subscribers: set<nat>, done: bool, stop: bool, phase: Phase, normal: bool,
    closing: set<nat>, subs: map<nat, Subscription>)

  datatype Action =
    | Publish(e: Ev)
    | CloseBuffer
    | Subscribe(id: nat, cursor: nat)
    | CloseSubscription(id: nat)
    | Unsubscribe(id: nat)
    | Take
    | Deliver(id: nat)
    | Resume
    | Exhaust
    | End(reason: Reason)
    | Finish(id: nat)
    | Finalize
    | Close
    | FinishClosed(id: nat)

  // ---------------------------------------------------------------- what a subscriber should see

  function Since(events: seq<Ev>, cursor: nat): seq<Ev> {
    if events == [] then []
    else
      var last := events[|events| - 1];
      Since(events[..|events| - 1], cursor) + if last.sequence > cursor then [last] else []
  }

  function Items(events: seq<Ev>): (items: seq<Item>)
    ensures |items| == |events|
    ensures forall i :: 0 <= i < |items| ==> items[i] == Event(events[i])
  {
    seq(|events|, i requires 0 <= i < |events| => Event(events[i]))
  }

  /** What the consumer reads before the first terminal marker. */
  function Before(queue: seq<Item>): seq<Ev> {
    if queue == [] || queue[0].Done? then [] else [queue[0].event] + Before(queue[1..])
  }

  predicate Ordered(events: seq<Ev>) {
    forall i, j :: 0 <= i < j < |events| ==> events[i].sequence < events[j].sequence
  }

  lemma {:induction false} BeforeSnoc(queue: seq<Item>, item: Item)
    ensures Before(queue + [item]) ==
            Before(queue) + if Done in queue || item.Done? then [] else [item.event]
  {
    if queue == [] {
      assert queue + [item] == [item] && [item][1..] == [];
    } else {
      assert (queue + [item])[0] == queue[0] && (queue + [item])[1..] == queue[1..] + [item];
      BeforeSnoc(queue[1..], item);
      assert Done in queue <==> queue[0].Done? || Done in queue[1..];
    }
  }

  lemma {:induction false} BeforeItems(events: seq<Ev>, end: seq<Item>)
    requires end == [] || end == [Done]
    ensures Before(Items(events) + end) == events
  {
    var queue := Items(events) + end;
    if events != [] {
      assert queue[0] == Event(events[0]) && queue[1..] == Items(events[1..]) + end;
      BeforeItems(events[1..], end);
    }
  }

  lemma {:induction false} SinceSnoc(events: seq<Ev>, e: Ev, cursor: nat)
    ensures Since(events + [e], cursor) == Since(events, cursor) + if e.sequence > cursor then [e] else []
  {
    assert (events + [e])[..|events|] == events;
  }

  // ---------------------------------------------------------------- the steps

  function Init(): State {
    State([], false, [], {}, false, false, Idle, false, {}, map[])
  }

  function PutTo(s: State, id: nat, item: Item): State
    requires id in s.subs
  {
    s.(subs := s.subs[id := s.subs[id].Put(item)])
  }

  function LastSequence(events: seq<Ev>): nat {
    if events == [] then 0 else events[|events| - 1].sequence
  }

  predicate Enabled(s: State, a: Action) {
    match a
    case Publish(e) => e.sequence > LastSequence(s.published)
    case CloseBuffer => true
    case Subscribe(id, cursor) => id !in s.subs
    case CloseSubscription(id) => id in s.subs
    case Unsubscribe(id) => id in s.subs && s.subs[id].closed
    case Take => s.phase.Reading? && !s.stop && |s.cache| < |s.published|
    case Deliver(id) => s.phase.Delivering? && id in s.phase.targets && id in s.subs
    case Resume => s.phase.Delivering? && s.phase.targets == {}
    case Exhaust => s.phase.Reading? && s.bufferClosed && s.cache == s.published
    case End(reason) =>
      && (if reason.EndOfStream? then s.phase.Drained? else s.phase.Reading?)
      && (reason.Stopped? ==> s.stop)
    case Finish(id) => s.phase.Finishing? && id in s.phase.leaving && id in s.subs
    case Finalize => s.phase.Finishing? && s.phase.leaving == {}
    case Close => true
    case FinishClosed(id) => id in s.closing && id in s.subs
  }

  function Next(s: State, a: Action): State
    requires Enabled(s, a)
  {
    match a
    case Publish(e) => s.(published := s.published + [e])
    case CloseBuffer => s.(bufferClosed := true)
    case Subscribe(id, cursor) =>
      var replay := Items(Since(s.cache, cursor)) + if s.done then [Done] else [];
      s.(subscribers := s.subscribers + {id}, subs := s.subs[id := Subscription(cursor, replay, false)],
         phase := if !s.done && s.phase.Idle? then Reading else s.phase)
    case CloseSubscription(id) => s.(subs := s.subs[id := s.subs[id].(closed := true)])
    case Unsubscribe(id) => s.(subscribers := s.subscribers - {id})
    case Take =>
      var e := s.published[|s.cache|];
      s.(cache := s.cache + [e], phase := Delivering(e, s.subscribers))
    case Deliver(id) =>
      var e := s.phase.event;
      var t := if e.sequence > s.subs[id].cursor then PutTo(s, id, Event(e)) else s;
      t.(phase := Delivering(e, s.phase.targets - {id}))
    case Resume => s.(phase := Reading)
    case Exhaust => s.(phase := Drained)
    case End(reason) =>
      s.(done := true, phase := Finishing(s.subscribers), subscribers := {},
         normal := reason.EndOfStream? && !s.stop)
    case Finish(id) => PutTo(s, id, Done).(phase := Finishing(s.phase.leaving - {id}))
    case Finalize => s.(phase := Finished)
    case Close => s.(stop := true, done := true, closing := s.closing + s.subscribers, subscribers := {})
    case FinishClosed(id) => PutTo(s, id, Done).(closing := s.closing - {id})
  }

  // ---------------------------------------------------------------- the invariant

  predicate Ended(s: State) {
    s.phase.Finishing? || s.phase.Finished?
  }

  /** The subscription is open and has no terminal marker yet. */
  predicate Active(sub: Subscription) {
    !sub.closed && Done !in sub.queue
  }

  /** Before its first marker the subscription has seen the first n events of the cache. */
  predicate Seen(cache: seq<Ev>, sub: Subscription, n: nat) {
    n <= |cache| && Before(sub.queue) == Since(cache[..n], sub.cursor)
  }

  /** One event behind exactly while that event is being delivered to it. */
  predicate Behind(s: State, id: nat) {
    s.phase.Delivering? && id in s.phase.targets
  }

  ghost predicate Known(s: State, at: map<nat, nat>) {
    && at.Keys == s.subs.Keys && s.subscribers <= s.subs.Keys && s.closing <= s.subs.Keys
    && (s.phase.Delivering? ==>
          s.phase.targets <= s.subs.Keys && s.cache != [] && s.phase.event == s.cache[|s.cache| - 1])
    && (s.phase.Finishing? ==> s.phase.leaving <= s.subs.Keys)
  }

  ghost predicate Flags(s: State) {
    && s.cache <= s.published && Ordered(s.published) && (s.published != [] ==> s.published[0].sequence > 0)
    && (s.done <==> s.stop || Ended(s))
    && (s.normal ==> Ended(s))
    && (s.phase.Idle? ==> s.cache == []) && (s.closing != {} ==> s.stop)
  }

  ghost predicate Placed(s: State, at: map<nat, nat>, id: nat)
    requires id in s.subs && id in at
  {
    var sub := s.subs[id];
    && Seen(s.cache, sub, at[id])
    && (Done in sub.queue ==> s.done)
    && (Active(sub) ==> at[id] + (if Behind(s, id) then 1 else 0) == |s.cache|)
    && (Active(sub) && !s.done ==> id in s.subscribers)
    && (!sub.closed && s.normal ==> at[id] == |s.cache|)
  }

  ghost predicate Inv(s: State, at: map<nat, nat>) {
    Known(s, at) && Flags(s) && forall id :: id in s.subs ==> Placed(s, at, id)
  }

  lemma {:induction false} SeenLater(cache: seq<Ev>, e: Ev, sub: Subscription, n: nat)
    requires Seen(cache, sub, n)
    ensures Seen(cache + [e], sub, n)
  {
    assert (cache + [e])[..n] == cache[..n];
  }

  /** The positions after a step. */
  function Positions(s: State, at: map<nat, nat>, a: Action): map<nat, nat>
    requires Enabled(s, a)
  {
    match a
    case Subscribe(id, _) => at[id := |s.cache|]
    case Deliver(id) => if Active(s.subs[id]) then at[id := |s.cache|] else at
    case _ => at
  }

  lemma {:induction false} KnownKeep(s: State, at: map<nat, nat>, a: Action)
    requires Known(s, at) && Flags(s) && Enabled(s, a)
    ensures Known(Next(s, a), Positions(s, at, a))
  {
    hide Items, Since, Flags, Before, Seen;
  }

  lemma {:induction false} FlagsKeep(s: State, a: Action)
    requires Flags(s) && Enabled(s, a)
    ensures Flags(Next(s, a))
  {
    if a.Publish? {
      OrderedNext(s.published, a.e);
    }
    hide Items, Since, Ordered;
  }

  lemma {:induction false} OrderedNext(events: seq<Ev>, e: Ev)
    requires Ordered(events) && e.sequence > LastSequence(events)
    ensures Ordered(events + [e])
  {
  }

  lemma {:induction false} PlacedBeside(s: State, t: State, at: map<nat, nat>, at': map<nat, nat>, k: nat)
    requires k in s.subs && k in at && Placed(s, at, k)
    requires k in t.subs && k in at' && t.subs[k] == s.subs[k] && at'[k] == at[k]
    requires t.cache == s.cache && t.done == s.done && t.normal == s.normal && s.subscribers <= t.subscribers
    requires Behind(t, k) <==> Behind(s, k)
    ensures Placed(t, at', k)
  {
  }

  lemma {:induction false} SubscribeKeeps(s: State, at: map<nat, nat>, id: nat, cursor: nat)
    requires Inv(s, at) && Enabled(s, Subscribe(id, cursor))
    ensures var t, at' := Next(s, Subscribe(id, cursor)), at[id := |s.cache|];
            forall k :: k in t.subs ==> k in at' && Placed(t, at', k)
  {
    var t := Next(s, Subscribe(id, cursor));
    BeforeItems(Since(s.cache, cursor), if s.done then [Done] else []);
    assert s.cache[..|s.cache|] == s.cache;
    hide Before, Since, Flags;
    forall k | k in t.subs ensures Placed(t, at[id := |s.cache|], k) {
      if k != id {
        PlacedBeside(s, t, at, at[id := |s.cache|], k);
      }
    }
  }

  lemma {:induction false} TakeKeeps(s: State, at: map<nat, nat>)
    requires Inv(s, at) && Enabled(s, Take)
    ensures var t := Next(s, Take); forall k :: k in t.subs ==> Placed(t, at, k)
  {
    var t := Next(s, Take);
    forall k | k in t.subs ensures Placed(t, at, k) {
      assert Placed(s, at, k);
      SeenLater(s.cache, s.published[|s.cache|], s.subs[k], at[k]);
    }
  }

  /** A terminal marker does not change what comes before the first one. */
  lemma {:induction false} DoneKeeps(s: State, t: State, at: map<nat, nat>, id: nat)
    requires Inv(s, at) && id in s.subs && s.done
    requires t.subs == s.subs[id := s.subs[id].Put(Done)]
    requires t.cache == s.cache && t.done && t.normal == s.normal
    requires forall k :: Behind(t, k) <==> Behind(s, k)
    ensures forall k :: k in t.subs ==> Placed(t, at, k)
  {
    BeforeSnoc(s.subs[id].queue, Done);
    forall k | k in t.subs ensures Placed(t, at, k) {
      assert Placed(s, at, k);
    }
  }

  lemma {:induction false} Delivered(s: State, at: map<nat, nat>, id: nat)
    requires Inv(s, at) && Enabled(s, Deliver(id)) && Active(s.subs[id])
    ensures Seen(s.cache, Next(s, Deliver(id)).subs[id], |s.cache|)
    ensures Active(Next(s, Deliver(id)).subs[id])
  {
    hide Items, Since, Before, Flags;
    var sub, e, init := s.subs[id], s.phase.event, s.cache[..|s.cache| - 1];
    assert Placed(s, at, id);
    assert s.cache == init + [e] && s.cache[..|s.cache|] == s.cache;
    SinceSnoc(init, e, sub.cursor);
    BeforeSnoc(sub.queue, Event(e));
  }

  lemma {:induction false} DeliveredLate(s: State, at: map<nat, nat>, id: nat)
    requires Inv(s, at) && Enabled(s, Deliver(id)) && !Active(s.subs[id])
    ensures var sub := Next(s, Deliver(id)).subs[id];
            !Active(sub) && Before(sub.queue) == Before(s.subs[id].queue) && sub.closed == s.subs[id].closed
            && (Done in sub.queue <==> Done in s.subs[id].queue) && sub.cursor == s.subs[id].cursor
  {
    BeforeSnoc(s.subs[id].queue, Event(s.phase.event));
  }

  lemma {:induction false} DeliverKeeps(s: State, at: map<nat, nat>, id: nat)
    requires Inv(s, at) && Enabled(s, Deliver(id))
    ensures var t := Next(s, Deliver(id));
            forall k :: k in t.subs ==> k in at && Placed(t, Positions(s, at, Deliver(id)), k)
  {
    var t, at' := Next(s, Deliver(id)), Positions(s, at, Deliver(id));
    DeliverOne(s, at, id);
    hide Placed, Flags, Active, Before, Since, Seen, Subscription.Put;
    forall k | k in t.subs ensures k in at && Placed(t, at', k) {
      if k != id {
        PlacedBeside(s, t, at, at', k);
      }
    }
  }

  lemma {:induction false} DeliverOne(s: State, at: map<nat, nat>, id: nat)
    requires Inv(s, at) && Enabled(s, Deliver(id))
    ensures id in at && Placed(Next(s, Deliver(id)), Positions(s, at, Deliver(id)), id)
  {
    assert Placed(s, at, id);
    if Active(s.subs[id]) {
      Delivered(s, at, id);
    } else {
      DeliveredLate(s, at, id);
    }
  }

  /** Steps that touch no queue and no cache. */
  lemma {:induction false} QuietKeeps(s: State, t: State, at: map<nat, nat>)
    requires Inv(s, at) && t.cache == s.cache && t.subs.Keys == s.subs.Keys
    requires forall k :: k in s.subs ==>
               && t.subs[k].cursor == s.subs[k].cursor && t.subs[k].queue == s.subs[k].queue
               && (s.subs[k].closed ==> t.subs[k].closed)
    requires forall k :: k in s.subs ==> (Behind(t, k) <==> Behind(s, k))
    requires s.done ==> t.done
    requires !t.done ==> forall k :: k in s.subscribers && k in t.subs && !t.subs[k].closed ==> k in t.subscribers
    requires t.normal ==> s.normal || (!s.done && !s.phase.Delivering?)
    ensures forall k :: k in t.subs ==> Placed(t, at, k)
  {
    forall k | k in t.subs ensures Placed(t, at, k) {
      assert Placed(s, at, k);
    }
  }

  /** Every step of every thread keeps the invariant. */
  lemma {:induction false} StepKeeps(s: State, at: map<nat, nat>, a: Action)
    requires Inv(s, at) && Enabled(s, a)
    ensures Inv(Next(s, a), Positions(s, at, a))
  {
    KnownKeep(s, at, a);
    FlagsKeep(s, a);
    match a {
      case Subscribe(id, cursor) => SubscribeKeeps(s, at, id, cursor);
      case Deliver(id) => DeliverKeeps(s, at, id);
      case Finish(id) => DoneKeeps(s, Next(s, a), at, id);
      case FinishClosed(id) => DoneKeeps(s, Next(s, a), at, id);
      case Take => TakeKeeps(s, at);
      case End(reason) => EndKeeps(s, at, reason);
      case _ => OtherKeeps(s, at, a);
    }
  }

  lemma {:induction false} EndKeeps(s: State, at: map<nat, nat>, reason: Reason)
    requires Inv(s, at) && Enabled(s, End(reason))
    ensures var t := Next(s, End(reason)); forall k :: k in t.subs ==> Placed(t, at, k)
  {
    hide Placed, Before, Since, Seen;
    QuietKeeps(s, Next(s, End(reason)), at);
  }

  lemma {:induction false} CloseKeeps(s: State, at: map<nat, nat>)
    requires Inv(s, at)
    ensures forall k :: k in s.subs ==> Placed(Next(s, Close), at, k)
  {
    hide Placed, Before, Since, Seen;
    QuietKeeps(s, Next(s, Close), at);
  }

  lemma {:induction false} OtherKeeps(s: State, at: map<nat, nat>, a: Action)
    requires Inv(s, at) && Enabled(s, a)
    requires !a.Subscribe? && !a.Deliver? && !a.Finish? && !a.FinishClosed? && !a.Take? && !a.End?
    ensures var t := Next(s, a); forall k :: k in t.subs ==> Placed(t, at, k)
  {
    if a.Close? {
      CloseKeeps(s, at);
    } else if a.CloseSubscription? || a.Unsubscribe? {
      ConsumerKeeps(s, at, a);
    } else {
      hide Placed, Before, Since, Seen, Items;
      var t := Next(s, a);
      assert t.subs == s.subs && t.subscribers == s.subscribers && t.done == s.done && t.normal == s.normal;
      QuietKeeps(s, t, at);
    }
  }

  lemma {:induction false} ConsumerKeeps(s: State, at: map<nat, nat>, a: Action)
    requires Inv(s, at) && Enabled(s, a) && (a.CloseSubscription? || a.Unsubscribe?)
    ensures var t := Next(s, a); forall k :: k in t.subs ==> Placed(t, at, k)
  {
    hide Placed, Before, Since, Seen, Items;
    var t := Next(s, a);
    assert t.cache == s.cache && t.done == s.done && t.normal == s.normal && t.phase == s.phase;
    QuietKeeps(s, t, at);
  }

  // ---------------------------------------------------------------- every run

  predicate Possible(actions: seq<Action>)
    decreases |actions|, 0
  {
    actions == []
    || (Possible(actions[..|actions| - 1]) && Enabled(After(actions[..|actions| - 1]), actions[|actions| - 1]))
  }

  function After(actions: seq<Action>): State
    requires Possible(actions)
    decreases |actions|, 1
  {
    if actions == [] then Init() else Next(After(actions[..|actions| - 1]), actions[|actions| - 1])
  }

  lemma {:induction false} Invariant(actions: seq<Action>) returns (at: map<nat, nat>)
    requires Possible(actions)
    ensures Inv(After(actions), at)
  {
    if actions == [] {
      at := map[];
    } else {
      var init := actions[..|actions| - 1];
      var before := Invariant(init);
      StepKeeps(After(init), before, actions[|actions| - 1]);
      at := Positions(After(init), before, actions[|actions| - 1]);
    }
  }

  predicate Past(events: seq<Ev>, cursor: nat) {
    forall i :: 0 <= i < |events| ==> events[i].sequence > cursor
  }

  lemma {:induction false} SinceMembers(events: seq<Ev>, cursor: nat)
    ensures forall e :: e in Since(events, cursor) <==> e in events && e.sequence > cursor
  {
    if events != [] {
      var init, last := events[..|events| - 1], events[|events| - 1];
      SinceMembers(init, cursor);
      assert forall e :: e in events <==> e in init || e == last by {
        assert events == init + [last];
      }
    }
  }

  lemma {:induction false} OrderedSnoc(events: seq<Ev>, last: Ev)
    requires Ordered(events) && forall e :: e in events ==> e.sequence < last.sequence
    ensures Ordered(events + [last])
  {
    assert forall i :: 0 <= i < |events| ==> events[i] in events;
  }

  lemma {:induction false} OrderedInit(events: seq<Ev>)
    requires Ordered(events) && events != []
    ensures Ordered(events[..|events| - 1])
    ensures forall e :: e in events[..|events| - 1] ==> e.sequence < events[|events| - 1].sequence
  {
  }

  lemma {:induction false} SinceOrdered(events: seq<Ev>, cursor: nat)
    requires Ordered(events)
    ensures Ordered(Since(events, cursor)) && Past(Since(events, cursor), cursor)
  {
    SinceMembers(events, cursor);
    assert forall i :: 0 <= i < |Since(events, cursor)| ==> Since(events, cursor)[i] in Since(events, cursor);
    if events != [] {
      hide Ordered;
      var init, last := events[..|events| - 1], events[|events| - 1];
      OrderedInit(events);
      SinceOrdered(init, cursor);
      SinceMembers(init, cursor);
      if last.sequence > cursor {
        OrderedSnoc(Since(init, cursor), last);
      } else {
        assert Since(init, cursor) + [] == Since(init, cursor);
      }
    }
  }

  /** In every interleaving, what a subscriber reads before its first terminal marker is the part above
      its cursor of a prefix of the backend's history: in order and without duplicates. */
  lemma {:induction false} FanOut(actions: seq<Action>, id: nat) returns (n: nat)
    requires Possible(actions) && id in After(actions).subs
    ensures var s := After(actions);
            var sub := s.subs[id];
            && n <= |s.cache| && s.cache <= s.published
            && Before(sub.queue) == Since(s.published[..n], sub.cursor)
            && Ordered(Before(sub.queue)) && Past(Before(sub.queue), sub.cursor)
  {
    var s := After(actions);
    var at := Invariant(actions);
    assert Placed(s, at, id);
    n := at[id];
    assert s.cache[..n] == s.published[..n];
    assert Ordered(s.published[..n]);
    SinceOrdered(s.published[..n], s.subs[id].cursor);
  }

  lemma {:induction false} StaysDrained(s: State, at: map<nat, nat>, a: Action)
    requires Inv(s, at) && Enabled(s, a) && (Next(s, a).phase.Drained? || Next(s, a).normal)
    ensures if a == Exhaust then s.published == Next(s, a).cache
            else (s.phase.Drained? || s.normal) && Next(s, a).cache == s.cache
  {
    hide Items, Since, Before, Placed, Ordered;
  }

  /** A reader that found the buffer closed has taken everything published until then, and takes no more. */
  lemma {:induction false} DrainedAt(actions: seq<Action>) returns (k: nat)
    requires Possible(actions) && (After(actions).phase.Drained? || After(actions).normal)
    ensures k < |actions| && actions[k] == Exhaust && Possible(actions[..k])
    ensures After(actions[..k]).published == After(actions).cache
  {
    assert actions != [];
    hide Enabled, Next, Items, Since, Before, Inv, Init;
    var init, a := actions[..|actions| - 1], actions[|actions| - 1];
    var at := Invariant(init);
    StaysDrained(After(init), at, a);
    if a == Exhaust {
      k := |actions| - 1;
    } else {
      k := DrainedAt(init);
      assert actions[..k] == init[..k];
    }
  }

  /** When the stream ended by itself, every subscription that its consumer kept open has all of it: what
      was published until the reader found the buffer closed. */
  lemma {:induction false} CompleteAtEnd(actions: seq<Action>, id: nat) returns (k: nat)
    requires Possible(actions) && id in After(actions).subs
    requires After(actions).normal && !After(actions).subs[id].closed
    ensures k < |actions| && actions[k] == Exhaust && Possible(actions[..k])
    ensures var sub := After(actions).subs[id];
            Before(sub.queue) == Since(After(actions[..k]).published, sub.cursor)
  {
    var s := After(actions);
    var at := Invariant(actions);
    assert Placed(s, at, id);
    assert s.cache[..|s.cache|] == s.cache;
    k := DrainedAt(actions);
  }

  lemma {:induction false} CloseSteps(s: State, id: nat)
    requires Behind(s, id) && id in s.subs && id in s.subscribers && Active(s.subs[id])
    requires s.phase.event.sequence > s.subs[id].cursor
    ensures Enabled(s, Close) && Enabled(Next(s, Close), FinishClosed(id))
    ensures var t := Next(Next(s, Close), FinishClosed(id));
            && Enabled(t, Deliver(id))
            && var u := Next(t, Deliver(id));
               && id in u.subs && u.subs[id].queue == s.subs[id].queue + [Done] + [Event(s.phase.event)]
               && u.cache == s.cache && u.subs[id].cursor == s.subs[id].cursor
  {
  }

  /** Closing the pump while an event is being delivered can put the terminal marker before the event:
      completeness is lost although the event is already in the cache. */
  lemma {:induction false} CloseOvertakes(s: State, at: map<nat, nat>, id: nat)
    requires Inv(s, at) && Behind(s, id) && id in s.subs && id in s.subscribers && Active(s.subs[id])
    requires s.phase.event.sequence > s.subs[id].cursor
    ensures Enabled(s, Close) && Enabled(Next(s, Close), FinishClosed(id))
    ensures var t := Next(Next(s, Close), FinishClosed(id));
            && Enabled(t, Deliver(id))
            && var u := Next(t, Deliver(id));
               && id in u.subs
               && Before(u.subs[id].queue) == Before(s.subs[id].queue) != Since(u.cache, u.subs[id].cursor)
  {
    CloseSteps(s, id);
    BehindOne(s, at, id);
    hide Next, Enabled, Inv, Since;
    BeforeSnoc(s.subs[id].queue, Done);
    BeforeSnoc(s.subs[id].queue + [Done], Event(s.phase.event));
  }

  lemma {:induction false} BehindOne(s: State, at: map<nat, nat>, id: nat)
    requires Inv(s, at) && Behind(s, id) && id in s.subs && Active(s.subs[id])
    requires s.phase.event.sequence > s.subs[id].cursor
    ensures Since(s.cache, s.subs[id].cursor) == Before(s.subs[id].queue) + [s.phase.event]
  {
    var init := s.cache[..|s.cache| - 1];
    assert s.cache == init + [s.phase.event];
    assert Placed(s, at, id);
    SinceSnoc(init, s.phase.event, s.subs[id].cursor);
  }

  /** Completeness is lost exactly then: the marker that a close puts into a subscription comes behind all
      cached events, unless the last of them is on its way to this very subscription. */
  lemma {:induction false} CompleteUnlessOvertaken(s: State, at: map<nat, nat>, id: nat)
    requires Inv(s, at) && Enabled(s, FinishClosed(id)) && Active(s.subs[id])
    ensures var t := Next(s, FinishClosed(id));
            Before(t.subs[id].queue) == Since(t.cache, t.subs[id].cursor) <==>
            !(Behind(s, id) && s.phase.event.sequence > s.subs[id].cursor)
  {
    var sub := s.subs[id];
    assert Placed(s, at, id);
    BeforeSnoc(sub.queue, Done);
    if Behind(s, id) {
      if s.phase.event.sequence > sub.cursor {
        BehindOne(s, at, id);
      } else {
        var init := s.cache[..|s.cache| - 1];
        assert s.cache == init + [s.phase.event];
        SinceSnoc(init, s.phase.event, sub.cursor);
      }
    } else {
      assert s.cache[..|s.cache|] == s.cache;
    }
  }

  /** And it stays so: after a close nothing is read any more, and nothing counts behind the marker. */
  lemma {:induction false} MarkerIsFinal(s: State, a: Action, id: nat)
    requires Enabled(s, a) && s.stop && id in s.subs && Done in s.subs[id].queue && (a.Subscribe? ==> a.id != id)
    ensures var t := Next(s, a);
            && t.stop && t.cache == s.cache && id in t.subs && Done in t.subs[id].queue
            && Before(t.subs[id].queue) == Before(s.subs[id].queue) && t.subs[id].cursor == s.subs[id].cursor
  {
    hide Items, Since, Before;
    var queue := s.subs[id].queue;
    if a.Deliver? {
      BeforeSnoc(queue, Event(s.phase.event));
    } else if a.Finish? || a.FinishClosed? {
      BeforeSnoc(queue, Done);
    }
  }

  /** A run in which the marker overtakes the only event. */
  function OvertakingRun(e: Ev): seq<Action> {
    [Publish(e), Subscribe(0, 0), Take, Close, FinishClosed(0), Deliver(0)]
  }

  lemma {:induction false} PossibleNext(actions: seq<Action>, a: Action)
    requires Possible(actions) && Enabled(After(actions), a)
    ensures Possible(actions + [a]) && After(actions + [a]) == Next(After(actions), a)
  {
    assert (actions + [a])[..|actions|] == actions;
  }

  lemma {:induction false} PossiblePrefix(actions: seq<Action>, n: nat)
    requires n < |actions| && Possible(actions[..n]) && Enabled(After(actions[..n]), actions[n])
    ensures Possible(actions[..n + 1]) && After(actions[..n + 1]) == Next(After(actions[..n]), actions[n])
  {
    assert actions[..n + 1] == actions[..n] + [actions[n]];
    PossibleNext(actions[..n], actions[n]);
  }

  /** The state of that run after its first n steps. */
  function OvertakingState(e: Ev, n: nat): State {
    var queue := if n < 5 then [] else if n == 5 then [Done] else [Done, Event(e)];
    State(if n < 1 then [] else [e], false, if n < 3 then [] else [e],
          if n == 2 || n == 3 then {0} else {}, n >= 4, n >= 4,
          if n < 2 then Idle else if n == 2 then Reading else Delivering(e, if n == 6 then {} else {0}), false,
          if n == 4 then {0} else {}, if n < 2 then map[] else map[0 := Subscription(0, queue, false)])
  }

  lemma {:induction false} OvertakingStep(e: Ev, n: nat)
    requires e.sequence > 0 && n < 6
    ensures Enabled(OvertakingState(e, n), OvertakingRun(e)[n])
    ensures Next(OvertakingState(e, n), OvertakingRun(e)[n]) == OvertakingState(e, n + 1)
  {
    var s := OvertakingState(e, n);
    if n == 1 {
      assert Items(Since(s.cache, 0)) + [] == [];
    } else if n == 5 {
      assert s.phase.targets - {0} == {} && [Done] + [Event(e)] == [Done, Event(e)];
      assert s.subs[0 := Subscription(0, [Done, Event(e)], false)] == OvertakingState(e, 6).subs;
    } else if n == 4 {
      assert [] + [Done] == [Done];
      assert s.subs[0 := Subscription(0, [Done], false)] == OvertakingState(e, 5).subs;
    }
  }

  lemma {:induction false} OvertakingPrefix(e: Ev, n: nat)
    requires e.sequence > 0 && n <= 6
    ensures Possible(OvertakingRun(e)[..n]) && After(OvertakingRun(e)[..n]) == OvertakingState(e, n)
  {
    if n == 0 {
      assert OvertakingRun(e)[..0] == [];
    } else {
      OvertakingPrefix(e, n - 1);
      OvertakingStep(e, n - 1);
      PossiblePrefix(OvertakingRun(e), n - 1);
    }
  }

  /** That run is possible: a subscriber that kept its subscription open reads nothing, although the event
      was published, taken and put into its queue. */
  lemma {:induction false} OvertakingIsPossible(e: Ev)
    requires e.sequence > 0
    ensures Possible(OvertakingRun(e))
    ensures var s := After(OvertakingRun(e));
            && s.cache == s.published == [e] && s.subs == map[0 := Subscription(0, [Done, Event(e)], false)]
            && Before(s.subs[0].queue) == [] != [e] == Since(s.cache, s.subs[0].cursor)
  {
    OvertakingPrefix(e, 6);
    assert OvertakingRun(e)[..6] == OvertakingRun(e);
    SinceSnoc([], e, 0);
    assert [] + [e] == [e];
  }

  /** What a consumer can read only ever grows at the end. */
  lemma {:induction false} QueueGrows(s: State, a: Action, id: nat)
    requires Enabled(s, a) && id in s.subs
    ensures id in Next(s, a).subs && s.subs[id].queue <= Next(s, a).subs[id].queue
    ensures Before(s.subs[id].queue) <= Before(Next(s, a).subs[id].queue)
  {
    hide Items, Since, Before;
    var queue := s.subs[id].queue;
    if a.Deliver? {
      BeforeSnoc(queue, Event(s.phase.event));
    } else if a.Finish? || a.FinishClosed? {
      BeforeSnoc(queue, Done);
    }
  }

  // ---------------------------------------------------------------- the buffer behind the pump

  /** backend_service.py EventStreamBuffer: appended by the loop's thread, never waits for a reader. */
  class EventStreamBuffer {
    var events: seq<Ev>
    var closed: bool

    ghost predicate Valid()
      reads this
    {
      Ordered(events) && (events != [] ==> events[0].sequence > 0)
    }

    constructor ()
      ensures Valid() && events == [] && !closed
    {
      events, closed := [], false;
    }

    method Publish(e: Ev)
      requires Valid() && e.sequence > LastSequence(events)
      modifies this
      ensures Valid() && events == old(events) + [e] && closed == old(closed)
    {
      events := events + [e];
    }

    method Close()
      modifies this
      ensures closed && events == old(events)
    {
      closed := true;
    }

    /** One round of iter_since: the batch behind the cursor. After k events were yielded it is exactly
        the rest of the history, so the iterator neither repeats nor skips. */
    method Batch(cursor: nat, ghost k: nat) returns (batch: seq<Ev>)
      requires Valid() && k <= |events| && cursor == LastSequence(events[..k])
      ensures batch == events[k..]
    {
      batch := [];
      for i := 0 to |events|
        invariant batch == Since(events[..i], cursor)
      {
        assert events[..i + 1] == events[..i] + [events[i]];
        SinceSnoc(events[..i], events[i], cursor);
        if events[i].sequence > cursor {
          batch := batch + [events[i]];
        }
      }
      assert events[..|events|] == events;
      RestSince(events, k);
    }
  }

  lemma {:induction false} RestSince(events: seq<Ev>, k: nat)
    requires Ordered(events) && (events != [] ==> events[0].sequence > 0) && k <= |events|
    ensures Since(events, LastSequence(events[..k])) == events[k..]
  {
    if |events| == k {
      NoneSince(events, LastSequence(events));
      assert events[..k] == events;
    } else {
      var init, last := events[..|events| - 1], events[|events| - 1];
      assert events == init + [last] && init[..k] == events[..k];
      assert Ordered(init);
      RestSince(init, k);
      assert last.sequence > LastSequence(events[..k]);
      assert init[k..] + [last] == events[k..];
    }
  }

  lemma {:induction false} NoneSince(events: seq<Ev>, cursor: nat)
    requires forall i :: 0 <= i < |events| ==> events[i].sequence <= cursor
    ensures Since(events, cursor) == []
  {
    if events != [] {
      NoneSince(events[..|events| - 1], cursor);
    }
  }
}
