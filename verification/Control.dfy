/** backend_service.py: the one-slot approval channel and the one-worker command queue. Every method is
    one critical section; callers on other threads interleave between them in any order. */
module Control {
  import opened Wrappers

  // ---------------------------------------------------------------- the approval channel

  datatype Response = Response(request: string, approved: bool)

  /** One critical section of the channel, as it happened. A check is one round of wait; it either
      returns or waits on. */
  datatype Step =
    | Begun(request: string)
    | Responded(response: Response)
    | Interrupted
    | Closed
    | Returned(approved: bool)
    | WaitedOn

  /** The request that is open since the last begin, and every response that came since then. */
  datatype Window = Window(request: string, responses: seq<Response>)

  function Current(trace: seq<Step>): Option<Window> {
    if trace == [] then None
    else
      var before := Current(trace[..|trace| - 1]);
      match trace[|trace| - 1]
      case Begun(request) => Some(Window(request, []))
      case Responded(r) => if before.None? then None else Some(before.value.(responses := before.value.responses + [r]))
      case Returned(_) => None
      case _ => before
  }

  predicate Shut(trace: seq<Step>) {
    Interrupted in trace || Closed in trace
  }

  predicate AllMatch(w: Window) {
    forall i :: 0 <= i < |w.responses| ==> w.responses[i].request == w.request
  }

  /** The only way to an approval. */
  predicate Approves(trace: seq<Step>) {
    && !Shut(trace)
    && Current(trace).Some?
    && var w := Current(trace).value;
       w.responses != [] && AllMatch(w) && w.responses[|w.responses| - 1].approved
  }

  /** What the slot remembers of the responses: the last matching one. */
  function LastMatching(w: Window): Option<Response>
    decreases |w.responses|
  {
    if w.responses == [] then None
    else
      var last := w.responses[|w.responses| - 1];
      if last.request == w.request then Some(last)
      else LastMatching(w.(responses := w.responses[..|w.responses| - 1]))
  }

  lemma {:induction false} LastMatchingNext(w: Window, r: Response)
    ensures var next := w.(responses := w.responses + [r]);
            && LastMatching(next) == (if r.request == w.request then Some(r) else LastMatching(w))
            && (AllMatch(next) <==> AllMatch(w) && r.request == w.request)
  {
    var next := w.(responses := w.responses + [r]);
    assert next.responses[..|w.responses|] == w.responses;
    if AllMatch(next) {
      assert forall i :: 0 <= i < |w.responses| ==> w.responses[i] == next.responses[i];
      assert next.responses[|w.responses|] == r;
    }
  }

  lemma {:induction false} LastMatchingMatches(w: Window)
    ensures LastMatching(w).Some? ==> LastMatching(w).value.request == w.request
    ensures AllMatch(w) ==>
              LastMatching(w) == if w.responses == [] then None else Some(w.responses[|w.responses| - 1])
    decreases |w.responses|
  {
    if w.responses != [] && w.responses[|w.responses| - 1].request != w.request {
      LastMatchingMatches(w.(responses := w.responses[..|w.responses| - 1]));
    }
  }

  lemma {:induction false} TraceNext(trace: seq<Step>, s: Step)
    ensures (trace + [s])[..|trace|] == trace
    ensures Shut(trace + [s]) <==> Shut(trace) || s == Interrupted || s == Closed
  {
    assert forall x :: x in trace + [s] <==> x in trace || x == s;
  }

  /** The last response since this begin approves its request. */
  ghost predicate LastApproves(trace: seq<Step>, begin: nat)
    requires begin < |trace| && trace[begin].Begun?
  {
    exists i :: begin < i < |trace| && trace[i] == Responded(Response(trace[begin].request, true))
                && LastResponse(trace, i)
  }

  predicate LastResponse(trace: seq<Step>, i: nat) {
    forall j :: i < j < |trace| ==> !trace[j].Responded?
  }

  /** Since this begin the last response approves the request, no response is to another one, and the
      channel was neither interrupted nor closed at any time. */
  ghost predicate ApprovedSince(trace: seq<Step>, begin: nat)
    requires begin < |trace| && trace[begin].Begun?
  {
    && LastApproves(trace, begin)
    && (forall i :: begin < i < |trace| && trace[i].Responded? ==> trace[i].response.request == trace[begin].request)
    && (forall i :: 0 <= i < |trace| ==> trace[i] != Interrupted && trace[i] != Closed)
  }

  /** The channel approves exactly when the last response since the last begin approves that very request
      and nothing speaks against it: no response given before that begin counts, and neither does one to
      another request. */
  lemma {:induction false} NoStaleApproval(trace: seq<Step>, begin: nat)
    requires begin < |trace| && trace[begin].Begun?
    requires forall i :: begin < i < |trace| ==> !trace[i].Begun?
    ensures Approves(trace) <==> ApprovedSince(trace, begin) && forall i :: begin < i < |trace| ==> !trace[i].Returned?
  {
    CurrentSince(trace, begin);
    ShutSteps(trace);
    if Current(trace).Some? {
      LastSince(trace, begin);
      MatchSince(trace, begin);
    }
  }

  lemma {:induction false} ShutSteps(trace: seq<Step>)
    ensures Shut(trace) <==> exists i :: 0 <= i < |trace| && (trace[i] == Interrupted || trace[i] == Closed)
  {
    if i :| 0 <= i < |trace| && (trace[i] == Interrupted || trace[i] == Closed) {
      assert trace[i] in trace;
    }
  }

  /** The open window since this begin, unless it was returned from. */
  lemma {:induction false} CurrentSince(trace: seq<Step>, begin: nat)
    requires begin < |trace| && trace[begin].Begun?
    requires forall i :: begin < i < |trace| ==> !trace[i].Begun?
    ensures Current(trace).Some? <==> forall i :: begin < i < |trace| ==> !trace[i].Returned?
    ensures Current(trace).Some? ==>
              var w := Current(trace).value;
              && w.request == trace[begin].request
              && forall r :: r in w.responses <==> exists i :: begin < i < |trace| && trace[i] == Responded(r)
    decreases |trace|
  {
    var init, s := trace[..|trace| - 1], trace[|trace| - 1];
    if |init| > begin {
      assert init[begin] == trace[begin];
      CurrentSince(init, begin);
      assert forall i :: begin < i < |trace| ==> trace[i] == if i < |init| then init[i] else s;
      if Current(trace).Some? {
        var v, w := Current(init).value, Current(trace).value;
        forall r ensures r in w.responses <==> exists i :: begin < i < |trace| && trace[i] == Responded(r) {
          if r in v.responses {
            var i :| begin < i < |init| && init[i] == Responded(r);
            assert trace[i] == Responded(r);
          }
          if i :| begin < i < |trace| && trace[i] == Responded(r) {
            if i < |init| {
              assert init[i] == Responded(r);
            }
          }
        }
      }
    }
  }

  lemma {:induction false} WindowNext(trace: seq<Step>, s: Step)
    requires !s.Begun? && Current(trace + [s]).Some?
    ensures Current(trace).Some? && Current(trace + [s]).value.responses ==
            Current(trace).value.responses + if s.Responded? then [s.response] else []
  {
    assert (trace + [s])[..|trace|] == trace;
  }

  /** The window's last response is the last one since the begin. */
  lemma {:induction false} LastSince(trace: seq<Step>, begin: nat)
    requires begin < |trace| && trace[begin].Begun? && Current(trace).Some?
    requires forall i :: begin < i < |trace| ==> !trace[i].Begun?
    ensures var responses := Current(trace).value.responses;
            if responses == [] then forall i :: begin < i < |trace| ==> !trace[i].Responded?
            else exists i :: begin < i < |trace| && trace[i] == Responded(responses[|responses| - 1])
                             && LastResponse(trace, i)
    decreases |trace|
  {
    var init, s := trace[..|trace| - 1], trace[|trace| - 1];
    if |init| > begin {
      assert init[begin] == trace[begin] && trace == init + [s];
      CurrentSince(trace, begin);
      CurrentSince(init, begin);
      WindowNext(init, s);
      hide Current;
      LastSince(init, begin);
      if s.Responded? {
        assert LastResponse(trace, |trace| - 1);
      } else if Current(init).value.responses != [] {
        var responses := Current(init).value.responses;
        var i :| begin < i < |init| && init[i] == Responded(responses[|responses| - 1]) && LastResponse(init, i);
        assert trace[i] == init[i];
        assert LastResponse(trace, i);
      }
    }
  }

  lemma {:induction false} MatchSince(trace: seq<Step>, begin: nat)
    requires begin < |trace| && trace[begin].Begun? && Current(trace).Some?
    requires forall i :: begin < i < |trace| ==> !trace[i].Begun?
    ensures AllMatch(Current(trace).value) <==>
            forall i :: begin < i < |trace| && trace[i].Responded? ==> trace[i].response.request == trace[begin].request
  {
    CurrentSince(trace, begin);
    var w := Current(trace).value;
    if AllMatch(w) {
      forall i | begin < i < |trace| && trace[i].Responded?
        ensures trace[i].response.request == trace[begin].request
      {
        assert trace[i] == Responded(trace[i].response);
        assert trace[i].response in w.responses;
      }
    } else {
      var k :| 0 <= k < |w.responses| && w.responses[k].request != w.request;
      assert w.responses[k] in w.responses;
    }
  }

  class ApprovalChannel {
    var pending: Option<string>
    var response: Option<Response>
    var closed: bool
    var interrupted: bool
    var mismatch: bool
    ghost var trace: seq<Step>

    ghost predicate Valid()
      reads this
    {
      && (closed || interrupted <==> Shut(trace))
      && (pending.None? <==> Current(trace).None?)
      && (pending.Some? ==>
            var w := Current(trace).value;
            pending.value == w.request && (mismatch <==> !AllMatch(w)) && response == LastMatching(w))
    }

    constructor ()
      ensures Valid() && trace == []
    {
      pending, response, closed, interrupted, mismatch, trace := None, None, false, false, false, [];
    }

    method Begin(request: string)
      requires Valid()
      modifies this
      ensures Valid() && trace == old(trace) + [Begun(request)]
    {
      TraceNext(trace, Begun(request));
      pending, response, mismatch := Some(request), None, false;
      trace := trace + [Begun(request)];
    }

    /** One round of the loop in wait: None means that it waits on. */
    method Check(expired: bool) returns (result: Option<bool>)
      requires Valid() && pending.Some?
      modifies this
      ensures Valid()
      ensures trace == old(trace) + [if result.Some? then Returned(result.value) else WaitedOn]
      ensures result == Some(true) <==> old(Approves(trace))
      ensures expired ==> result.Some?
      ensures result.Some? ==> pending.None?
      ensures result.None? ==> pending == old(pending)
    {
      LastMatchingMatches(Current(trace).value);
      if closed || interrupted || mismatch {
        result := Some(false);
      } else if response.Some? {
        result := Some(response.value.request == pending.value && response.value.approved);
      } else {
        result := if expired then Some(false) else None;
      }
      TraceNext(trace, if result.Some? then Returned(result.value) else WaitedOn);
      trace := trace + [if result.Some? then Returned(result.value) else WaitedOn];
      if result.Some? {
        pending, response, mismatch := None, None, false;
      }
    }

    method Respond(r: Response)
      requires Valid()
      modifies this
      ensures Valid() && trace == old(trace) + [Responded(r)] && pending == old(pending)
    {
      hide AllMatch, LastMatching, Shut;
      TraceNext(trace, Responded(r));
      if pending.Some? {
        LastMatchingNext(Current(trace).value, r);
        if r.request != pending.value {
          mismatch := true;
        } else {
          response := Some(r);
        }
      }
      trace := trace + [Responded(r)];
    }

    method Interrupt()
      requires Valid()
      modifies this
      ensures Valid() && trace == old(trace) + [Interrupted] && pending == old(pending)
    {
      TraceNext(trace, Interrupted);
      interrupted := true;
      trace := trace + [Interrupted];
    }

    method Close()
      requires Valid()
      modifies this
      ensures Valid() && trace == old(trace) + [Closed] && pending == old(pending)
    {
      TraceNext(trace, Closed);
      closed := true;
      trace := trace + [Closed];
    }

    /** Whatever other threads do between two critical sections of the worker. */
    method Others()
      requires Valid()
      modifies this
      ensures Valid() && old(trace) <= trace && pending == old(pending)
      ensures forall i :: |old(trace)| <= i < |trace| ==> !trace[i].Begun? && !trace[i].Returned? && !trace[i].WaitedOn?
    {
      var sections: nat :| true;
      for n := 0 to sections
        invariant Valid() && old(trace) <= trace && pending == old(pending)
        invariant forall i :: |old(trace)| <= i < |trace| ==>
                    !trace[i].Begun? && !trace[i].Returned? && !trace[i].WaitedOn?
      {
        var choice: nat, r: Response := *, *;
        if choice == 0 {
          Respond(r);
        } else if choice == 1 {
          Interrupt();
        } else {
          Close();
        }
      }
    }
  }

  /** ChannelApprovalPort.request_approval under every interleaving: it returns true only if, since its
      own begin, the last response approves this very request, none answers another one, and the channel
      was never interrupted or closed. */
  method RequestApproval(channel: ApprovalChannel, request: string) returns (approved: bool)
    requires channel.Valid()
    modifies channel
    ensures channel.Valid() && old(channel.trace) + [Begun(request)] <= channel.trace
    ensures channel.trace[|old(channel.trace)|] == Begun(request)
    ensures approved <==> channel.trace[|channel.trace| - 1] == Returned(true)
    ensures approved ==> ApprovedSince(channel.trace, |old(channel.trace)|)
  {
    ghost var begin := |channel.trace|;
    channel.Begin(request);
    channel.Others();
    var published: bool := *;
    var rounds: nat :| true;
    if !published {
      return false;
    }
    for n := 0 to rounds + 1
      invariant channel.Valid() && channel.pending.Some? && begin < |channel.trace|
      invariant old(channel.trace) + [Begun(request)] <= channel.trace
      invariant forall i :: begin < i < |channel.trace| ==> !channel.trace[i].Begun?
      invariant channel.trace[|channel.trace| - 1] != Returned(true)
    {
      channel.Others();
      ghost var trace := channel.trace;
      var result := channel.Check(n == rounds);
      if result.Some? {
        if result.value {
          assert trace[begin] == Begun(request);
          NoStaleApproval(trace, begin);
          ApprovedStill(trace, begin);
        }
        return result.value;
      }
    }
    return false;
  }

  lemma {:induction false} ApprovedStill(trace: seq<Step>, begin: nat)
    requires begin < |trace| && trace[begin].Begun? && ApprovedSince(trace, begin)
    ensures ApprovedSince(trace + [Returned(true)], begin)
  {
    var i :| begin < i < |trace| && trace[i] == Responded(Response(trace[begin].request, true))
             && LastResponse(trace, i);
    assert (trace + [Returned(true)])[i] == trace[i];
    assert LastResponse(trace + [Returned(true)], i);
  }

  // ---------------------------------------------------------------- the command queue

  datatype Command =
    | SubmitTask(text: string)
    | ApprovalResponse(response: Response)
    | SetApprovalMode
    | Interrupt
    | CloseSession

  datatype SendError = BackendClosed | TurnInProgress

  datatype Worker = Waiting | Running(text: string) | Gone

  function Tasks(commands: seq<Command>): nat {
    if commands == [] then 0 else (if commands[0].SubmitTask? then 1 else 0) + Tasks(commands[1..])
  }

  lemma {:induction false} TasksSnoc(commands: seq<Command>, c: Command)
    ensures Tasks(commands + [c]) == Tasks(commands) + if c.SubmitTask? then 1 else 0
  {
    if commands == [] {
      assert commands + [c] == [c] && [c][1..] == [];
    } else {
      assert (commands + [c])[0] == commands[0] && (commands + [c])[1..] == commands[1..] + [c];
      TasksSnoc(commands[1..], c);
    }
  }

  /** Only tasks and one close are ever queued, and nothing comes behind the close. */
  predicate Accepted(commands: seq<Command>) {
    && (forall i :: 0 <= i < |commands| ==> commands[i].SubmitTask? || commands[i].CloseSession?)
    && (forall i :: 0 <= i < |commands| - 1 ==> !commands[i].CloseSession?)
  }

  predicate EndsInClose(commands: seq<Command>) {
    commands != [] && commands[|commands| - 1].CloseSession?
  }

  lemma {:induction false} AcceptedSnoc(commands: seq<Command>, c: Command)
    requires Accepted(commands) && !EndsInClose(commands) && (c.SubmitTask? || c.CloseSession?)
    ensures Accepted(commands + [c]) && (EndsInClose(commands + [c]) <==> c.CloseSession?)
  {
    var next := commands + [c];
    assert forall i :: 0 <= i < |next| - 1 ==> next[i] == commands[i];
  }

  class AgentBackendService {
    const approval: ApprovalChannel
    var queue: seq<Command>
    var turnInProgress: bool
    var stopped: bool
    var closeCalled: bool
    var worker: Worker
    var cancelled: bool
    /** Every command that was ever queued, and those that the worker has taken. */
    ghost var accepted: seq<Command>
    ghost var taken: seq<Command>

    ghost predicate Valid()
      reads this, approval
    {
      && approval.Valid()
      && accepted == taken + queue && Accepted(accepted)
      && Tasks(queue) + (if worker.Running? then 1 else 0) == (if turnInProgress then 1 else 0)
      && (stopped <==> EndsInClose(accepted))
      && (worker.Gone? <==> EndsInClose(taken))
      && (worker.Running? ==> taken != [] && taken[|taken| - 1] == SubmitTask(worker.text))
      && (closeCalled ==> stopped) && (stopped ==> Closed in approval.trace)
    }

    constructor (approval: ApprovalChannel)
      requires approval.Valid()
      ensures Valid() && this.approval == approval && accepted == [] && taken == [] && !stopped
    {
      this.approval := approval;
      queue, turnInProgress, stopped, closeCalled, worker, cancelled := [], false, false, false, Waiting, false;
      accepted, taken := [], [];
    }

    lemma NotGone()
      requires Valid() && !stopped
      ensures !worker.Gone? && !EndsInClose(accepted) && !EndsInClose(taken)
    {
      if queue == [] {
        assert accepted == taken;
      } else if taken != [] {
        assert !accepted[|taken| - 1].CloseSession?;
      }
    }

    /** _request_stop_locked */
    method RequestStop()
      requires Valid() && !stopped
      modifies this, approval
      ensures Valid() && stopped && worker == old(worker) && taken == old(taken) && closeCalled == old(closeCalled)
      ensures accepted == old(accepted) + [CloseSession] && turnInProgress == old(turnInProgress)
      ensures old(turnInProgress) ==> cancelled
    {
      hide Accepted, EndsInClose, Tasks, approval.Valid;
      NotGone();
      AcceptedSnoc(accepted, CloseSession);
      TasksSnoc(queue, CloseSession);
      stopped := true;
      approval.Close();
      if turnInProgress {
        cancelled := true;
      }
      queue, accepted := queue + [CloseSession], accepted + [CloseSession];
    }

    /** A task is accepted only while none is queued or running, and nothing after a close. */
    method Send(c: Command) returns (r: Result<(), SendError>)
      requires Valid()
      modifies this, approval
      ensures Valid() && worker == old(worker) && taken == old(taken)
      ensures r == Err(BackendClosed) <==> old(stopped)
      ensures r == Err(TurnInProgress) <==> !old(stopped) && c.SubmitTask? && old(turnInProgress)
      ensures accepted == old(accepted) + if r.Ok? && (c.SubmitTask? || c.CloseSession?) then [c] else []
      ensures r.Ok? && c.SubmitTask? ==> turnInProgress && !stopped
    {
      hide Accepted, EndsInClose, Tasks, approval.Valid;
      if stopped {
        return Err(BackendClosed);
      }
      match c {
        case ApprovalResponse(response) => approval.Respond(response);
        case SetApprovalMode =>
        case Interrupt =>
          approval.Interrupt();
          cancelled := true;
        case CloseSession => RequestStop();
        case SubmitTask(_) =>
          if turnInProgress {
            return Err(TurnInProgress);
          }
          Enqueue(c);
      }
      return Ok(());
    }

    method Enqueue(c: Command)
      requires Valid() && !stopped && !turnInProgress && c.SubmitTask?
      modifies `turnInProgress, `queue, `accepted
      ensures Valid() && turnInProgress && accepted == old(accepted) + [c]
    {
      hide Accepted, EndsInClose, Tasks, approval.Valid;
      NotGone();
      AcceptedSnoc(accepted, c);
      TasksSnoc(queue, c);
      turnInProgress := true;
      queue, accepted := queue + [c], accepted + [c];
    }

    /** The first critical section of close. */
    method CloseService()
      requires Valid()
      modifies this, approval
      ensures Valid() && stopped && closeCalled && worker == old(worker) && taken == old(taken)
      ensures accepted == old(accepted) + if old(stopped) then [] else [CloseSession]
    {
      if !stopped {
        RequestStop();
      }
      closeCalled := true;
    }

    /** The worker takes the next command; it leaves its loop on a close. */
    method Take()
      requires Valid() && worker.Waiting? && queue != []
      modifies `queue, `worker, `taken
      ensures Valid() && taken == old(taken) + [old(queue[0])] && accepted == old(accepted)
      ensures worker == match old(queue[0]) case SubmitTask(text) => Running(text) case _ => Gone
    {
      var c := queue[0];
      queue, taken := queue[1..], taken + [c];
      assert accepted == taken + queue;
      assert accepted[|taken| - 1] == c;
      if c.SubmitTask? {
        worker := Running(c.text);
      } else {
        worker := Gone;
        assert queue == [];
      }
    }

    /** The end of run_turn, whatever it raised. */
    method FinishTurn()
      requires Valid() && worker.Running?
      modifies `turnInProgress, `worker
      ensures Valid() && worker == Waiting && !turnInProgress && taken == old(taken) && accepted == old(accepted)
    {
      turnInProgress, worker := false, Waiting;
    }
  }

  /** Single worker: at most one task is queued or running, and exactly while a turn is in progress;
      while one runs none is queued; at most one close is queued, behind any accepted task. */
  lemma {:induction false} SingleWorker(service: AgentBackendService)
    requires service.Valid()
    ensures Tasks(service.queue) + (if service.worker.Running? then 1 else 0) <= 1
    ensures service.turnInProgress <==> service.worker.Running? || Tasks(service.queue) == 1
    ensures service.worker.Gone? ==> service.queue == [] && !service.turnInProgress && service.stopped
    ensures service.queue in {[], [CloseSession]}
            || (service.queue[0].SubmitTask? && !service.worker.Running? && service.queue[1..] in {[], [CloseSession]})
  {
    QueueShape(service.taken, service.queue);
    if service.worker.Gone? {
      assert service.accepted[|service.taken| - 1].CloseSession?;
    }
  }

  lemma {:induction false} QueueShape(taken: seq<Command>, queue: seq<Command>)
    requires Accepted(taken + queue) && Tasks(queue) <= 1
    ensures queue in {[], [CloseSession]} || (queue[0].SubmitTask? && queue[1..] in {[], [CloseSession]})
    ensures Tasks(queue) == 0 ==> queue in {[], [CloseSession]}
  {
    var all := taken + queue;
    assert forall i :: 0 <= i < |queue| ==> queue[i] == all[|taken| + i];
    if |queue| >= 2 {
      assert queue[0].SubmitTask?;
      assert Tasks(queue) == 1 + Tasks(queue[1..]);
      assert queue[1..][0] == queue[1];
      assert queue[1].CloseSession?;
      assert queue[1..] == [CloseSession];
    } else if |queue| == 1 {
      assert queue[1..] == [] && queue == [queue[0]];
    }
  }

  /** Any interleaving of senders, closers, the approval thread and the worker. */
  method Interleave(service: AgentBackendService, steps: nat)
    requires service.Valid()
    modifies service, service.approval
    ensures service.Valid()
    ensures old(service.accepted) <= service.accepted && old(service.taken) <= service.taken <= service.accepted
    ensures old(service.stopped) ==> service.stopped && service.accepted == old(service.accepted)
  {
    for n := 0 to steps
      invariant service.Valid()
      invariant old(service.accepted) <= service.accepted && old(service.taken) <= service.taken
      invariant old(service.stopped) ==> service.stopped && service.accepted == old(service.accepted)
    {
      var choice: nat, c: Command := *, *;
      if choice == 0 {
        var sent := service.Send(c);
      } else if choice == 1 {
        service.CloseService();
      } else if choice == 2 && service.worker.Waiting? && service.queue != [] {
        service.Take();
      } else if choice == 3 && service.worker.Running? {
        service.FinishTurn();
      }
    }
  }
}
