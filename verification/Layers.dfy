/**
 The layers compose. In module Blocking, where everything happens at once, the timers go through a run of TimerModel and
 the registry through a careful run of EventRuns, so that what holds of those holds here; and what passes from one layer
 to the next - tasks and reports - is neither lost nor made up on the way.
 */
module Layers {
  import opened Words
  import opened Tasks
  import opened Blocking
  import opened Wakeups
  import E = EventModel
  import R = EventRuns
  import T = TimerModel

  // ---------------------------------------------------------------- timers

  /** The operation that a step performs on the timers, if any. */
  ghost function TimerOp(s: State, step: Step): Option<T.Op>
    requires Can(s, step)
  {
    match step
    case Timer(op) => Some(op)
    case Work(w, Collect(_)) => Some(T.OpCollect(s.now))
    case Work(w, Arm(i)) =>
      var f, call := s.workers[w].fiber, s.calls[Current(s, w, Arming)];
      if call.kind == Nap then Some(T.OpAdd(i, call.to, Some(WakeFiber(f)), false, s.now))
      else if call.to == MAX64 then None
      else Some(T.OpAdd(i, call.to, Some(Timeout(Current(s, w, Arming))), false, s.now))
    case Work(w, GiveUp) => CancelOf(s.calls[Current(s, w, Refused)])
    case Work(w, Disarm) => CancelOf(s.calls[Current(s, w, Woken)])
    case _ => None
  }

  function CancelOf(call: Call): Option<T.Op> {
    if call.kind != Nap && call.timer.Some? then Some(T.OpCancel(call.timer.value)) else None
  }

  ghost predicate Follows(t: T.Timers, op: Option<T.Op>, t1: T.Timers) {
    match op
    case None => t1 == t
    case Some(o) => T.Enabled(t, o) && t1 == T.Apply(t, o)
  }

  lemma StopFollows(s: State, w: nat, at: Point)
    requires Sane(s) && At(s, w, at) && s.calls[Current(s, w, at)].kind != Nap
    ensures var call := s.calls[Current(s, w, at)];
            Follows(s.timers, CancelOf(call), Stopped(s.timers, call.timer))
  {
    assert TimerOf(s, Current(s, w, at));
  }

  /** Every step does to the timers exactly what its operation does. */
  lemma TimersFollow(s: State, step: Step)
    requires Sane(s) && Can(s, step)
    ensures Follows(s.timers, TimerOp(s, step), Do(s, step).timers)
  {
    match step
    case Work(w, move) =>
      if move.GiveUp? {
        assert Inside(s, s.workers[w].fiber);
        StopFollows(s, w, Refused);
      } else if move.Disarm? && s.calls[Current(s, w, Woken)].kind != Nap {
        StopFollows(s, w, Woken);
      }
    case _ =>
  }

  /** The timers of a run of the whole system are those of a run of TimerModel. */
  lemma {:induction false} TimersAreRun(n: nat, trace: seq<State>, steps: seq<Step>, k: nat)
    returns (timers: seq<T.Timers>, ops: seq<T.Op>)
    requires IsRun(n, trace, steps) && k < |trace|
    ensures T.IsRun(timers, ops) && timers[0] == T.Empty(trace[0].now) && timers[|ops|] == trace[k].timers
  {
    if k == 0 {
      timers, ops := [trace[0].timers], [];
    } else {
      timers, ops := TimersAreRun(n, trace, steps, k - 1);
      RunIsSane(n, trace, steps, k - 1, 0);
      TimersFollow(trace[k - 1], steps[k - 1]);
      var op := TimerOp(trace[k - 1], steps[k - 1]);
      if op.Some? {
        timers, ops := timers + [trace[k].timers], ops + [op.value];
      }
    }
  }

  // ---------------------------------------------------------------- events

  /** The operation that a step performs on the registry, if any. */
  ghost function EventOp(s: State, step: Step): Option<R.Op>
    requires Can(s, step)
  {
    match step
    case Work(w, Add(ok)) =>
      var call := s.calls[Current(s, w, Adding)];
      Some(R.OpAdd(call.fd, call.event, FiberTask(s.workers[w].fiber), ok))
    case Work(w, DispatchNext(ok)) => Some(R.OpDispatch(s.workers[w].reports[0], ok))
    case Work(w, Fire(ok)) =>
      var call := s.calls[s.workers[w].call];
      if s.workers[w].stage > 1 then Some(R.OpCancel(call.fd, call.event, ok)) else None
    case Work(_, Use(op)) => Some(op)
    case _ => None
  }

  /** A failed assertion ends the program and leaves the registry as it was. */
  ghost predicate EventsFollow(r: E.Registry, op: Option<R.Op>, s1: State) {
    match op
    case None => s1.events == r
    case Some(o) =>
      && R.Enabled(r, o) && R.Careful(r, o)
      && (if R.Apply(r, o).1 == E.Aborted then s1.failed.Some? && s1.events == r else s1.events == R.Apply(r, o).0)
  }

  lemma AddFollows(s: State, w: nat, ok: bool)
    requires Sane(s) && Can(s, Work(w, Add(ok)))
    ensures EventsFollow(s.events, EventOp(s, Work(w, Add(ok))), DoAdd(s, w, ok))
  {
    assert Inside(s, s.workers[w].fiber);
  }

  lemma FireFollows(s: State, w: nat, ok: bool)
    requires Sane(s) && Can(s, Work(w, Fire(ok)))
    ensures EventsFollow(s.events, EventOp(s, Work(w, Fire(ok))), DoFire(s, w, ok))
  {
    var call := s.calls[s.workers[w].call];
    E.CancelEventSpec(s.events, call.fd, call.event, ok);
  }

  lemma OtherFollows(s: State, w: nat, move: Move)
    requires Sane(s) && Can(s, Work(w, move)) && !move.Add? && !move.Fire?
    ensures EventsFollow(s.events, EventOp(s, Work(w, move)), DoMove(s, w, move))
  {
  }

  /** Every step does to the registry exactly what its operation does. */
  lemma StepFollows(s: State, step: Step)
    requires Sane(s) && Can(s, step)
    ensures EventsFollow(s.events, EventOp(s, step), Do(s, step))
  {
    if step.Work? {
      if step.move.Add? {
        AddFollows(s, step.w, step.move.ok);
      } else if step.move.Fire? {
        FireFollows(s, step.w, step.move.ok);
      } else {
        OtherFollows(s, step.w, step.move);
      }
    }
  }

  /** The registry of a run of the whole system is that of a careful run of EventRuns. */
  lemma {:induction false} EventsAreRun(n: nat, trace: seq<State>, steps: seq<Step>, k: nat)
    returns (events: seq<E.Registry>, ops: seq<R.Op>)
    requires IsRun(n, trace, steps) && k < |trace|
    ensures R.CarefulRun(events, ops) && events[0] == E.Start(true) && events[|ops|] == trace[k].events
  {
    if k == 0 {
      events, ops := [trace[0].events], [];
    } else {
      events, ops := EventsAreRun(n, trace, steps, k - 1);
      RunIsSane(n, trace, steps, k - 1, 0);
      StepFollows(trace[k - 1], steps[k - 1]);
      var op := EventOp(trace[k - 1], steps[k - 1]);
      if op.Some? && R.Apply(trace[k - 1].events, op.value).1 != E.Aborted {
        events, ops := R.RunMore(events, ops, op.value);
      }
    }
  }

  // ---------------------------------------------------------------- reports

  /** The reports that worker `w` gets from epoll_wait in a step. */
  function GotBy(step: Step, w: nat): seq<E.Report> {
    match step
    case Work(v, Poll(reports)) => if v == w then reports else []
    case _ => []
  }

  /** The reports that worker `w` dispatches in a step. */
  ghost function DispatchedBy(s: State, step: Step, w: nat): seq<E.Report>
    requires Can(s, step)
  {
    match EventOp(s, step)
    case Some(OpDispatch(r, _)) => if step.Work? && step.w == w && Do(s, step).failed.None? then [r] else []
    case _ => []
  }

  ghost function Got(n: nat, trace: seq<State>, steps: seq<Step>, w: nat, k: nat): seq<E.Report>
    requires IsRun(n, trace, steps) && k < |trace|
  {
    if k == 0 then [] else Got(n, trace, steps, w, k - 1) + GotBy(steps[k - 1], w)
  }

  ghost function Dispatched(n: nat, trace: seq<State>, steps: seq<Step>, w: nat, k: nat): seq<E.Report>
    requires IsRun(n, trace, steps) && k < |trace|
  {
    if k == 0 then [] else Dispatched(n, trace, steps, w, k - 1) + DispatchedBy(trace[k - 1], steps[k - 1], w)
  }

  function Undispatched(me: Worker): seq<E.Report> {
    match me
    case Polled(reports) => reports
    case Posting(_, reports) => reports
    case _ => []
  }

  lemma OthersStay(s: State, w: nat, move: Move)
    requires w < |s.workers| && CanMove(s, w, move)
    ensures |DoMove(s, w, move).workers| == |s.workers|
    ensures forall v | 0 <= v < |s.workers| && v != w :: DoMove(s, w, move).workers[v] == s.workers[v]
  {
  }

  lemma DispatchKeepsReports(s: State, w: nat, ok: bool)
    requires Can(s, Work(w, DispatchNext(ok)))
    ensures w < |DoDispatch(s, w, ok).workers|
    ensures var me, me1 := s.workers[w], DoDispatch(s, w, ok).workers[w];
            if DoDispatch(s, w, ok).failed.Some? then me1 == me
            else Undispatched(me) == [me.reports[0]] + Undispatched(me1)
  {
  }

  lemma MoveKeepsReports(s: State, w: nat, move: Move)
    requires Can(s, Work(w, move)) && w < |DoMove(s, w, move).workers|
    ensures var me, me1 := s.workers[w], DoMove(s, w, move).workers[w];
            match move
            case Poll(reports) => Undispatched(me) == [] && Undispatched(me1) == reports
            case DispatchNext(ok) =>
              if DoMove(s, w, move).failed.Some? then me1 == me
              else Undispatched(me) == [me.reports[0]] + Undispatched(me1)
            case _ => Undispatched(me1) == Undispatched(me)
  {
    if move.DispatchNext? {
      DispatchKeepsReports(s, w, move.ok);
    }
  }

  lemma StepKeepsReports(s: State, step: Step, w: nat)
    requires Can(s, step) && w < |s.workers|
    ensures |Do(s, step).workers| == |s.workers|
    ensures Undispatched(s.workers[w]) + GotBy(step, w)
         == DispatchedBy(s, step, w) + Undispatched(Do(s, step).workers[w])
  {
    match step
    case Work(v, move) =>
      OthersStay(s, v, move);
      if v == w {
        MoveKeepsReports(s, v, move);
      }
    case _ =>
  }

  ghost predicate Settled(n: nat, trace: seq<State>, steps: seq<Step>, w: nat, k: nat)
    requires IsRun(n, trace, steps) && k < |trace|
  {
    && w < |trace[k].workers|
    && Got(n, trace, steps, w, k) == Dispatched(n, trace, steps, w, k) + Undispatched(trace[k].workers[w])
  }

  lemma StepSettles(n: nat, trace: seq<State>, steps: seq<Step>, w: nat, k: nat)
    requires IsRun(n, trace, steps) && 0 < k < |trace| && Settled(n, trace, steps, w, k - 1)
    ensures Settled(n, trace, steps, w, k)
  {
    var s, step, s1 := trace[k - 1], steps[k - 1], trace[k];
    StepKeepsReports(s, step, w);
    assert s1 == Do(s, step);
    R.Joined(Got(n, trace, steps, w, k - 1), Dispatched(n, trace, steps, w, k - 1), Undispatched(s.workers[w]),
           GotBy(step, w), DispatchedBy(s, step, w), Undispatched(s1.workers[w]));
  }

  /** Every report is dispatched: in every run, what a worker got from epoll_wait is, in that order, what it has
      dispatched and what it is going to; so when it is free, all of it has been. */
  lemma {:induction false} ReportsAreDispatched(n: nat, trace: seq<State>, steps: seq<Step>, w: nat, k: nat)
    requires IsRun(n, trace, steps) && k < |trace| && w < n
    ensures Settled(n, trace, steps, w, k)
    ensures trace[k].workers[w] == Free ==> Got(n, trace, steps, w, k) == Dispatched(n, trace, steps, w, k)
  {
    if k > 0 {
      ReportsAreDispatched(n, trace, steps, w, k - 1);
      StepSettles(n, trace, steps, w, k);
    }
    var done := Dispatched(n, trace, steps, w, k);
    assert done + [] == done;
  }
}
