/**
 The scheduler as a whole does to the timers and to the registry what single operations do: its timers go through a run
 of TimerModel, its registry in a careful run through a careful run of EventRuns; and every report that epoll_wait makes
 is dispatched.
 */
module Composition {
  import opened Tasks
  import opened Workers
  import E = EventModel
  import Q = Quiescence
  import R = EventRuns
  import T = TimerModel

  function TimerOp(step: Step): Option<T.Op> {
    match step
    case Outside(TimerAct(op)) => Some(op)
    case Work(_, TaskStep(TimerAct(op))) => Some(op)
    case Work(_, Wake(now, _, _)) => Some(T.OpCollect(now))
    case _ => None
  }

  ghost function EventOp(s: State, step: Step): Option<R.Op>
    requires Can(s, step)
  {
    match step
    case Outside(EventAct(op)) => Some(op)
    case Work(_, TaskStep(EventAct(op))) => Some(op)
    case Work(w, DispatchNext(ok)) => Some(R.OpDispatch(s.workers[w].pc.reports[0], ok))
    case _ => None
  }

  ghost predicate Follows(s: State, s1: State, top: Option<T.Op>, eop: Option<R.Op>) {
    && (match top
        case None => s1.timers == s.timers
        case Some(op) => T.Enabled(s.timers, op) && s1.timers == T.Apply(s.timers, op))
    && (match eop
        case None => s1.events == s.events
        case Some(op) =>
          R.Enabled(s.events, op) && R.Apply(s.events, op).1 != E.Aborted && s1.events == R.Apply(s.events, op).0)
  }

  lemma ActFollows(s: State, a: Act)
    requires CanAct(s, a)
    ensures Follows(s, Perform(s, a), if a.TimerAct? then Some(a.top) else None,
                    if a.EventAct? then Some(a.eop) else None)
  {
    if a.EventAct? {
      var r := R.Apply(s.events, a.eop).0;
      PushAllFrame(s.(events := r), E.Woken(s.events, r));
    }
  }

  lemma DispatchFollows(c: Config, s: State, w: nat, ok: bool)
    requires Q.SaneEvents(s.events) && w < |s.workers| && CanMove(s, w, DispatchNext(ok))
    ensures Follows(s, DoMove(c, s, w, DispatchNext(ok)), None, Some(R.OpDispatch(s.workers[w].pc.reports[0], ok)))
  {
    var reports := s.workers[w].pc.reports;
    var r := E.Dispatch(s.events, reports[0], ok).0;
    PushAllFrame(SetPc(s, w, Dispatching(reports[1..])).(events := r), E.Woken(s.events, r));
  }

  /** Every step does to timers and registry exactly what its operations do. */
  lemma StepFollows(c: Config, s: State, step: Step)
    requires Q.SaneEvents(s.events) && Can(s, step)
    ensures Follows(s, Do(c, s, step), TimerOp(step), EventOp(s, step))
  {
    match step
    case Outside(a) => ActFollows(s, a);
    case Work(w, move) =>
      match move {
        case TaskStep(a) => ActFollows(s, a);
        case DispatchNext(ok) => DispatchFollows(c, s, w, ok);
        case _ =>
      }
    case _ =>
  }

  /** The timers of a careful run of the scheduler are those of a run of TimerModel. */
  lemma {:induction false} TimersAreRun(c: Config, trace: seq<State>, steps: seq<Step>, k: nat)
    returns (timers: seq<T.Timers>, ops: seq<T.Op>)
    requires CarefulRun(c, trace, steps) && k < |trace|
    ensures T.IsRun(timers, ops) && timers[0] == trace[0].timers && timers[|ops|] == trace[k].timers
  {
    timers, ops := [trace[0].timers], [];
    if k > 0 {
      timers, ops := TimersAreRun(c, trace, steps, k - 1);
      Q.RunKeepsEvents(c, trace, steps, k - 1);
      StepFollows(c, trace[k - 1], steps[k - 1]);
      if TimerOp(steps[k - 1]).Some? {
        timers, ops := timers + [trace[k].timers], ops + [TimerOp(steps[k - 1]).value];
      }
    }
  }

  /** The registry of a careful run of the scheduler is that of a careful run of EventRuns. */
  lemma {:induction false} EventsAreRun(c: Config, trace: seq<State>, steps: seq<Step>, k: nat)
    returns (events: seq<E.Registry>, ops: seq<R.Op>)
    requires CarefulRun(c, trace, steps) && k < |trace|
    ensures R.CarefulRun(events, ops) && events[0] == E.Start(true) && events[|ops|] == trace[k].events
  {
    events, ops := [trace[0].events], [];
    if k > 0 {
      events, ops := EventsAreRun(c, trace, steps, k - 1);
      Q.RunKeepsEvents(c, trace, steps, k - 1);
      StepFollows(c, trace[k - 1], steps[k - 1]);
      assert Careful(trace[k - 1], steps[k - 1]);
      var op := EventOp(trace[k - 1], steps[k - 1]);
      if op.Some? {
        events, ops := R.RunMore(events, ops, op.value);
      }
    }
  }

  // ---------------------------------------------------------------- reports

  /** The reports that worker `w` gets from epoll_wait in a step. */
  function GotBy(step: Step, w: nat): seq<E.Report> {
    match step
    case Work(v, Wake(_, _, reports)) => if v == w then reports else []
    case _ => []
  }

  /** The reports that worker `w` dispatches in a step. */
  ghost function DispatchedBy(s: State, step: Step, w: nat): seq<E.Report>
    requires Can(s, step)
  {
    match EventOp(s, step)
    case Some(OpDispatch(r, _)) => if step.Work? && step.w == w then [r] else []
    case _ => []
  }

  ghost function Received(c: Config, trace: seq<State>, steps: seq<Step>, w: nat, k: nat): seq<E.Report>
    requires IsRun(c, trace, steps) && k < |trace|
  {
    if k == 0 then [] else Received(c, trace, steps, w, k - 1) + GotBy(steps[k - 1], w)
  }

  ghost function Dispatched(c: Config, trace: seq<State>, steps: seq<Step>, w: nat, k: nat): seq<E.Report>
    requires IsRun(c, trace, steps) && k < |trace|
  {
    if k == 0 then [] else Dispatched(c, trace, steps, w, k - 1) + DispatchedBy(trace[k - 1], steps[k - 1], w)
  }

  function Undispatched(me: Worker): seq<E.Report> {
    match me.pc
    case Post(_, reports) => reports
    case Dispatching(reports) => reports
    case _ => []
  }

  lemma MoveKeepsReports(c: Config, s: State, w: nat, move: Move)
    requires w < |s.workers| && CanMove(s, w, move)
    ensures |DoMove(c, s, w, move).workers| == |s.workers|
    ensures var me, me1 := s.workers[w], DoMove(c, s, w, move).workers[w];
            match move
            case Wake(_, _, reports) => Undispatched(me) == [] && Undispatched(me1) == reports
            case DispatchNext(_) => Undispatched(me) == [me.pc.reports[0]] + Undispatched(me1)
            case _ => Undispatched(me1) == Undispatched(me)
  {
    MoveFrame(c, s, w, move);
    if move.DispatchNext? {
      var reports := s.workers[w].pc.reports;
      var r := E.Dispatch(s.events, reports[0], move.ok).0;
      PushAllFrame(SetPc(s, w, Dispatching(reports[1..])).(events := r), E.Woken(s.events, r));
    }
  }

  lemma StepKeepsReports(c: Config, s: State, step: Step, w: nat)
    requires Can(s, step) && w < |s.workers|
    ensures |Do(c, s, step).workers| == |s.workers|
    ensures Undispatched(s.workers[w]) + GotBy(step, w)
         == DispatchedBy(s, step, w) + Undispatched(Do(c, s, step).workers[w])
  {
    match step
    case Outside(a) => PerformFrame(s, a);
    case Work(v, move) =>
      MoveFrame(c, s, v, move);
      if v == w {
        MoveKeepsReports(c, s, v, move);
      }
    case _ =>
  }

  ghost predicate Settled(c: Config, trace: seq<State>, steps: seq<Step>, w: nat, k: nat)
    requires IsRun(c, trace, steps) && k < |trace|
  {
    && w < |trace[k].workers|
    && Received(c, trace, steps, w, k) == Dispatched(c, trace, steps, w, k) + Undispatched(trace[k].workers[w])
  }

  lemma StepSettles(c: Config, trace: seq<State>, steps: seq<Step>, w: nat, k: nat)
    requires IsRun(c, trace, steps) && 0 < k < |trace| && Settled(c, trace, steps, w, k - 1)
    ensures Settled(c, trace, steps, w, k)
  {
    var s, step, s1 := trace[k - 1], steps[k - 1], trace[k];
    StepKeepsReports(c, s, step, w);
    assert s1 == Do(c, s, step);
    R.Joined(Received(c, trace, steps, w, k - 1), Dispatched(c, trace, steps, w, k - 1), Undispatched(s.workers[w]),
           GotBy(step, w), DispatchedBy(s, step, w), Undispatched(s1.workers[w]));
  }

  /** Every report is dispatched: in every run, what a worker got from epoll_wait is, in that order, what it has
      dispatched and what it is going to; so when it leaves the idle function, all of it has been. */
  lemma {:induction false} ReportsAreDispatched(c: Config, trace: seq<State>, steps: seq<Step>, w: nat, k: nat)
    requires IsRun(c, trace, steps) && k < |trace| && w < c.threads
    ensures Settled(c, trace, steps, w, k)
    ensures trace[k].workers[w].pc == Leaving ==> Received(c, trace, steps, w, k) == Dispatched(c, trace, steps, w, k)
  {
    if k > 0 {
      ReportsAreDispatched(c, trace, steps, w, k - 1);
      StepSettles(c, trace, steps, w, k);
    }
    var done := Dispatched(c, trace, steps, w, k);
    assert done + [] == done;
  }
}
