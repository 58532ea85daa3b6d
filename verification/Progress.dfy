/**
 Nobody gets stuck. A worker that has not left can always go on by itself, and a task that is queued can be taken by
 any worker that is free.
 */
module Progress {
  import opened Tasks
  import opened Blocking
  import opened Wakeups
  import M = Timeouts
  import P = Placement
  import T = TimerModel

  // -------------------------------------------------------- callbacks are there

  /** The callbacks that a worker has collected are not empty. */
  predicate Loaded(me: Worker) {
    me.Posting? ==> forall k | 0 <= k < |me.cbs| :: me.cbs[k].Some?
  }

  ghost predicate AllLoaded(s: State) {
    forall w | 0 <= w < |s.workers| :: Loaded(s.workers[w])
  }

  lemma CollectLoads(s: State, w: nat, ids: seq<T.TimerId>)
    requires SaneTimers(s.timers, s.now) && AllLoaded(s) && w < |s.workers| && CanMove(s, w, Collect(ids))
    ensures AllLoaded(DoMove(s, w, Collect(ids)))
  {
    forall k | 0 <= k < |ids| ensures T.CallbacksOf(s.timers, ids)[k].Some? {
      assert ids[k] in ids && OneWake(s.timers.all[ids[k]]);
      assert T.TimerInv(s.timers.all[ids[k]], true);
    }
  }

  lemma MoveLoads(s: State, w: nat, move: Move)
    requires AllLoaded(s) && w < |s.workers| && CanMove(s, w, move) && !move.Collect?
    ensures AllLoaded(DoMove(s, w, move))
  {
    assert Loaded(s.workers[w]);
  }

  lemma StepLoads(s: State, step: Step)
    requires Sane(s) && AllLoaded(s) && Can(s, step)
    ensures AllLoaded(Do(s, step)) && |Do(s, step).workers| == |s.workers|
  {
    match step
    case Work(w, move) =>
      WorkersStay(s, w, move);
      if move.Collect? {
        CollectLoads(s, w, move.ids);
      } else {
        MoveLoads(s, w, move);
      }
    case _ =>
  }

  lemma WorkersStay(s: State, w: nat, move: Move)
    requires w < |s.workers| && CanMove(s, w, move)
    ensures |DoMove(s, w, move).workers| == |s.workers|
  {
  }

  lemma {:induction false} RunIsLoaded(n: nat, trace: seq<State>, steps: seq<Step>, k: nat)
    requires IsRun(n, trace, steps) && k < |trace|
    ensures AllLoaded(trace[k]) && |trace[k].workers| == n
  {
    if k > 0 {
      RunIsLoaded(n, trace, steps, k - 1);
      RunIsSane(n, trace, steps, k - 1, 0);
      StepLoads(trace[k - 1], steps[k - 1]);
    }
  }

  // --------------------------------------------------------------- going on

  lemma FiberGoesOn(s: State, w: nat) returns (move: Move)
    requires Sane(s) && P.Placed(s) && w < |s.workers| && s.workers[w].Runs?
    ensures CanMove(s, w, move)
  {
    var f := s.workers[w].fiber;
    assert P.Sound(s, w) && Inside(s, f);
    match s.fibers[f]
    case Own => move := End;
    case In(c, at) =>
      match at {
        case Trying => move := Try(true);
        case Arming =>
          var i := FreshTimer(s.timers.all.Keys);
          move := Arm(i);
        case Adding => move := Add(true);
        case Refused => move := GiveUp;
        case Yielding => move := Move.Yield;
        case Woken => move := Disarm;
        case Checking => move := Check;
      }
  }

  lemma {:induction false} FreshTimer(ids: set<T.TimerId>) returns (i: T.TimerId)
    ensures i !in ids && forall j | j in ids :: j < i
    decreases |ids|
  {
    i := 0;
    if ids != {} {
      var k :| k in ids;
      var rest := ids - {k};
      i := FreshTimer(rest);
      assert forall j | j in ids :: j == k || j in rest;
      if i <= k {
        i := k + 1;
      }
    }
  }

  lemma IdleGoesOn(s: State, w: nat) returns (move: Move)
    requires M.Balanced(s) && M.Ok(s) && AllLoaded(s) && w < |s.workers| && !s.workers[w].Runs?
    ensures CanMove(s, w, move)
  {
    match s.workers[w]
    case Free => move := Poll([]);
    case Polled(_) =>
      var ids := T.EmissionExists(s.timers, T.Due(s.timers, s.now));
      move := Collect(ids);
    case Posting(cbs, reports) =>
      assert Loaded(s.workers[w]);
      if cbs != [] {
        move := Post;
      } else if reports != [] {
        move := DispatchNext(true);
      } else {
        move := DispatchDone;
      }
    case Fires(c, _) =>
      assert M.CarriesFired(s.timers, s.workers[w]);
      var i :| i in s.timers.all && s.timers.all[i].given == Some(Timeout(c)) && s.timers.all[i].fires > 0;
      assert M.Made(s, i);
      move := Fire(true);
    case Wakes(_) => move := Wake;
  }

  /** Freedom from deadlock: in every run, until an assertion fails, every worker can move, whatever it is in the
      middle of and whatever the others have done. */
  lemma EveryWorkerCanMove(n: nat, s: State, w: nat)
    requires Reachable(n, s) && s.failed.None? && w < n
    ensures w < |s.workers|
    ensures exists move :: CanMove(s, w, move) && Can(s, Work(w, move))
  {
    var trace, steps :| IsRun(n, trace, steps) && trace[|trace| - 1] == s;
    RunIsLoaded(n, trace, steps, |trace| - 1);
    P.RunIsPlaced(n, trace, steps, |trace| - 1);
    M.ReachableIsOk(n, s);
    var move;
    if s.workers[w].Runs? {
      move := FiberGoesOn(s, w);
    } else {
      move := IdleGoesOn(s, w);
    }
    assert CanMove(s, w, move) && Can(s, Work(w, move));
  }

  // ------------------------------------------------------------ being executed

  /** The task is now executed by worker `w`: a fiber goes on where it was, a user callback gets a fiber of its own,
      the callback of a timer runs. */
  ghost predicate Executes(s: State, s1: State, w: nat, task: Task) {
    && |s.workers| == |s1.workers| && w < |s1.workers|
    && match task
       case FiberTask(f) =>
         && s1.workers[w] == Runs(f) && f < |s.fibers| == |s1.fibers|
         && s1.fibers[f] == if s.fibers[f].In? then In(s.fibers[f].call, Woken) else Own
       case CallbackTask(cb) =>
         match cb
         case User(_) => s1.workers[w] == Runs(|s.fibers|) && s1.fibers == s.fibers + [Own]
         case Timeout(c) => s1.workers[w] == Fires(c, 0)
         case WakeFiber(f) => s1.workers[w] == Wakes(f)
  }

  lemma QueuedIsSuspended(s: State, k: nat)
    requires M.Balanced(s) && k < |s.queue| && s.queue[k].FiberTask?
    ensures Suspended(s, s.queue[k].fiber)
  {
    var f := s.queue[k].fiber;
    assert s.queue[k] in multiset(s.queue);
    assert Balance(s, f) == 0;
  }

  /** The fiber has been scheduled between registering its event and yielding. */
  predicate HandedOverTooEarly(s: State, task: Task) {
    && task.FiberTask? && task.fiber < |s.fibers|
    && s.fibers[task.fiber].In? && s.fibers[task.fiber].at == Yielding
  }

  /** A free worker can take any queued task. It executes the task, except that it fails an assertion exactly if the
      task is a fiber that has been handed over but has not yielded yet. */
  lemma QueuedIsExecuted(n: nat, s: State, w: nat, k: nat)
    requires Reachable(n, s) && s.failed.None? && w < |s.workers| && s.workers[w] == Free && k < |s.queue|
    ensures Can(s, Work(w, Take(k)))
    ensures var s1 := Do(s, Work(w, Take(k)));
            && (s1.failed.Some? <==> HandedOverTooEarly(s, s.queue[k]))
            && (s1.failed.None? ==> s1.queue == s.queue[..k] + s.queue[k + 1..] && Executes(s, s1, w, s.queue[k]))
  {
    M.ReachableIsOk(n, s);
    if s.queue[k].FiberTask? {
      QueuedIsSuspended(s, k);
    }
  }
}
