/**
 Which assertions can fail while fibers block in the hooks. With one worker a picked fiber is always ready
 and every reported event is still registered when it is dispatched; with more, neither holds.
 */
module SingleWorker {
  import opened Words
  import opened Tasks
  import opened Blocking
  import opened Paths
  import opened Placement
  import opened Wakeups
  import T = TimerModel
  import E = EventModel
  import R = EventRuns
  import O = Timeouts

  /** The reports that the worker still has to dispatch. */
  function Pending(me: Worker): seq<E.Report> {
    match me
    case Polled(reports) => reports
    case Posting(_, reports) => reports
    case _ => []
  }

  /** The reports are still true, and about different descriptors. */
  ghost predicate Timely(kernel: map<E.Fd, E.Mask>, reports: seq<E.Report>) {
    && (forall i | 0 <= i < |reports| :: E.Reportable(kernel, reports[i]))
    && (forall i, j | 0 <= i < j < |reports| :: reports[i].fd != reports[j].fd)
  }

  ghost predicate Solo(s: State) {
    && |s.workers| == 1
    && (forall f | 0 <= f < |s.fibers| :: Active(s.fibers[f]) <==> s.workers[0] == Runs(f))
    && (s.workers[0].Runs? ==> s.workers[0].fiber < |s.fibers|)
    && Timely(s.events.kernel, Pending(s.workers[0]))
    && s.failed != Some(NotReady) && s.failed != Some(Unregistered)
  }

  lemma DispatchSolo(s: State, ok: bool)
    requires Sane(s) && Solo(s) && CanMove(s, 0, DispatchNext(ok))
    ensures Solo(DoDispatch(s, 0, ok))
  {
    var reports := s.workers[0].reports;
    var r := reports[0];
    E.DispatchSpec(s.events, r, ok);
    assert E.Reportable(s.events.kernel, r) && E.MirrorAt(s.events, r.fd);
    var s1 := DoDispatch(s, 0, ok);
    forall i | 0 <= i < |reports[1..]| ensures E.Reportable(s1.events.kernel, reports[1..][i]) {
      assert E.Reportable(s.events.kernel, reports[i + 1]) && reports[0].fd != reports[i + 1].fd;
      E.DispatchLeavesOthers(s.events, r, ok, reports[i + 1].fd);
    }
  }

  lemma TakeSolo(s: State, k: nat)
    requires O.Balanced(s) && Solo(s) && CanMove(s, 0, Take(k))
    ensures Solo(DoTake(s, 0, k))
  {
    if s.queue[k].FiberTask? {
      var f := s.queue[k].fiber;
      assert s.queue[k] in s.queue;
      assert Balance(s, f) == 0;
    }
  }

  /** The other moves leave a worker with no reports, or with the ones it had. */
  lemma IdleSolo(s: State, move: Move)
    requires Solo(s) && CanMove(s, 0, move)
    requires move.Poll? || move.Collect? || move.Post? || move.DispatchDone? || move.Wake?
    ensures Solo(DoMove(s, 0, move))
  {
  }

  lemma CallSolo(s: State, move: Move)
    requires Solo(s) && CanMove(s, 0, move)
    requires move.Try? || move.GiveUp? || move.Disarm? || move.Check?
    ensures Solo(DoMove(s, 0, move))
  {
  }

  lemma SwitchSolo(s: State, move: Move)
    requires Solo(s) && CanMove(s, 0, move) && (move.Yield? || move.End?)
    ensures Solo(DoMove(s, 0, move))
  {
  }

  lemma StartSolo(s: State, move: Move)
    requires Solo(s) && CanMove(s, 0, move) && (move.Begin? || move.Arm?)
    ensures Solo(DoMove(s, 0, move))
  {
  }

  lemma FireSolo(s: State, ok: bool)
    requires Solo(s) && CanMove(s, 0, Fire(ok))
    ensures Solo(DoFire(s, 0, ok))
  {
  }

  lemma RegisterSolo(s: State, move: Move)
    requires Solo(s) && CanMove(s, 0, move) && (move.Add? || move.Use?)
    ensures Solo(DoMove(s, 0, move))
  {
  }

  lemma StepKeepsSolo(s: State, step: Step)
    requires O.Balanced(s) && Solo(s) && Can(s, step)
    ensures Solo(Do(s, step))
  {
    match step
    case Work(w, move) =>
      if move.Take? {
        TakeSolo(s, move.k);
      } else if move.DispatchNext? {
        DispatchSolo(s, move.ok);
      } else if move.Fire? {
        FireSolo(s, move.ok);
      } else if Eventful(move) {
        RegisterSolo(s, move);
      } else if move.Try? || move.GiveUp? || move.Disarm? || move.Check? {
        CallSolo(s, move);
      } else if move.Begin? || move.Arm? {
        StartSolo(s, move);
      } else if move.Yield? || move.End? {
        SwitchSolo(s, move);
      } else {
        IdleSolo(s, move);
      }
    case _ =>
  }

  lemma {:induction false} RunIsSolo(trace: seq<State>, steps: seq<Step>, k: nat)
    requires IsRun(1, trace, steps) && k < |trace|
    ensures Solo(trace[k])
  {
    if k > 0 {
      RunIsSolo(trace, steps, k - 1);
      O.RunIsOk(1, trace, steps, k - 1);
      StepKeepsSolo(trace[k - 1], steps[k - 1]);
    }
  }

  // ------------------------------------------------- with several workers

  const BOTH := E.Report(5, E.Mask(true, true), false)

  /** Worker 1 polls, finds no timers due, and dispatches the one report it got. */
  lemma PollAndCollect(n: nat, s: State, report: E.Report) returns (s1: State)
    requires From(n, s, 1) && s.workers[1] == Free
    requires s.timers == T.Empty(0) && E.Reportable(s.events.kernel, report)
    ensures Attained(n, s1)
    ensures s1 == s.(workers := s.workers[1 := Posting([], [report])])
  {
    s1 := Polls(n, s, 1, [report]);
    assert T.Emits(s1.timers, s1.now, []);
    s1 := Collects(n, s1, 1, []);
    assert T.CallbacksOf(s.timers, []) == [];
  }

  /** The fiber is about to register itself. */
  lemma AboutToAdd(n: nat) returns (s: State)
    requires n > 1
    ensures From(n, s, 1) && |s.workers| == n
    ensures s.timers == T.Empty(0) && s.queue == [] && s.fibers == [In(0, Adding)] && s.events == E.Start(true)
    ensures s.workers[0] == Runs(0) && s.workers[1] == Free
    ensures |s.calls| == 1 && s.calls[0].fd == 5 && s.calls[0].event == E.READ
  {
    s := FirstFiber(n);
    s := Begins(n, s, 0, Io, 5, E.READ, MAX64);
    s := FindsNothing(n, s, 0);
    s := Arms(n, s, 0, 0);
  }

  /** It has registered itself for reading and has not yet yielded. */
  lemma AboutToYield(n: nat) returns (s: State)
    requires n > 1
    ensures From(n, s, 1) && |s.workers| == n
    ensures s.timers == T.Empty(0) && s.queue == [] && s.fibers == [In(0, Yielding)]
    ensures s.workers[0] == Runs(0) && s.workers[1] == Free && FirstRegistration(s.events)
  {
    s := AboutToAdd(n);
    R.StartInv(true);
    E.AddEventSpec(s.events, 5, E.READ, FiberTask(0), true);
    s := Adds(n, s, 0);
  }

  /** The event is dispatched by another worker, which queues the fiber. */
  lemma QueuesRunningFiber(n: nat) returns (s: State)
    requires n > 1
    ensures From(n, s, 1) && s.queue == [FiberTask(0)] && s.fibers == [In(0, Yielding)] && s.workers[1] == Free
  {
    s := AboutToYield(n);
    HandsOver(s.events);
    s := PollAndCollect(n, s, READABLE);
    s := Paths.Dispatches(n, s, 1);
    s := Rests(n, s, 1);
  }

  /** Another worker can dispatch the event and pick the fiber before it has yielded. */
  lemma PicksRunningFiber(n: nat) returns (s: State)
    requires n > 1
    ensures Reachable(n, s) && s.failed == Some(NotReady)
  {
    s := QueuesRunningFiber(n);
    s := Takes(n, s, 1, 0);
    AttainedReaches(n, s);
  }

  /** A callback of user code is registered. */
  lemma UseAdds(n: nat, s: State, event: E.Event) returns (s1: State)
    requires From(n, s, 0) && InOwn(s, 0) && E.INITIAL_SIZE <= |s.events.contexts|
    requires E.Inv(s.events) && s.events.repaired && !E.Registered(s.events, 5, event)
    ensures Attained(n, s1)
    ensures s1 == s.(events := s1.events, owner := s1.owner) && E.Inv(s1.events) && s1.events.repaired
    ensures forall e :: E.Registered(s1.events, 5, e) <==> e == event || E.Registered(s.events, 5, e)
  {
    var task := CallbackTask(User(0));
    E.AddEventSpec(s.events, 5, event, task, true);
    assert E.Woken(s.events, E.AddEvent(s.events, 5, event, task, true).0) == [];
    s1 := Uses(n, s, 0, R.OpAdd(5, event, task, true));
    assert s1.queue == s.queue;
  }

  /** Callbacks are registered for both events. */
  lemma BothRegistered(n: nat) returns (s: State)
    requires n > 1
    ensures From(n, s, 1) && |s.workers| == n && s.timers == T.Empty(0)
    ensures s.workers[0] == Runs(0) && s.workers[1] == Free && s.fibers == [Own]
    ensures E.Inv(s.events) && s.events.repaired
    ensures E.Registered(s.events, 5, E.READ) && E.Registered(s.events, 5, E.WRITE)
  {
    s := FirstFiber(n);
    R.StartInv(true);
    s := UseAdds(n, s, E.READ);
    s := UseAdds(n, s, E.WRITE);
  }

  /** Worker 1 has been told of both events, and then one of them is cancelled. */
  lemma ReportIsStale(n: nat) returns (s: State)
    requires n > 1
    ensures From(n, s, 1) && s.workers[1] == Posting([], [BOTH])
    ensures E.Inv(s.events) && !E.Registered(s.events, 5, E.READ) && E.Registered(s.events, 5, E.WRITE)
  {
    s := BothRegistered(n);
    assert E.MirrorAt(s.events, 5);
    s := PollAndCollect(n, s, BOTH);
    E.CancelEventSpec(s.events, 5, E.READ, true);
    s := Uses(n, s, 0, R.OpCancel(5, E.READ, true));
  }

  /** A report can be out of date when it is dispatched, if another worker cancels an event meanwhile. */
  lemma DispatchesStaleReport(n: nat) returns (s: State)
    requires n > 1
    ensures Reachable(n, s) && s.failed == Some(Unregistered)
  {
    s := ReportIsStale(n);
    E.DispatchSpec(s.events, BOTH, true);
    s := Paths.Dispatches(n, s, 1);
    AttainedReaches(n, s);
  }

  // ------------------------------------------------------------- theorems

  ghost predicate NeverFails(n: nat, site: Site) {
    forall s | Reachable(n, s) :: s.failed != Some(site)
  }

  /** Assertion freedom. The assertion that a picked fiber is ready, and the assertion that a dispatched
      event is registered, hold in all runs exactly when there is one worker. */
  lemma AssertionsHoldExactly(n: nat)
    requires n > 0
    ensures NeverFails(n, NotReady) <==> n == 1
    ensures NeverFails(n, Unregistered) <==> n == 1
  {
    if n == 1 {
      forall s | Reachable(1, s) ensures s.failed != Some(NotReady) && s.failed != Some(Unregistered) {
        var trace, steps :| IsRun(1, trace, steps) && trace[|trace| - 1] == s;
        RunIsSolo(trace, steps, |trace| - 1);
      }
    } else {
      var s := PicksRunningFiber(n);
      var s' := DispatchesStaleReport(n);
    }
  }

  /** The remaining assertion fails, with any number of workers, exactly when a hook starts to wait for an
      event that somebody already waits for. */
  lemma OccupiedExactly(n: nat, s: State, w: nat, ok: bool)
    requires Reachable(n, s) && s.failed.None? && w < |s.workers| && CanMove(s, w, Add(ok))
    ensures var call := s.calls[Current(s, w, Adding)];
            DoMove(s, w, Add(ok)).failed == Some(Occupied) <==> ok && E.Registered(s.events, call.fd, call.event)
  {
    O.ReachableIsOk(n, s);
    var call := s.calls[Current(s, w, Adding)];
    E.AddEventSpec(s.events, call.fd, call.event, FiberTask(s.workers[w].fiber), ok);
  }
}
