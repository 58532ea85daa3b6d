/**
 Drain on stop: when stop returns, all workers have left run. Is the queue then empty of tasks that any
 worker could have run?
 */
module Drain {
  import opened Tasks
  import opened TaskQueue
  import opened Workers
  import E = EventModel
  import T = TimerModel

  predicate AllExited(s: State) {
    forall w | 0 <= w < |s.workers| :: s.workers[w].pc == Exited
  }

  predicate NoUnpinned(q: seq<Entry>) {
    forall k | 0 <= k < |q| :: q[k].pin.Some?
  }

  /** The worker will look at the queue again before it can leave run. */
  predicate WillScan(w: Worker) {
    !(w.pc == Exited || (w.pc == Missed && w.idle == Term))
  }

  ghost predicate SomeoneWillScan(s: State) {
    exists w :: 0 <= w < |s.workers| && WillScan(s.workers[w])
  }

  /** Stop has returned and nothing that some worker could have run is left. */
  ghost predicate Drains(c: Config) {
    forall s | Reachable(c, s) && s.stopping && AllExited(s) :: NoUnpinned(s.queue)
  }

  /** IOManager's idle fiber does not end before stop. */
  ghost predicate IoInv(c: Config, w: Worker, stopping: bool) {
    && w.pc != BaseIdle && w.pc != Exited
    && (w.pc.Check? ==> w.pc.stage <= 2 && (c.order == QueueFirst && w.pc.stage > 0 ==> stopping))
    && w.idle != Term
  }

  ghost predicate Inv(c: Config, s: State) {
    && |s.workers| == c.threads
    && (NoUnpinned(s.queue) || SomeoneWillScan(s))
    && (c.useCaller && !s.stopping ==> 0 < |s.workers| && s.workers[0].pc == Unstarted)
    && (c.io && !s.stopping ==> forall w | 0 <= w < |s.workers| :: IoInv(c, s.workers[w], false))
    && (c.io ==> forall w | 0 <= w < |s.workers| :: s.workers[w].pc != BaseIdle)
    && (c.io ==> forall w | 0 <= w < |s.workers| && s.workers[w].pc.Check? :: s.workers[w].pc.stage <= 2)
  }

  lemma MoveKeepsSomeone(c: Config, s: State, w: nat, move: Move)
    requires w < |s.workers| && CanMove(s, w, move)
    requires NoUnpinned(s.queue) || SomeoneWillScan(s)
    ensures var s1 := DoMove(c, s, w, move); NoUnpinned(s1.queue) || SomeoneWillScan(s1)
  {
    var s1 := DoMove(c, s, w, move);
    MoveFrame(c, s, w, move);
    if move.Miss? {
      assert NoUnpinned(s1.queue);
    } else if move.Leave? {
      if v :| 0 <= v < |s.workers| && WillScan(s.workers[v]) {
        assert WillScan(s1.workers[v]);
      }
    } else {
      assert WillScan(s1.workers[w]);
    }
  }

  lemma StepKeepsInv(c: Config, s: State, step: Step)
    requires 0 < c.threads && (c.useCaller || c.io) && Can(s, step) && Inv(c, s)
    ensures Inv(c, Do(c, s, step))
  {
    match step
    case Outside(a) =>
      PerformFrame(s, a);
      assert WillScan(Do(c, s, step).workers[0]);
    case Stop =>
      assert SomeoneWillScan(s) ==> SomeoneWillScan(Do(c, s, step));
    case Enter =>
      assert WillScan(Do(c, s, step).workers[0]);
    case Work(w, move) =>
      MoveFrame(c, s, w, move);
      MoveKeepsSomeone(c, s, w, move);
      WorkerKeeps(c, s, w, move);
  }

  /** What one worker's step does to itself. */
  lemma WorkerKeeps(c: Config, s: State, w: nat, move: Move)
    requires w < |s.workers| && CanMove(s, w, move)
    ensures w < |DoMove(c, s, w, move).workers|
    ensures var me, me1 := s.workers[w], DoMove(c, s, w, move).workers[w];
            && me.pc != Unstarted
            && (c.io && me.pc != BaseIdle ==> me1.pc != BaseIdle)
            && ((me.pc.Check? ==> me.pc.stage <= 2) ==> (me1.pc.Check? ==> me1.pc.stage <= 2))
            && (c.io && !s.stopping && IoInv(c, me, false) ==> IoInv(c, me1, false))
  {
    if move.TaskStep? {
      PerformFrame(s, move.act);
    }
    if move.DispatchNext? {
      var reports := s.workers[w].pc.reports;
      var r := E.Dispatch(s.events, reports[0], move.ok).0;
      PushAllFrame(SetPc(s, w, Dispatching(reports[1..])).(events := r), E.Woken(s.events, r));
    }
  }

  lemma {:induction false} RunKeepsInv(c: Config, trace: seq<State>, steps: seq<Step>, k: nat)
    requires 0 < c.threads && (c.useCaller || c.io) && IsRun(c, trace, steps) && k < |trace|
    ensures Inv(c, trace[k])
  {
    if k > 0 {
      RunKeepsInv(c, trace, steps, k - 1);
      StepKeepsInv(c, trace[k - 1], steps[k - 1]);
    }
  }

  // ------------------------------------------------------------- the witness

  /** The first `k` workers have left run and the others have not begun, before stop. */
  ghost predicate Gone(c: Config, s: State, k: nat) {
    && !c.io && !c.useCaller && k <= |s.workers| == c.threads
    && s.queue == [] && !s.stopping && s.idling == 0
    && forall w | 0 <= w < |s.workers| ::
         if w < k then s.workers[w].pc == Exited else s.workers[w] == Worker(Scan, New)
  }

  /** One worker goes through its two visits to the base idle fiber. */
  lemma VisitIdle(c: Config, s: State, w: nat) returns (s1: State)
    requires CarefullyReachable(c, s) && !c.io && w < |s.workers|
    requires s.queue == [] && !s.stopping && s.idling == 0
    requires s.workers[w].pc == Scan && s.workers[w].idle != Term
    ensures CarefullyReachable(c, s1)
    ensures var me := Worker(Scan, if s.workers[w].idle == New then Yielded else Term);
            s1 == s.(workers := s.workers[w := me])
  {
    s1 := Advance(c, s, w, Miss);
    s1 := Advance(c, s1, w, EnterIdle);
    s1 := Advance(c, s1, w, BaseStep);
    s1 := Advance(c, s1, w, Switch);
  }

  lemma {:induction false} AllLeave(c: Config, s: State, k: nat) returns (s1: State)
    requires CarefullyReachable(c, s) && Gone(c, s, k)
    ensures CarefullyReachable(c, s1) && Gone(c, s1, c.threads)
    decreases c.threads - k
  {
    s1 := s;
    if k < c.threads {
      s1 := VisitIdle(c, s1, k);
      s1 := VisitIdle(c, s1, k);
      s1 := Advance(c, s1, k, Miss);
      s1 := Advance(c, s1, k, Leave);
      s1 := AllLeave(c, s1, k + 1);
    }
  }

  /** Base workers can all be gone when a task is submitted just before stop. */
  lemma BaseLeavesTask(c: Config) returns (s: State)
    requires !c.io && !c.useCaller
    ensures CarefullyReachable(c, s) && s.stopping && AllExited(s) && !NoUnpinned(s.queue)
  {
    s := State([], 0, 0, false, T.Empty(0), E.Start(true), seq(c.threads, _ => Worker(Scan, New)), [], [], []);
    InitReaches(c, s);
    s := AllLeave(c, s, 0);
    var submit := Outside(Submit(CallbackTask(User(0)), None));
    CarefulStepReaches(c, s, submit);
    s := Do(c, s, submit);
    assert s.queue[0].pin == None;
    CarefulStepReaches(c, s, Stop);
    s := Do(c, s, Stop);
  }

  /** Drain on stop. When stop returns no task that was free to run anywhere is left in the queue, in every
      interleaving, exactly when the caller is one of the workers or the idle function is IOManager's. */
  lemma DrainExactly(c: Config)
    requires 0 < c.threads
    ensures Drains(c) <==> c.useCaller || c.io
  {
    if c.useCaller || c.io {
      forall s | Reachable(c, s) && s.stopping && AllExited(s) ensures NoUnpinned(s.queue) {
        var trace, steps :| IsRun(c, trace, steps) && trace[|trace| - 1] == s;
        RunKeepsInv(c, trace, steps, |trace| - 1);
      }
    } else {
      var s := BaseLeavesTask(c);
      CarefulIsReachable(c, s);
    }
  }
}
