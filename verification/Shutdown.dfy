/**
 Quiescent shutdown of IOManager: once the idle fiber of every worker has ended, is the work done?

 The shutdown test reads the timers, the pending counter and the queue one after the other, and other
 workers run in between.
 */
module Shutdown {
  import opened Tasks
  import opened TaskQueue
  import opened Workers
  import C = Conservation
  import E = EventModel
  import T = TimerModel

  predicate AllTerm(s: State) {
    forall w | 0 <= w < |s.workers| :: s.workers[w].idle == Term
  }

  /** No worker runs a task, or holds callbacks or reports that it has not passed on. */
  predicate EmptyHanded(pc: PC) {
    pc == Leaving || pc == Scan || pc == Missed || pc == Exited
  }

  /** What the shutdown test can see, and what workers hold. */
  predicate Quiet(s: State) {
    && s.queue == [] && s.active == 0 && s.timers.live == {} && s.events.pending == 0
    && forall w | 0 <= w < |s.workers| :: EmptyHanded(s.workers[w].pc)
  }

  ghost predicate Quiesces(c: Config) {
    forall s | Reachable(c, s) && AllTerm(s) :: Quiet(s)
  }

  /** A quiet shutdown is final: no step brings work back. */
  lemma QuietIsFinal(c: Config, s: State, step: Step)
    requires AllTerm(s) && Quiet(s) && s.stopping && Can(s, step)
    ensures var s1 := Do(c, s, step);
            && AllTerm(s1) && Quiet(s1) && s1.stopping
            && s1.timers == s.timers && s1.events == s.events && s1.issued == s.issued
  {
  }

  // ------------------------------------------------- reading the queue first

  /** Has read an empty queue, and has not finished the test. */
  predicate Past(w: Worker) {
    w.pc == Check(1) || w.pc == Check(2)
  }

  /** Every worker has ended its idle fiber or has read an empty queue. */
  predicate Settled(s: State) {
    forall w | 0 <= w < |s.workers| :: s.workers[w].idle == Term || Past(s.workers[w])
  }

  ghost predicate SomeoneAt(s: State, stage: nat) {
    exists v :: 0 <= v < |s.workers| && s.workers[v].pc == Check(stage)
  }

  /** In a settled state nothing can change any more but the test itself, and some worker still has to
      read whatever is not known to be empty. */
  ghost predicate SettledInv(s: State) {
    && s.stopping && s.queue == [] && s.active == 0
    && (SomeoneAt(s, 1) || (s.events.pending == 0 && (SomeoneAt(s, 2) || s.timers.live == {})))
  }

  ghost predicate WorkerInv(w: Worker) {
    && w.pc != BaseIdle && (w.pc.Check? ==> w.pc.stage <= 2)
    && (w.idle == Term ==> EmptyHanded(w.pc) || w.pc.Running?)
  }

  ghost predicate Inv(s: State) {
    && C.Counted(s)
    && (forall w | 0 <= w < |s.workers| :: WorkerInv(s.workers[w]))
    && (Settled(s) ==> SettledInv(s))
  }

  lemma NobodyRuns(s: State)
    requires C.Counted(s) && s.active == 0
    ensures forall w | 0 <= w < |s.workers| :: !s.workers[w].pc.Running?
  {
    C.CountsZero(s.workers);
  }

  /** A worker that moves has not just read the queue, and does not end its idle fiber but by a test. */
  lemma MoveIsNotPast(c: Config, s: State, w: nat, move: Move)
    requires w < |s.workers| && CanMove(s, w, move) && !move.Test? && WorkerInv(s.workers[w])
    requires w < |DoMove(c, s, w, move).workers|
    requires DoMove(c, s, w, move).workers[w].idle == Term || Past(DoMove(c, s, w, move).workers[w])
    ensures s.workers[w].idle == Term
  {
    MoveFrame(c, s, w, move);
  }

  /** A step other than a test that ends in a settled state began in one, and was made by a worker whose
      idle fiber had ended. */
  lemma SettledBefore(c: Config, s: State, w: nat, move: Move)
    requires w < |s.workers| && CanMove(s, w, move) && !move.Test? && Inv(s)
    requires Settled(DoMove(c, s, w, move))
    ensures Settled(s)
  {
    var s1 := DoMove(c, s, w, move);
    MoveFrame(c, s, w, move);
    assert s1.workers[w].idle == Term || Past(s1.workers[w]);
    MoveIsNotPast(c, s, w, move);
    forall v | 0 <= v < |s.workers| ensures s.workers[v].idle == Term || Past(s.workers[v]) {
      assert s1.workers[v].idle == Term || Past(s1.workers[v]);
    }
  }

  lemma QuietMove(c: Config, s: State, w: nat, move: Move)
    requires w < |s.workers| && CanMove(s, w, move) && !move.Test? && Inv(s)
    requires Settled(DoMove(c, s, w, move))
    ensures SettledInv(DoMove(c, s, w, move))
  {
    var s1 := DoMove(c, s, w, move);
    MoveFrame(c, s, w, move);
    SettledBefore(c, s, w, move);
    assert WorkerInv(s.workers[w]);
    NobodyRuns(s);
    assert s1.events == s.events && s1.timers == s.timers;
    KeepsSomeone(s, s1, w, 1);
    KeepsSomeone(s, s1, w, 2);
  }

  lemma KeepsSomeone(s: State, s1: State, w: nat, stage: nat)
    requires w < |s.workers| == |s1.workers| && s.workers[w].pc != Check(stage)
    requires forall v | 0 <= v < |s.workers| && v != w :: s1.workers[v] == s.workers[v]
    ensures SomeoneAt(s, stage) ==> SomeoneAt(s1, stage)
  {
    if v :| 0 <= v < |s.workers| && s.workers[v].pc == Check(stage) {
      assert s1.workers[v].pc == Check(stage);
    }
  }

  lemma TestMove(c: Config, s: State, w: nat)
    requires w < |s.workers| && CanMove(s, w, Test) && Inv(s) && c.order != AsWritten
    requires Settled(DoMove(c, s, w, Test))
    ensures SettledInv(DoMove(c, s, w, Test))
  {
    var s1 := DoMove(c, s, w, Test);
    var stage := s.workers[w].pc.stage;
    assert WorkerInv(s.workers[w]);
    assert s1.workers[w].idle == Term || Past(s1.workers[w]);
    if c.order == Atomic {
      assert QueueTest(s);
    } else if stage == 0 {
      assert s1.workers[w].pc == Check(1);
    } else {
      assert Settled(s) by {
        forall v | 0 <= v < |s.workers| ensures s.workers[v].idle == Term || Past(s.workers[v]) {
          assert v != w ==> s1.workers[v] == s.workers[v];
        }
      }
      if stage == 1 {
        assert s1.workers[w].pc == Check(2);
      } else {
        KeepsSomeone(s, s1, w, 1);
      }
    }
  }

  lemma StepKeepsInv(c: Config, s: State, step: Step)
    requires c.io && c.order != AsWritten && Can(s, step) && Inv(s)
    ensures Inv(Do(c, s, step))
  {
    C.StepKeepsCounted(c, s, step);
    match step
    case Outside(a) =>
      PerformFrame(s, a);
    case Work(w, move) =>
      MoveFrame(c, s, w, move);
      if Settled(DoMove(c, s, w, move)) {
        if move.Test? {
          TestMove(c, s, w);
        } else {
          QuietMove(c, s, w, move);
        }
      }
      WorkerKeeps(c, s, w, move);
    case _ =>
  }

  lemma WorkerKeeps(c: Config, s: State, w: nat, move: Move)
    requires c.io && w < |s.workers| && CanMove(s, w, move) && WorkerInv(s.workers[w])
    ensures w < |DoMove(c, s, w, move).workers| && WorkerInv(DoMove(c, s, w, move).workers[w])
  {
    MoveFrame(c, s, w, move);
  }

  lemma {:induction false} RunKeepsInv(c: Config, trace: seq<State>, steps: seq<Step>, k: nat)
    requires 0 < c.threads && c.io && c.order != AsWritten && IsRun(c, trace, steps) && k < |trace|
    ensures Inv(trace[k]) && |trace[k].workers| == c.threads
  {
    if k == 0 {
      C.InitInv(c, trace[0]);
      assert trace[0].workers[0].idle == New;
    } else {
      RunKeepsInv(c, trace, steps, k - 1);
      StepKeepsInv(c, trace[k - 1], steps[k - 1]);
      C.WorkersFrame(c, trace[k - 1], steps[k - 1]);
    }
  }

  lemma RepairedQuiesces(c: Config, s: State)
    requires 0 < c.threads && c.io && c.order != AsWritten && Reachable(c, s) && AllTerm(s)
    ensures Quiet(s) && s.stopping
  {
    var trace, steps :| IsRun(c, trace, steps) && trace[|trace| - 1] == s;
    RunKeepsInv(c, trace, steps, |trace| - 1);
    NobodyRuns(s);
    assert forall w | 0 <= w < |s.workers| :: WorkerInv(s.workers[w]);
  }

  // --------------------------------------------- one worker, which is the caller

  ghost predicate SoleInv(s: State) {
    && C.Counted(s) && |s.workers| == 1
    && var me := s.workers[0];
    && WorkerInv(me)
    && (me.pc == Unstarted || s.stopping)
    && (me.pc.Check? && me.pc.stage >= 1 ==> s.timers.live == {})
    && (me.pc.Check? && me.pc.stage >= 2 ==> s.events.pending == 0)
    && (me.idle == Term ==> me.pc != Unstarted && Quiet(s))
  }

  lemma SoleKeeps(c: Config, s: State, step: Step)
    requires c.io && c.order == AsWritten && Can(s, step) && SoleInv(s)
    ensures SoleInv(Do(c, s, step))
  {
    C.StepKeepsCounted(c, s, step);
    NobodyRunsAt(s);
    match step
    case Outside(a) =>
      PerformFrame(s, a);
    case Work(w, move) =>
      MoveFrame(c, s, w, move);
      WorkerKeeps(c, s, w, move);
    case _ =>
  }

  lemma NobodyRunsAt(s: State)
    requires C.Counted(s) && |s.workers| == 1
    ensures s.active == 0 <==> !s.workers[0].pc.Running?
  {
    C.CountsZero(s.workers);
  }

  lemma {:induction false} SoleRun(c: Config, trace: seq<State>, steps: seq<Step>, k: nat)
    requires c.threads == 1 && c.useCaller && c.io && c.order == AsWritten && IsRun(c, trace, steps) && k < |trace|
    ensures SoleInv(trace[k])
  {
    if k == 0 {
      C.InitInv(c, trace[0]);
    } else {
      SoleRun(c, trace, steps, k - 1);
      SoleKeeps(c, trace[k - 1], steps[k - 1]);
    }
  }

  lemma SoleQuiesces(c: Config, s: State)
    requires c.threads == 1 && c.useCaller && c.io && c.order == AsWritten && Reachable(c, s) && AllTerm(s)
    ensures Quiet(s)
  {
    var trace, steps :| IsRun(c, trace, steps) && trace[|trace| - 1] == s;
    SoleRun(c, trace, steps, |trace| - 1);
  }

  // ------------------------------------------------- the losing interleaving

  /** The first worker that runs before stop. */
  function First(c: Config): nat {
    if c.useCaller then 1 else 0
  }

  ghost predicate Idle(c: Config, s: State) {
    && c.io && c.order == AsWritten && |s.workers| == c.threads
    && s.queue == [] && s.active == 0 && s.events.pending == 0
    && (c.useCaller ==> s.workers != [] && s.workers[0] == Worker(Unstarted, New))
  }

  /** Workers First..k have read that there are no timers; the others have not begun. */
  ghost predicate HaveRead(c: Config, s: State, k: nat) {
    && Idle(c, s) && First(c) <= k <= c.threads && !s.stopping && s.timers == T.Empty(0)
    && s.idling == k - First(c)
    && forall w | First(c) <= w < c.threads ::
         s.workers[w] == if w < k then Worker(Check(1), New) else Worker(Scan, New)
  }

  lemma {:induction false} AllRead(c: Config, s: State, k: nat) returns (s1: State)
    requires CarefullyReachable(c, s) && HaveRead(c, s, k)
    ensures CarefullyReachable(c, s1) && HaveRead(c, s1, c.threads)
    decreases c.threads - k
  {
    s1 := s;
    if k < c.threads {
      s1 := Advance(c, s1, k, Miss);
      s1 := Advance(c, s1, k, EnterIdle);
      s1 := Advance(c, s1, k, Test);
      s1 := AllRead(c, s1, k + 1);
    }
  }

  /** There is a timer, stop has begun, and workers First..k have ended their idle fibers. */
  ghost predicate HaveEnded(c: Config, s: State, k: nat, timers: T.Timers) {
    && Idle(c, s) && First(c) <= k <= c.threads && s.stopping && s.timers == timers
    && s.idling == c.threads - k
    && forall w | First(c) <= w < c.threads ::
         s.workers[w] == if w < k then Worker(Scan, Term) else Worker(Check(1), New)
  }

  lemma {:induction false} AllEnd(c: Config, s: State, k: nat, timers: T.Timers) returns (s1: State)
    requires CarefullyReachable(c, s) && HaveEnded(c, s, k, timers)
    ensures CarefullyReachable(c, s1) && HaveEnded(c, s1, c.threads, timers)
    decreases c.threads - k
  {
    s1 := s;
    if k < c.threads {
      s1 := Advance(c, s1, k, Test);
      s1 := Advance(c, s1, k, Test);
      s1 := Advance(c, s1, k, Switch);
      s1 := AllEnd(c, s1, k + 1, timers);
    }
  }

  function Arm(i: T.TimerId): Act {
    TimerAct(T.OpAdd(i, 0, Some(User(0)), false, 0))
  }

  /** A thread outside arms a timer after the workers have looked for timers, and then calls stop. */
  lemma EndedTooEarly(c: Config) returns (s: State)
    requires 0 < c.threads && c.io && c.order == AsWritten
    ensures CarefullyReachable(c, s) && HaveEnded(c, s, c.threads, T.Add(T.Empty(0), 1, 0, Some(User(0)), false, 0))
  {
    s := State([], 0, 0, false, T.Empty(0), E.Start(true),
               seq(c.threads, w => Worker(if w == 0 && c.useCaller then Unstarted else Scan, New)), [], [], []);
    InitReaches(c, s);
    s := AllRead(c, s, First(c));
    CarefulStepReaches(c, s, Outside(Arm(1)));
    s := Do(c, s, Outside(Arm(1)));
    CarefulStepReaches(c, s, Stop);
    s := Do(c, s, Stop);
    s := AllEnd(c, s, First(c), s.timers);
  }

  /** The caller's worker starts, finds the timer, and collects it. */
  lemma CallerFindsTimer(c: Config, s: State) returns (s1: State)
    requires CarefullyReachable(c, s) && 2 <= c.threads && c.useCaller
    requires HaveEnded(c, s, c.threads, T.Add(T.Empty(0), 1, 0, Some(User(0)), false, 0))
    ensures CarefullyReachable(c, s1) && |s.workers| > 0
    ensures s1 == s.(workers := s.workers[0 := Worker(Wait, New)], idling := 1)
  {
    CarefulStepReaches(c, s, Enter);
    s1 := Do(c, s, Enter);
    s1 := Advance(c, s1, 0, Miss);
    s1 := Advance(c, s1, 0, EnterIdle);
    assert 1 in s1.timers.live;
    s1 := Advance(c, s1, 0, Test);
  }

  lemma CallerCollects(c: Config, s: State) returns (s1: State)
    requires CarefullyReachable(c, s) && 2 <= c.threads && c.useCaller
    requires HaveEnded(c, s, c.threads, T.Add(T.Empty(0), 1, 0, Some(User(0)), false, 0))
    ensures CarefullyReachable(c, s1)
    ensures && s1 == s.(timers := s1.timers, workers := s1.workers, idling := 1)
            && s1.timers.live == {} && s1.timers.all.Keys == {1}
            && s1.workers == s.workers[0 := Worker(Post([Some(User(0))], []), New)]
  {
    s1 := CallerFindsTimer(c, s);
    assert T.Due(s1.timers, 0) == {1};
    assert forall i :: i in [1] <==> i == 1;
    assert T.CallbacksOf(s1.timers, [1]) == [Some(User(0))];
    s1 := Advance(c, s1, 0, Wake(0, [1], []));
  }

  /** It queues the callback and returns to the scan. */
  lemma CallerPosts(c: Config, s: State) returns (s1: State)
    requires CarefullyReachable(c, s) && 2 <= |s.workers| && s.queue == [] && s.idling == 1
    requires s.workers[0] == Worker(Post([Some(User(0))], []), New)
    ensures CarefullyReachable(c, s1)
    ensures && s1 == s.(queue := s1.queue, issued := s1.issued, workers := s1.workers, idling := 0)
            && |s1.queue| == 1 && s1.queue[0].pin == None
            && s1.workers == s.workers[0 := Worker(Scan, Yielded)]
  {
    assert [Some(User(0))][1..] == [];
    s1 := Advance(c, s, 0, PostNext);
    s1 := CallerReturns(c, s1);
  }

  lemma CallerReturns(c: Config, s: State) returns (s1: State)
    requires CarefullyReachable(c, s) && 2 <= |s.workers| && s.idling == 1
    requires s.workers[0] == Worker(Post([], []), New)
    ensures CarefullyReachable(c, s1)
    ensures s1 == s.(workers := s.workers[0 := Worker(Scan, Yielded)], idling := 0)
  {
    s1 := Advance(c, s, 0, PostDone);
    s1 := Advance(c, s1, 0, DispatchDone);
    s1 := Advance(c, s1, 0, Switch);
  }

  /** Worker 1, whose idle fiber has ended, takes the callback; the caller's worker finds the queue empty,
      and no timers. */
  lemma CallerReads(c: Config, s: State) returns (s1: State)
    requires CarefullyReachable(c, s) && 2 <= |s.workers| && c.io && c.order == AsWritten
    requires |s.queue| == 1 && s.queue[0].pin == None && s.active == 0 && s.idling == 0 && s.timers.live == {}
    requires s.workers[0] == Worker(Scan, Yielded) && s.workers[1] == Worker(Scan, Term)
    ensures CarefullyReachable(c, s1)
    ensures && s1 == s.(queue := [], active := 1, idling := 1, taken := s1.taken, workers := s1.workers)
            && s1.workers == s.workers[0 := Worker(Check(1), Yielded)][1 := Worker(Running(s.queue[0]), Term)]
  {
    s1 := Advance(c, s, 1, Take);
    s1 := Advance(c, s1, 0, Miss);
    s1 := Advance(c, s1, 0, EnterIdle);
    s1 := Advance(c, s1, 0, Test);
  }

  /** The callback arms a timer and finishes before the caller's worker looks at the queue. */
  lemma CallerEnds(c: Config, s: State, e: Entry) returns (s1: State)
    requires CarefullyReachable(c, s) && 2 <= |s.workers| && c.io && c.order == AsWritten
    requires s.queue == [] && s.active == 1 && s.stopping && s.events.pending == 0
    requires s.timers.live == {} && 2 !in s.timers.all
    requires s.workers[0] == Worker(Check(1), Yielded) && s.workers[1] == Worker(Running(e), Term)
    requires forall w | 0 < w < |s.workers| :: s.workers[w].idle == Term
    ensures CarefullyReachable(c, s1) && AllTerm(s1) && s1.timers.live == {2}
  {
    s1 := TaskArms(c, s, e);
    s1 := TestEnds(c, s1, 0);
  }

  lemma TaskArms(c: Config, s: State, e: Entry) returns (s1: State)
    requires CarefullyReachable(c, s) && 2 <= |s.workers| && s.active == 1 && s.timers.live == {} && 2 !in s.timers.all
    requires s.workers[1] == Worker(Running(e), Term)
    ensures CarefullyReachable(c, s1)
    ensures s1 == s.(timers := s1.timers, active := 0, workers := s.workers[1 := Worker(Scan, Term)],
                     finished := s1.finished)
    ensures s1.timers.live == {2}
  {
    s1 := Advance(c, s, 1, TaskStep(Arm(2)));
    s1 := Advance(c, s1, 1, Finish);
  }

  /** The last two reads of the test find nothing. */
  lemma TestEnds(c: Config, s: State, w: nat) returns (s1: State)
    requires CarefullyReachable(c, s) && w < |s.workers| && c.order == AsWritten && s.workers[w].pc == Check(1)
    requires s.queue == [] && s.active == 0 && s.stopping && s.events.pending == 0
    ensures CarefullyReachable(c, s1) && s1 == s.(workers := s.workers[w := Worker(Leaving, Term)])
  {
    s1 := Advance(c, s, w, Test);
    s1 := Advance(c, s1, w, Test);
  }

  /** As written, all idle fibers can end while a timer is still pending. */
  lemma LosesTimer(c: Config) returns (s: State)
    requires 0 < c.threads && c.io && c.order == AsWritten && !(c.threads == 1 && c.useCaller)
    ensures CarefullyReachable(c, s) && AllTerm(s) && s.timers.live != {}
  {
    s := EndedTooEarly(c);
    assert 1 in s.timers.live;
    if c.useCaller {
      s := CallerCollects(c, s);
      s := CallerPosts(c, s);
      s := CallerReads(c, s);
      s := CallerEnds(c, s, s.workers[1].pc.entry);
    }
  }

  /** Quiescent shutdown. As written, the end of all idle fibers means that queue, timers, running tasks and
      callbacks in hand are gone and the pending counter is zero only if the caller is the one and only
      worker. If the test reads the queue before the counter and the timers, or all three in one step, it
      means so for any number of workers and any interleaving. What it means for the registered events
      themselves is the subject of module Quiescence. */
  lemma QuiescenceExactly(c: Config)
    requires 0 < c.threads && c.io
    ensures Quiesces(c) <==> c.order != AsWritten || (c.threads == 1 && c.useCaller)
  {
    if c.order != AsWritten || (c.threads == 1 && c.useCaller) {
      forall s | Reachable(c, s) && AllTerm(s) ensures Quiet(s) {
        if c.order != AsWritten {
          RepairedQuiesces(c, s);
        } else {
          SoleQuiesces(c, s);
        }
      }
    } else {
      var s := LosesTimer(c);
      CarefulIsReachable(c, s);
    }
  }
}
