/**
 What a quiet shutdown leaves behind. The shutdown test reads the counter of pending events; whether that means
 that no event is registered depends on how the registry has been used.
 */
module Quiescence {
  import opened Tasks
  import opened Workers
  import C = Conservation
  import E = EventModel
  import R = EventRuns
  import S = Shutdown
  import T = TimerModel

  ghost predicate SaneEvents(r: E.Registry) {
    E.Inv(r) && r.repaired
  }

  lemma PerformEvents(s: State, a: Act)
    requires SaneEvents(s.events) && CanAct(s, a) && CarefulAct(s, a)
    ensures SaneEvents(Perform(s, a).events)
  {
    if a.EventAct? {
      var r := R.Apply(s.events, a.eop).0;
      R.ApplyKeepsInv(s.events, a.eop);
      PushAllFrame(s.(events := r), E.Woken(s.events, r));
    }
  }

  lemma DispatchEvents(c: Config, s: State, w: nat, ok: bool)
    requires SaneEvents(s.events) && w < |s.workers| && CanMove(s, w, DispatchNext(ok))
    ensures SaneEvents(DoMove(c, s, w, DispatchNext(ok)).events)
  {
    var reports := s.workers[w].pc.reports;
    var r := E.Dispatch(s.events, reports[0], ok).0;
    E.DispatchSpec(s.events, reports[0], ok);
    PushAllFrame(SetPc(s, w, Dispatching(reports[1..])).(events := r), E.Woken(s.events, r));
  }

  /** A careful step keeps the invariant of the registry. */
  lemma StepKeepsEvents(c: Config, s: State, step: Step)
    requires SaneEvents(s.events) && Can(s, step) && Careful(s, step)
    ensures SaneEvents(Do(c, s, step).events)
  {
    match step
    case Outside(a) => PerformEvents(s, a);
    case Work(w, move) =>
      if move.TaskStep? {
        PerformEvents(s, move.act);
      } else if move.DispatchNext? {
        DispatchEvents(c, s, w, move.ok);
      }
    case _ =>
  }

  lemma {:induction false} RunKeepsEvents(c: Config, trace: seq<State>, steps: seq<Step>, k: nat)
    requires CarefulRun(c, trace, steps) && k < |trace|
    ensures SaneEvents(trace[k].events)
  {
    if k == 0 {
      R.StartInv(true);
    } else {
      RunKeepsEvents(c, trace, steps, k - 1);
      StepKeepsEvents(c, trace[k - 1], steps[k - 1]);
    }
  }

  /** No event is registered, the kernel watches nothing, no registration is live. */
  ghost predicate NothingRegistered(r: E.Registry) {
    && r.kernel == map[]
    && (forall fd, e | 0 <= fd < |r.contexts| :: !E.Registered(r, fd, e))
    && (forall t | 0 <= t < |r.issued| :: !E.Live(r, t))
  }

  /** Nothing is left: all that was ever scheduled has finished, there is no timer, and nobody waits for an
      event. */
  ghost predicate NothingLeft(s: State) {
    S.Quiet(s) && multiset(s.issued) == multiset(s.finished) && NothingRegistered(s.events)
  }

  lemma QuietMeansNothing(c: Config, s: State)
    requires CarefullyReachable(c, s) && S.Quiet(s)
    ensures NothingLeft(s)
  {
    var trace, steps :| CarefulRun(c, trace, steps) && trace[|trace| - 1] == s;
    RunKeepsEvents(c, trace, steps, |trace| - 1);
    E.NothingPending(s.events);
    CarefulIsReachable(c, s);
    C.TaskConservation(c, s);
    assert C.Held(s.workers) == multiset{};
  }

  /** What the end of all idle fibers means in every run that uses the registry with care. */
  ghost predicate EndsWithNothing(c: Config) {
    forall s | CarefullyReachable(c, s) && S.AllTerm(s) :: NothingLeft(s)
  }

  /** Once all idle fibers have ended nothing at all is left, in every interleaving of every run that uses the
      registry with care, exactly if the shutdown test reads the queue first, or all at once, or the caller is
      the one and only worker. */
  lemma EndsWithNothingExactly(c: Config)
    requires 0 < c.threads && c.io
    ensures EndsWithNothing(c) <==> c.order != AsWritten || (c.threads == 1 && c.useCaller)
  {
    if c.order != AsWritten || (c.threads == 1 && c.useCaller) {
      S.QuiescenceExactly(c);
      forall s | CarefullyReachable(c, s) && S.AllTerm(s) ensures NothingLeft(s) {
        CarefulIsReachable(c, s);
        QuietMeansNothing(c, s);
      }
    } else {
      var s := S.LosesTimer(c);
    }
  }

  // ------------------------------------------------------- without care

  /** A fiber waits for an event, which the counter does not count: the other event of its descriptor, which
      was not registered, has been deleted. */
  ghost predicate Miscounted(r: E.Registry) {
    r.pending == 0 && E.Registered(r, 5, E.READ) && r.kernel != map[] && r.log == [] && |r.issued| == 1
  }

  lemma AddThenDelete() returns (r1: E.Registry, r2: E.Registry)
    ensures R.Apply(E.Start(true), R.OpAdd(5, E.READ, FiberTask(0), true)) == (r1, E.Succeeded)
    ensures R.Apply(r1, R.OpDel(5, E.WRITE, true)) == (r2, E.Succeeded)
    ensures E.INITIAL_SIZE <= |r1.contexts| && r1.log == [] && Miscounted(r2)
  {
    r1 := E.AddEvent(E.Start(true), 5, E.READ, FiberTask(0), true).0;
    r2 := E.DelEvent(r1, 5, E.WRITE, true).0;
    R.StartInv(true);
    E.AddEventSpec(E.Start(true), 5, E.READ, FiberTask(0), true);
    E.DelEventSpec(r1, 5, E.WRITE, true);
    assert 5 in r2.kernel;
  }

  /** Stop has begun, and workers 0..k have ended their idle fibers. */
  ghost predicate Ending(c: Config, s: State, k: nat) {
    && c.io && |s.workers| == c.threads && k <= c.threads && s.stopping
    && s.queue == [] && s.active == 0 && s.timers == T.Empty(0) && Miscounted(s.events)
    && forall w | 0 <= w < c.threads :: s.workers[w] == if w < k then Worker(Leaving, Term) else Worker(Scan, New)
  }

  lemma Moves(c: Config, s: State, w: nat, move: Move) returns (s1: State)
    requires Reachable(c, s) && w < |s.workers| && CanMove(s, w, move)
    ensures Reachable(c, s1) && s1 == DoMove(c, s, w, move)
  {
    StepReaches(c, s, Work(w, move));
    s1 := DoMove(c, s, w, move);
  }

  lemma EndsOne(c: Config, s: State, k: nat) returns (s1: State)
    requires Reachable(c, s) && Ending(c, s, k) && k < c.threads
    ensures Reachable(c, s1) && Ending(c, s1, k + 1)
  {
    s1 := Moves(c, s, k, Miss);
    s1 := Moves(c, s1, k, EnterIdle);
    s1 := Moves(c, s1, k, Test);
    if c.order != Atomic {
      s1 := Moves(c, s1, k, Test);
      s1 := Moves(c, s1, k, Test);
    }
  }

  lemma {:induction false} EndsAll(c: Config, s: State, k: nat) returns (s1: State)
    requires Reachable(c, s) && Ending(c, s, k)
    ensures Reachable(c, s1) && Ending(c, s1, c.threads)
    decreases c.threads - k
  {
    s1 := s;
    if k < c.threads {
      s1 := EndsOne(c, s1, k);
      s1 := EndsAll(c, s1, k + 1);
    }
  }

  lemma ActsOutside(c: Config, s: State, op: R.Op, r: E.Registry) returns (s1: State)
    requires Reachable(c, s) && !s.stopping && R.Enabled(s.events, op) && !op.OpDispatch?
    requires R.Apply(s.events, op) == (r, E.Succeeded) && r.log == s.events.log
    ensures Reachable(c, s1) && s1 == s.(events := r)
  {
    StepReaches(c, s, Outside(EventAct(op)));
    s1 := Do(c, s, Outside(EventAct(op)));
    assert E.Woken(s.events, r) == [];
    PushAllFrame(s.(events := r), []);
  }

  /** A thread outside miscounts and calls stop. */
  lemma Miscounts(c: Config) returns (s: State)
    requires 0 < c.threads && c.io
    ensures Reachable(c, s) && Ending(c, s, 0)
  {
    s := State([], 0, 0, false, T.Empty(0), E.Start(true),
               seq(c.threads, w => Worker(if w == 0 && c.useCaller then Unstarted else Scan, New)), [], [], []);
    InitReaches(c, s);
    CarefulIsReachable(c, s);
    var r1, r2 := AddThenDelete();
    s := ActsOutside(c, s, R.OpAdd(5, E.READ, FiberTask(0), true), r1);
    s := ActsOutside(c, s, R.OpDel(5, E.WRITE, true), r2);
    StepReaches(c, s, Stop);
    s := Do(c, s, Stop);
    if c.useCaller {
      StepReaches(c, s, Enter);
      s := Do(c, s, Enter);
    }
  }

  /** Care is needed: whatever the configuration, all idle fibers can end, quietly, while a fiber waits for an
      event and has not been handed over. */
  lemma CarelessLeavesEvent(c: Config) returns (s: State)
    requires 0 < c.threads && c.io
    ensures Reachable(c, s) && S.AllTerm(s) && S.Quiet(s) && s.stopping
    ensures E.Registered(s.events, 5, E.READ) && s.events.kernel != map[] && s.events.log == [] && !NothingLeft(s)
  {
    s := Miscounts(c);
    s := EndsAll(c, s, 0);
  }
}
