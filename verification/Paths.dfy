/** Runs of module Blocking built step by step: each lemma makes one move from a state that is reached, and says
    what it leads to. All these runs are ones in which the kernel accepts the cancels of timeout callbacks. */
module Paths {
  import opened Words
  import opened Tasks
  import opened Blocking
  import T = TimerModel
  import E = EventModel
  import R = EventRuns

  /** The kernel refuses the cancel of a timeout callback. */
  predicate Rejects(s: State, step: Step) {
    && step.Work? && step.move.Fire? && !step.move.ok
    && step.w < |s.workers| && s.workers[step.w].Fires? && s.workers[step.w].stage >= 2
  }

  ghost predicate AcceptingRun(n: nat, trace: seq<State>, steps: seq<Step>) {
    IsRun(n, trace, steps) && forall k {:trigger steps[k]} | 0 <= k < |steps| :: !Rejects(trace[k], steps[k])
  }

  /** Reachable by a run in which the kernel accepts the cancels of timeout callbacks. */
  ghost predicate Attained(n: nat, s: State) {
    exists trace, steps :: AcceptingRun(n, trace, steps) && trace[|trace| - 1] == s
  }

  lemma AttainedReaches(n: nat, s: State)
    requires Attained(n, s)
    ensures Reachable(n, s)
  {
    var trace, steps :| AcceptingRun(n, trace, steps) && trace[|trace| - 1] == s;
    assert IsRun(n, trace, steps);
  }

  lemma Begun(n: nat, now: U64)
    ensures Attained(n, Start(n, now))
  {
    assert AcceptingRun(n, [Start(n, now)], []);
  }

  lemma Go(n: nat, s: State, step: Step) returns (s1: State)
    requires Attained(n, s) && Can(s, step) && !Rejects(s, step)
    ensures Attained(n, s1) && s1 == Do(s, step)
  {
    var trace, steps :| AcceptingRun(n, trace, steps) && trace[|trace| - 1] == s;
    s1 := Do(s, step);
    assert AcceptingRun(n, trace + [s1], steps + [step]);
  }

  /** A state from which worker `w` can move. */
  ghost predicate From(n: nat, s: State, w: nat) {
    Attained(n, s) && s.failed.None? && w < |s.workers|
  }

  lemma Takes(n: nat, s: State, w: nat, k: nat) returns (s1: State)
    requires From(n, s, w) && s.workers[w] == Free && k < |s.queue|
    requires s.queue[k].FiberTask? ==> s.queue[k].fiber < |s.fibers|
    ensures Attained(n, s1) && s1 == DoTake(s, w, k)
  {
    s1 := Go(n, s, Work(w, Take(k)));
  }

  lemma Polls(n: nat, s: State, w: nat, reports: seq<E.Report>) returns (s1: State)
    requires From(n, s, w) && s.workers[w] == Free
    requires forall i | 0 <= i < |reports| :: E.Reportable(s.events.kernel, reports[i])
    requires forall i, j | 0 <= i < j < |reports| :: reports[i].fd != reports[j].fd
    ensures Attained(n, s1) && s1 == SetWorker(s, w, Polled(reports))
  {
    s1 := Go(n, s, Work(w, Poll(reports)));
  }

  lemma Collects(n: nat, s: State, w: nat, ids: seq<T.TimerId>) returns (s1: State)
    requires From(n, s, w) && s.workers[w].Polled? && s.timers.live <= s.timers.all.Keys
    requires T.Emits(s.timers, s.now, ids)
    ensures Attained(n, s1)
    ensures forall i | i in ids :: i in s.timers.all
    ensures s1 == SetWorker(s, w, Posting(T.CallbacksOf(s.timers, ids), s.workers[w].reports))
                  .(timers := T.Collect(s.timers, s.now))
  {
    s1 := Go(n, s, Work(w, Collect(ids)));
  }

  lemma Posts(n: nat, s: State, w: nat) returns (s1: State)
    requires From(n, s, w) && s.workers[w].Posting? && s.workers[w].cbs != [] && s.workers[w].cbs[0].Some?
    ensures Attained(n, s1)
    ensures s1 == SetWorker(s, w, s.workers[w].(cbs := s.workers[w].cbs[1..]))
                  .(queue := s.queue + [CallbackTask(s.workers[w].cbs[0].value)])
  {
    s1 := Go(n, s, Work(w, Post));
  }

  lemma Dispatches(n: nat, s: State, w: nat) returns (s1: State)
    requires From(n, s, w) && s.workers[w].Posting? && s.workers[w].cbs == [] && s.workers[w].reports != []
    ensures Attained(n, s1) && s1 == DoDispatch(s, w, true)
  {
    s1 := Go(n, s, Work(w, DispatchNext(true)));
  }

  lemma Rests(n: nat, s: State, w: nat) returns (s1: State)
    requires From(n, s, w) && s.workers[w] == Posting([], [])
    ensures Attained(n, s1) && s1 == SetWorker(s, w, Free)
  {
    s1 := Go(n, s, Work(w, DispatchDone));
  }

  lemma Fires(n: nat, s: State, w: nat) returns (s1: State)
    requires From(n, s, w) && s.workers[w].Fires? && s.workers[w].call < |s.calls|
    ensures Attained(n, s1) && s1 == DoFire(s, w, true)
  {
    s1 := Go(n, s, Work(w, Fire(true)));
  }

  lemma Begins(n: nat, s: State, w: nat, kind: Kind, fd: E.Fd, event: E.Event, to: U64) returns (s1: State)
    requires From(n, s, w) && InOwn(s, w) && fd < E.MAX_FD && (kind == Connect ==> event == E.WRITE)
    ensures Attained(n, s1) && s1 == DoBegin(s, w, kind, fd, event, to)
  {
    s1 := Go(n, s, Work(w, Begin(kind, fd, event, to)));
  }

  /** The hooked function finds nothing. */
  lemma FindsNothing(n: nat, s: State, w: nat) returns (s1: State)
    requires From(n, s, w) && At(s, w, Trying)
    ensures Attained(n, s1) && s1 == Goto(s, w, Trying, Arming)
  {
    s1 := Go(n, s, Work(w, Try(true)));
  }

  lemma Arms(n: nat, s: State, w: nat, i: T.TimerId) returns (s1: State)
    requires From(n, s, w) && At(s, w, Arming) && i !in s.timers.all && s.timers.live <= s.timers.all.Keys
    ensures Attained(n, s1) && s1 == DoArm(s, w, i)
  {
    s1 := Go(n, s, Work(w, Arm(i)));
  }

  lemma Adds(n: nat, s: State, w: nat) returns (s1: State)
    requires From(n, s, w) && At(s, w, Adding) && E.INITIAL_SIZE <= |s.events.contexts|
    ensures Attained(n, s1) && s1 == DoAdd(s, w, true)
  {
    s1 := Go(n, s, Work(w, Add(true)));
  }

  lemma Yields(n: nat, s: State, w: nat) returns (s1: State)
    requires From(n, s, w) && At(s, w, Yielding)
    ensures Attained(n, s1) && s1 == SetWorker(Goto(s, w, Yielding, Parked), w, Free)
  {
    s1 := Go(n, s, Work(w, Yield));
  }

  lemma Disarms(n: nat, s: State, w: nat) returns (s1: State)
    requires From(n, s, w) && At(s, w, Woken) && s.calls[Current(s, w, Woken)].kind != Nap
    ensures Attained(n, s1)
    ensures s1 == Goto(s, w, Woken, Checking).(timers := Stopped(s.timers, s.calls[Current(s, w, Woken)].timer))
  {
    s1 := Go(n, s, Work(w, Disarm));
  }

  /** The flag is clear. */
  lemma Retries(n: nat, s: State, w: nat) returns (s1: State)
    requires From(n, s, w) && At(s, w, Checking)
    requires s.calls[Current(s, w, Checking)].kind == Io && !s.calls[Current(s, w, Checking)].cancelled
    ensures Attained(n, s1) && s1 == Goto(s, w, Checking, Trying)
  {
    s1 := Go(n, s, Work(w, Check));
  }

  lemma Uses(n: nat, s: State, w: nat, op: R.Op) returns (s1: State)
    requires From(n, s, w) && InOwn(s, w) && UserEvent(s.events, op)
    ensures Attained(n, s1) && s1 == DoUse(s, op)
  {
    s1 := Go(n, s, Work(w, Use(op)));
  }

  /** Worker 0 runs the first fiber, in its own code. */
  lemma FirstFiber(n: nat) returns (s: State)
    requires n > 0
    ensures Attained(n, s)
    ensures s == State(0, T.Empty(0), E.Start(true), [], [], [Own], [], s.workers, None)
    ensures s.workers == seq(n, _ => Free)[0 := Runs(0)]
  {
    s := Start(n, 0);
    Begun(n, 0);
    s := Go(n, s, Spawn);
    s := Takes(n, s, 0, 0);
    assert s.queue == [];
  }

  // ------------------------------------------------- the first registration

  const READABLE := E.Report(5, E.Mask(true, false), false)

  /** Fiber 0 has made the only registration so far, for reading, and it is live. */
  ghost predicate FirstRegistration(r: E.Registry) {
    && E.Inv(r) && E.Registered(r, 5, E.READ) && |r.issued| == 1 && r.log == [] && E.Live(r, 0)
    && r.issued[0] == E.Registration(5, E.READ, FiberTask(0))
  }

  /** The report that the event is ready is a true one; dispatching it hands the fiber over. */
  lemma HandsOver(r: E.Registry)
    requires FirstRegistration(r)
    ensures E.Reportable(r.kernel, READABLE)
    ensures var (r1, out) := E.Dispatch(r, READABLE, true);
            && out == E.Succeeded && E.Inv(r1) && r1.issued == r.issued && r1.log == [0]
            && E.Woken(r, r1) == [FiberTask(0)]
  {
    E.DispatchSpec(r, READABLE, true);
    assert E.MirrorAt(r, 5);
  }
}
