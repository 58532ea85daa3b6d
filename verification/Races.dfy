/**
 The race that leaves a wait without its timeout. It needs two workers: one runs the timeout callback of a
 wait that has just ended, while the other runs the fiber on to its next wait.
 */
module Races {
  import opened Words
  import opened Tasks
  import opened Blocking
  import opened Deadlines
  import opened Paths
  import opened Wakeups
  import T = TimerModel
  import E = EventModel
  import O = Timeouts

  lemma AttainedIsSane(n: nat, s: State)
    requires Attained(n, s)
    ensures Reachable(n, s) && Sane(s) && O.Ok(s)
  {
    AttainedReaches(n, s);
    O.ReachableIsOk(n, s);
  }

  // ------------------------------------------------------- parts of the run

  /** The first fiber calls a function that finds nothing, with a timeout of 10 ms. */
  lemma FirstCall(n: nat) returns (s: State)
    requires n > 0
    ensures Attained(n, s)
    ensures s == State(0, T.Empty(0), E.Start(true), [], [], [In(0, Arming)],
                       [Call(0, Io, 5, E.READ, 10, false, None, [], Pending)], s.workers, None)
    ensures s.workers == seq(n, _ => Free)[0 := Runs(0)]
  {
    s := FirstFiber(n);
    s := Begins(n, s, 0, Io, 5, E.READ, 10);
    s := FindsNothing(n, s, 0);
  }

  /** The call of fiber 0 that these runs are about. */
  predicate Reads(s: State) {
    && |s.calls| == 1 && s.calls[0].fiber == 0 && s.calls[0].kind == Io && s.calls[0].to == 10
    && s.calls[0].fd == 5 && s.calls[0].event == E.READ && s.calls[0].outcome == Pending
  }

  /** The last registration is the live one of the call. */
  ghost predicate Registers(s: State) {
    && E.Registered(s.events, 5, E.READ) && s.events.issued != []
    && s.events.issued[|s.events.issued| - 1] == E.Registration(5, E.READ, FiberTask(0))
    && E.Live(s.events, |s.events.issued| - 1)
  }

  lemma AddRegisters(r: E.Registry)
    requires E.Inv(r) && r.repaired && !E.Registered(r, 5, E.READ)
    ensures var (r1, out) := E.AddEvent(r, 5, E.READ, FiberTask(0), true);
            && out == E.Succeeded && r1.issued == r.issued + [E.Registration(5, E.READ, FiberTask(0))]
            && E.Registered(r1, 5, E.READ) && E.Live(r1, |r.issued|) && r1.log == r.log
  {
    E.AddEventSpec(r, 5, E.READ, FiberTask(0), true);
  }

  lemma AddsEvent(n: nat, s: State) returns (s1: State)
    requires From(n, s, 0) && s.workers[0] == Runs(0)
    requires s.fibers == [In(0, Adding)] && Reads(s) && !E.Registered(s.events, 5, E.READ)
    ensures Attained(n, s1)
    ensures s1 == s.(events := s1.events, owner := s1.owner, fibers := [In(0, Yielding)])
    ensures Registers(s1) && s1.events.log == s.events.log && |s1.events.issued| == |s.events.issued| + 1
  {
    AttainedIsSane(n, s);
    AddRegisters(s.events);
    s1 := Adds(n, s, 0);
  }

  lemma ArmsTimer(n: nat, s: State, i: T.TimerId) returns (s1: State)
    requires From(n, s, 0) && s.workers[0] == Runs(0)
    requires s.fibers == [In(0, Arming)] && Reads(s) && i !in s.timers.all
    ensures Attained(n, s1) && s.timers.live <= s.timers.all.Keys
    ensures s1 == s.(timers := T.Add(s.timers, i, 10, Some(Timeout(0)), false, s.now), fibers := [In(0, Adding)],
                     calls := [s.calls[0].(timer := Some(i), waits := s.calls[0].waits + [s.now])])
  {
    AttainedIsSane(n, s);
    s1 := Arms(n, s, 0, i);
  }

  /** The fiber arms a timer, adds the event and yields. */
  lemma Wait(n: nat, s: State, i: T.TimerId) returns (s1: State)
    requires From(n, s, 0) && s.workers[0] == Runs(0)
    requires s.fibers == [In(0, Arming)] && Reads(s) && !E.Registered(s.events, 5, E.READ) && i !in s.timers.all
    ensures Attained(n, s1) && s.timers.live <= s.timers.all.Keys
    ensures s1 == s.(timers := T.Add(s.timers, i, 10, Some(Timeout(0)), false, s.now), events := s1.events,
                     owner := s1.owner, fibers := [In(0, Parked)], workers := s.workers[0 := Free],
                     calls := [s.calls[0].(timer := Some(i), waits := s.calls[0].waits + [s.now])])
    ensures Registers(s1) && s1.events.log == s.events.log && |s1.events.issued| == |s.events.issued| + 1
  {
    s1 := ArmsTimer(n, s, i);
    s1 := AddsEvent(n, s1);
    s1 := Yields(n, s1, 0);
  }

  /** The one live timer is one of the call, and it is due. */
  predicate Due(s: State, i: T.TimerId) {
    && s.timers.live == {i} && i in s.timers.all && s.timers.all[i].given == Some(Timeout(0))
    && s.timers.all[i].next <= s.now
  }

  lemma EmitsOne(t: T.Timers, now: U64, i: T.TimerId)
    requires SaneTimers(t, now) && t.live == {i} && i in t.all && t.all[i].given == Some(Timeout(0))
    requires t.all[i].next <= now
    ensures T.Emits(t, now, [i])
    ensures T.CallbacksOf(t, [i]) == [Some(Timeout(0))]
    ensures T.Collect(t, now).live == {} && T.Collect(t, now).all.Keys == t.all.Keys
  {
    assert T.TimerInv(t.all[i], true) && OneWake(t.all[i]);
    assert T.Due(t, now) == {i};
    assert forall j :: j in [i] <==> j == i;
  }

  /** Worker `v` polls and collects the timer. */
  lemma Expires(n: nat, s: State, v: nat, i: T.TimerId, reports: seq<E.Report>) returns (s1: State)
    requires From(n, s, v) && s.workers[v] == Free && Due(s, i)
    requires |reports| <= 1 && forall k | 0 <= k < |reports| :: E.Reportable(s.events.kernel, reports[k])
    ensures Attained(n, s1)
    ensures s1 == s.(timers := T.Collect(s.timers, s.now),
                     workers := s.workers[v := Posting([Some(Timeout(0))], reports)])
    ensures s1.timers.live == {} && s1.timers.all.Keys == s.timers.all.Keys
  {
    AttainedIsSane(n, s);
    EmitsOne(s.timers, s.now, i);
    s1 := Polls(n, s, v, reports);
    s1 := Collects(n, s1, v, [i]);
  }

  /** It queues the callback. */
  lemma Delivers(n: nat, s: State, v: nat, i: T.TimerId, reports: seq<E.Report>) returns (s1: State)
    requires From(n, s, v) && s.workers[v] == Free && Due(s, i)
    requires |reports| <= 1 && forall k | 0 <= k < |reports| :: E.Reportable(s.events.kernel, reports[k])
    ensures Attained(n, s1)
    ensures s1 == s.(timers := T.Collect(s.timers, s.now), queue := s.queue + [CallbackTask(Timeout(0))],
                     workers := s.workers[v := Posting([], reports)])
    ensures s1.timers.live == {} && s1.timers.all.Keys == s.timers.all.Keys
  {
    s1 := Expires(n, s, v, i, reports);
    s1 := Posts(n, s1, v);
    assert [Some(Timeout(0))][1..] == [];
  }

  /** Its callback is picked by the same worker. */
  lemma Picks(n: nat, s: State, v: nat, i: T.TimerId) returns (s1: State)
    requires From(n, s, v) && s.workers[v] == Free && s.queue == [] && Due(s, i)
    ensures Attained(n, s1)
    ensures s1 == s.(timers := T.Collect(s.timers, s.now), workers := s.workers[v := Worker.Fires(0, 0)])
    ensures s1.timers.live == {} && s1.timers.all.Keys == s.timers.all.Keys
  {
    s1 := Delivers(n, s, v, i, []);
    s1 := Rests(n, s1, v);
    s1 := Takes(n, s1, v, 0);
    assert s1.queue == [];
  }

  /** A timeout callback of the call runs while its flag is clear, up to the cancel. */
  lemma SetsFlag(n: nat, s: State, v: nat) returns (s1: State)
    requires From(n, s, v) && s.workers[v] == Worker.Fires(0, 0) && Reads(s) && !s.calls[0].cancelled
    ensures Attained(n, s1)
    ensures s1 == s.(workers := s.workers[v := Worker.Fires(0, 2)], calls := [s.calls[0].(cancelled := true)])
  {
    s1 := Paths.Fires(n, s, v);
    s1 := Paths.Fires(n, s1, v);
  }

  /** The wait has begun at 0, and 10 ms have gone by. */
  lemma FirstWait(n: nat) returns (s: State)
    requires n > 0
    ensures From(n, s, 0) && s.now == 10 && s.queue == [] && s.fibers == [In(0, Parked)]
    ensures s.workers == seq(n, _ => Free) && Reads(s) && Registers(s) && |s.events.issued| == 1 && s.events.log == []
    ensures s.calls[0].waits == [0] && !s.calls[0].cancelled && s.calls[0].timer == Some(0)
    ensures s.timers == T.Add(T.Empty(0), 0, 10, Some(Timeout(0)), false, 0) && Due(s, 0)
  {
    s := FirstCall(n);
    s := Wait(n, s, 0);
    s := Go(n, s, Tick(10));
  }

  // -------------------------------------------------------------- the end

  /** A call that nothing of its own will ever end: its fiber is parked with its registration live, its flag
      is set, and there is no timer, no callback, nothing in the queue, and no worker that does anything. */
  ghost predicate Stranded(s: State) {
    && s.failed.None? && Bounded(s, 0) && Awaiting(s.events, 0) != {} && s.fibers[0] == In(0, Parked)
    && s.calls[0].cancelled && s.timers.live == {} && s.queue == []
    && forall w | 0 <= w < |s.workers| :: s.workers[w] == Free
  }

  lemma StrandedIsLost(s: State)
    requires Stranded(s)
    ensures !WillCancel(s, 0) && !HasTimer(s.timers, 0)
  {
  }

  lemma StillAwaits(n: nat, s: State)
    requires Attained(n, s) && Registers(s)
    ensures Awaiting(s.events, 0) != {}
  {
    AttainedIsSane(n, s);
    var t := |s.events.issued| - 1;
    assert E.FateInv(s.events, t);
    assert t in Awaiting(s.events, 0);
  }

  // --------------------------------------------------- a refused cancel

  /** The timer of the first wait has been delivered, and its callback is about to cancel the event. */
  lemma AboutToCancel(n: nat) returns (s: State)
    requires n > 0
    ensures From(n, s, 0) && s.queue == [] && s.fibers == [In(0, Parked)]
    ensures s.workers == seq(n, _ => Free)[0 := Worker.Fires(0, 2)] && Reads(s) && Registers(s)
    ensures s.calls[0].cancelled && s.timers.live == {}
  {
    s := FirstWait(n);
    s := Picks(n, s, 0, 0);
    s := SetsFlag(n, s, 0);
  }

  lemma RefusedState(s: State) returns (s1: State)
    requires s.workers != [] && CanMove(s, 0, Fire(false)) && s.workers[0] == Worker.Fires(0, 2) && Reads(s)
    requires E.CancelEvent(s.events, 5, E.READ, false).0 == s.events
    ensures s1 == DoMove(s, 0, Fire(false)) && s1 == s.(workers := s.workers[0 := Free])
  {
    s1 := DoMove(s, 0, Fire(false));
    assert s1.queue == s.queue;
  }

  /** If the kernel refuses the cancel, a wait is stranded with any number of workers. */
  lemma RefusedCancelStrands(n: nat) returns (s: State)
    requires n > 0
    ensures Reachable(n, s) && Stranded(s)
  {
    s := AboutToCancel(n);
    AttainedReaches(n, s);
    StillAwaits(n, s);
    StepReaches(n, s, Work(0, Fire(false)));
    s := RefusedState(s);
  }

  // ------------------------------------------------------------ the race

  lemma EndedIsUnregistered(r: E.Registry)
    requires E.Inv(r) && |r.issued| == 1 && r.log == [0]
    requires r.issued[0] == E.Registration(5, E.READ, FiberTask(0))
    ensures !E.Registered(r, 5, E.READ)
  {
    assert E.FateInv(r, 0);
    assert 5 < |r.contexts| ==> E.SlotInv(r, 5, E.READ);
  }

  /** Dispatching it ends the registration and queues the fiber. */
  lemma DispatchesReady(n: nat, s: State, v: nat) returns (s1: State)
    requires From(n, s, v) && s.workers[v] == Posting([], [READABLE])
    requires FirstRegistration(s.events)
    ensures Attained(n, s1)
    ensures s1 == s.(events := s1.events, queue := s.queue + [FiberTask(0)], workers := s.workers[v := Free])
    ensures !E.Registered(s1.events, 5, E.READ)
  {
    HandsOver(s.events);
    EndedIsUnregistered(E.Dispatch(s.events, READABLE, true).0);
    assert [READABLE][1..] == [];
    s1 := Paths.Dispatches(n, s, v);
    s1 := Rests(n, s1, v);
  }

  /** Worker 1 has collected the timer and has been told that the event is ready. */
  lemma FirstDelivery(n: nat) returns (s: State)
    requires n > 1
    ensures From(n, s, 1) && s.now == 10 && s.fibers == [In(0, Parked)] && s.queue == [CallbackTask(Timeout(0))]
    ensures s.workers == seq(n, _ => Free)[1 := Posting([], [READABLE])] && Reads(s) && FirstRegistration(s.events)
    ensures s.calls[0].waits == [0] && !s.calls[0].cancelled && s.calls[0].timer == Some(0)
    ensures s.timers.live == {} && s.timers.all.Keys == {0}
  {
    s := FirstWait(n);
    AttainedIsSane(n, s);
    HandsOver(s.events);
    s := Delivers(n, s, 1, 0, [READABLE]);
  }

  /** Timeout and readiness have both ended the first wait: its callback is queued, and so is the fiber. */
  lemma BothQueued(n: nat) returns (s: State)
    requires n > 1
    ensures From(n, s, 1) && s.now == 10 && s.fibers == [In(0, Parked)]
    ensures s.queue == [CallbackTask(Timeout(0)), FiberTask(0)]
    ensures s.workers == seq(n, _ => Free) && Reads(s) && !E.Registered(s.events, 5, E.READ)
    ensures s.calls[0].waits == [0] && !s.calls[0].cancelled && s.calls[0].timer == Some(0)
    ensures s.timers.live == {} && s.timers.all.Keys == {0}
  {
    s := FirstDelivery(n);
    s := DispatchesReady(n, s, 1);
  }

  /** Worker 1 has picked the callback and worker 0 the fiber. */
  lemma BothPicked(n: nat) returns (s: State)
    requires n > 1
    ensures From(n, s, 1) && s.now == 10 && s.queue == [] && s.fibers == [In(0, Woken)]
    ensures s.workers == seq(n, _ => Free)[1 := Worker.Fires(0, 0)][0 := Runs(0)] && Reads(s)
    ensures !E.Registered(s.events, 5, E.READ)
    ensures s.calls[0].waits == [0] && !s.calls[0].cancelled && s.calls[0].timer == Some(0)
    ensures s.timers.live == {} && s.timers.all.Keys == {0}
  {
    s := BothQueued(n);
    s := Takes(n, s, 1, 0);
    assert s.queue == [FiberTask(0)];
    s := Takes(n, s, 0, 0);
    assert s.queue == [];
  }

  /** The fiber finds the flag clear, and is about to try again. */
  lemma TriesAgain(n: nat) returns (s: State)
    requires n > 1
    ensures From(n, s, 1) && s.now == 10 && s.queue == [] && s.fibers == [In(0, Trying)]
    ensures s.workers == seq(n, _ => Free)[1 := Worker.Fires(0, 0)][0 := Runs(0)] && Reads(s)
    ensures !E.Registered(s.events, 5, E.READ)
    ensures s.calls[0].waits == [0] && !s.calls[0].cancelled
    ensures s.timers.live == {} && s.timers.all.Keys == {0}
  {
    s := BothPicked(n);
    AttainedIsSane(n, s);
    assert T.TimerInv(s.timers.all[0], false);
    s := Disarms(n, s, 0);
    s := Retries(n, s, 0);
  }

  /** Meanwhile the callback sets the flag, and finds nothing to cancel. */
  lemma FlaggedTooLate(n: nat) returns (s: State)
    requires n > 1
    ensures From(n, s, 1) && s.now == 10 && s.queue == [] && s.fibers == [In(0, Trying)]
    ensures s.workers == seq(n, _ => Free)[0 := Runs(0)] && Reads(s) && !E.Registered(s.events, 5, E.READ)
    ensures s.calls[0].waits == [0] && s.calls[0].cancelled
    ensures s.timers.live == {} && s.timers.all.Keys == {0}
  {
    s := TriesAgain(n);
    s := SetsFlag(n, s, 1);
    assert E.CancelEvent(s.events, 5, E.READ, true).0 == s.events;
    s := Paths.Fires(n, s, 1);
    assert s.queue == [] && s.workers == seq(n, _ => Free)[0 := Runs(0)];
  }

  /** The fiber waits again. */
  lemma SecondWait(n: nat) returns (s: State)
    requires n > 1
    ensures From(n, s, 1) && s.now == 20 && s.queue == [] && s.fibers == [In(0, Parked)]
    ensures s.workers == seq(n, _ => Free) && Reads(s) && Registers(s)
    ensures s.calls[0].waits == [0, 10] && s.calls[0].cancelled && Due(s, 1)
  {
    s := FlaggedTooLate(n);
    s := FindsNothing(n, s, 0);
    s := Wait(n, s, 1);
    s := Go(n, s, Tick(20));
  }

  /** The second wait times out in vain: its callback finds the flag set. */
  lemma LosesTimeout(n: nat) returns (s: State)
    requires n > 1
    ensures Attained(n, s) && Stranded(s) && s.now == 20 && s.calls[0].waits == [0, 10]
  {
    s := SecondWait(n);
    s := Picks(n, s, 1, 1);
    s := Paths.Fires(n, s, 1);
    StillAwaits(n, s);
  }

  // ------------------------------------------------------------- theorems

  /** Every wait with a timeout whose registration is live has something that will still cancel it. */
  ghost predicate AlwaysCovered(n: nat) {
    forall s, f: FiberId | Attained(n, s) && Bounded(s, f) && Awaiting(s.events, f) != {} ::
      WillCancel(s, s.fibers[f].call)
  }

  /** It has that, or at least a timer of its call. */
  ghost predicate AlwaysTimed(n: nat) {
    forall s, f: FiberId | Attained(n, s) && Bounded(s, f) && Awaiting(s.events, f) != {} ::
      HasTimer(s.timers, s.fibers[f].call) || WillCancel(s, s.fibers[f].call)
  }

  /** When the kernel accepts the cancels of timeout callbacks, no wait with a timeout is ever left without
      one, in all runs, exactly when there is one worker. */
  lemma TimeoutsLastExactly(n: nat)
    requires n > 0
    ensures AlwaysCovered(n) <==> n == 1
    ensures AlwaysTimed(n) <==> n == 1
  {
    if n == 1 {
      forall s, f: FiberId | Attained(1, s) && Bounded(s, f) && Awaiting(s.events, f) != {}
        ensures WillCancel(s, s.fibers[f].call)
      {
        AloneIsCovered(s, f);
      }
    } else {
      var s := LosesTimeout(n);
      StrandedIsLost(s);
    }
  }
}
