/**
 The hooks as the loops they are, executed by one fiber while everybody else acts between any two of its
 accesses to shared state. Each is proved to perform a run of the step relation of module Blocking, so that
 what holds in all runs holds of what it returns.
 */
module Hooks {
  import opened Words
  import opened Tasks
  import opened Blocking
  import T = TimerModel
  import E = EventModel
  import O = Timeouts
  import opened Placement

  /** Everything a hook does not decide: what the others do before its k-th access, whether the k-th call of
      the hooked function finds nothing yet, whether the kernel accepts the k-th request, and where a new
      timer object is put. */
  datatype World = World(
    others: (nat, State) -> State,
    again: nat -> bool,
    accept: nat -> bool,
    address: State -> T.TimerId)

  // -------------------------------------------------- what others leave alone

  /** The others lead from `s` to `s1`. */
  ghost predicate Between(s: State, s1: State, f: FiberId) {
    exists trace, steps :: BetweenBy(trace, steps, f) && trace[0] == s && trace[|steps|] == s1
  }

  ghost predicate BetweenBy(trace: seq<State>, steps: seq<Step>, f: FiberId) {
    && |trace| == |steps| + 1
    && forall k {:trigger steps[k]} | 0 <= k < |steps| ::
         Can(trace[k], steps[k]) && !ByFiber(trace[k], steps[k], f) && trace[k + 1] == Do(trace[k], steps[k])
  }

  lemma KeptTransitive(s: State, s1: State, s2: State, f: FiberId)
    requires f < |s.fibers| && s.fibers[f].In? && Kept(s, s1, f) && Kept(s1, s2, f)
    ensures Kept(s, s2, f)
  {
    assert forall c | 0 <= c < |s.calls| && s.calls[c].fiber == f :: s1.calls[c].fiber == f;
  }

  lemma {:induction false} RunKeepsFiber(n: nat, trace: seq<State>, steps: seq<Step>, f: FiberId, k: nat)
    requires BetweenBy(trace, steps, f) && Reachable(n, trace[0]) && k <= |steps|
    requires f < |trace[0].fibers| && trace[0].fibers[f].In?
    ensures Reachable(n, trace[k]) && Kept(trace[0], trace[k], f)
  {
    if k > 0 {
      RunKeepsFiber(n, trace, steps, f, k - 1);
      StepReaches(n, trace[k - 1], steps[k - 1]);
      O.ReachableIsOk(n, trace[k - 1]);
      StepKeepsFiber(trace[k - 1], steps[k - 1], f);
      KeptTransitive(trace[0], trace[k - 1], trace[k], f);
    }
  }

  /** The world is made of steps of others, and new objects have new addresses. */
  ghost predicate Honest(n: nat, world: World, f: FiberId) {
    && (forall k, s {:trigger world.others(k, s)} ::
          Reachable(n, s) && s.failed.None? && f < |s.fibers| && s.fibers[f].In? ==> Between(s, world.others(k, s), f))
    && (forall s {:trigger world.address(s)} :: world.address(s) !in s.timers.all)
  }

  /** The fiber executes call `c`, on worker `w`, and is at `at`. */
  ghost predicate Here(n: nat, s: State, w: nat, f: FiberId, c: nat, at: Point) {
    && Reachable(n, s) && s.failed.None?
    && w < |s.workers| && s.workers[w] == Runs(f) && f < |s.fibers| && s.fibers[f] == In(c, at)
    && c < |s.calls| && s.calls[c].fiber == f && s.calls[c].outcome == Pending
  }

  /** Nothing more can be said of a call that has not returned than that an assertion has failed, or that its
      fiber is parked and nobody has resumed it. */
  ghost predicate Silent(s: State, f: FiberId, c: nat) {
    s.failed.Some? || (f < |s.fibers| && s.fibers[f] == In(c, Parked))
  }

  /** The parameters of a call never change. */
  predicate SameCall(s: State, s1: State, c: nat) {
    && c < |s.calls| && c < |s1.calls|
    && s1.calls[c].(cancelled := s.calls[c].cancelled, timer := s.calls[c].timer, waits := s.calls[c].waits,
                    outcome := s.calls[c].outcome) == s.calls[c]
  }

  /** Others act; afterwards the fiber is still there, unless an assertion has failed. */
  method Interlude(n: nat, s: State, ghost w: nat, ghost f: FiberId, ghost c: nat, ghost at: Point,
                   world: World, k: nat)
    returns (s1: State)
    requires Here(n, s, w, f, c, at) && Honest(n, world, f) && at != Parked
    ensures s1 == world.others(k, s) && Reachable(n, s1) && SameCall(s, s1, c)
    ensures s1.failed.None? ==> Here(n, s1, w, f, c, at)
  {
    s1 := world.others(k, s);
    ghost var trace, steps :| BetweenBy(trace, steps, f) && trace[0] == s && trace[|steps|] == s1;
    RunKeepsFiber(n, trace, steps, f, |steps|);
  }

  /** The fiber yields; others act until it is resumed, if it ever is. */
  method Suspend(n: nat, s: State, w: nat, f: FiberId, ghost c: nat, world: World, k: nat)
    returns (s1: State, w1: nat, resumed: bool)
    requires Here(n, s, w, f, c, Yielding) && Honest(n, world, f)
    ensures Reachable(n, s1) && SameCall(s, s1, c)
    ensures resumed ==> Here(n, s1, w1, f, c, Woken)
    ensures s1.failed.None? && !resumed ==> f < |s1.fibers| && s1.fibers[f] == In(c, Parked)
  {
    var s0 := SetWorker(Goto(s, w, Yielding, Parked), w, Free);
    StepReaches(n, s, Work(w, Move.Yield));
    s1 := world.others(k, s0);
    ghost var trace, steps :| BetweenBy(trace, steps, f) && trace[0] == s0 && trace[|steps|] == s1;
    RunKeepsFiber(n, trace, steps, f, |steps|);
    w1 := 0;
    resumed := s1.failed.None? && s1.fibers[f].at == Woken;
    if resumed {
      w1 := Locate(n, s1, f);
    }
  }

  /** The worker on which the fiber is. */
  method Locate(n: nat, s: State, f: FiberId) returns (w: nat)
    requires Reachable(n, s) && f < |s.fibers| && Active(s.fibers[f])
    ensures w < |s.workers| && s.workers[w] == Runs(f)
  {
    OneWorkerEach(n, s, f);
    w := 0;
    while s.workers[w] != Runs(f)
      invariant w < |s.workers| && forall v | 0 <= v < w :: s.workers[v] != Runs(f)
      decreases |s.workers| - w
    {
      w := w + 1;
    }
  }

  // ------------------------------------------------------- one wait

  /** The timer of a wait, if there is a timeout, or of a sleep. */
  method ArmTimer(n: nat, s: State, w: nat, ghost f: FiberId, ghost c: nat, world: World) returns (s1: State)
    requires Here(n, s, w, f, c, Arming) && Honest(n, world, f)
    ensures Here(n, s1, w, f, c, if s.calls[c].kind == Nap then Yielding else Adding) && SameCall(s, s1, c)
  {
    O.ReachableIsOk(n, s);
    var i := world.address(s);
    StepReaches(n, s, Work(w, Move.Arm(i)));
    s1 := DoArm(s, w, i);
  }

  method AddEvent(n: nat, s: State, w: nat, f: FiberId, ghost c: nat, ok: bool) returns (s1: State, added: bool)
    requires Here(n, s, w, f, c, Adding)
    ensures Reachable(n, s1) && SameCall(s, s1, c)
    ensures s1.failed.None? ==> Here(n, s1, w, f, c, if added then Yielding else Refused)
    ensures s1.failed.None? ==> (added <==> ok)
  {
    O.ReachableIsOk(n, s);
    E.AddEventSpec(s.events, s.calls[c].fd, s.calls[c].event, FiberTask(f), ok);
    StepReaches(n, s, Work(w, Move.Add(ok)));
    s1 := DoAdd(s, w, ok);
    added := s1.fibers[f] == In(s.fibers[f].call, Yielding);
  }

  /** After the wait: the timer is cancelled, if there is one. */
  method CancelTimer(n: nat, s: State, w: nat, ghost f: FiberId, c: nat) returns (s1: State)
    requires Here(n, s, w, f, c, Woken) && s.calls[c].kind != Nap
    ensures Here(n, s1, w, f, c, Checking) && SameCall(s, s1, c)
  {
    StepReaches(n, s, Work(w, Move.Disarm));
    s1 := Goto(s, w, Woken, Checking).(timers := Stopped(s.timers, s.calls[c].timer));
  }

  /** The first half of a wait: arm the timer, add the event. */
  method Register(n: nat, s0: State, w: nat, f: FiberId, ghost c: nat, world: World, k: nat)
    returns (s: State, added: bool)
    requires Here(n, s0, w, f, c, Arming) && Honest(n, world, f) && s0.calls[c].kind != Nap
    ensures Reachable(n, s) && SameCall(s0, s, c)
    ensures s.failed.None? ==> Here(n, s, w, f, c, if added then Yielding else Refused)
    ensures s.failed.None? ==> (added <==> world.accept(k))
  {
    added := false;
    s := ArmTimer(n, s0, w, f, c, world);
    s := Interlude(n, s, w, f, c, Adding, world, k);
    if s.failed.Some? { return; }
    s, added := AddEvent(n, s, w, f, c, world.accept(k));
  }

  /** The second half: yield, and cancel the timer. */
  method Block(n: nat, s0: State, w0: nat, f: FiberId, c: nat, world: World, k: nat)
    returns (s: State, w: nat, done: bool)
    requires Here(n, s0, w0, f, c, Yielding) && Honest(n, world, f) && s0.calls[c].kind != Nap
    ensures Reachable(n, s) && SameCall(s0, s, c)
    ensures if done then Here(n, s, w, f, c, Checking) else Silent(s, f, c)
  {
    done := false;
    s, w, done := Suspend(n, s0, w0, f, c, world, k);
    if !done { return; }
    done := false;
    s := Interlude(n, s, w, f, c, Woken, world, k + 1);
    if s.failed.Some? { return; }
    s := CancelTimer(n, s, w, f, c);
    s := Interlude(n, s, w, f, c, Checking, world, k + 2);
    done := s.failed.None?;
  }

  /** One wait. It ends before the flag is read, or where addEvent has failed; or never, if an assertion
      fails or nobody resumes the fiber. */
  method Await(n: nat, s0: State, w0: nat, f: FiberId, c: nat, world: World, k: nat)
    returns (s: State, w: nat, end: Option<Point>)
    requires Here(n, s0, w0, f, c, Arming) && Honest(n, world, f) && s0.calls[c].kind != Nap
    ensures Reachable(n, s) && SameCall(s0, s, c)
    ensures end.Some? ==> (end.value == Checking || end.value == Refused) && Here(n, s, w, f, c, end.value)
    ensures end.Some? ==> end == Some(if world.accept(k) then Checking else Refused)
    ensures end.None? ==> Silent(s, f, c)
  {
    w, end := w0, None;
    var added, done;
    s, added := Register(n, s0, w, f, c, world, k);
    if s.failed.Some? { return; }
    if !added { return s, w, Some(Refused); }
    s := Interlude(n, s, w, f, c, Yielding, world, k + 1);
    if s.failed.Some? { return; }
    s, w, done := Block(n, s, w, f, c, world, k + 2);
    if done {
      end := Some(Checking);
    }
  }

  // ------------------------------------------------------- ends of a call

  /** What is promised of a call that has returned. */
  ghost predicate Promised(s: State, c: nat)
    requires c < |s.calls|
  {
    && (s.calls[c].outcome == TimedOut ==>
          exists i ::
            && i in s.timers.all && s.timers.all[i].given == Some(Timeout(c)) && s.timers.all[i].fires == 1
            && s.timers.all[i].base in s.calls[c].waits
            && Plus(s.timers.all[i].base, s.calls[c].to) <= s.timers.all[i].firedAt <= s.now)
    && (s.calls[c].outcome == TimedOut && s.calls[c].kind != Nap ==> s.calls[c].to != MAX64)
    && (forall i | i in s.timers.live :: i in s.timers.all && s.timers.all[i].given != Some(Timeout(c)))
    && (s.calls[c].timer.Some? ==> s.calls[c].timer.value !in s.timers.live)
    && |s.owner| == |s.events.issued|
    && (forall t | 0 <= t < |s.owner| && s.owner[t] == Some(c) :: !E.Live(s.events, t))
  }

  lemma Promise(n: nat, s: State, c: nat)
    requires Reachable(n, s) && c < |s.calls| && s.calls[c].outcome != Pending
    ensures Promised(s, c)
  {
    O.NothingIsLeft(n, s, c);
    if s.calls[c].outcome == TimedOut {
      O.TimeoutIsSound(n, s, c);
      if s.calls[c].kind != Nap && s.calls[c].to == MAX64 {
        O.NoTimeoutNoTimer(n, s, c);
      }
    }
  }

  /** The call has returned with `outcome`, and the fiber goes on in its own code. */
  ghost predicate Back(n: nat, s: State, f: FiberId, c: nat, outcome: Outcome) {
    && Reachable(n, s) && s.failed.None? && f < |s.fibers| && s.fibers[f] == Own
    && c < |s.calls| && s.calls[c].outcome == outcome && Promised(s, c)
  }

  method Enter(n: nat, s: State, w: nat, kind: Kind, fd: E.Fd, event: E.Event, to: U64) returns (s1: State)
    requires Reachable(n, s) && s.failed.None? && InOwn(s, w) && fd < E.MAX_FD && (kind == Connect ==> event == E.WRITE)
    ensures Here(n, s1, w, s.workers[w].fiber, |s.calls|, if kind == Nap then Arming else Trying)
    ensures s1.calls[|s.calls|] == Call(s.workers[w].fiber, kind, fd, event, to, false, None, [], Pending)
  {
    StepReaches(n, s, Work(w, Begin(kind, fd, event, to)));
    s1 := DoBegin(s, w, kind, fd, event, to);
  }

  /** The hooked function is called, again and again while a signal interrupts it; `again` says that it has
      found nothing. */
  method CallFunction(n: nat, s: State, w: nat, ghost f: FiberId, ghost c: nat, again: bool) returns (s1: State)
    requires Here(n, s, w, f, c, Trying)
    ensures SameCall(s, s1, c)
    ensures if again then Here(n, s1, w, f, c, Arming) else Back(n, s1, f, c, Returned)
  {
    StepReaches(n, s, Work(w, Try(again)));
    if again {
      s1 := Goto(s, w, Trying, Arming);
    } else {
      s1 := Return(s, w, Trying, Returned);
      Promise(n, s1, c);
    }
  }

  method GiveUp(n: nat, s: State, w: nat, ghost f: FiberId, c: nat) returns (s1: State)
    requires Here(n, s, w, f, c, Refused)
    ensures Back(n, s1, f, c, AddFailed) && SameCall(s, s1, c)
  {
    StepReaches(n, s, Work(w, Move.GiveUp));
    s1 := Return(s, w, Refused, AddFailed).(timers := Stopped(s.timers, s.calls[c].timer));
    Promise(n, s1, c);
  }

  /** The flag is read: the call times out, or, for do_io, starts again. */
  method ReadFlag(n: nat, s: State, w: nat, ghost f: FiberId, c: nat) returns (s1: State, outcome: Outcome)
    requires Here(n, s, w, f, c, Checking)
    ensures SameCall(s, s1, c)
    ensures outcome == (if s.calls[c].cancelled then TimedOut else if s.calls[c].kind == Io then Pending else Returned)
    ensures if outcome == Pending then Here(n, s1, w, f, c, Trying) else Back(n, s1, f, c, outcome)
  {
    StepReaches(n, s, Work(w, Check));
    if s.calls[c].cancelled {
      outcome := TimedOut;
    } else if s.calls[c].kind == Io {
      outcome := Pending;
    } else {
      outcome := Returned;
    }
    if outcome == Pending {
      s1 := Goto(s, w, Checking, Trying);
    } else {
      s1 := Return(s, w, Checking, outcome);
      Promise(n, s1, c);
    }
  }

  // ----------------------------------------------------------- the hooks

  /** One round of do_io after the function has found nothing: Pending means that it tries again, if `again`
      is set, and otherwise that the call is never heard of again. */
  method WaitOnce(n: nat, s0: State, w0: nat, f: FiberId, c: nat, world: World, k: nat)
    returns (s: State, w: nat, outcome: Outcome, again: bool)
    requires Here(n, s0, w0, f, c, Arming) && Honest(n, world, f) && s0.calls[c].kind != Nap
    ensures Reachable(n, s) && SameCall(s0, s, c)
    ensures outcome != Pending ==> Back(n, s, f, c, outcome)
    ensures again ==> outcome == Pending && s.calls[c].kind == Io && Here(n, s, w, f, c, Trying)
    ensures outcome == Returned ==> s.calls[c].kind == Connect
    ensures outcome == Pending && !again ==> Silent(s, f, c)
    ensures outcome == AddFailed ==> !world.accept(k)
    ensures outcome == TimedOut || outcome == Returned || again ==> world.accept(k)
  {
    var end;
    s, w, end := Await(n, s0, w0, f, c, world, k);
    outcome, again := Pending, false;
    if end == Some(Refused) {
      s := GiveUp(n, s, w, f, c);
      outcome := AddFailed;
    } else if end == Some(Checking) {
      s, outcome := ReadFlag(n, s, w, f, c);
      again := outcome == Pending;
    }
  }

  /** One round of do_io. */
  method Round(n: nat, s0: State, w0: nat, f: FiberId, c: nat, world: World, tries: nat)
    returns (s: State, w: nat, outcome: Outcome, again: bool)
    requires Here(n, s0, w0, f, c, Trying) && Honest(n, world, f) && s0.calls[c].kind == Io
    ensures Reachable(n, s) && SameCall(s0, s, c)
    ensures outcome != Pending ==> Back(n, s, f, c, outcome)
    ensures again ==> outcome == Pending && Here(n, s, w, f, c, Trying)
    ensures outcome == Returned ==> !world.again(tries)
    ensures again || outcome == TimedOut || outcome == AddFailed ==> world.again(tries)
    ensures outcome == Pending && !again ==> Silent(s, f, c)
    ensures !world.again(tries) ==> outcome == Returned || s.failed.Some?
    ensures outcome == AddFailed ==> !world.accept(6 * tries + 1)
    ensures again ==> world.accept(6 * tries + 1)
  {
    w, outcome, again := w0, Pending, false;
    s := Interlude(n, s0, w, f, c, Trying, world, 6 * tries);
    if s.failed.Some? { return; }
    s := CallFunction(n, s, w, f, c, world.again(tries));
    if world.again(tries) {
      s, w, outcome, again := WaitOnce(n, s, w, f, c, world, 6 * tries + 1);
    } else {
      outcome := Returned;
    }
  }

  /** do_io: retry until the function finds something, the wait times out, or addEvent fails. `patience`
      bounds how long it is watched; a call that has not returned by then is Pending, as is one that is
      never resumed. `tries` counts the rounds in which the function found nothing and do_io tried again. */
  method DoIo(n: nat, s0: State, w0: nat, fd: E.Fd, event: E.Event, to: U64, world: World, patience: nat)
    returns (s: State, outcome: Outcome, tries: nat)
    requires Reachable(n, s0) && s0.failed.None? && InOwn(s0, w0) && fd < E.MAX_FD
    requires Honest(n, world, s0.workers[w0].fiber)
    ensures Reachable(n, s) && |s0.calls| < |s.calls|
    ensures var call := s.calls[|s0.calls|];
            call.fiber == s0.workers[w0].fiber && call.fd == fd && call.event == event && call.to == to
    ensures outcome != Pending ==> Back(n, s, s0.workers[w0].fiber, |s0.calls|, outcome)
    ensures forall j | 0 <= j < tries :: world.again(j)
    ensures outcome == Returned ==> !world.again(tries)
    ensures outcome == TimedOut || outcome == AddFailed ==> world.again(tries)
    ensures outcome == AddFailed ==> !world.accept(6 * tries + 1)
    ensures forall j | 0 <= j < tries :: world.accept(6 * j + 1)
    ensures outcome == Pending ==> tries == patience || Silent(s, s0.workers[w0].fiber, |s0.calls|)
    ensures tries < patience && !world.again(tries) ==> outcome == Returned || s.failed.Some?
  {
    var f, c, w := s0.workers[w0].fiber, |s0.calls|, w0;
    s := Enter(n, s0, w, Io, fd, event, to);
    outcome, tries := Pending, 0;
    ghost var first := s;
    while tries < patience
      invariant Here(n, s, w, f, c, Trying) && SameCall(first, s, c) && outcome == Pending
      invariant tries <= patience
      invariant forall j | 0 <= j < tries :: world.again(j) && world.accept(6 * j + 1)
    {
      var again;
      s, w, outcome, again := Round(n, s, w, f, c, world, tries);
      if !again { return; }
      tries := tries + 1;
    }
  }

  /** connect_with_timeout: one call, one wait. */
  method ConnectWithTimeout(n: nat, s0: State, w0: nat, fd: E.Fd, timeout: U64, world: World)
    returns (s: State, outcome: Outcome)
    requires Reachable(n, s0) && s0.failed.None? && InOwn(s0, w0) && fd < E.MAX_FD
    requires Honest(n, world, s0.workers[w0].fiber)
    ensures Reachable(n, s) && |s0.calls| < |s.calls|
    ensures var call := s.calls[|s0.calls|];
            call.fiber == s0.workers[w0].fiber && call.fd == fd && call.event == E.WRITE && call.to == timeout
    ensures outcome != Pending ==> Back(n, s, s0.workers[w0].fiber, |s0.calls|, outcome)
    ensures !world.again(0) ==> outcome == Returned || s.failed.Some?
    ensures outcome == TimedOut ==> world.again(0)
    ensures outcome == AddFailed ==> world.again(0) && !world.accept(1)
    ensures outcome == Pending ==> Silent(s, s0.workers[w0].fiber, |s0.calls|)
  {
    var f, c := s0.workers[w0].fiber, |s0.calls|;
    s := Enter(n, s0, w0, Connect, fd, E.WRITE, timeout);
    outcome := Pending;
    s := Interlude(n, s, w0, f, c, Trying, world, 0);
    if s.failed.Some? { return; }
    s := CallFunction(n, s, w0, f, c, world.again(0));
    if !world.again(0) {
      outcome := Returned;
    } else {
      var w, again;
      s, w, outcome, again := WaitOnce(n, s, w0, f, c, world, 1);
    }
  }

  /** sleep: arm a timer that schedules the fiber, and yield. It returns no earlier than its period after
      it began. */
  method Sleep(n: nat, s0: State, w0: nat, ms: U64, world: World) returns (s: State, returned: bool)
    requires Reachable(n, s0) && s0.failed.None? && InOwn(s0, w0)
    requires Honest(n, world, s0.workers[w0].fiber)
    ensures Reachable(n, s) && |s0.calls| < |s.calls|
    ensures returned ==> Back(n, s, s0.workers[w0].fiber, |s0.calls|, Returned)
    ensures returned ==> exists began :: began in s.calls[|s0.calls|].waits && Plus(began, ms) <= s.now
    ensures !returned ==> Silent(s, s0.workers[w0].fiber, |s0.calls|)
  {
    var f, c := s0.workers[w0].fiber, |s0.calls|;
    returned := false;
    s := Enter(n, s0, w0, Nap, 0, E.READ, ms);
    ghost var first := s;
    s := Interlude(n, s, w0, f, c, Arming, world, 0);
    if s.failed.Some? { return; }
    s := ArmTimer(n, s, w0, f, c, world);
    s := Interlude(n, s, w0, f, c, Yielding, world, 1);
    if s.failed.Some? { return; }
    var w;
    s, w, returned := Suspend(n, s, w0, f, c, world, 2);
    if returned {
      s := Wake(n, s, w, f, c);
    }
  }

  /** The end of a sleep. */
  method Wake(n: nat, s: State, w: nat, ghost f: FiberId, ghost c: nat) returns (s1: State)
    requires Here(n, s, w, f, c, Woken) && s.calls[c].kind == Nap
    ensures Back(n, s1, f, c, Returned) && SameCall(s, s1, c)
    ensures exists began :: began in s1.calls[c].waits && Plus(began, s.calls[c].to) <= s1.now
  {
    StepReaches(n, s, Work(w, Move.Disarm));
    s1 := Return(s, w, Woken, Returned);
    Promise(n, s1, c);
    O.SleepIsLongEnough(n, s1, c);
    assert s1.timers.all[s1.calls[c].timer.value].base in s1.calls[c].waits;
  }
}
