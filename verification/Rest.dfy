/**
 The runtime at rest. When the queue, the timers and the counter of pending events are empty and no worker does
 anything, every fiber has ended and every call has returned: nobody is left behind in a wait.
 */
module Rest {
  import opened Tasks
  import opened Blocking
  import opened Wakeups
  import E = EventModel
  import M = Timeouts
  import P = Placement
  import T = TimerModel

  /** What the shutdown test asks for, with no worker under way. */
  ghost predicate AtRest(s: State) {
    && s.queue == [] && s.timers.live == {} && s.events.pending == 0
    && forall w | 0 <= w < |s.workers| :: s.workers[w] == Free
  }

  /** Nobody is inside a hook. */
  ghost predicate AllEnded(s: State) {
    && (forall f | 0 <= f < |s.fibers| :: s.fibers[f] == Ended)
    && (forall c | 0 <= c < |s.calls| :: s.calls[c].outcome != Pending)
  }

  // ------------------------------------------------ a pending call has its fiber

  ghost predicate Inhabited(s: State) {
    forall c | 0 <= c < |s.calls| && s.calls[c].outcome == Pending ::
      s.calls[c].fiber < |s.fibers| && s.fibers[s.calls[c].fiber].In? && s.fibers[s.calls[c].fiber].call == c
  }

  lemma GotoInhabited(s: State, w: nat, from: Point, to: Point)
    requires Inhabited(s) && At(s, w, from)
    ensures Inhabited(Goto(s, w, from, to))
  {
  }

  lemma ReturnInhabited(s: State, w: nat, from: Point, outcome: Outcome)
    requires SaneCalls(s) && Inhabited(s) && At(s, w, from) && outcome != Pending
    ensures Inhabited(Return(s, w, from, outcome))
  {
    assert Inside(s, s.workers[w].fiber);
  }

  predicate GoesOn(move: Move) {
    move.Arm? || move.Add? || move.Yield?
  }

  predicate MayReturn(move: Move) {
    move.Try? || move.GiveUp? || move.Disarm? || move.Check?
  }

  lemma ArmInhabited(s: State, w: nat, i: T.TimerId)
    requires Inhabited(s) && w < |s.workers| && CanMove(s, w, Arm(i))
    ensures Inhabited(DoArm(s, w, i))
  {
    GotoInhabited(s, w, Arming, Yielding);
    GotoInhabited(s, w, Arming, Adding);
  }

  /** A fiber moves on inside its call. */
  lemma OnKeepsInhabited(s: State, w: nat, move: Move)
    requires Inhabited(s) && w < |s.workers| && CanMove(s, w, move) && GoesOn(move)
    ensures Inhabited(DoMove(s, w, move))
  {
    match move
    case Arm(i) => ArmInhabited(s, w, i);
    case Add(_) =>
      GotoInhabited(s, w, Adding, Yielding);
      GotoInhabited(s, w, Adding, Refused);
    case Yield => GotoInhabited(s, w, Yielding, Parked);
  }

  /** A fiber moves on inside its call, or returns from it. */
  lemma ReturnKeepsInhabited(s: State, w: nat, move: Move)
    requires SaneCalls(s) && Inhabited(s) && w < |s.workers| && CanMove(s, w, move) && MayReturn(move)
    ensures Inhabited(DoMove(s, w, move))
  {
    match move
    case Try(_) =>
      GotoInhabited(s, w, Trying, Arming);
      ReturnInhabited(s, w, Trying, Returned);
    case GiveUp => ReturnInhabited(s, w, Refused, AddFailed);
    case Disarm =>
      GotoInhabited(s, w, Woken, Checking);
      ReturnInhabited(s, w, Woken, Returned);
    case Check =>
      GotoInhabited(s, w, Checking, Trying);
      ReturnInhabited(s, w, Checking, TimedOut);
      ReturnInhabited(s, w, Checking, Returned);
  }

  /** A fiber outside of any call begins one, uses the registry, or ends. */
  lemma OwnKeepsInhabited(s: State, w: nat, move: Move)
    requires Inhabited(s) && w < |s.workers| && CanMove(s, w, move) && (move.Begin? || move.Use? || move.End?)
    ensures Inhabited(DoMove(s, w, move))
  {
  }

  lemma OtherKeepsInhabited(s: State, w: nat, move: Move)
    requires Inhabited(s) && w < |s.workers| && CanMove(s, w, move) && !s.workers[w].Runs?
    ensures Inhabited(DoMove(s, w, move))
  {
  }

  lemma StepKeepsInhabited(s: State, step: Step)
    requires SaneCalls(s) && Inhabited(s) && Can(s, step)
    ensures Inhabited(Do(s, step))
  {
    if step.Work? {
      if GoesOn(step.move) {
        OnKeepsInhabited(s, step.w, step.move);
      } else if MayReturn(step.move) {
        ReturnKeepsInhabited(s, step.w, step.move);
      } else if s.workers[step.w].Runs? {
        OwnKeepsInhabited(s, step.w, step.move);
      } else {
        OtherKeepsInhabited(s, step.w, step.move);
      }
    }
  }

  lemma {:induction false} RunIsInhabited(n: nat, trace: seq<State>, steps: seq<Step>, k: nat)
    requires IsRun(n, trace, steps) && k < |trace|
    ensures Inhabited(trace[k])
  {
    if k > 0 {
      RunIsInhabited(n, trace, steps, k - 1);
      RunIsSane(n, trace, steps, k - 1, 0);
      StepKeepsInhabited(trace[k - 1], steps[k - 1]);
    }
  }

  // ------------------------------------------------------------- nothing wakes

  lemma {:induction false} FreeCarry(ws: seq<Worker>, f: FiberId)
    requires forall w | 0 <= w < |ws| :: ws[w] == Free
    ensures CarriedBy(ws, f) == 0
  {
    if ws != [] {
      FreeCarry(ws[1..], f);
    }
  }

  /** With the counter at zero no fiber waits for an event. */
  lemma NobodyAwaits(e: E.Registry, f: FiberId)
    requires E.Inv(e) && e.pending == 0
    ensures Awaiting(e, f) == {}
  {
    E.NothingPending(e);
    forall t | 0 <= t < |e.issued| ensures t in e.log || t in e.dropped {
      assert E.FateInv(e, t) && !E.Live(e, t);
    }
  }

  /** At rest, in every run and for any number of workers, every fiber has ended and every call has returned. */
  lemma RestMeansEnded(n: nat, s: State)
    requires Reachable(n, s) && AtRest(s)
    ensures AllEnded(s)
  {
    M.ReachableIsOk(n, s);
    forall f | 0 <= f < |s.fibers| ensures s.fibers[f] == Ended {
      OneWakeupEach(n, s, f);
      NobodyAwaits(s.events, f);
      FreeCarry(s.workers, f);
      assert Napping(s.timers, f) == {};
      P.OneWorkerEach(n, s, f);
    }
    var trace, steps :| IsRun(n, trace, steps) && trace[|trace| - 1] == s;
    RunIsInhabited(n, trace, steps, |trace| - 1);
  }
}
