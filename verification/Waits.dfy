/** A wait for an event ends by an event: the one wake-up of a fiber in do_io or connect_with_timeout is its live
    registration or a queued task that resumes it. So the timeout callback, once it has cancelled the event, has
    put the fiber back into the queue. */
module Waits {
  import opened Tasks
  import opened Blocking
  import opened Wakeups
  import E = EventModel
  import T = TimerModel
  import R = EventRuns
  import O = Timeouts

  /** Fiber `f` waits for an event. */
  predicate InWait(s: State, f: FiberId) {
    && f < |s.fibers| && O.Asleep(s.fibers[f]) && s.fibers[f].call < |s.calls|
    && s.calls[s.fibers[f].call].kind != Nap
  }

  function Chances(s: State, f: FiberId): nat {
    |Awaiting(s.events, f)| + Resumes(s.queue, f)
  }

  ghost predicate WaitOk(s: State, f: FiberId) {
    InWait(s, f) ==> Chances(s, f) == 1
  }

  /** Whoever is in a wait was in it before, with the same chances, or has just begun it. */
  lemma Carries(s: State, s1: State, f: FiberId)
    requires WaitOk(s, f)
    requires InWait(s1, f) ==> InWait(s, f) && Chances(s1, f) >= Chances(s, f)
    requires O.Balanced(s1)
    ensures WaitOk(s1, f)
  {
    assert Balance(s1, f) == 0;
  }

  lemma TakeWait(s: State, w: nat, k: nat, f: FiberId)
    requires w < |s.workers| && CanMove(s, w, Take(k)) && WaitOk(s, f) && O.Balanced(DoTake(s, w, k))
    ensures WaitOk(DoTake(s, w, k), f)
  {
    assert s.queue == s.queue[..k] + [s.queue[k]] + s.queue[k + 1..];
    Carries(s, DoTake(s, w, k), f);
  }

  lemma AddWait(s: State, w: nat, ok: bool, f: FiberId)
    requires O.Balanced(s) && w < |s.workers| && CanMove(s, w, Add(ok)) && WaitOk(s, f)
    ensures WaitOk(DoAdd(s, w, ok), f)
  {
    var g, call := s.workers[w].fiber, s.calls[Current(s, w, Adding)];
    AddRegistryBalance(s.events, call.fd, call.event, g, ok, f);
    assert Balance(s, f) == 0;
  }

  lemma DispatchWait(s: State, w: nat, ok: bool, f: FiberId)
    requires Sane(s) && w < |s.workers| && CanMove(s, w, DispatchNext(ok)) && WaitOk(s, f)
    ensures WaitOk(DoDispatch(s, w, ok), f)
  {
    var report := s.workers[w].reports[0];
    if E.Dispatch(s.events, report, ok).1 != E.Aborted {
      DispatchEnds(s.events, report, ok);
      EndsBalance(s.events, E.Dispatch(s.events, report, ok).0, s.queue, f);
    }
  }

  lemma FireWait(s: State, w: nat, ok: bool, f: FiberId)
    requires Sane(s) && w < |s.workers| && CanMove(s, w, Fire(ok)) && WaitOk(s, f)
    ensures WaitOk(DoFire(s, w, ok), f)
  {
    var call := s.calls[s.workers[w].call];
    if s.workers[w].stage >= 2 {
      CancelEnds(s.events, call.fd, call.event, ok);
      EndsBalance(s.events, E.CancelEvent(s.events, call.fd, call.event, ok).0, s.queue, f);
    }
  }

  lemma UseWait(s: State, op: R.Op, f: FiberId)
    requires Sane(s) && UserEvent(s.events, op) && WaitOk(s, f)
    ensures WaitOk(DoUse(s, op), f)
  {
    if R.Apply(s.events, op).1 != E.Aborted {
      UseRegistryBalance(s.events, op, s.queue, f);
    }
  }

  /** The other moves leave the registry alone, only add to the queue, and let no fiber begin a wait. */
  lemma LocalWait(s: State, w: nat, move: Move, f: FiberId)
    requires Sane(s) && w < |s.workers| && CanMove(s, w, move) && WaitOk(s, f) && O.Balanced(DoMove(s, w, move))
    requires !move.Take? && !Eventful(move)
    ensures WaitOk(DoMove(s, w, move), f)
  {
    UneventfulMove(s, w, move);
    LocalFrame(s, w, move, f);
    Carries(s, DoMove(s, w, move), f);
  }

  lemma LocalFrame(s: State, w: nat, move: Move, f: FiberId)
    requires Sane(s) && w < |s.workers| && CanMove(s, w, move) && !move.Take? && !Eventful(move)
    ensures InWait(DoMove(s, w, move), f) ==> InWait(s, f)
    ensures Resumes(DoMove(s, w, move).queue, f) >= Resumes(s.queue, f)
  {
    LocalFibers(s, w, move, f);
    LocalQueue(s, w, move, f);
  }

  lemma LocalFibers(s: State, w: nat, move: Move, f: FiberId)
    requires Sane(s) && w < |s.workers| && CanMove(s, w, move) && !move.Take? && !Eventful(move)
    ensures InWait(DoMove(s, w, move), f) ==> InWait(s, f)
  {
    if f < |s.fibers| {
      assert Inside(s, f);
    }
    if move.Arm? {
      ArmFibers(s, w, move.i, f);
    } else if Timed(move) {
      LocalFibersTimed(s, w, move, f);
    } else {
      LocalFibersUntimed(s, w, move, f);
    }
  }

  lemma ArmFibers(s: State, w: nat, i: T.TimerId, f: FiberId)
    requires Sane(s) && w < |s.workers| && CanMove(s, w, Arm(i))
    ensures InWait(DoArm(s, w, i), f) ==> InWait(s, f)
  {
    assert Inside(s, s.workers[w].fiber);
    if f < |s.fibers| {
      assert Inside(s, f);
    }
    ArmArms(s, w, i);
  }

  lemma LocalFibersTimed(s: State, w: nat, move: Move, f: FiberId)
    requires w < |s.workers| && CanMove(s, w, move) && (move.Collect? || move.GiveUp? || move.Disarm?)
    requires f < |s.fibers| ==> Inside(s, f)
    ensures InWait(DoMove(s, w, move), f) ==> InWait(s, f)
  {
  }

  lemma LocalFibersUntimed(s: State, w: nat, move: Move, f: FiberId)
    requires w < |s.workers| && CanMove(s, w, move) && !move.Take? && !Eventful(move) && !Timed(move)
    requires f < |s.fibers| ==> Inside(s, f)
    ensures InWait(DoMove(s, w, move), f) ==> InWait(s, f)
  {
  }

  lemma LocalQueue(s: State, w: nat, move: Move, f: FiberId)
    requires w < |s.workers| && CanMove(s, w, move) && !move.Take? && !Eventful(move)
    ensures Resumes(DoMove(s, w, move).queue, f) >= Resumes(s.queue, f)
  {
  }

  lemma StepKeepsWait(s: State, step: Step, f: FiberId)
    requires O.Balanced(s) && O.Ok(s) && Can(s, step) && WaitOk(s, f)
    ensures WaitOk(Do(s, step), f)
  {
    O.StepKeepsOk(s, step);
    match step
    case Work(w, move) =>
      if move.Take? {
        TakeWait(s, w, move.k, f);
      } else if move.Add? {
        AddWait(s, w, move.ok, f);
      } else if move.Use? {
        UseWait(s, move.op, f);
      } else if move.DispatchNext? {
        DispatchWait(s, w, move.ok, f);
      } else if move.Fire? {
        FireWait(s, w, move.ok, f);
      } else {
        LocalWait(s, w, move, f);
      }
    case _ =>
      Carries(s, Do(s, step), f);
  }

  lemma {:induction false} RunKeepsWait(n: nat, trace: seq<State>, steps: seq<Step>, k: nat, f: FiberId)
    requires IsRun(n, trace, steps) && k < |trace|
    ensures WaitOk(trace[k], f)
  {
    if k > 0 {
      RunKeepsWait(n, trace, steps, k - 1, f);
      O.RunIsOk(n, trace, steps, k - 1);
      StepKeepsWait(trace[k - 1], steps[k - 1], f);
    }
  }

  /** In every run a fiber that waits for an event has a live registration, or is queued to be resumed, and
      not both. */
  lemma WaitsForEvent(n: nat, s: State, f: FiberId)
    requires Reachable(n, s) && InWait(s, f)
    ensures |Awaiting(s.events, f)| + Resumes(s.queue, f) == 1
  {
    var trace, steps :| IsRun(n, trace, steps) && trace[|trace| - 1] == s;
    RunKeepsWait(n, trace, steps, |trace| - 1, f);
  }

  /** A timeout ends the wait: when the timeout callback of a call cancels the event and the kernel accepts,
      the fiber of the call, if it is still waiting in it, is in the queue. */
  lemma TimeoutEndsWait(n: nat, s: State, w: nat)
    requires Reachable(n, s) && s.failed.None?
    requires w < |s.workers| && CanMove(s, w, Fire(true)) && s.workers[w].stage >= 2
    ensures var c, s1 := s.workers[w].call, DoMove(s, w, Fire(true));
            var f := s.calls[c].fiber;
            f < |s.fibers| && O.Asleep(s.fibers[f]) && s.fibers[f].call == c ==>
              FiberTask(f) in s1.queue && Awaiting(s1.events, f) == {}
  {
    O.ReachableIsOk(n, s);
    FireReaches(n, s, w);
    var c, s1 := s.workers[w].call, DoFire(s, w, true);
    var f := s.calls[c].fiber;
    if f < |s.fibers| && O.Asleep(s.fibers[f]) && s.fibers[f].call == c {
      NotNap(s, w);
      WaitsForEvent(n, s1, f);
      NothingAwaited(s, c);
    }
  }

  lemma FireReaches(n: nat, s: State, w: nat)
    requires Reachable(n, s) && s.failed.None? && w < |s.workers| && CanMove(s, w, Fire(true))
    ensures Reachable(n, DoFire(s, w, true)) && DoMove(s, w, Fire(true)) == DoFire(s, w, true)
  {
    StepReaches(n, s, Work(w, Fire(true)));
  }

  lemma NothingAwaited(s: State, c: nat)
    requires Sane(s) && O.OwnersOk(s) && c < |s.calls|
    requires var f := s.calls[c].fiber; f < |s.fibers| && O.Asleep(s.fibers[f]) && s.fibers[f].call == c
    ensures Awaiting(E.CancelEvent(s.events, s.calls[c].fd, s.calls[c].event, true).0, s.calls[c].fiber) == {}
  {
    var r := E.CancelEvent(s.events, s.calls[c].fd, s.calls[c].event, true).0;
    forall t ensures t !in Awaiting(r, s.calls[c].fiber) {
      CancelledAway(s, c, t);
    }
  }

  lemma NotNap(s: State, w: nat)
    requires O.Ok(s) && w < |s.workers| && s.workers[w].Fires? && s.workers[w].call < |s.calls|
    ensures s.calls[s.workers[w].call].kind != Nap
  {
    var c := s.workers[w].call;
    assert O.CarriesFired(s.timers, s.workers[w]);
    var i :| i in s.timers.all && s.timers.all[i].given == Some(Timeout(c)) && s.timers.all[i].fires > 0;
    assert O.Made(s, i);
  }

  /** Cancelling the event of a call ends its registration. */
  lemma CancelledAway(s: State, c: nat, t: nat)
    requires Sane(s) && O.OwnersOk(s) && c < |s.calls|
    requires var f := s.calls[c].fiber; f < |s.fibers| && O.Asleep(s.fibers[f]) && s.fibers[f].call == c
    ensures t !in Awaiting(E.CancelEvent(s.events, s.calls[c].fd, s.calls[c].event, true).0, s.calls[c].fiber)
  {
    var call := s.calls[c];
    E.CancelEventSpec(s.events, call.fd, call.event, true);
    var r := E.CancelEvent(s.events, call.fd, call.event, true).0;
    if t in Awaiting(s.events, call.fiber) {
      assert O.OwnerOk(s, t) && E.FateInv(s.events, t) && E.Live(s.events, t);
      assert r.log[|s.events.log|] == t;
    }
  }
}
