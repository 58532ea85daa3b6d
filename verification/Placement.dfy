/** Which worker runs which fiber: in every run, a fiber that is not suspended is on exactly one worker. */
module Placement {
  import opened Words
  import opened Tasks
  import opened Blocking
  import opened Wakeups
  import E = EventModel
  import T = TimerModel

  /** On some processor. */
  predicate Active(pc: Pc) {
    pc == Own || (pc.In? && pc.at != Parked)
  }

  ghost predicate On(s: State, f: FiberId) {
    exists w :: 0 <= w < |s.workers| && s.workers[w] == Runs(f)
  }

  predicate Sound(s: State, w: nat)
    requires w < |s.workers|
  {
    s.workers[w].Runs? ==> s.workers[w].fiber < |s.fibers| && Active(s.fibers[s.workers[w].fiber])
  }

  ghost predicate Placed(s: State) {
    && (forall w | 0 <= w < |s.workers| :: Sound(s, w))
    && (forall f | 0 <= f < |s.fibers| && Active(s.fibers[f]) :: On(s, f))
    && (forall v, w | 0 <= v < w < |s.workers| && s.workers[v].Runs? :: s.workers[v] != s.workers[w])
  }

  /** Nobody starts or stops running a fiber. */
  lemma SamePlaces(s: State, s1: State)
    requires Placed(s) && |s.fibers| <= |s1.fibers| && |s1.workers| == |s.workers|
    requires forall f | 0 <= f < |s.fibers| :: Active(s1.fibers[f]) <==> Active(s.fibers[f])
    requires forall f | |s.fibers| <= f < |s1.fibers| :: !Active(s1.fibers[f])
    requires forall w | 0 <= w < |s.workers| ::
      s1.workers[w] == s.workers[w] || (!s1.workers[w].Runs? && !s.workers[w].Runs?)
    ensures Placed(s1)
  {
    forall w | 0 <= w < |s.workers| ensures Sound(s1, w) {
      assert Sound(s, w);
    }
    forall f | 0 <= f < |s1.fibers| && Active(s1.fibers[f]) ensures On(s1, f) {
      var w :| 0 <= w < |s.workers| && s.workers[w] == Runs(f);
      assert s1.workers[w] == Runs(f);
    }
  }

  /** A free worker begins to run a fiber that was on none. */
  lemma Starts(s: State, s1: State, w: nat, f: FiberId)
    requires Placed(s) && w < |s.workers| && s.workers[w] == Free && s1.workers == s.workers[w := Runs(f)]
    requires f < |s1.fibers| && Active(s1.fibers[f]) && |s.fibers| <= |s1.fibers| <= |s.fibers| + 1
    requires |s1.fibers| > |s.fibers| ==> f == |s.fibers|
    requires f < |s.fibers| ==> !Active(s.fibers[f])
    requires forall g | 0 <= g < |s.fibers| && g != f :: s1.fibers[g] == s.fibers[g]
    ensures Placed(s1)
  {
    forall v | 0 <= v < |s.workers| ensures Sound(s1, v) {
      assert Sound(s, v);
    }
    forall g | 0 <= g < |s1.fibers| && Active(s1.fibers[g]) ensures On(s1, g) {
      if g == f {
        assert s1.workers[w] == Runs(f);
      } else {
        var v :| 0 <= v < |s.workers| && s.workers[v] == Runs(g);
        assert s1.workers[v] == Runs(g);
      }
    }
    forall u, v | 0 <= u < v < |s.workers| && s1.workers[u].Runs? ensures s1.workers[u] != s1.workers[v] {
      assert Sound(s, u) && Sound(s, v);
    }
  }

  /** A worker lets go of its fiber, which is suspended or has ended. */
  lemma Ceases(s: State, s1: State, w: nat)
    requires Placed(s) && w < |s.workers| && s.workers[w].Runs? && s1.workers == s.workers[w := Free]
    requires var f := s.workers[w].fiber;
             && f < |s.fibers| == |s1.fibers| && !Active(s1.fibers[f])
             && forall g | 0 <= g < |s.fibers| && g != f :: s1.fibers[g] == s.fibers[g]
    ensures Placed(s1)
  {
    forall v | 0 <= v < |s.workers| ensures Sound(s1, v) {
      assert Sound(s, v);
    }
    forall g | 0 <= g < |s1.fibers| && Active(s1.fibers[g]) ensures On(s1, g) {
      var v :| 0 <= v < |s.workers| && s.workers[v] == Runs(g);
      assert s1.workers[v] == Runs(g);
    }
  }

  lemma TakePlaces(s: State, w: nat, k: nat)
    requires Placed(s) && w < |s.workers| && CanMove(s, w, Take(k))
    ensures Placed(DoTake(s, w, k))
  {
    var s1 := DoTake(s, w, k);
    match s.queue[k]
    case FiberTask(f) =>
      if Ready(s.fibers[f]) {
        Starts(s, s1, w, f);
      } else {
        SamePlaces(s, s1);
      }
    case CallbackTask(cb) =>
      if cb.User? {
        Starts(s, s1, w, |s.fibers|);
      } else {
        SamePlaces(s, s1);
      }
  }

  lemma ArmPlaces(s: State, w: nat, i: T.TimerId)
    requires Placed(s) && w < |s.workers| && CanMove(s, w, Arm(i))
    ensures Placed(DoArm(s, w, i))
  {
    SamePlaces(s, DoArm(s, w, i));
  }

  lemma AddPlaces(s: State, w: nat, ok: bool)
    requires Placed(s) && w < |s.workers| && CanMove(s, w, Add(ok))
    ensures Placed(DoAdd(s, w, ok))
  {
    SamePlaces(s, DoAdd(s, w, ok));
  }

  lemma FirePlaces(s: State, w: nat, ok: bool)
    requires Placed(s) && w < |s.workers| && CanMove(s, w, Fire(ok))
    ensures Placed(DoFire(s, w, ok))
  {
    SamePlaces(s, DoFire(s, w, ok));
  }

  lemma DispatchPlaces(s: State, w: nat, ok: bool)
    requires Placed(s) && w < |s.workers| && CanMove(s, w, DispatchNext(ok))
    ensures Placed(DoDispatch(s, w, ok))
  {
    SamePlaces(s, DoDispatch(s, w, ok));
  }

  lemma CallPlaces(s: State, w: nat, move: Move)
    requires Placed(s) && w < |s.workers| && CanMove(s, w, move)
    requires move.Begin? || move.Try? || move.GiveUp? || move.Disarm? || move.Check?
    ensures Placed(DoMove(s, w, move))
  {
    SamePlaces(s, DoMove(s, w, move));
  }

  lemma IdlePlaces(s: State, w: nat, move: Move)
    requires Placed(s) && w < |s.workers| && CanMove(s, w, move)
    requires move.Poll? || move.Collect? || move.Post? || move.DispatchDone? || move.Wake? || move.Use?
    ensures Placed(DoMove(s, w, move))
  {
    SamePlaces(s, DoMove(s, w, move));
  }

  lemma CeasePlaces(s: State, w: nat, move: Move)
    requires Placed(s) && w < |s.workers| && CanMove(s, w, move) && (move.Yield? || move.End?)
    ensures Placed(DoMove(s, w, move))
  {
    assert Sound(s, w);
    Ceases(s, DoMove(s, w, move), w);
  }

  lemma MoveKeepsPlaces(s: State, w: nat, move: Move)
    requires Placed(s) && w < |s.workers| && CanMove(s, w, move)
    ensures Placed(DoMove(s, w, move))
  {
    if move.Take? {
      TakePlaces(s, w, move.k);
    } else if move.Arm? {
      ArmPlaces(s, w, move.i);
    } else if move.Add? {
      AddPlaces(s, w, move.ok);
    } else if move.Fire? {
      FirePlaces(s, w, move.ok);
    } else if move.DispatchNext? {
      DispatchPlaces(s, w, move.ok);
    } else if move.Yield? || move.End? {
      CeasePlaces(s, w, move);
    } else if move.Begin? || move.Try? || move.GiveUp? || move.Disarm? || move.Check? {
      CallPlaces(s, w, move);
    } else {
      IdlePlaces(s, w, move);
    }
  }

  lemma StepKeepsPlaces(s: State, step: Step)
    requires Placed(s) && Can(s, step)
    ensures Placed(Do(s, step))
  {
    match step
    case Work(w, move) => MoveKeepsPlaces(s, w, move);
    case _ => SamePlaces(s, Do(s, step));
  }

  lemma {:induction false} RunIsPlaced(n: nat, trace: seq<State>, steps: seq<Step>, k: nat)
    requires IsRun(n, trace, steps) && k < |trace|
    ensures Placed(trace[k])
  {
    if k > 0 {
      RunIsPlaced(n, trace, steps, k - 1);
      StepKeepsPlaces(trace[k - 1], steps[k - 1]);
    }
  }

  /** In every run a fiber is on a worker exactly from being picked to yielding or ending, and then on
      exactly one. */
  lemma OneWorkerEach(n: nat, s: State, f: FiberId)
    requires Reachable(n, s) && f < |s.fibers|
    ensures Active(s.fibers[f]) <==> exists w :: 0 <= w < |s.workers| && s.workers[w] == Runs(f)
    ensures forall v, w | 0 <= v < w < |s.workers| :: !(s.workers[v] == Runs(f) && s.workers[w] == Runs(f))
  {
    var trace, steps :| IsRun(n, trace, steps) && trace[|trace| - 1] == s;
    RunIsPlaced(n, trace, steps, |trace| - 1);
    assert Active(s.fibers[f]) ==> On(s, f);
    if w :| 0 <= w < |s.workers| && s.workers[w] == Runs(f) {
      assert Sound(s, w);
    }
  }

  // -------------------------------------------------- what others leave alone

  /** The step is made by the worker on which `f` is. */
  predicate ByFiber(s: State, step: Step, f: FiberId) {
    step.Work? && step.w < |s.workers| && s.workers[step.w] == Runs(f)
  }

  /** A fiber inside a call stays where it is, on the worker where it is, and keeps its variables; it can be
      resumed if it was parked, and its flag can be set, never cleared. */
  ghost predicate Kept(s: State, s1: State, f: FiberId)
    requires f < |s.fibers| && s.fibers[f].In?
  {
    && f < |s1.fibers| && |s1.workers| == |s.workers| && |s.calls| <= |s1.calls|
    && (|| s1.fibers[f] == s.fibers[f]
        || (s.fibers[f].at == Parked && s1.fibers[f] == In(s.fibers[f].call, Woken)))
    && (forall w | 0 <= w < |s.workers| && s.workers[w] == Runs(f) :: s1.workers[w] == Runs(f))
    && (forall c | 0 <= c < |s.calls| && s.calls[c].fiber == f ::
          s1.calls[c] == s.calls[c].(cancelled := s.calls[c].cancelled || s1.calls[c].cancelled))
  }

  /** A fiber that is not inside a call stays outside. */
  predicate Outside(s: State, s1: State, f: FiberId) {
    f < |s1.fibers| && s1.fibers[f].In? ==> f < |s.fibers| && s.fibers[f].In?
  }

  /** What a step of others leaves of fiber `f`, when it sets no flag. */
  ghost predicate Unmoved(s: State, s1: State, f: FiberId) {
    && Outside(s, s1, f)
    && (f < |s.fibers| && s.fibers[f].In? ==> Kept(s, s1, f))
    && |s.calls| <= |s1.calls|
    && (forall c | 0 <= c < |s.calls| && s.calls[c].fiber == f :: s1.calls[c] == s.calls[c])
  }

  /** Fiber `g` moves within a call of its own, or in or out of one. */
  lemma OtherFiber(s: State, s1: State, w: nat, g: FiberId, c: nat, f: FiberId)
    requires w < |s.workers| && s.workers[w] == Runs(g) && g < |s.fibers| == |s1.fibers| && f != g
    requires s1.fibers == s.fibers[g := s1.fibers[g]] && |s1.workers| == |s.workers|
    requires forall v | 0 <= v < |s.workers| && v != w :: s1.workers[v] == s.workers[v]
    requires |s.calls| <= |s1.calls| && (c < |s.calls| ==> s.calls[c].fiber == g)
    requires forall d | 0 <= d < |s.calls| && d != c :: s1.calls[d] == s.calls[d]
    ensures Unmoved(s, s1, f)
  {
  }

  /** No fiber moves, and no call changes. */
  lemma NoFiber(s: State, s1: State, w: nat, f: FiberId)
    requires w < |s.workers| && s.workers[w] != Runs(f)
    requires s1.fibers == s.fibers && s1.calls == s.calls && |s1.workers| == |s.workers|
    requires forall v | 0 <= v < |s.workers| && v != w :: s1.workers[v] == s.workers[v]
    ensures Unmoved(s, s1, f)
  {
  }

  lemma TakeUnmoved(s: State, w: nat, k: nat, f: FiberId)
    requires w < |s.workers| && CanMove(s, w, Take(k))
    ensures Unmoved(s, DoTake(s, w, k), f)
  {
  }

  lemma ArmUnmoved(s: State, w: nat, i: T.TimerId, f: FiberId)
    requires SaneCalls(s) && w < |s.workers| && CanMove(s, w, Arm(i)) && s.workers[w] != Runs(f)
    ensures Unmoved(s, DoArm(s, w, i), f)
  {
    assert Inside(s, s.workers[w].fiber);
    OtherFiber(s, DoArm(s, w, i), w, s.workers[w].fiber, Current(s, w, Arming), f);
  }

  lemma AddUnmoved(s: State, w: nat, ok: bool, f: FiberId)
    requires SaneCalls(s) && w < |s.workers| && CanMove(s, w, Add(ok)) && s.workers[w] != Runs(f)
    ensures Unmoved(s, DoAdd(s, w, ok), f)
  {
    assert Inside(s, s.workers[w].fiber);
    OtherFiber(s, DoAdd(s, w, ok), w, s.workers[w].fiber, Current(s, w, Adding), f);
  }

  lemma BeginUnmoved(s: State, w: nat, kind: Kind, fd: E.Fd, event: E.Event, to: U64, f: FiberId)
    requires InOwn(s, w) && s.workers[w] != Runs(f)
    ensures Unmoved(s, DoBegin(s, w, kind, fd, event, to), f)
  {
    OtherFiber(s, DoBegin(s, w, kind, fd, event, to), w, s.workers[w].fiber, |s.calls|, f);
  }

  lemma CallUnmoved(s: State, w: nat, move: Move, f: FiberId)
    requires SaneCalls(s) && w < |s.workers| && CanMove(s, w, move) && s.workers[w] != Runs(f)
    requires move.Try? || move.GiveUp? || move.Yield? || move.Disarm? || move.Check?
    ensures Unmoved(s, DoMove(s, w, move), f)
  {
    var g := s.workers[w].fiber;
    assert Inside(s, g);
    OtherFiber(s, DoMove(s, w, move), w, g, s.fibers[g].call, f);
  }

  lemma EndUnmoved(s: State, w: nat, f: FiberId)
    requires w < |s.workers| && CanMove(s, w, End) && s.workers[w] != Runs(f)
    ensures Unmoved(s, DoMove(s, w, End), f)
  {
    OtherFiber(s, DoMove(s, w, End), w, s.workers[w].fiber, |s.calls|, f);
  }

  lemma DispatchUnmoved(s: State, w: nat, ok: bool, f: FiberId)
    requires w < |s.workers| && CanMove(s, w, DispatchNext(ok))
    ensures Unmoved(s, DoDispatch(s, w, ok), f)
  {
    NoFiber(s, DoDispatch(s, w, ok), w, f);
  }

  lemma IdleUnmoved(s: State, w: nat, move: Move, f: FiberId)
    requires w < |s.workers| && CanMove(s, w, move) && s.workers[w] != Runs(f)
    requires move.Poll? || move.Collect? || move.Post? || move.DispatchDone? || move.Wake? || move.Use?
    ensures Unmoved(s, DoMove(s, w, move), f)
  {
    NoFiber(s, DoMove(s, w, move), w, f);
  }

  lemma FireKeepsFiber(s: State, w: nat, ok: bool, f: FiberId)
    requires w < |s.workers| && CanMove(s, w, Fire(ok))
    ensures Outside(s, DoFire(s, w, ok), f)
    ensures f < |s.fibers| && s.fibers[f].In? ==> Kept(s, DoFire(s, w, ok), f)
  {
  }

  lemma MoveUnmoved(s: State, w: nat, move: Move, f: FiberId)
    requires SaneCalls(s) && w < |s.workers| && CanMove(s, w, move) && s.workers[w] != Runs(f) && !move.Fire?
    ensures Unmoved(s, DoMove(s, w, move), f)
  {
    if move.Take? {
      TakeUnmoved(s, w, move.k, f);
    } else if move.Arm? {
      ArmUnmoved(s, w, move.i, f);
    } else if move.Add? {
      AddUnmoved(s, w, move.ok, f);
    } else if move.Begin? {
      BeginUnmoved(s, w, move.kind, move.fd, move.event, move.to, f);
    } else if move.DispatchNext? {
      DispatchUnmoved(s, w, move.ok, f);
    } else if move.End? {
      EndUnmoved(s, w, f);
    } else if move.Try? || move.GiveUp? || move.Yield? || move.Disarm? || move.Check? {
      CallUnmoved(s, w, move, f);
    } else {
      IdleUnmoved(s, w, move, f);
    }
  }

  lemma MoveKeepsFiber(s: State, w: nat, move: Move, f: FiberId)
    requires SaneCalls(s) && w < |s.workers| && CanMove(s, w, move) && s.workers[w] != Runs(f)
    ensures Outside(s, DoMove(s, w, move), f)
    ensures f < |s.fibers| && s.fibers[f].In? ==> Kept(s, DoMove(s, w, move), f)
  {
    if move.Fire? {
      FireKeepsFiber(s, w, move.ok, f);
    } else {
      MoveUnmoved(s, w, move, f);
    }
  }

  lemma StepKeepsFiber(s: State, step: Step, f: FiberId)
    requires SaneCalls(s) && Can(s, step) && !ByFiber(s, step, f) && f < |s.fibers| && s.fibers[f].In?
    ensures Kept(s, Do(s, step), f)
  {
    if step.Work? {
      MoveKeepsFiber(s, step.w, step.move, f);
    }
  }
}
