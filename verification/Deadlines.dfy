/**
 Does a wait with a timeout always have one? The record tinfo is shared by all waits of one do_io call. A
 callback left over from an earlier wait can set its flag after the fiber has tested it and before it waits
 again; then the timer of the new wait finds the flag set and does nothing.
 */
module Deadlines {
  import opened Words
  import opened Tasks
  import opened Blocking
  import opened Wakeups
  import T = TimerModel
  import E = EventModel
  import R = EventRuns
  import O = Timeouts
  import opened Paths
  import opened Placement
  import V = Waits
  import S = SingleWorker

  ghost predicate HasTimer(t: T.Timers, c: nat) {
    exists i :: i in t.live && i in t.all && t.all[i].given == Some(Timeout(c))
  }

  /** The worker holds a timeout callback of the call, which has not set the flag. */
  predicate Bears(me: Worker, c: nat) {
    match me
    case Posting(cbs, _) => Some(Timeout(c)) in cbs
    case Fires(d, stage) => d == c && stage <= 1
    case _ => false
  }

  /** A timer of the call is still to be delivered, or a timeout callback of it is still to set the flag. */
  ghost predicate Coming(s: State, c: nat) {
    || HasTimer(s.timers, c)
    || CallbackTask(Timeout(c)) in s.queue
    || exists w :: 0 <= w < |s.workers| && Bears(s.workers[w], c)
  }

  /** A callback of the call is past its test of the flag, so that it will cancel the event. */
  ghost predicate Midway(s: State, c: nat) {
    exists w :: 0 <= w < |s.workers| && s.workers[w].Fires? && s.workers[w].call == c && s.workers[w].stage >= 1
  }

  /** Something will still cancel the event of the call. */
  ghost predicate WillCancel(s: State, c: nat)
    requires c < |s.calls|
  {
    (!s.calls[c].cancelled && Coming(s, c)) || Midway(s, c)
  }

  /** Fiber `f` is in a call that has armed a timer and has not yet disarmed it. */
  predicate Limited(s: State, f: FiberId) {
    && f < |s.fibers| && s.fibers[f].In? && s.fibers[f].call < |s.calls|
    && O.Armed(s.fibers[f], s.fibers[f].call)
    && s.calls[s.fibers[f].call].kind != Nap && s.calls[s.fibers[f].call].to != MAX64
  }

  ghost predicate ComingOk(s: State, f: FiberId) {
    Limited(s, f) && !s.calls[s.fibers[f].call].cancelled ==> Coming(s, s.fibers[f].call)
  }

  // ------------------------------------------- what is coming stays coming

  lemma ComingStays(s: State, s1: State, c: nat)
    requires Coming(s, c) && |s1.workers| == |s.workers|
    requires HasTimer(s.timers, c) ==> HasTimer(s1.timers, c)
    requires CallbackTask(Timeout(c)) in s.queue ==> CallbackTask(Timeout(c)) in s1.queue
    requires forall w | 0 <= w < |s.workers| :: Bears(s.workers[w], c) ==> Bears(s1.workers[w], c)
    ensures Coming(s1, c)
  {
  }

  lemma UserTimerComing(t: T.Timers, op: T.Op, now: U64, c: nat)
    requires T.Inv(t) && UserTimer(t, op, now) && HasTimer(t, c)
    ensures HasTimer(T.Apply(t, op), c)
  {
    var i :| i in t.live && i in t.all && t.all[i].given == Some(Timeout(c));
    assert i in T.Apply(t, op).live && T.Apply(t, op).all[i].given == Some(Timeout(c));
  }

  lemma StoppedComing(t: T.Timers, timer: Option<T.TimerId>, c: nat)
    requires T.Inv(t) && HasTimer(t, c)
    requires timer.Some? ==> timer.value in t.all && t.all[timer.value].given != Some(Timeout(c))
    ensures HasTimer(Stopped(t, timer), c)
  {
    var i :| i in t.live && i in t.all && t.all[i].given == Some(Timeout(c));
    assert i in Stopped(t, timer).live && Stopped(t, timer).all[i].given == Some(Timeout(c));
  }

  lemma AddComing(t: T.Timers, i: T.TimerId, ms: U64, cb: Callback, now: U64, c: nat)
    requires T.Inv(t) && i !in t.all && (HasTimer(t, c) || cb == Timeout(c))
    ensures HasTimer(T.Add(t, i, ms, Some(cb), false, now), c)
  {
    var t1 := T.Add(t, i, ms, Some(cb), false, now);
    if cb == Timeout(c) {
      assert i in t1.live && t1.all[i].given == Some(Timeout(c));
    } else {
      var j :| j in t.live && j in t.all && t.all[j].given == Some(Timeout(c));
      assert j in t1.live && t1.all[j].given == Some(Timeout(c));
    }
  }

  lemma CollectComing(s: State, w: nat, ids: seq<T.TimerId>, c: nat)
    requires Sane(s) && w < |s.workers| && CanMove(s, w, Collect(ids)) && Coming(s, c)
    ensures Coming(DoMove(s, w, Collect(ids)), c)
  {
    var s1 := DoMove(s, w, Collect(ids));
    assert forall v | 0 <= v < |s.workers| :: Bears(s.workers[v], c) ==> Bears(s1.workers[v], c);
    if HasTimer(s.timers, c) {
      var i :| i in s.timers.live && i in s.timers.all && s.timers.all[i].given == Some(Timeout(c));
      T.ExactExpiry(s.timers, s.now, ids);
      assert T.TimerInv(s.timers.all[i], true) && OneWake(s.timers.all[i]);
      if i in ids {
        var k :| 0 <= k < |ids| && ids[k] == i;
        assert T.CallbacksOf(s.timers, ids)[k] == Some(Timeout(c));
        assert Bears(s1.workers[w], c);
      } else {
        assert i in s1.timers.live && s1.timers.all[i].given == Some(Timeout(c));
      }
    } else {
      ComingStays(s, s1, c);
    }
  }

  lemma TakeComing(s: State, w: nat, k: nat, c: nat)
    requires w < |s.workers| && CanMove(s, w, Take(k)) && Coming(s, c)
    ensures Coming(DoTake(s, w, k), c)
  {
    var s1 := DoTake(s, w, k);
    var task := CallbackTask(Timeout(c));
    assert s.queue == s.queue[..k] + [s.queue[k]] + s.queue[k + 1..];
    assert task in s.queue ==> task in s.queue[..k] + s.queue[k + 1..] || task == s.queue[k];
    if s.queue[k] == task {
      assert Bears(s1.workers[w], c);
    } else {
      ComingStays(s, s1, c);
    }
  }

  lemma PostComing(s: State, w: nat, c: nat)
    requires w < |s.workers| && CanMove(s, w, Post) && Coming(s, c)
    ensures Coming(DoMove(s, w, Post), c)
  {
    var s1 := DoMove(s, w, Post);
    var cbs := s.workers[w].cbs;
    assert cbs == [cbs[0]] + cbs[1..];
    if cbs[0] == Some(Timeout(c)) {
      assert s1.queue[|s.queue|] == CallbackTask(Timeout(c));
    } else {
      ComingStays(s, s1, c);
    }
  }

  /** A callback that tests the flag of a pending call and finds it clear goes on to set it. */
  lemma FireComing(s: State, w: nat, ok: bool, c: nat)
    requires w < |s.workers| && CanMove(s, w, Fire(ok)) && Coming(s, c)
    requires c < |s.calls| && s.calls[c].outcome == Pending && !DoFire(s, w, ok).calls[c].cancelled
    ensures Coming(DoFire(s, w, ok), c)
  {
    ComingStays(s, DoFire(s, w, ok), c);
  }

  /** A fiber that stops its own timer does not stop that of another call. */
  lemma StopComing(s: State, w: nat, move: Move, c: nat)
    requires Sane(s) && w < |s.workers| && CanMove(s, w, move) && (move.GiveUp? || move.Disarm?) && Coming(s, c)
    requires s.fibers[s.workers[w].fiber].call != c
    ensures Coming(DoMove(s, w, move), c)
  {
    var f := s.workers[w].fiber;
    var d := s.fibers[f].call;
    assert Inside(s, f) && TimerOf(s, d);
    if HasTimer(s.timers, c) && s.calls[d].kind != Nap {
      StoppedComing(s.timers, s.calls[d].timer, c);
    }
    ComingStays(s, DoMove(s, w, move), c);
  }

  lemma ArmComing(s: State, w: nat, i: T.TimerId, c: nat)
    requires Sane(s) && w < |s.workers| && CanMove(s, w, Arm(i))
    requires Coming(s, c) || (c == Current(s, w, Arming) && s.calls[c].kind != Nap && s.calls[c].to != MAX64)
    ensures Coming(DoArm(s, w, i), c)
  {
    var g, d := s.workers[w].fiber, Current(s, w, Arming);
    var cb := if s.calls[d].kind == Nap then WakeFiber(g) else Timeout(d);
    if HasTimer(s.timers, c) || cb == Timeout(c) {
      AddComing(s.timers, i, s.calls[d].to, cb, s.now, c);
    }
    if Coming(s, c) {
      ComingStays(s, DoArm(s, w, i), c);
    }
  }

  /** The remaining moves change no timer, take nothing from the queue, and leave workers what they bear. */
  lemma StillComing(s: State, w: nat, move: Move, c: nat)
    requires w < |s.workers| && CanMove(s, w, move) && Coming(s, c)
    requires !Timed(move) && !move.Take? && !move.Post? && !move.Fire?
    ensures Coming(DoMove(s, w, move), c)
  {
    ComingStays(s, DoMove(s, w, move), c);
  }

  lemma ComingMoves(s: State, w: nat, move: Move, c: nat)
    requires Sane(s) && w < |s.workers| && CanMove(s, w, move) && Coming(s, c)
    requires c < |s.calls| && s.calls[c].outcome == Pending
    requires c < |DoMove(s, w, move).calls| && !DoMove(s, w, move).calls[c].cancelled
    requires (move.GiveUp? || move.Disarm?) ==> s.fibers[s.workers[w].fiber].call != c
    ensures Coming(DoMove(s, w, move), c)
  {
    if move.Take? {
      TakeComing(s, w, move.k, c);
    } else if move.Collect? {
      CollectComing(s, w, move.ids, c);
    } else if move.Post? {
      PostComing(s, w, c);
    } else if move.Fire? {
      FireComing(s, w, move.ok, c);
    } else if move.GiveUp? || move.Disarm? {
      StopComing(s, w, move, c);
    } else if move.Arm? {
      ArmComing(s, w, move.i, c);
    } else {
      StillComing(s, w, move, c);
    }
  }

  lemma OthersComing(s: State, w: nat, move: Move, f: FiberId)
    requires Sane(s) && w < |s.workers| && CanMove(s, w, move) && s.workers[w] != Runs(f) && ComingOk(s, f)
    ensures ComingOk(DoMove(s, w, move), f)
  {
    var s1 := DoMove(s, w, move);
    if Limited(s1, f) && !s1.calls[s1.fibers[f].call].cancelled {
      MoveKeepsFiber(s, w, move, f);
      assert Inside(s, f);
      if move.GiveUp? || move.Disarm? {
        assert Inside(s, s.workers[w].fiber);
      }
      ComingMoves(s, w, move, s.fibers[f].call);
    }
  }

  /** The moves of the fiber itself that end with its timer armed. */
  lemma OwnComing(s: State, w: nat, move: Move, f: FiberId)
    requires Sane(s) && w < |s.workers| && CanMove(s, w, move) && s.workers[w] == Runs(f) && ComingOk(s, f)
    ensures ComingOk(DoMove(s, w, move), f)
  {
    if move.Arm? {
      var c := Current(s, w, Arming);
      if s.calls[c].kind != Nap && s.calls[c].to != MAX64 {
        ArmComing(s, w, move.i, c);
      }
    } else if move.Add? || move.Yield? {
      OwnStays(s, w, move, f);
    } else {
      OwnLeaves(s, w, move, f);
    }
  }

  lemma OwnStays(s: State, w: nat, move: Move, f: FiberId)
    requires Sane(s) && w < |s.workers| && CanMove(s, w, move) && s.workers[w] == Runs(f) && ComingOk(s, f)
    requires move.Add? || move.Yield?
    ensures ComingOk(DoMove(s, w, move), f)
  {
    if Coming(s, s.fibers[f].call) {
      StillComing(s, w, move, s.fibers[f].call);
    }
    StaysLimited(s, w, move, f);
  }

  lemma StaysLimited(s: State, w: nat, move: Move, f: FiberId)
    requires w < |s.workers| && CanMove(s, w, move) && s.workers[w] == Runs(f) && (move.Add? || move.Yield?)
    ensures DoMove(s, w, move).calls == s.calls && f < |s.fibers| && f < |DoMove(s, w, move).fibers|
    ensures Limited(DoMove(s, w, move), f) ==> Limited(s, f)
    ensures s.fibers[f].In? && DoMove(s, w, move).fibers[f].In?
    ensures DoMove(s, w, move).fibers[f].call == s.fibers[f].call
  {
  }

  lemma OwnLeaves(s: State, w: nat, move: Move, f: FiberId)
    requires w < |s.workers| && CanMove(s, w, move) && s.workers[w] == Runs(f)
    requires !move.Arm? && !move.Add? && !move.Yield?
    ensures !Limited(DoMove(s, w, move), f)
  {
  }

  lemma StepKeepsComing(s: State, step: Step, f: FiberId)
    requires Sane(s) && Can(s, step) && ComingOk(s, f)
    ensures ComingOk(Do(s, step), f)
  {
    match step
    case Work(w, move) =>
      if s.workers[w] == Runs(f) {
        OwnComing(s, w, move, f);
      } else {
        OthersComing(s, w, move, f);
      }
    case Timer(op) =>
      if Limited(s, f) && HasTimer(s.timers, s.fibers[f].call) {
        UserTimerComing(s.timers, op, s.now, s.fibers[f].call);
      }
      if Limited(s, f) && Coming(s, s.fibers[f].call) {
        ComingStays(s, Do(s, step), s.fibers[f].call);
      }
    case _ =>
      if Limited(s, f) && Coming(s, s.fibers[f].call) {
        ComingStays(s, Do(s, step), s.fibers[f].call);
      }
  }

  lemma {:induction false} RunKeepsComing(n: nat, trace: seq<State>, steps: seq<Step>, k: nat, f: FiberId)
    requires IsRun(n, trace, steps) && k < |trace|
    ensures ComingOk(trace[k], f)
  {
    if k > 0 {
      RunKeepsComing(n, trace, steps, k - 1, f);
      O.RunIsOk(n, trace, steps, k - 1);
      StepKeepsComing(trace[k - 1], steps[k - 1], f);
    }
  }

  /** Fiber `f` waits for an event, with a timeout. */
  predicate Bounded(s: State, f: FiberId) {
    V.InWait(s, f) && s.calls[s.fibers[f].call].to != MAX64
  }

  /** In every run with any number of workers, something will still cancel the event of a wait that has a
      timeout exactly if the flag of its call is clear, or a callback is past its test of the flag. */
  lemma CoveredExactly(n: nat, s: State, f: FiberId)
    requires Reachable(n, s) && Bounded(s, f)
    ensures var c := s.fibers[f].call; WillCancel(s, c) <==> !s.calls[c].cancelled || Midway(s, c)
  {
    var trace, steps :| IsRun(n, trace, steps) && trace[|trace| - 1] == s;
    RunKeepsComing(n, trace, steps, |trace| - 1, f);
  }

  // ----------------------------------------------------- with one worker

  lemma AwaitingShrinks(s: State, w: nat, move: Move, f: FiberId)
    requires Sane(s) && w < |s.workers| && CanMove(s, w, move) && s.workers[w] != Runs(f)
    ensures Awaiting(DoMove(s, w, move).events, f) <= Awaiting(s.events, f)
  {
    if move.DispatchNext? {
      if E.Dispatch(s.events, s.workers[w].reports[0], move.ok).1 != E.Aborted {
        DispatchEnds(s.events, s.workers[w].reports[0], move.ok);
      }
    } else if move.Fire? {
      var call := s.calls[s.workers[w].call];
      CancelEnds(s.events, call.fd, call.event, move.ok);
    } else if move.Use? {
      if R.Apply(s.events, move.op).1 != E.Aborted {
        UseEffect(s.events, move.op);
      }
    } else if move.Add? {
      AddShrinks(s, w, move.ok, f);
    } else {
      UneventfulMove(s, w, move);
    }
  }

  lemma AddShrinks(s: State, w: nat, ok: bool, f: FiberId)
    requires Sane(s) && w < |s.workers| && CanMove(s, w, Add(ok)) && s.workers[w] != Runs(f)
    ensures Awaiting(DoAdd(s, w, ok).events, f) <= Awaiting(s.events, f)
  {
    var g, call := s.workers[w].fiber, s.calls[Current(s, w, Adding)];
    E.AddEventSpec(s.events, call.fd, call.event, FiberTask(g), ok);
  }

  /** The only worker is past the test of the flag of call `c`. */
  predicate Cancelling(s: State, c: nat) {
    s.workers != [] && s.workers[0].Fires? && s.workers[0].call == c && s.workers[0].stage >= 1
  }

  /** With one worker, the flag is set only while the fiber is parked, and is read before it waits again. */
  ghost predicate FlagOk(s: State, f: FiberId) {
    f < |s.fibers| && s.fibers[f].In? && s.fibers[f].call < |s.calls| && s.calls[s.fibers[f].call].cancelled ==>
      && (s.fibers[f].at == Parked || s.fibers[f].at == Woken || s.fibers[f].at == Checking)
      && (s.fibers[f].at == Parked && Awaiting(s.events, f) != {} ==> Cancelling(s, s.fibers[f].call))
  }

  /** The fiber goes on in its call with the flag unchanged; where it waits again, the flag is clear. */
  lemma FlagStays(s: State, s1: State, f: FiberId)
    requires f < |s1.fibers|
    requires s1.fibers[f].In? && s1.fibers[f].call < |s1.calls| && s1.calls[s1.fibers[f].call].cancelled ==>
      s1.fibers[f].at == Woken || s1.fibers[f].at == Checking
    ensures FlagOk(s1, f)
  {
  }

  lemma OwnCallFlag(s: State, move: Move, f: FiberId)
    requires S.Solo(s) && CanMove(s, 0, move) && s.workers[0] == Runs(f) && FlagOk(s, f)
    requires move.Try? || move.GiveUp? || move.Disarm? || move.Check?
    ensures FlagOk(DoMove(s, 0, move), f)
  {
    FlagStays(s, DoMove(s, 0, move), f);
  }

  lemma OwnRegisterFlag(s: State, move: Move, f: FiberId)
    requires S.Solo(s) && CanMove(s, 0, move) && s.workers[0] == Runs(f) && FlagOk(s, f)
    requires move.Arm? || move.Add?
    ensures FlagOk(DoMove(s, 0, move), f)
  {
    FlagStays(s, DoMove(s, 0, move), f);
  }

  lemma OwnFlag(s: State, move: Move, f: FiberId)
    requires S.Solo(s) && CanMove(s, 0, move) && s.workers[0] == Runs(f) && FlagOk(s, f)
    ensures FlagOk(DoMove(s, 0, move), f)
  {
    if move.Try? || move.GiveUp? || move.Disarm? || move.Check? {
      OwnCallFlag(s, move, f);
    } else if move.Arm? || move.Add? {
      OwnRegisterFlag(s, move, f);
    } else if move.Begin? || move.Yield? || move.Use? || move.End? {
      OwnOtherFlag(s, move, f);
    }
  }

  lemma OwnOtherFlag(s: State, move: Move, f: FiberId)
    requires S.Solo(s) && CanMove(s, 0, move) && s.workers[0] == Runs(f) && FlagOk(s, f)
    requires move.Begin? || move.Yield? || move.Use? || move.End?
    ensures FlagOk(DoMove(s, 0, move), f)
  {
    FlagStays(s, DoMove(s, 0, move), f);
  }

  lemma FireFlag(s: State, ok: bool, f: FiberId)
    requires Sane(s) && O.OwnersOk(s) && S.Solo(s) && CanMove(s, 0, Fire(ok)) && FlagOk(s, f)
    requires !Rejects(s, Work(0, Fire(ok)))
    ensures FlagOk(DoFire(s, 0, ok), f)
  {
    var c := s.workers[0].call;
    AwaitingShrinks(s, 0, Fire(ok), f);
    if f < |s.fibers| && s.fibers[f].In? && s.fibers[f].call == c && s.calls[c].cancelled {
      assert Inside(s, f) && s.fibers[f].at == Parked;
      if s.workers[0].stage >= 2 {
        forall t ensures t !in Awaiting(DoFire(s, 0, ok).events, f) {
          V.CancelledAway(s, c, t);
        }
      }
    }
  }

  lemma OthersFlag(s: State, move: Move, f: FiberId)
    requires Sane(s) && S.Solo(s) && CanMove(s, 0, move) && s.workers[0] != Runs(f) && FlagOk(s, f) && !move.Fire?
    ensures FlagOk(DoMove(s, 0, move), f)
  {
    MoveUnmoved(s, 0, move, f);
    AwaitingShrinks(s, 0, move, f);
    StillFlagged(s, DoMove(s, 0, move), f);
  }

  lemma StillFlagged(s: State, s1: State, f: FiberId)
    requires SaneCalls(s) && S.Solo(s) && !s.workers[0].Fires? && s.workers[0] != Runs(f) && FlagOk(s, f)
    requires Unmoved(s, s1, f) && Awaiting(s1.events, f) <= Awaiting(s.events, f)
    ensures FlagOk(s1, f)
  {
    if f < |s.fibers| && s.fibers[f].In? {
      assert Inside(s, f);
    }
  }

  lemma StepKeepsFlag(s: State, step: Step, f: FiberId)
    requires Sane(s) && O.OwnersOk(s) && S.Solo(s) && Can(s, step) && !Rejects(s, step) && FlagOk(s, f)
    ensures FlagOk(Do(s, step), f)
  {
    match step
    case Work(w, move) =>
      if s.workers[0] == Runs(f) {
        OwnFlag(s, move, f);
      } else if move.Fire? {
        FireFlag(s, move.ok, f);
      } else {
        OthersFlag(s, move, f);
      }
    case _ =>
  }

  lemma {:induction false} RunKeepsFlag(trace: seq<State>, steps: seq<Step>, k: nat, f: FiberId)
    requires AcceptingRun(1, trace, steps) && k < |trace|
    ensures FlagOk(trace[k], f)
  {
    if k > 0 {
      RunKeepsFlag(trace, steps, k - 1, f);
      O.RunIsOk(1, trace, steps, k - 1);
      S.RunIsSolo(trace, steps, k - 1);
      StepKeepsFlag(trace[k - 1], steps[k - 1], f);
    }
  }

  /** With one worker every wait that has a timeout has something that will still cancel it. */
  lemma AloneIsCovered(s: State, f: FiberId)
    requires Attained(1, s) && Bounded(s, f) && Awaiting(s.events, f) != {}
    ensures WillCancel(s, s.fibers[f].call)
  {
    var trace, steps :| AcceptingRun(1, trace, steps) && trace[|trace| - 1] == s;
    RunKeepsFlag(trace, steps, |trace| - 1, f);
    CoveredExactly(1, s, f);
    var c := s.fibers[f].call;
    if s.calls[c].cancelled {
      assert Cancelling(s, c);
    }
  }
}
