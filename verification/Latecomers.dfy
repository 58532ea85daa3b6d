/**
 Timeout callbacks that come too late. The callback of a call locks the call's record, which lives as long as the call;
 so once a call has returned, and no callback of it is at work, none ever will be.
 */
module Latecomers {
  import opened Blocking
  import opened Wakeups

  /** A callback of call `c` has locked the record. */
  ghost predicate AtWork(s: State, c: nat) {
    exists w :: 0 <= w < |s.workers| && s.workers[w].Fires? && s.workers[w].call == c && s.workers[w].stage > 0
  }

  /** Call `c` has returned and its record is gone. */
  ghost predicate Gone(s: State, c: nat) {
    c < |s.calls| && s.calls[c].outcome != Pending && !AtWork(s, c)
  }

  /** The callback of a call whose record is gone does nothing at all. */
  lemma LateFireIsIdle(s: State, w: nat, ok: bool)
    requires w < |s.workers| && s.workers[w].Fires? && Gone(s, s.workers[w].call)
    ensures DoFire(s, w, ok) == SetWorker(s, w, Free)
  {
    assert s.workers[w].stage == 0;
  }

  /** A callback goes on to cancel the event exactly if its call's record is still there, because the call is pending
      or another callback of it is at work, and the flag is clear. */
  lemma CallbackGoesOn(s: State, w: nat, ok: bool)
    requires w < |s.workers| && s.workers[w].Fires? && s.workers[w].stage == 0 && s.workers[w].call < |s.calls|
    ensures var c, s1 := s.workers[w].call, DoFire(s, w, ok);
            && s1 == SetWorker(s, w, s1.workers[w])
            && (s1.workers[w] == Fires(c, 1) <==> !Gone(s, c) && !s.calls[c].cancelled)
            && (s1.workers[w] != Fires(c, 1) ==> s1.workers[w] == Free)
  {
    assert !Gone(s, s.workers[w].call) <==> Locks(s, s.workers[w].call);
  }

  lemma FireKeepsGone(s: State, w: nat, ok: bool, c: nat)
    requires w < |s.workers| && CanMove(s, w, Fire(ok)) && Gone(s, c)
    ensures Gone(DoFire(s, w, ok), c) && DoFire(s, w, ok).calls[c] == s.calls[c]
  {
    if s.workers[w].call == c {
      LateFireIsIdle(s, w, ok);
    }
    var s1 := DoFire(s, w, ok);
    forall v | 0 <= v < |s.workers| && s1.workers[v].Fires? && s1.workers[v].call == c
      ensures s1.workers[v].stage == 0
    {
      if v != w {
        assert s1.workers[v] == s.workers[v];
      }
    }
  }

  lemma FiberKeepsCall(s: State, w: nat, move: Move, c: nat)
    requires SaneCalls(s) && w < |s.workers| && CanMove(s, w, move) && s.workers[w].Runs?
    requires c < |s.calls| && s.calls[c].outcome != Pending
    ensures c < |DoMove(s, w, move).calls| && DoMove(s, w, move).calls[c] == s.calls[c]
  {
    if move.Begin? || move.Arm? || move.Add? {
      ArmKeepsCall(s, w, move, c);
    } else if s.workers[w].fiber < |s.fibers| {
      assert Inside(s, s.workers[w].fiber);
    }
  }

  lemma ArmKeepsCall(s: State, w: nat, move: Move, c: nat)
    requires SaneCalls(s) && w < |s.workers| && CanMove(s, w, move) && (move.Begin? || move.Arm? || move.Add?)
    requires c < |s.calls| && s.calls[c].outcome != Pending
    ensures c < |DoMove(s, w, move).calls| && DoMove(s, w, move).calls[c] == s.calls[c]
  {
    assert Inside(s, s.workers[w].fiber);
  }

  lemma FiberFiresNothing(s: State, w: nat, move: Move)
    requires w < |s.workers| && CanMove(s, w, move) && s.workers[w].Runs?
    ensures |DoMove(s, w, move).workers| == |s.workers| && !DoMove(s, w, move).workers[w].Fires?
    ensures DoMove(s, w, move).workers == s.workers[w := DoMove(s, w, move).workers[w]]
  {
  }

  lemma FiberKeepsGone(s: State, w: nat, move: Move, c: nat)
    requires SaneCalls(s) && w < |s.workers| && CanMove(s, w, move) && s.workers[w].Runs? && Gone(s, c)
    ensures Gone(DoMove(s, w, move), c) && DoMove(s, w, move).calls[c] == s.calls[c]
  {
    FiberKeepsCall(s, w, move, c);
    FiberFiresNothing(s, w, move);
    SameFiring(s, DoMove(s, w, move), w, c);
  }

  lemma OtherKeepsGone(s: State, w: nat, move: Move, c: nat)
    requires w < |s.workers| && CanMove(s, w, move) && !s.workers[w].Runs? && !move.Fire? && Gone(s, c)
    ensures Gone(DoMove(s, w, move), c) && DoMove(s, w, move).calls[c] == s.calls[c]
  {
    SameFiring(s, DoMove(s, w, move), w, c);
  }

  lemma SameFiring(s: State, s1: State, w: nat, c: nat)
    requires |s.workers| == |s1.workers| && w < |s.workers| && !AtWork(s, c)
    requires s1.workers == s.workers[w := s1.workers[w]]
    requires s1.workers[w].Fires? ==> s1.workers[w].stage == 0
    ensures !AtWork(s1, c)
  {
    forall v | 0 <= v < |s.workers| && s1.workers[v].Fires? && s1.workers[v].call == c
      ensures s1.workers[v].stage == 0
    {
      if v != w {
        assert s1.workers[v] == s.workers[v];
      }
    }
  }

  lemma StepKeepsGone(s: State, step: Step, c: nat)
    requires SaneCalls(s) && Can(s, step) && Gone(s, c)
    ensures Gone(Do(s, step), c) && Do(s, step).calls[c] == s.calls[c]
  {
    match step
    case Work(w, move) =>
      if move.Fire? {
        FireKeepsGone(s, w, move.ok, c);
      } else if s.workers[w].Runs? {
        FiberKeepsGone(s, w, move, c);
      } else {
        OtherKeepsGone(s, w, move, c);
      }
    case _ => assert Do(s, step).workers == s.workers;
  }

  predicate FiresFor(s: State, w: nat, c: nat) {
    w < |s.workers| && s.workers[w].Fires? && s.workers[w].call == c
  }

  lemma {:induction false} StaysGone(n: nat, trace: seq<State>, steps: seq<Step>, j: nat, k: nat, c: nat)
    requires IsRun(n, trace, steps) && j <= k < |trace| && Gone(trace[j], c)
    ensures Gone(trace[k], c) && trace[k].calls[c] == trace[j].calls[c]
    decreases k
  {
    if j < k {
      StaysGone(n, trace, steps, j, k - 1, c);
      RunIsSane(n, trace, steps, k - 1, 0);
      StepKeepsGone(trace[k - 1], steps[k - 1], c);
    }
  }

  /** A late timeout is harmless: in every run, from the moment a call has returned and no callback of it is at work,
      what the call has reported stays as it is, and a callback of it that is executed changes nothing but its
      worker, which is free again. */
  lemma LateTimeoutIsHarmless(n: nat, trace: seq<State>, steps: seq<Step>, j: nat, k: nat, c: nat)
    requires IsRun(n, trace, steps) && j <= k < |steps| && Gone(trace[j], c)
    ensures Gone(trace[k], c) && trace[k].calls[c] == trace[j].calls[c]
    ensures steps[k].Work? && steps[k].move.Fire? && FiresFor(trace[k], steps[k].w, c) ==>
              trace[k + 1] == SetWorker(trace[k], steps[k].w, Free)
  {
    StaysGone(n, trace, steps, j, k, c);
    if steps[k].Work? && steps[k].move.Fire? && FiresFor(trace[k], steps[k].w, c) {
      LateFireIsIdle(trace[k], steps[k].w, steps[k].move.ok);
    }
  }
}
