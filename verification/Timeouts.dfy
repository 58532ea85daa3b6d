/**
 What a blocking call is told, and what it leaves behind, in every run: it is told that it timed out only
 if a timer of its own was delivered in time, whoever else cancelled its events; and when it has returned,
 none of its timers and registrations is left.
 */
module Timeouts {
  import opened Words
  import opened Tasks
  import opened Blocking
  import opened Wakeups
  import T = TimerModel
  import E = EventModel
  import R = EventRuns

  // ---------------------------------------------------------- the timers

  /** Between arming the timer and disarming it. */
  predicate ArmedPoint(at: Point) {
    at == Adding || at == Refused || at == Yielding || at == Parked || at == Woken
  }

  predicate Armed(pc: Pc, c: nat) {
    pc.In? && pc.call == c && ArmedPoint(pc.at)
  }

  predicate Asleep(pc: Pc) {
    pc.In? && (pc.at == Yielding || pc.at == Parked)
  }

  /** A delivery is not early. */
  predicate InTime(t: T.TimerState, now: U64) {
    t.fires > 0 ==> t.next <= t.firedAt <= now
  }

  /** Timer `t` was made for call `c`, for its period, when one of its waits began. */
  predicate MadeFor(calls: seq<Call>, c: nat, t: T.TimerState) {
    c < |calls| && t.ms == calls[c].to && t.base in calls[c].waits
  }

  predicate Made(s: State, i: T.TimerId)
    requires i in s.timers.all
  {
    var t := s.timers.all[i];
    t.given.Some? &&
    match t.given.value
    case User(_) => true
    case Timeout(c) => MadeFor(s.calls, c, t) && s.calls[c].kind != Nap && t.ms != MAX64 && InTime(t, s.now)
    case WakeFiber(f) => f < |s.fibers| && t.cancels == 0 && InTime(t, s.now)
  }

  /** A live timer of a hook is the one that its call is going to disarm, or is waiting for. */
  predicate Held(s: State, i: T.TimerId)
    requires i in s.timers.all
  {
    var t := s.timers.all[i];
    i in s.timers.live && t.given.Some? ==>
      match t.given.value
      case User(_) => true
      case Timeout(c) =>
        && c < |s.calls| && s.calls[c].timer == Some(i) && s.calls[c].fiber < |s.fibers|
        && Armed(s.fibers[s.calls[c].fiber], c)
      case WakeFiber(f) =>
        && f < |s.fibers| && Asleep(s.fibers[f]) && s.fibers[f].call < |s.calls|
        && s.calls[s.fibers[f].call].kind == Nap
  }

  /** The timer of a sleep. */
  predicate NapOk(s: State, c: nat)
    requires c < |s.calls|
  {
    var call := s.calls[c];
    && call.fiber < |s.fibers|
    && (call.kind == Nap ==>
          && (call.timer.Some? ==>
                && call.timer.value in s.timers.all
                && s.timers.all[call.timer.value].given == Some(WakeFiber(call.fiber))
                && MadeFor(s.calls, c, s.timers.all[call.timer.value])
                && (call.outcome != Pending ==> s.timers.all[call.timer.value].fires == 1))
          && (call.outcome != Pending ==> call.timer.Some?)
          && (call.timer.None? && call.outcome == Pending ==> s.fibers[call.fiber] == In(c, Arming)))
  }

  ghost predicate TimersOk(s: State) {
    && (forall i | i in s.timers.all :: Made(s, i) && Held(s, i))
    && (forall c | 0 <= c < |s.calls| :: NapOk(s, c))
  }

  // ------------------------------------------------------------ the flags

  /** Some timer of call `c` has been delivered. */
  ghost predicate Fired(t: T.Timers, c: nat) {
    exists i :: i in t.all && t.all[i].given == Some(Timeout(c)) && t.all[i].fires > 0
  }

  ghost predicate FlagsOk(s: State) {
    && (forall c | 0 <= c < |s.calls| && s.calls[c].cancelled :: Fired(s.timers, c))
    && (forall c | 0 <= c < |s.calls| && s.calls[c].outcome == TimedOut :: s.calls[c].cancelled)
    && (forall k | 0 <= k < |s.queue| && s.queue[k].CallbackTask? && s.queue[k].cb.Timeout? ::
          Fired(s.timers, s.queue[k].cb.call))
    && (forall w | 0 <= w < |s.workers| :: CarriesFired(s.timers, s.workers[w]))
  }

  ghost predicate CarriesFired(t: T.Timers, me: Worker) {
    match me
    case Fires(c, _) => Fired(t, c)
    case Posting(cbs, _) =>
      forall k | 0 <= k < |cbs| && cbs[k].Some? && cbs[k].value.Timeout? :: Fired(t, cbs[k].value.call)
    case _ => true
  }

  // ---------------------------------------------------- the registrations

  predicate Waiting(e: E.Registry, t: nat) {
    t !in e.log && t !in e.dropped
  }

  /** A registration of a fiber was made by one of its calls, which is still waiting while it lives. */
  predicate OwnerOk(s: State, t: nat)
    requires t < |s.events.issued| && t < |s.owner|
  {
    match s.owner[t]
    case None => s.events.issued[t].task.CallbackTask?
    case Some(c) =>
      && c < |s.calls| && s.calls[c].fiber < |s.fibers|
      && s.events.issued[t] == E.Registration(s.calls[c].fd, s.calls[c].event, FiberTask(s.calls[c].fiber))
      && (Waiting(s.events, t) ==>
            Asleep(s.fibers[s.calls[c].fiber]) && s.fibers[s.calls[c].fiber].call == c)
  }

  ghost predicate OwnersOk(s: State) {
    |s.owner| == |s.events.issued| && forall t | 0 <= t < |s.owner| :: OwnerOk(s, t)
  }

  ghost predicate Balanced(s: State) {
    Sane(s) && forall f: FiberId :: Balance(s, f) == 0
  }

  ghost predicate Ok(s: State) {
    TimersOk(s) && FlagsOk(s) && OwnersOk(s)
  }

  // ------------------------------------------- what a running fiber lacks

  lemma NoWakeup(s: State, f: FiberId)
    requires Balanced(s)
    requires !Suspended(s, f) || Queued(s.queue, f) > 0
    ensures Awaiting(s.events, f) == {} && Napping(s.timers, f) == {}
  {
    assert Balance(s, f) == 0;
  }

  /** A sleep whose fiber runs again has had its timer delivered. */
  lemma NapFired(s: State, f: FiberId, i: T.TimerId)
    requires Balanced(s) && TimersOk(s) && !Suspended(s, f)
    requires i in s.timers.all && s.timers.all[i].given == Some(WakeFiber(f))
    ensures s.timers.all[i].fires == 1
  {
    NoWakeup(s, f);
    assert i !in Napping(s.timers, f);
    assert T.TimerInv(s.timers.all[i], i in s.timers.live) && OneWake(s.timers.all[i]) && Made(s, i);
  }

  // -------------------------------------------------------- steps: timers

  /** The calls of `s` are still there in `s1`, with the same parameters and no fewer waits. */
  ghost predicate CallsRemain(s: State, s1: State) {
    && |s.calls| <= |s1.calls|
    && forall c {:trigger s1.calls[c]} | 0 <= c < |s.calls| ::
         && s1.calls[c].fiber == s.calls[c].fiber && s1.calls[c].kind == s.calls[c].kind
         && s1.calls[c].fd == s.calls[c].fd && s1.calls[c].event == s.calls[c].event
         && s1.calls[c].to == s.calls[c].to && s.calls[c].waits <= s1.calls[c].waits
  }

  /** A timer that was not changed. */
  lemma MadeRemains(s: State, s1: State, i: T.TimerId)
    requires i in s.timers.all && Made(s, i) && CallsRemain(s, s1) && s.now <= s1.now && |s.fibers| <= |s1.fibers|
    requires i in s1.timers.all && s1.timers.all[i] == s.timers.all[i]
    ensures Made(s1, i)
  {
    var t := s.timers.all[i];
    if t.given.value.Timeout? {
      var c := t.given.value.call;
      var k :| 0 <= k < |s.calls[c].waits| && s.calls[c].waits[k] == t.base;
      assert s1.calls[c].waits[k] == t.base;
    }
  }

  /** What may happen to a timer of a hook: nothing, its delivery when it is due, or, if it belongs to a
      wait, its cancellation. */
  predicate Ages(t: T.TimerState, live: bool, t1: T.TimerState, live1: bool, now: U64)
    requires t.given.Some?
  {
    && t1.given == t.given && (live1 ==> live)
    && (t1 == t
        || (t1 == T.Deliver(t, now) && t.next <= now && !t.recurring && !live1)
        || (t1 == t.(cb := None, cancels := t.cancels + 1) && t.given.value.Timeout? && !live1))
  }

  predicate OfUser(t: T.TimerState) {
    t.given.Some? && t.given.value.User?
  }

  ghost predicate Progress(t: T.Timers, t1: T.Timers, now: U64) {
    forall i {:trigger t1.all[i]} | i in t1.all ::
      || OfUser(t1.all[i])
      || (i in t.all && t.all[i].given.Some? && Ages(t.all[i], i in t.live, t1.all[i], i in t1.live, now))
  }

  lemma UserProgress(t: T.Timers, op: T.Op, now: U64)
    requires SaneTimers(t, now) && UserTimer(t, op, now)
    ensures Progress(t, T.Apply(t, op), now)
  {
    forall i | i in t.all ensures OneWake(t.all[i]) {}
  }

  lemma CollectProgress(t: T.Timers, now: U64)
    requires SaneTimers(t, now)
    ensures Progress(t, T.Collect(t, now), now)
  {
    forall i | i in t.all ensures OneWake(t.all[i]) {}
  }

  lemma StoppedProgress(t: T.Timers, timer: Option<T.TimerId>, now: U64)
    requires SaneTimers(t, now)
    requires timer.Some? ==> timer.value in t.all
    requires timer.Some? ==> t.all[timer.value].given.Some? && t.all[timer.value].given.value.Timeout?
    ensures Progress(t, Stopped(t, timer), now)
  {
    forall i | i in t.all ensures OneWake(t.all[i]) {}
  }

  lemma AgesMade(s: State, t1: T.Timers, i: T.TimerId)
    requires i in s.timers.all && Made(s, i) && i in t1.all && s.timers.all[i].given.Some?
    requires Ages(s.timers.all[i], i in s.timers.live, t1.all[i], i in t1.live, s.now)
    ensures Made(s.(timers := t1), i)
  {
  }

  lemma TimersProgress(s: State, t1: T.Timers)
    requires TimersOk(s) && Progress(s.timers, t1, s.now) && Grows(s.timers, t1) && SaneTimers(s.timers, s.now)
    ensures TimersOk(s.(timers := t1))
  {
    var s1 := s.(timers := t1);
    forall i | i in t1.all ensures Made(s1, i) && Held(s1, i) {
      if !OfUser(t1.all[i]) {
        assert Made(s, i) && Held(s, i);
        AgesMade(s, t1, i);
      }
    }
    forall c | 0 <= c < |s.calls| ensures NapOk(s1, c) {
      assert NapOk(s, c);
      var call := s.calls[c];
      if call.kind == Nap && call.timer.Some? {
        var i := call.timer.value;
        assert i in t1.all && !OfUser(t1.all[i]);
        assert T.TimerInv(s.timers.all[i], i in s.timers.live) && OneWake(s.timers.all[i]);
      }
    }
  }

  // -------------------------------------------------------- steps: fibers

  ghost predicate NoTimerOf(t: T.Timers, c: nat) {
    forall i | i in t.live && i in t.all :: t.all[i].given != Some(Timeout(c))
  }

  lemma GotoTimers(s: State, w: nat, from: Point, to: Point)
    requires Sane(s) && TimersOk(s) && At(s, w, from) && from != Arming && from != Parked
    requires ArmedPoint(from) ==> ArmedPoint(to) || NoTimerOf(s.timers, Current(s, w, from))
    requires from == Yielding ==> to == Parked
    ensures TimersOk(Goto(s, w, from, to))
  {
    var s1 := Goto(s, w, from, to);
    assert Inside(s, s.workers[w].fiber);
    forall i | i in s.timers.all ensures Made(s1, i) && Held(s1, i) {
      assert Made(s, i) && Held(s, i);
    }
    forall c | 0 <= c < |s.calls| ensures NapOk(s1, c) {
      assert NapOk(s, c);
    }
  }

  lemma ReturnTimers(s: State, w: nat, from: Point, outcome: Outcome)
    requires Sane(s) && TimersOk(s) && At(s, w, from) && from != Arming && from != Yielding && from != Parked
    requires outcome != Pending && NoTimerOf(s.timers, Current(s, w, from))
    requires var call := s.calls[Current(s, w, from)];
             call.kind == Nap && call.timer.Some? && call.timer.value in s.timers.all ==>
               s.timers.all[call.timer.value].fires == 1
    ensures TimersOk(Return(s, w, from, outcome))
  {
    var s1 := Return(s, w, from, outcome);
    var f, c := s.workers[w].fiber, Current(s, w, from);
    assert Inside(s, f) && NapOk(s, c);
    forall i | i in s.timers.all ensures Made(s1, i) && Held(s1, i) {
      assert Made(s, i) && Held(s, i);
    }
    forall d | 0 <= d < |s.calls| ensures NapOk(s1, d) {
      assert NapOk(s, d);
      assert MadeSame(s, s1, d);
    }
  }

  predicate MadeSame(s: State, s1: State, c: nat)
    requires c < |s.calls| && c < |s1.calls|
  {
    s1.calls[c].to == s.calls[c].to && s1.calls[c].waits == s.calls[c].waits
  }

  /** Changes to fibers that are not inside a call. */
  lemma OutsideTimers(s: State, s1: State)
    requires TimersOk(s) && s1.timers == s.timers && s1.calls == s.calls && s.now <= s1.now
    requires |s.fibers| <= |s1.fibers|
    requires forall f | 0 <= f < |s.fibers| && s.fibers[f].In? :: s1.fibers[f] == s.fibers[f]
    ensures TimersOk(s1)
  {
    forall i | i in s.timers.all ensures Made(s1, i) && Held(s1, i) {
      assert Made(s, i) && Held(s, i);
    }
    forall c | 0 <= c < |s.calls| ensures NapOk(s1, c) {
      assert NapOk(s, c);
    }
  }

  /** A fiber is resumed out of its wait. */
  lemma ResumeTimers(s: State, s1: State, f: FiberId)
    requires Balanced(s) && TimersOk(s) && s1.timers == s.timers && s1.calls == s.calls && s1.now == s.now
    requires f < |s.fibers| && Ready(s.fibers[f]) && FiberTask(f) in s.queue && s.fibers[f].In?
    requires s1.fibers == s.fibers[f := In(s.fibers[f].call, Woken)]
    ensures TimersOk(s1)
  {
    NoWakeup(s, f);
    assert Inside(s, f);
    forall i | i in s.timers.all ensures Made(s1, i) && Held(s1, i) {
      assert Made(s, i) && Held(s, i);
      assert i !in Napping(s.timers, f);
    }
    forall c | 0 <= c < |s.calls| ensures NapOk(s1, c) {
      assert NapOk(s, c);
    }
  }

  lemma BeginTimers(s: State, w: nat, kind: Kind, fd: E.Fd, event: E.Event, to: U64)
    requires TimersOk(s) && InOwn(s, w)
    ensures TimersOk(DoBegin(s, w, kind, fd, event, to))
  {
    var s1 := DoBegin(s, w, kind, fd, event, to);
    forall i | i in s.timers.all ensures Made(s1, i) && Held(s1, i) {
      assert Made(s, i) && Held(s, i);
    }
    forall c | 0 <= c < |s1.calls| ensures NapOk(s1, c) {
      assert c < |s.calls| ==> NapOk(s, c);
    }
  }

  lemma ArmsMade(s: State, s1: State, f: FiberId, c: nat, i: T.TimerId)
    requires TimersOk(s) && Armament(s, s1, f, c) && i in s1.timers.all
    ensures Made(s1, i)
  {
    assert s1.calls[c].waits[|s.calls[c].waits|] == s.now;
    if i in s.timers.all {
      assert Made(s, i);
      MadeRemains(s, s1, i);
    } else {
      assert s1.calls[c].timer == Some(i);
    }
  }

  lemma ArmsHeld(s: State, s1: State, f: FiberId, c: nat, i: T.TimerId)
    requires Sane(s) && TimersOk(s) && Armament(s, s1, f, c) && i in s1.timers.all
    ensures Held(s1, i)
  {
    assert Inside(s, f);
    if i in s.timers.all {
      assert Made(s, i) && Held(s, i);
    } else {
      assert s1.calls[c].timer == Some(i);
    }
  }

  lemma ArmsNap(s: State, s1: State, f: FiberId, c: nat, d: nat)
    requires Sane(s) && TimersOk(s) && Armament(s, s1, f, c) && d < |s.calls|
    ensures NapOk(s1, d)
  {
    assert Inside(s, f) && NapOk(s, d);
    assert s1.calls[c].waits[|s.calls[c].waits|] == s.now;
  }

  lemma ArmTimers(s: State, w: nat, i: T.TimerId)
    requires Sane(s) && TimersOk(s) && w < |s.workers| && CanMove(s, w, Arm(i))
    ensures TimersOk(DoArm(s, w, i))
  {
    var s1 := DoArm(s, w, i);
    var f, c := s.workers[w].fiber, Current(s, w, Arming);
    ArmArms(s, w, i);
    forall j | j in s1.timers.all ensures Made(s1, j) && Held(s1, j) {
      ArmsMade(s, s1, f, c, j);
      ArmsHeld(s, s1, f, c, j);
    }
    forall d | 0 <= d < |s.calls| ensures NapOk(s1, d) {
      ArmsNap(s, s1, f, c, d);
    }
  }

  /** Setting a flag. */
  lemma FlagTimers(s: State, s1: State)
    requires TimersOk(s) && s1.timers == s.timers && s1.fibers == s.fibers && s1.now == s.now
    requires |s1.calls| == |s.calls|
    requires forall c | 0 <= c < |s.calls| :: s1.calls[c] == s.calls[c].(cancelled := s1.calls[c].cancelled)
    ensures TimersOk(s1)
  {
    forall i | i in s.timers.all ensures Made(s1, i) && Held(s1, i) {
      assert Made(s, i) && Held(s, i);
    }
    forall c | 0 <= c < |s.calls| ensures NapOk(s1, c) {
      assert NapOk(s, c);
    }
  }

  // ------------------------------------------------------------ all steps

  /** After its timer was stopped, a call that held it has none. */
  lemma StoppedTimer(s: State, w: nat, at: Point)
    requires Sane(s) && TimersOk(s) && At(s, w, at) && s.calls[Current(s, w, at)].kind != Nap
    ensures var c := Current(s, w, at);
            var t1 := Stopped(s.timers, s.calls[c].timer);
            && Progress(s.timers, t1, s.now) && Grows(s.timers, t1) && SaneTimers(t1, s.now)
            && NoTimerOf(t1, c) && TimersOk(s.(timers := t1))
  {
    var c := Current(s, w, at);
    var timer := s.calls[c].timer;
    var t1 := Stopped(s.timers, timer);
    assert TimerOf(s, c);
    StoppedGrows(s.timers, timer);
    StoppedProgress(s.timers, timer, s.now);
    TimersProgress(s, t1);
    forall i | i in t1.live && i in t1.all ensures t1.all[i].given != Some(Timeout(c)) {
      assert i in s.timers.all && Held(s, i);
    }
  }

  lemma UnarmedTimer(s: State, w: nat, at: Point)
    requires TimersOk(s) && At(s, w, at) && (!ArmedPoint(at) || s.calls[Current(s, w, at)].kind == Nap)
    requires Inside(s, s.workers[w].fiber)
    ensures NoTimerOf(s.timers, Current(s, w, at))
  {
    var c := Current(s, w, at);
    forall i | i in s.timers.live && i in s.timers.all ensures s.timers.all[i].given != Some(Timeout(c)) {
      assert Made(s, i) && Held(s, i);
    }
  }

  lemma GiveUpTimers(s: State, w: nat)
    requires Sane(s) && TimersOk(s) && w < |s.workers| && CanMove(s, w, GiveUp)
    ensures TimersOk(DoMove(s, w, GiveUp))
  {
    assert Inside(s, s.workers[w].fiber);
    StoppedTimer(s, w, Refused);
    var s1 := s.(timers := Stopped(s.timers, s.calls[Current(s, w, Refused)].timer));
    CallsGrow(s, s1.timers);
    ReturnTimers(s1, w, Refused, AddFailed);
  }

  lemma DisarmTimers(s: State, w: nat)
    requires Balanced(s) && TimersOk(s) && w < |s.workers| && CanMove(s, w, Disarm)
    ensures TimersOk(DoMove(s, w, Disarm))
  {
    var f, c := s.workers[w].fiber, Current(s, w, Woken);
    assert Inside(s, f) && NapOk(s, c);
    if s.calls[c].kind == Nap {
      NapFired(s, f, s.calls[c].timer.value);
      UnarmedTimer(s, w, Woken);
      ReturnTimers(s, w, Woken, Returned);
    } else {
      StoppedTimer(s, w, Woken);
      var s1 := s.(timers := Stopped(s.timers, s.calls[c].timer));
      CallsGrow(s, s1.timers);
      GotoTimers(s1, w, Woken, Checking);
    }
  }

  lemma TryTimers(s: State, w: nat, again: bool)
    requires Sane(s) && TimersOk(s) && w < |s.workers| && CanMove(s, w, Try(again))
    ensures TimersOk(DoMove(s, w, Try(again)))
  {
    assert Inside(s, s.workers[w].fiber);
    UnarmedTimer(s, w, Trying);
    ReturnTimers(s, w, Trying, Returned);
    GotoTimers(s, w, Trying, Arming);
  }

  lemma CheckTimers(s: State, w: nat)
    requires Sane(s) && TimersOk(s) && w < |s.workers| && CanMove(s, w, Check)
    ensures TimersOk(DoMove(s, w, Check))
  {
    assert Inside(s, s.workers[w].fiber);
    UnarmedTimer(s, w, Checking);
    ReturnTimers(s, w, Checking, Returned);
    ReturnTimers(s, w, Checking, TimedOut);
    GotoTimers(s, w, Checking, Trying);
  }

  lemma SuspendTimers(s: State, w: nat, move: Move)
    requires Sane(s) && TimersOk(s) && w < |s.workers| && CanMove(s, w, move) && (move.Add? || move.Yield?)
    ensures TimersOk(DoMove(s, w, move))
  {
    var s1 := DoMove(s, w, move);
    if move.Yield? {
      GotoTimers(s, w, Yielding, Parked);
      SameTimers(Goto(s, w, Yielding, Parked), s1);
    } else if s1.failed == s.failed {
      var to := s1.fibers[s.workers[w].fiber].at;
      GotoTimers(s, w, Adding, to);
      SameTimers(Goto(s, w, Adding, to), s1);
    } else {
      SameTimers(s, s1);
    }
  }

  lemma SameTimers(s: State, s1: State)
    requires TimersOk(s) && s1.timers == s.timers && s1.calls == s.calls && s1.fibers == s.fibers && s1.now == s.now
    ensures TimersOk(s1)
  {
    OutsideTimers(s, s1);
  }

  lemma TakeTimers(s: State, w: nat, k: nat)
    requires Balanced(s) && TimersOk(s) && w < |s.workers| && CanMove(s, w, Take(k))
    ensures TimersOk(DoTake(s, w, k))
  {
    var s1 := DoTake(s, w, k);
    var task := s.queue[k];
    if task.FiberTask? && Ready(s.fibers[task.fiber]) && s.fibers[task.fiber].In? {
      ResumeTimers(s, s1, task.fiber);
    } else {
      OutsideTimers(s, s1);
    }
  }

  lemma FireTimers(s: State, w: nat, ok: bool)
    requires TimersOk(s) && w < |s.workers| && CanMove(s, w, Fire(ok))
    ensures TimersOk(DoFire(s, w, ok))
  {
    FlagTimers(s, DoFire(s, w, ok));
  }

  lemma CollectTimers(s: State, w: nat, ids: seq<T.TimerId>)
    requires Sane(s) && TimersOk(s) && w < |s.workers| && CanMove(s, w, Collect(ids))
    ensures TimersOk(DoMove(s, w, Collect(ids)))
  {
    CollectProgress(s.timers, s.now);
    ApplyGrows(s.timers, T.OpCollect(s.now));
    TimersProgress(s, T.Collect(s.timers, s.now));
    SameTimers(s.(timers := T.Collect(s.timers, s.now)), DoMove(s, w, Collect(ids)));
  }

  lemma IdleTimers(s: State, w: nat, move: Move)
    requires TimersOk(s) && w < |s.workers| && CanMove(s, w, move)
    requires move.Poll? || move.Post? || move.DispatchNext? || move.DispatchDone? || move.Wake? || move.Use? ||
             move.End?
    ensures TimersOk(DoMove(s, w, move))
  {
    OutsideTimers(s, DoMove(s, w, move));
  }

  lemma MoveKeepsTimers(s: State, w: nat, move: Move)
    requires Balanced(s) && TimersOk(s) && w < |s.workers| && CanMove(s, w, move)
    ensures TimersOk(DoMove(s, w, move))
  {
    if move.Take? {
      TakeTimers(s, w, move.k);
    } else if move.Collect? {
      CollectTimers(s, w, move.ids);
    } else if move.Fire? {
      FireTimers(s, w, move.ok);
    } else if move.Begin? {
      BeginTimers(s, w, move.kind, move.fd, move.event, move.to);
    } else if move.Try? {
      TryTimers(s, w, move.again);
    } else if move.Check? {
      CheckTimers(s, w);
    } else if move.Arm? {
      ArmTimers(s, w, move.i);
    } else if move.Add? || move.Yield? {
      SuspendTimers(s, w, move);
    } else if move.GiveUp? {
      GiveUpTimers(s, w);
    } else if move.Disarm? {
      DisarmTimers(s, w);
    } else {
      IdleTimers(s, w, move);
    }
  }

  lemma StepKeepsTimers(s: State, step: Step)
    requires Balanced(s) && TimersOk(s) && Can(s, step)
    ensures TimersOk(Do(s, step))
  {
    match step
    case Timer(op) =>
      UserProgress(s.timers, op, s.now);
      ApplyGrows(s.timers, op);
      TimersProgress(s, T.Apply(s.timers, op));
    case Work(w, move) => MoveKeepsTimers(s, w, move);
    case _ => OutsideTimers(s, Do(s, step));
  }

  // --------------------------------------------------------- steps: flags

  lemma FiredGrows(t: T.Timers, t1: T.Timers, c: nat)
    requires Grows(t, t1) && Fired(t, c)
    ensures Fired(t1, c)
  {
    var i :| i in t.all && t.all[i].given == Some(Timeout(c)) && t.all[i].fires > 0;
    assert i in t1.all && t1.all[i].given == Some(Timeout(c));
  }

  predicate IsTimeout(task: Task) {
    task.CallbackTask? && task.cb.Timeout?
  }

  lemma WokenPlain(r: E.Registry, r1: E.Registry, k: nat)
    requires forall t | 0 <= t < |r1.issued| :: Plain(r1.issued[t].task)
    requires k < |E.Woken(r, r1)|
    ensures Plain(E.Woken(r, r1)[k])
  {
  }

  /** The timers only grow: what was delivered stays delivered. */
  lemma FlagsGrow(s: State, t1: T.Timers)
    requires FlagsOk(s) && Grows(s.timers, t1)
    ensures FlagsOk(s.(timers := t1))
  {
    forall c | Fired(s.timers, c) ensures Fired(t1, c) {
      FiredGrows(s.timers, t1, c);
    }
    forall w | 0 <= w < |s.workers| ensures CarriesFired(t1, s.workers[w]) {
      assert CarriesFired(s.timers, s.workers[w]);
    }
  }

  /** Changes that add no timeout callback and set no flag. */
  lemma FlagsSame(s: State, s1: State)
    requires FlagsOk(s) && s1.timers == s.timers
    requires |s.calls| <= |s1.calls|
    requires forall c | 0 <= c < |s1.calls| ::
      && (s1.calls[c].cancelled ==> c < |s.calls| && s.calls[c].cancelled)
      && (s1.calls[c].outcome == TimedOut ==> s1.calls[c].cancelled)
    requires forall k | 0 <= k < |s1.queue| :: s1.queue[k] in s.queue || !IsTimeout(s1.queue[k])
    requires |s1.workers| == |s.workers|
    requires forall w | 0 <= w < |s.workers| :: CarriesFired(s.timers, s1.workers[w])
    ensures FlagsOk(s1)
  {
  }

  lemma TakeFlags(s: State, w: nat, k: nat)
    requires FlagsOk(s) && w < |s.workers| && CanMove(s, w, Take(k))
    ensures FlagsOk(DoTake(s, w, k))
  {
    var s1 := DoTake(s, w, k);
    forall v | 0 <= v < |s.workers| ensures CarriesFired(s.timers, s1.workers[v]) {
      assert CarriesFired(s.timers, s.workers[v]);
    }
    FlagsSame(s, s1);
  }

  lemma CollectFlags(s: State, w: nat, ids: seq<T.TimerId>)
    requires Sane(s) && FlagsOk(s) && w < |s.workers| && CanMove(s, w, Collect(ids))
    ensures FlagsOk(DoMove(s, w, Collect(ids)))
  {
    var s1 := DoMove(s, w, Collect(ids));
    T.ExactExpiry(s.timers, s.now, ids);
    ApplyGrows(s.timers, T.OpCollect(s.now));
    FlagsGrow(s, s1.timers);
    var cbs := T.CallbacksOf(s.timers, ids);
    forall k | 0 <= k < |cbs| && cbs[k].Some? && cbs[k].value.Timeout?
      ensures Fired(s1.timers, cbs[k].value.call)
    {
      assert ids[k] in ids && ids[k] in s1.timers.all;
      assert T.TimerInv(s.timers.all[ids[k]], ids[k] in s.timers.live);
    }
    forall v | 0 <= v < |s.workers| ensures CarriesFired(s1.timers, s1.workers[v]) {
      assert CarriesFired(s1.timers, s.(timers := s1.timers).workers[v]);
    }
    FlagsSame(s.(timers := s1.timers), s1);
  }

  lemma PostFlags(s: State, w: nat)
    requires FlagsOk(s) && w < |s.workers| && CanMove(s, w, Post)
    ensures FlagsOk(DoMove(s, w, Post))
  {
    var s1 := DoMove(s, w, Post);
    assert CarriesFired(s.timers, s.workers[w]);
    forall v | 0 <= v < |s.workers| ensures CarriesFired(s.timers, s1.workers[v]) {
      assert CarriesFired(s.timers, s.workers[v]);
    }
  }

  lemma FireFlags(s: State, w: nat, ok: bool)
    requires Sane(s) && FlagsOk(s) && w < |s.workers| && CanMove(s, w, Fire(ok))
    ensures FlagsOk(DoFire(s, w, ok))
  {
    var s1 := DoFire(s, w, ok);
    assert CarriesFired(s.timers, s.workers[w]);
    if s.workers[w].stage < 2 {
      forall v | 0 <= v < |s.workers| ensures CarriesFired(s.timers, s1.workers[v]) {
        assert CarriesFired(s.timers, s.workers[v]);
      }
    } else {
      FireSane(s, w, ok);
      EventFlags(s, s1);
    }
  }

  lemma QueueSame(s: State, s1: State)
    requires FlagsOk(s) && s1.timers == s.timers
    requires s1.queue == s.queue || s1.queue == s.queue + E.Woken(s.events, s1.events)
    requires SaneEvents(s1.events, s1.owner)
    ensures forall k | 0 <= k < |s1.queue| :: s1.queue[k] in s.queue || !IsTimeout(s1.queue[k])
  {
    forall k | 0 <= k < |s1.queue| ensures s1.queue[k] in s.queue || !IsTimeout(s1.queue[k]) {
      if k >= |s.queue| {
        WokenPlain(s.events, s1.events, k - |s.queue|);
      }
    }
  }

  /** Moves that add to the queue only what the registry hands over, and give no worker a callback. */
  lemma EventFlags(s: State, s1: State)
    requires FlagsOk(s) && s1.timers == s.timers && s1.calls == s.calls && SaneEvents(s1.events, s1.owner)
    requires s1.queue == s.queue || s1.queue == s.queue + E.Woken(s.events, s1.events)
    requires |s1.workers| == |s.workers|
    requires forall w | 0 <= w < |s.workers| ::
      CarriesFired(s.timers, s.workers[w]) ==> CarriesFired(s.timers, s1.workers[w])
    ensures FlagsOk(s1)
  {
    QueueSame(s, s1);
    forall w | 0 <= w < |s.workers| ensures CarriesFired(s.timers, s1.workers[w]) {
      assert CarriesFired(s.timers, s.workers[w]);
    }
    FlagsSame(s, s1);
  }

  lemma DispatchFlags(s: State, w: nat, ok: bool)
    requires Sane(s) && FlagsOk(s) && w < |s.workers| && CanMove(s, w, DispatchNext(ok))
    ensures FlagsOk(DoDispatch(s, w, ok))
  {
    DispatchSane(s, w, ok);
    EventFlags(s, DoDispatch(s, w, ok));
  }

  lemma UseFlags(s: State, op: R.Op)
    requires Sane(s) && FlagsOk(s) && UserEvent(s.events, op)
    ensures FlagsOk(DoUse(s, op))
  {
    UseSane(s, op);
    EventFlags(s, DoUse(s, op));
  }

  lemma AddFlags(s: State, w: nat, ok: bool)
    requires Sane(s) && FlagsOk(s) && w < |s.workers| && CanMove(s, w, Add(ok))
    ensures FlagsOk(DoAdd(s, w, ok))
  {
    AddSane(s, w, ok);
    EventFlags(s, DoAdd(s, w, ok));
  }

  /** Moves that cancel or arm a timer, and leave queue and workers alone. */
  lemma TimerFlags(s: State, s1: State)
    requires FlagsOk(s) && Grows(s.timers, s1.timers) && s1.queue == s.queue && s1.workers == s.workers
    requires |s.calls| == |s1.calls|
    requires forall c | 0 <= c < |s.calls| :: s1.calls[c].cancelled == s.calls[c].cancelled
    requires forall c | 0 <= c < |s.calls| :: s1.calls[c].outcome == TimedOut ==> s.calls[c].outcome == TimedOut
    ensures FlagsOk(s1)
  {
    FlagsGrow(s, s1.timers);
    var s2 := s.(timers := s1.timers);
    forall w | 0 <= w < |s.workers| ensures CarriesFired(s1.timers, s1.workers[w]) {
      assert CarriesFired(s1.timers, s2.workers[w]);
    }
    FlagsSame(s2, s1);
  }

  lemma ArmFlags(s: State, w: nat, i: T.TimerId)
    requires Sane(s) && FlagsOk(s) && w < |s.workers| && CanMove(s, w, Arm(i))
    ensures FlagsOk(DoArm(s, w, i))
  {
    ArmKeep(s, w, i);
    ArmArms(s, w, i);
    TimerFlags(s, DoArm(s, w, i));
  }

  lemma StopFlags(s: State, w: nat, move: Move)
    requires Sane(s) && FlagsOk(s) && w < |s.workers| && CanMove(s, w, move) && (move.GiveUp? || move.Disarm?)
    ensures FlagsOk(DoMove(s, w, move))
  {
    TimedKeep(s, w, move);
    TimerFlags(s, DoMove(s, w, move));
  }

  lemma LocalFlags(s: State, w: nat, move: Move)
    requires FlagsOk(s) && w < |s.workers| && CanMove(s, w, move)
    requires move.Poll? || move.DispatchDone? || move.Wake? || move.Begin? || move.Try? || move.Yield? ||
             move.Check? || move.End?
    ensures FlagsOk(DoMove(s, w, move))
  {
    var s1 := DoMove(s, w, move);
    forall v | 0 <= v < |s.workers| ensures CarriesFired(s.timers, s1.workers[v]) {
      assert CarriesFired(s.timers, s.workers[v]);
    }
    FlagsSame(s, s1);
  }

  lemma MoveKeepsFlags(s: State, w: nat, move: Move)
    requires Sane(s) && FlagsOk(s) && w < |s.workers| && CanMove(s, w, move)
    ensures FlagsOk(DoMove(s, w, move))
  {
    if move.Take? {
      TakeFlags(s, w, move.k);
    } else if move.Collect? {
      CollectFlags(s, w, move.ids);
    } else if move.Post? {
      PostFlags(s, w);
    } else if move.Fire? {
      FireFlags(s, w, move.ok);
    } else if move.DispatchNext? {
      DispatchFlags(s, w, move.ok);
    } else if move.Use? {
      UseFlags(s, move.op);
    } else if move.Add? {
      AddFlags(s, w, move.ok);
    } else if move.Arm? {
      ArmFlags(s, w, move.i);
    } else if move.GiveUp? || move.Disarm? {
      StopFlags(s, w, move);
    } else {
      LocalFlags(s, w, move);
    }
  }

  lemma StepKeepsFlags(s: State, step: Step)
    requires Sane(s) && FlagsOk(s) && Can(s, step)
    ensures FlagsOk(Do(s, step))
  {
    match step
    case Timer(op) =>
      ApplyGrows(s.timers, op);
      FlagsGrow(s, T.Apply(s.timers, op));
    case Work(w, move) => MoveKeepsFlags(s, w, move);
    case _ => FlagsSame(s, Do(s, step));
  }

  // --------------------------------------------------------- steps: owners

  /** Registrations only end, and the fibers that wait for live ones stay where they are. */
  lemma OwnersSame(s: State, s1: State)
    requires OwnersOk(s) && s1.owner == s.owner && s1.events.issued == s.events.issued
    requires forall t | Waiting(s1.events, t) :: Waiting(s.events, t)
    requires CallsRemain(s, s1) && |s.fibers| <= |s1.fibers|
    requires forall f | 0 <= f < |s.fibers| && Asleep(s.fibers[f]) ::
      || (Asleep(s1.fibers[f]) && s1.fibers[f].call == s.fibers[f].call)
      || Awaiting(s.events, f) == {}
    ensures OwnersOk(s1)
  {
    forall t | 0 <= t < |s1.owner| ensures OwnerOk(s1, t) {
      assert OwnerOk(s, t);
      if s.owner[t].Some? && Waiting(s1.events, t) {
        assert t in Awaiting(s.events, s.calls[s.owner[t].value].fiber);
      }
    }
  }

  /** One more registration. */
  lemma OwnersMore(s: State, s1: State)
    requires OwnersOk(s) && |s1.owner| == |s1.events.issued| == |s.owner| + 1
    requires s.owner <= s1.owner && s.events.issued <= s1.events.issued
    requires s1.events.log == s.events.log && s1.events.dropped == s.events.dropped
    requires s1.calls == s.calls && |s.fibers| == |s1.fibers|
    requires forall f | 0 <= f < |s.fibers| && Asleep(s.fibers[f]) :: s1.fibers[f] == s.fibers[f]
    requires OwnerOk(s1, |s.owner|)
    ensures OwnersOk(s1)
  {
    forall t | 0 <= t < |s1.owner| ensures OwnerOk(s1, t) {
      assert t < |s.owner| ==> OwnerOk(s, t) && s1.owner[t] == s.owner[t];
    }
  }

  lemma AddOwners(s: State, w: nat, ok: bool)
    requires Sane(s) && OwnersOk(s) && w < |s.workers| && CanMove(s, w, Add(ok))
    ensures OwnersOk(DoAdd(s, w, ok))
  {
    var f, c := s.workers[w].fiber, Current(s, w, Adding);
    assert Inside(s, f);
    E.AddEventSpec(s.events, s.calls[c].fd, s.calls[c].event, FiberTask(f), ok);
    if DoAdd(s, w, ok).owner == s.owner {
      OwnersSame(s, DoAdd(s, w, ok));
    } else {
      AddedOwner(s, w, c, E.AddEvent(s.events, s.calls[c].fd, s.calls[c].event, FiberTask(f), ok).0);
    }
  }

  lemma AddedOwner(s: State, w: nat, c: nat, r: E.Registry)
    requires OwnersOk(s) && At(s, w, Adding) && c == Current(s, w, Adding)
    requires s.calls[c].fiber == s.workers[w].fiber
    requires r.log == s.events.log && r.dropped == s.events.dropped
    requires r.issued == s.events.issued
                         + [E.Registration(s.calls[c].fd, s.calls[c].event, FiberTask(s.workers[w].fiber))]
    ensures OwnersOk(Goto(s, w, Adding, Yielding).(events := r, owner := s.owner + [Some(c)]))
  {
    OwnersMore(s, Goto(s, w, Adding, Yielding).(events := r, owner := s.owner + [Some(c)]));
  }

  lemma UseOwners(s: State, op: R.Op)
    requires Sane(s) && OwnersOk(s) && UserEvent(s.events, op)
    ensures OwnersOk(DoUse(s, op))
  {
    var s1 := DoUse(s, op);
    if R.Apply(s.events, op).1 != E.Aborted {
      UseEffect(s.events, op);
      if s1.owner == s.owner {
        OwnersSame(s, s1);
      } else {
        OwnersMore(s, s1);
      }
    } else {
      OwnersSame(s, s1);
    }
  }

  lemma TakeOwners(s: State, w: nat, k: nat)
    requires Balanced(s) && OwnersOk(s) && w < |s.workers| && CanMove(s, w, Take(k))
    ensures OwnersOk(DoTake(s, w, k))
  {
    if s.queue[k].FiberTask? {
      assert s.queue[k] in s.queue;
      NoWakeup(s, s.queue[k].fiber);
    }
    OwnersSame(s, DoTake(s, w, k));
  }

  lemma DispatchOwners(s: State, w: nat, ok: bool)
    requires Sane(s) && OwnersOk(s) && w < |s.workers| && CanMove(s, w, DispatchNext(ok))
    ensures OwnersOk(DoDispatch(s, w, ok))
  {
    if E.Dispatch(s.events, s.workers[w].reports[0], ok).1 != E.Aborted {
      DispatchEnds(s.events, s.workers[w].reports[0], ok);
    }
    OwnersSame(s, DoDispatch(s, w, ok));
  }

  lemma FireOwners(s: State, w: nat, ok: bool)
    requires Sane(s) && OwnersOk(s) && w < |s.workers| && CanMove(s, w, Fire(ok))
    ensures OwnersOk(DoFire(s, w, ok))
  {
    var call := s.calls[s.workers[w].call];
    CancelEnds(s.events, call.fd, call.event, ok);
    OwnersSame(s, DoFire(s, w, ok));
  }

  /** Moves that leave the registry alone and resume no fiber. */
  lemma LocalOwners(s: State, w: nat, move: Move)
    requires Sane(s) && OwnersOk(s) && w < |s.workers| && CanMove(s, w, move) && !Eventful(move) && !move.Take?
    ensures OwnersOk(DoMove(s, w, move))
  {
    UneventfulMove(s, w, move);
    LocalFrame(s, w, move);
    OwnersSame(s, DoMove(s, w, move));
  }

  ghost predicate SleepersStay(s: State, s1: State) {
    && CallsRemain(s, s1) && |s1.fibers| == |s.fibers|
    && forall f | 0 <= f < |s.fibers| && Asleep(s.fibers[f]) ::
         Asleep(s1.fibers[f]) && s1.fibers[f].call == s.fibers[f].call
  }

  lemma LocalFrame(s: State, w: nat, move: Move)
    requires w < |s.workers| && CanMove(s, w, move) && !Eventful(move) && !move.Take?
    ensures SleepersStay(s, DoMove(s, w, move))
  {
    if move.Arm? {
      ArmFrame(s, w, move.i);
    } else if move.Begin? {
      BeginFrame(s, w, move.kind, move.fd, move.event, move.to);
    } else if move.Try? || move.GiveUp? || move.Check? {
      CallFrame(s, w, move);
    } else if move.Yield? || move.Disarm? {
      SwitchFrame(s, w, move);
    }
  }

  lemma ArmFrame(s: State, w: nat, i: T.TimerId)
    requires w < |s.workers| && CanMove(s, w, Arm(i))
    ensures SleepersStay(s, DoArm(s, w, i))
  {
    ArmArms(s, w, i);
  }

  lemma CallFrame(s: State, w: nat, move: Move)
    requires w < |s.workers| && CanMove(s, w, move) && (move.Try? || move.GiveUp? || move.Check?)
    ensures SleepersStay(s, DoMove(s, w, move))
  {
  }

  lemma SwitchFrame(s: State, w: nat, move: Move)
    requires w < |s.workers| && CanMove(s, w, move) && (move.Yield? || move.Disarm?)
    ensures SleepersStay(s, DoMove(s, w, move))
  {
  }

  lemma BeginFrame(s: State, w: nat, kind: Kind, fd: E.Fd, event: E.Event, to: U64)
    requires InOwn(s, w)
    ensures SleepersStay(s, DoBegin(s, w, kind, fd, event, to))
  {
  }

  lemma MoveKeepsOwners(s: State, w: nat, move: Move)
    requires Balanced(s) && OwnersOk(s) && w < |s.workers| && CanMove(s, w, move)
    ensures OwnersOk(DoMove(s, w, move))
  {
    if move.Take? {
      TakeOwners(s, w, move.k);
    } else if move.DispatchNext? {
      DispatchOwners(s, w, move.ok);
    } else if move.Fire? {
      FireOwners(s, w, move.ok);
    } else if move.Add? {
      AddOwners(s, w, move.ok);
    } else if move.Use? {
      UseOwners(s, move.op);
    } else {
      LocalOwners(s, w, move);
    }
  }

  lemma StepKeepsOwners(s: State, step: Step)
    requires Balanced(s) && OwnersOk(s) && Can(s, step)
    ensures OwnersOk(Do(s, step))
  {
    match step
    case Work(w, move) => MoveKeepsOwners(s, w, move);
    case _ => OwnersSame(s, Do(s, step));
  }

  // ----------------------------------------------------------------- runs

  lemma StartOk(n: nat, now: U64)
    ensures Balanced(Start(n, now)) && Ok(Start(n, now))
  {
    forall f: FiberId ensures Balance(Start(n, now), f) == 0 {
      StartSane(n, now, f);
    }
    StartSane(n, now, 0);
  }

  lemma StepKeepsOk(s: State, step: Step)
    requires Balanced(s) && Ok(s) && Can(s, step)
    ensures Balanced(Do(s, step)) && Ok(Do(s, step))
  {
    StepKeepsSane(s, step);
    forall f: FiberId ensures Balance(Do(s, step), f) == 0 {
      assert Balance(s, f) == 0;
      StepKeepsBalance(s, step, f);
    }
    StepKeepsTimers(s, step);
    StepKeepsFlags(s, step);
    StepKeepsOwners(s, step);
  }

  lemma {:induction false} RunIsOk(n: nat, trace: seq<State>, steps: seq<Step>, k: nat)
    requires IsRun(n, trace, steps) && k < |trace|
    ensures Balanced(trace[k]) && Ok(trace[k])
  {
    if k == 0 {
      StartOk(n, trace[0].now);
    } else {
      RunIsOk(n, trace, steps, k - 1);
      StepKeepsOk(trace[k - 1], steps[k - 1]);
    }
  }

  lemma ReachableIsOk(n: nat, s: State)
    requires Reachable(n, s)
    ensures Balanced(s) && Ok(s)
  {
    var trace, steps :| IsRun(n, trace, steps) && trace[|trace| - 1] == s;
    RunIsOk(n, trace, steps, |trace| - 1);
  }

  /** Timeout soundness. In every run, for any number of workers: a call reports a timeout only if a timer
      that it made itself when one of its waits began was delivered, and no earlier than the period `to`
      after that moment. */
  lemma TimeoutIsSound(n: nat, s: State, c: nat)
    requires Reachable(n, s) && c < |s.calls| && s.calls[c].outcome == TimedOut
    ensures exists i ::
      && i in s.timers.all && s.timers.all[i].given == Some(Timeout(c)) && s.timers.all[i].fires == 1
      && s.timers.all[i].base in s.calls[c].waits
      && Plus(s.timers.all[i].base, s.calls[c].to) <= s.timers.all[i].firedAt <= s.now
  {
    ReachableIsOk(n, s);
    assert Fired(s.timers, c);
    var i :| i in s.timers.all && s.timers.all[i].given == Some(Timeout(c)) && s.timers.all[i].fires > 0;
    assert Made(s, i) && OneWake(s.timers.all[i]) && T.TimerInv(s.timers.all[i], i in s.timers.live);
  }

  /** A call without a timeout waits for as long as it takes: it never has a timer, nothing sets its flag, and it
      does not time out. */
  lemma NoTimeoutNoTimer(n: nat, s: State, c: nat)
    requires Reachable(n, s) && c < |s.calls| && s.calls[c].kind != Nap && s.calls[c].to == MAX64
    ensures s.calls[c].timer == None && !s.calls[c].cancelled && s.calls[c].outcome != TimedOut
    ensures forall i | i in s.timers.all :: s.timers.all[i].given != Some(Timeout(c))
    ensures forall w | 0 <= w < |s.workers| :: !(s.workers[w].Fires? && s.workers[w].call == c)
  {
    ReachableIsOk(n, s);
    assert TimerOf(s, c);
    assert forall i | i in s.timers.all :: Made(s, i);
    assert !Fired(s.timers, c);
    assert forall w | 0 <= w < |s.workers| :: CarriesFired(s.timers, s.workers[w]);
  }

  /** Nothing is left. Once a call has returned, however it ended, no timer made for it is in the timer set
      and none of its registrations is live. */
  lemma NothingIsLeft(n: nat, s: State, c: nat)
    requires Reachable(n, s) && c < |s.calls| && s.calls[c].outcome != Pending
    ensures forall i | i in s.timers.live :: i in s.timers.all && s.timers.all[i].given != Some(Timeout(c))
    ensures s.calls[c].timer.Some? ==> s.calls[c].timer.value !in s.timers.live
    ensures |s.owner| == |s.events.issued|
    ensures forall t | 0 <= t < |s.owner| && s.owner[t] == Some(c) :: !E.Live(s.events, t)
  {
    ReachableIsOk(n, s);
    OwnTimerGone(s, c);
    forall i | i in s.timers.live ensures i in s.timers.all && s.timers.all[i].given != Some(Timeout(c)) {
      assert Made(s, i) && Held(s, i);
      assert s.calls[c].fiber < |s.fibers| ==> Inside(s, s.calls[c].fiber);
    }
    forall t | 0 <= t < |s.owner| && s.owner[t] == Some(c) ensures !E.Live(s.events, t) {
      assert OwnerOk(s, t) && E.FateInv(s.events, t) && Inside(s, s.calls[c].fiber);
    }
  }

  /** The last timer that a call made, be it a wait or a sleep, is not in the set. */
  lemma OwnTimerGone(s: State, c: nat)
    requires Sane(s) && TimersOk(s) && c < |s.calls| && s.calls[c].outcome != Pending
    ensures s.calls[c].timer.Some? ==> s.calls[c].timer.value !in s.timers.live
  {
    assert NapOk(s, c) && TimerOf(s, c) && Inside(s, s.calls[c].fiber);
    if s.calls[c].timer.Some? {
      var i := s.calls[c].timer.value;
      assert i in s.timers.all && Made(s, i) && Held(s, i) && OneWake(s.timers.all[i]);
      assert T.TimerInv(s.timers.all[i], i in s.timers.live);
    }
  }

  /** A sleep returns only after its timer was delivered, no earlier than its period after it began. */
  lemma SleepIsLongEnough(n: nat, s: State, c: nat)
    requires Reachable(n, s) && c < |s.calls| && s.calls[c].kind == Nap && s.calls[c].outcome != Pending
    ensures exists i ::
      && s.calls[c].timer == Some(i) && i in s.timers.all && s.timers.all[i].fires == 1
      && s.timers.all[i].base in s.calls[c].waits
      && Plus(s.timers.all[i].base, s.calls[c].to) <= s.timers.all[i].firedAt <= s.now
  {
    ReachableIsOk(n, s);
    assert NapOk(s, c);
    var i := s.calls[c].timer.value;
    assert Made(s, i) && T.TimerInv(s.timers.all[i], i in s.timers.live);
  }
}
