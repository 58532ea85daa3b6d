/**
 How late the idle loop of IOManager can be.

 A worker stays in the loop: it collects the expired timers, asks for the next delay, and waits in
 epoll_wait for at most that long and at most MAX_TIMEOUT. Only waiting takes time, and a wait that is
 interrupted by a signal is not considered. Meanwhile other threads operate on the timers, and may
 collect them too; none of those operations is assumed to end the wait.
 */
module Lateness {
  import opened Words
  import opened Tasks
  import opened TimerModel

  const MAX_TIMEOUT: int := 5000

  /** The timeout passed to epoll_wait; a negative one means no timeout. */
  function WaitLimit(d: U64): int {
    if d == MAX64 then MAX_TIMEOUT else if ToInt(d) < MAX_TIMEOUT then ToInt(d) else MAX_TIMEOUT
  }

  /** The wait is bounded exactly when the delay, cut to 32 bits, is not negative; delays below 2^31 are
      honoured up to the maximum. */
  lemma WaitIsBounded(d: U64)
    ensures 0 <= WaitLimit(d) <= MAX_TIMEOUT <==> d == MAX64 || d % TWO32 < TWO31
    ensures WaitLimit(d) <= MAX_TIMEOUT && WaitLimit(MAX64) == MAX_TIMEOUT
    ensures d < TWO31 ==> WaitLimit(d) == if d < MAX_TIMEOUT then d else MAX_TIMEOUT
  {
    if d < TWO31 {
      assert d % TWO32 == d;
    }
  }

  /** A wait that is not cut lasts neither longer nor shorter than it should: until the first deadline, or, if there
      is none within MAX_TIMEOUT, for that long. */
  lemma WaitEndsWhenDue(s: Timers, now: U64, d: U64)
    requires Inv(s) && NextDelay(s, now, d) && (d < TWO31 || d == MAX64)
    ensures forall i | i in s.live :: now + WaitLimit(d) <= Later(s.all[i].next, now)
    ensures WaitLimit(d) < MAX_TIMEOUT ==> exists i :: i in s.live && s.all[i].next <= now + WaitLimit(d)
  {
    WaitIsBounded(d);
    if s.live != {} {
      var i :| i in s.live && AtFront(s, i) && d == if now >= s.all[i].next then 0 else s.all[i].next - now;
      assert forall j | j in s.live :: s.all[i].next <= s.all[j].next;
    }
  }

  /** `since` is when the current wait began, which is when timers were last collected. */
  datatype Loop = Loop(timers: Timers, now: U64, since: U64, limit: int)

  datatype Step =
    | Other(op: Op)                // another thread operates on the timers
    | Tick(to: U64)                // the wait goes on
    | Pass(ids: seq<TimerId>, d: U64)  // the wait ends; `ids` are delivered; the next delay is `d`

  predicate AtTime(op: Op, now: U64) {
    match op
    case OpCancel(_) => true
    case _ => op.now == now
  }

  ghost predicate Next(l: Loop, step: Step, l': Loop) {
    match step
    case Other(op) => Enabled(l.timers, op) && AtTime(op, l.now) && l' == l.(timers := Apply(l.timers, op))
    case Tick(to) => l.now <= to && (0 <= l.limit ==> to <= l.since + l.limit) && l' == l.(now := to)
    case Pass(ids, d) =>
      && l.timers.live <= l.timers.all.Keys && Emits(l.timers, l.now, ids)
      && var collected := Collect(l.timers, l.now);
      && collected.live <= collected.all.Keys && NextDelay(collected, l.now, d)
      && l' == Loop(collected, l.now, l.now, WaitLimit(d))
  }

  ghost predicate IsLoop(trace: seq<Loop>, steps: seq<Step>) {
    && |trace| == |steps| + 1
    && forall k {:trigger steps[k]} | 0 <= k < |steps| :: Next(trace[k], steps[k], trace[k + 1])
  }

  /** The loop has just been entered with no timers. */
  predicate Start(l: Loop) {
    l.timers == Empty(l.now) && l.since == l.now && l.limit == MAX_TIMEOUT
  }

  function Later(a: U64, b: U64): U64 {
    if a < b then b else a
  }

  /** No timer that was due at the last collection is still there with its old key. */
  ghost predicate OnTime(l: Loop) {
    && Inv(l.timers)
    && l.timers.previous <= l.now && l.since <= l.now
    && (0 <= l.limit ==> l.now <= l.since + l.limit) && l.limit <= MAX_TIMEOUT
    && forall i | i in l.timers.live ::
         var t := l.timers.all[i];
         t.keyed <= l.now && l.since <= Later(t.next, t.keyed)
  }

  lemma StepKeepsOnTime(l: Loop, step: Step, l': Loop)
    requires OnTime(l) && Next(l, step, l')
    ensures OnTime(l')
  {
    match step
    case Other(op) => ApplyKeepsInv(l.timers, op);
    case Tick(to) =>
    case Pass(ids, d) =>
      ApplyKeepsInv(l.timers, OpCollect(l.now));
      WaitIsBounded(d);
  }

  lemma {:induction false} LoopKeepsOnTime(trace: seq<Loop>, steps: seq<Step>, k: nat)
    requires IsLoop(trace, steps) && Start(trace[0]) && k < |trace|
    ensures OnTime(trace[k])
  {
    if k > 0 {
      LoopKeepsOnTime(trace, steps, k - 1);
      StepKeepsOnTime(trace[k - 1], steps[k - 1], trace[k]);
    }
  }

  /** Lateness bound. In every run of the loop, a pass delivers a timer if its deadline has come and not
      otherwise; and if it ends a wait that was bounded, then by now at most MAX_TIMEOUT has gone by since
      the deadline, or since that deadline was set, whichever is later. When waits are bounded is the
      subject of `InTimeExactly`. */
  lemma LatenessBound(trace: seq<Loop>, steps: seq<Step>, k: nat, i: TimerId)
    requires IsLoop(trace, steps) && Start(trace[0])
    requires k < |steps| && steps[k].Pass?
    requires i in trace[k].timers.live && i in trace[k].timers.all
    ensures var l, t := trace[k], trace[k].timers.all[i];
            && (i in steps[k].ids <==> t.next <= l.now)
            && (0 <= l.limit ==> l.now <= Later(t.next, t.keyed) + MAX_TIMEOUT)
  {
    LoopKeepsOnTime(trace, steps, k);
    assert Next(trace[k], steps[k], trace[k + 1]);
    assert i in steps[k].ids <==> i in Due(trace[k].timers, trace[k].now);
  }

  /** The waiter goes on at once when it is notified, which happens when `tickled` turns true. */
  predicate Prompt(trace: seq<Loop>, steps: seq<Step>)
    requires |trace| == |steps| + 1
  {
    forall k {:trigger steps[k]} | 0 <= k < |steps| && !trace[k].timers.tickled && trace[k + 1].timers.tickled ::
      k + 1 < |steps| && steps[k + 1].Pass?
  }

  function Far(ms: U64, now: U64): Op {
    OpAdd(3, ms, Some(User(0)), false, now)
  }

  const NEAR := OpAdd(7, 0, Some(User(1)), false, 1000)

  /** A first timer notifies the waiter, which goes on and waits again. */
  lemma WaitsAgain(ms: U64, now: U64) returns (trace: seq<Loop>, steps: seq<Step>)
    requires 0 < ms && now + ms < TWO64
    ensures IsLoop(trace, steps) && Start(trace[0]) && steps == [Other(Far(ms, now)), Pass([], ms)]
    ensures Prompt(trace, steps) && trace[1].timers.tickled && trace[0].now == now
    ensures trace[2] == Loop(Apply(Empty(now), Far(ms, now)).(previous := now), now, now, WaitLimit(ms))
  {
    var l0 := Loop(Empty(now), now, now, MAX_TIMEOUT);
    var l1 := l0.(timers := Apply(l0.timers, Far(ms, now)));
    assert l1.timers.live == {3} && AtFront(l1.timers, 3);
    assert Due(l1.timers, now) == {};
    var collected := Collect(l1.timers, now);
    assert collected == l1.timers.(previous := now);
    assert 3 in collected.live && AtFront(collected, 3);
    var l2 := Loop(collected, now, now, WaitLimit(ms));
    trace, steps := [l0, l1, l2], [Other(Far(ms, now)), Pass([], ms)];
    assert Next(l1, steps[1], l2);
  }

  /** A run in which the waiter has been notified goes on without notifying it again. */
  lemma OneMore(trace: seq<Loop>, steps: seq<Step>, step: Step, l: Loop) returns (trace': seq<Loop>, steps': seq<Step>)
    requires IsLoop(trace, steps) && Prompt(trace, steps) && trace[|steps|].timers.tickled
    requires Next(trace[|steps|], step, l)
    ensures trace' == trace + [l] && steps' == steps + [step]
    ensures IsLoop(trace', steps') && Prompt(trace', steps') && l.timers.tickled
  {
    var n := |steps|;
    trace', steps' := trace + [l], steps + [step];
    forall k {:trigger steps'[k]} | 0 <= k < |steps'| ensures Next(trace'[k], steps'[k], trace'[k + 1]) {
      if k < n {
        assert trace'[k] == trace[k] && trace'[k + 1] == trace[k + 1] && steps'[k] == steps[k];
      }
    }
    forall k {:trigger trace'[k]}
      | 0 <= k < |steps'| && !trace'[k].timers.tickled && trace'[k + 1].timers.tickled
      ensures k + 1 < |steps'| && steps'[k + 1].Pass?
    {
      assert trace'[k] == trace[k] && trace'[k + 1] == trace[k + 1] && steps'[k] == steps[k];
      assert steps'[k + 1] == steps[k + 1];
    }
  }

  /** The bound is attained in a run of the code: after the first timer ever, which notifies, a timer that is
      put in front right after the wait began notifies nobody, and is collected only when the wait ends by
      itself. */
  lemma BoundIsAttained() returns (trace: seq<Loop>, steps: seq<Step>)
    ensures IsLoop(trace, steps) && Start(trace[0]) && Prompt(trace, steps) && |steps| == 5
    ensures steps[2] == Other(NEAR) && trace[2].timers.tickled && 7 !in trace[2].timers.all
    ensures steps[4] == Pass([7], 95000) && 7 in trace[4].timers.live && 7 in trace[4].timers.all
    ensures var t := trace[4].timers.all[7]; trace[4].now == Later(t.next, t.keyed) + MAX_TIMEOUT
    ensures AtFront(trace[3].timers, 7)
  {
    trace, steps := WaitsAgain(100000, 1000);
    var l3, l4 := PutsNear(trace[2]);
    trace, steps := OneMore(trace, steps, Other(NEAR), l3);
    trace, steps := OneMore(trace, steps, Tick(6000), l4);
    var l5 := FindsNear(l4);
    trace, steps := OneMore(trace, steps, Pass([7], 95000), l5);
  }

  lemma PutsNear(l: Loop) returns (l1: Loop, l2: Loop)
    requires l == Loop(Apply(Empty(1000), Far(100000, 1000)).(previous := 1000), 1000, 1000, WaitLimit(100000))
    ensures Next(l, Other(NEAR), l1) && AtFront(l1.timers, 7) && Next(l1, Tick(6000), l2) && l2 == l1.(now := 6000)
    ensures l1.timers.live == {3, 7} == l1.timers.all.Keys && l1.timers.previous == 1000
    ensures l1.timers.all[3].next == 101000
    ensures var t := l1.timers.all[7]; t.next == 1000 && t.keyed == 1000 && !t.recurring
  {
    WaitIsBounded(100000);
    l1 := l.(timers := Apply(l.timers, NEAR));
    l2 := l1.(now := 6000);
  }

  lemma FindsNear(l: Loop) returns (l': Loop)
    requires l.timers.live == {3, 7} <= l.timers.all.Keys && l.timers.previous <= l.now == 6000
    requires l.timers.all[3].next == 101000 && l.timers.all[7].next == 1000 && !l.timers.all[7].recurring
    ensures Next(l, Pass([7], 95000), l')
  {
    assert Due(l.timers, 6000) == {7};
    var collected := Collect(l.timers, 6000);
    assert collected.live == {3} && AtFront(collected, 3);
    assert forall i :: i in [7] <==> i == 7;
    l' := Loop(collected, 6000, 6000, WaitLimit(95000));
  }

  // --------------------------------------------------------- unbounded waits

  predicate Asks(step: Step, p: U64) {
    match step
    case Other(OpAdd(_, ms, _, _, _)) => ms <= p
    case Other(OpReset(_, ms, _, _)) => ms <= p
    case _ => true
  }

  /** No timer is given a period above `p`, and the clock never reads less than `from`. */
  ghost predicate Moderate(trace: seq<Loop>, steps: seq<Step>, p: U64, from: U64) {
    && |trace| > 0 && from <= trace[0].now
    && forall k {:trigger steps[k]} | 0 <= k < |steps| :: Asks(steps[k], p)
  }

  /** No timer has been left in the set for more than MAX_TIMEOUT after it was due. */
  ghost predicate InTime(l: Loop) {
    forall i | i in l.timers.live ::
      && i in l.timers.all
      && l.now <= Later(l.timers.all[i].next, l.timers.all[i].keyed) + MAX_TIMEOUT
  }

  ghost predicate AlwaysInTime(p: U64, from: U64) {
    forall trace, steps, k: nat ::
      IsLoop(trace, steps) && Start(trace[0]) && Moderate(trace, steps, p, from) && k < |trace| ==> InTime(trace[k])
  }

  /** What a caller has to see to: periods below 2^31 that are not above any clock reading; or else the clock
      is in its last 2^31 milliseconds, where no deadline can be further away. */
  predicate Bounded(p: U64, from: U64) {
    (p < TWO31 && p <= from) || TWO64 - TWO31 <= from
  }

  /** What keeps every deadline less than 2^31 away. */
  ghost predicate Near(l: Loop, p: U64, from: U64) {
    && OnTime(l) && from <= l.now && 0 <= l.limit
    && (p <= from && p < TWO31 ==>
          forall i | i in l.timers.live :: l.timers.all[i].ms <= p && l.timers.all[i].base <= l.now)
  }

  lemma NearIsClose(l: Loop, p: U64, from: U64, i: TimerId)
    requires Near(l, p, from) && Bounded(p, from) && i in l.timers.live
    ensures l.timers.all[i].next < l.now + TWO31
  {
    assert TimerInv(l.timers.all[i], true);
  }

  lemma OthersStayNear(l: Loop, op: Op, p: U64, from: U64)
    requires Near(l, p, from) && Enabled(l.timers, op) && AtTime(op, l.now) && Asks(Other(op), p)
    ensures p <= from && p < TWO31 ==> forall i | i in Apply(l.timers, op).live ::
      i in Apply(l.timers, op).all && Apply(l.timers, op).all[i].ms <= p && Apply(l.timers, op).all[i].base <= l.now
  {
    ApplyKeepsInv(l.timers, op);
    if p <= from && p < TWO31 {
      forall i | i in Apply(l.timers, op).live
        ensures Apply(l.timers, op).all[i].ms <= p && Apply(l.timers, op).all[i].base <= l.now
      {
        if i in l.timers.all {
          assert TimerInv(l.timers.all[i], i in l.timers.live);
        }
      }
    }
  }

  lemma PassIsBounded(l: Loop, d: U64, p: U64, from: U64)
    requires Near(l, p, from) && Bounded(p, from) && NextDelay(l.timers, l.now, d)
    ensures 0 <= WaitLimit(d)
  {
    var t := l.timers;
    if t.live != {} {
      var i :| i in t.live && d == if l.now >= t.all[i].next then 0 else t.all[i].next - l.now;
      NearIsClose(l, p, from, i);
    }
    WaitIsBounded(d);
  }

  lemma StepKeepsNear(l: Loop, step: Step, l': Loop, p: U64, from: U64)
    requires Near(l, p, from) && Bounded(p, from) && Next(l, step, l') && Asks(step, p)
    ensures Near(l', p, from)
  {
    StepKeepsOnTime(l, step, l');
    match step
    case Other(op) => OthersStayNear(l, op, p, from);
    case Tick(to) =>
    case Pass(ids, d) =>
      OthersStayNear(l, OpCollect(l.now), p, from);
      PassIsBounded(l'.(limit := 0), d, p, from);
  }

  lemma {:induction false} LoopStaysNear(trace: seq<Loop>, steps: seq<Step>, k: nat, p: U64, from: U64)
    requires IsLoop(trace, steps) && Start(trace[0]) && k < |trace|
    requires Moderate(trace, steps, p, from) && Bounded(p, from)
    ensures Near(trace[k], p, from)
  {
    if k > 0 {
      LoopStaysNear(trace, steps, k - 1, p, from);
      StepKeepsNear(trace[k - 1], steps[k - 1], trace[k], p, from);
    }
  }

  /** A run that has just begun a wait without bound, and in which the waiter has been notified before. */
  ghost predicate Stuck(trace: seq<Loop>, steps: seq<Step>, p: U64, from: U64) {
    && IsLoop(trace, steps) && Start(trace[0]) && Prompt(trace, steps) && Moderate(trace, steps, p, from)
    && var l := trace[|trace| - 1];
       && from <= l.now <= from + 1 && l.limit < 0
       && l.timers.tickled && 7 !in l.timers.all && l.timers.live <= l.timers.all.Keys
  }

  /** A period with bit 31 set is a negative timeout. */
  lemma LongPeriodSticks(p: U64, from: U64) returns (trace: seq<Loop>, steps: seq<Step>)
    requires TWO31 <= p && from < TWO64 - TWO31
    ensures Stuck(trace, steps, p, from)
  {
    trace, steps := WaitsAgain(TWO31, from);
    assert trace[2].limit < 0;
  }

  /** So is a delay to a deadline that was moved back beyond the beginning of the clock. */
  lemma ShortClockSticks(p: U64, from: U64) returns (trace: seq<Loop>, steps: seq<Step>)
    requires from < p < TWO31
    ensures Stuck(trace, steps, p, from)
  {
    trace, steps := FarIsMovedBack(p, from);
    var l1, l2 := WaitsLong(trace[4], p);
    trace, steps := OneMore(trace, steps, Tick(from + 1), l1);
    trace, steps := OneMore(trace, steps, Pass([], MAX64 - p), l2);
  }

  lemma FarIsMovedBack(p: U64, from: U64) returns (trace: seq<Loop>, steps: seq<Step>)
    requires from < p < TWO31
    ensures IsLoop(trace, steps) && Start(trace[0]) && Prompt(trace, steps) && Moderate(trace, steps, p, from)
    ensures |steps| == 4 && trace[4].timers.tickled && trace[4].limit == WaitLimit(p)
    ensures trace[4].timers.live == {3} == trace[4].timers.all.Keys
    ensures trace[4].timers.previous == trace[4].now == trace[4].since == from
    ensures trace[4].timers.all[3].next == from + TWO64 - p
  {
    trace, steps := WaitsAgain(p, from);
    var l1, l2 := MovesBack(trace[2], p);
    trace, steps := OneMore(trace, steps, Other(OpRefresh(3, from)), l1);
    trace, steps := OneMore(trace, steps, Other(OpReset(3, 0, false, from)), l2);
  }

  /** One millisecond later, the wait ends and another one begins. */
  lemma WaitsLong(l: Loop, p: U64) returns (l1: Loop, l2: Loop)
    requires l.timers.live == {3} && 3 in l.timers.all && l.timers.previous == l.now == l.since
    requires l.now < p < TWO31 && l.timers.all[3].next == l.now + TWO64 - p && l.limit == WaitLimit(p)
    ensures Next(l, Tick(l.now + 1), l1) && Next(l1, Pass([], MAX64 - p), l2)
    ensures l2.timers == l.timers.(previous := l.now + 1) && l2.now == l.now + 1 && l2.limit < 0
  {
    WaitIsBounded(p);
    LateCut(p);
    l1 := l.(now := l.now + 1);
    l2 := FindsNothing(l1, MAX64 - p);
  }

  /** A refresh counts as made one period before now; the reset takes the period off again. */
  lemma MovesBack(l: Loop, p: U64) returns (l1: Loop, l2: Loop)
    requires l.now < p && l.timers == Apply(Empty(l.now), Far(p, l.now))
    ensures Next(l, Other(OpRefresh(3, l.now)), l1) && Next(l1, Other(OpReset(3, 0, false, l.now)), l2)
    ensures l2 == l.(timers := l2.timers) && l2.timers.live == {3} == l2.timers.all.Keys
    ensures l2.timers.all[3].next == l.now + TWO64 - p && l2.timers.previous == l.now
  {
    l1 := l.(timers := Apply(l.timers, OpRefresh(3, l.now)));
    assert l1.timers.live == {3} && l1.timers.all[3].base == l.now + TWO64 - p;
    l2 := l1.(timers := Apply(l1.timers, OpReset(3, 0, false, l.now)));
  }

  lemma LateCut(p: U64)
    requires 0 < p < TWO31
    ensures WaitLimit(MAX64 - p) < 0
  {
    assert MAX64 - p == (TWO32 - 1) * TWO32 + (TWO32 - 1 - p);
    assert (MAX64 - p) % TWO32 == TWO32 - 1 - p;
  }

  /** A pass that finds its only timer `d` away. */
  lemma FindsNothing(l: Loop, d: U64) returns (l': Loop)
    requires l.timers.live == {3} && 3 in l.timers.all && l.timers.previous <= l.now
    requires d > 0 && l.timers.all[3].next == l.now + d
    ensures Next(l, Pass([], d), l') && l'.now == l.now && l'.limit == WaitLimit(d)
    ensures l'.timers == l.timers.(previous := l.now)
  {
    assert Due(l.timers, l.now) == {};
    var collected := Collect(l.timers, l.now);
    assert collected == l.timers.(previous := l.now);
    assert 3 in collected.live && AtFront(collected, 3);
    l' := Loop(collected, l.now, l.now, WaitLimit(d));
  }

  /** Wherever a caller does not see to it there is a run of the code, with a waiter that goes on at once when
      it is notified, in which a timer is left in the set for as long as one likes after its deadline. */
  lemma WaitsForever(p: U64, from: U64, late: nat) returns (trace: seq<Loop>, steps: seq<Step>)
    requires !Bounded(p, from) && from + 1 + late < TWO64
    ensures IsLoop(trace, steps) && Start(trace[0]) && Prompt(trace, steps) && Moderate(trace, steps, p, from)
    ensures var l := trace[|trace| - 1];
            && 7 in l.timers.live && 7 in l.timers.all
            && l.now == l.timers.all[7].next + late && l.timers.all[7].keyed == l.timers.all[7].next
  {
    if TWO31 <= p {
      trace, steps := LongPeriodSticks(p, from);
    } else {
      trace, steps := ShortClockSticks(p, from);
    }
    var l := trace[|trace| - 1];
    var near := OpAdd(7, 0, Some(User(1)), false, l.now);
    var l1 := l.(timers := Apply(l.timers, near));
    trace, steps := OneMore(trace, steps, Other(near), l1);
    trace, steps := OneMore(trace, steps, Tick(l.now + late), l1.(now := l.now + late));
  }

  /** Timers are in time, in all runs with periods up to `p` and a clock from `from` on, exactly if every
      period is below 2^31 and not above the clock, or the clock is about to end. */
  lemma InTimeExactly(p: U64, from: U64)
    ensures AlwaysInTime(p, from) <==> Bounded(p, from)
  {
    if Bounded(p, from) {
      forall trace, steps, k: nat
        | IsLoop(trace, steps) && Start(trace[0]) && Moderate(trace, steps, p, from) && k < |trace|
        ensures InTime(trace[k])
      {
        LoopStaysNear(trace, steps, k, p, from);
      }
    } else {
      var trace, steps := WaitsForever(p, from, 2 * MAX_TIMEOUT);
      assert !InTime(trace[|trace| - 1]);
    }
  }
}
