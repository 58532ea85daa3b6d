/**
 Wake-ups are conserved: a fiber that is suspended, or about to be, has exactly one wake-up pending
 somewhere, and a running one has none.

 A wake-up of a fiber is a live registration of it, a live timer that wakes it, a queued task that
 resumes it or schedules it, or a callback that schedules it and that a worker holds.
 */
module Wakeups {
  import opened Words
  import opened Tasks
  import opened Blocking
  import T = TimerModel
  import E = EventModel
  import R = EventRuns

  ghost predicate SaneTimers(t: T.Timers, now: U64) {
    T.Inv(t) && t.previous <= now && forall i | i in t.all :: OneWake(t.all[i])
  }

  ghost predicate SaneEvents(e: E.Registry, owner: seq<Option<nat>>) {
    && E.Inv(e) && e.repaired && |owner| == |e.issued|
    && (forall t | 0 <= t < |e.issued| :: Plain(e.issued[t].task))
  }

  ghost predicate SaneCalls(s: State) {
    && (forall c | 0 <= c < |s.calls| :: TimerOf(s, c) && s.calls[c].fd < E.MAX_FD)
    && (forall f | 0 <= f < |s.fibers| :: Inside(s, f))
  }

  /** What every step keeps, and the counting needs. */
  ghost predicate Sane(s: State) {
    SaneTimers(s.timers, s.now) && SaneEvents(s.events, s.owner) && SaneCalls(s)
  }

  /** A fiber is inside a pending call of its own; a sleep has only some of the points. */
  predicate Inside(s: State, f: FiberId)
    requires f < |s.fibers|
  {
    match s.fibers[f]
    case In(c, at) =>
      && c < |s.calls| && s.calls[c].fiber == f && s.calls[c].outcome == Pending
      && (s.calls[c].kind == Nap ==> at == Arming || at == Yielding || at == Parked || at == Woken)
    case _ => true
  }

  /** Registrations are of fibers, or of callbacks of user code. */
  predicate Plain(task: Task) {
    task.FiberTask? || task.cb.User?
  }

  /** A timer of a hook is delivered once. */
  predicate OneWake(t: T.TimerState) {
    t.given.Some? && (t.recurring ==> t.given.value.User?)
  }

  /** The variable `timer` of a call that waits for an event names a timer made for that call. */
  predicate TimerOf(s: State, c: nat)
    requires c < |s.calls|
  {
    var call := s.calls[c];
    call.kind != Nap && call.timer.Some? ==>
      call.timer.value in s.timers.all && s.timers.all[call.timer.value].given == Some(Timeout(c))
  }

  // ------------------------------------------------------------ counting

  function Carried(me: Worker, f: FiberId): nat {
    match me
    case Posting(cbs, _) => multiset(cbs)[Some(WakeFiber(f))]
    case Wakes(g) => if g == f then 1 else 0
    case _ => 0
  }

  function CarriedBy(ws: seq<Worker>, f: FiberId): nat {
    if ws == [] then 0 else Carried(ws[0], f) + CarriedBy(ws[1..], f)
  }

  function Resumes(q: seq<Task>, f: FiberId): nat {
    multiset(q)[FiberTask(f)]
  }

  function Queued(q: seq<Task>, f: FiberId): nat {
    Resumes(q, f) + multiset(q)[CallbackTask(WakeFiber(f))]
  }

  function Napping(t: T.Timers, f: FiberId): set<T.TimerId> {
    set i | i in t.live && i in t.all && t.all[i].given == Some(WakeFiber(f))
  }

  function Open(issued: seq<E.Registration>, log: seq<nat>, dropped: seq<nat>, f: FiberId): set<nat> {
    set t | 0 <= t < |issued| && issued[t].task == FiberTask(f) && t !in log && t !in dropped
  }

  /** The live registrations of fiber `f`. */
  function Awaiting(e: E.Registry, f: FiberId): set<nat> {
    Open(e.issued, e.log, e.dropped, f)
  }

  function Wakeups(s: State, f: FiberId): nat {
    |Awaiting(s.events, f)| + |Napping(s.timers, f)| + Queued(s.queue, f) + CarriedBy(s.workers, f)
  }

  /** Not started, or in a wait that has not ended. */
  predicate Suspended(s: State, f: FiberId) {
    && f < |s.fibers|
    && (s.fibers[f] == Fresh || (s.fibers[f].In? && (s.fibers[f].at == Yielding || s.fibers[f].at == Parked)))
  }

  function Balance(s: State, f: FiberId): int {
    Wakeups(s, f) - if Suspended(s, f) then 1 else 0
  }

  lemma {:induction false} CarriedUpdate(ws: seq<Worker>, w: nat, me: Worker, f: FiberId)
    requires w < |ws|
    ensures CarriedBy(ws[w := me], f) + Carried(ws[w], f) == CarriedBy(ws, f) + Carried(me, f)
  {
    if w == 0 {
      assert ws[0 := me][1..] == ws[1..];
    } else {
      assert ws[w := me][1..] == ws[1..][w - 1 := me];
      CarriedUpdate(ws[1..], w - 1, me, f);
    }
  }

  lemma TakenFrom(q: seq<Task>, k: nat, f: FiberId)
    requires k < |q|
    ensures var task := q[k];
            Queued(q, f) == Queued(q[..k] + q[k + 1..], f)
                          + if task == FiberTask(f) || task == CallbackTask(WakeFiber(f)) then 1 else 0
  {
    assert q == q[..k] + [q[k]] + q[k + 1..];
  }

  // -------------------------------------------------- registrations ending

  function TasksOf(issued: seq<E.Registration>, tokens: seq<nat>): seq<Task>
    requires forall k | 0 <= k < |tokens| :: tokens[k] < |issued|
  {
    seq(|tokens|, k requires 0 <= k < |tokens| => issued[tokens[k]].task)
  }

  lemma TasksOfMore(issued: seq<E.Registration>, log: seq<nat>, issued1: seq<E.Registration>, log1: seq<nat>)
    requires issued <= issued1 && log <= log1
    requires forall k | 0 <= k < |log| :: log[k] < |issued|
    requires forall k | 0 <= k < |log1| :: log1[k] < |issued1|
    ensures forall k | 0 <= k < |log1[|log|..]| :: log1[|log|..][k] < |issued1|
    ensures TasksOf(issued1, log1) == TasksOf(issued, log) + TasksOf(issued1, log1[|log|..])
  {
  }

  lemma OpenLosesOne(issued: seq<E.Registration>, log: seq<nat>, t: nat, dropped: seq<nat>, f: FiberId)
    requires t < |issued| && t !in log && t !in dropped
    ensures |Open(issued, log, dropped, f)|
         == |Open(issued, log + [t], dropped, f)| + if issued[t].task == FiberTask(f) then 1 else 0
  {
    var before, after := Open(issued, log, dropped, f), Open(issued, log + [t], dropped, f);
    assert after == before - {t};
  }

  lemma TasksOfFirst(issued: seq<E.Registration>, tokens: seq<nat>, task: Task)
    requires tokens != [] && forall k | 0 <= k < |tokens| :: tokens[k] < |issued|
    ensures forall k | 0 <= k < |tokens[1..]| :: tokens[1..][k] < |issued|
    ensures multiset(TasksOf(issued, tokens))[task]
         == multiset(TasksOf(issued, tokens[1..]))[task] + if issued[tokens[0]].task == task then 1 else 0
  {
    assert TasksOf(issued, tokens) == [issued[tokens[0]].task] + TasksOf(issued, tokens[1..]);
  }

  lemma {:induction false} OpenShrinks(issued: seq<E.Registration>, log: seq<nat>, more: seq<nat>, dropped: seq<nat>,
                                       f: FiberId)
    requires forall k | 0 <= k < |more| :: more[k] < |issued|
    requires forall t | t in more :: multiset(log + more)[t] + multiset(dropped)[t] <= 1
    ensures |Open(issued, log, dropped, f)|
         == |Open(issued, log + more, dropped, f)| + multiset(TasksOf(issued, more))[FiberTask(f)]
    decreases |more|
  {
    if more == [] {
      assert log + more == log;
    } else {
      var t, rest := more[0], more[1..];
      assert t in more && log + more == log + [t] + rest && forall u | u in rest :: u in more;
      TasksOfFirst(issued, more, FiberTask(f));
      OpenLosesOne(issued, log, t, dropped, f);
      OpenShrinks(issued, log + [t], rest, dropped, f);
    }
  }

  lemma PlainTasks(issued: seq<E.Registration>, tokens: seq<nat>, f: FiberId)
    requires forall k | 0 <= k < |tokens| :: tokens[k] < |issued|
    requires forall t | 0 <= t < |issued| :: Plain(issued[t].task)
    ensures multiset(TasksOf(issued, tokens))[CallbackTask(WakeFiber(f))] == 0
  {
    assert CallbackTask(WakeFiber(f)) !in TasksOf(issued, tokens);
  }

  /** `r1` comes from `r` by ending registrations, whose tasks the registry hands over. */
  ghost predicate Ends(r: E.Registry, r1: E.Registry) {
    && E.Inv(r1) && r1.repaired == r.repaired
    && r1.issued == r.issued && r1.dropped == r.dropped && r.log <= r1.log
  }

  lemma WokenTasks(r: E.Registry, r1: E.Registry)
    requires E.Inv(r1) && r.log <= r1.log
    ensures forall k | |r.log| <= k < |r1.log| :: r1.log[k] in r1.log && r1.log[k] < |r1.issued|
    ensures E.Woken(r, r1) == TasksOf(r1.issued, r1.log[|r.log|..])
  {
  }

  lemma EndsBalance(r: E.Registry, r1: E.Registry, q: seq<Task>, f: FiberId)
    requires Ends(r, r1)
    requires forall t | 0 <= t < |r.issued| :: Plain(r.issued[t].task)
    ensures |Awaiting(r1, f)| + Queued(q + E.Woken(r, r1), f) == |Awaiting(r, f)| + Queued(q, f)
    ensures |Awaiting(r1, f)| + Resumes(q + E.Woken(r, r1), f) == |Awaiting(r, f)| + Resumes(q, f)
  {
    var more := r1.log[|r.log|..];
    assert r1.log == r.log + more;
    WokenTasks(r, r1);
    forall t | t in more ensures multiset(r.log + more)[t] + multiset(r.dropped)[t] <= 1 {
      assert t in r1.log;
      assert E.FateInv(r1, t);
    }
    OpenShrinks(r.issued, r.log, more, r.dropped, f);
    PlainTasks(r.issued, more, f);
  }

  // --------------------------------------------------------- timers ending

  /** The timers among `ids` that carry callback `cb`. */
  function Hits(t: T.Timers, ids: seq<T.TimerId>, cb: Callback): set<T.TimerId> {
    set i | i in ids && i in t.all && t.all[i].cb == Some(cb)
  }

  lemma HitsFirst(t: T.Timers, ids: seq<T.TimerId>, cb: Callback)
    requires ids != [] && ids[0] in t.all && ids[0] !in ids[1..]
    ensures |Hits(t, ids, cb)| == |Hits(t, ids[1..], cb)| + if t.all[ids[0]].cb == Some(cb) then 1 else 0
  {
    assert ids == [ids[0]] + ids[1..];
    assert Hits(t, ids[1..], cb) == Hits(t, ids, cb) - {ids[0]};
  }

  lemma CallbacksFirst(t: T.Timers, ids: seq<T.TimerId>, cb: Callback)
    requires ids != [] && forall i | i in ids :: i in t.all
    ensures forall i | i in ids[1..] :: i in t.all
    ensures ids[0] in t.all
    ensures multiset(T.CallbacksOf(t, ids))[Some(cb)]
         == multiset(T.CallbacksOf(t, ids[1..]))[Some(cb)] + if t.all[ids[0]].cb == Some(cb) then 1 else 0
  {
    assert ids[0] in ids;
    assert T.CallbacksOf(t, ids) == [t.all[ids[0]].cb] + T.CallbacksOf(t, ids[1..]);
  }

  lemma {:induction false} DeliveredCount(t: T.Timers, ids: seq<T.TimerId>, cb: Callback)
    requires forall i | i in ids :: i in t.all
    requires forall a, b | 0 <= a < b < |ids| :: ids[a] != ids[b]
    ensures multiset(T.CallbacksOf(t, ids))[Some(cb)] == |Hits(t, ids, cb)|
    decreases |ids|
  {
    if ids != [] {
      CallbacksFirst(t, ids, cb);
      HitsFirst(t, ids, cb);
      DeliveredCount(t, ids[1..], cb);
    }
  }

  lemma CollectSplits(t: T.Timers, now: U64, ids: seq<T.TimerId>, f: FiberId)
    requires T.Inv(t) && T.Emits(t, now, ids) && forall i | i in t.all :: OneWake(t.all[i])
    ensures Napping(t, f) == Napping(T.Collect(t, now), f) + Hits(t, ids, WakeFiber(f))
    ensures Napping(T.Collect(t, now), f) !! Hits(t, ids, WakeFiber(f))
  {
    T.ExactExpiry(t, now, ids);
    forall i
      ensures i in Napping(t, f) <==> i in Napping(T.Collect(t, now), f) || i in Hits(t, ids, WakeFiber(f))
      ensures !(i in Napping(T.Collect(t, now), f) && i in Hits(t, ids, WakeFiber(f)))
    {
      if i in t.all {
        assert T.TimerInv(t.all[i], i in t.live);
      }
    }
  }

  lemma CollectBalance(t: T.Timers, now: U64, ids: seq<T.TimerId>, f: FiberId)
    requires T.Inv(t) && T.Emits(t, now, ids) && forall i | i in t.all :: OneWake(t.all[i])
    ensures forall i | i in ids :: i in t.all
    ensures |Napping(t, f)|
         == |Napping(T.Collect(t, now), f)| + multiset(T.CallbacksOf(t, ids))[Some(WakeFiber(f))]
  {
    T.ExactExpiry(t, now, ids);
    DeliveredCount(t, ids, WakeFiber(f));
    CollectSplits(t, now, ids, f);
  }

  /** Cancelling a timer that does not wake a fiber, and the operations of user code. */
  lemma StoppedNapping(t: T.Timers, timer: Option<T.TimerId>, f: FiberId)
    requires T.Inv(t)
    requires timer.Some? ==> timer.value in t.all && t.all[timer.value].given != Some(WakeFiber(f))
    ensures Napping(Stopped(t, timer), f) == Napping(t, f)
  {
  }

  lemma UserTimerNapping(t: T.Timers, op: T.Op, now: U64, f: FiberId)
    requires T.Inv(t) && UserTimer(t, op, now)
    ensures Napping(T.Apply(t, op), f) == Napping(t, f)
  {
  }

  lemma AddNapping(t: T.Timers, i: T.TimerId, ms: U64, cb: Callback, now: U64, f: FiberId)
    requires T.Inv(t) && i !in t.all
    ensures Napping(T.Add(t, i, ms, Some(cb), false, now), f)
         == Napping(t, f) + if cb == WakeFiber(f) then {i} else {}
    ensures i !in Napping(t, f)
  {
  }

  // ------------------------------------------------------- the registry

  lemma AddBalance(r: E.Registry, r1: E.Registry, reg: E.Registration, f: FiberId)
    requires E.Inv(r) && r1.issued == r.issued + [reg] && r1.log == r.log && r1.dropped == r.dropped
    ensures |Awaiting(r1, f)| == |Awaiting(r, f)| + if reg.task == FiberTask(f) then 1 else 0
    ensures E.Woken(r, r1) == []
  {
    assert |r.issued| !in r.log && |r.issued| !in r.dropped;
    assert Awaiting(r1, f) == Awaiting(r, f) + if reg.task == FiberTask(f) then {|r.issued|} else {};
  }

  lemma CancelEnds(r: E.Registry, fd: E.Fd, e: E.Event, ok: bool)
    requires E.Inv(r)
    ensures Ends(r, E.CancelEvent(r, fd, e, ok).0)
  {
    E.CancelEventSpec(r, fd, e, ok);
  }

  lemma DispatchEnds(r: E.Registry, report: E.Report, ok: bool)
    requires E.Inv(r) && E.Dispatch(r, report, ok).1 != E.Aborted
    ensures Ends(r, E.Dispatch(r, report, ok).0)
  {
    E.DispatchSpec(r, report, ok);
  }

  /** What user code can do to the registry: register a callback, delete one, or end registrations. */
  lemma UseEffect(r: E.Registry, op: R.Op)
    requires E.Inv(r) && r.repaired && UserEvent(r, op) && R.Apply(r, op).1 != E.Aborted
    ensures var r1 := R.Apply(r, op).0;
            && E.Inv(r1) && r1.repaired
            && (op.OpAdd? ==>
                  && r1.log == r.log && r1.dropped == r.dropped
                  && (r1.issued == r.issued || r1.issued == r.issued + [E.Registration(op.fd, op.event, op.task)]))
            && (op.OpDel? ==>
                  && r1.log == r.log && r1.issued == r.issued
                  && (r1.dropped == r.dropped ||
                      exists t :: && 0 <= t < |r.issued| && r.issued[t].task.CallbackTask?
                                  && r1.dropped == r.dropped + [t]))
            && (!op.OpAdd? && !op.OpDel? ==> Ends(r, r1))
  {
    R.ApplyKeepsInv(r, op);
    match op
    case OpAdd(fd, e, task, ok) => E.AddEventSpec(r, fd, e, task, ok);
    case OpDel(fd, e, ok) =>
      E.DelEventSpec(r, fd, e, ok);
      if E.Registered(r, fd, e) {
        assert E.SlotInv(r, fd, e);
      }
    case OpCancel(fd, e, ok) => E.CancelEventSpec(r, fd, e, ok);
    case OpCancelAll(fd, ok) => E.CancelAllSpec(r, fd, ok);
    case OpClose(fd, ok) => E.CloseSpec(r, fd, ok);
    case OpDispatch(_, _) =>
  }

  lemma UseRegistryBalance(r: E.Registry, op: R.Op, q: seq<Task>, f: FiberId)
    requires E.Inv(r) && r.repaired && UserEvent(r, op) && R.Apply(r, op).1 != E.Aborted
    requires forall t | 0 <= t < |r.issued| :: Plain(r.issued[t].task)
    ensures var r1 := R.Apply(r, op).0;
            && |Awaiting(r1, f)| + Queued(q + E.Woken(r, r1), f) == |Awaiting(r, f)| + Queued(q, f)
            && |Awaiting(r1, f)| + Resumes(q + E.Woken(r, r1), f) == |Awaiting(r, f)| + Resumes(q, f)
  {
    UseEffect(r, op);
    var r1 := R.Apply(r, op).0;
    if op.OpAdd? || op.OpDel? {
      assert E.Woken(r, r1) == [] && q + [] == q;
      if op.OpAdd? && r1.issued != r.issued {
        AddBalance(r, r1, E.Registration(op.fd, op.event, op.task), f);
      } else {
        assert Awaiting(r1, f) == Awaiting(r, f);
      }
    } else {
      EndsBalance(r, r1, q, f);
    }
  }

  // ---------------------------------------------------------- the balance

  lemma TakeFiberBalance(s: State, w: nat, k: nat, f: FiberId)
    requires w < |s.workers| && CanMove(s, w, Take(k)) && s.queue[k].FiberTask?
    ensures Balance(DoTake(s, w, k), f) == Balance(s, f)
  {
    TakenFrom(s.queue, k, f);
    CarriedUpdate(s.workers, w, Runs(s.queue[k].fiber), f);
  }

  lemma TakeCallbackBalance(s: State, w: nat, k: nat, f: FiberId)
    requires w < |s.workers| && CanMove(s, w, Take(k)) && s.queue[k].CallbackTask?
    ensures Balance(DoTake(s, w, k), f) == Balance(s, f)
  {
    TakenFrom(s.queue, k, f);
    match s.queue[k].cb
    case User(_) => CarriedUpdate(s.workers, w, Runs(|s.fibers|), f);
    case Timeout(c) => CarriedUpdate(s.workers, w, Fires(c, 0), f);
    case WakeFiber(g) => CarriedUpdate(s.workers, w, Wakes(g), f);
  }

  lemma CollectStepBalance(s: State, w: nat, ids: seq<T.TimerId>, f: FiberId)
    requires Sane(s) && w < |s.workers| && CanMove(s, w, Collect(ids))
    ensures Balance(DoMove(s, w, Collect(ids)), f) == Balance(s, f)
  {
    CollectBalance(s.timers, s.now, ids, f);
    CarriedUpdate(s.workers, w, DoMove(s, w, Collect(ids)).workers[w], f);
  }

  lemma WakeBalance(s: State, w: nat, f: FiberId)
    requires w < |s.workers| && CanMove(s, w, Wake)
    ensures Balance(DoMove(s, w, Wake), f) == Balance(s, f)
  {
    CarriedUpdate(s.workers, w, Free, f);
  }

  lemma PostBalance(s: State, w: nat, f: FiberId)
    requires w < |s.workers| && CanMove(s, w, Post)
    ensures Balance(DoMove(s, w, Post), f) == Balance(s, f)
  {
    var cbs := s.workers[w].cbs;
    assert cbs == [cbs[0]] + cbs[1..];
    CarriedUpdate(s.workers, w, DoMove(s, w, Post).workers[w], f);
  }

  /** A worker that carries the same as before, while the registry ends registrations. */
  lemma EndsStepBalance(s: State, w: nat, me: Worker, r: E.Registry, f: FiberId)
    requires Sane(s) && w < |s.workers| && Carried(me, f) == Carried(s.workers[w], f) && Ends(s.events, r)
    ensures Balance(WithEvents(SetWorker(s, w, me), r), f) == Balance(s, f)
  {
    EndsBalance(s.events, r, s.queue, f);
    CarriedUpdate(s.workers, w, me, f);
  }

  lemma DispatchBalance(s: State, w: nat, ok: bool, f: FiberId)
    requires Sane(s) && w < |s.workers| && CanMove(s, w, DispatchNext(ok))
    ensures Balance(DoDispatch(s, w, ok), f) == Balance(s, f)
  {
    var me := s.workers[w];
    if E.Dispatch(s.events, me.reports[0], ok).1 != E.Aborted {
      DispatchEnds(s.events, me.reports[0], ok);
      EndsStepBalance(s, w, me.(reports := me.reports[1..]), E.Dispatch(s.events, me.reports[0], ok).0, f);
    }
  }

  lemma FireBalance(s: State, w: nat, ok: bool, f: FiberId)
    requires Sane(s) && w < |s.workers| && CanMove(s, w, Fire(ok))
    ensures Balance(DoFire(s, w, ok), f) == Balance(s, f)
  {
    var me := s.workers[w];
    var call := s.calls[me.call];
    if me.stage <= 1 {
      var s1 := DoFire(s, w, ok);
      CarriedUpdate(s.workers, w, s1.workers[w], f);
      assert s1.workers == s.workers[w := s1.workers[w]];
    } else {
      CancelEnds(s.events, call.fd, call.event, ok);
      EndsStepBalance(s, w, Free, E.CancelEvent(s.events, call.fd, call.event, ok).0, f);
    }
  }

  lemma NapBalance(s: State, w: nat, i: T.TimerId, f: FiberId)
    requires Sane(s) && w < |s.workers| && CanMove(s, w, Arm(i)) && s.calls[Current(s, w, Arming)].kind == Nap
    ensures Balance(DoArm(s, w, i), f) == Balance(s, f)
  {
    NapFrame(s, w, i);
    AddNapping(s.timers, i, s.calls[Current(s, w, Arming)].to, WakeFiber(s.workers[w].fiber), s.now, f);
  }

  lemma NapFrame(s: State, w: nat, i: T.TimerId)
    requires w < |s.workers| && CanMove(s, w, Arm(i)) && s.calls[Current(s, w, Arming)].kind == Nap
    ensures var s1, g, c := DoArm(s, w, i), s.workers[w].fiber, Current(s, w, Arming);
            && s1.events == s.events && s1.queue == s.queue && s1.workers == s.workers
            && s1.timers == T.Add(s.timers, i, s.calls[c].to, Some(WakeFiber(g)), false, s.now)
            && forall f :: Suspended(s1, f) <==> Suspended(s, f) || f == g
  {
  }

  lemma ArmBalance(s: State, w: nat, i: T.TimerId, f: FiberId)
    requires Sane(s) && w < |s.workers| && CanMove(s, w, Arm(i)) && s.calls[Current(s, w, Arming)].kind != Nap
    ensures Balance(DoArm(s, w, i), f) == Balance(s, f)
  {
    var c := Current(s, w, Arming);
    var s1 := DoArm(s, w, i);
    assert s1.events == s.events && s1.queue == s.queue && s1.workers == s.workers;
    assert Suspended(s1, f) <==> Suspended(s, f);
    AddNapping(s.timers, i, s.calls[c].to, Timeout(c), s.now, f);
  }

  lemma AddRegistryBalance(r: E.Registry, fd: E.Fd, event: E.Event, g: FiberId, ok: bool, f: FiberId)
    requires E.Inv(r) && fd < E.MAX_FD
    ensures var (r1, out) := E.AddEvent(r, fd, event, FiberTask(g), ok);
            && (out == E.Succeeded ==> |Awaiting(r1, f)| == |Awaiting(r, f)| + if f == g then 1 else 0)
            && (out == E.Failed ==> Awaiting(r1, f) == Awaiting(r, f))
  {
    E.AddEventSpec(r, fd, event, FiberTask(g), ok);
    var (r1, out) := E.AddEvent(r, fd, event, FiberTask(g), ok);
    if out == E.Succeeded {
      AddBalance(r, r1, E.Registration(fd, event, FiberTask(g)), f);
    }
  }

  lemma AddStepBalance(s: State, w: nat, ok: bool, f: FiberId)
    requires Sane(s) && w < |s.workers| && CanMove(s, w, Add(ok))
    ensures Balance(DoAdd(s, w, ok), f) == Balance(s, f)
  {
    var g, call := s.workers[w].fiber, s.calls[Current(s, w, Adding)];
    AddRegistryBalance(s.events, call.fd, call.event, g, ok, f);
  }

  lemma UseBalance(s: State, op: R.Op, f: FiberId)
    requires Sane(s) && UserEvent(s.events, op)
    ensures Balance(DoUse(s, op), f) == Balance(s, f)
  {
    if R.Apply(s.events, op).1 != E.Aborted {
      UseRegistryBalance(s.events, op, s.queue, f);
    }
  }

  /** The remaining moves change neither registry nor queue, and no timer that wakes a fiber. */
  lemma StillBalance(s: State, s1: State, w: nat, f: FiberId)
    requires s1.events == s.events && s1.queue == s.queue && Napping(s1.timers, f) == Napping(s.timers, f)
    requires Suspended(s1, f) <==> Suspended(s, f)
    requires w < |s.workers| && |s1.workers| == |s.workers| && s1.workers == s.workers[w := s1.workers[w]]
    requires Carried(s1.workers[w], f) == Carried(s.workers[w], f)
    ensures Balance(s1, f) == Balance(s, f)
  {
    CarriedUpdate(s.workers, w, s1.workers[w], f);
  }

  lemma WorkerBalance(s: State, w: nat, move: Move, f: FiberId)
    requires w < |s.workers| && CanMove(s, w, move)
    requires move.Poll? || move.DispatchDone? || move.Yield? || move.End?
    ensures Balance(DoMove(s, w, move), f) == Balance(s, f)
  {
    StillBalance(s, DoMove(s, w, move), w, f);
  }

  lemma FiberBalance(s: State, w: nat, move: Move, f: FiberId)
    requires w < |s.workers| && CanMove(s, w, move)
    requires move.Begin? || move.Try? || move.Check?
    ensures Balance(DoMove(s, w, move), f) == Balance(s, f)
  {
    StillBalance(s, DoMove(s, w, move), w, f);
  }

  lemma StopBalance(s: State, w: nat, move: Move, f: FiberId)
    requires Sane(s) && w < |s.workers| && CanMove(s, w, move) && (move.GiveUp? || move.Disarm?)
    ensures Balance(DoMove(s, w, move), f) == Balance(s, f)
  {
    var g := s.workers[w].fiber;
    assert Inside(s, g) && TimerOf(s, s.fibers[g].call);
    var call := s.calls[s.fibers[g].call];
    if call.kind != Nap {
      StoppedNapping(s.timers, call.timer, f);
    }
    StillBalance(s, DoMove(s, w, move), w, f);
  }

  // ------------------------------------------------------------- sanity

  /** Timers never forget what they were made for, and never change once they have left the set. */
  ghost predicate Grows(t: T.Timers, t1: T.Timers) {
    forall i {:trigger t1.all[i]} {:trigger i in t1.all} | i in t.all ::
      && i in t1.all && t1.all[i].given == t.all[i].given && t1.all[i].recurring == t.all[i].recurring
      && t1.all[i].fires >= t.all[i].fires
      && (i !in t.live ==> i !in t1.live && t1.all[i] == t.all[i])
  }

  lemma ApplyGrows(t: T.Timers, op: T.Op)
    requires T.Inv(t) && T.Enabled(t, op)
    ensures T.Inv(T.Apply(t, op)) && Grows(t, T.Apply(t, op))
  {
    T.ApplyKeepsInv(t, op);
  }

  predicate Timed(move: Move) {
    move.Collect? || move.Arm? || move.GiveUp? || move.Disarm?
  }

  lemma UntimedMove(s: State, w: nat, move: Move)
    requires w < |s.workers| && CanMove(s, w, move) && !Timed(move)
    ensures DoMove(s, w, move).timers == s.timers && DoMove(s, w, move).now == s.now
  {
  }

  lemma TimersKeep(s: State, step: Step)
    requires Can(s, step) && SaneTimers(s.timers, s.now)
    ensures SaneTimers(Do(s, step).timers, Do(s, step).now) && Grows(s.timers, Do(s, step).timers)
  {
    match step
    case Timer(op) => ApplyGrows(s.timers, op);
    case Work(w, move) =>
      if !Timed(move) {
        UntimedMove(s, w, move);
      } else {
        TimedKeep(s, w, move);
      }
    case _ =>
  }

  lemma TimedKeep(s: State, w: nat, move: Move)
    requires w < |s.workers| && CanMove(s, w, move) && SaneTimers(s.timers, s.now) && Timed(move)
    ensures DoMove(s, w, move).now == s.now
    ensures SaneTimers(DoMove(s, w, move).timers, s.now) && Grows(s.timers, DoMove(s, w, move).timers)
  {
    match move
    case Collect(ids) => ApplyGrows(s.timers, T.OpCollect(s.now));
    case Arm(i) => ArmKeep(s, w, i);
    case GiveUp => StoppedGrows(s.timers, s.calls[Current(s, w, Refused)].timer);
    case Disarm => StoppedGrows(s.timers, s.calls[Current(s, w, Woken)].timer);
  }

  lemma StoppedGrows(t: T.Timers, timer: Option<T.TimerId>)
    requires T.Inv(t)
    ensures T.Inv(Stopped(t, timer)) && Grows(t, Stopped(t, timer)) && Stopped(t, timer).previous == t.previous
    ensures Stopped(t, timer).all.Keys == t.all.Keys
  {
    if timer.Some? && timer.value in t.all {
      ApplyGrows(t, T.OpCancel(timer.value));
    }
  }

  lemma ArmKeep(s: State, w: nat, i: T.TimerId)
    requires w < |s.workers| && CanMove(s, w, Arm(i)) && SaneTimers(s.timers, s.now)
    ensures DoArm(s, w, i).now == s.now
    ensures SaneTimers(DoArm(s, w, i).timers, s.now) && Grows(s.timers, DoArm(s, w, i).timers)
  {
    var g, c := s.workers[w].fiber, Current(s, w, Arming);
    var cb := if s.calls[c].kind == Nap then WakeFiber(g) else Timeout(c);
    ApplyGrows(s.timers, T.OpAdd(i, s.calls[c].to, Some(cb), false, s.now));
  }

  lemma MoveEvents(s: State, w: nat, move: Move)
    requires w < |s.workers| && CanMove(s, w, move) && SaneEvents(s.events, s.owner) && SaneCalls(s)
    ensures SaneEvents(DoMove(s, w, move).events, DoMove(s, w, move).owner)
  {
    if move.DispatchNext? {
      DispatchSane(s, w, move.ok);
    } else if move.Fire? {
      FireSane(s, w, move.ok);
    } else if move.Add? {
      AddSane(s, w, move.ok);
    } else if move.Use? {
      UseSane(s, move.op);
    } else {
      UneventfulMove(s, w, move);
    }
  }

  lemma EventsKeep(s: State, step: Step)
    requires Can(s, step) && SaneEvents(s.events, s.owner) && SaneCalls(s)
    ensures SaneEvents(Do(s, step).events, Do(s, step).owner)
  {
    if step.Work? {
      MoveEvents(s, step.w, step.move);
    }
  }

  predicate Eventful(move: Move) {
    move.DispatchNext? || move.Fire? || move.Add? || move.Use?
  }

  lemma UneventfulMove(s: State, w: nat, move: Move)
    requires w < |s.workers| && CanMove(s, w, move) && !Eventful(move)
    ensures DoMove(s, w, move).events == s.events && DoMove(s, w, move).owner == s.owner
  {
  }

  lemma DispatchSane(s: State, w: nat, ok: bool)
    requires w < |s.workers| && CanMove(s, w, DispatchNext(ok)) && SaneEvents(s.events, s.owner)
    ensures SaneEvents(DoDispatch(s, w, ok).events, DoDispatch(s, w, ok).owner)
  {
    if E.Dispatch(s.events, s.workers[w].reports[0], ok).1 != E.Aborted {
      DispatchEnds(s.events, s.workers[w].reports[0], ok);
    }
  }

  lemma FireSane(s: State, w: nat, ok: bool)
    requires w < |s.workers| && CanMove(s, w, Fire(ok)) && SaneEvents(s.events, s.owner)
    ensures SaneEvents(DoFire(s, w, ok).events, DoFire(s, w, ok).owner)
  {
    var call := s.calls[s.workers[w].call];
    CancelEnds(s.events, call.fd, call.event, ok);
  }

  lemma AddSane(s: State, w: nat, ok: bool)
    requires w < |s.workers| && CanMove(s, w, Add(ok)) && SaneEvents(s.events, s.owner) && SaneCalls(s)
    ensures SaneEvents(DoAdd(s, w, ok).events, DoAdd(s, w, ok).owner)
  {
    var f, call := s.workers[w].fiber, s.calls[Current(s, w, Adding)];
    E.AddEventSpec(s.events, call.fd, call.event, FiberTask(f), ok);
  }

  lemma UseSane(s: State, op: R.Op)
    requires SaneEvents(s.events, s.owner) && UserEvent(s.events, op)
    ensures SaneEvents(DoUse(s, op).events, DoUse(s, op).owner)
  {
    if R.Apply(s.events, op).1 != E.Aborted {
      UseEffect(s.events, op);
    }
  }

  /** Calls stay sane when the timers grow. */
  lemma CallsGrow(s: State, t: T.Timers)
    requires SaneCalls(s) && Grows(s.timers, t)
    ensures SaneCalls(s.(timers := t))
  {
    forall c | 0 <= c < |s.calls| ensures TimerOf(s.(timers := t), c) {
      assert TimerOf(s, c);
    }
    forall f | 0 <= f < |s.fibers| ensures Inside(s.(timers := t), f) {
      assert Inside(s, f);
    }
  }

  /** One fiber moves on within its call. */
  lemma GotoSane(s: State, w: nat, from: Point, to: Point)
    requires SaneCalls(s) && At(s, w, from)
    requires s.calls[Current(s, w, from)].kind == Nap ==> to == Arming || to == Yielding || to == Parked || to == Woken
    ensures SaneCalls(Goto(s, w, from, to))
  {
    var s1 := Goto(s, w, from, to);
    forall c | 0 <= c < |s.calls| ensures TimerOf(s1, c) {
      assert TimerOf(s, c);
    }
    forall f | 0 <= f < |s.fibers| ensures Inside(s1, f) {
      assert Inside(s, f);
    }
  }

  lemma ReturnSane(s: State, w: nat, from: Point, outcome: Outcome)
    requires SaneCalls(s) && At(s, w, from)
    ensures SaneCalls(Return(s, w, from, outcome))
  {
    var s1 := Return(s, w, from, outcome);
    forall c | 0 <= c < |s.calls| ensures TimerOf(s1, c) {
      assert TimerOf(s, c);
    }
    assert Inside(s, s.workers[w].fiber);
    forall f | 0 <= f < |s.fibers| ensures Inside(s1, f) {
      assert Inside(s, f);
    }
  }

  lemma BeginSane(s: State, w: nat, kind: Kind, fd: E.Fd, event: E.Event, to: U64)
    requires SaneCalls(s) && InOwn(s, w) && fd < E.MAX_FD
    ensures SaneCalls(DoBegin(s, w, kind, fd, event, to))
  {
    var s1 := DoBegin(s, w, kind, fd, event, to);
    forall c | 0 <= c < |s1.calls| ensures TimerOf(s1, c) {
      assert c < |s.calls| ==> TimerOf(s, c);
    }
    forall f | 0 <= f < |s.fibers| ensures Inside(s1, f) {
      assert Inside(s, f);
    }
  }

  /** What arming a timer changes. */
  ghost predicate Armament(s: State, s1: State, f: FiberId, c: nat) {
    && f < |s.fibers| && c < |s.calls| && s.fibers[f] == In(c, Arming)
    && |s1.calls| == |s.calls| && s1.now == s.now && |s1.fibers| == |s.fibers|
    && (forall g | 0 <= g < |s.fibers| && g != f :: s1.fibers[g] == s.fibers[g])
    && (forall d | 0 <= d < |s.calls| && d != c :: s1.calls[d] == s.calls[d])
    && s1.calls[c] == s.calls[c].(timer := s1.calls[c].timer, waits := s.calls[c].waits + [s.now])
    && (forall i | i in s.timers.all :: i in s1.timers.all && s1.timers.all[i] == s.timers.all[i])
    && s1.fibers[f] == In(c, if s.calls[c].kind == Nap then Yielding else Adding)
    && match s1.calls[c].timer
       case None => s.calls[c].kind != Nap && s.calls[c].to == MAX64 && s1.timers == s.timers
       case Some(i) =>
         && (s.calls[c].kind == Nap || s.calls[c].to != MAX64)
         && i !in s.timers.all && i in s1.timers.all && s1.timers.all.Keys == s.timers.all.Keys + {i}
         && s1.timers.live == s.timers.live + {i}
         && var cb := if s.calls[c].kind == Nap then WakeFiber(f) else Timeout(c);
         && s1.timers.all[i] == T.TimerState(false, s.calls[c].to, Plus(s.now, s.calls[c].to), Some(cb), Some(cb),
                                        s.now, s.now, 0, 0, 0)
  }

  lemma ArmArms(s: State, w: nat, i: T.TimerId)
    requires w < |s.workers| && CanMove(s, w, Arm(i))
    ensures Armament(s, DoArm(s, w, i), s.workers[w].fiber, Current(s, w, Arming))
  {
  }

  lemma ArmsInside(s: State, s1: State, g: FiberId, c: nat)
    requires SaneCalls(s) && Armament(s, s1, g, c)
    ensures forall f | 0 <= f < |s1.fibers| :: Inside(s1, f)
    ensures forall d | 0 <= d < |s1.calls| :: s1.calls[d].fd < E.MAX_FD
  {
    forall f | 0 <= f < |s1.fibers| ensures Inside(s1, f) {
      assert Inside(s, f) && Inside(s, g);
    }
  }

  lemma ArmsTimerOf(s: State, s1: State, g: FiberId, c: nat, d: nat)
    requires SaneCalls(s) && Armament(s, s1, g, c) && d < |s1.calls|
    ensures TimerOf(s1, d)
  {
    assert TimerOf(s, d);
  }

  lemma ArmSane(s: State, w: nat, i: T.TimerId)
    requires SaneCalls(s) && w < |s.workers| && CanMove(s, w, Arm(i))
    ensures SaneCalls(DoArm(s, w, i))
  {
    var s1 := DoArm(s, w, i);
    var g, c := s.workers[w].fiber, Current(s, w, Arming);
    ArmArms(s, w, i);
    ArmsInside(s, s1, g, c);
    forall d | 0 <= d < |s1.calls| ensures TimerOf(s1, d) {
      ArmsTimerOf(s, s1, g, c, d);
    }
  }

  /** Changes that do not touch calls, and only add fibers or let one start or end. */
  lemma FibersSane(s: State, s1: State)
    requires SaneCalls(s) && s1.timers == s.timers && s1.calls == s.calls && |s.fibers| <= |s1.fibers|
    requires forall f | 0 <= f < |s.fibers| ::
      || s1.fibers[f] == s.fibers[f] || !s1.fibers[f].In?
      || (s.fibers[f].In? && s1.fibers[f] == In(s.fibers[f].call, Woken) && s.fibers[f].at == Parked)
    requires forall f | |s.fibers| <= f < |s1.fibers| :: !s1.fibers[f].In?
    ensures SaneCalls(s1)
  {
    forall c | 0 <= c < |s.calls| ensures TimerOf(s1, c) {
      assert TimerOf(s, c);
    }
    forall f | 0 <= f < |s1.fibers| ensures Inside(s1, f) {
      assert f < |s.fibers| ==> Inside(s, f);
    }
  }

  lemma FireCallsSane(s: State, w: nat, ok: bool)
    requires SaneCalls(s) && w < |s.workers| && CanMove(s, w, Fire(ok))
    ensures SaneCalls(DoFire(s, w, ok))
  {
    var s1 := DoFire(s, w, ok);
    forall c | 0 <= c < |s.calls| ensures TimerOf(s1, c) {
      assert TimerOf(s, c);
    }
    forall f | 0 <= f < |s.fibers| ensures Inside(s1, f) {
      assert Inside(s, f);
    }
  }

  /** The moves of a fiber inside a call. */
  lemma InsideKeep(s: State, w: nat, move: Move)
    requires Sane(s) && w < |s.workers| && CanMove(s, w, move)
    requires move.Try? || move.Add? || move.GiveUp? || move.Yield? || move.Disarm? || move.Check?
    ensures SaneCalls(DoMove(s, w, move))
  {
    var f := s.workers[w].fiber;
    assert Inside(s, f);
    var timer := s.calls[s.fibers[f].call].timer;
    match move
    case Try(again) =>
      GotoSane(s, w, Trying, Arming);
      ReturnSane(s, w, Trying, Returned);
    case Add(ok) =>
      AddKeep(s, w, ok);
    case GiveUp =>
      ReturnSane(s, w, Refused, AddFailed);
      StoppedGrows(s.timers, timer);
      CallsGrow(Return(s, w, Refused, AddFailed), Stopped(s.timers, timer));
    case Yield =>
      GotoSane(s, w, Yielding, Parked);
      FibersSane(Goto(s, w, Yielding, Parked), DoMove(s, w, move));
    case Disarm =>
      DisarmKeep(s, w);
    case Check =>
      ReturnSane(s, w, Checking, TimedOut);
      ReturnSane(s, w, Checking, Returned);
      GotoSane(s, w, Checking, Trying);
  }

  lemma AddKeep(s: State, w: nat, ok: bool)
    requires Sane(s) && w < |s.workers| && CanMove(s, w, Add(ok))
    ensures SaneCalls(DoAdd(s, w, ok))
  {
    var s1 := DoAdd(s, w, ok);
    assert Inside(s, s.workers[w].fiber);
    if s1.failed == s.failed {
      var to := s1.fibers[s.workers[w].fiber].at;
      GotoSane(s, w, Adding, to);
      FibersSane(Goto(s, w, Adding, to), s1);
    } else {
      FibersSane(s, s1);
    }
  }

  lemma DisarmKeep(s: State, w: nat)
    requires Sane(s) && w < |s.workers| && CanMove(s, w, Disarm)
    ensures SaneCalls(DoMove(s, w, Disarm))
  {
    var call := s.calls[Current(s, w, Woken)];
    if call.kind == Nap {
      ReturnSane(s, w, Woken, Returned);
    } else {
      GotoSane(s, w, Woken, Checking);
      StoppedGrows(s.timers, call.timer);
      CallsGrow(Goto(s, w, Woken, Checking), Stopped(s.timers, call.timer));
    }
  }

  lemma CallsKeep(s: State, step: Step)
    requires Can(s, step) && Sane(s)
    ensures SaneCalls(Do(s, step))
  {
    match step
    case Timer(op) =>
      TimersKeep(s, step);
      CallsGrow(s, T.Apply(s.timers, op));
    case Work(w, move) =>
      if move.Try? || move.Add? || move.GiveUp? || move.Yield? || move.Disarm? || move.Check? {
        InsideKeep(s, w, move);
      } else {
        OtherKeep(s, w, move);
      }
    case _ => FibersSane(s, Do(s, step));
  }

  lemma OtherKeep(s: State, w: nat, move: Move)
    requires Sane(s) && w < |s.workers| && CanMove(s, w, move)
    requires !(move.Try? || move.Add? || move.GiveUp? || move.Yield? || move.Disarm? || move.Check?)
    ensures SaneCalls(DoMove(s, w, move))
  {
    if move.Collect? {
      TimedKeep(s, w, move);
      CallsGrow(s, T.Collect(s.timers, s.now));
      FibersSane(s.(timers := T.Collect(s.timers, s.now)), DoMove(s, w, move));
    } else if move.Arm? {
      ArmSane(s, w, move.i);
    } else if move.Begin? {
      BeginSane(s, w, move.kind, move.fd, move.event, move.to);
    } else if move.Fire? {
      FireCallsSane(s, w, move.ok);
    } else {
      FibersSane(s, DoMove(s, w, move));
    }
  }

  lemma StepKeepsSane(s: State, step: Step)
    requires Can(s, step) && Sane(s)
    ensures Sane(Do(s, step))
  {
    TimersKeep(s, step);
    EventsKeep(s, step);
    CallsKeep(s, step);
  }

  /** No step creates or loses a wake-up without suspending or resuming the fiber. */
  lemma StepKeepsBalance(s: State, step: Step, f: FiberId)
    requires Can(s, step) && Sane(s)
    ensures Balance(Do(s, step), f) == Balance(s, f)
  {
    match step
    case Tick(_) =>
    case Spawn =>
    case Submit(_) =>
    case Timer(op) => UserTimerNapping(s.timers, op, s.now, f);
    case Work(w, move) =>
      if Timed(move) || Eventful(move) {
        SharedBalance(s, w, move, f);
      } else {
        LocalBalance(s, w, move, f);
      }
  }

  lemma SharedBalance(s: State, w: nat, move: Move, f: FiberId)
    requires Sane(s) && w < |s.workers| && CanMove(s, w, move) && (Timed(move) || Eventful(move))
    ensures Balance(DoMove(s, w, move), f) == Balance(s, f)
  {
    match move
    case Collect(ids) => CollectStepBalance(s, w, ids, f);
    case DispatchNext(ok) => DispatchBalance(s, w, ok, f);
    case Fire(ok) => FireBalance(s, w, ok, f);
    case Arm(i) =>
      if s.calls[Current(s, w, Arming)].kind == Nap { NapBalance(s, w, i, f); } else { ArmBalance(s, w, i, f); }
    case Add(ok) => AddStepBalance(s, w, ok, f);
    case Use(op) => UseBalance(s, op, f);
    case GiveUp => StopBalance(s, w, move, f);
    case Disarm => StopBalance(s, w, move, f);
  }

  lemma LocalBalance(s: State, w: nat, move: Move, f: FiberId)
    requires w < |s.workers| && CanMove(s, w, move) && !Timed(move) && !Eventful(move)
    ensures Balance(DoMove(s, w, move), f) == Balance(s, f)
  {
    match move
    case Take(k) =>
      if s.queue[k].FiberTask? { TakeFiberBalance(s, w, k, f); } else { TakeCallbackBalance(s, w, k, f); }
    case Post => PostBalance(s, w, f);
    case Wake => WakeBalance(s, w, f);
    case Begin(_, _, _, _) => FiberBalance(s, w, move, f);
    case Try(_) => FiberBalance(s, w, move, f);
    case Check => FiberBalance(s, w, move, f);
    case Poll(_) => WorkerBalance(s, w, move, f);
    case DispatchDone => WorkerBalance(s, w, move, f);
    case Yield => WorkerBalance(s, w, move, f);
    case End => WorkerBalance(s, w, move, f);
  }

  lemma {:induction false} NobodyCarries(n: nat, f: FiberId)
    ensures CarriedBy(seq(n, _ => Free), f) == 0
  {
    if n > 0 {
      assert seq(n, _ => Free)[1..] == seq(n - 1, _ => Free);
      NobodyCarries(n - 1, f);
    }
  }

  lemma StartSane(n: nat, now: U64, f: FiberId)
    ensures Sane(Start(n, now)) && Balance(Start(n, now), f) == 0
  {
    R.StartInv(true);
    NobodyCarries(n, f);
    assert Awaiting(E.Start(true), f) == {} && Napping(T.Empty(now), f) == {};
  }

  lemma {:induction false} RunIsSane(n: nat, trace: seq<State>, steps: seq<Step>, k: nat, f: FiberId)
    requires IsRun(n, trace, steps) && k < |trace|
    ensures Sane(trace[k]) && Balance(trace[k], f) == 0
  {
    if k == 0 {
      StartSane(n, trace[0].now, f);
    } else {
      RunIsSane(n, trace, steps, k - 1, f);
      StepKeepsSane(trace[k - 1], steps[k - 1]);
      StepKeepsBalance(trace[k - 1], steps[k - 1], f);
    }
  }

  /** Conservation of wake-ups. In every reachable state, for any number of workers and any interleaving of
      readiness, timeouts, cancels and closes: a fiber that is suspended or about to suspend has exactly
      one wake-up pending, and any other fiber has none. */
  lemma OneWakeupEach(n: nat, s: State, f: FiberId)
    requires Reachable(n, s)
    ensures |Awaiting(s.events, f)| + |Napping(s.timers, f)| + Queued(s.queue, f) + CarriedBy(s.workers, f)
         == if Suspended(s, f) then 1 else 0
  {
    var trace, steps :| IsRun(n, trace, steps) && trace[|trace| - 1] == s;
    RunIsSane(n, trace, steps, |trace| - 1, f);
  }
}
