/**
 The hooks that block a fiber - do_io, connect_with_timeout and sleep - on top of the timers, the event
 registry and the scheduler, as an interleaved step relation for any number of workers.

 A fiber inside a hook goes through the points of `Point`; one step leads from each access to shared
 state to the next. The clock never goes back. Triggering an event empties its slot.
 */
module Blocking {
  import opened Words
  import opened Tasks
  import T = TimerModel
  import E = EventModel
  import R = EventRuns

  datatype Kind = Io | Connect | Nap

  datatype Outcome = Pending | Returned | TimedOut | AddFailed

  /** One call of a hook; the object tinfo lives while the call is pending. */
  datatype Call = Call(
    fiber: FiberId,
    kind: Kind,
    fd: E.Fd,
    event: E.Event,
    to: U64,                   // MAX64 for no timeout
    cancelled: bool,           // tinfo->cancelled
    timer: Option<T.TimerId>,  // the variable `timer`
    waits: seq<U64>,           // when its waits began
    outcome: Outcome)

  datatype Point = Trying | Arming | Adding | Refused | Yielding | Parked | Woken | Checking

  /** Where a fiber is: not started, in its own code, ended, or inside a call. */
  datatype Pc = Fresh | Own | Ended | In(call: nat, at: Point)

  datatype Worker =
    | Free
    | Runs(fiber: FiberId)
    | Fires(call: nat, stage: nat)  // the timeout callback of a call
    | Wakes(fiber: FiberId)         // the timer callback of a sleep
    | Polled(reports: seq<E.Report>)
    | Posting(cbs: seq<Option<Callback>>, reports: seq<E.Report>)

  /** The assertions that can fail: the state of a picked fiber, the events of a triggered context, the
      slot of an added event. */
  datatype Site = NotReady | Unregistered | Occupied

  datatype State = State(
    now: U64,
    timers: T.Timers,
    events: E.Registry,
    owner: seq<Option<nat>>,  // which call made which registration
    queue: seq<Task>,
    fibers: seq<Pc>,
    calls: seq<Call>,
    workers: seq<Worker>,
    failed: Option<Site>)

  function Start(workers: nat, now: U64): State {
    State(now, T.Empty(now), E.Start(true), [], [], [], [], seq(workers, _ => Free), None)
  }

  /** The fiber can be resumed. */
  predicate Ready(pc: Pc) {
    pc == Fresh || (pc.In? && pc.at == Parked)
  }

  datatype Move =
    | Take(k: nat)
    | Poll(reports: seq<E.Report>)
    | Collect(ids: seq<T.TimerId>)
    | Post
    | DispatchNext(ok: bool)
    | DispatchDone
    | Fire(ok: bool)
    | Wake
    | Begin(kind: Kind, fd: E.Fd, event: E.Event, to: U64)
    | Try(again: bool)
    | Arm(i: T.TimerId)
    | Add(ok: bool)
    | GiveUp
    | Yield
    | Disarm
    | Check
    | Use(op: R.Op)
    | End

  /** The clock ticks, a fiber or callback is scheduled, a user timer is operated on; or a worker moves. */
  datatype Step =
    | Tick(to: U64)
    | Spawn
    | Submit(id: nat)
    | Timer(top: T.Op)
    | Work(w: nat, move: Move)

  // ----------------------------------------------------- what is possible

  predicate InOwn(s: State, w: nat) {
    && w < |s.workers| && s.workers[w].Runs?
    && s.workers[w].fiber < |s.fibers| && s.fibers[s.workers[w].fiber] == Own
  }

  predicate At(s: State, w: nat, point: Point) {
    && w < |s.workers| && s.workers[w].Runs?
    && var f := s.workers[w].fiber;
    && f < |s.fibers| && s.fibers[f].In? && s.fibers[f].at == point && s.fibers[f].call < |s.calls|
  }

  /** User code leaves the timers of the hooks alone, and makes its own timers with callbacks. */
  predicate UserTimer(t: T.Timers, op: T.Op, now: U64) {
    && T.Enabled(t, op)
    && match op
       case OpAdd(_, _, cb, _, at) => cb.Some? && cb.value.User? && at == now
       case OpCancel(i) => t.all[i].given.Some? && t.all[i].given.value.User?
       case OpRefresh(i, at) => t.all[i].given.Some? && t.all[i].given.value.User? && at == now
       case OpReset(i, _, _, at) => t.all[i].given.Some? && t.all[i].given.value.User? && at == now
       case OpCollect(_) => false
  }

  /** User code registers callbacks only, deletes only those, and otherwise may cancel and close whatever
      it likes, whoever waits for it. */
  predicate UserEvent(e: E.Registry, op: R.Op) {
    && R.Enabled(e, op) && R.Careful(e, op)
    && match op
       case OpAdd(_, _, task, _) => task.CallbackTask? && task.cb.User?
       case OpDel(fd, event, _) =>
         E.Registered(e, fd, event) ==>
           var token := E.SlotOf(e.contexts[fd], event).token;
           token < |e.issued| && e.issued[token].task.CallbackTask?
       case OpDispatch(_, _) => false
       case _ => true
  }

  ghost predicate CanMove(s: State, w: nat, move: Move)
    requires w < |s.workers|
  {
    var me := s.workers[w];
    match move
    case Take(k) =>
      && me == Free && k < |s.queue|
      && (s.queue[k].FiberTask? ==> s.queue[k].fiber < |s.fibers|)
    case Poll(reports) =>
      && me == Free
      && (forall i | 0 <= i < |reports| :: E.Reportable(s.events.kernel, reports[i]))
      && (forall i, j | 0 <= i < j < |reports| :: reports[i].fd != reports[j].fd)
    case Collect(ids) => me.Polled? && s.timers.live <= s.timers.all.Keys && T.Emits(s.timers, s.now, ids)
    case Post => me.Posting? && me.cbs != [] && me.cbs[0].Some?
    case DispatchNext(_) => me.Posting? && me.cbs == [] && me.reports != []
    case DispatchDone => me == Posting([], [])
    case Fire(_) => me.Fires? && me.call < |s.calls|
    case Wake => me.Wakes?
    case Begin(kind, fd, event, _) => InOwn(s, w) && fd < E.MAX_FD && (kind == Connect ==> event == E.WRITE)
    case Try(_) => At(s, w, Trying)
    case Arm(i) => At(s, w, Arming) && i !in s.timers.all && s.timers.live <= s.timers.all.Keys
    case Add(_) => At(s, w, Adding) && E.INITIAL_SIZE <= |s.events.contexts|
    case GiveUp => At(s, w, Refused)
    case Yield => At(s, w, Yielding)
    case Disarm => At(s, w, Woken)
    case Check => At(s, w, Checking)
    case Use(op) => InOwn(s, w) && UserEvent(s.events, op)
    case End => InOwn(s, w)
  }

  ghost predicate Can(s: State, step: Step) {
    && s.failed.None?
    && match step
       case Tick(to) => s.now <= to
       case Spawn => true
       case Submit(_) => true
       case Timer(op) => UserTimer(s.timers, op, s.now)
       case Work(w, move) => w < |s.workers| && CanMove(s, w, move)
  }

  // --------------------------------------------------------- what happens

  function SetWorker(s: State, w: nat, me: Worker): State
    requires w < |s.workers|
  {
    s.(workers := s.workers[w := me])
  }

  function SetCall(s: State, c: nat, call: Call): State
    requires c < |s.calls|
  {
    s.(calls := s.calls[c := call])
  }

  /** The tasks that the registry handed over are queued. */
  function WithEvents(s: State, r: E.Registry): State {
    s.(events := r, queue := s.queue + E.Woken(s.events, r))
  }

  function Current(s: State, w: nat, point: Point): (c: nat)
    requires At(s, w, point)
    ensures c < |s.calls|
  {
    s.fibers[s.workers[w].fiber].call
  }

  function Goto(s: State, w: nat, from: Point, to: Point): State
    requires At(s, w, from)
  {
    var f := s.workers[w].fiber;
    s.(fibers := s.fibers[f := In(s.fibers[f].call, to)])
  }

  function Return(s: State, w: nat, from: Point, outcome: Outcome): State
    requires At(s, w, from)
  {
    var f, c := s.workers[w].fiber, s.fibers[s.workers[w].fiber].call;
    s.(fibers := s.fibers[f := Own], calls := s.calls[c := s.calls[c].(outcome := outcome)])
  }

  /** `if(timer) timer->cancel();` */
  function Stopped(t: T.Timers, timer: Option<T.TimerId>): T.Timers {
    if timer.Some? && timer.value in t.all then T.Cancel(t, timer.value).0 else t
  }

  function DoTake(s: State, w: nat, k: nat): State
    requires w < |s.workers| && k < |s.queue|
    requires s.queue[k].FiberTask? ==> s.queue[k].fiber < |s.fibers|
  {
    var s1 := s.(queue := s.queue[..k] + s.queue[k + 1..]);
    match s.queue[k]
    case FiberTask(f) =>
      if !Ready(s.fibers[f]) then s.(failed := Some(NotReady))
      else
        var pc := if s.fibers[f] == Fresh then Own else In(s.fibers[f].call, Woken);
        SetWorker(s1, w, Runs(f)).(fibers := s.fibers[f := pc])
    case CallbackTask(cb) =>
      match cb
      case User(_) => SetWorker(s1, w, Runs(|s.fibers|)).(fibers := s.fibers + [Own])
      case Timeout(c) => SetWorker(s1, w, Fires(c, 0))
      case WakeFiber(f) => SetWorker(s1, w, Wakes(f))
  }

  function DoDispatch(s: State, w: nat, ok: bool): State
    requires w < |s.workers| && s.workers[w].Posting? && s.workers[w].reports != []
  {
    var me := s.workers[w];
    var (r, out) := E.Dispatch(s.events, me.reports[0], ok);
    if out == E.Aborted then s.(failed := Some(Unregistered))
    else WithEvents(SetWorker(s, w, me.(reports := me.reports[1..])), r)
  }

  /** lock() succeeds while the call is pending, or another callback of it holds the lock. */
  ghost predicate Locks(s: State, c: nat)
    requires c < |s.calls|
  {
    || s.calls[c].outcome == Pending
    || exists v :: 0 <= v < |s.workers| && s.workers[v].Fires? && s.workers[v].call == c && s.workers[v].stage > 0
  }

  /** The timeout callback: test the flag; set the flag; cancel the event. */
  ghost function DoFire(s: State, w: nat, ok: bool): State
    requires w < |s.workers| && s.workers[w].Fires? && s.workers[w].call < |s.calls|
  {
    var c, stage := s.workers[w].call, s.workers[w].stage;
    var call := s.calls[c];
    if stage == 0 then
      SetWorker(s, w, if Locks(s, c) && !call.cancelled then Fires(c, 1) else Free)
    else if stage == 1 then
      SetCall(SetWorker(s, w, Fires(c, 2)), c, call.(cancelled := true))
    else
      WithEvents(SetWorker(s, w, Free), E.CancelEvent(s.events, call.fd, call.event, ok).0)
  }

  function DoBegin(s: State, w: nat, kind: Kind, fd: E.Fd, event: E.Event, to: U64): State
    requires InOwn(s, w)
  {
    var f := s.workers[w].fiber;
    s.(calls := s.calls + [Call(f, kind, fd, event, to, false, None, [], Pending)],
       fibers := s.fibers[f := In(|s.calls|, if kind == Nap then Arming else Trying)])
  }

  function DoArm(s: State, w: nat, i: T.TimerId): State
    requires At(s, w, Arming) && s.timers.live <= s.timers.all.Keys
  {
    var f, c := s.workers[w].fiber, Current(s, w, Arming);
    var call := s.calls[c].(waits := s.calls[c].waits + [s.now]);
    if call.kind == Nap then
      SetCall(Goto(s, w, Arming, Yielding), c, call.(timer := Some(i)))
        .(timers := T.Add(s.timers, i, call.to, Some(WakeFiber(f)), false, s.now))
    else if call.to != MAX64 then
      SetCall(Goto(s, w, Arming, Adding), c, call.(timer := Some(i)))
        .(timers := T.Add(s.timers, i, call.to, Some(Timeout(c)), false, s.now))
    else
      SetCall(Goto(s, w, Arming, Adding), c, call.(timer := None))
  }

  function DoAdd(s: State, w: nat, ok: bool): State
    requires At(s, w, Adding) && E.INITIAL_SIZE <= |s.events.contexts|
  {
    var f, c := s.workers[w].fiber, Current(s, w, Adding);
    var (r, out) := E.AddEvent(s.events, s.calls[c].fd, s.calls[c].event, FiberTask(f), ok);
    match out
    case Succeeded => Goto(s, w, Adding, Yielding).(events := r, owner := s.owner + [Some(c)])
    case Failed => Goto(s, w, Adding, Refused).(events := r)
    case Aborted => s.(failed := Some(Occupied))
  }

  function DoUse(s: State, op: R.Op): State
    requires R.Enabled(s.events, op)
  {
    var (r, out) := R.Apply(s.events, op);
    if out == E.Aborted then s.(failed := Some(Occupied))
    else WithEvents(s.(owner := if |r.issued| > |s.events.issued| then s.owner + [None] else s.owner), r)
  }

  ghost function DoMove(s: State, w: nat, move: Move): State
    requires w < |s.workers| && CanMove(s, w, move)
  {
    var me := s.workers[w];
    match move
    case Take(k) => DoTake(s, w, k)
    case Poll(reports) => SetWorker(s, w, Polled(reports))
    case Collect(ids) =>
      SetWorker(s, w, Posting(T.CallbacksOf(s.timers, ids), me.reports)).(timers := T.Collect(s.timers, s.now))
    case Post =>
      SetWorker(s, w, me.(cbs := me.cbs[1..])).(queue := s.queue + [CallbackTask(me.cbs[0].value)])
    case DispatchNext(ok) => DoDispatch(s, w, ok)
    case DispatchDone => SetWorker(s, w, Free)
    case Fire(ok) => DoFire(s, w, ok)
    case Wake => SetWorker(s, w, Free).(queue := s.queue + [FiberTask(me.fiber)])
    case Begin(kind, fd, event, to) => DoBegin(s, w, kind, fd, event, to)
    case Try(again) => if again then Goto(s, w, Trying, Arming) else Return(s, w, Trying, Returned)
    case Arm(i) => DoArm(s, w, i)
    case Add(ok) => DoAdd(s, w, ok)
    case GiveUp =>
      Return(s, w, Refused, AddFailed).(timers := Stopped(s.timers, s.calls[Current(s, w, Refused)].timer))
    case Yield => SetWorker(Goto(s, w, Yielding, Parked), w, Free)
    case Disarm =>
      var call := s.calls[Current(s, w, Woken)];
      if call.kind == Nap then Return(s, w, Woken, Returned)
      else Goto(s, w, Woken, Checking).(timers := Stopped(s.timers, call.timer))
    case Check =>
      var call := s.calls[Current(s, w, Checking)];
      if call.cancelled then Return(s, w, Checking, TimedOut)
      else if call.kind == Io then Goto(s, w, Checking, Trying)
      else Return(s, w, Checking, Returned)
    case Use(op) => DoUse(s, op)
    case End => SetWorker(s, w, Free).(fibers := s.fibers[me.fiber := Ended])
  }

  ghost function Do(s: State, step: Step): State
    requires Can(s, step)
  {
    match step
    case Tick(to) => s.(now := to)
    case Spawn => s.(fibers := s.fibers + [Fresh], queue := s.queue + [FiberTask(|s.fibers|)])
    case Submit(id) => s.(queue := s.queue + [CallbackTask(User(id))])
    case Timer(op) => s.(timers := T.Apply(s.timers, op))
    case Work(w, move) => DoMove(s, w, move)
  }

  ghost predicate IsRun(n: nat, trace: seq<State>, steps: seq<Step>) {
    && |trace| == |steps| + 1
    && trace[0] == Start(n, trace[0].now)
    && forall k {:trigger steps[k]} | 0 <= k < |steps| ::
         Can(trace[k], steps[k]) && trace[k + 1] == Do(trace[k], steps[k])
  }

  ghost predicate Reachable(n: nat, s: State) {
    exists trace, steps :: IsRun(n, trace, steps) && trace[|trace| - 1] == s
  }

  lemma StepReaches(n: nat, s: State, step: Step)
    requires Reachable(n, s) && Can(s, step)
    ensures Reachable(n, Do(s, step))
  {
    var trace, steps :| IsRun(n, trace, steps) && trace[|trace| - 1] == s;
    assert IsRun(n, trace + [Do(s, step)], steps + [step]);
  }
}
