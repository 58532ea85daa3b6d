/**
 The scheduler's workers as an interleaved step relation.

 A worker is a thread in scheduler::run. Each step is one critical section or one access to shared
 state. The callbacks that tasks run are arbitrary: between being taken and finishing, a task performs
 any sequence of submissions, timer operations and event operations. Both idle functions are included:
 that of the base scheduler, and that of IOManager with its shutdown test read step by step.
 Waking a worker only shortens a wait, so tickle has no step.
 */
module Workers {
  import opened Words
  import opened Tasks
  import opened TaskQueue
  import T = TimerModel
  import E = EventModel
  import R = EventRuns

  /** How the shutdown test of IOManager reads the shared state: timers, pending count, queue, one after
      the other, as written; or, as repairs, the queue first and the timers last, or all in one step. */
  datatype Order = AsWritten | QueueFirst | Atomic

  /** `threads` counts all workers; with `useCaller`, worker 0 is the calling thread, which enters run only
      in stop. `io` selects IOManager's idle function. */
  datatype Config = Config(threads: nat, useCaller: bool, io: bool, order: Order)

  datatype IdleFiber = New | Yielded | Term

  datatype PC =
    | Unstarted
    | Scan
    | Missed
    | Running(entry: Entry)
    | BaseIdle
    | Check(stage: nat)
    | Wait
    | Post(cbs: seq<Option<Callback>>, reports: seq<E.Report>)
    | Dispatching(reports: seq<E.Report>)
    | Leaving
    | Exited

  datatype Worker = Worker(pc: PC, idle: IdleFiber)

  datatype State = State(
    queue: seq<Entry>,
    active: nat,
    idling: nat,
    stopping: bool,
    timers: T.Timers,
    events: E.Registry,
    workers: seq<Worker>,
    issued: seq<Entry>,         // every entry ever scheduled, by ticket
    taken: seq<(nat, Entry)>,   // who took what, in order
    finished: seq<Entry>)

  predicate Init(c: Config, s: State) {
    && s.queue == [] && s.active == 0 && s.idling == 0 && !s.stopping
    && s.timers == T.Empty(s.timers.previous)
    && s.events == E.Start(true)
    && |s.workers| == c.threads
    && (forall w | 0 <= w < |s.workers| ::
          s.workers[w] == Worker(if w == 0 && c.useCaller then Unstarted else Scan, New))
    && s.issued == [] && s.taken == [] && s.finished == []
  }

  /** What a task, or a thread outside the pool, can do to the shared state. */
  datatype Act =
    | Submit(task: Task, pin: Option<nat>)
    | TimerAct(top: T.Op)
    | EventAct(eop: R.Op)

  predicate CanAct(s: State, a: Act) {
    match a
    case Submit(_, _) => true
    case TimerAct(op) => !op.OpCollect? && T.Enabled(s.timers, op)
    case EventAct(op) => !op.OpDispatch? && R.Enabled(s.events, op) && R.Apply(s.events, op).1 != E.Aborted
  }

  function Push(s: State, task: Task, pin: Option<nat>): State {
    var e := Entry(|s.issued|, task, pin);
    s.(queue := s.queue + [e], issued := s.issued + [e])
  }

  function PushAll(s: State, tasks: seq<Task>): State
    decreases |tasks|
  {
    if tasks == [] then s else PushAll(Push(s, tasks[0], None), tasks[1..])
  }

  function WithEvents(s: State, r: E.Registry): State {
    PushAll(s.(events := r), E.Woken(s.events, r))
  }

  function Perform(s: State, a: Act): State
    requires CanAct(s, a)
  {
    match a
    case Submit(task, pin) => Push(s, task, pin)
    case TimerAct(op) => s.(timers := T.Apply(s.timers, op))
    case EventAct(op) => WithEvents(s, R.Apply(s.events, op).0)
  }

  /** The steps of one worker. */
  datatype Move =
    | Take
    | Miss
    | Leave
    | EnterIdle
    | BaseStep
    | Test
    | Wake(now: U64, ids: seq<T.TimerId>, reports: seq<E.Report>)
    | PostNext
    | PostDone
    | DispatchNext(ok: bool)
    | DispatchDone
    | Switch
    | TaskStep(act: Act)
    | Finish

  datatype Step =
    | Outside(act: Act)
    | Stop
    | Enter
    | Work(w: nat, move: Move)

  /** scheduler::stopping. */
  predicate QueueTest(s: State) {
    s.stopping && s.queue == [] && s.active == 0
  }

  /** What the shutdown test reads in its `stage`. */
  predicate Reads(c: Config, s: State, stage: nat) {
    if c.order == Atomic then s.timers.live == {} && s.events.pending == 0 && QueueTest(s)
    else if stage == 1 then s.events.pending == 0
    else if (stage == 0) == (c.order == AsWritten) then s.timers.live == {}
    else QueueTest(s)
  }

  ghost predicate CanMove(s: State, w: nat, move: Move)
    requires w < |s.workers|
  {
    var pc := s.workers[w].pc;
    match move
    case Take => pc == Scan && FirstFor(s.queue, w) < |s.queue|
    case Miss => pc == Scan && FirstFor(s.queue, w) == |s.queue|
    case Leave => pc == Missed && s.workers[w].idle == Term
    case EnterIdle => pc == Missed && s.workers[w].idle != Term
    case BaseStep => pc == BaseIdle
    case Test => pc.Check?
    case Wake(now, ids, _) => pc == Wait && s.timers.live <= s.timers.all.Keys && T.Emits(s.timers, now, ids)
    case PostNext => pc.Post? && pc.cbs != [] && pc.cbs[0].Some?
    case PostDone => pc.Post? && pc.cbs == []
    case DispatchNext(ok) =>
      pc.Dispatching? && pc.reports != [] && E.Dispatch(s.events, pc.reports[0], ok).1 != E.Aborted
    case DispatchDone => pc == Dispatching([])
    case Switch => pc == Leaving && 0 < s.idling
    case TaskStep(a) => pc.Running? && CanAct(s, a)
    case Finish => pc.Running? && 0 < s.active
  }

  /** Threads outside the pool act only before stop. */
  ghost predicate Can(s: State, step: Step) {
    match step
    case Outside(a) => !s.stopping && CanAct(s, a)
    case Stop => !s.stopping
    case Enter => s.stopping && 0 < |s.workers| && s.workers[0].pc == Unstarted
    case Work(w, move) => w < |s.workers| && CanMove(s, w, move)
  }

  function SetPc(s: State, w: nat, pc: PC): State
    requires w < |s.workers|
  {
    s.(workers := s.workers[w := s.workers[w].(pc := pc)])
  }

  function SetWorker(s: State, w: nat, pc: PC, idle: IdleFiber): State
    requires w < |s.workers|
  {
    s.(workers := s.workers[w := Worker(pc, idle)])
  }

  ghost function DoMove(c: Config, s: State, w: nat, move: Move): State
    requires w < |s.workers| && CanMove(s, w, move)
  {
    var me := s.workers[w];
    match move
    case Take =>
      var k := FirstFor(s.queue, w);
      var e := s.queue[k];
      SetPc(s, w, Running(e)).(queue := s.queue[..k] + s.queue[k + 1..], active := s.active + 1,
                               taken := s.taken + [(w, e)])
    case Miss => SetPc(s, w, Missed)
    case Leave => SetPc(s, w, Exited)
    case EnterIdle => SetPc(s, w, if c.io then Check(0) else BaseIdle).(idling := s.idling + 1)
    case BaseStep => SetWorker(s, w, Leaving, if s.stopping || me.idle != New then Term else Yielded)
    case Test =>
      if !Reads(c, s, me.pc.stage) then SetPc(s, w, Wait)
      else if me.pc.stage < 2 && c.order != Atomic then SetPc(s, w, Check(me.pc.stage + 1))
      else SetWorker(s, w, Leaving, Term)
    case Wake(now, ids, reports) =>
      SetPc(s, w, Post(T.CallbacksOf(s.timers, ids), reports)).(timers := T.Collect(s.timers, now))
    case PostNext => Push(SetPc(s, w, me.pc.(cbs := me.pc.cbs[1..])), CallbackTask(me.pc.cbs[0].value), None)
    case PostDone => SetPc(s, w, Dispatching(me.pc.reports))
    case DispatchNext(ok) =>
      WithEvents(SetPc(s, w, Dispatching(me.pc.reports[1..])), E.Dispatch(s.events, me.pc.reports[0], ok).0)
    case DispatchDone => SetWorker(s, w, Leaving, Yielded)
    case Switch => SetPc(s, w, Scan).(idling := s.idling - 1)
    case TaskStep(a) => Perform(s, a)
    case Finish => SetPc(s, w, Scan).(active := s.active - 1, finished := s.finished + [me.pc.entry])
  }

  ghost function Do(c: Config, s: State, step: Step): State
    requires Can(s, step)
  {
    match step
    case Outside(a) => Perform(s, a)
    case Stop => s.(stopping := true)
    case Enter => SetPc(s, 0, Scan)
    case Work(w, move) => DoMove(c, s, w, move)
  }

  ghost predicate IsRun(c: Config, trace: seq<State>, steps: seq<Step>) {
    && |trace| == |steps| + 1
    && Init(c, trace[0])
    && forall k {:trigger steps[k]} | 0 <= k < |steps| ::
         Can(trace[k], steps[k]) && trace[k + 1] == Do(c, trace[k], steps[k])
  }

  ghost predicate Reachable(c: Config, s: State) {
    exists trace, steps :: IsRun(c, trace, steps) && trace[|trace| - 1] == s
  }

  /** The action uses the registry as EventRuns.Careful says. */
  predicate CarefulAct(s: State, a: Act) {
    a.EventAct? ==> R.Careful(s.events, a.eop)
  }

  predicate Careful(s: State, step: Step) {
    && (step.Outside? ==> CarefulAct(s, step.act))
    && (step.Work? && step.move.TaskStep? ==> CarefulAct(s, step.move.act))
  }

  ghost predicate CarefulRun(c: Config, trace: seq<State>, steps: seq<Step>) {
    IsRun(c, trace, steps) && forall k {:trigger steps[k]} | 0 <= k < |steps| :: Careful(trace[k], steps[k])
  }

  /** Reachable by a run that uses the registry with care. */
  ghost predicate CarefullyReachable(c: Config, s: State) {
    exists trace, steps :: CarefulRun(c, trace, steps) && trace[|trace| - 1] == s
  }

  lemma CarefulIsReachable(c: Config, s: State)
    requires CarefullyReachable(c, s)
    ensures Reachable(c, s)
  {
    var trace, steps :| CarefulRun(c, trace, steps) && trace[|trace| - 1] == s;
    assert IsRun(c, trace, steps);
  }

  lemma StepReaches(c: Config, s: State, step: Step)
    requires Reachable(c, s) && Can(s, step)
    ensures Reachable(c, Do(c, s, step))
  {
    var trace, steps :| IsRun(c, trace, steps) && trace[|trace| - 1] == s;
    assert IsRun(c, trace + [Do(c, s, step)], steps + [step]);
  }

  lemma CarefulStepReaches(c: Config, s: State, step: Step)
    requires CarefullyReachable(c, s) && Can(s, step) && Careful(s, step)
    ensures CarefullyReachable(c, Do(c, s, step))
  {
    var trace, steps :| CarefulRun(c, trace, steps) && trace[|trace| - 1] == s;
    assert CarefulRun(c, trace + [Do(c, s, step)], steps + [step]);
  }

  lemma Advance(c: Config, s: State, w: nat, move: Move) returns (s1: State)
    requires CarefullyReachable(c, s) && w < |s.workers| && CanMove(s, w, move) && Careful(s, Work(w, move))
    ensures CarefullyReachable(c, s1) && s1 == DoMove(c, s, w, move)
  {
    CarefulStepReaches(c, s, Work(w, move));
    s1 := DoMove(c, s, w, move);
  }

  lemma InitReaches(c: Config, s: State)
    requires Init(c, s)
    ensures CarefullyReachable(c, s)
  {
    assert CarefulRun(c, [s], []);
  }

  // ------------------------------------------------------------- frames

  lemma {:induction false} PushAllFrame(s: State, tasks: seq<Task>)
    ensures var s1 := PushAll(s, tasks);
            && s1 == s.(queue := s1.queue, issued := s1.issued)
            && s.queue <= s1.queue && s.issued <= s1.issued
            && (forall k | |s.queue| <= k < |s1.queue| :: s1.queue[k].pin == None)
            && (tasks == [] ==> s1 == s)
    decreases |tasks|
  {
    if tasks != [] {
      PushAllFrame(Push(s, tasks[0], None), tasks[1..]);
    }
  }

  /** An action changes no worker, no counter and no history of taking; it only adds to the queue. */
  lemma PerformFrame(s: State, a: Act)
    requires CanAct(s, a)
    ensures var s1 := Perform(s, a);
            && s1.workers == s.workers && s1.active == s.active && s1.idling == s.idling
            && s1.stopping == s.stopping && s1.taken == s.taken && s1.finished == s.finished
            && s.queue <= s1.queue && s.issued <= s1.issued
  {
    if a.EventAct? {
      var r := R.Apply(s.events, a.eop).0;
      PushAllFrame(s.(events := r), E.Woken(s.events, r));
    }
  }

  /** A move changes no worker but its own. */
  lemma MoveFrame(c: Config, s: State, w: nat, move: Move)
    requires w < |s.workers| && CanMove(s, w, move)
    ensures var s1 := DoMove(c, s, w, move);
            && |s1.workers| == |s.workers| && s1.stopping == s.stopping
            && (forall v | 0 <= v < |s.workers| && v != w :: s1.workers[v] == s.workers[v])
            && (move.TaskStep? ==> s1.workers[w] == s.workers[w])
            && (move.DispatchNext? ==>
                  s1.workers[w].idle == s.workers[w].idle && s1.workers[w].pc.Dispatching?)
  {
    if move.TaskStep? {
      PerformFrame(s, move.act);
    }
    if move.DispatchNext? {
      var reports := s.workers[w].pc.reports;
      var r := E.Dispatch(s.events, reports[0], move.ok).0;
      PushAllFrame(SetPc(s, w, Dispatching(reports[1..])).(events := r), E.Woken(s.events, r));
    }
  }
}
