/**
 The queue of module Blocking, task by task. What has been queued is exactly what was submitted or spawned, what the
 registry handed over, what timers delivered and what the callbacks of sleeps scheduled; and it is taken once.
 */
module Tallies {
  import opened Tasks
  import opened Blocking
  import opened Wakeups
  import L = Layers
  import E = EventModel
  import R = EventRuns
  import T = TimerModel

  /** Delivered callbacks that a worker is about to queue. */
  function HeldIn(me: Worker, task: Task): nat {
    if me.Posting? && task.CallbackTask? then multiset(me.cbs)[Some(task.cb)] else 0
  }

  function Held(ws: seq<Worker>, task: Task): nat {
    if ws == [] then 0 else HeldIn(ws[0], task) + Held(ws[1..], task)
  }

  /** How often the task is waiting to be taken. */
  function Waiting(s: State, task: Task): nat {
    multiset(s.queue)[task] + Held(s.workers, task)
  }

  ghost predicate Valid(r: E.Registry) {
    forall k | 0 <= k < |r.log| :: r.log[k] < |r.issued|
  }

  ghost function HandedOver(r: E.Registry, task: Task): nat
    requires Valid(r)
  {
    multiset(TasksOf(r.issued, r.log))[task]
  }

  /** What a step puts into the queue by itself: a new fiber, a callback, a fiber whose sleep is over. */
  function SentBy(s: State, step: Step, task: Task): nat {
    match step
    case Spawn => if task == FiberTask(|s.fibers|) then 1 else 0
    case Submit(id) => if task == CallbackTask(User(id)) then 1 else 0
    case Work(w, Wake) =>
      if w < |s.workers| && s.workers[w].Wakes? && task == FiberTask(s.workers[w].fiber) then 1 else 0
    case _ => 0
  }

  /** How many timers with this callback are due in the collection that a step makes. */
  ghost function DeliveredBy(s: State, step: Step, task: Task): nat
    requires Can(s, step)
  {
    match step
    case Work(_, Collect(_)) =>
      if task.CallbackTask? then
        |set i | i in T.Due(s.timers, s.now) && i in s.timers.all && s.timers.all[i].cb == Some(task.cb)|
      else 0
    case _ => 0
  }

  ghost function TakenBy(s: State, step: Step, task: Task): nat
    requires Can(s, step)
  {
    match step
    case Work(_, Take(k)) => if s.queue[k] == task && Do(s, step).failed.None? then 1 else 0
    case _ => 0
  }

  lemma {:induction false} HeldUpdate(ws: seq<Worker>, w: nat, me: Worker, task: Task)
    requires w < |ws|
    ensures Held(ws[w := me], task) + HeldIn(ws[w], task) == Held(ws, task) + HeldIn(me, task)
  {
    if w == 0 {
      assert ws[0 := me][1..] == ws[1..];
    } else {
      assert ws[w := me][1..] == ws[1..][w - 1 := me];
      HeldUpdate(ws[1..], w - 1, me, task);
    }
  }

  lemma {:induction false} NobodyHolds(n: nat, task: Task)
    ensures Held(seq(n, _ => Free), task) == 0
  {
    if n > 0 {
      assert seq(n, _ => Free)[1..] == seq(n - 1, _ => Free);
      NobodyHolds(n - 1, task);
    }
  }

  lemma SaneIsValid(r: E.Registry)
    requires E.Inv(r)
    ensures Valid(r)
  {
    assert forall k | 0 <= k < |r.log| :: r.log[k] in r.log;
  }

  ghost function Tally(s: State, task: Task): int
    requires Valid(s.events)
  {
    Waiting(s, task) - HandedOver(s.events, task)
  }

  /** What is handed over is queued. */
  lemma EventsTally(s: State, s1: State, task: Task)
    requires E.Inv(s.events) && E.Inv(s1.events) && R.Extends(s.events, s1.events)
    requires s1.queue == s.queue + E.Woken(s.events, s1.events) && Held(s1.workers, task) == Held(s.workers, task)
    ensures Valid(s.events) && Valid(s1.events) && Tally(s1, task) == Tally(s, task)
  {
    SaneIsValid(s.events);
    WokenTasks(s.events, s1.events);
    TasksOfMore(s.events.issued, s.events.log, s1.events.issued, s1.events.log);
  }

  predicate OnEvents(move: Move) {
    move.Add? || move.DispatchNext? || move.Fire? || move.Use?
  }

  /** Everything handed over is queued, and no worker gets or loses a callback. */
  ghost predicate Queues(s: State, s1: State, w: nat) {
    && s1.queue == s.queue + E.Woken(s.events, s1.events)
    && w < |s.workers| == |s1.workers| && s1.workers == s.workers[w := s1.workers[w]]
    && (forall task :: HeldIn(s1.workers[w], task) == HeldIn(s.workers[w], task))
  }

  lemma AddQueues(s: State, w: nat, ok: bool)
    requires Sane(s) && Can(s, Work(w, Add(ok)))
    ensures Queues(s, DoAdd(s, w, ok), w)
  {
    var f, call := s.workers[w].fiber, s.calls[Current(s, w, Adding)];
    assert Inside(s, f);
    E.AddEventSpec(s.events, call.fd, call.event, FiberTask(f), ok);
    assert E.Woken(s.events, DoAdd(s, w, ok).events) == [];
  }

  lemma FireQueues(s: State, w: nat, ok: bool)
    requires Can(s, Work(w, Fire(ok)))
    ensures Queues(s, DoFire(s, w, ok), w)
  {
  }

  lemma OnEventsQueues(s: State, w: nat, move: Move)
    requires Sane(s) && Can(s, Work(w, move)) && OnEvents(move)
    ensures Queues(s, DoMove(s, w, move), w)
  {
    if move.Add? {
      AddQueues(s, w, move.ok);
    } else if move.Fire? {
      FireQueues(s, w, move.ok);
    }
  }

  lemma OnEventsTally(s: State, w: nat, move: Move, task: Task)
    requires Sane(s) && Can(s, Work(w, move)) && OnEvents(move)
    ensures Valid(s.events) && Valid(DoMove(s, w, move).events)
    ensures Tally(DoMove(s, w, move), task) == Tally(s, task)
  {
    var s1 := DoMove(s, w, move);
    L.StepFollows(s, Work(w, move));
    var op := L.EventOp(s, Work(w, move));
    if op.Some? && R.Apply(s.events, op.value).1 != E.Aborted {
      R.ApplyKeepsInv(s.events, op.value);
      R.ApplyExtends(s.events, op.value);
    }
    OnEventsQueues(s, w, move);
    HeldUpdate(s.workers, w, s1.workers[w], task);
    EventsTally(s, s1, task);
  }

  lemma TakeTakes(s: State, w: nat, k: nat)
    requires Can(s, Work(w, Take(k)))
    ensures var s1 := DoTake(s, w, k);
            if s1.failed.Some? then s1 == s.(failed := s1.failed)
            else
              && s1.queue == s.queue[..k] + s.queue[k + 1..] && s1.events == s.events
              && |s1.workers| == |s.workers| && s1.workers == s.workers[w := s1.workers[w]]
              && !s1.workers[w].Posting?
  {
  }

  lemma WithoutOne(q: seq<Task>, k: nat, task: Task)
    requires k < |q|
    ensures multiset(q)[task] == multiset(q[..k] + q[k + 1..])[task] + if q[k] == task then 1 else 0
  {
    assert q == q[..k] + ([q[k]] + q[k + 1..]);
  }

  lemma TakeTally(s: State, w: nat, k: nat, task: Task)
    requires Valid(s.events) && Can(s, Work(w, Take(k)))
    ensures DoTake(s, w, k).events == s.events
    ensures Tally(DoTake(s, w, k), task) + TakenBy(s, Work(w, Take(k)), task) == Tally(s, task)
  {
    var s1 := DoTake(s, w, k);
    TakeTakes(s, w, k);
    if s1.failed.None? {
      HeldUpdate(s.workers, w, s1.workers[w], task);
      WithoutOne(s.queue, k, task);
    }
  }

  lemma CollectTally(s: State, w: nat, ids: seq<T.TimerId>, task: Task)
    requires Valid(s.events) && Can(s, Work(w, Collect(ids)))
    ensures DoMove(s, w, Collect(ids)).events == s.events
    ensures Tally(DoMove(s, w, Collect(ids)), task) == Tally(s, task) + DeliveredBy(s, Work(w, Collect(ids)), task)
  {
    HeldUpdate(s.workers, w, DoMove(s, w, Collect(ids)).workers[w], task);
    assert forall k | 0 <= k < |ids| :: ids[k] in ids;
    if task.CallbackTask? {
      var due := T.Due(s.timers, s.now);
      DeliveredCount(s.timers, ids, task.cb);
      assert Hits(s.timers, ids, task.cb)
          == set i | i in due && i in s.timers.all && s.timers.all[i].cb == Some(task.cb);
    }
  }

  lemma PostOne(cbs: seq<Option<Callback>>, reports: seq<E.Report>, task: Task)
    requires cbs != [] && cbs[0].Some?
    ensures HeldIn(Posting(cbs, reports), task)
         == HeldIn(Posting(cbs[1..], reports), task) + if task == CallbackTask(cbs[0].value) then 1 else 0
  {
    assert cbs == [cbs[0]] + cbs[1..];
  }

  lemma PostTally(s: State, w: nat, task: Task)
    requires Valid(s.events) && Can(s, Work(w, Post))
    ensures DoMove(s, w, Post).events == s.events
    ensures Tally(DoMove(s, w, Post), task) == Tally(s, task)
  {
    var cbs, reports := s.workers[w].cbs, s.workers[w].reports;
    var me := Posting(cbs[1..], reports);
    PostOne(cbs, reports, task);
    HeldUpdate(s.workers, w, me, task);
    assert DoMove(s, w, Post) == SetWorker(s, w, me).(queue := s.queue + [CallbackTask(cbs[0].value)]);
  }

  lemma WakeTally(s: State, w: nat, task: Task)
    requires Valid(s.events) && Can(s, Work(w, Wake))
    ensures DoMove(s, w, Wake).events == s.events
    ensures Tally(DoMove(s, w, Wake), task) == Tally(s, task) + SentBy(s, Work(w, Wake), task)
  {
    HeldUpdate(s.workers, w, Free, task);
  }

  predicate Local(move: Move) {
    !OnEvents(move) && !move.Take? && !Timed(move)
  }

  lemma LocalQueues(s: State, w: nat, move: Move)
    requires Can(s, Work(w, move)) && Local(move)
    ensures var s1 := DoMove(s, w, move);
            && s1.queue == s.queue && s1.events == s.events && |s1.workers| == |s.workers|
            && s1.workers == s.workers[w := s1.workers[w]]
            && (forall task :: HeldIn(s1.workers[w], task) == HeldIn(s.workers[w], task))
  {
  }

  lemma LocalTally(s: State, w: nat, move: Move, task: Task)
    requires Valid(s.events) && Can(s, Work(w, move)) && Local(move)
    ensures DoMove(s, w, move).events == s.events
    ensures Tally(DoMove(s, w, move), task) == Tally(s, task)
  {
    LocalQueues(s, w, move);
    HeldUpdate(s.workers, w, DoMove(s, w, move).workers[w], task);
  }

  predicate Timed(move: Move) {
    move.Collect? || move.Post? || move.Wake?
  }

  lemma TimedTally(s: State, w: nat, move: Move, task: Task)
    requires Valid(s.events) && Can(s, Work(w, move)) && Timed(move)
    ensures DoMove(s, w, move).events == s.events
    ensures Tally(DoMove(s, w, move), task)
         == Tally(s, task) + SentBy(s, Work(w, move), task) + DeliveredBy(s, Work(w, move), task)
  {
    if move.Collect? {
      CollectTally(s, w, move.ids, task);
    } else if move.Post? {
      PostTally(s, w, task);
    } else {
      WakeTally(s, w, task);
    }
  }

  lemma MoveTally(s: State, w: nat, move: Move, task: Task)
    requires Sane(s) && Can(s, Work(w, move))
    ensures Valid(s.events) && Valid(DoMove(s, w, move).events)
    ensures Tally(DoMove(s, w, move), task) + TakenBy(s, Work(w, move), task)
         == Tally(s, task) + SentBy(s, Work(w, move), task) + DeliveredBy(s, Work(w, move), task)
  {
    SaneIsValid(s.events);
    if OnEvents(move) {
      OnEventsTally(s, w, move, task);
    } else if move.Take? {
      TakeTally(s, w, move.k, task);
    } else if Timed(move) {
      TimedTally(s, w, move, task);
    } else {
      LocalTally(s, w, move, task);
    }
  }

  lemma StepTally(s: State, step: Step, task: Task)
    requires Sane(s) && Can(s, step)
    ensures Valid(s.events) && Valid(Do(s, step).events)
    ensures Tally(Do(s, step), task) + TakenBy(s, step, task)
         == Tally(s, task) + SentBy(s, step, task) + DeliveredBy(s, step, task)
  {
    SaneIsValid(s.events);
    if step.Work? {
      MoveTally(s, step.w, step.move, task);
    }
  }

  // ------------------------------------------------------------------ runs

  ghost function Sent(n: nat, trace: seq<State>, steps: seq<Step>, k: nat, task: Task): nat
    requires IsRun(n, trace, steps) && k < |trace|
  {
    if k == 0 then 0
    else Sent(n, trace, steps, k - 1, task) + SentBy(trace[k - 1], steps[k - 1], task)
  }

  ghost function Delivered(n: nat, trace: seq<State>, steps: seq<Step>, k: nat, task: Task): nat
    requires IsRun(n, trace, steps) && k < |trace|
  {
    if k == 0 then 0
    else Delivered(n, trace, steps, k - 1, task) + DeliveredBy(trace[k - 1], steps[k - 1], task)
  }

  ghost function Taken(n: nat, trace: seq<State>, steps: seq<Step>, k: nat, task: Task): nat
    requires IsRun(n, trace, steps) && k < |trace|
  {
    if k == 0 then 0
    else Taken(n, trace, steps, k - 1, task) + TakenBy(trace[k - 1], steps[k - 1], task)
  }

  lemma StartTally(n: nat, s: State, task: Task)
    requires s == Start(n, s.now)
    ensures Valid(s.events) && Waiting(s, task) == 0 && HandedOver(s.events, task) == 0
  {
    NobodyHolds(n, task);
    assert TasksOf(s.events.issued, s.events.log) == [];
  }

  /** A task has been taken, or waits to be, exactly as often as it was sent, delivered and handed over. */
  ghost predicate Kept(n: nat, trace: seq<State>, steps: seq<Step>, k: nat, task: Task)
    requires IsRun(n, trace, steps) && k < |trace|
  {
    && Valid(trace[k].events)
    && Taken(n, trace, steps, k, task) + Waiting(trace[k], task)
    == Sent(n, trace, steps, k, task) + Delivered(n, trace, steps, k, task) + HandedOver(trace[k].events, task)
  }

  lemma StepKeeps(n: nat, trace: seq<State>, steps: seq<Step>, k: nat, task: Task)
    requires IsRun(n, trace, steps) && 0 < k < |trace| && Kept(n, trace, steps, k - 1, task)
    ensures Kept(n, trace, steps, k, task)
  {
    RunIsSane(n, trace, steps, k - 1, 0);
    StepTally(trace[k - 1], steps[k - 1], task);
  }

  /** In every run, for every task: it has been taken, or waits to be, exactly as often as it was sent, delivered by a
      timer, and handed over by the registry. */
  lemma {:induction false} TasksAreKept(n: nat, trace: seq<State>, steps: seq<Step>, k: nat, task: Task)
    requires IsRun(n, trace, steps) && k < |trace|
    ensures Kept(n, trace, steps, k, task)
  {
    if k == 0 {
      StartTally(n, trace[0], task);
    } else {
      TasksAreKept(n, trace, steps, k - 1, task);
      StepKeeps(n, trace, steps, k, task);
    }
  }
}
