/**
 Where the tasks of the scheduler come from. In every careful run what has been scheduled is exactly what was
 submitted, what the registry handed over, and what the collections of timers delivered; so when nothing is left,
 each of these has been executed, as often as it was due.
 */
module Accounting {
  import opened Tasks
  import opened TaskQueue
  import opened Workers
  import E = EventModel
  import Q = Quiescence
  import R = EventRuns
  import S = Shutdown
  import T = TimerModel
  import W = Wakeups

  /** A task and the thread it must run on, if any. */
  datatype Job = Job(task: Task, pin: Option<nat>)

  function Jobs(es: seq<Entry>): seq<Job> {
    seq(|es|, k requires 0 <= k < |es| => Job(es[k].task, es[k].pin))
  }

  /** How often the job occurs among the entries. */
  function Times(es: seq<Entry>, job: Job): nat {
    multiset(Jobs(es))[job]
  }

  lemma TimesMore(es: seq<Entry>, more: seq<Entry>, job: Job)
    ensures Times(es + more, job) == Times(es, job) + Times(more, job)
  {
    assert Jobs(es + more) == Jobs(es) + Jobs(more);
  }

  lemma TimesOne(e: Entry, job: Job)
    ensures Times([e], job) == if job == Job(e.task, e.pin) then 1 else 0
  {
    assert Jobs([e]) == [Job(e.task, e.pin)];
  }

  lemma {:induction false} TimesTask(es: seq<Entry>, tasks: seq<Task>, job: Job)
    requires |es| == |tasks| && forall k | 0 <= k < |es| :: es[k].task == tasks[k] && es[k].pin == None
    ensures Times(es, job) == if job.pin.None? then multiset(tasks)[job.task] else 0
  {
    if es == [] {
      assert Jobs(es) == [];
    } else {
      var last := |es| - 1;
      assert es == es[..last] + [es[last]] && tasks == tasks[..last] + [tasks[last]];
      TimesTask(es[..last], tasks[..last], job);
      TimesMore(es[..last], [es[last]], job);
      TimesOne(es[last], job);
    }
  }

  lemma TimesWithout(es: seq<Entry>, k: nat, job: Job)
    requires k < |es|
    ensures multiset(es[..k] + es[k + 1..]) == multiset(es) - multiset{es[k]}
    ensures Times(es, job) == Times([es[k]], job) + Times(es[..k] + es[k + 1..], job)
  {
    assert es == es[..k] + ([es[k]] + es[k + 1..]);
    TimesMore(es[..k], [es[k]] + es[k + 1..], job);
    TimesMore([es[k]], es[k + 1..], job);
    TimesMore(es[..k], es[k + 1..], job);
  }

  lemma {:induction false} TimesPermuted(a: seq<Entry>, b: seq<Entry>, job: Job)
    requires multiset(a) == multiset(b)
    ensures Times(a, job) == Times(b, job)
    decreases |a|
  {
    if a == [] {
      assert |multiset(a)| == |multiset(b)|;
    } else {
      assert a[0] in multiset(b);
      var k :| 0 <= k < |b| && b[k] == a[0];
      TimesWithout(a, 0, job);
      TimesWithout(b, k, job);
      TimesPermuted(a[..0] + a[1..], b[..k] + b[k + 1..], job);
    }
  }

  // ------------------------------------------------------------- the sources

  function SubmittedBy(step: Step, job: Job): nat {
    match step
    case Outside(a) => if a == Submit(job.task, job.pin) then 1 else 0
    case Work(_, TaskStep(a)) => if a == Submit(job.task, job.pin) then 1 else 0
    case _ => 0
  }

  /** The number of timers with the callback `job` that a step delivers: those that are due at its clock reading. */
  ghost function DeliveredBy(s: State, step: Step, job: Job): nat
    requires Can(s, step)
  {
    match step
    case Work(w, Wake(now, _, _)) =>
      if job.pin.None? && job.task.CallbackTask? then
        |set i | i in T.Due(s.timers, now) && i in s.timers.all && s.timers.all[i].cb == Some(job.task.cb)|
      else 0
    case _ => 0
  }

  ghost function Submitted(c: Config, trace: seq<State>, steps: seq<Step>, k: nat, job: Job): nat
    requires IsRun(c, trace, steps) && k < |trace|
  {
    if k == 0 then 0 else Submitted(c, trace, steps, k - 1, job) + SubmittedBy(steps[k - 1], job)
  }

  ghost function Delivered(c: Config, trace: seq<State>, steps: seq<Step>, k: nat, job: Job): nat
    requires IsRun(c, trace, steps) && k < |trace|
  {
    if k == 0 then 0 else Delivered(c, trace, steps, k - 1, job) + DeliveredBy(trace[k - 1], steps[k - 1], job)
  }

  ghost predicate Valid(r: E.Registry) {
    forall k | 0 <= k < |r.log| :: r.log[k] < |r.issued|
  }

  /** How often the registry has handed over the task. */
  ghost function HandedOver(r: E.Registry, job: Job): nat
    requires Valid(r)
  {
    if job.pin.None? then multiset(W.TasksOf(r.issued, r.log))[job.task] else 0
  }

  /** Delivered callbacks that a worker has yet to schedule. */
  function CarriedIn(w: Worker, job: Job): nat {
    if w.pc.Post? && job.pin.None? && job.task.CallbackTask? then multiset(w.pc.cbs)[Some(job.task.cb)] else 0
  }

  function Carried(ws: seq<Worker>, job: Job): nat {
    if ws == [] then 0 else CarriedIn(ws[0], job) + Carried(ws[1..], job)
  }

  lemma {:induction false} CarriedUpdate(ws: seq<Worker>, w: nat, me: Worker, job: Job)
    requires w < |ws|
    ensures Carried(ws[w := me], job) + CarriedIn(ws[w], job) == Carried(ws, job) + CarriedIn(me, job)
  {
    if w == 0 {
      assert ws[0 := me][1..] == ws[1..];
    } else {
      assert ws[w := me][1..] == ws[1..][w - 1 := me];
      CarriedUpdate(ws[1..], w - 1, me, job);
    }
  }

  lemma {:induction false} NobodyCarries(ws: seq<Worker>, job: Job)
    requires forall w | 0 <= w < |ws| :: !ws[w].pc.Post?
    ensures Carried(ws, job) == 0
  {
    if ws != [] {
      NobodyCarries(ws[1..], job);
    }
  }

  // ------------------------------------------------- what the registry hands over

  lemma {:induction false} PushAllExactly(s: State, tasks: seq<Task>)
    ensures var s1 := PushAll(s, tasks);
            && |s1.issued| == |s.issued| + |tasks| && s.issued <= s1.issued
            && s1.queue == s.queue + s1.issued[|s.issued|..]
            && (forall k | 0 <= k < |tasks| :: s1.issued[|s.issued| + k] == Entry(|s.issued| + k, tasks[k], None))
    decreases |tasks|
  {
    if tasks != [] {
      var s0 := Push(s, tasks[0], None);
      PushAllExactly(s0, tasks[1..]);
      var s1 := PushAll(s, tasks);
      forall k | 0 <= k < |tasks| ensures s1.issued[|s.issued| + k] == Entry(|s.issued| + k, tasks[k], None) {
        if k == 0 {
          assert s1.issued[|s.issued|] == s0.issued[|s.issued|];
        } else {
          assert s1.issued[|s0.issued| + (k - 1)] == Entry(|s0.issued| + (k - 1), tasks[1..][k - 1], None);
        }
      }
      assert s1.issued[|s.issued|..] == [s0.issued[|s.issued|]] + s1.issued[|s0.issued|..];
    }
  }

  /** Every registration that ended by being handed over between `s` and `s1` is queued, in that order, as a new
      entry that any thread may take; and nothing else is. */
  ghost predicate HandsOver(s: State, s1: State) {
    && s.events.log <= s1.events.log && s.events.issued <= s1.events.issued && Valid(s1.events)
    && |s1.issued| == |s.issued| + |s1.events.log| - |s.events.log| && s.issued <= s1.issued
    && s1.queue == s.queue + s1.issued[|s.issued|..]
    && forall k {:trigger s1.events.log[k]} | |s.events.log| <= k < |s1.events.log| ::
         var place := |s.issued| + k - |s.events.log|;
         s1.issued[place] == Entry(place, s1.events.issued[s1.events.log[k]].task, None)
  }

  lemma WithEventsHandsOver(s: State, r: E.Registry)
    requires E.Inv(r) && R.Extends(s.events, r)
    ensures HandsOver(s, WithEvents(s, r))
  {
    var s1, tasks := WithEvents(s, r), E.Woken(s.events, r);
    PushAllExactly(s.(events := r), tasks);
    PushAllFrame(s.(events := r), tasks);
    W.WokenTasks(s.events, r);
    assert forall k | 0 <= k < |r.log| :: r.log[k] in r.log;
    forall k {:trigger r.log[k]} | |s.events.log| <= k < |r.log|
      ensures s1.issued[|s.issued| + k - |s.events.log|]
           == Entry(|s.issued| + k - |s.events.log|, r.issued[r.log[k]].task, None)
    {
      assert tasks[k - |s.events.log|] == r.issued[r.log[k]].task;
      assert s1.issued[|s.issued| + (k - |s.events.log|)].task == tasks[k - |s.events.log|];
    }
  }

  /** Whatever ends registrations - dispatch, or a task or an outside thread that cancels or closes - brings their
      tasks to the queue. */
  lemma StepHandsOver(c: Config, s: State, step: Step)
    requires E.Inv(s.events) && Can(s, step) && Careful(s, step)
    requires match step
             case Outside(a) => a.EventAct?
             case Work(_, TaskStep(a)) => a.EventAct?
             case Work(_, move) => move.DispatchNext?
             case _ => false
    ensures HandsOver(s, Do(c, s, step))
  {
    match step
    case Outside(a) => ActHandsOver(s, a.eop);
    case Work(w, TaskStep(a)) => ActHandsOver(s, a.eop);
    case Work(w, DispatchNext(ok)) => DispatchHandsOver(c, s, w, ok);
  }

  lemma ActHandsOver(s: State, op: R.Op)
    requires E.Inv(s.events) && CanAct(s, EventAct(op)) && R.Careful(s.events, op)
    ensures HandsOver(s, Perform(s, EventAct(op)))
  {
    R.ApplyKeepsInv(s.events, op);
    R.ApplyExtends(s.events, op);
    WithEventsHandsOver(s, R.Apply(s.events, op).0);
  }

  lemma SameHandsOver(s: State, s0: State, s1: State)
    requires HandsOver(s0, s1) && s0 == s.(workers := s0.workers)
    ensures HandsOver(s, s1)
  {
  }

  lemma DispatchHandsOver(c: Config, s: State, w: nat, ok: bool)
    requires E.Inv(s.events) && w < |s.workers| && CanMove(s, w, DispatchNext(ok))
    ensures HandsOver(s, DoMove(c, s, w, DispatchNext(ok)))
  {
    var reports := s.workers[w].pc.reports;
    W.DispatchEnds(s.events, reports[0], ok);
    var s0, r := SetPc(s, w, Dispatching(reports[1..])), E.Dispatch(s.events, reports[0], ok).0;
    WithEventsHandsOver(s0, r);
    SameHandsOver(s, s0, WithEvents(s0, r));
  }

  // ---------------------------------------------------------------- the balance

  /** What has been scheduled, or is about to be, against what the registry has handed over. */
  ghost function Balance(s: State, job: Job): int
    requires Valid(s.events)
  {
    Times(s.issued, job) + Carried(s.workers, job) - HandedOver(s.events, job)
  }

  lemma SaneIsValid(r: E.Registry)
    requires E.Inv(r)
    ensures Valid(r)
  {
    assert forall k | 0 <= k < |r.log| :: r.log[k] in r.log;
  }

  lemma EventsBalance(s: State, r: E.Registry, job: Job)
    requires E.Inv(s.events) && E.Inv(r) && R.Extends(s.events, r)
    ensures Valid(s.events) && Valid(r) && WithEvents(s, r).events == r
    ensures Balance(WithEvents(s, r), job) == Balance(s, job)
  {
    SaneIsValid(s.events);
    WithEventsHandsOver(s, r);
    PushAllFrame(s.(events := r), E.Woken(s.events, r));
    var s1, ended := WithEvents(s, r), r.log[|s.events.log|..];
    W.TasksOfMore(s.events.issued, s.events.log, r.issued, r.log);
    var more := s1.issued[|s.issued|..];
    forall k | 0 <= k < |more| ensures more[k].task == W.TasksOf(r.issued, ended)[k] && more[k].pin == None {
      assert ended[k] == r.log[|s.events.log| + k];
    }
    TimesTask(more, W.TasksOf(r.issued, ended), job);
    assert s1.issued == s.issued + more;
    TimesMore(s.issued, more, job);
  }

  lemma PushBalance(s: State, task: Task, pin: Option<nat>, job: Job)
    requires Valid(s.events)
    ensures Balance(Push(s, task, pin), job) == Balance(s, job) + if job == Job(task, pin) then 1 else 0
  {
    TimesMore(s.issued, [Entry(|s.issued|, task, pin)], job);
    TimesOne(Entry(|s.issued|, task, pin), job);
  }

  lemma PerformBalance(s: State, a: Act, job: Job)
    requires E.Inv(s.events) && CanAct(s, a) && CarefulAct(s, a)
    ensures Valid(s.events) && Valid(Perform(s, a).events)
    ensures Balance(Perform(s, a), job) == Balance(s, job) + if a == Submit(job.task, job.pin) then 1 else 0
  {
    SaneIsValid(s.events);
    match a
    case Submit(task, pin) => PushBalance(s, task, pin, job);
    case TimerAct(_) =>
    case EventAct(op) =>
      R.ApplyKeepsInv(s.events, op);
      R.ApplyExtends(s.events, op);
      EventsBalance(s, R.Apply(s.events, op).0, job);
  }

  lemma DispatchBalance(c: Config, s: State, w: nat, ok: bool, job: Job)
    requires E.Inv(s.events) && w < |s.workers| && CanMove(s, w, DispatchNext(ok))
    ensures Valid(s.events) && Valid(DoMove(c, s, w, DispatchNext(ok)).events)
    ensures Balance(DoMove(c, s, w, DispatchNext(ok)), job) == Balance(s, job)
  {
    var reports := s.workers[w].pc.reports;
    var s0 := SetPc(s, w, Dispatching(reports[1..]));
    W.DispatchEnds(s.events, reports[0], ok);
    CarriedUpdate(s.workers, w, s0.workers[w], job);
    EventsBalance(s0, E.Dispatch(s.events, reports[0], ok).0, job);
  }

  /** A collection puts the callbacks of the timers that are due into the hands of the worker. */
  lemma WakeBalance(c: Config, s: State, w: nat, move: Move, job: Job)
    requires Valid(s.events) && w < |s.workers| && CanMove(s, w, move) && move.Wake?
    ensures Balance(DoMove(c, s, w, move), job) == Balance(s, job) + DeliveredBy(s, Work(w, move), job)
  {
    CarriedUpdate(s.workers, w, DoMove(c, s, w, move).workers[w], job);
    assert forall k | 0 <= k < |move.ids| :: move.ids[k] in move.ids;
    if job.task.CallbackTask? {
      var due := T.Due(s.timers, move.now);
      W.DeliveredCount(s.timers, move.ids, job.task.cb);
      assert W.Hits(s.timers, move.ids, job.task.cb)
          == set i | i in due && i in s.timers.all && s.timers.all[i].cb == Some(job.task.cb);
    }
  }

  lemma PostBalance(c: Config, s: State, w: nat, job: Job)
    requires Valid(s.events) && w < |s.workers| && CanMove(s, w, PostNext)
    ensures Balance(DoMove(c, s, w, PostNext), job) == Balance(s, job)
  {
    var pc := s.workers[w].pc;
    var s0 := SetPc(s, w, pc.(cbs := pc.cbs[1..]));
    CarriedUpdate(s.workers, w, s0.workers[w], job);
    assert pc.cbs == [pc.cbs[0]] + pc.cbs[1..];
    PushBalance(s0, CallbackTask(pc.cbs[0].value), None, job);
  }

  lemma OtherBalance(c: Config, s: State, w: nat, move: Move, job: Job)
    requires Valid(s.events) && w < |s.workers| && CanMove(s, w, move)
    requires !move.PostNext? && !move.DispatchNext? && !move.TaskStep? && !move.Wake?
    ensures DoMove(c, s, w, move).events == s.events
    ensures Balance(DoMove(c, s, w, move), job) == Balance(s, job)
  {
    OtherFrame(c, s, w, move, job);
    CarriedUpdate(s.workers, w, DoMove(c, s, w, move).workers[w], job);
  }

  lemma OtherFrame(c: Config, s: State, w: nat, move: Move, job: Job)
    requires w < |s.workers| && CanMove(s, w, move)
    requires !move.PostNext? && !move.DispatchNext? && !move.TaskStep? && !move.Wake?
    ensures var s1 := DoMove(c, s, w, move);
            && s1.events == s.events && s1.issued == s.issued && |s1.workers| == |s.workers|
            && s1.workers == s.workers[w := s1.workers[w]]
            && CarriedIn(s1.workers[w], job) == CarriedIn(s.workers[w], job)
  {
  }

  /** No step schedules anything that was not submitted, handed over or delivered, or forgets what was. */
  lemma StepBalance(c: Config, s: State, step: Step, job: Job)
    requires E.Inv(s.events) && Can(s, step) && Careful(s, step)
    ensures Valid(s.events) && Valid(Do(c, s, step).events)
    ensures Balance(Do(c, s, step), job) == Balance(s, job) + SubmittedBy(step, job) + DeliveredBy(s, step, job)
  {
    SaneIsValid(s.events);
    match step
    case Outside(a) => PerformBalance(s, a, job);
    case Stop =>
    case Enter => CarriedUpdate(s.workers, 0, Do(c, s, step).workers[0], job);
    case Work(w, move) =>
      if move.TaskStep? {
        PerformBalance(s, move.act, job);
      } else if move.DispatchNext? {
        DispatchBalance(c, s, w, move.ok, job);
      } else if move.Wake? {
        WakeBalance(c, s, w, move, job);
      } else if move.PostNext? {
        PostBalance(c, s, w, job);
      } else {
        OtherBalance(c, s, w, move, job);
      }
  }

  /** Nothing is scheduled out of nothing and nothing is forgotten: in every state of every careful run, what has
      been scheduled is what was submitted, what the registry has handed over and what collections have delivered,
      except for delivered callbacks that a worker is about to schedule. */
  lemma {:induction false} ScheduledIsAskedFor(c: Config, trace: seq<State>, steps: seq<Step>, k: nat, job: Job)
    requires CarefulRun(c, trace, steps) && k < |trace|
    ensures Valid(trace[k].events)
    ensures Times(trace[k].issued, job) + Carried(trace[k].workers, job)
         == Submitted(c, trace, steps, k, job) + HandedOver(trace[k].events, job) + Delivered(c, trace, steps, k, job)
  {
    if k == 0 {
      NobodyCarries(trace[0].workers, job);
      assert Jobs(trace[0].issued) == [];
    } else {
      ScheduledIsAskedFor(c, trace, steps, k - 1, job);
      Q.RunKeepsEvents(c, trace, steps, k - 1);
      StepBalance(c, trace[k - 1], steps[k - 1], job);
    }
  }

  /** When all idle fibers have ended in a careful run, under the condition for a quiet end, every job has been
      executed exactly as often as it was submitted, handed over by the registry, and delivered by a timer. */
  lemma EverythingIsServed(c: Config, trace: seq<State>, steps: seq<Step>, job: Job)
    requires 0 < c.threads && c.io && (c.order != AsWritten || (c.threads == 1 && c.useCaller))
    requires CarefulRun(c, trace, steps) && S.AllTerm(trace[|trace| - 1])
    ensures Valid(trace[|trace| - 1].events)
    ensures Times(trace[|trace| - 1].finished, job)
         == Submitted(c, trace, steps, |trace| - 1, job) + HandedOver(trace[|trace| - 1].events, job)
          + Delivered(c, trace, steps, |trace| - 1, job)
  {
    var s := trace[|trace| - 1];
    Q.EndsWithNothingExactly(c);
    assert CarefullyReachable(c, s);
    assert Q.NothingLeft(s);
    ScheduledIsAskedFor(c, trace, steps, |trace| - 1, job);
    NobodyCarries(s.workers, job);
    TimesPermuted(s.issued, s.finished, job);
  }
}
