/** Task conservation, counters and order of service, in every reachable state of the scheduler. */
module Conservation {
  import opened Tasks
  import opened TaskQueue
  import opened Workers
  import E = EventModel
  import R = EventRuns
  import T = TimerModel

  function HeldBy(w: Worker): multiset<Entry> {
    if w.pc.Running? then multiset{w.pc.entry} else multiset{}
  }

  /** The entries that workers hold. */
  function Held(ws: seq<Worker>): multiset<Entry> {
    if ws == [] then multiset{} else HeldBy(ws[0]) + Held(ws[1..])
  }

  /** Between `++m_idleThreadCount` and `--m_idleThreadCount`. */
  predicate InIdle(w: Worker) {
    w.pc.BaseIdle? || w.pc.Check? || w.pc.Wait? || w.pc.Post? || w.pc.Dispatching? || w.pc.Leaving?
  }

  function CountIdle(ws: seq<Worker>): nat {
    if ws == [] then 0 else (if InIdle(ws[0]) then 1 else 0) + CountIdle(ws[1..])
  }

  function CountRunning(ws: seq<Worker>): nat {
    if ws == [] then 0 else (if ws[0].pc.Running? then 1 else 0) + CountRunning(ws[1..])
  }

  lemma {:induction false} HeldUpdateAt(ws: seq<Worker>, w: nat, me: Worker, e: Entry)
    requires w < |ws|
    ensures Held(ws[w := me])[e] + HeldBy(ws[w])[e] == Held(ws)[e] + HeldBy(me)[e]
  {
    if w == 0 {
      assert ws[0 := me][1..] == ws[1..];
    } else {
      assert ws[w := me][1..] == ws[1..][w - 1 := me];
      HeldUpdateAt(ws[1..], w - 1, me, e);
    }
  }

  /** A worker that neither takes nor finishes an entry. */
  lemma HeldSame(ws: seq<Worker>, w: nat, me: Worker)
    requires w < |ws| && HeldBy(ws[w]) == HeldBy(me)
    ensures Held(ws[w := me]) == Held(ws)
  {
    forall e ensures Held(ws[w := me])[e] == Held(ws)[e] {
      HeldUpdateAt(ws, w, me, e);
    }
  }

  /** A worker that takes the entry that `me` holds. */
  lemma HeldMore(ws: seq<Worker>, w: nat, me: Worker)
    requires w < |ws| && HeldBy(ws[w]) == multiset{}
    ensures Held(ws[w := me]) == Held(ws) + HeldBy(me)
  {
    forall e ensures Held(ws[w := me])[e] == (Held(ws) + HeldBy(me))[e] {
      HeldUpdateAt(ws, w, me, e);
    }
  }

  /** A worker that lets go of its entry. */
  lemma HeldLess(ws: seq<Worker>, w: nat, me: Worker)
    requires w < |ws| && HeldBy(me) == multiset{}
    ensures Held(ws) == Held(ws[w := me]) + HeldBy(ws[w])
  {
    forall e ensures Held(ws)[e] == (Held(ws[w := me]) + HeldBy(ws[w]))[e] {
      HeldUpdateAt(ws, w, me, e);
    }
  }

  lemma {:induction false} CountsUpdate(ws: seq<Worker>, w: nat, me: Worker)
    requires w < |ws|
    ensures CountIdle(ws[w := me]) + (if InIdle(ws[w]) then 1 else 0) == CountIdle(ws) + if InIdle(me) then 1 else 0
    ensures CountRunning(ws[w := me]) + (if ws[w].pc.Running? then 1 else 0)
         == CountRunning(ws) + if me.pc.Running? then 1 else 0
  {
    if w == 0 {
      assert ws[0 := me][1..] == ws[1..];
    } else {
      assert ws[w := me][1..] == ws[1..][w - 1 := me];
      CountsUpdate(ws[1..], w - 1, me);
    }
  }

  lemma {:induction false} CountsZero(ws: seq<Worker>)
    ensures CountRunning(ws) == 0 <==> forall w | 0 <= w < |ws| :: !ws[w].pc.Running?
    ensures (forall w | 0 <= w < |ws| :: !ws[w].pc.Running? && !InIdle(ws[w])) ==>
              Held(ws) == multiset{} && CountIdle(ws) == 0
    ensures |Held(ws)| == CountRunning(ws)
  {
    if ws != [] {
      CountsZero(ws[1..]);
      assert forall w | 0 <= w < |ws[1..]| :: ws[1..][w] == ws[w + 1];
      assert (forall w | 0 <= w < |ws| :: !ws[w].pc.Running?) ==>
        forall w | 0 <= w < |ws[1..]| :: !ws[1..][w].pc.Running?;
      assert (forall w | 0 <= w < |ws[1..]| :: !ws[1..][w].pc.Running?) && !ws[0].pc.Running? ==>
        forall w | 0 <= w < |ws| :: !ws[w].pc.Running? by {
        forall w | 0 < w < |ws| ensures ws[w] == ws[1..][w - 1] {}
      }
    }
  }

  ghost predicate Counted(s: State) {
    s.active == CountRunning(s.workers) && s.idling == CountIdle(s.workers)
  }

  /** Everything ever scheduled is queued, held by a worker, or finished, exactly once. */
  ghost predicate Conserved(s: State) {
    multiset(s.issued) == multiset(s.queue) + Held(s.workers) + multiset(s.finished)
  }

  /** Tickets are given out in scheduling order. */
  ghost predicate Ticketed(s: State) {
    && (forall k | 0 <= k < |s.issued| :: s.issued[k].ticket == k)
    && (forall k | 0 <= k < |s.queue| :: s.queue[k].ticket < |s.issued|)
    && (forall j, k | 0 <= j < k < |s.queue| :: s.queue[j].ticket < s.queue[k].ticket)
  }

  /** A pinned entry is taken only by its thread, and entries with the same pin are taken in order. */
  ghost predicate InOrder(s: State) {
    && (forall k | 0 <= k < |s.taken| :: RunsOn(s.taken[k].1, s.taken[k].0) && s.taken[k].1.ticket < |s.issued|)
    && (forall j, k | 0 <= j < k < |s.taken| && s.taken[j].1.pin == s.taken[k].1.pin ::
          s.taken[j].1.ticket < s.taken[k].1.ticket)
    && (forall j, k | 0 <= j < |s.taken| && 0 <= k < |s.queue| && s.taken[j].1.pin == s.queue[k].pin ::
          s.taken[j].1.ticket < s.queue[k].ticket)
  }

  ghost predicate Ordered(s: State) {
    Ticketed(s) && InOrder(s)
  }

  // ---------------------------------------------------------- adding work

  lemma PushKeepsCounts(s: State, task: Task, pin: Option<nat>)
    ensures Conserved(s) ==> Conserved(Push(s, task, pin))
    ensures Counted(s) ==> Counted(Push(s, task, pin))
  {
  }

  lemma PushKeeps(s: State, task: Task, pin: Option<nat>)
    ensures Conserved(s) ==> Conserved(Push(s, task, pin))
    ensures Ordered(s) ==> Ordered(Push(s, task, pin))
    ensures Counted(s) ==> Counted(Push(s, task, pin))
  {
    PushKeepsCounts(s, task, pin);
  }

  lemma {:induction false} PushAllKeeps(s: State, tasks: seq<Task>)
    ensures Conserved(s) ==> Conserved(PushAll(s, tasks))
    ensures Ordered(s) ==> Ordered(PushAll(s, tasks))
    ensures Counted(s) ==> Counted(PushAll(s, tasks))
    decreases |tasks|
  {
    if tasks != [] {
      PushKeeps(s, tasks[0], None);
      PushAllKeeps(Push(s, tasks[0], None), tasks[1..]);
    }
  }

  lemma WithEventsKeeps(s: State, r: E.Registry)
    ensures Conserved(s) ==> Conserved(WithEvents(s, r))
    ensures Ordered(s) ==> Ordered(WithEvents(s, r))
    ensures Counted(s) ==> Counted(WithEvents(s, r))
  {
    PushAllKeeps(s.(events := r), E.Woken(s.events, r));
  }

  lemma PerformKeeps(s: State, a: Act)
    requires CanAct(s, a)
    ensures Conserved(s) ==> Conserved(Perform(s, a))
    ensures Ordered(s) ==> Ordered(Perform(s, a))
    ensures Counted(s) ==> Counted(Perform(s, a))
  {
    match a
    case Submit(task, pin) => PushKeeps(s, task, pin);
    case TimerAct(_) =>
    case EventAct(op) =>
      WithEventsKeeps(s, R.Apply(s.events, op).0);
  }

  // --------------------------------------------------------------- steps

  /** A step that moves no entry. */
  predicate Quietly(move: Move) {
    !move.Take? && !move.PostNext? && !move.DispatchNext? && !move.TaskStep? && !move.Finish?
  }

  lemma QuietFrame(c: Config, s: State, w: nat, move: Move)
    requires w < |s.workers| && CanMove(s, w, move) && Quietly(move)
    ensures var s1 := DoMove(c, s, w, move);
            && s1.queue == s.queue && s1.issued == s.issued && s1.taken == s.taken && s1.finished == s.finished
            && s1.active == s.active && |s1.workers| == |s.workers| && s1.workers == s.workers[w := s1.workers[w]]
            && !s.workers[w].pc.Running? && !s1.workers[w].pc.Running?
            && s1.idling + (if InIdle(s.workers[w]) then 1 else 0) == s.idling + if InIdle(s1.workers[w]) then 1 else 0
  {
  }

  /** A worker that goes on inside the idle fiber. */
  lemma StaysIdle(s: State, w: nat, pc: PC)
    requires w < |s.workers| && InIdle(s.workers[w]) && InIdle(s.workers[w].(pc := pc))
    ensures Conserved(s) ==> Conserved(SetPc(s, w, pc))
    ensures Ordered(s) ==> Ordered(SetPc(s, w, pc))
    ensures Counted(s) ==> Counted(SetPc(s, w, pc))
  {
    var s1 := SetPc(s, w, pc);
    assert s1 == s.(workers := s1.workers) && s1.workers == s.workers[w := s1.workers[w]];
    HeldSame(s.workers, w, s1.workers[w]);
    CountsUpdate(s.workers, w, s1.workers[w]);
    SameEntries(s, s1);
  }

  lemma SameEntries(s: State, s1: State)
    requires s1.queue == s.queue && s1.issued == s.issued && s1.taken == s.taken
    ensures Ordered(s) ==> Ordered(s1)
  {
  }

  lemma PostKeeps(c: Config, s: State, w: nat)
    requires w < |s.workers| && CanMove(s, w, PostNext)
    ensures Conserved(s) ==> Conserved(DoMove(c, s, w, PostNext))
    ensures Ordered(s) ==> Ordered(DoMove(c, s, w, PostNext))
    ensures Counted(s) ==> Counted(DoMove(c, s, w, PostNext))
  {
    var pc := s.workers[w].pc;
    var pc1 := pc.(cbs := pc.cbs[1..]);
    StaysIdle(s, w, pc1);
    PushKeeps(SetPc(s, w, pc1), CallbackTask(pc.cbs[0].value), None);
  }

  lemma DispatchKeeps(c: Config, s: State, w: nat, ok: bool)
    requires w < |s.workers| && CanMove(s, w, DispatchNext(ok))
    ensures Conserved(s) ==> Conserved(DoMove(c, s, w, DispatchNext(ok)))
    ensures Ordered(s) ==> Ordered(DoMove(c, s, w, DispatchNext(ok)))
    ensures Counted(s) ==> Counted(DoMove(c, s, w, DispatchNext(ok)))
  {
    var reports := s.workers[w].pc.reports;
    var r := E.Dispatch(s.events, reports[0], ok).0;
    StaysIdle(s, w, Dispatching(reports[1..]));
    WithEventsKeeps(SetPc(s, w, Dispatching(reports[1..])), r);
  }

  lemma TakeKeepsConserved(c: Config, s: State, w: nat)
    requires w < |s.workers| && CanMove(s, w, Take) && Conserved(s)
    ensures Conserved(DoMove(c, s, w, Take))
  {
    var s1, k := DoMove(c, s, w, Take), FirstFor(s.queue, w);
    HeldMore(s.workers, w, s1.workers[w]);
    assert s.queue == s.queue[..k] + [s.queue[k]] + s.queue[k + 1..];
    assert multiset(s.queue) == multiset(s1.queue) + multiset{s.queue[k]};
  }

  lemma FinishKeepsConserved(c: Config, s: State, w: nat)
    requires w < |s.workers| && CanMove(s, w, Finish) && Conserved(s)
    ensures Conserved(DoMove(c, s, w, Finish))
  {
    var s1 := DoMove(c, s, w, Finish);
    HeldLess(s.workers, w, s1.workers[w]);
    assert multiset(s1.finished) == multiset(s.finished) + HeldBy(s.workers[w]);
  }

  lemma MoveKeepsConserved(c: Config, s: State, w: nat, move: Move)
    requires w < |s.workers| && CanMove(s, w, move) && Conserved(s) && (Quietly(move) || move.Take? || move.Finish?)
    ensures Conserved(DoMove(c, s, w, move))
  {
    if move.Take? {
      TakeKeepsConserved(c, s, w);
    } else if move.Finish? {
      FinishKeepsConserved(c, s, w);
    } else {
      QuietFrame(c, s, w, move);
      HeldSame(s.workers, w, DoMove(c, s, w, move).workers[w]);
    }
  }

  lemma MoveKeepsCounted(c: Config, s: State, w: nat, move: Move)
    requires w < |s.workers| && CanMove(s, w, move) && Counted(s) && (Quietly(move) || move.Take? || move.Finish?)
    ensures Counted(DoMove(c, s, w, move))
  {
    var s1 := DoMove(c, s, w, move);
    CountsUpdate(s.workers, w, s1.workers[w]);
    if Quietly(move) {
      QuietFrame(c, s, w, move);
    }
  }

  lemma TakenIsFirst(s: State, w: nat, j: nat)
    requires Ordered(s) && j < |s.queue| && FirstFor(s.queue, w) < |s.queue| && j != FirstFor(s.queue, w)
    requires s.queue[j].pin == s.queue[FirstFor(s.queue, w)].pin
    ensures s.queue[FirstFor(s.queue, w)].ticket < s.queue[j].ticket
  {
    assert RunsOn(s.queue[j], w);
  }

  lemma TakeKeepsOrdered(c: Config, s: State, w: nat)
    requires w < |s.workers| && CanMove(s, w, Take) && Ordered(s)
    ensures Ordered(DoMove(c, s, w, Take))
  {
    var k := FirstFor(s.queue, w);
    var s1 := DoMove(c, s, w, Take);
    assert forall j | 0 <= j < |s1.queue| :: s1.queue[j] == s.queue[if j < k then j else j + 1];
    forall j | 0 <= j < |s1.queue| && s1.queue[j].pin == s.queue[k].pin
      ensures s.queue[k].ticket < s1.queue[j].ticket
    {
      TakenIsFirst(s, w, if j < k then j else j + 1);
    }
    TakeIsInOrder(s, s1, w, s.queue[k]);
  }

  lemma TakeIsInOrder(s: State, s1: State, w: nat, e: Entry)
    requires InOrder(s) && s1.taken == s.taken + [(w, e)] && s1.issued == s.issued && e in s.queue
    requires RunsOn(e, w) && e.ticket < |s.issued|
    requires forall j | 0 <= j < |s1.queue| :: s1.queue[j] in s.queue
    requires forall j | 0 <= j < |s1.queue| && s1.queue[j].pin == e.pin :: e.ticket < s1.queue[j].ticket
    ensures InOrder(s1)
  {
  }

  lemma MoveKeepsOrdered(c: Config, s: State, w: nat, move: Move)
    requires w < |s.workers| && CanMove(s, w, move) && Ordered(s) && (Quietly(move) || move.Take? || move.Finish?)
    ensures Ordered(DoMove(c, s, w, move))
  {
    if move.Take? {
      TakeKeepsOrdered(c, s, w);
    } else if Quietly(move) {
      QuietFrame(c, s, w, move);
    }
  }

  ghost predicate Inv(s: State) {
    Conserved(s) && Counted(s) && Ordered(s)
  }

  lemma StepKeepsCounted(c: Config, s: State, step: Step)
    requires Can(s, step) && Counted(s)
    ensures Counted(Do(c, s, step))
  {
    match step
    case Outside(a) => PerformKeeps(s, a);
    case Stop =>
    case Enter => CountsUpdate(s.workers, 0, Do(c, s, step).workers[0]);
    case Work(w, move) =>
      if move.TaskStep? {
        PerformKeeps(s, move.act);
      } else if move.PostNext? {
        PostKeeps(c, s, w);
      } else if move.DispatchNext? {
        DispatchKeeps(c, s, w, move.ok);
      } else {
        MoveKeepsCounted(c, s, w, move);
      }
  }

  lemma StepKeepsEntries(c: Config, s: State, step: Step)
    requires Can(s, step) && Conserved(s) && Ordered(s)
    ensures Conserved(Do(c, s, step)) && Ordered(Do(c, s, step))
  {
    match step
    case Outside(a) => PerformKeeps(s, a);
    case Stop =>
    case Enter => HeldSame(s.workers, 0, Do(c, s, step).workers[0]);
    case Work(w, move) =>
      if move.TaskStep? {
        PerformKeeps(s, move.act);
      } else if move.PostNext? {
        PostKeeps(c, s, w);
      } else if move.DispatchNext? {
        DispatchKeeps(c, s, w, move.ok);
      } else {
        MoveKeepsConserved(c, s, w, move);
        MoveKeepsOrdered(c, s, w, move);
      }
  }

  lemma InitInv(c: Config, s: State)
    requires Init(c, s)
    ensures Inv(s)
  {
    CountsZero(s.workers);
  }

  lemma {:induction false} RunKeepsInv(c: Config, trace: seq<State>, steps: seq<Step>, k: nat)
    requires IsRun(c, trace, steps) && k < |trace|
    ensures Inv(trace[k]) && |trace[k].workers| == c.threads
  {
    if k == 0 {
      InitInv(c, trace[0]);
    } else {
      RunKeepsInv(c, trace, steps, k - 1);
      StepKeepsCounted(c, trace[k - 1], steps[k - 1]);
      StepKeepsEntries(c, trace[k - 1], steps[k - 1]);
      WorkersFrame(c, trace[k - 1], steps[k - 1]);
    }
  }

  lemma WorkersFrame(c: Config, s: State, step: Step)
    requires Can(s, step)
    ensures |Do(c, s, step).workers| == |s.workers|
  {
    match step
    case Outside(a) => PerformFrame(s, a);
    case Work(w, move) =>
      match move {
        case TaskStep(a) => PerformFrame(s, a);
        case DispatchNext(ok) =>
          var reports := s.workers[w].pc.reports;
          var r := E.Dispatch(s.events, reports[0], ok).0;
          PushAllFrame(SetPc(s, w, Dispatching(reports[1..])).(events := r), E.Woken(s.events, r));
        case _ =>
      }
    case _ =>
  }

  /** Task conservation. In every reachable state, whatever the number of workers and the interleaving:
      scheduled = queued + held + finished; the active and idle counters are the numbers of workers that
      run a task and that are inside the idle fiber. */
  lemma TaskConservation(c: Config, s: State)
    requires Reachable(c, s)
    ensures multiset(s.issued) == multiset(s.queue) + Held(s.workers) + multiset(s.finished)
    ensures s.active == |Held(s.workers)| && s.idling == CountIdle(s.workers)
  {
    var trace, steps :| IsRun(c, trace, steps) && trace[|trace| - 1] == s;
    RunKeepsInv(c, trace, steps, |trace| - 1);
    CountsZero(s.workers);
  }

  lemma {:induction false} DistinctTickets(es: seq<Entry>, e: Entry)
    requires forall k | 0 <= k < |es| :: es[k].ticket == k
    ensures multiset(es)[e] <= 1
  {
    if es != [] {
      var last := |es| - 1;
      assert es == es[..last] + [es[last]];
      DistinctTickets(es[..last], e);
      if e == es[last] {
        assert e !in es[..last];
      }
    }
  }

  /** No entry is ever in two places: each is queued, held by one worker, or finished, and only once. */
  lemma TakenOnce(c: Config, s: State, e: Entry)
    requires Reachable(c, s)
    ensures multiset(s.queue)[e] + Held(s.workers)[e] + multiset(s.finished)[e] == (if e in s.issued then 1 else 0)
  {
    var trace, steps :| IsRun(c, trace, steps) && trace[|trace| - 1] == s;
    RunKeepsInv(c, trace, steps, |trace| - 1);
    DistinctTickets(s.issued, e);
    assert multiset(s.issued)[e] == multiset(s.queue)[e] + Held(s.workers)[e] + multiset(s.finished)[e];
  }

  /** Order of service: a pinned task is taken only by its thread; of two tasks with the same pin, or both
      without one, the one scheduled first is taken first; and no task is taken while an earlier one with
      the same pin is still queued. */
  lemma FirstComeFirstServed(c: Config, s: State, j: nat, k: nat)
    requires Reachable(c, s) && j < |s.taken|
    ensures s.taken[j].1.pin.Some? ==> s.taken[j].1.pin.value == s.taken[j].0
    ensures j < k < |s.taken| && s.taken[j].1.pin == s.taken[k].1.pin ==> s.taken[j].1.ticket < s.taken[k].1.ticket
    ensures k < |s.queue| && s.taken[j].1.pin == s.queue[k].pin ==> s.taken[j].1.ticket < s.queue[k].ticket
  {
    var trace, steps :| IsRun(c, trace, steps) && trace[|trace| - 1] == s;
    RunKeepsInv(c, trace, steps, |trace| - 1);
  }

  lemma {:induction false} IdleCounts(ws: seq<Worker>, w: nat)
    requires w < |ws|
    ensures InIdle(ws[w]) ==> CountIdle(ws) > 0
    ensures ws[w].pc.Running? ==> CountRunning(ws) > 0
  {
    if w > 0 {
      IdleCounts(ws[1..], w - 1);
    }
  }

  lemma PerformKeepsTimers(s: State, a: Act)
    requires T.Inv(s.timers) && CanAct(s, a)
    ensures T.Inv(Perform(s, a).timers)
  {
    match a
    case TimerAct(op) => T.ApplyKeepsInv(s.timers, op);
    case EventAct(op) =>
      var r := R.Apply(s.events, op).0;
      PushAllFrame(s.(events := r), E.Woken(s.events, r));
    case Submit(_, _) =>
  }

  lemma StepKeepsTimers(c: Config, s: State, step: Step)
    requires T.Inv(s.timers) && Can(s, step)
    ensures T.Inv(Do(c, s, step).timers)
  {
    match step
    case Outside(a) => PerformKeepsTimers(s, a);
    case Work(w, move) =>
      match move {
        case TaskStep(a) => PerformKeepsTimers(s, a);
        case Wake(now, _, _) => T.ApplyKeepsInv(s.timers, T.OpCollect(now));
        case DispatchNext(ok) =>
          var reports := s.workers[w].pc.reports;
          var r := E.Dispatch(s.events, reports[0], ok).0;
          PushAllFrame(SetPc(s, w, Dispatching(reports[1..])).(events := r), E.Woken(s.events, r));
        case _ =>
      }
    case _ =>
  }

  lemma {:induction false} RunKeepsTimers(c: Config, trace: seq<State>, steps: seq<Step>, k: nat)
    requires IsRun(c, trace, steps) && k < |trace|
    ensures T.Inv(trace[k].timers)
  {
    if k > 0 {
      RunKeepsTimers(c, trace, steps, k - 1);
      StepKeepsTimers(c, trace[k - 1], steps[k - 1]);
    }
  }

  /** The timer callback that a worker is about to schedule is empty, where the source fails an assertion. */
  predicate Empty(pc: PC) {
    pc.Post? && pc.cbs != [] && pc.cbs[0].None?
  }

  /** No worker ever gets stuck: in every run a worker has a step of its own exactly if it has begun, has not left, and
      is not about to schedule an empty callback. */
  lemma WorkersGoOn(c: Config, s: State, w: nat)
    requires Reachable(c, s) && w < |s.workers|
    ensures (exists move :: CanMove(s, w, move)) <==>
            var pc := s.workers[w].pc; pc != Unstarted && pc != Exited && !Empty(pc)
  {
    var trace, steps :| IsRun(c, trace, steps) && trace[|trace| - 1] == s;
    RunKeepsInv(c, trace, steps, |trace| - 1);
    RunKeepsTimers(c, trace, steps, |trace| - 1);
    IdleCounts(s.workers, w);
    var pc := s.workers[w].pc;
    if pc != Unstarted && pc != Exited && !Empty(pc) {
      var move := GoesOn(c, s, w);
    }
  }

  lemma GoesOn(c: Config, s: State, w: nat) returns (move: Move)
    requires T.Inv(s.timers) && w < |s.workers|
    requires InIdle(s.workers[w]) ==> s.idling > 0
    requires s.workers[w].pc.Running? ==> s.active > 0
    requires var pc := s.workers[w].pc; pc != Unstarted && pc != Exited && !Empty(pc)
    ensures CanMove(s, w, move)
  {
    match s.workers[w].pc
    case Scan => move := if FirstFor(s.queue, w) < |s.queue| then Take else Miss;
    case Missed => move := if s.workers[w].idle == Term then Leave else EnterIdle;
    case Running(_) => move := Finish;
    case BaseIdle => move := BaseStep;
    case Check(_) => move := Test;
    case Wait =>
      var ids := T.EmissionExists(s.timers, T.Due(s.timers, 0));
      move := Wake(0, ids, []);
    case Post(cbs, _) => move := if cbs == [] then PostDone else PostNext;
    case Dispatching(reports) => move := if reports == [] then DispatchDone else DispatchNext(false);
    case Leaving => move := Switch;
  }
}
