/**
 Fibers of one thread as a value: what resume and yield do to the fiber states, the current-fiber pointer
 and the saved contexts.

 `cpu` is the fiber whose code is executing; `context` of a fiber is the execution that its m_ctx holds.
 swapcontext stores the execution on the processor, whoever that is, in one context and continues the
 other. `chain` lists the resume calls that have not returned, outermost first.
 */
module FiberModel {
  import opened Tasks

  datatype FiberState = READY | RUNNING | TERM

  datatype Fiber = Fiber(state: FiberState, inScheduler: bool, context: FiberId)

  /** `current` is t_fiber, `main` is t_thread_fiber, `scheduler` is t_scheduler_fiber: the main fiber of a
      pool thread, the root fiber of the calling thread. */
  datatype Thread = Thread(
    fibers: map<FiberId, Fiber>,
    current: FiberId,
    main: FiberId,
    scheduler: FiberId,
    cpu: FiberId,
    chain: seq<FiberId>,
    returned: bool)  // the last switch was a yield

  /** A thread whose main fiber doubles as its scheduler fiber. */
  function PoolThread(main: FiberId): Thread {
    Thread(map[main := Fiber(RUNNING, false, main)], main, main, main, main, [main], false)
  }

  /** The calling thread, with a root fiber that does not take part in scheduling. */
  function CallerThread(main: FiberId, root: FiberId): Thread
    requires main != root
  {
    Thread(map[main := Fiber(RUNNING, false, main), root := Fiber(READY, false, root)],
           main, main, root, main, [main], false)
  }

  predicate Formed(t: Thread) {
    t.main in t.fibers && t.scheduler in t.fibers
  }

  /** The fiber that resume and yield of `f` swap with. */
  function Partner(t: Thread, f: FiberId): FiberId
    requires f in t.fibers
  {
    if t.fibers[f].inScheduler then t.scheduler else t.main
  }

  function Swap(t: Thread, save: FiberId, load: FiberId): Thread
    requires save in t.fibers && load in t.fibers
  {
    t.(fibers := t.fibers[save := t.fibers[save].(context := t.cpu)], cpu := t.fibers[load].context)
  }

  function SetState(t: Thread, f: FiberId, state: FiberState): Thread
    requires f in t.fibers
  {
    t.(fibers := t.fibers[f := t.fibers[f].(state := state)])
  }

  /** None when an assertion fails. */
  function Resume(t: Thread, f: FiberId): Option<Thread>
    requires Formed(t) && f in t.fibers
  {
    if t.fibers[f].state != READY then
      None
    else
      var t1 := SetState(t, f, RUNNING).(current := f, chain := t.chain + [f], returned := false);
      Some(Swap(t1, Partner(t, f), f))
  }

  function Yield(t: Thread, f: FiberId): Option<Thread>
    requires Formed(t) && f in t.fibers && t.chain != []
  {
    if t.fibers[f].state == READY then
      None
    else
      var t1 := if t.fibers[f].state == TERM then t else SetState(t, f, READY);
      var t2 := t1.(current := t.main, chain := t.chain[..|t.chain| - 1], returned := true);
      Some(Swap(t2, f, Partner(t, f)))
  }

  /** The end of MainFunc: the callback has returned. */
  function Finish(t: Thread, f: FiberId): Option<Thread>
    requires Formed(t) && f in t.fibers && t.chain != []
  {
    Yield(SetState(t, f, TERM), f)
  }

  function Reset(t: Thread, f: FiberId): Option<Thread>
    requires f in t.fibers
  {
    if t.fibers[f].state != TERM then None
    else Some(t.(fibers := t.fibers[f := t.fibers[f].(state := READY, context := f)]))
  }

  function Create(t: Thread, f: FiberId, inScheduler: bool): Option<Thread>
    requires f !in t.fibers
  {
    Some(t.(fibers := t.fibers[f := Fiber(READY, inScheduler, f)]))
  }

  // ------------------------------------------------------------ invariant

  function Last(chain: seq<FiberId>): FiberId
    requires chain != []
  {
    chain[|chain| - 1]
  }

  ghost predicate Inv(t: Thread) {
    && Formed(t)
    && t.chain != [] && t.chain[0] == t.main && t.cpu == Last(t.chain)
    && (forall i | 0 <= i < |t.chain| :: t.chain[i] in t.fibers)
    && (forall i | 0 < i < |t.chain| :: t.chain[i - 1] == Partner(t, t.chain[i]))
    && (forall f | f in t.fibers :: t.fibers[f].context == f && (t.fibers[f].state == RUNNING <==> f in t.chain))
    && !t.fibers[t.main].inScheduler && !t.fibers[t.scheduler].inScheduler
    && (forall i, j | 0 <= i < j < |t.chain| :: t.chain[i] != t.chain[j])
    && t.current == (if t.returned then t.main else t.cpu)
    && (t.returned ==> t.cpu == t.main || t.cpu == t.scheduler)
  }

  datatype Op =
    | OpCreate(f: FiberId, inScheduler: bool)
    | OpResume(f: FiberId)
    | OpYield
    | OpFinish
    | OpReset(f: FiberId)

  predicate Enabled(t: Thread, op: Op) {
    && Formed(t)
    && match op
       case OpCreate(f, _) => f !in t.fibers
       case OpResume(f) => f in t.fibers
       case OpReset(f) => f in t.fibers
       case _ => t.cpu in t.fibers && t.chain != []
  }

  /** Operations are performed by the code on the processor; a fiber yields or ends only itself. */
  function Apply(t: Thread, op: Op): Option<Thread>
    requires Enabled(t, op)
  {
    match op
    case OpCreate(f, inScheduler) => Create(t, f, inScheduler)
    case OpResume(f) => Resume(t, f)
    case OpYield => Yield(t, t.cpu)
    case OpFinish => Finish(t, t.cpu)
    case OpReset(f) => Reset(t, f)
  }

  /** The discipline: scheduler fibers are resumed from the scheduler fiber only, the root fiber from the
      main fiber only, and the main fiber does not yield. */
  predicate Disciplined(t: Thread, op: Op) {
    match op
    case OpResume(f) => f in t.fibers && t.cpu == Partner(t, f)
    case OpYield => t.cpu != t.main
    case OpFinish => t.cpu != t.main
    case _ => true
  }

  lemma ResumeKeeps(t: Thread, f: FiberId)
    requires Inv(t) && f in t.fibers && t.fibers[f].state == READY
    ensures Inv(Resume(t, f).value) <==> t.cpu == Partner(t, f)
  {
    var t1 := Resume(t, f).value;
    var p := Partner(t, f);
    if t.cpu == p {
      ResumedKeeps(t, f);
    } else {
      assert t1.fibers[p].context == t.cpu;
    }
  }

  /** The state in which `f` runs, resumed by the fiber on the processor. */
  function Entered(t: Thread, f: FiberId): Thread
    requires f in t.fibers
  {
    t.(fibers := t.fibers[f := t.fibers[f].(state := RUNNING)], cpu := f, current := f, chain := t.chain + [f],
       returned := false)
  }

  lemma EnteredChain(t: Thread, f: FiberId)
    requires Inv(t) && f in t.fibers && f !in t.chain && t.cpu == Partner(t, f)
    ensures var t1 := Entered(t, f);
            && (forall i | 0 < i < |t1.chain| ::
                  t1.chain[i] in t1.fibers && t1.chain[i - 1] == Partner(t1, t1.chain[i]))
            && (forall i, j | 0 <= i < j < |t1.chain| :: t1.chain[i] != t1.chain[j])
            && t1.chain[0] == t.main && Last(t1.chain) == f && (forall g :: g in t1.chain <==> g in t.chain || g == f)
  {
    var t1, n := Entered(t, f), |t.chain|;
    assert t1.chain[n] == f && forall i | 0 <= i < n :: t1.chain[i] == t.chain[i] && t1.chain[i] in t.chain;
    forall i | 0 < i <= n ensures t1.chain[i] in t1.fibers && t1.chain[i - 1] == Partner(t1, t1.chain[i]) {
      assert i < n ==> t.chain[i - 1] == Partner(t, t.chain[i]);
    }
    forall i, j | 0 <= i < j <= n ensures t1.chain[i] != t1.chain[j] {
      assert j < n ==> t.chain[i] != t.chain[j];
    }
  }

  lemma EnteredKeeps(t: Thread, f: FiberId)
    requires Inv(t) && f in t.fibers && t.fibers[f].state == READY && t.cpu == Partner(t, f)
    ensures Inv(Entered(t, f))
  {
    assert f !in t.chain;
    EnteredChain(t, f);
    var t1 := Entered(t, f);
    forall g | g in t1.fibers ensures t1.fibers[g].context == g && (t1.fibers[g].state == RUNNING <==> g in t1.chain) {
    }
  }

  lemma ResumedKeeps(t: Thread, f: FiberId)
    requires Inv(t) && f in t.fibers && t.fibers[f].state == READY && t.cpu == Partner(t, f)
    ensures Resume(t, f) == Some(Entered(t, f)) && Inv(Entered(t, f))
  {
    assert f !in t.chain && f != t.cpu;
    EnteredKeeps(t, f);
    assert Resume(t, f).value.fibers == Entered(t, f).fibers;
  }

  /** Whoever is on the processor was resumed by the fiber before it in the chain. */
  lemma Resumer(t: Thread, f: FiberId)
    requires Inv(t) && f == t.cpu && f != t.main
    ensures f in t.fibers && |t.chain| > 1 && t.chain[|t.chain| - 2] == Partner(t, f) && Partner(t, f) != f
    ensures t.fibers[f].state == RUNNING
    ensures forall g :: g in t.chain[..|t.chain| - 1] <==> g in t.chain && g != f
  {
    var n := |t.chain|;
    assert f == t.chain[n - 1] && n > 1;
    assert forall g :: g in t.chain <==> g == f || g in t.chain[..n - 1];
  }

  /** The state in which `f` has gone back to its resumer, as `state`. */
  function Left(t: Thread, f: FiberId, state: FiberState): Thread
    requires f in t.fibers && t.chain != []
  {
    t.(fibers := t.fibers[f := t.fibers[f].(state := state)], cpu := Partner(t, f), current := t.main,
       chain := t.chain[..|t.chain| - 1], returned := true)
  }

  lemma LeftKeeps(t: Thread, f: FiberId, state: FiberState)
    requires Inv(t) && f == t.cpu && f != t.main && state != RUNNING
    ensures Inv(Left(t, f, state))
  {
    Resumer(t, f);
    var t1 := Left(t, f, state);
    assert forall i | 0 <= i < |t1.chain| :: t1.chain[i] == t.chain[i] && t1.chain[i] in t.chain;
  }

  lemma YieldKeeps(t: Thread, f: FiberId)
    requires Inv(t) && f == t.cpu && f != t.main
    ensures Yield(t, f) == Some(Left(t, f, READY)) && Inv(Left(t, f, READY))
  {
    Resumer(t, f);
    LeftKeeps(t, f, READY);
    assert Yield(t, f).value.fibers == Left(t, f, READY).fibers;
  }

  lemma FinishKeeps(t: Thread, f: FiberId)
    requires Inv(t) && f == t.cpu && f != t.main
    ensures Finish(t, f) == Some(Left(t, f, TERM)) && Inv(Left(t, f, TERM))
  {
    Resumer(t, f);
    LeftKeeps(t, f, TERM);
    assert Finish(t, f).value.fibers == Left(t, f, TERM).fibers;
  }

  /** A step keeps the switch invariant; a resume does so exactly when it follows the discipline. */
  lemma ApplyKeepsInv(t: Thread, op: Op)
    requires Inv(t) && Enabled(t, op) && Apply(t, op).Some?
    ensures Disciplined(t, op) ==> Inv(Apply(t, op).value)
    ensures op.OpResume? && !Disciplined(t, op) ==> !Inv(Apply(t, op).value)
  {
    match op
    case OpResume(f) => ResumeKeeps(t, f);
    case OpYield => if t.cpu != t.main { YieldKeeps(t, t.cpu); }
    case OpFinish => if t.cpu != t.main { FinishKeeps(t, t.cpu); }
    case _ =>
  }

  /** Which fiber states each operation asserts. */
  lemma WhenAssertionsHold(t: Thread, op: Op)
    requires Inv(t) && Enabled(t, op)
    ensures op.OpCreate? ==> Apply(t, op).Some?
    ensures op.OpResume? ==> (Apply(t, op).Some? <==> t.fibers[op.f].state != TERM && op.f !in t.chain)
    ensures op.OpReset? ==> (Apply(t, op).Some? <==> t.fibers[op.f].state == TERM)
    ensures op.OpYield? || op.OpFinish? ==> Apply(t, op).Some?
  {
    assert t.fibers[t.cpu].state == RUNNING;
    if op.OpResume? {
      assert t.fibers[op.f].state == RUNNING <==> op.f in t.chain;
    }
  }

  /** A fiber that has just been made, or used again after its end, can be run from its partner: it gets the
      processor, and when it ends its partner goes on. */
  lemma NewFiberRuns(t: Thread, op: Op, f: FiberId)
    requires Inv(t) && Enabled(t, op) && Apply(t, op).Some?
    requires (op.OpCreate? || op.OpReset?) && op.f == f
    ensures var t1 := Apply(t, op).value;
            && Inv(t1) && t1.cpu == t.cpu && f in t1.fibers && f !in t1.chain
            && (op.OpCreate? ==> t1.fibers[f].inScheduler == op.inScheduler)
            && (t1.cpu == Partner(t1, f) ==>
                  && Resume(t1, f).Some?
                  && var t2 := Resume(t1, f).value;
                  && Inv(t2) && t2.cpu == f && t2.current == f && t2.chain == t1.chain + [f]
                  && Finish(t2, f).Some?
                  && var t3 := Finish(t2, f).value;
                  && t3.cpu == t.cpu && t3.chain == t.chain && f in t3.fibers && t3.fibers[f].state == TERM)
  {
    ApplyKeepsInv(t, op);
    var t1 := Apply(t, op).value;
    assert t1.fibers[f].state == READY;
    if t1.cpu == Partner(t1, f) {
      RunsAndEnds(t1, f);
    }
  }

  lemma RunsAndEnds(t: Thread, f: FiberId)
    requires Inv(t) && f in t.fibers && t.fibers[f].state == READY && t.cpu == Partner(t, f)
    ensures Resume(t, f).Some?
    ensures var t1 := Resume(t, f).value;
            && Inv(t1) && t1.cpu == f && t1.current == f && t1.chain == t.chain + [f]
            && Finish(t1, f).Some?
            && var t2 := Finish(t1, f).value;
            && t2.cpu == t.cpu && t2.chain == t.chain && f in t2.fibers && t2.fibers[f].state == TERM
  {
    ResumeKeeps(t, f);
    var t1 := Resume(t, f).value;
    assert t1.fibers[f].context == f && f != t.main;
    FinishKeeps(t1, f);
    assert t1.chain[..|t1.chain| - 1] == t.chain;
  }

  /** The root fiber of the calling thread can be run by its main fiber. */
  lemma RootRuns(main: FiberId, root: FiberId)
    requires main != root
    ensures var t := CallerThread(main, root);
            Resume(t, root).Some? && Resume(t, root).value.cpu == root && Inv(Resume(t, root).value)
  {
    StartInv(main, root);
    RunsAndEnds(CallerThread(main, root), root);
  }

  // ----------------------------------------------------------------- runs

  ghost predicate IsRun(trace: seq<Thread>, ops: seq<Op>) {
    && |trace| == |ops| + 1 && Inv(trace[0])
    && forall k {:trigger ops[k]} | 0 <= k < |ops| ::
         Enabled(trace[k], ops[k]) && Disciplined(trace[k], ops[k]) && Apply(trace[k], ops[k]) == Some(trace[k + 1])
  }

  lemma StartInv(main: FiberId, root: FiberId)
    ensures Inv(PoolThread(main))
    ensures main != root ==> Inv(CallerThread(main, root))
  {
  }

  lemma {:induction false} RunKeepsInv(trace: seq<Thread>, ops: seq<Op>, k: nat)
    requires IsRun(trace, ops) && k < |trace|
    ensures Inv(trace[k])
  {
    if k > 0 {
      RunKeepsInv(trace, ops, k - 1);
      ApplyKeepsInv(trace[k - 1], ops[k - 1]);
    }
  }

  /** A fiber that has ended is never run again unless it is used again. */
  lemma {:induction false} EndedStaysEnded(trace: seq<Thread>, ops: seq<Op>, f: FiberId, j: nat, k: nat)
    requires IsRun(trace, ops) && j <= k < |trace|
    requires f in trace[j].fibers && trace[j].fibers[f].state == TERM
    requires forall m | j <= m < k :: ops[m] != OpReset(f)
    ensures f in trace[k].fibers && trace[k].fibers[f].state == TERM && f !in trace[k].chain
    decreases k
  {
    RunKeepsInv(trace, ops, k);
    if j < k {
      EndedStaysEnded(trace, ops, f, j, k - 1);
      RunKeepsInv(trace, ops, k - 1);
      var op := ops[k - 1];
      assert Enabled(trace[k - 1], op) && Apply(trace[k - 1], op) == Some(trace[k]);
      assert trace[k - 1].cpu in trace[k - 1].chain;
    }
  }

  lemma {:induction false} ChainPrefix(trace: seq<Thread>, ops: seq<Op>, j: nat, k: nat)
    requires IsRun(trace, ops) && j <= k < |trace|
    requires forall m | j < m < k :: |trace[j].chain| < |trace[m].chain|
    requires j < k ==> |trace[j].chain| <= |trace[k].chain|
    ensures trace[j].chain <= trace[k].chain
    decreases k
  {
    if j < k {
      assert j < k - 1 ==> |trace[j].chain| < |trace[k - 1].chain|;
      ChainPrefix(trace, ops, j, k - 1);
      var op := ops[k - 1];
      assert Apply(trace[k - 1], op) == Some(trace[k]);
    }
  }

  /** Every yield returns to the fiber that did the matching resume: if the resume of step `j` is still
      unreturned up to step `k` and returned after it, then the fiber that goes on running is the one that
      called resume. */
  lemma YieldReturnsToResumer(trace: seq<Thread>, ops: seq<Op>, j: nat, k: nat)
    requires IsRun(trace, ops) && j < k < |ops| && ops[j].OpResume?
    requires forall m | j < m <= k :: |trace[j].chain| < |trace[m].chain|
    requires |trace[k + 1].chain| == |trace[j].chain|
    ensures trace[k + 1].cpu == trace[j].cpu && trace[k + 1].chain == trace[j].chain
  {
    ChainPrefix(trace, ops, j, k + 1);
    RunKeepsInv(trace, ops, j);
    RunKeepsInv(trace, ops, k + 1);
  }

  lemma InnerIsScheduler(t: Thread, i: nat)
    requires Inv(t) && 0 < i < |t.chain| - 1
    ensures t.chain[i] == t.scheduler
  {
    assert t.chain[i + 1 - 1] == Partner(t, t.chain[i + 1]);
  }

  /** The running fibers are exactly the resume chain, which is at most main, root and one more; and
      GetThis names the fiber on the processor except after a return to a root fiber, where it names the
      main fiber. */
  lemma RunningIsChain(trace: seq<Thread>, ops: seq<Op>, k: nat)
    requires IsRun(trace, ops) && k < |trace|
    ensures var t := trace[k];
            && (forall f | f in t.fibers :: t.fibers[f].state == RUNNING <==> f in t.chain)
            && t.chain != [] && t.chain[0] == t.main && t.cpu == Last(t.chain) && |t.chain| <= 3
            && (|t.chain| == 3 ==> t.chain[1] == t.scheduler)
            && (t.current == t.cpu <==> !(t.returned && t.cpu == t.scheduler && t.scheduler != t.main))
            && (t.current != t.cpu ==> t.current == t.main)
            && (t.cpu in t.fibers && t.fibers[t.cpu].inScheduler ==> t.current == t.cpu)
  {
    RunKeepsInv(trace, ops, k);
    var t := trace[k];
    if |t.chain| > 2 {
      InnerIsScheduler(t, 1);
    }
    if |t.chain| > 3 {
      InnerIsScheduler(t, 2);
    }
  }

  /** What happens without the discipline: a task that resumes another scheduler fiber gets the processor
      back from it, but can then no longer yield to the scheduler: its own yield returns to itself. */
  lemma NestedResumeIsLost(t: Thread, f: FiberId, g: FiberId)
    requires Inv(t) && f in t.fibers && g in t.fibers && f != g && t.cpu == t.scheduler
    requires t.fibers[f] == Fiber(READY, true, f) && t.fibers[g] == Fiber(READY, true, g)
    ensures Resume(t, f).Some?
    ensures var t1 := Resume(t, f).value;
            && Formed(t1) && t1.cpu == f && Resume(t1, g).Some?
            && var t2 := Resume(t1, g).value;
            && Formed(t2) && t2.cpu == g && Yield(t2, g).Some?
            && var t3 := Yield(t2, g).value;
            && Formed(t3) && t3.cpu == f && t3.chain != [] && Yield(t3, f).Some?
            && Yield(t3, f).value.cpu == f
  {
  }
}
