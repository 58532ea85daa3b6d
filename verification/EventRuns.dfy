/** What holds over whole runs of registry operations. */
module EventRuns {
  import opened Tasks
  import opened EventModel
  import M = EventModel

  datatype Op =
    | OpAdd(fd: Fd, event: Event, task: Task, ok: bool)
    | OpDel(fd: Fd, event: Event, ok: bool)
    | OpCancel(fd: Fd, event: Event, ok: bool)
    | OpCancelAll(fd: Fd, ok: bool)
    | OpDispatch(report: Report, ok: bool)
    | OpClose(fd: Fd, ok: bool)

  /** Descriptors are of type `int`. */
  predicate Enabled(s: Registry, op: Op) {
    INITIAL_SIZE <= |s.contexts| && (op.OpAdd? ==> op.fd < MAX_FD)
  }

  function Apply(s: Registry, op: Op): (Registry, Outcome)
    requires Enabled(s, op)
  {
    match op
    case OpAdd(fd, e, task, ok) => AddEvent(s, fd, e, task, ok)
    case OpDel(fd, e, ok) => DelEvent(s, fd, e, ok)
    case OpCancel(fd, e, ok) => CancelEvent(s, fd, e, ok)
    case OpCancelAll(fd, ok) => CancelAll(s, fd, ok)
    case OpDispatch(r, ok) => Dispatch(s, r, ok)
    case OpClose(fd, ok) => Close(s, fd, ok)
  }

  /** The uses of the registry that keep its invariant: events are deleted only while registered, or with
      nothing registered at all; descriptors are closed only with nothing registered, or when cancelAll
      succeeds. */
  predicate Careful(s: Registry, op: Op) {
    match op
    case OpDel(fd, e, ok) => Registered(s, fd, e) || fd >= |s.contexts| || s.contexts[fd].events == NONE || !ok
    case OpClose(fd, ok) => fd >= |s.contexts| || s.contexts[fd].events == NONE || ok
    case _ => true
  }

  /** A run in which no assertion fails. */
  ghost predicate IsRun(trace: seq<Registry>, ops: seq<Op>) {
    && |trace| == |ops| + 1
    && forall k {:trigger ops[k]} | 0 <= k < |ops| ::
         && Enabled(trace[k], ops[k])
         && Apply(trace[k], ops[k]) == (trace[k + 1], Apply(trace[k], ops[k]).1)
         && Apply(trace[k], ops[k]).1 != Aborted
  }

  ghost predicate CarefulRun(trace: seq<Registry>, ops: seq<Op>) {
    IsRun(trace, ops) && forall k {:trigger ops[k]} | 0 <= k < |ops| :: Careful(trace[k], ops[k])
  }

  lemma RunMore(trace: seq<Registry>, ops: seq<Op>, op: Op) returns (trace1: seq<Registry>, ops1: seq<Op>)
    requires CarefulRun(trace, ops) && Enabled(trace[|ops|], op) && Careful(trace[|ops|], op)
    requires Apply(trace[|ops|], op).1 != Aborted
    ensures CarefulRun(trace1, ops1) && |ops1| == |ops| + 1 && trace1[0] == trace[0]
    ensures trace1[|ops1|] == Apply(trace[|ops|], op).0
  {
    trace1, ops1 := trace + [Apply(trace[|ops|], op).0], ops + [op];
  }

  lemma StartInv(repaired: bool)
    ensures Inv(M.Start(repaired))
  {
    var s := M.Start(repaired);
    TotalFresh([], INITIAL_SIZE);
    assert [] + s.contexts == s.contexts;
  }

  /** One operation keeps the whole invariant - kernel mirror, counter, slots, fates - exactly when it is
      used carefully. */
  lemma ApplyKeepsInv(s: Registry, op: Op)
    requires Inv(s) && Enabled(s, op) && Apply(s, op).1 != Aborted
    ensures Inv(Apply(s, op).0) <==> Careful(s, op)
    ensures Apply(s, op).0.repaired == s.repaired
  {
    match op
    case OpAdd(fd, e, task, ok) => AddEventSpec(s, fd, e, task, ok);
    case OpDel(fd, e, ok) => DelEventSpec(s, fd, e, ok);
    case OpCancel(fd, e, ok) => CancelEventSpec(s, fd, e, ok);
    case OpCancelAll(fd, ok) => CancelAllSpec(s, fd, ok);
    case OpDispatch(r, ok) => DispatchSpec(s, r, ok);
    case OpClose(fd, ok) => CloseSpec(s, fd, ok);
  }

  /** In every state of a careful run the epoll interest of each descriptor equals its events, the
      pending counter is the number of registered events, and every slot agrees with its bit. */
  lemma {:induction false} RunKeepsInv(trace: seq<Registry>, ops: seq<Op>, repaired: bool, k: nat)
    requires CarefulRun(trace, ops) && trace[0] == M.Start(repaired) && k < |trace|
    ensures Inv(trace[k]) && trace[k].repaired == repaired
  {
    if k == 0 {
      StartInv(repaired);
    } else {
      RunKeepsInv(trace, ops, repaired, k - 1);
      ApplyKeepsInv(trace[k - 1], ops[k - 1]);
    }
  }

  ghost predicate Extends(s: Registry, s1: Registry) {
    s.issued <= s1.issued && s.log <= s1.log && s.dropped <= s1.dropped
  }

  lemma ExtendsTransitive(s: Registry, s1: Registry, s2: Registry)
    requires Extends(s, s1) && Extends(s1, s2)
    ensures Extends(s, s2)
  {
    assert s2.issued == s.issued + s1.issued[|s.issued|..] + s2.issued[|s1.issued|..];
    assert s2.log == s.log + s1.log[|s.log|..] + s2.log[|s1.log|..];
    assert s2.dropped == s.dropped + s1.dropped[|s.dropped|..] + s2.dropped[|s1.dropped|..];
  }

  lemma ApplyExtends(s: Registry, op: Op)
    requires Inv(s) && Enabled(s, op) && Apply(s, op).1 != Aborted
    ensures Extends(s, Apply(s, op).0)
  {
    match op
    case OpAdd(fd, e, task, ok) => AddEventSpec(s, fd, e, task, ok);
    case OpDel(fd, e, ok) => DelEventSpec(s, fd, e, ok);
    case OpCancel(fd, e, ok) => CancelEventSpec(s, fd, e, ok);
    case OpCancelAll(fd, ok) => CancelAllSpec(s, fd, ok);
    case OpDispatch(r, ok) => DispatchSpec(s, r, ok);
    case OpClose(fd, ok) => CloseSpec(s, fd, ok);
  }

  lemma StepExtends(trace: seq<Registry>, ops: seq<Op>, repaired: bool, k: nat)
    requires CarefulRun(trace, ops) && trace[0] == M.Start(repaired) && k < |ops|
    ensures Extends(trace[k], trace[k + 1])
  {
    RunKeepsInv(trace, ops, repaired, k);
    ApplyExtends(trace[k], ops[k]);
  }

  /** History only grows. */
  lemma {:induction false} HistoryGrows(trace: seq<Registry>, ops: seq<Op>, repaired: bool, j: nat, k: nat)
    requires CarefulRun(trace, ops) && trace[0] == M.Start(repaired) && j <= k < |trace|
    ensures Extends(trace[j], trace[k])
    decreases k
  {
    if j < k {
      HistoryGrows(trace, ops, repaired, j, k - 1);
      StepExtends(trace, ops, repaired, k - 1);
      ExtendsTransitive(trace[j], trace[k - 1], trace[k]);
    }
  }

  /** Exactly-once wakeup. A registration that was issued by step `j` is, at every later step `k`, in
      exactly one of three conditions: still live and never handed to the scheduler, handed over exactly
      once and not deleted, or deleted and never handed over. Once it has ended it never again becomes
      live, and is never handed over again. */
  lemma ExactlyOnce(trace: seq<Registry>, ops: seq<Op>, repaired: bool, j: nat, k: nat, token: nat)
    requires CarefulRun(trace, ops) && trace[0] == M.Start(repaired)
    requires j <= k < |trace| && token < |trace[j].issued|
    ensures token < |trace[k].issued| && trace[k].issued[token] == trace[j].issued[token]
    ensures var wakes, drops := multiset(trace[k].log)[token], multiset(trace[k].dropped)[token];
            (Live(trace[k], token) && wakes == 0 && drops == 0) ||
            (!Live(trace[k], token) && wakes == 1 && drops == 0) ||
            (!Live(trace[k], token) && wakes == 0 && drops == 1)
    ensures !Live(trace[j], token) ==>
              !Live(trace[k], token) && multiset(trace[k].log)[token] == multiset(trace[j].log)[token]
  {
    HistoryGrows(trace, ops, repaired, j, k);
    RunKeepsInv(trace, ops, repaired, j);
    RunKeepsInv(trace, ops, repaired, k);
    EndsOnce(trace[j], trace[k], token);
  }

  lemma EndsOnce(s: Registry, s1: Registry, token: nat)
    requires Inv(s) && Inv(s1) && Extends(s, s1) && token < |s.issued|
    ensures token < |s1.issued| && s1.issued[token] == s.issued[token]
    ensures multiset(s1.log)[token] + multiset(s1.dropped)[token] + (if Live(s1, token) then 1 else 0) == 1
    ensures !Live(s, token) ==> !Live(s1, token) && multiset(s1.log)[token] == multiset(s.log)[token]
  {
    assert FateInv(s, token) && FateInv(s1, token);
    assert s1.log == s.log + s1.log[|s.log|..] && s1.dropped == s.dropped + s1.dropped[|s.dropped|..];
  }

  /** How each way of ending a registration shows in the log: readiness, cancelEvent, cancelAll and close
      append the tokens of the events they end, delEvent appends nothing. */
  lemma HowItEnds(s: Registry, op: Op)
    requires Inv(s) && Enabled(s, op) && Apply(s, op).1 == Succeeded
    ensures var s1 := Apply(s, op).0;
            match op
            case OpAdd(_, _, _, _) => s1.log == s.log
            case OpDel(_, _, _) => s1.log == s.log
            case OpCancel(fd, e, _) => s1.log == s.log + [SlotOf(s.contexts[fd], e).token]
            case OpCancelAll(fd, _) => s1.log == s.log + TokensOf(s.contexts[fd], s.contexts[fd].events)
            case OpDispatch(r, _) =>
              s1.log == s.log + TokensOf(s.contexts[r.fd], if r.hangup then s.contexts[r.fd].events else r.ready)
            case OpClose(fd, _) => s1.log == s.log + TokensOf(s.contexts[fd], s.contexts[fd].events)
  {
    match op
    case OpAdd(fd, e, task, ok) => AddEventSpec(s, fd, e, task, ok);
    case OpDel(fd, e, ok) => DelEventSpec(s, fd, e, ok);
    case OpCancel(fd, e, ok) => CancelEventSpec(s, fd, e, ok);
    case OpCancelAll(fd, ok) => CancelAllSpec(s, fd, ok);
    case OpDispatch(r, ok) => DispatchSpec(s, r, ok);
    case OpClose(fd, ok) => CloseSpec(s, fd, ok);
  }

  // ------------------------------------------- the slot as the code leaves it

  /** Of the successful addEvent and delEvent calls on this event so far, the last was addEvent. */
  ghost predicate LastWasAdd(trace: seq<Registry>, ops: seq<Op>, fd: Fd, e: Event, k: nat)
    requires IsRun(trace, ops) && k < |trace|
  {
    if k == 0 then
      false
    else if Apply(trace[k - 1], ops[k - 1]).1 != Succeeded then
      LastWasAdd(trace, ops, fd, e, k - 1)
    else
      match ops[k - 1]
      case OpAdd(fd', e', _, _) => (fd' == fd && e' == e) || LastWasAdd(trace, ops, fd, e, k - 1)
      case OpDel(fd', e', _) => !(fd' == fd && e' == e) && LastWasAdd(trace, ops, fd, e, k - 1)
      case _ => LastWasAdd(trace, ops, fd, e, k - 1)
  }

  predicate Occupied(s: Registry, fd: Fd, e: Event) {
    fd < |s.contexts| && Holds(SlotOf(s.contexts[fd], e))
  }

  lemma TriggerLeavesSlots(s: Registry, fd: Fd, m: Mask, fd': Fd, e: Event)
    requires !s.repaired && fd < |s.contexts| && SlotInv(s, fd, READ) && SlotInv(s, fd, WRITE)
    requires TriggerEach(s, fd, m).1 != Aborted
    ensures Occupied(TriggerEach(s, fd, m).0, fd', e) <==> Occupied(s, fd', e)
  {
  }

  lemma AddOccupies(s: Registry, fd: Fd, e: Event, task: Task, fd': Fd, e': Event)
    requires INITIAL_SIZE <= |s.contexts| && fd < MAX_FD
    ensures Occupied(Grow(s, fd), fd', e') <==> Occupied(s, fd', e')
    ensures AddEvent(s, fd, e, task, true).1 == Succeeded ==>
              (Occupied(AddEvent(s, fd, e, task, true).0, fd', e') <==> (fd' == fd && e' == e) || Occupied(s, fd', e'))
  {
  }

  lemma EndOccupies(s: Registry, op: Op, fd: Fd, e: Event)
    requires Inv(s) && !s.repaired && Enabled(s, op) && Apply(s, op).1 == Succeeded
    requires op.OpCancel? || op.OpCancelAll? || op.OpClose?
    ensures Occupied(Apply(s, op).0, fd, e) <==> Occupied(s, fd, e)
  {
    var m := if op.OpCancel? then Only(op.event) else s.contexts[op.fd].events;
    assert SlotInv(s, op.fd, READ) && SlotInv(s, op.fd, WRITE);
    TriggerLeavesSlots(Controlled(s, op.fd, M.Minus(s.contexts[op.fd].events, m)), op.fd, m, fd, e);
  }

  lemma DispatchOccupies(s: Registry, r: Report, ok: bool, fd: Fd, e: Event)
    requires Inv(s) && !s.repaired && Dispatch(s, r, ok).1 == Succeeded
    ensures Occupied(Dispatch(s, r, ok).0, fd, e) <==> Occupied(s, fd, e)
  {
    var events := s.contexts[r.fd].events;
    var m := RealEvents(events, r);
    assert SlotInv(s, r.fd, READ) && SlotInv(s, r.fd, WRITE);
    TriggerLeavesSlots(Controlled(s, r.fd, M.Minus(events, m)), r.fd, m, fd, e);
  }

  lemma ApplyOccupies(s: Registry, op: Op, fd: Fd, e: Event)
    requires Inv(s) && !s.repaired && Enabled(s, op) && Apply(s, op).1 != Aborted
    ensures Occupied(Apply(s, op).0, fd, e) <==>
            if Apply(s, op).1 != Succeeded then Occupied(s, fd, e)
            else match op
                 case OpAdd(fd', e', _, _) => (fd' == fd && e' == e) || Occupied(s, fd, e)
                 case OpDel(fd', e', _) => !(fd' == fd && e' == e) && Occupied(s, fd, e)
                 case _ => Occupied(s, fd, e)
  {
    if op.OpAdd? {
      AddOccupies(s, op.fd, op.event, op.task, fd, e);
    } else if op.OpDispatch? {
      if Apply(s, op).1 == Succeeded {
        DispatchOccupies(s, op.report, op.ok, fd, e);
      }
    } else if !op.OpDel? && Apply(s, op).1 == Succeeded {
      EndOccupies(s, op, fd, e);
    }
  }

  /** As the code is written, an event can be waited for only once: in any careful run, the next addEvent
      that the kernel accepts fails its assertion exactly when the last successful addEvent or delEvent on
      that event was an addEvent, even if that registration has long been triggered. */
  lemma {:induction false} SecondWaitAborts(trace: seq<Registry>, ops: seq<Op>, fd: Fd, e: Event, k: nat, task: Task)
    requires CarefulRun(trace, ops) && trace[0] == M.Start(false) && k < |trace| && fd < MAX_FD
    ensures INITIAL_SIZE <= |trace[k].contexts|
    ensures AddEvent(trace[k], fd, e, task, true).1 == Aborted <==> LastWasAdd(trace, ops, fd, e, k)
  {
    RunKeepsInv(trace, ops, false, k);
    AddEventSpec(trace[k], fd, e, task, true);
    OccupiedSinceAdd(trace, ops, fd, e, k);
  }

  lemma {:induction false} OccupiedSinceAdd(trace: seq<Registry>, ops: seq<Op>, fd: Fd, e: Event, k: nat)
    requires CarefulRun(trace, ops) && trace[0] == M.Start(false) && k < |trace|
    ensures Occupied(trace[k], fd, e) <==> LastWasAdd(trace, ops, fd, e, k)
    decreases k
  {
    if k > 0 {
      OccupiedSinceAdd(trace, ops, fd, e, k - 1);
      StepOccupies(trace, ops, fd, e, k - 1);
    }
  }

  lemma StepOccupies(trace: seq<Registry>, ops: seq<Op>, fd: Fd, e: Event, k: nat)
    requires CarefulRun(trace, ops) && trace[0] == M.Start(false) && k < |ops|
    requires Occupied(trace[k], fd, e) <==> LastWasAdd(trace, ops, fd, e, k)
    ensures Occupied(trace[k + 1], fd, e) <==> LastWasAdd(trace, ops, fd, e, k + 1)
  {
    RunKeepsInv(trace, ops, false, k);
    ApplyOccupies(trace[k], ops[k], fd, e);
  }

  /** The shortest such run: an event is waited for once, cancelled, and waited for again. */
  lemma WaitedForTwice(fiber: FiberId) returns (trace: seq<Registry>, ops: seq<Op>)
    ensures ops == [OpAdd(5, READ, FiberTask(fiber), true), OpCancel(5, READ, true)]
    ensures CarefulRun(trace, ops) && trace[0] == M.Start(false)
    ensures trace[2].log == [0] && !Registered(trace[2], 5, READ) && INITIAL_SIZE <= |trace[2].contexts|
    ensures AddEvent(trace[2], 5, READ, FiberTask(fiber), true).1 == Aborted
  {
    var r1, r2 := AddAndCancel(fiber);
    trace, ops := [M.Start(false), r1, r2], [OpAdd(5, READ, FiberTask(fiber), true), OpCancel(5, READ, true)];
    assert Apply(trace[0], ops[0]) == (r1, Succeeded) && Apply(r1, ops[1]) == (r2, Succeeded);
    SecondWaitAborts(trace, ops, 5, READ, 2, FiberTask(fiber));
    assert LastWasAdd(trace, ops, 5, READ, 1);
  }

  lemma AddAndCancel(fiber: FiberId) returns (r1: Registry, r2: Registry)
    ensures AddEvent(M.Start(false), 5, READ, FiberTask(fiber), true) == (r1, Succeeded)
    ensures Inv(r1) && INITIAL_SIZE <= |r1.contexts| && CancelEvent(r1, 5, READ, true) == (r2, Succeeded)
    ensures r2.log == [0] && !Registered(r2, 5, READ) && INITIAL_SIZE <= |r2.contexts|
  {
    r1 := AddEvent(M.Start(false), 5, READ, FiberTask(fiber), true).0;
    r2 := CancelEvent(r1, 5, READ, true).0;
    StartInv(false);
    AddEventSpec(M.Start(false), 5, READ, FiberTask(fiber), true);
    CancelEventSpec(r1, 5, READ, true);
  }

  /** Reports that come in behind those that are left. */
  lemma Joined(got: seq<Report>, done: seq<Report>, left: seq<Report>, got1: seq<Report>,
               done1: seq<Report>, left1: seq<Report>)
    requires got == done + left && left + got1 == done1 + left1
    ensures got + got1 == done + done1 + left1
  {
    assert got + got1 == done + (left + got1);
  }
}
