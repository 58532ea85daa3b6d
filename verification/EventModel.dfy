/**
 The registry of pending descriptor events as a value: the specification of module Events.

 The kernel appears as its interest map and as a boolean `ok` given to every operation that calls
 epoll_ctl: whether the kernel accepts a legal request. An illegal request is always refused.
 A failed C assertion ends the program: outcome Aborted.

 Each successful addEvent gets a fresh token. `log` lists the tokens in the order in which their tasks
 were handed to the scheduler, `dropped` those that delEvent removed.
 */
module EventModel {
  import opened Words
  import opened Tasks

  datatype Event = READ | WRITE

  datatype Mask = Mask(read: bool, write: bool)

  const NONE := Mask(false, false)

  /** IOManager::READ is 0x1 and IOManager::WRITE is 0x4, as for epoll. */
  function Code(e: Event): bv8 {
    match e
    case READ => 1
    case WRITE => 4
  }

  predicate Has(m: Mask, e: Event) {
    match e
    case READ => m.read
    case WRITE => m.write
  }

  function With(m: Mask, e: Event): Mask {
    match e
    case READ => m.(read := true)
    case WRITE => m.(write := true)
  }

  function Without(m: Mask, e: Event): Mask {
    match e
    case READ => m.(read := false)
    case WRITE => m.(write := false)
  }

  function Minus(m: Mask, n: Mask): Mask {
    Mask(m.read && !n.read, m.write && !n.write)
  }

  function Both(m: Mask, n: Mask): Mask {
    Mask(m.read && n.read, m.write && n.write)
  }

  function Either(m: Mask, n: Mask): Mask {
    Mask(m.read || n.read, m.write || n.write)
  }

  function Count(m: Mask): nat {
    (if m.read then 1 else 0) + (if m.write then 1 else 0)
  }

  /** EventContext: `scheduled` says that m_scheduler is not null. */
  datatype Slot = Slot(scheduled: bool, fiber: Option<FiberId>, cb: Option<Callback>, token: nat)

  function Blank(): Slot {
    Slot(false, None, None, 0)
  }

  predicate Holds(s: Slot) {
    s.scheduled || s.fiber.Some? || s.cb.Some?
  }

  function Filled(task: Task, token: nat): Slot {
    match task
    case FiberTask(f) => Slot(true, Some(f), None, token)
    case CallbackTask(cb) => Slot(true, None, Some(cb), token)
  }

  datatype Context = Context(events: Mask, read: Slot, write: Slot)

  function Fresh(): Context {
    Context(NONE, Blank(), Blank())
  }

  function SlotOf(c: Context, e: Event): Slot {
    match e
    case READ => c.read
    case WRITE => c.write
  }

  function Put(c: Context, e: Event, s: Slot): Context {
    match e
    case READ => c.(read := s)
    case WRITE => c.(write := s)
  }

  type Fd = nat

  datatype Registration = Registration(fd: Fd, event: Event, task: Task)

  /** `repaired` says that triggerEvent empties the slot instead of only clearing m_scheduler. */
  datatype Registry = Registry(
    repaired: bool,
    contexts: seq<Context>,
    pending: U64,
    kernel: map<Fd, Mask>,
    issued: seq<Registration>,  // by token
    log: seq<nat>,
    dropped: seq<nat>)

  datatype Outcome = Succeeded | Failed | Aborted

  const INITIAL_SIZE: nat := 32

  /** Descriptors are non-negative values of type `int`. */
  const MAX_FD: nat := 0x8000_0000

  function Start(repaired: bool): Registry {
    Registry(repaired, seq(INITIAL_SIZE, _ => Fresh()), 0, map[], [], [], [])
  }

  // ------------------------------------------------------------ the kernel

  datatype Ctl = ADD | MOD | DEL

  predicate Legal(kernel: map<Fd, Mask>, op: Ctl, fd: Fd) {
    op == ADD <==> fd !in kernel
  }

  function EpollCtl(kernel: map<Fd, Mask>, op: Ctl, fd: Fd, m: Mask): map<Fd, Mask> {
    if op == DEL then kernel - {fd} else kernel[fd := m]
  }

  /** The request that changes a descriptor's interest to `m` when something was registered. */
  function Shrink(m: Mask): Ctl {
    if m != NONE then MOD else DEL
  }

  // ------------------------------------------------------------ operations

  predicate Registered(s: Registry, fd: Fd, e: Event) {
    fd < |s.contexts| && Has(s.contexts[fd].events, e)
  }

  function NewSize(fd: Fd): nat {
    fd * 3 / 2
  }

  /** contextResize. */
  function Resized(s: Registry, size: nat): Registry {
    if size < |s.contexts| then
      s.(contexts := s.contexts[..size])
    else
      s.(contexts := s.contexts + seq(size - |s.contexts|, _ => Fresh()))
  }

  /** Lookup of the context, growing the table if the descriptor is beyond it. */
  function Grow(s: Registry, fd: Fd): (r: Registry)
    requires INITIAL_SIZE <= |s.contexts|
    ensures fd < |r.contexts|
  {
    if fd < |s.contexts| then s else Resized(s, NewSize(fd))
  }

  /** The state after a successful addEvent on a context that exists. */
  function Added(s: Registry, fd: Fd, e: Event, task: Task): Registry
    requires fd < |s.contexts|
  {
    var token := |s.issued|;
    var c := Put(s.contexts[fd].(events := With(s.contexts[fd].events, e)), e, Filled(task, token));
    s.(contexts := s.contexts[fd := c],
       pending := Plus(s.pending, 1),
       kernel := s.kernel[fd := c.events],
       issued := s.issued + [Registration(fd, e, task)])
  }

  function AddEvent(s: Registry, fd: Fd, e: Event, task: Task, ok: bool): (Registry, Outcome)
    requires INITIAL_SIZE <= |s.contexts|
  {
    var s1 := Grow(s, fd);
    var c := s1.contexts[fd];
    var op := if c.events != NONE then MOD else ADD;
    if !ok || !Legal(s.kernel, op, fd) then
      (s1, Failed)
    else if Holds(SlotOf(c, e)) then
      (s1, Aborted)
    else
      (Added(s1, fd, e, task), Succeeded)
  }

  /** triggerEvent: hands the slot's task to the scheduler. */
  function Trigger(s: Registry, fd: Fd, e: Event): (r: (Registry, Outcome))
    requires fd < |s.contexts|
    ensures |r.0.contexts| == |s.contexts|
  {
    var c := s.contexts[fd];
    var slot := SlotOf(c, e);
    if !Has(c.events, e) || !slot.scheduled then
      (s, Aborted)
    else
      var slot1 := if s.repaired then Blank() else slot.(scheduled := false);
      (s.(contexts := s.contexts[fd := Put(c.(events := Without(c.events, e)), e, slot1)],
          log := s.log + [slot.token]),
       Succeeded)
  }

  /** triggerEvent, then `--m_pendingEventCount`. */
  function TriggerCounted(s: Registry, fd: Fd, e: Event): (r: (Registry, Outcome))
    requires fd < |s.contexts|
    ensures |r.0.contexts| == |s.contexts|
  {
    var (s1, out) := Trigger(s, fd, e);
    if out == Succeeded then (s1.(pending := Words.Minus(s1.pending, 1)), Succeeded) else (s1, out)
  }

  /** Triggers the events of `m`, READ first. */
  function TriggerEach(s: Registry, fd: Fd, m: Mask): (r: (Registry, Outcome))
    requires fd < |s.contexts|
    ensures |r.0.contexts| == |s.contexts|
  {
    var (s1, out) := if m.read then TriggerCounted(s, fd, READ) else (s, Succeeded);
    if out == Succeeded && m.write then TriggerCounted(s1, fd, WRITE) else (s1, out)
  }

  /** The guard of delEvent as it parses: `(!events) & event`. */
  predicate DelRefuses(m: Mask, e: Event) {
    (if m == NONE then 1 else 0) & Code(e) != 0
  }

  /** The state after a successful delEvent. */
  function Deleted(s: Registry, fd: Fd, e: Event): Registry
    requires fd < |s.contexts|
  {
    var c := s.contexts[fd];
    var left := Without(c.events, e);
    s.(contexts := s.contexts[fd := Put(c.(events := left), e, Blank())],
       pending := Words.Minus(s.pending, 1),
       kernel := EpollCtl(s.kernel, Shrink(left), fd, left),
       dropped := if Has(c.events, e) then s.dropped + [SlotOf(c, e).token] else s.dropped)
  }

  function DelEvent(s: Registry, fd: Fd, e: Event, ok: bool): (Registry, Outcome) {
    if |s.contexts| <= fd || DelRefuses(s.contexts[fd].events, e) then
      (s, Failed)
    else
      var left := Without(s.contexts[fd].events, e);
      if !ok || !Legal(s.kernel, Shrink(left), fd) then (s, Failed) else (Deleted(s, fd, e), Succeeded)
  }

  function CancelEvent(s: Registry, fd: Fd, e: Event, ok: bool): (Registry, Outcome) {
    if !Registered(s, fd, e) then
      (s, Failed)
    else
      var left := Without(s.contexts[fd].events, e);
      if !ok || !Legal(s.kernel, Shrink(left), fd) then
        (s, Failed)
      else
        TriggerCounted(s.(kernel := EpollCtl(s.kernel, Shrink(left), fd, left)), fd, e)
  }

  function CancelAll(s: Registry, fd: Fd, ok: bool): (Registry, Outcome) {
    if |s.contexts| <= fd || s.contexts[fd].events == NONE || !ok || !Legal(s.kernel, DEL, fd) then
      (s, Failed)
    else
      TriggerEach(s.(kernel := EpollCtl(s.kernel, DEL, fd, NONE)), fd, s.contexts[fd].events)
  }

  /** One element of the result of epoll_wait: the reported readiness, and EPOLLERR or EPOLLHUP. */
  datatype Report = Report(fd: Fd, ready: Mask, hangup: bool)

  /** The events that the dispatch loop takes to have happened. */
  function RealEvents(events: Mask, r: Report): Mask {
    if r.hangup then Either(r.ready, events) else r.ready
  }

  /** One round of the dispatch loop. */
  function Dispatch(s: Registry, r: Report, ok: bool): (Registry, Outcome) {
    if |s.contexts| <= r.fd then
      (s, Failed)
    else
      var c := s.contexts[r.fd];
      var actual := RealEvents(c.events, r);
      var left := Minus(c.events, actual);
      if Both(c.events, actual) == NONE || !ok || !Legal(s.kernel, Shrink(left), r.fd) then
        (s, Failed)
      else
        TriggerEach(s.(kernel := EpollCtl(s.kernel, Shrink(left), r.fd, left)), r.fd, actual)
  }

  /** The hooked close: cancelAll, whose result is ignored, then the descriptor leaves the kernel. */
  function Close(s: Registry, fd: Fd, ok: bool): (Registry, Outcome) {
    var (s1, out) := CancelAll(s, fd, ok);
    (s1.(kernel := s1.kernel - {fd}), out)
  }

  /** The tasks that the registry handed over while going from `r` to `r1`. */
  function Woken(r: Registry, r1: Registry): seq<Task> {
    seq(if |r1.log| < |r.log| then 0 else |r1.log| - |r.log|, k requires 0 <= k < |r1.log| - |r.log| =>
      var token := r1.log[|r.log| + k];
      if token < |r1.issued| then r1.issued[token].task else CallbackTask(User(0)))
  }

  // ------------------------------------------------------------ invariants

  function Total(cs: seq<Context>): nat {
    if cs == [] then 0 else Count(cs[0].events) + Total(cs[1..])
  }

  /** Kernel mirror: the interest of each descriptor is its `events`, absent when there are none. */
  ghost predicate Mirror(s: Registry) {
    && (forall fd | fd in s.kernel :: fd < |s.contexts| && s.kernel[fd] != NONE)
    && (forall fd | 0 <= fd < |s.contexts| :: MirrorAt(s, fd))
  }

  ghost predicate MirrorAt(s: Registry, fd: Fd)
    requires fd < |s.contexts|
  {
    if fd in s.kernel then s.kernel[fd] == s.contexts[fd].events else s.contexts[fd].events == NONE
  }

  /** A bit is set exactly when its slot has a scheduler; then the slot holds the task that was
      registered there, a fiber or a callback and not both. Otherwise, if the repair is made, the slot
      is empty. */
  ghost predicate SlotInv(s: Registry, fd: Fd, e: Event)
    requires fd < |s.contexts|
  {
    var slot := SlotOf(s.contexts[fd], e);
    && Has(s.contexts[fd].events, e) == slot.scheduled
    && (slot.scheduled ==>
          && slot.token < |s.issued|
          && s.issued[slot.token].fd == fd && s.issued[slot.token].event == e
          && slot == Filled(s.issued[slot.token].task, slot.token))
    && (!slot.scheduled && s.repaired ==> !Holds(slot))
  }

  /** The registration with this token has not ended. */
  predicate Live(s: Registry, token: nat)
    requires token < |s.issued|
  {
    var r := s.issued[token];
    Registered(s, r.fd, r.event) && SlotOf(s.contexts[r.fd], r.event).token == token
  }

  /** Exactly-once: a registration is live, or was handed to the scheduler once, or was deleted. */
  ghost predicate FateInv(s: Registry, token: nat)
    requires token < |s.issued|
  {
    multiset(s.log)[token] + multiset(s.dropped)[token] + (if Live(s, token) then 1 else 0) == 1
  }

  /** The invariant without the mirror at one descriptor, which is broken between epoll_ctl and the
      update of `events`. */
  ghost predicate InvExcept(s: Registry, hole: Fd) {
    && INITIAL_SIZE <= |s.contexts| <= 2 * MAX_FD
    && (forall fd | fd in s.kernel && fd != hole :: fd < |s.contexts| && s.kernel[fd] != NONE)
    && (forall fd | 0 <= fd < |s.contexts| && fd != hole :: MirrorAt(s, fd))
    && (forall fd, e | 0 <= fd < |s.contexts| :: SlotInv(s, fd, e))
    && (forall t | t in s.log || t in s.dropped :: t < |s.issued|)
    && (forall t | 0 <= t < |s.issued| :: FateInv(s, t))
    && s.pending == Total(s.contexts)
  }

  ghost predicate Inv(s: Registry) {
    && Mirror(s)
    && InvExcept(s, |s.contexts|)
  }

  lemma TotalUpdate(cs: seq<Context>, fd: Fd, c: Context)
    requires fd < |cs|
    ensures Total(cs[fd := c]) == Total(cs) - Count(cs[fd].events) + Count(c.events)
  {
    if fd == 0 {
      assert cs[0 := c][1..] == cs[1..];
    } else {
      assert cs[fd := c][1..] == cs[1..][fd - 1 := c];
      TotalUpdate(cs[1..], fd - 1, c);
    }
  }

  lemma {:induction false} TotalBound(cs: seq<Context>)
    ensures Total(cs) <= 2 * |cs|
  {
    if cs != [] {
      TotalBound(cs[1..]);
    }
  }

  lemma {:induction false} TotalFresh(cs: seq<Context>, n: nat)
    ensures Total(cs + seq(n, _ => Fresh())) == Total(cs)
    decreases |cs|, n
  {
    var more := seq(n, _ => Fresh());
    if cs != [] {
      assert (cs + more)[1..] == cs[1..] + more;
      TotalFresh(cs[1..], n);
    } else if n > 0 {
      assert (cs + more)[1..] == cs + seq(n - 1, _ => Fresh());
      TotalFresh(cs, n - 1);
    }
  }

  lemma {:induction false} TotalZero(cs: seq<Context>)
    ensures Total(cs) == 0 <==> forall fd | 0 <= fd < |cs| :: cs[fd].events == NONE
  {
    if cs != [] {
      TotalZero(cs[1..]);
      assert (forall fd | 0 <= fd < |cs| :: cs[fd].events == NONE) <==>
             cs[0].events == NONE && forall fd | 0 <= fd < |cs[1..]| :: cs[1..][fd].events == NONE by {
        assert forall fd | 0 < fd < |cs| :: cs[fd] == cs[1..][fd - 1];
        assert forall fd | 0 <= fd < |cs[1..]| :: cs[1..][fd] == cs[fd + 1];
      }
    }
  }

  /** The counter that the shutdown test reads is zero exactly when no event is registered, and then the
      kernel watches nothing. */
  lemma NothingPending(s: Registry)
    requires Inv(s)
    ensures s.pending == 0 <==> forall fd, e | 0 <= fd < |s.contexts| :: !Registered(s, fd, e)
    ensures s.pending == 0 <==> s.kernel == map[]
  {
    TotalZero(s.contexts);
    forall fd | 0 <= fd < |s.contexts|
      ensures s.contexts[fd].events == NONE <==> !Registered(s, fd, READ) && !Registered(s, fd, WRITE)
      ensures s.contexts[fd].events == NONE <==> fd !in s.kernel
    {
      assert MirrorAt(s, fd);
    }
    if forall fd, e | 0 <= fd < |s.contexts| :: !Registered(s, fd, e) {
      assert forall fd | 0 <= fd < |s.contexts| :: s.contexts[fd].events == NONE;
    }
  }

  lemma {:induction false} TotalSplit(cs: seq<Context>, size: nat)
    requires size <= |cs|
    ensures Total(cs) == Total(cs[..size]) + Total(cs[size..])
  {
    if size == 0 {
      assert cs[0..] == cs;
    } else {
      assert cs[..size][1..] == cs[1..][..size - 1] && cs[1..][size - 1..] == cs[size..];
      TotalSplit(cs[1..], size - 1);
    }
  }

  lemma CutKeeps(s: Registry, size: nat)
    requires Inv(s) && INITIAL_SIZE <= size < |s.contexts|
    requires forall fd | size <= fd < |s.contexts| :: s.contexts[fd].events == NONE
    ensures Inv(Resized(s, size))
  {
    var s1 := Resized(s, size);
    TotalSplit(s.contexts, size);
    TotalZero(s.contexts[size..]);
    forall fd, e | 0 <= fd < size ensures SlotInv(s1, fd, e) {
      assert SlotInv(s, fd, e);
    }
    forall t | 0 <= t < |s.issued| ensures FateInv(s1, t) {
      assert FateInv(s, t);
      assert Live(s1, t) <==> Live(s, t);
    }
    forall fd | 0 <= fd < |s.contexts| ensures fd < size ==> MirrorAt(s1, fd) {
      assert MirrorAt(s, fd);
    }
    forall fd | fd in s.kernel ensures fd < size {
      assert MirrorAt(s, fd);
    }
  }

  /** contextResize with a smaller size keeps the invariant exactly if nothing is registered beyond it. It
      can be asked for one when a second addEvent has grown the table after the first one found it small. */
  lemma CutKeepsExactly(s: Registry, size: nat)
    requires Inv(s) && INITIAL_SIZE <= size < |s.contexts|
    ensures Inv(Resized(s, size)) <==> forall fd | size <= fd < |s.contexts| :: s.contexts[fd].events == NONE
  {
    if fd :| size <= fd < |s.contexts| && s.contexts[fd].events != NONE {
      assert MirrorAt(s, fd);
      assert fd in Resized(s, size).kernel;
    } else {
      CutKeeps(s, size);
    }
  }

  /** What triggering a registered event changes. */
  lemma TriggerEffect(s: Registry, fd: Fd, e: Event)
    requires InvExcept(s, fd) && Registered(s, fd, e)
    ensures var (s1, out) := TriggerCounted(s, fd, e);
            && out == Succeeded
            && s1 == s.(contexts := s.contexts[fd := s1.contexts[fd]], pending := s1.pending,
                        log := s.log + [SlotOf(s.contexts[fd], e).token])
            && s1.contexts[fd].events == Without(s.contexts[fd].events, e)
            && s1.pending == Total(s1.contexts)
            && (forall e' | e' != e :: SlotOf(s1.contexts[fd], e') == SlotOf(s.contexts[fd], e'))
            && !SlotOf(s1.contexts[fd], e).scheduled
            && (s.repaired ==> !Holds(SlotOf(s1.contexts[fd], e)))
  {
    assert SlotInv(s, fd, e);
    var (s1, _) := TriggerCounted(s, fd, e);
    TotalUpdate(s.contexts, fd, s1.contexts[fd]);
    TotalBound(s1.contexts);
  }

  lemma TriggerKeepsSlots(s: Registry, fd: Fd, e: Event)
    requires InvExcept(s, fd) && Registered(s, fd, e)
    ensures var s1 := TriggerCounted(s, fd, e).0;
            forall fd', e' | 0 <= fd' < |s1.contexts| :: SlotInv(s1, fd', e')
  {
    var s1 := TriggerCounted(s, fd, e).0;
    TriggerEffect(s, fd, e);
    forall fd', e' | 0 <= fd' < |s1.contexts| ensures SlotInv(s1, fd', e') {
      assert SlotInv(s, fd', e');
    }
  }

  lemma TriggerKeepsFates(s: Registry, fd: Fd, e: Event)
    requires InvExcept(s, fd) && Registered(s, fd, e)
    ensures var s1 := TriggerCounted(s, fd, e).0;
            forall t | 0 <= t < |s1.issued| :: FateInv(s1, t)
  {
    var s1 := TriggerCounted(s, fd, e).0;
    TriggerEffect(s, fd, e);
    assert SlotInv(s, fd, e);
    forall t | 0 <= t < |s1.issued| ensures FateInv(s1, t) {
      assert FateInv(s, t);
      if t == SlotOf(s.contexts[fd], e).token {
        assert Live(s, t) && !Live(s1, t);
      } else {
        assert Live(s, t) <==> Live(s1, t);
      }
    }
  }

  lemma TriggerKeeps(s: Registry, fd: Fd, e: Event)
    requires InvExcept(s, fd) && Registered(s, fd, e)
    ensures InvExcept(TriggerCounted(s, fd, e).0, fd)
  {
    var s1 := TriggerCounted(s, fd, e).0;
    TriggerEffect(s, fd, e);
    TriggerKeepsSlots(s, fd, e);
    TriggerKeepsFates(s, fd, e);
    assert SlotInv(s, fd, e);
    forall fd' | 0 <= fd' < |s1.contexts| && fd' != fd ensures MirrorAt(s1, fd') {
      assert MirrorAt(s, fd');
    }
  }

  lemma TriggerEachKeeps(s: Registry, fd: Fd, m: Mask)
    requires InvExcept(s, fd) && fd < |s.contexts|
    ensures var (s1, out) := TriggerEach(s, fd, m);
            var events := s.contexts[fd].events;
            && (out == Aborted <==> Both(m, events) != m)
            && (out != Aborted ==>
                  && out == Succeeded && InvExcept(s1, fd)
                  && s1.contexts[fd].events == Minus(events, m)
                  && s1.kernel == s.kernel && s1.repaired == s.repaired
                  && s1.issued == s.issued && s1.dropped == s.dropped
                  && s1.log == s.log + TokensOf(s.contexts[fd], m))
  {
    if m.read && s.contexts[fd].events.read {
      TriggerKeeps(s, fd, READ);
      TriggerEffect(s, fd, READ);
    }
    if m.write && s.contexts[fd].events.write && (m.read ==> s.contexts[fd].events.read) {
      var s1 := if m.read then TriggerCounted(s, fd, READ).0 else s;
      TriggerKeeps(s1, fd, WRITE);
      TriggerEffect(s1, fd, WRITE);
    }
  }

  /** The tokens of the events `m` of a context, READ first. */
  function TokensOf(c: Context, m: Mask): seq<nat> {
    (if m.read then [c.read.token] else []) + (if m.write then [c.write.token] else [])
  }

  /** The state after a successful epoll_ctl on `fd`. */
  function Controlled(s: Registry, fd: Fd, left: Mask): Registry {
    s.(kernel := EpollCtl(s.kernel, Shrink(left), fd, left))
  }

  lemma ControlledKeeps(s: Registry, fd: Fd, left: Mask)
    requires Inv(s) && fd < |s.contexts|
    ensures InvExcept(Controlled(s, fd, left), fd)
  {
    var s1 := Controlled(s, fd, left);
    forall fd' | 0 <= fd' < |s1.contexts| && fd' != fd ensures MirrorAt(s1, fd') {
      assert MirrorAt(s, fd');
    }
    forall fd', e | 0 <= fd' < |s1.contexts| ensures SlotInv(s1, fd', e) {
      assert SlotInv(s, fd', e);
    }
    forall t | 0 <= t < |s1.issued| ensures FateInv(s1, t) {
      assert FateInv(s, t);
      assert Live(s, t) <==> Live(s1, t);
    }
  }

  /** The mirror at one descriptor completes the invariant. */
  lemma MirrorCompletes(s: Registry, fd: Fd)
    requires InvExcept(s, fd) && fd < |s.contexts| && MirrorAt(s, fd)
    requires fd in s.kernel ==> s.kernel[fd] != NONE
    ensures Inv(s)
  {
  }

  /** cancelEvent, cancelAll and dispatch all trigger some registered events `m` of a descriptor after
      taking them out of the kernel. */
  lemma EndEventsKeeps(s: Registry, fd: Fd, m: Mask)
    requires Inv(s) && fd < |s.contexts|
    ensures var left := Minus(s.contexts[fd].events, m);
            var (s1, out) := TriggerEach(Controlled(s, fd, left), fd, m);
            && (out == Aborted <==> Both(m, s.contexts[fd].events) != m)
            && (out != Aborted ==>
                  && out == Succeeded && Inv(s1) && s1.repaired == s.repaired
                  && s1.issued == s.issued && s1.dropped == s.dropped
                  && s1.log == s.log + TokensOf(s.contexts[fd], m)
                  && s1.contexts[fd].events == left)
  {
    var left := Minus(s.contexts[fd].events, m);
    ControlledKeeps(s, fd, left);
    TriggerEachKeeps(Controlled(s, fd, left), fd, m);
    var (s1, out) := TriggerEach(Controlled(s, fd, left), fd, m);
    if out != Aborted {
      MirrorCompletes(s1, fd);
    }
  }

  function Only(e: Event): Mask {
    With(NONE, e)
  }

  /** Whatever epoll_ctl request the code chooses for a context that has events is a legal one. */
  lemma ShrinkIsLegal(s: Registry, fd: Fd, left: Mask)
    requires Inv(s) && fd < |s.contexts| && s.contexts[fd].events != NONE
    ensures Legal(s.kernel, Shrink(left), fd)
  {
    assert MirrorAt(s, fd);
  }

  /** cancelEvent hands the task of a registered event to the scheduler, and does nothing else. */
  lemma CancelEventSpec(s: Registry, fd: Fd, e: Event, ok: bool)
    requires Inv(s)
    ensures var (s1, out) := CancelEvent(s, fd, e, ok);
            && Inv(s1) && out != Aborted && s1.repaired == s.repaired
            && (out == Succeeded <==> Registered(s, fd, e) && ok)
            && (out == Succeeded ==> s1.log == s.log + [SlotOf(s.contexts[fd], e).token] && !Registered(s1, fd, e))
            && (out == Failed ==> s1 == s)
            && s1.issued == s.issued && s1.dropped == s.dropped
  {
    if Registered(s, fd, e) {
      var events := s.contexts[fd].events;
      assert Without(events, e) == Minus(events, Only(e));
      ShrinkIsLegal(s, fd, Without(events, e));
      EndEventsKeeps(s, fd, Only(e));
    }
  }

  /** cancelAll does so for all events of the descriptor, READ first. */
  lemma CancelAllSpec(s: Registry, fd: Fd, ok: bool)
    requires Inv(s)
    ensures var (s1, out) := CancelAll(s, fd, ok);
            && Inv(s1) && out != Aborted && s1.repaired == s.repaired
            && (out == Succeeded <==> fd < |s.contexts| && s.contexts[fd].events != NONE && ok)
            && (out == Succeeded ==>
                  && s1.log == s.log + TokensOf(s.contexts[fd], s.contexts[fd].events)
                  && fd < |s1.contexts| && s1.contexts[fd].events == NONE)
            && (out == Failed ==> s1 == s)
            && s1.issued == s.issued && s1.dropped == s.dropped
  {
    if fd < |s.contexts| && s.contexts[fd].events != NONE {
      var events := s.contexts[fd].events;
      assert Minus(events, events) == NONE;
      ShrinkIsLegal(s, fd, NONE);
      EndEventsKeeps(s, fd, events);
    }
  }

  /** Some registered event of the descriptor is reported, be it as an error or hangup. */
  ghost predicate Hits(s: Registry, r: Report) {
    exists e :: Registered(s, r.fd, e) && (Has(r.ready, e) || r.hangup)
  }

  /** Some event is reported ready that is not registered. */
  ghost predicate Strays(s: Registry, r: Report) {
    exists e :: Has(r.ready, e) && !Registered(s, r.fd, e)
  }

  lemma MaskOf(s: Registry, fd: Fd)
    requires fd < |s.contexts|
    ensures Registered(s, fd, READ) == s.contexts[fd].events.read
    ensures Registered(s, fd, WRITE) == s.contexts[fd].events.write
  {
  }

  lemma RealEventsMean(s: Registry, r: Report)
    requires r.fd < |s.contexts|
    ensures var events := s.contexts[r.fd].events;
            var actual := RealEvents(events, r);
            && (Hits(s, r) <==> Both(events, actual) != NONE)
            && (Strays(s, r) <==> Both(events, actual) != actual)
            && (!Strays(s, r) ==> actual == if r.hangup then events else r.ready)
            && (!Strays(s, r) ==> Minus(events, actual) == if r.hangup then NONE else Minus(events, r.ready))
  {
    MaskOf(s, r.fd);
    assert Has(r.ready, READ) == r.ready.read && Has(r.ready, WRITE) == r.ready.write;
  }

  /** Dispatch triggers every reported event, registered or not; so it aborts exactly when some reported event
      is registered, some reported one is not, and the kernel accepts. Otherwise it hands over what is reported,
      READ first, and after an error or hangup whatever is registered; all else stays registered. */
  lemma DispatchSpec(s: Registry, r: Report, ok: bool)
    requires Inv(s)
    ensures var (s1, out) := Dispatch(s, r, ok);
            && (out == Aborted <==> ok && Hits(s, r) && Strays(s, r))
            && (out == Succeeded <==> ok && Hits(s, r) && !Strays(s, r))
            && (out != Aborted ==> Inv(s1) && s1.repaired == s.repaired)
            && (out == Succeeded ==>
                  && r.fd < |s.contexts| == |s1.contexts|
                  && s1.log == s.log + TokensOf(s.contexts[r.fd], if r.hangup then s.contexts[r.fd].events else r.ready)
                  && forall e :: Registered(s1, r.fd, e) <==> Registered(s, r.fd, e) && !Has(r.ready, e) && !r.hangup)
            && (out == Failed ==> s1 == s)
            && (out != Aborted ==> s1.issued == s.issued && s1.dropped == s.dropped)
  {
    if r.fd < |s.contexts| {
      RealEventsMean(s, r);
      var events := s.contexts[r.fd].events;
      if events != NONE {
        ShrinkIsLegal(s, r.fd, Minus(events, RealEvents(events, r)));
        EndEventsKeeps(s, r.fd, RealEvents(events, r));
      }
    }
  }

  lemma GrowKeeps(s: Registry, fd: Fd)
    requires Inv(s) && fd < MAX_FD
    ensures var s1 := Grow(s, fd);
            && Inv(s1) && s1 == s.(contexts := s1.contexts)
            && (fd < |s.contexts| ==> s1 == s)
            && (|s.contexts| <= fd ==> s1.contexts[fd] == Fresh())
  {
    var s1 := Grow(s, fd);
    if |s.contexts| <= fd {
      TotalFresh(s.contexts, NewSize(fd) - |s.contexts|);
      forall fd' | 0 <= fd' < |s1.contexts| ensures MirrorAt(s1, fd') {
        if fd' < |s.contexts| {
          assert MirrorAt(s, fd');
        }
      }
      forall fd', e | 0 <= fd' < |s1.contexts| ensures SlotInv(s1, fd', e) {
        if fd' < |s.contexts| {
          assert SlotInv(s, fd', e);
        }
      }
      forall t | 0 <= t < |s1.issued| ensures FateInv(s1, t) {
        assert FateInv(s, t);
        assert Live(s, t) <==> Live(s1, t);
      }
    }
  }

  lemma AddedKeepsSlots(s: Registry, fd: Fd, e: Event, task: Task)
    requires Inv(s) && fd < |s.contexts| && !Holds(SlotOf(s.contexts[fd], e))
    ensures var s1 := Added(s, fd, e, task);
            && (forall fd', e' | 0 <= fd' < |s1.contexts| :: SlotInv(s1, fd', e'))
            && (forall t | 0 <= t < |s1.issued| :: FateInv(s1, t))
  {
    var s1 := Added(s, fd, e, task);
    forall fd', e' | 0 <= fd' < |s1.contexts| ensures SlotInv(s1, fd', e') {
      assert SlotInv(s, fd', e');
    }
    forall t | 0 <= t < |s1.issued| ensures FateInv(s1, t) {
      if t < |s.issued| {
        assert FateInv(s, t);
        assert SlotInv(s, fd, e);
        assert Live(s, t) <==> Live(s1, t);
      } else {
        assert t !in s.log && t !in s.dropped;
      }
    }
  }

  lemma AddedKeeps(s: Registry, fd: Fd, e: Event, task: Task)
    requires Inv(s) && fd < |s.contexts| && !Holds(SlotOf(s.contexts[fd], e))
    ensures Inv(Added(s, fd, e, task))
  {
    var s1 := Added(s, fd, e, task);
    assert SlotInv(s, fd, e);
    AddedKeepsSlots(s, fd, e, task);
    TotalUpdate(s.contexts, fd, s1.contexts[fd]);
    TotalBound(s1.contexts);
    forall fd' | 0 <= fd' < |s1.contexts| ensures MirrorAt(s1, fd') {
      assert MirrorAt(s, fd');
    }
  }

  /** addEvent: the request it chooses is a legal one, so it fails only if the kernel does; and it aborts
      exactly when the slot is not empty, which with the repair means that the event is registered. */
  lemma AddEventSpec(s: Registry, fd: Fd, e: Event, task: Task, ok: bool)
    requires Inv(s) && fd < MAX_FD
    ensures var (s1, out) := AddEvent(s, fd, e, task, ok);
            && (out == Failed <==> !ok)
            && (out == Aborted <==> ok && fd < |s.contexts| && Holds(SlotOf(s.contexts[fd], e)))
            && (s.repaired ==> (out == Aborted <==> ok && Registered(s, fd, e)))
            && (out != Aborted ==> Inv(s1) && s1.repaired == s.repaired && s1.log == s.log && s1.dropped == s.dropped)
            && (out == Failed ==> s1 == Grow(s, fd))
            && (out == Succeeded ==>
                  && s1.issued == s.issued + [Registration(fd, e, task)]
                  && Registered(s1, fd, e) && Live(s1, |s.issued|))
  {
    GrowKeeps(s, fd);
    var s1 := Grow(s, fd);
    assert MirrorAt(s1, fd);
    assert SlotInv(s1, fd, e);
    assert !Holds(SlotOf(Fresh(), e));
    if !Holds(SlotOf(s1.contexts[fd], e)) {
      AddedKeeps(s1, fd, e, task);
    }
  }

  lemma DeletedKeepsSlots(s: Registry, fd: Fd, e: Event)
    requires Inv(s) && Registered(s, fd, e)
    ensures var s1 := Deleted(s, fd, e);
            && (forall fd', e' | 0 <= fd' < |s1.contexts| :: SlotInv(s1, fd', e'))
            && (forall t | 0 <= t < |s1.issued| :: FateInv(s1, t))
  {
    var s1 := Deleted(s, fd, e);
    assert SlotInv(s, fd, e);
    forall fd', e' | 0 <= fd' < |s1.contexts| ensures SlotInv(s1, fd', e') {
      assert SlotInv(s, fd', e');
    }
    forall t | 0 <= t < |s1.issued| ensures FateInv(s1, t) {
      assert FateInv(s, t);
      if t == SlotOf(s.contexts[fd], e).token {
        assert Live(s, t) && !Live(s1, t);
      } else {
        assert Live(s, t) <==> Live(s1, t);
      }
    }
  }

  lemma DeletedKeeps(s: Registry, fd: Fd, e: Event)
    requires Inv(s) && Registered(s, fd, e)
    ensures Inv(Deleted(s, fd, e))
  {
    var s1 := Deleted(s, fd, e);
    assert SlotInv(s, fd, e);
    DeletedKeepsSlots(s, fd, e);
    TotalUpdate(s.contexts, fd, s1.contexts[fd]);
    TotalBound(s1.contexts);
    forall fd' | 0 <= fd' < |s1.contexts| ensures MirrorAt(s1, fd') {
      assert MirrorAt(s, fd');
    }
  }

  /** Deleting an event that is not registered while the other one is counts it all the same. */
  lemma DeletedLosesCount(s: Registry, fd: Fd, e: Event)
    requires Inv(s) && fd < |s.contexts| && s.contexts[fd].events != NONE && !Registered(s, fd, e)
    ensures var s1 := Deleted(s, fd, e);
            Total(s1.contexts) == Total(s.contexts) && s1.pending == s.pending - 1
  {
    var s1 := Deleted(s, fd, e);
    TotalUpdate(s.contexts, fd, s1.contexts[fd]);
    TotalUpdate(s.contexts, fd, Fresh());
  }

  /** delEvent succeeds exactly when some event of the descriptor is registered and the kernel accepts;
      it keeps the invariant exactly when it fails or the event it was asked to delete is registered. */
  lemma DelEventSpec(s: Registry, fd: Fd, e: Event, ok: bool)
    requires Inv(s)
    ensures var (s1, out) := DelEvent(s, fd, e, ok);
            && out != Aborted && (out == Failed ==> s1 == s)
            && (out == Succeeded <==> fd < |s.contexts| && s.contexts[fd].events != NONE && ok)
            && (Inv(s1) <==> out == Failed || Registered(s, fd, e))
            && (out == Succeeded && !Registered(s, fd, e) ==> s1.pending == Total(s1.contexts) - 1)
            && (out == Succeeded && Registered(s, fd, e) ==>
                  && !Registered(s1, fd, e) && s1.dropped == s.dropped + [SlotOf(s.contexts[fd], e).token])
            && s1.log == s.log && s1.issued == s.issued && s1.repaired == s.repaired
  {
    if fd < |s.contexts| {
      assert MirrorAt(s, fd);
      if s.contexts[fd].events != NONE {
        ShrinkIsLegal(s, fd, Without(s.contexts[fd].events, e));
        if Registered(s, fd, e) {
          DeletedKeeps(s, fd, e);
        } else {
          DeletedLosesCount(s, fd, e);
        }
      }
    }
  }

  /** The hooked close keeps the mirror exactly when nothing is registered or cancelAll succeeds. */
  lemma CloseSpec(s: Registry, fd: Fd, ok: bool)
    requires Inv(s)
    ensures var (s1, out) := Close(s, fd, ok);
            && out != Aborted && s1.repaired == s.repaired
            && (Inv(s1) <==> out == Succeeded || fd >= |s.contexts| || s.contexts[fd].events == NONE)
            && (out == Succeeded <==> fd < |s.contexts| && s.contexts[fd].events != NONE && ok)
            && (out == Succeeded ==> s1.log == s.log + TokensOf(s.contexts[fd], s.contexts[fd].events))
            && (out == Failed ==> s1.log == s.log) && s1.issued == s.issued && s1.dropped == s.dropped
  {
    CancelAllSpec(s, fd, ok);
    var s1 := CancelAll(s, fd, ok).0;
    if fd < |s1.contexts| {
      assert MirrorAt(s1, fd);
      if s1.contexts[fd].events == NONE {
        assert s1.kernel - {fd} == s1.kernel;
      } else {
        assert !MirrorAt(Close(s, fd, ok).0, fd);
      }
    } else {
      assert s1.kernel - {fd} == s1.kernel;
    }
  }

  // ------------------------------------------------------ the dispatch loop

  /** The dispatch loop over the result of one epoll_wait; `oks` are the kernel's answers. */
  function DispatchAll(s: Registry, reports: seq<Report>, oks: seq<bool>): (Registry, Outcome)
    requires |oks| == |reports|
    decreases |reports|
  {
    if reports == [] then
      (s, Succeeded)
    else
      var (s1, out) := Dispatch(s, reports[0], oks[0]);
      if out == Aborted then (s1, Aborted) else DispatchAll(s1, reports[1..], oks[1..])
  }

  /** A report that the kernel can make: besides EPOLLERR and EPOLLHUP only events of the interest. */
  predicate Reportable(kernel: map<Fd, Mask>, r: Report) {
    r.fd in kernel && Both(kernel[r.fd], r.ready) == r.ready
  }

  /** What a report that is true means to those who wait. After an error or a hangup every registered event of
      the descriptor is handed over and nothing of it stays watched; otherwise exactly the events that are ready
      are, and the other one goes on waiting with its registration. */
  lemma ReportEndsWaits(s: Registry, r: Report)
    requires Inv(s) && Reportable(s.kernel, r) && (r.hangup || r.ready != NONE)
    ensures r.fd < |s.contexts|
    ensures var (s1, out) := Dispatch(s, r, true);
            var c := s.contexts[r.fd];
            && out == Succeeded && r.fd < |s1.contexts|
            && s1.log == s.log + (if c.events.read && (r.hangup || r.ready.read) then [c.read.token] else [])
                               + (if c.events.write && (r.hangup || r.ready.write) then [c.write.token] else [])
            && (r.hangup ==> s1.contexts[r.fd].events == NONE && r.fd !in s1.kernel)
            && (!r.hangup ==>
                  s1.contexts[r.fd].events == Mask(c.events.read && !r.ready.read, c.events.write && !r.ready.write))
  {
    assert MirrorAt(s, r.fd);
    MaskOf(s, r.fd);
    DispatchSpec(s, r, true);
    var s1 := Dispatch(s, r, true).0;
    MaskOf(s1, r.fd);
    assert MirrorAt(s1, r.fd);
    assert Has(r.ready, READ) == r.ready.read && Has(r.ready, WRITE) == r.ready.write;
  }

  lemma DispatchLeavesOthers(s: Registry, r: Report, ok: bool, fd: Fd)
    requires Inv(s) && fd != r.fd && Dispatch(s, r, ok).1 != Aborted
    ensures var s1 := Dispatch(s, r, ok).0;
            && |s1.contexts| == |s.contexts| && (fd < |s.contexts| ==> s1.contexts[fd] == s.contexts[fd])
            && (fd in s1.kernel <==> fd in s.kernel)
            && (fd in s.kernel ==> s1.kernel[fd] == s.kernel[fd])
  {
  }

  /** When nothing else happens between epoll_wait and the end of the loop, as with a single worker, every
      reported event is still registered when its turn comes, and no assertion fails. */
  lemma {:induction false} FreshReportsDispatch(s: Registry, reports: seq<Report>, oks: seq<bool>)
    requires Inv(s) && |oks| == |reports|
    requires forall i | 0 <= i < |reports| :: Reportable(s.kernel, reports[i])
    requires forall i, j | 0 <= i < j < |reports| :: reports[i].fd != reports[j].fd
    ensures DispatchAll(s, reports, oks).1 != Aborted && Inv(DispatchAll(s, reports, oks).0)
    ensures DispatchAll(s, reports, oks).0.repaired == s.repaired
    decreases |reports|
  {
    if reports != [] {
      var r := reports[0];
      DispatchSpec(s, r, oks[0]);
      assert r.fd < |s.contexts| && MirrorAt(s, r.fd);
      var s1 := Dispatch(s, r, oks[0]).0;
      forall i | 0 <= i < |reports[1..]| ensures Reportable(s1.kernel, reports[1..][i]) {
        DispatchLeavesOthers(s, r, oks[0], reports[i + 1].fd);
      }
      FreshReportsDispatch(s1, reports[1..], oks[1..]);
    }
  }
}
