/**
 The event registry of IOManager, with the fields of the source, proved to refine EventModel.

 The kernel's interest map is a field; `ok` parameters are its answers to legal requests. Tasks handed to
 the scheduler are appended to `scheduled`.
 */
module Events {
  import opened Words
  import opened Tasks
  import M = EventModel

  type Event = M.Event

  /** FdContext::EventContext. */
  datatype EventContext = EventContext(scheduler: bool, fiber: Option<FiberId>, cb: Option<Callback>)

  const EMPTY := EventContext(false, None, None)

  function Real(s: M.Slot): EventContext {
    EventContext(s.scheduled, s.fiber, s.cb)
  }

  class FdContext {
    const fd: M.Fd
    var events: M.Mask
    var read: EventContext
    var write: EventContext

    constructor (fd: M.Fd)
      ensures this.fd == fd && Shows(M.Fresh())
    {
      this.fd := fd;
      events, read, write := M.NONE, EMPTY, EMPTY;
    }

    ghost predicate Shows(c: M.Context)
      reads this
    {
      events == c.events && read == Real(c.read) && write == Real(c.write)
    }

    function GetEventContext(e: Event): EventContext
      reads this
    {
      if e == M.READ then read else write
    }

    method SetEventContext(e: Event, ctx: EventContext)
      modifies this`read, this`write
      ensures e == M.READ ==> read == ctx && write == old(write)
      ensures e == M.WRITE ==> write == ctx && read == old(read)
    {
      if e == M.READ {
        read := ctx;
      } else {
        write := ctx;
      }
    }

    /** triggerEvent; `repaired` makes it empty the slot. */
    method TriggerEvent(e: Event, repaired: bool) returns (task: Option<Task>)
      modifies this
      ensures task.None? <==> !(M.Has(old(events), e) && old(GetEventContext(e)).scheduler
                                && (old(GetEventContext(e)).cb.Some? || old(GetEventContext(e)).fiber.Some?))
      ensures var ctx := old(GetEventContext(e));
              task.Some? ==>
                && task.value == (if ctx.cb.Some? then CallbackTask(ctx.cb.value) else FiberTask(ctx.fiber.value))
                && events == M.Without(old(events), e)
                && GetEventContext(e) == (if repaired then EMPTY else ctx.(scheduler := false))
                && (if e == M.READ then write == old(write) else read == old(read))
    {
      if !M.Has(events, e) {
        return None;
      }
      events := M.Without(events, e);
      var ctx := GetEventContext(e);
      if !ctx.scheduler || (ctx.cb.None? && ctx.fiber.None?) {
        return None;
      }
      task := Some(if ctx.cb.Some? then CallbackTask(ctx.cb.value) else FiberTask(ctx.fiber.value));
      SetEventContext(e, if repaired then EMPTY else ctx.(scheduler := false));
    }
  }

  class EventRegistry {
    const repaired: bool
    var contexts: seq<FdContext>
    var pending: U64
    var kernel: map<M.Fd, M.Mask>
    var scheduled: seq<Task>
    ghost var repr: set<FdContext>

    ghost predicate Represents(m: M.Registry)
      reads this, repr
    {
      && repaired == m.repaired && pending == m.pending && kernel == m.kernel
      && |contexts| == |m.contexts|
      && (forall i {:trigger contexts[i]} | 0 <= i < |contexts| ::
            contexts[i] in repr && contexts[i].fd == i && contexts[i].Shows(m.contexts[i]))
      && |scheduled| == |m.log|
      && (forall k | 0 <= k < |m.log| :: m.log[k] < |m.issued| && scheduled[k] == m.issued[m.log[k]].task)
    }

    constructor (repaired: bool)
      ensures Represents(M.Start(repaired)) && fresh(repr) && |contexts| == 32
    {
      this.repaired := repaired;
      contexts, pending, kernel, scheduled := [], 0, map[], [];
      repr := {};
      new;
      ContextResize(M.INITIAL_SIZE);
    }

    /** contextResize: contexts beyond a smaller size are dropped. */
    method ContextResize(size: nat)
      requires forall i | 0 <= i < |contexts| :: contexts[i] in repr && contexts[i].fd == i
      modifies this`contexts, this`repr
      ensures |contexts| == size && old(repr) <= repr && fresh(repr - old(repr))
      ensures forall i | 0 <= i < size :: contexts[i] in repr && contexts[i].fd == i
      ensures forall i | 0 <= i < size && i < |old(contexts)| :: contexts[i] == old(contexts)[i]
      ensures forall i | |old(contexts)| <= i < size :: fresh(contexts[i]) && contexts[i].Shows(M.Fresh())
    {
      if size < |contexts| {
        contexts := contexts[..size];
      }
      while |contexts| < size
        invariant size < |old(contexts)| ==> |contexts| == size
        invariant |old(contexts)| <= size ==> |old(contexts)| <= |contexts| <= size
        invariant old(repr) <= repr && fresh(repr - old(repr))
        invariant forall i | 0 <= i < |contexts| :: contexts[i] in repr && contexts[i].fd == i
        invariant forall i | 0 <= i < |contexts| && i < |old(contexts)| :: contexts[i] == old(contexts)[i]
        invariant forall i | |old(contexts)| <= i < |contexts| :: fresh(contexts[i]) && contexts[i].Shows(M.Fresh())
      {
        var c := new FdContext(|contexts|);
        contexts, repr := contexts + [c], repr + {c};
      }
    }

    /** epoll_ctl; true when the kernel accepts. */
    method EpollCtl(op: M.Ctl, fd: M.Fd, mask: M.Mask, ok: bool) returns (accepted: bool)
      modifies this`kernel
      ensures accepted == (ok && M.Legal(old(kernel), op, fd))
      ensures kernel == if accepted then M.EpollCtl(old(kernel), op, fd, mask) else old(kernel)
    {
      accepted := ok && (op == M.ADD <==> fd !in kernel);
      if accepted {
        kernel := if op == M.DEL then kernel - {fd} else kernel[fd := mask];
      }
    }

    /** Makes sure that the table has a context for `fd`, in one step. */
    method FindContext(fd: M.Fd, ghost m: M.Registry)
      requires Represents(m) && M.INITIAL_SIZE <= |m.contexts|
      modifies this`contexts, this`repr
      ensures Represents(M.Grow(m, fd)) && old(repr) <= repr && fresh(repr - old(repr))
      ensures |contexts| == if fd < |old(contexts)| then |old(contexts)| else fd * 3 / 2
    {
      if |contexts| <= fd {
        ContextResize(M.NewSize(fd));
      }
    }

    method AddEvent(fd: M.Fd, e: Event, cb: Option<Callback>, current: FiberId, ok: bool, ghost m: M.Registry)
      returns (out: M.Outcome)
      requires Represents(m) && M.INITIAL_SIZE <= |m.contexts|
      modifies this, repr
      ensures var task := if cb.Some? then CallbackTask(cb.value) else FiberTask(current);
              && out == M.AddEvent(m, fd, e, task, ok).1
              && (out != M.Aborted ==> Represents(M.AddEvent(m, fd, e, task, ok).0))
      ensures old(repr) <= repr && fresh(repr - old(repr))
    {
      FindContext(fd, m);
      out := Register(fd, e, cb, current, ok, M.Grow(m, fd));
    }

    /** The part of addEvent under the lock of the context. */
    method Register(fd: M.Fd, e: Event, cb: Option<Callback>, current: FiberId, ok: bool, ghost m: M.Registry)
      returns (out: M.Outcome)
      requires Represents(m) && M.INITIAL_SIZE <= |m.contexts| && fd < |m.contexts|
      modifies this`pending, this`kernel, contexts[fd]
      ensures var task := if cb.Some? then CallbackTask(cb.value) else FiberTask(current);
              && out == M.AddEvent(m, fd, e, task, ok).1
              && (out != M.Aborted ==> Represents(M.AddEvent(m, fd, e, task, ok).0))
    {
      var c := contexts[fd];
      var accepted := EpollCtl(if c.events != M.NONE then M.MOD else M.ADD, fd, M.With(c.events, e), ok);
      if !accepted {
        return M.Failed;
      }
      out := Fill(fd, e, cb, current, m.(kernel := kernel));
    }

    /** What follows when the kernel has accepted: count, set the bit, and fill the slot if it is empty. */
    method Fill(fd: M.Fd, e: Event, cb: Option<Callback>, current: FiberId, ghost m: M.Registry)
      returns (out: M.Outcome)
      requires Represents(m) && fd < |m.contexts|
      modifies this`pending, contexts[fd]
      ensures var task := if cb.Some? then CallbackTask(cb.value) else FiberTask(current);
              if M.Holds(M.SlotOf(m.contexts[fd], e)) then out == M.Aborted
              else out == M.Succeeded && Represents(M.Added(m, fd, e, task).(kernel := m.kernel))
    {
      var c := contexts[fd];
      pending := Plus(pending, 1);
      c.events := M.With(c.events, e);
      var ctx := c.GetEventContext(e);
      if ctx.scheduler || ctx.fiber.Some? || ctx.cb.Some? {
        return M.Aborted;
      }
      c.SetEventContext(e, if cb.Some? then EventContext(true, None, cb) else EventContext(true, Some(current), None));
      out := M.Succeeded;
    }

    /** triggerEvent on a context, followed by `--m_pendingEventCount`. */
    method Trigger(fd: M.Fd, e: Event, ghost m: M.Registry) returns (out: M.Outcome)
      requires Represents(m) && fd < |m.contexts| && M.SlotInv(m, fd, e)
      modifies this`pending, this`scheduled, contexts[fd]
      ensures out == M.TriggerCounted(m, fd, e).1
      ensures out != M.Aborted ==> Represents(M.TriggerCounted(m, fd, e).0)
    {
      var task := contexts[fd].TriggerEvent(e, repaired);
      if task.None? {
        return M.Aborted;
      }
      scheduled := scheduled + [task.value];
      pending := Minus(pending, 1);
      out := M.Succeeded;
    }

    /** The two trigger steps that end cancelAll and a round of dispatch. */
    method TriggerEach(fd: M.Fd, mask: M.Mask, ghost m: M.Registry) returns (out: M.Outcome)
      requires Represents(m) && fd < |m.contexts| && M.SlotInv(m, fd, M.READ) && M.SlotInv(m, fd, M.WRITE)
      modifies this`pending, this`scheduled, contexts[fd]
      ensures out == M.TriggerEach(m, fd, mask).1
      ensures out != M.Aborted ==> Represents(M.TriggerEach(m, fd, mask).0)
    {
      out := M.Succeeded;
      ghost var m1 := m;
      if mask.read {
        m1 := M.TriggerCounted(m, fd, M.READ).0;
        out := Trigger(fd, M.READ, m);
      }
      if out == M.Succeeded && mask.write {
        out := Trigger(fd, M.WRITE, m1);
      }
    }

    method DelEvent(fd: M.Fd, e: Event, ok: bool, ghost m: M.Registry) returns (out: M.Outcome)
      requires Represents(m)
      modifies this`pending, this`kernel, repr
      ensures out == M.DelEvent(m, fd, e, ok).1
      ensures Represents(M.DelEvent(m, fd, e, ok).0)
    {
      if |contexts| <= fd || M.DelRefuses(contexts[fd].events, e) {
        return M.Failed;
      }
      var c := contexts[fd];
      var left := M.Without(c.events, e);
      var accepted := EpollCtl(M.Shrink(left), fd, left, ok);
      if !accepted {
        return M.Failed;
      }
      pending := Minus(pending, 1);
      c.events := left;
      c.SetEventContext(e, EMPTY);
      out := M.Succeeded;
    }

    method CancelEvent(fd: M.Fd, e: Event, ok: bool, ghost m: M.Registry) returns (out: M.Outcome)
      requires Represents(m) && M.Inv(m)
      modifies this`pending, this`kernel, this`scheduled, repr
      ensures out == M.CancelEvent(m, fd, e, ok).1
      ensures Represents(M.CancelEvent(m, fd, e, ok).0)
    {
      M.CancelEventSpec(m, fd, e, ok);
      if |contexts| <= fd || !M.Has(contexts[fd].events, e) {
        return M.Failed;
      }
      var left := M.Without(contexts[fd].events, e);
      var accepted := EpollCtl(M.Shrink(left), fd, left, ok);
      if !accepted {
        return M.Failed;
      }
      assert M.SlotInv(m, fd, e);
      out := Trigger(fd, e, M.Controlled(m, fd, left));
    }

    method CancelAll(fd: M.Fd, ok: bool, ghost m: M.Registry) returns (out: M.Outcome)
      requires Represents(m) && M.Inv(m)
      modifies this`pending, this`kernel, this`scheduled, repr
      ensures out == M.CancelAll(m, fd, ok).1
      ensures Represents(M.CancelAll(m, fd, ok).0)
    {
      M.CancelAllSpec(m, fd, ok);
      if |contexts| <= fd || contexts[fd].events == M.NONE {
        return M.Failed;
      }
      var accepted := EpollCtl(M.DEL, fd, M.NONE, ok);
      if !accepted {
        return M.Failed;
      }
      assert M.SlotInv(m, fd, M.READ) && M.SlotInv(m, fd, M.WRITE);
      out := TriggerEach(fd, contexts[fd].events, M.Controlled(m, fd, M.NONE));
    }

    /** One round of the dispatch loop. */
    method Dispatch(r: M.Report, ok: bool, ghost m: M.Registry) returns (out: M.Outcome)
      requires Represents(m) && M.Inv(m)
      modifies this`pending, this`kernel, this`scheduled, repr
      ensures out == M.Dispatch(m, r, ok).1
      ensures out != M.Aborted ==> Represents(M.Dispatch(m, r, ok).0)
    {
      if |contexts| <= r.fd {
        return M.Failed;
      }
      var events := contexts[r.fd].events;
      var actual := if r.hangup then M.Either(r.ready, events) else r.ready;
      if M.Both(events, actual) == M.NONE {
        return M.Failed;
      }
      var left := M.Minus(events, actual);
      var accepted := EpollCtl(M.Shrink(left), r.fd, left, ok);
      if !accepted {
        return M.Failed;
      }
      assert M.SlotInv(m, r.fd, M.READ) && M.SlotInv(m, r.fd, M.WRITE);
      out := TriggerEach(r.fd, actual, M.Controlled(m, r.fd, left));
    }

    /** The dispatch loop of idle: every report that epoll_wait can make is dispatched, no assertion fails,
        and the registry keeps its invariant. */
    method DispatchAll(reports: seq<M.Report>, oks: seq<bool>, ghost m: M.Registry) returns (out: M.Outcome)
      requires Represents(m) && M.Inv(m) && |oks| == |reports|
      requires forall i | 0 <= i < |reports| :: M.Reportable(m.kernel, reports[i])
      requires forall i, j | 0 <= i < j < |reports| :: reports[i].fd != reports[j].fd
      modifies this`pending, this`kernel, this`scheduled, repr
      ensures out == M.Succeeded && M.Inv(M.DispatchAll(m, reports, oks).0)
      ensures Represents(M.DispatchAll(m, reports, oks).0)
    {
      ghost var cur := m;
      M.FreshReportsDispatch(m, reports, oks);
      var i := 0;
      while i < |reports|
        invariant 0 <= i <= |reports|
        invariant Represents(cur) && M.Inv(cur)
        invariant M.DispatchAll(cur, reports[i..], oks[i..]) == M.DispatchAll(m, reports, oks)
      {
        assert reports[i..][1..] == reports[i + 1..] && oks[i..][1..] == oks[i + 1..];
        M.DispatchSpec(cur, reports[i], oks[i]);
        ghost var next := M.Dispatch(cur, reports[i], oks[i]).0;
        out := Dispatch(reports[i], oks[i], cur);
        cur := next;
        i := i + 1;
      }
      out := M.Succeeded;
    }
  }
}
