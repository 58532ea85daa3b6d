/**
 The fiber class with the fields of the source, and the thread-local pointers, proved to refine
 FiberModel. A method returns false where an assertion of the source fails.
 */
module Fibers {
  import opened Tasks
  import M = FiberModel

  class Fiber {
    const id: FiberId
    const inScheduler: bool
    var state: M.FiberState
    var context: FiberId  // the execution that m_ctx holds
    var cb: Option<Callback>

    /** The default constructor makes the main fiber out of the running thread. */
    constructor OfThread(id: FiberId)
      ensures this.id == id && state == M.RUNNING && !inScheduler && context == id && cb == None
    {
      this.id, inScheduler, state, context, cb := id, false, M.RUNNING, id, None;
    }

    constructor (id: FiberId, cb: Callback, inScheduler: bool)
      ensures this.id == id && state == M.READY && this.inScheduler == inScheduler && context == id
      ensures this.cb == Some(cb)
    {
      this.id, this.inScheduler, state, context, this.cb := id, inScheduler, M.READY, id, Some(cb);
    }

    method Reset(cb: Callback, thread: Thread, ghost m: M.Thread) returns (ok: bool)
      requires thread.Represents(m) && thread.Owns(this)
      modifies this`state, this`context, this`cb
      ensures ok == M.Reset(m, id).Some?
      ensures if ok then thread.Represents(M.Reset(m, id).value) && this.cb == Some(cb)
              else thread.Represents(m) && this.cb == old(this.cb)
    {
      ok := state == M.TERM;
      if ok {
        this.cb, context, state := Some(cb), id, M.READY;
      }
    }

    method Resume(thread: Thread, ghost m: M.Thread) returns (ok: bool)
      requires thread.Represents(m) && thread.Owns(this)
      modifies thread`current, thread`cpu, thread.repr
      ensures ok == M.Resume(m, id).Some?
      ensures if ok then thread.Represents(M.Resume(m, id).value) else thread.Represents(m)
    {
      if state == M.TERM || state == M.RUNNING {
        return false;
      }
      ghost var m1 := M.SetState(m, id, M.RUNNING).(current := id, chain := m.chain + [id], returned := false);
      thread.current := this;
      state := M.RUNNING;
      assert thread.Represents(m1);
      if inScheduler {
        thread.SwapContext(thread.scheduler, this, m1);
      } else {
        thread.SwapContext(thread.main, this, m1);
      }
      ok := true;
    }

    method Yield(thread: Thread, ghost m: M.Thread) returns (ok: bool)
      requires thread.Represents(m) && thread.Owns(this) && m.chain != []
      modifies thread`current, thread`cpu, thread.repr
      ensures ok == M.Yield(m, id).Some?
      ensures if ok then thread.Represents(M.Yield(m, id).value) else thread.Represents(m)
    {
      if !(state == M.RUNNING || state == M.TERM) {
        return false;
      }
      ghost var m1 := if state == M.TERM then m else M.SetState(m, id, M.READY);
      ghost var m2 := m1.(current := m.main, chain := m.chain[..|m.chain| - 1], returned := true);
      thread.current := thread.main;
      if state != M.TERM {
        state := M.READY;
      }
      assert thread.Represents(m2);
      if inScheduler {
        thread.SwapContext(this, thread.scheduler, m2);
      } else {
        thread.SwapContext(this, thread.main, m2);
      }
      ok := true;
    }

    /** What MainFunc does when the callback has returned. */
    method EndMainFunc(thread: Thread, ghost m: M.Thread) returns (ok: bool)
      requires thread.Represents(m) && thread.Owns(this) && m.chain != []
      modifies this`cb, this`state, thread`current, thread`cpu, thread.repr
      ensures ok && M.Finish(m, id).Some? && thread.Represents(M.Finish(m, id).value)
    {
      cb := None;
      state := M.TERM;
      assert thread.Represents(M.SetState(m, id, M.TERM));
      ok := Yield(thread, M.SetState(m, id, M.TERM));
    }
  }

  /** The thread-local variables of one thread that has a main fiber. */
  class Thread {
    var current: Fiber    // t_fiber
    var main: Fiber       // t_thread_fiber
    var scheduler: Fiber  // t_scheduler_fiber
    var cpu: FiberId      // whose code is executing
    ghost var objects: map<FiberId, Fiber>
    ghost var repr: set<Fiber>

    ghost predicate Owns(f: Fiber)
      reads this
    {
      f.id in objects && objects[f.id] == f
    }

    ghost predicate Represents(m: M.Thread)
      reads this, repr
    {
      && M.Formed(m) && objects.Keys == m.fibers.Keys
      && (forall f {:trigger objects[f]} | f in objects ::
            && objects[f] in repr && objects[f].id == f
            && objects[f].inScheduler == m.fibers[f].inScheduler
            && objects[f].state == m.fibers[f].state && objects[f].context == m.fibers[f].context)
      && Owns(current) && current.id == m.current
      && Owns(main) && main.id == m.main
      && Owns(scheduler) && scheduler.id == m.scheduler
      && cpu == m.cpu
    }

    /** GetThis on a thread that has no fiber yet, as run does it first thing on a pool thread. */
    constructor (id: FiberId)
      ensures Represents(M.PoolThread(id)) && fresh(repr)
    {
      var f := new Fiber.OfThread(id);
      current, main, scheduler, cpu := f, f, f, id;
      objects, repr := map[id := f], {f};
    }

    /** The calling thread gets a root fiber, which is not a scheduler fiber itself. */
    constructor Caller(id: FiberId, root: FiberId, run: Callback)
      requires id != root
      ensures Represents(M.CallerThread(id, root)) && fresh(repr)
    {
      var f := new Fiber.OfThread(id);
      var r := new Fiber(root, run, false);
      current, main, scheduler, cpu := f, f, r, id;
      objects, repr := map[id := f, root := r], {f, r};
    }

    method GetThis(ghost m: M.Thread) returns (f: Fiber)
      requires Represents(m)
      ensures Owns(f) && f.id == m.current
    {
      f := current;
    }

    method Create(id: FiberId, cb: Callback, inScheduler: bool, ghost m: M.Thread) returns (f: Fiber)
      requires Represents(m) && id !in m.fibers
      modifies this`objects, this`repr
      ensures fresh(f) && f.id == id && Owns(f) && f.cb == Some(cb)
      ensures Represents(M.Create(m, id, inScheduler).value)
    {
      f := new Fiber(id, cb, inScheduler);
      objects, repr := objects[id := f], repr + {f};
    }

    /** swapcontext: stores the execution on the processor in one context, and goes on with the other. */
    method SwapContext(save: Fiber, load: Fiber, ghost m: M.Thread)
      requires Represents(m) && Owns(save) && Owns(load)
      modifies this`cpu, save`context
      ensures Represents(M.Swap(m, save.id, load.id))
    {
      var to := load.context;
      SaveContext(save, m);
      cpu := to;
    }

    method SaveContext(save: Fiber, ghost m: M.Thread)
      requires Represents(m) && Owns(save)
      modifies save`context
      ensures Represents(m.(fibers := m.fibers[save.id := m.fibers[save.id].(context := m.cpu)]))
    {
      save.context := cpu;
    }
  }
}
