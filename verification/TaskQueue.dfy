/** The task queue of the scheduler: schedule, scheduleNoLock, and the scan of a worker. */
module TaskQueue {
  import opened Tasks

  /** ScheduleTask; `ticket` numbers the calls of schedule, `pin` is the thread it must run on, if any. */
  datatype Entry = Entry(ticket: nat, task: Task, pin: Option<nat>)

  predicate RunsOn(e: Entry, thread: nat) {
    e.pin.None? || e.pin.value == thread
  }

  /** The position that a worker's scan stops at. */
  function FirstFor(q: seq<Entry>, thread: nat): (k: nat)
    ensures k <= |q|
    ensures k < |q| ==> q[k].pin.None? || q[k].pin.value == thread
    ensures forall j | 0 <= j < k :: q[j].pin.Some? && q[j].pin.value != thread
  {
    if q == [] then 0 else if RunsOn(q[0], thread) then 0 else 1 + FirstFor(q[1..], thread)
  }

  function Entries(tasks: seq<Task>, from: nat): seq<Entry> {
    seq(|tasks|, i requires 0 <= i < |tasks| => Entry(from + i, tasks[i], None))
  }

  class Queue {
    var tasks: seq<Entry>
    var next: nat
    var active: nat

    constructor ()
      ensures tasks == [] && next == 0 && active == 0
    {
      tasks, next, active := [], 0, 0;
    }

    /** scheduleNoLock; the result says whether other threads should be woken. */
    method ScheduleNoLock(task: Task, pin: Option<nat>) returns (needTickle: bool)
      modifies this`tasks, this`next
      ensures tasks == old(tasks) + [Entry(old(next), task, pin)] && next == old(next) + 1
      ensures needTickle <==> old(tasks) == []
    {
      needTickle := tasks == [];
      tasks := tasks + [Entry(next, task, pin)];
      next := next + 1;
    }

    /** The batch form of schedule: one wake-up at most, and exactly when the queue was empty. */
    method ScheduleBatch(batch: seq<Task>) returns (needTickle: bool)
      modifies this`tasks, this`next
      ensures tasks == old(tasks) + Entries(batch, old(next)) && next == old(next) + |batch|
      ensures needTickle <==> old(tasks) == [] && batch != []
    {
      needTickle := false;
      for i := 0 to |batch|
        invariant tasks == old(tasks) + Entries(batch[..i], old(next)) && next == old(next) + i
        invariant needTickle <==> old(tasks) == [] && i > 0
      {
        assert Entries(batch[..i + 1], old(next)) == Entries(batch[..i], old(next)) + [Entry(next, batch[i], None)];
        var t := ScheduleNoLock(batch[i], None);
        needTickle := t || needTickle;
      }
      assert batch[..|batch|] == batch;
    }

    /** The scan of a worker under the lock. `stale` is what comparing the erased iterator with the end
        happens to give. */
    method Take(thread: nat, stale: bool) returns (taken: Option<Entry>, tickle: bool)
      modifies this`tasks, this`active
      ensures var k := FirstFor(old(tasks), thread);
              if k < |old(tasks)| then
                && taken == Some(old(tasks)[k]) && tasks == old(tasks)[..k] + old(tasks)[k + 1..]
                && active == old(active) + 1 && tickle == (k > 0 || stale)
              else
                taken == None && tasks == old(tasks) && active == old(active) && tickle == (tasks != [])
    {
      tickle := false;
      var k := 0;
      while k < |tasks| && !RunsOn(tasks[k], thread)
        invariant k <= |tasks| && FirstFor(tasks, thread) == k + FirstFor(tasks[k..], thread)
        invariant tickle <==> k > 0
      {
        assert tasks[k..][1..] == tasks[k + 1..];
        k := k + 1;
        tickle := true;
      }
      if k < |tasks| {
        taken := Some(tasks[k]);
        tasks := tasks[..k] + tasks[k + 1..];
        active := active + 1;
        tickle := tickle || stale;
      } else {
        taken := None;
      }
    }
  }
}
