# Verification of the fiber runtime

A Dafny model of a user-space coroutine runtime: N worker threads run fibers and callbacks from one task
queue; an epoll-driven `IOManager` parks fibers on (descriptor, READ or WRITE) registrations; an ordered set of
timers wakes them by deadline; and hooked system calls combine the three into "block this fiber until ready or
timed out". Check everything with `dafny verify dfyconfig.toml`.

## How it is built

Each stateful layer comes twice: as classes with the fields, branches and loops of the source, and as values
that the classes are proved to refine (`Represents(m)`), on which the properties of whole runs are proved.

| layer | values and runs | classes and loops |
|---|---|---|
| timers | `TimerModel`, `Lateness` | `Timers` (`Timer`, `TimerManager`) |
| event registry | `EventModel`, `EventRuns` | `Events` (`FdContext`, `EventRegistry`) |
| scheduler | `Workers` (interleaved steps), `Conservation`, `Drain`, `Shutdown`, `Quiescence`, `Accounting`, `Composition` | `TaskQueue` (`Queue`) |
| fibers of a thread | `FiberModel` | `Fibers` (`Fiber`, `Thread`) |
| blocking hooks | `Blocking` (interleaved steps), `Wakeups`, `Timeouts`, `Waits`, `Placement`, `Progress`, `Layers`, `Tallies`, `Latecomers`, `Rest`, `Paths`, `SingleWorker`, `Deadlines`, `Races`, `Periods` | `Hooks` (`DoIo`, `ConnectWithTimeout`, `Sleep`) |

`Words` has the 64-bit arithmetic that wraps, `Tasks` what can be scheduled.

Clock readings, the addresses of timer objects, the answers of the kernel, and what other threads and user
callbacks do are inputs of the model, and the results hold for all of them.

## Where the code departs from its intent

The code is modelled as it is written. Where a property needs a repair, the repair is a parameter, and what the
code as written does is proved as well.

- `triggerEvent` (IOManager.cpp:394-407) leaves the fiber or callback in its slot. Field `repaired` of the registry
  empties the slot. `EventRuns.SecondWaitAborts` says exactly when the unrepaired code fails its assertion: an event
  can be waited for once; `EventRuns.WaitedForTwice` is a run. Modules `Workers` and `Blocking` use the repair.
- `delEvent` tests `!fd_ctx->events&event` (IOManager.cpp:252), which is `(!events)&event`. It is modelled so, and
  `EventModel.DelEventSpec` says exactly which calls miscount. After one the shutdown test can find the counter at zero
  while an event is registered: `Quiescence.CarelessLeavesEvent`.
- Dispatch triggers every reported event, registered or not (IOManager.cpp:147-173). `EventModel.DispatchSpec` says
  when the assertion fails; `SingleWorker.AssertionsHoldExactly` that it cannot, exactly with one worker.
- `IOManager::stopping` reads timers, counter and queue one after the other (IOManager.cpp:368-374).
  `Shutdown.QuiescenceExactly`: as written a quiet end is guaranteed only for a single worker that is the caller;
  reading the queue first and the timers last is enough for any number of workers. That a quiet end leaves no event
  registered holds of careful runs: `Quiescence.EndsWithNothingExactly`. A run is careful if its `delEvent` calls name
  registered events and its closes cancel what is registered (`EventRuns.Careful`).
- `addEvent` hands over the current fiber before that fiber yields (hook.cpp:123-132), and a worker asserts that what
  it picks is READY. `SingleWorker.AssertionsHoldExactly`: safe exactly with one worker.
- `m_tickled` is never cleared (TimerManager.cpp:27-30), so only the first front insertion ever wakes a waiter.
  A wait that is bounded keeps `Lateness.LatenessBound` in spite of it, and `Lateness.BoundIsAttained` is a run in
  which a later front insertion waits out the whole bound.
- The delay of the next timer is cut to `int` (IOManager.cpp:92), so one with bit 31 set makes epoll_wait wait without
  bound, and a later timer that notifies nobody waits with it. `Lateness.InTimeExactly`: timers are never more than
  5000 ms late, in all runs, exactly if no period reaches 2^31 or exceeds the clock (or the clock is in its last 2^31
  milliseconds); `Lateness.WaitsForever` is a run for every other case.
- All waits of one `do_io` call share the record `tinfo` (hook.cpp:100, 113-118). A timeout callback left over from one
  wait can set its flag after the fiber has tested it (hook.cpp:136) and before it waits again; the timer of the new
  wait then finds the flag set and cancels nothing. `Races.LosesTimeout` is such a run for any number of workers above
  one: it ends with the fiber parked, and nothing of the call's own will wake it. `Races.TimeoutsLastExactly`: no wait
  is ever left without its timeout exactly with one worker. `Deadlines.CoveredExactly`: what the flag has to say, with
  any number of workers. A cancel that the kernel refuses (hook.cpp:119) has the same effect:
  `Races.RefusedCancelStrands`.
- `refresh` sets the deadline to now, without adding the period (Timer.cpp:31). Modelled so.
- The base `idle` ends after one more visit (threadPoll_fiber_scheduler.cpp:213-218). `Drain.DrainExactly` says for
  which schedulers `stop` can leave work behind.
- `erase(it)` followed by `it!=end()` (threadPoll_fiber_scheduler.cpp:164,175): the result is an arbitrary input.
- `addEvent` does not look at the table size again under the write lock (IOManager.cpp:196-205), so it can cut a table
  that has grown meanwhile. Look and growth are modelled as one step; `EventModel.CutKeepsExactly` says when a cut does
  no harm.
- `sleep` multiplies in 32 bits and `nanosleep` stores its result in an `int` (hook.cpp:160, 187).
  `Periods.PeriodExactly` says which requests fit.

## Model

| member | source | states |
|---|---|---|
| Timers.Timer.constructor | Timer.cpp:64-71 | a timer's deadline is its period from now, wrapping at 2^64 |
| Timers.Timer.Cancel | Timer.cpp:8-17 | removes the timer and its callback and says true, or changes nothing and says false; the unchecked find-and-erase always hits |
| Timers.Timer.Refresh | Timer.cpp:19-34 | re-keys a member to now; otherwise changes nothing |
| Timers.Timer.Reset | Timer.cpp:36-62 | re-keys a member from now or from its own start; succeeds trivially for the period it has |
| Timers.TimerManager.constructor | TimerManager.cpp:8-11 | the empty set, with the clock remembered |
| Timers.TimerManager.Find | Timer.cpp:77-94 | lookup by the comparator finds a timer exactly if it is a member, at its own position |
| Timers.TimerManager.Insert | TimerManager.cpp:25-36 | inserts in order and notifies the waiter exactly on the first front insertion ever |
| Timers.TimerManager.AddTimer | TimerManager.cpp:17-23 | creates a timer object and inserts it |
| Timers.TimerManager.HasTimer | TimerManager.cpp:109-112 | whether there is a member |
| Timers.TimerManager.GetNextTimer | TimerManager.cpp:51-67 | the delay of the foremost member, 0 if it is due, ~0 if there is none |
| Timers.TimerManager.DetectClockRollover | TimerManager.cpp:114-121 | true exactly when the clock went back by more than an hour, or, from a reading below one hour, where the subtraction wraps, when it went back at all; the reading is remembered |
| TimerModel.RolloverExactly | TimerManager.cpp:116-117 | the wrapped comparison means: more than an hour back, or, from a reading below one hour, back at all |
| TimerModel.ClockRemembered | TimerManager.cpp:69-85 | in every run the reading that a rollover is detected by is that of the last collection that found a timer |
| Timers.TimerManager.LowerBound | TimerManager.cpp:87-88 | splits the set at now, whatever the address of the sentinel timer |
| Timers.TimerManager.DueEnd | TimerManager.cpp:87-91 | the prefix that ends there is exactly the due timers in set order, or everything on rollover |
| Timers.TimerManager.ListExpiredCb | TimerManager.cpp:69-107 | returns exactly the callbacks of the due timers in set order and leaves the set as Collect says |
| Timers.TimerManager.TakeExpired | TimerManager.cpp:87-106 | finds the end of the due timers and takes exactly those out, in set order |
| Timers.TimerManager.TakeDue | TimerManager.cpp:93-106 | the expired prefix is taken out and delivered as a whole |
| Timers.TimerManager.EraseFront | TimerManager.cpp:94-95 | the expired timers leave the set and no other does |
| Timers.TimerManager.DeliverAll | TimerManager.cpp:98-106 | the loop delivers each expired timer once, with the callback it had |
| Timers.TimerManager.DeliverNext | TimerManager.cpp:99-105 | one delivery: a recurring timer is re-keyed and back in the set, a one-shot one loses its callback |
| TimerModel.RunKeepsInv | Timer.cpp:8-62 | in every run a timer is a member exactly while it has its callback, its deadline is one period after its base, and a one-shot one ends once |
| TimerModel.OneShotFate | TimerManager.cpp:98-106 | in every run a one-shot timer is exactly one of pending, delivered once, cancelled once, and frozen once it has ended |
| TimerModel.WhenOperationsSucceed | Timer.cpp:8-48 | cancel and refresh succeed exactly on members; reset also on its trivial case; failures change nothing |
| TimerModel.NotifiedOnce | TimerManager.cpp:25-36 | in every run `m_tickled` is set exactly from the first timer ever added on, so exactly that insertion notifies the waiter |
| TimerModel.EmissionUnique | Timer.cpp:77-94 | there is exactly one way to list a set of timers in set order, so the order of delivery is determined |
| TimerModel.ExactExpiry | TimerManager.cpp:82-106 | a collection delivers exactly the members that are due, all of them on rollover, by deadline and then by address, none twice, and says what remains |
| TimerModel.NextTimerAgreement | TimerManager.cpp:51-107 | the reported delay is exactly how long collections stay empty; it is 0 exactly if a collection now is not |
| TimerModel.NoneExactly | TimerManager.cpp:51-67 | the answer ~0 means that there is no timer, or, at clock reading 0, that all are due at the last moment of the clock |
| TimerModel.ResetChain | Timer.cpp:50-59 | a chain of resets that are not from now has the effect of its last call alone |
| TimerModel.ResetSets | Timer.cpp:36-62 | a reset that is not trivial gives the member the period asked for and a deadline one such period after now, or after the timer's own start; all else stays |
| TimerModel.AsAsked | TimerManager.cpp:17-23 | in every run a timer has the callback and the recurrence of the call that made it, and the period last asked for |
| TimerModel.OthersUntouched | Timer.cpp:8-62 | an operation on one timer leaves every other one as it was |
| TimerModel.ArmingTime | Timer.cpp:50-59 | in every run deadline minus period, modulo 2^64, is the last arming moment |
| TimerModel.RecurringSpacing | TimerManager.cpp:98-102 | the n-th delivery of an undisturbed recurring timer is no earlier than n periods after it was made, and no collection delivers it twice |
| Lateness.WaitIsBounded | IOManager.cpp:90-97 | the wait is bounded exactly when the delay cut to 32 bits is not negative, and is the maximum when there is no timer |
| Lateness.WaitEndsWhenDue | IOManager.cpp:90-97 | a wait that is not cut ends no later than the first deadline, and before the maximum only if a timer is due then |
| Lateness.LatenessBound | IOManager.cpp:76-113 | in every run of the idle loop, whatever other threads do to the timers, collecting them included, a pass collects a timer not before its deadline, and, if it ends a wait that was bounded, at most 5000 ms after the later of deadline and arming |
| Lateness.InTimeExactly | IOManager.cpp:90-97 | no timer stays in the set for more than 5000 ms after the later of deadline and arming, in all runs with periods up to p and clock readings from a given one on, exactly if p is below 2^31 and not above the readings, or the clock is in its last 2^31 milliseconds |
| Lateness.WaitsForever | IOManager.cpp:92 | in every other case, a run with a prompt waiter in which a due timer stays in the set for as long as one likes: a delay with bit 31 set is a negative timeout |
| Lateness.BoundIsAttained | TimerManager.cpp:27-30 | a run in which the waiter goes on at once whenever it is notified, and which reaches the bound: a timer is put in front when `m_tickled` is already set, and notifies nobody |
| Events.FdContext.TriggerEvent | IOManager.cpp:394-407 | fails exactly on an event without bit or scheduler; else returns the slot's task and clears bit and scheduler, or the slot if repaired |
| Events.EventRegistry.constructor | IOManager.cpp:37 | an empty registry of 32 contexts |
| Events.EventRegistry.ContextResize | IOManager.cpp:383-392 | the table gets the given size: old contexts are kept up to it, and new ones are empty |
| Events.EventRegistry.FindContext | IOManager.cpp:194-205 | there is a context for the descriptor afterwards; a table that was too small has one and a half times the descriptor as its size |
| Events.EventRegistry.AddEvent | IOManager.cpp:192-240 | refines EventModel.AddEvent, including failure and assertion |
| Events.EventRegistry.Register | IOManager.cpp:207-239 | the part under the context's lock |
| Events.EventRegistry.Fill | IOManager.cpp:222-239 | when the kernel has accepted: fails exactly if the slot is not empty; else the event is counted, its bit set and its slot filled |
| Events.EventRegistry.Trigger | IOManager.cpp:164-173 | the task of the event goes to the scheduler and the counter goes down |
| Events.EventRegistry.TriggerEach | IOManager.cpp:338-346 | READ first, then WRITE |
| Events.EventRegistry.DelEvent | IOManager.cpp:242-277 | refines EventModel.DelEvent, with its guard as it parses |
| Events.EventRegistry.CancelEvent | IOManager.cpp:279-311 | refines EventModel.CancelEvent |
| Events.EventRegistry.CancelAll | IOManager.cpp:313-351 | refines EventModel.CancelAll |
| Events.EventRegistry.Dispatch | IOManager.cpp:127-173 | one round of the dispatch loop refines EventModel.Dispatch |
| Events.EventRegistry.DispatchAll | IOManager.cpp:117-174 | the whole loop, on reports that are true when it starts, succeeds and keeps the invariant |
| EventModel.AddEventSpec | IOManager.cpp:207-239 | the chosen epoll_ctl request is always legal; the assertion fails exactly if the slot is not empty, repaired: if the event is registered |
| EventModel.DelEventSpec | IOManager.cpp:251-276 | succeeds exactly if some event is registered and the kernel accepts; keeps the invariant exactly if it fails or this event is registered, else loses one from the counter |
| EventModel.CancelEventSpec | IOManager.cpp:288-309 | succeeds exactly if registered and accepted; then exactly this event's task is handed over; otherwise nothing changes |
| EventModel.CancelAllSpec | IOManager.cpp:322-349 | the same for all events of a descriptor, READ first; its final assertion holds |
| EventModel.DispatchSpec | IOManager.cpp:136-173 | aborts exactly if some reported event is registered, some reported one is not, and the kernel accepts; succeeds exactly if some is, none is not, and it accepts, and then hands over the ready events, or on error or hangup all registered ones, and leaves the others registered |
| EventModel.ReportEndsWaits | IOManager.cpp:136-173 | a true report, accepted: after an error or hangup all registered events of the descriptor are handed over, READ first, and nothing stays watched; otherwise exactly the ready ones |
| EventModel.CloseSpec | hook.cpp:337-351 | closing keeps the mirror exactly if nothing is registered or cancelAll succeeds |
| EventModel.FreshReportsDispatch | IOManager.cpp:117-174 | reports that are true when the loop starts are dispatched without a failing assertion |
| EventModel.NothingPending | IOManager.cpp:371 | the counter is zero exactly if no event is registered, and exactly if the kernel watches nothing |
| EventModel.CutKeepsExactly | IOManager.cpp:196-205 | cutting the table to a smaller size keeps the invariant exactly if nothing is registered beyond it |
| EventModel.ShrinkIsLegal | IOManager.cpp:259 | MOD or DEL, as chosen by the remaining events, is always a legal request |
| EventRuns.ApplyKeepsInv | IOManager.cpp:192-351 | an operation keeps mirror, counter, slots and fates exactly if it is used carefully |
| EventRuns.RunKeepsInv | IOManager.cpp:192-351 | in every careful run the kernel's interest is the events, the counter their number, and each slot agrees with its bit |
| EventRuns.ExactlyOnce | IOManager.cpp:394-407 | in every careful run each registration is live, or handed over once, or deleted, and what has ended stays ended |
| EventRuns.HowItEnds | IOManager.cpp:242-351 | readiness hands over the ready events, error and hangup all registered ones, cancel, cancelAll and close exactly the events they end; delEvent hands over none |
| EventRuns.SecondWaitAborts | IOManager.cpp:398-405 | as written, the next addEvent fails its assertion exactly if the last successful addEvent or delEvent on the event was an addEvent |
| EventRuns.WaitedForTwice | IOManager.cpp:227-236 | as written, a careful run in which an event is waited for, cancelled and waited for again, and the assertion fails |
| TaskQueue.FirstFor | threadPoll_fiber_scheduler.cpp:145-169 | the scan stops at the first entry that is not pinned or pinned to this thread, and passes only those pinned to others |
| TaskQueue.Queue.ScheduleNoLock | threadPoll_fiber_scheduler.h:154-160 | appends, and asks for a wake-up exactly if the queue was empty |
| TaskQueue.Queue.ScheduleBatch | threadPoll_fiber_scheduler.h:134-149 | appends all in order, and asks for one wake-up exactly if the queue was empty and the batch is not |
| TaskQueue.Queue.Take | threadPoll_fiber_scheduler.cpp:138-176 | removes exactly the entry the scan stops at, counts the worker active, and says whether others are woken |
| Conservation.StepKeepsCounted | threadPoll_fiber_scheduler.cpp:165-205 | every step of every worker keeps both counters equal to the numbers of workers in the phases they count |
| Conservation.TaskConservation | threadPoll_fiber_scheduler.cpp:138-207 | in every interleaving scheduled = queued + held + finished; the counters are the workers that run a task and that idle |
| Conservation.TakenOnce | threadPoll_fiber_scheduler.cpp:161-168 | no entry is ever in two places or taken twice |
| Conservation.FirstComeFirstServed | threadPoll_fiber_scheduler.cpp:147-153 | pinned entries go to their thread only; entries with the same pin are taken in scheduling order and none is overtaken |
| Conservation.WorkersGoOn | threadPoll_fiber_scheduler.cpp:138-207 | in every run a worker can move exactly if it has begun, has not left, and is not about to schedule an empty callback |
| Accounting.StepHandsOver | IOManager.cpp:164-173 | every registration that ends by dispatch, cancel, cancelAll or close is queued in that order, as an entry of its task for any thread |
| Accounting.ScheduledIsAskedFor | threadPoll_fiber_scheduler.h:154-160 | in every careful run each task, with its pin, has been scheduled exactly as often as it was submitted, handed over by the registry, and delivered by a timer, less what a worker is about to schedule |
| Composition.StepFollows | IOManager.cpp:76-174 | a step of the scheduler does to timers and registry exactly what its one operation does |
| Composition.TimersAreRun | TimerManager.cpp:69-107 | the timers of a careful run of the scheduler go through a run of TimerModel |
| Composition.EventsAreRun | IOManager.cpp:117-174 | the registry of a careful run of the scheduler goes through a careful run of EventRuns |
| Composition.ReportsAreDispatched | IOManager.cpp:117-174 | in every run a worker dispatches the reports it got from epoll_wait, all of them and in order, before it leaves the idle function |
| Drain.DrainExactly | threadPoll_fiber_scheduler.cpp:68-109 | when stop returns no unpinned task is left, in all interleavings, exactly if the caller is a worker or the idle function is IOManager's |
| Drain.BaseLeavesTask | threadPoll_fiber_scheduler.cpp:213-218 | a run of the base scheduler without caller that leaves a task behind |
| Shutdown.QuiescenceExactly | IOManager.cpp:368-374 | the end of all idle fibers means that queue, timers, running tasks, callbacks and the counter of pending events are all gone, exactly if the test reads the queue first, or all at once, or the caller is the only worker |
| Shutdown.LosesTimer | IOManager.cpp:76-113 | for every other configuration, a run in which all idle fibers end while a timer is pending |
| Shutdown.QuietIsFinal | threadPoll_fiber_scheduler.cpp:197-205 | after a quiet end no step brings work back |
| Quiescence.StepKeepsEvents | IOManager.cpp:117-174 | a step of any worker or outside thread that uses the registry with care keeps its mirror, counter, slots and fates |
| Quiescence.EndsWithNothingExactly | IOManager.cpp:368-374 | in careful runs the end of all idle fibers means that all that was scheduled has finished, no event is registered, the kernel watches nothing and no timer is left, exactly under the same condition |
| Accounting.EverythingIsServed | IOManager.cpp:368-374 | under that condition, when all idle fibers of a careful run have ended, each task has been executed exactly as often as it was submitted, handed over and delivered |
| Quiescence.CarelessLeavesEvent | IOManager.cpp:252 | for every configuration, a run with one miscounting delEvent in which all idle fibers end quietly while a fiber waits for an event |
| Fibers.Fiber.Reset | Fiber.cpp:77-92 | only an ended fiber can be reused; then it is READY with the new callback |
| Fibers.Fiber.Resume | Fiber.cpp:94-115 | refines FiberModel.Resume: only a READY fiber, which becomes RUNNING and current, on the processor instead of its partner |
| Fibers.Fiber.Yield | Fiber.cpp:117-137 | refines FiberModel.Yield: READY unless ended, the main fiber current, the partner's context on the processor |
| Fibers.Fiber.EndMainFunc | Fiber.cpp:164-183 | an ended callback leaves the fiber TERM and yields |
| Fibers.Thread.constructor | Fiber.cpp:144-156 | the first GetThis of a thread makes its main fiber |
| Fibers.Thread.Caller | threadPoll_fiber_scheduler.cpp:19-36 | the calling thread gets a root fiber that is its scheduler fiber |
| Fibers.Thread.Create | Fiber.cpp:34-53 | a new fiber is READY |
| FiberModel.NewFiberRuns | Fiber.cpp:34-115 | a fiber that was just made, or reset after its end, can be resumed by its partner, runs, and when it ends its partner goes on |
| FiberModel.RootRuns | threadPoll_fiber_scheduler.cpp:19-36 | the root fiber of the calling thread can be resumed by its main fiber |
| FiberModel.WhenAssertionsHold | Fiber.cpp:77-137 | resume succeeds exactly on fibers that have not ended and are not in the resume chain, reset exactly on ended ones, yield and end always |
| FiberModel.EndedStaysEnded | Fiber.cpp:77-92 | in every run an ended fiber does not run again unless it is reset |
| FiberModel.ResumeKeeps | Fiber.cpp:94-115 | a resume keeps the switch invariant exactly if it is made by the fiber's partner |
| FiberModel.YieldKeeps | Fiber.cpp:117-137 | a fiber that yields goes back to whoever resumed it, READY |
| FiberModel.FinishKeeps | Fiber.cpp:164-183 | a fiber that ends goes back to whoever resumed it, TERM |
| FiberModel.YieldReturnsToResumer | Fiber.cpp:94-137 | in every disciplined run a resume is returned from to the very fiber that made it, however deeply nested |
| FiberModel.RunningIsChain | Fiber.cpp:139-156 | the RUNNING fibers are exactly the resume chain, at most three; GetThis names the executing fiber except in a root fiber that was yielded to |
| FiberModel.NestedResumeIsLost | Fiber.cpp:105-108 | without the discipline a fiber's own yield returns to itself |
| Wakeups.StepKeepsBalance | hook.cpp:107-141 | no step of anybody creates or loses a wake-up without suspending or resuming the fiber |
| Wakeups.OneWakeupEach | hook.cpp:107-141 | in every run with any number of workers a fiber that is suspended or about to be has exactly one wake-up pending, in a registration, a timer, a callback or the queue, and any other fiber has none |
| Timeouts.TimeoutIsSound | hook.cpp:99-144 | a call times out only if a timer it made itself was delivered, at least `to` after one of its waits began; cancels by others only make it retry |
| Timeouts.NoTimeoutNoTimer | hook.cpp:112 | in every run a call without a timeout never has a timer, nothing fires for it, its flag is never set and it does not time out |
| Latecomers.CallbackGoesOn | hook.cpp:113-120 | a timeout callback goes on to cancel exactly if the call has not returned or another callback of it is at work, and the flag is clear |
| Latecomers.LateTimeoutIsHarmless | hook.cpp:113-117 | in every run, once a call has returned and no callback of it is at work, a callback of it that still runs changes nothing |
| Timeouts.NothingIsLeft | hook.cpp:112-139 | once a call has returned, a sleep included, none of its timers is in the set and none of its registrations is live |
| Timeouts.SleepIsLongEnough | hook.cpp:153-165 | a sleep returns only after its timer was delivered, no earlier than its period after it began |
| Waits.WaitsForEvent | hook.cpp:123-132 | in every run a fiber that waits for an event has its registration live, or is queued to be resumed, and not both |
| Waits.TimeoutEndsWait | hook.cpp:119 | when a timeout callback cancels the event while the call's fiber is waiting, the fiber is in the queue |
| Deadlines.CoveredExactly | hook.cpp:112-121 | in every run with any number of workers, a wait with a timeout has a timer or callback that will still cancel it exactly if its flag is clear or a callback is past its test of the flag |
| Deadlines.AloneIsCovered | hook.cpp:112-137 | with one worker, whose cancels are accepted, every such wait whose registration is live has one |
| Races.TimeoutsLastExactly | hook.cpp:99-144 | no wait with a timeout is ever left without one, in all runs whose cancels are accepted, exactly with one worker |
| Races.LosesTimeout | hook.cpp:113-136 | with more workers, a run in which a call has timed out twice and its fiber stays parked with nothing that will ever wake it but readiness |
| Races.RefusedCancelStrands | hook.cpp:118-119 | with any number of workers, a run in which a refused cancel does the same |
| Placement.OneWorkerEach | threadPoll_fiber_scheduler.cpp:181-196 | in every run a fiber is on a worker exactly from being picked to yielding or ending, and on one only |
| Progress.EveryWorkerCanMove | threadPoll_fiber_scheduler.cpp:138-207 | in every run, until an assertion fails, every worker can move, whatever it is in the middle of |
| Progress.QueuedIsExecuted | threadPoll_fiber_scheduler.cpp:181-196 | a free worker can take any queued task and executes it; the assertion fails exactly for a fiber that was handed over but has not yielded yet |
| Tallies.TasksAreKept | threadPoll_fiber_scheduler.h:154-160 | in every run each task has been taken, or waits to be, exactly as often as it was submitted, handed over, delivered, or scheduled by the end of a sleep |
| Layers.TimersFollow | hook.cpp:107-141 | a step of a hook, a callback or a worker does to the timers exactly what its one operation does |
| Layers.StepFollows | hook.cpp:118-132 | the same for the registry |
| Layers.TimersAreRun | TimerManager.cpp:69-107 | the timers below the hooks go through a run of TimerModel |
| Layers.EventsAreRun | IOManager.cpp:192-351 | the registry below the hooks goes through a careful run of EventRuns |
| Layers.ReportsAreDispatched | IOManager.cpp:117-174 | a worker dispatches all the reports it got, in order, before it is free again |
| Rest.RestMeansEnded | IOManager.cpp:368-374 | when queue, timers and the counter of pending events are empty and no worker does anything, in every run with any number of workers, every fiber has ended and every call has returned |
| SingleWorker.AssertionsHoldExactly | threadPoll_fiber_scheduler.cpp:155-159 | the assertion that a picked fiber is READY, and that a dispatched event is registered, hold in all runs exactly if there is one worker |
| SingleWorker.PicksRunningFiber | hook.cpp:123-132 | with more workers, a run in which a fiber is picked between addEvent and yield |
| SingleWorker.DispatchesStaleReport | IOManager.cpp:117-173 | with more workers, a run in which a reported event is cancelled before it is dispatched |
| SingleWorker.OccupiedExactly | IOManager.cpp:227-228 | a hook's addEvent fails its assertion exactly if somebody already waits for the same event |
| Hooks.AddEvent | hook.cpp:123-131 | registers the running fiber, is refused exactly if the kernel does, or hits the assertion |
| Hooks.Await | hook.cpp:107-135 | one wait with everybody else acting in between: it ends with the timer cancelled, before the flag is read, or, exactly if the kernel refuses, where addEvent failed; if it does not end, an assertion has failed or the fiber is parked |
| Hooks.ReadFlag | hook.cpp:136-140 | times out exactly if the flag is set; do_io tries again, connect returns |
| Hooks.DoIo | hook.cpp:79-145 | the retry loop performs a run of the step relation whatever the others do, and what it returns has the promises of Timeouts; it returns a result exactly when the function found something; it has not returned only if it is no longer watched, its fiber is parked, or an assertion has failed |
| Hooks.ConnectWithTimeout | hook.cpp:209-281 | the same for one call and one wait |
| Hooks.Sleep | hook.cpp:153-165 | the same for a sleep, which is at least as long as its period and which has not returned only if its fiber is parked or an assertion has failed |
| Periods.PeriodExactly | hook.cpp:153-195 | the period is the time asked for in whole milliseconds exactly if the request fits its 32-bit computation; otherwise its low 32 bits are, and the rest is 0 or the extended sign |
| Periods.LastsAsAsked | hook.cpp:153-195 | a sleep whose request fits lasts at least the milliseconds asked for |

## Left out

- Waits.TimeoutEndsWait: speaks of a fiber that waits when the cancel is made; a callback that runs before the fiber
  waits again is the subject of `Races.TimeoutsLastExactly`.
- Hooks.DoIo: the loop is watched for a given number of retries, because it need not end; what happens up to there is
  proved for every number.
- Timeouts.TimeoutIsSound: states the deadline as a wrapped 64-bit sum, as the code computes it; it is `to` after the
  wait began when that sum does not overflow. The clock is assumed not to go back, since a detected rollover delivers
  every timer at once.
- Shutdown.QuiescenceExactly: after `stop` begins, threads outside the pool submit nothing; the registry has the slot
  repair.
- Drain.DrainExactly: says nothing of tasks that are pinned to a thread that has left.
- Lateness.InTimeExactly: steps other than waiting take no time, and a wait that is restarted after a signal is not
  considered.
- TimerModel.NextTimerAgreement: requires a member; for a delay of 2^64-1 the source's answer cannot be told from
  "no timer".
- FiberModel.YieldReturnsToResumer: the fibers of one thread; a fiber that goes on in another thread enters that
  thread's map with a READY state, and its migration is not a step.
- In `Blocking`, do_io, connect_with_timeout and sleep are steps over values rather than methods over the classes of
  `Timers` and `Events`, since other workers act between any two of them; `Hooks` has the loops.
- In `Blocking` a free worker may take any queued task, which covers the scan for pins; an idle worker may poll at any
  time; the shutdown test is not repeated there.
- `OnTimer` and the callback it wraps each lock the weak pointer; the model locks once.
- The lookup of the descriptor in `do_io` and `connect`, non-blocking and closed descriptors, and `getsockopt` after a
  connect: they only decide whether a call blocks, and what it reports after it did.
- `fcntl`, `ioctl`, `setsockopt`, `socket` and the forwarding hooks, and fd_manager.cpp: no property beyond their
  branches.
- Readiness itself, edge-triggering and the contents of the pipe behind `tickle`: the kernel is its interest map and
  answers that are inputs. Waking a worker early only shortens a wait.
- Contexts, stacks, reference counts, and the moment in `yield` between setting READY and saving the context.
- Mutexes, read-write locks and semaphores: critical sections are steps. A clock reading belongs to the step after it.
- A second call of `stop`, negative descriptors, and the uninitialised `m_runInscheduler` of the main fiber, which is
  taken to be false.
- Timers without a callback in the scheduler's steps: an empty callback in the queue fails the assertion at
  threadPoll_fiber_scheduler.cpp:155.
- simple_fiber_scheduler.cpp, the example programs and logging.
