/**
 Timers as values: the specification that the classes of module Timers are proved against,
 and what the source promises about it.

 The ordered set of timers is modelled by the set `live` of timer addresses; the
 order (deadline, address) appears where the source makes it visible, in the order of
 delivery and in the test for insertion at the front. Every operation that reads the clock
 takes its reading as `now`.
 */
module TimerModel {
  import opened Words
  import opened Tasks

  /** Stands for the address of a timer object. */
  type TimerId = nat

  /** The fields of a timer, followed by its history. */
  datatype TimerState = TimerState(
    recurring: bool,
    ms: U64,
    next: U64,
    cb: Option<Callback>,
    given: Option<Callback>,  // the callback passed at creation
    base: U64,                // the moment the current period counts from
    keyed: U64,               // the moment the deadline was last written
    fires: nat,               // deliveries so far
    firedAt: U64,             // clock reading of the last delivery
    cancels: nat)             // calls of cancel that returned true

  datatype Timers = Timers(
    all: map<TimerId, TimerState>,
    live: set<TimerId>,
    tickled: bool,
    previous: U64)

  const HOUR: U64 := 60 * 60 * 1000

  function Empty(now: U64): Timers {
    Timers(map[], {}, false, now)
  }

  // ---------------------------------------------------------------- order

  /** The comparator: earlier deadline first, then lower address. */
  predicate Before(s: Timers, i: TimerId, j: TimerId)
    requires i in s.all && j in s.all
  {
    s.all[i].next < s.all[j].next || (s.all[i].next == s.all[j].next && i < j)
  }

  predicate AtFront(s: Timers, i: TimerId)
    requires i in s.all && s.live <= s.all.Keys
  {
    forall j | j in s.live && j != i :: Before(s, i, j)
  }

  ghost predicate Ordered(s: Timers, ids: seq<TimerId>)
    requires forall i | i in ids :: i in s.all
  {
    forall a, b | 0 <= a < b < |ids| :: Before(s, ids[a], ids[b])
  }

  /** `ids` is the ordered set, from front to back. */
  ghost predicate Lists(s: Timers, ids: seq<TimerId>) {
    && (forall i | i in ids :: i in s.all)
    && Ordered(s, ids)
    && (forall i :: i in ids <==> i in s.live)
  }

  lemma ListsErase(s: Timers, ids: seq<TimerId>, k: nat)
    requires Lists(s, ids) && k < |ids|
    ensures Lists(s.(live := s.live - {ids[k]}), ids[..k] + ids[k + 1..])
  {
    var rest := ids[..k] + ids[k + 1..];
    forall i | i in ids && i != ids[k] ensures i in rest {
      var j :| 0 <= j < |ids| && ids[j] == i;
      assert i == rest[if j < k then j else j - 1];
    }
  }

  lemma ListsInsert(s: Timers, ids: seq<TimerId>, k: nat, i: TimerId)
    requires Lists(s, ids) && k <= |ids| && i in s.all && i !in s.live
    requires forall j | 0 <= j < k :: Before(s, ids[j], i)
    requires k < |ids| ==> Before(s, i, ids[k])
    ensures Lists(s.(live := s.live + {i}), ids[..k] + [i] + ids[k..])
  {
  }

  lemma ListsUpdate(s: Timers, ids: seq<TimerId>, i: TimerId, t: TimerState)
    requires Lists(s, ids) && i in s.all
    requires i !in s.live || t.next == s.all[i].next
    ensures Lists(s.(all := s.all[i := t]), ids)
  {
  }

  lemma ListsMore(s: Timers, ids: seq<TimerId>, i: TimerId, t: TimerState)
    requires Lists(s, ids) && i !in s.all
    ensures Lists(s.(all := s.all[i := t]), ids)
  {
  }

  // ----------------------------------------------------------- operations

  /** addTimer: a front insertion notifies the waiter, but only the first one ever does. */
  function Insert(s: Timers, i: TimerId, t: TimerState): Timers
    requires s.live <= s.all.Keys
  {
    var s1 := s.(all := s.all[i := t], live := s.live + {i});
    s1.(tickled := s.tickled || AtFront(s1, i))
  }

  function Add(s: Timers, i: TimerId, ms: U64, cb: Option<Callback>, recurring: bool, now: U64): Timers
    requires s.live <= s.all.Keys
  {
    Insert(s, i, TimerState(recurring, ms, Plus(now, ms), cb, cb, now, now, 0, 0, 0))
  }

  function Cancel(s: Timers, i: TimerId): (Timers, bool)
    requires i in s.all
  {
    var t := s.all[i];
    if t.cb.Some? then
      (s.(all := s.all[i := t.(cb := None, cancels := t.cancels + 1)], live := s.live - {i}), true)
    else
      (s, false)
  }

  /** The new deadline is the present moment: the period is not added. */
  function Refresh(s: Timers, i: TimerId, now: U64): (Timers, bool)
    requires i in s.all
  {
    var t := s.all[i];
    if t.cb.None? || i !in s.live then
      (s, false)
    else
      (s.(all := s.all[i := t.(next := now, base := Minus(now, t.ms), keyed := now)]), true)
  }

  function Reset(s: Timers, i: TimerId, ms: U64, fromNow: bool, now: U64): (Timers, bool)
    requires i in s.all && s.live <= s.all.Keys
  {
    var t := s.all[i];
    if ms == t.ms && !fromNow then
      (s, true)
    else if t.cb.None? || i !in s.live then
      (s, false)
    else
      var start := if fromNow then now else Minus(t.next, t.ms);
      (Insert(s, i, t.(ms := ms, next := Plus(start, ms), base := start, keyed := now)), true)
  }

  predicate Rollover(previous: U64, now: U64) {
    now < previous && now < Minus(previous, HOUR)
  }

  /** The clock has been set back by more than an hour; or, in the first hour of the clock, where the
      subtraction wraps, at all. */
  lemma RolloverExactly(previous: U64, now: U64)
    ensures Rollover(previous, now) <==> if 3_600_000 <= previous then now + 3_600_000 < previous else now < previous
  {
  }

  /** The timers that a collection at `now` delivers. */
  function Due(s: Timers, now: U64): set<TimerId>
    requires s.live <= s.all.Keys
  {
    if Rollover(s.previous, now) then s.live else set i | i in s.live && s.all[i].next <= now
  }

  function Deliver(t: TimerState, now: U64): TimerState {
    var t1 := t.(fires := t.fires + 1, firedAt := now);
    if t.recurring then t1.(next := Plus(now, t.ms), base := now, keyed := now) else t1.(cb := None)
  }

  /** listExpiredCb: the clock reading is remembered only when there is some timer. */
  function Collect(s: Timers, now: U64): Timers
    requires s.live <= s.all.Keys
  {
    if s.live == {} then
      s
    else
      var due := Due(s, now);
      var all := map i | i in s.all :: if i in due then Deliver(s.all[i], now) else s.all[i];
      var live := set i | i in s.live && (i in due ==> s.all[i].recurring);
      s.(all := all, live := live, previous := now)
  }

  /** `ids` lists, in set order, the timers that a collection at `now` delivers. */
  ghost predicate Emits(s: Timers, now: U64, ids: seq<TimerId>)
    requires s.live <= s.all.Keys
  {
    && (forall i :: i in ids <==> i in Due(s, now))
    && Ordered(s, ids)
  }

  /** `d` is the delay that getNextTimer reports at `now`. */
  ghost predicate NextDelay(s: Timers, now: U64, d: U64)
    requires s.live <= s.all.Keys
  {
    if s.live == {} then
      d == MAX64
    else
      exists i :: i in s.live && AtFront(s, i) && d == if now >= s.all[i].next then 0 else s.all[i].next - now
  }

  /** The callbacks of the timers `ids`, in that order. */
  function CallbacksOf(t: Timers, ids: seq<TimerId>): seq<Option<Callback>>
    requires forall i | i in ids :: i in t.all
  {
    seq(|ids|, k requires 0 <= k < |ids| => assert ids[k] in ids; t.all[ids[k]].cb)
  }

  // ------------------------------------------------------------ invariant

  /** A timer is in the set exactly until its one delivery or cancellation ends it; while it is
      there it carries the callback it was made with, afterwards none; and its deadline is one
      period after `base`. */
  ghost predicate TimerInv(t: TimerState, live: bool) {
    && t.cb == (if live then t.given else None)
    && t.next == Plus(t.base, t.ms)
    && (if t.recurring then 0 else t.fires) + t.cancels + (if live then 1 else 0) == 1
  }

  ghost predicate Inv(s: Timers) {
    && s.live <= s.all.Keys
    && forall i | i in s.all :: TimerInv(s.all[i], i in s.live)
  }

  // ----------------------------------------------------------------- runs

  datatype Op =
    | OpAdd(i: TimerId, ms: U64, cb: Option<Callback>, recurring: bool, now: U64)
    | OpCancel(i: TimerId)
    | OpRefresh(i: TimerId, now: U64)
    | OpReset(i: TimerId, ms: U64, fromNow: bool, now: U64)
    | OpCollect(now: U64)

  /** A new timer has a new address; the other operations are on timers that exist. */
  predicate Enabled(s: Timers, op: Op) {
    && s.live <= s.all.Keys
    && match op
       case OpAdd(i, _, _, _, _) => i !in s.all
       case OpCollect(_) => true
       case _ => op.i in s.all
  }

  function Apply(s: Timers, op: Op): Timers
    requires Enabled(s, op)
  {
    match op
    case OpAdd(i, ms, cb, recurring, now) => Add(s, i, ms, cb, recurring, now)
    case OpCancel(i) => Cancel(s, i).0
    case OpRefresh(i, now) => Refresh(s, i, now).0
    case OpReset(i, ms, fromNow, now) => Reset(s, i, ms, fromNow, now).0
    case OpCollect(now) => Collect(s, now)
  }

  /** `trace` is a run of `ops`: it lists the states before, between and after them. */
  ghost predicate IsRun(trace: seq<Timers>, ops: seq<Op>) {
    && |trace| == |ops| + 1
    && forall k {:trigger ops[k]} | 0 <= k < |ops| ::
         Enabled(trace[k], ops[k]) && trace[k + 1] == Apply(trace[k], ops[k])
  }

  /** Taking a timer out first makes no difference to inserting it with its new value. */
  lemma InsertAgain(s: Timers, s1: Timers, i: TimerId, t: TimerState)
    requires s.live <= s.all.Keys
    requires s1 == s.(all := s.all[i := t], live := s.live - {i})
    ensures Insert(s1, i, s1.all[i]) == Insert(s, i, t)
  {
    assert s1.all[i := t] == s1.all;
    assert s1.live + {i} == s.live + {i};
  }

  lemma ApplyKeepsInv(s: Timers, op: Op)
    requires Inv(s) && Enabled(s, op)
    ensures Inv(Apply(s, op))
  {
  }

  /** The timer-set invariant holds in every reachable state. */
  lemma {:induction false} RunKeepsInv(trace: seq<Timers>, ops: seq<Op>, k: nat)
    requires IsRun(trace, ops) && Inv(trace[0]) && k < |trace|
    ensures Inv(trace[k])
  {
    if k > 0 {
      RunKeepsInv(trace, ops, k - 1);
      ApplyKeepsInv(trace[k - 1], ops[k - 1]);
    }
  }

  /** A step never forgets a timer, and never again touches one that has left the set. */
  lemma ApplyFreezes(s: Timers, op: Op, i: TimerId)
    requires Inv(s) && Enabled(s, op) && i in s.all
    ensures i in Apply(s, op).all
    ensures Apply(s, op).all[i].recurring == s.all[i].recurring && Apply(s, op).all[i].given == s.all[i].given
    ensures i !in s.live ==> i !in Apply(s, op).live && Apply(s, op).all[i] == s.all[i]
  {
  }

  /** One-shot fate. In a run from the empty set, a one-shot timer that exists at step `j` is, at
      every later step `k`, exactly one of pending, delivered once, and cancelled once; and once it
      is no longer pending nothing about it ever changes, so a cancelled timer is never delivered and
      a delivered one is never cancelled or armed again. */
  lemma {:induction false} OneShotFate(trace: seq<Timers>, ops: seq<Op>, now: U64, i: TimerId, j: nat, k: nat)
    requires IsRun(trace, ops) && trace[0] == Empty(now)
    requires j <= k < |trace| && i in trace[j].all && !trace[j].all[i].recurring
    ensures i in trace[k].all && !trace[k].all[i].recurring
    ensures var t := trace[k].all[i];
            (i in trace[k].live && t.fires == 0 && t.cancels == 0 && t.cb == t.given) ||
            (i !in trace[k].live && t.fires == 1 && t.cancels == 0 && t.cb == None) ||
            (i !in trace[k].live && t.fires == 0 && t.cancels == 1 && t.cb == None)
    ensures i !in trace[j].live ==> i !in trace[k].live && trace[k].all[i] == trace[j].all[i]
    decreases k
  {
    RunKeepsInv(trace, ops, k);
    if j < k {
      OneShotFate(trace, ops, now, i, j, k - 1);
      RunKeepsInv(trace, ops, k - 1);
      ApplyFreezes(trace[k - 1], ops[k - 1], i);
    }
  }

  /** Which calls succeed: cancel and refresh exactly on members with a callback; reset also when it
      is asked for the period the timer already has, on whatever timer. */
  lemma WhenOperationsSucceed(s: Timers, i: TimerId, ms: U64, fromNow: bool, now: U64)
    requires Inv(s) && i in s.all && s.all[i].given.Some?
    ensures Cancel(s, i).1 <==> i in s.live
    ensures Refresh(s, i, now).1 <==> i in s.live
    ensures Reset(s, i, ms, fromNow, now).1 <==> i in s.live || (ms == s.all[i].ms && !fromNow)
    ensures i !in s.live ==> Cancel(s, i).0 == s && Refresh(s, i, now).0 == s && Reset(s, i, ms, fromNow, now).0 == s
  {
  }

  /** An operation on one timer leaves every other one as it was, in the set or out of it. */
  lemma OthersUntouched(s: Timers, op: Op, j: TimerId)
    requires Enabled(s, op) && !op.OpCollect? && op.i != j
    ensures var s1 := Apply(s, op);
            && (j in s1.all <==> j in s.all) && (j in s1.live <==> j in s.live)
            && (j in s.all ==> s1.all[j] == s.all[j]) && s1.previous == s.previous
  {
  }

  /** What a reset sets, from now or from the timer's own start: the period is the one asked for, the deadline
      one such period after the start. All else about the timer and its membership stays. */
  lemma ResetSets(s: Timers, i: TimerId, ms: U64, fromNow: bool, now: U64)
    requires Inv(s) && i in s.live && s.all[i].cb.Some? && (fromNow || ms != s.all[i].ms)
    ensures var (s1, done) := Reset(s, i, ms, fromNow, now);
            var start := if fromNow then now else s.all[i].base;
            && done && s1.live == s.live && s1.all.Keys == s.all.Keys
            && s1.all[i] == s.all[i].(ms := ms, next := Plus(start, ms), base := start, keyed := now)
            && forall j | j in s.all && j != i :: s1.all[j] == s.all[j]
  {
    assert TimerInv(s.all[i], true);
  }

  /** The period that timer `i` was last given, by the call that made it or by a reset while it was a member. */
  ghost function AskedPeriod(trace: seq<Timers>, ops: seq<Op>, i: TimerId, k: nat): U64
    requires IsRun(trace, ops) && k < |trace|
  {
    if k == 0 then 0
    else
      match ops[k - 1]
      case OpAdd(j, ms, _, _, _) => if i == j then ms else AskedPeriod(trace, ops, i, k - 1)
      case OpReset(j, ms, _, _) =>
        if i == j && i in trace[k - 1].live && trace[k - 1].all[i].cb.Some? then ms
        else AskedPeriod(trace, ops, i, k - 1)
      case _ => AskedPeriod(trace, ops, i, k - 1)
  }

  /** A timer is what its callers asked for: in every run it has the callback and the recurrence of the one call
      that made it, and the period that was last asked for. */
  lemma {:induction false} AsAsked(trace: seq<Timers>, ops: seq<Op>, now: U64, i: TimerId, k: nat)
    requires IsRun(trace, ops) && trace[0] == Empty(now) && k < |trace| && i in trace[k].all
    ensures trace[k].all[i].ms == AskedPeriod(trace, ops, i, k)
    ensures exists j ::
      && 0 <= j < k && ops[j].OpAdd? && ops[j].i == i
      && trace[k].all[i].recurring == ops[j].recurring && trace[k].all[i].given == ops[j].cb
    decreases k
  {
    var s, op := trace[k - 1], ops[k - 1];
    RunKeepsInv(trace, ops, k - 1);
    if i in s.all {
      AsAsked(trace, ops, now, i, k - 1);
      ApplyFreezes(s, op, i);
      assert TimerInv(s.all[i], i in s.live);
      var j :| 0 <= j < k - 1 && ops[j].OpAdd? && ops[j].i == i
               && s.all[i].recurring == ops[j].recurring && s.all[i].given == ops[j].cb;
    } else {
      ApplyArms(s, op, i);
      assert op.OpAdd? && op.i == i;
    }
  }

  /** The clock reading that a rollover is detected by: the one of the last collection that found a timer. */
  ghost function LastReading(trace: seq<Timers>, ops: seq<Op>, now: U64, k: nat): U64
    requires IsRun(trace, ops) && k < |trace|
  {
    if k == 0 then now
    else if ops[k - 1].OpCollect? && trace[k - 1].live != {} then ops[k - 1].now
    else LastReading(trace, ops, now, k - 1)
  }

  lemma {:induction false} ClockRemembered(trace: seq<Timers>, ops: seq<Op>, now: U64, k: nat)
    requires IsRun(trace, ops) && trace[0] == Empty(now) && k < |trace|
    ensures trace[k].previous == LastReading(trace, ops, now, k)
  {
    if k > 0 {
      ClockRemembered(trace, ops, now, k - 1);
    }
  }

  /** Notification of the waiter. In every run `tickled` is set exactly from the first timer ever added on;
      so the front insertion that finds it clear, and notifies, is that first one, and no later one does. */
  lemma {:induction false} NotifiedOnce(trace: seq<Timers>, ops: seq<Op>, now: U64, k: nat)
    requires IsRun(trace, ops) && trace[0] == Empty(now) && k < |trace|
    ensures trace[k].tickled <==> exists j :: 0 <= j < k && ops[j].OpAdd?
    ensures trace[k].tickled <==> trace[k].all.Keys != {}
  {
    if k > 0 {
      NotifiedOnce(trace, ops, now, k - 1);
      RunKeepsInv(trace, ops, k - 1);
      var s, op := trace[k - 1], ops[k - 1];
      if op.OpAdd? {
        assert op.i in trace[k].all.Keys;
      }
      assert (exists j :: 0 <= j < k && ops[j].OpAdd?) <==> (exists j :: 0 <= j < k - 1 && ops[j].OpAdd?) || op.OpAdd?;
    }
  }

  // -------------------------------------------------------------- delivery

  /** The order of delivery is determined: there is one way to list the due timers in set order. */
  lemma {:induction false} EmissionUnique(s: Timers, a: seq<TimerId>, b: seq<TimerId>)
    requires forall i | i in a :: i in s.all
    requires forall i :: i in a <==> i in b
    requires Ordered(s, a) && Ordered(s, b)
    ensures a == b
  {
    assert a != [] ==> a[0] in a;
    assert b != [] ==> b[0] in b;
    if a != [] {
      assert a[0] in b && b[0] in a;
      assert a[0] == b[0];
      forall i ensures i in a[1..] <==> i in b[1..] {
        assert forall k | 0 < k < |a| :: Before(s, a[0], a[k]);
        assert forall k | 0 < k < |b| :: Before(s, b[0], b[k]);
        assert i in a <==> i == a[0] || i in a[1..];
        assert i in b <==> i == b[0] || i in b[1..];
      }
      EmissionUnique(s, a[1..], b[1..]);
      assert a == [a[0]] + a[1..] && b == [b[0]] + b[1..];
    }
  }

  lemma {:induction false} FirstOf(s: Timers, ids: set<TimerId>) returns (i: TimerId)
    requires ids != {} && ids <= s.all.Keys
    ensures i in ids && forall j | j in ids && j != i :: Before(s, i, j)
    decreases |ids|
  {
    var k :| k in ids;
    var rest := ids - {k};
    assert forall j | j in ids :: j == k || j in rest;
    if rest == {} {
      i := k;
    } else {
      i := FirstOf(s, rest);
      if Before(s, k, i) {
        i := k;
      }
    }
  }

  /** Any set of timers can be listed in set order, so a collection is always possible. */
  lemma {:induction false} EmissionExists(s: Timers, ids: set<TimerId>) returns (order: seq<TimerId>)
    requires ids <= s.all.Keys
    ensures (forall i :: i in order <==> i in ids) && Ordered(s, order)
    decreases |ids|
  {
    if ids == {} {
      order := [];
    } else {
      var i := FirstOf(s, ids);
      var rest := EmissionExists(s, ids - {i});
      assert forall k | 0 <= k < |rest| :: rest[k] in rest;
      order := [i] + rest;
    }
  }

  /** Exact expiry. Without rollover the delivered timers are exactly the members whose deadline has
      come; what remains are the later members, untouched, and the delivered recurring ones, re-keyed
      one period from now. With rollover every member is delivered. Nothing is delivered twice. */
  lemma ExactExpiry(s: Timers, now: U64, ids: seq<TimerId>)
    requires Inv(s) && Emits(s, now, ids)
    ensures forall a, b | 0 <= a < b < |ids| :: ids[a] != ids[b]
    ensures forall a, b | 0 <= a < b < |ids| ::
      && ids[a] in s.all && ids[b] in s.all && s.all[ids[a]].next <= s.all[ids[b]].next
      && (s.all[ids[a]].next == s.all[ids[b]].next ==> ids[a] < ids[b])
    ensures forall i | i in s.live :: i in ids <==> s.all[i].next <= now || Rollover(s.previous, now)
    ensures forall i | i in ids :: i in s.live && Collect(s, now).all[i].fires == s.all[i].fires + 1
                                     && Collect(s, now).all[i].firedAt == now
    ensures forall i | i in s.all && i !in ids :: Collect(s, now).all[i] == s.all[i]
    ensures forall i :: i in Collect(s, now).live <==> i in s.live && (i !in ids || s.all[i].recurring)
    ensures forall i | i in ids && s.all[i].recurring ::
      Collect(s, now).all[i].next == Plus(now, s.all[i].ms) && Collect(s, now).all[i].cb == s.all[i].cb
  {
    EmitsMembers(s, now, ids);
    assert forall i | i in ids :: i in Due(s, now);
    if s.live == {} {
      assert forall i :: i !in ids;
    }
  }

  /** Different members of the set. */
  ghost predicate Members(s: Timers, ids: seq<TimerId>) {
    && (forall k | 0 <= k < |ids| :: ids[k] in s.all && ids[k] in s.live)
    && (forall a, b | 0 <= a < b < |ids| :: ids[a] != ids[b])
  }

  /** `cbs` are the callbacks of the first timers of `ids`. */
  ghost predicate Carried(s: Timers, ids: seq<TimerId>, cbs: seq<Option<Callback>>) {
    |cbs| <= |ids| && forall k | 0 <= k < |cbs| :: ids[k] in s.all && cbs[k] == s.all[ids[k]].cb
  }

  lemma CarriedMore(s: Timers, ids: seq<TimerId>, cbs: seq<Option<Callback>>, cb: Option<Callback>)
    requires Carried(s, ids, cbs) && |cbs| < |ids| && ids[|cbs|] in s.all && cb == s.all[ids[|cbs|]].cb
    ensures Carried(s, ids, cbs + [cb])
  {
  }

  lemma EmitsMembers(s: Timers, now: U64, ids: seq<TimerId>)
    requires Inv(s) && Emits(s, now, ids)
    ensures Members(s, ids)
  {
    assert forall k | 0 <= k < |ids| :: ids[k] in ids;
  }

  /** A collection under way: the timers `ids` are out of the set, and the first `n` of them have been
      delivered and, if recurring, put back. */
  ghost function Partial(s: Timers, ids: seq<TimerId>, n: nat, now: U64): Timers
    requires n <= |ids| && s.live <= s.all.Keys
  {
    var all := map i | i in s.all :: if i in ids[..n] then Deliver(s.all[i], now) else s.all[i];
    var live := set i | i in s.live && (i in ids ==> i in ids[..n] && s.all[i].recurring);
    s.(all := all, live := live, previous := now)
  }

  lemma PartialStep(s: Timers, ids: seq<TimerId>, n: nat, now: U64)
    requires Inv(s) && n < |ids| && Members(s, ids)
    ensures var p, p', i := Partial(s, ids, n, now), Partial(s, ids, n + 1, now), ids[n];
            && i in p.all && i !in p.live && p.all[i] == s.all[i]
            && p' == p.(all := p.all[i := Deliver(s.all[i], now)],
                        live := if s.all[i].recurring then p.live + {i} else p.live)
  {
    assert ids[..n + 1] == ids[..n] + [ids[n]];
    assert ids[n] !in ids[..n];
  }

  lemma PartialEnd(s: Timers, ids: seq<TimerId>, now: U64)
    requires Inv(s) && s.live != {} && Emits(s, now, ids)
    ensures Partial(s, ids, |ids|, now) == Collect(s, now)
  {
    assert ids[..|ids|] == ids;
  }

  lemma NothingDue(s: Timers, order: seq<TimerId>, now: U64)
    requires Inv(s) && Lists(s, order) && order != []
    requires !Rollover(s.previous, now) && s.all[order[0]].next > now
    ensures Emits(s, now, []) && Collect(s, now) == s.(previous := now)
  {
    assert order[0] in s.live;
    assert forall j | 0 < j < |order| :: Before(s, order[0], order[j]);
    assert Due(s, now) == {};
  }

  /** Erasing the timers before position `k` of the set leaves the later ones. */
  lemma PartialStart(s: Timers, order: seq<TimerId>, k: nat, now: U64)
    requires Inv(s) && Lists(s, order) && k <= |order|
    ensures Lists(Partial(s, order[..k], 0, now), order[k..])
    ensures Partial(s, order[..k], 0, now).all == s.all
  {
    var p := Partial(s, order[..k], 0, now);
    assert order == order[..k] + order[k..];
    forall i ensures i in order[k..] <==> i in p.live {
      assert i in order <==> i in order[..k] || i in order[k..];
      if i in order[k..] {
        var b :| k <= b < |order| && order[b] == i;
        assert forall a | 0 <= a < k :: Before(s, order[a], order[b]);
      }
    }
  }

  /** Next-timer agreement: what getNextTimer reports is exactly how long collections stay empty. */
  lemma NextTimerAgreement(s: Timers, t: U64, d: U64, later: U64)
    requires Inv(s) && s.live != {} && NextDelay(s, t, d)
    requires s.previous <= t <= later
    ensures Due(s, later) != {} <==> t + d <= later
    ensures d == 0 <==> Due(s, t) != {}
  {
    var i :| i in s.live && AtFront(s, i) && d == if t >= s.all[i].next then 0 else s.all[i].next - t;
    assert forall j | j in s.live :: s.all[i].next <= s.all[j].next;
    if t + d <= later {
      assert i in Due(s, later);
    }
    if d == 0 {
      assert i in Due(s, t);
    }
  }

  /** The answer "none" means that there is no timer, or that the clock reads 0 and every timer is due at the
      last moment of the clock. */
  lemma NoneExactly(s: Timers, now: U64, d: U64)
    requires Inv(s) && NextDelay(s, now, d)
    ensures d == MAX64 <==> s.live == {} || (now == 0 && forall i | i in s.live :: s.all[i].next == MAX64)
  {
    if s.live != {} {
      var i :| i in s.live && AtFront(s, i) && d == if now >= s.all[i].next then 0 else s.all[i].next - now;
      assert forall j | j in s.live :: s.all[i].next <= s.all[j].next;
    }
  }

  // ------------------------------------------------------------ arithmetic

  function ResetAll(s: Timers, i: TimerId, periods: seq<U64>, now: U64): (r: Timers)
    requires i in s.all && s.live <= s.all.Keys
    ensures i in r.all && r.live <= r.all.Keys
    decreases |periods|
  {
    if periods == [] then
      s
    else
      ResetAll(Reset(s, i, periods[0], false, now).0, i, periods[1..], now)
  }

  /** A reset that does not start from now moves only the end of the period. */
  lemma ResetKeepsBase(s: Timers, i: TimerId, ms: U64, now: U64)
    requires Inv(s) && i in s.all
    ensures var s1 := Reset(s, i, ms, false, now).0;
            && Inv(s1) && s1.live == s.live && s1.all.Keys == s.all.Keys
            && s1.all[i].base == s.all[i].base && s1.all[i].cb == s.all[i].cb && s1.all[i].given == s.all[i].given
            && (s.all[i].cb.Some? ==> s1.all[i].ms == ms && s1.all[i].next == Plus(s.all[i].base, ms))
            && (s.all[i].cb.None? ==> s1 == s)
            && (forall j | j in s.all && j != i :: s1.all[j] == s.all[j])
  {
    ApplyKeepsInv(s, OpReset(i, ms, false, now));
  }

  lemma {:induction false} ResetChainEffect(s: Timers, i: TimerId, periods: seq<U64>, now: U64)
    requires Inv(s) && i in s.all && periods != []
    ensures var chain, last := ResetAll(s, i, periods, now), periods[|periods| - 1];
            && chain.live == s.live && chain.all.Keys == s.all.Keys
            && (s.all[i].cb.None? ==> chain == s)
            && (s.all[i].cb.Some? ==> chain.all[i].ms == last && chain.all[i].next == Plus(s.all[i].base, last))
            && (forall j | j in s.all && j != i :: chain.all[j] == s.all[j])
    decreases |periods|
  {
    var s1 := Reset(s, i, periods[0], false, now).0;
    ResetKeepsBase(s, i, periods[0], now);
    if |periods| == 1 {
      assert ResetAll(s1, i, periods[1..], now) == s1;
    } else {
      assert periods[1..][|periods| - 2] == periods[|periods| - 1];
      ResetChainEffect(s1, i, periods[1..], now);
    }
  }

  /** A chain of resets that do not start from now has the effect of its last call alone. */
  lemma ResetChain(s: Timers, i: TimerId, periods: seq<U64>, now: U64)
    requires Inv(s) && i in s.all && periods != []
    ensures var chain := ResetAll(s, i, periods, now);
            var last := Reset(s, i, periods[|periods| - 1], false, now).0;
            && chain.all.Keys == last.all.Keys && chain.live == last.live
            && chain.all[i].next == last.all[i].next && chain.all[i].ms == last.all[i].ms
            && (forall j | j in s.all && j != i :: chain.all[j] == last.all[j])
  {
    ResetChainEffect(s, i, periods, now);
    ResetKeepsBase(s, i, periods[|periods| - 1], now);
  }

  /** The effect of a step on the moment timer `i` was last armed: creation, a reset from now, or a
      recurring delivery. A refresh counts as having armed the timer one period before it. */
  ghost function ArmedBy(s: Timers, op: Op, i: TimerId, before: U64): U64
    requires Enabled(s, op)
  {
    match op
    case OpAdd(j, _, _, _, now) => if i == j then now else before
    case OpReset(j, ms, fromNow, now) =>
      if i == j && fromNow && Reset(s, j, ms, fromNow, now).1 then now else before
    case OpRefresh(j, now) =>
      if i == j && Refresh(s, j, now).1 then Minus(now, s.all[j].ms) else before
    case OpCollect(now) => if i in Due(s, now) && s.all[i].recurring then now else before
    case OpCancel(_) => before
  }

  ghost function LastArmed(trace: seq<Timers>, ops: seq<Op>, i: TimerId, k: nat): U64
    requires IsRun(trace, ops) && k < |trace|
  {
    if k == 0 then 0 else ArmedBy(trace[k - 1], ops[k - 1], i, LastArmed(trace, ops, i, k - 1))
  }

  lemma ApplyArms(s: Timers, op: Op, i: TimerId)
    requires Inv(s) && Enabled(s, op) && i in Apply(s, op).all
    ensures i !in s.all ==> op.OpAdd? && op.i == i
    ensures Apply(s, op).all[i].base == ArmedBy(s, op, i, if i in s.all then s.all[i].base else 0)
  {
  }

  /** Arming-time arithmetic: in every run, deadline minus period is the last arming moment. */
  lemma {:induction false} ArmingTime(trace: seq<Timers>, ops: seq<Op>, now: U64, i: TimerId, k: nat)
    requires IsRun(trace, ops) && trace[0] == Empty(now) && k < |trace| && i in trace[k].all
    ensures Minus(trace[k].all[i].next, trace[k].all[i].ms) == LastArmed(trace, ops, i, k)
    decreases k
  {
    RunKeepsInv(trace, ops, k);
    assert TimerInv(trace[k].all[i], i in trace[k].live);
    if k > 0 {
      RunKeepsInv(trace, ops, k - 1);
      ApplyArms(trace[k - 1], ops[k - 1], i);
      if i in trace[k - 1].all {
        ArmingTime(trace, ops, now, i, k - 1);
        assert TimerInv(trace[k - 1].all[i], i in trace[k - 1].live);
      }
    }
  }

  /** Step `op` leaves the arming of timer `i` to its own deliveries: no reset or refresh of it, no
      clock rollover, no deadline past the end of the clock. */
  ghost predicate Undisturbed(s: Timers, op: Op, i: TimerId) {
    match op
    case OpRefresh(j, _) => i != j
    case OpReset(j, _, _, _) => i != j
    case OpCollect(now) => !Rollover(s.previous, now) && (i in s.all ==> now + s.all[i].ms < TWO64)
    case _ => true
  }

  ghost predicate Spaced(t: TimerState, t0: U64, p: U64) {
    && t.recurring && t.ms == p
    && (t.fires > 0 ==> t.firedAt >= t0 + t.fires * p)
    && t.next >= t0 + (t.fires + 1) * p
  }

  lemma ApplyKeepsSpacing(s: Timers, op: Op, i: TimerId, t0: U64, p: U64)
    requires i in s.all && Enabled(s, op) && Undisturbed(s, op, i)
    requires Spaced(s.all[i], t0, p)
    ensures i in Apply(s, op).all
    ensures Spaced(Apply(s, op).all[i], t0, p)
    ensures Apply(s, op).all[i].fires <= s.all[i].fires + 1
  {
    var t, t' := s.all[i], Apply(s, op).all[i];
    if op.OpCollect? && i in Due(s, op.now) {
      assert t' == Deliver(t, op.now);
      assert (t.fires + 1 + 1) * p == (t.fires + 1) * p + p;
    } else {
      assert t'.fires == t.fires && t'.next == t.next && t'.firedAt == t.firedAt && t'.ms == t.ms;
    }
  }

  lemma AddIsSpaced(s: Timers, op: Op)
    requires Enabled(s, op) && op.OpAdd? && op.recurring && op.now + op.ms < TWO64
    ensures op.i in Apply(s, op).all && Spaced(Apply(s, op).all[op.i], op.now, op.ms)
  {
    assert (0 + 1) * op.ms == op.ms;
  }

  /** Timer `i` is created by step `j` with period `p` at `t0` and then left undisturbed up to step `k`. */
  ghost predicate LeftAlone(trace: seq<Timers>, ops: seq<Op>, i: TimerId, j: nat, k: nat, t0: U64, p: U64) {
    && IsRun(trace, ops)
    && j < k < |trace| && ops[j].OpAdd? && ops[j].i == i && ops[j].recurring && ops[j].ms == p && ops[j].now == t0
    && t0 + p < TWO64
    && forall m | j < m < k :: Undisturbed(trace[m], ops[m], i)
  }

  lemma {:induction false} StaysSpaced(trace: seq<Timers>, ops: seq<Op>, i: TimerId, j: nat, k: nat, t0: U64, p: U64)
    requires LeftAlone(trace, ops, i, j, k, t0, p)
    ensures i in trace[k].all && Spaced(trace[k].all[i], t0, p)
    ensures j + 1 < k ==> i in trace[k - 1].all && trace[k].all[i].fires <= trace[k - 1].all[i].fires + 1
    decreases k
  {
    if j + 1 == k {
      AddIsSpaced(trace[j], ops[j]);
    } else {
      StaysSpaced(trace, ops, i, j, k - 1, t0, p);
      ApplyKeepsSpacing(trace[k - 1], ops[k - 1], i, t0, p);
    }
  }

  /** Recurring spacing: for a timer created at `t0` with period `p` and left undisturbed, the n-th
      delivery happens no earlier than t0 + n*p, however late collections are; and a collection
      delivers it at most once. */
  lemma RecurringSpacing(trace: seq<Timers>, ops: seq<Op>, i: TimerId, j: nat, k: nat, t0: U64, p: U64)
    requires LeftAlone(trace, ops, i, j, k, t0, p)
    ensures i in trace[k].all
    ensures var t := trace[k].all[i];
            && (t.fires > 0 ==> t.firedAt >= t0 + t.fires * p)
            && t.next >= t0 + (t.fires + 1) * p
    ensures j + 1 < k ==> i in trace[k - 1].all && trace[k].all[i].fires <= trace[k - 1].all[i].fires + 1
  {
    StaysSpaced(trace, ops, i, j, k, t0, p);
  }
}
