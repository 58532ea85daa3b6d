/**
 The timer classes, with the fields of the source, proved to refine TimerModel.

 std::set is a sequence of timer objects in strictly increasing order; its find, insert, erase and
 lower_bound are loops that compare with the comparator and require the order to be intact, so
 calling them shows that no key is changed while its timer is in the set.
 */
module Timers {
  import opened Words
  import opened Tasks
  import M = TimerModel

  class Timer {
    const id: M.TimerId  // the address of the object
    const manager: TimerManager
    const recurring: bool
    var ms: U64
    var next: U64
    var cb: Option<Callback>

    constructor (id: M.TimerId, ms: U64, cb: Option<Callback>, recurring: bool, manager: TimerManager, now: U64)
      ensures this.id == id && this.manager == manager && this.recurring == recurring
      ensures this.ms == ms && this.cb == cb && this.next == Plus(now, ms)
    {
      this.id, this.manager, this.recurring := id, manager, recurring;
      this.ms, this.cb, this.next := ms, cb, Plus(now, ms);
    }

    method Cancel(ghost m: M.Timers) returns (ok: bool)
      requires manager.Represents(m) && M.Inv(m) && manager.Owns(this)
      modifies this`cb, manager`timers, manager`order
      ensures manager.Represents(M.Cancel(m, id).0) && ok == M.Cancel(m, id).1
    {
      ok := cb.Some?;
      if ok {
        ghost var t := m.all[id];
        ghost var m1 := m.(all := m.all[id := t.(cb := None, cancels := t.cancels + 1)]);
        assert M.Cancel(m, id).0 == m1.(live := m1.live - {id});
        M.ListsUpdate(m, manager.order, id, m1.all[id]);
        cb := None;
        var k := manager.Find(this, m1);
        manager.Erase(k, m1);
      }
    }

    method Refresh(now: U64, ghost m: M.Timers) returns (ok: bool)
      requires manager.Represents(m) && M.Inv(m) && manager.Owns(this)
      modifies this`next, manager`timers, manager`order
      ensures manager.Represents(M.Refresh(m, id, now).0) && ok == M.Refresh(m, id, now).1
    {
      ghost var t := m.all[id];
      if cb.None? {
        return false;
      }
      var k := manager.Find(this, m);
      if k == |manager.timers| {
        return false;
      }
      ghost var m0 := m.(live := m.live - {id});
      ghost var m1 := m0.(all := m.all[id := t.(next := now, base := Minus(now, t.ms), keyed := now)]);
      assert M.Refresh(m, id, now).0 == m1.(live := m1.live + {id});
      Retime(k, now, m, m1.all[id]);
      k := manager.InsertOrdered(this, m1);
      ok := true;
    }

    /** The part of refresh that takes the timer at position `k` out of the set and re-keys it. */
    method Retime(k: nat, now: U64, ghost m: M.Timers, ghost value: M.TimerState)
      requires manager.Represents(m) && manager.Owns(this)
      requires k < |manager.timers| && manager.order[k] == id
      requires value.recurring == recurring && value.cb == cb && value.ms == ms && value.next == now
      modifies this`next, manager`timers, manager`order
      ensures manager.Represents(m.(all := m.all[id := value], live := m.live - {id}))
    {
      manager.Erase(k, m);
      M.ListsUpdate(m.(live := m.live - {id}), manager.order, id, value);
      next := now;
    }

    method Reset(ms: U64, fromNow: bool, now: U64, ghost m: M.Timers) returns (ok: bool)
      requires manager.Represents(m) && M.Inv(m) && manager.Owns(this)
      modifies this`ms, this`next
      modifies manager`timers, manager`order, manager`tickled, manager`notified
      ensures manager.Represents(M.Reset(m, id, ms, fromNow, now).0) && ok == M.Reset(m, id, ms, fromNow, now).1
    {
      if ms == this.ms && !fromNow {
        return true;
      }
      if cb.None? {
        return false;
      }
      var k := manager.Find(this, m);
      if k == |manager.timers| {
        return false;
      }
      var start := if fromNow then now else Minus(next, this.ms);
      ghost var value := m.all[id].(ms := ms, next := Plus(start, ms), base := start, keyed := now);
      M.InsertAgain(m, m.(all := m.all[id := value], live := m.live - {id}), id, value);
      Rekey(k, ms, start, m, value);
      manager.Insert(this, m.(all := m.all[id := value], live := m.live - {id}));
      ok := true;
    }

    /** The part of reset that takes the timer at position `k` out of the set and re-keys it. */
    method Rekey(k: nat, ms: U64, start: U64, ghost m: M.Timers, ghost value: M.TimerState)
      requires manager.Represents(m) && manager.Owns(this)
      requires k < |manager.timers| && manager.order[k] == id
      requires value.recurring == recurring && value.cb == cb && value.ms == ms && value.next == Plus(start, ms)
      modifies this`ms, this`next, manager`timers, manager`order
      ensures manager.Represents(m.(all := m.all[id := value], live := m.live - {id}))
    {
      manager.Erase(k, m);
      M.ListsUpdate(m.(live := m.live - {id}), manager.order, id, value);
      this.ms := ms;
      next := Plus(start, ms);
    }
  }

  predicate Less(a: Timer, b: Timer)
    reads a, b
  {
    a.next < b.next || (!(b.next < a.next) && a.id < b.id)
  }

  class TimerManager {
    var timers: seq<Timer>
    var tickled: bool
    var previous: U64
    var notified: nat  // calls of onTimerInsertedAtFront

    ghost var objects: map<M.TimerId, Timer>  // every timer handed out, by address
    ghost var repr: set<Timer>
    ghost var order: seq<M.TimerId>           // the addresses of `timers`

    ghost predicate Owns(t: Timer)
      reads this
    {
      t.id in objects && objects[t.id] == t
    }

    /** The objects hold the fields of `m`, and the set lists the members of `m` in order. Required at
        every access to the set. */
    ghost predicate Represents(m: M.Timers)
      reads this, repr
    {
      && objects.Keys == m.all.Keys
      && (forall i {:trigger objects[i]} | i in objects ::
            && objects[i] in repr && objects[i].id == i && objects[i].manager == this
            && objects[i].recurring == m.all[i].recurring && objects[i].ms == m.all[i].ms
            && objects[i].next == m.all[i].next && objects[i].cb == m.all[i].cb)
      && |order| == |timers|
      && (forall k | 0 <= k < |order| :: order[k] in objects && timers[k] == objects[order[k]])
      && M.Lists(m, order)
      && tickled == m.tickled && previous == m.previous
      && notified == (if tickled then 1 else 0)
    }

    constructor (now: U64)
      ensures Represents(M.Empty(now)) && objects == map[]
    {
      timers, tickled, previous, notified := [], false, now, 0;
      objects, repr, order := map[], {}, [];
    }

    // ------------------------------------------------- the ordered set

    /** find: the position of `t`, or the end. */
    method Find(t: Timer, ghost m: M.Timers) returns (k: nat)
      requires Represents(m) && Owns(t)
      ensures k <= |timers|
      ensures k < |timers| ==> order[k] == t.id
      ensures k < |timers| <==> t.id in m.live
    {
      k := 0;
      while k < |timers| && Less(timers[k], t)
        invariant k <= |timers|
        invariant forall j | 0 <= j < k :: M.Before(m, order[j], t.id)
      {
        k := k + 1;
      }
      if k < |timers| && Less(t, timers[k]) {
        k := |timers|;
      }
    }

    method Erase(k: nat, ghost m: M.Timers)
      requires Represents(m) && k < |timers|
      modifies this`timers, this`order
      ensures Represents(m.(live := m.live - {old(order[k])}))
    {
      M.ListsErase(m, order, k);
      timers := timers[..k] + timers[k + 1..];
      order := order[..k] + order[k + 1..];
    }

    /** Where insert puts a timer that is not in the set. */
    method Position(t: Timer, ghost m: M.Timers) returns (k: nat)
      requires Represents(m) && Owns(t) && t.id !in m.live
      ensures k <= |timers| && forall j | 0 <= j < k :: M.Before(m, order[j], t.id)
      ensures k < |timers| ==> M.Before(m, t.id, order[k])
    {
      k := 0;
      while k < |timers| && Less(timers[k], t)
        invariant k <= |timers|
        invariant forall j | 0 <= j < k :: M.Before(m, order[j], t.id)
      {
        k := k + 1;
      }
      assert k < |timers| ==> order[k] in m.live;
    }

    /** insert, for a timer that is not in the set; returns its position. */
    method InsertOrdered(t: Timer, ghost m: M.Timers) returns (k: nat)
      requires Represents(m) && Owns(t) && t.id !in m.live
      modifies this`timers, this`order
      ensures Represents(m.(live := m.live + {t.id}))
      ensures k < |order| && order[k] == t.id
    {
      k := Position(t, m);
      M.ListsInsert(m, order, k, t.id);
      timers := timers[..k] + [t] + timers[k..];
      order := order[..k] + [t.id] + order[k..];
    }

    /** addTimer under the lock, and the notification after it. */
    method Insert(t: Timer, ghost m: M.Timers)
      requires Represents(m) && Owns(t) && t.id !in m.live
      modifies this`timers, this`order, this`tickled, this`notified
      ensures Represents(M.Insert(m, t.id, m.all[t.id]))
    {
      var k := InsertOrdered(t, m);
      ghost var m1 := m.(live := m.live + {t.id});
      assert k != 0 ==> order[0] in m1.live;
      assert M.AtFront(m1, t.id) <==> k == 0;
      assert m.all[t.id := m.all[t.id]] == m.all;
      var atFront := k == 0 && !tickled;
      if atFront {
        tickled := true;
      }
      if atFront {
        notified := notified + 1;
      }
    }

    // ------------------------------------------------------ operations

    method AddTimer(address: M.TimerId, ms: U64, cb: Option<Callback>, recurring: bool, now: U64, ghost m: M.Timers)
      returns (t: Timer)
      requires Represents(m) && address !in objects
      modifies this
      ensures fresh(t) && t.id == address && objects == old(objects)[address := t]
      ensures Represents(M.Add(m, address, ms, cb, recurring, now))
    {
      ghost var value := M.TimerState(recurring, ms, Plus(now, ms), cb, cb, now, now, 0, 0, 0);
      ghost var m1 := m.(all := m.all[address := value]);
      M.InsertAgain(m, m1, address, value);
      t := new Timer(address, ms, cb, recurring, this, now);
      HandOut(t, m, value);
      Insert(t, m1);
    }

    /** A new timer object becomes one of the manager's; it is not in the set. */
    ghost method HandOut(t: Timer, m: M.Timers, value: M.TimerState)
      requires Represents(m) && t.id !in objects && t !in repr && t.manager == this
      requires t.recurring == value.recurring && t.ms == value.ms && t.next == value.next && t.cb == value.cb
      modifies this`objects, this`repr
      ensures objects == old(objects)[t.id := t]
      ensures Represents(m.(all := m.all[t.id := value]))
    {
      M.ListsMore(m, order, t.id, value);
      objects, repr := objects[t.id := t], repr + {t};
    }

    method HasTimer(ghost m: M.Timers) returns (r: bool)
      requires Represents(m)
      ensures r <==> m.live != {}
    {
      r := timers != [];
      assert r ==> order[0] in m.live;
    }

    method GetNextTimer(now: U64, ghost m: M.Timers) returns (d: U64)
      requires Represents(m)
      ensures M.NextDelay(m, now, d)
    {
      if timers == [] {
        return MAX64;
      }
      assert order[0] in m.live && M.AtFront(m, order[0]);
      if now >= timers[0].next {
        d := 0;
      } else {
        d := timers[0].next - now;
      }
    }

    method DetectClockRollover(now: U64) returns (rollover: bool)
      modifies this`previous
      ensures rollover == M.Rollover(old(previous), now) && previous == now
      ensures rollover <==> if M.HOUR <= old(previous) then now + M.HOUR < old(previous) else now < old(previous)
    {
      rollover := now < previous && now < Minus(previous, M.HOUR);
      previous := now;
    }

    /** lower_bound of a timer due at `now` whose address is `sentinel`. */
    method LowerBound(now: U64, sentinel: M.TimerId, ghost m: M.Timers) returns (k: nat)
      requires Represents(m)
      ensures k <= |timers|
      ensures forall j | 0 <= j < k :: timers[j].next <= now
      ensures forall j | k <= j < |timers| :: timers[j].next >= now
    {
      k := 0;
      while k < |timers| && (timers[k].next < now || (!(now < timers[k].next) && timers[k].id < sentinel))
        invariant k <= |timers|
        invariant forall j | 0 <= j < k :: timers[j].next <= now
      {
        k := k + 1;
      }
      assert k < |timers| ==> forall j | k < j < |timers| :: M.Before(m, order[k], order[j]);
    }

    lemma DueIsPrefix(k: nat, now: U64, rollover: bool, m: M.Timers)
      requires Represents(m.(previous := now)) && M.Inv(m)
      requires k <= |order| && order != [] && rollover == M.Rollover(m.previous, now)
      requires rollover ==> k == |timers|
      requires !rollover ==> forall j | 0 <= j < |timers| :: j < k <==> timers[j].next <= now
      ensures M.Emits(m, now, order[..k])
      ensures m.live != {}
    {
      assert order[0] in m.live;
      forall i ensures i in order[..k] <==> i in M.Due(m, now) {
        assert i in order <==> i in m.live;
        assert i in order[..k] ==> i in order;
      }
    }

    /** The end of the timers that are due: past the lower bound, skip those due exactly now. */
    method DueEnd(now: U64, sentinel: M.TimerId, rollover: bool, ghost m: M.Timers) returns (k: nat)
      requires Represents(m.(previous := now)) && M.Inv(m)
      requires timers != [] && rollover == M.Rollover(m.previous, now)
      ensures k <= |timers| && M.Emits(m, now, order[..k]) && m.live != {}
    {
      if rollover {
        k := |timers|;
      } else {
        k := LowerBound(now, sentinel, m.(previous := now));
        while k < |timers| && timers[k].next == now
          invariant k <= |timers|
          invariant forall j | 0 <= j < k :: timers[j].next <= now
          invariant forall j | k <= j < |timers| :: timers[j].next >= now
        {
          k := k + 1;
        }
        assert k < |timers| ==> forall j | k < j < |timers| :: M.Before(m, order[k], order[j]);
      }
      DueIsPrefix(k, now, rollover, m);
    }

    /** The callbacks of the timers `ids` that are due, in set order, whatever the sentinel's address. */
    method ListExpiredCb(now: U64, sentinel: M.TimerId, ghost m: M.Timers)
      returns (cbs: seq<Option<Callback>>, ghost ids: seq<M.TimerId>)
      requires Represents(m) && M.Inv(m)
      modifies this`timers, this`order, this`previous, repr
      ensures Represents(M.Collect(m, now))
      ensures M.Emits(m, now, ids)
      ensures |cbs| == |ids| && forall k | 0 <= k < |ids| :: ids[k] in m.all && cbs[k] == m.all[ids[k]].cb
    {
      cbs, ids := [], [];
      if timers == [] {
        return;
      }
      var rollover := DetectClockRollover(now);
      if !rollover && timers[0].next > now {
        M.NothingDue(m, order, now);
        return;
      }
      cbs, ids := TakeExpired(now, sentinel, rollover, m);
    }

    /** The part of listExpiredCb that finds the end of the due timers and takes them out. */
    method TakeExpired(now: U64, sentinel: M.TimerId, rollover: bool, ghost m: M.Timers)
      returns (cbs: seq<Option<Callback>>, ghost ids: seq<M.TimerId>)
      requires Represents(m.(previous := now)) && M.Inv(m)
      requires timers != [] && rollover == M.Rollover(m.previous, now)
      modifies this`timers, this`order, repr
      ensures Represents(M.Collect(m, now)) && M.Emits(m, now, ids)
      ensures |cbs| == |ids| && forall k | 0 <= k < |ids| :: ids[k] in m.all && cbs[k] == m.all[ids[k]].cb
    {
      var k := DueEnd(now, sentinel, rollover, m);
      ids := order[..k];
      M.EmitsMembers(m, now, ids);
      M.PartialEnd(m, ids, now);
      cbs := TakeDue(k, now, m, ids);
    }

    /** Moves the first `k` timers out of the set and goes through them. */
    method TakeDue(k: nat, now: U64, ghost m: M.Timers, ghost ids: seq<M.TimerId>) returns (cbs: seq<Option<Callback>>)
      requires Represents(m.(previous := now)) && M.Inv(m)
      requires k <= |order| && ids == order[..k] && M.Members(m, ids)
      modifies this`timers, this`order, repr
      ensures Represents(M.Partial(m, ids, |ids|, now))
      ensures |cbs| == |ids| && M.Carried(m, ids, cbs)
    {
      var expired := EraseFront(k, now, m, ids);
      cbs := DeliverAll(expired, now, m, ids);
    }

    ghost predicate AreObjects(ts: seq<Timer>, ids: seq<M.TimerId>)
      reads this
    {
      |ts| == |ids| && forall j | 0 <= j < |ids| :: Owns(ts[j]) && ts[j].id == ids[j]
    }

    method EraseFront(k: nat, now: U64, ghost m: M.Timers, ghost ids: seq<M.TimerId>) returns (erased: seq<Timer>)
      requires Represents(m.(previous := now)) && M.Inv(m) && k <= |timers| && ids == order[..k]
      modifies this`timers, this`order
      ensures Represents(M.Partial(m, ids, 0, now))
      ensures AreObjects(erased, ids)
    {
      M.PartialStart(m, order, k, now);
      erased := timers[..k];
      timers, order := timers[k..], order[k..];
    }

    /** The loop over the expired timers, which are out of the set. */
    method DeliverAll(expired: seq<Timer>, now: U64, ghost m: M.Timers, ghost ids: seq<M.TimerId>)
      returns (cbs: seq<Option<Callback>>)
      requires AreObjects(expired, ids) && M.Inv(m) && M.Members(m, ids)
      requires Represents(M.Partial(m, ids, 0, now))
      modifies this`timers, this`order, repr
      ensures Represents(M.Partial(m, ids, |ids|, now))
      ensures |cbs| == |ids| && M.Carried(m, ids, cbs)
    {
      cbs := [];
      for n := 0 to |expired|
        invariant Represents(M.Partial(m, ids, n, now))
        invariant |cbs| == n && M.Carried(m, ids, cbs)
      {
        var cb := DeliverNext(expired[n], now, m, ids, n);
        M.CarriedMore(m, ids, cbs, cb);
        cbs := cbs + [cb];
      }
    }

    method DeliverNext(t: Timer, now: U64, ghost m: M.Timers, ghost ids: seq<M.TimerId>, ghost n: nat)
      returns (cb: Option<Callback>)
      requires n < |ids| && Owns(t) && t.id == ids[n]
      requires M.Inv(m) && M.Members(m, ids)
      requires Represents(M.Partial(m, ids, n, now))
      modifies this`timers, this`order, t
      ensures cb == m.all[ids[n]].cb && Represents(M.Partial(m, ids, n + 1, now))
    {
      ghost var p, p' := M.Partial(m, ids, n, now), M.Partial(m, ids, n + 1, now);
      M.PartialStep(m, ids, n, now);
      M.ListsUpdate(p, order, t.id, p'.all[t.id]);
      cb := t.cb;
      if t.recurring {
        t.next := Plus(now, t.ms);
        var _ := InsertOrdered(t, p.(all := p'.all));
      } else {
        t.cb := None;
      }
    }
  }
}
