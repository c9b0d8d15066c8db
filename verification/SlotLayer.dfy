/** The scheduler's slot operations, in place.

The fields are the slot manager's entries, the backend's KV and fences, the
deferred retirements, and the donated sequences; each method is proved to be the
step of the ownership model it implements.
*/
module SlotLayer {
  import opened Common
  import opened SequenceKv
  import opened Ownership

  /** One turn of the polling loop: a pending lease is passed over; a ready one is
      reaped and the list closes up behind it. */
  lemma PollOne(slots: seq<Slot>, deferred: seq<Lease>, i: nat, ready: set<nat>)
    requires i < |deferred|
    ensures var closed := deferred[..i] + deferred[i + 1..];
            if deferred[i].slot !in ready then
              && Reap(slots, deferred[i + 1..], ready) == Reap(slots, deferred[i..], ready)
              && deferred[..i + 1] + StillPending(deferred[i + 1..], ready) ==
                  deferred[..i] + StillPending(deferred[i..], ready)
            else
              && Reap(ReapOne(slots, deferred[i]), closed[i..], ready) == Reap(slots, deferred[i..], ready)
              && closed[..i] + StillPending(closed[i..], ready) == deferred[..i] + StillPending(deferred[i..], ready)
  {
    var closed := deferred[..i] + deferred[i + 1..];
    assert deferred[i..][1..] == deferred[i + 1..];
    assert deferred[..i + 1] == deferred[..i] + [deferred[i]];
    assert closed[i..] == deferred[i + 1..] && closed[..i] == deferred[..i];
  }

  /** The places `at` are those of the leases whose slot is not ready. */
  predicate PendingPlaces(deferred: seq<Lease>, ready: set<nat>, at: seq<nat>) {
    forall i :: 0 <= i < |deferred| ==> (i in at <==> deferred[i].slot !in ready)
  }

  lemma PendingBehind(deferred: seq<Lease>, ready: set<nat>, at: seq<nat>, x: Lease)
    requires PendingPlaces(deferred, ready, at)
    ensures PendingPlaces([x] + deferred, ready, if x.slot in ready then Shifted(at) else [0] + Shifted(at))
  {
    forall i | 0 <= i < |[x] + deferred|
      ensures i > 0 ==>
          (i in Shifted(at) <==> i in [0] + Shifted(at)) && (i in Shifted(at) <==> deferred[i - 1].slot !in ready)
    {
      ShiftedHas(at, i);
    }
    ShiftedHas(at, 0);
  }

  /** The leases still pending are the ones whose slot is not ready, in order. */
  lemma {:induction false} PendingInOrder(deferred: seq<Lease>, ready: set<nat>)
    ensures exists at :: Picks(StillPending(deferred, ready), deferred, at) && PendingPlaces(deferred, ready, at)
  {
    if deferred == [] {
      assert Picks(StillPending(deferred, ready), deferred, []) && PendingPlaces(deferred, ready, []);
    } else {
      var x, rest := deferred[0], deferred[1..];
      var still := StillPending(rest, ready);
      assert deferred == [x] + rest;
      PendingInOrder(rest, ready);
      var at :| Picks(still, rest, at) && PendingPlaces(rest, ready, at);
      PicksBehind(still, rest, at, x);
      PendingBehind(rest, ready, at, x);
      hide Picks, PendingPlaces;
      assert StillPending(deferred, ready) == if x.slot in ready then still else [x] + still by {
        assert [] + still == still;
      }
      assert Picks(StillPending(deferred, ready), deferred, if x.slot in ready then Shifted(at) else [0] + Shifted(at));
    }
  }

  class Slots {
    var slots: seq<Slot>
    var kv: Kv
    var fences: set<nat>
    var deferred: seq<Lease>
    var donors: map<seq<Token>, Donor>
    var refs: multiset<Block>

    constructor (n: nat)
      ensures View() == Start(0, n)
    {
      slots := seq(n, _ => Slot(Idle, 0));
      kv, fences, deferred, donors, refs := map[], {}, [], map[], multiset{};
    }

    function View(): (s: State)
      reads this
    {
      State(0, refs, slots, kv, fences, deferred, donors, map[], map[], None, [])
    }

    method FindFreeSlot(capacity: int) returns (r: int)
      ensures r == FindFree(slots, capacity, 0)
    {
      var i := 0;
      while i < |slots|
        invariant 0 <= i <= |slots| && FindFree(slots, capacity, 0) == FindFree(slots, capacity, i)
      {
        if (capacity <= 0 || i < capacity) && slots[i].state == Idle {
          return i;
        }
        i := i + 1;
      }
      return -1;
    }

    method RetireLease(slot: int, generation: nat) returns (ok: bool)
      modifies this`slots
      ensures ok <==> 0 <= slot < |old(slots)| && generation != 0 && Live(old(slots)[slot], generation)
      ensures slots == if ok then old(slots)[slot := Slot(Retiring, generation)] else old(slots)
    {
      if generation == 0 || slot < 0 || slot >= |slots| || slots[slot].generation != generation {
        return false;
      }
      ok := slots[slot].state == Prefilling || slots[slot].state == Decoding || slots[slot].state == Completed;
      if ok {
        slots := slots[slot := Slot(Retiring, generation)];
      }
    }

    method CompleteRetiredLease(lease: Lease)
      modifies this`slots
      ensures slots == ReapOne(old(slots), lease)
    {
      if lease.slot < |slots| && slots[lease.slot].generation == lease.generation &&
          slots[lease.slot].state == Retiring {
        slots := slots[lease.slot := Slot(Idle, lease.generation)];
      }
    }

    method BeginFreeSequence(slot: nat, pending: bool)
      modifies this`kv, this`fences
      ensures kv == FreeSequence(old(kv), slot)
      ensures fences == if pending then old(fences) + {slot} else old(fences)
    {
      kv := kv[slot := []];
      if pending {
        fences := fences + {slot};
      }
    }

    /** The lease is validated before the backend sequence is touched. */
    method Free(slot: int, generation: nat, release: Release)
      modifies this
      ensures View() == FreeSeqSlot(old(View()), slot, generation, release)
    {
      if slot < 0 || slot >= |slots| {
        return;
      }
      if generation == 0 {
        if release.backend {
          BeginFreeSequence(slot, release.pending);
        }
        slots := slots[slot := slots[slot].(state := Idle)];
        return;
      }
      var live := RetireLease(slot, generation);
      if !live {
        return;
      }
      if release.backend {
        BeginFreeSequence(slot, release.pending);
        if release.pending {
          deferred := deferred + [Lease(slot, generation)];
          return;
        }
      }
      CompleteRetiredLease(Lease(slot, generation));
    }

    /** The erase-while-iterating loop over deferred retirements. */
    method Poll(ready: set<nat>)
      modifies this
      ensures View() == PollDeferred(old(View()), ready)
    {
      var i := 0;
      while i < |deferred|
        invariant 0 <= i <= |deferred|
        invariant kv == old(kv) && fences == old(fences) && donors == old(donors) && refs == old(refs)
        invariant Reap(slots, deferred[i..], ready) == Reap(old(slots), old(deferred), ready)
        invariant deferred[..i] + StillPending(deferred[i..], ready) == StillPending(old(deferred), ready)
        decreases |deferred| - i
      {
        var lease := deferred[i];
        PollOne(slots, deferred, i, ready);
        if lease.slot !in ready {
          i := i + 1;
        } else {
          CompleteRetiredLease(lease);
          deferred := deferred[..i] + deferred[i + 1..];
        }
      }
      assert deferred[i..] == [] && deferred[..i] == deferred;
      fences := fences - ready;
    }

    /** Retire one donated sequence through the radix cache's callback. */
    method EvictOneSequence(path: seq<Token>, release: Release)
      requires path in donors
      modifies this
      ensures View() == Evict(old(View()), path, release)
    {
      var donor := donors[path];
      Free(donor.slot, 0, release);
      refs := refs - multiset(donor.blocks);
      donors := donors - {path};
    }

    /** Acquire a slot, retiring donors one by one until that succeeds. The victim
        and its fence are not the scheduler's choice: `chosen` records them. */
    method AllocSeqSlot(capacity: int, ready: set<nat>, fence: Release)
        returns (slot: int, generation: nat, retired: set<nat>, ghost chosen: seq<Eviction>)
      modifies this
      ensures Allocation(View(), slot, retired) == Allocate(PollDeferred(old(View()), ready), capacity, chosen)
      ensures slot >= 0 ==> slot < |slots| && generation == slots[slot].generation
      ensures slot < 0 ==> donors == map[]
    {
      Poll(ready);
      ghost var start := View();
      chosen, retired := [], {};
      slot := FindFreeSlot(capacity);
      while slot < 0 && donors != map[]
        invariant slot == FindFree(slots, capacity, 0)
        invariant Pressed(start, capacity, chosen) && View() == EvictMany(start, chosen) &&
            retired == Victims(start, chosen)
        decreases |donors|
      {
        var path :| path in donors;
        OneMoreEviction(start, capacity, chosen, Eviction(path, fence));
        chosen, retired := chosen + [Eviction(path, fence)], retired + {donors[path].slot};
        EvictOneSequence(path, fence);
        slot := FindFreeSlot(capacity);
      }
      PressureEnds(start, capacity, chosen);
      generation := 0;
      if slot >= 0 {
        slots := slots[slot := Slot(Prefilling, slots[slot].generation + 1)];
        generation := slots[slot].generation;
      }
    }
  }

  /** Each chosen victim was a donor, evicted because no slot was free. */
  ghost predicate Pressed(start: State, capacity: int, chosen: seq<Eviction>)
    decreases |chosen|
  {
    chosen != [] ==>
      && FindFree(start.slots, capacity, 0) < 0
      && chosen[0].path in start.donors
      && Pressed(Evict(start, chosen[0].path, chosen[0].release), capacity, chosen[1..])
  }

  ghost function Victims(start: State, chosen: seq<Eviction>): set<nat>
    decreases |chosen|
  {
    if chosen == [] || chosen[0].path !in start.donors then {}
    else Victims(Evict(start, chosen[0].path, chosen[0].release), chosen[1..]) + {start.donors[chosen[0].path].slot}
  }

  lemma {:induction false} OneMoreEviction(start: State, capacity: int, chosen: seq<Eviction>, e: Eviction)
    requires Pressed(start, capacity, chosen)
    requires var now := EvictMany(start, chosen); FindFree(now.slots, capacity, 0) < 0 && e.path in now.donors
    ensures Pressed(start, capacity, chosen + [e])
    ensures var now := EvictMany(start, chosen);
            && EvictMany(start, chosen + [e]) == Evict(now, e.path, e.release)
            && Victims(start, chosen + [e]) == Victims(start, chosen) + {now.donors[e.path].slot}
    decreases |chosen|
  {
    hide Evict;
    if chosen == [] {
      assert chosen + [e] == [e];
    } else {
      assert (chosen + [e])[1..] == chosen[1..] + [e];
      OneMoreEviction(Evict(start, chosen[0].path, chosen[0].release), capacity, chosen[1..], e);
    }
  }

  lemma {:induction false} PressureEnds(start: State, capacity: int, chosen: seq<Eviction>)
    requires Pressed(start, capacity, chosen)
    requires var now := EvictMany(start, chosen); FindFree(now.slots, capacity, 0) >= 0 || now.donors == map[]
    ensures var now := EvictMany(start, chosen);
            var i := FindFree(now.slots, capacity, 0);
            Allocate(start, capacity, chosen) ==
                Allocation(if i >= 0 then AcquireLease(now, i) else now, i, Victims(start, chosen))
    decreases |chosen|
  {
    hide Evict;
    if chosen != [] {
      assert Victim(start.donors, chosen) == chosen[0];
      PressureEnds(Evict(start, chosen[0].path, chosen[0].release), capacity, chosen[1..]);
    }
  }
}
