/** Each step of the unified scheduler keeps the owners in place and the block
references balanced. */
module OwnershipSteps {
  import opened Common
  import opened SequenceKv
  import opened Ownership
  import opened OwnershipInvariant

  function Freed(release: Release): Owner {
    if release.backend && release.pending then ByRetirement else Nobody
  }

  /** The session a request holds, if it holds one. */
  function HeldName(s: State, id: int): string
    requires id in s.requests
  {
    if s.requests[id].leased then s.requests[id].session else ""
  }

  /** Only the worker's own table changes, and the counts by the same amount. */
  lemma SameHolders(s: State, s': State)
    requires Balanced(s)
    requires s'.requests == s.requests && s'.donors == s.donors && s'.sessions == s.sessions && s'.pages == s.pages
    requires forall b :: s'.refs[b] + multiset(s.flight)[b] == s.refs[b] + multiset(s'.flight)[b]
    requires forall b :: b in s'.refs ==> 0 <= b < s.pages
    ensures Balanced(s')
  {
    assert RequestTables(s') == RequestTables(s) && DonorTables(s') == DonorTables(s) &&
        SessionTables(s') == SessionTables(s);
    forall b ensures s'.refs[b] == Held(s', b) { assert s.refs[b] == Held(s, b); }
  }

  /** Freeing a live lease: the slot goes idle, or retires behind its fence. */
  lemma FreeLive(s: State, o: Owners, x: nat, generation: nat, release: Release)
    requires |o| == |s.slots| && x < |o| && DeferredOk(s, o) && o[x] != ByRetirement && generation > 0 &&
        Live(s.slots[x], generation)
    ensures var s' := FreeSeqSlot(s, x, generation, release);
            var o' := o[x := Freed(release)];
            && |s'.slots| == |s.slots|
            && s'.slots[x].generation == generation
            && DeferredOk(s', o') && Owned(s', o', x) && s.deferred <= s'.deferred
            && (forall i :: 0 <= i < |o| && i != x ==> s'.slots[i] == s.slots[i])
            && (forall i :: i != x ==> Resident(s'.kv, i) == Resident(s.kv, i))
  {
    var s' := FreeSeqSlot(s, x, generation, release);
    if release.backend && release.pending {
      assert s'.deferred[|s.deferred|] == Lease(x, generation);
      assert forall k :: 0 <= k < |s.deferred| ==> s'.deferred[k] == s.deferred[k];
    }
  }

  // ---- retirements ----

  lemma {:induction false} ReapOnly(slots: seq<Slot>, deferred: seq<Lease>, ready: set<nat>, i: nat)
    requires i < |slots|
    ensures Reap(slots, deferred, ready)[i] == slots[i] ||
            (i in ready && slots[i].state.Retiring? && Lease(i, slots[i].generation) in deferred &&
                Reap(slots, deferred, ready)[i] == Slot(Idle, slots[i].generation))
    ensures i in ready && slots[i].state.Retiring? && Lease(i, slots[i].generation) in deferred ==>
              Reap(slots, deferred, ready)[i] == Slot(Idle, slots[i].generation)
    decreases |deferred|
  {
    if deferred != [] {
      ReapOnly(if deferred[0].slot in ready then ReapOne(slots, deferred[0]) else slots, deferred[1..], ready, i);
      assert deferred == [deferred[0]] + deferred[1..];
    }
  }

  lemma {:induction false} PendingOnly(deferred: seq<Lease>, ready: set<nat>)
    ensures forall l :: l in StillPending(deferred, ready) <==> l in deferred && l.slot !in ready
    ensures (forall j, k :: 0 <= j < k < |deferred| ==> deferred[j].slot != deferred[k].slot) ==>
              forall j, k :: 0 <= j < k < |StillPending(deferred, ready)| ==>
                  StillPending(deferred, ready)[j].slot != StillPending(deferred, ready)[k].slot
  {
    if deferred != [] {
      PendingOnly(deferred[1..], ready);
      assert deferred == [deferred[0]] + deferred[1..];
      var rest := StillPending(deferred[1..], ready);
      forall k | 0 <= k < |rest| ensures rest[k] in deferred[1..] { assert rest[k] in rest; }
    }
  }

  function Polled(o: Owners, ready: set<nat>): (r: Owners)
    ensures |r| == |o|
  {
    seq(|o|, i requires 0 <= i < |o| => if i in ready && o[i] == ByRetirement then Nobody else o[i])
  }

  lemma PollPlaces(s: State, o: Owners, ready: set<nat>)
    requires Placed(s, o, -1)
    ensures Placed(PollDeferred(s, ready), Polled(o, ready), -1)
  {
    var s' := PollDeferred(s, ready);
    var o' := Polled(o, ready);
    forall i | 0 <= i < |o'| ensures Owned(s', o', i) { PollOwned(s, o, ready, i); }
    hide Owned, Reap, StillPending;
    forall id | id in s'.requests ensures RequestOk(s', o', id) { assert RequestOk(s, o, id); }
    forall p | p in s'.donors ensures DonorOk(s', o', p) { assert DonorOk(s, o, p); }
    forall name | name in s'.sessions ensures SessionOk(s', o', name) { assert SessionOk(s, o, name); }
    PollDeferredOk(s, o, ready);
  }

  lemma PollOwned(s: State, o: Owners, ready: set<nat>, i: nat)
    requires |o| == |s.slots| && i < |o| && Owned(s, o, i) && DeferredOk(s, o)
    ensures Owned(PollDeferred(s, ready), Polled(o, ready), i)
  {
    PendingOnly(s.deferred, ready);
    ReapOnly(s.slots, s.deferred, ready, i);
  }

  lemma PollDeferredOk(s: State, o: Owners, ready: set<nat>)
    requires |o| == |s.slots| && DeferredOk(s, o)
    ensures DeferredOk(PollDeferred(s, ready), Polled(o, ready))
  {
    var s' := PollDeferred(s, ready);
    var o' := Polled(o, ready);
    PendingOnly(s.deferred, ready);
    forall k | 0 <= k < |s'.deferred|
      ensures var l := s'.deferred[k];
          l.slot < |o'| && o'[l.slot] == ByRetirement && s'.slots[l.slot].generation == l.generation
    {
      var l := s'.deferred[k];
      assert l in s'.deferred;
      ReapOnly(s.slots, s.deferred, ready, l.slot);
    }
  }

  lemma PollBalances(s: State, ready: set<nat>)
    requires Balanced(s)
    ensures Balanced(PollDeferred(s, ready))
  {
    SameHolders(s, PollDeferred(s, ready));
  }

  // ---- donors ----

  lemma EvictPlaces(s: State, o: Owners, path: seq<Token>, release: Release)
    requires Placed(s, o, -1) && s.frame.None? && path in s.donors
    ensures s.donors[path].slot < |o| && Placed(Evict(s, path, release), o[s.donors[path].slot := Nobody], -1)
  {
    assert DonorOk(s, o, path);
    var x := s.donors[path].slot;
    Update(s, Evict(s, path, release), o, o[x := Nobody], -1, path, "", x);
  }

  lemma EvictBalances(s: State, path: seq<Token>, release: Release)
    requires Balanced(s) && path in s.donors
    ensures Balanced(Evict(s, path, release))
  {
    hide Evict;
    var s' := Evict(s, path, release);
    forall b ensures s'.refs[b] + Touched(s, -1, path, "", b) == s.refs[b] + Touched(s', -1, path, "", b) {
      Covered(s, -1, path, "", b);
    }
    hide Touched;
    Rebalanced(s, s', -1, path, "");
  }

  // ---- sessions ----

  lemma DropPlaces(s: State, o: Owners, name: string, release: Release)
    requires Placed(s, o, -1) && IdleSession(s, name)
    ensures s.sessions[name].kept.value.slot < |o|
    ensures Placed(DropSession(s, name, release), o[s.sessions[name].kept.value.slot := Freed(release)], -1)
  {
    DropElsewhere(s, o, name, release);
    DropSettled(s, o, name, release);
    hide Placed, Alone, Elsewhere, Settled, DropSession;
    var kept := s.sessions[name].kept.value;
    PlacedBut(s, o, kept.slot);
    Update(s, DropSession(s, name, release), o, o[kept.slot := Freed(release)], -1, [], name, kept.slot);
  }

  /** The names no holder has, used where a step changes none of its kind. */
  lemma NobodyUnnamed(s: State, o: Owners)
    requires Placed(s, o, -1)
    ensures -1 !in s.requests && [] !in s.donors && "" !in s.sessions
  {
    forall id | id in s.requests ensures id != -1 { assert RequestOk(s, o, id); }
    forall path | path in s.donors ensures path != [] { assert DonorOk(s, o, path); }
    forall name | name in s.sessions ensures name != "" { assert SessionOk(s, o, name); }
  }

  lemma IdleSessionSlot(s: State, o: Owners, name: string)
    requires Placed(s, o, -1) && IdleSession(s, name)
    ensures var kept := s.sessions[name].kept.value;
            && |o| == |s.slots| && kept.slot < |o| && kept.generation > 0 && o[kept.slot] == BySession(name)
            && s.slots[kept.slot] == Slot(Completed, kept.generation)
            && -1 !in s.requests && [] !in s.donors && DeferredOk(s, o)
  {
    assert SessionOk(s, o, name);
    assert Owned(s, o, s.sessions[name].kept.value.slot);
    NobodyUnnamed(s, o);
  }

  /** A dropped session owned its slot, and nothing but that slot changes. */
  lemma DropElsewhere(s: State, o: Owners, name: string, release: Release)
    requires Placed(s, o, -1) && IdleSession(s, name)
    ensures var kept := s.sessions[name].kept.value;
            && kept.slot < |o| && Alone(s, o, -1, [], name, kept.slot)
            && Elsewhere(s, DropSession(s, name, release), o, o[kept.slot := Freed(release)], -1, [], name, kept.slot)
  {
    hide Placed, DeferredOk, Owned;
    var kept := s.sessions[name].kept.value;
    IdleSessionSlot(s, o, name);
    FreeLive(Unref(s.(sessions := s.sessions - {name}), kept.blocks), o, kept.slot, kept.generation, release);
    hide FreeSeqSlot;
  }

  lemma DropSettled(s: State, o: Owners, name: string, release: Release)
    requires Placed(s, o, -1) && IdleSession(s, name)
    ensures var kept := s.sessions[name].kept.value;
            var s', o' := DropSession(s, name, release), o[kept.slot := Freed(release)];
            |o'| == |s'.slots| && Settled(s', o', -1, [], name) && Owned(s', o', kept.slot)
  {
    var kept := s.sessions[name].kept.value;
    IdleSessionSlot(s, o, name);
    FreeLive(Unref(s.(sessions := s.sessions - {name}), kept.blocks), o, kept.slot, kept.generation, release);
    hide FreeSeqSlot;
    if s.frame.Some? { assert RequestOk(s, o, s.frame.value.request); }
  }

  lemma DropBalances(s: State, name: string, release: Release)
    requires Balanced(s) && IdleSession(s, name)
    ensures Balanced(DropSession(s, name, release))
  {
    hide FreeSeqSlot;
    var s' := DropSession(s, name, release);
    forall b ensures s'.refs[b] + Touched(s, -1, [], name, b) == s.refs[b] + Touched(s', -1, [], name, b) {
      Covered(s, -1, [], name, b);
    }
    hide Touched;
    Rebalanced(s, s', -1, [], name);
  }

  lemma HoldPlaces(s: State, o: Owners, id: int)
    requires Placed(s, o, -1) && id in s.requests && s.requests[id].started && !s.requests[id].leased &&
        s.requests[id].slot == -1
    requires s.frame.None? && s.requests[id].session != ""
    requires s.requests[id].session in s.sessions ==> s.sessions[s.requests[id].session].holder.None?
    ensures var name := s.requests[id].session;
            Placed(Hold(s, id, name, if name in s.sessions then s.sessions[name] else Entry(None, None)), o, -1)
  {
    var name := s.requests[id].session;
    var x: int := -1;
    if name in s.sessions {
      assert SessionOk(s, o, name);
      x := s.sessions[name].kept.value.slot;
      assert Owned(s, o, x);
    }
    assert RequestOk(s, o, id);
    Update(s, Hold(s, id, name, if name in s.sessions then s.sessions[name] else Entry(None, None)), o, o, id, [], name,
        x);
  }

  lemma HoldBalances(s: State, id: int)
    requires Balanced(s) && id in s.requests && s.requests[id].slot == -1
    requires s.requests[id].session in s.sessions ==> s.sessions[s.requests[id].session].holder.None?
    requires forall n :: n in s.sessions && s.sessions[n].holder.Some? ==> s.sessions[n].holder.value != id
    ensures var name := s.requests[id].session;
            Balanced(Hold(s, id, name, if name in s.sessions then s.sessions[name] else Entry(None, None)))
  {
    var name := s.requests[id].session;
    Rebalanced(s, Hold(s, id, name, if name in s.sessions then s.sessions[name] else Entry(None, None)), id, [], name);
  }

  lemma DiscardPlaces(s: State, o: Owners, id: int, release: Release)
    requires Placed(s, o, -1) && Holding(s, id) && s.requests[id].slot == -1 && s.frame.None?
    ensures var x := s.sessions[s.requests[id].session].kept.value.slot;
            x < |o| && Placed(DiscardKept(s, s.requests[id].session, release), o[x := Freed(release)], -1)
  {
    var name := s.requests[id].session;
    assert RequestOk(s, o, id) && SessionOk(s, o, name);
    var kept := s.sessions[name].kept.value;
    assert Owned(s, o, kept.slot);
    FreeLive(Unref(SetEntry(s, name, s.sessions[name].(kept := None)), kept.blocks), o, kept.slot, kept.generation,
        release);
    hide FreeSeqSlot;
    Update(s, DiscardKept(s, name, release), o, o[kept.slot := Freed(release)], id, [], name, kept.slot);
  }

  lemma DiscardBalances(s: State, id: int, release: Release)
    requires Balanced(s) && Holding(s, id) && s.requests[id].slot == -1
    requires s.sessions[s.requests[id].session].holder == Some(id)
    ensures Balanced(DiscardKept(s, s.requests[id].session, release))
  {
    var name := s.requests[id].session;
    forall b { DiscardTouches(s, id, release, b); }
    hide FreeSeqSlot, Touched;
    Rebalanced(s, DiscardKept(s, name, release), id, [], name);
  }

  lemma DiscardTouches(s: State, id: int, release: Release, b: Block)
    requires Balanced(s) && Holding(s, id) && s.requests[id].slot == -1
    requires s.sessions[s.requests[id].session].holder == Some(id)
    ensures var name := s.requests[id].session;
            var s' := DiscardKept(s, name, release);
            s'.refs[b] + Touched(s, id, [], name, b) == s.refs[b] + Touched(s', id, [], name, b)
  {
    hide FreeSeqSlot;
    Covered(s, id, [], s.requests[id].session, b);
  }

  lemma ReserveBalances(s: State, n: nat, pick: seq<Block>)
    requires Balanced(s) && s.flight == []
    ensures Balanced(Reserve(s, n, pick))
  {
    if Reservable(s, n, pick) {
      forall b | b in s.refs + multiset(pick) ensures 0 <= b < s.pages { if b !in s.refs { assert b in pick; } }
    }
    SameHolders(s, Reserve(s, n, pick));
  }

  lemma ReturnBalances(s: State)
    requires Balanced(s)
    ensures Balanced(Unref(s, s.flight).(flight := []))
  {
    forall b ensures multiset(s.flight)[b] <= s.refs[b] { Covered(s, -1, [], "", b); }
    SameHolders(s, Unref(s, s.flight).(flight := []));
  }

  // ---- slot allocation ----

  lemma AcquirePlaces(s: State, o: Owners, x: nat)
    requires Placed(s, o, -1) && s.frame.None? && x < |o| && s.slots[x].state.Idle?
    ensures Placed(AcquireLease(s, x), o[x := ByFrame], x)
  {
    assert Owned(s, o, x);
    Update(s, AcquireLease(s, x), o, o[x := ByFrame], -1, [], "", x);
  }

  lemma AcquireBalances(s: State, x: nat)
    requires Balanced(s) && x < |s.slots|
    ensures Balanced(AcquireLease(s, x))
  {
    SameHolders(s, AcquireLease(s, x));
  }

  /** Allocation touches slots and donors only; a donor whose slot was not
      reported retired is still there, and a failed allocation leaves none. */
  lemma {:induction false} AllocateFrame(s: State, capacity: int, evictions: seq<Eviction>)
    ensures var a := Allocate(s, capacity, evictions);
            && a.state.pages == s.pages && a.state.flight == s.flight && a.state.deferred == s.deferred &&
                a.state.frame == s.frame
            && a.state.requests == s.requests && a.state.sessions == s.sessions
            && (forall p :: p in s.donors && s.donors[p].slot !in a.retired ==>
                p in a.state.donors && a.state.donors[p] == s.donors[p])
            && (a.slot == -1 ==> a.state.donors == map[])
    decreases |s.donors|
  {
    hide Evict;
    if FindFree(s.slots, capacity, 0) < 0 && s.donors != map[] {
      var e := Victim(s.donors, evictions);
      AllocateFrame(Evict(s, e.path, e.release), capacity, Tail(evictions));
    }
  }

  lemma {:induction false} AllocatePlaces(s: State, o: Owners, capacity: int, evictions: seq<Eviction>)
      returns (o': Owners)
    requires Placed(s, o, -1) && s.frame.None? && |o| == |s.slots|
    ensures var a := Allocate(s, capacity, evictions);
            && |o'| == |a.state.slots|
            && Placed(a.state, o', a.slot)
            && (a.slot != -1 ==>
                0 <= a.slot < |o'| && o'[a.slot] == ByFrame &&
                a.state.slots[a.slot].state == Prefilling && a.state.slots[a.slot].generation > 0)
    decreases |s.donors|
  {
    hide Evict, Placed;
    var x := FindFree(s.slots, capacity, 0);
    o' := o;
    if x >= 0 {
      AcquirePlaces(s, o, x);
      o' := o[x := ByFrame];
    } else if s.donors != map[] {
      var e := Victim(s.donors, evictions);
      EvictPlaces(s, o, e.path, e.release);
      o' := AllocatePlaces(Evict(s, e.path, e.release), o[s.donors[e.path].slot := Nobody], capacity, Tail(evictions));
    }
  }

  lemma {:induction false} AllocateBalances(s: State, capacity: int, evictions: seq<Eviction>)
    requires Balanced(s)
    ensures Balanced(Allocate(s, capacity, evictions).state)
    decreases |s.donors|
  {
    hide Evict, Balanced;
    var x := FindFree(s.slots, capacity, 0);
    if x >= 0 {
      AcquireBalances(s, x);
    } else if s.donors != map[] {
      var e := Victim(s.donors, evictions);
      EvictBalances(s, e.path, e.release);
      AllocateBalances(Evict(s, e.path, e.release), capacity, Tail(evictions));
    }
  }

  // ---- admission ----

  lemma MarkPlaces(s: State, o: Owners, id: int)
    requires Placed(s, o, -1) && id in s.requests && !s.requests[id].started && s.frame.None?
    ensures Placed(SetRequest(s, id, s.requests[id].(started := true)), o, -1)
  {
    assert RequestOk(s, o, id);
    Update(s, SetRequest(s, id, s.requests[id].(started := true)), o, o, id, [], "", -1);
  }

  /** A change to one request that leaves its slot and its blocks. */
  lemma SameShares(s: State, s': State, id: int)
    requires Balanced(s) && id in s.requests && id in s'.requests && s'.requests == s.requests[id := s'.requests[id]]
    requires s'.requests[id].blocks == s.requests[id].blocks && s'.requests[id].slot == s.requests[id].slot
    requires s'.donors == s.donors && s'.sessions == s.sessions && s'.pages == s.pages && s'.refs == s.refs &&
        s'.flight == s.flight
    ensures Balanced(s')
  {
    assert RequestTables(s') == RequestTables(s) && DonorTables(s') == DonorTables(s);
    forall n ensures Counted(s', n) <==> Counted(s, n) { }
    assert SessionTables(s') == SessionTables(s);
    forall b ensures s'.refs[b] == Held(s', b) { assert s.refs[b] == Held(s, b); }
  }

  /** The worker's frame appears, with nothing else changed. */
  lemma FramePlaces(s: State, o: Owners, f: Frame)
    requires Placed(s, o, -1) && s.frame.None? && FrameOk(s.(frame := Some(f)), o) && !f.stage.Allocated?
    ensures Placed(s.(frame := Some(f)), o, -1)
  {
    forall i | 0 <= i < |o| ensures o[i] != ByFrame { assert Owned(s, o, i); }
    Update(s, s.(frame := Some(f)), o, o, -1, [], "", -1);
  }

  lemma AcquireSessionKeeps(s: State, o: Owners, id: int, c: SessionChoice) returns (o': Owners)
    requires Inv(s, o) && s.frame.None? && id in s.requests && s.requests[id].session != ""
    requires s.requests[id].started && !s.requests[id].leased && s.requests[id].slot == -1
    ensures Inv(AcquireSession(s, id, c), o')
    ensures var s' := AcquireSession(s, id, c);
            s'.frame.None? && id in s'.requests && s'.requests[id] == s.requests[id].(leased := s'.requests[id].leased)
  {
    var name := s.requests[id].session;
    o' := o;
    forall n | n in s.sessions && s.sessions[n].holder.Some?
      ensures s.sessions[n].holder.value != id
    {
      assert SessionOk(s, o, n);
    }
    if name !in s.sessions {
      var t := s;
      if c.full && IdleSession(s, c.victim) {
        DropPlaces(s, o, c.victim, c.release);
        DropBalances(s, c.victim, c.release);
        o' := o[s.sessions[c.victim].kept.value.slot := Freed(c.release)];
        t := DropSession(s, c.victim, c.release);
      }
      if !c.full || IdleSession(s, c.victim) {
        HoldPlaces(t, o', id);
        HoldBalances(t, id);
      }
    } else if s.sessions[name].holder.None? {
      HoldPlaces(s, o, id);
      HoldBalances(s, id);
      if s.sessions[name].kept.Some? && c.expired {
        var held := Hold(s, id, name, s.sessions[name]);
        DiscardPlaces(held, o, id, c.release);
        DiscardBalances(held, id, c.release);
        o' := o[s.sessions[name].kept.value.slot := Freed(c.release)];
      }
    }
  }

  lemma LookKeeps(s: State, o: Owners, id: int, lookup: Option<seq<Token>>)
    requires Inv(s, o) && s.frame.None? && id in s.requests && s.requests[id].started && s.requests[id].slot == -1
    requires s.requests[id].leased ==>
        s.requests[id].session in s.sessions && s.sessions[s.requests[id].session].kept.None?
    ensures Inv(Look(s, id, lookup), o)
  {
    var f := Look(s, id, lookup).frame.value;
    FramePlaces(s, o, f);
    SameHolders(s, s.(frame := Some(f)));
  }

  lemma BeginKeeps(s: State, o: Owners, id: int, c: SessionChoice, lookup: Option<seq<Token>>) returns (o': Owners)
    requires Inv(s, o)
    ensures Inv(Begin(s, id, c, lookup), o')
  {
    hide Placed, Balanced, AcquireSession, DiscardKept, Look;
    o' := o;
    if s.frame.None? && id in s.requests && !s.requests[id].started {
      RequestFacts(s, o, id);
      MarkPlaces(s, o, id);
      var s1 := SetRequest(s, id, s.requests[id].(started := true));
      SameShares(s, s1, id);
      if s.requests[id].session != "" {
        o' := AcquireSessionKeeps(s1, o, id, c);
        s1 := AcquireSession(s1, id, c);
      }
      RequestFacts(s1, o', id);
      if Holding(s1, id) {
        o' := BeginHolding(s1, o', id, c, lookup);
      } else {
        LookKeeps(s1, o', id, lookup);
      }
    }
  }

  lemma RequestFacts(s: State, o: Owners, id: int)
    requires Placed(s, o, -1) && id in s.requests
    ensures |o| == |s.slots| && RequestOk(s, o, id)
  {
  }

  lemma BeginHolding(s: State, o: Owners, id: int, c: SessionChoice, lookup: Option<seq<Token>>) returns (o': Owners)
    requires Inv(s, o) && s.frame.None? && Holding(s, id) && s.requests[id].started && s.requests[id].slot == -1
    ensures var kept := s.sessions[s.requests[id].session].kept.value;
            if c.compatible && kept.prompt <= s.requests[id].prompt
            then Inv(s.(frame := Some(Frame(id, Looked, OwnSession, |kept.prompt|, kept.blocks,
                Lease(kept.slot, kept.generation), -1, 0))), o')
            else Inv(Look(DiscardKept(s, s.requests[id].session, c.release), id, lookup), o')
  {
    var name := s.requests[id].session;
    assert RequestOk(s, o, id);
    var kept := s.sessions[name].kept.value;
    o' := o;
    if c.compatible && kept.prompt <= s.requests[id].prompt {
      var f := Frame(id, Looked, OwnSession, |kept.prompt|, kept.blocks, Lease(kept.slot, kept.generation), -1, 0);
      FramePlaces(s, o, f);
      SameHolders(s, s.(frame := Some(f)));
    } else {
      DiscardPlaces(s, o, id, c.release);
      DiscardBalances(s, id, c.release);
      o' := o[kept.slot := Freed(c.release)];
      LookKeeps(DiscardKept(s, name, c.release), o', id, lookup);
    }
  }

  lemma ReservePlaces(s: State, o: Owners, pick: seq<Block>)
    requires Placed(s, o, -1) && InFrame(s, Looked)
    ensures Placed(ReserveStep(s, pick), o, -1)
  {
    NobodyUnnamed(s, o);
    ReserveSettles(s, o, pick);
    forall i | 0 <= i < |o| ensures o[i] != ByFrame { assert Owned(s, o, i); }
    hide Settled, Reservable;
    Update(s, ReserveStep(s, pick), o, o, -1, [], "", -1);
  }

  lemma ReserveSettles(s: State, o: Owners, pick: seq<Block>)
    requires Placed(s, o, -1) && InFrame(s, Looked)
    ensures Settled(ReserveStep(s, pick), o, -1, [], "")
  {
    NobodyUnnamed(s, o);
    hide Reservable;
  }

  lemma ReserveKeeps(s: State, o: Owners, pick: seq<Block>)
    requires Inv(s, o)
    ensures Inv(ReserveStep(s, pick), o)
  {
    if InFrame(s, Looked) {
      assert s.flight == [];
      hide Placed, Balanced, Reservable;
      var f := s.frame.value;
      var n := NewBlocks(s.requests[f.request].prompt, f.cached);
      ReservePlaces(s, o, pick);
      ReserveBalances(s, n, pick);
      FrameUncounted(Reserve(s, n, pick), ReserveStep(s, pick).frame);
    }
  }

  // ---- the slot of an admission ----

  lemma OwnSlotKeeps(s: State, o: Owners, ready: set<nat>, capacity: int, evictions: seq<Eviction>, pick: seq<Block>)
    requires Inv(s, o) && InFrame(s, Reserved) && s.frame.value.hit.OwnSession?
    ensures Inv(AllocStep(s, ready, capacity, evictions, pick), o)
  {
    var s' := AllocStep(s, ready, capacity, evictions, pick);
    SameHolders(s, s');
    forall i | 0 <= i < |o| ensures o[i] != ByFrame { assert Owned(s, o, i); }
    Update(s, s', o, o, -1, [], "", -1);
  }

  lemma UnframePlaces(s: State, o: Owners)
    requires Placed(s, o, -1) && s.frame.Some? && !s.frame.value.stage.Allocated?
    ensures Placed(s.(frame := None), o, -1)
  {
    forall i | 0 <= i < |o| ensures o[i] != ByFrame { assert Owned(s, o, i); }
    Update(s, s.(frame := None), o, o, -1, [], "", -1);
  }

  /** The allocated slot passes to the worker's frame. */
  lemma ReframePlaces(s: State, t: State, o: Owners, f: Frame, x: int)
    requires Placed(s, o, x) && s.frame.None? && t == s.(frame := Some(f), flight := t.flight, refs := t.refs)
    requires FrameOk(t, o) && f.stage.Allocated? && !f.hit.OwnSession? && f.slot == x
    requires x == -1 || (0 <= x < |o| && o[x] == ByFrame && s.slots[x] == Slot(Prefilling, f.generation))
    ensures Placed(t, o, -1)
  {
    forall i | 0 <= i < |o| && i != x ensures o[i] != ByFrame { assert Owned(s, o, i); }
    Update(s, t, o, o, -1, [], "", x);
  }

  /** What a looked-up frame still needs of the donors after an allocation. */
  predicate HitStands(s: State, f: Frame, retired: set<nat>) {
    && f.request in s.requests && s.requests[f.request].started && s.requests[f.request].slot == -1
    && !f.hit.OwnSession? && (f.hit.Miss? ==> f.cached == [])
    && (s.flight != [] ==> |s.flight| == NewBlocks(s.requests[f.request].prompt, f.cached))
    && (s.requests[f.request].leased ==>
        s.requests[f.request].session in s.sessions && s.sessions[s.requests[f.request].session].kept.None?)
    && (f.hit.Radix? ==>
          && f.matched == |f.hit.path| && f.hit.path <= s.requests[f.request].prompt
          && (f.cachedLease.slot !in retired ==>
              f.hit.path in s.donors && s.donors[f.hit.path] == Donor(f.cachedLease.slot, f.cached)))
  }

  lemma TakeSlotPlaces(a: Allocation, o: Owners, f: Frame, pick: seq<Block>)
    requires Placed(a.state, o, a.slot) && a.state.frame.None? && HitStands(a.state, f, a.retired)
    requires a.slot == -1 ||
        (0 <= a.slot < |o| && o[a.slot] == ByFrame && a.state.slots[a.slot].state == Prefilling &&
            a.state.slots[a.slot].generation > 0)
    ensures Placed(TakeSlot(a, f, pick), o, -1)
  {
    var t := TakeSlot(a, f, pick);
    ReframePlaces(a.state, t, o, t.frame.value, a.slot);
  }

  lemma TakeSlotBalances(a: Allocation, f: Frame, pick: seq<Block>)
    requires Balanced(a.state) && f.request in a.state.requests
    ensures Balanced(TakeSlot(a, f, pick))
  {
    hide Reserve, Balanced;
    var t := TakeSlot(a, f, pick);
    if f.hit.Radix? && f.cachedLease.slot in a.retired {
      ReturnBalances(a.state);
      var again := Unref(a.state, a.state.flight).(flight := []);
      var n := TotalBlocks(a.state.requests[f.request].prompt);
      ReserveBalances(again, n, pick);
      FrameUncounted(Reserve(again, n, pick), t.frame);
    } else {
      FrameUncounted(a.state, t.frame);
    }
  }

  lemma FrameUncounted(s: State, frame: Option<Frame>)
    requires Balanced(s)
    ensures Balanced(s.(frame := frame))
  {
    SameHolders(s, s.(frame := frame));
  }

  lemma FreshSlotKeeps(s: State, o: Owners, ready: set<nat>, capacity: int, evictions: seq<Eviction>, pick: seq<Block>)
      returns (o': Owners)
    requires Inv(s, o) && InFrame(s, Reserved) && !s.frame.value.hit.OwnSession?
    ensures Inv(AllocStep(s, ready, capacity, evictions, pick), o')
  {
    hide Allocate, Balanced, TakeSlot;
    var f := s.frame.value;
    var p := PollDeferred(s, ready);
    PollPlaces(s, o, ready);
    PollBalances(s, ready);
    UnframePlaces(p, Polled(o, ready));
    FrameUncounted(p, None);
    o' := AllocatePlaces(p.(frame := None), Polled(o, ready), capacity, evictions);
    AllocateBalances(p.(frame := None), capacity, evictions);
    AllocateFrame(p.(frame := None), capacity, evictions);
    var a := Allocate(p.(frame := None), capacity, evictions);
    TakeSlotPlaces(a, o', f, pick);
    TakeSlotBalances(a, f, pick);
  }

  // ---- the end of an admission ----

  /** A fresh slot goes back; a session's slot stays with its session. */
  lemma RollbackPlaces(s: State, o: Owners, c: FinishChoice) returns (o': Owners)
    requires Placed(s, o, -1) && InFrame(s, Allocated) && !CanAdmit(s, s.frame.value)
    ensures Placed(FinishStep(s, c), o', -1)
  {
    var f := s.frame.value;
    var x := if f.hit.OwnSession? then -1 else f.slot;
    RollbackSlot(s, o, x);
    o' := if x >= 0 then o[x := Nobody] else o;
    PlacedBut(s, o, x);
    RollbackElsewhere(s, o, o', c, x);
    RollbackSettled(s, o, o', c, x);
    hide Placed, Alone, Elsewhere, Settled, FinishStep;
    Update(s, FinishStep(s, c), o, o', -1, [], "", x);
  }

  lemma RollbackSlot(s: State, o: Owners, x: int)
    requires Placed(s, o, -1) && InFrame(s, Allocated) && x == if s.frame.value.hit.OwnSession? then -1
        else s.frame.value.slot
    ensures -1 <= x < |o| == |s.slots|
    ensures x >= 0 ==>
        o[x] == ByFrame && s.slots[x] == Slot(Prefilling, s.frame.value.generation) && s.frame.value.generation > 0
    ensures forall i :: 0 <= i < |o| && i != x ==> o[i] != ByFrame
    ensures Alone(s, o, -1, [], "", x)
  {
    assert FrameOk(s, o);
    if x >= 0 { assert Owned(s, o, x); }
    forall i | 0 <= i < |o| && i != x ensures o[i] != ByFrame { assert Owned(s, o, i); }
    NobodyUnnamed(s, o);
  }

  lemma RollbackElsewhere(s: State, o: Owners, o': Owners, c: FinishChoice, x: int)
    requires InFrame(s, Allocated) && !CanAdmit(s, s.frame.value) &&
        x == (if s.frame.value.hit.OwnSession? then -1 else s.frame.value.slot)
    requires -1 <= x < |o| == |s.slots| && o' == (if x >= 0 then o[x := Nobody] else o)
    requires forall i :: 0 <= i < |o| && i != x ==> o[i] != ByFrame
    ensures Elsewhere(s, FinishStep(s, c), o, o', -1, [], "", x)
  {
  }

  lemma RollbackSettled(s: State, o: Owners, o': Owners, c: FinishChoice, x: int)
    requires Placed(s, o, -1) && InFrame(s, Allocated) && !CanAdmit(s, s.frame.value) &&
        x == (if s.frame.value.hit.OwnSession? then -1 else s.frame.value.slot)
    requires -1 <= x < |o| == |s.slots| && o' == (if x >= 0 then o[x := Nobody] else o)
    requires x >= 0 ==>
        o[x] == ByFrame && s.slots[x] == Slot(Prefilling, s.frame.value.generation) && s.frame.value.generation > 0
    ensures |o'| == |FinishStep(s, c).slots| && Settled(FinishStep(s, c), o', -1, [], "")
    ensures x >= 0 ==> Owned(FinishStep(s, c), o', x)
  {
    NobodyUnnamed(s, o);
  }

  lemma RollbackBalances(s: State, c: FinishChoice)
    requires Balanced(s) && InFrame(s, Allocated) && !CanAdmit(s, s.frame.value)
    ensures Balanced(FinishStep(s, c)) && FinishStep(s, c).frame.None? && FinishStep(s, c).flight == []
  {
    hide FreeSeqSlot;
    ReturnBalances(s);
    SameHolders(Unref(s, s.flight).(flight := []), FinishStep(s, c));
  }

  lemma GrantSessionPlaces(s: State, o: Owners)
    requires Placed(s, o, -1) && InFrame(s, Allocated) && CanAdmit(s, s.frame.value) && s.frame.value.hit.OwnSession?
    ensures var f := s.frame.value;
            f.slot < |o| && Placed(Grant(s, f), o[f.slot := ByRequest(f.request)], -1)
  {
    var f := s.frame.value;
    assert RequestOk(s, o, f.request) && SessionOk(s, o, s.requests[f.request].session);
    assert Owned(s, o, f.slot);
    forall i | 0 <= i < |o| ensures o[i] != ByFrame { assert Owned(s, o, i); }
    Update(s, Grant(s, f), o, o[f.slot := ByRequest(f.request)], f.request, [], s.requests[f.request].session, f.slot);
  }

  lemma GrantFreshPlaces(s: State, o: Owners)
    requires Placed(s, o, -1) && InFrame(s, Allocated) && CanAdmit(s, s.frame.value) && !s.frame.value.hit.OwnSession?
    ensures var f := s.frame.value;
            f.slot < |o| && Placed(Grant(s, f), o[f.slot := ByRequest(f.request)], -1)
  {
    var f := s.frame.value;
    assert RequestOk(s, o, f.request);
    assert Owned(s, o, f.slot);
    forall i | 0 <= i < |o| && i != f.slot ensures o[i] != ByFrame { assert Owned(s, o, i); }
    Update(s, Grant(s, f), o, o[f.slot := ByRequest(f.request)], f.request, [], HeldName(s, f.request), f.slot);
  }

  lemma GrantPlaces(s: State, o: Owners)
    requires Placed(s, o, -1) && InFrame(s, Allocated) && CanAdmit(s, s.frame.value)
    ensures var f := s.frame.value;
            f.slot < |o| && Placed(Grant(s, f), o[f.slot := ByRequest(f.request)], -1)
  {
    hide Placed, Grant;
    if s.frame.value.hit.OwnSession? { GrantSessionPlaces(s, o); } else { GrantFreshPlaces(s, o); }
  }

  lemma GrantBalances(s: State, o: Owners)
    requires Placed(s, o, -1) && Balanced(s) && InFrame(s, Allocated) && CanAdmit(s, s.frame.value)
    ensures Balanced(Grant(s, s.frame.value))
  {
    var f := s.frame.value;
    var id := f.request;
    assert RequestOk(s, o, id);
    var name := HeldName(s, id);
    forall n | n in s.sessions && n != name ensures s.sessions[n].holder != Some(id) { assert SessionOk(s, o, n); }
    forall b | b in f.cached ensures b in s.refs {
      Covered(s, -1, if f.hit.Radix? then f.hit.path else [], name, b);
      assert multiset(f.cached)[b] > 0;
    }
    GrantMoves(s, name);
  }

  lemma GrantMoves(s: State, name: string)
    requires Balanced(s) && InFrame(s, Allocated) && CanAdmit(s, s.frame.value) &&
        s.requests[s.frame.value.request].blocks == []
    requires forall n :: n in s.sessions && n != name ==> s.sessions[n].holder != Some(s.frame.value.request)
    requires forall b :: b in s.frame.value.cached ==> b in s.refs
    requires s.frame.value.hit.OwnSession? ==>
        Counted(s, name) && s.sessions[name].kept.value.blocks == s.frame.value.cached &&
            s.sessions[name].holder == Some(s.frame.value.request)
    requires !s.frame.value.hit.OwnSession? && name in s.sessions ==> s.sessions[name].kept.None?
    ensures Balanced(Grant(s, s.frame.value))
  {
    var id := s.frame.value.request;
    var s' := Grant(s, s.frame.value);
    forall b { GrantTouches(s, name, b); }
    hide Touched;
    Rebalanced(s, s', id, [], name);
  }

  lemma GrantTouches(s: State, name: string, b: Block)
    requires InFrame(s, Allocated) && CanAdmit(s, s.frame.value) && s.requests[s.frame.value.request].blocks == []
    requires s.frame.value.hit.OwnSession? ==>
        Counted(s, name) && s.sessions[name].kept.value.blocks == s.frame.value.cached &&
            s.sessions[name].holder == Some(s.frame.value.request)
    requires !s.frame.value.hit.OwnSession? && name in s.sessions ==> s.sessions[name].kept.None?
    ensures var id, s' := s.frame.value.request, Grant(s, s.frame.value);
            s'.refs[b] + Touched(s, id, [], name, b) == s.refs[b] + Touched(s', id, [], name, b)
  {
    var id, s' := s.frame.value.request, Grant(s, s.frame.value);
    assert !Counted(s', name) && s'.requests[id].blocks == s.frame.value.cached + s.flight && s'.flight == [];
    assert s'.refs == if s.frame.value.hit.OwnSession? then s.refs else s.refs + multiset(s.frame.value.cached);
    assert multiset(s.frame.value.cached + s.flight)[b] == multiset(s.frame.value.cached)[b] + multiset(s.flight)[b];
  }

  // ---- running on a slot ----

  /** A request writes KV on its own slot only, and records how far it got. */
  ghost predicate Advances(s: State, s': State, id: int) {
    && s.frame.None? && id in s.requests && id in s'.requests && 0 <= s.requests[id].slot < |s.slots|
    && s' == s.(kv := s'.kv, slots := s'.slots, requests := s.requests[id := s'.requests[id]])
    && var r, r' := s.requests[id], s'.requests[id];
    && r' == r.(offset := r'.offset, prefilled := r'.prefilled)
    && (forall p :: p != r.slot ==> Resident(s'.kv, p) == Resident(s.kv, p))
    && r'.offset <= |r.prompt| && r.prompt[..r'.offset] <= Resident(s'.kv, r.slot) &&
        (r'.prefilled ==> r'.offset == |r.prompt|)
    && |s'.slots| == |s.slots| && s'.slots == s.slots[r.slot := s'.slots[r.slot]]
    && Running(s'.slots[r.slot]) && s'.slots[r.slot].generation == s.slots[r.slot].generation
  }

  lemma AdvancePlaces(s: State, s': State, o: Owners, id: int)
    requires Placed(s, o, -1) && Advances(s, s', id)
    ensures Placed(s', o, -1)
  {
    assert RequestOk(s, o, id);
    assert Owned(s, o, s.requests[id].slot);
    if s.requests[id].leased { assert SessionOk(s, o, s.requests[id].session); }
    Update(s, s', o, o, id, [], HeldName(s, id), s.requests[id].slot);
  }

  lemma AdvanceKeeps(s: State, s': State, o: Owners, id: int)
    requires Inv(s, o) && Advances(s, s', id)
    ensures Inv(s', o)
  {
    AdvancePlaces(s, s', o, id);
    SameShares(s, s', id);
  }

  lemma OnSlot(s: State, o: Owners, id: int)
    requires Placed(s, o, -1) && id in s.requests && s.requests[id].slot >= 0
    ensures var r := s.requests[id];
            && r.slot < |s.slots| == |o| && o[r.slot] == ByRequest(id) && r.started && r.generation > 0
            && Running(s.slots[r.slot]) && s.slots[r.slot].generation == r.generation
            && r.offset <= |r.prompt| && r.prompt[..r.offset] <= Resident(s.kv, r.slot) &&
                (r.prefilled ==> r.offset == |r.prompt|)
  {
    assert RequestOk(s, o, id);
    assert Owned(s, o, s.requests[id].slot);
  }

  /** Either decoder keeps what is before the position, and appends there. */
  lemma WriteKeepsThePrefix(kv: Kv, q: int, pos: nat, tokens: seq<Token>, decoder: Decoder, oc: Outcome)
    requires pos <= |Resident(kv, q)|
    ensures var (kv', ok) := Write(kv, q, pos, tokens, decoder, oc);
            && Resident(kv, q)[..pos] <= Resident(kv', q)
            && (ok ==> Resident(kv', q) == Resident(kv, q)[..pos] + tokens)
            && (forall p :: p != q ==> Resident(kv', p) == Resident(kv, p))
  {
  }

  lemma ChunkAdvances(s: State, id: int, n: nat, decoder: Decoder, oc: Outcome)
    requires s.frame.None? && id in s.requests && 0 <= s.requests[id].slot < |s.slots| && n > 0 &&
        s.requests[id].offset < |s.requests[id].prompt|
    requires s.requests[id].prompt[..s.requests[id].offset] <= Resident(s.kv, s.requests[id].slot) &&
        Running(s.slots[s.requests[id].slot])
    requires !s.requests[id].prefilled
    ensures Advances(s, ChunkStep(s, id, n, decoder, oc), id)
  {
    hide Write, Resident;
    var r := s.requests[id];
    var end := Min(r.offset + n, |r.prompt|);
    WriteKeepsThePrefix(s.kv, r.slot, r.offset, r.prompt[r.offset..end], decoder, oc);
    assert Resident(s.kv, r.slot)[..r.offset] == r.prompt[..r.offset];
    assert r.prompt[..r.offset] + r.prompt[r.offset..end] == r.prompt[..end];
  }

  lemma ChunkKeeps(s: State, o: Owners, id: int, n: nat, decoder: Decoder, oc: Outcome)
    requires Inv(s, o)
    ensures Inv(ChunkStep(s, id, n, decoder, oc), o)
  {
    hide Placed, Balanced, Advances, Write, Resident;
    if s.frame.None? && id in s.requests && s.requests[id].slot >= 0 && n > 0 &&
        s.requests[id].offset < |s.requests[id].prompt| {
      OnSlot(s, o, id);
      ChunkAdvances(s, id, n, decoder, oc);
      AdvanceKeeps(s, ChunkStep(s, id, n, decoder, oc), o, id);
    }
  }

  lemma DecodeKeeps(s: State, o: Owners, id: int, token: Token)
    requires Inv(s, o)
    ensures Inv(DecodeStep(s, id, token), o)
  {
    hide Placed, Balanced;
    if s.frame.None? && id in s.requests && s.requests[id].prefilled && 0 <= s.requests[id].slot < |s.slots| {
      OnSlot(s, o, id);
      AdvanceKeeps(s, DecodeStep(s, id, token), o, id);
    }
  }
}
