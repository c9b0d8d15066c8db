/** What each step of an admission achieves, and that a request with the pages and a
slot it needs is admitted. */
module AdmissionOutcomes {
  import opened Common
  import opened SequenceKv
  import opened PrefixReuse
  import opened Ownership
  import opened OwnershipInvariant
  import opened OwnershipSteps
  import opened OwnershipRuns
  import opened CompletionOutcomes

  // ---- the session and the lookup ----

  /** A request that has arrived and not been taken up. */
  predicate Waiting(s: State, id: int) {
    && s.frame.None? && id in s.requests && !s.requests[id].started
    && !s.requests[id].leased && s.requests[id].slot == -1 && s.requests[id].blocks == []
  }

  lemma WaitingFacts(s: State, o: Owners, id: int)
    requires Inv(s, o) && s.frame.None? && id in s.requests && !s.requests[id].started
    ensures Waiting(s, id) && s.flight == []
    ensures IdleKeep(s)
  {
    assert RequestOk(s, o, id);
    forall n | n in s.sessions && s.sessions[n].holder.None?
      ensures s.sessions[n].kept.Some?
    {
      assert SessionOk(s, o, n);
    }
  }

  /** It gets its session's lease if it names a session that is idle, or new with room
      or an idle one to make room. */
  predicate GetsLease(s: State, id: int, c: SessionChoice)
    requires id in s.requests
  {
    var name := s.requests[id].session;
    name != "" && if name in s.sessions then s.sessions[name].holder.None? else !c.full || IdleSession(s, c.victim)
  }

  /** It continues its session if the kept state is fresh, fits the backend, and
      starts its prompt. */
  predicate Continues(s: State, id: int, c: SessionChoice)
    requires id in s.requests
  {
    var name := s.requests[id].session;
    && name != "" && IdleSession(s, name) && !c.expired && c.compatible
    && s.sessions[name].kept.value.prompt <= s.requests[id].prompt
  }

  /** Otherwise it may share the prefix of a donor whose path starts its prompt. */
  predicate Shares(s: State, id: int, lookup: Option<seq<Token>>)
    requires id in s.requests
  {
    && lookup.Some? && lookup.value in s.donors && lookup.value <= s.requests[id].prompt
    && s.donors[lookup.value].blocks != []
  }

  function FrameOf(s: State, id: int, c: SessionChoice, lookup: Option<seq<Token>>): Frame
    requires id in s.requests
  {
    if Continues(s, id, c) then
      var kept := s.sessions[s.requests[id].session].kept.value;
      Frame(id, Looked, OwnSession, |kept.prompt|, kept.blocks, Lease(kept.slot, kept.generation), -1, 0)
    else if Shares(s, id, lookup) then
      var donor := s.donors[lookup.value];
      Frame(id, Looked, Radix(lookup.value), |lookup.value|, donor.blocks, Lease(donor.slot, 0), -1, 0)
    else Frame(id, Looked, Miss, 0, [], Lease(0, 0), -1, 0)
  }

  /** The references given up on the way in: those of an idle session evicted to make
      room, and those of its own session's state if it cannot continue it. */
  function GivenUp(s: State, id: int, c: SessionChoice): seq<Block>
    requires id in s.requests
  {
    var name := s.requests[id].session;
    if name == "" then []
    else if name !in s.sessions then
      if c.full && IdleSession(s, c.victim) then s.sessions[c.victim].kept.value.blocks else []
    else if IdleSession(s, name) && !Continues(s, id, c) then s.sessions[name].kept.value.blocks
    else []
  }

  /** Its session entry is its own now, with the state it continues or none; a session
      evicted for it is gone, and every other is as it was. */
  ghost predicate SessionsBegun(s: State, s': State, id: int, c: SessionChoice)
    requires id in s.requests
  {
    var name := s.requests[id].session;
    if !GetsLease(s, id, c) then s'.sessions == s.sessions
    else
      var entry := Entry(Some(id), if Continues(s, id, c) then s.sessions[name].kept else None);
      var rest := if name !in s.sessions && c.full then s.sessions - {c.victim} else s.sessions;
      s'.sessions == rest[name := entry]
  }

  ghost predicate Begun(s: State, s': State, id: int, c: SessionChoice, lookup: Option<seq<Token>>)
    requires id in s.requests
  {
    && s'.frame == Some(FrameOf(s, id, c, lookup))
    && s'.requests == s.requests[id := s.requests[id].(started := true, leased := GetsLease(s, id, c))]
    && SessionsBegun(s, s', id, c)
    && s'.donors == s.donors && s'.flight == s.flight && s'.pages == s.pages && |s'.slots| == |s.slots|
    && s'.refs == s.refs - multiset(GivenUp(s, id, c))
  }

  lemma SetTwice<K, V>(m: map<K, V>, k: K, a: V, b: V)
    ensures m[k := a][k := b] == m[k := b]
  {
  }

  predicate IdleKeep(s: State) {
    forall n :: n in s.sessions && s.sessions[n].holder.None? ==> s.sessions[n].kept.Some?
  }

  /** The request taken up, before its session is asked for. */
  function TakenUp(s: State, id: int): State
    requires id in s.requests
  {
    SetRequest(s, id, s.requests[id].(started := true))
  }

  /** A request that does not continue a session looks among the donors. */
  lemma LooksAround(s: State, s1: State, id: int, c: SessionChoice, lookup: Option<seq<Token>>)
    requires id in s.requests && id in s1.requests && s1.donors == s.donors && !Continues(s, id, c)
    requires s1.requests[id].prompt == s.requests[id].prompt
    ensures Look(s1, id, lookup) == s1.(frame := Some(FrameOf(s, id, c, lookup)))
  {
  }

  lemma BeginsWithout(s: State, id: int, c: SessionChoice, lookup: Option<seq<Token>>)
    requires Waiting(s, id) && IdleKeep(s) && !GetsLease(s, id, c)
    ensures Begun(s, Begin(s, id, c, lookup), id, c, lookup)
  {
    var s0 := TakenUp(s, id);
    assert s.requests[id].session != "" ==> AcquireSession(s0, id, c) == s0 by { hide DropSession, DiscardKept; }
    hide AcquireSession, Look, FrameOf;
    LooksAround(s, s0, id, c, lookup);
    assert Begin(s, id, c, lookup) == Look(s0, id, lookup);
    assert s.refs - multiset([]) == s.refs;
  }

  lemma NewEntry(s: State, id: int, c: SessionChoice)
    requires Waiting(s, id) && GetsLease(s, id, c) && s.requests[id].session !in s.sessions
    ensures var s1, r := AcquireSession(TakenUp(s, id), id, c), s.requests[id];
            && s1.requests == s.requests[id := r.(started := true, leased := true)]
            && s1.sessions ==
                (if c.full then s.sessions - {c.victim} else s.sessions)[r.session := Entry(Some(id), None)]
            && s1.donors == s.donors && s1.flight == s.flight && s1.pages == s.pages && |s1.slots| == |s.slots|
            && s1.refs == s.refs - multiset(GivenUp(s, id, c))
  {
    hide FreeSeqSlot;
    var r := s.requests[id];
    assert s.refs - multiset([]) == s.refs;
    SetTwice(s.requests, id, r.(started := true), r.(started := true, leased := true));
  }

  lemma BeginsNew(s: State, id: int, c: SessionChoice, lookup: Option<seq<Token>>)
    requires Waiting(s, id) && GetsLease(s, id, c) && s.requests[id].session !in s.sessions
    ensures Begun(s, Begin(s, id, c, lookup), id, c, lookup)
  {
    NewEntry(s, id, c);
    hide AcquireSession, Look, FrameOf, GivenUp, DiscardKept;
    LooksAround(s, AcquireSession(TakenUp(s, id), id, c), id, c, lookup);
  }

  lemma BeginsContinuing(s: State, id: int, c: SessionChoice, lookup: Option<seq<Token>>)
    requires Waiting(s, id) && Continues(s, id, c)
    ensures Begun(s, Begin(s, id, c, lookup), id, c, lookup)
  {
    hide FreeSeqSlot;
    var r := s.requests[id];
    assert s.refs - multiset([]) == s.refs;
    SetTwice(s.requests, id, r.(started := true), r.(started := true, leased := true));
  }

  /** The state cannot be continued: its lease is taken, and it is released, by the
      manager if it expired and by the scheduler if not. */
  lemma Emptied(s: State, id: int, c: SessionChoice)
    requires Waiting(s, id) && s.requests[id].session != "" && IdleSession(s, s.requests[id].session)
    ensures var r := s.requests[id];
            var s1 := DiscardKept(Hold(TakenUp(s, id), id, r.session, s.sessions[r.session]), r.session, c.release);
            && s1.requests == s.requests[id := r.(started := true, leased := true)]
            && s1.sessions == s.sessions[r.session := Entry(Some(id), None)]
            && s1.donors == s.donors && s1.flight == s.flight && s1.pages == s.pages && |s1.slots| == |s.slots|
            && s1.refs == s.refs - multiset(s.sessions[r.session].kept.value.blocks)
  {
    hide FreeSeqSlot;
    var r := s.requests[id];
    var entry := s.sessions[r.session];
    SetTwice(s.requests, id, r.(started := true), r.(started := true, leased := true));
    SetTwice(s.sessions, r.session, entry.(holder := Some(id)), Entry(Some(id), None));
  }

  lemma BeginsAnew(s: State, id: int, c: SessionChoice, lookup: Option<seq<Token>>)
    requires Waiting(s, id) && s.requests[id].session != "" && IdleSession(s, s.requests[id].session)
    requires !Continues(s, id, c)
    ensures Begun(s, Begin(s, id, c, lookup), id, c, lookup)
  {
    var r := s.requests[id];
    var held := Hold(TakenUp(s, id), id, r.session, s.sessions[r.session]);
    var s1 := DiscardKept(held, r.session, c.release);
    Emptied(s, id, c);
    assert AcquireSession(TakenUp(s, id), id, c) == if c.expired then s1 else held by { hide DropSession, DiscardKept; }
    hide AcquireSession, Look, FrameOf, DiscardKept;
    LooksAround(s, s1, id, c, lookup);
    assert Begin(s, id, c, lookup) == Look(s1, id, lookup);
  }

  lemma Begins(s: State, id: int, c: SessionChoice, lookup: Option<seq<Token>>)
    requires Waiting(s, id) && IdleKeep(s)
    ensures Begun(s, Begin(s, id, c, lookup), id, c, lookup)
  {
    hide Begun, Begin;
    if !GetsLease(s, id, c) {
      BeginsWithout(s, id, c, lookup);
    } else if s.requests[id].session !in s.sessions {
      BeginsNew(s, id, c, lookup);
    } else if Continues(s, id, c) {
      BeginsContinuing(s, id, c, lookup);
    } else {
      BeginsAnew(s, id, c, lookup);
    }
  }

  /** Taking a request up: exactly when it gets its session's lease, continues its
      session, shares a donor's prefix, or starts cold, and what is given up for it. */
  lemma BeginningAnAdmission(s: State, o: Owners, id: int, c: SessionChoice, lookup: Option<seq<Token>>)
    requires Inv(s, o) && s.frame.None? && id in s.requests && !s.requests[id].started
    ensures Begun(s, Begin(s, id, c, lookup), id, c, lookup)
  {
    WaitingFacts(s, o, id);
    hide Inv, Begun, Begin;
    Begins(s, id, c, lookup);
  }

  // ---- the blocks ----

  /** A table covers the prompt and one block more, and wastes no more than that. */
  lemma BlocksForAPrompt(prompt: seq<Token>)
    ensures 16 * (TotalBlocks(prompt) - 1) >= |prompt| && 16 * (TotalBlocks(prompt) - 1) < |prompt| + 16
    ensures forall cached :: |cached| + NewBlocks(prompt, cached) == Max(|cached|, TotalBlocks(prompt))
  {
  }

  /** Exactly as many new blocks as are missing are reserved, or none. */
  lemma ReservingBlocks(s: State, pick: seq<Block>)
    requires InFrame(s, Looked)
    ensures var s', f := ReserveStep(s, pick), s.frame.value;
            var enough := Reservable(s, Max(0, TotalBlocks(s.requests[f.request].prompt) - |f.cached|), pick);
            && s'.flight == (if enough then pick else [])
            && s'.refs == s.refs + multiset(s'.flight)
            && s' == s.(refs := s'.refs, flight := s'.flight, frame := Some(f.(stage := Reserved)))
  {
    hide Reservable;
    assert s.refs + multiset([]) == s.refs;
  }

  // ---- the slot ----

  /** A donor within the backend's reach. */
  predicate InReach(s: State, path: seq<Token>, capacity: int) {
    path in s.donors && s.donors[path].slot < |s.slots| && (capacity <= 0 || s.donors[path].slot < capacity)
  }

  /** With a donor in reach, an allocation finds a slot: it evicts until one is free. */
  lemma {:induction false} AllocationFinds(s: State, capacity: int, evictions: seq<Eviction>, path: seq<Token>)
    requires InReach(s, path, capacity)
    ensures Allocate(s, capacity, evictions).slot >= 0
    decreases |s.donors|
  {
    hide FreeSeqSlot;
    if FindFree(s.slots, capacity, 0) < 0 {
      var e := Victim(s.donors, evictions);
      var t := Evict(s, e.path, e.release);
      if e.path == path {
        EvictedIsIdle(s, path, e.release);
        assert FindFree(t.slots, capacity, 0) >= 0;
      } else {
        AllocationFinds(t, capacity, Tail(evictions), path);
      }
    }
  }

  lemma EvictedIsIdle(s: State, path: seq<Token>, release: Release)
    requires path in s.donors && s.donors[path].slot < |s.slots|
    ensures Evict(s, path, release).slots[s.donors[path].slot].state.Idle?
  {
  }

  /** A request that continues its session keeps its slot. Any other gets the lowest
      idle slot, under a new generation, without disturbing a donor; only if there is
      none are donors evicted, and only if none of them is in reach is there no slot. */
  ghost predicate SlotFound(s: State, s': State, ready: set<nat>, capacity: int)
    requires s.frame.Some? && s'.frame.Some?
  {
    var f, f' := s.frame.value, s'.frame.value;
    var polled := PollDeferred(s, ready);
    var idle := FindFree(polled.slots, capacity, 0);
    && f'.request == f.request && f'.stage.Allocated?
    && (f.hit.OwnSession? ==>
          s' == s.(frame := Some(f.(stage := Allocated, slot := f.cachedLease.slot,
                                    generation := f.cachedLease.generation))))
    && (!f.hit.OwnSession? && idle >= 0 ==>
          && f' == f.(stage := Allocated, slot := idle, generation := s.slots[idle].generation + 1)
          && s' == polled.(frame := s'.frame, slots := polled.slots[idle := Slot(Prefilling, f'.generation)]))
    && (!f.hit.OwnSession? && f'.slot < 0 ==> s'.donors == map[] && forall path :: !InReach(polled, path, capacity))
  }

  lemma {:induction false} SlotOrNone(s: State, capacity: int, evictions: seq<Eviction>)
    ensures Allocate(s, capacity, evictions).slot >= -1
    decreases |s.donors|
  {
    hide Evict;
    if FindFree(s.slots, capacity, 0) < 0 && s.donors != map[] {
      var e := Victim(s.donors, evictions);
      SlotOrNone(Evict(s, e.path, e.release), capacity, Tail(evictions));
    }
  }

  lemma IdleSlotFound(s: State, ready: set<nat>, capacity: int, evictions: seq<Eviction>, pick: seq<Block>)
    requires InFrame(s, Reserved) && !s.frame.value.hit.OwnSession?
    requires FindFree(PollDeferred(s, ready).slots, capacity, 0) >= 0
    ensures var s' := AllocStep(s, ready, capacity, evictions, pick);
            s'.frame.Some? && SlotFound(s, s', ready, capacity)
  {
    var polled := PollDeferred(s, ready).(frame := None);
    var idle := FindFree(polled.slots, capacity, 0);
    ReapOnly(s.slots, s.deferred, ready, idle);
    hide PollDeferred, FindFree;
    assert Allocate(polled, capacity, evictions) == Allocation(AcquireLease(polled, idle), idle, {});
    hide Allocate;
  }

  lemma PressedForASlot(s: State, ready: set<nat>, capacity: int, evictions: seq<Eviction>, pick: seq<Block>)
    requires InFrame(s, Reserved) && !s.frame.value.hit.OwnSession?
    requires FindFree(PollDeferred(s, ready).slots, capacity, 0) < 0
    ensures var s' := AllocStep(s, ready, capacity, evictions, pick);
            s'.frame.Some? && SlotFound(s, s', ready, capacity)
  {
    var polled := PollDeferred(s, ready).(frame := None);
    assert polled.requests == s.requests;
    hide Allocate, PollDeferred, FindFree, TakeSlot;
    SlotOrNone(polled, capacity, evictions);
    AllocateFrame(polled, capacity, evictions);
    var a := Allocate(polled, capacity, evictions);
    forall path | InReach(PollDeferred(s, ready), path, capacity) ensures a.slot >= 0 {
      AllocationFinds(polled, capacity, evictions, path);
    }
    TakesThatSlot(a, s.frame.value, pick);
  }

  lemma TakesThatSlot(a: Allocation, f: Frame, pick: seq<Block>)
    requires f.request in a.state.requests
    ensures var r := TakeSlot(a, f, pick);
            && r.frame.value.slot == a.slot && r.frame.value.stage.Allocated? && r.frame.value.request == f.request
            && r.donors == a.state.donors
  {
    hide Reserve, TotalBlocks;
    var again := Unref(a.state, a.state.flight).(flight := []);
    ReserveOnly(again, TotalBlocks(a.state.requests[f.request].prompt), pick);
  }

  lemma ReserveOnly(s: State, n: nat, pick: seq<Block>)
    ensures Reserve(s, n, pick).donors == s.donors
  {
    hide Reservable;
  }

  /** The frame gets its session's slot, or one that allocation found, or none. */
  lemma AllocatingASlot(s: State, ready: set<nat>, capacity: int, evictions: seq<Eviction>, pick: seq<Block>)
    requires InFrame(s, Reserved)
    ensures var s' := AllocStep(s, ready, capacity, evictions, pick);
            s'.frame.Some? && SlotFound(s, s', ready, capacity)
  {
    hide FindFree, PollDeferred;
    if !s.frame.value.hit.OwnSession? {
      hide AllocStep, SlotFound;
      if FindFree(PollDeferred(s, ready).slots, capacity, 0) >= 0 {
        IdleSlotFound(s, ready, capacity, evictions, pick);
      } else {
        PressedForASlot(s, ready, capacity, evictions, pick);
      }
    }
  }

  predicate OwnSlots(s: State) {
    forall p, q :: p in s.donors && q in s.donors && s.donors[p].slot == s.donors[q].slot ==> p == q
  }

  /** The donors an allocation retires are gone. */
  lemma {:induction false} RetiredAreGone(s: State, capacity: int, evictions: seq<Eviction>, path: seq<Token>)
    requires OwnSlots(s)
    ensures var a := Allocate(s, capacity, evictions);
            && (path in a.state.donors ==> path in s.donors)
            && (path in s.donors && s.donors[path].slot in a.retired ==> path !in a.state.donors)
            && (forall i :: i in a.retired ==> exists p :: p in s.donors && s.donors[p].slot == i)
    decreases |s.donors|
  {
    hide Evict;
    if FindFree(s.slots, capacity, 0) < 0 && s.donors != map[] {
      var e := Victim(s.donors, evictions);
      var t := Evict(s, e.path, e.release);
      RetiredAreGone(t, capacity, Tail(evictions), path);
      var a := Allocate(t, capacity, Tail(evictions));
      forall i | i in a.retired + {s.donors[e.path].slot} ensures exists p :: p in s.donors && s.donors[p].slot == i {
        if i in a.retired {
          var p :| p in t.donors && t.donors[p].slot == i;
          assert p in s.donors;
        }
      }
      if path in t.donors && s.donors[path].slot in a.retired + {s.donors[e.path].slot} { assert path != e.path; }
    }
  }

  lemma DonorsHaveOwnSlots(s: State, o: Owners)
    requires Placed(s, o, -1)
    ensures OwnSlots(s)
  {
    forall p, q | p in s.donors && q in s.donors && s.donors[p].slot == s.donors[q].slot ensures p == q {
      assert DonorOk(s, o, p) && DonorOk(s, o, q);
    }
  }

  /** A shared prefix is given up exactly if its donor had to go for the slot; the
      blocks are then reserved anew, for the whole prompt. */
  lemma KeepingTheHit(s: State, o: Owners, ready: set<nat>, capacity: int, evictions: seq<Eviction>, pick: seq<Block>)
    requires Inv(s, o) && InFrame(s, Reserved) && s.frame.value.hit.Radix?
    ensures var s', f := AllocStep(s, ready, capacity, evictions, pick), s.frame.value;
            && s'.frame.Some?
            && (f.hit.path in s'.donors ==>
                  && s'.frame.value ==
                      f.(stage := Allocated, slot := s'.frame.value.slot, generation := s'.frame.value.generation)
                  && s'.flight == s.flight)
            && (f.hit.path !in s'.donors ==>
                  && s'.frame.value.hit.Miss? && s'.frame.value.cached == [] && s'.frame.value.matched == 0
                  && (s'.flight == [] || (s'.flight == pick && |pick| == TotalBlocks(s.requests[f.request].prompt))))
  {
    var f := s.frame.value;
    var polled := PollDeferred(s, ready).(frame := None);
    DonorsHaveOwnSlots(s, o);
    assert FrameOk(s, o) && f.hit.path in s.donors && s.donors[f.hit.path].slot == f.cachedLease.slot;
    assert polled.donors == s.donors && polled.requests == s.requests && polled.flight == s.flight;
    hide Inv, Allocate, PollDeferred, TakeSlot;
    RetiredAreGone(polled, capacity, evictions, f.hit.path);
    AllocateFrame(polled, capacity, evictions);
    var a := Allocate(polled, capacity, evictions);
    TakesWithHit(a, f, pick);
  }

  lemma TakesWithHit(a: Allocation, f: Frame, pick: seq<Block>)
    requires f.request in a.state.requests && f.hit.Radix?
    ensures var r := TakeSlot(a, f, pick);
            && r.frame.Some? && r.donors == a.state.donors
            && (f.cachedLease.slot !in a.retired ==>
                  && r.frame.value ==
                      f.(stage := Allocated, slot := r.frame.value.slot, generation := r.frame.value.generation)
                  && r.flight == a.state.flight)
            && (f.cachedLease.slot in a.retired ==>
                  && r.frame.value.hit.Miss? && r.frame.value.cached == [] && r.frame.value.matched == 0
                  && (r.flight == [] ||
                      (r.flight == pick && |pick| == TotalBlocks(a.state.requests[f.request].prompt))))
  {
    TakesThatSlot(a, f, pick);
    hide Reserve, TotalBlocks;
    var again := Unref(a.state, a.state.flight).(flight := []);
    ReserveFlight(again, TotalBlocks(a.state.requests[f.request].prompt), pick);
  }

  lemma ReserveFlight(s: State, n: nat, pick: seq<Block>)
    ensures var r := Reserve(s, n, pick); r.flight == [] || (r.flight == pick && |pick| == n)
  {
  }

  // ---- the end of an admission ----

  /** A request is admitted if it has a slot, and the new blocks it needs if any. */
  predicate HasItAll(s: State)
    requires InFrame(s, Allocated)
  {
    var f := s.frame.value;
    f.slot >= 0 && (TotalBlocks(s.requests[f.request].prompt) <= |f.cached| || s.flight != [])
  }

  /** That is exactly when the code goes on with the admission. */
  lemma AdmitsIff(s: State, o: Owners)
    requires Inv(s, o) && InFrame(s, Allocated)
    ensures CanAdmit(s, s.frame.value) <==> HasItAll(s)
  {
    var f := s.frame.value;
    if f.hit.OwnSession? {
      assert SessionOk(s, o, s.requests[f.request].session);
      assert f.slot >= 0 && f.slot < |o| && Owned(s, o, f.slot);
    }
  }

  /** Turned away: the request is where it was, the new blocks are free again, and so
      is a fresh slot; a session's slot stays with its session. */
  lemma TurningAway(s: State, o: Owners, c: FinishChoice)
    requires Inv(s, o) && InFrame(s, Allocated) && !HasItAll(s)
    ensures var s', f := FinishStep(s, c), s.frame.value;
            && s'.requests == s.requests && s'.sessions == s.sessions && s'.donors == s.donors && s'.kv == s.kv
            && s'.frame.None? && s'.flight == [] && s'.refs == s.refs - multiset(s.flight)
            && |s'.slots| == |s.slots|
            && (forall i :: 0 <= i < |s.slots| ==>
                  if i == f.slot && !f.hit.OwnSession? then s'.slots[i].state.Idle? else s'.slots[i] == s.slots[i])
  {
    AdmitsIff(s, o);
    RollbackSlot(s, o, if s.frame.value.hit.OwnSession? then -1 else s.frame.value.slot);
    hide Inv, CanAdmit, HasItAll;
  }

  /** The request as admitted: on its slot, with the cached and the new blocks. */
  function AdmittedAs(s: State, offset: nat, prefilled: bool): Request
    requires s.frame.Some? && s.frame.value.request in s.requests
  {
    var f := s.frame.value;
    s.requests[f.request].(slot := f.slot, generation := f.generation, blocks := f.cached + s.flight, offset := offset,
                           prefilled := prefilled)
  }

  /** What every admission does: a shared prefix gains a reference, a continued
      session's passes on; sessions, donors and other requests are untouched. */
  ghost predicate Granted(s: State, s': State, r: Request)
    requires s.frame.Some?
  {
    var f := s.frame.value;
    && s'.requests == s.requests[f.request := r] && s'.sessions == s.sessions && s'.donors == s.donors
    && s'.frame.None? && s'.flight == []
    && s'.refs == (if f.hit.OwnSession? then s.refs else s.refs + multiset(f.cached))
    && (forall q :: q != f.slot ==> Resident(s'.kv, q) == Resident(s.kv, q))
    && 0 <= f.slot < |s.slots| == |s'.slots|
    && (forall i :: 0 <= i < |s.slots| && i != f.slot ==> s'.slots[i] == s.slots[i])
    && s'.slots[f.slot] == Slot(Prefilling, s.slots[f.slot].generation)
  }

  lemma GrantsIt(s: State, o: Owners)
    requires Inv(s, o) && InFrame(s, Allocated) && HasItAll(s)
    ensures CanAdmit(s, s.frame.value)
    ensures var g := Grant(s, s.frame.value); Granted(s, g, AdmittedAs(s, 0, false)) && g.kv == s.kv
  {
    var f := s.frame.value;
    AdmitsIff(s, o);
    FreshRequest(s, o);
    FrameGeneration(s, o);
    hide Inv, HasItAll, CanAdmit, Grant, Granted, Alone;
    if !f.hit.OwnSession? { OnItsOwnSlot(s, o); }
    SlotInRange(s);
    GrantGives(s);
  }

  lemma OnItsOwnSlot(s: State, o: Owners)
    requires Inv(s, o) && InFrame(s, Allocated) && s.frame.value.slot >= 0 && !s.frame.value.hit.OwnSession?
    ensures s.frame.value.slot < |s.slots| && s.slots[s.frame.value.slot].state.Prefilling?
  {
    RollbackSlot(s, o, s.frame.value.slot);
  }

  lemma GrantGives(s: State)
    requires InFrame(s, Allocated) && 0 <= s.frame.value.slot < |s.slots| && RequestPrefilledNot(s)
    requires s.frame.value.generation > 0
    requires !s.frame.value.hit.OwnSession? ==> s.slots[s.frame.value.slot].state.Prefilling?
    ensures var g := Grant(s, s.frame.value); Granted(s, g, AdmittedAs(s, 0, false)) && g.kv == s.kv
  {
    hide Resident;
  }

  /** How much of the prompt is reused: all of the match but its last token, if it is
      the request's own session or the copy could be trimmed. */
  function Reused(f: Frame, prompt: seq<Token>, trims: bool): nat {
    if prompt != [] && !f.hit.Miss? && f.matched > 0 && (f.hit.OwnSession? || trims)
    then Min(f.matched, |prompt| - 1)
    else 0
  }

  /** The batches let this admission's prefill through. */
  predicate GetsThrough(f: Frame, prompt: seq<Token>, cap: int, luck: Luck)
    requires cap >= 1 && prompt != []
  {
    var reused := !f.hit.Miss? && f.matched > 0 && (f.hit.OwnSession? || luck.copyTrims || |prompt| == 1);
    Fills(|prompt|, Reused(f, prompt, luck.copyTrims), reused, cap, luck)
  }

  /** With batches that succeed the request is admitted and prefilled: its slot holds
      its prompt, and nothing else there. */
  lemma Admitting(s: State, o: Owners, c: FinishChoice)
    requires Inv(s, o) && InFrame(s, Allocated) && HasItAll(s) && !c.deferred
    requires s.requests[s.frame.value.request].prompt != []
    requires GetsThrough(s.frame.value, s.requests[s.frame.value.request].prompt, Max(1, c.chunkCap), c.luck)
    ensures var s', f := FinishStep(s, c), s.frame.value;
            var prompt := s.requests[f.request].prompt;
            && Granted(s, s', AdmittedAs(s, |prompt|, true))
            && Resident(s'.kv, f.slot) == prompt
  {
    GrantsIt(s, o);
    HitHolds(s, o);
    hide Inv, HasItAll, Grant, Granted, Holds, Prefill, CanAdmit, FinishStep, Resident;
    FilledIsAdmitted(s, c);
  }

  lemma FilledIsAdmitted(s: State, c: FinishChoice)
    requires InFrame(s, Allocated) && CanAdmit(s, s.frame.value) && !c.deferred
    requires var f := s.frame.value;
             && s.requests[f.request].prompt != [] && Holds(s.kv, s.requests[f.request].prompt, WarmOf(f), f.slot)
             && Granted(s, Grant(s, f), AdmittedAs(s, 0, false)) && Grant(s, f).kv == s.kv
             && GetsThrough(f, s.requests[f.request].prompt, Max(1, c.chunkCap), c.luck)
    ensures var s', f := FinishStep(s, c), s.frame.value;
            var prompt := s.requests[f.request].prompt;
            Granted(s, s', AdmittedAs(s, |prompt|, true)) && Resident(s'.kv, f.slot) == prompt
  {
    var f := s.frame.value;
    var prompt, g := s.requests[f.request].prompt, Grant(s, f);
    hide Grant, Prefill, CanAdmit, Granted, FinishStep, Holds, Resident, Rounds;
    var cap := Max(1, c.chunkCap);
    assert f.slot >= 0 by { SlotInRange(s); }
    SucceedsIff(s, cap, c.luck);
    PrefillRefinesFullPrefill(s.kv, f.slot, prompt, WarmOf(f), cap, c.luck);
    SetsRequest(s, c);
    RefillsGrant(s, g, Prefill(s.kv, f.slot, prompt, WarmOf(f), cap, c.luck).0, AdmittedAs(s, 0, false),
                 AdmittedAs(s, |prompt|, true));
  }

  lemma SlotInRange(s: State)
    requires InFrame(s, Allocated) && CanAdmit(s, s.frame.value)
    ensures 0 <= s.frame.value.slot < |s.slots|
  {
  }

  lemma RefillsGrant(s: State, g: State, kv: Kv, r: Request, r': Request)
    requires s.frame.Some? && Granted(s, g, r)
    requires forall q :: q != s.frame.value.slot ==> Resident(kv, q) == Resident(g.kv, q)
    ensures Granted(s, SetRequest(g.(kv := kv), s.frame.value.request, r'), r')
    ensures s.frame.value.request in g.requests && g.requests[s.frame.value.request] == r
  {
    SetTwice(s.requests, s.frame.value.request, r, r');
    hide Resident;
  }

  lemma SetsRequest(s: State, c: FinishChoice)
    requires InFrame(s, Allocated) && CanAdmit(s, s.frame.value) && !c.deferred
    ensures var f := s.frame.value;
            var prompt, g := s.requests[f.request].prompt, Grant(s, f);
            var (kv', ok) := Prefill(g.kv, f.slot, prompt, WarmOf(f), Max(1, c.chunkCap), c.luck);
            ok ==>
              FinishStep(s, c) ==
              SetRequest(g.(kv := kv'), f.request, g.requests[f.request].(offset := |prompt|, prefilled := true))
  {
    hide Prefill, Grant, CanAdmit, GiveBack, DiscardCopy, ResolveReuse;
  }

  /** A deferred prefill begins behind the reused part, which its slot holds. */
  lemma Deferring(s: State, o: Owners, c: FinishChoice)
    requires Inv(s, o) && InFrame(s, Allocated) && HasItAll(s) && c.deferred
    requires s.requests[s.frame.value.request].prompt != []
    ensures var s', f := FinishStep(s, c), s.frame.value;
            var prompt := s.requests[f.request].prompt;
            var start := Reused(f, prompt, c.luck.copyTrims);
            && Granted(s, s', AdmittedAs(s, start, false))
            && prompt[..start] <= Resident(s'.kv, f.slot)
  {
    var f := s.frame.value;
    GrantsIt(s, o);
    HitHolds(s, o);
    hide Inv, HasItAll, Grant, Granted, Holds, FinishStep, Resident;
    assert RequestPrefilledNot(s) by { FreshRequest(s, o); }
    PlannedIsDeferred(s, c);
  }

  predicate RequestPrefilledNot(s: State)
    requires s.frame.Some? && s.frame.value.request in s.requests
  {
    !s.requests[s.frame.value.request].prefilled
  }

  lemma FreshRequest(s: State, o: Owners)
    requires Inv(s, o) && InFrame(s, Allocated)
    ensures RequestPrefilledNot(s)
  {
    assert RequestOk(s, o, s.frame.value.request);
  }

  lemma PlannedIsDeferred(s: State, c: FinishChoice)
    requires InFrame(s, Allocated) && CanAdmit(s, s.frame.value) && c.deferred && RequestPrefilledNot(s)
    requires var f := s.frame.value;
             && s.requests[f.request].prompt != [] && Holds(s.kv, s.requests[f.request].prompt, WarmOf(f), f.slot)
             && Granted(s, Grant(s, f), AdmittedAs(s, 0, false)) && Grant(s, f).kv == s.kv
    ensures var s', f := FinishStep(s, c), s.frame.value;
            var prompt := s.requests[f.request].prompt;
            var start := Reused(f, prompt, c.luck.copyTrims);
            Granted(s, s', AdmittedAs(s, start, false)) && prompt[..start] <= Resident(s'.kv, f.slot)
  {
    var f := s.frame.value;
    var prompt, g := s.requests[f.request].prompt, Grant(s, f);
    hide Grant, CanAdmit, Granted, Holds, Resident, ResolveReuse, Prefill;
    ReusedIff(s.kv, prompt, WarmOf(f), f.slot, c.luck.copyTrims);
    ResolveKeepsThePrefix(s.kv, prompt, WarmOf(f), f.slot, c.luck.copyTrims);
    var reuse := ResolveReuse(s.kv, prompt, WarmOf(f), f.slot, c.luck.copyTrims);
    SameElsewhere(s.kv, reuse.kv, f.slot);
    assert FinishStep(s, c) ==
           SetRequest(g.(kv := reuse.kv), f.request, g.requests[f.request].(offset := Max(0, reuse.start)));
    hide FinishStep;
    RefillsGrant(s, g, reuse.kv, AdmittedAs(s, 0, false), AdmittedAs(s, Reused(f, prompt, c.luck.copyTrims), false));
  }

  /** A request whose prefill fails keeps nothing: its new blocks are free again, a
      shared prefix loses the reference it gained, a session it continued is empty and
      its references are gone, and its slot is no longer live. */
  lemma FailingToPrefill(s: State, o: Owners, c: FinishChoice)
    requires Inv(s, o) && InFrame(s, Allocated) && HasItAll(s) && !c.deferred
    requires s.requests[s.frame.value.request].prompt != []
    requires !GetsThrough(s.frame.value, s.requests[s.frame.value.request].prompt, Max(1, c.chunkCap), c.luck)
    ensures Refused(s, FinishStep(s, c))
  {
    GrantsIt(s, o);
    HitHolds(s, o);
    FrameGeneration(s, o);
    hide Inv, HasItAll, Grant, Granted, Holds, FinishStep, CanAdmit, Refused, GetsThrough, Rounds;
    UnfilledIsRefused(s, c);
  }

  ghost predicate Refused(s: State, s': State)
    requires s.frame.Some? && s.frame.value.request in s.requests
  {
    var f := s.frame.value;
    var r := s.requests[f.request];
    && s'.requests ==
        s.requests[f.request := r.(slot := -1, generation := 0, blocks := [], offset := 0, prefilled := false)]
    && s'.frame.None? && s'.flight == [] && s'.donors == s.donors
    && s'.refs == (if f.hit.OwnSession? then s.refs - multiset(f.cached + s.flight) else s.refs - multiset(s.flight))
    && s'.sessions == (if f.hit.OwnSession? && r.session in s.sessions
                       then s.sessions[r.session := s.sessions[r.session].(kept := None)] else s.sessions)
    && 0 <= f.slot < |s.slots| == |s'.slots| && !Live(s'.slots[f.slot], f.generation)
  }

  /** The slot of the frame is current, and its generation is not the one that frees
      whatever is there. */
  lemma FrameGeneration(s: State, o: Owners)
    requires Inv(s, o) && InFrame(s, Allocated) && HasItAll(s)
    ensures s.frame.value.generation > 0 && s.slots[s.frame.value.slot].generation == s.frame.value.generation
  {
    var f := s.frame.value;
    if f.hit.OwnSession? {
      assert SessionOk(s, o, s.requests[f.request].session);
      assert Owned(s, o, f.slot);
    } else {
      RollbackSlot(s, o, f.slot);
    }
  }

  lemma UnfilledIsRefused(s: State, c: FinishChoice)
    requires InFrame(s, Allocated) && CanAdmit(s, s.frame.value) && !c.deferred
    requires var f := s.frame.value;
             && s.requests[f.request].prompt != [] && Holds(s.kv, s.requests[f.request].prompt, WarmOf(f), f.slot)
             && Granted(s, Grant(s, f), AdmittedAs(s, 0, false)) && Grant(s, f).kv == s.kv
             && !GetsThrough(f, s.requests[f.request].prompt, Max(1, c.chunkCap), c.luck)
             && f.generation > 0 && s.slots[f.slot].generation == f.generation
    ensures Refused(s, FinishStep(s, c))
  {
    var f := s.frame.value;
    var prompt, g := s.requests[f.request].prompt, Grant(s, f);
    var cap := Max(1, c.chunkCap);
    SlotInRange(s);
    SucceedsIff(s, cap, c.luck);
    hide CanAdmit, Holds, Grant, Granted, Prefill, FinishStep, Refused, GetsThrough, Rounds, AllDone, Resident;
    PrefillRefinesFullPrefill(s.kv, f.slot, prompt, WarmOf(f), cap, c.luck);
    var kv' := Prefill(s.kv, f.slot, prompt, WarmOf(f), cap, c.luck).0;
    GivesUp(s, c, kv');
    KvOnly(s, g, kv', AdmittedAs(s, 0, false));
    RefusedAfter(s, g.(kv := kv'), c.release);
  }

  lemma SucceedsIff(s: State, cap: int, luck: Luck)
    requires InFrame(s, Allocated) && s.frame.value.slot >= 0 && cap >= 1
    requires var f := s.frame.value;
             s.requests[f.request].prompt != [] && Holds(s.kv, s.requests[f.request].prompt, WarmOf(f), f.slot)
    ensures var f, prompt := s.frame.value, s.requests[s.frame.value.request].prompt;
            Prefill(s.kv, f.slot, prompt, WarmOf(f), cap, luck).1 <==> GetsThrough(f, prompt, cap, luck)
  {
    hide Holds, Prefill, Fills;
    var f := s.frame.value;
    PrefillSucceedsIff(s.kv, f.slot, s.requests[f.request].prompt, WarmOf(f), cap, luck);
  }

  lemma KvOnly(s: State, g: State, kv: Kv, r: Request)
    requires s.frame.Some? && Granted(s, g, r)
    requires forall q :: q != s.frame.value.slot ==> Resident(kv, q) == Resident(g.kv, q)
    ensures Granted(s, g.(kv := kv), r)
  {
    hide Resident;
  }

  lemma GivenBack(d: State, id: int, release: Release)
    requires id in d.requests && 0 <= d.requests[id].slot < |d.slots| && d.requests[id].generation > 0
    ensures var r, g := d.requests[id], GiveBack(d, id, release);
            && g.requests ==
                d.requests[id := r.(slot := -1, generation := 0, blocks := [], offset := 0, prefilled := false)]
            && g.refs == d.refs - multiset(r.blocks) && g.sessions == d.sessions && g.donors == d.donors
            && g.frame == d.frame && g.flight == d.flight && |g.slots| == |d.slots|
            && !Live(g.slots[r.slot], r.generation)
  {
    hide FreeSeqSlot, Resident;
    var r := d.requests[id];
    FreeingASlot(Unref(d, r.blocks), r.slot, r.generation, release);
  }

  lemma GivesUp(s: State, c: FinishChoice, kv': Kv)
    requires InFrame(s, Allocated) && CanAdmit(s, s.frame.value) && !c.deferred
    requires var f := s.frame.value;
             Prefill(Grant(s, f).kv, f.slot, s.requests[f.request].prompt, WarmOf(f), Max(1, c.chunkCap), c.luck) ==
                 (kv', false)
    ensures var f := s.frame.value;
            var p := Grant(s, f).(kv := kv');
            FinishStep(s, c) ==
                GiveBack(if f.hit.OwnSession? then DiscardCopy(p, f.request) else p, f.request, c.release)
  {
    hide Prefill, Grant, CanAdmit, GiveBack, DiscardCopy, ResolveReuse;
  }

  lemma RefusedAfter(s: State, p: State, release: Release)
    requires s.frame.Some? && s.frame.value.request in s.requests && Granted(s, p, AdmittedAs(s, 0, false))
    requires var f := s.frame.value;
             0 <= f.slot < |s.slots| && f.generation > 0 && s.slots[f.slot].generation == f.generation
    ensures var f := s.frame.value;
            Refused(s, GiveBack(if f.hit.OwnSession? then DiscardCopy(p, f.request) else p, f.request, release))
  {
    hide GiveBack, Resident, Live;
    var f := s.frame.value;
    var r := s.requests[f.request];
    var d := if f.hit.OwnSession? then DiscardCopy(p, f.request) else p;
    GivenBack(d, f.request, release);
    SetTwice(s.requests, f.request, AdmittedAs(s, 0, false),
             r.(slot := -1, generation := 0, blocks := [], offset := 0, prefilled := false));
    LosesTheGained(s.refs, f.cached, s.flight);
  }

  lemma LosesTheGained(refs: multiset<Block>, cached: seq<Block>, flight: seq<Block>)
    ensures refs + multiset(cached) - multiset(cached + flight) == refs - multiset(flight)
  {
    assert multiset(cached + flight) == multiset(cached) + multiset(flight);
  }

  // ---- running ----

  /** A chunk that the decoder takes brings the prefill on by its tokens, and ends it
      with the prompt's last one; one that is not taken leaves it where it was. */
  lemma PrefillingAChunk(s: State, o: Owners, id: int, n: nat, decoder: Decoder, oc: Outcome)
    requires Inv(s, o) && s.frame.None? && id in s.requests && s.requests[id].slot >= 0 && n > 0
    requires s.requests[id].offset < |s.requests[id].prompt|
    ensures var s', r := ChunkStep(s, id, n, decoder, oc), s.requests[id];
            var taken := oc.Done? && (decoder.Overwriting? || |Resident(s.kv, r.slot)| == r.offset);
            var end := if taken then Min(r.offset + n, |r.prompt|) else r.offset;
            && s' == s.(kv := s'.kv, requests := s.requests[id := r.(offset := end, prefilled := end == |r.prompt|)])
            && r.prompt[..end] <= Resident(s'.kv, r.slot) && (taken ==> Resident(s'.kv, r.slot) == r.prompt[..end])
            && (forall q :: q != r.slot ==> Resident(s'.kv, q) == Resident(s.kv, q))
  {
    hide ChunkStep, Write, Resident;
    var r := s.requests[id];
    OnSlot(s, o, id);
    assert !r.prefilled by { assert RequestOk(s, o, id); }
    hide Inv;
    ChunkTaken(s.kv, r.slot, r.prompt, r.offset, Min(r.offset + n, |r.prompt|), decoder, oc);
    ChunkSets(s, id, n, decoder, oc);
  }

  lemma ChunkSets(s: State, id: int, n: nat, decoder: Decoder, oc: Outcome)
    requires s.frame.None? && id in s.requests && s.requests[id].slot >= 0 && n > 0
    requires 0 <= s.requests[id].offset < |s.requests[id].prompt| && !s.requests[id].prefilled
    ensures var r := s.requests[id];
            var end := Min(r.offset + n, |r.prompt|);
            var (kv', ok) := Write(s.kv, r.slot, r.offset, r.prompt[r.offset..end], decoder, oc);
            var r' := if ok then r.(offset := end, prefilled := end == |r.prompt|) else r;
            ChunkStep(s, id, n, decoder, oc) == s.(kv := kv', requests := s.requests[id := r'])
  {
    hide Write;
  }

  lemma ChunkTaken(kv: Kv, q: int, prompt: seq<Token>, at: nat, end: nat, decoder: Decoder, oc: Outcome)
    requires at <= end <= |prompt| && prompt[..at] <= Resident(kv, q)
    ensures var (kv', ok) := Write(kv, q, at, prompt[at..end], decoder, oc);
            && (ok <==> oc.Done? && (decoder.Overwriting? || |Resident(kv, q)| == at))
            && prompt[..at] <= Resident(kv', q) && (ok ==> Resident(kv', q) == prompt[..end])
            && (forall p :: p != q ==> Resident(kv', p) == Resident(kv, p))
  {
    assert Resident(kv, q)[..at] == prompt[..at];
    assert prompt[..at] + prompt[at..end] == prompt[..end];
  }

  /** A decoded token is appended to the request's own sequence, whose slot decodes
      from then on; nothing else changes. */
  lemma DecodingAToken(s: State, o: Owners, id: int, token: Token)
    requires Inv(s, o) && s.frame.None? && id in s.requests && s.requests[id].prefilled
    ensures var s', i := DecodeStep(s, id, token), s.requests[id].slot;
            && 0 <= i < |s.slots|
            && s' == s.(kv := s'.kv, slots := s.slots[i := Slot(Decoding, s.slots[i].generation)])
            && Resident(s'.kv, i) == Resident(s.kv, i) + [token]
            && (forall q :: q != i ==> Resident(s'.kv, q) == Resident(s.kv, q))
  {
    assert RequestOk(s, o, id);
    OnSlot(s, o, id);
    hide Inv, RequestOk;
    var i := s.requests[id].slot;
    assert s.slots[i].state.Decoding? ==> s.slots[i := s.slots[i]] == s.slots;
  }
}
