/** Release fences: a slot whose backend release is pending must not be leased.

A release through a generation waits behind its fence. The eviction of a donor
releases with generation 0 and drops the fence, so the promise holds on a run
exactly as long as no eviction's fence is pending.
*/
module Fences {
  import opened Common
  import opened SequenceKv
  import opened PrefixReuse
  import opened Ownership
  import opened OwnershipInvariant
  import opened OwnershipSteps
  import opened OwnershipRuns

  predicate Waiting(deferred: seq<Lease>, i: nat) { exists k :: 0 <= k < |deferred| && deferred[k].slot == i }

  /** The slots whose fence is pending although nobody waits for it. */
  function Loose(fences: set<nat>, deferred: seq<Lease>): set<nat> { set i | i in fences && !Waiting(deferred, i) }

  /** Every pending fence has its slot waiting for it. */
  predicate Guarded(s: State) { Loose(s.fences, s.deferred) == {} }

  /** No fence is left unguarded that was not so before. */
  predicate NoWorse(s: State, s': State) { Loose(s'.fences, s'.deferred) <= Loose(s.fences, s.deferred) }

  predicate Quiet(release: Release) { !(release.backend && release.pending) }

  predicate AllQuiet(evictions: seq<Eviction>) { forall k :: 0 <= k < |evictions| ==> Quiet(evictions[k].release) }

  lemma FreeNoWorse(s: State, i: int, generation: nat, release: Release)
    requires generation != 0 || Quiet(release)
    ensures NoWorse(s, FreeSeqSlot(s, i, generation, release))
  {
    var s' := FreeSeqSlot(s, i, generation, release);
    if s'.deferred != s.deferred {
      assert s'.deferred[|s.deferred|].slot == i;
      forall j | Waiting(s.deferred, j) ensures Waiting(s'.deferred, j) {
        var k :| 0 <= k < |s.deferred| && s.deferred[k].slot == j;
        assert s'.deferred[k].slot == j;
      }
    }
  }

  /** Exactly: evicting a donor keeps every fence guarded if and only if its own
      fence is not pending. */
  lemma EvictionGuardsIffQuiet(s: State, o: Owners, path: seq<Token>, release: Release)
    requires Placed(s, o, -1) && Guarded(s) && path in s.donors
    ensures Guarded(Evict(s, path, release)) <==> Quiet(release)
  {
    var i := s.donors[path].slot;
    assert DonorOk(s, o, path);
    forall k | 0 <= k < |s.deferred| ensures s.deferred[k].slot != i { assert o[s.deferred[k].slot] == ByRetirement; }
    if !Quiet(release) { assert i in Loose(Evict(s, path, release).fences, s.deferred); }
  }

  lemma {:induction false} AllocateNoWorse(s: State, capacity: int, evictions: seq<Eviction>)
    requires AllQuiet(evictions)
    ensures NoWorse(s, Allocate(s, capacity, evictions).state)
    decreases |s.donors|
  {
    hide Loose;
    if FindFree(s.slots, capacity, 0) < 0 && s.donors != map[] {
      var e := Victim(s.donors, evictions);
      FreeNoWorse(s, s.donors[e.path].slot, 0, e.release);
      AllocateNoWorse(Evict(s, e.path, e.release), capacity, Tail(evictions));
      hide FreeSeqSlot;
    }
  }

  lemma {:induction false} EvictManyNoWorse(s: State, evictions: seq<Eviction>)
    requires AllQuiet(evictions)
    ensures NoWorse(s, EvictMany(s, evictions))
    decreases |evictions|
  {
    hide Loose;
    if evictions != [] {
      var e := evictions[0];
      if e.path in s.donors {
        FreeNoWorse(s, s.donors[e.path].slot, 0, e.release);
        EvictManyNoWorse(Evict(s, e.path, e.release), evictions[1..]);
        hide FreeSeqSlot;
      } else {
        EvictManyNoWorse(s, evictions[1..]);
      }
    }
  }

  lemma PollNoWorse(s: State, ready: set<nat>)
    ensures NoWorse(s, PollDeferred(s, ready))
  {
    PendingOnly(s.deferred, ready);
    var rest := StillPending(s.deferred, ready);
    forall i | i !in ready && Waiting(s.deferred, i) ensures Waiting(rest, i) {
      var k :| 0 <= k < |s.deferred| && s.deferred[k].slot == i;
      assert s.deferred[k] in rest;
    }
  }

  lemma DropNoWorse(s: State, name: string, release: Release)
    requires name in s.sessions && s.sessions[name].kept.Some? && s.sessions[name].kept.value.generation > 0
    ensures NoWorse(s, DropSession(s, name, release)) && NoWorse(s, DiscardKept(s, name, release))
  {
    hide Loose;
    hide FreeSeqSlot;
    var kept := s.sessions[name].kept.value;
    FreeNoWorse(Unref(s.(sessions := s.sessions - {name}), kept.blocks), kept.slot, kept.generation, release);
    FreeNoWorse(Unref(SetEntry(s, name, s.sessions[name].(kept := None)), kept.blocks), kept.slot, kept.generation,
        release);
  }

  lemma GiveBackNoWorse(s: State, id: int, release: Release)
    requires id in s.requests && (s.requests[id].generation > 0 || s.requests[id].slot < 0)
    ensures NoWorse(s, GiveBack(s, id, release))
  {
    hide Loose;
    if s.requests[id].slot >= 0 {
      FreeNoWorse(Unref(s, s.requests[id].blocks), s.requests[id].slot, s.requests[id].generation, release);
    }
  }

  lemma AcquireSessionNoWorse(s: State, o: Owners, id: int, c: SessionChoice)
    requires Placed(s, o, -1) && id in s.requests && !s.requests[id].leased
    ensures var s' := AcquireSession(s, id, c);
            NoWorse(s, s') && (Holding(s', id) ==> s'.sessions[s'.requests[id].session].kept.value.generation > 0)
  {
    hide Loose;
    hide DropSession, DiscardKept;
    var name := s.requests[id].session;
    if name !in s.sessions {
      if c.full && IdleSession(s, c.victim) {
        assert SessionOk(s, o, c.victim);
        DropNoWorse(s, c.victim, c.release);
        DropKeepsRequests(s, c.victim, c.release);
      }
    } else if s.sessions[name].holder.None? {
      assert SessionOk(s, o, name);
      var held := Hold(s, id, name, s.sessions[name]);
      DropNoWorse(held, name, c.release);
      DropKeepsRequests(held, name, c.release);
    }
  }

  lemma DropKeepsRequests(s: State, name: string, release: Release)
    requires name in s.sessions && s.sessions[name].kept.Some?
    ensures DropSession(s, name, release).requests == s.requests &&
        DropSession(s, name, release).sessions == s.sessions - {name}
    ensures DiscardKept(s, name, release).requests == s.requests &&
        DiscardKept(s, name, release).sessions == s.sessions[name := s.sessions[name].(kept := None)]
  {
  }

  lemma BeginNoWorse(s: State, o: Owners, id: int, c: SessionChoice, lookup: Option<seq<Token>>)
    requires Placed(s, o, -1)
    ensures NoWorse(s, Begin(s, id, c, lookup))
  {
    hide Loose;
    if s.frame.None? && id in s.requests && !s.requests[id].started {
      assert RequestOk(s, o, id);
      MarkPlaces(s, o, id);
      var s1 := SetRequest(s, id, s.requests[id].(started := true));
      hide Placed, AcquireSession, DiscardKept, Look;
      if s.requests[id].session != "" {
        AcquireSessionNoWorse(s1, o, id, c);
        s1 := AcquireSession(s1, id, c);
      }
      if Holding(s1, id) { DropNoWorse(s1, s1.requests[id].session, c.release); }
    }
  }

  lemma GrantedLease(s: State, o: Owners)
    requires Placed(s, o, -1) && InFrame(s, Allocated) && CanAdmit(s, s.frame.value)
    ensures s.frame.value.generation > 0
  {
    var f := s.frame.value;
    assert RequestOk(s, o, f.request);
    if f.hit.OwnSession? { assert SessionOk(s, o, s.requests[f.request].session); }
  }

  lemma FinishNoWorse(s: State, o: Owners, c: FinishChoice)
    requires Placed(s, o, -1)
    ensures NoWorse(s, FinishStep(s, c))
  {
    hide Loose, GiveBack, FreeSeqSlot, Prefill, ResolveReuse, Grant, DiscardCopy, Placed;
    if InFrame(s, Allocated) {
      var f := s.frame.value;
      if !CanAdmit(s, f) {
        FreeNoWorse(Unref(s, s.flight).(flight := [], frame := None), f.slot, f.generation, Release(false, false));
      } else {
        GrantedLease(s, o);
        var g := Grant(s, f);
        var (kv', ok) := Prefill(g.kv, f.slot, s.requests[f.request].prompt, WarmOf(f), Max(1, c.chunkCap), c.luck);
        var p := g.(kv := kv');
        GiveBackNoWorse(if f.hit.OwnSession? then DiscardCopy(p, f.request) else p, f.request, c.release);
      }
    }
  }

  lemma FinalizeNoWorse(s: State, o: Owners, id: int, commit: bool, release: Release)
    requires Placed(s, o, -1) && id in s.requests
    ensures NoWorse(s, FinalizeSession(s, id, commit, release))
  {
    hide Loose;
    assert RequestOk(s, o, id);
    hide GiveBack, Placed, Commit, ReleaseHold, DiscardCopy;
    if s.requests[id].slot >= 0 { GiveBackNoWorse(DiscardCopy(s, id), id, release); }
  }

  lemma DonateNoWorse(s: State, id: int, c: CompleteChoice)
    requires id in s.requests && s.requests[id].slot >= 0 && Quiet(c.replaced)
    ensures NoWorse(s, Donate(s, id, c))
  {
    hide Loose;
    hide FreeSeqSlot;
    var r := s.requests[id];
    if r.prompt in s.donors {
      FreeNoWorse(s.(refs := s.refs + multiset(r.blocks), flight := r.blocks), s.donors[r.prompt].slot, 0, c.replaced);
    }
  }

  lemma CompleteNoWorse(s: State, o: Owners, id: int, c: CompleteChoice)
    requires Placed(s, o, -1) && Quiet(c.replaced) && AllQuiet(c.evictions)
    ensures NoWorse(s, CompleteStep(s, id, c))
  {
    hide Loose;
    if s.frame.None? && id in s.requests && s.requests[id].started {
      assert RequestOk(s, o, id);
      FinalizeNoWorse(s, o, id, !c.failed, c.release);
      hide FinalizeSession, GiveBack, Donate, EvictMany, Placed;
      if s.requests[id].slot >= 0 { GiveBackNoWorse(s, id, c.release); }
      if Donates(s, id, c) {
        DonateNoWorse(s, id, c);
        EvictManyNoWorse(Donate(s, id, c), c.evictions);
      }
    }
  }

  lemma AbortNoWorse(s: State, o: Owners, id: int, success: bool, release: Release)
    requires Placed(s, o, -1)
    ensures NoWorse(s, AbortStep(s, id, success, release))
  {
    hide Loose;
    if s.frame.None? && id in s.requests && s.requests[id].started {
      assert RequestOk(s, o, id);
      FinalizeNoWorse(s, o, id, success, release);
      hide FinalizeSession, GiveBack, Placed;
      if s.requests[id].slot >= 0 { GiveBackNoWorse(s, id, release); }
    }
  }

  lemma AllocStepNoWorse(s: State, ready: set<nat>, capacity: int, evictions: seq<Eviction>, pick: seq<Block>)
    requires AllQuiet(evictions)
    ensures NoWorse(s, AllocStep(s, ready, capacity, evictions, pick))
  {
    hide Loose;
    hide Allocate, PollDeferred;
    PollNoWorse(s, ready);
    AllocateNoWorse(PollDeferred(s, ready).(frame := None), capacity, evictions);
  }

  /** An event whose evictions, if it makes any, have no pending fence. */
  predicate QuietEvent(e: Event) {
    && (e.AdmitAllocate? ==> AllQuiet(e.evictions))
    && (e.Complete? ==> Quiet(e.complete.replaced) && AllQuiet(e.complete.evictions))
  }

  lemma StepNoWorse(s: State, o: Owners, e: Event)
    requires Placed(s, o, -1) && QuietEvent(e)
    ensures NoWorse(s, Next(s, e))
  {
    hide NoWorse, Placed, Begin, ReserveStep, AllocStep, FinishStep, ChunkStep, DecodeStep, CompleteStep, AbortStep,
        DropSession, PollDeferred;
    match e
    case AdmitBegin(id, c, lookup) => BeginNoWorse(s, o, id, c, lookup);
    case AdmitAllocate(ready, capacity, evictions, pick) => AllocStepNoWorse(s, ready, capacity, evictions, pick);
    case AdmitFinish(c) => FinishNoWorse(s, o, c);
    case Complete(id, c) => CompleteNoWorse(s, o, id, c);
    case Abort(id, success, release) => AbortNoWorse(s, o, id, success, release);
    case Expire(name, release) => ExpireNoWorse(s, o, name, release);
    case Poll(ready) => PollNoWorse(s, ready);
    case _ => FencesStay(s, e);
  }

  lemma ExpireNoWorse(s: State, o: Owners, name: string, release: Release)
    requires Placed(s, o, -1)
    ensures NoWorse(s, Next(s, Expire(name, release)))
  {
    hide Loose, DropSession;
    if IdleSession(s, name) {
      assert SessionOk(s, o, name);
      DropNoWorse(s, name, release);
    }
  }

  lemma FencesStay(s: State, e: Event)
    requires e.Arrive? || e.AdmitReserve? || e.PrefillChunk? || e.Decode?
    ensures NoWorse(s, Next(s, e))
  {
    hide Loose, Write, Reservable;
  }

  lemma {:induction false} RunGuards(s: State, events: seq<Event>)
    requires Safe(s) && Guarded(s) && forall k :: 0 <= k < |events| ==> QuietEvent(events[k])
    ensures Safe(Run(s, events)) && Guarded(Run(s, events))
    decreases |events|
  {
    hide Inv, Next, Loose;
    if events != [] {
      StepKeeps(s, events[0]);
      StepGuards(s, events[0]);
      RunGuards(Next(s, events[0]), events[1..]);
    }
  }

  lemma StepGuards(s: State, e: Event)
    requires Safe(s) && Guarded(s) && QuietEvent(e)
    ensures Guarded(Next(s, e))
  {
    hide Next, Loose, Placed, Balanced;
    var o: Owners :| Inv(s, o);
    StepNoWorse(s, o, e);
  }

  /** On every run whose evictions have no pending fence, a slot with a pending
      fence is retiring, so it is not the slot the next admission leases. */
  lemma FencedSlotsAreNotLeased(pages: nat, slots: nat, events: seq<Event>, capacity: int)
    requires forall k :: 0 <= k < |events| ==> QuietEvent(events[k])
    ensures var s := Run(Start(pages, slots), events);
            && (forall i :: i in s.fences ==> i < |s.slots| && s.slots[i].state.Retiring?)
            && (FindFree(s.slots, capacity, 0) >= 0 ==> FindFree(s.slots, capacity, 0) !in s.fences)
  {
    StartIsSafe(pages, slots);
    RunGuards(Start(pages, slots), events);
    hide Run, Balanced;
    var s := Run(Start(pages, slots), events);
    var o: Owners :| Inv(s, o);
    forall i | i in s.fences ensures i < |s.slots| && s.slots[i].state.Retiring? {
      assert i !in Loose(s.fences, s.deferred);
      var k :| 0 <= k < |s.deferred| && s.deferred[k].slot == i;
      assert Owned(s, o, i);
    }
  }
}
