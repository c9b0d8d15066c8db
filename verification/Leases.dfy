/** Sequence-slot leases over whole runs: generations only rise, freeing ends a
lease, and a lease that ended never comes back to life. */
module Leases {
  import opened Common
  import opened SequenceKv
  import opened PrefixReuse
  import opened Ownership
  import opened OwnershipSteps

  predicate Spent(slot: Slot) { slot.state.Idle? || slot.state.Retiring? }

  /** Slots only move forward: the generation never falls, and within one
      generation a lease once given up is not taken up again. */
  predicate Forward(before: seq<Slot>, after: seq<Slot>) {
    |before| == |after| &&
    forall i :: 0 <= i < |before| ==>
      before[i].generation < after[i].generation ||
      (before[i].generation == after[i].generation && (Spent(before[i]) ==> Spent(after[i])))
  }

  lemma FreeForward(s: State, i: int, generation: nat, release: Release)
    ensures Forward(s.slots, FreeSeqSlot(s, i, generation, release).slots)
  {
  }

  lemma {:induction false} AllocateForward(s: State, capacity: int, evictions: seq<Eviction>)
    ensures Forward(s.slots, Allocate(s, capacity, evictions).state.slots)
    decreases |s.donors|
  {
    if FindFree(s.slots, capacity, 0) < 0 && s.donors != map[] {
      var e := Victim(s.donors, evictions);
      FreeForward(s, s.donors[e.path].slot, 0, e.release);
      AllocateForward(Evict(s, e.path, e.release), capacity, Tail(evictions));
      hide FreeSeqSlot;
    }
  }

  lemma {:induction false} EvictManyForward(s: State, evictions: seq<Eviction>)
    ensures Forward(s.slots, EvictMany(s, evictions).slots)
    decreases |evictions|
  {
    if evictions != [] {
      var e := evictions[0];
      if e.path in s.donors {
        FreeForward(s, s.donors[e.path].slot, 0, e.release);
        EvictManyForward(Evict(s, e.path, e.release), evictions[1..]);
        hide FreeSeqSlot;
      } else {
        EvictManyForward(s, evictions[1..]);
      }
    }
  }

  lemma PollForward(s: State, ready: set<nat>)
    ensures Forward(s.slots, PollDeferred(s, ready).slots)
  {
    forall i | 0 <= i < |s.slots| ensures
      PollDeferred(s, ready).slots[i].generation == s.slots[i].generation &&
      (Spent(s.slots[i]) ==> Spent(PollDeferred(s, ready).slots[i]))
    {
      ReapOnly(s.slots, s.deferred, ready, i);
    }
  }

  lemma DropForward(s: State, name: string, release: Release)
    requires name in s.sessions && s.sessions[name].kept.Some?
    ensures Forward(s.slots, DropSession(s, name, release).slots) &&
        DropSession(s, name, release).requests == s.requests
    ensures Forward(s.slots, DiscardKept(s, name, release).slots) &&
        DiscardKept(s, name, release).requests == s.requests
  {
    hide FreeSeqSlot;
    var kept := s.sessions[name].kept.value;
    FreeForward(Unref(s.(sessions := s.sessions - {name}), kept.blocks), kept.slot, kept.generation, release);
    FreeForward(Unref(SetEntry(s, name, s.sessions[name].(kept := None)), kept.blocks), kept.slot, kept.generation,
        release);
  }

  lemma GiveBackForward(s: State, id: int, release: Release)
    requires id in s.requests
    ensures Forward(s.slots, GiveBack(s, id, release).slots)
  {
    hide FreeSeqSlot;
    FreeForward(Unref(s, s.requests[id].blocks), s.requests[id].slot, s.requests[id].generation, release);
  }

  lemma AcquireSessionForward(s: State, id: int, c: SessionChoice)
    requires id in s.requests
    ensures Forward(s.slots, AcquireSession(s, id, c).slots)
  {
    hide DropSession, DiscardKept;
    var name := s.requests[id].session;
    if name !in s.sessions {
      if c.full && IdleSession(s, c.victim) { DropForward(s, c.victim, c.release); }
    } else if s.sessions[name].holder.None? && s.sessions[name].kept.Some? {
      DropForward(Hold(s, id, name, s.sessions[name]), name, c.release);
    }
  }

  lemma BeginForward(s: State, id: int, c: SessionChoice, lookup: Option<seq<Token>>)
    ensures Forward(s.slots, Begin(s, id, c, lookup).slots)
  {
    hide AcquireSession, DiscardKept, Look;
    if s.frame.None? && id in s.requests && !s.requests[id].started {
      var s1 := SetRequest(s, id, s.requests[id].(started := true));
      if s.requests[id].session != "" {
        AcquireSessionForward(s1, id, c);
        s1 := AcquireSession(s1, id, c);
      }
      if Holding(s1, id) { DropForward(s1, s1.requests[id].session, c.release); }
    }
  }

  lemma FinishForward(s: State, c: FinishChoice)
    ensures Forward(s.slots, FinishStep(s, c).slots)
  {
    hide GiveBack, FreeSeqSlot, Prefill;
    if InFrame(s, Allocated) {
      var f := s.frame.value;
      if !CanAdmit(s, f) {
        FreeForward(Unref(s, s.flight).(flight := [], frame := None), f.slot, f.generation, Release(false, false));
      } else {
        var g := Grant(s, f);
        assert Forward(s.slots, g.slots);
        var (kv', ok) := Prefill(g.kv, f.slot, s.requests[f.request].prompt, WarmOf(f), Max(1, c.chunkCap), c.luck);
        var p := g.(kv := kv');
        GiveBackForward(if f.hit.OwnSession? then DiscardCopy(p, f.request) else p, f.request, c.release);
      }
    }
  }

  lemma FinalizeForward(s: State, id: int, commit: bool, release: Release)
    requires id in s.requests
    ensures Forward(s.slots, FinalizeSession(s, id, commit, release).slots)
  {
    hide GiveBack, ReleaseHold, DiscardCopy;
    if s.requests[id].slot >= 0 { GiveBackForward(DiscardCopy(s, id), id, release); }
  }

  lemma DonateForward(s: State, id: int, c: CompleteChoice)
    requires id in s.requests && s.requests[id].slot >= 0
    ensures Forward(s.slots, Donate(s, id, c).slots)
  {
    hide FreeSeqSlot;
    var r := s.requests[id];
    if r.prompt in s.donors {
      FreeForward(s.(refs := s.refs + multiset(r.blocks), flight := r.blocks), s.donors[r.prompt].slot, 0, c.replaced);
    }
  }

  lemma CompleteForward(s: State, id: int, c: CompleteChoice)
    ensures Forward(s.slots, CompleteStep(s, id, c).slots)
  {
    hide FinalizeSession, GiveBack, Donate, EvictMany;
    if s.frame.None? && id in s.requests && s.requests[id].started {
      FinalizeForward(s, id, !c.failed, c.release);
      GiveBackForward(s, id, c.release);
      if Donates(s, id, c) {
        DonateForward(s, id, c);
        EvictManyForward(Donate(s, id, c), c.evictions);
      }
    }
  }

  lemma AbortForward(s: State, id: int, success: bool, release: Release)
    ensures Forward(s.slots, AbortStep(s, id, success, release).slots)
  {
    hide FinalizeSession, GiveBack;
    if s.frame.None? && id in s.requests && s.requests[id].started {
      FinalizeForward(s, id, success, release);
      GiveBackForward(s, id, release);
    }
  }

  lemma AllocStepForward(s: State, ready: set<nat>, capacity: int, evictions: seq<Eviction>, pick: seq<Block>)
    ensures Forward(s.slots, AllocStep(s, ready, capacity, evictions, pick).slots)
  {
    hide Allocate, PollDeferred;
    PollForward(s, ready);
    AllocateForward(PollDeferred(s, ready).(frame := None), capacity, evictions);
  }

  lemma StandingStill(s: State)
    ensures Forward(s.slots, s.slots)
  {
  }

  lemma SlotsStay(s: State, e: Event)
    requires e.Arrive? || e.AdmitReserve? || e.PrefillChunk?
    ensures Next(s, e).slots == s.slots && Forward(s.slots, Next(s, e).slots)
  {
    hide Write, Reservable;
  }

  lemma DecodeForward(s: State, id: int, token: Token)
    ensures Forward(s.slots, DecodeStep(s, id, token).slots)
  {
  }

  lemma StepForward(s: State, e: Event)
    ensures Forward(s.slots, Next(s, e).slots)
  {
    hide Begin, AllocStep, FinishStep, CompleteStep, AbortStep, DropSession, PollDeferred, ReserveStep, ChunkStep,
        DecodeStep, Forward;
    match e
    case Arrive(id, prompt, session) => SlotsStay(s, e);
    case AdmitBegin(id, c, lookup) => BeginForward(s, id, c, lookup);
    case AdmitReserve(pick) => SlotsStay(s, e);
    case AdmitAllocate(ready, capacity, evictions, pick) => AllocStepForward(s, ready, capacity, evictions, pick);
    case AdmitFinish(c) => FinishForward(s, c);
    case PrefillChunk(id, n, decoder, oc) => SlotsStay(s, e);
    case Decode(id, token) => DecodeForward(s, id, token);
    case Complete(id, c) => CompleteForward(s, id, c);
    case Abort(id, success, release) => AbortForward(s, id, success, release);
    case Expire(name, release) => if IdleSession(s, name) { DropForward(s, name, release); } else { StandingStill(s); }
    case Poll(ready) => PollForward(s, ready);
  }

  lemma {:induction false} RunForward(s: State, events: seq<Event>)
    ensures Forward(s.slots, Run(s, events).slots)
    decreases |events|
  {
    hide Next;
    if events != [] {
      StepForward(s, events[0]);
      RunForward(Next(s, events[0]), events[1..]);
    }
  }

  /** A lease is dead when the slot has moved past it or given it up. */
  predicate Dead(s: State, i: int, generation: nat) {
    0 <= i < |s.slots| ==>
      generation < s.slots[i].generation || (s.slots[i].generation == generation && Spent(s.slots[i]))
  }

  /** Freeing kills the lease, whatever the backend's fence says. */
  lemma FreeKills(s: State, i: int, generation: nat, release: Release)
    requires generation > 0 && 0 <= i < |s.slots| && generation <= s.slots[i].generation
    ensures Dead(FreeSeqSlot(s, i, generation, release), i, generation)
  {
  }

  /** After any run, freeing a dead lease again changes nothing at all: not the
      backend's KV, not the slot, not its new owner. */
  lemma StaleFreeDoesNothing(s: State, events: seq<Event>, i: int, generation: nat, release: Release)
    requires generation > 0 && Dead(s, i, generation)
    ensures FreeSeqSlot(Run(s, events), i, generation, release) == Run(s, events)
  {
    RunForward(s, events);
    hide Run;
  }
}
