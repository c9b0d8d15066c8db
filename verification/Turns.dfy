/** Whole turns of the scheduler: a request that finds pages and a slot is served, the
next turn of a session continues on its slot, and the next request with the same
beginning shares the blocks of the first. */
module Turns {
  import opened Common
  import opened SequenceKv
  import opened Ownership
  import opened OwnershipInvariant
  import opened OwnershipSteps
  import opened OwnershipRuns
  import opened CompletionOutcomes
  import opened AdmissionOutcomes

  /** The choices of one admission: the session's, the lookup's, the pages picked, the
      fences ready, the backend's capacity, the evictions, and how the batches go. */
  datatype Choices = Choices(session: SessionChoice, lookup: Option<seq<Token>>, pick: seq<Block>, ready: set<nat>,
    capacity: int, evictions: seq<Eviction>, finish: FinishChoice)

  ghost function AfterLookup(s: State, id: int, c: Choices): State { Begin(s, id, c.session, c.lookup) }

  ghost function AfterReserve(s: State, id: int, c: Choices): State { ReserveStep(AfterLookup(s, id, c), c.pick) }

  ghost function AfterAllocate(s: State, id: int, c: Choices): State {
    AllocStep(AfterReserve(s, id, c), c.ready, c.capacity, c.evictions, c.pick)
  }

  /** The four steps of an admission, one after the other. */
  ghost function Admission(s: State, id: int, c: Choices): State { FinishStep(AfterAllocate(s, id, c), c.finish) }

  /** The frame the lookup opens. */
  function Plan(s: State, id: int, c: Choices): Frame
    requires id in s.requests
  {
    FrameOf(s, id, c.session, c.lookup)
  }

  /** There are pages for what is missing, a slot unless the session has one, and the
      batches let the prefill through. */
  ghost predicate Suffices(s: State, id: int, c: Choices)
    requires id in s.requests
  {
    var f := Plan(s, id, c);
    && Reservable(AfterLookup(s, id, c), Max(0, TotalBlocks(s.requests[id].prompt) - |f.cached|), c.pick)
    && (f.hit.OwnSession? || FindFree(PollDeferred(AfterReserve(s, id, c), c.ready).slots, c.capacity, 0) >= 0)
    && s.requests[id].prompt != [] && !c.finish.deferred
    && GetsThrough(f, s.requests[id].prompt, Max(1, c.finish.chunkCap), c.finish.luck)
  }

  /** The request is prefilled on its slot, which holds its prompt, with the cached
      blocks and the picked ones: on the session's own slot and lease if it continues
      one, else on a slot that was idle, under a new generation. */
  ghost predicate Served(s: State, s': State, id: int, c: Choices)
    requires id in s.requests
  {
    var f := Plan(s, id, c);
    && s'.frame.None? && id in s'.requests && s'.donors == s.donors
    && var r := s'.requests[id];
    && r.prefilled && r.prompt == s.requests[id].prompt && r.blocks == f.cached + c.pick
    && 0 <= r.slot < |s'.slots| && s'.slots[r.slot] == Slot(Prefilling, r.generation)
    && Resident(s'.kv, r.slot) == r.prompt
    && (f.hit.OwnSession? ==> r.slot == f.cachedLease.slot && r.generation == f.cachedLease.generation)
    && (!f.hit.OwnSession? ==>
          r.slot == FindFree(PollDeferred(AfterReserve(s, id, c), c.ready).slots, c.capacity, 0))
  }

  lemma Reaches(s: State, o: Owners, id: int, c: Choices) returns (o': Owners)
    requires Inv(s, o) && s.frame.None? && id in s.requests && !s.requests[id].started && Suffices(s, id, c)
    ensures var s2, f := AfterReserve(s, id, c), Plan(s, id, c);
            && Inv(s2, o') && s2.donors == s.donors && s2.frame == Some(f.(stage := Reserved)) && s2.flight == c.pick
            && id in s2.requests && s2.requests[id].prompt == s.requests[id].prompt
  {
    BeginningAnAdmission(s, o, id, c.session, c.lookup);
    hide Inv, Begin, Reservable, FrameOf, SessionsBegun, GivenUp, ReserveStep, FindFree, PollDeferred;
    o' := BeginKeeps(s, o, id, c.session, c.lookup);
    var s1 := AfterLookup(s, id, c);
    FrameStage(s, id, c);
    ReservingBlocks(s1, c.pick);
    ReserveKeeps(s1, o', c.pick);
  }

  lemma FrameStage(s: State, id: int, c: Choices)
    requires id in s.requests
    ensures Plan(s, id, c).stage.Looked? && Plan(s, id, c).request == id
  {
  }

  /** A request that finds what it needs is served. */
  lemma WhoFindsPagesAndASlotIsServed(s: State, o: Owners, id: int, c: Choices)
    requires Inv(s, o) && s.frame.None? && id in s.requests && !s.requests[id].started
    requires Suffices(s, id, c)
    ensures Served(s, Admission(s, id, c), id, c)
  {
    var o2 := Reaches(s, o, id, c);
    FrameStage(s, id, c);
    Enough(s, id, c);
    hide Inv, Suffices, AfterReserve, AllocStep, FinishStep, Served, FrameOf, SlotFound;
    var s2 := AfterReserve(s, id, c);
    AllocatingASlot(s2, c.ready, c.capacity, c.evictions, c.pick);
    var o3 := AllocKeeps(s2, o2, c.ready, c.capacity, c.evictions, c.pick);
    Finishes(s, o3, id, c);
  }

  /** What Suffices says of the later steps. */
  lemma Enough(s: State, id: int, c: Choices)
    requires id in s.requests && Suffices(s, id, c)
    ensures |c.pick| == Max(0, TotalBlocks(s.requests[id].prompt) - |Plan(s, id, c).cached|)
    ensures s.requests[id].prompt != [] && !c.finish.deferred
    ensures GetsThrough(Plan(s, id, c), s.requests[id].prompt, Max(1, c.finish.chunkCap), c.finish.luck)
    ensures !Plan(s, id, c).hit.OwnSession? ==>
        FindFree(PollDeferred(AfterReserve(s, id, c), c.ready).slots, c.capacity, 0) >= 0
  {
    hide AfterLookup, AfterReserve, FrameOf;
  }

  lemma Finishes(s: State, o: Owners, id: int, c: Choices)
    requires id in s.requests && s.requests[id].prompt != []
    requires Inv(AfterAllocate(s, id, c), o)
    requires var s2, f := AfterReserve(s, id, c), Plan(s, id, c);
             && f.request == id && s2.frame == Some(f.(stage := Reserved)) && s2.flight == c.pick
             && s2.donors == s.donors
             && id in s2.requests && s2.requests[id].prompt == s.requests[id].prompt
             && AfterAllocate(s, id, c).frame.Some? && SlotFound(s2, AfterAllocate(s, id, c), c.ready, c.capacity)
             && |c.pick| == Max(0, TotalBlocks(s.requests[id].prompt) - |f.cached|)
             && !c.finish.deferred
             && GetsThrough(f, s.requests[id].prompt, Max(1, c.finish.chunkCap), c.finish.luck)
             && (!f.hit.OwnSession? ==> FindFree(PollDeferred(s2, c.ready).slots, c.capacity, 0) >= 0)
    ensures Served(s, Admission(s, id, c), id, c)
  {
    var s2, s3, f := AfterReserve(s, id, c), AfterAllocate(s, id, c), Plan(s, id, c);
    FoundFacts(s2, s3, c.ready, c.capacity);
    hide AfterReserve, AfterAllocate, FrameOf, SlotFound, FindFree, PollDeferred, FinishStep, TotalBlocks;
    hide Inv, Granted, Served, Resident;
    assert InFrame(s3, Allocated) && HasItAll(s3);
    FrameGenerationOf(s3, o);
    Admitting(s3, o, c.finish);
    IsServed(s, s3, id, c);
  }

  lemma IsServed(s: State, s3: State, id: int, c: Choices)
    requires id in s.requests && s3.frame.Some? && id in s3.requests
    requires var f, f' := Plan(s, id, c), s3.frame.value;
             var s4, prompt := FinishStep(s3, c.finish), s.requests[id].prompt;
             && f'.request == id && f'.cached == f.cached && s3.flight == c.pick && s3.requests[id].prompt == prompt
             && s3.donors == s.donors
             && Granted(s3, s4, AdmittedAs(s3, |prompt|, true)) && Resident(s4.kv, f'.slot) == prompt
             && 0 <= f'.slot < |s3.slots| && s3.slots[f'.slot].generation == f'.generation
             && (if f.hit.OwnSession? then f'.slot == f.cachedLease.slot && f'.generation == f.cachedLease.generation
                 else f'.slot == FindFree(PollDeferred(AfterReserve(s, id, c), c.ready).slots, c.capacity, 0))
    ensures Served(s, FinishStep(s3, c.finish), id, c)
  {
    hide FinishStep, FindFree, PollDeferred, AfterReserve, FrameOf, Resident;
  }

  /** A slot found: what the later steps see of it. */
  lemma FoundFacts(s2: State, s3: State, ready: set<nat>, capacity: int)
    requires s2.frame.Some? && s3.frame.Some? && SlotFound(s2, s3, ready, capacity)
    requires !s2.frame.value.hit.OwnSession? ==> FindFree(PollDeferred(s2, ready).slots, capacity, 0) >= 0
    ensures var f, f' := s2.frame.value, s3.frame.value;
            && f' == f.(stage := Allocated, slot := f'.slot, generation := f'.generation)
            && s3.requests == s2.requests && s3.flight == s2.flight && s3.donors == s2.donors
            && (if f.hit.OwnSession? then f'.slot == f.cachedLease.slot && f'.generation == f.cachedLease.generation
                else f'.slot == FindFree(PollDeferred(s2, ready).slots, capacity, 0))
  {
    hide FindFree;
  }

  lemma FrameGenerationOf(s: State, o: Owners)
    requires Inv(s, o)
    ensures InFrame(s, Allocated) && HasItAll(s) ==>
        s.frame.value.slot < |s.slots| && s.slots[s.frame.value.slot].generation == s.frame.value.generation
  {
    hide HasItAll;
    if InFrame(s, Allocated) && HasItAll(s) {
      FrameGeneration(s, o);
      AdmitsIff(s, o);
      SlotInRange(s);
    }
  }

  // ---- the next turn of a session ----

  /** The next turn continues where the last one ended: on the same slot and lease,
      with its blocks and only the missing ones picked. */
  lemma TheNextTurnContinues(s: State, o: Owners, first: int, ended: CompleteChoice, next: int, prompt: seq<Token>,
      c: Choices)
    requires Inv(s, o) && Holder(s, first) && s.requests[first].prefilled && !ended.failed
    requires var s0 := Next(Next(s, Complete(first, ended)), Arrive(next, prompt, s.requests[first].session));
             && next >= 0 && next !in s.requests && s.requests[first].prompt <= prompt && prompt != []
             && c.session.compatible && !c.session.expired
             && next in s0.requests && Suffices(s0, next, c)
    ensures var s0 := Next(Next(s, Complete(first, ended)), Arrive(next, prompt, s.requests[first].session));
            var s', r := Admission(s0, next, c), s.requests[first];
            && next in s'.requests && s'.requests[next].prefilled && s'.requests[next].prompt == prompt
            && s'.requests[next].slot == r.slot && s'.requests[next].generation == r.generation
            && s'.requests[next].blocks == r.blocks + c.pick
            && Resident(s'.kv, r.slot) == prompt
  {
    var r := s.requests[first];
    var e1, e2 := Complete(first, ended), Arrive(next, prompt, r.session);
    var o1 := StepOwners(s, o, e1);
    var o2 := StepOwners(Next(s, e1), o1, e2);
    CompletingAHolder(s, o, first, ended);
    StepsTaken(s, first, ended, next, prompt, r.session);
    hide Inv, Next, CompleteStep, SlotEnded, Admission, Suffices, Served, Resident;
    var s0 := Next(Next(s, e1), e2);
    ContinuesTheLast(s, s0, first, next, c);
    hide Ended, FrameOf;
    WhoFindsPagesAndASlotIsServed(s0, o2, next, c);
    ServedMeans(s0, Admission(s0, next, c), next, c);
  }

  /** What the two steps before the admission leave. */
  lemma StepsTaken(s: State, first: int, ended: CompleteChoice, next: int, prompt: seq<Token>, session: string)
    requires next >= 0
    ensures var s1 := Next(s, Complete(first, ended));
            && s1 == CompleteStep(s, first, ended)
            && (next !in s1.requests ==>
                  Next(s1, Arrive(next, prompt, session)) ==
                  s1.(requests := s1.requests[next := Request(prompt, session, false, false, -1, 0, [], 0, false)]))
  {
    hide CompleteStep;
  }

  lemma ContinuesTheLast(s: State, s0: State, first: int, next: int, c: Choices)
    requires first in s.requests && s.requests[first].session in s.sessions && s.requests[first].session != ""
    requires s.requests[first].prefilled && s.requests[first].slot >= 0
    requires next in s0.requests && s0.requests[next].session == s.requests[first].session
    requires s.requests[first].prompt <= s0.requests[next].prompt && c.session.compatible && !c.session.expired
    requires var r := s.requests[first];
             r.session in s0.sessions &&
             s0.sessions[r.session] == Entry(None, Some(Retained(r.slot, r.generation, r.prompt, r.blocks)))
    ensures var r, f := s.requests[first], Plan(s0, next, c);
            f.hit.OwnSession? && f.cached == r.blocks && f.cachedLease == Lease(r.slot, r.generation)
  {
  }

  lemma ServedMeans(s: State, s': State, id: int, c: Choices)
    requires id in s.requests && Served(s, s', id, c) && Plan(s, id, c).hit.OwnSession?
    ensures var f := Plan(s, id, c);
            && id in s'.requests && s'.requests[id].prefilled && s'.requests[id].prompt == s.requests[id].prompt
            && s'.requests[id].blocks == f.cached + c.pick
            && s'.requests[id].slot == f.cachedLease.slot && s'.requests[id].generation == f.cachedLease.generation
            && Resident(s'.kv, f.cachedLease.slot) == s.requests[id].prompt
  {
    hide Resident, FrameOf;
  }

  // ---- the next request with the same beginning ----

  lemma AdmissionKeeps(s: State, o: Owners, id: int, c: Choices) returns (o': Owners)
    requires Inv(s, o)
    ensures Inv(Admission(s, id, c), o')
  {
    hide Inv, Begin, ReserveStep, AllocStep, FinishStep;
    o' := BeginKeeps(s, o, id, c.session, c.lookup);
    ReserveKeeps(AfterLookup(s, id, c), o', c.pick);
    o' := AllocKeeps(AfterReserve(s, id, c), o', c.ready, c.capacity, c.evictions, c.pick);
    o' := FinishKeeps(AfterAllocate(s, id, c), o', c.finish);
  }

  /** A request that goes on from a donated prompt, and is told of it, shares the blocks
      of the first and picks only the missing ones; it runs on a slot of its own, and
      the donor keeps its prefix for others. */
  lemma TheNextRequestShares(s: State, o: Owners, first: int, ended: CompleteChoice, next: int, prompt: seq<Token>,
      c: Choices)
    requires Inv(s, o) && Plain(s, first) && Offers(s, first, ended) && ended.evictions == []
    requires var s0 := Next(Next(s, Complete(first, ended)), Arrive(next, prompt, ""));
             && next >= 0 && next !in s.requests && s.requests[first].prompt <= prompt
             && c.lookup == Some(s.requests[first].prompt)
             && next in s0.requests && Suffices(s0, next, c)
    ensures var s0 := Next(Next(s, Complete(first, ended)), Arrive(next, prompt, ""));
            var s', r := Admission(s0, next, c), s.requests[first];
            && next in s'.requests && s'.requests[next].prefilled && s'.requests[next].prompt == prompt
            && s'.requests[next].blocks == r.blocks + c.pick && s'.requests[next].slot != r.slot
            && Resident(s'.kv, s'.requests[next].slot) == prompt && r.prompt <= Resident(s'.kv, r.slot)
  {
    var r := s.requests[first];
    var e1, e2 := Complete(first, ended), Arrive(next, prompt, "");
    var o1 := StepOwners(s, o, e1);
    var o2 := StepOwners(Next(s, e1), o1, e2);
    CompletingADonor(s, o, first, ended);
    PlainFacts(s, o, first);
    StepsTaken(s, first, ended, next, prompt, "");
    hide Inv, Next, CompleteStep, Admission, Suffices, Served, Resident;
    var s0 := Next(Next(s, e1), e2);
    SharesTheFirst(s, s0, first, next, c);
    hide Donated, FrameOf, PlainOk;
    WhoFindsPagesAndASlotIsServed(s0, o2, next, c);
    var o3 := AdmissionKeeps(s0, o2, next, c);
    OnSlotsOfTheirOwn(s0, Admission(s0, next, c), o3, next, c, r);
  }

  lemma SharesTheFirst(s: State, s0: State, first: int, next: int, c: Choices)
    requires first in s.requests && next in s0.requests && s0.requests[next].session == ""
    requires s.requests[first].slot >= 0 && s.requests[first].blocks != []
    requires s.requests[first].prompt <= s0.requests[next].prompt && c.lookup == Some(s.requests[first].prompt)
    requires var r := s.requests[first]; r.prompt in s0.donors && s0.donors[r.prompt] == Donor(r.slot, r.blocks)
    ensures var f := Plan(s0, next, c); f.hit == Radix(s.requests[first].prompt) && f.cached == s.requests[first].blocks
  {
  }

  lemma OnSlotsOfTheirOwn(s: State, s': State, o: Owners, id: int, c: Choices, r: Request)
    requires id in s.requests && Served(s, s', id, c) && Inv(s', o) && Plan(s, id, c).hit.Radix? && r.slot >= 0
    requires r.prompt in s.donors && s.donors[r.prompt] == Donor(r.slot, r.blocks) && Plan(s, id, c).cached == r.blocks
    ensures && id in s'.requests && s'.requests[id].prefilled && s'.requests[id].prompt == s.requests[id].prompt
            && s'.requests[id].blocks == r.blocks + c.pick && s'.requests[id].slot != r.slot
            && Resident(s'.kv, s'.requests[id].slot) == s.requests[id].prompt && r.prompt <= Resident(s'.kv, r.slot)
  {
    hide Resident, FrameOf;
    assert RequestOk(s', o, id) && DonorOk(s', o, r.prompt);
  }
}
