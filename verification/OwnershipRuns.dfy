/** Every step, hence every run, of the unified scheduler keeps the invariant. */
module OwnershipRuns {
  import opened Common
  import opened SequenceKv
  import opened PrefixReuse
  import opened Ownership
  import opened OwnershipInvariant
  import opened OwnershipSteps
  import opened OwnershipCompletion

  // ---- the end of an admission ----

  /** What the lookup found still holds when the prefill starts. */
  lemma HitHolds(s: State, o: Owners)
    requires Placed(s, o, -1) && InFrame(s, Allocated) && CanAdmit(s, s.frame.value)
    ensures var f := s.frame.value;
            Holds(s.kv, s.requests[f.request].prompt, WarmOf(f), f.slot)
  {
    var f := s.frame.value;
    var prompt := s.requests[f.request].prompt;
    assert RequestOk(s, o, f.request);
    match f.hit
    case Miss =>
    case Radix(path) =>
      assert DonorOk(s, o, path);
      assert prompt[..|path|] == path;
    case OwnSession =>
      var kept := s.sessions[s.requests[f.request].session].kept.value;
      assert SessionOk(s, o, s.requests[f.request].session);
      assert prompt[..|kept.prompt|] == kept.prompt;
  }

  lemma DeferKeeps(s: State, o: Owners, id: int, warm: Warm, trims: bool)
    requires Inv(s, o) && s.frame.None? && id in s.requests && s.requests[id].slot >= 0 && !s.requests[id].prefilled
    requires s.requests[id].prompt != [] && Holds(s.kv, s.requests[id].prompt, warm, s.requests[id].slot)
    ensures var r := s.requests[id];
            var reuse := ResolveReuse(s.kv, r.prompt, warm, r.slot, trims);
            Inv(SetRequest(s.(kv := reuse.kv), id, r.(offset := Max(0, reuse.start))), o)
  {
    hide Placed, Balanced;
    var r := s.requests[id];
    OnSlot(s, o, id);
    ResolveKeepsThePrefix(s.kv, r.prompt, warm, r.slot, trims);
    var reuse := ResolveReuse(s.kv, r.prompt, warm, r.slot, trims);
    SameElsewhere(s.kv, reuse.kv, r.slot);
    hide ResolveReuse, Resident;
    AdvanceKeeps(s, SetRequest(s.(kv := reuse.kv), id, r.(offset := Max(0, reuse.start))), o, id);
  }

  lemma PrefillKeeps(s: State, o: Owners, id: int, warm: Warm, cap: int, luck: Luck)
    requires Inv(s, o) && s.frame.None? && id in s.requests && s.requests[id].slot >= 0 && s.requests[id].offset == 0 &&
        !s.requests[id].prefilled
    requires cap >= 1 && Holds(s.kv, s.requests[id].prompt, warm, s.requests[id].slot)
    ensures var r := s.requests[id];
            var (kv', ok) := Prefill(s.kv, r.slot, r.prompt, warm, cap, luck);
            Inv(s.(kv := kv'), o) &&
            (ok ==> Inv(SetRequest(s.(kv := kv'), id, r.(offset := |r.prompt|, prefilled := true)), o))
  {
    hide Placed, Balanced;
    var r := s.requests[id];
    OnSlot(s, o, id);
    PrefillRefinesFullPrefill(s.kv, r.slot, r.prompt, warm, cap, luck);
    var (kv', ok) := Prefill(s.kv, r.slot, r.prompt, warm, cap, luck);
    hide Prefill, Resident;
    assert s.requests[id := r] == s.requests;
    AdvanceKeeps(s, s.(kv := kv'), o, id);
    if ok {
      assert r.prompt[..|r.prompt|] == r.prompt;
      AdvanceKeeps(s, SetRequest(s.(kv := kv'), id, r.(offset := |r.prompt|, prefilled := true)), o, id);
    }
  }

  lemma AdmitKeeps(s: State, o: Owners, c: FinishChoice) returns (o': Owners)
    requires Inv(s, o) && InFrame(s, Allocated) && CanAdmit(s, s.frame.value)
    ensures Inv(FinishStep(s, c), o')
  {
    var f := s.frame.value;
    var id := f.request;
    HitHolds(s, o);
    GrantPlaces(s, o);
    GrantBalances(s, o);
    assert RequestOk(s, o, id);
    hide Placed, Balanced, Prefill, GiveBack, ResolveReuse;
    var g := Grant(s, f);
    var prompt := s.requests[id].prompt;
    o' := o[f.slot := ByRequest(id)];
    if c.deferred && prompt != [] {
      DeferKeeps(g, o', id, WarmOf(f), c.luck.copyTrims);
    } else {
      PrefillKeeps(g, o', id, WarmOf(f), Max(1, c.chunkCap), c.luck);
      var (kv', ok) := Prefill(g.kv, f.slot, prompt, WarmOf(f), Max(1, c.chunkCap), c.luck);
      if !ok {
        var p := g.(kv := kv');
        if f.hit.OwnSession? {
          DiscardCopyKeeps(p, o', id);
          p := DiscardCopy(p, id);
        }
        o' := GiveBackKeeps(p, o', id, c.release);
      }
    }
  }

  // ---- the end of a request ----

  lemma FinalizeKeeps(s: State, o: Owners, id: int, commit: bool, release: Release) returns (o': Owners)
    requires Inv(s, o) && s.frame.None? && id in s.requests && SessionOwned(s, id)
    ensures var s' := FinalizeSession(s, id, commit, release);
            Inv(s', o') && s'.frame.None? && id in s'.requests && s'.requests[id].slot == -1 && !s'.requests[id].leased
  {
    OnlyHolds(s, o, id);
    hide Placed, Balanced;
    var r := s.requests[id];
    o' := o;
    if commit && 0 <= r.slot < |s.slots| && r.prefilled {
      o' := CommitKeeps(s, o, id);
    } else {
      var t := s;
      if r.slot >= 0 {
        DiscardCopyKeeps(s, o, id);
        o' := GiveBackKeeps(DiscardCopy(s, id), o, id, release);
        t := GiveBack(DiscardCopy(s, id), id, release);
      }
      hide GiveBack, DiscardCopy;
      ReleaseKeeps(t, o', id);
    }
  }

  lemma DropRequestKeeps(s: State, o: Owners, id: int, release: Release) returns (o': Owners)
    requires Inv(s, o) && s.frame.None? && id in s.requests && !SessionOwned(s, id)
    ensures if s.requests[id].slot >= 0 then Inv(Remove(GiveBack(s, id, release), id), o') else Inv(Remove(s, id), o')
  {
    OnlyHolds(s, o, id);
    hide Placed, Balanced;
    o' := o;
    if s.requests[id].slot >= 0 {
      o' := GiveBackKeeps(s, o, id, release);
      RemoveKeeps(GiveBack(s, id, release), o', id);
    } else {
      RemoveKeeps(s, o, id);
    }
  }

  lemma CompleteKeeps(s: State, o: Owners, id: int, c: CompleteChoice) returns (o': Owners)
    requires Inv(s, o)
    ensures Inv(CompleteStep(s, id, c), o')
  {
    o' := o;
    if s.frame.None? && id in s.requests && s.requests[id].started {
      OnlyHolds(s, o, id);
      hide Placed, Balanced, FinalizeSession, GiveBack, Donate, EvictMany;
      if SessionOwned(s, id) {
        o' := FinalizeKeeps(s, o, id, !c.failed, c.release);
        RemoveKeeps(FinalizeSession(s, id, !c.failed, c.release), o', id);
      } else if Donates(s, id, c) {
        o' := DonateKeeps(s, o, id, c);
      } else {
        o' := DropRequestKeeps(s, o, id, c.release);
      }
    }
  }

  lemma AbortKeeps(s: State, o: Owners, id: int, success: bool, release: Release) returns (o': Owners)
    requires Inv(s, o)
    ensures Inv(AbortStep(s, id, success, release), o')
  {
    hide Placed, Balanced, FinalizeSession, GiveBack;
    o' := o;
    if s.frame.None? && id in s.requests && s.requests[id].started {
      if SessionOwned(s, id) {
        o' := FinalizeKeeps(s, o, id, success, release);
        RemoveKeeps(FinalizeSession(s, id, success, release), o', id);
      } else {
        o' := DropRequestKeeps(s, o, id, release);
      }
    }
  }

  lemma ArriveKeeps(s: State, o: Owners, id: int, prompt: seq<Token>, session: string)
    requires Inv(s, o) && id >= 0 && id !in s.requests
    ensures Inv(SetRequest(s, id, Request(prompt, session, false, false, -1, 0, [], 0, false)), o)
  {
    var s' := SetRequest(s, id, Request(prompt, session, false, false, -1, 0, [], 0, false));
    forall n | n in s.sessions ensures n != "" && s.sessions[n].holder != Some(id) { assert SessionOk(s, o, n); }
    Update(s, s', o, o, id, [], "", -1);
    Rebalanced(s, s', id, [], "");
  }

  // ---- every step, every run ----

  ghost predicate Safe(s: State) { exists o :: Inv(s, o) }

  lemma StepKeeps(s: State, e: Event)
    requires Safe(s)
    ensures Safe(Next(s, e))
  {
    var o: Owners :| Inv(s, o);
    var o' := StepOwners(s, o, e);
  }

  lemma StepOwners(s: State, o: Owners, e: Event) returns (o': Owners)
    requires Inv(s, o)
    ensures Inv(Next(s, e), o')
  {
    hide Placed, Balanced, Begin, ReserveStep, AllocStep, FinishStep, ChunkStep, DecodeStep, CompleteStep, AbortStep,
        DropSession, PollDeferred;
    o' := o;
    match e
    case Arrive(id, prompt, session) => if id >= 0 && id !in s.requests { ArriveKeeps(s, o, id, prompt, session); }
    case AdmitBegin(id, c, lookup) => o' := BeginKeeps(s, o, id, c, lookup);
    case AdmitReserve(pick) => ReserveKeeps(s, o, pick);
    case AdmitAllocate(ready, capacity, evictions, pick) => o' := AllocKeeps(s, o, ready, capacity, evictions, pick);
    case AdmitFinish(c) => o' := FinishKeeps(s, o, c);
    case PrefillChunk(id, n, decoder, oc) => ChunkKeeps(s, o, id, n, decoder, oc);
    case Decode(id, token) => DecodeKeeps(s, o, id, token);
    case Complete(id, c) => o' := CompleteKeeps(s, o, id, c);
    case Abort(id, success, release) => o' := AbortKeeps(s, o, id, success, release);
    case Expire(name, release) => if IdleSession(s, name) { o' := DropKeeps(s, o, name, release); }
    case Poll(ready) => o' := PollKeeps(s, o, ready);
  }

  lemma AllocKeeps(s: State, o: Owners, ready: set<nat>, capacity: int, evictions: seq<Eviction>, pick: seq<Block>)
      returns (o': Owners)
    requires Inv(s, o)
    ensures Inv(AllocStep(s, ready, capacity, evictions, pick), o')
  {
    hide Placed, Balanced;
    o' := o;
    if InFrame(s, Reserved) {
      if s.frame.value.hit.OwnSession? {
        OwnSlotKeeps(s, o, ready, capacity, evictions, pick);
      } else {
        o' := FreshSlotKeeps(s, o, ready, capacity, evictions, pick);
      }
    }
  }

  lemma FinishKeeps(s: State, o: Owners, c: FinishChoice) returns (o': Owners)
    requires Inv(s, o)
    ensures Inv(FinishStep(s, c), o')
  {
    hide Placed, Balanced;
    o' := o;
    if InFrame(s, Allocated) {
      if CanAdmit(s, s.frame.value) {
        o' := AdmitKeeps(s, o, c);
      } else {
        o' := RollbackPlaces(s, o, c);
        RollbackBalances(s, c);
      }
    }
  }

  lemma DropKeeps(s: State, o: Owners, name: string, release: Release) returns (o': Owners)
    requires Inv(s, o) && IdleSession(s, name)
    ensures Inv(DropSession(s, name, release), o')
  {
    hide Placed, Balanced;
    DropPlaces(s, o, name, release);
    DropBalances(s, name, release);
    o' := o[s.sessions[name].kept.value.slot := Freed(release)];
  }

  lemma PollKeeps(s: State, o: Owners, ready: set<nat>) returns (o': Owners)
    requires Inv(s, o)
    ensures Inv(PollDeferred(s, ready), o')
  {
    hide Placed, Balanced;
    PollPlaces(s, o, ready);
    PollBalances(s, ready);
    o' := Polled(o, ready);
  }

  lemma StartIsSafe(pages: nat, slots: nat)
    ensures Safe(Start(pages, slots))
  {
    var s := Start(pages, slots);
    var o := seq(slots, _ => Nobody);
    assert RequestTables(s) == map[] && DonorTables(s) == map[] && SessionTables(s) == map[];
    assert Inv(s, o);
  }

  lemma {:induction false} RunKeeps(s: State, events: seq<Event>)
    requires Safe(s)
    ensures Safe(Run(s, events))
    decreases |events|
  {
    if events != [] {
      StepKeeps(s, events[0]);
      RunKeeps(Next(s, events[0]), events[1..]);
    }
  }
}
