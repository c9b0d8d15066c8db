/** What the end of a request leaves behind, in every state the scheduler can be in:
the session it held, the prefix it donates, the blocks and the slot it gives back. */
module CompletionOutcomes {
  import opened Common
  import opened SequenceKv
  import opened Ownership
  import opened OwnershipInvariant
  import opened OwnershipSteps

  // ---- freeing a slot ----

  /** A lease is freed if its generation is current, or if none is named. The KV is
      cleared where there is a backend; a pending fence is recorded, and holds the slot
      of a named lease back until it is polled. A stale lease changes nothing. */
  lemma FreeingASlot(s: State, i: nat, generation: nat, release: Release)
    requires i < |s.slots|
    ensures var r := FreeSeqSlot(s, i, generation, release);
            var freed := generation == 0 || Live(s.slots[i], generation);
            var waits := release.backend && release.pending;
            && (!freed ==> r == s)
            && (freed ==>
                  && Resident(r.kv, i) == (if release.backend then [] else Resident(s.kv, i))
                  && (forall j :: j != i ==> Resident(r.kv, j) == Resident(s.kv, j))
                  && r.slots[i].generation == s.slots[i].generation
                  && r.slots[i].state == (if waits && generation != 0 then Retiring else Idle)
                  && (forall j :: 0 <= j < |s.slots| && j != i ==> r.slots[j] == s.slots[j])
                  && (forall j :: j in r.fences <==> j in s.fences || (waits && j == i))
                  && r.deferred == s.deferred + (if waits && generation != 0 then [Lease(i, generation)] else []))
  {
  }

  /** Polling frees exactly the retiring slots whose fence is ready. */
  lemma PollingFrees(s: State, o: Owners, ready: set<nat>, i: nat)
    requires Placed(s, o, -1) && i < |s.slots|
    ensures var r := PollDeferred(s, ready);
            && |r.slots| == |s.slots| && r.slots[i].generation == s.slots[i].generation
            && r.slots[i].state == (if i in ready && s.slots[i].state.Retiring? then Idle else s.slots[i].state)
            && (forall j :: j in r.fences <==> j in s.fences && j !in ready)
            && (forall l :: l in r.deferred <==> l in s.deferred && l.slot !in ready)
  {
    assert Owned(s, o, i);
    ReapOnly(s.slots, s.deferred, ready, i);
    PendingOnly(s.deferred, ready);
  }

  // ---- the session a request held ----

  /** What an entry is left with: a successful prefilled holder's own state, nothing
      from a holder that ran and failed, and what it was from one that never ran. */
  function LeftWith(s: State, id: int, success: bool): Option<Retained>
    requires id in s.requests && s.requests[id].session in s.sessions
  {
    var r := s.requests[id];
    if success && r.prefilled && r.slot >= 0 then Some(Retained(r.slot, r.generation, r.prompt, r.blocks))
    else if r.slot >= 0 then None
    else s.sessions[r.session].kept
  }

  /** The holder is gone; its session is free again, with what it is left with, or
      gone if that is nothing; a state that is not kept gives its references back,
      and no other session, donor or request is touched. */
  ghost predicate Ended(s: State, s': State, id: int, success: bool)
    requires id in s.requests && s.requests[id].session in s.sessions
  {
    var r := s.requests[id];
    var kept := LeftWith(s, id, success);
    && id !in s'.requests
    && (if kept.Some? then r.session in s'.sessions && s'.sessions[r.session] == Entry(None, kept)
        else r.session !in s'.sessions)
    && s'.refs == (if success && r.prefilled then s.refs else s.refs - multiset(r.blocks))
    && (forall j :: j != id ==>
        (j in s'.requests <==> j in s.requests) && (j in s.requests ==> s'.requests[j] == s.requests[j]))
    && (forall n :: n != r.session ==>
          (n in s'.sessions <==> n in s.sessions) && (n in s.sessions ==> s'.sessions[n] == s.sessions[n]))
    && s'.donors == s.donors
  }

  /** A slot that is kept is completed, with its KV; one given back is no longer live. */
  ghost predicate SlotEnded(s: State, s': State, id: int, success: bool)
    requires id in s.requests
  {
    var r := s.requests[id];
    0 <= r.slot < |s.slots| == |s'.slots| ==>
      && (success && r.prefilled ==> s'.slots[r.slot] == Slot(Completed, r.generation) && s'.kv == s.kv)
      && (!(success && r.prefilled) ==> !Live(s'.slots[r.slot], r.generation))
  }

  /** A request that holds its session's lease, as the source finds it. */
  predicate Holder(s: State, id: int) {
    s.frame.None? && id in s.requests && s.requests[id].started && s.requests[id].leased
  }

  /** What the invariant says of it. */
  ghost predicate HolderOk(s: State, id: int) {
    && Holder(s, id)
    && var r := s.requests[id];
    && r.session != "" && r.session in s.sessions && s.sessions[r.session].holder == Some(id)
    && (r.slot >= 0 ==>
          r.slot < |s.slots| && r.generation > 0 && Running(s.slots[r.slot]) &&
          s.slots[r.slot].generation == r.generation)
    && (r.slot < 0 ==> r.slot == -1 && r.blocks == [] && !r.prefilled)
  }

  lemma HolderFacts(s: State, o: Owners, id: int)
    requires Inv(s, o) && Holder(s, id)
    ensures HolderOk(s, id)
  {
    assert RequestOk(s, o, id);
    if s.requests[id].slot >= 0 { OnSlot(s, o, id); }
  }

  lemma KeptEnd(s: State, id: int, release: Release)
    requires HolderOk(s, id) && s.requests[id].prefilled
    ensures var s' := Remove(FinalizeSession(s, id, true, release), id);
            Ended(s, s', id, true) && SlotEnded(s, s', id, true)
  {
  }

  lemma GivenBackEnd(s: State, id: int, success: bool, release: Release)
    requires HolderOk(s, id) && s.requests[id].slot >= 0 && !(success && s.requests[id].prefilled)
    ensures var s' := Remove(FinalizeSession(s, id, success, release), id);
            Ended(s, s', id, success) && SlotEnded(s, s', id, success)
  {
    var r := s.requests[id];
    var u := Unref(DiscardCopy(s, id), r.blocks);
    FreeingASlot(u, r.slot, r.generation, release);
    hide FreeSeqSlot, Resident;
    var f := FreeSeqSlot(u, r.slot, r.generation, release);
    assert f.sessions == u.sessions && f.requests == s.requests && f.refs == u.refs;
  }

  lemma NeverRanEnd(s: State, id: int, success: bool, release: Release)
    requires HolderOk(s, id) && s.requests[id].slot < 0
    ensures var s' := Remove(FinalizeSession(s, id, success, release), id);
            Ended(s, s', id, success) && SlotEnded(s, s', id, success)
  {
    assert s.refs - multiset([]) == s.refs;
  }

  lemma EndsHold(s: State, id: int, success: bool, release: Release)
    requires HolderOk(s, id)
    ensures var s' := Remove(FinalizeSession(s, id, success, release), id);
            Ended(s, s', id, success) && SlotEnded(s, s', id, success)
  {
    if s.requests[id].slot < 0 {
      NeverRanEnd(s, id, success, release);
    } else if success && s.requests[id].prefilled {
      KeptEnd(s, id, release);
    } else {
      GivenBackEnd(s, id, success, release);
    }
  }

  /** Completing a session's turn: success keeps exactly that request's slot,
      generation, prompt and blocks for the next one; failure keeps nothing. */
  lemma CompletingAHolder(s: State, o: Owners, id: int, c: CompleteChoice)
    requires Inv(s, o) && Holder(s, id)
    ensures s.requests[id].session in s.sessions && Ended(s, CompleteStep(s, id, c), id, !c.failed)
    ensures SlotEnded(s, CompleteStep(s, id, c), id, !c.failed)
  {
    hide Inv, FinalizeSession, Ended, SlotEnded;
    HolderFacts(s, o, id);
    EndsHold(s, id, !c.failed, c.release);
  }

  /** The same on the error paths. */
  lemma AbortingAHolder(s: State, o: Owners, id: int, success: bool, release: Release)
    requires Inv(s, o) && Holder(s, id)
    ensures s.requests[id].session in s.sessions && Ended(s, AbortStep(s, id, success, release), id, success)
    ensures SlotEnded(s, AbortStep(s, id, success, release), id, success)
  {
    hide Inv, FinalizeSession, Ended, SlotEnded;
    HolderFacts(s, o, id);
    EndsHold(s, id, success, release);
  }

  // ---- a request without a session ----

  /** A request that holds no lease, as the source finds it. */
  predicate Plain(s: State, id: int) {
    s.frame.None? && id in s.requests && s.requests[id].started && !s.requests[id].leased
  }

  /** It donates its prefix exactly if it is prefilled, long enough, and the trie
      takes it. */
  predicate Offers(s: State, id: int, c: CompleteChoice)
    requires id in s.requests
  {
    s.requests[id].prefilled && |s.requests[id].prompt| >= 32 && c.inserts
  }

  /** The request gave everything back: its references and its slot. */
  ghost predicate GaveBack(s: State, s': State, id: int)
    requires id in s.requests
  {
    var r := s.requests[id];
    && s'.requests == s.requests - {id} && s'.sessions == s.sessions && s'.donors == s.donors
    && s'.refs == s.refs - multiset(r.blocks)
    && (0 <= r.slot < |s.slots| == |s'.slots| ==> !Live(s'.slots[r.slot], r.generation))
  }

  ghost predicate PlainOk(s: State, id: int) {
    && Plain(s, id)
    && var r := s.requests[id];
    && (r.slot >= 0 ==>
          && r.slot < |s.slots| && r.generation > 0 && r.blocks != []
          && Running(s.slots[r.slot]) && s.slots[r.slot].generation == r.generation)
    && (r.slot < 0 ==> r.slot == -1 && r.blocks == [] && !r.prefilled)
  }

  lemma PlainFacts(s: State, o: Owners, id: int)
    requires Inv(s, o) && Plain(s, id)
    ensures PlainOk(s, id)
  {
    assert RequestOk(s, o, id);
    if s.requests[id].slot >= 0 { OnSlot(s, o, id); }
  }

  lemma SetThenRemoved<K, V>(m: map<K, V>, k: K, v: V)
    ensures m[k := v] - {k} == m - {k}
  {
  }

  lemma GivesBack(s: State, id: int, release: Release)
    requires PlainOk(s, id)
    ensures GaveBack(s, if s.requests[id].slot >= 0 then Remove(GiveBack(s, id, release), id) else Remove(s, id), id)
  {
    hide FreeSeqSlot, Resident, Running;
    var r := s.requests[id];
    if r.slot >= 0 {
      var u := Unref(s, r.blocks);
      FreeingASlot(u, r.slot, r.generation, release);
      var f := FreeSeqSlot(u, r.slot, r.generation, release);
      SetThenRemoved(s.requests, id, GiveBack(s, id, release).requests[id]);
    } else {
      assert s.refs - multiset([]) == s.refs;
    }
  }

  /** Without a session, a completed request that offers no prefix gives back its
      references and its slot. */
  lemma CompletingAPlainRequest(s: State, o: Owners, id: int, c: CompleteChoice)
    requires Inv(s, o) && Plain(s, id) && !Offers(s, id, c)
    ensures GaveBack(s, CompleteStep(s, id, c), id)
  {
    hide Inv, GiveBack, GaveBack;
    PlainFacts(s, o, id);
    GivesBack(s, id, c.release);
  }

  /** So does one that is aborted. */
  lemma AbortingAPlainRequest(s: State, o: Owners, id: int, success: bool, release: Release)
    requires Inv(s, o) && Plain(s, id)
    ensures GaveBack(s, AbortStep(s, id, success, release), id)
  {
    hide Inv, GiveBack, GaveBack;
    PlainFacts(s, o, id);
    GivesBack(s, id, release);
  }

  lemma {:induction false} UnevictedStays(s: State, evictions: seq<Eviction>, path: seq<Token>)
    requires path in s.donors && forall k :: 0 <= k < |evictions| ==> evictions[k].path != path
    ensures var r := EvictMany(s, evictions);
            && path in r.donors && r.donors[path] == s.donors[path]
            && r.requests == s.requests && r.sessions == s.sessions && r.flight == s.flight
    decreases |evictions|
  {
    hide Evict;
    if evictions != [] {
      UnevictedStays(if evictions[0].path in s.donors then Evict(s, evictions[0].path, evictions[0].release) else s,
                     evictions[1..], path);
    }
  }

  /** The donors an insertion evicts are gone, and their references with them. */
  lemma {:induction false} EvictedGo(s: State, evictions: seq<Eviction>, k: nat)
    requires k < |evictions|
    ensures var r := EvictMany(s, evictions);
            evictions[k].path !in r.donors && r.refs <= s.refs && forall p :: p in r.donors ==> p in s.donors
    decreases |evictions|
  {
    hide Evict;
    var e := evictions[0];
    var t := if e.path in s.donors then Evict(s, e.path, e.release) else s;
    if |evictions| > 1 { EvictedGo(t, evictions[1..], if k > 0 then k - 1 else 0); }
    if k == 0 { StaysGone(t, evictions[1..], e.path); }
  }

  lemma {:induction false} StaysGone(s: State, evictions: seq<Eviction>, path: seq<Token>)
    requires path !in s.donors
    ensures path !in EvictMany(s, evictions).donors
    decreases |evictions|
  {
    hide Evict;
    if evictions != [] {
      var e := evictions[0];
      StaysGone(if e.path in s.donors then Evict(s, e.path, e.release) else s, evictions[1..], path);
    }
  }

  /** The request is the donor at its prompt now, with its own slot and blocks. Where
      the insertion evicted nothing, its references are the node's, and an earlier
      donor there is gone with its own. */
  ghost predicate Donated(s: State, s': State, id: int, c: CompleteChoice)
    requires id in s.requests
  {
    var r := s.requests[id];
    && r.slot >= 0 && r.prompt in s'.donors && s'.donors[r.prompt] == Donor(r.slot, r.blocks)
    && s'.requests == s.requests - {id} && s'.sessions == s.sessions && s'.flight == []
    && (c.evictions == [] ==>
          && s'.donors - {r.prompt} == s.donors - {r.prompt}
          && s'.refs + multiset(if r.prompt in s.donors then s.donors[r.prompt].blocks else []) == s.refs)
  }

  /** A request that offers its prefix is its donor afterwards, unless the insertion
      evicts it again at once. */
  lemma CompletingADonor(s: State, o: Owners, id: int, c: CompleteChoice)
    requires Inv(s, o) && Plain(s, id) && Offers(s, id, c)
    requires forall k :: 0 <= k < |c.evictions| ==> c.evictions[k].path != s.requests[id].prompt
    ensures Donated(s, CompleteStep(s, id, c), id, c)
  {
    PlainFacts(s, o, id);
    ReferencesPass(s, o, id);
    hide Inv, Donated, CompleteStep;
    OfferIsDonated(s, id, c);
  }

  lemma OfferIsDonated(s: State, id: int, c: CompleteChoice)
    requires PlainOk(s, id) && Offers(s, id, c)
    requires forall k :: 0 <= k < |c.evictions| ==> c.evictions[k].path != s.requests[id].prompt
    requires var r := s.requests[id];
             var own, old_ := multiset(r.blocks),
                 multiset(if r.prompt in s.donors then s.donors[r.prompt].blocks else []);
             s.refs + own - old_ - own + old_ == s.refs
    ensures Donated(s, CompleteStep(s, id, c), id, c)
  {
    hide EvictMany, Donate, DonatedTo, Donated;
    DonatedFacts(s, id, c);
    CompleteDonates(s, id, c);
    DonatedStays(s, Donate(s, id, c), id, c);
  }

  lemma CompleteDonates(s: State, id: int, c: CompleteChoice)
    requires PlainOk(s, id) && Offers(s, id, c)
    ensures var e := EvictMany(Donate(s, id, c), c.evictions);
            CompleteStep(s, id, c) == Unref(e, e.flight).(flight := [])
  {
    hide EvictMany, Donate;
  }

  lemma DonatedStays(s: State, d: State, id: int, c: CompleteChoice)
    requires id in s.requests && DonatedTo(s, d, id)
    requires forall k :: 0 <= k < |c.evictions| ==> c.evictions[k].path != s.requests[id].prompt
    requires var r := s.requests[id];
             var own, old_ := multiset(r.blocks),
                 multiset(if r.prompt in s.donors then s.donors[r.prompt].blocks else []);
             s.refs + own - old_ - own + old_ == s.refs
    ensures var e := EvictMany(d, c.evictions); Donated(s, Unref(e, e.flight).(flight := []), id, c)
  {
    hide EvictMany;
    var r := s.requests[id];
    UnevictedStays(d, c.evictions, r.prompt);
    SetThenRemoved(s.donors, r.prompt, Donor(r.slot, r.blocks));
    if c.evictions == [] { NoEvictions(d); }
  }

  /** The references of a request and of the donor at its prompt are counted. */
  lemma ReferencesPass(s: State, o: Owners, id: int)
    requires Inv(s, o) && id in s.requests
    ensures var r := s.requests[id];
            var own, old_ := multiset(r.blocks),
                multiset(if r.prompt in s.donors then s.donors[r.prompt].blocks else []);
            s.refs + own - old_ - own + old_ == s.refs
  {
    var r := s.requests[id];
    var own, old_ := multiset(r.blocks), multiset(if r.prompt in s.donors then s.donors[r.prompt].blocks else []);
    forall b ensures own[b] + old_[b] <= s.refs[b] { Covered(s, id, r.prompt, "", b); }
    hide Inv;
    PassReferences(s.refs, own, old_);
  }

  /** The slot and a second set of references pass to the node at the prompt; an
      earlier donor there is retired with its own. */
  ghost predicate DonatedTo(s: State, d: State, id: int)
    requires id in s.requests
  {
    var r := s.requests[id];
    && r.slot >= 0 && r.blocks != []
    && d.donors == s.donors[r.prompt := Donor(r.slot, r.blocks)] && d.flight == r.blocks
    && d.requests == s.requests - {id} && d.sessions == s.sessions
    && d.refs == s.refs + multiset(r.blocks) - multiset(if r.prompt in s.donors then s.donors[r.prompt].blocks else [])
  }

  lemma DonatedFacts(s: State, id: int, c: CompleteChoice)
    requires PlainOk(s, id) && s.requests[id].prefilled
    ensures DonatedTo(s, Donate(s, id, c), id)
  {
    var r := s.requests[id];
    hide Evict, FreeSeqSlot;
    RemovedThenSet(s.donors, r.prompt, Donor(r.slot, r.blocks));
    NothingTaken(s.refs + multiset(r.blocks));
  }

  lemma RemovedThenSet<K, V>(m: map<K, V>, k: K, v: V)
    ensures (m - {k})[k := v] == m[k := v]
  {
  }

  lemma NothingTaken(refs: multiset<Block>)
    ensures refs - multiset([]) == refs
  {
  }

  lemma PassReferences(refs: multiset<Block>, own: multiset<Block>, old_: multiset<Block>)
    requires forall b :: own[b] + old_[b] <= refs[b]
    ensures refs + own - old_ - own + old_ == refs
  {
    forall b ensures (refs + own - old_ - own + old_)[b] == refs[b] { assert own[b] + old_[b] <= refs[b]; }
  }

  lemma NoEvictions(s: State)
    ensures EvictMany(s, []) == s
  {
  }

  // ---- sessions and donors that go ----

  /** The session is gone, with its references and its lease. */
  ghost predicate Dropped(s: State, s': State, name: string)
    requires IdleSession(s, name)
  {
    var kept := s.sessions[name].kept.value;
    && s'.sessions == s.sessions - {name} && s'.requests == s.requests && s'.donors == s.donors
    && s'.refs == s.refs - multiset(kept.blocks)
    && kept.slot < |s.slots| == |s'.slots| && !Live(s'.slots[kept.slot], kept.generation)
  }

  lemma Drops(s: State, name: string, release: Release)
    requires IdleSession(s, name)
    requires var kept := s.sessions[name].kept.value; kept.slot < |s.slots| && kept.generation > 0
    ensures Dropped(s, DropSession(s, name, release), name)
  {
    hide FreeSeqSlot, Resident;
    var kept := s.sessions[name].kept.value;
    FreeingASlot(Unref(s.(sessions := s.sessions - {name}), kept.blocks), kept.slot, kept.generation, release);
  }

  /** An idle session that expires is dropped. */
  lemma ExpiringASession(s: State, o: Owners, name: string, release: Release)
    requires Inv(s, o) && IdleSession(s, name)
    ensures Dropped(s, Next(s, Expire(name, release)), name)
  {
    IdleSessionSlot(s, o, name);
    hide Inv, Dropped, Next, DropSession;
    ExpireDrops(s, name, release);
    Drops(s, name, release);
  }

  lemma ExpireDrops(s: State, name: string, release: Release)
    requires IdleSession(s, name)
    ensures Next(s, Expire(name, release)) == DropSession(s, name, release)
  {
    hide DropSession;
  }
}
