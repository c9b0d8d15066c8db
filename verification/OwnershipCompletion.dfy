/** The steps that end an admission or a request: giving back, committing a
session, donating a prefix. */
module OwnershipCompletion {
  import opened Common
  import opened Ownership
  import opened OwnershipInvariant
  import opened OwnershipSteps

  lemma OnlyHolds(s: State, o: Owners, id: int)
    requires Placed(s, o, -1) && id in s.requests
    ensures forall n :: n in s.sessions && n != HeldName(s, id) ==> s.sessions[n].holder != Some(id)
    ensures RequestOk(s, o, id) && "" !in s.sessions
    ensures s.requests[id].leased ==> SessionOk(s, o, s.requests[id].session)
  {
    forall n | n in s.sessions
      ensures n != "" && (n != HeldName(s, id) ==> s.sessions[n].holder != Some(id))
    {
      assert SessionOk(s, o, n);
    }
    assert RequestOk(s, o, id);
    if s.requests[id].leased { assert SessionOk(s, o, s.requests[id].session); }
  }

  /** The session a request holds keeps no state of its own. */
  predicate KeepsNothing(s: State, id: int)
    requires id in s.requests
  {
    s.requests[id].leased ==> s.requests[id].session in s.sessions ==> s.sessions[s.requests[id].session].kept.None?
  }

  lemma GiveBackPlaces(s: State, o: Owners, id: int, release: Release)
    requires Placed(s, o, -1) && s.frame.None? && id in s.requests && s.requests[id].slot >= 0 && KeepsNothing(s, id)
    ensures s.requests[id].slot < |o| && Placed(GiveBack(s, id, release), o[s.requests[id].slot := Freed(release)], -1)
  {
    var r := s.requests[id];
    OnlyHolds(s, o, id);
    OnSlot(s, o, id);
    FreeLive(Unref(s, r.blocks), o, r.slot, r.generation, release);
    hide FreeSeqSlot;
    Update(s, GiveBack(s, id, release), o, o[r.slot := Freed(release)], id, [], HeldName(s, id), r.slot);
  }

  lemma GiveBackBalances(s: State, id: int, name: string, release: Release)
    requires Balanced(s) && id in s.requests && (name in s.sessions ==> s.sessions[name].kept.None?)
    requires forall n :: n in s.sessions && n != name ==> s.sessions[n].holder != Some(id)
    ensures Balanced(GiveBack(s, id, release))
  {
    hide FreeSeqSlot;
    var s' := GiveBack(s, id, release);
    forall b ensures s'.refs[b] + Touched(s, id, [], name, b) == s.refs[b] + Touched(s', id, [], name, b) {
      Covered(s, id, [], name, b);
    }
    hide Touched;
    Rebalanced(s, s', id, [], name);
  }

  lemma GiveBackKeeps(s: State, o: Owners, id: int, release: Release) returns (o': Owners)
    requires Inv(s, o) && s.frame.None? && id in s.requests && s.requests[id].slot >= 0 && KeepsNothing(s, id)
    ensures Inv(GiveBack(s, id, release), o')
  {
    hide Balanced;
    GiveBackPlaces(s, o, id, release);
    OnlyHolds(s, o, id);
    GiveBackBalances(s, id, HeldName(s, id), release);
    o' := o[s.requests[id].slot := Freed(release)];
  }

  lemma DiscardCopyKeeps(s: State, o: Owners, id: int)
    requires Inv(s, o) && s.frame.None? && id in s.requests && s.requests[id].slot >= 0 && s.requests[id].leased
    ensures Inv(DiscardCopy(s, id), o) && KeepsNothing(DiscardCopy(s, id), id)
  {
    var name := s.requests[id].session;
    OnlyHolds(s, o, id);
    OnSlot(s, o, id);
    Update(s, DiscardCopy(s, id), o, o, id, [], name, s.requests[id].slot);
    Rebalanced(s, DiscardCopy(s, id), id, [], name);
  }

  lemma ReleasePlaces(s: State, o: Owners, id: int)
    requires Placed(s, o, -1) && s.frame.None? && id in s.requests && s.requests[id].slot == -1 && s.requests[id].leased
    ensures Placed(ReleaseHold(s, id), o, -1)
  {
    var name := s.requests[id].session;
    OnlyHolds(s, o, id);
    var x: int := -1;
    if s.sessions[name].kept.Some? {
      x := s.sessions[name].kept.value.slot;
      assert Owned(s, o, x);
    }
    Update(s, ReleaseHold(s, id), o, o, id, [], name, x);
  }

  lemma ReleaseKeeps(s: State, o: Owners, id: int)
    requires Inv(s, o) && s.frame.None? && id in s.requests && s.requests[id].slot == -1 && s.requests[id].leased
    ensures Inv(ReleaseHold(s, id), o)
  {
    OnlyHolds(s, o, id);
    ReleasePlaces(s, o, id);
    Rebalanced(s, ReleaseHold(s, id), id, [], s.requests[id].session);
  }

  lemma RemoveKeeps(s: State, o: Owners, id: int)
    requires Inv(s, o) && s.frame.None? && id in s.requests && s.requests[id].slot == -1 && !s.requests[id].leased
    ensures Inv(Remove(s, id), o)
  {
    OnlyHolds(s, o, id);
    Update(s, Remove(s, id), o, o, id, [], "", -1);
    Rebalanced(s, Remove(s, id), id, [], "");
  }

  lemma CommitPlaces(s: State, o: Owners, id: int)
    requires Placed(s, o, -1) && s.frame.None? && id in s.requests && 0 <= s.requests[id].slot < |s.slots|
    requires s.requests[id].leased && s.requests[id].prefilled
    ensures |o| == |s.slots| && Placed(Commit(s, id), o[s.requests[id].slot := BySession(s.requests[id].session)], -1)
  {
    var r := s.requests[id];
    OnlyHolds(s, o, id);
    OnSlot(s, o, id);
    Update(s, Commit(s, id), o, o[r.slot := BySession(r.session)], id, [], r.session, r.slot);
  }

  lemma CommitKeeps(s: State, o: Owners, id: int) returns (o': Owners)
    requires Inv(s, o) && s.frame.None? && id in s.requests && 0 <= s.requests[id].slot < |s.slots|
    requires s.requests[id].leased && s.requests[id].prefilled
    ensures Inv(Commit(s, id), o')
  {
    OnlyHolds(s, o, id);
    CommitPlaces(s, o, id);
    o' := o[s.requests[id].slot := BySession(s.requests[id].session)];
    Rebalanced(s, Commit(s, id), id, [], s.requests[id].session);
  }

  // ---- donation ----

  lemma TakePlaces(s: State, o: Owners, blocks: seq<Block>)
    requires Placed(s, o, -1) && s.frame.None?
    ensures Placed(s.(refs := s.refs + multiset(blocks), flight := blocks), o, -1)
  {
    Update(s, s.(refs := s.refs + multiset(blocks), flight := blocks), o, o, -1, [], "", -1);
  }

  lemma TakeBalances(s: State, id: int)
    requires Balanced(s) && s.flight == [] && id in s.requests
    ensures var blocks := s.requests[id].blocks;
            Balanced(s.(refs := s.refs + multiset(blocks), flight := blocks))
  {
    var blocks := s.requests[id].blocks;
    forall b | b in blocks ensures b in s.refs {
      Covered(s, id, [], "", b);
      assert multiset(blocks)[b] > 0;
    }
    SameHolders(s, s.(refs := s.refs + multiset(blocks), flight := blocks));
  }

  /** A request's slot and references pass to the node of its prompt. */
  function Hand(s: State, id: int): (r: State)
    requires id in s.requests && s.requests[id].slot >= 0
  {
    var r := s.requests[id];
    Remove(s, id).(donors := s.donors[r.prompt := Donor(r.slot, r.blocks)])
  }

  lemma HandPlaces(s: State, o: Owners, id: int)
    requires Placed(s, o, -1) && s.frame.None? && id in s.requests && s.requests[id].slot >= 0
    requires !s.requests[id].leased && s.requests[id].prefilled && s.requests[id].prompt != [] &&
        s.requests[id].prompt !in s.donors
    ensures s.requests[id].slot < |o| &&
        Placed(Hand(s, id), o[s.requests[id].slot := ByDonor(s.requests[id].prompt)], -1)
  {
    var r := s.requests[id];
    OnlyHolds(s, o, id);
    OnSlot(s, o, id);
    Update(s, Hand(s, id), o, o[r.slot := ByDonor(r.prompt)], id, r.prompt, "", r.slot);
  }

  lemma HandBalances(s: State, o: Owners, id: int)
    requires Placed(s, o, -1) && Balanced(s) && id in s.requests && s.requests[id].slot >= 0
    requires !s.requests[id].leased && s.requests[id].prompt !in s.donors
    ensures Balanced(Hand(s, id))
  {
    OnlyHolds(s, o, id);
    Rebalanced(s, Hand(s, id), id, s.requests[id].prompt, "");
  }

  lemma DonatePlaces(s: State, o: Owners, id: int, c: CompleteChoice) returns (o': Owners)
    requires Inv(s, o) && s.frame.None? && id in s.requests && Donates(s, id, c) && !s.requests[id].leased
    ensures Placed(Donate(s, id, c), o', -1) && Balanced(Donate(s, id, c)) && Donate(s, id, c).frame.None?
  {
    hide Evict, Placed, Balanced;
    var r := s.requests[id];
    var t := s.(refs := s.refs + multiset(r.blocks), flight := r.blocks);
    TakePlaces(s, o, r.blocks);
    TakeBalances(s, id);
    o' := o;
    if r.prompt in t.donors {
      EvictPlaces(t, o, r.prompt, c.replaced);
      EvictBalances(t, r.prompt, c.replaced);
      o' := o[t.donors[r.prompt].slot := Nobody];
      t := Evict(t, r.prompt, c.replaced);
    }
    HandPlaces(t, o', id);
    HandBalances(t, o', id);
    o' := o'[r.slot := ByDonor(r.prompt)];
  }

  lemma {:induction false} EvictManyPlaces(s: State, o: Owners, evictions: seq<Eviction>) returns (o': Owners)
    requires Placed(s, o, -1) && Balanced(s) && s.frame.None?
    ensures var s' := EvictMany(s, evictions);
            Placed(s', o', -1) && Balanced(s') && s'.frame.None? && s'.requests == s.requests
    decreases |evictions|
  {
    hide Evict, Placed, Balanced;
    o' := o;
    if evictions != [] {
      var e := evictions[0];
      if e.path in s.donors {
        EvictPlaces(s, o, e.path, e.release);
        EvictBalances(s, e.path, e.release);
        o' := EvictManyPlaces(Evict(s, e.path, e.release), o[s.donors[e.path].slot := Nobody], evictions[1..]);
      } else {
        o' := EvictManyPlaces(s, o, evictions[1..]);
      }
    }
  }

  lemma ReturnPlaces(s: State, o: Owners)
    requires Placed(s, o, -1) && s.frame.None?
    ensures Placed(Unref(s, s.flight).(flight := []), o, -1)
  {
    Update(s, Unref(s, s.flight).(flight := []), o, o, -1, [], "", -1);
  }

  lemma DonateKeeps(s: State, o: Owners, id: int, c: CompleteChoice) returns (o': Owners)
    requires Inv(s, o) && s.frame.None? && id in s.requests && Donates(s, id, c) && !s.requests[id].leased
    ensures var d := EvictMany(Donate(s, id, c), c.evictions);
            Inv(Unref(d, d.flight).(flight := []), o')
  {
    hide Placed, Balanced, Donate, EvictMany;
    o' := DonatePlaces(s, o, id, c);
    o' := EvictManyPlaces(Donate(s, id, c), o', c.evictions);
    var d := EvictMany(Donate(s, id, c), c.evictions);
    ReturnPlaces(d, o');
    ReturnBalances(d);
  }
}
