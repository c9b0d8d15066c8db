/** What every step of the unified scheduler keeps.

`o` names the owner of each slot. It is a witness, not state: the invariant says
such a naming exists, every lemma says how a step changes it.
*/
module OwnershipInvariant {
  import opened Common
  import opened SequenceKv
  import opened Ownership
  import opened Balance

  datatype Owner =
    | Nobody
    | ByRequest(id: int)
    | ByDonor(path: seq<Token>)
    | BySession(name: string)
    | ByRetirement
    | ByFrame

  type Owners = seq<Owner>

  // ---- block references ----

  predicate Counted(s: State, name: string) {
    name in s.sessions && s.sessions[name].kept.Some? && !Taken(s, s.sessions[name])
  }

  function RequestTables(s: State): map<int, seq<Block>> { map id | id in s.requests :: s.requests[id].blocks }

  function DonorTables(s: State): map<seq<Token>, seq<Block>> { map path | path in s.donors :: s.donors[path].blocks }

  function SessionTables(s: State): map<string, seq<Block>> {
    map name | name in s.sessions && Counted(s, name) :: s.sessions[name].kept.value.blocks
  }

  /** The references held on block b: by admitted requests, donated nodes,
      retained sessions, and the table in the worker's hands. */
  ghost function Held(s: State, b: Block): nat {
    Sum(RequestTables(s))[b] + Sum(DonorTables(s))[b] + Sum(SessionTables(s))[b] + multiset(s.flight)[b]
  }

  ghost predicate Balanced(s: State) {
    && (forall b :: s.refs[b] == Held(s, b))
    && (forall b :: b in s.refs ==> 0 <= b < s.pages)
  }

  // ---- slots ----

  predicate Running(slot: Slot) { slot.state.Prefilling? || slot.state.Decoding? }

  predicate Owned(s: State, o: Owners, i: nat)
    requires i < |s.slots| == |o|
  {
    match o[i]
    case Nobody => s.slots[i].state.Idle?
    case ByRequest(id) =>
      id in s.requests && s.requests[id].slot == i && Running(s.slots[i]) &&
          s.slots[i].generation == s.requests[id].generation
    case ByDonor(path) => path in s.donors && s.donors[path].slot == i && Running(s.slots[i])
    case BySession(name) =>
      Counted(s, name) && s.sessions[name].kept.value.slot == i &&
          s.slots[i] == Slot(Completed, s.sessions[name].kept.value.generation)
    case ByRetirement => s.slots[i].state.Retiring? && Lease(i, s.slots[i].generation) in s.deferred
    case ByFrame =>
      s.frame.Some? && s.frame.value.slot == i && s.frame.value.stage.Allocated? && !s.frame.value.hit.OwnSession?
                    && s.slots[i] == Slot(Prefilling, s.frame.value.generation)
  }

  predicate RequestOk(s: State, o: Owners, id: int)
    requires id in s.requests && |s.slots| == |o|
  {
    var r := s.requests[id];
    && id >= 0
    && (r.slot >= 0 ==>
          && r.slot < |o| && o[r.slot] == ByRequest(id) && r.started && r.generation > 0 &&
              |r.blocks| >= TotalBlocks(r.prompt)
          && r.offset <= |r.prompt| && r.prompt[..r.offset] <= Resident(s.kv, r.slot)
          && (r.prefilled ==> r.offset == |r.prompt|))
    && (r.slot < 0 ==> r.slot == -1 && r.blocks == [] && !r.prefilled)
    && (r.leased ==>
        r.started && r.session != "" && r.session in s.sessions && s.sessions[r.session].holder == Some(id))
  }

  predicate DonorOk(s: State, o: Owners, path: seq<Token>)
    requires path in s.donors && |s.slots| == |o|
  {
    var d := s.donors[path];
    path != [] && d.slot < |o| && o[d.slot] == ByDonor(path) && path <= Resident(s.kv, d.slot)
  }

  predicate SessionOk(s: State, o: Owners, name: string)
    requires name in s.sessions && |s.slots| == |o|
  {
    var e := s.sessions[name];
    && name != ""
    && (e.holder.Some? ==>
        e.holder.value in s.requests && s.requests[e.holder.value].leased && s.requests[e.holder.value].session == name)
    && (e.holder.None? ==> e.kept.Some?)
    && (Counted(s, name) ==>
          && e.kept.value.slot < |o| && o[e.kept.value.slot] == BySession(name) && e.kept.value.generation > 0
          && e.kept.value.prompt <= Resident(s.kv, e.kept.value.slot))
  }

  predicate DeferredOk(s: State, o: Owners)
    requires |s.slots| == |o|
  {
    && (forall k :: 0 <= k < |s.deferred| ==>
          var l := s.deferred[k];
          l.slot < |o| && o[l.slot] == ByRetirement && s.slots[l.slot].generation == l.generation)
    && (forall j, k :: 0 <= j < k < |s.deferred| ==> s.deferred[j].slot != s.deferred[k].slot)
  }

  predicate FrameOk(s: State, o: Owners)
    requires |s.slots| == |o|
  {
    s.frame.Some? ==>
      var f := s.frame.value;
      && f.request in s.requests
      && var r := s.requests[f.request];
      && r.started && r.slot == -1
      && (r.leased && !f.hit.OwnSession? ==> r.session in s.sessions && s.sessions[r.session].kept.None?)
      && (f.stage.Looked? ==> s.flight == [])
      && (s.flight != [] ==> |s.flight| == NewBlocks(r.prompt, f.cached))
      && (!f.stage.Allocated? ==> f.slot == -1)
      && (match f.hit
          case Miss => f.cached == []
          case Radix(path) =>
            path in s.donors && s.donors[path] == Donor(f.cachedLease.slot, f.cached) && f.matched == |path| &&
                path <= r.prompt
          case OwnSession =>
            && r.leased && r.session in s.sessions && s.sessions[r.session].kept.Some?
            && var kept := s.sessions[r.session].kept.value;
            && kept.slot == f.cachedLease.slot && kept.generation == f.cachedLease.generation && kept.blocks == f.cached
            && f.matched == |kept.prompt| && kept.prompt <= r.prompt
            && (f.stage.Allocated? ==> f.slot == f.cachedLease.slot && f.generation == f.cachedLease.generation))
      && (f.stage.Allocated? && !f.hit.OwnSession? ==>
            f.slot == -1 || (0 <= f.slot < |o| && o[f.slot] == ByFrame && f.generation > 0))
  }

  /** Everything but what the worker's own table says between steps; the owner of
      slot x may be in the middle of changing. */
  predicate Placed(s: State, o: Owners, x: int) {
    && |o| == |s.slots|
    && (forall i :: 0 <= i < |o| && i != x ==> Owned(s, o, i))
    && (forall id :: id in s.requests ==> RequestOk(s, o, id))
    && (forall path :: path in s.donors ==> DonorOk(s, o, path))
    && (forall name :: name in s.sessions ==> SessionOk(s, o, name))
    && DeferredOk(s, o)
    && FrameOk(s, o)
  }

  ghost predicate Inv(s: State, o: Owners) {
    Placed(s, o, -1) && Balanced(s) && (s.frame.None? ==> s.flight == [])
  }

  /** The references on b of one request, one donor, one session and the worker. */
  function Touched(s: State, id: int, path: seq<Token>, name: string, b: Block): nat {
    (if id in s.requests then multiset(s.requests[id].blocks)[b] else 0) +
    (if path in s.donors then multiset(s.donors[path].blocks)[b] else 0) +
    (if Counted(s, name) then multiset(s.sessions[name].kept.value.blocks)[b] else 0) +
    multiset(s.flight)[b]
  }

  lemma TouchedInTables(s: State, id: int, path: seq<Token>, name: string, b: Block)
    ensures Touched(s, id, path, name, b) ==
              At(RequestTables(s), id)[b] + At(DonorTables(s), path)[b] + At(SessionTables(s), name)[b] +
                  multiset(s.flight)[b]
  {
  }

  lemma Covered(s: State, id: int, path: seq<Token>, name: string, b: Block)
    requires Balanced(s)
    ensures Touched(s, id, path, name, b) <= s.refs[b]
  {
    TouchedInTables(s, id, path, name, b);
    SumChanges(RequestTables(s), RequestTables(s), id);
    SumChanges(DonorTables(s), DonorTables(s), path);
    SumChanges(SessionTables(s), SessionTables(s), name);
  }

  ghost predicate SameRequests(s: State, s': State, id: int) {
    forall j :: j != id ==>
        (j in s'.requests <==> j in s.requests) && (j in s.requests ==> s'.requests[j] == s.requests[j])
  }

  ghost predicate SameDonors(s: State, s': State, path: seq<Token>) {
    forall p :: p != path ==> (p in s'.donors <==> p in s.donors) && (p in s.donors ==> s'.donors[p] == s.donors[p])
  }

  ghost predicate SameSessions(s: State, s': State, name: string) {
    forall n :: n != name ==>
        (n in s'.sessions <==> n in s.sessions) && (n in s.sessions ==> s'.sessions[n] == s.sessions[n])
  }

  /** Only the named session can be held by the changing request. */
  ghost predicate HoldsOnly(s: State, s': State, id: int, name: string) {
    (s'.requests == s.requests) ||
    (forall n :: n in s.sessions && n != name ==> s.sessions[n].holder != Some(id))
  }

  lemma RequestTablesStay(s: State, s': State, id: int)
    requires SameRequests(s, s', id)
    ensures RequestTables(s') - {id} == RequestTables(s) - {id}
  {
    var h, h' := RequestTables(s) - {id}, RequestTables(s') - {id};
    forall j
      ensures (j in h' <==> j in h) && (j in h ==> h'[j] == h[j])
    {
      assert j in s'.requests <==> j in RequestTables(s');
    }
    assert h' == h;
  }

  lemma DonorTablesStay(s: State, s': State, path: seq<Token>)
    requires SameDonors(s, s', path)
    ensures DonorTables(s') - {path} == DonorTables(s) - {path}
  {
    var h, h' := DonorTables(s) - {path}, DonorTables(s') - {path};
    forall p
      ensures (p in h' <==> p in h) && (p in h ==> h'[p] == h[p])
    {
      assert p in s'.donors <==> p in DonorTables(s');
    }
    assert h' == h;
  }

  lemma SessionTablesStay(s: State, s': State, id: int, name: string)
    requires SameRequests(s, s', id) && SameSessions(s, s', name) && HoldsOnly(s, s', id, name)
    ensures SessionTables(s') - {name} == SessionTables(s) - {name}
  {
    forall n | n != name ensures Counted(s', n) <==> Counted(s, n) {
      if n in s.sessions && s.sessions[n].holder.Some? {
        var j := s.sessions[n].holder.value;
        assert j in s'.requests <==> j in s.requests;
      }
    }
  }

  /** A step that changes the tables of these holders only, and the counts by the
      same amount, keeps the balance. */
  lemma Rebalanced(s: State, s': State, id: int, path: seq<Token>, name: string)
    requires Balanced(s) && s'.pages == s.pages
    requires SameRequests(s, s', id) && SameDonors(s, s', path) && SameSessions(s, s', name) &&
        HoldsOnly(s, s', id, name)
    requires forall b :: s'.refs[b] + Touched(s, id, path, name, b) == s.refs[b] + Touched(s', id, path, name, b)
    requires forall b :: b in s'.refs ==> 0 <= b < s.pages
    ensures Balanced(s')
  {
    RequestTablesStay(s, s', id);
    DonorTablesStay(s, s', path);
    SessionTablesStay(s, s', id, name);
    forall b ensures s'.refs[b] == Held(s', b) {
      HeldMoves(s, s', id, path, name, b);
    }
  }

  lemma HeldMoves(s: State, s': State, id: int, path: seq<Token>, name: string, b: Block)
    requires RequestTables(s') - {id} == RequestTables(s) - {id}
    requires DonorTables(s') - {path} == DonorTables(s) - {path}
    requires SessionTables(s') - {name} == SessionTables(s) - {name}
    ensures Held(s', b) + Touched(s, id, path, name, b) == Held(s, b) + Touched(s', id, path, name, b)
  {
    TouchedInTables(s, id, path, name, b);
    TouchedInTables(s', id, path, name, b);
    hide Touched;
    SumChanges(RequestTables(s), RequestTables(s'), id);
    SumChanges(DonorTables(s), DonorTables(s'), path);
    SumChanges(SessionTables(s), SessionTables(s'), name);
  }

  // ---- one step, one slot ----

  /** Before the step, the changing request, donor, session and frame own slot x
      or no slot at all, and nobody else owns x. */
  ghost predicate Alone(s: State, o: Owners, id: int, path: seq<Token>, name: string, x: int)
    requires |o| == |s.slots|
  {
    && (id in s.requests ==>
          && (s.requests[id].leased ==> s.requests[id].session == name)
          && (s.requests[id].slot == x || s.requests[id].slot == -1))
    && (path in s.donors ==> s.donors[path].slot == x)
    && (name in s.sessions ==>
          && (s.sessions[name].holder.Some? ==> s.sessions[name].holder.value == id)
          && (Counted(s, name) ==> s.sessions[name].kept.value.slot == x))
    && (0 <= x < |o| ==> o[x] in {Nobody, ByRequest(id), ByDonor(path), BySession(name), ByFrame})
  }

  /** Away from the changing holders and their slot, nothing changes. */
  ghost predicate Elsewhere(s: State, s': State, o: Owners, o': Owners, id: int, path: seq<Token>, name: string, x: int)
  {
    && |o| == |s.slots| == |o'| == |s'.slots|
    && (forall i :: 0 <= i < |o| && i != x ==> o'[i] == o[i] && s'.slots[i] == s.slots[i])
    && (forall i :: i != x ==> Resident(s'.kv, i) == Resident(s.kv, i))
    && SameRequests(s, s', id) && SameDonors(s, s', path) && SameSessions(s, s', name)
    && s.deferred <= s'.deferred
    && (s'.frame == s.frame || forall i :: 0 <= i < |o| && i != x ==> o[i] != ByFrame)
  }

  /** The changing holders are in order after the step. */
  ghost predicate Settled(s': State, o': Owners, id: int, path: seq<Token>, name: string)
    requires |o'| == |s'.slots|
  {
    && (id in s'.requests ==> RequestOk(s', o', id))
    && (path in s'.donors ==> DonorOk(s', o', path))
    && (name in s'.sessions ==> SessionOk(s', o', name))
    && DeferredOk(s', o')
    && FrameOk(s', o')
  }

  lemma OtherSlotStays(s: State, s': State, o: Owners, o': Owners, id: int, path: seq<Token>, name: string, x: int,
      i: nat)
    requires Elsewhere(s, s', o, o', id, path, name, x) && Alone(s, o, id, path, name, x)
    requires i < |o| && i != x && Owned(s, o, i)
    requires forall n :: n in s.sessions ==> SessionOk(s, o, n)
    ensures Owned(s', o', i)
  {
    match o[i]
    case BySession(n) =>
      assert SessionOk(s, o, n);
      if s.sessions[n].holder.Some? {
        var j := s.sessions[n].holder.value;
        assert j in s'.requests <==> j in s.requests;
      }
    case _ =>
  }

  lemma OtherRequestStays(s: State, s': State, o: Owners, o': Owners, id: int, path: seq<Token>, name: string, x: int,
      j: int)
    requires Elsewhere(s, s', o, o', id, path, name, x) && Alone(s, o, id, path, name, x)
    requires j != id && j in s.requests && RequestOk(s, o, j)
    ensures RequestOk(s', o', j)
  {
  }

  lemma OtherSessionStays(s: State, s': State, o: Owners, o': Owners, id: int, path: seq<Token>, name: string, x: int,
      n: string)
    requires Elsewhere(s, s', o, o', id, path, name, x) && Alone(s, o, id, path, name, x)
    requires n != name && n in s.sessions && SessionOk(s, o, n)
    ensures SessionOk(s', o', n)
  {
    if s.sessions[n].holder.Some? {
      var j := s.sessions[n].holder.value;
      assert j != id && (j in s'.requests <==> j in s.requests);
    }
  }

  lemma PlacedBut(s: State, o: Owners, x: int)
    requires Placed(s, o, -1)
    ensures Placed(s, o, x)
  {
  }

  /** The rule behind every step: in order before, alone on its slot, unchanged
      elsewhere, settled after, hence in order after. */
  lemma Update(s: State, s': State, o: Owners, o': Owners, id: int, path: seq<Token>, name: string, x: int)
    requires Placed(s, o, x)
    requires Alone(s, o, id, path, name, x)
    requires Elsewhere(s, s', o, o', id, path, name, x)
    requires Settled(s', o', id, path, name)
    ensures Placed(s', o', x)
    ensures (0 <= x < |o'| ==> Owned(s', o', x)) ==> Placed(s', o', -1)
  {
    forall i | 0 <= i < |o'| && i != x ensures Owned(s', o', i) {
      OtherSlotStays(s, s', o, o', id, path, name, x, i);
    }
    forall j | j in s'.requests ensures RequestOk(s', o', j) {
      if j != id { OtherRequestStays(s, s', o, o', id, path, name, x, j); }
    }
    forall p | p in s'.donors ensures DonorOk(s', o', p) {
      if p != path { assert DonorOk(s, o, p); }
    }
    forall n | n in s'.sessions ensures SessionOk(s', o', n) {
      if n != name { OtherSessionStays(s, s', o, o', id, path, name, x, n); }
    }
  }
}
