/** The paged KV cache's reference counts, in place.

`refs` is what the rest of the model sees of it: a page in use counts as often as
it is referenced. Counts of pages that are not in use are left over from earlier
owners and mean nothing. Each operation is the block step of the ownership model:
a scheduler state the cache shows before it is followed by the one it shows after.
*/
module PagedCache {
  import opened Common
  import opened Ownership

  datatype Policy = Lru | Clock

  datatype Page = Page(inUse: bool, refCount: int, lastUsed: nat)

  function Count(page: Page): nat { if page.inUse && page.refCount > 0 then page.refCount else 0 }

  /** The counts of the pages in use are the references. */
  ghost predicate Counts(refs: multiset<Block>, pages: seq<Page>) {
    && (forall i :: 0 <= i < |pages| ==> refs[i] == Count(pages[i]) && (pages[i].inUse ==> pages[i].refCount > 0))
    && (forall b :: b in refs ==> 0 <= b < |pages|)
  }

  lemma CountOneMore(refs: multiset<Block>, pages: seq<Page>, b: Block)
    requires Counts(refs, pages) && 0 <= b < |pages|
    ensures pages[b].inUse <==> b in refs
    ensures var more := pages[b := pages[b].(refCount := pages[b].refCount + 1)];
            Counts(if pages[b].inUse then refs + multiset{b} else refs, more)
  {
  }

  function FreePages(pages: seq<Page>): set<Block> { set b: Block | 0 <= b < |pages| && !pages[b].inUse }

  lemma {:induction false} FreeInOrder(pages: seq<Page>, n: nat)
    requires n < |pages|
    ensures FreePages(pages[..n + 1]) == if pages[n].inUse then FreePages(pages[..n]) else FreePages(pages[..n]) + {n}
  {
    assert forall b :: 0 <= b < n ==> pages[..n + 1][b] == pages[..n][b];
  }

  /** The pages after reserving these, one by one, from `was`. */
  ghost predicate Drawn(pages: seq<Page>, was: seq<Page>, reserved: seq<Block>) {
    && |pages| == |was|
    && (forall i :: 0 <= i < |reserved| ==> reserved[i] in FreePages(was) && pages[reserved[i]].inUse)
    && (forall i, j :: 0 <= i < j < |reserved| ==> reserved[i] != reserved[j])
    && (forall b :: 0 <= b < |pages| && b !in reserved ==> pages[b].inUse == was[b].inUse)
    && |FreePages(was)| == |FreePages(pages)| + |reserved|
  }

  lemma DrawNone(pages: seq<Page>)
    ensures Drawn(pages, pages, [])
  {
  }

  lemma DrawOne(pages: seq<Page>, was: seq<Page>, reserved: seq<Block>, b: Block, stamp: nat)
    requires Drawn(pages, was, reserved) && b in FreePages(pages)
    ensures Drawn(pages[b := Page(true, 1, stamp)], was, reserved + [b])
  {
    assert FreePages(pages[b := Page(true, 1, stamp)]) == FreePages(pages) - {b};
  }

  lemma DrawnOut(pages: seq<Page>, was: seq<Page>, reserved: seq<Block>)
    requires Drawn(pages, was, reserved) && FreePages(pages) == {}
    ensures |FreePages(was)| == |reserved| && |pages| == |was|
  {
  }

  lemma DrawnAll(pages: seq<Page>, was: seq<Page>, reserved: seq<Block>, s: State)
    requires Drawn(pages, was, reserved) && s.pages == |was| && FreePages(was) == FreeBlocks(s)
    ensures Reservable(s, |reserved|, reserved) && |reserved| <= |FreePages(was)| && |pages| == |was|
  {
    assert forall i :: 0 <= i < |reserved| ==> reserved[i] in FreeBlocks(s);
  }

  /** One more reference per occurrence, on what was referenced already. */
  ghost predicate Acquired(refs: multiset<Block>, was: multiset<Block>, blocks: seq<Block>) {
    forall b :: refs[b] == if b in was then was[b] + multiset(blocks)[b] else 0
  }

  lemma AcquiredNothing(refs: multiset<Block>)
    ensures Acquired(refs, refs, [])
  {
  }

  lemma CountedArePages(refs: multiset<Block>, pages: seq<Page>, b: Block)
    requires Counts(refs, pages)
    ensures b in refs ==> 0 <= b < |pages|
  {
  }

  lemma OneMore(refs: multiset<Block>, was: multiset<Block>, blocks: seq<Block>, k: nat)
    requires k < |blocks| && Acquired(refs, was, blocks[..k])
    ensures blocks[k] in refs <==> blocks[k] in was
    ensures Acquired(if blocks[k] in was then refs + multiset{blocks[k]} else refs, was, blocks[..k + 1])
  {
    assert blocks[..k + 1] == blocks[..k] + [blocks[k]];
    var b := blocks[k];
    assert was[b] > 0 <==> refs[b] > 0;
  }

  lemma AllAcquired(refs: multiset<Block>, was: multiset<Block>, blocks: seq<Block>)
    requires Acquired(refs, was, blocks)
    ensures (forall b :: b in blocks ==> b in was) ==> refs == was + multiset(blocks)
  {
    if forall b :: b in blocks ==> b in was {
      forall b ensures refs[b] == (was + multiset(blocks))[b] { assert b !in was ==> b !in blocks; }
    }
  }

  // ---- the clock ----

  /** How many steps ahead of the hand a page is, around n pages. */
  function Ahead(hand: nat, b: Block, n: nat): int { if hand <= b then b - hand else b - hand + n }

  /** The step at which a turning hand takes this free page: a set reference bit
      costs it one whole turn. */
  function Turn(hand: nat, bits: seq<bool>, b: Block): int
    requires 0 <= b < |bits|
  {
    Ahead(hand, b, |bits|) + (if bits[b] then |bits| else 0)
  }

  /** Where the hand is after k steps, for up to two turns. */
  function After(hand: nat, k: nat, n: nat): int {
    if hand + k < n then hand + k else if hand + k < 2 * n then hand + k - n else hand + k - 2 * n
  }

  lemma HandAdvances(hand: nat, k: nat, n: nat)
    requires hand < n && k < 2 * n
    ensures 0 <= After(hand, k, n) < n && After(hand, k + 1, n) == (After(hand, k, n) + 1) % n
    ensures Ahead(hand, After(hand, k, n), n) == if k < n then k else k - n
  {
    var x := After(hand, k, n);
    if x + 1 < n { Small(x + 1, n); }
  }

  lemma Small(x: nat, n: nat)
    requires x < n
    ensures x % n == x
  {
  }

  /** The bits after k steps: the free pages passed have lost theirs. */
  ghost predicate Passed(bits: seq<bool>, was: seq<bool>, pages: seq<Page>, hand: nat, k: int) {
    && |bits| == |was| == |pages|
    && forall b :: 0 <= b < |pages| ==> (bits[b] <==> was[b] && (pages[b].inUse || k <= Ahead(hand, b, |pages|)))
  }

  /** No free page is due before step k. */
  ghost predicate NoneDue(pages: seq<Page>, was: seq<bool>, hand: nat, k: int)
    requires |was| == |pages|
  {
    forall b :: 0 <= b < |pages| && !pages[b].inUse ==> k <= Turn(hand, was, b)
  }

  /** One step of the hand: a free page without its bit is the one that is due;
      any other page is not, and loses its bit if it is free. */
  lemma OneStep(bits: seq<bool>, was: seq<bool>, pages: seq<Page>, hand: nat, k: nat)
    requires hand < |pages| && k < 2 * |pages| && Passed(bits, was, pages, hand, k) && NoneDue(pages, was, hand, k)
    ensures var x := After(hand, k, |pages|);
            && 0 <= x < |pages|
            && (!pages[x].inUse && !bits[x] ==> Turn(hand, was, x) == k)
            && (pages[x].inUse ==> Passed(bits, was, pages, hand, k + 1))
            && (!pages[x].inUse && bits[x] ==> Passed(bits[x := false], was, pages, hand, k + 1))
            && (pages[x].inUse || bits[x] ==> NoneDue(pages, was, hand, k + 1))
  {
    HandAdvances(hand, k, |pages|);
  }

  class Cache {
    const policy: Policy
    var pages: seq<Page>
    var clock: nat
    var bits: seq<bool>
    var hand: nat
    ghost var refs: multiset<Block>

    ghost predicate Valid()
      reads this
    {
      |bits| == |pages| && Counts(refs, pages)
    }

    /** What a scheduler state records of this cache. */
    ghost predicate Shows(s: State)
      reads this
    {
      Valid() && s.pages == |pages| && s.refs == refs
    }

    constructor (n: nat, slots: nat, policy: Policy)
      ensures this.policy == policy && Shows(Start(n, slots))
    {
      this.policy := policy;
      pages, bits := seq(n, _ => Page(false, 0, 0)), seq(n, _ => false);
      clock, hand := 0, 0;
      refs := multiset{};
    }

    /** The free pages are the ones nobody references. */
    lemma FreePagesAreUncounted(s: State)
      requires Shows(s)
      ensures FreePages(pages) == FreeBlocks(s)
    {
    }

    /** The last of the least recently used free pages. */
    method SelectByAge() returns (r: int)
      ensures r == -1 <==> FreePages(pages) == {}
      ensures r != -1 ==>
                && r in FreePages(pages)
                && forall b :: b in FreePages(pages) ==>
                    pages[r].lastUsed <= pages[b].lastUsed && (r < b ==> pages[r].lastUsed < pages[b].lastUsed)
    {
      r := -1;
      for i := 0 to |pages|
        invariant r == -1 ==> forall b :: 0 <= b < i ==> pages[b].inUse
        invariant r != -1 ==> 0 <= r < i && !pages[r].inUse
        invariant r != -1 ==> forall b :: 0 <= b < i && !pages[b].inUse ==>
            pages[r].lastUsed <= pages[b].lastUsed && (r < b ==> pages[r].lastUsed < pages[b].lastUsed)
      {
        if !pages[i].inUse && (r == -1 || pages[i].lastUsed <= pages[r].lastUsed) {
          r := i;
        }
      }
      if r != -1 { assert r in FreePages(pages); }
    }

    /** The first free page. */
    method SelectFirst() returns (r: int)
      ensures r == -1 ==> forall b :: 0 <= b < |pages| ==> pages[b].inUse
      ensures r != -1 ==> 0 <= r < |pages| && !pages[r].inUse && forall b :: 0 <= b < r ==> pages[b].inUse
    {
      for i := 0 to |pages|
        invariant forall b :: 0 <= b < i ==> pages[b].inUse
      {
        if !pages[i].inUse {
          return i;
        }
      }
      return -1;
    }

    /** Two turns of the hand, then the first free page. The turns always find one
        if there is one: the page that is due first. */
    method SelectByClock() returns (r: int)
      requires |bits| == |pages| && pages != []
      modifies this`bits, this`hand
      ensures var from := if old(hand) < |pages| then old(hand) else 0;
              && (r == -1 <==> FreePages(pages) == {})
              && (r != -1 ==> r in FreePages(pages) && forall b :: b in FreePages(pages) ==>
                  Turn(from, old(bits), r) <= Turn(from, old(bits), b))
              && (r != -1 ==>
                  hand == (r + 1) % |pages| && Passed(bits, old(bits), pages, from, Turn(from, old(bits), r)))
              && (r == -1 ==> hand == from && bits == old(bits))
    {
      ghost var from, was := if hand < |pages| then hand else 0, bits;
      ghost var n := |pages|;
      for scanned := 0 to 2 * |pages|
        invariant (if hand < n then hand else 0) == After(from, scanned, n)
        invariant scanned > 0 ==> hand < n
        invariant Passed(bits, was, pages, from, scanned) && NoneDue(pages, was, from, scanned)
      {
        OneStep(bits, was, pages, from, scanned);
        HandAdvances(from, scanned, n);
        hide Passed, NoneDue, Turn, After;
        if hand >= |pages| {
          hand := 0;
        }
        var i := hand;
        hand := (hand + 1) % |pages|;
        if pages[i].inUse {
          continue;
        }
        if !bits[i] {
          DueFirst(pages, was, from, i);
          return i;
        }
        bits := bits[i := false];
      }
      NobodyDue(bits, pages, was, from);
      r := SelectFirst();
    }

    /** A free page by the cache's policy; -1 exactly when there is none. */
    method SelectEvictionCandidate() returns (r: int)
      requires |bits| == |pages|
      modifies this`bits, this`hand
      ensures |bits| == |pages|
      ensures r == -1 <==> FreePages(pages) == {}
      ensures r != -1 ==> r in FreePages(pages)
      ensures r != -1 && policy == Lru ==>
                forall b :: b in FreePages(pages) ==>
                    pages[r].lastUsed <= pages[b].lastUsed && (r < b ==> pages[r].lastUsed < pages[b].lastUsed)
      ensures r != -1 && policy == Clock ==>
                var from := if old(hand) < |pages| then old(hand) else 0;
                && (forall b :: b in FreePages(pages) ==> Turn(from, old(bits), r) <= Turn(from, old(bits), b))
                && hand == (r + 1) % |pages| && Passed(bits, old(bits), pages, from, Turn(from, old(bits), r))
      ensures policy == Lru ==> bits == old(bits) && hand == old(hand)
    {
      if pages == [] {
        return -1;
      }
      if policy == Clock {
        r := SelectByClock();
      } else {
        r := SelectByAge();
      }
    }

    method NumFreeBlocks(ghost s: State) returns (n: nat)
      requires Shows(s)
      ensures n == NumFree(s)
    {
      n := 0;
      assert FreePages(pages[..0]) == {};
      for i := 0 to |pages|
        invariant n == |FreePages(pages[..i])|
      {
        FreeInOrder(pages, i);
        if !pages[i].inUse {
          n := n + 1;
        }
      }
      assert pages[..|pages|] == pages;
      FreePagesAreUncounted(s);
    }

    /** The state machine's reservation: it succeeds exactly when enough pages are
        free, and hands out distinct free pages, now referenced once each; a failed
        one leaves every count as it was. */
    method ReserveBlocks(n: nat, ghost s: State) returns (r: Option<seq<Block>>)
      requires Shows(s)
      modifies this
      ensures r.Some? <==> n <= NumFree(s)
      ensures r.Some? ==> Reservable(s, n, r.value) && Shows(Reserve(s, n, r.value))
      ensures r.None? ==> Shows(s)
    {
      var reserved: seq<Block> := [];
      ghost var was := pages;
      FreePagesAreUncounted(s);
      DrawNone(pages);
      hide Drawn, Counts;
      while |reserved| < n
        invariant |reserved| <= n && Valid() && Drawn(pages, was, reserved)
        invariant refs == s.refs + multiset(reserved)
      {
        var candidate := SelectEvictionCandidate();
        if candidate < 0 {
          DrawnOut(pages, was, reserved);
          Unreserve(reserved, was, s.refs);
          return None;
        }
        DrawOne(pages, was, reserved, candidate, clock);
        AcquirePage(candidate);
        reserved := reserved + [candidate];
      }
      DrawnAll(pages, was, reserved, s);
      r := Some(reserved);
    }

    /** Reset a free page to one reference. */
    method AcquirePage(candidate: Block)
      requires Valid() && candidate in FreePages(pages)
      modifies this
      ensures Valid() && pages == old(pages)[candidate := Page(true, 1, old(clock))] &&
          refs == old(refs) + multiset{candidate}
      ensures clock == old(clock) + 1 && bits == old(bits)[candidate := true] && hand == old(hand)
    {
      bits := bits[candidate := true];
      pages := pages[candidate := Page(true, 1, clock)];
      clock := clock + 1;
      refs := refs + multiset{candidate};
    }

    /** Undo a partial reservation: the pages are free again, whatever their count. */
    method Unreserve(reserved: seq<Block>, ghost was: seq<Page>, ghost counted: multiset<Block>)
      requires Valid() && refs == counted + multiset(reserved) && Drawn(pages, was, reserved) && Counts(counted, was)
      modifies this`pages, this`refs
      ensures Valid() && |pages| == |was| && refs == counted && FreePages(pages) == FreePages(was)
    {
      ghost var held := refs;
      for k := 0 to |reserved|
        invariant |pages| == |was|
        invariant forall b :: 0 <= b < |pages| && b !in reserved[..k] ==> pages[b] == old(pages)[b]
        invariant forall b :: 0 <= b < |pages| && b in reserved[..k] ==> !pages[b].inUse
      {
        assert reserved[k] in reserved;
        pages := pages[reserved[k] := pages[reserved[k]].(inUse := false)];
        assert reserved[..k + 1] == reserved[..k] + [reserved[k]];
      }
      assert reserved[..|reserved|] == reserved;
      refs := counted;
      forall b | 0 <= b < |pages| ensures counted[b] == Count(pages[b]) {
        if b in reserved {
          assert b in FreePages(was);
        } else {
          assert multiset(reserved)[b] == 0;
          assert held[b] == counted[b];
        }
      }
    }

    /** One more reference on each block whose page is in use; others are ignored. */
    method AcquireBlocks(blocks: seq<Block>, ghost s: State)
      requires Shows(s)
      modifies this`pages, this`refs
      ensures Shows(s.(refs := refs)) && Acquired(refs, s.refs, blocks)
      ensures (forall b :: b in blocks ==> b in s.refs) ==> Shows(s.(refs := s.refs + multiset(blocks)))
    {
      AcquiredNothing(refs);
      hide Acquired, Counts;
      for k := 0 to |blocks|
        invariant Shows(s.(refs := refs)) && Acquired(refs, s.refs, blocks[..k])
      {
        OneMore(refs, s.refs, blocks, k);
        AcquireBlock(blocks[k]);
      }
      assert blocks[..|blocks|] == blocks;
      AllAcquired(refs, s.refs, blocks);
    }

    method AcquireBlock(b: Block)
      requires Valid()
      modifies this`pages, this`refs
      ensures Valid() && |pages| == |old(pages)| && refs == if b in old(refs) then old(refs) + multiset{b}
          else old(refs)
    {
      CountedArePages(refs, pages, b);
      hide Counts;
      if 0 <= b < |pages| {
        CountOneMore(refs, pages, b);
        if pages[b].inUse {
          refs := refs + multiset{b};
        }
        pages := pages[b := pages[b].(refCount := pages[b].refCount + 1)];
      }
    }

    /** Drop one reference from a page; the last one frees it. */
    method ReleasePage(b: Block)
      requires Valid()
      modifies this
      ensures Valid() && |pages| == |old(pages)| && refs == old(refs) - multiset{b}
    {
      refs := refs - multiset{b};
      if b < 0 || b >= |pages| {
        return;
      }
      var left := pages[b].refCount - 1;
      pages := pages[b := pages[b].(refCount := left)];
      if left > 0 {
        return;
      }
      pages := pages[b := pages[b].(inUse := false)];
      bits := bits[b := false];
    }

    /** Releasing blocks is exactly multiset difference, for every list of blocks:
        unknown pages are ignored and no count goes below zero. */
    method ReleaseBlocksRef(blocks: seq<Block>, ghost s: State)
      requires Shows(s)
      modifies this
      ensures Shows(Unref(s, blocks))
    {
      for k := 0 to |blocks|
        invariant Valid() && |pages| == |old(pages)| && refs == s.refs - multiset(blocks[..k])
      {
        OneLess(s.refs, blocks, k);
        ReleasePage(blocks[k]);
      }
      assert blocks[..|blocks|] == blocks;
    }
  }

  lemma OneLess(refs: multiset<Block>, blocks: seq<Block>, k: nat)
    requires k < |blocks|
    ensures refs - multiset(blocks[..k]) - multiset{blocks[k]} == refs - multiset(blocks[..k + 1])
  {
    assert blocks[..k + 1] == blocks[..k] + [blocks[k]];
  }

  lemma DueFirst(pages: seq<Page>, was: seq<bool>, hand: nat, r: Block)
    requires |was| == |pages| && 0 <= r < |pages| && !pages[r].inUse && NoneDue(pages, was, hand, Turn(hand, was, r))
    ensures r in FreePages(pages) && forall b :: b in FreePages(pages) ==> Turn(hand, was, r) <= Turn(hand, was, b)
  {
  }

  lemma NobodyDue(bits: seq<bool>, pages: seq<Page>, was: seq<bool>, hand: nat)
    requires hand < |pages| && Passed(bits, was, pages, hand, 2 * |pages|) && NoneDue(pages, was, hand, 2 * |pages|)
    ensures FreePages(pages) == {} && bits == was && forall b :: 0 <= b < |pages| ==> pages[b].inUse
  {
    forall b | 0 <= b < |pages| ensures pages[b].inUse { assert Turn(hand, was, b) < 2 * |pages|; }
  }
}
