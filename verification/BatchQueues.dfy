/** The two pending queues, in place: no request is lost and none is duplicated by
building a batch, by the preemption swap, by a requeue or by the sticky append. */
module BatchQueues {
  import opened Common
  import opened BatchBuild

  function Elements<T(==)>(q: seq<T>): set<T> { set p | p in q }

  lemma NoElements<T>()
    ensures Elements<T>([]) == {}
  {
  }

  predicate NoDuplicates(q: seq<Ptr>) { forall i, j :: 0 <= i < j < |q| ==> q[i] != q[j] }

  // ---- first occurrences ----

  /** The first occurrence of every pointer not already seen, with its index. */
  function Firsts(q: seq<Ptr>, fromDecode: bool, seen: set<Ptr>): (r: seq<Item>) {
    if q == [] then []
    else
      var n := |q| - 1;
      Firsts(q[..n], fromDecode, seen) + (if q[n] in seen || q[n] in q[..n] then [] else [Item(q[n], fromDecode, n)])
  }

  /** The indices of the other occurrences. */
  function Repeats(q: seq<Ptr>, seen: set<Ptr>): (r: set<nat>) {
    if q == [] then {}
    else
      var n := |q| - 1;
      Repeats(q[..n], seen) + (if q[n] in seen || q[n] in q[..n] then {n} else {})
  }

  /** What stays: first occurrences of pointers neither seen nor gone. */
  function Left(q: seq<Ptr>, seen: set<Ptr>, gone: set<Ptr>): (r: seq<Ptr>) {
    if q == [] then []
    else
      var n := |q| - 1;
      Left(q[..n], seen, gone) + (if q[n] in seen || q[n] in q[..n] || q[n] in gone then [] else [q[n]])
  }

  lemma {:induction false} LeftFacts(q: seq<Ptr>, seen: set<Ptr>, gone: set<Ptr>)
    ensures NoDuplicates(Left(q, seen, gone))
    ensures forall p :: p in Left(q, seen, gone) <==> p in q && p !in seen && p !in gone
  {
    if q != [] {
      var n := |q| - 1;
      LeftFacts(q[..n], seen, gone);
      assert q == q[..n] + [q[n]];
      var front := Left(q[..n], seen, gone);
      forall i | 0 <= i < |front| ensures front[i] in q[..n] { assert front[i] in front; }
    }
  }

  /** The places `at` are first occurrences. */
  predicate FirstPlaces(q: seq<Ptr>, at: seq<nat>) {
    forall k :: 0 <= k < |at| ==> at[k] < |q| && q[at[k]] !in q[..at[k]]
  }

  lemma PicksAhead(part: seq<Ptr>, q: seq<Ptr>, at: seq<nat>, x: Ptr)
    requires Picks(part, q, at) && FirstPlaces(q, at)
    ensures Picks(part, q + [x], at) && FirstPlaces(q + [x], at)
    ensures x !in q ==> Picks(part + [x], q + [x], at + [|q|]) && FirstPlaces(q + [x], at + [|q|])
  {
    assert (q + [x])[..|q|] == q;
    assert forall k :: 0 <= k < |at| ==> (q + [x])[..at[k]] == q[..at[k]];
  }

  /** What stays keeps its order: it is read off the queue at increasing places,
      each the first place of its request. */
  lemma {:induction false} LeftInOrder(q: seq<Ptr>, seen: set<Ptr>, gone: set<Ptr>)
    ensures exists at :: Picks(Left(q, seen, gone), q, at) && FirstPlaces(q, at)
  {
    if q == [] {
      assert Picks([], q, []) && FirstPlaces(q, []);
    } else {
      var n := |q| - 1;
      LeftInOrder(q[..n], seen, gone);
      var front := Left(q[..n], seen, gone);
      var at :| Picks(front, q[..n], at) && FirstPlaces(q[..n], at);
      PicksAhead(front, q[..n], at, q[n]);
      assert q[..n] + [q[n]] == q && front + [] == front;
      hide Picks, FirstPlaces;
      assert Left(q, seen, gone) == front || (q[n] !in q[..n] && Left(q, seen, gone) == front + [q[n]]);
    }
  }

  lemma {:induction false} FirstsFacts(q: seq<Ptr>, fromDecode: bool, seen: set<Ptr>)
    ensures forall x :: x in Firsts(q, fromDecode, seen) ==>
              x.fromDecode == fromDecode && x.index < |q| && q[x.index] == x.ptr && x.ptr !in seen &&
                  x.ptr !in q[..x.index]
    ensures forall p :: p in q && p !in seen ==> exists x :: x in Firsts(q, fromDecode, seen) && x.ptr == p
  {
    if q != [] {
      var n := |q| - 1;
      var front, r := Firsts(q[..n], fromDecode, seen), Firsts(q, fromDecode, seen);
      FirstsFacts(q[..n], fromDecode, seen);
      assert q == q[..n] + [q[n]];
      forall x | x in r
        ensures x.fromDecode == fromDecode && x.index < |q| && q[x.index] == x.ptr && x.ptr !in seen &&
            x.ptr !in q[..x.index]
      {
        if x in front { assert q[..n][..x.index] == q[..x.index]; }
      }
      forall p | p in q && p !in seen ensures exists x :: x in r && x.ptr == p {
        if p in q[..n] {
          var x :| x in front && x.ptr == p;
          assert x in r;
        } else {
          assert Item(p, fromDecode, n) in r;
        }
      }
    }
  }

  lemma {:induction false} FirstsDistinct(q: seq<Ptr>, fromDecode: bool, seen: set<Ptr>)
    ensures Distinct(Firsts(q, fromDecode, seen))
  {
    if q != [] {
      var n := |q| - 1;
      var front := Firsts(q[..n], fromDecode, seen);
      FirstsDistinct(q[..n], fromDecode, seen);
      FirstsFacts(q[..n], fromDecode, seen);
      forall i | 0 <= i < |front| ensures front[i].ptr in q[..n] { assert front[i] in front; }
    }
  }

  lemma {:induction false} RepeatsFacts(q: seq<Ptr>, seen: set<Ptr>, i: nat)
    ensures i in Repeats(q, seen) <==> i < |q| && (q[i] in seen || q[i] in q[..i])
  {
    if q != [] {
      var n := |q| - 1;
      RepeatsFacts(q[..n], seen, i);
      if i < n { assert q[..n][..i] == q[..i]; }
    }
  }

  /** What the queues offer: each pending request once, prefill first. */
  function Items(prefill: seq<Ptr>, decode: seq<Ptr>): seq<Item> {
    Firsts(prefill, false, {}) + Firsts(decode, true, Elements(prefill))
  }

  lemma ItemsFacts(prefill: seq<Ptr>, decode: seq<Ptr>)
    ensures Distinct(Items(prefill, decode))
    ensures forall x :: x in Items(prefill, decode) ==>
        if x.fromDecode then x in Firsts(decode, true, Elements(prefill)) else x in Firsts(prefill, false, {})
    ensures forall p :: p in prefill || p in decode <==> exists x :: x in Items(prefill, decode) && x.ptr == p
  {
    FirstsFacts(prefill, false, {});
    FirstsFacts(decode, true, Elements(prefill));
    FirstsDistinct(prefill, false, {});
    FirstsDistinct(decode, true, Elements(prefill));
    var a, b := Firsts(prefill, false, {}), Firsts(decode, true, Elements(prefill));
    forall i, j | 0 <= i < |a| && 0 <= j < |b| ensures a[i].ptr != b[j].ptr { assert a[i] in a && b[j] in b; }
    forall p | p in prefill || p in decode ensures exists x :: x in Items(prefill, decode) && x.ptr == p {
      if p in prefill {
        var x :| x in a && x.ptr == p;
        assert x in a + b;
      } else {
        var x :| x in b && x.ptr == p;
        assert x in a + b;
      }
    }
  }

  function Ptrs(items: seq<Item>): (r: seq<Ptr>)
    ensures |r| == |items| && forall i :: 0 <= i < |items| ==> r[i] == items[i].ptr
  {
    seq(|items|, i requires 0 <= i < |items| => items[i].ptr)
  }

  // ---- erasure by index ----

  /** q without the positions in dead. */
  function Without(q: seq<Ptr>, dead: set<nat>): (r: seq<Ptr>) {
    if q == [] then []
    else
      var n := |q| - 1;
      Without(q[..n], dead) + (if n in dead then [] else [q[n]])
  }

  lemma {:induction false} WithoutNothing(q: seq<Ptr>)
    ensures Without(q, {}) == q
  {
    if q != [] { WithoutNothing(q[..|q| - 1]); }
  }

  /** Erasing position i after everything dead beyond it is gone. */
  lemma {:induction false} EraseOne(q: seq<Ptr>, dead: set<nat>, i: nat)
    requires i < |q| && forall d :: d in dead ==> i < d
    ensures var w := Without(q, dead);
            i < |w| && w[..i] + w[i + 1..] == Without(q, dead + {i})
  {
    var n := |q| - 1;
    if i == n {
      Untouched(q[..n], dead);
      Untouched(q[..n], dead + {i});
    } else {
      EraseOne(q[..n], dead, i);
      var w := Without(q[..n], dead);
      assert forall x :: (w + [x])[..i] + (w + [x])[i + 1..] == (w[..i] + w[i + 1..]) + [x];
      assert w + [] == w;
    }
  }

  lemma {:induction false} Untouched(q: seq<Ptr>, dead: set<nat>)
    requires forall d :: d in dead ==> |q| <= d
    ensures Without(q, dead) == q
  {
    if q != [] { Untouched(q[..|q| - 1], dead); }
  }

  lemma {:induction false} WithoutIsLeft(q: seq<Ptr>, seen: set<Ptr>, gone: set<Ptr>, dead: set<nat>)
    requires forall i :: 0 <= i < |q| ==> (i in dead <==> q[i] in seen || q[i] in q[..i] || q[i] in gone)
    ensures Without(q, dead) == Left(q, seen, gone)
  {
    if q != [] {
      var n := |q| - 1;
      forall i | 0 <= i < n
        ensures i in dead <==> q[..n][i] in seen || q[..n][i] in q[..n][..i] || q[..n][i] in gone
      {
        assert q[..n][..i] == q[..i];
      }
      WithoutIsLeft(q[..n], seen, gone, dead);
    }
  }

  // ---- sorted, unique indices ----

  /** std::sort then std::unique. */
  method SortUnique(indices: seq<nat>) returns (r: seq<nat>)
    ensures Increasing(r) && Elements(r) == Elements(indices)
  {
    r := [];
    NoElements<nat>();
    for k := 0 to |indices|
      invariant Increasing(r) && Elements(r) == Elements(indices[..k])
    {
      assert indices[..k + 1] == indices[..k] + [indices[k]];
      assert Elements(indices[..k + 1]) == Elements(indices[..k]) + {indices[k]};
      r := InsertIndex(r, indices[k]);
    }
    assert indices[..|indices|] == indices;
  }

  lemma IndexInserted(a: seq<nat>, i: nat, x: nat)
    requires Increasing(a) && i <= |a| && (forall j :: 0 <= j < i ==> a[j] < x) && (i < |a| ==> x < a[i])
    ensures var r := a[..i] + [x] + a[i..];
            Increasing(r) && Elements(r) == Elements(a) + {x}
  {
    var r := a[..i] + [x] + a[i..];
    assert Elements(r) == Elements(a) + {x} by {
      assert a == a[..i] + a[i..];
      assert forall y :: y in r <==> y in a || y == x;
    }
    forall j, k | 0 <= j < k < |r| ensures r[j] < r[k] {
      assert j < i ==> r[j] == a[j];
      assert k > i ==> r[k] == a[k - 1] && a[i] <= a[k - 1];
    }
  }

  method InsertIndex(a: seq<nat>, x: nat) returns (r: seq<nat>)
    requires Increasing(a)
    ensures Increasing(r) && Elements(r) == Elements(a) + {x}
  {
    var i := 0;
    while i < |a| && a[i] < x
      invariant 0 <= i <= |a| && forall j :: 0 <= j < i ==> a[j] < x
    {
      i := i + 1;
    }
    if i < |a| && a[i] == x {
      r := a;
    } else {
      r := a[..i] + [x] + a[i..];
      IndexInserted(a, i, x);
    }
  }

  // ---- the selected indices ----

  function Chosen(items: seq<Item>, fromDecode: bool): (r: seq<nat>) {
    if items == [] then []
    else
      var n := |items| - 1;
      Chosen(items[..n], fromDecode) + (if items[n].fromDecode == fromDecode then [items[n].index] else [])
  }

  lemma {:induction false} ChosenFacts(items: seq<Item>, fromDecode: bool, i: nat)
    ensures i in Chosen(items, fromDecode) <==> exists x :: x in items && x.fromDecode == fromDecode && x.index == i
  {
    if items != [] {
      var n := |items| - 1;
      ChosenFacts(items[..n], fromDecode, i);
      assert items == items[..n] + [items[n]];
      if x :| x in items[..n] && x.fromDecode == fromDecode && x.index == i { assert x in items; }
      if items[n].fromDecode == fromDecode && items[n].index == i { assert items[n] in items; }
    }
  }

  /** The positions to erase are the repeats and the first occurrences of the
      batch. */
  lemma DeadPositions(q: seq<Ptr>, seen: set<Ptr>, fromDecode: bool, batch: seq<Item>, i: nat)
    requires i < |q|
    requires forall x :: x in batch && x.fromDecode == fromDecode ==> x in Firsts(q, fromDecode, seen)
    requires forall x :: x in batch && x.fromDecode != fromDecode ==> x.ptr !in q || x.ptr in seen
    ensures i in Chosen(batch, fromDecode) || i in Repeats(q, seen) <==>
        q[i] in seen || q[i] in q[..i] || q[i] in Elements(Ptrs(batch))
  {
    RepeatsFacts(q, seen, i);
    ChosenFacts(batch, fromDecode, i);
    FirstsFacts(q, fromDecode, seen);
    if x :| x in batch && x.fromDecode == fromDecode && x.index == i {
      var k :| 0 <= k < |batch| && batch[k] == x;
      assert Ptrs(batch)[k] == q[i];
    }
    if q[i] in Ptrs(batch) && i !in Repeats(q, seen) {
      var k :| 0 <= k < |batch| && Ptrs(batch)[k] == q[i];
      var x := batch[k];
      assert x in batch;
    }
  }

  method EraseIndices(q: seq<Ptr>, indices: seq<nat>) returns (r: seq<Ptr>)
    requires forall i :: i in indices ==> i < |q|
    ensures r == Without(q, Elements(indices))
  {
    r := q;
    WithoutNothing(q);
    NoElements<nat>();
    if indices == [] {
      return;
    }
    var a := SortUnique(indices);
    var idx := |a|;
    assert a[idx..] == [];
    while idx > 0
      invariant 0 <= idx <= |a|
      invariant r == Without(q, Elements(a[idx..]))
    {
      idx := idx - 1;
      assert a[idx] in Elements(a) && a[idx] in Elements(indices);
      ghost var after := a[idx + 1..];
      ghost var dead := Elements(after);
      forall d | d in dead ensures a[idx] < d {
        var k :| 0 <= k < |after| && after[k] == d;
        assert d == a[idx + 1 + k];
      }
      EraseOne(q, dead, a[idx]);
      assert a[idx..] == [a[idx]] + a[idx + 1..];
      assert Elements(a[idx..]) == dead + {a[idx]};
      r := r[..a[idx]] + r[a[idx] + 1..];
    }
    assert a[0..] == a;
  }

  // ---- fairness ----

  datatype Decision = Decision(swap: bool, batchIndex: nat, queueIndex: nat)

  function Priorities(heap: Heap, q: seq<Ptr>): (r: seq<int>)
    ensures |r| == |q|
  {
    seq(|q|, i requires 0 <= i < |q| => Get(heap, q[i]).priority)
  }

  /** std::max_element: the first of the largest. */
  function MaxAt(a: seq<int>): (i: nat)
    requires a != []
    ensures i < |a| && (forall j :: 0 <= j < |a| ==> a[j] <= a[i]) && (forall j :: 0 <= j < i ==> a[j] < a[i])
  {
    if |a| == 1 then 0
    else var i := MaxAt(a[..|a| - 1]); if a[i] < a[|a| - 1] then |a| - 1 else i
  }

  /** std::min_element: the first of the smallest. */
  function MinAt(a: seq<int>): (i: nat)
    requires a != []
    ensures i < |a| && (forall j :: 0 <= j < |a| ==> a[i] <= a[j]) && (forall j :: 0 <= j < i ==> a[i] < a[j])
  {
    if |a| == 1 then 0
    else var i := MinAt(a[..|a| - 1]); if a[|a| - 1] < a[i] then |a| - 1 else i
  }

  function Evaluate(f: Fairness, batch: seq<int>, queue: seq<int>): (d: Decision) {
    if !f.preemption || batch == [] || queue == [] then Decision(false, 0, 0)
    else
      var high, low := MaxAt(queue), MinAt(batch);
      if queue[high] < f.threshold || batch[low] >= queue[high] then Decision(false, 0, 0)
      else Decision(true, low, high)
  }

  method EvaluateFairness(f: Fairness, batch: seq<int>, queue: seq<int>) returns (d: Decision)
    ensures d == Evaluate(f, batch, queue)
  {
    d := Decision(false, 0, 0);
    if !f.preemption || batch == [] || queue == [] {
      return;
    }
    var high := 0;
    for i := 1 to |queue|
      invariant high < i && high == MaxAt(queue[..i])
    {
      assert queue[..i + 1][..i] == queue[..i];
      if queue[high] < queue[i] {
        high := i;
      }
    }
    assert queue[..|queue|] == queue;
    if queue[high] < f.threshold {
      return;
    }
    var low := 0;
    for i := 1 to |batch|
      invariant low < i && low == MinAt(batch[..i])
    {
      assert batch[..i + 1][..i] == batch[..i];
      if batch[i] < batch[low] {
        low := i;
      }
    }
    assert batch[..|batch|] == batch;
    if batch[low] >= queue[high] {
      return;
    }
    d := Decision(true, low, high);
  }

  /** A swap happens exactly when preemption is on and some queued request at or
      above the threshold has a higher priority than some request of the batch;
      it brings in a highest and takes out a lowest. */
  lemma SwapsRaiseThePriority(f: Fairness, batch: seq<int>, queue: seq<int>)
    ensures var d := Evaluate(f, batch, queue);
            && (d.swap <==> f.preemption && exists i, j ::
                0 <= i < |batch| && 0 <= j < |queue| && batch[i] < queue[j] && f.threshold <= queue[j])
            && (d.swap ==>
                  && d.batchIndex < |batch| && d.queueIndex < |queue| && batch[d.batchIndex] < queue[d.queueIndex]
                  && (forall i :: 0 <= i < |batch| ==> batch[d.batchIndex] <= batch[i])
                  && (forall j :: 0 <= j < |queue| ==> queue[j] <= queue[d.queueIndex]))
  {
    if f.preemption && batch != [] && queue != [] {
      var high, low := MaxAt(queue), MinAt(batch);
      assert batch[low] < queue[high] && f.threshold <= queue[high] ==> Evaluate(f, batch, queue).swap;
    }
  }

  function Erased(q: seq<Ptr>, i: int): seq<Ptr> { if 0 <= i < |q| then q[..i] + q[i + 1..] else q }

  lemma ErasedFacts(q: seq<Ptr>, i: int)
    ensures multiset(q) == multiset(Erased(q, i)) + (if 0 <= i < |q| then multiset{q[i]} else multiset{})
  {
    if 0 <= i < |q| { assert q == q[..i] + [q[i]] + q[i + 1..]; }
  }

  /** The swap neither loses nor duplicates a request. */
  lemma SwapConserves(batch: seq<Ptr>, prefill: seq<Ptr>, decode: seq<Ptr>, b: nat, q: nat, toDecode: bool)
    requires b < |batch| && q < |prefill + decode|
    ensures var batch' := batch[b := (prefill + decode)[q]];
            var prefill' := Erased(prefill, q) + (if toDecode then [] else [batch[b]]);
            var decode' := Erased(decode, q - |prefill|) + (if toDecode then [batch[b]] else []);
            multiset(batch') + multiset(prefill') + multiset(decode') ==
                multiset(batch) + multiset(prefill) + multiset(decode)
  {
    hide Erased;
    var out, into := batch[b], (prefill + decode)[q];
    ReplacedFacts(batch, b, into);
    ErasedFrom(prefill, decode, q);
    var left, right := Erased(prefill, q), Erased(decode, q - |prefill|);
    PushedBack(left, right, out, toDecode);
    TradeBalances(multiset(batch), multiset(batch[b := into]), multiset(prefill) + multiset(decode),
        multiset(left) + multiset(right), out, into);
    SumsAgree(multiset(batch), multiset(prefill), multiset(decode));
    SumsAgree(multiset(batch[b := into]), multiset(left + (if toDecode then [] else [out])),
        multiset(right + (if toDecode then [out] else [])));
  }

  lemma ErasedFrom(prefill: seq<Ptr>, decode: seq<Ptr>, q: nat)
    requires q < |prefill + decode|
    ensures multiset(prefill) + multiset(decode) ==
        multiset(Erased(prefill, q)) + multiset(Erased(decode, q - |prefill|)) + multiset{(prefill + decode)[q]}
  {
    ErasedFacts(prefill, q);
    ErasedFacts(decode, q - |prefill|);
  }

  lemma PushedBack(left: seq<Ptr>, right: seq<Ptr>, out: Ptr, toDecode: bool)
    ensures multiset(left + (if toDecode then [] else [out])) + multiset(right + (if toDecode then [out] else [])) ==
        multiset(left) + multiset(right) + multiset{out}
  {
    assert left + [] == left && right + [] == right;
  }

  lemma TradeBalances(batch: multiset<Ptr>, batch': multiset<Ptr>, queues: multiset<Ptr>, left: multiset<Ptr>, out: Ptr,
      into: Ptr)
    requires batch' + multiset{out} == batch + multiset{into} && queues == left + multiset{into}
    ensures batch' + (left + multiset{out}) == batch + queues
  {
    assert batch' + (left + multiset{out}) == (batch' + multiset{out}) + left;
    assert batch + queues == (batch + multiset{into}) + left;
  }

  lemma SumsAgree(a: multiset<Ptr>, b: multiset<Ptr>, c: multiset<Ptr>)
    ensures a + b + c == a + (b + c)
  {
  }

  lemma ReplacedFacts(q: seq<Ptr>, i: nat, x: Ptr)
    requires i < |q|
    ensures multiset(q[i := x]) + multiset{q[i]} == multiset(q) + multiset{x}
  {
    assert q == q[..i] + [q[i]] + q[i + 1..];
    assert q[i := x] == q[..i] + [x] + q[i + 1..];
  }

  // ---- the sticky cohort ----

  /** The first `room` compatible requests, in queue order. */
  function Joining(q: seq<Ptr>, compatible: set<Ptr>, room: nat): (r: seq<Ptr>) {
    if q == [] || room == 0 then []
    else if q[0] in compatible then [q[0]] + Joining(q[1..], compatible, room - 1)
    else Joining(q[1..], compatible, room)
  }

  function Staying(q: seq<Ptr>, compatible: set<Ptr>, room: nat): (r: seq<Ptr>) {
    if q == [] || room == 0 then q
    else if q[0] in compatible then Staying(q[1..], compatible, room - 1)
    else [q[0]] + Staying(q[1..], compatible, room)
  }

  lemma NoRoom(q: seq<Ptr>, compatible: set<Ptr>)
    ensures Joining(q, compatible, 0) == [] && Staying(q, compatible, 0) == q
  {
  }

  /** How many requests are compatible. */
  function Compatible(q: seq<Ptr>, compatible: set<Ptr>): nat {
    if q == [] then 0 else Compatible(q[1..], compatible) + (if q[0] in compatible then 1 else 0)
  }

  /** The places of a queue are divided, in order, between those that join and
      those that stay, and a compatible request that stays is behind all that
      join. */
  ghost predicate Splits(q: seq<Ptr>, compatible: set<Ptr>, join: seq<Ptr>, stay: seq<Ptr>, at: seq<nat>,
      kept: seq<nat>)
  {
    && Picks(join, q, at) && Picks(stay, q, kept)
    && (forall i :: 0 <= i < |q| ==> (i in at <==> i !in kept))
    && (forall i, j :: 0 <= i < |at| && 0 <= j < |kept| && stay[j] in compatible ==> at[i] < kept[j])
  }

  lemma SplitsBehind(q: seq<Ptr>, compatible: set<Ptr>, join: seq<Ptr>, stay: seq<Ptr>, at: seq<nat>, kept: seq<nat>,
      x: Ptr)
    requires Splits(q, compatible, join, stay, at, kept)
    ensures Splits([x] + q, compatible, [x] + join, stay, [0] + Shifted(at), Shifted(kept))
    ensures x !in compatible ==> Splits([x] + q, compatible, join, [x] + stay, Shifted(at), [0] + Shifted(kept))
  {
    PicksBehind(join, q, at, x);
    PicksBehind(stay, q, kept, x);
    hide Picks;
    forall i | 0 <= i < |[x] + q|
      ensures (i in [0] + Shifted(at) <==> i !in Shifted(kept)) && (i in Shifted(at) <==> i !in [0] + Shifted(kept))
    {
      ShiftedHas(at, i);
      ShiftedHas(kept, i);
      assert i > 0 ==> (i - 1 in at <==> i - 1 !in kept);
    }
  }

  lemma NobodyJoins(q: seq<Ptr>, compatible: set<Ptr>)
    ensures exists at, kept :: Splits(q, compatible, [], q, at, kept)
  {
    var all := seq(|q|, i requires 0 <= i < |q| => i as nat);
    forall i | 0 <= i < |q| ensures i in all { assert all[i] == i; }
    assert Splits(q, compatible, [], q, [], all);
  }

  lemma {:induction false} StickyAppendSplits(q: seq<Ptr>, compatible: set<Ptr>, room: nat)
    ensures exists at, kept ::
        Splits(q, compatible, Joining(q, compatible, room), Staying(q, compatible, room), at, kept)
  {
    hide Splits;
    if q == [] || room == 0 {
      NobodyJoins(q, compatible);
      assert Joining(q, compatible, room) == [] && Staying(q, compatible, room) == q;
    } else {
      var rest, left := q[1..], if q[0] in compatible then room - 1 else room;
      assert q == [q[0]] + rest;
      StickyAppendSplits(rest, compatible, left);
      var join, stay := Joining(rest, compatible, left), Staying(rest, compatible, left);
      var at, kept :| Splits(rest, compatible, join, stay, at, kept);
      SplitsBehind(rest, compatible, join, stay, at, kept, q[0]);
      if q[0] in compatible {
        assert Joining(q, compatible, room) == [q[0]] + join && Staying(q, compatible, room) == stay;
      } else {
        assert Joining(q, compatible, room) == join && Staying(q, compatible, room) == [q[0]] + stay;
      }
    }
  }

  lemma {:induction false} StickyAppendCounts(q: seq<Ptr>, compatible: set<Ptr>, room: nat)
    ensures var join, stay := Joining(q, compatible, room), Staying(q, compatible, room);
            && |join| == Min(room, Compatible(q, compatible))
            && (forall p :: p in join ==> p in compatible)
            && (|join| < room ==> forall p :: p in stay ==> p !in compatible)
            && multiset(join) + multiset(stay) == multiset(q)
  {
    if q != [] && room > 0 {
      assert q == [q[0]] + q[1..];
      StickyAppendCounts(q[1..], compatible, if q[0] in compatible then room - 1 else room);
    }
  }

  /** Exactly the first compatible requests join, as many as fit; those that join
      and those that stay keep their order; and nobody is lost or doubled. */
  lemma StickyAppendFacts(q: seq<Ptr>, compatible: set<Ptr>, room: nat)
    ensures var join, stay := Joining(q, compatible, room), Staying(q, compatible, room);
            && |join| == Min(room, Compatible(q, compatible))
            && (forall p :: p in join ==> p in compatible)
            && (|join| < room ==> forall p :: p in stay ==> p !in compatible)
            && multiset(join) + multiset(stay) == multiset(q)
            && exists at, kept :: Splits(q, compatible, join, stay, at, kept)
  {
    hide Splits;
    StickyAppendCounts(q, compatible, room);
    StickyAppendSplits(q, compatible, room);
  }

  // ---- the queues ----

  lemma ElementAdded<T>(q: seq<T>, x: T)
    ensures Elements(q + [x]) == Elements(q) + {x}
  {
  }

  lemma OneMoreElement(q: seq<Ptr>, i: nat)
    requires i < |q|
    ensures Elements(q[..i + 1]) == Elements(q[..i]) + {q[i]} && (q[i] in Elements(q[..i]) <==> q[i] in q[..i])
  {
    assert q[..i + 1] == q[..i] + [q[i]];
  }

  class Queues {
    var prefill: seq<Ptr>
    var decode: seq<Ptr>

    constructor (prefill: seq<Ptr>, decode: seq<Ptr>)
      ensures this.prefill == prefill && this.decode == decode
    {
      this.prefill, this.decode := prefill, decode;
    }

    /** One pass over a queue: the items not seen before, and the other indices. */
    method Scan(q: seq<Ptr>, fromDecode: bool, seen: set<Ptr>)
        returns (items: seq<Item>, repeats: seq<nat>, seen': set<Ptr>)
      ensures items == Firsts(q, fromDecode, seen) && Elements(repeats) == Repeats(q, seen) &&
          seen' == seen + Elements(q)
    {
      items, repeats, seen' := [], [], seen;
      NoElements<nat>();
      NoElements<Ptr>();
      for i := 0 to |q|
        invariant items == Firsts(q[..i], fromDecode, seen)
        invariant Elements(repeats) == Repeats(q[..i], seen)
        invariant seen' == seen + Elements(q[..i])
      {
        assert q[..i + 1][..i] == q[..i];
        OneMoreElement(q, i);
        if q[i] in seen' {
          ElementAdded(repeats, i);
          repeats := repeats + [i];
        } else {
          items := items + [Item(q[i], fromDecode, i)];
          seen' := seen' + {q[i]};
        }
      }
      assert q[..|q|] == q;
    }

    /** The greedy loop over the ranked items. */
    method Select(heap: Heap, c: Config, ranked: seq<Item>) returns (chosen: seq<Item>, used: nat)
      requires c.maxSize >= 1
      ensures chosen == Pick(heap, c, ranked, [], 0) && used == Total(heap, c, chosen)
    {
      chosen, used := [], 0;
      for i := 0 to |ranked|
        invariant used == Total(heap, c, chosen)
        invariant Pick(heap, c, ranked[i..], chosen, used) == Pick(heap, c, ranked, [], 0)
        invariant |chosen| < c.maxSize
      {
        assert ranked[i..][1..] == ranked[i + 1..];
        var cost := ItemCost(heap, c, ranked[i]);
        if chosen != [] && used + cost > c.maxTokens {
          continue;
        }
        assert (chosen + [ranked[i]])[..|chosen|] == chosen;
        chosen := chosen + [ranked[i]];
        used := used + cost;
        if |chosen| >= c.maxSize {
          return;
        }
      }
    }

    /** The preemption swap: the first request of highest priority in the queues
        replaces the first of lowest priority in the batch, which goes to the back
        of the queue of its phase. */
    method ApplyFairness(heap: Heap, f: Fairness, batch: seq<Ptr>, decoding: set<Ptr>)
        returns (r: seq<Ptr>, d: Decision)
      modifies this
      ensures d == Evaluate(f, Priorities(heap, batch), Priorities(heap, old(prefill) + old(decode)))
      ensures !d.swap ==> r == batch && prefill == old(prefill) && decode == old(decode)
      ensures d.swap ==>
                var queues := old(prefill) + old(decode);
                && r == batch[d.batchIndex := queues[d.queueIndex]]
                && prefill == Erased(old(prefill), d.queueIndex) +
                    (if batch[d.batchIndex] in decoding then [] else [batch[d.batchIndex]])
                && decode == Erased(old(decode), d.queueIndex - |old(prefill)|) +
                    (if batch[d.batchIndex] in decoding then [batch[d.batchIndex]] else [])
    {
      d := EvaluateFairness(f, Priorities(heap, batch), Priorities(heap, prefill + decode));
      r := batch;
      if !d.swap {
        return;
      }
      var displaced := batch[d.batchIndex];
      var i := d.queueIndex;
      r := batch[d.batchIndex := (prefill + decode)[i]];
      if i < |prefill| {
        prefill := prefill[..i] + prefill[i + 1..];
      } else {
        decode := decode[..i - |prefill|] + decode[i - |prefill| + 1..];
      }
      if displaced in decoding {
        decode := decode + [displaced];
      } else {
        prefill := prefill + [displaced];
      }
    }

    /** Requests that yielded go back to the end of the decode queue, in order. */
    method Requeue(yielded: seq<Ptr>)
      modifies this`decode
      ensures decode == old(decode) + yielded
    {
      for i := 0 to |yielded|
        invariant decode == old(decode) + yielded[..i]
      {
        assert yielded[..i + 1] == yielded[..i] + [yielded[i]];
        decode := decode + [yielded[i]];
      }
      assert yielded[..|yielded|] == yielded;
    }

    /** Compatible decodes join the running cohort while there is room. */
    method AppendCompatible(batch: seq<Ptr>, compatible: set<Ptr>, maxSize: nat) returns (r: seq<Ptr>)
      modifies this`decode
      ensures var room := if |batch| < maxSize then maxSize - |batch| else 0;
              r == batch + Joining(old(decode), compatible, room) && decode == Staying(old(decode), compatible, room)
    {
      r := batch;
      var i := 0;
      while i < |decode| && |r| < maxSize
        invariant 0 <= i <= |decode| && |batch| <= |r| && (|batch| >= maxSize ==> r == batch) &&
            (|batch| < maxSize ==> |r| <= maxSize)
        invariant var room := if |batch| < maxSize then maxSize - |batch| else 0;
                  var left := if |r| < maxSize then maxSize - |r| else 0;
                  && r + Joining(decode[i..], compatible, left) == batch + Joining(old(decode), compatible, room)
                  && decode[..i] + Staying(decode[i..], compatible, left) == Staying(old(decode), compatible, room)
        decreases |decode| - i
      {
        assert decode[i..][1..] == decode[i + 1..];
        if decode[i] !in compatible {
          assert decode[..i + 1] == decode[..i] + [decode[i]];
          i := i + 1;
        } else {
          ghost var before := decode;
          r := r + [decode[i]];
          decode := decode[..i] + decode[i + 1..];
          assert decode[i..] == before[i + 1..] && decode[..i] == before[..i];
        }
      }
      if |r| >= maxSize { NoRoom(decode[i..], compatible); }
      assert decode[..i] + decode[i..] == decode;
    }

    method BuildBatch(heap: Heap, c: Config, now: real) returns (chosen: seq<Item>, used: nat)
      requires c.maxSize >= 1
      modifies this
      ensures chosen == Pick(heap, c, Rank(heap, c.policy, now, Items(old(prefill), old(decode))), [], 0)
      ensures used == Total(heap, c, chosen)
      ensures prefill == Left(old(prefill), {}, Elements(Ptrs(chosen)))
      ensures decode == Left(old(decode), Elements(old(prefill)), Elements(Ptrs(chosen)))
    {
      var first, deadPrefill, seen := Scan(prefill, false, {});
      assert {} + Elements(prefill) == Elements(prefill);
      var second, deadDecode, _ := Scan(decode, true, seen);
      var ranked := Rank(heap, c.policy, now, first + second);
      chosen, used := Select(heap, c, ranked);
      SelectionIsOffered(heap, c, now, prefill, decode);
      deadPrefill := Chosen(chosen, false) + deadPrefill;
      deadDecode := Chosen(chosen, true) + deadDecode;
      Erasable(prefill, decode, chosen, deadPrefill, deadDecode);
      prefill := EraseIndices(prefill, deadPrefill);
      decode := EraseIndices(decode, deadDecode);
    }
  }

  lemma SelectionIsOffered(heap: Heap, c: Config, now: real, prefill: seq<Ptr>, decode: seq<Ptr>)
    requires c.maxSize >= 1
    ensures var items := Items(prefill, decode);
            var r := Pick(heap, c, Rank(heap, c.policy, now, items), [], 0);
            forall x :: x in r ==> x in items
  {
    var items := Items(prefill, decode);
    var ranked := Rank(heap, c.policy, now, items);
    RankFacts(heap, c.policy, now, items);
    assert [] + ranked == ranked;
    PickLimits(heap, c, ranked, [], 0);
    forall x | x in ranked ensures x in items { assert x in multiset(ranked); }
  }

  lemma Erasable(prefill: seq<Ptr>, decode: seq<Ptr>, chosen: seq<Item>, deadPrefill: seq<nat>, deadDecode: seq<nat>)
    requires forall x :: x in chosen ==> x in Items(prefill, decode)
    requires forall i :: i in deadPrefill <==> i in Chosen(chosen, false) || i in Repeats(prefill, {})
    requires forall i :: i in deadDecode <==> i in Chosen(chosen, true) || i in Repeats(decode, Elements(prefill))
    ensures forall i :: i in deadPrefill ==> i < |prefill|
    ensures forall i :: i in deadDecode ==> i < |decode|
    ensures Without(prefill, Elements(deadPrefill)) == Left(prefill, {}, Elements(Ptrs(chosen)))
    ensures Without(decode, Elements(deadDecode)) == Left(decode, Elements(prefill), Elements(Ptrs(chosen)))
  {
    ItemsFacts(prefill, decode);
    FirstsFacts(prefill, false, {});
    FirstsFacts(decode, true, Elements(prefill));
    forall i | i in deadPrefill ensures i < |prefill| { RepeatsFacts(prefill, {}, i); ChosenFacts(chosen, false, i); }
    forall i | i in deadDecode
      ensures i < |decode|
    {
      RepeatsFacts(decode, Elements(prefill), i);
      ChosenFacts(chosen, true, i);
    }
    forall i | 0 <= i < |prefill| { DeadPositions(prefill, {}, false, chosen, i); }
    forall i | 0 <= i < |decode| { DeadPositions(decode, Elements(prefill), true, chosen, i); }
    WithoutIsLeft(prefill, {}, Elements(Ptrs(chosen)), Elements(deadPrefill));
    WithoutIsLeft(decode, Elements(prefill), Elements(Ptrs(chosen)), Elements(deadDecode));
  }

  // ---- what building a batch keeps ----

  /** The batch of the queues, as BuildBatch computes it. */
  function Batch(heap: Heap, c: Config, now: real, prefill: seq<Ptr>, decode: seq<Ptr>): seq<Item> {
    Pick(heap, c, Rank(heap, c.policy, now, Items(prefill, decode)), [], 0)
  }

  /** Size and token limits; the batch starts with a request nobody outranks; and
      if it is not full, every request left behind would overflow the budget. */
  lemma BatchesAreMaximal(heap: Heap, c: Config, now: real, prefill: seq<Ptr>, decode: seq<Ptr>)
    requires c.maxSize >= 1
    ensures var batch := Batch(heap, c, now, prefill, decode);
            && |batch| <= c.maxSize
            && (Total(heap, c, batch) <= c.maxTokens || |batch| == 1)
            && (prefill + decode != [] ==> batch != [])
            && (|batch| < c.maxSize ==> forall x :: x in Items(prefill, decode) && x !in batch ==>
                Total(heap, c, batch) + ItemCost(heap, c, x) > c.maxTokens)
  {
    hide Before, ItemCost, Pick;
    var items := Items(prefill, decode);
    ItemsFacts(prefill, decode);
    SelectionFacts(heap, c, now, items);
    var batch := Batch(heap, c, now, prefill, decode);
    if prefill + decode != [] {
      var p := (prefill + decode)[0];
      assert p in prefill || p in decode;
      var x :| x in items && x.ptr == p;
    }
    if |batch| < c.maxSize {
      forall x | x in items && x !in batch ensures Total(heap, c, batch) + ItemCost(heap, c, x) > c.maxTokens {
        NotFullMeansNothingFits(heap, c, now, batch, x);
      }
    }
  }

  /** A batch of several brings in no more prompt tokens, with one more for every
      decode, than max_batch_tokens. */
  lemma PromptsFitTheBudget(heap: Heap, c: Config, now: real, prefill: seq<Ptr>, decode: seq<Ptr>)
    requires c.maxSize >= 1
    ensures var batch := Batch(heap, c, now, prefill, decode);
            |batch| > 1 ==> Widths(heap, batch) <= c.maxTokens
  {
    BatchesAreMaximal(heap, c, now, prefill, decode);
    WidthsAreCharged(heap, c, Batch(heap, c, now, prefill, decode));
  }

  /** Every pending request is afterwards in exactly one place, once: the batch,
      the prefill queue or the decode queue; and nothing else is anywhere. */
  lemma BatchesConserveRequests(heap: Heap, c: Config, now: real, prefill: seq<Ptr>, decode: seq<Ptr>)
    requires c.maxSize >= 1
    ensures var batch := Ptrs(Batch(heap, c, now, prefill, decode));
            var left := Left(prefill, {}, Elements(batch));
            var right := Left(decode, Elements(prefill), Elements(batch));
            && NoDuplicates(batch + left + right)
            && (forall p :: p in batch + left + right <==> p in prefill + decode)
  {
    var items := Items(prefill, decode);
    ItemsFacts(prefill, decode);
    SelectionFacts(heap, c, now, items);
    hide Pick, Rank, Items, Before;
    var chosen := Batch(heap, c, now, prefill, decode);
    var batch := Ptrs(chosen);
    LeftFacts(prefill, {}, Elements(batch));
    LeftFacts(decode, Elements(prefill), Elements(batch));
    var left, right := Left(prefill, {}, Elements(batch)), Left(decode, Elements(prefill), Elements(batch));
    Apart(batch, left, right);
    forall p ensures p in batch + left + right <==> p in prefill + decode {
      if p in batch {
        var k :| 0 <= k < |batch| && batch[k] == p;
        assert chosen[k] in chosen && chosen[k].ptr == p;
      }
    }
  }

  lemma Apart(a: seq<Ptr>, b: seq<Ptr>, c: seq<Ptr>)
    requires NoDuplicates(a) && NoDuplicates(b) && NoDuplicates(c)
    requires forall p :: !(p in a && p in b) && !(p in a && p in c) && !(p in b && p in c)
    ensures NoDuplicates(a + b + c)
  {
    var all := a + b + c;
    forall i, j | 0 <= i < j < |all| ensures all[i] != all[j] {
      assert i < |a| ==> all[i] in a;
      assert |a| <= i < |a| + |b| ==> all[i] in b;
      assert |a| <= j < |a| + |b| ==> all[j] in b;
      assert |a| + |b| <= j ==> all[j] in c;
    }
  }
}
