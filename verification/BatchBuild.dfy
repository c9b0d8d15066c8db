/** Building a batch from the two pending queues: deduplication, ranking, greedy
selection under a size and a token limit, and erasure by index.

Requests are shared pointers; `heap` is what they point to, which batch building
reads but does not change.
*/
module BatchBuild {
  import opened Common

  type Ptr = int

  datatype Request = Request(
    prompt: nat, maxTokens: int, stateless: bool, remaining: int, timeslice: int,
    priority: int, sequence: nat, enqueuedAt: real, affinity: real)

  datatype Fairness = Fairness(threshold: int, maxTimeslice: int, preemption: bool)

  datatype Policy = PriorityAge | LongestPrefix | ThroughputBalanced

  datatype Config = Config(maxSize: nat, maxTokens: nat, policy: Policy, fairness: Fairness)

  type Heap = map<Ptr, Request>

  datatype Item = Item(ptr: Ptr, fromDecode: bool, index: nat)

  function Get(heap: Heap, p: Ptr): Request {
    if p in heap then heap[p] else Request(0, 0, false, -1, 0, 0, 0, 0.0, 0.0)
  }

  // ---- cost ----

  /** The slice the fairness pass gives a request below the threshold. */
  function Slice(r: Request, f: Fairness): int {
    if r.remaining > 0 then Min(f.maxTimeslice, r.remaining) else f.maxTimeslice
  }

  function PredictedSlice(r: Request, f: Fairness): int {
    if r.timeslice <= 0 && f.maxTimeslice > 0 && r.priority < f.threshold then Slice(r, f) else r.timeslice
  }

  function Cost(r: Request, fromDecode: bool, f: Fairness): (c: nat)
    ensures c >= 1
  {
    if !fromDecode then Max(1, if r.stateless then r.prompt + Max(1, r.maxTokens) else r.prompt)
    else
      var limit := if r.maxTokens <= 0 then 1 else r.maxTokens;
      var left := if r.remaining >= 0 then Min(limit, r.remaining) else limit;
      var slice := PredictedSlice(r, f);
      Max(1, if slice > 0 then Min(left, slice) else left)
  }

  /** FairnessController::ApplyTimeslice on one entry. */
  function Timesliced(r: Request, f: Fairness): Request {
    if f.maxTimeslice <= 0 || r.priority >= f.threshold then r else r.(timeslice := Slice(r, f))
  }

  /** The charge made before the fairness pass is the charge its slice implies,
      and a decode is never charged beyond its remaining budget. */
  lemma CostPredictsTheTimeslice(r: Request, f: Fairness)
    requires r.timeslice <= 0
    ensures Cost(r, true, f) == Cost(Timesliced(r, f), true, f)
    ensures Cost(r, true, f) <= Max(1, r.maxTokens)
    ensures r.remaining >= 1 ==> Cost(r, true, f) <= r.remaining
  {
  }

  /** A prefill is charged its prompt, and a stateless one its whole budget too. */
  lemma PrefillCosts(r: Request, f: Fairness)
    ensures Cost(r, false, f) >= r.prompt
    ensures !r.stateless ==> Cost(r, false, f) == Max(1, r.prompt)
    ensures r.stateless ==> Cost(r, false, f) == r.prompt + Max(1, r.maxTokens)
  {
  }

  /** What bounds one decode pass: the request's limit, what is left of its budget,
      and its slice: the one it has, or the one it is about to be given. */
  ghost function DecodeBounds(r: Request, f: Fairness): set<int> {
    {r.maxTokens}
    + (if r.remaining >= 0 then {r.remaining} else {})
    + (if r.timeslice > 0 then {r.timeslice} else {})
    + (if r.timeslice <= 0 && f.maxTimeslice > 0 && r.priority < f.threshold then {f.maxTimeslice} else {})
  }

  /** A decode is charged the smallest of its bounds, and at least one token. */
  lemma DecodeCosts(r: Request, f: Fairness)
    ensures forall bound :: bound in DecodeBounds(r, f) ==> Cost(r, true, f) <= Max(1, bound)
    ensures exists bound :: bound in DecodeBounds(r, f) && Cost(r, true, f) == Max(1, bound)
  {
    var limit := r.maxTokens;
    var c := Cost(r, true, f);
    assert limit in DecodeBounds(r, f);
    assert r.remaining >= 0 ==> r.remaining in DecodeBounds(r, f);
    var slice := PredictedSlice(r, f);
    assert r.timeslice > 0 ==> r.timeslice in DecodeBounds(r, f);
    assert r.timeslice <= 0 && f.maxTimeslice > 0 && r.priority < f.threshold ==> f.maxTimeslice in DecodeBounds(r, f);
    assert c == Max(1, limit) || c == Max(1, r.remaining) || c == Max(1, r.timeslice) || c == Max(1, f.maxTimeslice);
  }

  /** The fairness pass slices exactly the requests below the threshold, to the
      smaller of the slice and what is left of their budget, and changes nothing else. */
  lemma TimesliceFacts(r: Request, f: Fairness)
    ensures var t := Timesliced(r, f);
            && t == r.(timeslice := t.timeslice)
            && (f.maxTimeslice <= 0 || r.priority >= f.threshold ==> t == r)
            && (f.maxTimeslice > 0 && r.priority < f.threshold ==>
                  && 1 <= t.timeslice <= f.maxTimeslice && (r.remaining > 0 ==> t.timeslice <= r.remaining)
                  && (t.timeslice == f.maxTimeslice || t.timeslice == r.remaining))
  {
  }

  // ---- ranking ----

  function Score(r: Request, policy: Policy, now: real): real {
    var aged := r.priority as real + (now - r.enqueuedAt) / 2000.0;
    match policy
    case PriorityAge => aged
    case LongestPrefix => aged + r.affinity / 32.0
    case ThroughputBalanced => aged + r.affinity / 64.0
  }

  predicate Outranks(a: Request, b: Request, policy: Policy, now: real) {
    var sa, sb := Score(a, policy, now), Score(b, policy, now);
    if sa != sb then sa > sb else a.sequence < b.sequence
  }

  /** One priority level is worth two seconds of waiting, or 32 tokens of shared
      prefix, or 64 of them, by the policy; the earlier arrival wins a tie. */
  lemma OutranksIff(a: Request, b: Request, policy: Policy, now: real)
    ensures var levels := (a.priority - b.priority) as real;
            var waited := b.enqueuedAt - a.enqueuedAt;
            var shared := a.affinity - b.affinity;
            var lead := match policy
              case PriorityAge => 64000.0 * levels + 32.0 * waited
              case LongestPrefix => 64000.0 * levels + 32.0 * waited + 2000.0 * shared
              case ThroughputBalanced => 64000.0 * levels + 32.0 * waited + 1000.0 * shared;
            Outranks(a, b, policy, now) <==> lead > 0.0 || (lead == 0.0 && a.sequence < b.sequence)
  {
  }

  predicate Before(heap: Heap, policy: Policy, now: real, a: Item, b: Item) {
    Outranks(Get(heap, a.ptr), Get(heap, b.ptr), policy, now)
  }

  function Insert(heap: Heap, policy: Policy, now: real, x: Item, sorted: seq<Item>): (r: seq<Item>) {
    if sorted == [] then [x]
    else if !Before(heap, policy, now, x, sorted[|sorted| - 1]) then sorted + [x]
    else Insert(heap, policy, now, x, sorted[..|sorted| - 1]) + [sorted[|sorted| - 1]]
  }

  /** The stable sort, as insertion from the left. */
  function Rank(heap: Heap, policy: Policy, now: real, items: seq<Item>): (r: seq<Item>) {
    if items == [] then []
    else Insert(heap, policy, now, items[|items| - 1], Rank(heap, policy, now, items[..|items| - 1]))
  }

  ghost predicate Ordered(heap: Heap, policy: Policy, now: real, items: seq<Item>) {
    forall i, j :: 0 <= i < j < |items| ==> !Before(heap, policy, now, items[j], items[i])
  }

  lemma RankingIsAnOrder(heap: Heap, policy: Policy, now: real, a: Item, b: Item, c: Item)
    ensures Before(heap, policy, now, a, b) ==> !Before(heap, policy, now, b, a)
    ensures !Before(heap, policy, now, a, b) && !Before(heap, policy, now, b, c) ==> !Before(heap, policy, now, a, c)
  {
  }

  lemma {:induction false} InsertAdds(heap: Heap, policy: Policy, now: real, x: Item, sorted: seq<Item>)
    ensures multiset(Insert(heap, policy, now, x, sorted)) == multiset(sorted) + multiset{x}
  {
    hide Before;
    if sorted != [] {
      var front := sorted[..|sorted| - 1];
      assert sorted == front + [sorted[|sorted| - 1]];
      InsertAdds(heap, policy, now, x, front);
    }
  }

  lemma {:induction false} InsertOrders(heap: Heap, policy: Policy, now: real, x: Item, sorted: seq<Item>)
    requires Ordered(heap, policy, now, sorted)
    ensures Ordered(heap, policy, now, Insert(heap, policy, now, x, sorted))
  {
    hide Before;
    if sorted != [] {
      var front, last := sorted[..|sorted| - 1], sorted[|sorted| - 1];
      if !Before(heap, policy, now, x, last) {
        forall i | 0 <= i < |sorted|
          ensures !Before(heap, policy, now, x, sorted[i])
        {
          RankingIsAnOrder(heap, policy, now, x, last, sorted[i]);
        }
      } else {
        InsertOrders(heap, policy, now, x, front);
        var s := Insert(heap, policy, now, x, front);
        forall i | 0 <= i < |s|
          ensures !Before(heap, policy, now, last, s[i])
        {
          InsertedAfter(heap, policy, now, x, sorted, s[i]);
        }
      }
    }
  }

  lemma InsertedAfter(heap: Heap, policy: Policy, now: real, x: Item, sorted: seq<Item>, y: Item)
    requires sorted != [] && Ordered(heap, policy, now, sorted) && Before(heap, policy, now, x, sorted[|sorted| - 1])
    requires y in Insert(heap, policy, now, x, sorted[..|sorted| - 1])
    ensures !Before(heap, policy, now, sorted[|sorted| - 1], y)
  {
    hide Before;
    var front := sorted[..|sorted| - 1];
    InsertAdds(heap, policy, now, x, front);
    assert y in multiset(Insert(heap, policy, now, x, front));
    RankingIsAnOrder(heap, policy, now, x, sorted[|sorted| - 1], x);
    if y != x { assert y in front; }
  }

  lemma {:induction false} RankFacts(heap: Heap, policy: Policy, now: real, items: seq<Item>)
    ensures Ordered(heap, policy, now, Rank(heap, policy, now, items))
    ensures multiset(Rank(heap, policy, now, items)) == multiset(items)
  {
    if items != [] {
      var front := items[..|items| - 1];
      assert items == front + [items[|items| - 1]];
      RankFacts(heap, policy, now, front);
      InsertOrders(heap, policy, now, items[|items| - 1], Rank(heap, policy, now, front));
      InsertAdds(heap, policy, now, items[|items| - 1], Rank(heap, policy, now, front));
    }
  }

  // ---- selection ----

  function ItemCost(heap: Heap, c: Config, x: Item): (r: nat)
    ensures r >= 1
  {
    Cost(Get(heap, x.ptr), x.fromDecode, c.fairness)
  }

  function Total(heap: Heap, c: Config, items: seq<Item>): nat {
    if items == [] then 0 else Total(heap, c, items[..|items| - 1]) + ItemCost(heap, c, items[|items| - 1])
  }

  function Pick(heap: Heap, c: Config, ranked: seq<Item>, chosen: seq<Item>, used: nat): (r: seq<Item>)
    decreases |ranked|
  {
    if ranked == [] then chosen
    else
      var cost := ItemCost(heap, c, ranked[0]);
      if chosen != [] && used + cost > c.maxTokens then Pick(heap, c, ranked[1..], chosen, used)
      else if |chosen| + 1 >= c.maxSize then chosen + [ranked[0]]
      else Pick(heap, c, ranked[1..], chosen + [ranked[0]], used + cost)
  }

  /** The prompt tokens a batch brings in, with one token for every decode. */
  function Widths(heap: Heap, items: seq<Item>): nat {
    if items == [] then 0
    else
      var x := items[|items| - 1];
      Widths(heap, items[..|items| - 1]) + (if x.fromDecode then 1 else Get(heap, x.ptr).prompt)
  }

  lemma {:induction false} WidthsAreCharged(heap: Heap, c: Config, items: seq<Item>)
    ensures Widths(heap, items) <= Total(heap, c, items)
  {
    if items != [] {
      var n := |items| - 1;
      WidthsAreCharged(heap, c, items[..n]);
      PrefillCosts(Get(heap, items[n].ptr), c.fairness);
    }
  }

  predicate Within(heap: Heap, c: Config, items: seq<Item>) {
    |items| <= c.maxSize && (Total(heap, c, items) <= c.maxTokens || |items| <= 1)
  }

  /** x was considered after the first k chosen and did not fit behind them. */
  ghost predicate Overflows(heap: Heap, c: Config, now: real, chosen: seq<Item>, x: Item, k: nat) {
    && 0 < k <= |chosen|
    && Total(heap, c, chosen[..k]) + ItemCost(heap, c, x) > c.maxTokens
    && forall i :: 0 <= i < k ==> !Before(heap, c.policy, now, x, chosen[i])
  }

  /** Why a request was left behind: the batch was full of requests it does not
      outrank, or it overflowed the budget behind such requests. */
  ghost predicate LeftForAReason(heap: Heap, c: Config, now: real, chosen: seq<Item>, x: Item) {
    || (|chosen| >= c.maxSize && forall i :: 0 <= i < |chosen| ==> !Before(heap, c.policy, now, x, chosen[i]))
    || exists k :: Overflows(heap, c, now, chosen, x, k)
  }

  lemma {:induction false} TotalGrows(heap: Heap, c: Config, items: seq<Item>, k: nat)
    requires k <= |items|
    ensures Total(heap, c, items[..k]) <= Total(heap, c, items)
  {
    if k < |items| {
      TotalGrows(heap, c, items[..|items| - 1], k);
      assert items[..|items| - 1][..k] == items[..k];
    } else {
      assert items[..k] == items;
    }
  }

  /** The limits hold, and the batch has only what was offered. */
  lemma {:induction false} PickLimits(heap: Heap, c: Config, ranked: seq<Item>, chosen: seq<Item>, used: nat)
    requires c.maxSize >= 1 && |chosen| < c.maxSize && used == Total(heap, c, chosen) && Within(heap, c, chosen)
    ensures var r := Pick(heap, c, ranked, chosen, used);
            chosen <= r && Within(heap, c, r) && (ranked != [] ==> r != []) && forall x :: x in r ==>
                x in chosen || x in ranked
    decreases |ranked|
  {
    hide ItemCost;
    if ranked != [] {
      var x := ranked[0];
      assert ranked == [x] + ranked[1..];
      assert (chosen + [x])[..|chosen|] == chosen;
      if chosen != [] && used + ItemCost(heap, c, x) > c.maxTokens {
        PickLimits(heap, c, ranked[1..], chosen, used);
      } else if |chosen| + 1 < c.maxSize {
        PickLimits(heap, c, ranked[1..], chosen + [x], used + ItemCost(heap, c, x));
      }
    }
  }

  lemma SkippedForAReason(heap: Heap, c: Config, now: real, ranked: seq<Item>, chosen: seq<Item>, r: seq<Item>)
    requires ranked != [] && chosen != [] && chosen <= r && Ordered(heap, c.policy, now, chosen + ranked)
    requires Total(heap, c, chosen) + ItemCost(heap, c, ranked[0]) > c.maxTokens
    ensures LeftForAReason(heap, c, now, r, ranked[0])
  {
    hide Before, ItemCost, Total;
    var x := ranked[0];
    assert r[..|chosen|] == chosen;
    forall i | 0 <= i < |chosen|
      ensures !Before(heap, c.policy, now, x, r[i])
    {
      assert (chosen + ranked)[|chosen|] == x && (chosen + ranked)[i] == r[i];
    }
    assert Overflows(heap, c, now, r, x, |chosen|);
  }

  lemma FullForAReason(heap: Heap, c: Config, now: real, rest: seq<Item>, r: seq<Item>, y: Item)
    requires |r| >= c.maxSize && Ordered(heap, c.policy, now, r + rest) && y in rest
    ensures LeftForAReason(heap, c, now, r, y)
  {
    hide Before, ItemCost, Total;
    var j :| 0 <= j < |rest| && rest[j] == y;
    forall i | 0 <= i < |r|
      ensures !Before(heap, c.policy, now, y, r[i])
    {
      assert (r + rest)[|r| + j] == y && (r + rest)[i] == r[i];
    }
  }

  /** Everything left behind was left for a reason. */
  lemma {:induction false} PickReasons(heap: Heap, c: Config, now: real, ranked: seq<Item>, chosen: seq<Item>,
      used: nat, y: Item)
    requires used == Total(heap, c, chosen) && Ordered(heap, c.policy, now, chosen + ranked)
    requires y in ranked && y !in Pick(heap, c, ranked, chosen, used)
    ensures LeftForAReason(heap, c, now, Pick(heap, c, ranked, chosen, used), y)
    decreases |ranked|
  {
    hide Before, ItemCost, LeftForAReason;
    var x, rest := ranked[0], ranked[1..];
    assert ranked == [x] + rest;
    var cost := ItemCost(heap, c, x);
    var r := Pick(heap, c, ranked, chosen, used);
    if chosen != [] && used + cost > c.maxTokens {
      if y in rest {
        SkipKeepsOrder(heap, c.policy, now, chosen, x, rest);
        PickReasons(heap, c, now, rest, chosen, used, y);
      } else {
        PickExtends(heap, c, ranked, chosen, used);
        SkippedForAReason(heap, c, now, ranked, chosen, r);
      }
    } else {
      assert (chosen + [x])[..|chosen|] == chosen;
      assert chosen + [x] + rest == chosen + ranked;
      if |chosen| + 1 < c.maxSize {
        PickExtends(heap, c, rest, chosen + [x], used + cost);
        assert r[|chosen|] == x;
        PickReasons(heap, c, now, rest, chosen + [x], used + cost, y);
      } else {
        assert r[|chosen|] == x;
        FullForAReason(heap, c, now, rest, r, y);
      }
    }
  }

  lemma SkipKeepsOrder(heap: Heap, policy: Policy, now: real, chosen: seq<Item>, x: Item, rest: seq<Item>)
    requires Ordered(heap, policy, now, chosen + ([x] + rest))
    ensures Ordered(heap, policy, now, chosen + rest)
  {
    hide Before;
    var whole, part := chosen + ([x] + rest), chosen + rest;
    forall i, j | 0 <= i < j < |part| ensures !Before(heap, policy, now, part[j], part[i]) {
      var i', j' := if i < |chosen| then i else i + 1, if j < |chosen| then j else j + 1;
      assert part[i] == whole[i'] && part[j] == whole[j'];
    }
  }

  /** When the batch is not full, everything left behind would overflow it. */
  lemma NotFullMeansNothingFits(heap: Heap, c: Config, now: real, chosen: seq<Item>, x: Item)
    requires |chosen| < c.maxSize && LeftForAReason(heap, c, now, chosen, x)
    ensures Total(heap, c, chosen) + ItemCost(heap, c, x) > c.maxTokens
  {
    var k :| Overflows(heap, c, now, chosen, x, k);
    TotalGrows(heap, c, chosen, k);
  }

  predicate Distinct(items: seq<Item>) { forall i, j :: 0 <= i < j < |items| ==> items[i].ptr != items[j].ptr }

  /** The batch keeps the ranking and holds no request twice. */
  lemma {:induction false} PickKeepsOrder(heap: Heap, c: Config, now: real, ranked: seq<Item>, chosen: seq<Item>,
      used: nat)
    requires Ordered(heap, c.policy, now, chosen + ranked) && Distinct(chosen + ranked)
    ensures var r := Pick(heap, c, ranked, chosen, used);
            Ordered(heap, c.policy, now, r) && Distinct(r)
    decreases |ranked|
  {
    hide Before, ItemCost;
    if ranked == [] {
      assert chosen + ranked == chosen;
    } else {
      var x, rest := ranked[0], ranked[1..];
      assert ranked == [x] + rest;
      var cost := ItemCost(heap, c, x);
      if chosen != [] && used + cost > c.maxTokens {
        SkipKeepsOrder(heap, c.policy, now, chosen, x, rest);
        SkipKeepsDistinct(chosen, x, rest);
        PickKeepsOrder(heap, c, now, rest, chosen, used);
      } else {
        assert chosen + [x] + rest == chosen + ranked;
        if |chosen| + 1 < c.maxSize {
          PickKeepsOrder(heap, c, now, rest, chosen + [x], used + cost);
        } else {
          assert forall i :: 0 <= i < |chosen| + 1 ==> (chosen + [x])[i] == (chosen + ranked)[i];
        }
      }
    }
  }

  lemma SkipKeepsDistinct(chosen: seq<Item>, x: Item, rest: seq<Item>)
    requires Distinct(chosen + ([x] + rest))
    ensures Distinct(chosen + rest)
  {
    var whole, part := chosen + ([x] + rest), chosen + rest;
    forall i, j | 0 <= i < j < |part| ensures part[i].ptr != part[j].ptr {
      var i', j' := if i < |chosen| then i else i + 1, if j < |chosen| then j else j + 1;
      assert part[i] == whole[i'] && part[j] == whole[j'];
    }
  }

  lemma {:induction false} DistinctOnce(items: seq<Item>, x: Item)
    requires Distinct(items)
    ensures multiset(items)[x] <= 1
  {
    if items != [] {
      var n := |items| - 1;
      assert items == items[..n] + [items[n]];
      DistinctOnce(items[..n], x);
      assert items[n] == x ==> x !in items[..n];
    }
  }

  lemma PermutedDistinct(items: seq<Item>, r: seq<Item>)
    requires Distinct(items) && multiset(r) == multiset(items)
    ensures Distinct(r)
  {
    forall i, j | 0 <= i < j < |r| ensures r[i].ptr != r[j].ptr {
      assert r[i] in multiset(items) && r[j] in multiset(items);
      DistinctOnce(items, r[i]);
      assert r == r[..i] + [r[i]] + r[i + 1..j] + [r[j]] + r[j + 1..];
      assert r[i] == r[j] ==> multiset(r)[r[i]] >= 2;
    }
  }

  lemma RankedFacts(heap: Heap, policy: Policy, now: real, items: seq<Item>)
    requires Distinct(items)
    ensures var ranked := Rank(heap, policy, now, items);
            Ordered(heap, policy, now, ranked) && Distinct(ranked) && (forall x :: x in ranked <==> x in items) &&
                (ranked == [] <==> items == [])
  {
    hide Rank;
    var ranked := Rank(heap, policy, now, items);
    RankFacts(heap, policy, now, items);
    PermutedDistinct(items, ranked);
    forall x ensures x in ranked <==> x in items { assert x in multiset(ranked) <==> x in multiset(items); }
    if items != [] { assert items[0] in ranked; }
    if ranked != [] { assert ranked[0] in items; }
  }

  lemma ReasonsFromNothing(heap: Heap, c: Config, now: real, ranked: seq<Item>)
    requires Ordered(heap, c.policy, now, ranked)
    ensures var r := Pick(heap, c, ranked, [], 0);
            forall x :: x in ranked && x !in r ==> LeftForAReason(heap, c, now, r, x)
  {
    hide LeftForAReason, Pick, Before;
    assert [] + ranked == ranked;
    var r := Pick(heap, c, ranked, [], 0);
    forall x | x in ranked && x !in r
      ensures LeftForAReason(heap, c, now, r, x)
    {
      PickReasons(heap, c, now, ranked, [], 0, x);
    }
  }

  /** A batch of the ranked items, and what every request left out of it can be
      told. */
  lemma SelectionFacts(heap: Heap, c: Config, now: real, items: seq<Item>)
    requires c.maxSize >= 1 && Distinct(items)
    ensures var r := Pick(heap, c, Rank(heap, c.policy, now, items), [], 0);
            && Within(heap, c, r) && Ordered(heap, c.policy, now, r) && Distinct(r)
            && (items != [] ==> r != [] && forall x :: x in items ==> !Before(heap, c.policy, now, x, r[0]))
            && (forall x :: x in r ==> x in items)
            && (forall x :: x in items && x !in r ==> LeftForAReason(heap, c, now, r, x))
  {
    hide Before, ItemCost, Rank, Pick, LeftForAReason;
    var ranked := Rank(heap, c.policy, now, items);
    RankedFacts(heap, c.policy, now, items);
    assert [] + ranked == ranked;
    PickLimits(heap, c, ranked, [], 0);
    PickKeepsOrder(heap, c, now, ranked, [], 0);
    ReasonsFromNothing(heap, c, now, ranked);
    if items != [] {
      FirstIsTop(heap, c, ranked);
      forall x | x in items ensures !Before(heap, c.policy, now, x, ranked[0]) {
        var k :| 0 <= k < |ranked| && ranked[k] == x;
        RankingIsAnOrder(heap, c.policy, now, x, x, x);
      }
    }
  }

  lemma FirstIsTop(heap: Heap, c: Config, ranked: seq<Item>)
    requires ranked != []
    ensures var r := Pick(heap, c, ranked, [], 0); r != [] && r[0] == ranked[0]
  {
    hide ItemCost;
    if 1 < c.maxSize { PickExtends(heap, c, ranked[1..], [ranked[0]], ItemCost(heap, c, ranked[0])); }
    assert [] + [ranked[0]] == [ranked[0]];
  }

  lemma {:induction false} PickExtends(heap: Heap, c: Config, ranked: seq<Item>, chosen: seq<Item>, used: nat)
    ensures chosen <= Pick(heap, c, ranked, chosen, used)
    decreases |ranked|
  {
    hide ItemCost;
    if ranked != [] {
      PickExtends(heap, c, ranked[1..], chosen, used);
      PickExtends(heap, c, ranked[1..], chosen + [ranked[0]], used + ItemCost(heap, c, ranked[0]));
    }
  }
}
