/** Reconciling the managed models with a registry file: an atomic rejection, then
unloads, then loads, each of which may fail on its own. */
module Registry {
  import opened Common

  datatype Spec = Spec(path: string, id: string, backend: string)

  datatype Call = UnloadCall(path: string) | LoadCall(path: string)

  /** What the world answers: which paths are the same artifact, which unloads
      succeed, and the id each load is given ("" when it fails). */
  datatype World = World(same: set<(string, string)>, unloads: set<string>, loads: map<string, string>)

  function LoadedId(w: World, path: string): string { if path in w.loads then w.loads[path] else "" }

  // ---- the desired set ----

  function Desired(entries: seq<Spec>): (r: map<string, Spec>) {
    if entries == [] then map[]
        else Desired(entries[..|entries| - 1])[entries[|entries| - 1].path := entries[|entries| - 1]]
  }

  /** An entry repeats a path, a given id or an artifact of those before it. */
  predicate Clashes(entries: seq<Spec>, e: Spec, w: World) {
    || (exists i :: 0 <= i < |entries| && entries[i].path == e.path)
    || (e.id != "" && exists i :: 0 <= i < |entries| && entries[i].id == e.id)
    || exists i :: 0 <= i < |entries| && (entries[i].path, e.path) in w.same
  }

  predicate Duplicates(entries: seq<Spec>, w: World) {
    exists k :: 0 <= k < |entries| && Clashes(entries[..k], entries[k], w)
  }

  /** A list has duplicates exactly if two of its entries name the same path, or the same
      id, or the same artifact. */
  lemma DuplicatesAre(entries: seq<Spec>, w: World)
    ensures Duplicates(entries, w) <==>
            exists j, k :: 0 <= j < k < |entries| &&
              (|| entries[j].path == entries[k].path
               || (entries[k].id != "" && entries[j].id == entries[k].id)
               || (entries[j].path, entries[k].path) in w.same)
  {
    if Duplicates(entries, w) {
      var k :| 0 <= k < |entries| && Clashes(entries[..k], entries[k], w);
      var j :| 0 <= j < k && (|| entries[..k][j].path == entries[k].path
                              || (entries[k].id != "" && entries[..k][j].id == entries[k].id)
                              || (entries[..k][j].path, entries[k].path) in w.same);
      assert entries[j] == entries[..k][j];
    }
    if j, k :| 0 <= j < k < |entries| &&
              (|| entries[j].path == entries[k].path
               || (entries[k].id != "" && entries[j].id == entries[k].id)
               || (entries[j].path, entries[k].path) in w.same) {
      assert entries[..k][j] == entries[j];
      assert Clashes(entries[..k], entries[k], w);
    }
  }

  predicate Changed(specs: map<string, Spec>, desired: map<string, Spec>) {
    exists p :: p in specs && p in desired && desired[p] != specs[p]
  }

  predicate Rejected(specs: map<string, Spec>, entries: seq<Spec>, w: World) {
    Duplicates(entries, w) || Changed(specs, Desired(entries))
  }

  /** The wanted paths are the paths listed. */
  lemma {:induction false} DesiredFacts(entries: seq<Spec>, p: string)
    ensures p in Desired(entries) <==> exists i :: 0 <= i < |entries| && entries[i].path == p
  {
    if entries != [] {
      var n := |entries| - 1;
      DesiredFacts(entries[..n], p);
      if i :| 0 <= i < n && entries[..n][i].path == p { assert entries[i].path == p; }
      if i :| 0 <= i < |entries| && entries[i].path == p { assert i == n || entries[..n][i].path == p; }
    }
  }

  // ---- what stays managed ----

  /** A path is managed afterwards if it was and is still wanted, or was and could
      not be unloaded, or is wanted and could be loaded. */
  predicate Managed(old_: map<string, string>, desired: map<string, Spec>, w: World, p: string) {
    if p in old_ then p in desired || p !in w.unloads else p in desired && LoadedId(w, p) != ""
  }

  ghost predicate Enumerates(order: seq<string>, keys: set<string>) {
    (forall p :: p in order <==> p in keys) && (forall i, j :: 0 <= i < j < |order| ==> order[i] != order[j])
  }

  lemma EnumeratesAt(order: seq<string>, keys: set<string>, i: nat)
    requires Enumerates(order, keys) && i < |order|
    ensures order[i] in keys && order[i] !in order[..i]
  {
    assert order[i] in order;
  }

  class ModelRegistry {
    var ids: map<string, string>
    var specs: map<string, Spec>
    var calls: seq<Call>

    constructor ()
      ensures Valid() && ids == map[] && calls == []
    {
      ids, specs, calls := map[], map[], [];
    }

    predicate Valid()
      reads this
    {
      ids.Keys == specs.Keys
    }

    method IsDuplicate(before: seq<Spec>, e: Spec, desired: map<string, Spec>, w: World) returns (duplicate: bool)
      requires desired == Desired(before)
      ensures duplicate <==> Clashes(before, e, w)
    {
      DesiredFacts(before, e.path);
      duplicate := e.path in desired;
      var byId, bySame := false, false;
      for i := 0 to |before|
        invariant byId <==> e.id != "" && exists j :: 0 <= j < i && before[j].id == e.id
        invariant bySame <==> exists j :: 0 <= j < i && (before[j].path, e.path) in w.same
      {
        if e.id != "" && before[i].id == e.id {
          byId := true;
        }
        if (before[i].path, e.path) in w.same {
          bySame := true;
        }
      }
      duplicate := duplicate || byId || bySame;
    }

    /** The duplicate scan and the table of wanted paths. */
    method Collect(entries: seq<Spec>, w: World) returns (ok: bool, desired: map<string, Spec>)
      ensures ok <==> !Duplicates(entries, w)
      ensures ok ==> desired == Desired(entries)
    {
      hide Clashes;
      desired := map[];
      for k := 0 to |entries|
        invariant desired == Desired(entries[..k])
        invariant forall j :: 0 <= j < k ==> !Clashes(entries[..j], entries[j], w)
      {
        var duplicate := IsDuplicate(entries[..k], entries[k], desired, w);
        if duplicate {
          return false, map[];
        }
        assert entries[..k + 1][..k] == entries[..k];
        desired := desired[entries[k].path := entries[k]];
      }
      assert entries[..|entries|] == entries;
      ok := true;
    }

    method UnloadOne(path: string, wanted: bool, w: World) returns (net: int)
      requires Valid() && path in ids
      modifies this
      ensures Valid() && net == |ids| - |old(ids)|
      ensures var gone := if !wanted && path in w.unloads then {path} else {};
              ids == old(ids) - gone && specs == old(specs) - gone
      ensures calls == old(calls) + (if wanted then [] else [UnloadCall(path)])
    {
      net := 0;
      MinusNothing(ids);
      MinusNothing(specs);
      if wanted {
        return;
      }
      calls := calls + [UnloadCall(path)];
      if path in w.unloads {
        net := -1;
        specs := specs - {path};
        ids := ids - {path};
      }
    }

    /** Unload what is no longer wanted; a failed unload stays managed. */
    method UnloadMissing(desired: map<string, Spec>, w: World, order: seq<string>) returns (net: int)
      requires Valid() && Enumerates(order, ids.Keys)
      modifies this
      ensures Valid() && net == |ids| - |old(ids)|
      ensures ids == old(ids) - Gone(order, desired, w) && specs == old(specs) - Gone(order, desired, w)
      ensures calls == old(calls) + Unloads(order, desired)
    {
      hide Gone, Unloads, Enumerates;
      net := 0;
      NoneGone(desired, w);
      MinusNothing(ids);
      MinusNothing(specs);
      for i := 0 to |order|
        invariant Valid() && net == |ids| - |old(ids)|
        invariant ids == old(ids) - Gone(order[..i], desired, w)
        invariant specs == old(specs) - Gone(order[..i], desired, w)
        invariant calls == old(calls) + Unloads(order[..i], desired)
      {
        EnumeratesAt(order, old(ids).Keys, i);
        OneMoreGone(order, i, desired, w);
        ghost var gone, asked := Gone(order[..i], desired, w), Unloads(order[..i], desired);
        ghost var more: set<string> := if order[i] !in desired && order[i] in w.unloads then {order[i]} else {};
        ghost var ask: seq<Call> := if order[i] in desired then [] else [UnloadCall(order[i])];
        MinusMore(old(ids), gone, more);
        MinusMore(old(specs), gone, more);
        PlusAssociates(old(calls), asked, ask);
        var d := UnloadOne(order[i], order[i] in desired, w);
        net := net + d;
      }
      assert order[..|order|] == order;
    }

    method LoadOne(spec: Spec, path: string, w: World) returns (net: int)
      requires Valid()
      modifies this
      ensures Valid() && net == |ids| - |old(ids)|
      ensures var loads := path !in old(ids) && LoadedId(w, path) != "";
              && ids == (if loads then old(ids)[path := LoadedId(w, path)] else old(ids))
              && specs == (if loads then old(specs)[path := spec] else old(specs))
      ensures calls == old(calls) + (if path in old(ids) then [] else [LoadCall(path)])
    {
      net := 0;
      if path in ids {
        return;
      }
      calls := calls + [LoadCall(path)];
      var id := LoadedId(w, path);
      if id == "" {
        return;
      }
      ids := ids[path := id];
      specs := specs[path := spec];
      net := 1;
    }

    /** Load what is wanted and not managed; a failed load stays unmanaged. */
    method LoadWanted(desired: map<string, Spec>, w: World, wanted: seq<string>) returns (net: int)
      requires Valid() && Enumerates(wanted, desired.Keys)
      modifies this
      ensures Valid() && net == |ids| - |old(ids)|
      ensures ids == old(ids) + Got(wanted, old(ids), w)
      ensures forall p :: p in specs ==> if p in old(specs) then specs[p] == old(specs)[p]
          else p in desired && specs[p] == desired[p]
      ensures calls == old(calls) + Loads(wanted, old(ids))
    {
      hide Got, Loads, Enumerates;
      net := 0;
      NoneGot(ids, w);
      for i := 0 to |wanted|
        invariant Valid() && net == |ids| - |old(ids)|
        invariant ids == old(ids) + Got(wanted[..i], old(ids), w)
        invariant forall p :: p in specs ==> if p in old(specs) then specs[p] == old(specs)[p]
            else p in desired && specs[p] == desired[p]
        invariant calls == old(calls) + Loads(wanted[..i], old(ids))
      {
        var path := wanted[i];
        EnumeratesAt(wanted, desired.Keys, i);
        OneMoreGot(wanted, i, old(ids), w);
        ghost var asked := Loads(wanted[..i], old(ids));
        PlusAssociates(old(calls), asked, if path in old(ids) then [] else [LoadCall(path)]);
        var d := LoadOne(desired[path], path, w);
        net := net + d;
      }
      assert wanted[..|wanted|] == wanted;
    }

    /** A rejected pass changes nothing and asks nothing of the router; an accepted
        one leaves exactly the managed paths, and is silent exactly when they
        already were the wanted ones. */
    method ApplyEntries(entries: seq<Spec>, w: World, order: seq<string>, wanted: seq<string>) returns (net: int)
      requires Valid() && Enumerates(order, ids.Keys) && Enumerates(wanted, Desired(entries).Keys)
      modifies this
      ensures Valid() && net == |ids| - |old(ids)|
      ensures Rejected(old(specs), entries, w) ==> ids == old(ids) && specs == old(specs) && calls == old(calls)
      ensures !Rejected(old(specs), entries, w) ==>
                var desired := Desired(entries);
                && Follows(old(ids), ids, old(specs), specs, desired, w)
                && calls == old(calls) + Unloads(order, desired) + Loads(wanted, old(ids))
                && (calls == old(calls) <==> old(ids).Keys == desired.Keys)
    {
      hide Enumerates, Gone, Unloads, Got, Loads, Follows, Duplicates;
      net := 0;
      var ok, desired := Collect(entries, w);
      if !ok {
        return;
      }
      if exists p :: p in specs && p in desired && desired[p] != specs[p] {
        return;
      }
      var gone := UnloadMissing(desired, w, order);
      ghost var kept, keptSpecs, asked := ids, specs, calls;
      var come := LoadWanted(desired, w, wanted);
      net := gone + come;
      Silent(old(ids), kept, desired, w, order, wanted);
      WantedStay(old(ids), kept, desired, w, order, wanted);
      Reconciled(old(ids), kept, ids, old(specs), keptSpecs, specs, desired, w, order, wanted);
      assert calls == old(calls) ==> asked == old(calls);
    }
  }

  // ---- the two loops ----

  ghost function Gone(order: seq<string>, desired: map<string, Spec>, w: World): set<string> {
    set p | p in order && p !in desired && p in w.unloads
  }

  ghost function Unloads(order: seq<string>, desired: map<string, Spec>): (r: seq<Call>) {
    if order == [] then []
    else
      Unloads(order[..|order| - 1], desired) +
      (if order[|order| - 1] in desired then [] else [UnloadCall(order[|order| - 1])])
  }

  lemma MinusNothing<V>(m: map<string, V>)
    ensures m - {} == m
  {
  }

  lemma MinusMore<V>(m: map<string, V>, gone: set<string>, more: set<string>)
    ensures m - (gone + more) == m - gone - more
  {
  }

  lemma PlusAssociates(a: seq<Call>, b: seq<Call>, c: seq<Call>)
    ensures a + b + c == a + (b + c)
  {
  }

  lemma NoneGone(desired: map<string, Spec>, w: World)
    ensures Gone([], desired, w) == {} && Unloads([], desired) == []
  {
  }

  lemma OneMoreGone(order: seq<string>, i: nat, desired: map<string, Spec>, w: World)
    requires i < |order| && order[i] !in order[..i]
    ensures order[i] !in Gone(order[..i], desired, w)
    ensures Gone(order[..i + 1], desired, w) ==
        Gone(order[..i], desired, w) + (if order[i] !in desired && order[i] in w.unloads then {order[i]} else {})
    ensures Unloads(order[..i + 1], desired) ==
        Unloads(order[..i], desired) + (if order[i] in desired then [] else [UnloadCall(order[i])])
  {
    assert order[..i + 1] == order[..i] + [order[i]];
    assert order[..i + 1][..i] == order[..i];
  }

  ghost function Got(wanted: seq<string>, ids: map<string, string>, w: World): map<string, string> {
    map p | p in wanted && p !in ids && LoadedId(w, p) != "" :: LoadedId(w, p)
  }

  ghost function Loads(wanted: seq<string>, ids: map<string, string>): (r: seq<Call>) {
    if wanted == [] then []
    else
      Loads(wanted[..|wanted| - 1], ids) +
      (if wanted[|wanted| - 1] in ids then [] else [LoadCall(wanted[|wanted| - 1])])
  }

  lemma NoneGot(ids: map<string, string>, w: World)
    ensures ids + Got([], ids, w) == ids && Loads([], ids) == []
  {
  }

  lemma OneMoreGot(wanted: seq<string>, i: nat, ids: map<string, string>, w: World)
    requires i < |wanted| && wanted[i] !in wanted[..i]
    ensures wanted[i] in ids + Got(wanted[..i], ids, w) <==> wanted[i] in ids
    ensures ids + Got(wanted[..i + 1], ids, w) ==
              if wanted[i] !in ids && LoadedId(w, wanted[i]) != ""
                  then (ids + Got(wanted[..i], ids, w))[wanted[i] := LoadedId(w, wanted[i])]
                      else ids + Got(wanted[..i], ids, w)
    ensures Loads(wanted[..i + 1], ids) ==
        Loads(wanted[..i], ids) + (if wanted[i] in ids then [] else [LoadCall(wanted[i])])
  {
    assert wanted[..i + 1] == wanted[..i] + [wanted[i]];
    assert wanted[..i + 1][..i] == wanted[..i];
  }

  lemma {:induction false} UnloadsSilent(order: seq<string>, desired: map<string, Spec>)
    ensures Unloads(order, desired) == [] <==> forall p :: p in order ==> p in desired
  {
    if order != [] {
      var n := |order| - 1;
      UnloadsSilent(order[..n], desired);
      AllBut(order, desired.Keys);
    }
  }

  lemma AllBut(order: seq<string>, keys: set<string>)
    requires order != []
    ensures var n := |order| - 1;
            (forall p :: p in order ==> p in keys) <==> (forall p :: p in order[..n] ==> p in keys) && order[n] in keys
  {
    assert order == order[..|order| - 1] + [order[|order| - 1]];
  }

  lemma {:induction false} LoadsSilent(wanted: seq<string>, ids: map<string, string>)
    ensures Loads(wanted, ids) == [] <==> forall p :: p in wanted ==> p in ids
  {
    if wanted != [] {
      var n := |wanted| - 1;
      LoadsSilent(wanted[..n], ids);
      AllBut(wanted, ids.Keys);
    }
  }

  /** The maps afterwards: exactly the managed paths, each with its old id and
      specification, or the new ones. */
  ghost predicate Follows(ids: map<string, string>, ids': map<string, string>, specs: map<string, Spec>,
      specs': map<string, Spec>, desired: map<string, Spec>, w: World)
  {
    && (forall p :: p in ids' <==> Managed(ids, desired, w, p))
    && (forall p :: p in ids' ==> ids'[p] == (if p in ids then ids[p] else LoadedId(w, p)))
    && ids.Keys == specs.Keys && ids'.Keys == specs'.Keys
    && (forall p :: p in specs' ==> if p in specs then specs'[p] == specs[p]
        else p in desired && specs'[p] == desired[p])
  }

  lemma Reconciled(before: map<string, string>, kept: map<string, string>, after: map<string, string>,
                   specs: map<string, Spec>, specs1: map<string, Spec>, specs2: map<string, Spec>,
                   desired: map<string, Spec>, w: World, order: seq<string>, wanted: seq<string>)
    requires Enumerates(order, before.Keys) && Enumerates(wanted, desired.Keys)
    requires before.Keys == specs.Keys && kept.Keys == specs1.Keys && after.Keys == specs2.Keys
    requires kept == before - Gone(order, desired, w) && after == kept + Got(wanted, kept, w) &&
        specs1 == specs - Gone(order, desired, w)
    requires forall p :: p in specs2 ==> if p in specs1 then specs2[p] == specs1[p]
        else p in desired && specs2[p] == desired[p]
    ensures Follows(before, after, specs, specs2, desired, w)
  {
    forall p ensures p in kept <==> p in before && (p in desired || p !in w.unloads) { }
    forall p ensures p in after <==> Managed(before, desired, w, p) { assert p in wanted <==> p in desired.Keys; }
    forall p | p in specs2
      ensures if p in specs then specs2[p] == specs[p] else p in desired && specs2[p] == desired[p]
    {
      assert p in after.Keys;
    }
  }

  lemma Silent(before: map<string, string>, kept: map<string, string>, desired: map<string, Spec>, w: World,
      order: seq<string>, wanted: seq<string>)
    requires Enumerates(order, before.Keys) && Enumerates(wanted, desired.Keys) &&
        kept == before - Gone(order, desired, w)
    ensures Unloads(order, desired) == [] && Loads(wanted, kept) == [] <==> before.Keys == desired.Keys
  {
    UnloadsSilent(order, desired);
    LoadsSilent(wanted, kept);
    hide Unloads, Loads;
    forall p ensures p in kept <==> p in before && (p in desired || p !in w.unloads) { }
    if before.Keys == desired.Keys {
      forall p | p in order ensures p in desired { assert p in before.Keys; }
      forall p | p in wanted ensures p in kept { assert p in desired.Keys; }
    } else if (forall p :: p in order ==> p in desired) && (forall p :: p in wanted ==> p in kept) {
      forall p ensures p in before.Keys <==> p in desired.Keys { }
    }
  }

  /** Nothing wanted is unloaded, so what is loaded is what was not managed before. */
  lemma WantedStay(before: map<string, string>, kept: map<string, string>, desired: map<string, Spec>, w: World,
      order: seq<string>, wanted: seq<string>)
    requires Enumerates(wanted, desired.Keys) && kept == before - Gone(order, desired, w)
    ensures Loads(wanted, kept) == Loads(wanted, before)
  {
    forall p | p in wanted ensures p in kept <==> p in before { assert p in desired.Keys; }
    SameLoads(wanted, kept, before);
  }

  lemma {:induction false} SameLoads(wanted: seq<string>, a: map<string, string>, b: map<string, string>)
    requires forall p :: p in wanted ==> (p in a <==> p in b)
    ensures Loads(wanted, a) == Loads(wanted, b)
  {
    if wanted != [] { SameLoads(wanted[..|wanted| - 1], a, b); }
  }

  /** The router is asked to unload exactly the managed paths that are not wanted, and
      then to load exactly the wanted ones that are not managed, each once and in
      order. */
  lemma CallsAre(order: seq<string>, wanted: seq<string>, ids: map<string, string>, desired: map<string, Spec>)
    requires Enumerates(order, ids.Keys) && Enumerates(wanted, desired.Keys)
    ensures exists at :: Picks(Unloads(order, desired), Asked(order, true), at) && Exactly(order, at, desired.Keys)
    ensures exists at :: Picks(Loads(wanted, ids), Asked(wanted, false), at) && Exactly(wanted, at, ids.Keys)
    ensures forall p :: UnloadCall(p) in Unloads(order, desired) <==> p in ids && p !in desired
    ensures forall p :: LoadCall(p) in Loads(wanted, ids) <==> p in desired && p !in ids
  {
    hide Picks;
    UnloadsInOrder(order, desired);
    LoadsInOrder(wanted, ids);
    forall p ensures UnloadCall(p) in Unloads(order, desired) <==> p in ids && p !in desired {
      UnloadedIff(order, desired, p);
      assert p in ids <==> p in ids.Keys;
    }
    forall p ensures LoadCall(p) in Loads(wanted, ids) <==> p in desired && p !in ids {
      LoadedIff(wanted, ids, p);
      assert p in desired <==> p in desired.Keys;
    }
  }

  /** The call each path would need. */
  function Asked(paths: seq<string>, unload: bool): (r: seq<Call>)
    ensures |r| == |paths|
    ensures forall i :: 0 <= i < |paths| ==> r[i] == if unload then UnloadCall(paths[i]) else LoadCall(paths[i])
  {
    seq(|paths|, i requires 0 <= i < |paths| => if unload then UnloadCall(paths[i]) else LoadCall(paths[i]))
  }

  /** The places of the paths that are not among the keys. */
  predicate Exactly(paths: seq<string>, at: seq<nat>, keys: set<string>) {
    forall i :: 0 <= i < |paths| ==> (i in at <==> paths[i] !in keys)
  }

  lemma PicksOneMore(part: seq<Call>, paths: seq<string>, at: seq<nat>, keys: set<string>, p: string, unload: bool)
    requires Picks(part, Asked(paths, unload), at) && Exactly(paths, at, keys)
    ensures var more := if p in keys then [] else [if unload then UnloadCall(p) else LoadCall(p)];
            var at' := if p in keys then at else at + [|paths|];
            Picks(part + more, Asked(paths + [p], unload), at') && Exactly(paths + [p], at', keys)
  {
    if p in keys {
      assert part + [] == part;
      PicksLonger(part, Asked(paths, unload), at, Asked(paths + [p], unload));
      hide Picks;
    } else {
      PicksLonger(part, Asked(paths, unload), at, Asked(paths + [p], unload));
    }
  }

  lemma PicksLonger(part: seq<Call>, q: seq<Call>, at: seq<nat>, longer: seq<Call>)
    requires Picks(part, q, at) && q <= longer
    ensures Picks(part, longer, at)
    ensures |q| < |longer| ==> Picks(part + [longer[|q|]], longer, at + [|q|])
  {
  }

  lemma NothingAsked(keys: set<string>, unload: bool)
    ensures Picks([], Asked([], unload), []) && Exactly([], [], keys)
  {
  }

  lemma {:induction false} UnloadsInOrder(order: seq<string>, desired: map<string, Spec>)
    ensures exists at :: Picks(Unloads(order, desired), Asked(order, true), at) && Exactly(order, at, desired.Keys)
  {
    hide Picks, Exactly, Asked;
    if order == [] {
      NothingAsked(desired.Keys, true);
    } else {
      var n := |order| - 1;
      UnloadsInOrder(order[..n], desired);
      var at :| Picks(Unloads(order[..n], desired), Asked(order[..n], true), at) &&
          Exactly(order[..n], at, desired.Keys);
      PicksOneMore(Unloads(order[..n], desired), order[..n], at, desired.Keys, order[n], true);
      assert order[..n] + [order[n]] == order;
    }
  }

  lemma {:induction false} LoadsInOrder(wanted: seq<string>, ids: map<string, string>)
    ensures exists at :: Picks(Loads(wanted, ids), Asked(wanted, false), at) && Exactly(wanted, at, ids.Keys)
  {
    hide Picks, Exactly, Asked;
    if wanted == [] {
      NothingAsked(ids.Keys, false);
    } else {
      var n := |wanted| - 1;
      LoadsInOrder(wanted[..n], ids);
      var at :| Picks(Loads(wanted[..n], ids), Asked(wanted[..n], false), at) && Exactly(wanted[..n], at, ids.Keys);
      PicksOneMore(Loads(wanted[..n], ids), wanted[..n], at, ids.Keys, wanted[n], false);
      assert wanted[..n] + [wanted[n]] == wanted;
    }
  }

  lemma {:induction false} UnloadedIff(order: seq<string>, desired: map<string, Spec>, p: string)
    ensures UnloadCall(p) in Unloads(order, desired) <==> p in order && p !in desired
  {
    if order != [] {
      var n := |order| - 1;
      UnloadedIff(order[..n], desired, p);
      assert order == order[..n] + [order[n]];
    }
  }

  lemma {:induction false} LoadedIff(wanted: seq<string>, ids: map<string, string>, p: string)
    ensures LoadCall(p) in Loads(wanted, ids) <==> p in wanted && p !in ids
  {
    if wanted != [] {
      var n := |wanted| - 1;
      LoadedIff(wanted[..n], ids, p);
      assert wanted == wanted[..n] + [wanted[n]];
    }
  }

  /** After a pass in which everything succeeded, applying the same entries again is
      accepted, and finds exactly the wanted paths managed, so it is silent. */
  lemma SecondPassIsQuiet(ids: map<string, string>, ids': map<string, string>, specs: map<string, Spec>,
      specs': map<string, Spec>, entries: seq<Spec>, w: World)
    requires !Rejected(specs, entries, w) && Follows(ids, ids', specs, specs', Desired(entries), w)
    requires var desired := Desired(entries);
             (forall p :: p in ids && p !in desired ==> p in w.unloads) &&
                 (forall p :: p in desired && p !in ids ==> LoadedId(w, p) != "")
    ensures !Rejected(specs', entries, w) && ids'.Keys == Desired(entries).Keys
  {
    var desired := Desired(entries);
    forall p ensures p in ids' <==> p in desired { assert p in ids' <==> Managed(ids, desired, w, p); }
    forall p | p in specs' && p in desired ensures desired[p] == specs'[p] { assert !Changed(specs, desired); }
  }
}
