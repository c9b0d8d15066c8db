/** Model ids and the default model, over every interleaving of the router's
locked sections. */
module Router {
  import opened Common
  import opened PolicyText

  datatype Model = Model(path: string, busy: bool)

  /** Live models, ids retired for good, and the default id ("" when there is none). */
  datatype State = State(models: map<string, Model>, retired: set<string>, default_: string)

  function Used(s: State): set<string> { s.models.Keys + s.retired }

  // ---- unique ids ----

  function Base(preferred: string): string { if preferred == "" then "model" else preferred }

  /** The k-th candidate: the base itself, then base-1, base-2, ... */
  function Candidate(base: string, k: nat): string { if k == 0 then base else base + ['-'] + PrintNat(k) }

  lemma CandidatesDiffer(base: string, i: nat, j: nat)
    requires i < j
    ensures Candidate(base, i) != Candidate(base, j)
  {
    hide PrintNat;
    if i == 0 {
      assert |Candidate(base, j)| > |base|;
    } else {
      ValueOfPrint(i);
      ValueOfPrint(j);
      var a, b := Candidate(base, i), Candidate(base, j);
      assert a[|base| + 1..] == PrintNat(i) && b[|base| + 1..] == PrintNat(j);
    }
  }

  /** The first unused candidate. */
  ghost predicate FirstUnused(used: set<string>, base: string, id: string, k: nat) {
    id == Candidate(base, k) && id !in used && forall j :: 0 <= j < k ==> Candidate(base, j) in used
  }

  /** The suffix search ends with the first unused candidate, after at most one more
      probe than there are used ids. */
  method EnsureUniqueId(used: set<string>, preferred: string) returns (id: string, probes: nat)
    ensures 1 <= probes <= |used| + 1
    ensures FirstUnused(used, Base(preferred), id, probes - 1) && id != ""
  {
    var base := Base(preferred);
    id := base;
    var suffix := 1;
    ghost var seen: set<string> := {};
    while id in used
      invariant suffix >= 1 && id == Candidate(base, suffix - 1)
      invariant seen <= used && |seen| == suffix - 1
      invariant forall j :: 0 <= j < suffix - 1 ==> Candidate(base, j) in used
      invariant forall x :: x in seen ==> exists j :: 0 <= j < suffix - 1 && x == Candidate(base, j)
      decreases |used| - |seen|
    {
      if id in seen {
        var j :| 0 <= j < suffix - 1 && id == Candidate(base, j);
        CandidatesDiffer(base, j, suffix - 1);
        assert false;
      }
      FewerBy1(seen, used, id);
      seen := seen + {id};
      id := base + ['-'] + PrintNat(suffix);
      suffix := suffix + 1;
    }
    SmallerSet(seen, used);
    probes := suffix;
  }

  // ---- the locked sections ----

  /** Besides the router's sections, a request takes or drops a model's backend. */
  datatype Event =
    | Register(id: string, stem: string, model: Model, given: string)
    | CommitLoad(preferred: string, model: Model, makeDefault: bool, given: string)
    | Unload(id: string, next: string)
    | SetDefault(id: string)
    | Hold(id: string, busy: bool)

  ghost predicate Assigned(s: State, preferred: string, id: string) {
    exists k :: FirstUnused(Used(s), Base(preferred), id, k)
  }

  function Add(s: State, id: string, m: Model, makeDefault: bool): State {
    State(s.models[id := m], s.retired, if s.default_ == "" || makeDefault then id else s.default_)
  }

  /** A section whose given id or next default is not one the code can choose
      does not happen. */
  ghost function Next(s: State, e: Event): (r: State) {
    match e
    case Register(id, stem, m, given) =>
      if id != "" && id in Used(s) then s
      else if !Assigned(s, if id != "" then id else stem, given) then s
      else Add(s, given, m, false)
    case CommitLoad(preferred, m, makeDefault, given) =>
      if !Assigned(s, preferred, given) then s else Add(s, given, m, makeDefault)
    case Unload(id, next) =>
      if id !in s.models || s.models[id].busy then s
      else
        var rest := s.models - {id};
        if s.default_ != id then State(rest, s.retired + {id}, s.default_)
        else if rest == map[] then State(rest, s.retired + {id}, "")
        else if next in rest then State(rest, s.retired + {id}, next)
        else s
    case SetDefault(id) => if id in s.models then s.(default_ := id) else s
    case Hold(id, busy) => if id in s.models then s.(models := s.models[id := s.models[id].(busy := busy)]) else s
  }

  ghost function Run(s: State, events: seq<Event>): (r: State)
    decreases |events|
  {
    if events == [] then s else Run(Next(s, events[0]), events[1..])
  }

  function Start(): State { State(map[], {}, "") }

  /** Live and retired ids are disjoint, none is empty, and the default is a live
      model exactly when any model is live. */
  ghost predicate Valid(s: State) {
    && s.models.Keys !! s.retired
    && "" !in Used(s)
    && (s.default_ == "" <==> s.models == map[])
    && (s.default_ != "" ==> s.default_ in s.models)
  }

  lemma CandidatesAreNamed(base: string, k: nat)
    requires base != ""
    ensures Candidate(base, k) != ""
  {
    hide PrintNat;
  }

  lemma AssignedIsNew(s: State, preferred: string, id: string)
    requires Assigned(s, preferred, id)
    ensures id !in Used(s) && id != ""
  {
    var k :| FirstUnused(Used(s), Base(preferred), id, k);
    CandidatesAreNamed(Base(preferred), k);
  }

  lemma AddKeeps(s: State, id: string, m: Model, makeDefault: bool)
    requires Valid(s) && id !in Used(s) && id != ""
    ensures Valid(Add(s, id, m, makeDefault)) && Used(Add(s, id, m, makeDefault)) == Used(s) + {id}
  {
    assert id in Add(s, id, m, makeDefault).models;
  }

  /** Every section keeps the invariant, never forgets a used id, and makes live
      only ids that were never used. */
  lemma StepKeeps(s: State, e: Event)
    requires Valid(s)
    ensures var r := Next(s, e);
            && Valid(r) && Used(s) <= Used(r) && s.retired <= r.retired
            && (forall id :: id in r.models && id !in s.models ==> id !in Used(s))
            && (forall id :: id in s.models ==>
                id in r.retired || (id in r.models && r.models[id].path == s.models[id].path))
  {
    hide Assigned;
    match e
    case Register(id, stem, m, given) =>
      if Assigned(s, if id != "" then id else stem, given) {
        AssignedIsNew(s, if id != "" then id else stem, given);
        AddKeeps(s, given, m, false);
      }
    case CommitLoad(preferred, m, makeDefault, given) =>
      if Assigned(s, preferred, given) {
        AssignedIsNew(s, preferred, given);
        AddKeeps(s, given, m, makeDefault);
      }
    case Unload(id, next) =>
      if id in s.models {
        var rest := s.models - {id};
        assert s.models.Keys == rest.Keys + {id};
        if s.default_ != id && s.default_ != "" { assert s.default_ in rest; }
      }
    case SetDefault(id) =>
    case Hold(id, busy) => if id in s.models { assert Next(s, e).models.Keys == s.models.Keys; }
  }

  /** Along every run the invariant holds, and an id that was ever used is from then
      on either still the same live model's or retired: it is never given again. */
  lemma {:induction false} IdsAreNeverReused(s: State, events: seq<Event>, id: string)
    requires Valid(s) && id in Used(s)
    ensures var r := Run(s, events);
            && Valid(r)
            && (id in s.retired ==> id in r.retired && id !in r.models)
            && (id in s.models ==> id in r.retired || (id in r.models && r.models[id].path == s.models[id].path))
    decreases |events|
  {
    hide Next;
    if events != [] {
      StepKeeps(s, events[0]);
      IdsAreNeverReused(Next(s, events[0]), events[1..], id);
    }
  }

  lemma {:induction false} RunKeeps(s: State, events: seq<Event>)
    requires Valid(s)
    ensures Valid(Run(s, events)) && Used(s) <= Used(Run(s, events))
    decreases |events|
  {
    hide Next;
    if events != [] {
      StepKeeps(s, events[0]);
      RunKeeps(Next(s, events[0]), events[1..]);
    }
  }

  lemma DefaultIsLive(events: seq<Event>)
    ensures var s := Run(Start(), events);
            && s.models.Keys !! s.retired
            && (s.default_ in s.models <==> s.models != map[])
            && (s.models == map[] ==> s.default_ == "")
  {
    RunKeeps(Start(), events);
  }

  // ---- in place ----

  class Models {
    var models: map<string, Model>
    var retired: set<string>
    var default_: string

    constructor ()
      ensures View() == Start()
    {
      models, retired, default_ := map[], {}, "";
    }

    function View(): State
      reads this
    {
      State(models, retired, default_)
    }

    method RegisterModel(id: string, stem: string, m: Model) returns (ok: bool, ghost given: string)
      modifies this
      ensures View() == Next(old(View()), Register(id, stem, m, given)) &&
          (ok <==> id == "" || id !in Used(old(View())))
      ensures ok ==> given !in Used(old(View())) && models == old(models)[given := m]
    {
      given := "";
      if id != "" && (id in models || id in retired) {
        return false, "";
      }
      var name, probes := EnsureUniqueId(models.Keys + retired, if id != "" then id else stem);
      given := name;
      assert FirstUnused(Used(View()), Base(if id != "" then id else stem), name, probes - 1);
      models := models[name := m];
      if default_ == "" {
        default_ := name;
      }
      ok := true;
    }

    method CommitLoadedModel(preferred: string, m: Model, makeDefault: bool) returns (id: string)
      modifies this
      ensures View() == Next(old(View()), CommitLoad(preferred, m, makeDefault, id))
      ensures id !in Used(old(View())) && models == old(models)[id := m]
    {
      var probes;
      id, probes := EnsureUniqueId(models.Keys + retired, preferred);
      assert FirstUnused(Used(View()), Base(preferred), id, probes - 1);
      models := models[id := m];
      if default_ == "" || makeDefault {
        default_ := id;
      }
    }

    method UnloadModel(id: string) returns (ok: bool, ghost next: string)
      modifies this
      ensures View() == Next(old(View()), Unload(id, next))
      ensures ok <==> id in old(models) && !old(models)[id].busy
      ensures ok ==> models == old(models) - {id} && retired == old(retired) + {id}
    {
      next := "";
      if id !in models || models[id].busy {
        return false, "";
      }
      retired := retired + {id};
      models := models - {id};
      if default_ == id {
        default_ := "";
        if models != map[] {
          var k :| k in models;
          default_, next := k, k;
        }
      }
      ok := true;
    }

    method SetDefaultModel(id: string) returns (ok: bool)
      modifies this`default_
      ensures View() == Next(old(View()), SetDefault(id)) && (ok <==> id in models)
    {
      ok := id in models;
      if ok {
        default_ := id;
      }
    }
  }

  // ---- the default ----

  /** What each section makes of the default: the first model, one loaded as the
      default or one named becomes it; any other change leaves it alone, except that an
      unloaded default hands over to a live model. */
  lemma DefaultFollows(s: State, e: Event)
    requires Valid(s)
    ensures var r := Next(s, e);
            match e
            case Register(id, stem, m, given) =>
              r.default_ == (if r != s && s.default_ == "" then given else s.default_)
            case CommitLoad(preferred, m, makeDefault, given) =>
              r.default_ == (if r != s && (makeDefault || s.default_ == "") then given else s.default_)
            case Unload(id, next) =>
              (id != s.default_ ==> r.default_ == s.default_) && (r != s ==> r.default_ != id)
            case SetDefault(id) => r.default_ == (if id in s.models then id else s.default_)
            case Hold(id, busy) => r.default_ == s.default_
  {
    hide Assigned;
    if e.Unload? && e.id in s.models { assert e.id !in s.models - {e.id}; }
  }

  /** A load or registration that the code can make succeeds: its id is live with its
      model; an idle model can be unloaded, and is then gone for good; a busy one stays. */
  lemma SectionsTakeEffect(s: State, e: Event)
    requires Valid(s)
    ensures var r := Next(s, e);
            match e
            case Register(id, stem, m, given) =>
              Assigned(s, if id != "" then id else stem, given) && (id == "" || id !in Used(s)) ==>
                given in r.models && r.models == s.models[given := m] && (id != "" ==> given == id)
            case CommitLoad(preferred, m, makeDefault, given) =>
              Assigned(s, preferred, given) ==> given in r.models && r.models == s.models[given := m]
            case Unload(id, next) =>
              id in s.models && !s.models[id].busy &&
                  (id != s.default_ || next in s.models - {id} || s.models - {id} == map[]) ==>
                r.models == s.models - {id} && r.retired == s.retired + {id}
            case Hold(id, busy) => r.models.Keys == s.models.Keys && (id in s.models ==> r.models[id].busy == busy)
            case SetDefault(id) => r.models == s.models && r.retired == s.retired
    ensures forall id, next :: id in s.models && s.models[id].busy ==> Next(s, Unload(id, next)) == s
  {
    hide PrintNat;
    match e
    case Register(id, stem, m, given) =>
      if id != "" && id !in Used(s) && Assigned(s, id, given) {
        var k :| FirstUnused(Used(s), Base(id), given, k);
        assert Candidate(Base(id), 0) == id;
      }
    case _ =>
  }

  /** Candidates: the name itself, then the name with 1, 2, ... behind a dash; a model
      without a name is called model. */
  lemma CandidateNames(name: string)
    requires name != ""
    ensures Candidate(Base(name), 0) == name && Candidate(Base(name), 1) == name + "-1" &&
        Candidate(Base(name), 12) == name + "-12"
    ensures forall k :: k > 0 ==> Candidate(Base(name), k) == name + "-" + PrintNat(k)
    ensures Candidate(Base(""), 0) == "model"
  {
    assert PrintNat(1) == "1" && PrintNat(12) == PrintNat(1) + "2";
    assert "1" + "2" == "12";
    assert name + ['-'] + "1" == name + "-1" && name + ['-'] + "12" == name + "-12";
  }
}
