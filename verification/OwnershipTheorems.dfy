/** What the invariant says about every reachable state, in the scheduler's own
terms: reference counts, slot owners, resident tokens and block tables. */
module OwnershipTheorems {
  import opened Common
  import opened SequenceKv
  import opened Ownership
  import opened Balance
  import opened OwnershipInvariant
  import opened OwnershipRuns

  ghost function Reached(pages: nat, slots: nat, events: seq<Event>): State { Run(Start(pages, slots), events) }

  /** The count of every block is the number of references held by admitted
      requests, donated nodes, retained sessions and the admission under way,
      which holds none between admissions. */
  lemma CountsAreOwners(pages: nat, slots: nat, events: seq<Event>, b: Block)
    ensures var s := Reached(pages, slots, events);
            && s.refs[b] == Sum(RequestTables(s))[b] + Sum(DonorTables(s))[b] + Sum(SessionTables(s))[b] +
                multiset(s.flight)[b]
            && (s.frame.None? ==> s.flight == [])
            && (b in s.refs ==> 0 <= b < s.pages)
  {
    StartIsSafe(pages, slots);
    RunKeeps(Start(pages, slots), events);
    hide Placed, Sum, Run;
    var s := Reached(pages, slots, events);
    var o: Owners :| Inv(s, o);
    assert s.refs[b] == Held(s, b);
  }

  // ---- releases ----

  /** Who holds block references; the worker holds the table it is assembling. */
  datatype Holder = OfRequest(id: int) | OfDonor(path: seq<Token>) | OfSession(name: string) | OfWorker

  function Share(s: State, h: Holder): seq<Block> {
    match h
    case OfRequest(id) => if id in s.requests then s.requests[id].blocks else []
    case OfDonor(path) => if path in s.donors then s.donors[path].blocks else []
    case OfSession(name) => if Counted(s, name) then s.sessions[name].kept.value.blocks else []
    case OfWorker => s.flight
  }

  /** The references on block b these holders have together. */
  function Together(s: State, holders: seq<Holder>, b: Block): nat {
    if holders == [] then 0
    else Together(s, holders[..|holders| - 1], b) + multiset(Share(s, holders[|holders| - 1]))[b]
  }

  predicate Apart(holders: seq<Holder>) { forall i, j :: 0 <= i < j < |holders| ==> holders[i] != holders[j] }

  function Ids(holders: seq<Holder>): set<int> { set h | h in holders && h.OfRequest? :: h.id }

  function Paths(holders: seq<Holder>): set<seq<Token>> { set h | h in holders && h.OfDonor? :: h.path }

  function Names(holders: seq<Holder>): set<string> { set h | h in holders && h.OfSession? :: h.name }

  /** The references held by everybody else. */
  ghost function Others(s: State, holders: seq<Holder>, b: Block): nat {
    Sum(RequestTables(s) - Ids(holders))[b] + Sum(DonorTables(s) - Paths(holders))[b] +
        Sum(SessionTables(s) - Names(holders))[b]
    + (if OfWorker in holders then 0 else multiset(s.flight)[b])
  }

  lemma TakeOut<K>(h: map<K, seq<Block>>, out: set<K>, k: K, b: Block)
    requires k !in out
    ensures Sum(h - out)[b] == Sum(h - (out + {k}))[b] + At(h, k)[b]
  {
    var rest := h - out;
    if k in rest { SumSplits(rest, k); assert rest - {k} == h - (out + {k}); } else { assert rest == h - (out + {k}); }
  }

  lemma LastHolder(holders: seq<Holder>)
    requires holders != [] && Apart(holders)
    ensures var front, h := holders[..|holders| - 1], holders[|holders| - 1];
            && Apart(front) && h !in front
            && (if h.OfRequest? then h.id !in Ids(front) && Ids(holders) == Ids(front) + {h.id}
                else Ids(holders) == Ids(front))
            && (if h.OfDonor? then h.path !in Paths(front) && Paths(holders) == Paths(front) + {h.path}
                else Paths(holders) == Paths(front))
            && (if h.OfSession? then h.name !in Names(front) && Names(holders) == Names(front) + {h.name}
                else Names(holders) == Names(front))
            && (OfWorker in holders <==> OfWorker in front || h.OfWorker?)
  {
    var front, h := holders[..|holders| - 1], holders[|holders| - 1];
    assert holders == front + [h];
    assert forall x :: x in holders <==> x in front || x == h;
  }

  lemma EverybodyElse(s: State, b: Block)
    ensures Others(s, [], b) == Held(s, b)
  {
    assert Ids([]) == {} && Paths([]) == {} && Names([]) == {};
    assert RequestTables(s) - {} == RequestTables(s) && DonorTables(s) - {} == DonorTables(s) &&
        SessionTables(s) - {} == SessionTables(s);
  }

  lemma ShareInTables(s: State, h: Holder, b: Block)
    ensures multiset(Share(s, h))[b] ==
              match h
              case OfRequest(id) => At(RequestTables(s), id)[b]
              case OfDonor(path) => At(DonorTables(s), path)[b]
              case OfSession(name) => At(SessionTables(s), name)[b]
              case OfWorker => multiset(s.flight)[b]
  {
  }

  lemma OneOut(s: State, holders: seq<Holder>, b: Block)
    requires holders != [] && Apart(holders)
    ensures var front, h := holders[..|holders| - 1], holders[|holders| - 1];
            Others(s, front, b) == Others(s, holders, b) + multiset(Share(s, h))[b]
  {
    hide Sum, Ids, Paths, Names, Share, RequestTables, DonorTables, SessionTables, At;
    var front, h := holders[..|holders| - 1], holders[|holders| - 1];
    LastHolder(holders);
    ShareInTables(s, h, b);
    match h
    case OfRequest(id) => TakeOut(RequestTables(s), Ids(front), id, b);
    case OfDonor(path) => TakeOut(DonorTables(s), Paths(front), path, b);
    case OfSession(name) => TakeOut(SessionTables(s), Names(front), name, b);
    case OfWorker =>
  }

  lemma {:induction false} HeldInTwoParts(s: State, holders: seq<Holder>, b: Block)
    requires Apart(holders)
    ensures Held(s, b) == Together(s, holders, b) + Others(s, holders, b)
  {
    hide Others, Held;
    if holders == [] {
      EverybodyElse(s, b);
    } else {
      HeldInTwoParts(s, holders[..|holders| - 1], b);
      OneOut(s, holders, b);
    }
  }

  /** Releases are covered: at every moment of every run, any holders, of one kind
      or several, can all release what they hold without taking a reference that
      is not counted or that anybody else relies on. */
  lemma ReleasesAreCovered(pages: nat, slots: nat, events: seq<Event>, holders: seq<Holder>, b: Block)
    requires Apart(holders)
    ensures var s := Reached(pages, slots, events);
            s.refs[b] == Together(s, holders, b) + Others(s, holders, b)
  {
    CountsAreOwners(pages, slots, events, b);
    HeldInTwoParts(Reached(pages, slots, events), holders, b);
  }

  // ---- slots ----

  /** Who could say that slot i is theirs. */
  predicate Claims(s: State, w: Owner, i: nat) {
    i < |s.slots| &&
    match w
    case Nobody => s.slots[i].state.Idle?
    case ByRequest(id) => id in s.requests && s.requests[id].slot == i
    case ByDonor(path) => path in s.donors && s.donors[path].slot == i
    case BySession(name) => Counted(s, name) && s.sessions[name].kept.value.slot == i
    case ByRetirement => exists k :: 0 <= k < |s.deferred| && s.deferred[k].slot == i
    case ByFrame =>
      s.frame.Some? && s.frame.value.stage.Allocated? && !s.frame.value.hit.OwnSession? && s.frame.value.slot == i
  }

  /** Every slot has exactly one owner: it is free, or it belongs to one live
      request, one donor, one retained session, one retirement or the admission
      under way. */
  lemma OneOwner(pages: nat, slots: nat, events: seq<Event>, i: nat)
    ensures var s := Reached(pages, slots, events);
            i < |s.slots| ==> exists w :: Claims(s, w, i) && forall v :: Claims(s, v, i) ==> v == w
  {
    StartIsSafe(pages, slots);
    RunKeeps(Start(pages, slots), events);
    hide Run, Balanced;
    var s := Reached(pages, slots, events);
    var o: Owners :| Inv(s, o);
    if i < |s.slots| {
      OwnerIsUnique(s, o, i);
    }
  }

  lemma OwnerIsUnique(s: State, o: Owners, i: nat)
    requires Placed(s, o, -1) && i < |s.slots|
    ensures Claims(s, o[i], i) && forall v :: Claims(s, v, i) ==> v == o[i]
  {
    assert Owned(s, o, i);
    if o[i].ByRetirement? {
      var l := Lease(i, s.slots[i].generation);
      var k :| 0 <= k < |s.deferred| && s.deferred[k] == l;
    }
    forall v | Claims(s, v, i) ensures v == o[i] {
      match v
      case Nobody =>
      case ByRequest(id) => assert RequestOk(s, o, id);
      case ByDonor(path) => assert DonorOk(s, o, path);
      case BySession(name) => assert SessionOk(s, o, name);
      case ByRetirement =>
      case ByFrame =>
    }
  }

  // ---- resident tokens ----

  /** Prefix reuse never serves the wrong tokens: on every run, what a request
      has prefilled, what a donor offers and what a session kept is exactly what
      their slots hold. */
  lemma SlotsHoldTheirPrompts(pages: nat, slots: nat, events: seq<Event>)
    ensures var s := Reached(pages, slots, events);
            && (forall id :: id in s.requests && s.requests[id].prefilled ==>
                s.requests[id].prompt <= Resident(s.kv, s.requests[id].slot))
            && (forall path :: path in s.donors ==> path <= Resident(s.kv, s.donors[path].slot))
            && (forall name :: Counted(s, name) ==>
                s.sessions[name].kept.value.prompt <= Resident(s.kv, s.sessions[name].kept.value.slot))
  {
    StartIsSafe(pages, slots);
    RunKeeps(Start(pages, slots), events);
    hide Run, Balanced;
    var s := Reached(pages, slots, events);
    var o: Owners :| Inv(s, o);
    forall id | id in s.requests && s.requests[id].prefilled
      ensures s.requests[id].prompt <= Resident(s.kv, s.requests[id].slot)
    {
      assert RequestOk(s, o, id);
      assert s.requests[id].prompt[..|s.requests[id].prompt|] == s.requests[id].prompt;
    }
    forall path | path in s.donors ensures path <= Resident(s.kv, s.donors[path].slot) { assert DonorOk(s, o, path); }
    forall name | Counted(s, name)
      ensures s.sessions[name].kept.value.prompt <= Resident(s.kv, s.sessions[name].kept.value.slot)
    {
      assert SessionOk(s, o, name);
    }
  }

  /** An admitted request's block table covers its whole prompt, with room for at
      least one more token. */
  lemma TablesCoverThePrompt(pages: nat, slots: nat, events: seq<Event>, id: int)
    ensures var s := Reached(pages, slots, events);
            id in s.requests && s.requests[id].slot >= 0 ==>
                TOKENS_PER_BLOCK * |s.requests[id].blocks| > |s.requests[id].prompt|
  {
    StartIsSafe(pages, slots);
    RunKeeps(Start(pages, slots), events);
    hide Run, Balanced;
    var s := Reached(pages, slots, events);
    var o: Owners :| Inv(s, o);
    if id in s.requests { assert RequestOk(s, o, id); }
  }
}
