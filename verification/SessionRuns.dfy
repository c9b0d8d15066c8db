/** Session leases over whole runs in which only a holder commits, discards or
releases: who holds what, and where every committed state ends up. */
module SessionRuns {
  import opened Common
  import opened Balance
  import opened Sessions

  /** The manager's map with the leases handed out so far, and the fate of every
      committed state: given out for cleanup, or given up by its holder (replaced
      by a later commit, or discarded because the holder runs on it). */
  datatype System =
    | System(entries: Entries, leases: map<int, string>, committed: multiset<Handle>, cleaned: multiset<Handle>,
        dropped: multiset<Handle>)

  datatype Event =
    | Acquire(holder: int, name: string, now: int, victim: Option<string>)
    | Commit(holder: int, state: Handle, now: int)
    | Release(holder: int, now: int)
    | Discard(holder: int)
    | Collect(order: seq<string>, now: int)
    | Drain(order: seq<string>)

  datatype Limits = Limits(max: nat, ttl: int)

  function StateOf(entries: Entries, name: string): seq<Handle> {
    if name in entries then Listed(entries[name].state) else []
  }

  ghost function Next(c: Limits, s: System, e: Event): (r: System) {
    match e
    case Acquire(h, name, now, victim) =>
      if h in s.leases || !Oldest(s.entries, victim) then s
      else
        var (entries, result) := Sessions.Acquire(s.entries, c.max, c.ttl, name, now, victim);
        s.(entries := entries, leases := if result.acquired then s.leases[h := name] else s.leases,
           cleaned := s.cleaned + multiset(result.cleanup))
    case Commit(h, state, now) =>
      if h !in s.leases then s
      else s.(entries := Sessions.Commit(s.entries, c.ttl, s.leases[h], state, now), leases := s.leases - {h},
              committed := s.committed + multiset{state},
              dropped := s.dropped + multiset(StateOf(s.entries, s.leases[h])))
    case Release(h, now) =>
      if h !in s.leases then s
      else s.(entries := Sessions.Release(s.entries, c.ttl, s.leases[h], now), leases := s.leases - {h})
    case Discard(h) =>
      if h !in s.leases then s
      else s.(entries := Sessions.Discard(s.entries, s.leases[h]),
          dropped := s.dropped + multiset(StateOf(s.entries, s.leases[h])))
    case Collect(order, now) =>
      if !Enumerates(order, s.entries) then s
      else
        var (entries, states) := Sweep(s.entries, order, now);
        s.(entries := entries, cleaned := s.cleaned + multiset(states))
    case Drain(order) =>
      if !Enumerates(order, s.entries) then s
      else s.(entries := map[], cleaned := s.cleaned + multiset(Drained(s.entries, order)))
  }

  ghost function Run(c: Limits, s: System, events: seq<Event>): (r: System)
    decreases |events|
  {
    if events == [] then s else Run(c, Next(c, s, events[0]), events[1..])
  }

  function Start(): System { System(map[], map[], multiset{}, multiset{}, multiset{}) }

  // ---- leases ----

  ghost predicate Held(leases: map<int, string>, n: string) { exists h :: h in leases && leases[h] == n }

  /** At most one holder per session; exactly the held entries are in use; idle
      entries keep a state; every entry expires one lifetime after its last use;
      the count is within bounds. */
  ghost predicate Leased(c: Limits, s: System) {
    && "" !in s.entries
    && (forall h :: h in s.leases ==> s.leases[h] in s.entries && s.entries[s.leases[h]].inUse)
    && (forall h, j :: h in s.leases && j in s.leases && s.leases[h] == s.leases[j] ==> h == j)
    && (forall n :: n in s.entries && s.entries[n].inUse ==> Held(s.leases, n))
    && (forall n :: n in s.entries && !s.entries[n].inUse ==> s.entries[n].state.Some?)
    && (forall n :: n in s.entries ==> s.entries[n].expiresAt == s.entries[n].lastAccess + c.ttl)
    && |s.entries| <= c.max
  }

  lemma {:induction false} SweepKeeps(entries: Entries, order: seq<string>, now: int)
    ensures var (rest, states) := Sweep(entries, order, now);
            && (forall n :: n in rest <==> n in entries && !(n in order && Expired(entries[n], now)))
            && (forall n :: n in rest ==> rest[n] == entries[n])
            && |rest| <= |entries|
    decreases |order|
  {
    if order != [] {
      var n := order[0];
      if n in entries && Expired(entries[n], now) {
        SweepKeeps(entries - {n}, order[1..], now);
      } else {
        SweepKeeps(entries, order[1..], now);
      }
    }
  }

  /** The entries an acquisition starts from: without the victim when full. */
  function Kept(entries: Entries, max: nat, name: string, victim: Option<string>): Entries {
    if victim.Some? && name !in entries && |entries| >= max then entries - {victim.value} else entries
  }

  lemma AcquireFacts(entries: Entries, c: Limits, name: string, now: int, victim: Option<string>)
    requires Oldest(entries, victim) && |entries| <= c.max && c.max >= 1
    ensures var (entries', r) := Sessions.Acquire(entries, c.max, c.ttl, name, now, victim);
            && (!r.acquired ==> entries' == entries)
            && (r.acquired ==>
                  && name != "" && name in entries' && entries'[name].inUse &&
                      entries'[name].expiresAt == entries'[name].lastAccess + c.ttl && |entries'| <= c.max
                  && entries' == Kept(entries, c.max, name, victim)[name := entries'[name]]
                  && (name in entries ==> !entries[name].inUse))
  {
  }

  lemma KeptFacts(entries: Entries, c: Limits, name: string, victim: Option<string>)
    requires Oldest(entries, victim)
    ensures var kept := Kept(entries, c.max, name, victim);
            && (forall n :: n in kept ==> n in entries && kept[n] == entries[n])
            && (forall n :: n in entries && entries[n].inUse ==> n in kept)
  {
  }

  lemma AcquireKeeps(c: Limits, s: System, h: int, name: string, now: int, victim: Option<string>)
    requires Leased(c, s) && c.max >= 1
    ensures Leased(c, Next(c, s, Acquire(h, name, now, victim)))
  {
    hide Held, Sessions.Acquire, Kept;
    if h !in s.leases && Oldest(s.entries, victim) {
      AcquireFacts(s.entries, c, name, now, victim);
      var (entries, r) := Sessions.Acquire(s.entries, c.max, c.ttl, name, now, victim);
      if r.acquired {
        KeptFacts(s.entries, c, name, victim);
        TakeUpKeeps(c, s, Next(c, s, Acquire(h, name, now, victim)), h, name, entries[name],
            Kept(s.entries, c.max, name, victim));
      }
    }
  }

  /** A new holder on an entry nobody holds, possibly after an idle entry left. */
  lemma TakeUpKeeps(c: Limits, s: System, s': System, h: int, name: string, e: Entry, kept: Entries)
    requires Leased(c, s) && h !in s.leases && name != "" && e.inUse && e.expiresAt == e.lastAccess + c.ttl
    requires s'.leases == s.leases[h := name] && s'.entries == kept[name := e]
    requires forall n :: n in kept ==> n in s.entries && kept[n] == s.entries[n]
    requires forall n :: n in s.entries && s.entries[n].inUse ==> n in kept && n != name
    requires |kept[name := e]| <= c.max
    ensures Leased(c, s')
  {
    forall n | n in s'.entries && s'.entries[n].inUse ensures Held(s'.leases, n) {
      if n == name { assert s'.leases[h] == n; } else {
        assert Held(s.leases, n);
        var j :| j in s.leases && s.leases[j] == n;
        assert s'.leases[j] == n;
      }
    }
  }

  lemma GiveUpKeeps(c: Limits, s: System, s': System, h: int)
    requires Leased(c, s) && h in s.leases && s'.leases == s.leases - {h}
    requires var n := s.leases[h];
             s'.entries == s.entries - {n} ||
             (n in s'.entries && s'.entries == s.entries[n := s'.entries[n]] && !s'.entries[n].inUse &&
                 s'.entries[n].state.Some?
              && s'.entries[n].expiresAt == s'.entries[n].lastAccess + c.ttl)
    ensures Leased(c, s')
  {
    forall m | m in s'.entries && s'.entries[m].inUse ensures Held(s'.leases, m) {
      assert Held(s.leases, m);
      var j :| j in s.leases && s.leases[j] == m;
      assert s'.leases[j] == m;
    }
  }

  lemma DiscardKeeps(c: Limits, s: System, h: int)
    requires Leased(c, s)
    ensures Leased(c, Next(c, s, Discard(h)))
  {
    var s' := Next(c, s, Discard(h));
    if h in s.leases {
      assert s'.entries.Keys == s.entries.Keys;
      assert |s'.entries| == |s'.entries.Keys| && |s.entries| == |s.entries.Keys|;
      forall m | m in s'.entries && s'.entries[m].inUse ensures Held(s'.leases, m) { assert Held(s.leases, m); }
    }
  }

  lemma CollectKeeps(c: Limits, s: System, order: seq<string>, now: int)
    requires Leased(c, s)
    ensures Leased(c, Next(c, s, Collect(order, now)))
  {
    var s' := Next(c, s, Collect(order, now));
    if Enumerates(order, s.entries) {
      SweepKeeps(s.entries, order, now);
      forall m | m in s'.entries && s'.entries[m].inUse ensures Held(s'.leases, m) { assert Held(s.leases, m); }
    }
  }

  /** Draining keeps the leases in order if and only if no lease is out. */
  lemma DrainKeepsIffNothingHeld(c: Limits, s: System, order: seq<string>)
    requires Leased(c, s) && Enumerates(order, s.entries)
    ensures Leased(c, Next(c, s, Drain(order))) <==> s.leases == map[]
  {
    var s' := Next(c, s, Drain(order));
    if s.leases != map[] {
      var h := Element(s.leases.Keys);
      assert s'.leases[h] !in s'.entries;
    }
  }

  /** From then on any held session can get a second holder at once. */
  lemma DrainAdmitsASecondHolder(c: Limits, s: System, order: seq<string>, h: int, j: int, now: int)
    requires Leased(c, s) && Enumerates(order, s.entries) && h in s.leases && j !in s.leases
    ensures var s' := Next(c, Next(c, s, Drain(order)), Acquire(j, s.leases[h], now, None));
            h != j && h in s'.leases && j in s'.leases && s'.leases[h] == s'.leases[j] == s.leases[h]
  {
    assert s.leases[h] in s.entries;
    assert |s.entries| > 0;
  }

  /** Two holders of one session, after a drain in between. */
  lemma DrainBreaksExclusion()
    ensures var s := Run(Limits(1, 1), Start(), [Acquire(1, "a", 0, None), Drain(["a"]), Acquire(2, "a", 0, None)]);
            s.leases == map[1 := "a", 2 := "a"]
  {
    var c := Limits(1, 1);
    var s1 := Next(c, Start(), Acquire(1, "a", 0, None));
    assert s1.entries == map["a" := Fresh(0, 1)] && s1.leases == map[1 := "a"];
    assert Enumerates(["a"], s1.entries);
    var s2 := Next(c, s1, Drain(["a"]));
    assert s2.entries == map[] && s2.leases == map[1 := "a"];
    var s3 := Next(c, s2, Acquire(2, "a", 0, None));
    assert s3.leases == map[1 := "a", 2 := "a"];
    assert [Acquire(2, "a", 0, None)][1..] == [];
    assert [Drain(["a"]), Acquire(2, "a", 0, None)][1..] == [Acquire(2, "a", 0, None)];
    assert [Acquire(1, "a", 0, None), Drain(["a"]), Acquire(2, "a", 0, None)][1..] ==
        [Drain(["a"]), Acquire(2, "a", 0, None)];
  }

  lemma HandBackKeeps(c: Limits, s: System, e: Event)
    requires Leased(c, s) && (e.Commit? || e.Release?)
    ensures Leased(c, Next(c, s, e))
  {
    if e.holder in s.leases { GiveUpKeeps(c, s, Next(c, s, e), e.holder); }
  }

  lemma DrainKeeps(c: Limits, s: System, order: seq<string>)
    requires Leased(c, s) && s.leases == map[]
    ensures Leased(c, Next(c, s, Drain(order)))
  {
    if Enumerates(order, s.entries) { DrainKeepsIffNothingHeld(c, s, order); }
  }

  /** Every event but a drain with leases out keeps the leases in order. */
  lemma StepKeeps(c: Limits, s: System, e: Event)
    requires Leased(c, s) && c.max >= 1 && (e.Drain? ==> s.leases == map[])
    ensures Leased(c, Next(c, s, e))
  {
    hide Leased, Next;
    match e
    case Acquire(h, name, now, victim) => AcquireKeeps(c, s, h, name, now, victim);
    case Commit(h, state, now) => HandBackKeeps(c, s, e);
    case Release(h, now) => HandBackKeeps(c, s, e);
    case Discard(h) => DiscardKeeps(c, s, h);
    case Collect(order, now) => CollectKeeps(c, s, order, now);
    case Drain(order) => DrainKeeps(c, s, order);
  }

  /** Drains happen with no lease out. */
  ghost predicate Orderly(c: Limits, s: System, events: seq<Event>)
    decreases |events|
  {
    events != [] ==> (events[0].Drain? ==> s.leases == map[]) && Orderly(c, Next(c, s, events[0]), events[1..])
  }

  lemma {:induction false} RunKeeps(c: Limits, s: System, events: seq<Event>)
    requires Leased(c, s) && c.max >= 1 && Orderly(c, s, events)
    ensures Leased(c, Run(c, s, events))
    decreases |events|
  {
    if events != [] {
      StepKeeps(c, s, events[0]);
      RunKeeps(c, Next(c, s, events[0]), events[1..]);
    }
  }

  lemma OneHolderPerSession(c: Limits, events: seq<Event>)
    requires c.max >= 1 && Orderly(c, Start(), events)
    ensures Leased(c, Run(c, Start(), events))
  {
    RunKeeps(c, Start(), events);
  }

  /** A held entry is touched by its holder and by a drain only: it is never
      evicted, never expired and never handed to a second holder. */
  lemma HeldEntriesStay(c: Limits, s: System, e: Event, h: int)
    requires Leased(c, s) && c.max >= 1 && h in s.leases && !e.Drain?
    requires !((e.Commit? || e.Release? || e.Discard?) && e.holder == h)
    ensures var s' := Next(c, s, e);
            && h in s'.leases && s'.leases[h] == s.leases[h]
            && s.leases[h] in s'.entries && s'.entries[s.leases[h]] == s.entries[s.leases[h]]
  {
    var n := s.leases[h];
    match e
    case Acquire(j, name, now, victim) =>
      hide Oldest, Sessions.Acquire, Kept;
      if j !in s.leases && Oldest(s.entries, victim) {
        AcquireFacts(s.entries, c, name, now, victim);
        KeptFacts(s.entries, c, name, victim);
      }
    case Collect(order, now) => if Enumerates(order, s.entries) { SweepKeeps(s.entries, order, now); }
    case Commit(j, state, now) => assert j in s.leases ==> s.leases[j] != n;
    case Release(j, now) => assert j in s.leases ==> s.leases[j] != n;
    case Discard(j) => assert j in s.leases ==> s.leases[j] != n;
    case _ =>
  }

  // ---- the fate of committed states ----

  function Tables(entries: Entries): map<string, seq<Handle>> { map n | n in entries :: Listed(entries[n].state) }

  /** Every commit is accounted for: kept in an entry, given out for cleanup, or
      given up by its holder; each exactly as often as it was committed. */
  ghost predicate Accounted(s: System) {
    (forall h :: h in s.leases ==> s.leases[h] != "") && forall x :: Balances(s, x)
  }

  ghost predicate SameBut(entries: Entries, entries': Entries, n: string) {
    forall m :: m != n ==> (m in entries' <==> m in entries) && (m in entries ==> entries'[m] == entries[m])
  }

  lemma TablesStay(entries: Entries, entries': Entries, n: string)
    requires SameBut(entries, entries', n)
    ensures Tables(entries') - {n} == Tables(entries) - {n}
  {
    var h, h' := Tables(entries) - {n}, Tables(entries') - {n};
    forall m
      ensures (m in h' <==> m in h) && (m in h ==> h'[m] == h[m])
    {
      assert m in entries' <==> m in Tables(entries');
    }
    assert h' == h;
  }

  /** Changing one entry moves its old state out and its new state in. */
  lemma Moves(entries: Entries, entries': Entries, n: string, x: Handle)
    requires SameBut(entries, entries', n)
    ensures Sum(Tables(entries'))[x] + multiset(StateOf(entries, n))[x] ==
        Sum(Tables(entries))[x] + multiset(StateOf(entries', n))[x]
  {
    TablesStay(entries, entries', n);
    SumChanges(Tables(entries), Tables(entries'), n);
    assert At(Tables(entries), n) == multiset(StateOf(entries, n));
    assert At(Tables(entries'), n) == multiset(StateOf(entries', n));
  }

  lemma {:induction false} SweepMoves(entries: Entries, order: seq<string>, now: int, x: Handle)
    ensures var (rest, states) := Sweep(entries, order, now);
            Sum(Tables(entries))[x] == Sum(Tables(rest))[x] + multiset(states)[x]
    decreases |order|
  {
    if order != [] {
      var n := order[0];
      if n in entries && Expired(entries[n], now) {
        Moves(entries, entries - {n}, n, x);
        SweepMoves(entries - {n}, order[1..], now, x);
      } else {
        SweepMoves(entries, order[1..], now, x);
      }
    }
  }

  lemma EnumeratesTail(order: seq<string>, entries: Entries)
    requires Enumerates(order, entries) && order != []
    ensures order[0] in entries && order[0] !in order[1..] && Enumerates(order[1..], entries - {order[0]})
  {
    var n, rest := order[0], entries - {order[0]};
    assert n in order;
    forall m ensures m in order[1..] <==> m in rest { assert order == [n] + order[1..]; }
  }

  lemma {:induction false} DrainMoves(entries: Entries, order: seq<string>, x: Handle)
    requires Enumerates(order, entries)
    ensures Sum(Tables(entries))[x] == multiset(Drained(entries, order))[x]
    decreases |order|
  {
    if order == [] {
      assert entries == map[];
      assert Tables(entries) == map[];
    } else {
      var n := order[0];
      assert n in order;
      var rest := entries - {n};
      EnumeratesTail(order, entries);
      hide Sum, Tables, Enumerates;
      Moves(entries, rest, n, x);
      DrainMoves(rest, order[1..], x);
      DrainedElsewhere(entries, order[1..], n);
    }
  }

  lemma {:induction false} DrainedElsewhere(entries: Entries, order: seq<string>, n: string)
    requires n !in order
    ensures Drained(entries - {n}, order) == Drained(entries, order)
  {
    if order != [] { DrainedElsewhere(entries, order[1..], n); }
  }

  ghost predicate Balances(s: System, x: Handle) {
    s.committed[x] == Sum(Tables(s.entries))[x] + s.cleaned[x] + s.dropped[x]
  }

  lemma StepBalances(c: Limits, s: System, e: Event, x: Handle)
    requires Balances(s, x) && forall h :: h in s.leases ==> s.leases[h] != ""
    ensures Balances(Next(c, s, e), x)
  {
    hide Balances, Next;
    match e
    case Acquire(h, name, now, victim) => AcquireBalances(c, s, h, name, now, victim, x);
    case Commit(h, state, now) => HolderMoves(c, s, e, x);
    case Release(h, now) => HolderMoves(c, s, e, x);
    case Discard(h) => HolderMoves(c, s, e, x);
    case Collect(order, now) => CollectBalances(c, s, order, now, x);
    case Drain(order) => DrainBalances(c, s, order, x);
  }

  lemma AcquireBalances(c: Limits, s: System, h: int, name: string, now: int, victim: Option<string>, x: Handle)
    requires Balances(s, x)
    ensures Balances(Next(c, s, Acquire(h, name, now, victim)), x)
  {
    hide Sum, Tables, Oldest, Sessions.Acquire;
    if h !in s.leases && Oldest(s.entries, victim) { AcquireMoves(c, s.entries, name, now, victim, x); }
  }

  lemma CollectBalances(c: Limits, s: System, order: seq<string>, now: int, x: Handle)
    requires Balances(s, x)
    ensures Balances(Next(c, s, Collect(order, now)), x)
  {
    hide Sum, Tables, Enumerates, Sweep;
    if Enumerates(order, s.entries) { SweepMoves(s.entries, order, now, x); }
  }

  lemma DrainBalances(c: Limits, s: System, order: seq<string>, x: Handle)
    requires Balances(s, x)
    ensures Balances(Next(c, s, Drain(order)), x)
  {
    hide Sum, Tables, Enumerates, Drained;
    if Enumerates(order, s.entries) {
      DrainMoves(s.entries, order, x);
      NothingKept(x);
    }
  }

  lemma HolderMoves(c: Limits, s: System, e: Event, x: Handle)
    requires Balances(s, x) && (e.Commit? || e.Release? || e.Discard?)
    requires forall h :: h in s.leases ==> s.leases[h] != ""
    ensures Balances(Next(c, s, e), x)
  {
    hide Sum, Tables, SameBut;
    if e.holder in s.leases {
      OneEntryMoves(c, s, e);
      Moves(s.entries, Next(c, s, e).entries, s.leases[e.holder], x);
    }
  }

  lemma OneEntryMoves(c: Limits, s: System, e: Event)
    requires (e.Commit? || e.Release? || e.Discard?) && e.holder in s.leases
    ensures SameBut(s.entries, Next(c, s, e).entries, s.leases[e.holder])
  {
    hide StateOf;
  }

  lemma NothingKept(x: Handle)
    ensures Sum(Tables(map[]))[x] == 0
  {
    assert Tables(map[]) == map[];
  }

  lemma StepAccounts(c: Limits, s: System, e: Event)
    requires Accounted(s)
    ensures Accounted(Next(c, s, e))
  {
    forall x ensures Balances(Next(c, s, e), x) { StepBalances(c, s, e, x); }
  }

  lemma AcquireMoves(c: Limits, entries: Entries, name: string, now: int, victim: Option<string>, x: Handle)
    requires Oldest(entries, victim)
    ensures var (entries', r) := Sessions.Acquire(entries, c.max, c.ttl, name, now, victim);
            Sum(Tables(entries))[x] == Sum(Tables(entries'))[x] + multiset(r.cleanup)[x]
  {
    hide Sum, Tables;
    var (entries', r) := Sessions.Acquire(entries, c.max, c.ttl, name, now, victim);
    if r.acquired {
      if name !in entries && |entries| >= c.max {
        var rest := entries - {victim.value};
        Moves(entries, rest, victim.value, x);
        Moves(rest, rest[name := Fresh(now, c.ttl)], name, x);
      } else {
        Moves(entries, entries[name := entries'[name]], name, x);
      }
    }
  }

  lemma {:induction false} RunAccounts(c: Limits, s: System, events: seq<Event>)
    requires Accounted(s)
    ensures Accounted(Run(c, s, events))
    decreases |events|
  {
    if events != [] {
      StepAccounts(c, s, events[0]);
      RunAccounts(c, Next(c, s, events[0]), events[1..]);
    }
  }

  /** On every run, drains included: a state committed once is given out for
      cleanup at most once, and once given out no entry offers it again. */
  lemma NoStateIsCleanedTwice(c: Limits, events: seq<Event>, x: Handle)
    requires Run(c, Start(), events).committed[x] <= 1
    ensures var s := Run(c, Start(), events);
            s.cleaned[x] <= 1 && (s.cleaned[x] == 1 ==> forall n :: n in s.entries ==> s.entries[n].state != Some(x))
  {
    forall x { NothingKept(x); }
    RunAccounts(c, Start(), events);
    assert Balances(Run(c, Start(), events), x);
    var s := Run(c, Start(), events);
    if s.cleaned[x] == 1 {
      forall n | n in s.entries ensures s.entries[n].state != Some(x) {
        Moves(s.entries, s.entries - {n}, n, x);
      }
    }
  }

  // ---- what a holder leaves for the next ----

  /** A committed state is what the next holder gets, until its time is over; from then
      on it is given out for cleanup instead. Either way the lease is granted. */
  lemma CommittedComesBack(c: Limits, s: System, h: int, state: Handle, then_: int, name: string, now: int,
      victim: Option<string>)
    requires Leased(c, s) && h in s.leases && s.leases[h] == name
    requires var s1 := Next(c, s, Commit(h, state, then_));
             Oldest(s1.entries, victim)
    ensures var s1 := Next(c, s, Commit(h, state, then_));
            var r := Sessions.Acquire(s1.entries, c.max, c.ttl, name, now, victim).1;
            && h !in s1.leases && !Held(s1.leases, name)
            && r == (if now < then_ + c.ttl then Result(true, Some(state), []) else Result(true, None, [state]))
  {
    var s1 := Next(c, s, Commit(h, state, then_));
    forall j | j in s1.leases ensures s1.leases[j] != name { assert j in s.leases && j != h; }
  }

  /** A holder that releases leaves the state it was given; one that discards first
      leaves nothing, and its entry disappears. */
  lemma ReleasedStaysOrGoes(c: Limits, s: System, h: int, now: int)
    requires Leased(c, s) && h in s.leases
    ensures var name := s.leases[h];
            var released, discarded := Next(c, s, Release(h, now)), Next(c, Next(c, s, Discard(h)), Release(h, now));
            && (if s.entries[name].state.Some?
                then name in released.entries &&
                    released.entries[name] == Entry(s.entries[name].state, false, now, now + c.ttl)
                else name !in released.entries)
            && name !in discarded.entries && h !in released.leases && h !in discarded.leases
  {
  }

  /** A collection takes exactly the idle entries that were last used a lifetime ago or
      more, and leaves the others as they are. */
  lemma CollectedIff(c: Limits, s: System, order: seq<string>, now: int, n: string)
    requires Leased(c, s) && Enumerates(order, s.entries) && n in s.entries
    ensures var s' := Next(c, s, Collect(order, now));
            && (n !in s'.entries <==> !Held(s.leases, n) && now >= s.entries[n].lastAccess + c.ttl)
            && (n in s'.entries ==> s'.entries[n] == s.entries[n])
  {
    hide Leased, Enumerates, Sweep, Held, Oldest, Sessions.Acquire, Drained;
    InTheList(order, s.entries, n);
    IdleMeans(c, s, n);
    SweepKeeps(s.entries, order, now);
  }

  lemma InTheList(order: seq<string>, entries: Entries, n: string)
    requires Enumerates(order, entries) && n in entries
    ensures n in order
  {
  }

  lemma IdleMeans(c: Limits, s: System, n: string)
    requires Leased(c, s) && n in s.entries
    ensures s.entries[n].inUse <==> Held(s.leases, n)
    ensures s.entries[n].expiresAt == s.entries[n].lastAccess + c.ttl
  {
    if Held(s.leases, n) { var h :| h in s.leases && s.leases[h] == n; }
  }
}
