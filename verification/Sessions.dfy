/** Retained sessions: leases over named entries that outlive requests.

The manager's map enumerates its keys in an arbitrary order, which is therefore
an argument; time is an argument too. A handle stands for one committed session
state.
*/
module Sessions {
  import opened Common

  type Handle = int

  datatype Entry = Entry(state: Option<Handle>, inUse: bool, lastAccess: int, expiresAt: int)

  type Entries = map<string, Entry>

  datatype Result = Result(acquired: bool, state: Option<Handle>, cleanup: seq<Handle>)

  function Listed(state: Option<Handle>): seq<Handle> { if state.Some? then [state.value] else [] }

  /** `order` enumerates the map: every key once. */
  ghost predicate Enumerates(order: seq<string>, entries: Entries) {
    && (forall n :: n in order <==> n in entries)
    && (forall i, j :: 0 <= i < j < |order| ==> order[i] != order[j])
  }

  /** What the eviction scan may return: an idle entry none of the idle ones is
      older than, or nothing when every entry is held. */
  predicate Oldest(entries: Entries, victim: Option<string>) {
    match victim
    case None => forall n :: n in entries ==> entries[n].inUse
    case Some(v) =>
      && v in entries && !entries[v].inUse
      && forall n :: n in entries && !entries[n].inUse ==> entries[v].lastAccess <= entries[n].lastAccess
  }

  function Fresh(now: int, ttl: int): Entry { Entry(None, true, now, now + ttl) }

  function Acquire(entries: Entries, max: nat, ttl: int, name: string, now: int,
      victim: Option<string>): (r: (Entries, Result))
    requires victim.Some? ==> victim.value in entries
  {
    var busy := Result(false, None, []);
    if name == "" then (entries, busy)
    else if name !in entries then
      if |entries| < max then (entries[name := Fresh(now, ttl)], Result(true, None, []))
      else if victim.None? then (entries, busy)
      else ((entries - {victim.value})[name := Fresh(now, ttl)],
          Result(true, None, Listed(entries[victim.value].state)))
    else
      var e := entries[name];
      if e.inUse then (entries, busy)
      else if e.state.Some? && now >= e.expiresAt
          then (entries[name := Fresh(now, ttl)], Result(true, None, Listed(e.state)))
      else (entries[name := Entry(e.state, true, now, now + ttl)], Result(true, e.state, []))
  }

  function Commit(entries: Entries, ttl: int, name: string, state: Handle, now: int): (r: Entries) {
    if name == "" then entries else entries[name := Entry(Some(state), false, now, now + ttl)]
  }

  function Release(entries: Entries, ttl: int, name: string, now: int): (r: Entries) {
    if name == "" || name !in entries then entries
    else if entries[name].state.Some? then entries[name := Entry(entries[name].state, false, now, now + ttl)]
    else entries - {name}
  }

  function Discard(entries: Entries, name: string): (r: Entries) {
    if name == "" || name !in entries then entries else entries[name := entries[name].(state := None)]
  }

  predicate Expired(e: Entry, now: int) { !e.inUse && now >= e.expiresAt }

  /** The collection loop over the names in order. */
  function Sweep(entries: Entries, order: seq<string>, now: int): (r: (Entries, seq<Handle>))
    decreases |order|
  {
    if order == [] then (entries, [])
    else if order[0] !in entries || !Expired(entries[order[0]], now) then Sweep(entries, order[1..], now)
    else
      var (rest, states) := Sweep(entries - {order[0]}, order[1..], now);
      (rest, Listed(entries[order[0]].state) + states)
  }

  function Drained(entries: Entries, order: seq<string>): (r: seq<Handle>) {
    if order == [] then []
    else (if order[0] in entries then Listed(entries[order[0]].state) else []) + Drained(entries, order[1..])
  }

  lemma SweepOne(entries: Entries, order: seq<string>, i: nat, now: int, before: seq<Handle>)
    requires i < |order| && order[i] in entries
    ensures var e := entries[order[i]];
            var (rest, states) := Sweep(entries, order[i..], now);
            if Expired(e, now) then
              && rest == Sweep(entries - {order[i]}, order[i + 1..], now).0
              && before + states == (if e.state.Some? then before + [e.state.value] else before) +
                  Sweep(entries - {order[i]}, order[i + 1..], now).1
            else (rest, states) == Sweep(entries, order[i + 1..], now)
  {
    assert order[i..][1..] == order[i + 1..];
    var e := entries[order[i]];
    if Expired(e, now) {
      var more := Sweep(entries - {order[i]}, order[i + 1..], now).1;
      assert before + (Listed(e.state) + more) == before + Listed(e.state) + more;
      assert before + [] == before;
    }
  }

  /** Exactly who gets a lease, what state comes with it, and what is left to clean
      up: an idle session's state unless it has expired, a new session's none, and the
      state of an expired or evicted one. Without a lease nothing changes. */
  lemma AcquireIff(entries: Entries, max: nat, ttl: int, name: string, now: int, victim: Option<string>)
    requires Oldest(entries, victim)
    ensures var (after, r) := Acquire(entries, max, ttl, name, now, victim);
            var known, full := name in entries, |entries| >= max;
            var expired := known && entries[name].state.Some? && now >= entries[name].expiresAt;
            && (r.acquired <==> name != "" && if known then !entries[name].inUse else !full || victim.Some?)
            && r.state == (if r.acquired && known && !expired then entries[name].state else None)
            && r.cleanup == (if !r.acquired then [] else if expired then [entries[name].state.value]
                             else if !known && full then Listed(entries[victim.value].state) else [])
            && (!r.acquired ==> after == entries)
            && (r.acquired ==>
                  && name in after && after[name] == Entry(r.state, true, now, now + ttl)
                  && forall n :: n != name ==>
                       && (n in after <==> n in entries && !(!known && full && victim == Some(n)))
                       && (n in after ==> after[n] == entries[n]))
  {
  }

  // ---- the manager, in place ----

  class Manager {
    var entries: Entries
    const max: nat
    const ttl: int

    constructor (maxSessions: nat, ttlMs: int)
      ensures entries == map[] && max >= 1 && ttl >= 1
      ensures (maxSessions > 0 ==> max == maxSessions) && (ttlMs > 0 ==> ttl == ttlMs)
    {
      entries := map[];
      max := if maxSessions == 0 then 1 else maxSessions;
      ttl := if ttlMs <= 0 then 1 else ttlMs;
    }

    /** The scan: the first oldest idle entry in enumeration order. */
    method FindEvictionCandidate(order: seq<string>) returns (best: Option<string>)
      requires Enumerates(order, entries)
      ensures Oldest(entries, best)
      ensures best.Some? ==> exists i ::
                && 0 <= i < |order| && order[i] == best.value
                && (forall j :: 0 <= j < i && !entries[order[j]].inUse ==>
                    entries[best.value].lastAccess < entries[order[j]].lastAccess)
    {
      best := None;
      ghost var at := 0;
      for i := 0 to |order|
        invariant forall j :: 0 <= j < |order| ==> order[j] in entries
        invariant best.None? ==> forall j :: 0 <= j < i ==> entries[order[j]].inUse
        invariant best.Some? ==> 0 <= at < i && order[at] == best.value && !entries[best.value].inUse
        invariant best.Some? ==> forall j :: 0 <= j < i && !entries[order[j]].inUse ==>
                    entries[best.value].lastAccess <= entries[order[j]].lastAccess &&
                        (j < at ==> entries[best.value].lastAccess < entries[order[j]].lastAccess)
      {
        var e := entries[order[i]];
        if !e.inUse && (best.None? || e.lastAccess < entries[best.value].lastAccess) {
          best, at := Some(order[i]), i;
        }
      }
      forall n | n in entries ensures exists j :: 0 <= j < |order| && order[j] == n { assert n in order; }
    }

    method AcquireLease(name: string, now: int, order: seq<string>) returns (r: Result, ghost victim: Option<string>)
      requires Enumerates(order, entries)
      modifies this
      ensures Oldest(old(entries), victim)
      ensures (entries, r) == Acquire(old(entries), max, ttl, name, now, victim)
    {
      r := Result(false, None, []);
      var candidate := FindEvictionCandidate(order);
      victim := candidate;
      if name == "" {
        return;
      }
      if name !in entries {
        if |entries| >= max {
          if candidate.None? {
            return;
          }
          r := r.(cleanup := Listed(entries[candidate.value].state));
          entries := entries - {candidate.value};
        }
        entries := entries[name := Entry(None, true, now, now + ttl)];
        r := r.(acquired := true);
        return;
      }
      var e := entries[name];
      if e.inUse {
        return;
      }
      if e.state.Some? && now >= e.expiresAt {
        r := r.(cleanup := [e.state.value]);
        e := e.(state := None);
      }
      entries := entries[name := Entry(e.state, true, now, now + ttl)];
      r := r.(acquired := true, state := e.state);
    }

    method CommitLease(name: string, state: Handle, now: int)
      modifies this
      ensures entries == Commit(old(entries), ttl, name, state, now)
    {
      if name == "" {
        return;
      }
      entries := entries[name := Entry(Some(state), false, now, now + ttl)];
    }

    method ReleaseLease(name: string, now: int)
      modifies this
      ensures entries == Release(old(entries), ttl, name, now)
    {
      if name == "" || name !in entries {
        return;
      }
      if entries[name].state.Some? {
        entries := entries[name := entries[name].(inUse := false, lastAccess := now, expiresAt := now + ttl)];
        return;
      }
      entries := entries - {name};
    }

    method DiscardLeasedState(name: string)
      modifies this
      ensures entries == Discard(old(entries), name)
    {
      if name == "" || name !in entries {
        return;
      }
      entries := entries[name := entries[name].(state := None)];
    }

    method CollectExpired(order: seq<string>, now: int) returns (expired: seq<Handle>)
      requires Enumerates(order, entries)
      modifies this
      ensures (entries, expired) == Sweep(old(entries), order, now)
    {
      expired := [];
      assert order[0..] == order && [] + Sweep(entries, order, now).1 == Sweep(entries, order, now).1;
      for i := 0 to |order|
        invariant forall j :: i <= j < |order| ==> order[j] in entries
        invariant Sweep(entries, order[i..], now).0 == Sweep(old(entries), order, now).0
        invariant expired + Sweep(entries, order[i..], now).1 == Sweep(old(entries), order, now).1
      {
        hide Sweep;
        SweepOne(entries, order, i, now, expired);
        var e := entries[order[i]];
        if !e.inUse && now >= e.expiresAt {
          if e.state.Some? {
            expired := expired + [e.state.value];
          }
          entries := entries - {order[i]};
        }
      }
      assert expired + [] == expired;
    }

    method DrainAll(order: seq<string>) returns (drained: seq<Handle>)
      requires Enumerates(order, entries)
      modifies this
      ensures entries == map[] && drained == Drained(old(entries), order)
    {
      drained := [];
      for i := 0 to |order|
        invariant entries == old(entries) && drained + Drained(entries, order[i..]) == Drained(entries, order)
      {
        assert order[i..][1..] == order[i + 1..];
        assert order[i] in order;
        drained := drained + Listed(entries[order[i]].state);
      }
      entries := map[];
    }
  }
}
