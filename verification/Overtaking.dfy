/** Bounded overtaking under the priority-and-age ranking, over whole runs of
enqueueing and batch building (unified mode, no preemption, no swapping). */
module Overtaking {
  import opened Common
  import opened BatchBuild
  import opened BatchQueues

  datatype System = System(prefill: seq<Ptr>, decode: seq<Ptr>, heap: Heap)

  /** A request joins a queue (a yielded one joins again with a new time stamp), or
      the worker builds a batch. */
  datatype Event = Enqueue(ptr: Ptr, request: Request, toDecode: bool) | Build(now: real)

  function Pending(s: System): set<Ptr> { Elements(s.prefill + s.decode) }

  function Next(c: Config, s: System, e: Event): (r: System) {
    match e
    case Enqueue(p, request, toDecode) =>
      if p in s.prefill || p in s.decode then s
      else if toDecode then System(s.prefill, s.decode + [p], s.heap[p := request])
      else System(s.prefill + [p], s.decode, s.heap[p := request])
    case Build(now) =>
      var batch := Elements(Ptrs(Batch(s.heap, c, now, s.prefill, s.decode)));
      System(Left(s.prefill, {}, batch), Left(s.decode, Elements(s.prefill), batch), s.heap)
  }

  function Run(c: Config, s: System, events: seq<Event>): (r: System)
    decreases |events|
  {
    if events == [] then s else Run(c, Next(c, s, events[0]), events[1..])
  }

  /** A request not queued yet joins the end of its queue, as it is; one that is queued
      changes nothing. */
  lemma EnqueueJoins(c: Config, s: System, p: Ptr, request: Request, toDecode: bool)
    ensures var s' := Next(c, s, Enqueue(p, request, toDecode));
            && (p in Pending(s) ==> s' == s)
            && (p !in Pending(s) ==>
                  && s'.prefill == s.prefill + (if toDecode then [] else [p])
                  && s'.decode == s.decode + (if toDecode then [p] else [])
                  && Get(s'.heap, p) == request && forall q :: q != p ==> Get(s'.heap, q) == Get(s.heap, q))
  {
    assert s.prefill + [] == s.prefill && s.decode + [] == s.decode;
  }

  /** The ranking of two queued requests does not change with time. */
  lemma RankingIgnoresTime(a: Request, b: Request, now: real, later: real)
    ensures Outranks(a, b, PriorityAge, now) <==> Outranks(a, b, PriorityAge, later)
  {
  }

  /** The latest time stamp that can still outrank r, for priorities up to top. */
  function Bound(r: Request, top: int): real { r.enqueuedAt + 2000.0 * (top - r.priority) as real }

  lemma OnlyTheBoundedOutrank(a: Request, b: Request, now: real, top: int)
    requires a.priority <= top && !Outranks(b, a, PriorityAge, now)
    ensures a.enqueuedAt <= Bound(b, top)
  {
    assert (a.priority - b.priority) as real <= (top - b.priority) as real;
    assert (a.priority - b.priority) as real == a.priority as real - b.priority as real;
  }

  /** The queued requests other than p that may still go before it. */
  ghost function Rivals(s: System, p: Ptr, bound: real): set<Ptr> {
    set q | q in Pending(s) && q != p && Get(s.heap, q).enqueuedAt <= bound
  }

  function Builds(events: seq<Event>): nat {
    if events == [] then 0 else (if events[0].Build? then 1 else 0) + Builds(events[1..])
  }

  function Arrivals(events: seq<Event>, bound: real): nat {
    if events == [] then 0
    else (if events[0].Enqueue? && events[0].request.enqueuedAt <= bound then 1 else 0) + Arrivals(events[1..], bound)
  }

  ghost predicate Ranked(c: Config, s: System, top: int) {
    c.maxSize >= 1 && c.policy == PriorityAge && forall q :: q in Pending(s) ==> Get(s.heap, q).priority <= top
  }

  ghost predicate Bounded(events: seq<Event>, top: int) {
    forall k :: 0 <= k < |events| && events[k].Enqueue? ==> events[k].request.priority <= top
  }

  lemma AtMostOneMore<T>(a: set<T>, b: set<T>, x: T)
    requires forall y :: y in a ==> y in b || y == x
    ensures |a| <= |b| + 1
  {
    SmallerSet(a - {x}, b);
  }

  lemma PendingAfterBuild(c: Config, s: System, now: real, q: Ptr)
    requires c.maxSize >= 1
    ensures q in Pending(Next(c, s, Build(now))) <==>
        q in Pending(s) && q !in Elements(Ptrs(Batch(s.heap, c, now, s.prefill, s.decode)))
  {
    var batch := Elements(Ptrs(Batch(s.heap, c, now, s.prefill, s.decode)));
    LeftFacts(s.prefill, {}, batch);
    LeftFacts(s.decode, Elements(s.prefill), batch);
    hide Batch, Left;
  }

  /** Some pending request that p does not outrank is in the batch. */
  lemma TopIsSelected(c: Config, s: System, now: real, p: Ptr) returns (q: Ptr)
    requires c.maxSize >= 1 && p in Pending(s)
    ensures q in Pending(s) && q in Elements(Ptrs(Batch(s.heap, c, now, s.prefill, s.decode)))
    ensures !Outranks(Get(s.heap, p), Get(s.heap, q), c.policy, now)
  {
    var items := Items(s.prefill, s.decode);
    ItemsFacts(s.prefill, s.decode);
    SelectionFacts(s.heap, c, now, items);
    hide Pick, Rank, Items, Score;
    var batch := Batch(s.heap, c, now, s.prefill, s.decode);
    assert p in s.prefill || p in s.decode;
    var x :| x in items && x.ptr == p;
    assert batch != [] && batch[0] in items;
    q := batch[0].ptr;
    assert Ptrs(batch)[0] == q;
    assert !Before(s.heap, c.policy, now, x, batch[0]);
    assert q in s.prefill || q in s.decode;
  }

  /** A batch that leaves p waiting takes one of its rivals; an arrival adds at
      most one, and only if it is stamped within the bound. */
  lemma StepSpends(c: Config, s: System, e: Event, p: Ptr, top: int)
    requires Ranked(c, s, top) && p in Pending(s) && p in Pending(Next(c, s, e)) &&
        (e.Enqueue? ==> e.request.priority <= top)
    ensures var bound := Bound(Get(s.heap, p), top);
            var s' := Next(c, s, e);
            && Ranked(c, s', top) && Get(s'.heap, p) == Get(s.heap, p)
            && |Rivals(s', p, bound)| + Builds([e]) <= |Rivals(s, p, bound)| + Arrivals([e], bound)
  {
    var bound := Bound(Get(s.heap, p), top);
    var s' := Next(c, s, e);
    var before, after := Rivals(s, p, bound), Rivals(s', p, bound);
    assert [e][1..] == [];
    match e
    case Build(now) =>
      forall q
        ensures q in Pending(s') <==>
            q in Pending(s) && q !in Elements(Ptrs(Batch(s.heap, c, now, s.prefill, s.decode)))
      {
        PendingAfterBuild(c, s, now, q);
      }
      var q := TopIsSelected(c, s, now, p);
      OnlyTheBoundedOutrank(Get(s.heap, q), Get(s.heap, p), now, top);
      FewerBy1(after, before, q);
    case Enqueue(q, request, toDecode) =>
      forall x ensures x in Pending(s') ==> x in Pending(s) || x == q { }
      if q !in s.prefill && q !in s.decode {
        if request.enqueuedAt <= bound { AtMostOneMore(after, before, q); } else { SmallerSet(after, before); }
      }
  }

  /** While p waits, batches are paid for by rivals and arrivals within the bound. */
  lemma {:induction false} RunSpends(c: Config, s: System, events: seq<Event>, p: Ptr, top: int)
    requires Ranked(c, s, top) && Bounded(events, top) && Waits(c, s, events, p)
    ensures var bound := Bound(Get(s.heap, p), top);
            Builds(events) <= |Rivals(s, p, bound)| + Arrivals(events, bound)
    decreases |events|
  {
    if events != [] {
      var e := events[0];
      assert [e][1..] == [];
      StepSpends(c, s, e, p, top);
      assert Bounded(events[1..], top) by {
        assert forall k :: 0 <= k < |events[1..]| ==> events[1..][k] == events[k + 1];
      }
      RunSpends(c, Next(c, s, e), events[1..], p, top);
    }
  }

  /** p is queued now and after each of the events. */
  ghost predicate Waits(c: Config, s: System, events: seq<Event>, p: Ptr)
    decreases |events|
  {
    p in Pending(s) && (events != [] ==> Waits(c, Next(c, s, events[0]), events[1..], p))
  }

  ghost function Stamped(s: System, bound: real): set<Ptr> {
    set q | q in Pending(s) && Get(s.heap, q).enqueuedAt <= bound
  }

  lemma {:induction false} PendingArrived(c: Config, s: System, events: seq<Event>, bound: real)
    requires c.maxSize >= 1
    ensures |Stamped(Run(c, s, events), bound)| <= |Stamped(s, bound)| + Arrivals(events, bound)
    decreases |events|
  {
    if events != [] {
      var e := events[0];
      var s' := Next(c, s, e);
      var before, after := Stamped(s, bound), Stamped(s', bound);
      match e {
        case Build(now) =>
          forall q ensures q in Pending(s') ==> q in Pending(s) { PendingAfterBuild(c, s, now, q); }
          SmallerSet(after, before);
        case Enqueue(q, request, toDecode) =>
          if q !in s.prefill && q !in s.decode {
            if request.enqueuedAt <= bound { AtMostOneMore(after, before, q); } else { SmallerSet(after, before); }
          }
      }
      PendingArrived(c, s', events[1..], bound);
    }
  }

  lemma {:induction false} ArrivalsAdd(a: seq<Event>, b: seq<Event>, bound: real)
    ensures Arrivals(a + b, bound) == Arrivals(a, bound) + Arrivals(b, bound)
  {
    if a == [] {
      assert a + b == b;
    } else {
      assert (a + b)[1..] == a[1..] + b;
      ArrivalsAdd(a[1..], b, bound);
    }
  }

  lemma {:induction false} RunStaysRanked(c: Config, s: System, events: seq<Event>, top: int)
    requires Ranked(c, s, top) && Bounded(events, top)
    ensures Ranked(c, Run(c, s, events), top)
    decreases |events|
  {
    if events != [] {
      var e := events[0];
      if e.Build? {
        forall q ensures q in Pending(Next(c, s, e)) ==> q in Pending(s) { PendingAfterBuild(c, s, e.now, q); }
      }
      assert Bounded(events[1..], top) by {
        assert forall k :: 0 <= k < |events[1..]| ==> events[1..][k] == events[k + 1];
      }
      RunStaysRanked(c, Next(c, s, e), events[1..], top);
    }
  }

  /** A request enqueued at any point of a run and still waiting has seen fewer
      batches than there are enqueue events stamped within its bound: it is
      selected after no more batches than that. */
  lemma SelectedInBoundedTime(c: Config, before: seq<Event>, p: Ptr, r: Request, toDecode: bool, after: seq<Event>,
      top: int)
    requires c.maxSize >= 1 && c.policy == PriorityAge
    requires Bounded(before, top) && Bounded(after, top) && r.priority <= top
    requires var s := Run(c, System([], [], map[]), before);
             p !in Pending(s) && Waits(c, Next(c, s, Enqueue(p, r, toDecode)), after, p)
    ensures Builds(after) < Arrivals(before + [Enqueue(p, r, toDecode)] + after, Bound(r, top))
  {
    var bound := Bound(r, top);
    var empty := System([], [], map[]);
    var e := Enqueue(p, r, toDecode);
    RunStaysRanked(c, empty, before, top);
    var s := Run(c, empty, before);
    PendingArrived(c, empty, before, bound);
    hide Run, Stamped;
    ArrivesAlone(s, p, r, toDecode, c, top);
    RunSpends(c, Next(c, s, e), after, p, top);
    ArrivalsAdd(before + [e], after, bound);
    ArrivalsAdd(before, [e], bound);
    assert [e][1..] == [];
    NothingPending(bound);
    assert 2000.0 * (top - r.priority) as real >= 0.0;
  }

  lemma NothingPending(bound: real)
    ensures |Stamped(System([], [], map[]), bound)| == 0
  {
    assert Stamped(System([], [], map[]), bound) == {};
  }

  lemma ArrivesAlone(s: System, p: Ptr, r: Request, toDecode: bool, c: Config, top: int)
    requires p !in Pending(s) && Ranked(c, s, top) && r.priority <= top
    ensures var s' := Next(c, s, Enqueue(p, r, toDecode));
            && Ranked(c, s', top) && Get(s'.heap, p) == r
            && |Rivals(s', p, Bound(r, top))| <= |Stamped(s, Bound(r, top))|
  {
    var s' := Next(c, s, Enqueue(p, r, toDecode));
    assert p !in s.prefill && p !in s.decode by {
      assert p in s.prefill || p in s.decode ==> p in s.prefill + s.decode;
    }
    forall x ensures x in Pending(s') ==> x in Pending(s) || x == p { }
    SmallerSet(Rivals(s', p, Bound(r, top)), Stamped(s, Bound(r, top)));
  }
}
