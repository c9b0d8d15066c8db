/** A run of the scheduler that leases a slot while its release fence is pending:
one slot, one donated prompt, and an eviction whose fence has not completed. */
module FenceRun {
  import opened Common
  import opened SequenceKv
  import opened PrefixReuse
  import opened Ownership

  /** Under slot pressure, evicting a donor whose fence is pending always leases
      that donor's slot with the fence still pending. */
  lemma PendingEvictionLeasesAFencedSlot(s: State, capacity: int, path: seq<Token>)
    requires path in s.donors && s.donors[path].slot < |s.slots|
    requires FindFree(s.slots, capacity, 0) == -1 && (capacity <= 0 || s.donors[path].slot < capacity)
    ensures var a := Allocate(s, capacity, [Eviction(path, Release(true, true))]);
            && a.slot == s.donors[path].slot && a.slot in a.state.fences
            && a.slot < |a.state.slots| && a.state.slots[a.slot].state.Prefilling?
  {
    var e := Eviction(path, Release(true, true));
    assert s.donors != map[] && Victim(s.donors, [e]) == e;
    var t := Evict(s, path, e.release);
    var i := FindFree(t.slots, capacity, 0);
    assert t.slots[s.donors[path].slot].state.Idle?;
    assert i == s.donors[path].slot;
    assert Allocate(t, capacity, Tail([e])) == Allocation(AcquireLease(t, i), i, {});
  }

  // ---- the concrete run ----

  function Queued(prompt: seq<Token>, started: bool): Request {
    Request(prompt, "", started, false, -1, 0, [], 0, false)
  }

  function Admission(id: int, stage: Stage, slot: int, generation: nat): Option<Frame> {
    Some(Frame(id, stage, Miss, 0, [], Lease(0, 0), slot, generation))
  }

  function Fresh(): SessionChoice { SessionChoice(false, "", false, false, Release(true, false)) }

  function Deferred(): FinishChoice { FinishChoice(true, 64, Luck(true, true, [], [], []), Release(true, false)) }

  function Inserted(): CompleteChoice { CompleteChoice(false, true, Release(true, false), [], Release(true, false)) }

  function Looking(prompt: seq<Token>): State {
    State(8, multiset{}, [Slot(Idle, 0)], map[], {}, [], map[], map[], map[0 := Queued(prompt, true)],
        Admission(0, Looked, -1, 0), [])
  }

  function Reserving(prompt: seq<Token>): State {
    State(8, multiset{0, 1, 2}, [Slot(Idle, 0)], map[], {}, [], map[], map[], map[0 := Queued(prompt, true)],
        Admission(0, Reserved, -1, 0), [0, 1, 2])
  }

  function Leased(prompt: seq<Token>): State {
    State(8, multiset{0, 1, 2}, [Slot(Prefilling, 1)], map[], {}, [], map[], map[], map[0 := Queued(prompt, true)],
        Admission(0, Allocated, 0, 1), [0, 1, 2])
  }

  function Admitted(prompt: seq<Token>, offset: nat, kv: Kv): State {
    State(8, multiset{0, 1, 2}, [Slot(Prefilling, 1)], kv, {}, [], map[], map[],
          map[0 := Queued(prompt, true).(slot := 0, generation := 1, blocks := [0, 1, 2], offset := offset,
              prefilled := offset == |prompt|)], None, [])
  }

  function Donated(prompt: seq<Token>, requests: map<int, Request>, frame: Option<Frame>): State {
    State(8, multiset{0, 1, 2}, [Slot(Prefilling, 1)], map[0 := prompt], {}, [], map[prompt := Donor(0, [0, 1, 2])],
        map[], requests, frame, [])
  }

  lemma Begins(prompt: seq<Token>)
    ensures Next(Next(Start(8, 1), Arrive(0, prompt, "")), AdmitBegin(0, Fresh(), None)) == Looking(prompt)
  {
    assert Start(8, 1).slots == [Slot(Idle, 0)];
  }

  lemma EightFree(s: State)
    requires s.pages == 8 && s.refs == multiset{}
    ensures NumFree(s) == 8
  {
    assert FreeBlocks(s) == {0, 1, 2, 3, 4, 5, 6, 7};
  }

  lemma Reserves(prompt: seq<Token>)
    requires |prompt| == 32
    ensures Next(Looking(prompt), AdmitReserve([0, 1, 2])) == Reserving(prompt)
  {
    var s := Looking(prompt);
    EightFree(s);
    hide NumFree;
    assert multiset{} + multiset([0, 1, 2]) == multiset{0, 1, 2};
  }

  lemma Leases(prompt: seq<Token>)
    ensures Next(Reserving(prompt), AdmitAllocate({}, 1, [], [])) == Leased(prompt)
  {
  }

  lemma Admits(prompt: seq<Token>)
    requires |prompt| == 32
    ensures Next(Leased(prompt), AdmitFinish(Deferred())) == Admitted(prompt, 0, map[])
  {
    assert [] + [0, 1, 2] == [0, 1, 2];
    assert multiset{0, 1, 2} + multiset([]) == multiset{0, 1, 2};
  }

  lemma Prefills(prompt: seq<Token>)
    requires |prompt| == 32
    ensures Next(Admitted(prompt, 0, map[]), PrefillChunk(0, 32, Checking, Done)) ==
        Admitted(prompt, 32, map[0 := prompt])
  {
    assert prompt[0..32] == prompt;
    assert [] + prompt == prompt;
  }

  lemma Inserts(prompt: seq<Token>)
    requires |prompt| == 32
    ensures Next(Admitted(prompt, 32, map[0 := prompt]), Complete(0, Inserted())) == Donated(prompt, map[], None)
  {
  }

  lemma Returns(prompt: seq<Token>)
    ensures var s := Donated(prompt, map[], None);
            Next(Next(Next(s, Arrive(1, [5], "")), AdmitBegin(1, Fresh(), None)), AdmitReserve([]))
              == Donated(prompt, map[1 := Queued([5], true)], Admission(1, Reserved, -1, 0))
  {
    var looking := Donated(prompt, map[1 := Queued([5], true)], Admission(1, Looked, -1, 0));
    assert Next(Next(Donated(prompt, map[], None), Arrive(1, [5], "")), AdmitBegin(1, Fresh(), None)) == looking;
    assert !Reservable(looking, 2, []);
  }

  lemma Evicts(prompt: seq<Token>)
    requires prompt != []
    ensures var s := Next(Donated(prompt, map[1 := Queued([5], true)], Admission(1, Reserved, -1, 0)),
                          AdmitAllocate({}, 1, [Eviction(prompt, Release(true, true))], []));
            s.slots != [] && s.slots[0].state.Prefilling? && 0 in s.fences && s.frame.Some? && s.frame.value.slot == 0
  {
    hide Allocate, PollDeferred, FindFree;
    var s := Donated(prompt, map[1 := Queued([5], true)], None);
    PollsNothing(Donated(prompt, map[1 := Queued([5], true)], Admission(1, Reserved, -1, 0)));
    NoSlotIsFree(s);
    PendingEvictionLeasesAFencedSlot(s, 1, prompt);
  }

  lemma PollsNothing(s: State)
    requires s.deferred == []
    ensures PollDeferred(s, {}) == s
  {
    assert s.fences - {} == s.fences;
  }

  lemma NoSlotIsFree(s: State)
    requires |s.slots| == 1 && s.slots[0].state.Prefilling?
    ensures FindFree(s.slots, 1, 0) == -1
  {
  }

  function Events(prompt: seq<Token>): seq<Event> {
    [Arrive(0, prompt, ""), AdmitBegin(0, Fresh(), None), AdmitReserve([0, 1, 2]), AdmitAllocate({}, 1, [], []),
     AdmitFinish(Deferred()),
     PrefillChunk(0, 32, Checking, Done), Complete(0, Inserted()),
     Arrive(1, [5], ""), AdmitBegin(1, Fresh(), None), AdmitReserve([]),
     AdmitAllocate({}, 1, [Eviction(prompt, Release(true, true))], [])]
  }

  /** From a fresh scheduler with one slot, eleven steps lease slot 0 to a second
      request while the fence of its first release is still pending. */
  lemma AFencedSlotIsLeased(prompt: seq<Token>)
    requires |prompt| == 32
    ensures var s := Run(Start(8, 1), Events(prompt));
            s.slots != [] && s.slots[0].state.Prefilling? && 0 in s.fences && s.frame.Some? && s.frame.value.slot == 0
  {
    hide Next, Run, Donated, Events;
    FirstIsDonated(prompt);
    SecondIsLeased(prompt);
  }

  lemma FirstIsDonated(prompt: seq<Token>)
    requires |prompt| == 32
    ensures Run(Start(8, 1), Events(prompt)) ==
        Run(Next(Donated(prompt, map[], None), Events(prompt)[7]), Events(prompt)[8..])
  {
    hide Next, Run, Looking, Reserving, Leased, Admitted, Donated;
    Begins(prompt);
    Reserves(prompt);
    Leases(prompt);
    Admits(prompt);
    Prefills(prompt);
    Inserts(prompt);
    var e := Events(prompt);
    RunTwice(Start(8, 1), e);
    RunTwice(Looking(prompt), e[2..]);
    RunTwice(Leased(prompt), e[4..]);
    RunTwice(Admitted(prompt, 32, map[0 := prompt]), e[6..]);
    assert e[2..][2..] == e[4..] && e[4..][2..] == e[6..] && e[6..][2..] == e[8..];
  }

  lemma SecondIsLeased(prompt: seq<Token>)
    requires prompt != []
    ensures var s := Run(Next(Donated(prompt, map[], None), Events(prompt)[7]), Events(prompt)[8..]);
            s.slots != [] && s.slots[0].state.Prefilling? && 0 in s.fences && s.frame.Some? && s.frame.value.slot == 0
  {
    hide Next, Run, Donated;
    Returns(prompt);
    Evicts(prompt);
    var e := Events(prompt);
    RunTwice(Next(Donated(prompt, map[], None), e[7]), e[8..]);
    RunLast(Donated(prompt, map[1 := Queued([5], true)], Admission(1, Reserved, -1, 0)), e[10]);
    assert e[8..][2..] == [e[10]];
  }

  lemma RunLast(s: State, e: Event)
    ensures Run(s, [e]) == Next(s, e)
  {
    hide Next;
    assert [e][1..] == [];
  }

  lemma RunTwice(s: State, events: seq<Event>)
    requires |events| >= 2
    ensures Run(s, events) == Run(Next(Next(s, events[0]), events[1]), events[2..])
  {
    hide Next;
    assert events[1..][1..] == events[2..];
  }
}
