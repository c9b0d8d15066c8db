/** Who owns what in the unified scheduler: KV block references, sequence slots,
retained sessions and donated prefixes, over every run.

The worker thread admits, decodes and completes requests; the eviction thread
polls retirements and expires sessions between any two worker steps. What the
scheduler cannot decide itself (which pages are free, which donor is least
recently used, whether a fence is pending, whether a batch fails) is an argument
of the step, so a statement about all steps covers every choice.
*/
module Ownership {
  import opened Common
  import opened SequenceKv
  import opened PrefixReuse

  datatype SlotState = Idle | Prefilling | Decoding | Retiring | Completed

  datatype Slot = Slot(state: SlotState, generation: nat)

  datatype Lease = Lease(slot: nat, generation: nat)

  /** The fields of an InferenceRequest that carry ownership. */
  datatype Request = Request(
    prompt: seq<Token>, session: string, started: bool, leased: bool,
    slot: int, generation: nat, blocks: seq<Block>, offset: nat, prefilled: bool)

  datatype Donor = Donor(slot: nat, blocks: seq<Block>)

  datatype Retained = Retained(slot: nat, generation: nat, prompt: seq<Token>, blocks: seq<Block>)

  /** A session entry; in_use remembers which request holds the lease. */
  datatype Entry = Entry(holder: Option<int>, kept: Option<Retained>)

  datatype Hit = Miss | Radix(path: seq<Token>) | OwnSession

  datatype Stage = Looked | Reserved | Allocated

  /** The worker's local variables while it admits one request. */
  datatype Frame = Frame(request: int, stage: Stage, hit: Hit, matched: nat,
    cached: seq<Block>, cachedLease: Lease, slot: int, generation: nat)

  datatype State = State(
    pages: nat,
    refs: multiset<Block>,
    slots: seq<Slot>,
    kv: Kv,
    fences: set<nat>,
    deferred: seq<Lease>,
    donors: map<seq<Token>, Donor>,
    sessions: map<string, Entry>,
    requests: map<int, Request>,
    frame: Option<Frame>,
    flight: seq<Block>)

  /** How a backend release goes: is there a backend, is its fence pending. */
  datatype Release = Release(backend: bool, pending: bool)

  datatype Eviction = Eviction(path: seq<Token>, release: Release)

  // ---- block references ----

  function FreeBlocks(s: State): set<Block> { set b: Block | 0 <= b < s.pages && b !in s.refs }

  function NumFree(s: State): nat { |FreeBlocks(s)| }

  /** ReserveBlocks hands out n distinct free pages; anything else is a failure. */
  predicate Reservable(s: State, n: nat, pick: seq<Block>) {
    && NumFree(s) >= n
    && |pick| == n
    && (forall i :: 0 <= i < n ==> 0 <= pick[i] < s.pages && pick[i] !in s.refs)
    && (forall i, j :: 0 <= i < j < n ==> pick[i] != pick[j])
  }

  function Reserve(s: State, n: nat, pick: seq<Block>): (r: State) {
    if Reservable(s, n, pick) then s.(refs := s.refs + multiset(pick), flight := pick) else s.(flight := [])
  }

  function Unref(s: State, blocks: seq<Block>): (r: State) {
    s.(refs := s.refs - multiset(blocks))
  }

  // ---- sequence slots ----

  predicate Live(slot: Slot, generation: nat) {
    slot.generation == generation && (slot.state.Prefilling? || slot.state.Decoding? || slot.state.Completed?)
  }

  function SetSlot(s: State, i: nat, state: SlotState): State
    requires i < |s.slots|
  {
    s.(slots := s.slots[i := s.slots[i].(state := state)])
  }

  function ClearKv(s: State, i: nat, release: Release): State {
    if release.backend then s.(kv := FreeSequence(s.kv, i)) else s
  }

  /** FreeSeqSlot: generation 0 releases unconditionally and drops the fence;
      otherwise the lease is validated before the backend is touched. */
  function FreeSeqSlot(s: State, i: int, generation: nat, release: Release): (r: State)
    ensures r == s.(slots := r.slots, kv := r.kv, fences := r.fences, deferred := r.deferred)
    ensures |r.slots| == |s.slots|
    ensures generation == 0 ==> r.deferred == s.deferred
  {
    if i < 0 || i >= |s.slots| then s
    else if generation == 0 then
      var cleared := ClearKv(s, i, release);
      SetSlot(cleared.(fences := if release.backend && release.pending then s.fences + {i} else s.fences), i, Idle)
    else if !Live(s.slots[i], generation) then s
    else if release.backend && release.pending then
      SetSlot(ClearKv(s, i, release), i, Retiring).(deferred := s.deferred + [Lease(i, generation)],
          fences := s.fences + {i})
    else SetSlot(ClearKv(s, i, release), i, Idle)
  }

  /** CompleteRetiredLease: only a retiring slot of that generation goes idle. */
  function ReapOne(slots: seq<Slot>, lease: Lease): (r: seq<Slot>)
    ensures |r| == |slots|
  {
    if lease.slot < |slots| && slots[lease.slot] == Slot(Retiring, lease.generation)
    then slots[lease.slot := Slot(Idle, lease.generation)] else slots
  }

  function Reap(slots: seq<Slot>, deferred: seq<Lease>, ready: set<nat>): (r: seq<Slot>)
    ensures |r| == |slots|
    decreases |deferred|
  {
    if deferred == [] then slots
    else Reap(if deferred[0].slot in ready then ReapOne(slots, deferred[0]) else slots, deferred[1..], ready)
  }

  function StillPending(deferred: seq<Lease>, ready: set<nat>): (r: seq<Lease>) {
    if deferred == [] then []
    else (if deferred[0].slot in ready then [] else [deferred[0]]) + StillPending(deferred[1..], ready)
  }

  function PollDeferred(s: State, ready: set<nat>): (r: State) {
    s.(slots := Reap(s.slots, s.deferred, ready), deferred := StillPending(s.deferred, ready),
        fences := s.fences - ready)
  }

  /** The lowest idle slot the backend can index; capacity <= 0 is no bound. */
  function FindFree(slots: seq<Slot>, capacity: int, from: nat): (r: int)
    requires from <= |slots|
    ensures r == -1 || (from <= r < |slots| && slots[r].state == Idle && (capacity <= 0 || r < capacity))
    ensures forall i :: from <= i < (if r == -1 then |slots| else r) && (capacity <= 0 || i < capacity) ==>
        slots[i].state != Idle
    decreases |slots| - from
  {
    if from == |slots| then -1
    else if (capacity <= 0 || from < capacity) && slots[from].state == Idle then from
    else FindFree(slots, capacity, from + 1)
  }

  function AcquireLease(s: State, i: nat): State
    requires i < |s.slots|
  {
    s.(slots := s.slots[i := Slot(Prefilling, s.slots[i].generation + 1)])
  }

  // ---- radix donors ----

  /** Retire one donated sequence: its node's references, its KV and its slot. */
  function Evict(s: State, path: seq<Token>, release: Release): (r: State)
    requires path in s.donors
    ensures r ==
        s.(refs := s.refs - multiset(s.donors[path].blocks), slots := r.slots, kv := r.kv, fences := r.fences,
            donors := s.donors - {path})
    ensures |r.slots| == |s.slots|
  {
    var donor := s.donors[path];
    Unref(FreeSeqSlot(s, donor.slot, 0, release), donor.blocks).(donors := s.donors - {path})
  }

  ghost function Victim(donors: map<seq<Token>, Donor>, evictions: seq<Eviction>): (e: Eviction)
    requires donors != map[]
    ensures e.path in donors
  {
    if evictions != [] && evictions[0].path in donors then evictions[0]
    else var path :| path in donors; Eviction(path, Release(true, false))
  }

  function Tail<T>(xs: seq<T>): seq<T> { if xs == [] then [] else xs[1..] }

  datatype Allocation = Allocation(state: State, slot: int, retired: set<nat>)

  /** AllocSeqSlot: acquire, or retire donors one by one until that succeeds. */
  ghost function Allocate(s: State, capacity: int, evictions: seq<Eviction>): (r: Allocation)
    ensures r.state.requests == s.requests
    decreases |s.donors|
  {
    var i := FindFree(s.slots, capacity, 0);
    if i >= 0 then Allocation(AcquireLease(s, i), i, {})
    else if s.donors == map[] then Allocation(s, -1, {})
    else
      var e := Victim(s.donors, evictions);
      var rest := Allocate(Evict(s, e.path, e.release), capacity, Tail(evictions));
      rest.(retired := rest.retired + {s.donors[e.path].slot})
  }

  /** Insert's own evictions; victims that are not donors are skipped. */
  function EvictMany(s: State, evictions: seq<Eviction>): (r: State)
    decreases |evictions|
  {
    if evictions == [] then s
    else if evictions[0].path in s.donors
        then EvictMany(Evict(s, evictions[0].path, evictions[0].release), evictions[1..])
    else EvictMany(s, evictions[1..])
  }

  // ---- retained sessions ----

  /** A kept state whose holder already runs on it is only a stale copy. */
  predicate Taken(s: State, entry: Entry) {
    entry.holder.Some? && entry.holder.value in s.requests && s.requests[entry.holder.value].slot >= 0
  }

  function SetEntry(s: State, name: string, entry: Entry): State {
    s.(sessions := s.sessions[name := entry])
  }

  function SetRequest(s: State, id: int, r: Request): State {
    s.(requests := s.requests[id := r])
  }

  /** ReleaseSessionState after the manager has given the state up. */
  function ReleaseState(s: State, kept: Retained, release: Release): (r: State) {
    FreeSeqSlot(Unref(s, kept.blocks), kept.slot, kept.generation, release)
  }

  /** Erase an idle entry and release what it kept (eviction, expiry, drain). */
  function DropSession(s: State, name: string, release: Release): (r: State)
    requires name in s.sessions && s.sessions[name].kept.Some?
    ensures r.requests == s.requests && r.frame == s.frame
  {
    ReleaseState(s.(sessions := s.sessions - {name}), s.sessions[name].kept.value, release)
  }

  /** Forget a held entry's state and release it. */
  function DiscardKept(s: State, name: string, release: Release): (r: State)
    requires name in s.sessions && s.sessions[name].kept.Some?
    ensures r.requests == s.requests && r.frame == s.frame
  {
    ReleaseState(SetEntry(s, name, s.sessions[name].(kept := None)), s.sessions[name].kept.value, release)
  }

  datatype SessionChoice = SessionChoice(full: bool, victim: string, expired: bool, compatible: bool, release: Release)

  predicate IdleSession(s: State, name: string) {
    name in s.sessions && s.sessions[name].holder.None? && s.sessions[name].kept.Some?
  }

  function Hold(s: State, id: int, name: string, entry: Entry): State
    requires id in s.requests
  {
    SetRequest(SetEntry(s, name, entry.(holder := Some(id))), id, s.requests[id].(leased := true))
  }

  /** AcquireLease for request id: a new entry (evicting an idle one when full),
      an idle entry (dropping an expired state), or nothing when busy. */
  function AcquireSession(s: State, id: int, c: SessionChoice): (r: State)
    requires id in s.requests
  {
    var name := s.requests[id].session;
    if name !in s.sessions then
      if !c.full then Hold(s, id, name, Entry(None, None))
      else if IdleSession(s, c.victim) then
        var dropped := DropSession(s, c.victim, c.release);
        if id in dropped.requests then Hold(dropped, id, name, Entry(None, None)) else dropped
      else s
    else if s.sessions[name].holder.Some? then s
    else if s.sessions[name].kept.Some? && c.expired then
      var held := Hold(s, id, name, s.sessions[name]);
      DiscardKept(held, name, c.release)
    else Hold(s, id, name, s.sessions[name])
  }

  predicate Holding(s: State, id: int) {
    && id in s.requests && s.requests[id].leased
    && s.requests[id].session in s.sessions && s.sessions[s.requests[id].session].kept.Some?
  }

  // ---- admission, in the worker's own steps ----

  const TOKENS_PER_BLOCK := 16

  const MIN_PREFIX_TOKENS := 32

  function TotalBlocks(prompt: seq<Token>): nat {
    (|prompt| + TOKENS_PER_BLOCK - 1) / TOKENS_PER_BLOCK + 1
  }

  function NewBlocks(prompt: seq<Token>, cached: seq<Block>): nat {
    if TotalBlocks(prompt) > |cached| then TotalBlocks(prompt) - |cached| else 0
  }

  /** The radix lookup: some donor whose path starts the prompt, or a miss. */
  function Look(s: State, id: int, lookup: Option<seq<Token>>): (r: State)
    requires id in s.requests
    ensures r == s.(frame := r.frame)
  {
    if lookup.Some? && lookup.value in s.donors && lookup.value <= s.requests[id].prompt &&
        s.donors[lookup.value].blocks != [] then
      var donor := s.donors[lookup.value];
      s.(frame := Some(Frame(id, Looked, Radix(lookup.value), |lookup.value|, donor.blocks, Lease(donor.slot, 0), -1,
          0)))
    else s.(frame := Some(Frame(id, Looked, Miss, 0, [], Lease(0, 0), -1, 0)))
  }

  function Begin(s: State, id: int, c: SessionChoice, lookup: Option<seq<Token>>): (r: State) {
    if s.frame.Some? || id !in s.requests || s.requests[id].started then s
    else
      var s0 := SetRequest(s, id, s.requests[id].(started := true));
      var s1 := if s.requests[id].session != "" then AcquireSession(s0, id, c) else s0;
      if id !in s1.requests then s1
      else if Holding(s1, id) then
        var name := s1.requests[id].session;
        var kept := s1.sessions[name].kept.value;
        if c.compatible && kept.prompt <= s1.requests[id].prompt then
          s1.(frame := Some(Frame(id, Looked, OwnSession, |kept.prompt|, kept.blocks, Lease(kept.slot, kept.generation),
              -1, 0)))
        else
          var s2 := DiscardKept(s1, name, c.release);
          if id in s2.requests then Look(s2, id, lookup) else s2
      else Look(s1, id, lookup)
  }

  predicate InFrame(s: State, stage: Stage) {
    s.frame.Some? && s.frame.value.stage == stage && s.frame.value.request in s.requests
  }

  function ReserveStep(s: State, pick: seq<Block>): (r: State) {
    if !InFrame(s, Looked) then s
    else
      var f := s.frame.value;
      Reserve(s, NewBlocks(s.requests[f.request].prompt, f.cached), pick).(frame := Some(f.(stage := Reserved)))
  }

  ghost function AllocStep(s: State, ready: set<nat>, capacity: int, evictions: seq<Eviction>,
      pick: seq<Block>): (r: State)
  {
    if !InFrame(s, Reserved) then s
    else
      var f := s.frame.value;
      if f.hit.OwnSession? then
        s.(frame := Some(f.(stage := Allocated, slot := f.cachedLease.slot, generation := f.cachedLease.generation)))
      else
        TakeSlot(Allocate(PollDeferred(s, ready).(frame := None), capacity, evictions), f, pick)
  }

  /** The frame records the slot; when the matched donor itself was retired to
      find it, the hit is given up and the blocks are reserved anew. */
  function TakeSlot(a: Allocation, f: Frame, pick: seq<Block>): (r: State)
    requires f.request in a.state.requests
    ensures r.frame.Some?
  {
    var generation := if 0 <= a.slot < |a.state.slots| then a.state.slots[a.slot].generation else 0;
    var f' := f.(stage := Allocated, slot := a.slot, generation := generation);
    if f.hit.Radix? && f.cachedLease.slot in a.retired then
      var again := Unref(a.state, a.state.flight).(flight := []);
      Reserve(again, TotalBlocks(a.state.requests[f.request].prompt),
          pick).(frame := Some(f'.(hit := Miss, matched := 0, cached := [])))
    else a.state.(frame := Some(f'))
  }

  datatype FinishChoice = FinishChoice(deferred: bool, chunkCap: int, luck: Luck, release: Release)

  function WarmOf(f: Frame): Warm {
    match f.hit
    case Miss => Cold
    case Radix(_) => Warm(f.cachedLease.slot, f.matched, false)
    case OwnSession => Warm(f.cachedLease.slot, f.matched, true)
  }

  predicate CanAdmit(s: State, f: Frame)
    requires f.request in s.requests
  {
    && 0 <= f.slot < |s.slots|
    && (NewBlocks(s.requests[f.request].prompt, f.cached) == 0 || s.flight != [])
    && (f.hit.OwnSession? && f.generation != 0 ==> s.slots[f.slot] == Slot(Completed, f.generation))
  }

  /** The admitted request takes the slot, the cached and the new blocks. */
  function Grant(s: State, f: Frame): (r: State)
    requires f.request in s.requests && 0 <= f.slot < |s.slots|
    ensures r == s.(refs := r.refs, slots := r.slots, requests := r.requests, flight := [], frame := None)
    ensures f.request in r.requests && r.requests[f.request].slot == f.slot &&
        r.requests[f.request].generation == f.generation
  {
    var restored := if f.hit.OwnSession? && f.generation != 0 then SetSlot(s, f.slot, Prefilling) else s;
    var held := if f.hit.OwnSession? then restored else restored.(refs := restored.refs + multiset(f.cached));
    var r := s.requests[f.request].(blocks := f.cached + s.flight, slot := f.slot, generation := f.generation,
        offset := 0);
    SetRequest(held.(flight := [], frame := None), f.request, r)
  }

  function FinishStep(s: State, c: FinishChoice): (r: State) {
    if !InFrame(s, Allocated) then s
    else
      var f := s.frame.value;
      if !CanAdmit(s, f) then
        var back := Unref(s, s.flight).(flight := [], frame := None);
        if f.slot >= 0 && !f.hit.OwnSession? then FreeSeqSlot(back, f.slot, f.generation, Release(false, false))
            else back
      else
        var g := Grant(s, f);
        var prompt := s.requests[f.request].prompt;
        if c.deferred && prompt != [] then
          var reuse := ResolveReuse(g.kv, prompt, WarmOf(f), f.slot, c.luck.copyTrims);
          SetRequest(g.(kv := reuse.kv), f.request, g.requests[f.request].(offset := Max(0, reuse.start)))
        else
          var (kv', ok) := Prefill(g.kv, f.slot, prompt, WarmOf(f), Max(1, c.chunkCap), c.luck);
          var p := g.(kv := kv');
          if ok then SetRequest(p, f.request, p.requests[f.request].(offset := |prompt|, prefilled := true))
          else
            var d := if f.hit.OwnSession? then DiscardCopy(p, f.request) else p;
            GiveBack(d, f.request, c.release)
  }

  /** DiscardLeasedState: the holder already runs on the state, so only the
      manager's copy goes. */
  function DiscardCopy(s: State, id: int): (r: State)
    requires id in s.requests
    ensures r == s.(sessions := r.sessions)
  {
    var name := s.requests[id].session;
    if name in s.sessions then SetEntry(s, name, s.sessions[name].(kept := None)) else s
  }

  /** Release a request's block references and its slot, and reset its lease. */
  function GiveBack(s: State, id: int, release: Release): (r: State)
    requires id in s.requests
  {
    var r := s.requests[id];
    SetRequest(FreeSeqSlot(Unref(s, r.blocks), r.slot, r.generation, release), id,
               r.(slot := -1, generation := 0, blocks := [], offset := 0, prefilled := false))
  }

  // ---- execution ----

  /** One chunk of a deferred prefill. */
  function ChunkStep(s: State, id: int, n: nat, decoder: Decoder, o: Outcome): (r: State) {
    if s.frame.Some? || id !in s.requests || s.requests[id].slot < 0 || n == 0 ||
        s.requests[id].offset >= |s.requests[id].prompt| then s
    else
      var r := s.requests[id];
      var end := Min(r.offset + n, |r.prompt|);
      var (kv', ok) := Write(s.kv, r.slot, r.offset, r.prompt[r.offset..end], decoder, o);
      SetRequest(s.(kv := kv'), id, if ok then r.(offset := end, prefilled := end == |r.prompt|) else r)
  }

  /** One generated token; MarkProcessing moves the slot from prefill to decode. */
  function DecodeStep(s: State, id: int, token: Token): (r: State) {
    if s.frame.Some? || id !in s.requests || !s.requests[id].prefilled || !(0 <= s.requests[id].slot < |s.slots|) then s
    else
      var i := s.requests[id].slot;
      var marked := if s.slots[i].state.Prefilling? then SetSlot(s, i, Decoding) else s;
      marked.(kv := s.kv[i := Resident(s.kv, i) + [token]])
  }

  // ---- completion ----

  function Remove(s: State, id: int): State { s.(requests := s.requests - {id}) }

  predicate SessionOwned(s: State, id: int)
    requires id in s.requests
  {
    s.requests[id].leased && s.requests[id].session != ""
  }

  /** ReleaseLease: an entry that keeps nothing disappears. */
  function ReleaseHold(s: State, id: int): (r: State)
    requires id in s.requests
    ensures r == s.(sessions := r.sessions, requests := r.requests)
  {
    var name := s.requests[id].session;
    var unheld := SetRequest(s, id, s.requests[id].(leased := false));
    if name !in s.sessions then unheld
    else if s.sessions[name].kept.Some? then SetEntry(unheld, name, s.sessions[name].(holder := None))
    else unheld.(sessions := s.sessions - {name})
  }

  /** CommitLease: the slot and the references pass from request to session. */
  function Commit(s: State, id: int): (r: State)
    requires id in s.requests && 0 <= s.requests[id].slot < |s.slots|
    ensures r == s.(slots := r.slots, sessions := r.sessions, requests := r.requests)
  {
    var r := s.requests[id];
    var marked := if Live(s.slots[r.slot], r.generation) then SetSlot(s, r.slot, Completed) else s;
    SetRequest(SetEntry(marked, r.session, Entry(None, Some(Retained(r.slot, r.generation, r.prompt, r.blocks)))), id,
               r.(slot := -1, generation := 0, blocks := [], offset := 0, prefilled := false, leased := false))
  }

  function FinalizeSession(s: State, id: int, commit: bool, release: Release): (r: State)
    requires id in s.requests
  {
    var r := s.requests[id];
    if commit && 0 <= r.slot < |s.slots| && r.prefilled then Commit(s, id)
    else
      var t := if r.slot >= 0 then GiveBack(DiscardCopy(s, id), id, release) else s;
      if id in t.requests then ReleaseHold(t, id) else t
  }

  datatype CompleteChoice =
    | CompleteChoice(failed: bool, inserts: bool, replaced: Release, evictions: seq<Eviction>, release: Release)

  predicate Donates(s: State, id: int, c: CompleteChoice)
    requires id in s.requests
  {
    var r := s.requests[id];
    r.slot >= 0 && r.prefilled && |r.prompt| >= MIN_PREFIX_TOKENS && c.inserts && r.blocks != []
  }

  /** The node takes a reference on every block and the request's slot; a donor
      already at this path is retired first. */
  function Donate(s: State, id: int, c: CompleteChoice): (r: State)
    requires id in s.requests && s.requests[id].slot >= 0
  {
    var r := s.requests[id];
    var acquired := s.(refs := s.refs + multiset(r.blocks), flight := r.blocks);
    var cleared := if r.prompt in acquired.donors then Evict(acquired, r.prompt, c.replaced) else acquired;
    Remove(cleared, id).(donors := cleared.donors[r.prompt := Donor(r.slot, r.blocks)])
  }

  function CompleteStep(s: State, id: int, c: CompleteChoice): (r: State) {
    if s.frame.Some? || id !in s.requests || !s.requests[id].started then s
    else if SessionOwned(s, id) then Remove(FinalizeSession(s, id, !c.failed, c.release), id)
    else if Donates(s, id, c) then
      var d := EvictMany(Donate(s, id, c), c.evictions);
      Unref(d, d.flight).(flight := [])
    else if s.requests[id].slot >= 0 then Remove(GiveBack(s, id, c.release), id)
    else Remove(s, id)
  }

  /** ReleasePendingRequestResources on the error paths. */
  function AbortStep(s: State, id: int, success: bool, release: Release): (r: State) {
    if s.frame.Some? || id !in s.requests || !s.requests[id].started then s
    else if SessionOwned(s, id) then Remove(FinalizeSession(s, id, success, release), id)
    else if s.requests[id].slot >= 0 then Remove(GiveBack(s, id, release), id)
    else Remove(s, id)
  }

  // ---- runs ----

  datatype Event =
    | Arrive(id: int, prompt: seq<Token>, session: string)
    | AdmitBegin(id: int, choice: SessionChoice, lookup: Option<seq<Token>>)
    | AdmitReserve(pick: seq<Block>)
    | AdmitAllocate(ready: set<nat>, capacity: int, evictions: seq<Eviction>, pick: seq<Block>)
    | AdmitFinish(finish: FinishChoice)
    | PrefillChunk(id: int, n: nat, decoder: Decoder, outcome: Outcome)
    | Decode(id: int, token: Token)
    | Complete(id: int, complete: CompleteChoice)
    | Abort(id: int, success: bool, release: Release)
    | Expire(name: string, release: Release)
    | Poll(ready: set<nat>)

  ghost function Next(s: State, e: Event): (r: State) {
    match e
    case Arrive(id, prompt, session) =>
      if id < 0 || id in s.requests then s
      else SetRequest(s, id, Request(prompt, session, false, false, -1, 0, [], 0, false))
    case AdmitBegin(id, c, lookup) => Begin(s, id, c, lookup)
    case AdmitReserve(pick) => ReserveStep(s, pick)
    case AdmitAllocate(ready, capacity, evictions, pick) => AllocStep(s, ready, capacity, evictions, pick)
    case AdmitFinish(c) => FinishStep(s, c)
    case PrefillChunk(id, n, decoder, o) => ChunkStep(s, id, n, decoder, o)
    case Decode(id, token) => DecodeStep(s, id, token)
    case Complete(id, c) => CompleteStep(s, id, c)
    case Abort(id, success, release) => AbortStep(s, id, success, release)
    case Expire(name, release) => if IdleSession(s, name) then DropSession(s, name, release) else s
    case Poll(ready) => PollDeferred(s, ready)
  }

  function Start(pages: nat, slots: nat): (s: State) {
    State(pages, multiset{}, seq(slots, _ => Slot(Idle, 0)), map[], {}, [], map[], map[], map[], None, [])
  }

  ghost function Run(s: State, events: seq<Event>): (r: State)
    decreases |events|
  {
    if events == [] then s else Run(Next(s, events[0]), events[1..])
  }
}
