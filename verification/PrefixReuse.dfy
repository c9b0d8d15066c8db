/** KV prefix reuse in the phased prefill of scheduler/scheduler.cpp.

A prefill may start from a copied donor prefix, from a retained session's own
sequence, or from nothing; it is cut into chunks; trims and batches may fail and
are then retried from position 0. Whatever happens, a prefill that succeeds
leaves what one full prefill of the prompt leaves.
*/
module PrefixReuse {
  import opened Common
  import opened SequenceKv

  /** What a warm lookup offers: donor sequence, matched length, and whether the
      donor is the request's own retained session sequence. */
  datatype Warm = Cold | Warm(cached: int, matched: int, session: bool)

  datatype Reuse = Reuse(kv: Kv, start: int, copied: bool)

  /** Trims and batches of one admission, in the order the scheduler asks. */
  datatype Luck = Luck(copyTrims: bool, stepTrims: bool, step: seq<Outcome>, partial: seq<Outcome>, full: seq<Outcome>)

  /** One batch input as the backend sees it, with the sequence's length then. */
  datatype Chunk = Chunk(sequence: int, pos: int, tokens: seq<Token>, logits: bool, resident: int)

  function ReplayStart(prompt: seq<Token>, n: int): (start: int) {
    var bounded := Clamp(n, 0, |prompt|);
    if bounded >= |prompt| then Max(0, |prompt| - 1) else bounded
  }

  function ResolveReuse(kv: Kv, prompt: seq<Token>, warm: Warm, q: int, trims: bool): (r: Reuse) {
    if warm.Cold? || warm.matched <= 0 || warm.cached < 0 then Reuse(kv, 0, false)
    else
      var start := ReplayStart(prompt, warm.matched);
      if warm.session then Reuse(kv, start, true)
      else
        var (kv', ok) := CopyPrefix(kv, warm.cached, q, start, trims);
        Reuse(kv', if ok then start else 0, ok)
  }

  function First(outcomes: seq<Outcome>): Outcome { if outcomes == [] then Done else outcomes[0] }

  function Rest(outcomes: seq<Outcome>): seq<Outcome> { if outcomes == [] then [] else outcomes[1..] }

  /** Submit prompt[at..] in chunks of at most cap tokens until one fails. */
  function Chunks(kv: Kv, q: int, prompt: seq<Token>, at: nat, cap: int, outcomes: seq<Outcome>): (r: (Kv, bool))
    requires cap >= 1
    decreases |prompt| - at
  {
    if at >= |prompt| then (kv, true)
    else
      var end := Min(at + cap, |prompt|);
      var (kv', ok) := Submit(kv, q, at, prompt[at..end], First(outcomes));
      if ok then Chunks(kv', q, prompt, end, cap, Rest(outcomes)) else (kv', false)
  }

  function PhasedStep(kv: Kv, q: int, prompt: seq<Token>, nPast: int, cap: int, trims: bool,
      outcomes: seq<Outcome>): (r: (Kv, bool))
    requires cap >= 1
  {
    if q < 0 || prompt == [] then (kv, false)
    else
      var start := ReplayStart(prompt, nPast);
      if start == 0 then Chunks(FreeSequence(kv, q), q, prompt, 0, cap, outcomes)
      else
        var (kv', ok) := Truncate(kv, q, start, trims);
        Chunks(kv', q, prompt, if ok then start else 0, cap, outcomes)
  }

  /** The direct admission path: phased step, then the partial prefill when a
      prefix was copied, then a full prefill on a cleared sequence. */
  function Prefill(kv: Kv, q: int, prompt: seq<Token>, warm: Warm, cap: int, luck: Luck): (r: (Kv, bool))
    requires cap >= 1
  {
    var reuse := ResolveReuse(kv, prompt, warm, q, luck.copyTrims);
    var (kv1, ok1) := PhasedStep(reuse.kv, q, prompt, reuse.start, cap, luck.stepTrims, luck.step);
    if ok1 then (kv1, true) else Fallback(kv1, q, prompt, reuse, cap, luck)
  }

  function Fallback(kv: Kv, q: int, prompt: seq<Token>, reuse: Reuse, cap: int, luck: Luck): (r: (Kv, bool))
    requires cap >= 1
  {
    if prompt == [] then (kv, false) else
    var (kv', ok) := if reuse.copied && reuse.start >= 0 then Chunks(kv, q, prompt, reuse.start, cap, luck.partial)
        else (kv, false);
    if ok then (kv', true) else Chunks(FreeSequence(kv', q), q, prompt, 0, cap, luck.full)
  }

  /** What the caller's lookup promises: the donor's KV starts with the matched
      part of the prompt, and a donor that is not the request's own sequence is
      another sequence. */
  predicate Holds(kv: Kv, prompt: seq<Token>, warm: Warm, q: int) {
    warm.Warm? && warm.matched > 0 && warm.cached >= 0 ==>
      && prompt[..Clamp(warm.matched, 0, |prompt|)] <= Resident(kv, warm.cached)
      && (warm.session <==> warm.cached == q)
  }

  // ---- chunking ----

  /** One batch at the resident length appends its tokens, or some prefix of them. */
  lemma SubmitAppends(kv: Kv, q: int, prompt: seq<Token>, at: nat, end: nat, o: Outcome)
    requires at <= end <= |prompt| && Resident(kv, q) == prompt[..at]
    ensures var (kv', ok) := Submit(kv, q, at, prompt[at..end], o);
            && Resident(kv', q) <= prompt
            && (ok ==> Resident(kv', q) == prompt[..end])
            && kv' - {q} == kv - {q}
  {
    assert prompt[..at] + prompt[at..end] == prompt[..end];
    if o.Failed? {
      var k := Min(o.residue, end - at);
      assert prompt[..at] + prompt[at..end][..k] == prompt[..at + k];
    }
  }

  /** Chunks from a clean position append exactly the rest of the prompt, and on
      failure leave some prefix of it; nothing else moves. */
  lemma {:induction false} ChunksAppendTheRest(kv: Kv, q: int, prompt: seq<Token>, at: nat, cap: int,
      outcomes: seq<Outcome>)
    requires cap >= 1 && at <= |prompt| && Resident(kv, q) == prompt[..at]
    ensures var (kv', ok) := Chunks(kv, q, prompt, at, cap, outcomes);
            && Resident(kv', q) <= prompt
            && (ok ==> Resident(kv', q) == prompt)
            && kv' - {q} == kv - {q}
    decreases |prompt| - at
  {
    hide Submit, Resident;
    if at == |prompt| {
      assert prompt[..at] == prompt;
    } else {
      var end := Min(at + cap, |prompt|);
      SubmitAppends(kv, q, prompt, at, end, First(outcomes));
      var (kv', ok) := Submit(kv, q, at, prompt[at..end], First(outcomes));
      if ok { ChunksAppendTheRest(kv', q, prompt, end, cap, Rest(outcomes)); }
    }
  }

  /** Chunks asked to start where the sequence does not end are refused at once,
      unless there is nothing to submit. */
  lemma ChunksElsewhereAreRefused(kv: Kv, q: int, prompt: seq<Token>, at: nat, cap: int, outcomes: seq<Outcome>)
    requires cap >= 1 && at < |prompt| && |Resident(kv, q)| != at
    ensures Chunks(kv, q, prompt, at, cap, outcomes) == (kv, false)
  {
  }

  /** The reuse plan leaves the target holding the planned part of the prompt,
      and touches no other sequence. */
  lemma ResolveKeepsThePrefix(kv: Kv, prompt: seq<Token>, warm: Warm, q: int, trims: bool)
    requires Holds(kv, prompt, warm, q) && prompt != []
    ensures var r := ResolveReuse(kv, prompt, warm, q, trims);
            && 0 <= r.start < |prompt|
            && prompt[..r.start] <= Resident(r.kv, q)
            && r.kv - {q} == kv - {q}
            && (r.copied ==> warm.Warm? && r.start == Min(warm.matched, |prompt| - 1))
            && (!r.copied ==> r.start == 0)
  {
    var r := ResolveReuse(kv, prompt, warm, q, trims);
    if warm.Warm? && warm.matched > 0 && warm.cached >= 0 {
      var start := ReplayStart(prompt, warm.matched);
      var n := Clamp(warm.matched, 0, |prompt|);
      assert prompt[..start] == prompt[..n][..start];
      assert prompt[..start] <= Resident(kv, warm.cached);
      assert Resident(kv, warm.cached)[..start] == prompt[..start];
      if !warm.session {
        assert Resident(FreeSequence(kv, q), warm.cached) == Resident(kv, warm.cached);
      }
    }
  }

  lemma PhasedStepFillsTheSequence(kv: Kv, q: int, prompt: seq<Token>, nPast: int, cap: int, trims: bool,
      outcomes: seq<Outcome>)
    requires cap >= 1 && q >= 0 && prompt != [] && 0 <= nPast < |prompt| && prompt[..nPast] <= Resident(kv, q)
    ensures var (kv', ok) := PhasedStep(kv, q, prompt, nPast, cap, trims, outcomes);
            && Resident(kv', q) <= prompt
            && (ok ==> Resident(kv', q) == prompt)
            && kv' - {q} == kv - {q}
  {
    if nPast == 0 {
      ChunksAppendTheRest(FreeSequence(kv, q), q, prompt, 0, cap, outcomes);
    } else {
      var (kv', ok) := Truncate(kv, q, nPast, trims);
      assert Resident(kv, q)[..nPast] == prompt[..nPast];
      ChunksAppendTheRest(kv', q, prompt, if ok then nPast else 0, cap, outcomes);
    }
  }

  /** After a failed step the sequence holds some prefix of the prompt; a partial
      prefill that is accepted starts exactly at its end. */
  lemma FallbackFillsTheSequence(kv: Kv, q: int, prompt: seq<Token>, reuse: Reuse, cap: int, luck: Luck)
    requires cap >= 1 && prompt != [] && Resident(kv, q) <= prompt && 0 <= reuse.start < |prompt|
    ensures var (kv', ok) := Fallback(kv, q, prompt, reuse, cap, luck);
            && Resident(kv', q) <= prompt
            && (ok ==> Resident(kv', q) == prompt)
            && kv' - {q} == kv - {q}
  {
    var kv', ok := kv, false;
    if reuse.copied {
      if |Resident(kv, q)| == reuse.start {
        ChunksAppendTheRest(kv, q, prompt, reuse.start, cap, luck.partial);
      } else {
        ChunksElsewhereAreRefused(kv, q, prompt, reuse.start, cap, luck.partial);
      }
      var partial := Chunks(kv, q, prompt, reuse.start, cap, luck.partial);
      kv', ok := partial.0, partial.1;
    }
    if !ok { ChunksAppendTheRest(FreeSequence(kv', q), q, prompt, 0, cap, luck.full); }
  }

  lemma SameElsewhere(kv: Kv, kv': Kv, q: int)
    requires kv' - {q} == kv - {q}
    ensures forall p :: p != q ==> Resident(kv', p) == Resident(kv, p)
  {
    forall p | p != q ensures Resident(kv', p) == Resident(kv, p) {
      assert p in kv' <==> p in kv' - {q};
      assert p in kv <==> p in kv - {q};
      if p in kv { assert (kv - {q})[p] == kv[p] && (kv' - {q})[p] == kv'[p]; }
    }
  }

  /** Prefix reuse refines full prefill: for every prompt, donor, match length,
      trim outcome, batch outcome and chunk size, a successful prefill leaves the
      sequence holding the prompt, and every other sequence as it was. */
  lemma PrefillRefinesFullPrefill(kv: Kv, q: int, prompt: seq<Token>, warm: Warm, cap: int, luck: Luck)
    requires cap >= 1 && q >= 0 && Holds(kv, prompt, warm, q)
    ensures var (kv', ok) := Prefill(kv, q, prompt, warm, cap, luck);
            && (ok ==> prompt != [] && Resident(kv', q) == prompt)
            && (forall p :: p != q ==> Resident(kv', p) == Resident(kv, p))
  {
    if prompt == [] {
      EmptyPromptTouchesOnlyTheTarget(kv, q, warm, cap, luck);
    } else {
      ResolveKeepsThePrefix(kv, prompt, warm, q, luck.copyTrims);
      var reuse := ResolveReuse(kv, prompt, warm, q, luck.copyTrims);
      PhasedStepFillsTheSequence(reuse.kv, q, prompt, reuse.start, cap, luck.stepTrims, luck.step);
      var (kv1, ok1) := PhasedStep(reuse.kv, q, prompt, reuse.start, cap, luck.stepTrims, luck.step);
      if !ok1 { FallbackFillsTheSequence(kv1, q, prompt, reuse, cap, luck); }
      SameElsewhere(kv, Prefill(kv, q, prompt, warm, cap, luck).0, q);
    }
  }

  lemma EmptyPromptTouchesOnlyTheTarget(kv: Kv, q: int, warm: Warm, cap: int, luck: Luck)
    requires cap >= 1
    ensures forall p :: p != q ==> Resident(Prefill(kv, q, [], warm, cap, luck).0, p) == Resident(kv, p)
  {
    var reuse := ResolveReuse(kv, [], warm, q, luck.copyTrims);
    assert reuse.kv - {q} == kv - {q};
    SameElsewhere(kv, Prefill(kv, q, [], warm, cap, luck).0, q);
  }

  // ---- when a prefill succeeds ----

  /** How many chunks of at most cap tokens it takes to submit this many. */
  function Rounds(tokens: nat, cap: int): (n: nat)
    requires cap >= 1
    ensures cap * n >= tokens && (n > 0 ==> cap * (n - 1) < tokens)
  {
    if tokens == 0 then 0 else 1 + Rounds(tokens - Min(cap, tokens), cap)
  }

  /** The first n batches are done. */
  predicate AllDone(outcomes: seq<Outcome>, n: nat) {
    forall i :: 0 <= i < n && i < |outcomes| ==> outcomes[i].Done?
  }

  lemma OneDone(outcomes: seq<Outcome>, n: nat)
    requires n > 0
    ensures AllDone(outcomes, n) <==> First(outcomes).Done? && AllDone(Rest(outcomes), n - 1)
  {
    if AllDone(Rest(outcomes), n - 1) {
      forall i | 0 < i < n && i < |outcomes| ensures outcomes[i].Done? { assert Rest(outcomes)[i - 1] == outcomes[i]; }
    }
  }

  lemma NothingLeft(outcomes: seq<Outcome>)
    ensures AllDone(outcomes, 0)
  {
  }

  lemma SubmitSucceedsIff(kv: Kv, q: int, prompt: seq<Token>, at: nat, end: nat, o: Outcome)
    requires at <= end <= |prompt| && Resident(kv, q) == prompt[..at]
    ensures Submit(kv, q, at, prompt[at..end], o).1 <==> o.Done?
  {
  }

  /** From a clean position the chunks succeed if and only if their batches do. */
  lemma {:induction false} ChunksSucceedIff(kv: Kv, q: int, prompt: seq<Token>, at: nat, cap: int,
      outcomes: seq<Outcome>)
    requires cap >= 1 && at <= |prompt| && Resident(kv, q) == prompt[..at]
    ensures Chunks(kv, q, prompt, at, cap, outcomes).1 <==> AllDone(outcomes, Rounds(|prompt| - at, cap))
    decreases |prompt| - at
  {
    hide Submit, Resident, AllDone, First, Rest;
    if at == |prompt| {
      NothingLeft(outcomes);
    } else {
      var end := Min(at + cap, |prompt|);
      OneDone(outcomes, Rounds(|prompt| - at, cap));
      SubmitAppends(kv, q, prompt, at, end, First(outcomes));
      SubmitSucceedsIff(kv, q, prompt, at, end, First(outcomes));
      var (kv', ok) := Submit(kv, q, at, prompt[at..end], First(outcomes));
      if ok { ChunksSucceedIff(kv', q, prompt, end, cap, Rest(outcomes)); }
    }
  }

  /** Exactly when a prefix is reused, how much of it, and what the target then
      holds: a session's own sequence always, a donor's if its copy can be trimmed
      or nothing of it is kept. */
  lemma ReusedIff(kv: Kv, prompt: seq<Token>, warm: Warm, q: int, trims: bool)
    requires Holds(kv, prompt, warm, q) && prompt != []
    ensures var r := ResolveReuse(kv, prompt, warm, q, trims);
            var hit := warm.Warm? && warm.matched > 0 && warm.cached >= 0;
            && (r.copied <==> hit && (warm.session || trims || |prompt| == 1))
            && r.start == (if r.copied then Min(warm.matched, |prompt| - 1) else 0)
            && (hit && !warm.session ==> Resident(r.kv, q) == if r.copied then prompt[..r.start] else [])
            && (!hit || warm.session ==> r.kv == kv)
  {
    ResolveKeepsThePrefix(kv, prompt, warm, q, trims);
    if warm.Warm? && warm.matched > 0 && warm.cached >= 0 && !warm.session {
      assert Resident(FreeSequence(kv, q), warm.cached) == Resident(kv, warm.cached);
    }
  }

  /** A phased step succeeds if and only if the batches of its chunks do; it only
      has to submit what is beyond the planned prefix, unless that was lost. */
  lemma StepSucceedsIff(kv: Kv, q: int, prompt: seq<Token>, nPast: int, cap: int, trims: bool, outcomes: seq<Outcome>)
    requires cap >= 1 && q >= 0 && prompt != [] && 0 <= nPast < |prompt| && prompt[..nPast] <= Resident(kv, q)
    ensures PhasedStep(kv, q, prompt, nPast, cap, trims, outcomes).1 <==>
            AllDone(outcomes, Rounds(if trims then |prompt| - nPast else |prompt|, cap))
  {
    if nPast == 0 {
      ChunksSucceedIff(FreeSequence(kv, q), q, prompt, 0, cap, outcomes);
    } else {
      var (kv', ok) := Truncate(kv, q, nPast, trims);
      assert Resident(kv, q)[..nPast] == prompt[..nPast];
      ChunksSucceedIff(kv', q, prompt, if ok then nPast else 0, cap, outcomes);
    }
  }

  /** How many of this many tokens chunks of at most cap leave behind: those of the
      batches that are done, and the residue of the one that fails. */
  function Landed(tokens: nat, cap: int, outcomes: seq<Outcome>): (n: nat)
    requires cap >= 1
    ensures n <= tokens
  {
    if tokens == 0 then 0
    else
      var chunk := Min(cap, tokens);
      match First(outcomes)
      case Done => chunk + Landed(tokens - chunk, cap, Rest(outcomes))
      case Failed(k) => Min(k, chunk)
  }

  lemma SubmitLands(kv: Kv, q: int, prompt: seq<Token>, at: nat, end: nat, o: Outcome)
    requires at <= end <= |prompt| && Resident(kv, q) == prompt[..at]
    ensures |Resident(Submit(kv, q, at, prompt[at..end], o).0, q)| ==
            at + (match o case Done => end - at case Failed(k) => Min(k, end - at))
  {
  }

  lemma LandedOnce(tokens: nat, cap: int, outcomes: seq<Outcome>)
    requires cap >= 1 && tokens > 0
    ensures var chunk := Min(cap, tokens);
            Landed(tokens, cap, outcomes) ==
            if First(outcomes).Done? then chunk + Landed(tokens - chunk, cap, Rest(outcomes))
            else Min(First(outcomes).residue, chunk)
  {
  }

  lemma {:induction false} ChunksLand(kv: Kv, q: int, prompt: seq<Token>, at: nat, cap: int, outcomes: seq<Outcome>)
    requires cap >= 1 && at <= |prompt| && Resident(kv, q) == prompt[..at]
    ensures |Resident(Chunks(kv, q, prompt, at, cap, outcomes).0, q)| == at + Landed(|prompt| - at, cap, outcomes)
    decreases |prompt| - at
  {
    hide Submit, Resident, First, Rest, Landed;
    if at == |prompt| {
      assert Landed(0, cap, outcomes) == 0;
    } else {
      var end := Min(at + cap, |prompt|);
      LandedOnce(|prompt| - at, cap, outcomes);
      SubmitAppends(kv, q, prompt, at, end, First(outcomes));
      SubmitLands(kv, q, prompt, at, end, First(outcomes));
      SubmitSucceedsIff(kv, q, prompt, at, end, First(outcomes));
      var (kv', ok) := Submit(kv, q, at, prompt[at..end], First(outcomes));
      if ok { ChunksLand(kv', q, prompt, end, cap, Rest(outcomes)); }
    }
  }

  /** Where a phased step ends, whatever becomes of it. */
  lemma StepLands(kv: Kv, q: int, prompt: seq<Token>, nPast: int, cap: int, trims: bool, outcomes: seq<Outcome>)
    requires cap >= 1 && q >= 0 && prompt != [] && 0 <= nPast < |prompt| && prompt[..nPast] <= Resident(kv, q)
    ensures var base := if trims then nPast else 0;
            |Resident(PhasedStep(kv, q, prompt, nPast, cap, trims, outcomes).0, q)| ==
            base + Landed(|prompt| - base, cap, outcomes)
  {
    if nPast == 0 {
      ChunksLand(FreeSequence(kv, q), q, prompt, 0, cap, outcomes);
    } else {
      var (kv', ok) := Truncate(kv, q, nPast, trims);
      assert Resident(kv, q)[..nPast] == prompt[..nPast];
      ChunksLand(kv', q, prompt, if ok then nPast else 0, cap, outcomes);
    }
  }

  /** The fallback succeeds if and only if the batches of the full prefill do, or the
      partial one applies where the sequence ends and its batches do. */
  lemma FallbackSucceeds(kv: Kv, q: int, prompt: seq<Token>, reuse: Reuse, cap: int, luck: Luck)
    requires cap >= 1 && prompt != [] && Resident(kv, q) <= prompt && 0 <= reuse.start < |prompt|
    ensures Fallback(kv, q, prompt, reuse, cap, luck).1 <==>
            || AllDone(luck.full, Rounds(|prompt|, cap))
            || (reuse.copied && |Resident(kv, q)| == reuse.start &&
                AllDone(luck.partial, Rounds(|prompt| - reuse.start, cap)))
  {
    hide Chunks, AllDone, Rounds;
    var kv', ok := kv, false;
    if reuse.copied {
      if |Resident(kv, q)| == reuse.start {
        ChunksSucceedIff(kv, q, prompt, reuse.start, cap, luck.partial);
      } else {
        ChunksElsewhereAreRefused(kv, q, prompt, reuse.start, cap, luck.partial);
      }
      var partial := Chunks(kv, q, prompt, reuse.start, cap, luck.partial);
      kv', ok := partial.0, partial.1;
    }
    if !ok { ChunksSucceedIff(FreeSequence(kv', q), q, prompt, 0, cap, luck.full); }
  }

  /** The batches let a prefill of n tokens through, of which the first `start` may be
      reused: those of the step do, or those of the last resort, or those of the
      partial prefill of a reused prefix, if the step ended where that begins. */
  predicate Fills(n: nat, start: nat, reused: bool, cap: int, luck: Luck)
    requires cap >= 1 && start < n
  {
    var base := if luck.stepTrims then start else 0;
    || AllDone(luck.step, Rounds(n - base, cap))
    || AllDone(luck.full, Rounds(n, cap))
    || (reused && base + Landed(n - base, cap, luck.step) == start && AllDone(luck.partial, Rounds(n - start, cap)))
  }

  /** A prefill succeeds if and only if its batches let it through. */
  lemma PrefillSucceedsIff(kv: Kv, q: int, prompt: seq<Token>, warm: Warm, cap: int, luck: Luck)
    requires cap >= 1 && q >= 0 && Holds(kv, prompt, warm, q) && prompt != []
    ensures var reused := warm.Warm? && warm.matched > 0 && warm.cached >= 0 &&
                (warm.session || luck.copyTrims || |prompt| == 1);
            var start := if reused then Min(warm.matched, |prompt| - 1) else 0;
            Prefill(kv, q, prompt, warm, cap, luck).1 <==> Fills(|prompt|, start, reused, cap, luck)
  {
    hide PhasedStep, ResolveReuse, Fallback, AllDone, Rounds, Landed, Resident;
    ReusedIff(kv, prompt, warm, q, luck.copyTrims);
    ResolveKeepsThePrefix(kv, prompt, warm, q, luck.copyTrims);
    var reuse := ResolveReuse(kv, prompt, warm, q, luck.copyTrims);
    StepSucceedsIff(reuse.kv, q, prompt, reuse.start, cap, luck.stepTrims, luck.step);
    PhasedStepFillsTheSequence(reuse.kv, q, prompt, reuse.start, cap, luck.stepTrims, luck.step);
    StepLands(reuse.kv, q, prompt, reuse.start, cap, luck.stepTrims, luck.step);
    var (kv1, ok1) := PhasedStep(reuse.kv, q, prompt, reuse.start, cap, luck.stepTrims, luck.step);
    if !ok1 { FallbackSucceeds(kv1, q, prompt, reuse, cap, luck); }
  }

  // ---- the methods, in place on a backend ----

  /** A chunk submitted at `at`: it begins where the sequence ends, holds one to
      cap tokens, and asks for logits exactly when it ends the prompt. */
  predicate Fits(c: Chunk, at: int, q: int, prompt: seq<Token>, cap: int) {
    && c.sequence == q
    && c.pos == at == c.resident
    && 0 <= at
    && 1 <= |c.tokens| <= cap
    && at + |c.tokens| <= |prompt|
    && c.tokens == prompt[at..at + |c.tokens|]
    && (c.logits <==> at + |c.tokens| == |prompt|)
  }

  /** The chunks tile prompt[start..] from start on, without gap or overlap. */
  predicate Tiles(log: seq<Chunk>, q: int, prompt: seq<Token>, start: int, cap: int) {
    log != [] ==>
      var front := log[..|log| - 1];
      Tiles(front, q, prompt, start, cap) && Fits(log[|log| - 1], End(front, start), q, prompt, cap)
  }

  function End(log: seq<Chunk>, start: int): int {
    if log == [] then start else log[|log| - 1].pos + |log[|log| - 1].tokens|
  }

  class Backend {
    var kv: Kv
    var log: seq<Chunk>

    constructor (kv: Kv)
      ensures this.kv == kv && log == []
    {
      this.kv := kv;
      log := [];
    }

    method ClearSequence(q: int)
      modifies this`kv
      ensures kv == FreeSequence(old(kv), q)
    {
      kv := kv[q := []];
    }

    method TruncateSequence(q: int, n: int, trims: bool) returns (ok: bool)
      modifies this`kv
      ensures (kv, ok) == Truncate(old(kv), q, n, trims)
    {
      if n <= 0 {
        ClearSequence(q);
        return true;
      }
      if !trims {
        ClearSequence(q);
        return false;
      }
      kv := kv[q := Resident(kv, q)[..Min(n, |Resident(kv, q)|)]];
      ok := true;
    }

    method CopySequencePrefix(src: int, dst: int, n: int, trims: bool) returns (ok: bool)
      modifies this`kv
      ensures (kv, ok) == CopyPrefix(old(kv), src, dst, n, trims)
    {
      ClearSequence(dst);
      if n <= 0 {
        return true;
      }
      kv := kv[dst := Resident(kv, src)];
      ok := TruncateSequence(dst, n, trims);
    }

    method ExecuteUnifiedBatch(q: int, pos: int, tokens: seq<Token>, logits: bool, o: Outcome) returns (ok: bool)
      modifies this
      ensures (kv, ok) == Submit(old(kv), q, pos, tokens, o)
      ensures log == old(log) + [Chunk(q, pos, tokens, logits, |Resident(old(kv), q)|)]
    {
      log := log + [Chunk(q, pos, tokens, logits, |Resident(kv, q)|)];
      if pos != |Resident(kv, q)| {
        return false;
      }
      match o
      case Done =>
        kv := kv[q := Resident(kv, q) + tokens];
        ok := true;
      case Failed(k) =>
        kv := kv[q := Resident(kv, q) + tokens[..Min(k, |tokens|)]];
        ok := false;
    }

    method ResolvePrefixReuse(prompt: seq<Token>, warm: Warm, q: int, trims: bool) returns (start: int, copied: bool)
      modifies this`kv
      ensures Reuse(kv, start, copied) == ResolveReuse(old(kv), prompt, warm, q, trims)
    {
      start, copied := 0, false;
      if warm.Cold? || warm.matched <= 0 || warm.cached < 0 {
        return;
      }
      start := Clamp(warm.matched, 0, |prompt|);
      if start >= |prompt| {
        start := Max(0, |prompt| - 1);
      }
      if warm.session {
        copied := true;
      } else {
        copied := CopySequencePrefix(warm.cached, q, start, trims);
        if !copied {
          start := 0;
        }
      }
    }

    /** The chunk loop. From a sequence that ends at `at`, no chunk is submitted
        at a position other than the resident length. */
    method SubmitChunks(q: int, prompt: seq<Token>, start: nat, cap: int, outcomes: seq<Outcome>) returns (ok: bool)
      requires cap >= 1 && start <= |prompt|
      modifies this
      ensures (kv, ok) == Chunks(old(kv), q, prompt, start, cap, outcomes)
      ensures old(log) <= log
      ensures Resident(old(kv), q) == prompt[..start] ==>
                && Tiles(log[|old(log)|..], q, prompt, start, cap)
                && (ok ==> End(log[|old(log)|..], start) == |prompt|)
    {
      hide Chunks, Submit, Resident, First, Rest, SoFar, Tiles, End;
      ghost var before, kv0 := log, kv;
      var at, left := start, outcomes;
      ghost var sent: seq<Chunk> := [];
      ghost var clean := Resident(kv, q) == prompt[..start];
      if clean { NoneSent(kv, q, prompt, start, cap); }
      while at < |prompt|
        invariant start <= at <= |prompt|
        invariant Chunks(kv, q, prompt, at, cap, left) == Chunks(kv0, q, prompt, start, cap, outcomes)
        invariant log == before + sent
        invariant clean ==> SoFar(kv, sent, q, prompt, start, at, cap)
      {
        var end := Min(at + cap, |prompt|);
        NextChunk(kv, q, prompt, at, cap, left);
        if clean { OneMoreChunk(kv, sent, q, prompt, start, at, cap, First(left)); }
        sent := sent + [Chunk(q, at, prompt[at..end], end == |prompt|, |Resident(kv, q)|)];
        ok := ExecuteUnifiedBatch(q, at, prompt[at..end], end == |prompt|, First(left));
        assert log[|before|..] == sent;
        if !ok {
          return;
        }
        at, left := end, Rest(left);
      }
      assert log[|before|..] == sent;
      NoMoreChunks(kv, q, prompt, cap, left);
      if clean { AllSent(kv, sent, q, prompt, start, cap); }
      ok := true;
    }

    /** One phased prefill. From a sequence that holds the planned prefix, a
        successful step tiles the rest of the prompt, so it asks for logits once,
        on the prompt's last token. */
    method ExecutePhasedPrefillStep(q: int, prompt: seq<Token>, nPast: int, capacity: int, chunkCap: int, trims: bool,
        outcomes: seq<Outcome>)
        returns (ok: bool, start: nat)
      modifies this
      ensures var cap := Min(Max(1, capacity), Max(1, chunkCap));
              (kv, ok) == PhasedStep(old(kv), q, prompt, nPast, cap, trims, outcomes)
      ensures q >= 0 && 0 <= nPast < |prompt| ==> start == if trims then nPast else 0
      ensures start == 0 || start == |prompt| - 1 || start == nPast
      ensures old(log) <= log
      ensures 0 <= nPast < |prompt| && prompt[..nPast] <= Resident(old(kv), q) ==>
                var cap := Min(Max(1, capacity), Max(1, chunkCap));
                && Tiles(log[|old(log)|..], q, prompt, start, cap)
                && (ok ==> log[|old(log)|..] != [] && End(log[|old(log)|..], start) == |prompt|)
    {
      ok, start := false, 0;
      if q < 0 || prompt == [] {
        assert log[|log|..] == [];
        return;
      }
      start := Clamp(nPast, 0, |prompt|);
      if start >= |prompt| {
        start := |prompt| - 1;
      }
      if start == 0 {
        ClearSequence(q);
      } else {
        assert 0 <= nPast < |prompt| && prompt[..nPast] <= Resident(kv, q) ==>
            Resident(kv, q)[..nPast] == prompt[..nPast];
        var trimmed := TruncateSequence(q, start, trims);
        if !trimmed {
          start := 0;
        }
      }
      var cap := Min(Max(1, capacity), Max(1, chunkCap));
      ok := SubmitChunks(q, prompt, start, cap, outcomes);
    }
  }

  predicate SoFar(kv: Kv, sent: seq<Chunk>, q: int, prompt: seq<Token>, start: int, at: nat, cap: int) {
    at <= |prompt| && Resident(kv, q) == prompt[..at] && Tiles(sent, q, prompt, start, cap) && End(sent, start) == at
  }

  lemma NoneSent(kv: Kv, q: int, prompt: seq<Token>, start: nat, cap: int)
    requires start <= |prompt| && Resident(kv, q) == prompt[..start]
    ensures SoFar(kv, [], q, prompt, start, start, cap)
  {
  }

  lemma AllSent(kv: Kv, sent: seq<Chunk>, q: int, prompt: seq<Token>, start: nat, cap: int)
    requires SoFar(kv, sent, q, prompt, start, |prompt|, cap)
    ensures Tiles(sent, q, prompt, start, cap) && End(sent, start) == |prompt|
  {
  }

  lemma NextChunk(kv: Kv, q: int, prompt: seq<Token>, at: nat, cap: int, outcomes: seq<Outcome>)
    requires cap >= 1 && at < |prompt|
    ensures var end := Min(at + cap, |prompt|);
            var (kv', ok) := Submit(kv, q, at, prompt[at..end], First(outcomes));
            Chunks(kv, q, prompt, at, cap, outcomes) ==
            if ok then Chunks(kv', q, prompt, end, cap, Rest(outcomes)) else (kv', false)
  {
    hide Submit, First, Rest;
  }

  lemma NoMoreChunks(kv: Kv, q: int, prompt: seq<Token>, cap: int, outcomes: seq<Outcome>)
    requires cap >= 1
    ensures Chunks(kv, q, prompt, |prompt|, cap, outcomes) == (kv, true)
  {
  }

  lemma OneMoreTile(sent: seq<Chunk>, c: Chunk, q: int, prompt: seq<Token>, start: int, cap: int)
    requires Tiles(sent, q, prompt, start, cap) && Fits(c, End(sent, start), q, prompt, cap)
    ensures Tiles(sent + [c], q, prompt, start, cap) && End(sent + [c], start) == End(sent, start) + |c.tokens|
  {
    assert (sent + [c])[..|sent|] == sent;
  }

  lemma OneMoreChunk(kv: Kv, sent: seq<Chunk>, q: int, prompt: seq<Token>, start: int, at: nat, cap: int, o: Outcome)
    requires at < |prompt| && cap >= 1 && SoFar(kv, sent, q, prompt, start, at, cap)
    ensures var end := Min(at + cap, |prompt|);
            var sent' := sent + [Chunk(q, at, prompt[at..end], end == |prompt|, |Resident(kv, q)|)];
            var (kv', ok) := Submit(kv, q, at, prompt[at..end], o);
            && Tiles(sent', q, prompt, start, cap)
            && (ok ==> SoFar(kv', sent', q, prompt, start, end, cap))
  {
    hide Tiles;
    var end := Min(at + cap, |prompt|);
    var c := Chunk(q, at, prompt[at..end], end == |prompt|, |Resident(kv, q)|);
    OneMoreTile(sent, c, q, prompt, start, cap);
    assert prompt[..at] + prompt[at..end] == prompt[..end];
  }

  /** A tiling that reaches the end of the prompt asks for logits exactly once,
      on its last chunk. */
  lemma {:induction false} LogitsAskedOnce(log: seq<Chunk>, q: int, prompt: seq<Token>, start: int, cap: int)
    requires Tiles(log, q, prompt, start, cap)
    ensures forall i :: 0 <= i < |log| ==> (log[i].logits <==> i == |log| - 1 && End(log, start) == |prompt|)
    ensures log != [] ==> End(log, start) <= |prompt|
  {
    if log != [] {
      var front := log[..|log| - 1];
      LogitsAskedOnce(front, q, prompt, start, cap);
      assert forall i :: 0 <= i < |front| ==> front[i] == log[i];
    }
  }
}
