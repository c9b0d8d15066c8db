/** Pausing and resuming a decode: the step state is folded into the request's
fairness fields, cleared, and rebuilt from them. */
module DecodeSteps {
  import opened Common

  /** The step state of one request (its execution fields). */
  datatype Execution = Execution(
    initialized: bool, active: bool, generated: int, silent: int, maxSilent: int, limit: int, current: int,
    inPrefill: bool, text: string)

  /** What a paused request carries: the fairness counters, the output so far, and
      where its sequence stands. */
  datatype State = State(
    maxTokens: int, total: int, remaining: int, output: string, nPast: int, promptLength: nat, offset: int,
    firstToken: int, firstPiece: string, step: Execution)

  function Cleared(): Execution { Execution(false, true, 0, 0, 32, 0, -1, false, "") }

  function Reset(s: State): State { s.(step := Cleared()) }

  /** How appending a piece went: the text afterwards, and whether a stop string
      was hit. */
  datatype Append = Append(text: string, stop: bool)

  function Limit(s: State): int {
    Max(0, s.total) + (if s.remaining < 0 then Max(0, s.maxTokens - Max(0, s.total)) else s.remaining)
  }

  function FirstEmitted(e: Execution, token: int, piece: string, cancelled: bool, appended: Append): Execution {
    var counted := if piece != "" then e.(generated := e.generated + 1, text := appended.text)
        else e.(silent := e.silent + 1);
    var stops := (piece != "" && appended.stop) || cancelled || counted.silent >= counted.maxSilent ||
        counted.generated >= counted.limit;
    counted.(current := token, active := e.active && !stops)
  }

  function Primed(s: State, cancelled: bool, appended: Append): Execution {
    var e := Execution(true, true, Max(0, s.total), 0, Max(s.maxTokens * 8, 32), Limit(s), -1, false, s.output);
    if s.nPast >= 0 && s.firstToken >= 0 then FirstEmitted(e, s.firstToken, s.firstPiece, cancelled, appended)
    else if s.nPast == 0 && s.promptLength > 0 then e.(inPrefill := true)
    else if s.nPast > 0 && s.promptLength > 0 && 0 < s.offset < s.promptLength then e.(inPrefill := true)
    else e.(active := false, text := "[batch state error]")
  }

  function Prime(s: State, cancelled: bool, appended: Append): State {
    if s.step.initialized then s
    else
      var e := Primed(s, cancelled, appended);
      s.(step := e, nPast := if e.inPrefill && s.nPast > 0 then s.offset else s.nPast,
         firstPiece := if s.nPast >= 0 && s.firstToken >= 0 then "" else s.firstPiece,
         output := e.text, total := e.generated, remaining := Max(0, e.limit - e.generated))
  }

  predicate Continues(s: State) {
    s.step.initialized && s.step.active && (s.step.inPrefill || s.step.generated < s.step.limit)
  }

  function Sync(s: State): State {
    if !s.step.initialized then s
    else
      var t := s.(output := s.step.text, total := s.step.generated,
          remaining := Max(0, s.step.limit - s.step.generated));
      if Continues(s) then t.(firstToken := s.step.current, firstPiece := "") else t
  }

  // ---- the same, in place ----

  class Request {
    const maxTokens: int
    const promptLength: nat
    var total: int
    var remaining: int
    var output: string
    var nPast: int
    var offset: int
    var firstToken: int
    var firstPiece: string
    var step: Execution

    constructor (s: State)
      ensures View() == s
    {
      maxTokens, promptLength := s.maxTokens, s.promptLength;
      total, remaining, output, nPast, offset := s.total, s.remaining, s.output, s.nPast, s.offset;
      firstToken, firstPiece, step := s.firstToken, s.firstPiece, s.step;
    }

    function View(): State
      reads this
    {
      State(maxTokens, total, remaining, output, nPast, promptLength, offset, firstToken, firstPiece, step)
    }

    method ResetStep()
      modifies this`step
      ensures View() == Reset(old(View()))
    {
      step := Execution(false, true, 0, 0, 32, 0, -1, false, "");
    }

    /** The token the prefill produced is emitted first, and may be the last. */
    method EmitFirst(cancelled: bool, appended: Append)
      modifies this`step, this`firstPiece
      ensures firstPiece == "" && step == FirstEmitted(old(step), firstToken, old(firstPiece), cancelled, appended)
    {
      step := step.(current := firstToken);
      var piece := firstPiece;
      firstPiece := "";
      var stop := false;
      if piece != "" {
        step := step.(generated := step.generated + 1, text := appended.text);
        stop := appended.stop;
      } else {
        step := step.(silent := step.silent + 1);
      }
      if stop || cancelled || step.silent >= step.maxSilent || step.generated >= step.limit {
        step := step.(active := false);
      }
    }

    method PrimeStep(cancelled: bool, appended: Append)
      modifies this
      ensures View() == Prime(old(View()), cancelled, appended)
    {
      if step.initialized {
        return;
      }
      ResetStep();
      var prior := Max(0, total);
      var left := remaining;
      if left < 0 {
        left := Max(0, maxTokens - prior);
      }
      step := step.(initialized := true, text := output, generated := prior, limit := prior + left,
          maxSilent := Max(maxTokens * 8, 32));
      if nPast >= 0 && firstToken >= 0 {
        EmitFirst(cancelled, appended);
      } else if nPast == 0 && promptLength > 0 {
        step := step.(inPrefill := true);
      } else if nPast > 0 && promptLength > 0 && 0 < offset < promptLength {
        nPast := offset;
        step := step.(inPrefill := true);
      } else {
        step := step.(active := false, text := "[batch state error]");
      }
      output, total := step.text, step.generated;
      remaining := Max(0, step.limit - step.generated);
    }

    method SyncProgress()
      modifies this
      ensures View() == Sync(old(View()))
    {
      if !step.initialized {
        return;
      }
      output, total := step.text, step.generated;
      remaining := Max(0, step.limit - step.generated);
      if step.active && (step.inPrefill || step.generated < step.limit) {
        firstToken, firstPiece := step.current, "";
      }
    }
  }

  // ---- pause, then resume ----

  /** A paused decode resumes where it was: same token count, limit, text and
      current token, still running; only the silent-step counter starts over. */
  lemma ResumeRestores(s: State, appended: Append)
    requires Continues(s) && !s.step.inPrefill && s.step.current >= 0 && s.step.generated >= 0 && s.nPast >= 0
    ensures var r := Prime(Reset(Sync(s)), false, appended);
            && r.step.generated == s.step.generated && r.step.limit == s.step.limit
            && r.step.text == s.step.text && r.step.current == s.step.current
            && Continues(r) && !r.step.inPrefill && r.nPast == s.nPast
            && r.step.silent == 1
  {
  }

  /** The token a prefill produced is emitted when its decode begins: a visible piece
      reaches the text and counts as one token, an empty one counts as a silent step;
      the request goes on unless a stop string, its limit or a cancellation ends it. */
  lemma TheFirstPieceCounts(s: State, cancelled: bool, appended: Append)
    requires !s.step.initialized && s.nPast >= 0 && s.firstToken >= 0
    ensures var r, before := Prime(s, cancelled, appended), Max(0, s.total);
            var visible := s.firstPiece != "";
            && r.step.current == s.firstToken && !r.step.inPrefill && r.firstPiece == "" && r.nPast == s.nPast
            && r.step.generated == (if visible then before + 1 else before)
            && r.step.text == (if visible then appended.text else s.output)
            && r.output == r.step.text && r.total == r.step.generated
            && r.remaining == Max(0, r.step.limit - r.step.generated) && r.step.maxSilent == Max(8 * s.maxTokens, 32)
            && (r.step.active <==> !cancelled && !(visible && appended.stop) && r.step.generated < r.step.limit)
            && (s.remaining >= 0 ==> r.step.limit == before + s.remaining)
            && (s.remaining < 0 ==> r.step.limit == Max(before, s.maxTokens))
  {
  }

  /** Without a first token it prefills: from the start, or from where its prefill
      stands; with neither it is in error and does not run. */
  lemma WithoutAFirstTokenItPrefills(s: State, cancelled: bool, appended: Append)
    requires !s.step.initialized && s.firstToken < 0
    ensures var r := Prime(s, cancelled, appended);
            var anew, midway := s.nPast == 0 && s.promptLength > 0, s.nPast > 0 && 0 < s.offset < s.promptLength;
            && (r.step.inPrefill <==> anew || midway) && (r.step.active <==> r.step.inPrefill)
            && r.nPast == (if midway then s.offset else s.nPast)
            && r.step.generated == Max(0, s.total) && r.remaining == Max(0, r.step.limit - r.step.generated)
            && (!r.step.inPrefill ==> r.output == "[batch state error]") && (r.step.inPrefill ==> r.output == s.output)
  {
  }

  // ---- runs ----

  /** What one model step returns: a failed or terminal token, or a token with a
      visible piece or none. */
  datatype Token = Bad | Token(id: nat, visible: bool, appended: Append)

  datatype Event =
    | Primes(cancelled: bool, first: Append)
    | Decodes(token: Token, cancelled: bool)
    | Prefills(cap: int, ok: bool, last: Token)
    | Pauses

  function Emit(e: Execution, token: Token): Execution
    requires token.Token?
  {
    var counted := if token.visible then e.(generated := e.generated + 1, text := token.appended.text)
        else e.(silent := e.silent + 1);
    var stops := (if token.visible then token.appended.stop else counted.silent >= counted.maxSilent) ||
        counted.generated >= counted.limit;
    counted.(current := token.id, active := e.active && !stops)
  }

  function DecodeOne(s: State, token: Token, cancelled: bool): State {
    if !s.step.initialized || !s.step.active || s.step.inPrefill then s
    else if s.step.generated >= s.step.limit then s.(step := s.step.(active := false))
    else if token.Bad? then s.(nPast := s.nPast + 1, step := s.step.(active := false))
    else
      var e := Emit(s.step, token);
      s.(nPast := s.nPast + 1, step := if token.visible && cancelled then e.(active := false) else e)
  }

  /** One chunk of at most cap tokens; with no token left the request goes on to
      decode without having sampled one. */
  function PrefillOne(s: State, cap: int, ok: bool, last: Token): State {
    var chunk := Min(s.promptLength - s.offset, cap);
    if !s.step.initialized || !s.step.active || !s.step.inPrefill then s
    else if chunk <= 0 then s.(step := s.step.(inPrefill := false))
    else if !ok && s.offset + chunk < s.promptLength then s.(step := s.step.(active := false, inPrefill := false))
    else if s.offset + chunk < s.promptLength then s.(offset := s.offset + chunk)
    else if !ok || last.Bad? then s.(offset := s.offset + chunk, step := s.step.(active := false, inPrefill := false))
    else s.(offset := s.offset + chunk, nPast := s.offset + chunk, step := Emit(s.step.(inPrefill := false), last))
  }

  function Next(s: State, e: Event): State {
    match e
    case Primes(cancelled, first) => Prime(s, cancelled, first)
    case Decodes(token, cancelled) => DecodeOne(s, token, cancelled)
    case Prefills(cap, ok, last) => PrefillOne(s, cap, ok, last)
    case Pauses => if Continues(s) then Reset(Sync(s)) else s
  }

  function Run(s: State, events: seq<Event>): State
    decreases |events|
  {
    if events == [] then s else Run(Next(s, events[0]), events[1..])
  }

  /** A request as accepted, possibly after its prefill produced a first token. */
  predicate Fresh(s: State) {
    s.maxTokens >= 1 && s.total == 0 && s.remaining == s.maxTokens && !s.step.initialized
  }

  /** Never beyond the limit, never a limit beyond max_tokens; and whoever still
      has a first token to emit has room for it. */
  predicate Bounded(s: State) {
    if s.step.initialized then
      && 0 <= s.step.generated <= s.step.limit <= s.maxTokens
      && (s.step.active ==> s.step.generated < s.step.limit)
    else
      && 0 <= s.total && 0 <= s.remaining && s.total + s.remaining <= s.maxTokens
      && (s.firstPiece != "" || s.firstToken < 0 ==> s.remaining >= 1)
  }

  lemma StepKeeps(s: State, e: Event)
    requires Bounded(s)
    ensures Bounded(Next(s, e)) && Next(s, e).maxTokens == s.maxTokens
  {
  }

  lemma {:induction false} RunKeeps(s: State, events: seq<Event>)
    requires Bounded(s)
    ensures Bounded(Run(s, events)) && Run(s, events).maxTokens == s.maxTokens
    decreases |events|
  {
    hide Bounded;
    if events != [] {
      StepKeeps(s, events[0]);
      RunKeeps(Next(s, events[0]), events[1..]);
    }
  }

  /** Over any run of steps, pauses and resumes, the completion tokens reported at
      the end never exceed max_tokens. */
  lemma ReportedTokensWithinMax(s: State, events: seq<Event>)
    requires Fresh(s)
    ensures 0 <= Sync(Run(s, events)).total <= s.maxTokens
  {
    RunKeeps(s, events);
  }

  // ---- what is reported ----

  /** The completion tokens reported if the request ended here. */
  function Reported(s: State): int { if s.step.initialized then s.step.generated else s.total }

  predicate Running(s: State) { s.step.initialized && s.step.active }

  /** The step shows a piece: a first one, a decoded one, or that of the last chunk. */
  predicate Shows(s: State, e: Event) {
    match e
    case Primes(cancelled, first) => !s.step.initialized && s.nPast >= 0 && s.firstToken >= 0 && s.firstPiece != ""
    case Decodes(token, cancelled) => Running(s) && !s.step.inPrefill && token.Token? && token.visible
    case Prefills(cap, ok, last) =>
      && Running(s) && s.step.inPrefill && ok && cap >= 1 && s.offset < s.promptLength <= s.offset + cap
      && last.Token? && last.visible
    case Pauses => false
  }

  /** Exactly the visible pieces are counted, one token each. */
  lemma VisiblePiecesAreCounted(s: State, e: Event)
    requires Bounded(s)
    ensures Reported(Next(s, e)) == Reported(s) + (if Shows(s, e) then 1 else 0)
  {
  }

  function Shown(s: State, events: seq<Event>): nat
    decreases |events|
  {
    if events == [] then 0 else (if Shows(s, events[0]) then 1 else 0) + Shown(Next(s, events[0]), events[1..])
  }

  /** Over any run of steps, pauses and resumes, the completion tokens reported are the
      pieces shown. */
  lemma {:induction false} ReportedTokensAreShown(s: State, events: seq<Event>)
    requires Bounded(s)
    ensures Sync(Run(s, events)).total == Reported(s) + Shown(s, events)
    decreases |events|
  {
    hide Bounded, Next;
    if events != [] {
      StepKeeps(s, events[0]);
      VisiblePiecesAreCounted(s, events[0]);
      ReportedTokensAreShown(Next(s, events[0]), events[1..]);
    }
  }

  /** One decode step: the token is the next input, a visible piece is appended, and
      the request stops exactly at a stop string, its limit, too many silent steps, a
      cancellation, or a bad token. */
  lemma DecodingOne(s: State, token: Token, cancelled: bool)
    requires Bounded(s) && Running(s) && !s.step.inPrefill
    ensures var r := DecodeOne(s, token, cancelled);
            && r.nPast == s.nPast + 1
            && (token.Bad? ==> r.step == s.step.(active := false))
            && (token.Token? ==>
                  && r.step.current == token.id
                  && r.step.text == (if token.visible then token.appended.text else s.step.text)
                  && r.step.silent == (if token.visible then s.step.silent else s.step.silent + 1)
                  && (r.step.active <==>
                        && r.step.generated < r.step.limit
                        && (token.visible ==> !token.appended.stop && !cancelled)
                        && (!token.visible ==> r.step.silent < r.step.maxSilent)))
  {
  }

  /** One chunk: the prefill goes on by as many tokens as fit; the last chunk's token
      starts the decode; a failed one ends the request. */
  lemma PrefillingOne(s: State, cap: int, ok: bool, last: Token)
    requires Running(s) && s.step.inPrefill && cap >= 1 && 0 <= s.offset < s.promptLength
    ensures var r, end := PrefillOne(s, cap, ok, last), Min(s.promptLength, s.offset + cap);
            && (ok && end < s.promptLength ==> r == s.(offset := end))
            && (ok && end == s.promptLength && last.Token? ==>
                  && r.offset == r.nPast == s.promptLength && !r.step.inPrefill && r.step.current == last.id
                  && r.step.text == (if last.visible then last.appended.text else s.step.text))
            && (!ok || (end == s.promptLength && last.Bad?) ==> !r.step.active && !r.step.inPrefill)
  {
  }

  /** With nothing left to prefill, or no room for it, the request goes on to decode. */
  lemma PrefillingNothing(s: State, cap: int, ok: bool, last: Token)
    requires Running(s) && s.step.inPrefill && (cap <= 0 || s.offset >= s.promptLength)
    ensures PrefillOne(s, cap, ok, last) == s.(step := s.step.(inPrefill := false))
  {
  }

  /** Pausing folds the progress back into the request: its text, its count, what is
      left of its budget, and the token to go on from. */
  lemma PausingKeepsProgress(s: State)
    requires Bounded(s) && Continues(s)
    ensures var r := Next(s, Pauses);
            && r.output == s.step.text && r.total == s.step.generated && r.remaining == s.step.limit - s.step.generated
            && r.firstToken == s.step.current && r.firstPiece == "" && !r.step.initialized
            && r.nPast == s.nPast && r.offset == s.offset && r.maxTokens == s.maxTokens
  {
  }
}
