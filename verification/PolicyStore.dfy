/** The policy store's text form: Save prints it, Load parses it line by line. */
module PolicyStore {
  import opened Common
  import opened PolicyText

  datatype Routing = Routing(allowFallback: bool, requireReady: bool, scope: string)

  datatype Store = Store(keys: map<string, seq<string>>, words: seq<string>, rate: int, routing: Option<Routing>)

  // ---- the names of the format ----

  function ApiKeys(): string { "api_keys" }

  function Guardrail(): string { "guardrail" }

  function WordsKey(): string { "words" }

  function RateLimit(): string { "rate_limit" }

  function TokensKey(): string { "tokens" }

  function RoutingName(): string { "routing" }

  function AllowKey(): string { "allow_default_fallback" }

  function ReadyKey(): string { "require_ready_backend" }

  function ScopeKey(): string { "fallback_scope" }

  // ---- printing ----

  function Header(name: string): string { ['['] + name + [']'] }

  function Assigned(key: string, value: string): string { key + ['='] + value }

  function KeyLine(key: string, scopes: seq<string>): string { Assigned(key, JoinCsv(scopes)) }

  function KeyLines(keys: map<string, seq<string>>, order: seq<string>): (r: seq<string>)
    requires forall i :: 0 <= i < |order| ==> order[i] in keys
  {
    if order == [] then [] else [KeyLine(order[0], keys[order[0]])] + KeyLines(keys, order[1..])
  }

  function BoolText(b: bool): string { if b then "true" else "false" }

  function RoutingLines(routing: Option<Routing>): seq<string> {
    if routing.None? then []
    else ["", Header(RoutingName())] +
         [Assigned(AllowKey(), BoolText(routing.value.allowFallback)),
          Assigned(ReadyKey(), BoolText(routing.value.requireReady)),
          Assigned(ScopeKey(), routing.value.scope)]
  }

  function GuardrailLines(words: seq<string>): seq<string> {
    ["", Header(Guardrail()), Assigned(WordsKey(), JoinCsv(words))]
  }

  function RateLines(rate: int): seq<string> { ["", Header(RateLimit()), Assigned(TokensKey(), PrintInt(rate))] }

  function TailLines(s: Store): seq<string> { GuardrailLines(s.words) + RateLines(s.rate) + RoutingLines(s.routing) }

  /** The map enumerates its keys in some order, each once. */
  ghost predicate Enumerates(order: seq<string>, keys: map<string, seq<string>>) {
    (forall k :: k in order <==> k in keys) && (forall i, j :: 0 <= i < j < |order| ==> order[i] != order[j])
  }

  function Print(s: Store, order: seq<string>): string
    requires forall i :: 0 <= i < |order| ==> order[i] in s.keys
  {
    Unlines([Header(ApiKeys())] + KeyLines(s.keys, order) + TailLines(s))
  }

  // ---- parsing ----

  const DEFAULT_ROUTING := Routing(true, false, "any_compatible")

  datatype Parser =
    | Parser(section: string, keys: map<string, seq<string>>, words: seq<string>, rate: int, routing: Routing,
        hasRouting: bool)

  function Lower(s: string): string {
    seq(|s|, i requires 0 <= i < |s| => if 'A' <= s[i] <= 'Z' then (s[i] as int + 32) as char else s[i])
  }

  function ParseBool(value: string, otherwise: bool): bool {
    var lowered := Lower(value);
    if lowered == "true" || lowered == "1" || lowered == "yes" then true
    else if lowered == "false" || lowered == "0" || lowered == "no" then false
    else otherwise
  }

  predicate IsSection(line: string) { line != "" && line[0] == '[' && line[|line| - 1] == ']' }

  function Assign(p: Parser, key: string, value: string): Parser {
    if p.section == ApiKeys() then p.(keys := p.keys[key := SplitCsv(value)])
    else if p.section == Guardrail() && key == WordsKey() then p.(words := SplitCsv(value))
    else if p.section == RateLimit() && key == TokensKey() then p.(rate := ParseInt(value))
    else if p.section == RoutingName() && key == AllowKey() then
      p.(routing := p.routing.(allowFallback := ParseBool(value, p.routing.allowFallback)), hasRouting := true)
    else if p.section == RoutingName() && key == ReadyKey() then
      p.(routing := p.routing.(requireReady := ParseBool(value, p.routing.requireReady)), hasRouting := true)
    else if p.section == RoutingName() && key == ScopeKey() then
      p.(routing := if value != "" then p.routing.(scope := value) else p.routing, hasRouting := true)
    else p
  }

  function ParseTrimmed(p: Parser, line: string): Parser {
    if line == "" || line[0] == '#' then p
    else if IsSection(line) then p.(section := line[1..|line| - 1])
    else
      var eq := Find(line, '=');
      if eq == |line| then p else Assign(p, Trim(line[..eq]), Trim(line[eq + 1..]))
  }

  function ParseLine(p: Parser, line: string): Parser { ParseTrimmed(p, Trim(line)) }

  function ParseLines(p: Parser, lines: seq<string>): Parser
    decreases |lines|
  {
    if lines == [] then p else ParseLines(ParseLine(p, lines[0]), lines[1..])
  }

  function Empty(): Parser { Parser("", map[], [], 0, DEFAULT_ROUTING, false) }

  function Loaded(p: Parser): Store { Store(p.keys, p.words, p.rate, if p.hasRouting then Some(p.routing) else None) }

  function Parse(text: string): Store { Loaded(ParseLines(Empty(), Pieces(text, '\n'))) }

  /** Load's loop over the lines. */
  method Load(text: string) returns (s: Store)
    ensures s == Parse(text)
  {
    var lines := Pieces(text, '\n');
    var p := Empty();
    for i := 0 to |lines|
      invariant ParseLines(p, lines[i..]) == ParseLines(Empty(), lines)
    {
      assert lines[i..][1..] == lines[i + 1..];
      p := ParseLine(p, lines[i]);
    }
    s := Loaded(p);
  }

  // ---- what survives ----

  predicate OneLine(s: string) { '\n' !in s }

  predicate CleanKey(key: string) { Trimmed(key) && '=' !in key && OneLine(key) && (key != "" ==> key[0] != '#') }

  predicate CleanList(words: seq<string>) { forall i :: 0 <= i < |words| ==> CleanWord(words[i]) && OneLine(words[i]) }

  /** The key and its scopes do not print as a section header. */
  predicate NoHeader(key: string, scopes: seq<string>) { !IsSection(KeyLine(key, scopes)) }

  predicate CleanScope(scope: string) { scope != "" && Trimmed(scope) && OneLine(scope) }

  /** What any parsed text satisfies. */
  predicate Readable(s: Store) {
    && (forall k :: k in s.keys ==> CleanKey(k) && CleanList(s.keys[k]))
    && CleanList(s.words) && INT_MIN <= s.rate <= INT_MAX
    && (s.routing.Some? ==> CleanScope(s.routing.value.scope))
  }

  predicate Clean(s: Store) { Readable(s) && forall k :: k in s.keys ==> NoHeader(k, s.keys[k]) }

  // ---- every parsed store is readable ----

  predicate ReadableSoFar(p: Parser) { Readable(Loaded(p.(hasRouting := true))) }

  lemma SplitIsClean(value: string)
    requires OneLine(value)
    ensures CleanList(SplitCsv(value))
  {
    PiecesFacts(value, ',');
    var pieces := Pieces(value, ',');
    forall i | 0 <= i < |pieces| ensures OneLine(pieces[i]) && ',' !in pieces[i] { assert pieces[i] in pieces; }
    WordsOneLine(Pieces(value, ','));
    WordsAreClean(Pieces(value, ','));
  }

  lemma {:induction false} WordsOneLine(pieces: seq<string>)
    requires forall i :: 0 <= i < |pieces| ==> OneLine(pieces[i])
    ensures forall i :: 0 <= i < |Words(pieces)| ==> OneLine(Words(pieces)[i])
  {
    if pieces != [] {
      WordsOneLine(pieces[1..]);
      TrimFacts(pieces[0]);
    }
  }

  lemma AssignIsReadable(p: Parser, key: string, value: string)
    requires ReadableSoFar(p) && CleanKey(key) && Trimmed(value) && OneLine(value)
    ensures ReadableSoFar(Assign(p, key, value))
  {
    SplitIsClean(value);
    hide SplitCsv, ParseInt, ParseBool;
  }

  lemma LineIsReadable(p: Parser, line: string)
    requires ReadableSoFar(p) && OneLine(line)
    ensures ReadableSoFar(ParseLine(p, line))
  {
    var t := Trim(line);
    TrimFacts(line);
    if t != "" && t[0] != '#' && !IsSection(t) && Find(t, '=') < |t| {
      var eq := Find(t, '=');
      KeyIsClean(t, eq);
      TrimFacts(t[eq + 1..]);
      hide Assign, Trim, ReadableSoFar;
      AssignIsReadable(p, Trim(t[..eq]), Trim(t[eq + 1..]));
    }
  }

  lemma KeyIsClean(t: string, eq: nat)
    requires eq < |t| && OneLine(t) && '=' !in t[..eq] && t[0] != '#' && Trimmed(t)
    ensures CleanKey(Trim(t[..eq]))
  {
    var k := t[..eq];
    TrimFacts(k);
    DropFrontFacts(k);
    DropBackFacts(DropFront(k));
    if eq > 0 {
      assert DropFront(k) == k;
      if Trim(k) != "" { assert Trim(k)[0] == k[0]; }
    }
  }

  lemma {:induction false} LinesAreReadable(p: Parser, lines: seq<string>)
    requires ReadableSoFar(p) && forall i :: 0 <= i < |lines| ==> OneLine(lines[i])
    ensures ReadableSoFar(ParseLines(p, lines))
    decreases |lines|
  {
    hide ReadableSoFar, ParseLine;
    if lines != [] {
      LineIsReadable(p, lines[0]);
      LinesAreReadable(ParseLine(p, lines[0]), lines[1..]);
    }
  }

  /** Whatever the text, what Load reads has clean keys, words and scope. */
  lemma ParsedIsReadable(text: string)
    ensures Readable(Parse(text))
  {
    hide Pieces, ParseLines;
    PiecesFacts(text, '\n');
    LinesAreReadable(Empty(), Pieces(text, '\n'));
  }

  // ---- printing, then parsing ----

  lemma {:induction false} ParseAppends(p: Parser, a: seq<string>, b: seq<string>)
    ensures ParseLines(p, a + b) == ParseLines(ParseLines(p, a), b)
    decreases |a|
  {
    hide ParseLine;
    if a == [] {
      assert a + b == b;
    } else {
      assert (a + b)[1..] == a[1..] + b;
      ParseAppends(ParseLine(p, a[0]), a[1..], b);
    }
  }

  /** A line that assigns a clean key, and does not look like a header. */
  lemma AssignmentLine(p: Parser, key: string, value: string)
    requires CleanKey(key) && Trimmed(value) && !IsSection(Assigned(key, value))
    ensures ParseLine(p, Assigned(key, value)) == Assign(p, key, value)
  {
    var line := Assigned(key, value);
    assert Trimmed(line) by {
      if value == "" { assert line[|line| - 1] == '='; } else { assert line[|line| - 1] == value[|value| - 1]; }
    }
    TrimFacts(line);
    FindFirst(key, '=', value);
    assert line[..|key|] == key && line[|key| + 1..] == value;
    TrimFacts(key);
    TrimFacts(value);
    hide Assign, Trim, Find;
  }

  lemma HeaderLine(p: Parser, name: string)
    ensures ParseLine(p, Header(name)) == p.(section := name)
  {
    var line := Header(name);
    assert line[0] == '[' && line[|line| - 1] == ']' && line[1..|line| - 1] == name;
    TrimFacts(line);
    hide Trim;
  }

  lemma BlankLine(p: Parser)
    ensures ParseLine(p, "") == p
  {
  }

  lemma {:induction false} KeyLinesParse(p: Parser, s: Store, order: seq<string>)
    requires p.section == ApiKeys() && Clean(s)
    requires forall i :: 0 <= i < |order| ==> order[i] in s.keys
    ensures var r := ParseLines(p, KeyLines(s.keys, order));
            && r == p.(keys := r.keys)
            && (forall k :: k in r.keys <==> k in p.keys || k in order)
            && (forall k :: k in r.keys ==> r.keys[k] == if k in order then s.keys[k] else p.keys[k])
    decreases |order|
  {
    hide ParseLine, Trimmed, CleanWord;
    if order != [] {
      var k := order[0];
      OneKeyLine(p, k, s.keys[k]);
      var p' := ParseLine(p, KeyLine(k, s.keys[k]));
      KeyLinesParse(p', s, order[1..]);
      assert order == [k] + order[1..];
    }
  }

  lemma OneKeyLine(p: Parser, k: string, scopes: seq<string>)
    requires p.section == ApiKeys() && CleanKey(k) && CleanList(scopes) && NoHeader(k, scopes)
    ensures ParseLine(p, KeyLine(k, scopes)) == p.(keys := p.keys[k := scopes])
  {
    JoinFacts(scopes);
    SplitOfJoin(scopes);
    hide ParseLine, SplitCsv, JoinCsv, CleanKey;
    AssignmentLine(p, k, JoinCsv(scopes));
  }

  /** A key that is a name of the format, with any value, is an assignment. */
  lemma NamedLine(p: Parser, key: string, value: string)
    requires key in {WordsKey(), TokensKey(), AllowKey(), ReadyKey(), ScopeKey()} && Trimmed(value)
    ensures ParseLine(p, Assigned(key, value)) == Assign(p, key, value)
  {
    assert CleanKey(key) && key[0] != '[';
    hide Assign, ParseLine, WordsKey, TokensKey, AllowKey, ReadyKey, ScopeKey;
    assert Assigned(key, value)[0] == key[0];
    AssignmentLine(p, key, value);
  }

  lemma Assignments(p: Parser, value: string)
    ensures p.section == Guardrail() ==> Assign(p, WordsKey(), value) == p.(words := SplitCsv(value))
    ensures p.section == RateLimit() ==> Assign(p, TokensKey(), value) == p.(rate := ParseInt(value))
    ensures p.section == RoutingName() ==>
              && Assign(p, AllowKey(), value) ==
                  p.(routing := p.routing.(allowFallback := ParseBool(value, p.routing.allowFallback)),
                      hasRouting := true)
              && Assign(p, ReadyKey(), value) ==
                  p.(routing := p.routing.(requireReady := ParseBool(value, p.routing.requireReady)),
                      hasRouting := true)
              && (value != "" ==>
                  Assign(p, ScopeKey(), value) == p.(routing := p.routing.(scope := value), hasRouting := true))
  {
    hide SplitCsv, ParseInt, ParseBool;
  }

  lemma ParseThree(p: Parser, a: string, b: string, c: string)
    ensures ParseLines(p, [a, b, c]) == ParseLine(ParseLine(ParseLine(p, a), b), c)
  {
    hide ParseLine;
    assert [a, b, c][1..] == [b, c] && [b, c][1..] == [c] && [c][1..] == [];
    assert ParseLines(ParseLine(ParseLine(p, a), b), [c]) == ParseLine(ParseLine(ParseLine(p, a), b), c);
    assert ParseLines(ParseLine(p, a), [b, c]) == ParseLines(ParseLine(ParseLine(p, a), b), [c]);
  }

  lemma ParseTwo(p: Parser, a: string, b: string)
    ensures ParseLines(p, [a, b]) == ParseLine(ParseLine(p, a), b)
  {
    hide ParseLine;
    assert [a, b][1..] == [b] && [b][1..] == [];
    assert ParseLines(ParseLine(p, a), [b]) == ParseLine(ParseLine(p, a), b);
  }

  lemma BoolRoundTrip(b: bool, otherwise: bool)
    ensures ParseBool(BoolText(b), otherwise) == b && Trimmed(BoolText(b)) && OneLine(BoolText(b))
  {
    assert Lower("true") == "true" && Lower("false") == "false";
  }

  lemma RoutingParse(p: Parser, r: Routing)
    requires CleanScope(r.scope)
    ensures ParseLines(p, RoutingLines(Some(r))) == p.(section := RoutingName(), routing := r, hasRouting := true)
  {
    var allow, ready := BoolText(r.allowFallback), BoolText(r.requireReady);
    BoolRoundTrip(r.allowFallback, p.routing.allowFallback);
    BoolRoundTrip(r.requireReady, p.routing.requireReady);
    hide ParseBool, BoolText, ParseLine, ParseLines, Assign, Assigned, Header, RoutingName, AllowKey, ReadyKey,
        ScopeKey;
    BlankLine(p);
    HeaderLine(p, RoutingName());
    var q := p.(section := RoutingName());
    NamedLine(q, AllowKey(), allow);
    Assignments(q, allow);
    var q1 := Assign(q, AllowKey(), allow);
    NamedLine(q1, ReadyKey(), ready);
    Assignments(q1, ready);
    var q2 := Assign(q1, ReadyKey(), ready);
    NamedLine(q2, ScopeKey(), r.scope);
    Assignments(q2, r.scope);
    var front, back := ["", Header(RoutingName())],
        [Assigned(AllowKey(), allow), Assigned(ReadyKey(), ready), Assigned(ScopeKey(), r.scope)];
    ParseTwo(p, "", Header(RoutingName()));
    ParseThree(q, Assigned(AllowKey(), allow), Assigned(ReadyKey(), ready), Assigned(ScopeKey(), r.scope));
    ParseAppends(p, front, back);
  }

  lemma GuardrailParse(p: Parser, words: seq<string>)
    requires CleanList(words)
    ensures ParseLines(p, GuardrailLines(words)) == p.(section := Guardrail(), words := words)
  {
    JoinFacts(words);
    SplitOfJoin(words);
    hide ParseLine, ParseLines, JoinCsv, SplitCsv, Assign, Assigned, Header, Guardrail, WordsKey;
    BlankLine(p);
    HeaderLine(p, Guardrail());
    NamedLine(p.(section := Guardrail()), WordsKey(), JoinCsv(words));
    Assignments(p.(section := Guardrail()), JoinCsv(words));
    ParseThree(p, "", Header(Guardrail()), Assigned(WordsKey(), JoinCsv(words)));
  }

  lemma RateParse(p: Parser, rate: int)
    requires INT_MIN <= rate <= INT_MAX
    ensures ParseLines(p, RateLines(rate)) == p.(section := RateLimit(), rate := rate)
  {
    hide ParseLine, ParseLines, PrintInt, ParseInt, Assign, Assigned, Header, RateLimit, TokensKey;
    ParseOfPrintInt(rate);
    BlankLine(p);
    HeaderLine(p, RateLimit());
    NamedLine(p.(section := RateLimit()), TokensKey(), PrintInt(rate));
    Assignments(p.(section := RateLimit()), PrintInt(rate));
    ParseThree(p, "", Header(RateLimit()), Assigned(TokensKey(), PrintInt(rate)));
  }

  lemma TailParse(p: Parser, s: Store)
    requires Readable(s)
    ensures var r := ParseLines(p, TailLines(s));
            && r.keys == p.keys && r.words == s.words && r.rate == s.rate
            && (if s.routing.Some? then r.hasRouting && r.routing == s.routing.value else r.hasRouting == p.hasRouting)
  {
    hide ParseLines, RoutingLines, GuardrailLines, RateLines;
    var a, b, c := GuardrailLines(s.words), RateLines(s.rate), RoutingLines(s.routing);
    GuardrailParse(p, s.words);
    var p1 := ParseLines(p, a);
    RateParse(p1, s.rate);
    var p2 := ParseLines(p1, b);
    if s.routing.Some? { RoutingParse(p2, s.routing.value); } else { NoMoreLines(p2); }
    ParseAppends(p, a, b);
    ParseAppends(p, a + b, c);
  }

  lemma NoMoreLines(p: Parser)
    ensures RoutingLines(None) == [] && ParseLines(p, []) == p
  {
  }

  lemma {:induction false} KeyLinesAreLines(s: Store, order: seq<string>)
    requires Readable(s) && forall i :: 0 <= i < |order| ==> order[i] in s.keys
    ensures forall i :: 0 <= i < |KeyLines(s.keys, order)| ==> OneLine(KeyLines(s.keys, order)[i])
  {
    hide Trimmed, CleanWord;
    if order != [] {
      KeyLinesAreLines(s, order[1..]);
      JoinFactsOf(s.keys[order[0]]);
    }
  }

  lemma JoinFactsOf(words: seq<string>)
    requires CleanList(words)
    ensures OneLine(JoinCsv(words))
  {
    JoinFacts(words);
  }

  lemma NamesAreLines()
    ensures OneLine(Header(ApiKeys())) && OneLine(Header(Guardrail())) && OneLine(Header(RateLimit())) &&
        OneLine(Header(RoutingName()))
    ensures OneLine(WordsKey()) && OneLine(TokensKey()) && OneLine(AllowKey()) && OneLine(ReadyKey()) &&
        OneLine(ScopeKey())
  {
  }

  lemma AssignedIsLine(key: string, value: string)
    requires OneLine(key) && OneLine(value)
    ensures OneLine(Assigned(key, value))
  {
  }

  predicate AllLines(lines: seq<string>) { forall i :: 0 <= i < |lines| ==> OneLine(lines[i]) }

  lemma RoutingLinesAreLines(r: Routing)
    requires OneLine(r.scope)
    ensures AllLines(RoutingLines(Some(r)))
  {
    NamesAreLines();
    BoolRoundTrip(r.allowFallback, true);
    BoolRoundTrip(r.requireReady, true);
    hide BoolText, Header, Assigned, AllowKey, ReadyKey, ScopeKey, RoutingName;
    AssignedIsLine(AllowKey(), BoolText(r.allowFallback));
    AssignedIsLine(ReadyKey(), BoolText(r.requireReady));
    AssignedIsLine(ScopeKey(), r.scope);
  }

  lemma TailLinesAreLines(s: Store)
    requires Readable(s)
    ensures AllLines(TailLines(s))
  {
    NamesAreLines();
    hide BoolText, Header, Assigned, WordsKey, TokensKey, Guardrail, RateLimit, JoinCsv, PrintInt, ParseInt;
    JoinFactsOf(s.words);
    AssignedIsLine(WordsKey(), JoinCsv(s.words));
    ParseOfPrintInt(s.rate);
    AssignedIsLine(TokensKey(), PrintInt(s.rate));
    if s.routing.Some? { RoutingLinesAreLines(s.routing.value); }
  }

  /** The parser's walk over a readable store's text: header, keys, the rest. */
  lemma PrintedParses(s: Store, order: seq<string>)
    requires Readable(s) && forall i :: 0 <= i < |order| ==> order[i] in s.keys
    ensures var p := ParseLines(Empty().(section := ApiKeys()), KeyLines(s.keys, order));
            Parse(Print(s, order)) == Loaded(ParseLines(p, TailLines(s)))
  {
    hide ParseLine, ParseLines, KeyLines, TailLines, Header, ApiKeys;
    var keys, tail := KeyLines(s.keys, order), TailLines(s);
    var head := [Header(ApiKeys())];
    KeyLinesAreLines(s, order);
    TailLinesAreLines(s);
    NamesAreLines();
    PiecesOfUnlines(head + keys + tail);
    HeaderLine(Empty(), ApiKeys());
    ParseOne(Empty(), Header(ApiKeys()));
    ParseAppends(Empty(), head, keys);
    ParseAppends(Empty(), head + keys, tail);
  }

  lemma ParseOne(p: Parser, a: string)
    ensures ParseLines(p, [a]) == ParseLine(p, a)
  {
    hide ParseLine;
    assert [a][1..] == [];
  }

  lemma RoundTrip(s: Store, order: seq<string>)
    requires Clean(s) && Enumerates(order, s.keys)
    ensures Parse(Print(s, order)) == s
  {
    hide ParseLines, KeyLines, TailLines, Print, Parse, ApiKeys, CleanKey, CleanList, IsSection;
    PrintedParses(s, order);
    var start := Empty().(section := ApiKeys());
    KeyLinesParse(start, s, order);
    var p := ParseLines(start, KeyLines(s.keys, order));
    TailParse(p, s);
    assert p.keys == s.keys;
  }

  // ---- and only clean stores survive ----

  lemma SectionLine(p: Parser, line: string)
    requires IsSection(line)
    ensures ParseLine(p, line).keys == p.keys
  {
    TrimFacts(line);
    hide Trim;
  }

  lemma {:induction false} HeaderKeyIsLost(p: Parser, s: Store, order: seq<string>, lost: string)
    requires Readable(s) && lost in s.keys && IsSection(KeyLine(lost, s.keys[lost])) && lost !in p.keys
    requires forall i :: 0 <= i < |order| ==> order[i] in s.keys
    ensures lost !in ParseLines(p, KeyLines(s.keys, order)).keys
    decreases |order|
  {
    hide ParseLine, Trimmed, CleanWord;
    if order != [] {
      var k := order[0];
      var line := KeyLine(k, s.keys[k]);
      if IsSection(line) {
        SectionLine(p, line);
      } else {
        JoinIsTrimmed(s.keys[k]);
        AssignmentLine(p, k, JoinCsv(s.keys[k]));
      }
      HeaderKeyIsLost(ParseLine(p, line), s, order[1..], lost);
    }
  }

  lemma JoinIsTrimmed(words: seq<string>)
    requires CleanList(words)
    ensures Trimmed(JoinCsv(words))
  {
    JoinFacts(words);
  }

  /** Exactly: for every order in which the keys are printed, a store survives
      Save and Load if and only if it is clean. */
  lemma RoundTripIffClean(s: Store, order: seq<string>)
    requires Enumerates(order, s.keys)
    ensures Parse(Print(s, order)) == s <==> Clean(s)
  {
    if Clean(s) {
      RoundTrip(s, order);
    } else if Parse(Print(s, order)) == s {
      ParsedIsReadable(Print(s, order));
      var lost :| lost in s.keys && !NoHeader(lost, s.keys[lost]);
      PrintedParses(s, order);
      var start := Empty().(section := ApiKeys());
      HeaderKeyIsLost(start, s, order, lost);
      TailParse(ParseLines(start, KeyLines(s.keys, order)), s);
      assert false;
    }
  }

  // ---- what a file can bring in ----

  /** What Load read survives the next Save and Load if and only if no key prints
      as a section header. */
  lemma LoadedSurvivesIffNoHeader(text: string, order: seq<string>)
    requires Enumerates(order, Parse(text).keys)
    ensures var s := Parse(text);
            Parse(Print(s, order)) == s <==> forall k :: k in s.keys ==> NoHeader(k, s.keys[k])
  {
    hide Parse, Print, Readable, NoHeader;
    ParsedIsReadable(text);
    RoundTripIffClean(Parse(text), order);
  }

  /** A file with one key and its scopes, and a comma too many. */
  function WithComma(key: string, scopes: seq<string>): string {
    Unlines([Header(ApiKeys()), KeyLine(key, scopes) + ","])
  }

  /** Every key that prints as a header can be read from a file, and is lost by the
      next Save and Load. */
  lemma ReadKeyIsLost(key: string, scopes: seq<string>)
    requires CleanKey(key) && CleanList(scopes) && !NoHeader(key, scopes)
    ensures var s := Parse(WithComma(key, scopes));
            s.keys == map[key := scopes] && key !in Parse(Print(s, [key])).keys
  {
    hide ParseLines, KeyLines, TailLines, ApiKeys, CleanKey, CleanList, IsSection;
    ReadWithComma(key, scopes);
    var s := Parse(WithComma(key, scopes));
    ParsedIsReadable(WithComma(key, scopes));
    PrintedParses(s, [key]);
    var start := Empty().(section := ApiKeys());
    HeaderKeyIsLost(start, s, [key], key);
    TailParse(ParseLines(start, KeyLines(s.keys, [key])), s);
  }

  lemma ReadWithComma(key: string, scopes: seq<string>)
    requires CleanKey(key) && CleanList(scopes) && !NoHeader(key, scopes)
    ensures Parse(WithComma(key, scopes)).keys == map[key := scopes]
  {
    var line := KeyLine(key, scopes) + ",";
    var value := JoinCsv(scopes) + ",";
    assert line == Assigned(key, value);
    JoinFacts(scopes);
    assert scopes == [] ==> KeyLine(key, scopes) == key + ['='];
    SplitWithComma(scopes);
    assert !IsSection(line);
    assert Trimmed(value);
    NamesAreLines();
    PiecesOfUnlines([Header(ApiKeys()), line]);
    var start := Empty().(section := ApiKeys());
    hide ParseLine, Header, ApiKeys;
    HeaderLine(Empty(), ApiKeys());
    AssignmentLine(start, key, value);
    assert [Header(ApiKeys()), line] == [Header(ApiKeys())] + [line];
    ParseAppends(Empty(), [Header(ApiKeys())], [line]);
    ParseOne(Empty(), Header(ApiKeys()));
    ParseOne(start, line);
  }

  /** The line `[x=y],` is read as a key and printed as a section header. */
  lemma ABracketedKeyIsLost()
    ensures var text := "[api_keys]\n[x=y],\n";
            var s := Parse(text);
            s.keys == map["[x" := ["y]"]] && "[x" !in Parse(Print(s, ["[x"])).keys
  {
    var header, line := Header(ApiKeys()), KeyLine("[x", ["y]"]) + ",";
    assert header == "[api_keys]" && line == "[x=y],";
    assert [header, line][1..] == [line] && [line][1..] == [];
    assert Unlines([line]) == line + ['\n'] + "" && Unlines([header, line]) == header + ['\n'] + Unlines([line]);
    assert WithComma("[x", ["y]"]) == "[api_keys]\n[x=y],\n";
    ReadKeyIsLost("[x", ["y]"]);
  }

  // ---- the file's form ----

  function KeyText(keys: map<string, seq<string>>, order: seq<string>): string
    requires forall i :: 0 <= i < |order| ==> order[i] in keys
  {
    if order == [] then "" else order[0] + "=" + JoinCsv(keys[order[0]]) + "\n" + KeyText(keys, order[1..])
  }

  /** The text that is saved, section by section. */
  lemma PrintedForm(s: Store, order: seq<string>)
    requires forall i :: 0 <= i < |order| ==> order[i] in s.keys
    ensures Print(s, order) ==
            "[api_keys]\n" + KeyText(s.keys, order)
            + ("\n[guardrail]\nwords=" + JoinCsv(s.words) + "\n")
            + ("\n[rate_limit]\ntokens=" + PrintInt(s.rate) + "\n")
            + RoutingText(s.routing)
  {
    KeysPrinted(s.keys, order);
    GuardrailPrinted(s.words);
    RatePrinted(s.rate);
    RoutingPrinted(s.routing);
    HeadPrinted();
    hide Unlines, GuardrailLines, RateLines, RoutingLines, KeyLines, KeyText, RoutingText, JoinCsv, PrintInt, Header,
        ApiKeys;
    FiveParts([Header(ApiKeys())], KeyLines(s.keys, order), GuardrailLines(s.words), RateLines(s.rate),
              RoutingLines(s.routing));
  }

  lemma HeadPrinted()
    ensures Unlines([Header(ApiKeys())]) == "[api_keys]\n"
  {
    OneLineText(Header(ApiKeys()));
  }

  lemma FiveParts(a: seq<string>, b: seq<string>, c: seq<string>, d: seq<string>, e: seq<string>)
    ensures Unlines(a + b + (c + d + e)) == Unlines(a) + Unlines(b) + Unlines(c) + Unlines(d) + Unlines(e)
  {
    hide Unlines;
    UnlinesJoin(a, b);
    UnlinesJoin(c, d);
    UnlinesJoin(c + d, e);
    UnlinesJoin(a + b, c + d + e);
    Flattened(Unlines(a) + Unlines(b), Unlines(c), Unlines(d), Unlines(e));
  }

  lemma Flattened(a: string, b: string, c: string, d: string)
    ensures a + (b + c + d) == a + b + c + d
  {
  }

  function RoutingText(routing: Option<Routing>): string {
    if routing.None? then ""
    else
      "\n[routing]\nallow_default_fallback=" + (if routing.value.allowFallback then "true" else "false")
      + ("\nrequire_ready_backend=" + (if routing.value.requireReady then "true" else "false"))
      + ("\nfallback_scope=" + routing.value.scope + "\n")
  }

  lemma {:induction false} UnlinesJoin(a: seq<string>, b: seq<string>)
    ensures Unlines(a + b) == Unlines(a) + Unlines(b)
  {
    if a == [] {
      assert a + b == b && "" + Unlines(b) == Unlines(b);
    } else {
      assert (a + b)[1..] == a[1..] + b;
      UnlinesJoin(a[1..], b);
      assert a[0] + ['\n'] + (Unlines(a[1..]) + Unlines(b)) == a[0] + ['\n'] + Unlines(a[1..]) + Unlines(b);
    }
  }

  lemma OneLineText(a: string)
    ensures Unlines([a]) == a + "\n"
  {
    assert [a][1..] == [] && a + ['\n'] + "" == a + "\n";
  }

  lemma {:induction false} KeysPrinted(keys: map<string, seq<string>>, order: seq<string>)
    requires forall i :: 0 <= i < |order| ==> order[i] in keys
    ensures Unlines(KeyLines(keys, order)) == KeyText(keys, order)
  {
    hide JoinCsv;
    if order != [] {
      var line := KeyLine(order[0], keys[order[0]]);
      KeysPrinted(keys, order[1..]);
      UnlinesJoin([line], KeyLines(keys, order[1..]));
      OneLineText(line);
      assert line + "\n" == order[0] + "=" + JoinCsv(keys[order[0]]) + "\n";
    }
  }

  lemma ThreeLines(a: string, b: string, c: string)
    ensures Unlines([a, b, c]) == a + "\n" + b + "\n" + c + "\n"
  {
    OneLineText(c);
    OneLineText(b);
    OneLineText(a);
    assert [a, b, c] == [a] + ([b] + [c]);
    UnlinesJoin([b], [c]);
    UnlinesJoin([a], [b] + [c]);
  }

  lemma GuardrailPrinted(words: seq<string>)
    ensures Unlines(GuardrailLines(words)) == "\n[guardrail]\nwords=" + JoinCsv(words) + "\n"
  {
    hide JoinCsv, Unlines;
    ThreeLines("", Header(Guardrail()), Assigned(WordsKey(), JoinCsv(words)));
    assert "" + "\n" + Header(Guardrail()) + "\n" + WordsKey() + ['='] == "\n[guardrail]\nwords=";
  }

  lemma RatePrinted(rate: int)
    ensures Unlines(RateLines(rate)) == "\n[rate_limit]\ntokens=" + PrintInt(rate) + "\n"
  {
    hide PrintInt, Unlines;
    ThreeLines("", Header(RateLimit()), Assigned(TokensKey(), PrintInt(rate)));
    assert "" + "\n" + Header(RateLimit()) + "\n" + TokensKey() + ['='] == "\n[rate_limit]\ntokens=";
  }

  lemma RoutingPrinted(routing: Option<Routing>)
    ensures Unlines(RoutingLines(routing)) == RoutingText(routing)
  {
    if routing.Some? {
      var r := routing.value;
      var allow, ready := BoolText(r.allowFallback), BoolText(r.requireReady);
      hide Unlines, BoolText;
      RoutingHead();
      ThreeLines(Assigned(AllowKey(), allow), Assigned(ReadyKey(), ready), Assigned(ScopeKey(), r.scope));
      UnlinesJoin(["", Header(RoutingName())],
                  [Assigned(AllowKey(), allow), Assigned(ReadyKey(), ready), Assigned(ScopeKey(), r.scope)]);
      RoutingBody(allow, ready, r.scope);
      BoolTexts(r);
    }
  }

  lemma BoolTexts(r: Routing)
    ensures BoolText(r.allowFallback) == (if r.allowFallback then "true" else "false")
    ensures BoolText(r.requireReady) == (if r.requireReady then "true" else "false")
  {
  }

  lemma RoutingHead()
    ensures Unlines(["", Header(RoutingName())]) == "\n[routing]\n"
  {
    UnlinesJoin([""], [Header(RoutingName())]);
    OneLineText("");
    OneLineText(Header(RoutingName()));
    assert ["", Header(RoutingName())] == [""] + [Header(RoutingName())];
    assert "" + "\n" + (Header(RoutingName()) + "\n") == "\n[routing]\n";
  }

  lemma RoutingBody(allow: string, ready: string, scope: string)
    ensures "\n[routing]\n" +
        (Assigned(AllowKey(), allow) + "\n" + Assigned(ReadyKey(), ready) + "\n" + Assigned(ScopeKey(), scope) + "\n")
            == "\n[routing]\nallow_default_fallback=" + allow + ("\nrequire_ready_backend=" + ready) +
                ("\nfallback_scope=" + scope + "\n")
  {
    hide AllowKey, ReadyKey, ScopeKey;
    RoutingKeys();
    var a, b, c := AllowKey() + ['='], ReadyKey() + ['='], ScopeKey() + ['='];
    assert Assigned(AllowKey(), allow) == a + allow && Assigned(ReadyKey(), ready) == b + ready &&
        Assigned(ScopeKey(), scope) == c + scope;
    hide Assigned;
    Regroup("\n[routing]\n", a, allow, b, ready, c, scope);
  }

  lemma RoutingKeys()
    ensures "\n[routing]\n" + (AllowKey() + ['=']) == "\n[routing]\nallow_default_fallback="
    ensures "\n" + (ReadyKey() + ['=']) == "\nrequire_ready_backend="
    ensures "\n" + (ScopeKey() + ['=']) == "\nfallback_scope="
  {
  }

  lemma Regroup(h: string, a: string, x: string, b: string, y: string, c: string, z: string)
    ensures h + (a + x + "\n" + (b + y) + "\n" + (c + z) + "\n") == h + a + x + ("\n" + b + y) + ("\n" + c + z + "\n")
  {
  }

  /** Lines that say nothing: blank ones, comments, ones without an equals sign, keys of
      no section, and keys a section does not have. */
  lemma IgnoredLines(p: Parser, line: string)
    requires var t := Trim(line);
             || t == "" || t[0] == '#' || (!IsSection(t) && '=' !in t)
             || (!IsSection(t) && '=' in t && p.section != "api_keys" && !Known(p.section, Trim(t[..Find(t, '=')])))
    ensures ParseLine(p, line) == p
  {
    var t := Trim(line);
    if '=' !in t { FindNone(t, '='); }
  }

  /** The keys of the sections that have fixed ones. */
  predicate Known(section: string, key: string) {
    || (section == "guardrail" && key == "words")
    || (section == "rate_limit" && key == "tokens")
    || (section == "routing" && key == "allow_default_fallback")
    || (section == "routing" && key == "require_ready_backend")
    || (section == "routing" && key == "fallback_scope")
  }

  /** The last line for an API key wins; its scopes are a list. */
  lemma LastLineWins(p: Parser, key: string, a: string, b: string)
    requires p.section == "api_keys" && CleanKey(key) && Trimmed(a) && Trimmed(b)
    requires NotHeader(key, a) && NotHeader(key, b)
    ensures ParseLine(ParseLine(p, Assigned(key, a)), Assigned(key, b)) == p.(keys := p.keys[key := SplitCsv(b)])
  {
    hide SplitCsv, ParseLine, Assign, CleanKey, Trimmed, Assigned;
    AssignmentLine(p, key, a);
    AssignsScopes(p, key, a);
    AssignmentLine(p.(keys := p.keys[key := SplitCsv(a)]), key, b);
    AssignsScopes(p.(keys := p.keys[key := SplitCsv(a)]), key, b);
    assert p.keys[key := SplitCsv(a)][key := SplitCsv(b)] == p.keys[key := SplitCsv(b)];
  }

  lemma AssignsScopes(p: Parser, key: string, value: string)
    requires p.section == "api_keys"
    ensures Assign(p, key, value) == p.(keys := p.keys[key := SplitCsv(value)])
  {
  }

  predicate NotHeader(key: string, value: string) { !IsSection(Assigned(key, value)) }

  /** A flag is any of six words, in any case; any other word leaves it as it was. */
  lemma FlagsParse(value: string, otherwise: bool)
    ensures ParseBool("true", otherwise) && ParseBool("1", otherwise) && ParseBool("YES", otherwise) &&
        ParseBool("True", otherwise)
    ensures !ParseBool("false", otherwise) && !ParseBool("0", otherwise) && !ParseBool("No", otherwise)
    ensures Lower(value) !in {"true", "1", "yes", "false", "0", "no"} ==> ParseBool(value, otherwise) == otherwise
    ensures ParseBool(Lower(value), otherwise) == ParseBool(value, otherwise)
  {
    assert Lower("true") == "true" && Lower("1") == "1" && Lower("YES") == "yes" && Lower("True") == "true";
    assert Lower("false") == "false" && Lower("0") == "0" && Lower("No") == "no";
    assert Lower(Lower(value)) == Lower(value);
  }

  /** A routing section that only names a scope keeps the other two at their defaults:
      fallback allowed, readiness not required. */
  lemma RoutingDefaults(scope: string)
    requires CleanScope(scope) && !IsSection(Assigned(ScopeKey(), scope))
    ensures Parse(Unlines([Header(RoutingName()), Assigned(ScopeKey(), scope)])).routing ==
        Some(Routing(true, false, scope))
    ensures Parse("") == Store(map[], [], 0, None)
  {
    hide ParseLine, Header, Assign, Assigned, Unlines, Pieces;
    var lines := [Header(RoutingName())] + [Assigned(ScopeKey(), scope)];
    assert lines == [Header(RoutingName()), Assigned(ScopeKey(), scope)];
    NamesAreLines();
    AssignedIsLine(ScopeKey(), scope);
    PiecesOfUnlines(lines);
    var start := Empty().(section := RoutingName());
    assert CleanKey(ScopeKey());
    HeaderLine(Empty(), RoutingName());
    AssignmentLine(start, ScopeKey(), scope);
    ScopeAssigned(start, scope);
    ParseAppends(Empty(), [Header(RoutingName())], [Assigned(ScopeKey(), scope)]);
    ParseOne(Empty(), Header(RoutingName()));
    ParseOne(start, Assigned(ScopeKey(), scope));
    NothingParses();
  }

  lemma NothingParses()
    ensures Parse("") == Store(map[], [], 0, None)
  {
  }

  lemma ScopeAssigned(p: Parser, scope: string)
    requires p.section == RoutingName() && scope != ""
    ensures Assign(p, ScopeKey(), scope) == p.(routing := p.routing.(scope := scope), hasRouting := true)
  {
    assert |ScopeKey()| == 14 && |AllowKey()| == 22 && |ReadyKey()| == 21;
    assert |RoutingName()| == 7 && |ApiKeys()| == 8 && |Guardrail()| == 9 && |RateLimit()| == 10;
  }
}
