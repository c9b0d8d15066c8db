/** The text helpers of the policy store: trimming, lines, comma-separated lists,
decimal and hexadecimal numbers, each with its inverse. */
module PolicyText {

  // ---- trimming ----

  predicate Blank(c: char) { c == ' ' || c == '\t' || c == '\r' || c == '\n' }

  function DropFront(s: string): (r: string)
    decreases |s|
  {
    if s != "" && Blank(s[0]) then DropFront(s[1..]) else s
  }

  function DropBack(s: string): (r: string)
    decreases |s|
  {
    if s != "" && Blank(s[|s| - 1]) then DropBack(s[..|s| - 1]) else s
  }

  function Trim(s: string): (r: string) { DropBack(DropFront(s)) }

  predicate Trimmed(s: string) { s == "" || (!Blank(s[0]) && !Blank(s[|s| - 1])) }

  lemma {:induction false} DropFrontFacts(s: string)
    ensures var r := DropFront(s);
            && (r == "" || !Blank(r[0]))
            && |r| <= |s| && s[|s| - |r|..] == r
    decreases |s|
  {
    if s != "" && Blank(s[0]) {
      DropFrontFacts(s[1..]);
      var r := DropFront(s);
      assert s[|s| - |r|..] == s[1..][|s| - 1 - |r|..];
    }
  }

  lemma {:induction false} DropBackFacts(s: string)
    ensures var r := DropBack(s);
            && (r == "" || !Blank(r[|r| - 1]))
            && r <= s
    decreases |s|
  {
    if s != "" && Blank(s[|s| - 1]) { DropBackFacts(s[..|s| - 1]); }
  }

  lemma TrimTrims(s: string)
    ensures Trimmed(Trim(s)) && (Trimmed(s) ==> Trim(s) == s)
  {
    DropFrontFacts(s);
    DropBackFacts(DropFront(s));
    var f, r := DropFront(s), Trim(s);
    if r != "" { assert r[0] == f[0]; }
  }

  lemma TrimKeeps(s: string, c: char)
    requires c in Trim(s)
    ensures c in s
  {
    DropFrontFacts(s);
    DropBackFacts(DropFront(s));
    hide DropFront, DropBack;
    var f, r := DropFront(s), Trim(s);
    var i :| 0 <= i < |r| && r[i] == c;
    assert f[i] == c;
    assert s[|s| - |f|..][i] == c;
  }

  /** Trimming trims, keeps only characters that were there, and leaves a trimmed
      string alone. */
  lemma TrimFacts(s: string)
    ensures Trimmed(Trim(s))
    ensures forall c :: c in Trim(s) ==> c in s
    ensures Trimmed(s) <==> Trim(s) == s
  {
    hide Trim;
    TrimTrims(s);
    forall c | c in Trim(s) ensures c in s { TrimKeeps(s, c); }
  }

  predicate AllBlank(s: string) { forall i :: 0 <= i < |s| ==> Blank(s[i]) }

  lemma {:induction false} DropsFront(s: string) returns (front: string)
    ensures AllBlank(front) && front + DropFront(s) == s
    decreases |s|
  {
    if s == "" || !Blank(s[0]) {
      front := "";
    } else {
      var more := DropsFront(s[1..]);
      front := [s[0]] + more;
    }
  }

  lemma {:induction false} DropsBack(s: string) returns (back: string)
    ensures AllBlank(back) && DropBack(s) + back == s
    decreases |s|
  {
    if s == "" || !Blank(s[|s| - 1]) {
      back := "";
    } else {
      var more := DropsBack(s[..|s| - 1]);
      back := more + [s[|s| - 1]];
    }
  }

  /** Exactly the blanks at both ends go. */
  lemma TrimTakesBlanks(s: string)
    ensures forall c :: Blank(c) <==> c in {' ', '\t', '\r', '\n'}
    ensures Trimmed(Trim(s)) && exists front, back :: AllBlank(front) && AllBlank(back) && front + Trim(s) + back == s
  {
    TrimTrims(s);
    var front := DropsFront(s);
    var back := DropsBack(DropFront(s));
    hide DropFront, DropBack;
    assert front + Trim(s) + back == s;
  }

  // ---- pieces between separators ----

  /** std::getline over the whole text: pieces without the separator; a final
      separator ends the last piece rather than starting an empty one. */
  function Pieces(s: string, sep: char): (r: seq<string>)
    decreases |s|
  {
    if s == "" then []
    else
      var n := Find(s, sep);
      if n == |s| then [s] else [s[..n]] + Pieces(s[n + 1..], sep)
  }

  /** The first index of c, or the length. */
  function Find(s: string, c: char): (n: nat)
    ensures n <= |s| && c !in s[..n] && (n < |s| ==> s[n] == c)
  {
    if s == "" || s[0] == c then 0
    else
      var n := Find(s[1..], c);
      assert s[..n + 1] == [s[0]] + s[1..][..n];
      n + 1
  }

  lemma {:induction false} FindFirst(a: string, c: char, b: string)
    requires c !in a
    ensures Find(a + [c] + b, c) == |a|
  {
    if a == "" {
      assert (a + [c] + b)[0] == c;
    } else {
      assert (a + [c] + b)[1..] == a[1..] + [c] + b;
      FindFirst(a[1..], c, b);
    }
  }

  lemma {:induction false} FindNone(s: string, c: char)
    requires c !in s
    ensures Find(s, c) == |s|
  {
    if s != "" { FindNone(s[1..], c); }
  }

  /** Pieces, completely: nothing has none, a text without separators is one piece, and
      what is before the first separator is a piece of its own. */
  lemma PiecesAre(w: string, sep: char, more: string)
    requires sep !in w
    ensures Pieces("", sep) == [] && (w != "" ==> Pieces(w, sep) == [w])
    ensures Pieces(w + [sep] + more, sep) == [w] + Pieces(more, sep)
  {
    FindNone(w, sep);
    PiecesOfFirst(w, sep, more);
  }

  lemma {:induction false} PiecesFacts(s: string, sep: char)
    ensures forall p :: p in Pieces(s, sep) ==> sep !in p && forall c :: c in p ==> c in s
    decreases |s|
  {
    if s != "" {
      var n := Find(s, sep);
      if n == |s| {
        assert s[..n] == s;
      } else {
        PiecesFacts(s[n + 1..], sep);
        assert s == s[..n] + [s[n]] + s[n + 1..];
      }
    }
  }

  /** Every line ends with a newline. */
  function Unlines(lines: seq<string>): (r: string) {
    if lines == [] then "" else lines[0] + ['\n'] + Unlines(lines[1..])
  }

  lemma {:induction false} PiecesOfUnlines(lines: seq<string>)
    requires forall i :: 0 <= i < |lines| ==> '\n' !in lines[i]
    ensures Pieces(Unlines(lines), '\n') == lines
  {
    if lines != [] {
      var rest := Unlines(lines[1..]);
      FindFirst(lines[0], '\n', rest);
      PiecesOfUnlines(lines[1..]);
      var s := lines[0] + ['\n'] + rest;
      assert s[|lines[0]| + 1..] == rest && s[..|lines[0]|] == lines[0];
    }
  }

  // ---- comma-separated lists ----

  function Words(pieces: seq<string>): (r: seq<string>) {
    if pieces == [] then []
    else (if Trim(pieces[0]) == "" then [] else [Trim(pieces[0])]) + Words(pieces[1..])
  }

  function SplitCsv(line: string): (r: seq<string>) { Words(Pieces(line, ',')) }

  function JoinCsv(words: seq<string>): (r: string) {
    if words == [] then ""
    else if |words| == 1 then words[0]
    else words[0] + "," + JoinCsv(words[1..])
  }

  predicate CleanWord(w: string) { w != "" && Trimmed(w) && ',' !in w }

  predicate CleanWords(words: seq<string>) { forall i :: 0 <= i < |words| ==> CleanWord(words[i]) }

  lemma {:induction false} WordsAreClean(pieces: seq<string>)
    requires forall i :: 0 <= i < |pieces| ==> ',' !in pieces[i]
    ensures CleanWords(Words(pieces))
  {
    if pieces != [] {
      WordsAreClean(pieces[1..]);
      TrimFacts(pieces[0]);
    }
  }

  lemma {:induction false} SplitOfJoin(words: seq<string>)
    requires CleanWords(words)
    ensures SplitCsv(JoinCsv(words)) == words
  {
    if words != [] {
      var w, rest := words[0], words[1..];
      TrimFacts(w);
      if rest == [] {
        FindNone(w, ',');
        assert words == [w] && Pieces(w, ',') == [w];
        assert Words([w]) == [Trim(w)] + Words([]);
      } else {
        SplitOfJoin(rest);
        FindFirst(w, ',', JoinCsv(rest));
        var s := w + "," + JoinCsv(rest);
        assert s == w + [','] + JoinCsv(rest);
        assert s[|w| + 1..] == JoinCsv(rest) && s[..|w|] == w;
        assert Pieces(s, ',') == [w] + Pieces(JoinCsv(rest), ',');
      }
    }
  }

  lemma PiecesOfFirst(w: string, sep: char, more: string)
    requires sep !in w
    ensures Pieces(w + [sep] + more, sep) == [w] + Pieces(more, sep)
  {
    var line := w + [sep] + more;
    FindFirst(w, sep, more);
    assert line[..|w|] == w && line[|w| + 1..] == more;
  }

  lemma WordsOfFirst(w: string, pieces: seq<string>)
    requires CleanWord(w)
    ensures Words([w] + pieces) == [w] + Words(pieces)
  {
    TrimFacts(w);
    assert ([w] + pieces)[1..] == pieces;
  }

  /** A comma at the end is not read back. */
  lemma {:induction false} SplitWithComma(words: seq<string>)
    requires CleanWords(words) && words != []
    ensures SplitCsv(JoinCsv(words) + ",") == words
  {
    hide Pieces, Words;
    var w, rest := words[0], words[1..];
    var more := if rest == [] then "" else JoinCsv(rest) + ",";
    assert JoinCsv(words) + "," == w + [','] + more;
    PiecesOfFirst(w, ',', more);
    WordsOfFirst(w, Pieces(more, ','));
    if rest == [] { NothingToSplit(); } else { SplitWithComma(rest); }
    assert words == [w] + rest;
  }

  lemma NothingToSplit()
    ensures Words(Pieces("", ',')) == []
  {
  }

  /** Exactly: a list survives being printed and split if and only if its words
      are non-empty, trimmed and free of commas. */
  lemma SplitJoinIffClean(words: seq<string>)
    ensures SplitCsv(JoinCsv(words)) == words <==> CleanWords(words)
  {
    if CleanWords(words) {
      SplitOfJoin(words);
    } else {
      PiecesFacts(JoinCsv(words), ',');
      WordsAreClean(Pieces(JoinCsv(words), ','));
    }
  }

  lemma {:induction false} JoinFacts(words: seq<string>)
    requires CleanWords(words)
    ensures Trimmed(JoinCsv(words)) && (words != [] ==> JoinCsv(words) != "" && JoinCsv(words)[0] == words[0][0])
    ensures (forall i :: 0 <= i < |words| ==> '\n' !in words[i]) ==> '\n' !in JoinCsv(words)
  {
    if words != [] {
      var rest := words[1..];
      JoinFacts(rest);
      if rest != [] { assert JoinCsv(words)[|JoinCsv(words)| - 1] == JoinCsv(rest)[|JoinCsv(rest)| - 1]; }
    }
  }

  /** SplitCSV's loop. */
  method Split(line: string) returns (values: seq<string>)
    ensures values == SplitCsv(line)
  {
    values := [];
    var pieces := Pieces(line, ',');
    for i := 0 to |pieces|
      invariant values + Words(pieces[i..]) == SplitCsv(line)
    {
      assert pieces[i..][1..] == pieces[i + 1..];
      var trimmed := Trim(pieces[i]);
      if trimmed != "" {
        values := values + [trimmed];
      }
    }
  }

  method Join(values: seq<string>) returns (out: string)
    ensures out == JoinCsv(values)
  {
    out := "";
    for i := 0 to |values|
      invariant out == JoinCsv(values[..i])
    {
      JoinExtends(values[..i], values[i]);
      assert values[..i + 1] == values[..i] + [values[i]];
      if i > 0 {
        out := out + ",";
      }
      out := out + values[i];
    }
    assert values[..|values|] == values;
  }

  lemma {:induction false} JoinExtends(words: seq<string>, w: string)
    ensures JoinCsv(words + [w]) == if words == [] then w else JoinCsv(words) + "," + w
  {
    if |words| > 1 {
      assert (words + [w])[1..] == words[1..] + [w];
      JoinExtends(words[1..], w);
    } else if |words| == 1 {
      assert (words + [w])[1..] == [w];
    }
  }

  // ---- decimal numbers ----

  predicate Digit(c: char) { '0' <= c <= '9' }

  function DigitChar(d: nat): (c: char)
    requires d < 10
    ensures Digit(c) && c as int - '0' as int == d
  {
    '0' + d as char
  }

  function PrintNat(n: nat): (s: string)
    ensures s != "" && forall i :: 0 <= i < |s| ==> Digit(s[i])
  {
    if n < 10 then [DigitChar(n)] else PrintNat(n / 10) + [DigitChar(n % 10)]
  }

  function PrintInt(n: int): (s: string) { if n < 0 then ['-'] + PrintNat(-n) else PrintNat(n) }

  /** The digits at the front, as strtol reads them. */
  function Digits(s: string): (r: string)
    ensures r <= s && forall i :: 0 <= i < |r| ==> Digit(r[i])
  {
    if s != "" && Digit(s[0]) then [s[0]] + Digits(s[1..]) else ""
  }

  function Value(s: string): (n: nat)
    requires forall i :: 0 <= i < |s| ==> Digit(s[i])
  {
    if s == "" then 0 else assert Digit(s[|s| - 1]); 10 * Value(s[..|s| - 1]) + (s[|s| - 1] as int - '0' as int)
  }

  const INT_MIN := -0x8000_0000

  const INT_MAX := 0x7fff_ffff

  /** std::stoi on trimmed text; an exception counts as 0. */
  function ParseInt(s: string): (n: int)
    ensures INT_MIN <= n <= INT_MAX
  {
    var negative := s != "" && s[0] == '-';
    var digits := Digits(if s != "" && (s[0] == '-' || s[0] == '+') then s[1..] else s);
    var n: int := if negative then -(Value(digits) as int) else Value(digits);
    if digits == "" || n < INT_MIN || n > INT_MAX then 0 else n
  }

  lemma {:induction false} ValueOfPrint(n: nat)
    ensures Value(PrintNat(n)) == n
  {
    if n >= 10 {
      ValueOfPrint(n / 10);
      assert PrintNat(n)[..|PrintNat(n)| - 1] == PrintNat(n / 10);
    }
  }

  lemma {:induction false} AllDigits(s: string)
    requires forall i :: 0 <= i < |s| ==> Digit(s[i])
    ensures Digits(s) == s
  {
    if s != "" { AllDigits(s[1..]); }
  }

  function Signed(negative: bool, n: nat): int { if negative then -(n as int) else n }

  lemma ParseOfDigits(negative: bool, digits: string)
    requires digits != "" && (forall i :: 0 <= i < |digits| ==> Digit(digits[i]))
    requires INT_MIN <= Signed(negative, Value(digits)) <= INT_MAX
    ensures ParseInt(if negative then ['-'] + digits else digits) == Signed(negative, Value(digits))
  {
    AllDigits(digits);
    hide Value, Digits;
    assert Digit(digits[0]);
    if negative { assert (['-'] + digits)[1..] == digits; }
  }

  lemma DigitsAreTrimmed(negative: bool, digits: string)
    requires digits != "" && (forall i :: 0 <= i < |digits| ==> Digit(digits[i]))
    ensures var s := if negative then ['-'] + digits else digits; Trimmed(s) && '\n' !in s
  {
    assert Digit(digits[0]) && Digit(digits[|digits| - 1]);
  }

  lemma ParseOfPrintInt(n: int)
    requires INT_MIN <= n <= INT_MAX
    ensures ParseInt(PrintInt(n)) == n && Trimmed(PrintInt(n)) && '\n' !in PrintInt(n)
  {
    var m := if n < 0 then -n else n;
    ValueOfPrint(m);
    hide PrintNat, Value, ParseInt;
    ParseOfDigits(n < 0, PrintNat(m));
    DigitsAreTrimmed(n < 0, PrintNat(m));
  }

  lemma {:induction false} DigitsStop(digits: string, rest: string)
    requires (forall i :: 0 <= i < |digits| ==> Digit(digits[i])) && (rest == "" || !Digit(rest[0]))
    ensures Digits(digits + rest) == digits
  {
    if digits == "" {
      assert digits + rest == rest;
    } else {
      assert (digits + rest)[1..] == digits[1..] + rest;
      DigitsStop(digits[1..], rest);
    }
  }

  lemma ReadsBehind(s: string, text: string, negative: bool)
    requires text == (if s != "" && (s[0] == '-' || s[0] == '+') then s[1..] else s)
    requires negative <==> s != "" && s[0] == '-'
    ensures var n := Signed(negative, Value(Digits(text)));
            ParseInt(s) == if Digits(text) != "" && INT_MIN <= n <= INT_MAX then n else 0
  {
    hide Value, Digits;
  }

  /** Reading a number: an optional sign, digits, and whatever follows them; without
      digits, or out of a 32-bit number's range, it is 0. */
  lemma ParsedNumbers(signed: bool, negative: bool, digits: string, rest: string)
    requires (forall i :: 0 <= i < |digits| ==> Digit(digits[i])) && (rest == "" || !Digit(rest[0]))
    requires !signed ==> !negative && (digits == "" && rest != "" ==> rest[0] != '-' && rest[0] != '+')
    ensures var text := digits + rest;
            var n := Signed(negative, Value(digits));
            ParseInt(if signed then [if negative then '-' else '+'] + text else text) ==
              if digits != "" && INT_MIN <= n <= INT_MAX then n else 0
  {
    var text := digits + rest;
    DigitsStop(digits, rest);
    hide Value, Digits, ParseInt;
    if signed {
      var s := [if negative then '-' else '+'] + text;
      assert s[1..] == text;
      ReadsBehind(s, text, negative);
    } else {
      assert digits != "" ==> text[0] == digits[0] && Digit(digits[0]);
      ReadsBehind(text, text, false);
    }
  }

  // ---- hexadecimal ----

  type Byte = x: int | 0 <= x < 256

  function HexDigit(d: nat): (c: char)
    requires d < 16
  {
    if d < 10 then '0' + d as char else 'a' + (d - 10) as char
  }

  /** One character of either case, or -1. */
  function HexValue(c: char): (v: int)
    ensures -1 <= v < 16
  {
    if '0' <= c <= '9' then c as int - '0' as int
    else if 'a' <= c <= 'f' then c as int - 'a' as int + 10
    else if 'A' <= c <= 'F' then c as int - 'A' as int + 10
    else -1
  }

  function Encoded(data: seq<Byte>): (r: string)
    ensures |r| == 2 * |data|
  {
    if data == [] then ""
    else Encoded(data[..|data| - 1]) + [HexDigit(data[|data| - 1] / 16), HexDigit(data[|data| - 1] % 16)]
  }

  /** Two characters per byte; anything malformed decodes to nothing. */
  function Decoded(hex: string): (r: seq<Byte>) {
    if |hex| % 2 != 0 || !AllHex(hex) then [] else DecodedPairs(hex)
  }

  predicate AllHex(hex: string) { forall i :: 0 <= i < |hex| ==> HexValue(hex[i]) >= 0 }

  function PairAt(hex: string, i: nat): (b: Byte)
    requires 2 * i + 1 < |hex|
  {
    16 * Clipped(HexValue(hex[2 * i])) + Clipped(HexValue(hex[2 * i + 1]))
  }

  function Clipped(v: int): nat
    requires v < 16
    ensures Clipped(v) < 16
  {
    if v < 0 then 0 else v
  }

  function Pairs(hex: string, n: nat): (r: seq<Byte>)
    requires 2 * n <= |hex|
  {
    if n == 0 then [] else Pairs(hex, n - 1) + [PairAt(hex, n - 1)]
  }

  function DecodedPairs(hex: string): (r: seq<Byte>) { Pairs(hex, |hex| / 2) }

  lemma HexDigitFacts(d: nat)
    requires d < 16
    ensures HexValue(HexDigit(d)) == d
  {
  }

  lemma {:induction false} EncodedIsHex(data: seq<Byte>)
    ensures AllHex(Encoded(data))
  {
    hide HexDigit, HexValue;
    if data != [] {
      var n := |data| - 1;
      EncodedIsHex(data[..n]);
      HexDigitFacts(data[n] / 16);
      HexDigitFacts(data[n] % 16);
    }
  }

  lemma {:induction false} EncodedAt(data: seq<Byte>, i: nat)
    requires i < |data|
    ensures Encoded(data)[2 * i] == HexDigit(data[i] / 16) && Encoded(data)[2 * i + 1] == HexDigit(data[i] % 16)
  {
    hide HexDigit;
    var n := |data| - 1;
    if i < n { EncodedAt(data[..n], i); }
  }

  lemma {:induction false} EncodedPairs(data: seq<Byte>, n: nat)
    requires n <= |data|
    ensures Pairs(Encoded(data), n) == data[..n]
  {
    hide HexDigit, HexValue, Encoded;
    if n > 0 {
      EncodedPairs(data, n - 1);
      EncodedAt(data, n - 1);
      HexDigitFacts(data[n - 1] / 16);
      HexDigitFacts(data[n - 1] % 16);
      assert data[..n] == data[..n - 1] + [data[n - 1]];
    }
  }

  lemma EncodedFacts(data: seq<Byte>)
    ensures AllHex(Encoded(data)) && DecodedPairs(Encoded(data)) == data
  {
    hide HexValue, Encoded, Pairs;
    EncodedIsHex(data);
    EncodedPairs(data, |data|);
    assert data[..|data|] == data;
  }

  /** Decoding undoes encoding. */
  lemma DecodeUndoesEncode(data: seq<Byte>)
    ensures Decoded(Encoded(data)) == data
  {
    hide HexValue, Encoded, DecodedPairs;
    EncodedFacts(data);
  }

  method HexEncode(data: seq<Byte>) returns (out: string)
    ensures out == Encoded(data)
  {
    out := "";
    for i := 0 to |data|
      invariant out == Encoded(data[..i])
    {
      assert data[..i + 1][..i] == data[..i];
      out := out + [HexDigit(data[i] / 16), HexDigit(data[i] % 16)];
    }
    assert data[..|data|] == data;
  }

  method HexDecode(hex: string) returns (out: seq<Byte>)
    ensures out == Decoded(hex)
  {
    hide HexValue;
    out := [];
    if |hex| % 2 != 0 {
      return;
    }
    for k := 0 to |hex| / 2
      invariant out == Pairs(hex, k) && AllHex(hex[..2 * k])
    {
      var high, low := HexValue(hex[2 * k]), HexValue(hex[2 * k + 1]);
      if high < 0 || low < 0 {
        return [];
      }
      assert hex[..2 * (k + 1)] == hex[..2 * k] + [hex[2 * k], hex[2 * k + 1]];
      out := out + [16 * high + low];
    }
    assert hex[..|hex|] == hex;
  }

  /** Hexadecimal, completely: digits of either case, the high half first; an odd length
      or a character that is none decodes to nothing. */
  lemma HexIs(hex: string, i: nat)
    requires 2 * i + 1 < |hex| && |hex| % 2 == 0 && AllHex(hex)
    ensures |Decoded(hex)| == |hex| / 2
    ensures Decoded(hex)[i] == 16 * HexValue(hex[2 * i]) + HexValue(hex[2 * i + 1])
    ensures HexValue('0') == 0 && HexValue('9') == 9 && HexValue('a') == HexValue('A') == 10 &&
        HexValue('f') == HexValue('F') == 15
    ensures HexValue('g') == HexValue('G') == HexValue('/') == HexValue(':') == HexValue('@') == HexValue('`') == -1
    ensures forall d :: 0 <= d < 16 ==> 'A' > HexDigit(d) || HexDigit(d) >= 'a'
  {
    PairsAt(hex, |hex| / 2, i);
  }

  lemma {:induction false} PairsAt(hex: string, n: nat, i: nat)
    requires i < n && 2 * n <= |hex|
    ensures |Pairs(hex, n)| == n && Pairs(hex, n)[i] == PairAt(hex, i)
  {
    hide PairAt;
    if n > 1 { PairsAt(hex, n - 1, if i < n - 1 then i else 0); }
  }
}
