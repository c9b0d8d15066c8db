/** The fallback tokenizer: words and punctuation marks over a vocabulary that
grows while it is used. */
module Tokenizer {

  // ---- characters ----

  predicate Alnum(c: char) { '0' <= c <= '9' || 'a' <= c <= 'z' || 'A' <= c <= 'Z' }

  predicate Space(c: char) { c == ' ' || '\t' <= c <= '\r' }

  function Lower(c: char): (r: char) { if 'A' <= c <= 'Z' then (c as int + 32) as char else c }

  // ---- splitting text into words ----

  function Held(current: string): seq<string> { if current == "" then [] else [current] }

  /** Words of the text, given the unfinished word before it. */
  function Scan(text: string, current: string): (r: seq<string>)
    decreases |text|
  {
    if text == "" then Held(current)
    else if Alnum(text[0]) then Scan(text[1..], current + [Lower(text[0])])
    else Held(current) + (if Space(text[0]) then [] else [[text[0]]]) + Scan(text[1..], "")
  }

  function Words(text: string): seq<string> { Scan(text, "") }

  lemma ScanOne(text: string, i: nat, current: string)
    requires i < |text|
    ensures var c := text[i];
            Scan(text[i..], current) ==
              if Alnum(c) then Scan(text[i + 1..], current + [Lower(c)])
              else Held(current) + (if Space(c) then [] else [[c]]) + Scan(text[i + 1..], "")
  {
    assert text[i..][1..] == text[i + 1..];
  }

  function Step(words: seq<string>, current: string, c: char): (seq<string>, string) {
    if Alnum(c) then (words, current + [Lower(c)])
    else
      var flushed := if current == "" then words else words + [current];
      (if Space(c) then flushed else flushed + [[c]], "")
  }

  lemma StepScans(words: seq<string>, current: string, text: string, i: nat)
    requires i < |text|
    ensures var (words', current') := Step(words, current, text[i]);
            words' + Scan(text[i + 1..], current') == words + Scan(text[i..], current)
  {
    ScanOne(text, i, current);
    hide Scan, Alnum, Space, Lower;
    var c := text[i];
    if !Alnum(c) {
      var rest, mark := Scan(text[i + 1..], ""), if Space(c) then [] else [[c]];
      assert words + (Held(current) + mark + rest) == words + Held(current) + mark + rest;
      assert words + [] == words;
    }
  }

  method Tokenize(text: string) returns (words: seq<string>)
    ensures words == Words(text)
  {
    words := [];
    var current := "";
    assert text[0..] == text && [] + Scan(text, "") == Scan(text, "");
    for i := 0 to |text|
      invariant words + Scan(text[i..], current) == Words(text)
    {
      hide Alnum, Lower, Space, Scan;
      StepScans(words, current, text, i);
      var c := text[i];
      if Alnum(c) {
        current := current + [Lower(c)];
      } else {
        if current != "" {
          words := words + [current];
          current := "";
        }
        if !Space(c) {
          words := words + [[c]];
        }
      }
    }
    assert text[|text|..] == "" && words + [] == words;
    if current != "" {
      words := words + [current];
    }
  }

  predicate LowerWord(w: string) { w != "" && forall i :: 0 <= i < |w| ==> Alnum(w[i]) && Lower(w[i]) == w[i] }

  predicate Mark(w: string) { |w| == 1 && !Alnum(w[0]) && !Space(w[0]) }

  predicate AllWords(words: seq<string>) { forall i :: 0 <= i < |words| ==> LowerWord(words[i]) || Mark(words[i]) }

  lemma {:induction false} ScanFindsWords(text: string, current: string)
    requires current == "" || LowerWord(current)
    ensures AllWords(Scan(text, current))
    decreases |text|
  {
    if text != "" {
      if Alnum(text[0]) {
        ScanFindsWords(text[1..], current + [Lower(text[0])]);
      } else {
        ScanFindsWords(text[1..], "");
      }
    }
  }

  /** Any character that is not part of a word ends one: what is before it and what is
      behind it are split on their own, and a mark between them is a word by itself. */
  lemma {:induction false} SplitsAt(a: string, c: char, b: string, current: string)
    requires !Alnum(c)
    ensures Scan(a + [c] + b, current) == Scan(a, current) + (if Space(c) then [] else [[c]]) + Scan(b, "")
    decreases |a|
  {
    hide Alnum, Space, Lower;
    var text, mark := a + [c] + b, if Space(c) then [] else [[c]];
    if a == "" {
      assert text[0] == c && text[1..] == b;
    } else {
      assert text[0] == a[0] && text[1..] == a[1..] + [c] + b;
      if Alnum(a[0]) {
        SplitsAt(a[1..], c, b, current + [Lower(a[0])]);
      } else {
        SplitsAt(a[1..], c, b, "");
        var first, rest := Held(current) + (if Space(a[0]) then [] else [[a[0]]]), Scan(a[1..], "");
        assert first + (rest + mark + Scan(b, "")) == first + rest + mark + Scan(b, "");
      }
    }
  }

  function LowerAll(s: string): (r: string)
    ensures |r| == |s| && forall i :: 0 <= i < |s| ==> r[i] == Lower(s[i])
  {
    seq(|s|, i requires 0 <= i < |s| => Lower(s[i]))
  }

  lemma {:induction false} RunIsHeld(w: string, current: string)
    requires forall i :: 0 <= i < |w| ==> Alnum(w[i])
    ensures Scan(w, current) == Held(current + LowerAll(w))
    decreases |w|
  {
    if w == "" {
      assert current + LowerAll(w) == current;
    } else {
      RunIsHeld(w[1..], current + [Lower(w[0])]);
      assert current + [Lower(w[0])] + LowerAll(w[1..]) == current + LowerAll(w);
    }
  }

  /** Splitting, completely: letters and digits in a row are one word, in lower case; a
      space separates; any other character separates and is a word itself. */
  lemma WordsAre(a: string, c: char, b: string)
    ensures a != "" && (forall i :: 0 <= i < |a| ==> Alnum(a[i])) ==> Words(a) == [LowerAll(a)]
    ensures Space(c) ==> Words(a + [c] + b) == Words(a) + Words(b)
    ensures !Alnum(c) && !Space(c) ==> Words(a + [c] + b) == Words(a) + [[c]] + Words(b)
    ensures Words("") == []
    ensures forall d :: 'A' <= d <= 'Z' ==> Lower(d) as int == d as int - 'A' as int + 'a' as int
  {
    if forall i :: 0 <= i < |a| ==> Alnum(a[i]) {
      RunIsHeld(a, "");
      assert "" + LowerAll(a) == LowerAll(a);
    }
    if !Alnum(c) {
      SplitsAt(a, c, b, "");
      assert Words(a) + [] == Words(a);
    }
  }

  // ---- joining words into text ----

  predicate Closing(w: string) { w == "." || w == "," || w == "!" || w == "?" }

  function Gap(w: string): string { if Closing(w) then "" else " " }

  /** Words after a first one, each with the gap before it. */
  function Rest(words: seq<string>): string {
    if words == [] then "" else Gap(words[0]) + words[0] + Rest(words[1..])
  }

  function Join(words: seq<string>): string { if words == [] then "" else words[0] + Rest(words[1..]) }

  predicate Breaks(text: string) { text == "" || !Alnum(text[0]) }

  lemma RestBreaks(words: seq<string>)
    requires AllWords(words)
    ensures Breaks(Rest(words))
  {
    if words != [] && Closing(words[0]) { assert Rest(words)[0] == words[0][0]; }
  }

  /** An unfinished word ends where the text breaks. */
  lemma HeldFirst(text: string, current: string)
    requires Breaks(text)
    ensures Scan(text, current) == Held(current) + Scan(text, "")
  {
  }

  lemma {:induction false} ScanWord(w: string, text: string, current: string)
    requires forall i :: 0 <= i < |w| ==> Alnum(w[i]) && Lower(w[i]) == w[i]
    ensures Scan(w + text, current) == Scan(text, current + w)
    decreases |w|
  {
    if w == "" {
      assert w + text == text && current + w == current;
    } else {
      assert (w + text)[1..] == w[1..] + text;
      ScanWord(w[1..], text, current + [w[0]]);
      assert current + [w[0]] + w[1..] == current + w;
    }
  }

  lemma ScanToken(w: string, text: string)
    requires (LowerWord(w) || Mark(w)) && Breaks(text)
    ensures Scan(w + text, "") == [w] + Scan(text, "")
  {
    if LowerWord(w) {
      ScanWord(w, text, "");
      assert "" + w == w;
      HeldFirst(text, w);
    } else {
      assert (w + text)[1..] == text && [(w + text)[0]] == w;
    }
  }

  lemma {:induction false} ScanRest(words: seq<string>)
    requires AllWords(words)
    ensures Scan(Rest(words), "") == words
  {
    hide Scan;
    if words == [] {
      ScanNothing();
    } else {
      var w, more := words[0], words[1..];
      RestBreaks(more);
      ScanToken(w, Rest(more));
      ScanRest(more);
      ScanGap(w, w + Rest(more));
      assert Rest(words) == Gap(w) + (w + Rest(more));
    }
  }

  lemma ScanNothing()
    ensures Scan("", "") == []
  {
  }

  lemma ScanGap(w: string, text: string)
    ensures Scan(Gap(w) + text, "") == Scan(text, "")
  {
    if Closing(w) {
      assert "" + text == text;
    } else {
      assert (" " + text)[1..] == text;
    }
  }

  /** Splitting the joined text gives the words back. */
  lemma WordsOfJoin(words: seq<string>)
    requires AllWords(words)
    ensures Words(Join(words)) == words
  {
    if words != [] {
      RestBreaks(words[1..]);
      ScanToken(words[0], Rest(words[1..]));
      ScanRest(words[1..]);
    }
  }

  // ---- the vocabulary ----

  datatype Vocabulary = Vocabulary(ids: map<string, int>, names: seq<string>)

  /** The two tables are inverse to each other on assigned words. */
  predicate Inverse(v: Vocabulary) {
    && |v.names| >= 3 && v.names[1] == "<bos>" && v.names[2] == "<eos>"
    && (forall w :: w in v.ids ==> 1 <= v.ids[w] < |v.names| && v.names[v.ids[w]] == w)
    && (forall i :: 1 <= i < |v.names| ==> v.names[i] in v.ids && v.ids[v.names[i]] == i)
  }

  /** Growth never changes an assigned id. */
  predicate Grows(v: Vocabulary, v': Vocabulary) {
    v.names <= v'.names && forall w :: w in v.ids ==> w in v'.ids && v'.ids[w] == v.ids[w]
  }

  function Added(v: Vocabulary, w: string): Vocabulary {
    if w in v.ids then v else Vocabulary(v.ids[w := |v.names|], v.names + [w])
  }

  function Encoding(v: Vocabulary, words: seq<string>): (r: (Vocabulary, seq<int>))
    decreases |words|
  {
    if words == [] then (v, [])
    else
      var v' := Added(v, words[0]);
      var (last, ids) := Encoding(v', words[1..]);
      (last, [v'.ids[words[0]]] + ids)
  }

  lemma {:induction false} EncodingFacts(v: Vocabulary, words: seq<string>)
    requires Inverse(v) && AllWords(words)
    ensures var (v', ids) := Encoding(v, words);
            && Inverse(v') && Grows(v, v') && |ids| == |words|
            && (forall i :: 0 <= i < |ids| ==> 3 <= ids[i] < |v'.names| && v'.names[ids[i]] == words[i])
    decreases |words|
  {
    if words != [] {
      var w, v1 := words[0], Added(v, words[0]);
      assert Inverse(v1) && Grows(v, v1);
      EncodingFacts(v1, words[1..]);
      NotReserved(v1, w);
    }
  }

  /** No word of a text is one of the reserved names. */
  lemma NotReserved(v: Vocabulary, w: string)
    requires Inverse(v) && w in v.ids && (LowerWord(w) || Mark(w))
    ensures v.ids[w] >= 3
  {
    assert |"<bos>"| == 5 && "<bos>"[0] == '<' && "<eos>"[0] == '<';
  }

  function Decoding(v: Vocabulary, tokens: seq<int>, first: bool): (r: string)
    decreases |tokens|
  {
    if tokens == [] then ""
    else if tokens[0] <= 1 || tokens[0] >= |v.names| then Decoding(v, tokens[1..], first)
    else
      var w := v.names[tokens[0]];
      (if first then "" else Gap(w)) + w + Decoding(v, tokens[1..], false)
  }

  lemma {:induction false} DecodingFacts(v: Vocabulary, ids: seq<int>, words: seq<string>)
    requires |ids| == |words| && forall i :: 0 <= i < |ids| ==> 3 <= ids[i] < |v.names| && v.names[ids[i]] == words[i]
    ensures Decoding(v, ids, false) == Rest(words) && Decoding(v, ids, true) == Join(words)
    decreases |ids|
  {
    if ids != [] { DecodingFacts(v, ids[1..], words[1..]); }
  }

  function Encoded(v: Vocabulary, text: string): (r: (Vocabulary, seq<int>)) {
    if Words(text) == [] then (v, []) else (Encoding(v, Words(text)).0, [1] + Encoding(v, Words(text)).1)
  }

  lemma Regrouped(a: string, b: string, c: string, d: string)
    ensures a + (b + c + d) == a + b + c + d && a + "" == a
  {
  }

  function Decoded(v: Vocabulary, tokens: seq<int>): string { Decoding(v, tokens, true) }

  /** Decoding what was encoded, with the vocabulary of then or of any later time,
      gives a text with the same words; so doing it again changes nothing. */
  lemma RoundTrip(v: Vocabulary, text: string, later: Vocabulary)
    requires Inverse(v) && Grows(Encoded(v, text).0, later) && Inverse(later)
    ensures var back := Decoded(later, Encoded(v, text).1);
            && Words(back) == Words(text)
            && back == Join(Words(text))
            && Decoded(Encoded(later, back).0, Encoded(later, back).1) == back
  {
    hide Scan, Rest, Encoding, Decoding;
    var words := Words(text);
    ScanFindsWords(text, "");
    WordsOfJoin(words);
    EncodingFacts(v, words);
    DecodesTo(later, Encoding(v, words).1, words);
    EncodingFacts(later, words);
    DecodesTo(Encoding(later, words).0, Encoding(later, words).1, words);
  }

  lemma DecodesTo(v: Vocabulary, ids: seq<int>, words: seq<string>)
    requires |ids| == |words| && (forall i :: 0 <= i < |ids| ==> 3 <= ids[i] < |v.names| && v.names[ids[i]] == words[i])
    ensures Decoded(v, [1] + ids) == Join(words) && Decoded(v, []) == ""
  {
    DecodingFacts(v, ids, words);
    assert ([1] + ids)[1..] == ids;
  }

  // ---- in place ----

  class SimpleTokenizer {
    var ids: map<string, int>
    var names: seq<string>

    constructor ()
      ensures Inverse(View())
    {
      ids, names := map["<bos>" := 1, "<eos>" := 2], ["", "<bos>", "<eos>"];
    }

    function View(): Vocabulary
      reads this
    {
      Vocabulary(ids, names)
    }

    method AddToken(w: string) returns (id: int)
      requires Inverse(View())
      modifies this
      ensures View() == Added(old(View()), w) && Inverse(View()) && Grows(old(View()), View()) && id == View().ids[w]
    {
      if w in ids {
        return ids[w];
      }
      id := |names|;
      ids := ids[w := id];
      names := names + [w];
    }

    method Encode(text: string) returns (tokens: seq<int>)
      requires Inverse(View())
      modifies this
      ensures (View(), tokens) == Encoded(old(View()), text) && Inverse(View()) && Grows(old(View()), View())
    {
      var words := Tokenize(text);
      if words == [] {
        return [];
      }
      tokens := [1];
      for i := 0 to |words|
        invariant Inverse(View()) && Grows(old(View()), View())
        invariant Encoding(View(), words[i..]).0 == Encoding(old(View()), words).0
        invariant tokens + Encoding(View(), words[i..]).1 == [1] + Encoding(old(View()), words).1
      {
        assert words[i..][1..] == words[i + 1..];
        ghost var more := Encoding(Added(View(), words[i]), words[i + 1..]).1;
        var id := AddToken(words[i]);
        assert tokens + ([id] + more) == (tokens + [id]) + more;
        tokens := tokens + [id];
      }
      assert words[|words|..] == [] && tokens + [] == tokens;
    }

    method Decode(tokens: seq<int>) returns (text: string)
      ensures text == Decoded(View(), tokens)
    {
      hide Closing;
      text := "";
      var first := true;
      for i := 0 to |tokens|
        invariant text + Decoding(View(), tokens[i..], first) == Decoded(View(), tokens)
      {
        assert tokens[i..][1..] == tokens[i + 1..];
        if tokens[i] <= 1 || tokens[i] >= |names| {
          continue;
        }
        var w := names[tokens[i]];
        Regrouped(text, if first then "" else Gap(w), w, Decoding(View(), tokens[i + 1..], false));
        if !first && !Closing(w) {
          text := text + " ";
        }
        text := text + w;
        first := false;
      }
    }
  }

  // ---- the form of encodings and texts ----

  /** An encoding starts with the begin token and has one id for each word; a text
      without words has none at all. */
  lemma EncodingsBegin(v: Vocabulary, text: string)
    requires Inverse(v)
    ensures var (v', tokens) := Encoded(v, text);
            && Inverse(v') && (tokens == [] <==> Words(text) == []) && (tokens == [] ==> v' == v)
            && (tokens != [] ==> tokens[0] == 1 && v'.names[1] == "<bos>" && |tokens| == 1 + |Words(text)|)
            && (forall i :: 1 <= i < |tokens| ==>
                3 <= tokens[i] < |v'.names| && v'.names[tokens[i]] == Words(text)[i - 1])
  {
    hide Scan, Encoding;
    ScanFindsWords(text, "");
    EncodingFacts(v, Words(text));
  }

  /** Ids that name nothing, and the begin token, leave no trace in the text. */
  lemma {:induction false} SilentIds(v: Vocabulary, before: seq<int>, x: int, after: seq<int>, first: bool)
    requires x <= 1 || x >= |v.names|
    ensures Decoding(v, before + [x] + after, first) == Decoding(v, before + after, first)
    decreases |before|
  {
    if before == [] {
      assert ([x] + after)[1..] == after && before + [x] + after == [x] + after && before + after == after;
    } else {
      assert (before + [x] + after)[1..] == before[1..] + [x] + after;
      assert (before + after)[1..] == before[1..] + after;
      SilentIds(v, before[1..], x, after, first);
      SilentIds(v, before[1..], x, after, false);
    }
  }

  /** Every other id is spelled out, the end token too. */
  lemma SpokenIds(v: Vocabulary, x: int, after: seq<int>, first: bool)
    requires 2 <= x < |v.names|
    ensures Decoding(v, [x] + after, first) ==
        (if first then "" else Gap(v.names[x])) + v.names[x] + Decoding(v, after, false)
  {
    assert ([x] + after)[1..] == after;
  }

  /** The characters of words, and the spaces between them. */
  lemma Characters(c: char)
    ensures Alnum(c) <==> '0' <= c <= '9' || 'a' <= Lower(c) <= 'z'
    ensures Space(c) <==> c == ' ' || c as int in {9, 10, 11, 12, 13}
    ensures Lower('A') == 'a' && Lower('Z') == 'z' && Lower('a') == 'a' && Lower('5') == '5'
  {
  }

  /** Words are joined by single spaces, but none before a closing mark. */
  lemma {:induction false} JoinedBySpaces(words: seq<string>, w: string)
    ensures Join(words + [w]) ==
            if words == [] then w else if w in {".", ",", "!", "?"} then Join(words) + w else Join(words) + " " + w
  {
    GapIs(w);
    hide Rest, Gap;
    if words != [] {
      assert (words + [w])[1..] == words[1..] + [w];
      RestExtends(words[1..], w);
      assert words[0] + (Rest(words[1..]) + Gap(w) + w) == words[0] + Rest(words[1..]) + Gap(w) + w;
      assert Join(words) + "" == Join(words);
    } else {
      assert words + [w] == [w] && [w][1..] == [] && w + "" == w;
    }
  }

  lemma GapIs(w: string)
    ensures Gap(w) == (if w in {".", ",", "!", "?"} then "" else " ") && Rest([]) == ""
  {
  }

  lemma {:induction false} RestExtends(words: seq<string>, w: string)
    ensures Rest(words + [w]) == Rest(words) + Gap(w) + w
  {
    hide Closing;
    if words == [] {
      assert [w][1..] == [] && Gap(w) + w + "" == Gap(w) + w && "" + Gap(w) + w == Gap(w) + w;
    } else {
      assert (words + [w])[1..] == words[1..] + [w];
      RestExtends(words[1..], w);
      var front := Gap(words[0]) + words[0];
      assert front + (Rest(words[1..]) + Gap(w) + w) == front + Rest(words[1..]) + Gap(w) + w;
    }
  }
}
