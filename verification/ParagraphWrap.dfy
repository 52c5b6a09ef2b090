/**
 `wrap_paragraph`: greedy filling of lines. Widths are what `str::len` counts, bytes of UTF-8.
 `Greedy` keeps lines as lists of words; the method works on strings and is proved equal to it.
 */
module ParagraphWrap {
  import opened Sequences
  import opened Text

  // ---------- words ----------

  predicate IsWord(w: string) {
    |w| > 0 && forall i | 0 <= i < |w| :: !IsWhitespace(w[i])
  }

  predicate EndsInInk(text: string) {
    |text| > 0 && !IsWhitespace(Last(text))
  }

  /** One more character: whitespace ends a word, ink continues one or starts one. */
  function ReadChar(words: seq<string>, afterInk: bool, c: char): seq<string>
    requires afterInk ==> |words| > 0
  {
    if IsWhitespace(c) then words
    else if afterInk then Init(words) + [Last(words) + [c]]
    else words + [[c]]
  }

  /** `split_whitespace`: the runs of ink, read left to right. */
  function SplitWhitespace(text: string): (words: seq<string>)
    ensures EndsInInk(text) ==> |words| > 0
    ensures forall k | 0 <= k < |words| :: IsWord(words[k])
  {
    if |text| == 0 then [] else ReadChar(SplitWhitespace(Init(text)), EndsInInk(Init(text)), Last(text))
  }

  lemma ReadCharAfter(before: seq<string>, words: seq<string>, afterInk: bool, c: char)
    requires afterInk ==> |words| > 0
    ensures ReadChar(before + words, afterInk, c) == before + ReadChar(words, afterInk, c)
  {
    if afterInk {
      assert Last(before + words) == Last(words) && Init(before + words) == before + Init(words);
    }
  }

  lemma PushedText(front: string, b: string)
    requires |b| > 0
    ensures Init(front + b) == front + Init(b) && Last(front + b) == Last(b)
  {
  }

  /** Any whitespace character separates the words before it from the words after it. */
  lemma {:induction false} WhitespaceSeparates(a: string, c: char, b: string)
    requires IsWhitespace(c)
    ensures SplitWhitespace(a + [c] + b) == SplitWhitespace(a) + SplitWhitespace(b)
    decreases |b|
  {
    hide IsWhitespace;
    if |b| == 0 {
      assert a + [c] + b == a + [c] && Init(a + [c]) == a;
    } else {
      WhitespaceSeparates(a, c, Init(b));
      PushedText(a + [c], b);
      if |b| > 1 {
        PushedText(a + [c], Init(b));
      } else {
        assert a + [c] + Init(b) == a + [c];
      }
      ReadCharAfter(SplitWhitespace(a), SplitWhitespace(Init(b)), EndsInInk(Init(b)), Last(b));
    }
  }

  lemma {:induction false} OneWord(w: string)
    requires IsWord(w)
    ensures SplitWhitespace(w) == [w]
    decreases |w|
  {
    if |w| > 1 {
      OneWord(Init(w));
      InitLast(w);
    } else {
      assert w == [Last(w)];
    }
  }

  function WordsOf(): string -> seq<string> {
    (part: string) => SplitWhitespace(part)
  }

  /** Joining parts with a whitespace character between them joins their words. */
  lemma {:induction false} JoinedWords(parts: seq<string>, c: char)
    requires IsWhitespace(c)
    ensures SplitWhitespace(Join(parts, [c])) == Flatten(Map(parts, WordsOf()))
    decreases |parts|
  {
    if |parts| == 1 {
      assert Init(Map(parts, WordsOf())) == [];
      assert [] + SplitWhitespace(parts[0]) == SplitWhitespace(parts[0]);
    } else if |parts| > 1 {
      JoinedWords(Init(parts), c);
      assert Init(Map(parts, WordsOf())) == Map(Init(parts), WordsOf());
      WhitespaceSeparates(Join(Init(parts), [c]), c, Last(parts));
    }
  }

  // ---------- lines ----------

  type Line = seq<string>

  function LineText(): Line -> string {
    (line: Line) => Join(line, " ")
  }

  function Width(line: Line): nat {
    ByteLength(LineText()(line))
  }

  lemma WidthPush(line: Line, word: string)
    ensures Width(line + [word]) == (if |line| == 0 then 0 else Width(line) + 1) + ByteLength(word)
  {
    var all := line + [word];
    if |line| == 0 {
      assert all == [word];
    } else {
      assert all[..|all| - 1] == line;
      ByteLengthConcat(Join(line, " ") + " ", word);
      ByteLengthConcat(Join(line, " "), " ");
      assert ByteLength(" ") == 1;
    }
  }

  /** Fits the width, or is a single word that no line could hold. */
  predicate Fits(line: Line, width: nat) {
    |line| > 0 && (Width(line) <= width || |line| == 1)
  }

  ghost predicate Layout(lines: seq<Line>, words: seq<string>, width: nat) {
    Flatten(lines) == words && forall k | 0 <= k < |lines| :: Fits(lines[k], width)
  }

  /** The greedy layout: a word goes on the current line if it fits there. */
  function Greedy(words: seq<string>, width: nat): (lines: seq<Line>)
    ensures |lines| == 0 <==> |words| == 0
  {
    if |words| == 0 then []
    else
      var before, word := Greedy(Init(words), width), Last(words);
      if |before| == 0 then [[word]]
      else if Width(Last(before) + [word]) > width then before + [[word]]
      else Init(before) + [Last(before) + [word]]
  }

  // ---------- greedy is a layout ----------

  lemma {:induction false} GreedyIsALayout(words: seq<string>, width: nat)
    ensures Layout(Greedy(words, width), words, width)
    decreases |words|
  {
    if |words| > 0 {
      GreedyIsALayout(Init(words), width);
      var before, word, after := Greedy(Init(words), width), Last(words), Greedy(words, width);
      InitLast(words);
      if |before| == 0 {
        assert Init(after) == [] && Flatten([]) + [word] == words by {
          assert Init(words) == [];
        }
      } else if |after| > |before| {
        assert Init(after) == before;
      } else {
        assert Init(after) == Init(before);
        ConcatAssociates(Flatten(Init(before)), Last(before), [word]);
      }
    }
  }

  // ---------- greedy is best ----------

  /** A layout of all words but the last, from a layout of all words. */
  function Shortened(lines: seq<Line>): seq<Line>
    requires |lines| > 0 && |Last(lines)| > 0
  {
    if |Last(lines)| == 1 then Init(lines) else Init(lines) + [Init(Last(lines))]
  }

  lemma ShortenedIsALayout(lines: seq<Line>, words: seq<string>, width: nat)
    requires Layout(lines, words, width) && |words| > 0
    ensures |lines| > 0 && |Last(lines)| > 0 && Last(Last(lines)) == Last(words)
    ensures Layout(Shortened(lines), Init(words), width)
  {
    assert |lines| > 0;
    var line := Last(lines);
    assert Fits(line, width);
    InitLast(line);
    assert words == Flatten(Init(lines)) + line;
    if |line| == 1 {
      assert Init(words) == Flatten(Init(lines));
    } else {
      WidthPush(Init(line), Last(line));
      assert Init(Shortened(lines)) == Init(lines);
      assert Init(words) == Flatten(Init(lines)) + Init(line);
    }
  }

  lemma {:induction false} WidthOfSuffix(front: Line, back: Line)
    ensures Width(back) <= Width(front + back)
    decreases |back|
  {
    if |back| > 0 {
      WidthOfSuffix(front, Init(back));
      InitLast(back);
      ConcatAssociates(front, Init(back), [Last(back)]);
      WidthPush(Init(back), Last(back));
      WidthPush(front + Init(back), Last(back));
    }
  }

  /** Of two layouts' last lines, the one with more words is at least as wide, with any word added. */
  lemma LongerLastLineIsWider(a: seq<Line>, b: seq<Line>, words: seq<string>, width: nat, word: string)
    requires Layout(a, words, width) && Layout(b, words, width) && |a| > 0 && |b| > 0
    requires |Last(a)| <= |Last(b)|
    ensures Width(Last(a) + [word]) <= Width(Last(b) + [word])
  {
    var front := Last(b)[..|Last(b)| - |Last(a)|];
    assert words == Flatten(Init(a)) + Last(a) == Flatten(Init(b)) + Last(b);
    assert words[|words| - |Last(a)|..] == Last(a);
    assert Last(b) == front + Last(a);
    ConcatAssociates(front, Last(a), [word]);
    WidthOfSuffix(front, Last(a) + [word]);
  }

  ghost predicate StaysAhead(greedy: seq<Line>, other: seq<Line>) {
    |greedy| < |other| || (|greedy| == |other| && (|greedy| > 0 ==> |Last(greedy)| <= |Last(other)|))
  }

  /** Word by word, the greedy layout never needs more lines, nor a fuller last line, than any other. */
  lemma {:induction false} GreedyStaysAhead(words: seq<string>, width: nat, lines: seq<Line>)
    requires Layout(lines, words, width)
    ensures StaysAhead(Greedy(words, width), lines)
    decreases |words|
  {
    if |words| > 0 {
      ShortenedIsALayout(lines, words, width);
      GreedyStaysAhead(Init(words), width, Shortened(lines));
      GreedyIsALayout(Init(words), width);
      OneWordMore(words, width, lines);
    }
  }

  lemma OneWordMore(words: seq<string>, width: nat, lines: seq<Line>)
    requires |words| > 0 && |lines| > 0 && |Last(lines)| > 0
    requires Layout(lines, words, width) && Layout(Shortened(lines), Init(words), width)
    requires Last(Last(lines)) == Last(words)
    requires Layout(Greedy(Init(words), width), Init(words), width)
    requires StaysAhead(Greedy(Init(words), width), Shortened(lines))
    ensures StaysAhead(Greedy(words, width), lines)
  {
    hide Layout, Width;
    var before, word := Greedy(Init(words), width), Last(words);
    var shorter := Shortened(lines);
    assert Fits(Last(lines), width) by {
      LastFits(lines, words, width);
    }
    if |Last(lines)| > 1 && |before| == |shorter| && |before| > 0 {
      assert Last(shorter) == Init(Last(lines));
      InitLast(Last(lines));
      LongerLastLineIsWider(before, shorter, Init(words), width, word);
    }
  }

  lemma LastFits(lines: seq<Line>, words: seq<string>, width: nat)
    requires Layout(lines, words, width) && |lines| > 0
    ensures Fits(Last(lines), width)
  {
  }

  /** No layout of the words uses fewer lines. */
  lemma GreedyIsOptimal(words: seq<string>, width: nat, lines: seq<Line>)
    requires Layout(lines, words, width)
    ensures |Greedy(words, width)| <= |lines|
  {
    GreedyStaysAhead(words, width, lines);
  }

  // ---------- the wrapped text ----------

  function WrappedText(text: string, width: nat): string {
    Join(Map(Greedy(SplitWhitespace(text), width), LineText()), "\n")
  }

  /** The current line and the lines before it, after some words. */
  ghost predicate Filling(words: seq<string>, width: nat, lines: seq<Line>, line: Line) {
    && (|line| == 0 <==> |words| == 0)
    && (forall k | 0 <= k < |line| :: IsWord(line[k]))
    && Greedy(words, width) == (if |words| == 0 then [] else lines + [line])
    && (|words| == 0 ==> lines == [])
  }

  lemma FillingStarts(width: nat)
    ensures Filling([], width, [], []) && LineText()([]) == ""
  {
  }

  lemma CurrentIsBlankIff(words: seq<string>, width: nat, lines: seq<Line>, line: Line)
    requires Filling(words, width, lines, line)
    ensures LineText()(line) == "" <==> |line| == 0
    ensures |line| == 0 <==> |words| == 0
    ensures |words| > 0 ==> Greedy(words, width) == lines + [line]
  {
    LineIsBlankIff(line);
  }

  lemma LineGrows(line: Line, word: string)
    ensures LineText()(line + [word]) == if |line| == 0 then word else LineText()(line) + " " + word
  {
    assert (line + [word])[..|line|] == line;
  }

  lemma LineIsBlankIff(line: Line)
    requires forall k | 0 <= k < |line| :: IsWord(line[k])
    ensures LineText()(line) == "" <==> |line| == 0
  {
  }

  lemma MapPush(lines: seq<Line>, line: Line)
    ensures Map(lines + [line], LineText()) == Map(lines, LineText()) + [LineText()(line)]
  {
  }

  lemma WordOverflows(words: seq<string>, width: nat, lines: seq<Line>, line: Line, word: string)
    requires Filling(words, width, lines, line) && |line| > 0 && IsWord(word)
    requires Width(line + [word]) > width
    ensures Filling(words + [word], width, lines + [line], [word])
  {
    assert Init(words + [word]) == words;
    assert Last(lines + [line]) == line;
  }

  lemma WordFits(words: seq<string>, width: nat, lines: seq<Line>, line: Line, word: string)
    requires Filling(words, width, lines, line) && IsWord(word)
    requires |line| > 0 ==> Width(line + [word]) <= width
    ensures Filling(words + [word], width, lines, line + [word])
  {
    assert Init(words + [word]) == words;
    if |line| == 0 {
      assert [] + [word] == [word];
      assert lines + [line + [word]] == [[word]];
    } else {
      assert Last(lines + [line]) == line && Init(lines + [line]) == lines;
    }
  }

  method WrapParagraph(text: string, width: nat) returns (wrapped: string)
    ensures wrapped == WrappedText(text, width)
  {
    var words := SplitWhitespace(text);
    if |words| == 0 {
      return "";
    }
    var current := "";
    var lines: seq<string> := [];
    ghost var filled: seq<Line>, line: Line := [], [];
    hide Greedy, LineText, ByteLength, Join, Filling, SplitWhitespace;
    assert Filling([], width, filled, line) && current == LineText()(line) by {
      FillingStarts(width);
    }
    assert words[..0] == [];
    for i := 0 to |words|
      invariant Filling(words[..i], width, filled, line)
      invariant current == LineText()(line) && lines == Map(filled, LineText())
    {
      var word := words[i];
      assert words[..i + 1] == words[..i] + [word];
      WidthPush(line, word);
      LineGrows(line, word);
      CurrentIsBlankIff(words[..i], width, filled, line);
      var nextLength := if current == "" then ByteLength(word) else ByteLength(current) + 1 + ByteLength(word);
      if nextLength > width && current != "" {
        WordOverflows(words[..i], width, filled, line, word);
        MapPush(filled, line);
        LineGrows([], word);
        assert [] + [word] == [word];
        lines := lines + [current];
        current := word;
        filled, line := filled + [line], [word];
      } else {
        WordFits(words[..i], width, filled, line, word);
        if current == "" {
          current := word;
        } else {
          current := current + " ";
          current := current + word;
        }
        line := line + [word];
      }
    }
    assert words[..|words|] == words;
    CurrentIsBlankIff(words, width, filled, line);
    MapPush(filled, line);
    if current != "" {
      lines := lines + [current];
    }
    wrapped := Join(lines, "\n");
  }

  lemma {:induction false} LineWords(line: Line)
    requires forall k | 0 <= k < |line| :: IsWord(line[k])
    ensures SplitWhitespace(LineText()(line)) == line
    decreases |line|
  {
    JoinedWords(line, ' ');
    FlattenWords(line);
  }

  lemma {:induction false} FlattenWords(line: Line)
    requires forall k | 0 <= k < |line| :: IsWord(line[k])
    ensures Flatten(Map(line, WordsOf())) == line
    decreases |line|
  {
    if |line| > 0 {
      FlattenWords(Init(line));
      assert Init(Map(line, WordsOf())) == Map(Init(line), WordsOf());
      OneWord(Last(line));
      InitLast(line);
    }
  }

  lemma {:induction false} LayoutWords(lines: seq<Line>)
    requires forall l, k | 0 <= l < |lines| && 0 <= k < |lines[l]| :: IsWord(lines[l][k])
    ensures Flatten(Map(Map(lines, LineText()), WordsOf())) == Flatten(lines)
    decreases |lines|
  {
    if |lines| > 0 {
      LayoutWords(Init(lines));
      LineWords(Last(lines));
      assert Init(Map(Map(lines, LineText()), WordsOf())) == Map(Map(Init(lines), LineText()), WordsOf());
    }
  }

  lemma {:induction false} LinesHoldWords(lines: seq<Line>, words: seq<string>)
    requires Flatten(lines) == words && forall k | 0 <= k < |words| :: IsWord(words[k])
    ensures forall l, k | 0 <= l < |lines| && 0 <= k < |lines[l]| :: IsWord(lines[l][k])
    decreases |lines|
  {
    if |lines| > 0 {
      var n := |Flatten(Init(lines))|;
      assert words[..n] == Flatten(Init(lines)) && words[n..] == Last(lines);
      LinesHoldWords(Init(lines), words[..n]);
      forall l, k | 0 <= l < |lines| && 0 <= k < |lines[l]| ensures IsWord(lines[l][k]) {
        if l == |lines| - 1 {
          assert lines[l][k] == words[n + k];
        } else {
          assert lines[l] == Init(lines)[l];
        }
      }
    }
  }

  /** Wrapping keeps the words and their order: only the whitespace between them changes. */
  lemma WrappingKeepsWords(text: string, width: nat)
    ensures SplitWhitespace(WrappedText(text, width)) == SplitWhitespace(text)
  {
    var words := SplitWhitespace(text);
    var lines := Greedy(words, width);
    GreedyIsALayout(words, width);
    LinesHoldWords(lines, words);
    JoinedWords(Map(lines, LineText()), '\n');
    LayoutWords(lines);
  }

  /** Wrapping a wrapped text again changes nothing. */
  lemma WrappingTwice(text: string, width: nat)
    ensures WrappedText(WrappedText(text, width), width) == WrappedText(text, width)
  {
    WrappingKeepsWords(text, width);
  }
}
