/**
 `BasicHiddenReasoningStripper`: what is taken out of a provider's narration before a player sees it.
 `Pieces` is the reference reading of a text as kept stretches and removed blocks.
 */
module ReasoningStripper {
  import opened Wrappers
  import opened Sequences
  import opened Text

  datatype TagPair = TagPair(open: string, close: string)

  /** Neither tag is empty, and the opening tag cannot overlap itself. */
  predicate Usable(t: TagPair) {
    |t.open| > 0 && |t.close| > 0 && forall k | 0 < k < |t.open| :: t.open[k] != t.open[0]
  }

  type Tags = t: TagPair | Usable(t) witness TagPair("<", ">")

  const THINK: Tags := TagPair("<think>", "</think>")

  const MARKERS := ["Internal reasoning:", "Chain of thought:", "Hidden reasoning:", "GM reasoning:"]

  // ---------- the reference reading ----------

  datatype Pieces = End(kept: string) | Block(kept: string, removed: string, rest: Pieces)

  function Whole(p: Pieces): string {
    match p
    case End(kept) => kept
    case Block(kept, removed, rest) => kept + removed + Whole(rest)
  }

  function Kept(p: Pieces): string {
    match p
    case End(kept) => kept
    case Block(kept, _, rest) => kept + Kept(rest)
  }

  predicate Opens(tags: Tags, block: string) {
    OccursAt(block, tags.open, 0)
  }

  /** From an opening tag to the first closing tag after it. */
  predicate Closed(tags: Tags, block: string) {
    Opens(tags, block) && |block| >= |tags.open| + |tags.close|
    && FindText(block[|tags.open|..], tags.close) == Some(|block| - |tags.open| - |tags.close|)
  }

  /** From an opening tag to the end of the text, no closing tag in sight. */
  predicate Unclosed(tags: Tags, block: string) {
    Opens(tags, block) && !Contains(block[|tags.open|..], tags.close)
  }

  predicate Lawful(tags: Tags, p: Pieces) {
    match p
    case End(kept) => !Contains(kept, tags.open)
    case Block(kept, removed, rest) =>
      && !Contains(kept, tags.open)
      && ((Closed(tags, removed) && Lawful(tags, rest)) || (Unclosed(tags, removed) && rest == End("")))
  }

  // ---------- reading a text ----------

  datatype Span = Span(from: nat, to: nat)

  /** Where the first block is: it runs to the end of the text if it is never closed. */
  function FirstBlock(tags: Tags, text: string): (r: Option<Span>)
    ensures r.None? ==> !Contains(text, tags.open)
    ensures r.Some? ==> r.value.from + |tags.open| <= r.value.to <= |text|
    ensures r.Some? ==> FindText(text, tags.open) == Some(r.value.from)
  {
    match FindText(text, tags.open)
    case None => None
    case Some(i) =>
      match FindText(text[i + |tags.open|..], tags.close)
      case None => Some(Span(i, |text|))
      case Some(j) => Some(Span(i, i + |tags.open| + j + |tags.close|))
  }

  function Parse(tags: Tags, text: string): Pieces
    decreases |text|
  {
    match FirstBlock(tags, text)
    case None => End(text)
    case Some(at) => Block(text[..at.from], text[at.from..at.to], Parse(tags, text[at.to..]))
  }

  lemma PrefixBeforeFirst(s: string, t: string, i: nat)
    requires |t| > 0 && FindText(s, t) == Some(i)
    ensures !Contains(s[..i], t)
  {
    forall j: nat | OccursAt(s[..i], t, j)
      ensures false
    {
      SliceOfSlice(s, 0, i, j, j + |t|);
      assert OccursAt(s, t, j);
    }
    ContainsIff(s[..i], t);
  }

  /** The first occurrence does not depend on what follows it. */
  lemma FirstStaysFirst(s: string, more: string, t: string, i: nat)
    requires FindText(s, t) == Some(i)
    ensures FindText(s + more, t) == Some(i)
  {
    var all := s + more;
    assert all[i..i + |t|] == s[i..i + |t|];
    forall j: nat | j < i
      ensures !OccursAt(all, t, j)
    {
      assert all[j..j + |t|] == s[j..j + |t|];
      assert !OccursAt(s, t, j);
    }
    FindIs(all, t, i);
  }

  lemma Rejoin(text: string, i: nat, j: nat)
    requires i <= j <= |text|
    ensures text[..i] + text[i..j] + text[j..] == text
  {
  }

  lemma DropTwice(text: string, i: nat, n: nat)
    requires i + n <= |text|
    ensures text[i..][n..] == text[i + n..]
    ensures text[i..][..n] == text[i..i + n]
  {
  }

  lemma BlockStaysOpen(tags: Tags, text: string, i: nat)
    requires OccursAt(text, tags.open, i) && FindText(text[i + |tags.open|..], tags.close).None?
    ensures Unclosed(tags, text[i..|text|])
  {
    hide FindText, FindFrom;
    assert text[i..|text|] == text[i..];
    DropTwice(text, i, |tags.open|);
  }

  lemma FirstInPrefix(s: string, t: string, i: nat, end: nat)
    requires FindText(s, t) == Some(i) && i + |t| <= end <= |s|
    ensures FindText(s[..end], t) == Some(i)
  {
    SliceOfSlice(s, 0, end, i, i + |t|);
    forall k: nat | k < i ensures !OccursAt(s[..end], t, k) {
      SliceOfSlice(s, 0, end, k, k + |t|);
      assert !OccursAt(s, t, k);
    }
    FindIs(s[..end], t, i);
  }

  lemma BlockCloses(tags: Tags, text: string, i: nat, j: nat)
    requires OccursAt(text, tags.open, i) && FindText(text[i + |tags.open|..], tags.close) == Some(j)
    ensures Closed(tags, text[i..i + |tags.open| + j + |tags.close|])
    ensures text[i + |tags.open|..][j + |tags.close|..] == text[i + |tags.open| + j + |tags.close|..]
  {
    hide FindText, FindFrom;
    var after, end := text[i + |tags.open|..], j + |tags.close|;
    var block := text[i..i + |tags.open| + end];
    DropTwice(text, i + |tags.open|, end);
    assert block[|tags.open|..] == after[..end];
    assert block[..|tags.open|] == text[i..i + |tags.open|];
    FirstInPrefix(after, tags.close, j, end);
  }

  /** Nothing of the text is lost in reading it. */
  lemma {:induction false} ParseIsLossless(tags: Tags, text: string)
    ensures Whole(Parse(tags, text)) == text
    decreases |text|
  {
    match FirstBlock(tags, text) {
      case None =>
      case Some(at) =>
        ParseIsLossless(tags, text[at.to..]);
        Rejoin(text, at.from, at.to);
    }
  }

  lemma FirstBlockIsLawful(tags: Tags, text: string, at: Span)
    requires FirstBlock(tags, text) == Some(at)
    ensures !Contains(text[..at.from], tags.open)
    ensures Closed(tags, text[at.from..at.to]) || (Unclosed(tags, text[at.from..at.to]) && at.to == |text|)
  {
    hide FindText, FindFrom;
    var i := at.from;
    PrefixBeforeFirst(text, tags.open, i);
    var end := FindText(text[i + |tags.open|..], tags.close);
    if end.Some? {
      BlockCloses(tags, text, i, end.value);
      assert at.to == i + |tags.open| + end.value + |tags.close|;
    } else {
      BlockStaysOpen(tags, text, i);
      assert at.to == |text|;
    }
  }

  lemma NothingToRead(tags: Tags, text: string)
    requires text == ""
    ensures Parse(tags, text) == End("")
  {
  }

  /** Kept pieces hold no opening tag; each block ends at its first closing tag or runs to the end. */
  lemma {:induction false} ParseIsLawful(tags: Tags, text: string)
    ensures Lawful(tags, Parse(tags, text))
    decreases |text|
  {
    match FirstBlock(tags, text) {
      case None =>
      case Some(at) =>
        ParseIsLawful(tags, text[at.to..]);
        FirstBlockIsLawful(tags, text, at);
        if at.to == |text| {
          NothingToRead(tags, text[at.to..]);
        }
    }
  }

  /** An opening tag right after tag-free text is the first one: the tag does not overlap itself. */
  lemma FirstTagAfter(tags: Tags, kept: string, rest: string)
    requires !Contains(kept, tags.open) && Opens(tags, rest)
    ensures FindText(kept + rest, tags.open) == Some(|kept|)
  {
    var all := kept + rest;
    assert all[|kept|..|kept| + |tags.open|] == rest[..|tags.open|];
    forall j: nat | j < |kept|
      ensures !OccursAt(all, tags.open, j)
    {
      if j + |tags.open| <= |kept| {
        assert all[j..j + |tags.open|] == kept[j..j + |tags.open|];
        assert !OccursAt(kept, tags.open, j);
      } else {
        var k := |kept| - j;
        assert all[j..j + |tags.open|][k] == rest[..|tags.open|][0] == tags.open[0];
        assert tags.open[k] != tags.open[0];
      }
    }
    FindIs(all, tags.open, |kept|);
  }

  lemma ReadClosedBlock(tags: Tags, text: string, i: nat, removed: string, rest: string)
    requires FindText(text, tags.open) == Some(i) && text[i..] == removed + rest && Closed(tags, removed)
    ensures FirstBlock(tags, text) == Some(Span(i, i + |removed|))
  {
    hide FindText, FindFrom;
    DropTwice(text, i, |tags.open|);
    assert (removed + rest)[|tags.open|..] == removed[|tags.open|..] + rest;
    FirstStaysFirst(removed[|tags.open|..], rest, tags.close, |removed| - |tags.open| - |tags.close|);
  }

  lemma ReadOpenBlock(tags: Tags, text: string, i: nat, removed: string)
    requires FindText(text, tags.open) == Some(i) && text[i..] == removed && Unclosed(tags, removed)
    ensures FirstBlock(tags, text) == Some(Span(i, i + |removed|))
  {
    hide FindText, FindFrom;
    DropTwice(text, i, |tags.open|);
  }

  lemma ReadBlock(tags: Tags, kept: string, removed: string, rest: string)
    requires !Contains(kept, tags.open)
    requires Closed(tags, removed) || (Unclosed(tags, removed) && rest == "")
    ensures FirstBlock(tags, kept + removed + rest) == Some(Span(|kept|, |kept| + |removed|))
  {
    hide FindText, FindFrom;
    var text := kept + removed + rest;
    ConcatAssociates(kept, removed, rest);
    assert Opens(tags, removed + rest) by {
      assert (removed + rest)[..|tags.open|] == removed[..|tags.open|];
    }
    FirstTagAfter(tags, kept, removed + rest);
    assert text[|kept|..] == removed + rest;
    if Closed(tags, removed) {
      ReadClosedBlock(tags, text, |kept|, removed, rest);
    } else {
      assert removed + rest == removed;
      ReadOpenBlock(tags, text, |kept|, removed);
    }
  }

  lemma CutBlock(kept: string, removed: string, rest: string)
    ensures var text := kept + removed + rest;
            && text[..|kept|] == kept
            && text[|kept|..|kept| + |removed|] == removed
            && text[|kept| + |removed|..] == rest
  {
  }

  /** There is only one lawful reading of a text. */
  lemma {:induction false} ReadingIsUnique(tags: Tags, p: Pieces)
    requires Lawful(tags, p)
    ensures Parse(tags, Whole(p)) == p
  {
    match p {
      case End(_) =>
      case Block(kept, removed, rest) =>
        ReadBlock(tags, kept, removed, Whole(rest));
        CutBlock(kept, removed, Whole(rest));
        if Closed(tags, removed) && Lawful(tags, rest) {
          ReadingIsUnique(tags, rest);
        } else {
          NothingToRead(tags, Whole(rest));
        }
    }
  }

  lemma KeptPastBlock(tags: Tags, text: string, at: Span, rest: string)
    requires FirstBlock(tags, text) == Some(at) && rest == text[at.to..]
    ensures Kept(Parse(tags, text)) == text[..at.from] + Kept(Parse(tags, rest))
  {
    assert Parse(tags, text) == Block(text[..at.from], text[at.from..at.to], Parse(tags, rest));
  }

  lemma StripClosedBlock(tags: Tags, text: string, i: nat, j: nat, rest: string)
    requires FindText(text, tags.open) == Some(i) && FindText(text[i + |tags.open|..], tags.close) == Some(j)
    requires rest == text[i + |tags.open|..][j + |tags.close|..]
    ensures Kept(Parse(tags, text)) == text[..i] + Kept(Parse(tags, rest))
  {
    hide FindText, FindFrom;
    var at := Span(i, i + |tags.open| + j + |tags.close|);
    DropTwice(text, i + |tags.open|, j + |tags.close|);
    assert FirstBlock(tags, text) == Some(at);
    KeptPastBlock(tags, text, at, rest);
  }

  lemma StripOpenBlock(tags: Tags, text: string, i: nat)
    requires FindText(text, tags.open) == Some(i) && FindText(text[i + |tags.open|..], tags.close).None?
    ensures Kept(Parse(tags, text)) == text[..i] + Kept(Parse(tags, ""))
  {
    hide FindText, FindFrom;
    assert FirstBlock(tags, text) == Some(Span(i, |text|));
    KeptPastBlock(tags, text, Span(i, |text|), "");
  }

  /** `strip_tag_blocks` keeps exactly the kept pieces. */
  method StripTagBlocks(tags: Tags, input: string) returns (output: string)
    ensures output == Kept(Parse(tags, input))
  {
    output := "";
    var rest := input;
    var start := FindText(rest, tags.open);
    while start.Some?
      invariant start == FindText(rest, tags.open)
      invariant output + Kept(Parse(tags, rest)) == Kept(Parse(tags, input))
      decreases |rest|
    {
      var i := start.value;
      ghost var before, text := output, rest;
      output := output + rest[..i];
      var afterStart := rest[i + |tags.open|..];
      var end := FindText(afterStart, tags.close);
      if end.Some? {
        rest := afterStart[end.value + |tags.close|..];
        StripClosedBlock(tags, text, i, end.value, rest);
      } else {
        rest := "";
        StripOpenBlock(tags, text, i);
      }
      ConcatAssociates(before, text[..i], Kept(Parse(tags, rest)));
      start := FindText(rest, tags.open);
    }
    output := output + rest;
  }

  // ---------- markers ----------

  function Truncated(text: string, marker: string): (r: string)
    ensures |r| <= |text| && r == text[..|r|]
  {
    match FindText(text, marker)
    case Some(i) => text[..i]
    case None => text
  }

  function TruncatedAll(text: string, markers: seq<string>): (r: string)
    ensures |r| <= |text| && r == text[..|r|]
  {
    if |markers| == 0 then text else Truncated(TruncatedAll(text, Init(markers)), Last(markers))
  }

  /** What a player is shown of a narration. */
  function Strip(text: string): string {
    Trim(TruncatedAll(Kept(Parse(THINK, text)), MARKERS))
  }

  method StripReasoning(text: string) returns (r: string)
    ensures r == Strip(text)
  {
    var cleaned := StripTagBlocks(THINK, text);
    ghost var kept := cleaned;
    for i := 0 to |MARKERS|
      invariant cleaned == TruncatedAll(kept, MARKERS[..i])
    {
      PrefixStep(MARKERS, i);
      var index := FindText(cleaned, MARKERS[i]);
      if index.Some? {
        cleaned := cleaned[..index.value];
      }
    }
    assert MARKERS[..|MARKERS|] == MARKERS;
    r := Trim(cleaned);
  }

  lemma TrimIsSubstring(text: string) returns (lo: nat, hi: nat)
    ensures lo <= hi <= |text| && Trim(text) == text[lo..hi]
  {
    var t := TrimStart(text);
    lo := |text| - |t|;
    hi := lo + |TrimEnd(t)|;
  }

  lemma {:induction false} TruncatedLacks(text: string, markers: seq<string>)
    requires forall m | m in markers :: |m| > 0
    ensures forall m | m in markers :: !Contains(TruncatedAll(text, markers), m)
    decreases |markers|
  {
    if |markers| > 0 {
      InitLast(markers);
      assert forall m | m in Init(markers) :: m in markers;
      TruncatedLacks(text, Init(markers));
      var before, after := TruncatedAll(text, Init(markers)), TruncatedAll(text, markers);
      var last := Last(markers);
      if FindText(before, last).Some? {
        PrefixBeforeFirst(before, last, FindText(before, last).value);
      }
      forall m | m in markers ensures !Contains(after, m) {
        if m in Init(markers) {
          SubstringLacks(before, m, 0, |after|);
          assert before[0..|after|] == after;
        }
      }
    }
  }

  /** None of the four markers survives. */
  lemma NoMarkerSurvives(text: string)
    ensures !Contains(Strip(text), "Internal reasoning:") && !Contains(Strip(text), "Chain of thought:")
    ensures !Contains(Strip(text), "Hidden reasoning:") && !Contains(Strip(text), "GM reasoning:")
    ensures forall m | m in MARKERS :: !Contains(Strip(text), m)
  {
    assert MARKERS[0] in MARKERS && MARKERS[1] in MARKERS && MARKERS[2] in MARKERS && MARKERS[3] in MARKERS;
    var cut := TruncatedAll(Kept(Parse(THINK, text)), MARKERS);
    TruncatedLacks(Kept(Parse(THINK, text)), MARKERS);
    var lo, hi := TrimIsSubstring(cut);
    forall m | m in MARKERS ensures !Contains(Strip(text), m) {
      SubstringLacks(cut, m, lo, hi);
    }
  }

  /** The text is cut where some marker begins, or not at all. */
  lemma {:induction false} CutAtAMarker(text: string, markers: seq<string>)
    ensures var cut := |TruncatedAll(text, markers)|;
            cut == |text| || exists m :: m in markers && OccursAt(text, m, cut)
    decreases |markers|
  {
    if |markers| > 0 {
      InitLast(markers);
      assert forall m | m in Init(markers) :: m in markers;
      CutAtAMarker(text, Init(markers));
      var before := TruncatedAll(text, Init(markers));
      if FindText(before, Last(markers)).Some? {
        var i := FindText(before, Last(markers)).value;
        SliceOfSlice(text, 0, |before|, i, i + |Last(markers)|);
        assert OccursAt(text, Last(markers), i) && Last(markers) in markers;
      }
    }
  }

  /** What is shown is the kept text up to the first marker it runs into, without surrounding white space. */
  lemma ShownUpToAMarker(text: string)
    ensures var kept := Kept(Parse(THINK, text));
            var cut := MarkerCut(kept);
            && Strip(text) == Trim(kept[..cut])
            && (|| cut == |kept|
                || OccursAt(kept, "Internal reasoning:", cut) || OccursAt(kept, "Chain of thought:", cut)
                || OccursAt(kept, "Hidden reasoning:", cut) || OccursAt(kept, "GM reasoning:", cut))
  {
    CutAtAMarker(Kept(Parse(THINK, text)), MARKERS);
  }

  lemma {:induction false} NothingToTruncate(text: string, markers: seq<string>)
    requires forall m | m in markers :: !Contains(text, m)
    ensures TruncatedAll(text, markers) == text
    decreases |markers|
  {
    if |markers| > 0 {
      InitLast(markers);
      assert forall m | m in Init(markers) :: m in markers;
      NothingToTruncate(text, Init(markers));
      assert Last(markers) in markers;
    }
  }

  /** A text with neither tag nor marker is only trimmed. */
  lemma PlainTextIsOnlyTrimmed(text: string)
    requires !Contains(text, THINK.open)
    requires forall m | m in MARKERS :: !Contains(text, m)
    ensures Strip(text) == Trim(text)
  {
    NothingToTruncate(text, MARKERS);
  }

  lemma TrimTwice(text: string)
    ensures Trim(Trim(text)) == Trim(text)
  {
    var once := Trim(text);
    var start := TrimStart(text);
    if |once| > 0 {
      assert once[0] == start[0];
      assert TrimStart(once) == once;
      assert TrimEnd(once) == once;
    }
  }

  lemma {:induction false} KeptIsShorter(p: Pieces)
    requires Lawful(THINK, p)
    ensures |Kept(p)| <= |Whole(p)|
    ensures p.Block? ==> |Kept(p)| < |Whole(p)|
  {
    match p {
      case End(_) =>
      case Block(_, _, rest) => KeptIsShorter(rest);
    }
  }

  // ---------- which texts are stripped clean ----------

  /** Two kept pieces meet at position `c` of the kept text: a block was removed there. */
  predicate Seam(p: Pieces, c: nat) {
    match p
    case End(_) => false
    case Block(kept, _, rest) => c == |kept| || (c > |kept| && Seam(rest, c - |kept|))
  }

  /** `left` ends with a beginning of the tag and `right` begins with the remainder of it. */
  predicate TagAcross(left: string, right: string, tag: string) {
    exists j | 0 < j < |tag| ::
      j <= |left| && left[|left| - j..] == tag[..j] && |tag| - j <= |right| && right[..|tag| - j] == tag[j..]
  }

  /** Within the first `cut` characters of the kept text, removing some block joins an opening tag. */
  ghost predicate JoinsTag(tags: Tags, p: Pieces, cut: nat)
    requires cut <= |Kept(p)|
  {
    exists c: nat :: c <= cut && Seam(p, c) && TagAcross(Kept(p)[..c], Kept(p)[c..cut], tags.open)
  }

  /** How much of the kept text the markers leave. */
  function MarkerCut(kept: string): (cut: nat)
    ensures cut <= |kept|
  {
    |TruncatedAll(kept, MARKERS)|
  }

  lemma TagEndsPastPiece(kept: string, rest: string, tag: string, i: nat)
    requires !Contains(kept, tag) && OccursAt(kept + rest, tag, i)
    ensures i + |tag| > |kept|
  {
    ContainsIff(kept, tag);
    if i + |tag| <= |kept| {
      SliceOfConcat(kept, rest, i, i + |tag|);
      assert OccursAt(kept, tag, i);
    }
  }

  lemma EndHasNoTag(tags: Tags)
    ensures Lawful(tags, End(""))
  {
    TooShort("", tags.open);
  }

  /** Kept pieces hold no tag, so a tag in the kept text lies across a seam. */
  lemma {:induction false} OccurrenceCrossesSeam(tags: Tags, p: Pieces, i: nat) returns (c: nat)
    requires Lawful(tags, p) && OccursAt(Kept(p), tags.open, i)
    ensures Seam(p, c) && i < c < i + |tags.open|
  {
    hide FindText, FindFrom, Closed, Unclosed;
    EndHasNoTag(tags);
    TagEndsPastPiece(p.kept, if p.Block? then Kept(p.rest) else "", tags.open, i) by {
      assert p.End? ==> p.kept + "" == p.kept;
    }
    var n := |p.kept|;
    if i < n {
      c := n;
    } else {
      TailOfConcat(p.kept, Kept(p.rest), i, i + |tags.open|);
      c := OccurrenceCrossesSeam(tags, p.rest, i - n);
      c := c + n;
    }
  }

  lemma SliceOfConcat(a: string, b: string, i: nat, j: nat)
    requires i <= j <= |a|
    ensures (a + b)[i..j] == a[i..j]
  {
  }

  lemma TailOfConcat(a: string, b: string, i: nat, j: nat)
    requires |a| <= i <= j <= |a| + |b|
    ensures (a + b)[i..j] == b[i - |a|..j - |a|]
  {
  }

  /** An occurrence of the tag around `c` is a tag across `c`, and conversely. */
  lemma AcrossIff(text: string, tag: string, c: nat)
    requires c <= |text|
    ensures TagAcross(text[..c], text[c..], tag) <==> exists i: nat :: i < c < i + |tag| && OccursAt(text, tag, i)
  {
    if i: nat :| i < c < i + |tag| && OccursAt(text, tag, i) {
      var j := c - i;
      assert text[i..i + |tag|] == text[i..c] + text[c..i + |tag|];
      assert text[..c][c - j..] == text[i..c] == tag[..j];
      assert text[c..][..|tag| - j] == text[c..i + |tag|] == tag[j..];
    }
    if TagAcross(text[..c], text[c..], tag) {
      var j :| 0 < j < |tag| && j <= c && text[..c][c - j..] == tag[..j]
               && |tag| - j <= |text[c..]| && text[c..][..|tag| - j] == tag[j..];
      var i: nat := c - j;
      assert text[i..i + |tag|] == text[i..c] + text[c..i + |tag|];
      assert text[i..c] == text[..c][c - j..] && text[c..i + |tag|] == text[c..][..|tag| - j];
      assert tag[..j] + tag[j..] == tag;
      assert OccursAt(text, tag, i);
    }
  }

  /** Trimming takes whitespace, and only whitespace, off both ends. */
  lemma TrimBounds(text: string) returns (lo: nat, hi: nat)
    ensures lo <= hi <= |text| && Trim(text) == text[lo..hi]
    ensures forall k | 0 <= k < |text| && (k < lo || hi <= k) :: IsWhitespace(text[k])
  {
    hide TrimStart, TrimEnd;
    var start := TrimStart(text);
    lo := |text| - |start|;
    hi := lo + |TrimEnd(start)|;
    forall k | 0 <= k < lo ensures IsWhitespace(text[k]) {
      assert text[k] == text[..lo][k];
    }
    forall k | hi <= k < |text| ensures IsWhitespace(text[k]) {
      assert text[k] == start[k - lo] == start[|TrimEnd(start)|..][k - hi];
    }
  }

  lemma EndsOfOccurrence(s: string, t: string, i: nat)
    requires |t| > 0 && OccursAt(s, t, i)
    ensures s[i] == t[0] && s[i + |t| - 1] == t[|t| - 1]
  {
    assert s[i..i + |t|][0] == s[i] && s[i..i + |t|][|t| - 1] == s[i + |t| - 1];
  }

  /** Trimming cannot cut a text with ink at both ends. */
  lemma TrimKeepsInk(text: string, t: string)
    requires |t| > 0 && InkAtBothEnds(t)
    ensures Contains(Trim(text), t) <==> Contains(text, t)
  {
    hide FindText, FindFrom, IsWhitespace, Trim;
    var lo, hi := TrimBounds(text);
    if Contains(text, t) {
      ContainsIff(text, t);
      var i: nat :| OccursAt(text, t, i);
      EndsOfOccurrence(text, t, i);
      SliceOfSlice(text, lo, hi, i - lo, i - lo + |t|);
      ContainsIff(Trim(text), t);
      assert OccursAt(Trim(text), t, i - lo);
    } else {
      SubstringLacks(text, t, lo, hi);
    }
  }

  /** Exactly the texts in which a removed block joins two kept pieces to a tag keep a tag. */
  lemma SurvivesIff(text: string)
    ensures var p := Parse(THINK, text);
            Contains(Strip(text), THINK.open) <==> JoinsTag(THINK, p, MarkerCut(Kept(p)))
  {
    hide Parse, Lawful, FindText, FindFrom, TagAcross;
    var p, tag := Parse(THINK, text), THINK.open;
    var cut := TruncatedAll(Kept(p), MARKERS);
    ParseIsLawful(THINK, text);
    TrimKeepsInk(cut, tag);
    ContainsIff(cut, tag);
    if i: nat :| OccursAt(cut, tag, i) {
      SliceOfSlice(Kept(p), 0, |cut|, i, i + |tag|);
      var c := OccurrenceCrossesSeam(THINK, p, i);
      AcrossIff(cut, tag, c);
      SidesOfCut(Kept(p), c, |cut|);
    }
    if c: nat :| c <= |cut| && Seam(p, c) && TagAcross(Kept(p)[..c], Kept(p)[c..|cut|], tag) {
      SidesOfCut(Kept(p), c, |cut|);
      AcrossIff(cut, tag, c);
    }
  }

  lemma SidesOfCut(text: string, c: nat, cut: nat)
    requires c <= cut <= |text|
    ensures text[..cut][..c] == text[..c] && text[..cut][c..] == text[c..cut]
  {
  }

  /** So stripping again changes nothing exactly when no removed block joins a tag. */
  lemma StrippingAgain(text: string)
    ensures var p := Parse(THINK, text);
            Strip(Strip(text)) == Strip(text) <==> !JoinsTag(THINK, p, MarkerCut(Kept(p)))
  {
    SurvivesIff(text);
    CleanIsStable(text);
  }

  lemma CleanIsStable(text: string)
    ensures Strip(Strip(text)) == Strip(text) <==> !Contains(Strip(text), THINK.open)
  {
    var once := Strip(text);
    NoMarkerSurvives(text);
    if Contains(once, THINK.open) {
      ParseIsLossless(THINK, once);
      ParseIsLawful(THINK, once);
      KeptIsShorter(Parse(THINK, once));
      var lo, hi := TrimIsSubstring(TruncatedAll(Kept(Parse(THINK, once)), MARKERS));
    } else {
      PlainTextIsOnlyTrimmed(once);
      TrimTwice(TruncatedAll(Kept(Parse(THINK, text)), MARKERS));
    }
  }

  // ---------- joined pieces may form a tag ----------

  const SPLIT_TAG := "<th" + ("<think>" + "</think>") + "ink>x"

  lemma TooShort(s: string, t: string)
    requires |s| < |t|
    ensures !Contains(s, t)
  {
  }

  predicate InkAtBothEnds(s: string) {
    |s| > 0 ==> !IsWhitespace(s[0]) && !IsWhitespace(s[|s| - 1])
  }

  lemma InkIsNotTrimmed(s: string)
    requires InkAtBothEnds(s)
    ensures Trim(s) == s
  {
    assert TrimStart(s) == s;
    assert TrimEnd(s) == s;
  }

  lemma MarkersAreLong()
    ensures forall k | 0 <= k < |MARKERS| :: |MARKERS[k]| >= 13
  {
  }

  lemma ShortIsNotTruncated(s: string, markers: seq<string>)
    requires forall k | 0 <= k < |markers| :: |s| < |markers[k]|
    ensures TruncatedAll(s, markers) == s
  {
    forall m | m in markers ensures !Contains(s, m) {
      TooShort(s, m);
    }
    NothingToTruncate(s, markers);
  }

  lemma ShortIsNotCut(kept: string)
    requires |kept| < 13 && InkAtBothEnds(kept)
    ensures Trim(TruncatedAll(kept, MARKERS)) == kept
  {
    MarkersAreLong();
    ShortIsNotTruncated(kept, MARKERS);
    InkIsNotTrimmed(kept);
  }

  lemma EmptyBlockCloses()
    ensures Closed(THINK, THINK.open + THINK.close)
  {
    var block := THINK.open + THINK.close;
    assert block[|THINK.open|..] == THINK.close && block[..|THINK.open|] == THINK.open;
    assert THINK.close[..|THINK.close|] == THINK.close;
    FindIs(THINK.close, THINK.close, 0);
  }

  lemma FirstPass()
    ensures Strip(SPLIT_TAG) == "<think>x"
  {
    EmptyBlockCloses();
    TooShort("<th", THINK.open);
    TooShort("ink>x", THINK.open);
    var p := Block("<th", THINK.open + THINK.close, End("ink>x"));
    assert Kept(p) == "<th" + "ink>x" == "<think>x";
    ReadingIsUnique(THINK, p);
    ShortIsNotCut("<think>x");
  }

  lemma SecondPass()
    ensures Strip("<think>x") == ""
  {
    TooShort("", THINK.open);
    TooShort("x", THINK.close);
    var block := THINK.open + "x";
    assert block[|THINK.open|..] == "x" && block[..|THINK.open|] == THINK.open;
    assert Unclosed(THINK, block);
    var p := Block("", block, End(""));
    assert Kept(p) == "" && Whole(p) == block == "<think>x";
    ReadingIsUnique(THINK, p);
    ShortIsNotCut("");
  }

  /** Kept pieces are joined without a second look, so a pass may leave a tag that the next one strips. */
  lemma OnePassMayLeaveATag()
    ensures Strip(SPLIT_TAG) == "<think>x"
    ensures Strip(Strip(SPLIT_TAG)) == ""
  {
    FirstPass();
    SecondPass();
  }
}
