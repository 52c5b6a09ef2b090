/**
 `SseLineDecoder`: server-sent event frames out of text that arrives in arbitrary chunks. The encoding
 side is section 9.2.6 of the HTML Living Standard, restricted to `data` fields.
 */
module SseDecoder {
  import opened Wrappers
  import opened Sequences
  import opened Text

  // ---------- boundaries and lines ----------

  /** Two newlines in a row at `i`. */
  predicate BlankLineAt(s: string, i: nat) {
    i + 1 < |s| && s[i] == '\n' && s[i + 1] == '\n'
  }

  /** `find("\n\n")` */
  function FindBlankLine(s: string, from: nat := 0): (r: Option<nat>)
    requires from <= |s|
    ensures r.Some? ==> from <= r.value && BlankLineAt(s, r.value)
    ensures r.Some? ==> forall i: nat | from <= i < r.value :: !BlankLineAt(s, i)
    ensures r.None? ==> forall i: nat | from <= i :: !BlankLineAt(s, i)
    decreases |s| - from
  {
    if BlankLineAt(s, from) then Some(from)
    else if from < |s| then FindBlankLine(s, from + 1)
    else None
  }

  function FindNewline(s: string): (r: Option<nat>)
    ensures r.Some? ==> r.value < |s| && s[r.value] == '\n'
    ensures r.Some? ==> forall i | 0 <= i < r.value :: s[i] != '\n'
    ensures r.None? ==> forall i | 0 <= i < |s| :: s[i] != '\n'
  {
    if |s| == 0 then None
    else if s[0] == '\n' then Some(0)
    else
      match FindNewline(s[1..])
      case None => None
      case Some(i) => Some(i + 1)
  }

  function DropCarriageReturn(line: string): string {
    if |line| > 0 && Last(line) == '\r' then Init(line) else line
  }

  /** `str::lines`: a carriage return goes with the newline after it; the last newline is optional. */
  function Lines(s: string): seq<string> {
    if |s| == 0 then []
    else
      match FindNewline(s)
      case None => [s]
      case Some(i) => [DropCarriageReturn(s[..i])] + Lines(s[i + 1..])
  }

  // ---------- frames ----------

  const FIELD := "data: "

  /** `strip_prefix("data: ")` */
  function DataOf(): string -> Option<string> {
    (line: string) => if FIELD <= line then Some(line[|FIELD|..]) else None
  }

  /** The data lines of a frame, joined; a frame with no data yields nothing. */
  function FrameData(): string -> Option<string> {
    (frame: string) =>
      var data := Join(FilterMap(Lines(frame), DataOf()), "\n");
      if data == "" then None else Some(data)
  }

  datatype Drained = Drained(frames: seq<string>, rest: string)

  /** Every complete frame of a text, and what is left. */
  function Drain(s: string): (d: Drained)
    ensures FindBlankLine(d.rest).None?
    decreases |s|
  {
    match FindBlankLine(s)
    case None => Drained([], s)
    case Some(i) =>
      var d := Drain(s[i + 2..]);
      Drained([s[..i]] + d.frames, d.rest)
  }

  function Events(frames: seq<string>): seq<string> {
    FilterMap(frames, FrameData())
  }

  class SseLineDecoder {
    var buffer: string

    constructor ()
      ensures buffer == ""
    {
      buffer := "";
    }

    method Push(chunk: string) returns (lines: seq<string>)
      modifies this
      ensures lines == Events(Drain(old(buffer) + chunk).frames)
      ensures buffer == Drain(old(buffer) + chunk).rest
    {
      buffer := buffer + chunk;
      lines := [];
      ghost var all, done := buffer, [];
      var boundary := FindBlankLine(buffer);
      while boundary.Some?
        invariant boundary == FindBlankLine(buffer)
        invariant Drain(all) == Drained(done + Drain(buffer).frames, Drain(buffer).rest)
        invariant lines == Events(done)
        decreases |buffer|
      {
        var frame := buffer[..boundary.value];
        ghost var after := Drain(buffer[boundary.value + 2..]).frames;
        buffer := buffer[boundary.value + 2..];
        var data := Join(FilterMap(Lines(frame), DataOf()), "\n");
        if data != "" {
          lines := lines + [data];
        }
        FilterMapPush(done, frame, FrameData());
        ConcatAssociates(done, [frame], after);
        done := done + [frame];
        boundary := FindBlankLine(buffer);
      }
      assert done + [] == done;
    }
  }

  // ---------- draining in pieces ----------

  lemma BlankLineStaysFirst(s: string, t: string)
    requires FindBlankLine(s).Some?
    ensures FindBlankLine(s + t) == FindBlankLine(s)
  {
    var i := FindBlankLine(s).value;
    var r := FindBlankLine(s + t);
    assert BlankLineAt(s + t, i);
    forall j: nat | j < i ensures !BlankLineAt(s + t, j) {
      assert !BlankLineAt(s, j);
    }
  }

  /** Draining a text and then more text onto the rest is draining both at once. */
  lemma {:induction false} DrainInTwo(s: string, t: string)
    ensures Drain(s + t) == Drained(Drain(s).frames + Drain(Drain(s).rest + t).frames, Drain(Drain(s).rest + t).rest)
    decreases |s|
  {
    match FindBlankLine(s) {
      case None => assert [] + Drain(s + t).frames == Drain(s + t).frames;
      case Some(i) =>
        BlankLineStaysFirst(s, t);
        var tail := s[i + 2..];
        assert (s + t)[i + 2..] == tail + t && (s + t)[..i] == s[..i];
        DrainInTwo(tail, t);
        ConcatAssociates([s[..i]], Drain(tail).frames, Drain(Drain(tail).rest + t).frames);
    }
  }

  /** All that a decoder that starts empty has returned, chunk after chunk. */
  function Pushed(chunks: seq<string>): (seq<string>, string) {
    if |chunks| == 0 then ([], "")
    else
      var (lines, buffer) := Pushed(Init(chunks));
      var d := Drain(buffer + Last(chunks));
      (lines + Events(d.frames), d.rest)
  }

  /** Decoding does not depend on where the text is cut. */
  lemma {:induction false} ChunkingIsIrrelevant(chunks: seq<string>)
    ensures Pushed(chunks) == (Events(Drain(Flatten(chunks)).frames), Drain(Flatten(chunks)).rest)
    decreases |chunks|
  {
    if |chunks| > 0 {
      ChunkingIsIrrelevant(Init(chunks));
      var text := Flatten(Init(chunks));
      DrainInTwo(text, Last(chunks));
      FilterMapAppend(Drain(text).frames, Drain(Drain(text).rest + Last(chunks)).frames, FrameData());
    }
  }

  // ---------- nothing is lost ----------

  /** Frames with their blank lines, then the rest. */
  function Rejoined(frames: seq<string>, rest: string): string {
    if |frames| == 0 then rest else frames[0] + "\n\n" + Rejoined(frames[1..], rest)
  }

  lemma CutAtBlankLine(s: string, i: nat)
    requires BlankLineAt(s, i)
    ensures s == s[..i] + "\n\n" + s[i + 2..]
  {
  }

  lemma {:induction false} DrainIsLossless(s: string)
    ensures Rejoined(Drain(s).frames, Drain(s).rest) == s
    decreases |s|
  {
    match FindBlankLine(s) {
      case None =>
      case Some(i) =>
        DrainIsLossless(s[i + 2..]);
        assert Drain(s).frames[1..] == Drain(s[i + 2..]).frames;
        CutAtBlankLine(s, i);
    }
  }

  /** A frame that its blank line ends, and that no blank line ends sooner. */
  predicate Complete(frame: string) {
    FindBlankLine(frame + "\n\n") == Some(|frame|)
  }

  /** The frames found are the only way to cut the text into complete frames. */
  lemma {:induction false} FramesAreUnique(frames: seq<string>, rest: string)
    requires forall k | 0 <= k < |frames| :: Complete(frames[k])
    requires FindBlankLine(rest).None?
    ensures Drain(Rejoined(frames, rest)) == Drained(frames, rest)
    decreases |frames|
  {
    if |frames| > 0 {
      var tail := Rejoined(frames[1..], rest);
      var s := frames[0] + "\n\n" + tail;
      FramesAreUnique(frames[1..], rest);
      BlankLineStaysFirst(frames[0] + "\n\n", tail);
      assert s[..|frames[0]|] == frames[0] && s[|frames[0]| + 2..] == tail;
      assert frames == [frames[0]] + frames[1..];
    }
  }

  // ---------- encoding ----------

  /** The `data` lines of a payload, one per line of it. */
  function FrameOf(payload: string): string
    decreases |payload|
  {
    match FindNewline(payload)
    case None => "data: " + payload
    case Some(i) => "data: " + payload[..i] + "\n" + FrameOf(payload[i + 1..])
  }

  /** What the decoder makes of each line of the payload: a carriage return before the newline is lost. */
  function Pieces(payload: string): (r: seq<string>)
    ensures |r| > 0
    decreases |payload|
  {
    match FindNewline(payload)
    case None => [payload]
    case Some(i) => [DropCarriageReturn(payload[..i])] + Pieces(payload[i + 1..])
  }

  /** The payload with each carriage return and newline read as a newline. */
  function Normalized(payload: string): string
    decreases |payload|
  {
    match FindNewline(payload)
    case None => payload
    case Some(i) => DropCarriageReturn(payload[..i]) + "\n" + Normalized(payload[i + 1..])
  }

  predicate NoCrLf(s: string) {
    forall i | 0 <= i < |s| - 1 :: !(s[i] == '\r' && s[i + 1] == '\n')
  }

  lemma NewlineIs(s: string, i: nat)
    requires i < |s| && s[i] == '\n' && forall j | 0 <= j < i :: s[j] != '\n'
    ensures FindNewline(s) == Some(i)
  {
    var r := FindNewline(s);
    assert r.Some?;
  }

  lemma LinesOfOne(line: string)
    requires |line| > 0 && FindNewline(line).None?
    ensures Lines(line) == [line]
  {
  }

  lemma LinesOfMore(line: string, more: string)
    requires |line| > 0 && FindNewline(line).None?
    ensures Lines(line + "\n" + more) == [DropCarriageReturn(line)] + Lines(more)
  {
    var s := line + "\n" + more;
    NewlineIs(s, |line|);
    assert s[..|line|] == line && s[|line| + 1..] == more;
  }

  lemma DataRead(piece: string)
    ensures FilterMap([FIELD + piece], DataOf()) == [piece]
  {
    var line := FIELD + piece;
    assert FIELD <= line && line[|FIELD|..] == piece;
    FilterMapPush([], line, DataOf());
    assert [] + [line] == [line];
  }

  /** A line of the payload becomes a line of the frame. */
  lemma DataLine(piece: string)
    requires FindNewline(piece).None?
    ensures |FIELD + piece| > 0 && FindNewline(FIELD + piece).None?
    ensures DropCarriageReturn(FIELD + piece) == FIELD + DropCarriageReturn(piece)
  {
    var line := FIELD + piece;
    if |piece| > 0 {
      assert Last(line) == Last(piece);
      assert Init(line) == FIELD + Init(piece);
    } else {
      assert line == FIELD && Last(FIELD) == ' ';
    }
  }

  lemma FirstPiece(payload: string, i: nat)
    requires FindNewline(payload) == Some(i)
    ensures FindNewline(payload[..i]).None?
  {
  }

  /** The lines of the frame carry the pieces of the payload. */
  lemma {:induction false} FrameLines(payload: string)
    ensures FilterMap(Lines(FrameOf(payload)), DataOf()) == Pieces(payload)
    decreases |payload|
  {
    hide FindNewline, Lines, DataOf, FilterMap, DropCarriageReturn;
    match FindNewline(payload) {
      case None =>
        DataLine(payload);
        DataRead(payload);
        LinesOfOne(FIELD + payload);
      case Some(i) =>
        var piece, more := payload[..i], FrameOf(payload[i + 1..]);
        FirstPiece(payload, i);
        FrameLines(payload[i + 1..]);
        DataLine(piece);
        DataRead(DropCarriageReturn(piece));
        LinesOfMore(FIELD + piece, more);
        FilterMapAppend([FIELD + DropCarriageReturn(piece)], Lines(more), DataOf());
    }
  }

  lemma {:induction false} JoinFront(x: string, ys: seq<string>, separator: string)
    requires |ys| > 0
    ensures Join([x] + ys, separator) == x + separator + Join(ys, separator)
    decreases |ys|
  {
    var all := [x] + ys;
    assert all[..|all| - 1] == [x] + ys[..|ys| - 1];
    if |ys| == 1 {
      assert all[..|all| - 1] == [x];
    } else {
      JoinFront(x, ys[..|ys| - 1], separator);
      var init, last := Join(ys[..|ys| - 1], separator), ys[|ys| - 1];
      assert x + separator + init + separator + last == x + separator + (init + separator + last);
    }
  }

  lemma {:induction false} PiecesRejoin(payload: string)
    ensures Join(Pieces(payload), "\n") == Normalized(payload)
    decreases |payload|
  {
    match FindNewline(payload) {
      case None =>
      case Some(i) =>
        PiecesRejoin(payload[i + 1..]);
        JoinFront(DropCarriageReturn(payload[..i]), Pieces(payload[i + 1..]), "\n");
    }
  }

  lemma CutAtNewline(s: string, i: nat)
    requires FindNewline(s) == Some(i)
    ensures s == s[..i] + "\n" + s[i + 1..]
    ensures NoCrLf(s) <==> (i > 0 ==> s[i - 1] != '\r') && NoCrLf(s[i + 1..])
  {
    var rest := s[i + 1..];
    if NoCrLf(s) {
      forall k | 0 <= k < |rest| - 1 ensures !(rest[k] == '\r' && rest[k + 1] == '\n') {
        assert rest[k] == s[i + 1 + k] && rest[k + 1] == s[i + 2 + k];
      }
    }
    if (i > 0 ==> s[i - 1] != '\r') && NoCrLf(rest) {
      forall k | 0 <= k < |s| - 1 ensures !(s[k] == '\r' && s[k + 1] == '\n') {
        if k > i {
          assert s[k] == rest[k - i - 1] && s[k + 1] == rest[k - i];
        }
      }
    }
  }

  lemma SamePrefixCancels(a: string, b: string, c: string)
    ensures a + b == a + c <==> b == c
  {
    assert (a + b)[|a|..] == b && (a + c)[|a|..] == c;
  }

  /** Exactly the payloads without a carriage return before a newline are unchanged. */
  lemma {:induction false} NormalizedIff(payload: string)
    ensures |Normalized(payload)| <= |payload|
    ensures Normalized(payload) == "" <==> payload == ""
    ensures Normalized(payload) == payload <==> NoCrLf(payload)
    decreases |payload|
  {
    match FindNewline(payload) {
      case None =>
      case Some(i) =>
        var rest := payload[i + 1..];
        NormalizedIff(rest);
        CutAtNewline(payload, i);
        if i == 0 || payload[i - 1] != '\r' {
          assert DropCarriageReturn(payload[..i]) == payload[..i];
          SamePrefixCancels(payload[..i] + "\n", Normalized(rest), rest);
        }
    }
  }

  /** Starts and ends with ink, and has no empty line between. */
  ghost predicate NoEmptyLine(s: string) {
    |s| > 0 && s[0] != '\n' && Last(s) != '\n' && forall i: nat :: !BlankLineAt(s, i)
  }

  lemma NoEmptyLineBetween(line: string, more: string)
    requires |line| > 0 && FindNewline(line).None? && NoEmptyLine(more)
    ensures NoEmptyLine(line + "\n" + more)
  {
    var s := line + "\n" + more;
    forall j: nat ensures !BlankLineAt(s, j) {
      if |line| < j && j + 1 < |s| {
        assert !BlankLineAt(more, j - |line| - 1);
      }
    }
  }

  /** A frame of data lines has no empty line, so only the blank line after it ends it. */
  lemma {:induction false} FrameHasNoEmptyLine(payload: string)
    ensures NoEmptyLine(FrameOf(payload))
    decreases |payload|
  {
    match FindNewline(payload) {
      case None =>
        DataLine(payload);
      case Some(i) =>
        FirstPiece(payload, i);
        DataLine(payload[..i]);
        FrameHasNoEmptyLine(payload[i + 1..]);
        NoEmptyLineBetween(FIELD + payload[..i], FrameOf(payload[i + 1..]));
    }
  }

  lemma BlankLineCompletes(frame: string)
    requires NoEmptyLine(frame)
    ensures Complete(frame)
  {
    var s := frame + "\n\n";
    var r := FindBlankLine(s);
    assert BlankLineAt(s, |frame|);
    forall j: nat | j < |frame| ensures !BlankLineAt(s, j) {
      assert !BlankLineAt(frame, j);
    }
  }

  /** One payload, one frame: every non-empty payload comes out with its line ends normalized. */
  lemma FrameDecodes(payload: string)
    ensures Complete(FrameOf(payload))
    ensures FrameData()(FrameOf(payload)) == if payload == "" then None else Some(Normalized(payload))
  {
    hide FrameOf, Lines, DataOf, FilterMap, Pieces, Complete, NoEmptyLine, Normalized;
    FrameLines(payload);
    PiecesRejoin(payload);
    NormalizedIff(payload);
    FrameHasNoEmptyLine(payload);
    BlankLineCompletes(FrameOf(payload));
  }

  /** A line that is not a data line, ahead of a frame, says nothing; a data line alone says what follows the field. */
  lemma ForeignLinesSayNothing(line: string, frame: string)
    requires |line| > 0 && FindNewline(line).None? && !("data: " <= line)
    ensures FrameData()(line + "\n" + frame) == FrameData()(frame)
    ensures FrameData()(line) == None
  {
    LinesOfMore(line, frame);
    LinesOfOne(line);
    var kept := DropCarriageReturn(line);
    assert !("data: " <= kept);
    FilterMapPush([], kept, DataOf());
    FilterMapPush([], line, DataOf());
    assert [] + [kept] == [kept] && [] + [line] == [line];
    FilterMapAppend([kept], Lines(frame), DataOf());
    assert [] + FilterMap(Lines(frame), DataOf()) == FilterMap(Lines(frame), DataOf());
  }

  /** A payload survives encoding and decoding exactly when it is not empty and has no CR LF. */
  lemma PayloadRoundTrip(payload: string)
    ensures FrameData()(FrameOf(payload)) == Some(payload) <==> payload != "" && NoCrLf(payload)
  {
    hide FrameOf, FrameData, Normalized;
    FrameDecodes(payload);
    NormalizedIff(payload);
  }

  function Frames(payloads: seq<string>): (r: seq<string>)
    ensures |r| == |payloads|
    ensures forall k | 0 <= k < |payloads| :: r[k] == FrameOf(payloads[k])
  {
    seq(|payloads|, k requires 0 <= k < |payloads| => FrameOf(payloads[k]))
  }

  /** The stream that carries these payloads: each one's data lines, then a blank line. */
  function Encoded(payloads: seq<string>): string {
    Rejoined(Frames(payloads), "")
  }

  lemma {:induction false} EventsOfFrames(payloads: seq<string>)
    requires forall p | p in payloads :: p != "" && NoCrLf(p)
    ensures Events(Frames(payloads)) == payloads
    decreases |payloads|
  {
    hide FrameOf, FrameData;
    if |payloads| > 0 {
      InitLast(payloads);
      assert forall p | p in Init(payloads) :: p in payloads;
      EventsOfFrames(Init(payloads));
      assert Last(payloads) in payloads;
      PayloadRoundTrip(Last(payloads));
      assert Init(Frames(payloads)) == Frames(Init(payloads));
    }
  }

  /** However the encoded stream is cut into chunks, the decoder returns exactly the payloads and keeps nothing. */
  lemma StreamRoundTrip(payloads: seq<string>, chunks: seq<string>)
    requires forall p | p in payloads :: p != "" && NoCrLf(p)
    requires Flatten(chunks) == Encoded(payloads)
    ensures Pushed(chunks) == (payloads, "")
  {
    ChunkingIsIrrelevant(chunks);
    forall k | 0 <= k < |payloads| ensures Complete(Frames(payloads)[k]) {
      FrameDecodes(payloads[k]);
    }
    FramesAreUnique(Frames(payloads), "");
    EventsOfFrames(payloads);
  }
}
