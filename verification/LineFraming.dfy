/**
 Bounded line framing of the app-server's stdout: `read_bounded_line` of src/codex/client.rs.
 The reader hands out its bytes in buffers of any size; the lines must not depend on them.
 */
module LineFraming {

  type Byte = b: nat | b < 256

  const LF: Byte := 10
  const CR: Byte := 13

  function Flatten(chunks: seq<seq<Byte>>): seq<Byte> {
    if chunks == [] then [] else chunks[0] + Flatten(chunks[1..])
  }

  lemma FlattenRest(chunks: seq<seq<Byte>>, n: nat)
    requires chunks != [] && n <= |chunks[0]|
    ensures Flatten(chunks)[n..] == Flatten([chunks[0][n..]] + chunks[1..])
    ensures n == |chunks[0]| ==> Flatten(chunks)[n..] == Flatten(chunks[1..])
  {
    assert Flatten(chunks) == chunks[0] + Flatten(chunks[1..]);
    assert ([chunks[0][n..]] + chunks[1..])[1..] == chunks[1..];
  }

  /** A buffered reader; an empty buffer would mean the end of the stream. */
  class BufferedReader {
    var chunks: seq<seq<Byte>>

    ghost predicate Valid()
      reads this
    {
      forall i :: 0 <= i < |chunks| ==> chunks[i] != []
    }

    /** The bytes not consumed yet. */
    ghost function Stream(): seq<Byte>
      reads this
    {
      Flatten(chunks)
    }

    constructor (buffers: seq<seq<Byte>>)
      requires forall i :: 0 <= i < |buffers| ==> buffers[i] != []
      ensures Valid() && Stream() == Flatten(buffers)
    {
      chunks := buffers;
    }

    method FillBuf() returns (available: seq<Byte>)
      requires Valid()
      ensures available <= Stream()
      ensures available == [] <==> Stream() == []
      ensures available == if chunks == [] then [] else chunks[0]
    {
      available := if chunks == [] then [] else chunks[0];
    }

    method Consume(n: nat)
      requires Valid() && chunks != [] && n <= |chunks[0]|
      modifies this
      ensures Valid() && Stream() == old(Stream())[n..]
    {
      FlattenRest(chunks, n);
      var rest := chunks[0][n..];
      chunks := if rest == [] then chunks[1..] else [rest] + chunks[1..];
    }
  }

  // ---- the specification ---------------------------------------------------------------

  datatype LineResult = Line(text: seq<Byte>, rest: seq<Byte>) | EndOfStream | TooLong

  /** The number of bytes before the first newline, or before the end. */
  function LineLength(stream: seq<Byte>): (n: nat)
    ensures n <= |stream| && LF !in stream[..n] && (n < |stream| ==> stream[n] == LF)
  {
    if stream == [] || stream[0] == LF then 0
    else assert stream[..1] == [stream[0]]; 1 + LineLength(stream[1..])
  }

  function StripCr(line: seq<Byte>): seq<Byte> {
    if line != [] && line[|line| - 1] == CR then line[..|line| - 1] else line
  }

  /** The next line of a byte stream, with at most `max` bytes before its newline. */
  function NextLine(stream: seq<Byte>, max: nat): LineResult {
    var n := LineLength(stream);
    if max < n then TooLong
    else if n < |stream| then Line(StripCr(stream[..n]), stream[n + 1..])
    else if n == 0 then EndOfStream
    else Line(stream, [])   // an unterminated last line keeps its carriage return
  }

  /** All the lines up to the end of the stream, or up to the first one that is too long. */
  function Lines(stream: seq<Byte>, max: nat): (result: (seq<seq<Byte>>, bool))
    decreases |stream|
  {
    match NextLine(stream, max)
    case Line(text, rest) => var (lines, complete) := Lines(rest, max); ([text] + lines, complete)
    case EndOfStream => ([], true)
    case TooLong => ([], false)
  }

  lemma {:induction false} LineLengthIs(stream: seq<Byte>, n: nat)
    requires n <= |stream| && LF !in stream[..n] && (n < |stream| ==> stream[n] == LF)
    ensures LineLength(stream) == n
  {
    if n > 0 {
      assert stream[0] in stream[..n];
      assert stream[1..][..n - 1] == stream[..n][1..];
      LineLengthIs(stream[1..], n - 1);
    }
  }

  /** Bytes before the first newline only add to the length of the line. */
  lemma LineLengthAfter(line: seq<Byte>, tail: seq<Byte>)
    requires LF !in line
    ensures LineLength(line + tail) == |line| + LineLength(tail)
  {
    var n := |line| + LineLength(tail);
    assert (line + tail)[..n] == line + tail[..LineLength(tail)];
    LineLengthIs(line + tail, n);
  }

  /** A buffer shows the newline of the stream, if it reaches that far. */
  lemma {:induction false} LineLengthInBuffer(buffer: seq<Byte>, tail: seq<Byte>)
    requires buffer <= tail
    ensures LineLength(buffer) < |buffer| ==> LineLength(tail) == LineLength(buffer)
    ensures LineLength(buffer) == |buffer| ==> |buffer| <= LineLength(tail)
  {
    if buffer != [] && buffer[0] != LF {
      LineLengthInBuffer(buffer[1..], tail[1..]);
    }
  }

  /** What a terminated line within the limit is read as. */
  lemma NextLineIs(line: seq<Byte>, rest: seq<Byte>, max: nat)
    requires LF !in line && |line| <= max
    ensures NextLine(line + [LF] + rest, max) == Line(StripCr(line), rest)
  {
    var stream := line + [LF] + rest;
    assert stream[..|line|] == line && stream[|line| + 1..] == rest;
    LineLengthIs(stream, |line|);
  }

  // ---- the loop --------------------------------------------------------------------------

  method Position(buffer: seq<Byte>) returns (n: nat)
    ensures n == LineLength(buffer)
  {
    n := 0;
    while n < |buffer| && buffer[n] != LF
      invariant n <= |buffer| && LF !in buffer[..n]
    {
      assert buffer[..n + 1] == buffer[..n] + [buffer[n]];
      n := n + 1;
    }
    LineLengthIs(buffer, n);
  }

  lemma SplitAt(tail: seq<Byte>, n: nat)
    requires n < |tail|
    ensures tail == tail[..n] + ([tail[n]] + tail[n + 1..])
  {
  }

  lemma SplitAtNewline(buffer: seq<Byte>, tail: seq<Byte>, n: nat)
    requires buffer <= tail && n < |buffer| && buffer[n] == LF
    ensures tail == buffer[..n] + ([LF] + tail[n + 1..])
  {
    SplitAt(tail, n);
    assert tail[..n] == buffer[..n];
  }

  lemma Reassociate(a: seq<Byte>, b: seq<Byte>, c: seq<Byte>, d: seq<Byte>)
    ensures a + (b + (c + d)) == (a + b) + c + d
  {
  }

  lemma LineBeforeNewline(line: seq<Byte>, text: seq<Byte>, rest: seq<Byte>, tail: seq<Byte>, max: nat)
    requires tail == text + ([LF] + rest) && LF !in line && LF !in text && |line| + |text| <= max
    ensures NextLine(line + tail, max) == Line(StripCr(line + text), rest)
  {
    Reassociate(line, text, [LF], rest);
    NextLineIs(line + text, rest, max);
  }

  lemma BufferWithNewline(line: seq<Byte>, buffer: seq<Byte>, tail: seq<Byte>, n: nat, max: nat)
    requires LF !in line && buffer <= tail && n < |buffer| && LF !in buffer[..n] && buffer[n] == LF && |line| + n <= max
    ensures NextLine(line + tail, max) == Line(StripCr(line + buffer[..n]), tail[n + 1..])
  {
    SplitAtNewline(buffer, tail, n);
    LineBeforeNewline(line, buffer[..n], tail[n + 1..], tail, max);
  }

  lemma BufferWithoutNewline(line: seq<Byte>, buffer: seq<Byte>, tail: seq<Byte>)
    requires LF !in line && buffer <= tail && LineLength(buffer) == |buffer|
    ensures LF !in line + buffer && line + tail == (line + buffer) + tail[|buffer|..]
  {
    assert buffer[..|buffer|] == buffer;
  }

  lemma BufferTooLong(line: seq<Byte>, buffer: seq<Byte>, tail: seq<Byte>, max: nat)
    requires LF !in line && buffer <= tail && max < |line| + LineLength(buffer)
    ensures NextLine(line + tail, max).TooLong?
  {
    LineLengthAfter(line, tail);
    LineLengthInBuffer(buffer, tail);
  }

  /** Answers Ok(found) as `ok` and `found`; an error leaves the bytes read so far in `line`. */
  method ReadBoundedLine(reader: BufferedReader, max: nat) returns (ok: bool, found: bool, line: seq<Byte>)
    requires reader.Valid()
    modifies reader
    ensures reader.Valid()
    ensures match NextLine(old(reader.Stream()), max)
            case Line(text, rest) => ok && found && line == text && reader.Stream() == rest
            case EndOfStream => ok && !found && line == [] && reader.Stream() == []
            case TooLong => !ok && |line| <= max && line <= old(reader.Stream())
  {
    line := [];
    ghost var stream := reader.Stream();
    while true
      invariant reader.Valid() && stream == line + reader.Stream()
      invariant LF !in line && |line| <= max
      decreases |reader.Stream()|
    {
      var available := reader.FillBuf();
      ghost var tail := reader.Stream();
      if available == [] {
        assert line == stream && line[..|line|] == line;
        LineLengthIs(line, |line|);
        return true, line != [], line;
      }
      var chunkLen := Position(available);
      if chunkLen > max - |line| {
        BufferTooLong(line, available, tail, max);
        return false, false, line;
      }
      if chunkLen < |available| {
        BufferWithNewline(line, available, tail, chunkLen, max);
        line := StripCr(line + available[..chunkLen]);
        reader.Consume(chunkLen + 1);
        return true, true, line;
      }
      BufferWithoutNewline(line, available, tail);
      line := line + available;
      reader.Consume(chunkLen);
    }
  }

  /** The lines read so far, and those of the rest of the stream. */
  function After(read: seq<seq<Byte>>, rest: seq<Byte>, max: nat): (seq<seq<Byte>>, bool) {
    (read + Lines(rest, max).0, Lines(rest, max).1)
  }

  lemma NextInLines(before: seq<Byte>, read: seq<seq<Byte>>, line: seq<Byte>, rest: seq<Byte>, max: nat)
    requires NextLine(before, max) == Line(line, rest)
    ensures After(read, before, max) == After(read + [line], rest, max)
  {
    assert read + ([line] + Lines(rest, max).0) == (read + [line]) + Lines(rest, max).0;
  }

  /** The loop of the reader task: whatever the buffers were, the lines are those of the byte stream. */
  method ReadLines(reader: BufferedReader, max: nat) returns (lines: seq<seq<Byte>>, complete: bool)
    requires reader.Valid()
    modifies reader
    ensures (lines, complete) == Lines(old(reader.Stream()), max)
  {
    lines := [];
    ghost var stream := reader.Stream();
    assert [] + Lines(stream, max).0 == Lines(stream, max).0;
    while true
      invariant reader.Valid()
      invariant Lines(stream, max) == After(lines, reader.Stream(), max)
      decreases |reader.Stream()|
    {
      ghost var before := reader.Stream();
      var ok, found, line := ReadBoundedLine(reader, max);
      if !ok || !found {
        assert lines + [] == lines;
        return lines, ok;
      }
      NextInLines(before, lines, line, reader.Stream(), max);
      lines := lines + [line];
    }
  }

  // ---- what the lines are ------------------------------------------------------------------

  /** A line is refused exactly when more than `max` bytes come before the next newline or the end. */
  lemma {:induction false} RefusedExactly(stream: seq<Byte>, max: nat)
    ensures NextLine(stream, max).TooLong? <==> max < |stream| && LF !in stream[..max + 1]
  {
    var n := LineLength(stream);
    if max < n {
      assert forall b :: b in stream[..max + 1] ==> b in stream[..n];
    } else if max < |stream| && n < |stream| {
      assert stream[n] in stream[..max + 1];
    }
  }

  predicate LineEnd(eol: seq<Byte>) {
    eol == [LF] || eol == [CR, LF]
  }

  /** A line that a line end of `eol` frames without loss. */
  predicate Framed(line: seq<Byte>, eol: seq<Byte>, max: nat) {
    && LF !in line && |line| + |eol| - 1 <= max
    && (eol == [LF] && line != [] ==> line[|line| - 1] != CR)
  }

  function Join(lines: seq<seq<Byte>>, eol: seq<Byte>): seq<Byte> {
    if lines == [] then [] else lines[0] + eol + Join(lines[1..], eol)
  }

  /** The first of the framed lines is the first line read. */
  lemma FramedLine(line: seq<Byte>, eol: seq<Byte>, rest: seq<Byte>, max: nat)
    requires LineEnd(eol) && Framed(line, eol, max)
    ensures NextLine(line + eol + rest, max) == Line(line, rest)
  {
    var body := line + eol[..|eol| - 1];
    assert line + eol + rest == body + [LF] + rest;
    assert StripCr(body) == line;
    NextLineIs(body, rest, max);
  }

  lemma LinesAfterFirst(stream: seq<Byte>, line: seq<Byte>, rest: seq<Byte>, more: seq<seq<Byte>>, max: nat)
    requires NextLine(stream, max) == Line(line, rest) && Lines(rest, max) == (more, true)
    ensures Lines(stream, max) == ([line] + more, true)
  {
  }

  /** Reading back what was written line by line recovers the lines. */
  lemma {:induction false} LinesRoundTrip(lines: seq<seq<Byte>>, eol: seq<Byte>, max: nat)
    requires LineEnd(eol) && forall i :: 0 <= i < |lines| ==> Framed(lines[i], eol, max)
    ensures Lines(Join(lines, eol), max) == (lines, true)
  {
    if lines != [] {
      var rest := Join(lines[1..], eol);
      LinesRoundTrip(lines[1..], eol, max);
      FramedLine(lines[0], eol, rest, max);
      LinesAfterFirst(Join(lines, eol), lines[0], rest, lines[1..], max);
      assert [lines[0]] + lines[1..] == lines;
    } else {
      LineLengthIs([], 0);
    }
  }

  lemma OnlyLine(last: seq<Byte>, max: nat)
    requires last != [] && LF !in last && |last| <= max
    ensures Lines(last, max) == ([last], true)
  {
    assert last[..|last|] == last && [last] + [] == [last];
    LineLengthIs(last, |last|);
    LineLengthIs([], 0);
  }

  lemma LineThenMore(line: seq<Byte>, eol: seq<Byte>, rest: seq<Byte>, more: seq<seq<Byte>>, max: nat)
    requires LineEnd(eol) && Framed(line, eol, max) && Lines(rest, max) == (more, true)
    ensures Lines(line + eol + rest, max) == ([line] + more, true)
  {
    FramedLine(line, eol, rest, max);
    LinesAfterFirst(line + eol + rest, line, rest, more, max);
  }

  lemma JoinFirst(line: seq<Byte>, rest: seq<Byte>, eol: seq<Byte>, last: seq<Byte>)
    ensures line + eol + rest + last == line + eol + (rest + last)
  {
  }

  lemma FirstAndMore(lines: seq<seq<Byte>>, last: seq<Byte>)
    requires lines != []
    ensures [lines[0]] + (lines[1..] + [last]) == lines + [last]
  {
  }

  /** A last line without a line end is read as well, and as it is. */
  lemma {:induction false} LastLineRoundTrip(lines: seq<seq<Byte>>, last: seq<Byte>, eol: seq<Byte>, max: nat)
    requires LineEnd(eol) && forall i :: 0 <= i < |lines| ==> Framed(lines[i], eol, max)
    requires last != [] && LF !in last && |last| <= max
    ensures Lines(Join(lines, eol) + last, max) == (lines + [last], true)
  {
    if lines == [] {
      assert [] + last == last && [] + [last] == [last];
      OnlyLine(last, max);
    } else {
      LastLineRoundTrip(lines[1..], last, eol, max);
      LineThenMore(lines[0], eol, Join(lines[1..], eol) + last, lines[1..] + [last], max);
      JoinFirst(lines[0], Join(lines[1..], eol), eol, last);
      FirstAndMore(lines, last);
    }
  }

  /** No line holds a newline or more than `max` bytes, and no byte but line ends is dropped. */
  lemma {:induction false} LinesAreBounded(stream: seq<Byte>, max: nat)
    ensures forall i :: 0 <= i < |Lines(stream, max).0| ==>
              LF !in Lines(stream, max).0[i] && |Lines(stream, max).0[i]| <= max
    decreases |stream|
  {
    match NextLine(stream, max)
    case Line(text, rest) => LinesAreBounded(rest, max);
    case _ =>
  }

  /** Two ways of cutting the same bytes into buffers give the same lines. */
  method ChunkingDoesNotMatter(a: seq<seq<Byte>>, b: seq<seq<Byte>>, max: nat)
      returns (linesA: seq<seq<Byte>>, completeA: bool, linesB: seq<seq<Byte>>, completeB: bool)
    requires Flatten(a) == Flatten(b)
    requires forall i :: 0 <= i < |a| ==> a[i] != []
    requires forall i :: 0 <= i < |b| ==> b[i] != []
    ensures linesA == linesB && completeA == completeB
  {
    var readerA := new BufferedReader(a);
    var readerB := new BufferedReader(b);
    linesA, completeA := ReadLines(readerA, max);
    linesB, completeB := ReadLines(readerB, max);
  }
}
