/**
 The lines of the free form spelled out: which are blank, which are refused, and what the others
 assign, wherever white space and stray dots stand in them.
 */
module LineMeaning {
  import opened Wrappers
  import opened Json
  import opened PathAlgebra
  import opened KeyValueForm
  import opened Text

  /** A part of a dotted key: a name, or nothing, with white space around it. */
  datatype Piece = Piece(before: string, name: string, after: string)

  predicate IsPiece(piece: Piece) {
    Blanks(piece.before) && Blanks(piece.after) && Trimmed(piece.name) && Free(piece.name, {'.', '='})
  }

  predicate ArePieces(pieces: seq<Piece>) {
    pieces != [] && forall i :: 0 <= i < |pieces| ==> IsPiece(pieces[i])
  }

  function Written(piece: Piece): string {
    piece.before + piece.name + piece.after
  }

  function AllWritten(pieces: seq<Piece>): (texts: seq<string>)
    ensures |texts| == |pieces|
  {
    seq(|pieces|, i requires 0 <= i < |pieces| => Written(pieces[i]))
  }

  /** The names that are there. */
  function Names(pieces: seq<Piece>): Path {
    if pieces == [] then [] else (if pieces[0].name == "" then [] else [pieces[0].name]) + Names(pieces[1..])
  }

  lemma {:induction false} SegmentsAreNames(pieces: seq<Piece>)
    requires forall i :: 0 <= i < |pieces| ==> IsPiece(pieces[i])
    ensures Segments(AllWritten(pieces)) == Names(pieces)
  {
    if pieces != [] {
      assert AllWritten(pieces)[1..] == AllWritten(pieces[1..]);
      TrimPadded(pieces[0].before, pieces[0].name, pieces[0].after);
      SegmentsAreNames(pieces[1..]);
    }
  }

  // ---- white space around a key ----------------------------------------------------------------

  function KeyPath(): string -> Path {
    (key: string) => Segments(Split(key, {'.'}))
  }

  /** What does not see a space at the end does not see trimming there. */
  lemma {:induction false} BlindToTrimEnd(path: string -> Path, key: string)
    requires forall s: string, c: char :: IsSpace(c) ==> path(s + [c]) == path(s)
    ensures path(TrimEnd(key)) == path(key)
  {
    if key != "" && IsSpace(key[|key| - 1]) {
      BlindToTrimEnd(path, key[..|key| - 1]);
      assert key == key[..|key| - 1] + [key[|key| - 1]];
    }
  }

  lemma {:induction false} BlindToTrimStart(path: string -> Path, key: string)
    requires forall s: string, c: char :: IsSpace(c) ==> path([c] + s) == path(s)
    ensures path(TrimStart(key)) == path(key)
  {
    if key != "" && IsSpace(key[0]) {
      BlindToTrimStart(path, key[1..]);
      assert key == [key[0]] + key[1..];
    }
  }

  lemma SpaceWithSegments(c: char, s: string)
    requires IsSpace(c)
    ensures Segments(Split([c] + s, {'.'})) == Segments(Split(s, {'.'}))
  {
    var rest := Split(s, {'.'});
    assert ([c] + s)[1..] == s && c != '.';
    assert Split([c] + s, {'.'}) == [[c] + rest[0]] + rest[1..];
    assert ([c] + rest[0])[1..] == rest[0];
  }

  lemma SegmentsOfTrimStart(key: string)
    ensures Segments(Split(TrimStart(key), {'.'})) == Segments(Split(key, {'.'}))
  {
    forall s: string, c: char | IsSpace(c) ensures KeyPath()([c] + s) == KeyPath()(s) {
      SpaceWithSegments(c, s);
    }
    BlindToTrimStart(KeyPath(), key);
  }

  /** The last piece with one more character. */
  function Longer(pieces: seq<string>, c: char): seq<string>
    requires pieces != []
  {
    pieces[..|pieces| - 1] + [pieces[|pieces| - 1] + [c]]
  }

  lemma LongerBehind(pieces: seq<string>, first: char, c: char)
    requires pieces != []
    ensures [""] + Longer(pieces, c) == Longer([""] + pieces, c)
    ensures [[first] + Longer(pieces, c)[0]] + Longer(pieces, c)[1..] == Longer([[first] + pieces[0]] + pieces[1..], c)
  {
    if |pieces| == 1 {
      assert [first] + (pieces[0] + [c]) == [first] + pieces[0] + [c];
    }
  }

  lemma {:induction false} SplitSnoc(s: string, c: char)
    requires c != '.'
    ensures Split(s + [c], {'.'}) == Longer(Split(s, {'.'}), c)
  {
    if s == "" {
      assert s + [c] == [c];
      SplitPlain([c], {'.'});
    } else {
      assert (s + [c])[1..] == s[1..] + [c] && (s + [c])[0] == s[0];
      SplitSnoc(s[1..], c);
      LongerBehind(Split(s[1..], {'.'}), s[0], c);
    }
  }

  lemma {:induction false} SegmentsOfLast(pieces: seq<string>, last: string, trimmed: string)
    requires Trim(last) == Trim(trimmed)
    ensures Segments(pieces + [last]) == Segments(pieces + [trimmed])
  {
    if pieces == [] {
      assert pieces + [last] == [last] && pieces + [trimmed] == [trimmed] && [last][1..] == [] && [trimmed][1..] == [];
    } else {
      assert (pieces + [last])[1..] == pieces[1..] + [last] && (pieces + [trimmed])[1..] == pieces[1..] + [trimmed];
      SegmentsOfLast(pieces[1..], last, trimmed);
    }
  }

  lemma TrimSnoc(s: string, c: char)
    requires IsSpace(c)
    ensures Trim(s + [c]) == Trim(s)
  {
    var before, after := Padding(s);
    assert s + [c] == before + Trim(s) + (after + [c]);
    TrimPadded(before, Trim(s), after + [c]);
  }

  lemma SegmentsWithSpace(s: string, c: char)
    requires IsSpace(c)
    ensures Segments(Split(s + [c], {'.'})) == Segments(Split(s, {'.'}))
  {
    var pieces := Split(s, {'.'});
    var last := pieces[|pieces| - 1];
    SplitSnoc(s, c);
    TrimSnoc(last, c);
    SegmentsOfLast(pieces[..|pieces| - 1], last + [c], last);
    assert pieces == pieces[..|pieces| - 1] + [last];
  }

  lemma SegmentsOfTrimEnd(key: string)
    ensures Segments(Split(TrimEnd(key), {'.'})) == Segments(Split(key, {'.'}))
  {
    forall s: string, c: char | IsSpace(c) ensures KeyPath()(s + [c]) == KeyPath()(s) {
      SegmentsWithSpace(s, c);
    }
    BlindToTrimEnd(KeyPath(), key);
  }

  lemma {:induction false} TrimStartBefore(key: string, rest: string)
    ensures TrimStart(key + "=" + rest) == TrimStart(key) + "=" + rest
  {
    var s := key + "=" + rest;
    if key != "" && IsSpace(key[0]) {
      assert s[1..] == key[1..] + "=" + rest && s[0] == key[0];
      TrimStartBefore(key[1..], rest);
    } else {
      assert s[0] == if key == "" then '=' else key[0];
    }
  }

  lemma {:induction false} TrimEndAfter(key: string, value: string)
    ensures TrimEnd(key + "=" + value) == key + "=" + TrimEnd(value)
  {
    var s := key + "=" + value;
    if value != "" && IsSpace(value[|value| - 1]) {
      assert s[..|s| - 1] == key + "=" + value[..|value| - 1] && s[|s| - 1] == value[|value| - 1];
      TrimEndAfter(key, value[..|value| - 1]);
    } else {
      assert s[|s| - 1] == if value == "" then '=' else value[|value| - 1];
    }
  }

  lemma TrimOfTrimEnd(s: string)
    ensures Trim(TrimEnd(s)) == Trim(s)
  {
    var before, after := Padding(s);
    if Trim(s) == "" {
      assert s == "" + (before + after);
      TrimEndPadded("", before + after);
    } else {
      assert s == (before + Trim(s)) + after;
      TrimEndPadded(before + Trim(s), after);
      assert before + Trim(s) == before + Trim(s) + "";
      TrimPadded(before, Trim(s), "");
    }
  }

  // ---- lines -------------------------------------------------------------------------------------

  /** A line is blank exactly if it is all white space. */
  lemma BlankLines(floats: FloatParser, line: string)
    ensures ReadLine(floats, line).Blank? <==> Blanks(line)
  {
    var before, after := Padding(line);
    if Blanks(line) {
      assert "" + line == line && line + "" + "" == line;
      TrimPadded(line, "", "");
    }
  }

  /** A line that is not blank and has no equals sign is refused. */
  lemma LinesWithoutEquals(floats: FloatParser, line: string)
    requires !Blanks(line) && '=' !in line
    ensures ReadLine(floats, line).Malformed?
  {
    var before, after := Padding(line);
    BlankLines(floats, line);
    assert '=' !in Trim(line);
    NoSplit(Trim(line));
  }

  lemma {:induction false} NoSplit(s: string)
    requires '=' !in s
    ensures SplitOnce(s, '=').None?
  {
    if s != "" {
      NoSplit(s[1..]);
    }
  }

  lemma {:induction false} KeysHaveNoEquals(pieces: seq<Piece>)
    requires ArePieces(pieces)
    ensures '=' !in Join(AllWritten(pieces), '.')
  {
    assert forall i :: 0 <= i < |pieces| ==> '=' !in Written(pieces[i]);
    if |pieces| > 1 {
      assert AllWritten(pieces)[1..] == AllWritten(pieces[1..]);
      KeysHaveNoEquals(pieces[1..]);
    }
  }

  lemma {:induction false} TrimStartIsPart(s: string)
    ensures forall c :: c in TrimStart(s) ==> c in s
  {
    if s != "" && IsSpace(s[0]) {
      TrimStartIsPart(s[1..]);
    }
  }

  /** The line falls apart at the first equals sign, whatever white space is around its halves. */
  lemma LineHalves(floats: FloatParser, key: string, value: string)
    requires '=' !in key
    ensures var path := Segments(Split(key, {'.'}));
            ReadLine(floats, key + "=" + value) ==
              if path == [] then Malformed else Assigns(Write(path, LooseScalar(floats, Trim(value))))
  {
    TrimStartBefore(key, value);
    TrimEndAfter(TrimStart(key), value);
    TrimStartIsPart(key);
    SplitOnceAt(TrimStart(key), TrimEnd(value));
    TrimOfTrimEnd(value);
    SegmentsOfTrimStart(key);
    SegmentsOfTrimEnd(TrimStart(key));
    TrimStartTwice(key);
  }

  lemma {:induction false} TrimStartTwice(s: string)
    ensures TrimStart(TrimStart(s)) == TrimStart(s)
  {
    if s != "" && IsSpace(s[0]) {
      TrimStartTwice(s[1..]);
    }
  }

  /**
   A line assigns the text after its first equals sign to the path of the names before it. White space
   around names and text is dropped, and so are names that are empty; a line without any name is refused.
   */
  lemma LinesAreRead(floats: FloatParser, pieces: seq<Piece>, before: string, text: string, after: string)
    requires ArePieces(pieces) && Blanks(before) && Blanks(after) && Trimmed(text)
    ensures ReadLine(floats, Join(AllWritten(pieces), '.') + "=" + (before + text + after)) ==
              if Names(pieces) == [] then Malformed else Assigns(Write(Names(pieces), LooseScalar(floats, text)))
  {
    KeysHaveNoEquals(pieces);
    LineHalves(floats, Join(AllWritten(pieces), '.'), before + text + after);
    TrimPadded(before, text, after);
    assert forall i :: 0 <= i < |pieces| ==> Free(AllWritten(pieces)[i], {'.'}) by {
      PiecesAreFree(pieces);
    }
    SplitJoin(AllWritten(pieces), '.', {'.'});
    SegmentsAreNames(pieces);
  }

  lemma PiecesAreFree(pieces: seq<Piece>)
    requires ArePieces(pieces)
    ensures forall i :: 0 <= i < |pieces| ==> Free(AllWritten(pieces)[i], {'.'})
  {
    forall i | 0 <= i < |pieces| ensures '.' !in Written(pieces[i]) {
      assert !IsSpace('.') && '.' !in pieces[i].name;
    }
  }

  /** Text that starts with a brace is JSON or nothing, and only objects are taken. */
  lemma BracedTextIsJson(floats: FloatParser, json: JsonParser, before: string, text: string)
    requires Blanks(before)
    ensures var raw := before + "{" + text;
            FreeForm(floats, json, raw) == if json(raw).Some? && json(raw).value.Obj? then json(raw) else None
  {
    var raw := before + "{" + text;
    assert raw == before + ("{" + text) && ("{" + text)[0] == '{';
    TrimStartPadded(before, "{" + text);
  }

  predicate AreLines(lines: seq<string>) {
    lines != [] && forall i :: 0 <= i < |lines| ==> Free(lines[i], LINE_ENDS)
  }

  /** One refused line refuses the whole text. */
  lemma RefusedLinesRefuseAll(floats: FloatParser, json: JsonParser, lines: seq<string>, delimiter: char, i: nat)
    requires AreLines(lines) && delimiter in LINE_ENDS && i < |lines| && ReadLine(floats, lines[i]).Malformed?
    requires var start := TrimStart(Join(lines, delimiter)); start == "" || start[0] != '{'
    ensures FreeForm(floats, json, Join(lines, delimiter)).None?
  {
    SplitJoin(lines, delimiter, LINE_ENDS);
    assert LineReader(floats)(lines[i]).Malformed?;
  }

  lemma {:induction false} BlankLinesAssignNothing(floats: FloatParser, lines: seq<string>)
    requires forall i :: 0 <= i < |lines| ==> Blanks(lines[i])
    ensures Assignments(LineReader(floats), lines) == []
  {
    if lines != [] {
      BlankLinesAssignNothing(floats, lines[..|lines| - 1]);
      BlankLines(floats, lines[|lines| - 1]);
    }
  }

  /** A text of blank lines only is refused: an object needs an assignment. */
  lemma BlankTextIsRefused(floats: FloatParser, json: JsonParser, lines: seq<string>, delimiter: char)
    requires AreLines(lines) && delimiter in LINE_ENDS && forall i :: 0 <= i < |lines| ==> Blanks(lines[i])
    requires var start := TrimStart(Join(lines, delimiter)); start == "" || start[0] != '{'
    ensures FreeForm(floats, json, Join(lines, delimiter)).None?
  {
    SplitJoin(lines, delimiter, LINE_ENDS);
    BlankLinesAssignNothing(floats, lines);
    assert Apply(Obj(map[]), []) == Obj(map[]);
  }
}
