/**
 `parse_free_form_object` of src/discord/actions.rs: key=value lines read as a JSON object.
 */
module KeyValueForm {
  import opened Wrappers
  import opened Json
  import opened PathAlgebra
  import opened Text

  /** `str::parse::<f64>`, finite results only. */
  type FloatParser = string -> Option<real>

  /** `serde_json::from_str`. */
  type JsonParser = string -> Option<Value>

  const MIN_I64: int := -0x8000_0000_0000_0000
  const MAX_I64: int := 0x7FFF_FFFF_FFFF_FFFF

  function LowerChar(c: char): char {
    if 'A' <= c <= 'Z' then ((c as int) + 32) as char else c
  }

  function Lower(s: string): string {
    seq(|s|, i requires 0 <= i < |s| => LowerChar(s[i]))
  }

  function InRange(i: int): Option<int> {
    if MIN_I64 <= i <= MAX_I64 then Some(i) else None
  }

  /** `str::parse::<i64>`: an optional sign and at least one digit. */
  function ParseInteger(s: string): Option<int> {
    var digits := if s != "" && s[0] in {'+', '-'} then s[1..] else s;
    var n := ParseDigits(digits, 0);
    if digits == "" || n.None? then None
    else
      var i: int := n.value;
      InRange(if s[0] == '-' then -i else i)
  }

  /** `parse_loose_scalar`. */
  function LooseScalar(floats: FloatParser, raw: string): Value {
    var word := Lower(raw);
    if word == "true" then Bool(true)
    else if word == "false" then Bool(false)
    else if word == "null" then Null
    else if ParseInteger(raw).Some? then Num(Int(ParseInteger(raw).value))
    else if floats(raw).Some? then Num(Float(floats(raw).value))
    else Str(raw)
  }

  /** `str::split_once`. */
  function SplitOnce(s: string, c: char): Option<(string, string)> {
    if s == "" then None
    else if s[0] == c then Some(("", s[1..]))
    else
      var rest := SplitOnce(s[1..], c);
      if rest.None? then None else Some(([s[0]] + rest.value.0, rest.value.1))
  }

  /** Dotted names, trimmed, the empty ones left out. */
  function Segments(pieces: seq<string>): Path {
    if pieces == [] then [] else (if Trim(pieces[0]) == "" then [] else [Trim(pieces[0])]) + Segments(pieces[1..])
  }

  datatype Line = Blank | Malformed | Assigns(write: Write)

  function ReadLine(floats: FloatParser, raw: string): Line {
    var entry := Trim(raw);
    if entry == "" then Blank
    else if SplitOnce(entry, '=').None? then Malformed
    else
      var parts := SplitOnce(entry, '=').value;
      var path := Segments(Split(Trim(parts.0), {'.'}));
      if path == [] then Malformed else Assigns(Write(path, LooseScalar(floats, Trim(parts.1))))
  }

  type Reader = string -> Line

  function LineReader(floats: FloatParser): Reader {
    (raw: string) => ReadLine(floats, raw)
  }

  function Assignments(read: Reader, lines: seq<string>): seq<Write> {
    if lines == [] then []
    else
      var last := read(lines[|lines| - 1]);
      Assignments(read, lines[..|lines| - 1]) + if last.Assigns? then [last.write] else []
  }

  predicate AllRead(read: Reader, lines: seq<string>) {
    forall i :: 0 <= i < |lines| ==> !read(lines[i]).Malformed?
  }

  const LINE_ENDS: set<char> := {'\n', ';'}

  /** What the text means: the object that the assignments of its lines build, if they are well formed and not none. */
  function FreeForm(floats: FloatParser, json: JsonParser, raw: string): Option<Value> {
    if "{" <= TrimStart(raw) then
      if json(raw).Some? && json(raw).value.Obj? then json(raw) else None
    else
      var lines := Split(raw, LINE_ENDS);
      var built := Apply(Obj(map[]), Assignments(LineReader(floats), lines));
      if AllRead(LineReader(floats), lines) && Fields(built) != map[] then Some(built) else None
  }

  /** One round of the loop. */
  method TakeLine(floats: FloatParser, raw: string, built: Value) returns (ok: bool, after: Value)
    ensures ok <==> !ReadLine(floats, raw).Malformed?
    ensures after == AfterLine(built, ReadLine(floats, raw))
  {
    var entry := Trim(raw);
    if entry == "" {
      return true, built;
    }
    var parts := SplitOnce(entry, '=');
    if parts.None? {
      return false, built;
    }
    var path := Segments(Split(Trim(parts.value.0), {'.'}));
    if path == [] {
      return false, built;
    }
    after := SetPath(built, path, LooseScalar(floats, Trim(parts.value.1)));
    return true, after;
  }

  function AfterLine(built: Value, line: Line): Value {
    if line.Assigns? then Set(built, line.write.path, line.write.value) else built
  }

  lemma LinesSnoc(read: Reader, lines: seq<string>, last: string)
    ensures Apply(Obj(map[]), Assignments(read, lines + [last])) == AfterLine(Apply(Obj(map[]), Assignments(read, lines)), read(last))
  {
    assert (lines + [last])[..|lines|] == lines;
    assert Assignments(read, lines + [last]) == Assignments(read, lines) + if read(last).Assigns? then [read(last).write] else [];
    if read(last).Assigns? {
      ApplySnoc(Obj(map[]), Assignments(read, lines), read(last).write);
    } else {
      assert Assignments(read, lines) + [] == Assignments(read, lines);
    }
  }

  lemma NextTaken(read: Reader, lines: seq<string>, i: nat)
    requires i < |lines|
    ensures Apply(Obj(map[]), Assignments(read, lines[..i + 1])) == AfterLine(Apply(Obj(map[]), Assignments(read, lines[..i])), read(lines[i]))
    ensures AllRead(read, lines[..i + 1]) <==> AllRead(read, lines[..i]) && !read(lines[i]).Malformed?
    ensures read(lines[i]).Malformed? ==> !AllRead(read, lines)
  {
    assert lines[..i + 1] == lines[..i] + [lines[i]];
    LinesSnoc(read, lines[..i], lines[i]);
  }

  method ParseFreeFormObject(floats: FloatParser, json: JsonParser, raw: string) returns (parsed: Option<Value>)
    ensures parsed == FreeForm(floats, json, raw)
  {
    if "{" <= TrimStart(raw) {
      var value := json(raw);
      return if value.Some? && value.value.Obj? then value else None;
    }
    var lines := Split(raw, LINE_ENDS);
    var ok, built := TakeLines(floats, lines);
    return if !ok || Fields(built) == map[] then None else Some(built);
  }

  method TakeLines(floats: FloatParser, lines: seq<string>) returns (ok: bool, built: Value)
    ensures ok <==> AllRead(LineReader(floats), lines)
    ensures ok ==> built == Apply(Obj(map[]), Assignments(LineReader(floats), lines))
  {
    built := Obj(map[]);
    ghost var read := LineReader(floats);
    for i := 0 to |lines|
      invariant AllRead(read, lines[..i])
      invariant built == Apply(Obj(map[]), Assignments(read, lines[..i]))
    {
      NextTaken(read, lines, i);
      ok, built := TakeLine(floats, lines[i], built);
      assert ok <==> !read(lines[i]).Malformed?;
      if !ok {
        return;
      }
    }
    assert lines[..|lines|] == lines;
    return true, built;
  }

  // ---- writes build a tree ------------------------------------------------------------------

  /** The leaf that the path leads to; leaves are whatever is not an object. */
  function LeafAt(v: Value, path: Path): Option<Value> {
    if !v.Obj? then if path == [] then Some(v) else None
    else if path == [] || path[0] !in v.fields then None
    else LeafAt(v.fields[path[0]], path[1..])
  }

  predicate Covers(writes: seq<Write>, path: Path) {
    exists i :: 0 <= i < |writes| && writes[i].path == path
  }

  /** The writes are the leaves of the value, in any order and any number of times each. */
  ghost predicate Lists(writes: seq<Write>, v: Value) {
    && (forall i :: 0 <= i < |writes| ==> LeafAt(v, writes[i].path) == Some(writes[i].value))
    && (forall p: Path :: LeafAt(v, p).Some? ==> Covers(writes, p))
  }

  predicate NoEmptyObjects(v: Value) {
    v.Obj? ==> v.fields != map[] && forall k :: k in v.fields ==> NoEmptyObjects(v.fields[k])
  }

  /** The writes below one entry. */
  function Below(writes: seq<Write>, key: string): seq<Write> {
    if writes == [] then []
    else
      var last := writes[|writes| - 1];
      Below(writes[..|writes| - 1], key) +
      if last.path != [] && last.path[0] == key then [Write(last.path[1..], last.value)] else []
  }

  function Heads(writes: seq<Write>): set<string> {
    set i | 0 <= i < |writes| && writes[i].path != [] :: writes[i].path[0]
  }

  predicate AllBelow(writes: seq<Write>) {
    forall i :: 0 <= i < |writes| ==> writes[i].path != []
  }

  lemma ApplySnoc(v: Value, writes: seq<Write>, last: Write)
    ensures Apply(v, writes + [last]) == Set(Apply(v, writes), last.path, last.value)
  {
    assert (writes + [last])[..|writes|] == writes;
  }

  lemma {:induction false} EntriesWritten(v: Value, writes: seq<Write>)
    requires v.Obj? && AllBelow(writes)
    ensures Apply(v, writes).Obj? && Apply(v, writes).fields.Keys == v.fields.Keys + Heads(writes)
  {
    if writes != [] {
      var n := |writes| - 1;
      EntriesWritten(v, writes[..n]);
      assert Heads(writes) == Heads(writes[..n]) + {writes[n].path[0]};
    }
  }

  /** Writes below different entries do not meet: each entry becomes what its own writes make of it. */
  lemma {:induction false} EntriesApart(v: Value, writes: seq<Write>, key: string)
    requires v.Obj? && AllBelow(writes)
    ensures Child(Apply(v, writes), key) == Apply(Child(v, key), Below(writes, key))
  {
    if writes != [] {
      var n := |writes| - 1;
      var before, last := Apply(v, writes[..n]), writes[n];
      assert Child(before, key) == Apply(Child(v, key), Below(writes[..n], key)) by {
        EntriesApart(v, writes[..n], key);
      }
      assert Child(Apply(v, writes), key)
          == if last.path[0] == key then Set(Child(before, key), last.path[1..], last.value) else Child(before, key) by {
        ChildAfter(before, last.path[0], Set(Child(before, last.path[0]), last.path[1..], last.value), key);
      }
      if last.path[0] == key {
        ApplySnoc(Child(v, key), Below(writes[..n], key), Write(last.path[1..], last.value));
      } else {
        assert Below(writes[..n], key) + [] == Below(writes[..n], key);
      }
    }
  }

  /** The write that the `j`-th write below the entry stems from. */
  lemma {:induction false} BelowFrom(writes: seq<Write>, key: string, j: nat) returns (i: nat)
    requires j < |Below(writes, key)|
    ensures i < |writes| && writes[i] == Write([key] + Below(writes, key)[j].path, Below(writes, key)[j].value)
  {
    var n := |writes| - 1;
    if j < |Below(writes[..n], key)| {
      i := BelowFrom(writes[..n], key, j);
    } else {
      i := n;
      assert [key] + writes[n].path[1..] == writes[n].path;
    }
  }

  lemma {:induction false} BelowCovers(writes: seq<Write>, key: string, i: nat)
    requires i < |writes| && writes[i].path != [] && writes[i].path[0] == key
    ensures Covers(Below(writes, key), writes[i].path[1..])
  {
    var n := |writes| - 1;
    var below, all := Below(writes[..n], key), Below(writes, key);
    if i == n {
      assert all[|below|].path == writes[i].path[1..];
    } else {
      assert writes[..n][i] == writes[i];
      BelowCovers(writes[..n], key, i);
      var j :| 0 <= j < |below| && below[j].path == writes[i].path[1..];
      assert all[j].path == writes[i].path[1..];
    }
  }

  lemma ListsBelow(writes: seq<Write>, v: Value, key: string)
    requires v.Obj? && Lists(writes, v) && key in v.fields
    ensures Lists(Below(writes, key), v.fields[key])
  {
    var below := Below(writes, key);
    forall j | 0 <= j < |below| ensures LeafAt(v.fields[key], below[j].path) == Some(below[j].value) {
      var i := BelowFrom(writes, key, j);
      assert writes[i].path[1..] == below[j].path && LeafAt(v, writes[i].path) == Some(writes[i].value);
    }
    forall p: Path | LeafAt(v.fields[key], p).Some? ensures Covers(below, p) {
      assert ([key] + p)[1..] == p && LeafAt(v, [key] + p).Some?;
      var i :| 0 <= i < |writes| && writes[i].path == [key] + p;
      BelowCovers(writes, key, i);
    }
  }

  lemma {:induction false} SomeLeaf(v: Value) returns (p: Path)
    requires NoEmptyObjects(v)
    ensures LeafAt(v, p).Some?
  {
    if v.Obj? {
      var k :| k in v.fields;
      var rest := SomeLeaf(v.fields[k]);
      p := [k] + rest;
      assert p[1..] == rest;
    } else {
      p := [];
    }
  }

  lemma HeadsListed(writes: seq<Write>, v: Value)
    requires v.Obj? && Lists(writes, v) && NoEmptyObjects(v)
    ensures AllBelow(writes) && Heads(writes) == v.fields.Keys
  {
    forall i | 0 <= i < |writes| ensures writes[i].path != [] && writes[i].path[0] in v.fields {
      assert LeafAt(v, writes[i].path) == Some(writes[i].value);
    }
    forall k | k in v.fields ensures k in Heads(writes) {
      var rest := SomeLeaf(v.fields[k]);
      assert ([k] + rest)[1..] == rest && LeafAt(v, [k] + rest).Some?;
      var i :| 0 <= i < |writes| && writes[i].path == [k] + rest;
    }
  }

  /** Writing a value's leaves, in any order and any number of times, rebuilds the value. */
  lemma {:induction false} LeavesRebuild(writes: seq<Write>, v: Value)
    requires Lists(writes, v) && NoEmptyObjects(v)
    ensures Apply(Obj(map[]), writes) == v
    decreases v
  {
    if v.Obj? {
      HeadsListed(writes, v);
      var built := Apply(Obj(map[]), writes);
      EntriesWritten(Obj(map[]), writes);
      forall k | k in v.fields ensures k in Fields(built) && Fields(built)[k] == v.fields[k] {
        EntriesApart(Obj(map[]), writes, k);
        ListsBelow(writes, v, k);
        LeavesRebuild(Below(writes, k), v.fields[k]);
      }
      assert built.fields == v.fields;
    } else {
      assert LeafAt(v, []).Some? && Covers(writes, []);
      var last := writes[|writes| - 1];
      assert LeafAt(v, last.path) == Some(last.value);
    }
  }

  // ---- printing ---------------------------------------------------------------------------

  function PrintInteger(i: int): string {
    if i < 0 then "-" + Decimal(-i) else Decimal(i)
  }

  /** A leaf that prints to text which reads back as itself. */
  predicate Canonical(floats: FloatParser, leaf: Value) {
    match leaf
    case Null => true
    case Bool(_) => true
    case Num(Int(i)) => MIN_I64 <= i <= MAX_I64
    case Str(s) => Trimmed(s) && Free(s, LINE_ENDS) && LooseScalar(floats, s) == leaf
    case _ => false
  }

  function PrintLeaf(leaf: Value): string {
    match leaf
    case Bool(true) => "true"
    case Bool(false) => "false"
    case Num(Int(i)) => PrintInteger(i)
    case Str(s) => s
    case _ => "null"
  }

  lemma LooseInteger(floats: FloatParser, i: int)
    requires MIN_I64 <= i <= MAX_I64
    ensures LooseScalar(floats, PrintInteger(i)) == Num(Int(i))
    ensures Trimmed(PrintInteger(i)) && Free(PrintInteger(i), LINE_ENDS)
  {
    var s := PrintInteger(i);
    var digits := if i < 0 then Decimal(-i) else Decimal(i);
    ParseDecimal(if i < 0 then -i else i);
    assert digits[0] in digits && digits[|digits| - 1] in digits;
    if i < 0 {
      assert s[1..] == digits;
    }
    assert ParseInteger(s) == Some(i);
    assert Lower(s)[0] == s[0] && s[|s| - 1] in digits;
  }

  lemma LooseLeaf(floats: FloatParser, leaf: Value)
    requires Canonical(floats, leaf)
    ensures LooseScalar(floats, PrintLeaf(leaf)) == leaf
    ensures Trimmed(PrintLeaf(leaf)) && Free(PrintLeaf(leaf), LINE_ENDS)
  {
    match leaf
    case Num(Int(i)) => LooseInteger(floats, i);
    case Null => assert Lower("null") == "null";
    case Bool(true) => assert Lower("true") == "true";
    case Bool(false) => assert Lower("false") == "false";
    case _ =>
  }

  predicate PlainKey(key: string) {
    key != "" && Trimmed(key) && Free(key, {'.', '=', '\n', ';'})
  }

  predicate PlainKeys(path: Path) {
    forall i :: 0 <= i < |path| ==> PlainKey(path[i])
  }

  function PrintLine(write: Write): string
    requires write.path != []
  {
    Join(write.path, '.') + "=" + PrintLeaf(write.value)
  }

  lemma {:induction false} JoinedKeys(path: Path)
    requires path != [] && PlainKeys(path)
    ensures var key := Join(path, '.');
            key != "" && Trimmed(key) && Free(key, {'=', '\n', ';'}) && key[0] == path[0][0]
  {
    if |path| > 1 {
      JoinedKeys(path[1..]);
      var key, rest := Join(path, '.'), Join(path[1..], '.');
      assert key[|key| - 1] == rest[|rest| - 1];
    }
  }

  lemma {:induction false} SegmentsOfKeys(path: Path)
    requires PlainKeys(path)
    ensures Segments(path) == path
  {
    if path != [] {
      SegmentsOfKeys(path[1..]);
      assert [path[0]] + path[1..] == path;
    }
  }

  lemma {:induction false} SplitOnceAt(key: string, value: string)
    requires '=' !in key
    ensures SplitOnce(key + "=" + value, '=') == Some((key, value))
  {
    var s := key + "=" + value;
    if key == "" {
      assert s[1..] == value;
    } else {
      assert s[1..] == key[1..] + "=" + value && key == [key[0]] + key[1..];
      SplitOnceAt(key[1..], value);
    }
  }

  /** A printed line reads back as its assignment. */
  lemma PrintedLine(floats: FloatParser, write: Write)
    requires write.path != [] && PlainKeys(write.path) && Canonical(floats, write.value)
    ensures ReadLine(floats, PrintLine(write)) == Assigns(write)
    ensures Free(PrintLine(write), LINE_ENDS) && PrintLine(write) != "" && PrintLine(write)[0] == write.path[0][0]
  {
    var key, value, line := Join(write.path, '.'), PrintLeaf(write.value), PrintLine(write);
    JoinedKeys(write.path);
    LooseLeaf(floats, write.value);
    assert Trimmed(line) by {
      assert line[0] == key[0];
      assert line[|line| - 1] == if value == "" then '=' else value[|value| - 1];
    }
    SplitOnceAt(key, value);
    SplitJoin(write.path, '.', {'.'});
    SegmentsOfKeys(write.path);
  }

  /** The lines of an assignment each. */
  function PrintLines(writes: seq<Write>): (lines: seq<string>)
    requires AllBelow(writes)
    ensures |lines| == |writes|
  {
    seq(|writes|, i requires 0 <= i < |writes| => PrintLine(writes[i]))
  }

  lemma {:induction false} PrintedLines(read: Reader, lines: seq<string>, writes: seq<Write>)
    requires |lines| == |writes| && forall i :: 0 <= i < |lines| ==> read(lines[i]) == Assigns(writes[i])
    ensures Assignments(read, lines) == writes && AllRead(read, lines)
  {
    if lines != [] {
      var n := |lines| - 1;
      PrintedLines(read, lines[..n], writes[..n]);
      assert writes[..n] + [writes[n]] == writes;
    }
  }

  /** Keys without delimiters or white space at the ends, and leaves that read back as themselves. */
  predicate Printable(floats: FloatParser, v: Value) {
    if v.Obj? then forall k :: k in v.fields ==> PlainKey(k) && Printable(floats, v.fields[k])
    else Canonical(floats, v)
  }

  lemma {:induction false} PrintableLeaf(floats: FloatParser, v: Value, path: Path)
    requires Printable(floats, v) && LeafAt(v, path).Some?
    ensures PlainKeys(path) && Canonical(floats, LeafAt(v, path).value)
    decreases v
  {
    if v.Obj? {
      PrintableLeaf(floats, v.fields[path[0]], path[1..]);
      assert path == [path[0]] + path[1..];
    }
  }

  lemma JoinedLines(lines: seq<string>, delimiter: char)
    requires lines != [] && lines[0] != ""
    ensures Join(lines, delimiter) != "" && Join(lines, delimiter)[0] == lines[0][0]
  {
  }

  lemma LinesReadBack(floats: FloatParser, v: Value, leaves: seq<Write>)
    requires Printable(floats, v) && Lists(leaves, v) && AllBelow(leaves)
    ensures Assignments(LineReader(floats), PrintLines(leaves)) == leaves && AllRead(LineReader(floats), PrintLines(leaves))
    ensures forall i :: 0 <= i < |leaves| ==> Free(PrintLines(leaves)[i], LINE_ENDS)
    ensures forall i :: 0 <= i < |leaves| ==> PrintLines(leaves)[i] != "" && PrintLines(leaves)[i][0] == leaves[i].path[0][0]
  {
    var lines, read := PrintLines(leaves), LineReader(floats);
    forall i | 0 <= i < |leaves|
      ensures read(lines[i]) == Assigns(leaves[i]) && Free(lines[i], LINE_ENDS) && lines[i] != "" && lines[i][0] == leaves[i].path[0][0]
    {
      PrintableLeaf(floats, v, leaves[i].path);
      PrintedLine(floats, leaves[i]);
    }
    PrintedLines(read, lines, leaves);
  }

  lemma BracedOrNot(text: string, key: string)
    requires text != "" && key != "" && text[0] == key[0] && PlainKey(key)
    ensures "{" <= TrimStart(text) <==> "{" <= key
  {
    assert TrimStart(text) == text;
  }

  /**
   Parsing undoes printing: the lines of an object's leaves, in any order, repeated or not, read
   back as the object, unless the first line happens to start with a brace. Such text is taken for
   JSON, whatever the lines say.
   */
  lemma ParsingUndoesPrinting(floats: FloatParser, json: JsonParser, v: Value, leaves: seq<Write>, delimiter: char)
    requires v.Obj? && NoEmptyObjects(v) && Printable(floats, v) && Lists(leaves, v) && delimiter in LINE_ENDS
    ensures AllBelow(leaves) && leaves != []
    ensures var text := Join(PrintLines(leaves), delimiter);
            FreeForm(floats, json, text) ==
              if !("{" <= leaves[0].path[0]) then Some(v)
              else if json(text).Some? && json(text).value.Obj? then json(text)
              else None
  {
    HeadsListed(leaves, v);
    LeavesRebuild(leaves, v);
    var lines := PrintLines(leaves);
    LinesReadBack(floats, v, leaves);
    SplitJoin(lines, delimiter, LINE_ENDS);
    JoinedLines(lines, delimiter);
    assert leaves[0].path[0] in Heads(leaves);
    BracedOrNot(Join(lines, delimiter), leaves[0].path[0]);
  }

  /** A key that starts with a brace is lost: its line is no JSON. */
  lemma BracedKeysAreLost(floats: FloatParser, json: JsonParser)
    requires json("{a=null").None?
    ensures var v, leaves := Obj(map["{a" := Null]), [Write(["{a"], Null)];
            && NoEmptyObjects(v) && Printable(floats, v) && Lists(leaves, v)
            && Join([PrintLine(leaves[0])], '\n') == "{a=null" && FreeForm(floats, json, "{a=null").None?
  {
    var v, leaves := Obj(map["{a" := Null]), [Write(["{a"], Null)];
    assert "{a" in v.fields;
    OneLeaf("{a", Null);
    assert TrimStart("{a=null") == "{a=null";
  }

  lemma OneLeaf(key: string, leaf: Value)
    requires !leaf.Obj?
    ensures Lists([Write([key], leaf)], Obj(map[key := leaf]))
  {
    var v, leaves := Obj(map[key := leaf]), [Write([key], leaf)];
    assert [key][1..] == [] && LeafAt(v, [key]) == LeafAt(leaf, [key][1..]);
    forall p: Path | LeafAt(v, p).Some? ensures Covers(leaves, p) {
      assert LeafAt(v, p) == LeafAt(leaf, p[1..]);
      assert p == [p[0]] + p[1..] && leaves[0].path == p;
    }
  }

  // ---- what values may look like -------------------------------------------------------------------

  /** The word with any of its letters in upper case. */
  predicate Spells(text: string, word: string) {
    |text| == |word| && forall i :: 0 <= i < |word| ==> text[i] == word[i] || ('a' <= word[i] <= 'z' && text[i] as int == word[i] as int - 32)
  }

  lemma LowerSpells(text: string, word: string)
    requires forall i :: 0 <= i < |word| ==> 'a' <= word[i] <= 'z'
    ensures Lower(text) == word <==> Spells(text, word)
  {
    if Spells(text, word) {
      assert Lower(text) == word;
    }
    if Lower(text) == word {
      forall i | 0 <= i < |word| ensures text[i] == word[i] || text[i] as int == word[i] as int - 32 {
        assert Lower(text)[i] == LowerChar(text[i]);
      }
    }
  }

  /** One line with a plain key is an object with that key alone. */
  lemma OneLineForm(floats: FloatParser, json: JsonParser, key: string, text: string)
    requires PlainKey(key) && key[0] != '{' && Trimmed(text) && Free(text, LINE_ENDS)
    ensures FreeForm(floats, json, key + "=" + text) == Some(Obj(map[key := LooseScalar(floats, text)]))
  {
    var line := key + "=" + text;
    var value := LooseScalar(floats, text);
    assert ReadLine(floats, line) == Assigns(Write([key], value)) by {
      OneLineRead(floats, key, text);
    }
    SplitPlain(line, LINE_ENDS);
    var read := LineReader(floats);
    LinesSnoc(read, [], line);
    assert [] + [line] == [line] && Apply(Obj(map[]), Assignments(read, [])) == Obj(map[]);
    assert Set(Obj(map[]), [key], value) == Obj(map[key := value]);
    assert line[0] == key[0] && TrimStart(line) == line;
    assert AllRead(read, [line]);
  }

  lemma OneLineRead(floats: FloatParser, key: string, text: string)
    requires PlainKey(key) && Trimmed(text)
    ensures ReadLine(floats, key + "=" + text) == Assigns(Write([key], LooseScalar(floats, text)))
  {
    var line := key + "=" + text;
    assert Trimmed(line) by {
      assert line[0] == key[0] && line[|line| - 1] == if text == "" then '=' else text[|text| - 1];
    }
    SplitOnceAt(key, text);
    SplitPlain(key, {'.'});
    assert Segments([key]) == [key] + [] by {
      assert [key][1..] == [] && Trim(key) == key;
    }
  }

  /** The three words in any case, else an integer of 64 bits, else what the float parser takes for a number, and any other text as it is. */
  predicate ValueOf(floats: FloatParser, text: string, value: Value) {
    if Spells(text, "true") then value == Bool(true)
    else if Spells(text, "false") then value == Bool(false)
    else if Spells(text, "null") then value == Null
    else if ParseInteger(text).Some? then value == Num(Int(ParseInteger(text).value))
    else if floats(text).Some? then value == Num(Float(floats(text).value))
    else value == Str(text)
  }

  lemma ScalarsSpelledOut(floats: FloatParser, text: string)
    ensures ValueOf(floats, text, LooseScalar(floats, text))
  {
    LowerSpells(text, "true");
    LowerSpells(text, "false");
    LowerSpells(text, "null");
  }

  /** A line with a plain key gives that key its value. */
  lemma ValuesOfLines(floats: FloatParser, json: JsonParser, key: string, text: string)
    requires PlainKey(key) && key[0] != '{' && Trimmed(text) && Free(text, LINE_ENDS)
    ensures var form := FreeForm(floats, json, key + "=" + text);
            form.Some? && form.value.Obj? && form.value.fields.Keys == {key} && ValueOf(floats, text, form.value.fields[key])
  {
    OneLineForm(floats, json, key, text);
    ScalarsSpelledOut(floats, text);
  }

  /** Integers may have a sign of either kind; beyond 64 bits a numeral is no integer. */
  lemma IntegerNumerals(n: nat)
    ensures ParseInteger(Decimal(n)) == ParseInteger("+" + Decimal(n)) == if n <= 9_223_372_036_854_775_807 then Some(n) else None
    ensures var i: int := n; ParseInteger("-" + Decimal(n)) == if n <= 9_223_372_036_854_775_808 then Some(-i) else None
  {
    var digits := Decimal(n);
    ParseDecimal(n);
    assert digits[0] in digits;
    assert ("+" + digits)[1..] == digits && ("-" + digits)[1..] == digits;
  }
}
