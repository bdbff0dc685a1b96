/** Splitting, trimming and numerals, as the standard library of the program has them. */
module Text {
  import opened Wrappers

  /** `str::split` at any of the delimiters. */
  function Split(s: string, delimiters: set<char>): (pieces: seq<string>)
    ensures pieces != []
    ensures forall i, d :: 0 <= i < |pieces| && d in delimiters ==> d !in pieces[i]
  {
    if s == "" then [""]
    else
      var rest := Split(s[1..], delimiters);
      if s[0] in delimiters then [""] + rest else [[s[0]] + rest[0]] + rest[1..]
  }

  function Join(pieces: seq<string>, delimiter: char): string
    requires pieces != []
  {
    if |pieces| == 1 then pieces[0] else pieces[0] + [delimiter] + Join(pieces[1..], delimiter)
  }

  predicate Free(s: string, delimiters: set<char>) {
    forall d :: d in delimiters ==> d !in s
  }

  lemma {:induction false} SplitPlain(s: string, delimiters: set<char>)
    requires Free(s, delimiters)
    ensures Split(s, delimiters) == [s]
  {
    if s != "" {
      assert s == [s[0]] + s[1..];
      SplitPlain(s[1..], delimiters);
    }
  }

  lemma {:induction false} SplitFirst(first: string, rest: string, delimiter: char, delimiters: set<char>)
    requires Free(first, delimiters) && delimiter in delimiters
    ensures Split(first + [delimiter] + rest, delimiters) == [first] + Split(rest, delimiters)
  {
    var s := first + [delimiter] + rest;
    if first == "" {
      assert s[1..] == rest;
    } else {
      assert s[1..] == first[1..] + [delimiter] + rest;
      SplitFirst(first[1..], rest, delimiter, delimiters);
      assert [first[0]] + first[1..] == first;
    }
  }

  /** Splitting undoes joining, for pieces free of the delimiters. */
  lemma {:induction false} SplitJoin(pieces: seq<string>, delimiter: char, delimiters: set<char>)
    requires pieces != [] && delimiter in delimiters && forall i :: 0 <= i < |pieces| ==> Free(pieces[i], delimiters)
    ensures Split(Join(pieces, delimiter), delimiters) == pieces
  {
    if |pieces| == 1 {
      SplitPlain(pieces[0], delimiters);
    } else {
      SplitFirst(pieces[0], Join(pieces[1..], delimiter), delimiter, delimiters);
      SplitJoin(pieces[1..], delimiter, delimiters);
    }
  }

  /** The Unicode White_Space characters, which `str::trim` removes. */
  predicate IsSpace(c: char) {
    var n := c as int;
    0x9 <= n <= 0xD || n in {0x20, 0x85, 0xA0, 0x1680, 0x2028, 0x2029, 0x202F, 0x205F, 0x3000} || 0x2000 <= n <= 0x200A
  }

  function TrimStart(s: string): string {
    if s != "" && IsSpace(s[0]) then TrimStart(s[1..]) else s
  }

  function TrimEnd(s: string): string {
    if s != "" && IsSpace(s[|s| - 1]) then TrimEnd(s[..|s| - 1]) else s
  }

  function Trim(s: string): string {
    TrimEnd(TrimStart(s))
  }

  /** Neither end is white space. */
  predicate Trimmed(s: string) {
    s != "" ==> !IsSpace(s[0]) && !IsSpace(s[|s| - 1])
  }

  function Digit(c: char): Option<nat> {
    if '0' <= c <= '9' then Some((c as int) - ('0' as int)) else None
  }

  function ParseDigits(s: string, acc: nat): Option<nat> {
    if s == "" then Some(acc)
    else if Digit(s[0]).None? then None
    else ParseDigits(s[1..], 10 * acc + Digit(s[0]).value)
  }

  function DigitChar(n: nat): char
    requires n < 10
  {
    (n + '0' as int) as char
  }

  function Decimal(n: nat): (s: string)
    ensures s != "" && forall c :: c in s ==> '0' <= c <= '9'
  {
    if n < 10 then [DigitChar(n)] else Decimal(n / 10) + [DigitChar(n % 10)]
  }

  lemma {:induction false} ParseAppend(s: string, last: char, acc: nat)
    requires ParseDigits(s, acc).Some? && Digit(last).Some?
    ensures ParseDigits(s + [last], acc) == Some(10 * ParseDigits(s, acc).value + Digit(last).value)
  {
    if s == "" {
      assert s + [last] == [last] && [last][1..] == "";
    } else {
      assert (s + [last])[1..] == s[1..] + [last];
      ParseAppend(s[1..], last, 10 * acc + Digit(s[0]).value);
    }
  }

  lemma {:induction false} ParseDecimal(n: nat)
    ensures ParseDigits(Decimal(n), 0) == Some(n)
  {
    if n < 10 {
      assert Decimal(n)[1..] == "";
    } else {
      ParseDecimal(n / 10);
      ParseAppend(Decimal(n / 10), DigitChar(n % 10), 0);
    }
  }

  // ---- trimming, spelled out ----------------------------------------------------------------

  /** White space is these twenty-five characters. */
  lemma WhiteSpace(c: char)
    ensures IsSpace(c) <==> c as int in {
              9, 10, 11, 12, 13, 32, 133, 160, 5760, 8192, 8193, 8194, 8195, 8196, 8197, 8198, 8199, 8200, 8201, 8202,
              8232, 8233, 8239, 8287, 12288}
  {
  }

  predicate Blanks(s: string) {
    forall i :: 0 <= i < |s| ==> IsSpace(s[i])
  }

  lemma {:induction false} TrimStartPadded(before: string, s: string)
    requires Blanks(before) && (s != "" ==> !IsSpace(s[0]))
    ensures TrimStart(before + s) == s
  {
    if before == "" {
      assert before + s == s;
    } else {
      assert (before + s)[1..] == before[1..] + s;
      TrimStartPadded(before[1..], s);
    }
  }

  lemma {:induction false} TrimEndPadded(s: string, after: string)
    requires Blanks(after) && (s != "" ==> !IsSpace(s[|s| - 1]))
    ensures TrimEnd(s + after) == s
  {
    var n := |after| - 1;
    if after == "" {
      assert s + after == s;
    } else {
      assert (s + after)[..|s + after| - 1] == s + after[..n];
      TrimEndPadded(s, after[..n]);
    }
  }

  /** Trimming takes off the white space around a text and leaves the white space within. */
  lemma TrimPadded(before: string, s: string, after: string)
    requires Blanks(before) && Blanks(after) && Trimmed(s)
    ensures Trim(before + s + after) == s
  {
    if s == "" {
      TrimStartPadded(before + after, "");
      assert before + s + after == before + after + "";
    } else {
      assert before + s + after == before + (s + after);
      TrimStartPadded(before, s + after);
      TrimEndPadded(s, after);
    }
  }

  /** Every text is its trimmed part with white space around it. */
  lemma {:induction false} Padding(s: string) returns (before: string, after: string)
    ensures s == before + Trim(s) + after && Blanks(before) && Blanks(after) && Trimmed(Trim(s))
  {
    if s != "" && IsSpace(s[0]) {
      before, after := Padding(s[1..]);
      before := [s[0]] + before;
      assert s == [s[0]] + s[1..];
    } else {
      before := "";
      after := PaddingAfter(s);
    }
  }

  lemma {:induction false} PaddingAfter(s: string) returns (after: string)
    requires s != "" ==> !IsSpace(s[0])
    ensures s == TrimEnd(s) + after && Blanks(after) && Trimmed(TrimEnd(s)) && TrimStart(s) == s
  {
    if s != "" && IsSpace(s[|s| - 1]) {
      after := PaddingAfter(s[..|s| - 1]);
      after := after + [s[|s| - 1]];
      assert s == s[..|s| - 1] + [s[|s| - 1]];
    } else {
      after := "";
    }
  }
}
