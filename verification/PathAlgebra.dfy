/**
 `set_path` of src/discord/actions.rs and the algebra of writes at paths of a JSON value.
 */
module PathAlgebra {
  import opened Wrappers
  import opened Json

  type Path = seq<string>

  /** The entry to descend into, opened when missing. */
  function Child(v: Value, key: string): Value {
    v.Get(key).GetOr(Obj(map[]))
  }

  /** A write at a path; whatever is not an object on the way becomes one. */
  function Set(v: Value, path: Path, w: Value): Value
    decreases |path|
  {
    if path == [] then w
    else Obj(Fields(v)[path[0] := Set(Child(v, path[0]), path[1..], w)])
  }

  function Lookup(v: Value, path: Path): Option<Value> {
    if path == [] then Some(v)
    else if v.Get(path[0]).None? then None
    else Lookup(v.Get(path[0]).value, path[1..])
  }

  function AsObject(v: Value): Value {
    Obj(Fields(v))
  }

  /** The cursor walks down to the last object, opening objects as it goes; the objects above take the change up. */
  method SetPath(root: Value, path: Path, value: Value) returns (result: Value)
    ensures result == Set(root, path, value)
  {
    if path == [] {
      return value;
    }
    var chain := [AsObject(root)];
    for i := 0 to |path| - 1
      invariant |chain| == i + 1 && chain[0] == AsObject(root)
      invariant forall k :: 0 <= k <= i ==> chain[k].Obj?
      invariant forall k :: 0 <= k < i ==> chain[k + 1] == AsObject(Child(chain[k], path[k]))
    {
      chain := chain + [AsObject(Child(chain[i], path[i]))];
    }
    result := value;
    var i := |path|;
    while i > 0
      invariant 0 <= i <= |path|
      invariant i < |path| ==> result == Set(chain[i], path[i..], value)
      invariant i == |path| ==> result == value
    {
      i := i - 1;
      SetOpened(Child(chain[i], path[i]), path[i..][1..], value);
      assert path[i..][1..] == path[i + 1..];
      result := Obj(chain[i].fields[path[i] := result]);
    }
    SetOpened(root, path, value);
    assert path[0..] == path;
  }

  lemma SetOpened(v: Value, path: Path, w: Value)
    ensures path != [] ==> Set(AsObject(v), path, w) == Set(v, path, w)
  {
    if path != [] {
      assert v.Get(path[0]) == AsObject(v).Get(path[0]);
    }
  }

  // ---- the laws of writes ----------------------------------------------------------------

  /** Neither path leads through the other. */
  predicate Apart(p: Path, q: Path) {
    !(p <= q) && !(q <= p)
  }

  lemma ApartTails(p: Path, q: Path)
    requires Apart(p, q)
    ensures p != [] && q != [] && (p[0] == q[0] ==> Apart(p[1..], q[1..]))
  {
    if p[0] == q[0] {
      assert p == [p[0]] + p[1..] && q == [q[0]] + q[1..];
    }
  }

  lemma {:induction false} LookupSet(v: Value, p: Path, w: Value)
    ensures Lookup(Set(v, p, w), p) == Some(w)
    decreases |p|
  {
    if p != [] {
      LookupSet(Child(v, p[0]), p[1..], w);
    }
  }

  lemma {:induction false} SetSet(v: Value, p: Path, a: Value, b: Value)
    ensures Set(Set(v, p, a), p, b) == Set(v, p, b)
    decreases |p|
  {
    if p != [] {
      SetSet(Child(v, p[0]), p[1..], a, b);
    }
  }

  lemma {:induction false} LookupApart(v: Value, p: Path, w: Value, q: Path)
    requires Apart(p, q)
    ensures Lookup(Set(v, p, w), q) == Lookup(v, q)
    decreases |p|
  {
    ApartTails(p, q);
    if p[0] == q[0] {
      LookupApart(Child(v, p[0]), p[1..], w, q[1..]);
    }
  }

  lemma ChildAfter(v: Value, key: string, w: Value, other: string)
    ensures Child(Obj(Fields(v)[key := w]), other) == if other == key then w else Child(v, other)
  {
  }

  /** Two writes that start with the same key are two writes below it. */
  lemma SetTwiceBelow(v: Value, p: Path, a: Value, q: Path, b: Value)
    requires p != [] && q != [] && p[0] == q[0]
    ensures Set(Set(v, p, a), q, b) == Obj(Fields(v)[p[0] := Set(Set(Child(v, p[0]), p[1..], a), q[1..], b)])
  {
    ChildAfter(v, p[0], Set(Child(v, p[0]), p[1..], a), q[0]);
  }

  /** Two writes that start with different keys change one entry each. */
  lemma SetTwiceBeside(v: Value, p: Path, a: Value, q: Path, b: Value)
    requires p != [] && q != [] && p[0] != q[0]
    ensures Set(Set(v, p, a), q, b)
         == Obj(Fields(v)[p[0] := Set(Child(v, p[0]), p[1..], a)][q[0] := Set(Child(v, q[0]), q[1..], b)])
  {
    ChildAfter(v, p[0], Set(Child(v, p[0]), p[1..], a), q[0]);
  }

  lemma EntriesCommute(fields: map<string, Value>, k: string, x: Value, l: string, y: Value)
    requires k != l
    ensures fields[k := x][l := y] == fields[l := y][k := x]
  {
  }

  lemma SetsBesideCommute(v: Value, p: Path, a: Value, q: Path, b: Value)
    requires p != [] && q != [] && p[0] != q[0]
    ensures Set(Set(v, p, a), q, b) == Set(Set(v, q, b), p, a)
  {
    var x, y := Set(Child(v, p[0]), p[1..], a), Set(Child(v, q[0]), q[1..], b);
    SetTwiceBeside(v, p, a, q, b);
    SetTwiceBeside(v, q, b, p, a);
    EntriesCommute(Fields(v), p[0], x, q[0], y);
  }

  lemma {:induction false} SetsCommute(v: Value, p: Path, a: Value, q: Path, b: Value)
    requires Apart(p, q)
    ensures Set(Set(v, p, a), q, b) == Set(Set(v, q, b), p, a)
    decreases |p|
  {
    ApartTails(p, q);
    if p[0] == q[0] {
      SetTwiceBelow(v, p, a, q, b);
      SetTwiceBelow(v, q, b, p, a);
      SetsCommute(Child(v, p[0]), p[1..], a, q[1..], b);
    } else {
      SetsBesideCommute(v, p, a, q, b);
    }
  }

  // ---- runs of writes --------------------------------------------------------------------

  datatype Write = Write(path: Path, value: Value)

  function Apply(v: Value, writes: seq<Write>): Value {
    if writes == [] then v
    else Set(Apply(v, writes[..|writes| - 1]), writes[|writes| - 1].path, writes[|writes| - 1].value)
  }

  /** What a run of writes means where no path leads through another: the last value of each path. */
  function LastValues(writes: seq<Write>): map<Path, Value> {
    if writes == [] then map[]
    else LastValues(writes[..|writes| - 1])[writes[|writes| - 1].path := writes[|writes| - 1].value]
  }

  predicate PathsIn(writes: seq<Write>, paths: set<Path>) {
    forall w :: w in writes ==> w.path in paths
  }

  predicate Antichain(paths: set<Path>) {
    forall p, q :: p in paths && q in paths && p != q ==> Apart(p, q)
  }

  function Without(writes: seq<Write>, p: Path): (rest: seq<Write>)
    ensures forall w :: w in rest ==> w in writes
  {
    if writes == [] then []
    else
      var last := writes[|writes| - 1];
      Without(writes[..|writes| - 1], p) + if last.path == p then [] else [last]
  }

  lemma {:induction false} ApplyAppend(v: Value, first: seq<Write>, second: seq<Write>)
    ensures Apply(v, first + second) == Apply(Apply(v, first), second)
  {
    if second == [] {
      assert first + second == first;
    } else {
      ApplyAppend(v, first, second[..|second| - 1]);
      assert (first + second)[..|first + second| - 1] == first + second[..|second| - 1];
    }
  }

  lemma {:induction false} LastValuesAppend(first: seq<Write>, second: seq<Write>)
    ensures LastValues(first + second) == LastValues(first) + LastValues(second)
  {
    if second == [] {
      assert first + second == first;
    } else {
      LastValuesAppend(first, second[..|second| - 1]);
      assert (first + second)[..|first + second| - 1] == first + second[..|second| - 1];
    }
  }

  /** Runs that share no path may change places. */
  lemma LastValuesSwap(before: seq<Write>, first: seq<Write>, second: seq<Write>)
    requires LastValues(first).Keys !! LastValues(second).Keys
    ensures LastValues(before + first + second) == LastValues(before + second + first)
  {
    LastValuesAppend(before + first, second);
    LastValuesAppend(before, first);
    LastValuesAppend(before + second, first);
    LastValuesAppend(before, second);
  }

  lemma LastValuesSnoc(writes: seq<Write>, last: Write)
    ensures LastValues(writes + [last]) == LastValues(writes)[last.path := last.value]
  {
    assert (writes + [last])[..|writes|] == writes;
  }

  lemma {:induction false} WithoutForgets(writes: seq<Write>, p: Path)
    ensures LastValues(Without(writes, p)) == LastValues(writes) - {p}
  {
    if writes != [] {
      var n := |writes| - 1;
      var rest := Without(writes[..n], p);
      assert LastValues(rest) == LastValues(writes[..n]) - {p} by {
        WithoutForgets(writes[..n], p);
      }
      if writes[n].path == p {
        assert Without(writes, p) == rest;
      } else {
        assert Without(writes, p) == rest + [writes[n]];
        LastValuesSnoc(rest, writes[n]);
      }
    }
  }

  /** All writes at one path amount to the last of them, made at the end. */
  lemma {:induction false} LastWriteLast(v: Value, writes: seq<Write>, paths: set<Path>, p: Path)
    requires Antichain(paths) && PathsIn(writes, paths) && p in LastValues(writes) && p in paths
    ensures Apply(v, writes) == Set(Apply(v, Without(writes, p)), p, LastValues(writes)[p])
  {
    var n := |writes| - 1;
    var last := writes[n];
    if last.path == p {
      assert Without(writes, p) == Without(writes[..n], p);
      if p in LastValues(writes[..n]) {
        LastWriteLast(v, writes[..n], paths, p);
        SetSet(Apply(v, Without(writes[..n], p)), p, LastValues(writes[..n])[p], last.value);
      } else {
        NothingToForget(writes[..n], p);
      }
    } else {
      LastWriteLast(v, writes[..n], paths, p);
      var rest := Without(writes[..n], p);
      assert Without(writes, p)[..|Without(writes, p)| - 1] == rest;
      assert last in writes && Apart(p, last.path);
      SetsCommute(Apply(v, rest), p, LastValues(writes[..n])[p], last.path, last.value);
    }
  }

  lemma {:induction false} NothingToForget(writes: seq<Write>, p: Path)
    requires p !in LastValues(writes)
    ensures Without(writes, p) == writes
  {
    if writes != [] {
      NothingToForget(writes[..|writes| - 1], p);
    }
  }

  lemma {:induction false} WrittenPaths(writes: seq<Write>, paths: set<Path>)
    requires PathsIn(writes, paths)
    ensures LastValues(writes).Keys <= paths
  {
    if writes != [] {
      assert writes[|writes| - 1] in writes;
      WrittenPaths(writes[..|writes| - 1], paths);
    }
  }

  lemma SomeWrites(writes: seq<Write>)
    ensures writes == [] <==> LastValues(writes).Keys == {}
  {
    if writes != [] {
      assert writes[|writes| - 1].path in LastValues(writes).Keys;
    }
  }

  /** Two runs that leave the same last value at every path leave the same document, in whatever order they wrote. */
  lemma {:induction false} OnlyLastValuesCount(v: Value, first: seq<Write>, second: seq<Write>, paths: set<Path>)
    requires Antichain(paths) && PathsIn(first, paths) && PathsIn(second, paths)
    requires LastValues(first) == LastValues(second)
    ensures Apply(v, first) == Apply(v, second)
    decreases LastValues(first).Keys
  {
    WrittenPaths(first, paths);
    if p :| p in LastValues(first) {
      assert p in LastValues(first).Keys;
      WithoutForgets(first, p);
      WithoutForgets(second, p);
      OnlyLastValuesCount(v, Without(first, p), Without(second, p), paths);
      LastWriteLast(v, first, paths, p);
      LastWriteLast(v, second, paths, p);
    } else {
      SomeWrites(first);
      SomeWrites(second);
    }
  }

  /** Every path holds its last value, and a path apart from all that were written holds what it held. */
  lemma {:induction false} LastValueIsRead(v: Value, writes: seq<Write>, paths: set<Path>, p: Path)
    requires Antichain(paths + {p}) && PathsIn(writes, paths)
    ensures Lookup(Apply(v, writes), p)
         == if p in LastValues(writes) then Some(LastValues(writes)[p]) else Lookup(v, p)
  {
    if writes != [] {
      var last := writes[|writes| - 1];
      assert last in writes;
      var before := Apply(v, writes[..|writes| - 1]);
      LastValueIsRead(v, writes[..|writes| - 1], paths, p);
      if last.path == p {
        LookupSet(before, p, last.value);
      } else {
        assert Apart(last.path, p);
        LookupApart(before, last.path, last.value, p);
      }
    }
  }
}
