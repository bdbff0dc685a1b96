/** Deleting from tables whose rows stand in the order of their ids. */
module Tables {

  /** `DELETE … WHERE NOT keep`. */
  function Keep<T>(rows: seq<T>, keep: T -> bool): seq<T> {
    if rows == [] then []
    else Keep(rows[..|rows| - 1], keep) + if keep(rows[|rows| - 1]) then [rows[|rows| - 1]] else []
  }

  lemma {:induction false} KeptRows<T(!new)>(rows: seq<T>, keep: T -> bool)
    ensures forall r :: r in Keep(rows, keep) <==> r in rows && keep(r)
  {
    if rows != [] {
      KeptRows(rows[..|rows| - 1], keep);
      assert rows == rows[..|rows| - 1] + [rows[|rows| - 1]];
    }
  }

  lemma {:induction false} KeptAreNoMore<T>(rows: seq<T>, keep: T -> bool)
    ensures |Keep(rows, keep)| <= |rows|
  {
    if rows != [] {
      KeptAreNoMore(rows[..|rows| - 1], keep);
    }
  }

  /** The newest rows. */
  function Last<T>(rows: seq<T>, n: nat): seq<T> {
    if |rows| <= n then rows else rows[|rows| - n..]
  }

  lemma KeepSnoc<T>(rows: seq<T>, last: T, keep: T -> bool)
    ensures Keep(rows + [last], keep) == Keep(rows, keep) + if keep(last) then [last] else []
  {
    assert (rows + [last])[..|rows|] == rows;
  }

  method DeleteUnless<T>(rows: seq<T>, keep: T -> bool) returns (kept: seq<T>)
    ensures kept == Keep(rows, keep)
  {
    kept := [];
    for i := 0 to |rows|
      invariant kept == Keep(rows[..i], keep)
    {
      assert rows[..i + 1] == rows[..i] + [rows[i]];
      KeepSnoc(rows[..i], rows[i], keep);
      if keep(rows[i]) {
        kept := kept + [rows[i]];
      }
    }
    assert rows[..|rows|] == rows;
  }

  lemma {:induction false} KeepNone<T>(rows: seq<T>, keep: T -> bool)
    requires forall i :: 0 <= i < |rows| ==> !keep(rows[i])
    ensures Keep(rows, keep) == []
  {
    if rows != [] {
      KeepNone(rows[..|rows| - 1], keep);
    }
  }

  lemma {:induction false} KeepSuffix<T>(rows: seq<T>, keep: T -> bool, k: nat)
    requires k <= |rows| && forall i :: 0 <= i < |rows| ==> (keep(rows[i]) <==> k <= i)
    ensures Keep(rows, keep) == rows[k..]
  {
    if k == |rows| {
      KeepNone(rows, keep);
    } else {
      KeepSuffix(rows[..|rows| - 1], keep, k);
      assert rows[k..] == rows[..|rows| - 1][k..] + [rows[|rows| - 1]];
    }
  }
}
