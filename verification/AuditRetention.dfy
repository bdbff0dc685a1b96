/**
 `audit_with_retention` of src/state.rs: every insertion prunes the audit table by age and by
 number, and that comes to pruning the whole history once exactly if the clock does not go back.
 */
module AuditRetention {
  import opened Tables

  datatype Row = Row(id: int, event: string, createdAt: int)

  predicate IdsAscend(rows: seq<Row>) {
    forall i, j :: 0 <= i < j < |rows| ==> rows[i].id < rows[j].id
  }

  /** In the order of their ids, all below the next one. */
  predicate Ordered(rows: seq<Row>, end: int) {
    IdsAscend(rows) && forall i :: 0 <= i < |rows| ==> 0 <= rows[i].id < end
  }

  function NoOlder(cutoff: int): Row -> bool {
    (r: Row) => r.createdAt >= cutoff
  }

  function NotAmong(oldestIds: int): Row -> bool {
    (r: Row) => !(r.id <= oldestIds)
  }

  function Younger(rows: seq<Row>, cutoff: int): seq<Row> {
    Keep(rows, NoOlder(cutoff))
  }

  function Retained(rows: seq<Row>, now: int, maxRows: nat, maxAge: int): seq<Row> {
    Last(Younger(rows, now - maxAge), maxRows)
  }

  class AuditTable {
    var rows: seq<Row>
    var nextId: nat

    ghost predicate Valid()
      reads this
    {
      Ordered(rows, nextId)
    }

    constructor ()
      ensures Valid() && rows == []
    {
      rows, nextId := [], 1;
    }

    method AuditWithRetention(event: string, now: int, maxRows: nat, maxAge: int)
      requires Valid()
      modifies this
      ensures Valid() && nextId == old(nextId) + 1
      ensures rows == Retained(old(rows) + [Row(old(nextId), event, now)], now, maxRows, maxAge)
    {
      rows, nextId := rows + [Row(nextId, event, now)], nextId + 1;
      YoungerIsOrdered(rows, nextId, now - maxAge);
      rows := DeleteUnless(rows, NoOlder(now - maxAge));
      var newestGone := NewestGone(rows, maxRows);
      DeletingTheOldest(rows, nextId, maxRows);
      LastIsOrdered(rows, nextId, maxRows);
      rows := DeleteUnless(rows, NotAmong(newestGone));
    }
  }

  predicate Young(row: Row, cutoff: int) {
    row.createdAt >= cutoff
  }

  /** The places of the young rows after the `i`-th. */
  function YoungAfter(rows: seq<Row>, i: nat, cutoff: int): set<nat> {
    set j: nat | i < j < |rows| && Young(rows[j], cutoff)
  }

  lemma LastWithOneMore(rows: seq<Row>, last: Row, n: nat, row: Row)
    requires last !in rows
    ensures row in Last(rows + [last], n) <==> n > 0 && (row == last || row in Last(rows, n - 1))
  {
    if n > 0 {
      assert Last(rows + [last], n) == Last(rows, n - 1) + [last];
    }
  }

  lemma YoungerSnoc(rows: seq<Row>, cutoff: int)
    requires rows != []
    ensures var few := rows[..|rows| - 1];
            Younger(rows, cutoff) == if Young(rows[|rows| - 1], cutoff) then Younger(few, cutoff) + [rows[|rows| - 1]] else Younger(few, cutoff)
  {
    var few := rows[..|rows| - 1];
    assert Younger(few, cutoff) + [] == Younger(few, cutoff);
  }

  lemma NewestIsNew(rows: seq<Row>, end: int, cutoff: int)
    requires Ordered(rows, end) && rows != []
    ensures rows[|rows| - 1] !in Younger(rows[..|rows| - 1], cutoff)
  {
    KeptRows(rows[..|rows| - 1], NoOlder(cutoff));
  }

  lemma YoungAfterSnoc(rows: seq<Row>, i: nat, cutoff: int)
    requires i < |rows|
    ensures var n := |rows| - 1;
            |YoungAfter(rows, i, cutoff)| ==
              if i == n then 0 else if Young(rows[n], cutoff) then |YoungAfter(rows[..n], i, cutoff)| + 1 else |YoungAfter(rows[..n], i, cutoff)|
  {
    var n := |rows| - 1;
    if i == n {
      assert YoungAfter(rows, i, cutoff) == {};
    } else if Young(rows[n], cutoff) {
      assert YoungAfter(rows, i, cutoff) == YoungAfter(rows[..n], i, cutoff) + {n};
    } else {
      assert YoungAfter(rows, i, cutoff) == YoungAfter(rows[..n], i, cutoff);
    }
  }

  /** One row more: which rows are left. */
  lemma RetainedSnoc(rows: seq<Row>, end: int, now: int, maxRows: nat, maxAge: int, row: Row)
    requires Ordered(rows, end) && rows != []
    ensures var few, last := rows[..|rows| - 1], rows[|rows| - 1];
            && last !in Retained(few, now, maxRows, maxAge)
            && (row in Retained(rows, now, maxRows, maxAge) <==>
                  if Young(last, now - maxAge) then maxRows > 0 && (row == last || row in Retained(few, now, maxRows - 1, maxAge))
                  else row in Retained(few, now, maxRows, maxAge))
  {
    var few, last, cutoff := rows[..|rows| - 1], rows[|rows| - 1], now - maxAge;
    YoungerSnoc(rows, cutoff);
    NewestIsNew(rows, end, cutoff);
    if Young(last, cutoff) {
      LastWithOneMore(Younger(few, cutoff), last, maxRows, row);
    }
  }

  /** A row is left by pruning exactly if it is young and fewer than `maxRows` young rows come after it. */
  lemma {:induction false} RetainedSpelledOut(rows: seq<Row>, end: int, now: int, maxRows: nat, maxAge: int, i: nat)
    requires Ordered(rows, end) && i < |rows|
    ensures rows[i] in Retained(rows, now, maxRows, maxAge) <==>
              rows[i].createdAt >= now - maxAge && |YoungAfter(rows, i, now - maxAge)| < maxRows
  {
    var n := |rows| - 1;
    RetainedSnoc(rows, end, now, maxRows, maxAge, rows[i]);
    YoungAfterSnoc(rows, i, now - maxAge);
    if i < n {
      assert rows[..n][i] == rows[i] && rows[i] != rows[n];
      if !Young(rows[n], now - maxAge) {
        RetainedSpelledOut(rows[..n], end, now, maxRows, maxAge, i);
      } else if maxRows > 0 {
        RetainedSpelledOut(rows[..n], end, now, maxRows - 1, maxAge, i);
      }
    }
  }

  lemma {:induction false} YoungerIsOrdered(rows: seq<Row>, end: int, cutoff: int)
    requires Ordered(rows, end)
    ensures Ordered(Younger(rows, cutoff), end)
    ensures Younger(rows, cutoff) != [] ==> Younger(rows, cutoff)[|Younger(rows, cutoff)| - 1].id <= rows[|rows| - 1].id
  {
    if rows != [] {
      YoungerIsOrdered(rows[..|rows| - 1], end, cutoff);
    }
  }

  lemma LastIsOrdered(rows: seq<Row>, end: int, maxRows: nat)
    requires Ordered(rows, end)
    ensures Ordered(Last(rows, maxRows), end)
  {
  }

  /** The id that `ORDER BY id DESC LIMIT 1 OFFSET maxRows` finds, or -1. */
  function NewestGone(rows: seq<Row>, maxRows: nat): int {
    if |rows| > maxRows then rows[|rows| - 1 - maxRows].id else -1
  }

  /** The second deletion leaves the newest rows: those beyond the last id that has enough rows after it. */
  lemma DeletingTheOldest(rows: seq<Row>, end: int, maxRows: nat)
    requires Ordered(rows, end)
    ensures Keep(rows, NotAmong(NewestGone(rows, maxRows))) == Last(rows, maxRows)
  {
    if |rows| > maxRows {
      KeepAbove(rows, |rows| - maxRows - 1);
    } else {
      KeepAll(rows, -1);
    }
  }

  lemma KeepAll(rows: seq<Row>, below: int)
    requires forall i :: 0 <= i < |rows| ==> below < rows[i].id
    ensures Keep(rows, NotAmong(below)) == rows
  {
    KeepSuffix(rows, NotAmong(below), 0);
  }

  lemma KeepAbove(rows: seq<Row>, k: nat)
    requires IdsAscend(rows) && k < |rows|
    ensures Keep(rows, NotAmong(rows[k].id)) == rows[k + 1..]
  {
    forall i | 0 <= i < |rows| ensures NotAmong(rows[k].id)(rows[i]) <==> k + 1 <= i {
    }
    KeepSuffix(rows, NotAmong(rows[k].id), k + 1);
  }

  // ---- pruning at every insertion is pruning once ----------------------------------------------

  /** The clock did not go back between the rows. */
  predicate TimesAscend(rows: seq<Row>) {
    forall i, j :: 0 <= i < j < |rows| ==> rows[i].createdAt <= rows[j].createdAt
  }

  /** The table after inserting the rows one by one, each at its own time. */
  function Incremental(table: seq<Row>, added: seq<Row>, maxRows: nat, maxAge: int): seq<Row> {
    if added == [] then table
    else
      var last := added[|added| - 1];
      Retained(Incremental(table, added[..|added| - 1], maxRows, maxAge) + [last], last.createdAt, maxRows, maxAge)
  }

  lemma {:induction false} YoungerIsSuffix(rows: seq<Row>, cutoff: int) returns (k: nat)
    requires TimesAscend(rows)
    ensures k <= |rows| && Younger(rows, cutoff) == rows[k..]
    ensures forall i :: 0 <= i < |rows| ==> (rows[i].createdAt >= cutoff <==> k <= i)
  {
    k := 0;
    while k < |rows| && rows[k].createdAt < cutoff
      invariant k <= |rows| && forall i :: 0 <= i < k ==> rows[i].createdAt < cutoff
    {
      k := k + 1;
    }
    KeepSuffix(rows, NoOlder(cutoff), k);
  }

  lemma LastOfSuffix(rows: seq<Row>, newest: seq<Row>, k: nat, j: nat, n: nat)
    requires k <= |rows| && newest == Last(rows, n) && j == if k > |rows| - |newest| then k - (|rows| - |newest|) else 0
    ensures Last(rows[k..], n) == newest[j..]
  {
  }

  lemma YoungerOfSuffix(rows: seq<Row>, newest: seq<Row>, cutoff: int, k: nat, j: nat)
    requires |newest| <= |rows| && newest == rows[|rows| - |newest|..]
    requires forall i :: 0 <= i < |rows| ==> (rows[i].createdAt >= cutoff <==> k <= i)
    requires k <= |rows| && j == if k > |rows| - |newest| then k - (|rows| - |newest|) else 0
    ensures Younger(newest, cutoff) == newest[j..]
  {
    forall i | 0 <= i < |newest| ensures NoOlder(cutoff)(newest[i]) <==> j <= i {
      assert newest[i] == rows[|rows| - |newest| + i];
    }
    KeepSuffix(newest, NoOlder(cutoff), j);
  }

  /** Among rows in the order of their times, the age limit and the row limit may be applied in either order. */
  lemma YoungerOfLast(rows: seq<Row>, cutoff: int, maxRows: nat)
    requires TimesAscend(rows)
    ensures Younger(Last(rows, maxRows), cutoff) == Last(Younger(rows, cutoff), maxRows)
  {
    var newest := Last(rows, maxRows);
    var k := YoungerIsSuffix(rows, cutoff);
    var j := if k > |rows| - |newest| then k - (|rows| - |newest|) else 0;
    YoungerOfSuffix(rows, newest, cutoff, k, j);
    LastOfSuffix(rows, newest, k, j, maxRows);
  }

  lemma {:induction false} YoungerTwice(rows: seq<Row>, earlier: int, cutoff: int)
    requires earlier <= cutoff
    ensures Younger(Younger(rows, earlier), cutoff) == Younger(rows, cutoff)
  {
    if rows != [] {
      var n := |rows| - 1;
      YoungerTwice(rows[..n], earlier, cutoff);
      KeepSnoc(Younger(rows[..n], earlier), rows[n], NoOlder(cutoff));
      assert Younger(rows[..n], earlier) + [] == Younger(rows[..n], earlier);
    }
  }

  lemma YoungerAscendsInTime(rows: seq<Row>, cutoff: int)
    requires TimesAscend(rows)
    ensures TimesAscend(Younger(rows, cutoff))
  {
    var k := YoungerIsSuffix(rows, cutoff);
  }

  lemma LastOfLast(rows: seq<Row>, more: seq<Row>, n: nat)
    ensures Last(Last(rows, n) + more, n) == Last(rows + more, n)
  {
    if |rows| > n {
      var d := |rows| - n;
      assert rows[d..] + more == (rows + more)[d..];
      assert (rows + more)[d..][|more|..] == (rows + more)[d + |more|..];
    }
  }

  /** What the row limit or an earlier cutoff removed, the later pruning would have removed as well. */
  lemma PruningTwice(rows: seq<Row>, few: seq<Row>, last: Row, earlier: int, cutoff: int, maxRows: nat)
    requires TimesAscend(rows) && earlier <= cutoff && few == Last(Younger(rows, earlier), maxRows)
    ensures Last(Younger(few + [last], cutoff), maxRows) == Last(Younger(rows + [last], cutoff), maxRows)
  {
    assert Younger(few, cutoff) == Last(Younger(rows, cutoff), maxRows) by {
      YoungerAscendsInTime(rows, earlier);
      YoungerOfLast(Younger(rows, earlier), cutoff, maxRows);
      YoungerTwice(rows, earlier, cutoff);
    }
    KeepSnoc(few, last, NoOlder(cutoff));
    KeepSnoc(rows, last, NoOlder(cutoff));
    LastOfLast(Younger(rows, cutoff), if NoOlder(cutoff)(last) then [last] else [], maxRows);
  }

  /**
   Under a clock that does not go back the table is exactly the newest `maxRows` rows of the whole
   history that are no older than `maxAge` at the last insertion.
   */
  lemma {:induction false} IncrementalIsBatch(table: seq<Row>, added: seq<Row>, maxRows: nat, maxAge: int)
    requires TimesAscend(table + added) && added != []
    ensures Incremental(table, added, maxRows, maxAge) == Retained(table + added, added[|added| - 1].createdAt, maxRows, maxAge)
  {
    var n := |added| - 1;
    var all, few, last := table + added[..n], Incremental(table, added[..n], maxRows, maxAge), added[n];
    assert table + added == all + [last];
    if n == 0 {
      assert all == table && few == table;
    } else {
      TimesAscendBefore(table, added);
      assert few == Retained(all, added[n - 1].createdAt, maxRows, maxAge) by {
        IncrementalIsBatch(table, added[..n], maxRows, maxAge);
      }
      PruningOnce(all, few, added[n - 1], last, maxRows, maxAge);
    }
  }

  lemma PruningOnce(all: seq<Row>, few: seq<Row>, before: Row, last: Row, maxRows: nat, maxAge: int)
    requires TimesAscend(all) && before.createdAt <= last.createdAt && few == Retained(all, before.createdAt, maxRows, maxAge)
    ensures Retained(few + [last], last.createdAt, maxRows, maxAge) == Retained(all + [last], last.createdAt, maxRows, maxAge)
  {
    PruningTwice(all, few, last, before.createdAt - maxAge, last.createdAt - maxAge, maxRows);
  }

  lemma TimesAscendBefore(table: seq<Row>, added: seq<Row>)
    requires TimesAscend(table + added) && |added| > 1
    ensures TimesAscend(table + added[..|added| - 1]) && added[|added| - 2].createdAt <= added[|added| - 1].createdAt
  {
    var all, n := table + added, |table + added| - 1;
    assert all[..n] == table + added[..|added| - 1];
    assert all[n - 1] == added[|added| - 2] && all[n] == added[|added| - 1];
  }

  // ---- and exactly then ------------------------------------------------------------------------

  /** The rows of the table stand in the order of their times, all no later than the added ones. */
  predicate Precedes(table: seq<Row>, added: seq<Row>) {
    TimesAscend(table) && forall i, j :: 0 <= i < |table| && 0 <= j < |added| ==> table[i].createdAt <= added[j].createdAt
  }

  /** After the first `k` insertions the table is what pruning the whole history once would leave. */
  predicate BatchAt(table: seq<Row>, added: seq<Row>, k: nat, maxRows: nat, maxAge: nat)
    requires 0 < k <= |added|
  {
    Incremental(table, added[..k], maxRows, maxAge) == Retained(table + added[..k], added[k - 1].createdAt, maxRows, maxAge)
  }

  lemma AscendingIsBatch(table: seq<Row>, added: seq<Row>, k: nat, maxRows: nat, maxAge: nat)
    requires TimesAscend(added) && Precedes(table, added) && 0 < k <= |added|
    ensures BatchAt(table, added, k, maxRows, maxAge)
  {
    IncrementalIsBatch(table, added[..k], maxRows, maxAge);
  }

  lemma {:induction false} FirstDrop(added: seq<Row>) returns (j: nat)
    requires !TimesAscend(added)
    ensures 0 < j < |added| && TimesAscend(added[..j]) && added[j].createdAt < added[j - 1].createdAt
  {
    var n := |added| - 1;
    if TimesAscend(added[..n]) {
      j := n;
      var i :| 0 <= i < n && added[n].createdAt < added[i].createdAt;
      assert added[..n][i].createdAt <= added[..n][n - 1].createdAt;
    } else {
      j := FirstDrop(added[..n]);
      assert added[..n][..j] == added[..j];
    }
  }

  lemma {:induction false} OlderThanAll(added: seq<Row>) returns (t: int)
    ensures forall i :: 0 <= i < |added| ==> t < added[i].createdAt
  {
    t := 0;
    if added != [] {
      t := OlderThanAll(added[1..]);
      t := if t < added[0].createdAt then t else added[0].createdAt - 1;
      forall i | 0 < i < |added| ensures t < added[i].createdAt {
        assert added[i] == added[1..][i - 1];
      }
    }
  }

  lemma RetainedRow(rows: seq<Row>, now: int, maxRows: nat, maxAge: int, h: Row)
    ensures h in Retained(rows, now, maxRows, maxAge) ==> h in rows && now - maxAge <= h.createdAt
    ensures |rows| <= maxRows && h in rows && now - maxAge <= h.createdAt ==> h in Retained(rows, now, maxRows, maxAge)
  {
    KeptRows(rows, NoOlder(now - maxAge));
    KeptAreNoMore(rows, NoOlder(now - maxAge));
  }

  /** An old row is gone for good once a pruning found it too old. */
  lemma OnceGone(h: Row, added: seq<Row>, j: nat, maxRows: nat, maxAge: nat)
    requires 0 < j < |added| && TimesAscend(added[..j]) && Precedes([h], added) && h !in added
    requires h.createdAt < added[j - 1].createdAt - maxAge
    ensures h !in Incremental([h], added[..j + 1], maxRows, maxAge)
  {
    var few, next := Incremental([h], added[..j], maxRows, maxAge), added[j];
    assert h !in few by {
      assert added[..j][..j] == added[..j] && added[..j][j - 1] == added[j - 1];
      AscendingIsBatch([h], added[..j], j, maxRows, maxAge);
      RetainedRow([h] + added[..j], added[j - 1].createdAt, maxRows, maxAge, h);
    }
    assert added[..j + 1][..j] == added[..j] && added[..j + 1][j] == next;
    assert Incremental([h], added[..j + 1], maxRows, maxAge) == Retained(few + [next], next.createdAt, maxRows, maxAge);
    RetainedRow(few + [next], next.createdAt, maxRows, maxAge, h);
  }

  /**
   Where the clock first goes back an old row tells the two apart: it was too old for the pruning before,
   and is young enough again for the pruning after.
   */
  lemma DropTellsApart(h: Row, added: seq<Row>, j: nat)
    requires 0 < j < |added| && TimesAscend(added[..j]) && added[j].createdAt < added[j - 1].createdAt
    requires forall i :: 0 <= i < |added| ==> h.createdAt < added[i].createdAt
    ensures !BatchAt([h], added, j + 1, |added| + 1, added[j].createdAt - h.createdAt)
  {
    var maxRows, maxAge := |added| + 1, added[j].createdAt - h.createdAt;
    OnceGone(h, added, j, maxRows, maxAge);
    RetainedRow([h] + added[..j + 1], added[j].createdAt, maxRows, maxAge, h);
  }

  /**
   Pruning at every insertion comes to pruning the whole history once, for every table before it and
   all limits, exactly if the clock did not go back during the insertions.
   */
  lemma BatchExactlyWhenTimesAscend(added: seq<Row>)
    ensures TimesAscend(added) <==>
            forall table, k: nat, maxRows: nat, maxAge: nat ::
              Precedes(table, added) && 0 < k <= |added| ==> BatchAt(table, added, k, maxRows, maxAge)
  {
    if TimesAscend(added) {
      forall table, k: nat, maxRows: nat, maxAge: nat | Precedes(table, added) && 0 < k <= |added|
        ensures BatchAt(table, added, k, maxRows, maxAge)
      {
        AscendingIsBatch(table, added, k, maxRows, maxAge);
      }
    } else {
      var j := FirstDrop(added);
      var t := OlderThanAll(added);
      var h := Row(0, "", t);
      DropTellsApart(h, added, j);
      assert Precedes([h], added);
    }
  }

  // ---- runs of the object ------------------------------------------------------------------------

  datatype Event = Event(text: string, at: int)

  /** The rows that the events become, with ids from `nextId` on. */
  function Inserted(events: seq<Event>, nextId: nat): seq<Row> {
    seq(|events|, i requires 0 <= i < |events| => Row(nextId + i, events[i].text, events[i].at))
  }

  /** Any run of insertions into a table with fixed limits. */
  method AuditAll(table: AuditTable, events: seq<Event>, maxRows: nat, maxAge: int)
    requires table.Valid()
    modifies table
    ensures table.Valid() && table.nextId == old(table.nextId) + |events|
    ensures table.rows == Incremental(old(table.rows), Inserted(events, old(table.nextId)), maxRows, maxAge)
  {
    ghost var added := Inserted(events, table.nextId);
    for n := 0 to |events|
      invariant table.Valid() && table.nextId == old(table.nextId) + n
      invariant table.rows == Incremental(old(table.rows), added[..n], maxRows, maxAge)
    {
      assert added[..n + 1][..n] == added[..n];
      table.AuditWithRetention(events[n].text, events[n].at, maxRows, maxAge);
    }
    assert added[..|events|] == added;
  }

  // ---- rows lost under a clock that goes back ----------------------------------------------------

  lemma KeepThree(a: Row, b: Row, c: Row, keep: Row -> bool)
    ensures keep(a) && keep(b) && keep(c) ==> Keep([a, b, c], keep) == [a, b, c]
    ensures !keep(a) && !keep(b) && keep(c) ==> Keep([a, b, c], keep) == [c]
    ensures keep(a) && !keep(b) && !keep(c) ==> Keep([a, b, c], keep) == [a]
  {
    KeepSnoc([a, b], c, keep);
    KeepSnoc([a], b, keep);
    KeepSnoc([], a, keep);
    assert [] + [a] == [a] && [a] + [b] == [a, b] && [a, b] + [c] == [a, b, c];
  }

  /** Two rows crowd the first one out of a table of two. */
  lemma CrowdedOut(a: Row, b: Row, c: Row, maxAge: nat)
    requires c.createdAt <= b.createdAt <= a.createdAt <= c.createdAt + maxAge
    ensures Retained([a, b, c], c.createdAt, 2, maxAge) == [b, c]
  {
    KeepThree(a, b, c, NoOlder(c.createdAt - maxAge));
  }

  /**
   When the clock does go back the two differ: a row that was crowded out by rows that the next
   pruning finds too old is missing from then on.
   */
  lemma BackwardClocksLoseRows(a: Row, b: Row, c: Row, d: Row, maxAge: nat)
    requires c.createdAt <= b.createdAt < d.createdAt - maxAge <= a.createdAt <= c.createdAt + maxAge
    ensures Retained(Retained([a, b, c], c.createdAt, 2, maxAge) + [d], d.createdAt, 2, maxAge) == [d]
    ensures Retained([a, b, c] + [d], d.createdAt, 2, maxAge) == [a, d]
  {
    var late := NoOlder(d.createdAt - maxAge);
    CrowdedOut(a, b, c, maxAge);
    assert Younger([b, c] + [d], d.createdAt - maxAge) == [d] by {
      KeepThree(b, c, d, late);
      assert [b, c] + [d] == [b, c, d];
    }
    assert Younger([a, b, c] + [d], d.createdAt - maxAge) == [a, d] by {
      KeepThree(a, b, c, late);
      KeepSnoc([a, b, c], d, late);
    }
  }
}
