/**
 The outbox of src/state.rs and the flusher of src/discord/bot.rs that empties it: one row per
 dedupe key, at most ten attempts per row, and retention limits on what was delivered or given up.
 */
module Outbox {
  import opened Wrappers
  import opened Tables

  const MAX_ATTEMPTS: nat := 10
  const MAX_ROWS: nat := 10_000
  const DAY: nat := 24 * 60 * 60
  const BATCH: nat := 25

  /** `body` stands for channel, kind and payload. */
  datatype Row = Row(id: int, key: string, body: string, attempts: nat, createdAt: int, sentAt: Option<int>)

  predicate Pending(row: Row) {
    row.sentAt.None? && row.attempts < MAX_ATTEMPTS
  }

  predicate LongSent(row: Row, now: int) {
    row.sentAt.Some? && row.sentAt.value < now - DAY
  }

  predicate LongDead(row: Row, now: int) {
    row.sentAt.None? && row.attempts >= MAX_ATTEMPTS && row.createdAt < now - 30 * DAY
  }

  function NotLongSent(now: int): Row -> bool {
    (r: Row) => !LongSent(r, now)
  }

  function NotLongDead(now: int): Row -> bool {
    (r: Row) => !LongDead(r, now)
  }

  function IsPending(): Row -> bool {
    (r: Row) => Pending(r)
  }

  predicate HasKey(rows: seq<Row>, key: string) {
    exists i :: 0 <= i < |rows| && rows[i].key == key
  }

  function Enqueued(rows: seq<Row>, nextId: int, key: string, body: string, now: int): seq<Row> {
    if HasKey(rows, key) then rows else rows + [Row(nextId, key, body, 0, now, None)]
  }

  function Sent(rows: seq<Row>, id: int, now: int): seq<Row> {
    seq(|rows|, i requires 0 <= i < |rows| => if rows[i].id == id then rows[i].(sentAt := Some(now)) else rows[i])
  }

  function Attempted(rows: seq<Row>, id: int): seq<Row> {
    seq(|rows|, i requires 0 <= i < |rows| => if rows[i].id == id then rows[i].(attempts := rows[i].attempts + 1) else rows[i])
  }

  function Pruned(rows: seq<Row>, now: int): seq<Row> {
    Last(Keep(Keep(rows, NotLongSent(now)), NotLongDead(now)), MAX_ROWS)
  }

  function First<T>(rows: seq<T>, n: nat): seq<T> {
    if |rows| <= n then rows else rows[..n]
  }

  function PendingRows(rows: seq<Row>, limit: nat): seq<Row> {
    First(Keep(rows, IsPending()), limit)
  }

  function Ids(rows: seq<Row>): seq<int> {
    seq(|rows|, i requires 0 <= i < |rows| => rows[i].id)
  }

  /** In the order of their ids, all below the next one. */
  predicate Ordered(rows: seq<Row>, end: int) {
    && (forall i, j :: 0 <= i < j < |rows| ==> rows[i].id < rows[j].id)
    && (forall i :: 0 <= i < |rows| ==> rows[i].id < end)
  }

  predicate OneRowPerKey(rows: seq<Row>) {
    forall i, j :: 0 <= i < j < |rows| ==> rows[i].key != rows[j].key
  }

  // ---- deleting ----------------------------------------------------------------------------

  /** Deleting keeps the order, so what is left stands at ascending places of what was there. */
  predicate Within(few: seq<Row>, all: seq<Row>, places: seq<nat>) {
    && |places| == |few|
    && (forall i :: 0 <= i < |few| ==> places[i] < |all| && few[i] == all[places[i]])
    && (forall i, j :: 0 <= i < j < |few| ==> places[i] < places[j])
  }

  lemma {:induction false} KeptPlaces(rows: seq<Row>, keep: Row -> bool) returns (places: seq<nat>)
    ensures Within(Keep(rows, keep), rows, places)
    ensures forall i :: 0 <= i < |rows| && keep(rows[i]) ==> i in places
  {
    places := [];
    for n := 0 to |rows|
      invariant Within(Keep(rows[..n], keep), rows, places)
      invariant forall i :: 0 <= i < |places| ==> places[i] < n
      invariant forall i :: 0 <= i < n && keep(rows[i]) ==> i in places
    {
      assert rows[..n + 1] == rows[..n] + [rows[n]];
      KeepSnoc(rows[..n], rows[n], keep);
      if keep(rows[n]) {
        places := places + [n];
      }
    }
    assert rows[..|rows|] == rows;
  }

  lemma WithinIsOrdered(few: seq<Row>, all: seq<Row>, places: seq<nat>, end: int)
    requires Within(few, all, places)
    ensures Ordered(all, end) ==> Ordered(few, end)
    ensures OneRowPerKey(all) ==> OneRowPerKey(few)
  {
  }

  lemma KeepStaysOrdered(rows: seq<Row>, keep: Row -> bool, end: int)
    requires Ordered(rows, end) && OneRowPerKey(rows)
    ensures Ordered(Keep(rows, keep), end) && OneRowPerKey(Keep(rows, keep))
  {
    var places := KeptPlaces(rows, keep);
    WithinIsOrdered(Keep(rows, keep), rows, places, end);
  }

  lemma LastStaysOrdered(rows: seq<Row>, n: nat, end: int)
    requires Ordered(rows, end) && OneRowPerKey(rows)
    ensures Ordered(Last(rows, n), end) && OneRowPerKey(Last(rows, n))
  {
  }

  lemma PrunedStaysOrdered(rows: seq<Row>, now: int, end: int)
    requires Ordered(rows, end) && OneRowPerKey(rows)
    ensures Ordered(Pruned(rows, now), end) && OneRowPerKey(Pruned(rows, now))
  {
    KeepStaysOrdered(rows, NotLongSent(now), end);
    KeepStaysOrdered(Keep(rows, NotLongSent(now)), NotLongDead(now), end);
    LastStaysOrdered(Keep(Keep(rows, NotLongSent(now)), NotLongDead(now)), MAX_ROWS, end);
  }

  function AmongIds(ids: seq<int>): Row -> bool {
    (r: Row) => r.id in ids
  }

  /** `id NOT IN (SELECT id … ORDER BY id DESC LIMIT n)` spares the newest rows. */
  lemma SparingTheNewest(rows: seq<Row>, n: nat, end: int)
    requires Ordered(rows, end)
    ensures Keep(rows, AmongIds(Ids(Last(rows, n)))) == Last(rows, n)
  {
    var newest := Last(rows, n);
    var d := |rows| - |newest|;
    forall i | 0 <= i < |rows| ensures AmongIds(Ids(newest))(rows[i]) <==> d <= i {
      if d <= i {
        assert Ids(newest)[i - d] == rows[i].id;
      } else {
        assert forall j :: 0 <= j < |newest| ==> Ids(newest)[j] == rows[d + j].id;
      }
    }
    KeepSuffix(rows, AmongIds(Ids(newest)), d);
    assert rows[d..] == newest;
  }

  // ---- the table -----------------------------------------------------------------------------

  class OutboxTable {
    var rows: seq<Row>
    var nextId: int

    ghost predicate Valid()
      reads this
    {
      Ordered(rows, nextId) && OneRowPerKey(rows)
    }

    constructor ()
      ensures Valid() && rows == []
    {
      rows, nextId := [], 1;
    }

    method Enqueue(key: string, body: string, now: int)
      requires Valid()
      modifies this
      ensures Valid() && rows == Enqueued(old(rows), old(nextId), key, body, now) && old(nextId) <= nextId
      ensures (forall i :: 0 <= i < |old(rows)| ==> old(rows[i].key) != key) ==>
                rows == old(rows) + [Row(old(nextId), key, body, 0, now, None)] && Pending(rows[|rows| - 1])
      ensures (exists i :: 0 <= i < |old(rows)| && old(rows[i].key) == key) ==> rows == old(rows)
    {
      if !HasKey(rows, key) {
        rows, nextId := rows + [Row(nextId, key, body, 0, now, None)], nextId + 1;
      }
    }

    method ReadPending(limit: nat) returns (pending: seq<Row>)
      ensures pending == PendingRows(rows, limit)
    {
      var all := DeleteUnless(rows, IsPending());
      return First(all, limit);
    }

    method MarkSent(id: int, now: int, later: int)
      requires Valid()
      modifies this`rows
      ensures Valid() && rows == Pruned(Sent(old(rows), id, now), later)
    {
      rows := Sent(rows, id, now);
      Prune(later);
    }

    method MarkAttempt(id: int, later: int)
      requires Valid()
      modifies this`rows
      ensures Valid() && rows == Pruned(Attempted(old(rows), id), later)
    {
      rows := Attempted(rows, id);
      Prune(later);
    }

    method Prune(now: int)
      requires Valid()
      modifies this`rows
      ensures Valid() && rows == Pruned(old(rows), now)
    {
      KeepStaysOrdered(rows, NotLongSent(now), nextId);
      rows := DeleteUnless(rows, NotLongSent(now));
      KeepStaysOrdered(rows, NotLongDead(now), nextId);
      rows := DeleteUnless(rows, NotLongDead(now));
      SparingTheNewest(rows, MAX_ROWS, nextId);
      LastStaysOrdered(rows, MAX_ROWS, nextId);
      rows := DeleteUnless(rows, AmongIds(Ids(Last(rows, MAX_ROWS))));
    }
  }

  /**
   After pruning, a row is there exactly if it was there, was not sent more than a day ago, was not given up
   with ten attempts made and more than thirty days old, and fewer than ten thousand such rows are newer.
   */
  lemma PruningSpelledOut(rows: seq<Row>, end: int, now: int, row: Row)
    requires Ordered(rows, end)
    ensures row in Pruned(rows, now) ==>
              && row in rows && !(row.sentAt.Some? && row.sentAt.value < now - 86_400)
              && !(row.sentAt.None? && row.attempts >= 10 && row.createdAt < now - 2_592_000)
    ensures && row in rows && !(row.sentAt.Some? && row.sentAt.value < now - 86_400)
            && !(row.sentAt.None? && row.attempts >= 10 && row.createdAt < now - 2_592_000)
            && row !in Pruned(rows, now) ==>
              |Pruned(rows, now)| == 10_000 && forall i :: 0 <= i < 10_000 ==> row.id < Pruned(rows, now)[i].id
    ensures |Pruned(rows, now)| <= 10_000
  {
    var once := Keep(rows, NotLongSent(now));
    var kept := Keep(once, NotLongDead(now));
    KeptRows(rows, NotLongSent(now));
    KeptRows(once, NotLongDead(now));
    assert row in kept <==> row in rows && NotLongSent(now)(row) && NotLongDead(now)(row);
    KeptAscend(rows, end, now);
    if row in kept && row !in Pruned(rows, now) {
      var k :| 0 <= k < |kept| && kept[k] == row;
      forall i | 0 <= i < 10_000 ensures row.id < Pruned(rows, now)[i].id {
        assert Pruned(rows, now)[i] == kept[|kept| - 10_000 + i];
        assert kept[|kept| - 10_000 + i] in Pruned(rows, now);
      }
    }
  }

  lemma KeptAscend(rows: seq<Row>, end: int, now: int)
    requires Ordered(rows, end)
    ensures Ordered(Keep(Keep(rows, NotLongSent(now)), NotLongDead(now)), end)
  {
    var once := Keep(rows, NotLongSent(now));
    var places := KeptPlaces(rows, NotLongSent(now));
    WithinIsOrdered(once, rows, places, end);
    places := KeptPlaces(once, NotLongDead(now));
    WithinIsOrdered(Keep(once, NotLongDead(now)), once, places, end);
  }

  // ---- what a batch holds ----------------------------------------------------------------------

  /** The places of the rows before the `i`-th that wait for delivery. */
  function WaitingBefore(rows: seq<Row>, i: nat): set<nat> {
    set j: nat | j < i && j < |rows| && rows[j].sentAt.None? && rows[j].attempts < 10
  }

  lemma WaitingSnoc(rows: seq<Row>)
    requires rows != []
    ensures var n := |rows| - 1;
            && (forall i :: 0 <= i <= n ==> WaitingBefore(rows, i) == WaitingBefore(rows[..n], i))
            && |WaitingBefore(rows, n + 1)| == |WaitingBefore(rows[..n], n)| + if rows[n].sentAt.None? && rows[n].attempts < 10 then 1 else 0
  {
    var n := |rows| - 1;
    assert WaitingBefore(rows, n) == WaitingBefore(rows[..n], n);
    if rows[n].sentAt.None? && rows[n].attempts < 10 {
      assert WaitingBefore(rows, n + 1) == WaitingBefore(rows, n) + {n};
    } else {
      assert WaitingBefore(rows, n + 1) == WaitingBefore(rows, n);
    }
  }

  lemma {:induction false} WaitingAreCounted(rows: seq<Row>)
    ensures |Keep(rows, IsPending())| == |WaitingBefore(rows, |rows|)|
  {
    if rows != [] {
      WaitingAreCounted(rows[..|rows| - 1]);
      WaitingSnoc(rows);
    }
  }

  lemma FirstWithOneMore(rows: seq<Row>, last: Row, n: nat, row: Row)
    requires last !in rows
    ensures row in First(rows + [last], n) <==> row in First(rows, n) || (row == last && |rows| < n)
  {
    if |rows| < n {
      assert First(rows + [last], n) == rows + [last];
    } else {
      assert First(rows + [last], n) == First(rows, n);
    }
  }

  /** A batch holds a row exactly if it was not sent, has attempts left out of ten, and fewer than the limit of such rows are older. */
  lemma {:induction false} BatchesSpelledOut(rows: seq<Row>, end: int, limit: nat, i: nat)
    requires Ordered(rows, end) && i < |rows|
    ensures rows[i] in PendingRows(rows, limit) <==>
              rows[i].sentAt.None? && rows[i].attempts < 10 && |WaitingBefore(rows, i)| < limit
  {
    var n := |rows| - 1;
    var few, last := rows[..n], rows[n];
    var pending := Keep(few, IsPending());
    KeptRows(few, IsPending());
    WaitingSnoc(rows);
    WaitingAreCounted(few);
    assert last !in few;
    FirstWithOneMore(pending, last, limit, rows[i]);
    assert Keep(rows, IsPending()) == if Pending(last) then pending + [last] else pending by {
      assert pending + [] == pending;
    }
    if i < n {
      assert few[i] == rows[i] && rows[i] != last;
      BatchesSpelledOut(few, end, limit, i);
    }
  }
}
