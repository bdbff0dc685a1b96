/**
 Runs of the outbox: one flusher delivering batches while rows are being added, and why the queue
 empties once no more are.
 */
module OutboxDelivery {
  import opened Wrappers
  import opened Tables
  import opened Outbox

  /** The table and the ids that the flusher has read and not yet dealt with. */
  datatype System = System(rows: seq<Row>, nextId: int, batch: seq<int>)

  /** How a delivery ends: recorded as sent, recorded as failed, or not recorded because the store failed. */
  datatype Record = AsSent(now: int) | AsFailed | Unrecorded

  datatype Action = Enqueue(key: string, body: string, now: int) | Read | Deliver(record: Record) | Prune(now: int)

  function Recorded(rows: seq<Row>, id: int, record: Record): seq<Row> {
    match record
    case AsSent(now) => Sent(rows, id, now)
    case AsFailed => Attempted(rows, id)
    case Unrecorded => rows
  }

  /** Marking and pruning are transactions of their own, so rows may be added in between. */
  function Act(s: System, action: Action): System {
    match action
    case Enqueue(key, body, now) =>
      s.(rows := Enqueued(s.rows, s.nextId, key, body, now), nextId := s.nextId + 1)
    case Read => if s.batch == [] then s.(batch := Ids(PendingRows(s.rows, BATCH))) else s
    case Deliver(record) => if s.batch == [] then s else s.(rows := Recorded(s.rows, s.batch[0], record), batch := s.batch[1..])
    case Prune(now) => s.(rows := Pruned(s.rows, now))
  }

  predicate AttemptsCapped(rows: seq<Row>) {
    forall i :: 0 <= i < |rows| ==> rows[i].attempts <= MAX_ATTEMPTS
  }

  /** What is still in the batch has not been delivered or given up. */
  predicate BatchIsPending(rows: seq<Row>, batch: seq<int>) {
    && (forall i, j :: 0 <= i < j < |batch| ==> batch[i] != batch[j])
    && (forall i :: 0 <= i < |rows| && rows[i].id in batch ==> Pending(rows[i]))
  }

  predicate BatchIsOld(batch: seq<int>, nextId: int) {
    forall i :: 0 <= i < |batch| ==> batch[i] < nextId
  }

  predicate Invariant(s: System) {
    && Ordered(s.rows, s.nextId) && OneRowPerKey(s.rows) && AttemptsCapped(s.rows)
    && BatchIsPending(s.rows, s.batch) && BatchIsOld(s.batch, s.nextId)
  }

  lemma PrunedRows(rows: seq<Row>, now: int)
    ensures forall i :: 0 <= i < |Pruned(rows, now)| ==> Pruned(rows, now)[i] in rows
  {
    var once := Keep(rows, NotLongSent(now));
    var kept := Keep(once, NotLongDead(now));
    KeptRows(rows, NotLongSent(now));
    KeptRows(once, NotLongDead(now));
    forall i | 0 <= i < |Last(kept, MAX_ROWS)| ensures Last(kept, MAX_ROWS)[i] in rows {
      assert Last(kept, MAX_ROWS)[i] in kept;
    }
  }

  lemma PruneKeeps(s: System, now: int)
    requires Invariant(s)
    ensures Invariant(Act(s, Prune(now)))
  {
    PrunedStaysOrdered(s.rows, now, s.nextId);
    PrunedRows(s.rows, now);
  }

  lemma DeliverKeeps(s: System, record: Record)
    requires Invariant(s)
    ensures Invariant(Act(s, Deliver(record)))
  {
    if s.batch != [] {
      var id, rows := s.batch[0], Recorded(s.rows, s.batch[0], record);
      assert id !in s.batch[1..];
      forall i | 0 <= i < |rows| ensures rows[i].attempts <= MAX_ATTEMPTS && (rows[i].id in s.batch[1..] ==> Pending(rows[i])) {
        assert rows[i].id == s.rows[i].id;
      }
    }
  }

  lemma ReadKeeps(s: System)
    requires Invariant(s)
    ensures Invariant(Act(s, Read))
  {
    if s.batch == [] {
      var pending := Keep(s.rows, IsPending());
      var batch := First(pending, BATCH);
      KeepStaysOrdered(s.rows, IsPending(), s.nextId);
      KeptRows(s.rows, IsPending());
      forall i | 0 <= i < |s.rows| && s.rows[i].id in Ids(batch) ensures Pending(s.rows[i]) {
        var j :| 0 <= j < |batch| && batch[j].id == s.rows[i].id;
        assert batch[j] in pending;
        SameId(s.rows, s.nextId, s.rows[i], batch[j]);
      }
    }
  }

  lemma SameId(rows: seq<Row>, end: int, a: Row, b: Row)
    requires Ordered(rows, end) && a in rows && b in rows && a.id == b.id
    ensures a == b
  {
    var i :| 0 <= i < |rows| && rows[i] == a;
    var j :| 0 <= j < |rows| && rows[j] == b;
  }

  lemma EnqueueKeeps(s: System, key: string, body: string, now: int)
    requires Invariant(s)
    ensures Invariant(Act(s, Enqueue(key, body, now)))
  {
  }

  lemma ActKeeps(s: System, action: Action)
    requires Invariant(s)
    ensures Invariant(Act(s, action))
  {
    match action
    case Enqueue(key, body, now) => EnqueueKeeps(s, key, body, now);
    case Read => ReadKeeps(s);
    case Deliver(record) => DeliverKeeps(s, record);
    case Prune(now) => PruneKeeps(s, now);
  }

  function Run(s: System, actions: seq<Action>): System {
    if actions == [] then s else Act(Run(s, actions[..|actions| - 1]), actions[|actions| - 1])
  }

  /** In every run: one row per dedupe key at a time, and never more than ten attempts. */
  lemma {:induction false} RunsKeepInvariant(actions: seq<Action>)
    ensures var s := Run(System([], 1, []), actions);
            Invariant(s) && OneRowPerKey(s.rows) && AttemptsCapped(s.rows)
  {
    if actions != [] {
      RunsKeepInvariant(actions[..|actions| - 1]);
      ActKeeps(Run(System([], 1, []), actions[..|actions| - 1]), actions[|actions| - 1]);
    }
  }

  // ---- conservation --------------------------------------------------------------------------

  /** The row is still there, with its key and its content, whatever became of it. */
  predicate Survives(row: Row, rows: seq<Row>) {
    exists i :: 0 <= i < |rows| && rows[i].id == row.id && rows[i].key == row.key && rows[i].body == row.body && rows[i].createdAt == row.createdAt
  }

  /** The table is full of newer rows. */
  predicate CrowdedOut(row: Row, rows: seq<Row>) {
    |rows| == MAX_ROWS && forall i :: 0 <= i < |rows| ==> row.id < rows[i].id
  }

  /** A row goes only by pruning: long sent, long dead, or crowded out; so one still to be delivered goes only crowded out. */
  lemma RowsAreConserved(s: System, action: Action, i: nat)
    requires Invariant(s) && i < |s.rows|
    ensures var row, after := s.rows[i], Act(s, action).rows;
            Survives(row, after) || (action.Prune? && (LongSent(row, action.now) || LongDead(row, action.now) || CrowdedOut(row, after)))
    ensures var row, after := s.rows[i], Act(s, action).rows;
            Pending(row) ==> Survives(row, after) || CrowdedOut(row, after)
  {
    var row, after := s.rows[i], Act(s, action).rows;
    if action.Prune? {
      if !LongSent(row, action.now) && !LongDead(row, action.now) {
        PruningConserves(s.rows, s.nextId, i, action.now);
      }
    } else {
      assert after[i].id == row.id;
    }
  }

  lemma PruningConserves(rows: seq<Row>, end: int, i: nat, now: int)
    requires Ordered(rows, end) && OneRowPerKey(rows) && i < |rows| && !LongSent(rows[i], now) && !LongDead(rows[i], now)
    ensures Survives(rows[i], Pruned(rows, now)) || CrowdedOut(rows[i], Pruned(rows, now))
  {
    var row := rows[i];
    var once := Keep(rows, NotLongSent(now));
    var kept := Keep(once, NotLongDead(now));
    KeptRows(rows, NotLongSent(now));
    KeptRows(once, NotLongDead(now));
    assert NotLongSent(now)(row) && row in once && NotLongDead(now)(row);
    KeepStaysOrdered(rows, NotLongSent(now), end);
    KeepStaysOrdered(once, NotLongDead(now), end);
    var k :| 0 <= k < |kept| && kept[k] == row;
    NewestOrCrowdedOut(kept, end, k);
  }

  lemma NewestOrCrowdedOut(rows: seq<Row>, end: int, k: nat)
    requires Ordered(rows, end) && k < |rows|
    ensures Survives(rows[k], Last(rows, MAX_ROWS)) || CrowdedOut(rows[k], Last(rows, MAX_ROWS))
  {
    var newest := Last(rows, MAX_ROWS);
    var d := |rows| - |newest|;
    if d <= k {
      assert newest[k - d] == rows[k];
    } else {
      assert forall j :: 0 <= j < |newest| ==> newest[j] == rows[d + j];
    }
  }

  // ---- progress ------------------------------------------------------------------------------

  function Remaining(row: Row): nat {
    if Pending(row) then MAX_ATTEMPTS - row.attempts else 0
  }

  /** The attempts left over all rows: what delivery uses up. */
  function Work(rows: seq<Row>): nat {
    if rows == [] then 0 else Work(rows[..|rows| - 1]) + Remaining(rows[|rows| - 1])
  }

  lemma WorkSnoc(rows: seq<Row>, last: Row)
    ensures Work(rows + [last]) == Work(rows) + Remaining(last)
  {
    assert (rows + [last])[..|rows|] == rows;
  }

  lemma {:induction false} WorkOfKept(rows: seq<Row>, keep: Row -> bool)
    ensures Work(Keep(rows, keep)) <= Work(rows)
  {
    if rows != [] {
      var n := |rows| - 1;
      WorkOfKept(rows[..n], keep);
      if keep(rows[n]) {
        WorkSnoc(Keep(rows[..n], keep), rows[n]);
      } else {
        assert Keep(rows[..n], keep) + [] == Keep(rows[..n], keep);
      }
    }
  }

  lemma {:induction false} WorkOfLast(rows: seq<Row>, d: nat)
    requires d <= |rows|
    ensures Work(rows[d..]) <= Work(rows)
  {
    if d < |rows| {
      var n := |rows| - 1;
      WorkOfLast(rows[..n], d);
      assert rows[d..] == rows[..n][d..] + [rows[n]];
      WorkSnoc(rows[..n][d..], rows[n]);
    }
  }

  lemma WorkOfPruned(rows: seq<Row>, now: int)
    ensures Work(Pruned(rows, now)) <= Work(rows)
  {
    var once := Keep(rows, NotLongSent(now));
    var kept := Keep(once, NotLongDead(now));
    WorkOfKept(rows, NotLongSent(now));
    WorkOfKept(once, NotLongDead(now));
    WorkOfLast(kept, if |kept| <= MAX_ROWS then 0 else |kept| - MAX_ROWS);
    assert kept[0..] == kept;
  }

  /** Row by row no more work, and strictly less for one row at least if there is such a row. */
  lemma {:induction false} WorkOfChanged(before: seq<Row>, after: seq<Row>, k: nat)
    requires |before| == |after| && forall i :: 0 <= i < |before| ==> Remaining(after[i]) <= Remaining(before[i])
    ensures Work(after) <= Work(before)
    ensures k < |before| && Remaining(after[k]) < Remaining(before[k]) ==> Work(after) < Work(before)
  {
    if before != [] {
      WorkOfChanged(before[..|before| - 1], after[..|after| - 1], k);
    }
  }

  /** One delivery, recorded and followed by its pruning. */
  function Delivered(rows: seq<Row>, id: int, ok: bool, sentAt: int, now: int): seq<Row> {
    Pruned(if ok then Sent(rows, id, sentAt) else Attempted(rows, id), now)
  }

  lemma DeliveryUsesWork(rows: seq<Row>, id: int, ok: bool, sentAt: int, now: int, k: nat)
    ensures Work(Delivered(rows, id, ok, sentAt, now)) <= Work(rows)
    ensures k < |rows| && rows[k].id == id && Pending(rows[k]) ==> Work(Delivered(rows, id, ok, sentAt, now)) < Work(rows)
  {
    var marked := if ok then Sent(rows, id, sentAt) else Attempted(rows, id);
    WorkOfChanged(rows, marked, k);
    WorkOfPruned(marked, now);
  }

  /** Which deliveries succeed, and the times the store reads for the mark and for the pruning of each. */
  datatype Pattern = Pattern(ok: nat -> bool, sentAt: nat -> int, now: nat -> int)

  /** `n` numbered steps. */
  function Repeat<S>(step: (S, nat) -> S, s: S, n: nat): S {
    if n == 0 then s else step(Repeat(step, s, n - 1), n - 1)
  }

  /** Steps that never add work have done some if the first one did. */
  lemma {:induction false} RepeatedWork<S(!new)>(step: (S, nat) -> S, work: S -> nat, s: S, n: nat)
    requires forall x: S, i: nat :: work(step(x, i)) <= work(x)
    ensures work(Repeat(step, s, n)) <= work(s)
    ensures 0 < n && work(step(s, 0)) < work(s) ==> work(Repeat(step, s, n)) < work(s)
  {
    if n > 0 {
      RepeatedWork(step, work, s, n - 1);
    }
  }

  /** Steps that use up work wherever there is any leave none in the end. */
  lemma {:induction false} RepetitionSettles<S(!new)>(step: (S, nat) -> S, work: S -> nat, s: S, n: nat)
    requires forall x: S, i: nat :: work(step(x, i)) == 0 || work(step(x, i)) < work(x)
    ensures work(Repeat(step, s, n)) == 0 || work(Repeat(step, s, n)) + n <= work(s)
  {
    if n > 0 {
      RepetitionSettles(step, work, s, n - 1);
    }
  }

  /** The delivery of the `i`-th row of a batch; `k` counts the deliveries before it. */
  function Delivery(ids: seq<int>, pattern: Pattern, k: nat): (seq<Row>, nat) -> seq<Row> {
    (rows: seq<Row>, i: nat) =>
      if i < |ids| then Delivered(rows, ids[i], pattern.ok(k + i), pattern.sentAt(k + i), pattern.now(k + i)) else rows
  }

  /** A batch delivered row by row. */
  function Batch(rows: seq<Row>, ids: seq<int>, pattern: Pattern, k: nat): seq<Row> {
    Repeat(Delivery(ids, pattern, k), rows, |ids|)
  }

  function WorkOf(): seq<Row> -> nat {
    (rows: seq<Row>) => Work(rows)
  }

  lemma DeliveryWork(ids: seq<int>, pattern: Pattern, k: nat, rows: seq<Row>, i: nat, j: nat)
    ensures WorkOf()(Delivery(ids, pattern, k)(rows, i)) <= WorkOf()(rows)
    ensures i < |ids| && j < |rows| && rows[j].id == ids[i] && Pending(rows[j]) ==>
              WorkOf()(Delivery(ids, pattern, k)(rows, i)) < WorkOf()(rows)
  {
    if i < |ids| {
      DeliveryUsesWork(rows, ids[i], pattern.ok(k + i), pattern.sentAt(k + i), pattern.now(k + i), j);
    }
  }

  /** A batch adds no work, and uses some up if its first row is pending. */
  lemma BatchUsesWork(rows: seq<Row>, ids: seq<int>, pattern: Pattern, k: nat, j: nat)
    ensures Work(Batch(rows, ids, pattern, k)) <= Work(rows)
    ensures ids != [] && j < |rows| && rows[j].id == ids[0] && Pending(rows[j]) ==> Work(Batch(rows, ids, pattern, k)) < Work(rows)
  {
    var deliver := Delivery(ids, pattern, k);
    forall x: seq<Row>, i: nat ensures WorkOf()(deliver(x, i)) <= WorkOf()(x) {
      DeliveryWork(ids, pattern, k, x, i, 0);
    }
    RepeatedWork(deliver, WorkOf(), rows, |ids|);
    DeliveryWork(ids, pattern, k, rows, 0, j);
  }

  /** The rows after a round, and the deliveries so far. */
  datatype Turn = Turn(rows: seq<Row>, k: nat)

  function Round(pattern: Pattern): (Turn, nat) -> Turn {
    (turn: Turn, _: nat) =>
      var ids := Ids(PendingRows(turn.rows, BATCH));
      Turn(Batch(turn.rows, ids, pattern, turn.k), turn.k + |ids|)
  }

  /** `n` rounds of the flusher's loop, with no rows added. */
  function Rounds(rows: seq<Row>, pattern: Pattern, k: nat, n: nat): seq<Row> {
    Repeat(Round(pattern), Turn(rows, k), n).rows
  }

  /** A round that has anything to deliver uses up work. */
  lemma RoundUsesWork(rows: seq<Row>, pattern: Pattern, k: nat)
    requires Keep(rows, IsPending()) != []
    ensures Work(Batch(rows, Ids(PendingRows(rows, BATCH)), pattern, k)) < Work(rows)
  {
    var pending := PendingRows(rows, BATCH);
    var first, ids := pending[0], Ids(pending);
    KeptRows(rows, IsPending());
    assert first in Keep(rows, IsPending());
    assert IsPending()(first);
    var i :| 0 <= i < |rows| && rows[i] == first;
    BatchUsesWork(rows, ids, pattern, k, i);
  }

  lemma {:induction false} NoWorkNothingPending(rows: seq<Row>)
    requires Work(rows) == 0
    ensures Keep(rows, IsPending()) == []
  {
    if rows != [] {
      NoWorkNothingPending(rows[..|rows| - 1]);
    }
  }

  lemma {:induction false} NothingPendingNoWork(rows: seq<Row>)
    requires Keep(rows, IsPending()) == []
    ensures Work(rows) == 0
  {
    if rows != [] {
      NothingPendingNoWork(rows[..|rows| - 1]);
    }
  }

  function WorkLeft(): Turn -> nat {
    (turn: Turn) => Work(turn.rows)
  }

  lemma RoundSettles(pattern: Pattern, turn: Turn, i: nat)
    ensures WorkLeft()(Round(pattern)(turn, i)) == 0 || WorkLeft()(Round(pattern)(turn, i)) < WorkLeft()(turn)
  {
    if Keep(turn.rows, IsPending()) == [] {
      NothingPendingNoWork(turn.rows);
      BatchUsesWork(turn.rows, Ids(PendingRows(turn.rows, BATCH)), pattern, turn.k, 0);
    } else {
      RoundUsesWork(turn.rows, pattern, turn.k);
    }
  }

  /** With no rows added the queue empties, whatever succeeds and whatever fails, in at most as many rounds as there is work. */
  lemma QueueDrains(rows: seq<Row>, pattern: Pattern, k: nat, n: nat)
    requires Work(rows) <= n
    ensures Keep(Rounds(rows, pattern, k, n), IsPending()) == []
  {
    forall turn: Turn, i: nat
      ensures WorkLeft()(Round(pattern)(turn, i)) == 0 || WorkLeft()(Round(pattern)(turn, i)) < WorkLeft()(turn)
    {
      RoundSettles(pattern, turn, i);
    }
    RepetitionSettles(Round(pattern), WorkLeft(), Turn(rows, k), n);
    NoWorkNothingPending(Rounds(rows, pattern, k, n));
  }

  method RecordDelivery(table: OutboxTable, id: int, ok: bool, sentAt: int, now: int)
    requires table.Valid()
    modifies table
    ensures table.Valid() && table.rows == Delivered(old(table.rows), id, ok, sentAt, now)
  {
    if ok {
      table.MarkSent(id, sentAt, now);
    } else {
      table.MarkAttempt(id, now);
    }
  }

  lemma NextDelivery(rows: seq<Row>, ids: seq<int>, pattern: Pattern, k: nat, i: nat, before: seq<Row>)
    requires i < |ids| && before == Repeat(Delivery(ids, pattern, k), rows, i)
    ensures Repeat(Delivery(ids, pattern, k), rows, i + 1)
         == Delivered(before, ids[i], pattern.ok(k + i), pattern.sentAt(k + i), pattern.now(k + i))
  {
  }

  /** The rows of a batch, delivered in order. */
  method DeliverBatch(table: OutboxTable, batch: seq<Row>, pattern: Pattern, k: nat)
    requires table.Valid()
    modifies table
    ensures table.Valid() && table.rows == Batch(old(table.rows), Ids(batch), pattern, k)
  {
    ghost var rows, ids := table.rows, Ids(batch);
    for i := 0 to |batch|
      invariant table.Valid() && table.rows == Repeat(Delivery(ids, pattern, k), rows, i)
    {
      NextDelivery(rows, ids, pattern, k, i, table.rows);
      RecordDelivery(table, batch[i].id, pattern.ok(k + i), pattern.sentAt(k + i), pattern.now(k + i));
    }
  }

  /** One round of the loop in `spawn_outbox_flusher`. */
  method FlushOnce(table: OutboxTable, pattern: Pattern, k: nat) returns (deliveries: nat)
    requires table.Valid()
    modifies table
    ensures table.Valid() && deliveries == k + |PendingRows(old(table.rows), BATCH)|
    ensures table.rows == Batch(old(table.rows), Ids(PendingRows(old(table.rows), BATCH)), pattern, k)
  {
    var batch := table.ReadPending(BATCH);
    DeliverBatch(table, batch, pattern, k);
    deliveries := k + |batch|;
  }

  // ---- the history of a row ------------------------------------------------------------------

  /** The delivery about to be recorded is of this row. */
  predicate Delivers(s: System, action: Action, id: int) {
    action.Deliver? && s.batch != [] && s.batch[0] == id
  }

  /** The failed deliveries of a row that a run records. */
  function Failures(s: System, actions: seq<Action>, id: int): nat {
    if actions == [] then 0
    else
      var before, action := actions[..|actions| - 1], actions[|actions| - 1];
      Failures(s, before, id) + if Delivers(Run(s, before), action, id) && action.record == AsFailed then 1 else 0
  }

  /** The times at which a run records that the row was sent. */
  function SentTimes(s: System, actions: seq<Action>, id: int): seq<int> {
    if actions == [] then []
    else
      var before, action := actions[..|actions| - 1], actions[|actions| - 1];
      SentTimes(s, before, id) + if Delivers(Run(s, before), action, id) && action.record.AsSent? then [action.record.now] else []
  }

  /** A row tells its history: its attempts are its failures, and it is marked with the one time it was sent, if it was. */
  predicate TellsItsHistory(row: Row, failures: nat, sentTimes: seq<int>) {
    row.attempts == failures && sentTimes == if row.sentAt.Some? then [row.sentAt.value] else []
  }

  /** One action on one row. */
  lemma RowAfter(s: System, action: Action, row: Row)
    requires Invariant(s) && row in Act(s, action).rows
    ensures row in s.rows || row.id == s.nextId || (row.id < s.nextId && Delivers(s, action, row.id))
    ensures row.id == s.nextId ==> row.attempts == 0 && row.sentAt.None? && !Delivers(s, action, row.id)
    ensures Delivers(s, action, row.id) ==>
              exists was :: was in s.rows && was.id == row.id && was.sentAt.None? && was.attempts < 10
                            && row == match action.record
                                      case AsSent(now) => was.(sentAt := Some(now))
                                      case AsFailed => was.(attempts := was.attempts + 1)
                                      case Unrecorded => was
  {
    match action
    case Enqueue(key, body, now) =>
    case Read =>
    case Deliver(record) =>
      var i :| 0 <= i < |Act(s, action).rows| && Act(s, action).rows[i] == row;
      assert s.rows[i].id == row.id;
      assert s.rows[i] in s.rows;
    case Prune(now) => PrunedRows(s.rows, now);
  }

  /** Ids not yet given out have no history. */
  lemma {:induction false} NewIdsHaveNoHistory(actions: seq<Action>, id: int)
    requires Run(System([], 1, []), actions).nextId <= id
    ensures Failures(System([], 1, []), actions, id) == 0 && SentTimes(System([], 1, []), actions, id) == []
  {
    if actions != [] {
      var before := actions[..|actions| - 1];
      RunsKeepInvariant(before);
      NewIdsHaveNoHistory(before, id);
    }
  }

  /**
   In every run a row's attempts are the failed deliveries recorded for it, and it was recorded as
   sent at most once: at the time it is marked with, or never if it has no mark.
   */
  lemma {:induction false} RowsTellTheirHistory(actions: seq<Action>, row: Row)
    requires row in Run(System([], 1, []), actions).rows
    ensures TellsItsHistory(row, Failures(System([], 1, []), actions, row.id), SentTimes(System([], 1, []), actions, row.id))
  {
    var start := System([], 1, []);
    if actions != [] {
      var before, action := actions[..|actions| - 1], actions[|actions| - 1];
      var s := Run(start, before);
      RunsKeepInvariant(before);
      RowAfter(s, action, row);
      if row.id == s.nextId {
        NewIdsHaveNoHistory(before, row.id);
      } else if Delivers(s, action, row.id) {
        var was :| was in s.rows && was.id == row.id && was.sentAt.None? && was.attempts < 10
                   && row == match action.record
                             case AsSent(now) => was.(sentAt := Some(now))
                             case AsFailed => was.(attempts := was.attempts + 1)
                             case Unrecorded => was;
        RowsTellTheirHistory(before, was);
      } else {
        RowsTellTheirHistory(before, row);
      }
    }
  }

  // ---- what delivering does to the rows that stay ---------------------------------------------

  /** What one delivery makes of a row. */
  predicate Follows(before: Row, after: Row, id: int, ok: bool, sentAt: int) {
    if before.id != id then after == before
    else if ok then after == before.(sentAt := Some(sentAt))
    else after == before.(attempts := before.attempts + 1)
  }

  /** Every row left by a delivery is as it was, but for the one that was delivered. */
  lemma DeliveredRows(rows: seq<Row>, id: int, ok: bool, sentAt: int, now: int, row: Row)
    requires row in Delivered(rows, id, ok, sentAt, now)
    ensures exists i :: 0 <= i < |rows| && Follows(rows[i], row, id, ok, sentAt)
  {
    var marked := if ok then Sent(rows, id, sentAt) else Attempted(rows, id);
    PrunedRows(marked, now);
    var j :| 0 <= j < |Pruned(marked, now)| && Pruned(marked, now)[j] == row;
    var i :| 0 <= i < |marked| && marked[i] == row;
    assert Follows(rows[i], row, id, ok, sentAt);
  }

  /** What successful deliveries never change: they come from rows that had as few attempts. */
  ghost predicate FewAttempts(rows: seq<Row>) {
    forall row :: row in rows ==> row.attempts < 10
  }

  lemma {:induction false} RepeatKeeps<S(!new)>(step: (S, nat) -> S, good: S -> bool, s: S, n: nat)
    requires good(s) && forall x: S, i: nat :: good(x) ==> good(step(x, i))
    ensures good(Repeat(step, s, n))
  {
    if n > 0 {
      RepeatKeeps(step, good, s, n - 1);
    }
  }

  lemma SuccessKeepsAttempts(ids: seq<int>, pattern: Pattern, k: nat, rows: seq<Row>, i: nat)
    requires FewAttempts(rows) && forall j: nat :: pattern.ok(j)
    ensures FewAttempts(Delivery(ids, pattern, k)(rows, i))
  {
    if i < |ids| {
      forall row | row in Delivery(ids, pattern, k)(rows, i) ensures row.attempts < 10 {
        DeliveredRows(rows, ids[i], pattern.ok(k + i), pattern.sentAt(k + i), pattern.now(k + i), row);
      }
    }
  }

  lemma BatchOfSuccesses(rows: seq<Row>, ids: seq<int>, pattern: Pattern, k: nat)
    requires FewAttempts(rows) && forall i: nat :: pattern.ok(i)
    ensures FewAttempts(Batch(rows, ids, pattern, k))
  {
    var deliver := Delivery(ids, pattern, k);
    forall x: seq<Row>, i: nat | FewAttempts(x) ensures FewAttempts(deliver(x, i)) {
      SuccessKeepsAttempts(ids, pattern, k, x, i);
    }
    RepeatKeeps(deliver, x => FewAttempts(x), rows, |ids|);
  }

  /** Where every delivery succeeds and no row was given up before, every row that is left in the end was sent. */
  lemma SuccessesEmptyTheQueue(rows: seq<Row>, pattern: Pattern, k: nat, n: nat)
    requires FewAttempts(rows) && Work(rows) <= n && forall i: nat :: pattern.ok(i)
    ensures forall row :: row in Rounds(rows, pattern, k, n) ==> row.sentAt.Some? && row.attempts < 10
  {
    forall turn: Turn, i: nat | FewAttempts(turn.rows) ensures FewAttempts(Round(pattern)(turn, i).rows) {
      BatchOfSuccesses(turn.rows, Ids(PendingRows(turn.rows, BATCH)), pattern, turn.k);
    }
    RepeatKeeps(Round(pattern), (turn: Turn) => FewAttempts(turn.rows), Turn(rows, k), n);
    QueueDrains(rows, pattern, k, n);
    KeptRows(Rounds(rows, pattern, k, n), IsPending());
    forall row | row in Rounds(rows, pattern, k, n) ensures row.sentAt.Some? {
      assert !IsPending()(row);
    }
  }
}
