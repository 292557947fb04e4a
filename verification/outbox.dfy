/**
 * The transactional outbox. Events are rows of domain_events; a dispatch pass selects pending
 * rows by id, hands each to the broker and marks it published or due for a retry, all in one
 * transaction. The broker is not part of the transaction: what it took, it keeps.
 */
module Outbox {
  import opened Wrappers
  import opened Model
  import opened Collections
  import opened StaffMetrics

  type EventId = nat

  const BATCH: nat := 100
  const MAX_BACKOFF: int := 300 * SECOND

  /** A payload that does not decode as an event is None. */
  datatype OutboxRow = OutboxRow(payload: Option<Event>, attempts: int, nextRetryAt: Option<Time>, publishedAt: Option<Time>)

  /** One event the broker took, with the row it came from. */
  datatype Delivery = Delivery(id: EventId, event: Event)

  datatype Box = Box(rows: map<EventId, OutboxRow>, broker: seq<Delivery>)

  /** How a publish attempt ends: taken and confirmed, not taken, or taken but reported as failed. */
  datatype Reply = Acked | Refused | TakenUnconfirmed

  /** What the outside decides about one row: the broker's reply, whether the mark fails, and the time. */
  datatype Outcome = Outcome(reply: Reply, markFails: bool, at: Time)

  // ---------------------------------------------------------------- backoff in 64-bit arithmetic

  const TWO63: int := 0x8000_0000_0000_0000
  const TWO64: int := 0x1_0000_0000_0000_0000

  predicate Fits64(x: int) {
    -TWO63 <= x < TWO63
  }

  /** Two's complement. */
  function Wrap64(x: int): (r: int)
    ensures Fits64(r) && (Fits64(x) ==> r == x)
  {
    (x + TWO63) % TWO64 - TWO63
  }

  function Backoff(attempt: int): (d: Time)
    ensures d <= MAX_BACKOFF
  {
    var n := if attempt < 1 then 1 else attempt;
    var d := Wrap64(Wrap64(n * n) * SECOND);
    if d > MAX_BACKOFF then MAX_BACKOFF else d
  }

  /** min(n * n, 300) seconds. */
  function CappedSquare(n: int): Time {
    (if n < 1 then 1 else if n * n < 300 then n * n else 300) * SECOND
  }

  lemma SquareMonotone(m: int, n: int)
    requires 0 <= m <= n
    ensures m * m <= n * n
  {
    assert n * n == m * m + (n - m) * (n + m);
  }

  /** The product stays within 64 bits exactly up to 96038 attempts. */
  lemma BackoffFits(n: int)
    requires n >= 1
    ensures Fits64(n * n) && Fits64(n * n * 1_000_000_000) <==> n <= 96038
  {
    if n <= 96038 {
      SquareMonotone(n, 96038);
    } else {
      SquareMonotone(96039, n);
    }
  }

  /** Up to there the delay is min(n * n, 300) seconds. */
  lemma BackoffIsCappedSquare(n: int)
    requires n <= 96038
    ensures Backoff(n) == CappedSquare(n)
  {
    if n >= 1 {
      BackoffFits(n);
    }
  }

  /** In nanoseconds: the square of the attempts up to the 17th, then five minutes. */
  lemma BackoffNumbers(n: int)
    requires n <= 96038
    ensures n <= 1 ==> Backoff(n) == 1_000_000_000
    ensures 1 <= n <= 17 ==> Backoff(n) == n * n * 1_000_000_000
    ensures n >= 18 ==> Backoff(n) == 300_000_000_000
  {
    BackoffIsCappedSquare(n);
    if 1 <= n <= 17 {
      SquareMonotone(n, 17);
    } else if n >= 18 {
      SquareMonotone(18, n);
    }
  }

  lemma BackoffMonotone(m: int, n: int)
    requires m <= n <= 96038
    ensures 1_000_000_000 <= Backoff(m) <= Backoff(n) <= 300_000_000_000
  {
    BackoffIsCappedSquare(m);
    BackoffIsCappedSquare(n);
    if m >= 1 {
      SquareMonotone(m, n);
      SquareMonotone(1, m);
    }
    if n >= 1 { SquareMonotone(1, n); }
  }

  /** One attempt more and the delay is negative. */
  lemma BackoffWrapsAt96039()
    ensures Backoff(96039) < 0 && Backoff(96039) != CappedSquare(96039)
  {
    assert 96039 * 96039 == 9223489521;
  }

  // ---------------------------------------------------------------- one pass

  predicate Pending(row: OutboxRow, now: Time) {
    row.publishedAt.None? && (row.nextRetryAt.None? || row.nextRetryAt.value <= now)
  }

  function PendingIds(rows: map<EventId, OutboxRow>, now: Time): set<EventId> {
    set id | id in rows && Pending(rows[id], now)
  }

  /** ORDER BY id LIMIT n over the ids `xs`. */
  ghost predicate FirstById(ids: seq<EventId>, xs: set<EventId>, limit: nat) {
    && (forall i, j :: 0 <= i < j < |ids| ==> ids[i] < ids[j])
    && (forall id :: id in ids ==> id in xs)
    && |ids| <= limit
    && (forall id, x :: id in ids && x in xs && x !in ids ==> id < x)
    && (|ids| < limit ==> forall x :: x in xs ==> x in ids)
  }

  /** ORDER BY id LIMIT n over the due rows that nobody holds, in the columns of the rows. */
  lemma FirstMeans(rows: map<EventId, OutboxRow>, now: Time, locked: set<EventId>, limit: nat, ids: seq<EventId>)
    requires FirstById(ids, PendingIds(rows, now) - locked, limit)
    ensures forall id :: id in ids ==>
      && id in rows && id !in locked && rows[id].publishedAt == None
      && (rows[id].nextRetryAt == None || rows[id].nextRetryAt.value <= now)
    ensures forall id | id in rows && id !in locked && id !in ids && rows[id].publishedAt == None
                        && (rows[id].nextRetryAt == None || rows[id].nextRetryAt.value <= now) ::
      |ids| == limit && forall x :: x in ids ==> x < id
  {
    var all := PendingIds(rows, now) - locked;
    forall id | id in rows && id !in locked && id !in ids && rows[id].publishedAt == None
                && (rows[id].nextRetryAt == None || rows[id].nextRetryAt.value <= now)
      ensures |ids| == limit && forall x :: x in ids ==> x < id
    {
      assert id in all;
    }
    assert forall id :: id in ids ==> id in all;
  }

  function PublishedRow(row: OutboxRow, at: Time): OutboxRow {
    row.(publishedAt := Some(at), nextRetryAt := None)
  }

  function RetryRow(row: OutboxRow, at: Time): OutboxRow {
    row.(attempts := row.attempts + 1, nextRetryAt := Some(at + Backoff(row.attempts + 1)))
  }

  /** The state inside a pass: after a failed statement the transaction can only be rolled back. */
  datatype Pass = Pass(rows: map<EventId, OutboxRow>, broker: seq<Delivery>, aborted: bool, stopped: bool)

  function MarkRetry(p: Pass, id: EventId, o: Outcome): Pass
    requires id in p.rows
  {
    if p.aborted || o.markFails then p.(aborted := true) else p.(rows := p.rows[id := RetryRow(p.rows[id], o.at)])
  }

  function MarkPublished(p: Pass, id: EventId, o: Outcome): Pass
    requires id in p.rows
  {
    if p.aborted || o.markFails then p.(aborted := true, stopped := true)
    else p.(rows := p.rows[id := PublishedRow(p.rows[id], o.at)])
  }

  /** What the broker takes of one row. */
  function TakenOf(row: OutboxRow, id: EventId, o: Outcome): seq<Delivery> {
    if row.payload.Some? && !o.reply.Refused? then [Delivery(id, row.payload.value)] else []
  }

  function Handle(p: Pass, id: EventId, o: Outcome): Pass
    requires id in p.rows
  {
    if p.stopped then p
    else
      var p1 := p.(broker := p.broker + TakenOf(p.rows[id], id, o));
      if p.rows[id].payload.Some? && o.reply.Acked? then MarkPublished(p1, id, o) else MarkRetry(p1, id, o)
  }

  function HandleAll(p: Pass, ids: seq<EventId>, outcome: EventId -> Outcome): (r: Pass)
    requires forall id :: id in ids ==> id in p.rows
    ensures r.rows.Keys == p.rows.Keys
  {
    if ids == [] then p
    else
      var n := |ids| - 1;
      assert forall id :: id in ids[..n] ==> id in ids;
      Handle(HandleAll(p, ids[..n], outcome), ids[n], outcome(ids[n]))
  }

  function PassOver(box: Box, ids: seq<EventId>, outcome: EventId -> Outcome): Pass
    requires forall id :: id in ids ==> id in box.rows
  {
    HandleAll(Pass(box.rows, box.broker, false, false), ids, outcome)
  }

  /** Commit or rollback of the rows; the broker keeps what it took. */
  function AfterPass(box: Box, ids: seq<EventId>, outcome: EventId -> Outcome): Box
    requires forall id :: id in ids ==> id in box.rows
  {
    var p := PassOver(box, ids, outcome);
    Box(if p.aborted then box.rows else p.rows, p.broker)
  }

  // ---------------------------------------------------------------- the dispatcher

  class Dispatcher {
    var rows: map<EventId, OutboxRow>
    var broker: seq<Delivery>

    ghost function Contents(): Box
      reads this
    {
      Box(rows, broker)
    }

    constructor ()
      ensures Contents() == Box(map[], [])
    {
      rows := map[];
      broker := [];
    }

    method InsertDomainEvent(payload: Option<Event>) returns (id: EventId)
      modifies this
      ensures id !in old(rows) && rows == old(rows)[id := OutboxRow(payload, 0, None, None)] && broker == old(broker)
    {
      ghost var unused := FreshId(rows);
      id :| id !in rows;
      rows := rows[id := OutboxRow(payload, 0, None, None)];
    }

    /** The rows other transactions hold locked are skipped. */
    method LockPendingOutboxEvents(now: Time, locked: set<EventId>, limit: int) returns (ids: seq<EventId>)
      ensures FirstById(ids, PendingIds(rows, now) - locked, if limit <= 0 then 100 else limit)
      ensures |ids| <= (if limit <= 0 then 100 else limit)
      ensures forall i, j :: 0 <= i < j < |ids| ==> ids[i] < ids[j]
      ensures forall id :: id in ids ==>
        && id in rows && id !in locked && rows[id].publishedAt == None
        && (rows[id].nextRetryAt == None || rows[id].nextRetryAt.value <= now)
      ensures forall id | id in rows && id !in locked && id !in ids && rows[id].publishedAt == None
                          && (rows[id].nextRetryAt == None || rows[id].nextRetryAt.value <= now) ::
        |ids| == (if limit <= 0 then 100 else limit) && forall x :: x in ids ==> x < id
    {
      var n := if limit <= 0 then 100 else limit;
      ids := [];
      ghost var all := PendingIds(rows, now) - locked;
      var left := PendingIds(rows, now) - locked;
      while |ids| < n && left != {}
        invariant |ids| <= n && left <= all
        invariant forall x :: x in all ==> (x in left <==> x !in ids)
        invariant forall id :: id in ids ==> id in all
        invariant forall i, j :: 0 <= i < j < |ids| ==> ids[i] < ids[j]
        invariant forall id, x :: id in ids && x in left ==> id < x
        decreases |left|
      {
        var m := LeastId(left);
        assert forall i :: 0 <= i < |ids| ==> ids[i] in ids;
        ids := ids + [m];
        left := left - {m};
      }
      FirstMeans(rows, now, locked, n, ids);
    }

    method DispatchOnce(now: Time, locked: set<EventId>, outcome: EventId -> Outcome) returns (ok: bool, ghost batch: seq<EventId>)
      modifies this
      ensures FirstById(batch, PendingIds(old(rows), now) - locked, BATCH)
      ensures forall id :: id in batch ==> id in old(rows)
      ensures Contents() == AfterPass(old(Contents()), batch, outcome)
      ensures ok == !PassOver(old(Contents()), batch, outcome).aborted
      ensures |batch| <= 100 && forall id :: id in batch ==>
        && id in old(rows) && old(rows)[id].publishedAt == None && id !in locked
        && (old(rows)[id].nextRetryAt == None || old(rows)[id].nextRetryAt.value <= now)
      ensures rows.Keys == old(rows).Keys && forall id :: id in old(rows) && id !in batch ==> rows[id] == old(rows)[id]
      ensures !ok ==> rows == old(rows)
      ensures ok ==> forall id :: id in batch ==>
        if old(rows)[id].payload.Some? && outcome(id).reply == Acked
        then rows[id] == old(rows)[id].(publishedAt := Some(outcome(id).at), nextRetryAt := None)
        else rows[id] == old(rows)[id].(attempts := old(rows)[id].attempts + 1,
                                        nextRetryAt := Some(outcome(id).at + Backoff(old(rows)[id].attempts + 1)))
      ensures old(broker) <= broker
      ensures ok ==> forall d :: d in broker[|old(broker)|..] <==>
        d.id in batch && old(rows)[d.id].payload == Some(d.event) && outcome(d.id).reply != Refused
      ensures ok <==> forall id :: id in batch ==> !outcome(id).markFails
    {
      var ids := LockPendingOutboxEvents(now, locked, BATCH);
      batch := ids;
      assert forall id :: id in ids ==> id in rows;
      var saved := rows;
      var aborted := DispatchRows(ids, outcome);
      if aborted {
        rows := saved;
      }
      ok := !aborted;
      PassMeans(old(Contents()), ids, outcome);
      DeliveredMeans(old(Contents()), ids, outcome);
    }

    /** The loop inside the transaction; its writes to `rows` last only if the transaction commits. */
    method DispatchRows(ids: seq<EventId>, outcome: EventId -> Outcome) returns (aborted: bool)
      requires forall id :: id in ids ==> id in rows
      modifies this
      ensures var p := PassOver(old(Contents()), ids, outcome);
        broker == p.broker && aborted == p.aborted && rows == p.rows
    {
      ghost var box := Contents();
      aborted := false;
      for i := 0 to |ids|
        invariant rows.Keys == box.rows.Keys
        invariant Pass(rows, broker, aborted, false) == PassOver(box, ids[..i], outcome)
      {
        NextHandled(box, ids, i, outcome);
        var stopped;
        aborted, stopped := DispatchRow(ids[i], outcome(ids[i]), aborted);
        if stopped {
          StoppedStays(box, ids, i + 1, outcome);
          return;
        }
      }
      assert ids[..|ids|] == ids;
    }

    /** The loop body: decode, publish, mark. Only a publication that cannot be marked ends the loop. */
    method DispatchRow(id: EventId, o: Outcome, aborted: bool) returns (failed: bool, stopped: bool)
      requires id in rows
      modifies this
      ensures Pass(rows, broker, failed, stopped) == Handle(Pass(old(rows), old(broker), aborted, false), id, o)
      ensures rows.Keys == old(rows).Keys
    {
      stopped := false;
      var payload := rows[id].payload;
      if payload.None? {
        failed := MarkOutboxRetry(id, o, aborted);
        return;
      }
      if !o.reply.Refused? {
        broker := broker + [Delivery(id, payload.value)];
      }
      if !o.reply.Acked? {
        failed := MarkOutboxRetry(id, o, aborted);
        return;
      }
      failed := MarkOutboxPublished(id, o, aborted);
      stopped := failed;
    }

    method MarkOutboxRetry(id: EventId, o: Outcome, aborted: bool) returns (failed: bool)
      requires id in rows
      modifies this`rows
      ensures Pass(rows, broker, failed, false) == MarkRetry(Pass(old(rows), broker, aborted, false), id, o)
    {
      failed := aborted || o.markFails;
      if !failed {
        rows := rows[id := rows[id].(attempts := rows[id].attempts + 1,
                                     nextRetryAt := Some(o.at + Backoff(rows[id].attempts + 1)))];
      }
    }

    method MarkOutboxPublished(id: EventId, o: Outcome, aborted: bool) returns (failed: bool)
      requires id in rows
      modifies this`rows
      ensures Pass(rows, broker, failed, failed) == MarkPublished(Pass(old(rows), broker, aborted, false), id, o)
    {
      failed := aborted || o.markFails;
      if !failed {
        rows := rows[id := rows[id].(publishedAt := Some(o.at), nextRetryAt := None)];
      }
    }
  }

  lemma NextHandled(box: Box, ids: seq<EventId>, i: nat, outcome: EventId -> Outcome)
    requires i < |ids| && forall id :: id in ids ==> id in box.rows
    ensures ids[i] in box.rows
    ensures PassOver(box, ids[..i + 1], outcome) == Handle(PassOver(box, ids[..i], outcome), ids[i], outcome(ids[i]))
  {
    assert ids[..i + 1][..i] == ids[..i] && ids[i] in ids;
  }

  lemma {:induction false} StoppedStays(box: Box, ids: seq<EventId>, i: nat, outcome: EventId -> Outcome)
    requires i <= |ids| && forall id :: id in ids ==> id in box.rows
    requires PassOver(box, ids[..i], outcome).stopped
    ensures PassOver(box, ids, outcome) == PassOver(box, ids[..i], outcome)
    decreases |ids|
  {
    if i == |ids| {
      assert ids[..i] == ids;
    } else {
      var n := |ids| - 1;
      assert ids[..n][..i] == ids[..i];
      StoppedStays(box, ids[..n], i, outcome);
    }
  }

  // ---------------------------------------------------------------- what a pass does, row by row

  /** The row after its turn in a committed pass. */
  function RowAfter(row: OutboxRow, o: Outcome): OutboxRow {
    if row.payload.Some? && o.reply.Acked? then PublishedRow(row, o.at) else RetryRow(row, o.at)
  }

  function Taken(rows: map<EventId, OutboxRow>, ids: seq<EventId>, outcome: EventId -> Outcome): seq<Delivery>
    requires forall id :: id in ids ==> id in rows
  {
    if ids == [] then []
    else
      var n := |ids| - 1;
      assert forall id :: id in ids[..n] ==> id in ids;
      Taken(rows, ids[..n], outcome) + TakenOf(rows[ids[n]], ids[n], outcome(ids[n]))
  }

  lemma HandleEffect(p: Pass, id: EventId, o: Outcome)
    requires id in p.rows
    ensures var q := Handle(p, id, o);
      && (p.stopped ==> q == p)
      && (!p.stopped ==> q.broker == p.broker + TakenOf(p.rows[id], id, o))
      && (p.aborted ==> q.aborted)
      && (q.stopped ==> p.stopped || q.aborted)
      && q.rows == p.rows[id := q.rows[id]]
      && (!q.aborted && !p.stopped ==> q.rows[id] == RowAfter(p.rows[id], o))
  {
    var q := Handle(p, id, o);
    assert q.rows == p.rows ==> q.rows == p.rows[id := q.rows[id]];
  }

  /** Unless a statement failed, each selected row is marked by its reply; the other rows stay. */
  lemma {:induction false} PassRows(box: Box, ids: seq<EventId>, outcome: EventId -> Outcome)
    requires NoDuplicates(ids) && forall id :: id in ids ==> id in box.rows
    ensures var p := PassOver(box, ids, outcome);
      && (p.stopped ==> p.aborted)
      && (forall id :: id in box.rows && id !in ids ==> p.rows[id] == box.rows[id])
      && (!p.aborted ==> forall id :: id in ids ==> p.rows[id] == RowAfter(box.rows[id], outcome(id)))
    decreases |ids|
  {
    if ids != [] {
      var n := |ids| - 1;
      assert ids == ids[..n] + [ids[n]];
      assert ids[n] !in ids[..n];
      PassRows(box, ids[..n], outcome);
      HandleEffect(PassOver(box, ids[..n], outcome), ids[n], outcome(ids[n]));
    }
  }

  /** How many rows of the batch the loop got to. */
  function Reached(box: Box, ids: seq<EventId>, outcome: EventId -> Outcome): (i: nat)
    requires forall id :: id in ids ==> id in box.rows
    ensures i <= |ids|
  {
    if ids == [] then 0
    else
      var before := ids[..|ids| - 1];
      assert forall id :: id in before ==> id in ids;
      if PassOver(box, before, outcome).stopped then Reached(box, before, outcome) else |ids|
  }

  /** In any pass the broker took what it did not refuse, of the rows the loop got to. */
  lemma {:induction false} PassTaken(box: Box, ids: seq<EventId>, outcome: EventId -> Outcome) returns (i: nat)
    requires NoDuplicates(ids) && forall id :: id in ids ==> id in box.rows
    ensures i <= |ids| && PassOver(box, ids, outcome).broker == box.broker + Taken(box.rows, ids[..i], outcome)
    ensures i == Reached(box, ids, outcome)
    ensures !PassOver(box, ids, outcome).stopped ==> i == |ids|
    decreases |ids|
  {
    if ids == [] {
      i := 0;
      assert box.broker + Taken(box.rows, ids, outcome) == box.broker;
    } else {
      var n := |ids| - 1;
      i := PassTaken(box, ids[..n], outcome);
      assert ids[..n][..i] == ids[..i];
      NextTaken(box, ids, outcome);
      if !PassOver(box, ids[..n], outcome).stopped {
        i := |ids|;
        assert ids[..i] == ids;
      }
    }
  }

  lemma NextTaken(box: Box, ids: seq<EventId>, outcome: EventId -> Outcome)
    requires NoDuplicates(ids) && ids != [] && forall id :: id in ids ==> id in box.rows
    ensures forall id :: id in ids[..|ids| - 1] ==> id in box.rows
    ensures var p, q := PassOver(box, ids[..|ids| - 1], outcome), PassOver(box, ids, outcome);
      && (p.stopped ==> q == p)
      && (!p.stopped && p.broker == box.broker + Taken(box.rows, ids[..|ids| - 1], outcome) ==>
            q.broker == box.broker + Taken(box.rows, ids, outcome))
  {
    var n := |ids| - 1;
    LastUntouched(box, ids, outcome);
    HandleEffect(PassOver(box, ids[..n], outcome), ids[n], outcome(ids[n]));
  }

  lemma LastUntouched(box: Box, ids: seq<EventId>, outcome: EventId -> Outcome)
    requires NoDuplicates(ids) && ids != [] && forall id :: id in ids ==> id in box.rows
    ensures var n := |ids| - 1;
      (forall id :: id in ids[..n] ==> id in box.rows) && PassOver(box, ids[..n], outcome).rows[ids[n]] == box.rows[ids[n]]
  {
    var n := |ids| - 1;
    assert ids[n] !in ids[..n];
    PassRows(box, ids[..n], outcome);
  }

  lemma PassEffect(box: Box, ids: seq<EventId>, outcome: EventId -> Outcome)
    requires NoDuplicates(ids) && forall id :: id in ids ==> id in box.rows
    ensures var p := PassOver(box, ids, outcome);
      && p.rows.Keys == box.rows.Keys
      && (forall id :: id in box.rows && id !in ids ==> p.rows[id] == box.rows[id])
      && (!p.aborted ==>
            && p.broker == box.broker + Taken(box.rows, ids, outcome)
            && forall id :: id in ids ==> p.rows[id] == RowAfter(box.rows[id], outcome(id)))
  {
    PassRows(box, ids, outcome);
    var i := PassTaken(box, ids, outcome);
    assert ids[..|ids|] == ids;
  }

  lemma {:induction false} TakenFrom(rows: map<EventId, OutboxRow>, ids: seq<EventId>, outcome: EventId -> Outcome, d: Delivery)
    requires forall id :: id in ids ==> id in rows
    ensures d in Taken(rows, ids, outcome) <==>
      d.id in ids && rows[d.id].payload == Some(d.event) && !outcome(d.id).reply.Refused?
  {
    if ids != [] {
      var n := |ids| - 1;
      assert ids == ids[..n] + [ids[n]];
      TakenFrom(rows, ids[..n], outcome, d);
    }
  }

  /** A pass is rolled back exactly when the mark of one of its rows fails. */
  lemma {:induction false} PassFails(box: Box, ids: seq<EventId>, outcome: EventId -> Outcome)
    requires forall id :: id in ids ==> id in box.rows
    ensures PassOver(box, ids, outcome).aborted <==> exists id :: id in ids && outcome(id).markFails
    ensures PassOver(box, ids, outcome).stopped ==> PassOver(box, ids, outcome).aborted
  {
    if ids != [] {
      SplitLast(ids);
      PassFails(box, ids[..|ids| - 1], outcome);
    }
  }

  /** A pass that commits has handed over what decodes and was not refused; any pass keeps the old deliveries. */
  lemma DeliveredMeans(box: Box, ids: seq<EventId>, outcome: EventId -> Outcome)
    requires NoDuplicates(ids) && forall id :: id in ids ==> id in box.rows
    ensures var p := PassOver(box, ids, outcome);
      && box.broker <= p.broker
      && (!p.aborted ==> forall d :: d in p.broker[|box.broker|..] <==>
            d.id in ids && box.rows[d.id].payload == Some(d.event) && outcome(d.id).reply != Refused)
  {
    var p := PassOver(box, ids, outcome);
    PassEffect(box, ids, outcome);
    var i := PassTaken(box, ids, outcome);
    if !p.aborted {
      assert p.broker[|box.broker|..] == Taken(box.rows, ids, outcome);
      forall d ensures d in p.broker[|box.broker|..] <==>
          d.id in ids && box.rows[d.id].payload == Some(d.event) && outcome(d.id).reply != Refused
      {
        TakenFrom(box.rows, ids, outcome, d);
      }
    }
  }

  /** A whole pass, row by row. */
  lemma PassMeans(box: Box, ids: seq<EventId>, outcome: EventId -> Outcome)
    requires (forall i, j :: 0 <= i < j < |ids| ==> ids[i] < ids[j]) && forall id :: id in ids ==> id in box.rows
    ensures var box', failed := AfterPass(box, ids, outcome), exists id :: id in ids && outcome(id).markFails;
      && (PassOver(box, ids, outcome).aborted <==> failed)
      && box'.rows.Keys == box.rows.Keys && (forall id :: id in box.rows && id !in ids ==> box'.rows[id] == box.rows[id])
      && (failed ==> box'.rows == box.rows)
      && (!failed ==> forall id :: id in ids ==>
            if box.rows[id].payload.Some? && outcome(id).reply == Acked
            then box'.rows[id] == box.rows[id].(publishedAt := Some(outcome(id).at), nextRetryAt := None)
            else box'.rows[id] == box.rows[id].(attempts := box.rows[id].attempts + 1,
                                                nextRetryAt := Some(outcome(id).at + Backoff(box.rows[id].attempts + 1))))
  {
    PassFails(box, ids, outcome);
    PassRows(box, ids, outcome);
  }

  // ---------------------------------------------------------------- runs

  datatype OutboxStep =
    | Insert(id: EventId, payload: Option<Event>)
    | Dispatch(now: Time, locked: set<EventId>, batch: seq<EventId>, outcome: EventId -> Outcome)

  ghost predicate Can(box: Box, step: OutboxStep) {
    match step
    case Insert(id, _) => id !in box.rows
    case Dispatch(now, locked, batch, _) => FirstById(batch, PendingIds(box.rows, now) - locked, BATCH)
  }

  lemma BatchOk(box: Box, step: OutboxStep)
    requires step.Dispatch? && Can(box, step)
    ensures NoDuplicates(step.batch) && forall id :: id in step.batch ==> id in box.rows && box.rows[id].publishedAt.None?
  {
    forall id | id in step.batch ensures id in box.rows && box.rows[id].publishedAt.None? {
      assert id in PendingIds(box.rows, step.now);
    }
  }

  ghost function Do(box: Box, step: OutboxStep): Box
    requires Can(box, step)
  {
    match step
    case Insert(id, payload) => box.(rows := box.rows[id := OutboxRow(payload, 0, None, None)])
    case Dispatch(_, _, batch, outcome) =>
      assert forall id :: id in batch ==> id in box.rows by { BatchOk(box, step); }
      AfterPass(box, batch, outcome)
  }

  ghost predicate OutboxRun(box: Box, steps: seq<OutboxStep>, box': Box)
    decreases |steps|
  {
    if |steps| == 0 then box == box' else Can(box, steps[0]) && OutboxRun(Do(box, steps[0]), steps[1..], box')
  }

  const EmptyBox: Box := Box(map[], [])

  /** Published rows were handed over, and nothing else was: the broker holds payloads of rows only. */
  ghost predicate BoxOk(box: Box) {
    && (forall id :: id in box.rows && box.rows[id].publishedAt.Some? ==>
          box.rows[id].payload.Some? && Delivery(id, box.rows[id].payload.value) in box.broker)
    && (forall d :: d in box.broker ==> d.id in box.rows && box.rows[d.id].payload == Some(d.event))
  }

  lemma PassKeepsPayloads(box: Box, step: OutboxStep)
    requires step.Dispatch? && Can(box, step)
    ensures Do(box, step).rows.Keys == box.rows.Keys
    ensures forall id :: id in box.rows ==> Do(box, step).rows[id].payload == box.rows[id].payload
  {
    BatchOk(box, step);
    PassEffect(box, step.batch, step.outcome);
  }

  /** The broker after a pass: the old deliveries, and new ones from the batch. */
  lemma PassDeliveries(box: Box, step: OutboxStep)
    requires step.Dispatch? && Can(box, step)
    ensures box.broker <= Do(box, step).broker
    ensures forall d :: d in Do(box, step).broker ==>
      d in box.broker || (d.id in box.rows && box.rows[d.id].payload == Some(d.event))
    ensures forall id :: id in box.rows && box.rows[id].publishedAt.None? && Do(box, step).rows[id].publishedAt.Some? ==>
      box.rows[id].payload.Some? && Delivery(id, box.rows[id].payload.value) in Do(box, step).broker
  {
    BatchOk(box, step);
    PassEffect(box, step.batch, step.outcome);
    var i := PassTaken(box, step.batch, step.outcome);
    forall d | d in Do(box, step).broker
      ensures d in box.broker || (d.id in box.rows && box.rows[d.id].payload == Some(d.event))
    {
      TakenFrom(box.rows, step.batch[..i], step.outcome, d);
    }
    forall id | id in box.rows && box.rows[id].publishedAt.None? && Do(box, step).rows[id].publishedAt.Some?
      ensures box.rows[id].payload.Some? && Delivery(id, box.rows[id].payload.value) in Do(box, step).broker
    {
      assert id in step.batch && box.rows[id].payload.Some?;
      TakenFrom(box.rows, step.batch, step.outcome, Delivery(id, box.rows[id].payload.value));
    }
  }

  lemma BoxOkStep(box: Box, step: OutboxStep)
    requires BoxOk(box) && Can(box, step)
    ensures BoxOk(Do(box, step))
  {
    if step.Dispatch? {
      BatchOk(box, step);
      PassEffect(box, step.batch, step.outcome);
      PassKeepsPayloads(box, step);
      PassDeliveries(box, step);
    }
  }

  lemma {:induction false} BoxOkRun(box: Box, steps: seq<OutboxStep>, box': Box)
    requires BoxOk(box) && OutboxRun(box, steps, box')
    ensures BoxOk(box')
    decreases |steps|
  {
    if |steps| > 0 {
      BoxOkStep(box, steps[0]);
      BoxOkRun(Do(box, steps[0]), steps[1..], box');
    }
  }

  /** Whatever fails: a row marked published was handed to the broker, and the broker got nothing that is no row. */
  lemma PublishedWasHanded(steps: seq<OutboxStep>, box: Box)
    requires OutboxRun(EmptyBox, steps, box)
    ensures forall id :: id in box.rows && box.rows[id].publishedAt.Some? ==>
      box.rows[id].payload.Some? && Delivery(id, box.rows[id].payload.value) in box.broker
    ensures forall d :: d in box.broker ==> d.id in box.rows && box.rows[d.id].payload == Some(d.event)
  {
    BoxOkRun(EmptyBox, steps, box);
  }

  // ---------------------------------------------------------------- no row is forgotten

  function Ahead(xs: set<EventId>, id: EventId): set<EventId> {
    set x | x in xs && x < id
  }

  function IdsIn(ids: seq<EventId>): set<EventId> {
    set id | id in ids
  }

  lemma {:induction false} DistinctCount(ids: seq<EventId>)
    requires NoDuplicates(ids)
    ensures |IdsIn(ids)| == |ids|
  {
    if ids != [] {
      var n := |ids| - 1;
      DistinctCount(ids[..n]);
      assert ids == ids[..n] + [ids[n]];
      assert IdsIn(ids) == IdsIn(ids[..n]) + {ids[n]} && ids[n] !in ids[..n];
    }
  }

  /** A pending row is in the batch exactly when fewer than 100 unlocked pending rows have smaller ids. */
  lemma SelectedIff(xs: set<EventId>, ids: seq<EventId>, id: EventId)
    requires FirstById(ids, xs, BATCH) && id in xs
    ensures id in ids <==> |Ahead(xs, id)| < 100
  {
    DistinctCount(ids);
    if id in ids {
      forall x | x in Ahead(xs, id) ensures x in IdsIn(ids) - {id} {}
      SubsetSize(Ahead(xs, id), IdsIn(ids) - {id});
    } else {
      forall x | x in IdsIn(ids) ensures x in Ahead(xs, id) {}
      SubsetSize(IdsIn(ids), Ahead(xs, id));
    }
  }

  /** A pass leaves every row in the table, with its payload, and a published row as it is. */
  lemma StepKeepsRow(box: Box, step: OutboxStep, id: EventId)
    requires Can(box, step) && id in box.rows
    ensures id in Do(box, step).rows && Do(box, step).rows[id].payload == box.rows[id].payload
    ensures box.rows[id].publishedAt.Some? ==> Do(box, step).rows[id] == box.rows[id]
  {
    if step.Dispatch? {
      BatchOk(box, step);
      PassEffect(box, step.batch, step.outcome);
      PassKeepsPayloads(box, step);
    }
  }

  /** So does every run of inserts and passes, with any failures and rollbacks in it. */
  lemma {:induction false} RunKeepsRow(box: Box, steps: seq<OutboxStep>, box': Box, id: EventId)
    requires OutboxRun(box, steps, box') && id in box.rows
    ensures id in box'.rows && box'.rows[id].payload == box.rows[id].payload
    ensures box.rows[id].publishedAt.Some? ==> box'.rows[id] == box.rows[id]
    decreases |steps|
  {
    if |steps| > 0 {
      StepKeepsRow(box, steps[0], id);
      RunKeepsRow(Do(box, steps[0]), steps[1..], box', id);
    }
  }

  /** From `due` on, a pass that does not find the row locked selects it unless 100 due rows come first. */
  ghost predicate SelectableFrom(box: Box, id: EventId, due: Time) {
    forall step :: Can(box, step) && step.Dispatch? && step.now >= due && id !in step.locked ==>
      (id in step.batch <==> |Ahead(PendingIds(box.rows, step.now) - step.locked, id)| < BATCH)
  }

  /**
   * No inserted row is ever forgotten: after any further run it is still there with its payload;
   * if it was published it has not changed since, and if it is not published it will be selectable.
   */
  lemma UnpublishedComesBack(box: Box, steps: seq<OutboxStep>, box': Box, id: EventId) returns (due: Time)
    requires OutboxRun(box, steps, box') && id in box.rows
    ensures id in box'.rows && box'.rows[id].payload == box.rows[id].payload
    ensures box.rows[id].publishedAt.Some? ==> box'.rows[id] == box.rows[id]
    ensures box'.rows[id].publishedAt.None? ==> SelectableFrom(box', id, due)
  {
    RunKeepsRow(box, steps, box', id);
    var row := box'.rows[id];
    due := if row.nextRetryAt.None? then 0 else row.nextRetryAt.value;
    if row.publishedAt.None? {
      forall step | Can(box', step) && step.Dispatch? && step.now >= due && id !in step.locked
        ensures id in step.batch <==> |Ahead(PendingIds(box'.rows, step.now) - step.locked, id)| < BATCH
      {
        SelectedIff(PendingIds(box'.rows, step.now) - step.locked, step.batch, id);
      }
    }
  }

  // ---------------------------------------------------------------- attempts

  /** The step commits a failed try of the row. */
  ghost predicate FailsOn(box: Box, step: OutboxStep, id: EventId)
    requires Can(box, step)
  {
    && step.Dispatch? && id in step.batch && id in box.rows
    && (box.rows[id].payload.None? || !step.outcome(id).reply.Acked?)
    && Commits(box, step)
  }

  ghost predicate Commits(box: Box, step: OutboxStep)
    requires Can(box, step) && step.Dispatch?
  {
    (forall x :: x in step.batch ==> x in box.rows) && !PassOver(box, step.batch, step.outcome).aborted
  }

  ghost function FailedTries(box: Box, steps: seq<OutboxStep>, box': Box, id: EventId): nat
    requires OutboxRun(box, steps, box')
    decreases |steps|
  {
    if |steps| == 0 then 0
    else (if FailsOn(box, steps[0], id) then 1 else 0) + FailedTries(Do(box, steps[0]), steps[1..], box', id)
  }

  function AttemptsOf(box: Box, id: EventId): int {
    if id in box.rows then box.rows[id].attempts else 0
  }

  lemma StepAttempts(box: Box, step: OutboxStep, id: EventId)
    requires Can(box, step)
    ensures AttemptsOf(Do(box, step), id) == AttemptsOf(box, id) + if FailsOn(box, step, id) then 1 else 0
  {
    if step.Dispatch? {
      BatchOk(box, step);
      PassEffect(box, step.batch, step.outcome);
    }
  }

  /** `attempts` is the number of failed tries that were committed; a rolled-back pass counts nothing. */
  lemma {:induction false} AttemptsCountFailedTries(box: Box, steps: seq<OutboxStep>, box': Box, id: EventId)
    requires OutboxRun(box, steps, box')
    ensures AttemptsOf(box', id) == AttemptsOf(box, id) + FailedTries(box, steps, box', id)
    decreases |steps|
  {
    if |steps| > 0 {
      StepAttempts(box, steps[0], id);
      AttemptsCountFailedTries(Do(box, steps[0]), steps[1..], box', id);
    }
  }

  /** After a committed failed try the row is due again after the backoff of its new attempt count. */
  lemma RetrySpacing(box: Box, step: OutboxStep, id: EventId)
    requires Can(box, step) && FailsOn(box, step, id) && 0 <= box.rows[id].attempts < 96038
    ensures id in Do(box, step).rows
    ensures var row, at := Do(box, step).rows[id], step.outcome(id).at;
      && row.publishedAt.None? && row.attempts == box.rows[id].attempts + 1
      && row.nextRetryAt == Some(at + CappedSquare(row.attempts))
      && !Pending(row, at) && Pending(row, at + 300_000_000_000)
  {
    BatchOk(box, step);
    PassEffect(box, step.batch, step.outcome);
    var n := box.rows[id].attempts + 1;
    BackoffIsCappedSquare(n);
    BackoffMonotone(1, n);
  }

  // ---------------------------------------------------------------- how often an event is delivered

  function Times(broker: seq<Delivery>, id: EventId): nat {
    if broker == [] then 0 else Times(broker[..|broker| - 1], id) + if broker[|broker| - 1].id == id then 1 else 0
  }

  lemma {:induction false} TimesJoin(a: seq<Delivery>, b: seq<Delivery>, id: EventId)
    ensures Times(a + b, id) == Times(a, id) + Times(b, id)
    decreases |b|
  {
    if b == [] {
      assert a + b == a;
    } else {
      TimesJoin(a, b[..|b| - 1], id);
      assert (a + b)[..|a + b| - 1] == a + b[..|b| - 1];
    }
  }

  /** A batch hands a row over once if the broker does not refuse it, otherwise not at all. */
  lemma {:induction false} TimesTaken(rows: map<EventId, OutboxRow>, ids: seq<EventId>, outcome: EventId -> Outcome, id: EventId)
    requires NoDuplicates(ids) && forall x :: x in ids ==> x in rows
    ensures Times(Taken(rows, ids, outcome), id) ==
      if id in ids && rows[id].payload.Some? && !outcome(id).reply.Refused? then 1 else 0
  {
    if ids != [] {
      var n := |ids| - 1;
      assert ids == ids[..n] + [ids[n]];
      assert ids[n] !in ids[..n];
      TimesTaken(rows, ids[..n], outcome, id);
      TimesJoin(Taken(rows, ids[..n], outcome), TakenOf(rows[ids[n]], ids[n], outcome(ids[n])), id);
      TimesOne(rows[ids[n]], ids[n], outcome(ids[n]), id);
    }
  }

  lemma TimesOne(row: OutboxRow, id: EventId, o: Outcome, x: EventId)
    ensures Times(TakenOf(row, id, o), x) == if x == id && row.payload.Some? && !o.reply.Refused? then 1 else 0
  {
    var one := TakenOf(row, id, o);
    assert |one| == 1 ==> one[..0] == [];
  }

  /** The broker takes the row's event in this step. */
  ghost predicate Takes(box: Box, step: OutboxStep, id: EventId)
    requires Can(box, step)
  {
    step.Dispatch? && (forall x :: x in step.batch ==> x in box.rows)
    && id in step.batch[..Reached(box, step.batch, step.outcome)]
    && box.rows[id].payload.Some? && !step.outcome(id).reply.Refused?
  }

  /** It does so, but the row is not marked: it reports a failure, or the pass is rolled back. */
  ghost predicate TakesUnmarked(box: Box, step: OutboxStep, id: EventId)
    requires Can(box, step)
  {
    Takes(box, step, id) && (step.outcome(id).reply.TakenUnconfirmed? || !Commits(box, step))
  }

  /** How often over a run the broker took the event without the row being marked. */
  ghost function Unmarked(box: Box, steps: seq<OutboxStep>, box': Box, id: EventId): nat
    requires OutboxRun(box, steps, box')
    decreases |steps|
  {
    if |steps| == 0 then 0
    else (if TakesUnmarked(box, steps[0], id) then 1 else 0) + Unmarked(Do(box, steps[0]), steps[1..], box', id)
  }

  function Published(box: Box, id: EventId): nat {
    if id in box.rows && box.rows[id].publishedAt.Some? then 1 else 0
  }

  lemma StepTimes(box: Box, step: OutboxStep, id: EventId)
    requires Can(box, step)
    ensures Times(Do(box, step).broker, id) == Times(box.broker, id) + if Takes(box, step, id) then 1 else 0
  {
    if step.Dispatch? {
      BatchOk(box, step);
      var i := PassTaken(box, step.batch, step.outcome);
      TimesJoin(box.broker, Taken(box.rows, step.batch[..i], step.outcome), id);
      TimesTaken(box.rows, step.batch[..i], step.outcome, id);
    }
  }

  lemma StepPublishes(box: Box, step: OutboxStep, id: EventId)
    requires Can(box, step)
    ensures Published(Do(box, step), id) ==
      Published(box, id) + if Takes(box, step, id) && !TakesUnmarked(box, step, id) then 1 else 0
  {
    if step.Dispatch? {
      BatchOk(box, step);
      PassEffect(box, step.batch, step.outcome);
      var i := PassTaken(box, step.batch, step.outcome);
      PassRows(box, step.batch, step.outcome);
      assert step.batch[..|step.batch|] == step.batch;
    }
  }

  /** Each delivery is the one that the row was marked for, or one of those that left it unmarked. */
  lemma {:induction false} DeliveriesCounted(box: Box, steps: seq<OutboxStep>, box': Box, id: EventId)
    requires OutboxRun(box, steps, box') && Times(box.broker, id) >= Published(box, id)
    ensures Times(box'.broker, id) - Published(box', id) ==
      Times(box.broker, id) - Published(box, id) + Unmarked(box, steps, box', id)
    decreases |steps|
  {
    if |steps| > 0 {
      StepTimes(box, steps[0], id);
      StepPublishes(box, steps[0], id);
      DeliveriesCounted(Do(box, steps[0]), steps[1..], box', id);
    }
  }

  /** Every published event was delivered once and every other not at all. */
  ghost predicate OnceEach(box: Box) {
    forall id :: Times(box.broker, id) == Published(box, id)
  }

  /**
   * Delivery is exactly once if and only if no delivery was left unmarked. Refused publications,
   * undecodable rows and passes that roll back before the broker took anything do no harm.
   */
  lemma ExactlyOnceIff(steps: seq<OutboxStep>, box: Box)
    requires OutboxRun(EmptyBox, steps, box)
    ensures forall id :: Times(box.broker, id) == Published(box, id) + Unmarked(EmptyBox, steps, box, id)
    ensures OnceEach(box) <==> forall id :: Unmarked(EmptyBox, steps, box, id) == 0
  {
    forall id ensures Times(box.broker, id) == Published(box, id) + Unmarked(EmptyBox, steps, box, id) {
      DeliveriesCounted(EmptyBox, steps, box, id);
    }
  }

  /** A mark that fails after the broker took the event: the row stays pending and the event goes out twice. */
  lemma DeliveredTwice() returns (steps: seq<OutboxStep>, box: Box)
    ensures OutboxRun(EmptyBox, steps, box)
    ensures Times(box.broker, 1) == 2 && 1 in box.rows && box.rows[1].publishedAt.Some?
  {
    var e := Event(EventTaskStarted, 7);
    var fails: EventId -> Outcome := id => Outcome(Acked, true, 0);
    var works: EventId -> Outcome := id => Outcome(Acked, false, 0);
    var b1 := Box(map[1 := OutboxRow(Some(e), 0, None, None)], []);
    assert PendingIds(b1.rows, 0) - {} == {1};
    var first, second := Dispatch(0, {}, [1], fails), Dispatch(0, {}, [1], works);
    SinglePass(b1, 1, fails);
    var b2 := Do(b1, first);
    SinglePass(b2, 1, works);
    box := Do(b2, second);
    steps := [Insert(1, Some(e)), first, second];
    TwoSteps(b1, first, b2, second, box);
    assert Do(EmptyBox, steps[0]) == b1;
    assert steps[1..] == [first, second];
    var one := [Delivery(1, e)];
    assert box.broker == one + one;
    TimesJoin(one, one, 1);
    assert one[..0] == [];
  }

  lemma TwoSteps(b1: Box, first: OutboxStep, b2: Box, second: OutboxStep, b3: Box)
    requires Can(b1, first) && b2 == Do(b1, first) && Can(b2, second) && b3 == Do(b2, second)
    ensures OutboxRun(b1, [first, second], b3)
  {
    var steps := [first, second];
    assert steps[1..] == [second] && steps[1..][1..] == [];
    assert OutboxRun(b3, [], b3);
    assert OutboxRun(b2, [second], b3);
  }

  lemma SinglePass(box: Box, id: EventId, outcome: EventId -> Outcome)
    requires id in box.rows
    ensures PassOver(box, [id], outcome) == Handle(Pass(box.rows, box.broker, false, false), id, outcome(id))
  {
    var p := Pass(box.rows, box.broker, false, false);
    assert [id][..0] == [] && HandleAll(p, [], outcome) == p;
    assert HandleAll(p, [id], outcome) == Handle(HandleAll(p, [id][..0], outcome), id, outcome(id));
  }

  // ---------------------------------------------------------------- a healthy broker drains the table

  function Unpublished(rows: map<EventId, OutboxRow>): set<EventId> {
    set id | id in rows && rows[id].publishedAt.None?
  }

  /** Passes over the same rows, each at a time when everything unpublished is due, in which nothing fails. */
  ghost predicate Healthy(box: Box, step: OutboxStep)
    requires Can(box, step)
  {
    && step.Dispatch? && step.locked == {} && Commits(box, step)
    && (forall id :: id in step.batch ==> step.outcome(id).reply.Acked?)
    && (forall id :: id in Unpublished(box.rows) ==> box.rows[id].payload.Some? && Pending(box.rows[id], step.now))
  }

  ghost predicate AllHealthy(box: Box, steps: seq<OutboxStep>, box': Box)
    requires OutboxRun(box, steps, box')
    decreases |steps|
  {
    |steps| > 0 ==> Healthy(box, steps[0]) && AllHealthy(Do(box, steps[0]), steps[1..], box')
  }

  lemma HealthyPass(box: Box, step: OutboxStep)
    requires Can(box, step) && Healthy(box, step)
    ensures |Unpublished(Do(box, step).rows)| == if |Unpublished(box.rows)| < BATCH then 0 else |Unpublished(box.rows)| - BATCH
  {
    BatchOk(box, step);
    PassEffect(box, step.batch, step.outcome);
    var before := Unpublished(box.rows);
    assert PendingIds(box.rows, step.now) - {} == before;
    DistinctCount(step.batch);
    assert Unpublished(Do(box, step).rows) == before - IdsIn(step.batch);
    assert IdsIn(step.batch) <= before;
    if |step.batch| < BATCH {
      assert before - IdsIn(step.batch) == {};
    }
  }

  /** n healthy passes publish everything if at most 100 * n rows were waiting. */
  lemma {:induction false} HealthyRunDrains(box: Box, steps: seq<OutboxStep>, box': Box)
    requires OutboxRun(box, steps, box') && AllHealthy(box, steps, box')
    requires |Unpublished(box.rows)| <= 100 * |steps|
    ensures Unpublished(box'.rows) == {}
    decreases |steps|
  {
    if |steps| > 0 {
      HealthyPass(box, steps[0]);
      HealthyRunDrains(Do(box, steps[0]), steps[1..], box');
    }
  }
}
