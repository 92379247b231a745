/** The `messages` table as a value: one row, one SQL statement, and what every statement keeps.

  A statement is an `Op`. What it does to a row is `Touch`, which rows it deletes is `Drops`, which
  rows it inserts is `Inserted`; `Apply` puts the three together. The class in Broker.dfy executes the
  same statements in place and is proved against `Apply`. Time is in microseconds, the resolution of
  PostgreSQL's timestamptz, so every `make_interval` is an integer. */
module Messages {
  import opened Prelude

  type Time = int
  type Queue = string
  type ConsumerId = string

  const SECOND: Time := 1_000_000

  // ----- rows ------------------------------------------------------------------------------------

  datatype Status = Pending | Processing | Done | Dead

  datatype Row = Row(
    queue: Queue,
    status: Status,
    priority: int,
    attempts: nat,
    maxAttempts: int,
    availableAt: Time,
    lockedBy: Option<ConsumerId>,
    lockedAt: Option<Time>,
    finishedAt: Option<Time>)

  /** A row together with its id, as a statement returns it. */
  datatype Message = Message(id: int, row: Row)

  function Pow2(n: nat): nat { if n == 0 then 1 else 2 * Pow2(n - 1) }

  /** least(power(2, attempts), 60) seconds. */
  function Backoff(attempts: nat): Time { SECOND * Min(Pow2(attempts), 60) }

  predicate IsReady(r: Row, queue: Queue, now: Time)
  {
    r.queue == queue && r.status.Pending? && r.availableAt <= now
  }

  predicate IsHeldBy(r: Row, consumer: ConsumerId)
  {
    r.status.Processing? && r.lockedBy == Some(consumer)
  }

  predicate IsExpired(r: Row, now: Time, timeout: Time)
  {
    r.status.Processing? && r.lockedAt.Some? && r.lockedAt.value < now - timeout
  }

  /** The WHERE clause of REQUEUE (and, with no id, of PURGE): an absent filter matches anything. */
  predicate IsDeadMatch(r: Row, id: int, wantedId: Option<int>, wantedQueue: Option<Queue>)
  {
    && r.status.Dead?
    && (wantedId.Some? ==> wantedId.value == id)
    && (wantedQueue.Some? ==> wantedQueue.value == r.queue)
  }

  // ----- the SET clauses -------------------------------------------------------------------------

  function Claimed(r: Row, consumer: ConsumerId, now: Time): Row
  {
    r.(status := Processing, lockedBy := Some(consumer), lockedAt := Some(now), attempts := r.attempts + 1)
  }

  function Acked(r: Row, now: Time): Row
  {
    r.(status := Done, finishedAt := Some(now))
  }

  function Nacked(r: Row, now: Time): Row
  {
    if r.attempts >= r.maxAttempts then
      r.(status := Dead, finishedAt := Some(now), lockedBy := None, lockedAt := None)
    else
      r.(status := Pending, availableAt := now + Backoff(r.attempts), finishedAt := None,
         lockedBy := None, lockedAt := None)
  }

  function Renewed(r: Row, now: Time): Row
  {
    r.(lockedAt := Some(now))
  }

  /** Unlike a nack, a reap leaves available_at alone: a recovered message gets no backoff. */
  function Reaped(r: Row, now: Time): Row
  {
    if r.attempts >= r.maxAttempts then
      r.(status := Dead, finishedAt := Some(now), lockedBy := None, lockedAt := None)
    else
      r.(status := Pending, finishedAt := None, lockedBy := None, lockedAt := None)
  }

  function Requeued(r: Row, now: Time): Row
  {
    r.(status := Pending, attempts := 0, availableAt := now, finishedAt := None)
  }

  // ----- statements ------------------------------------------------------------------------------

  type Lease = (int, ConsumerId)

  /** One committed statement (or heartbeat transaction), or the clock moving on.

    A claim carries the row it picked: SKIP LOCKED lets it pass over rows locked by statements in
    flight, so which ready row it gets, if any, is left open here. Broker.Claim and module SkipLocked
    say which one it is. In the same way a reap may skip rows that are locked at that moment. */
  datatype Op =
    | Elapse(duration: nat)
    | Publish(queue: Queue, count: int, priority: int, delay: Time, maxAttempts: int)
    | Claim(queue: Queue, consumer: ConsumerId, picked: Option<int>)
    | Ack(id: int, consumer: ConsumerId)
    | Nack(id: int, consumer: ConsumerId)
    | Renew(leases: set<Lease>)
    | Reap(timeout: Time, skipped: set<int>)
    | Requeue(wantedId: Option<int>, wantedQueue: Option<Queue>)
    | Purge(wantedQueue: Option<Queue>)
    | Reset

  datatype Db = Db(rows: map<int, Row>, nextId: int, now: Time)

  const EMPTY: Db := Db(map[], 1, 0)

  predicate Enabled(db: Db, op: Op)
  {
    op.Claim? && op.picked.Some? ==>
      op.picked.value in db.rows && IsReady(db.rows[op.picked.value], op.queue, db.now)
  }

  /** The WHERE clause of RENEW_LEASE, for one of these leases. */
  predicate IsRenewedBy(r: Row, id: int, leases: set<Lease>)
  {
    r.status.Processing? && r.lockedBy.Some? && (id, r.lockedBy.value) in leases
  }

  /** Whether the WHERE clause of `op` selects row `id` for an UPDATE. */
  predicate Selects(op: Op, id: int, r: Row, now: Time)
  {
    match op
    case Claim(_, _, picked) => picked == Some(id)
    case Ack(target, consumer) => target == id && IsHeldBy(r, consumer)
    case Nack(target, consumer) => target == id && IsHeldBy(r, consumer)
    case Renew(leases) => IsRenewedBy(r, id, leases)
    case Reap(timeout, skipped) => IsExpired(r, now, timeout) && id !in skipped
    case Requeue(wantedId, wantedQueue) => IsDeadMatch(r, id, wantedId, wantedQueue)
    case _ => false
  }

  function Touch(op: Op, id: int, r: Row, now: Time): Row
  {
    if !Selects(op, id, r, now) then r else
    match op
    case Claim(_, consumer, _) => Claimed(r, consumer, now)
    case Ack(_, _) => Acked(r, now)
    case Nack(_, _) => Nacked(r, now)
    case Renew(_) => Renewed(r, now)
    case Reap(_, _) => Reaped(r, now)
    case Requeue(_, _) => Requeued(r, now)
    case _ => r
  }

  predicate Drops(op: Op, id: int, r: Row)
  {
    op.Reset? || (op.Purge? && IsDeadMatch(r, id, None, op.wantedQueue))
  }

  function NewRow(op: Op, now: Time): Row
    requires op.Publish?
  {
    Row(op.queue, Pending, op.priority, 0, op.maxAttempts, now + op.delay, None, None, None)
  }

  predicate IsNewId(db: Db, op: Op, id: int)
    requires op.Publish?
  {
    db.nextId <= id < db.nextId + op.count
  }

  /** generate_series(1, count) rows, or none when CHECK (max_attempts > 0) rejects the statement. */
  function Inserted(db: Db, op: Op): map<int, Row>
  {
    if op.Publish? && op.maxAttempts > 0 then
      map id | db.nextId <= id < db.nextId + op.count && IsNewId(db, op, id) :: NewRow(op, db.now)
    else map[]
  }

  /** The identity sequence is not transactional: a rejected insert has still used one value up. */
  function NextId(db: Db, op: Op): int
  {
    if op.Reset? then 1
    else if op.Publish? && op.count > 0 then db.nextId + (if op.maxAttempts > 0 then op.count else 1)
    else db.nextId
  }

  function Apply(db: Db, op: Op): Db
  {
    Db((map id | id in db.rows && !Drops(op, id, db.rows[id]) :: Touch(op, id, db.rows[id], db.now))
         + Inserted(db, op),
       NextId(db, op),
       if op.Elapse? then db.now + op.duration else db.now)
  }

  /** A table updated row by row is the table `Apply` describes. */
  lemma UpdatedInPlace(db: Db, op: Op, rows: map<int, Row>)
    requires !op.Publish? && !op.Purge? && !op.Reset?
    requires rows.Keys == db.rows.Keys
    requires forall id :: id in rows ==> rows[id] == Touch(op, id, db.rows[id], db.now)
    ensures rows == Apply(db, op).rows
  {
  }

  /** Requeueing dead letters and then purging: of the dead rows, those in the wanted queue start again
    with no attempts, the others stay dead, and a purge of the same queue then finds nothing to delete. */
  lemma RequeueSavesFromPurge(db: Db, queue: Queue, id: int)
    requires id in db.rows && db.nextId > id
    ensures var requeued := Apply(db, Requeue(None, Some(queue)));
      && Apply(requeued, Purge(Some(queue))) == requeued
      && id in requeued.rows
      && (db.rows[id].status.Dead? && db.rows[id].queue == queue ==>
            IsReady(requeued.rows[id], queue, db.now) && requeued.rows[id].attempts == 0)
      && (!(db.rows[id].status.Dead? && db.rows[id].queue == queue) ==> requeued.rows[id] == db.rows[id])
  {
  }

  /** A purge deletes the dead rows of the wanted queue, or of every queue, and touches nothing else. */
  lemma PurgeDeletesOnlyDead(db: Db, queue: Option<Queue>, id: int)
    requires id in db.rows
    ensures var purged := Apply(db, Purge(queue));
      && (id !in purged.rows <==> db.rows[id].status.Dead? && (queue == None || queue == Some(db.rows[id].queue)))
      && (id in purged.rows ==> purged.rows[id] == db.rows[id])
  {
  }

  // ----- claim order -----------------------------------------------------------------------------

  /** ORDER BY priority DESC, id. */
  predicate Precedes(rows: map<int, Row>, a: int, b: int)
    requires a in rows && b in rows
  {
    rows[a].priority > rows[b].priority || (rows[a].priority == rows[b].priority && a < b)
  }

  predicate IsReadyId(db: Db, queue: Queue, id: int)
  {
    id in db.rows && IsReady(db.rows[id], queue, db.now)
  }

  /** What CLAIM picks when no other statement holds a row lock: the first ready row, if there is one. */
  ghost predicate IsNext(db: Db, queue: Queue, picked: Option<int>)
  {
    match picked
    case None => forall id :: id in db.rows ==> !IsReadyId(db, queue, id)
    case Some(id) =>
      && IsReadyId(db, queue, id)
      && forall other :: other in db.rows && IsReadyId(db, queue, other) && other != id ==>
           Precedes(db.rows, id, other)
  }

  // ----- the table invariant ---------------------------------------------------------------------

  predicate ValidRow(r: Row, now: Time)
  {
    && 0 < r.maxAttempts
    && r.attempts <= r.maxAttempts
    && (r.status.Pending? ==> r.attempts < r.maxAttempts)
    && (r.status.Dead? ==> r.attempts == r.maxAttempts)
    && (r.status.Processing? || r.status.Done? ==> 1 <= r.attempts)
    // finished_at is set exactly for done and dead
    && (r.finishedAt.Some? <==> r.status.Done? || r.status.Dead?)
    && (r.finishedAt.Some? ==> r.finishedAt.value <= now)
    // the lock columns are null exactly for pending and dead
    && (r.lockedBy.None? <==> r.status.Pending? || r.status.Dead?)
    && (r.lockedAt.None? <==> r.status.Pending? || r.status.Dead?)
    && (r.lockedAt.Some? ==> r.availableAt <= r.lockedAt.value <= now)
  }

  /** The identity sequence is ahead of every id in the table. */
  ghost predicate ValidIds(db: Db)
  {
    && 1 <= db.nextId
    && forall id :: id in db.rows ==> 1 <= id < db.nextId
  }

  ghost predicate Valid(db: Db)
  {
    && ValidIds(db)
    && forall id :: id in db.rows ==> ValidRow(db.rows[id], db.now)
  }

  /** Every statement keeps the table invariant. */
  lemma ApplyKeepsValid(db: Db, op: Op)
    requires Valid(db) && Enabled(db, op)
    ensures Valid(Apply(db, op))
  {
    var db' := Apply(db, op);
    forall id | id in db'.rows ensures 1 <= id < db'.nextId && ValidRow(db'.rows[id], db'.now) {
      if id !in Inserted(db, op) {
      }
    }
  }

  // ----- runs ------------------------------------------------------------------------------------

  ghost predicate IsRun(db: Db, ops: seq<Op>)
    decreases |ops|
  {
    ops == [] || (Enabled(db, ops[0]) && IsRun(Apply(db, ops[0]), ops[1..]))
  }

  function Run(db: Db, ops: seq<Op>): Db
    decreases |ops|
  {
    if ops == [] then db else Run(Apply(db, ops[0]), ops[1..])
  }

  lemma {:induction false} RunKeepsValid(db: Db, ops: seq<Op>)
    requires Valid(db) && IsRun(db, ops)
    ensures Valid(Run(db, ops))
    decreases |ops|
  {
    if ops != [] {
      ApplyKeepsValid(db, ops[0]);
      RunKeepsValid(Apply(db, ops[0]), ops[1..]);
    }
  }

  /** A done row never changes again; only a reset removes it. */
  lemma {:induction false} DoneIsFinal(db: Db, ops: seq<Op>, id: int)
    requires Valid(db) && IsRun(db, ops)
    requires id in db.rows && db.rows[id].status.Done?
    requires forall i :: 0 <= i < |ops| ==> !ops[i].Reset?
    ensures id in Run(db, ops).rows && Run(db, ops).rows[id] == db.rows[id]
    decreases |ops|
  {
    if ops != [] {
      ApplyKeepsValid(db, ops[0]);
      assert id !in Inserted(db, ops[0]);
      assert !ops[0].Reset?;
      DoneIsFinal(Apply(db, ops[0]), ops[1..], id);
    }
  }
}
