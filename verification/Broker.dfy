/** The statements of the broker, executed in place on the table.

  Every method is one SQL statement. Its contract says that the table afterwards is `Apply` of the
  table before, so what Messages, Delivery and Ledger prove about `Apply` holds of the broker. */
module BrokerTable {
  import opened Prelude
  import opened Messages

  /** count(*), min(id) and max(id) over the inserted rows. */
  datatype Published = Published(count: int, firstId: Option<int>, lastId: Option<int>)

  datatype PublishError = CheckViolation

  /** The rows that were there before and are gone or different now. */
  function Changed(before: map<int, Row>, after: map<int, Row>): set<int>
  {
    set id | id in before && (id !in after || after[id] != before[id])
  }

  // What the loops below have done to the table when they end is what `Apply` says.

  lemma RenewInPlace(db: Db, leases: set<Lease>, rows: map<int, Row>)
    requires rows.Keys == db.rows.Keys
    requires forall id :: id in rows ==>
      rows[id] == if IsRenewedBy(db.rows[id], id, leases) then Renewed(db.rows[id], db.now) else db.rows[id]
    ensures rows == Apply(db, Op.Renew(leases)).rows
  {
  }

  lemma ReapInPlace(db: Db, timeout: Time, rows: map<int, Row>)
    requires rows.Keys == db.rows.Keys
    requires forall id :: id in rows ==>
      rows[id] == if IsExpired(db.rows[id], db.now, timeout) then Reaped(db.rows[id], db.now) else db.rows[id]
    ensures rows == Apply(db, Op.Reap(timeout, {})).rows
  {
  }

  lemma RequeueInPlace(db: Db, wantedId: Option<int>, wantedQueue: Option<Queue>, rows: map<int, Row>)
    requires rows.Keys == db.rows.Keys
    requires forall id :: id in rows ==>
      rows[id] == if IsDeadMatch(db.rows[id], id, wantedId, wantedQueue) then Requeued(db.rows[id], db.now)
                  else db.rows[id]
    ensures rows == Apply(db, Op.Requeue(wantedId, wantedQueue)).rows
  {
  }

  lemma PurgeInPlace(db: Db, wantedQueue: Option<Queue>, rows: map<int, Row>)
    requires forall id :: id in rows <==> id in db.rows && !IsDeadMatch(db.rows[id], id, None, wantedQueue)
    requires forall id :: id in rows ==> rows[id] == db.rows[id]
    ensures rows == Apply(db, Op.Purge(wantedQueue)).rows
  {
    var after := Apply(db, Op.Purge(wantedQueue)).rows;
    assert forall id :: id in after <==> id in rows;
  }

  lemma OneMoreChanged(before: map<int, Row>, rows: map<int, Row>, after: map<int, Row>, id: int)
    requires id in before && id in rows && rows[id] == before[id] && (id !in after || after[id] != before[id])
    requires after - {id} == rows - {id}
    ensures |Changed(before, after)| == |Changed(before, rows)| + 1
  {
    forall other | other != id ensures other in Changed(before, after) <==> other in Changed(before, rows) {
      assert other in after <==> other in after - {id};
      assert other in rows <==> other in rows - {id};
    }
    assert Changed(before, after) == Changed(before, rows) + {id};
  }

  class Broker {
    var rows: map<int, Row>
    var nextId: int
    var now: Time

    function View(): Db
      reads this
    {
      Db(rows, nextId, now)
    }

    constructor ()
      ensures View() == EMPTY && Valid(View())
    {
      rows, nextId, now := map[], 1, 0;
    }

    /** The database clock moves on between statements. */
    method Wait(duration: nat)
      modifies this`now
      ensures View() == Apply(old(View()), Elapse(duration))
      ensures now == old(now) + duration
    {
      ghost var before := View();
      now := now + duration;
      UpdatedInPlace(before, Elapse(duration), rows);
    }

    method Publish(queue: Queue, count: int, priority: int, delay: Time, maxAttempts: int)
      returns (r: Result<Published, PublishError>)
      modifies this`rows, this`nextId
      ensures View() == Apply(old(View()), Op.Publish(queue, count, priority, delay, maxAttempts))
      ensures r.Ok? <==> (0 < count ==> 0 < maxAttempts)
      ensures r.Ok? && count <= 0 ==> r.value == Published(0, None, None)
      ensures r.Ok? && 0 < count ==> r.value == Published(count, Some(old(nextId)), Some(nextId - 1))
      ensures r.Ok? && 0 < count ==> forall id :: old(nextId) <= id < nextId ==>
        && id in rows && rows[id].status.Pending? && rows[id].queue == queue && rows[id].priority == priority
        && rows[id].attempts == 0 && rows[id].maxAttempts == maxAttempts && rows[id].availableAt == now + delay
      ensures forall id :: id in rows && !(old(nextId) <= id < nextId) ==> id in old(rows) && rows[id] == old(rows)[id]
      ensures forall id :: id in old(rows) ==> id in rows
      ensures r.Err? || count <= 0 ==> rows == old(rows)
      ensures nextId == old(nextId) + (if count <= 0 then 0 else if r.Ok? then count else 1)
    {
      ghost var before := View();
      ghost var op := Op.Publish(queue, count, priority, delay, maxAttempts);
      if count <= 0 {
        assert rows == Apply(before, op).rows;
        return Ok(Published(0, None, None));
      }
      if maxAttempts <= 0 {
        nextId := nextId + 1;
        assert rows == Apply(before, op).rows;
        return Err(CheckViolation);
      }
      var firstId := nextId;
      for seq_ := 0 to count
        invariant nextId == firstId + seq_
        invariant forall id :: id in rows <==> id in before.rows || firstId <= id < nextId
        invariant forall id :: id in rows ==>
          rows[id] == if firstId <= id < nextId then NewRow(op, now) else before.rows[id]
      {
        rows := rows[nextId := Row(queue, Pending, priority, 0, maxAttempts, now + delay, None, None, None)];
        nextId := nextId + 1;
      }
      r := Ok(Published(count, Some(firstId), Some(nextId - 1)));
    }

    /** CLAIM, with no other statement in flight: the first ready row of the queue in claim order. */
    method Claim(queue: Queue, consumer: ConsumerId) returns (message: Option<Message>)
      requires ValidIds(View())
      modifies this`rows
      ensures IsNext(old(View()), queue, if message.Some? then Some(message.value.id) else None)
      ensures View() ==
        Apply(old(View()), Op.Claim(queue, consumer, if message.Some? then Some(message.value.id) else None))
      ensures match message
        case None => rows == old(rows)
        case Some(m) =>
          && m.id in old(rows) && rows == old(rows)[m.id := m.row]
          && m.row == old(rows)[m.id].(
               status := Processing, lockedBy := Some(consumer), lockedAt := Some(now),
               attempts := old(rows)[m.id].attempts + 1)
    {
      ghost var before := View();
      var picked: Option<int> := None;
      for id := 1 to nextId
        invariant picked.Some? ==> picked.value < id && IsReadyId(before, queue, picked.value)
        invariant forall other :: other in rows && other < id && IsReadyId(before, queue, other) ==>
          picked.Some? && (other != picked.value ==> Precedes(rows, picked.value, other))
      {
        if id in rows && IsReady(rows[id], queue, now) {
          if picked.None? || Precedes(rows, id, picked.value) {
            picked := Some(id);
          }
        }
      }
      message := None;
      if picked.Some? {
        rows := rows[picked.value := Claimed(rows[picked.value], consumer, now)];
        message := Some(Message(picked.value, rows[picked.value]));
      }
      UpdatedInPlace(before, Op.Claim(queue, consumer, picked), rows);
    }

    /** ACK: true if a row changed, false if the lease was lost. */
    method Ack(id: int, consumer: ConsumerId) returns (acked: bool)
      modifies this`rows
      ensures View() == Apply(old(View()), Op.Ack(id, consumer))
      ensures acked <==>
        id in old(rows) && old(rows)[id].status.Processing? && old(rows)[id].lockedBy == Some(consumer)
      ensures acked ==> rows == old(rows)[id := old(rows)[id].(status := Done, finishedAt := Some(now))]
      ensures !acked ==> rows == old(rows)
    {
      ghost var before := View();
      acked := id in rows && IsHeldBy(rows[id], consumer);
      if acked {
        rows := rows[id := Acked(rows[id], now)];
      }
      UpdatedInPlace(before, Op.Ack(id, consumer), rows);
    }

    /** NACK: the new status, or None if the lease was lost. */
    method Nack(id: int, consumer: ConsumerId) returns (status: Option<Status>)
      modifies this`rows
      ensures View() == Apply(old(View()), Op.Nack(id, consumer))
      ensures status.Some? <==>
        id in old(rows) && old(rows)[id].status.Processing? && old(rows)[id].lockedBy == Some(consumer)
      ensures status.None? ==> rows == old(rows)
      ensures status.Some? ==>
        var r := old(rows)[id];
        && status.value == (if r.attempts >= r.maxAttempts then Dead else Pending)
        && rows == old(rows)[id := r.(
             status := status.value,
             availableAt := if status.value.Dead? then r.availableAt else now + SECOND * Min(Pow2(r.attempts), 60),
             finishedAt := if status.value.Dead? then Some(now) else None,
             lockedBy := None, lockedAt := None)]
    {
      ghost var before := View();
      status := None;
      if id in rows && IsHeldBy(rows[id], consumer) {
        rows := rows[id := Nacked(rows[id], now)];
        status := Some(rows[id].status);
      }
      UpdatedInPlace(before, Op.Nack(id, consumer), rows);
    }

    /** The RENEW_LEASE part of a heartbeat: executemany over the leases, in one transaction. */
    method Renew(leases: seq<Lease>)
      modifies this`rows
      ensures View() == Apply(old(View()), Op.Renew(set l | l in leases))
      ensures rows.Keys == old(rows).Keys
      ensures forall id :: id in rows ==>
        var r := old(rows)[id];
        rows[id] == if r.status.Processing? && r.lockedBy.Some? && (id, r.lockedBy.value) in leases
                    then r.(lockedAt := Some(now)) else r
    {
      ghost var before := View();
      ghost var sent: set<Lease> := {};
      for i := 0 to |leases|
        invariant sent == set l | l in leases[..i]
        invariant rows.Keys == before.rows.Keys
        invariant forall id :: id in rows ==>
          rows[id] == if IsRenewedBy(before.rows[id], id, sent) then Renewed(before.rows[id], now)
                      else before.rows[id]
      {
        var (id, consumer) := leases[i];
        if id in rows && IsHeldBy(rows[id], consumer) {
          rows := rows[id := Renewed(rows[id], now)];
        }
        sent := sent + {leases[i]};
      }
      assert sent == set l | l in leases;
      RenewInPlace(before, sent, rows);
    }

    /** REAP: the ids whose lease had expired, in id order. */
    method Reap(timeout: Time) returns (reaped: seq<int>)
      requires ValidIds(View())
      modifies this`rows
      ensures View() == Apply(old(View()), Op.Reap(timeout, {}))
      ensures forall id :: id in reaped <==>
        && id in old(rows) && old(rows)[id].status.Processing?
        && old(rows)[id].lockedAt.Some? && old(rows)[id].lockedAt.value + timeout < now
      ensures forall i, j :: 0 <= i < j < |reaped| ==> reaped[i] < reaped[j]
      ensures rows.Keys == old(rows).Keys && forall id :: id in rows && id !in reaped ==> rows[id] == old(rows)[id]
      ensures forall id :: id in reaped ==>
        var r := old(rows)[id];
        rows[id] == r.(
          status := if r.attempts >= r.maxAttempts then Dead else Pending,
          finishedAt := if r.attempts >= r.maxAttempts then Some(now) else None,
          lockedBy := None, lockedAt := None)
    {
      ghost var before := View();
      reaped := [];
      for id := 1 to nextId
        invariant rows.Keys == before.rows.Keys
        invariant forall other :: other in rows ==>
          rows[other] == if other < id && IsExpired(before.rows[other], now, timeout)
                         then Reaped(before.rows[other], now) else before.rows[other]
        invariant forall other :: other in reaped <==>
          other in rows && other < id && IsExpired(before.rows[other], now, timeout)
        invariant forall i :: 0 <= i < |reaped| ==> reaped[i] < id
        invariant forall i, j :: 0 <= i < j < |reaped| ==> reaped[i] < reaped[j]
      {
        if id in rows && IsExpired(rows[id], now, timeout) {
          rows := rows[id := Reaped(rows[id], now)];
          reaped := reaped + [id];
        }
      }
      ReapInPlace(before, timeout, rows);
    }

    /** REQUEUE: how many dead rows became pending again. */
    method RequeueDead(wantedId: Option<int>, wantedQueue: Option<Queue>) returns (count: nat)
      requires ValidIds(View())
      modifies this`rows
      ensures View() == Apply(old(View()), Op.Requeue(wantedId, wantedQueue))
      ensures rows.Keys == old(rows).Keys && count == |Changed(old(rows), rows)|
      ensures forall id :: id in rows ==>
        var r := old(rows)[id];
        rows[id] == if && r.status.Dead? && (wantedId == None || wantedId == Some(id))
                       && (wantedQueue == None || wantedQueue == Some(r.queue))
                    then r.(status := Pending, attempts := 0, availableAt := now, finishedAt := None) else r
    {
      ghost var before := View();
      count := 0;
      for id := 1 to nextId
        invariant rows.Keys == before.rows.Keys
        invariant forall other :: other in rows ==>
          rows[other] == if other < id && IsDeadMatch(before.rows[other], other, wantedId, wantedQueue)
                         then Requeued(before.rows[other], now) else before.rows[other]
        invariant count == |Changed(before.rows, rows)|
      {
        if id in rows && IsDeadMatch(rows[id], id, wantedId, wantedQueue) {
          OneMoreChanged(before.rows, rows, rows[id := Requeued(rows[id], now)], id);
          rows := rows[id := Requeued(rows[id], now)];
          count := count + 1;
        }
      }
      RequeueInPlace(before, wantedId, wantedQueue, rows);
    }

    /** PURGE_DEAD: how many dead rows were deleted. */
    method PurgeDead(wantedQueue: Option<Queue>) returns (count: nat)
      requires ValidIds(View())
      modifies this`rows
      ensures View() == Apply(old(View()), Op.Purge(wantedQueue))
      ensures count == |Changed(old(rows), rows)|
      ensures forall id :: id in rows ==> id in old(rows) && rows[id] == old(rows)[id]
      ensures forall id :: id in old(rows) && id !in rows <==>
        && id in old(rows) && old(rows)[id].status.Dead?
        && (wantedQueue == None || wantedQueue == Some(old(rows)[id].queue))
    {
      ghost var before := View();
      count := 0;
      for id := 1 to nextId
        invariant forall other :: other in rows <==>
          other in before.rows && !(other < id && IsDeadMatch(before.rows[other], other, None, wantedQueue))
        invariant forall other :: other in rows ==> rows[other] == before.rows[other]
        invariant count == |Changed(before.rows, rows)|
      {
        if id in rows && IsDeadMatch(rows[id], id, None, wantedQueue) {
          OneMoreChanged(before.rows, rows, rows - {id}, id);
          rows := rows - {id};
          count := count + 1;
        }
      }
      PurgeInPlace(before, wantedQueue, rows);
    }

    /** TRUNCATE messages RESTART IDENTITY. */
    method Reset()
      modifies this`rows, this`nextId
      ensures View() == Apply(old(View()), Op.Reset)
      ensures rows == map[] && nextId == 1
    {
      ghost var before := View();
      rows, nextId := map[], 1;
      assert rows == Apply(before, Op.Reset).rows;
    }
  }
}
