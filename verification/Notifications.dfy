/** The two NOTIFY triggers on `messages`, and exactly which statements make them fire. */
module Notifications {
  import opened Messages

  /** messages_notify_insert: WHEN (NEW.available_at <= now()). */
  predicate InsertFires(after: Row, now: Time) { after.availableAt <= now }

  /** messages_notify_requeue is AFTER UPDATE OF status: it looks only at statements that set status. */
  predicate SetsStatus(op: Op) { op.Claim? || op.Ack? || op.Nack? || op.Reap? || op.Requeue? }

  /** messages_notify_requeue: WHEN (NEW.status = 'pending' AND OLD.status <> 'pending' AND ...). */
  predicate UpdateFires(before: Row, after: Row, now: Time)
  {
    after.status.Pending? && !before.status.Pending? && after.availableAt <= now
  }

  predicate Fires(db: Db, op: Op, id: int)
  {
    || (id in Inserted(db, op) && InsertFires(Inserted(db, op)[id], db.now))
    || (id in db.rows && SetsStatus(op) && Selects(op, id, db.rows[id], db.now)
        && UpdateFires(db.rows[id], Touch(op, id, db.rows[id], db.now), db.now))
  }

  /** The queues named in the notifications of one statement; identical ones are collapsed. */
  function Notifies(db: Db, op: Op): set<Queue>
  {
    (set id | id in Inserted(db, op) && Fires(db, op, id) :: Inserted(db, op)[id].queue)
    + (set id | id in db.rows && Fires(db, op, id) :: db.rows[id].queue)
  }

  /** Row `id` is pending and available after a statement and was not pending before it. */
  predicate BecomesReady(before: Db, after: Db, id: int)
  {
    && id in after.rows && after.rows[id].status.Pending? && after.rows[id].availableAt <= after.now
    && (id in before.rows ==> !before.rows[id].status.Pending?)
  }

  lemma FiresIffBecomesReady(db: Db, op: Op, id: int)
    requires Valid(db) && Enabled(db, op)
    ensures Fires(db, op, id) <==> BecomesReady(db, Apply(db, op), id)
    ensures Fires(db, op, id) ==> Apply(db, op).rows[id].queue in Notifies(db, op)
  {
  }

  /** A queue is notified exactly when some row of it becomes pending and immediately available. */
  lemma NotifyExact(db: Db, op: Op, queue: Queue)
    requires Valid(db) && Enabled(db, op)
    ensures queue in Notifies(db, op) <==>
      exists id :: BecomesReady(db, Apply(db, op), id) && Apply(db, op).rows[id].queue == queue
  {
    var after := Apply(db, op);
    if queue in Notifies(db, op) {
      var id :| Fires(db, op, id) &&
        ((id in Inserted(db, op) && Inserted(db, op)[id].queue == queue)
         || (id in db.rows && db.rows[id].queue == queue));
      FiresIffBecomesReady(db, op, id);
    }
    forall id | BecomesReady(db, after, id) && after.rows[id].queue == queue ensures queue in Notifies(db, op) {
      FiresIffBecomesReady(db, op, id);
    }
  }

  lemma BackoffIsPositive(attempts: nat)
    ensures 0 < Backoff(attempts)
  {
    if attempts > 0 {
      BackoffIsPositive(attempts - 1);
    }
  }

  /** The statements that notify: an undelayed publish, a reap that retries, a requeue. A nack, whose
    retry always lies in the future, never does. */
  lemma WhoNotifies(db: Db, op: Op, id: int)
    requires Valid(db) && Enabled(db, op)
    ensures Fires(db, op, id) <==>
      match op
      case Publish(_, count, _, delay, maxAttempts) =>
        0 < maxAttempts && delay <= 0 && db.nextId <= id < db.nextId + count
      case Reap(timeout, skipped) =>
        id in db.rows && id !in skipped && IsExpired(db.rows[id], db.now, timeout)
        && db.rows[id].attempts < db.rows[id].maxAttempts
      case Requeue(wantedId, wantedQueue) => id in db.rows && IsDeadMatch(db.rows[id], id, wantedId, wantedQueue)
      case _ => false
  {
    if id in db.rows {
      assert ValidRow(db.rows[id], db.now);
      BackoffIsPositive(db.rows[id].attempts);
    }
  }

  lemma NackNeverNotifies(db: Db, id: int, consumer: ConsumerId)
    requires Valid(db)
    ensures Notifies(db, Nack(id, consumer)) == {}
  {
    forall row ensures !Fires(db, Nack(id, consumer), row) {
      WhoNotifies(db, Nack(id, consumer), row);
    }
  }
}
