/** What becomes of a message after a nack, a requeue, or anything else that is done to it. */
module Effects {
  import opened Prelude
  import opened Messages

  // ----- requeueing --------------------------------------------------------------------------------

  /** A requeued message is as good as published anew: it is exactly what an undelayed publish with the same queue,
    priority and max_attempts would insert. That happens to a row if and only if it is dead and has the wanted id
    and queue, where one is given, and nothing happens to any other row. */
  lemma RequeueRepublishes(db: Db, wantedId: Option<int>, wantedQueue: Option<Queue>, id: int)
    requires Valid(db) && id in db.rows
    ensures var r := db.rows[id];
      var after := Apply(db, Requeue(wantedId, wantedQueue)).rows;
      && after.Keys == db.rows.Keys
      && (after[id] != r <==>
            && r.status.Dead? && (wantedId == None || wantedId == Some(id))
            && (wantedQueue == None || wantedQueue == Some(r.queue)))
      && (after[id] != r ==>
            var published := Apply(EMPTY.(now := db.now), Publish(r.queue, 1, r.priority, 0, r.maxAttempts)).rows;
            1 in published && after[id] == published[1])
  {
    assert ValidRow(db.rows[id], db.now);
    var publish := Publish(db.rows[id].queue, 1, db.rows[id].priority, 0, db.rows[id].maxAttempts);
    assert IsNewId(EMPTY.(now := db.now), publish, 1);
  }

  // ----- the delay of a retry ----------------------------------------------------------------------

  /** Neither claims the message nor resets the table. */
  predicate LeavesPending(op: Op, id: int) { !op.Reset? && !(op.Claim? && op.picked == Some(id)) }

  /** A pending message waits for its claim: nothing else changes it. */
  lemma {:induction false} PendingWaits(db: Db, ops: seq<Op>, id: int)
    requires Valid(db) && IsRun(db, ops) && id in db.rows && db.rows[id].status.Pending?
    requires forall i :: 0 <= i < |ops| ==> LeavesPending(ops[i], id)
    ensures id in Run(db, ops).rows && Run(db, ops).rows[id] == db.rows[id]
    decreases |ops|
  {
    if ops != [] {
      ApplyKeepsValid(db, ops[0]);
      assert LeavesPending(ops[0], id) && id !in Inserted(db, ops[0]);
      PendingWaits(Apply(db, ops[0]), ops[1..], id);
    }
  }

  /** A message nacked with attempts left is ready again min(2^attempts, 60) seconds later, not sooner and not
    later, whatever is done in between but claiming it and resetting the table. */
  lemma RetryDelayIsExact(db: Db, id: int, consumer: ConsumerId, ops: seq<Op>)
    requires Valid(db) && id in db.rows && db.rows[id].status.Processing? && db.rows[id].lockedBy == Some(consumer)
    requires db.rows[id].attempts < db.rows[id].maxAttempts
    requires IsRun(Apply(db, Nack(id, consumer)), ops) && forall i :: 0 <= i < |ops| ==> LeavesPending(ops[i], id)
    ensures var after := Run(Apply(db, Nack(id, consumer)), ops);
      IsReadyId(after, db.rows[id].queue, id) <==>
        db.now + SECOND * Min(Pow2(db.rows[id].attempts), 60) <= after.now
  {
    ApplyKeepsValid(db, Nack(id, consumer));
    PendingWaits(Apply(db, Nack(id, consumer)), ops, id);
  }

  lemma ReapReleases(db: Db, id: int, timeout: Time)
    requires Valid(db) && id in db.rows && db.rows[id].status.Processing? && db.rows[id].lockedAt.Some?
    requires db.rows[id].lockedAt.value + timeout < db.now && db.rows[id].attempts < db.rows[id].maxAttempts
    ensures IsReadyId(Apply(db, Reap(timeout, {})), db.rows[id].queue, id)
  {
    assert ValidRow(db.rows[id], db.now);
  }

  /** A message reaped with attempts left is ready at once, and stays so until it is claimed. */
  lemma ReapedIsReady(db: Db, id: int, timeout: Time, ops: seq<Op>)
    requires Valid(db) && id in db.rows && db.rows[id].status.Processing? && db.rows[id].lockedAt.Some?
    requires db.rows[id].lockedAt.value + timeout < db.now && db.rows[id].attempts < db.rows[id].maxAttempts
    requires IsRun(Apply(db, Reap(timeout, {})), ops) && forall i :: 0 <= i < |ops| ==> LeavesPending(ops[i], id)
    ensures IsReadyId(Run(Apply(db, Reap(timeout, {})), ops), db.rows[id].queue, id)
  {
    ApplyKeepsValid(db, Reap(timeout, {}));
    ReapReleases(db, id, timeout);
    PendingWaits(Apply(db, Reap(timeout, {})), ops, id);
    RunGoesForward(Apply(db, Reap(timeout, {})), ops);
  }

  lemma {:induction false} RunGoesForward(db: Db, ops: seq<Op>)
    ensures db.now <= Run(db, ops).now
    decreases |ops|
  {
    if ops != [] {
      RunGoesForward(Apply(db, ops[0]), ops[1..]);
    }
  }

  // ----- what never changes ------------------------------------------------------------------------

  /** Without a reset an id is never used again, and the message under it keeps its queue, its priority and its
    max_attempts for life. */
  lemma {:induction false} IdentityIsKept(db: Db, ops: seq<Op>, id: int)
    requires Valid(db) && IsRun(db, ops) && id < db.nextId
    requires forall i :: 0 <= i < |ops| ==> !ops[i].Reset?
    ensures var after := Run(db, ops);
      && id < after.nextId
      && (id in after.rows ==>
            id in db.rows
            && var r, s := db.rows[id], after.rows[id];
               s.queue == r.queue && s.priority == r.priority && s.maxAttempts == r.maxAttempts)
    decreases |ops|
  {
    if ops != [] {
      ApplyKeepsValid(db, ops[0]);
      assert !ops[0].Reset? && id !in Inserted(db, ops[0]);
      IdentityIsKept(Apply(db, ops[0]), ops[1..], id);
    }
  }
}
