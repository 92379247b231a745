/** The recovery deadline: how long a lease that is no longer renewed can last.

  A reaper pass is effective when it commits and skips no row. Any of several reapers may make it. */
module Recovery {
  import opened Messages

  /** When the last effective reaper pass was, given when it was before `op`. */
  function LastPass(db: Db, op: Op, timeout: Time, before: Time): Time
  {
    if op == Reap(timeout, {}) then db.now else before
  }

  /** After every statement of the run the last effective pass is at most `period` old. */
  ghost predicate PassesWithin(db: Db, ops: seq<Op>, timeout: Time, period: Time, lastPass: Time)
    decreases |ops|
  {
    ops == [] ||
      var next := Apply(db, ops[0]);
      var pass := LastPass(db, ops[0], timeout, lastPass);
      next.now - pass <= period && PassesWithin(next, ops[1..], timeout, period, pass)
  }

  /** No lease is older than it can be since the last effective pass. */
  ghost predicate LeasesFresh(db: Db, timeout: Time, lastPass: Time)
  {
    forall id :: id in db.rows && db.rows[id].status.Processing? && db.rows[id].lockedAt.Some? ==>
      lastPass - timeout <= db.rows[id].lockedAt.value
  }

  ghost predicate LeasesYoungerThan(db: Db, age: Time)
  {
    forall id :: id in db.rows && db.rows[id].status.Processing? ==>
      db.rows[id].lockedAt.Some? && db.now - db.rows[id].lockedAt.value <= age
  }

  lemma ApplyKeepsLeasesFresh(db: Db, op: Op, timeout: Time, lastPass: Time)
    requires Valid(db) && Enabled(db, op) && 0 <= timeout
    requires LeasesFresh(db, timeout, lastPass) && lastPass <= db.now
    ensures LeasesFresh(Apply(db, op), timeout, LastPass(db, op, timeout, lastPass))
    ensures LastPass(db, op, timeout, lastPass) <= Apply(db, op).now
  {
  }

  /** With effective passes at most `period` apart, no processing row ever has a lease older than the
    visibility timeout plus `period`. */
  lemma {:induction false} RecoveryDeadline(db: Db, ops: seq<Op>, timeout: Time, period: Time, lastPass: Time)
    requires Valid(db) && IsRun(db, ops) && 0 <= timeout
    requires LeasesFresh(db, timeout, lastPass) && lastPass <= db.now && db.now - lastPass <= period
    requires PassesWithin(db, ops, timeout, period, lastPass)
    ensures LeasesYoungerThan(Run(db, ops), timeout + period)
    decreases |ops|
  {
    if ops == [] {
      assert forall id :: id in db.rows ==> ValidRow(db.rows[id], db.now);
    } else {
      ApplyKeepsLeasesFresh(db, ops[0], timeout, lastPass);
      ApplyKeepsValid(db, ops[0]);
      RecoveryDeadline(Apply(db, ops[0]), ops[1..], timeout, period, LastPass(db, ops[0], timeout, lastPass));
    }
  }

  /** What no longer happens once `consumer` has been killed: it claims nothing, and no heartbeat lists its
    lease. Module Cluster derives this from the kill. */
  predicate IsWithout(op: Op, consumer: ConsumerId)
  {
    && (op.Claim? ==> op.consumer != consumer)
    && (op.Renew? ==> forall l :: l in op.leases ==> l.1 != consumer)
  }

  lemma {:induction false} UnrenewedLeaseStays(db: Db, ops: seq<Op>, consumer: ConsumerId, id: int, since: Time)
    requires IsRun(db, ops)
    requires forall i :: 0 <= i < |ops| ==> IsWithout(ops[i], consumer)
    requires id in db.rows && IsHeldBy(db.rows[id], consumer) && db.rows[id].lockedAt.Some? ==>
      db.rows[id].lockedAt.value <= since
    ensures var end := Run(db, ops);
      id in end.rows && IsHeldBy(end.rows[id], consumer) && end.rows[id].lockedAt.Some? ==>
        end.rows[id].lockedAt.value <= since
    decreases |ops|
  {
    if ops != [] {
      assert IsWithout(ops[0], consumer);
      UnrenewedLeaseStays(Apply(db, ops[0]), ops[1..], consumer, id, since);
    }
  }

  /** A consumer killed at the start of the run holds nothing any more once more than the visibility
    timeout plus `period` has passed. */
  lemma KilledConsumerIsRecovered(
    db: Db, ops: seq<Op>, timeout: Time, period: Time, lastPass: Time, consumer: ConsumerId)
    requires Valid(db) && IsRun(db, ops) && 0 <= timeout
    requires LeasesFresh(db, timeout, lastPass) && lastPass <= db.now && db.now - lastPass <= period
    requires PassesWithin(db, ops, timeout, period, lastPass)
    requires forall i :: 0 <= i < |ops| ==> IsWithout(ops[i], consumer)
    requires db.now + timeout + period < Run(db, ops).now
    ensures forall id :: id in Run(db, ops).rows ==> !IsHeldBy(Run(db, ops).rows[id], consumer)
  {
    RecoveryDeadline(db, ops, timeout, period, lastPass);
    forall id | id in Run(db, ops).rows ensures !IsHeldBy(Run(db, ops).rows[id], consumer) {
      UnrenewedLeaseStays(db, ops, consumer, id, db.now);
    }
  }
}
