/** Bounded delivery: a table can only change status so often unless somebody publishes or requeues. */
module Delivery {
  import opened Messages

  /** How many status changes a row has left: a claim and a release per attempt, and one release if it
    is being processed right now. */
  function Remaining(r: Row): int
  {
    match r.status
    case Pending => 2 * (r.maxAttempts - r.attempts)
    case Processing => 2 * (r.maxAttempts - r.attempts) + 1
    case _ => 0
  }

  /** Remaining, summed over the rows with an id below `bound`. */
  function TotalRemaining(rows: map<int, Row>, bound: nat): int
  {
    if bound == 0 then 0
    else TotalRemaining(rows, bound - 1) + if bound - 1 in rows then Remaining(rows[bound - 1]) else 0
  }

  function StatusChange(before: map<int, Row>, after: map<int, Row>, id: int): nat
  {
    if id in before && id in after && before[id].status != after[id].status then 1 else 0
  }

  /** The number of rows below `bound` whose status differs between two tables. */
  function StatusChanges(before: map<int, Row>, after: map<int, Row>, bound: nat): nat
  {
    if bound == 0 then 0
    else StatusChanges(before, after, bound - 1) + StatusChange(before, after, bound - 1)
  }

  function ChangesInRun(db: Db, ops: seq<Op>, bound: nat): nat
    decreases |ops|
  {
    if ops == [] then 0
    else
      var next := Apply(db, ops[0]);
      StatusChanges(db.rows, next.rows, bound) + ChangesInRun(next, ops[1..], bound)
  }

  predicate AddsWork(op: Op) { op.Publish? || op.Requeue? }

  lemma {:induction false} RemainingIsNatural(db: Db, bound: nat)
    requires Valid(db)
    ensures 0 <= TotalRemaining(db.rows, bound)
  {
    if bound > 0 {
      RemainingIsNatural(db, bound - 1);
    }
  }

  lemma {:induction false} OpSpendsBudget(db: Db, op: Op, bound: nat)
    requires Valid(db) && Enabled(db, op) && !AddsWork(op)
    ensures TotalRemaining(Apply(db, op).rows, bound) + StatusChanges(db.rows, Apply(db, op).rows, bound)
         <= TotalRemaining(db.rows, bound)
  {
    if bound > 0 {
      OpSpendsBudget(db, op, bound - 1);
      var id := bound - 1;
      if id in db.rows {
      }
    }
  }

  /** A run without publish or requeue makes at most `TotalRemaining` status changes, and what it
    leaves over is still a bound for the rest. */
  lemma {:induction false} BoundedDelivery(db: Db, ops: seq<Op>, bound: nat)
    requires Valid(db) && IsRun(db, ops)
    requires forall i :: 0 <= i < |ops| ==> !AddsWork(ops[i])
    ensures ChangesInRun(db, ops, bound) + TotalRemaining(Run(db, ops).rows, bound)
         <= TotalRemaining(db.rows, bound)
    ensures ChangesInRun(db, ops, bound) <= TotalRemaining(db.rows, bound)
    decreases |ops|
  {
    if ops != [] {
      OpSpendsBudget(db, ops[0], bound);
      ApplyKeepsValid(db, ops[0]);
      BoundedDelivery(Apply(db, ops[0]), ops[1..], bound);
    }
    RunKeepsValid(db, ops);
    RemainingIsNatural(Run(db, ops), bound);
  }

  /** Releasing a message always uses up budget, and so does claiming one. */
  lemma {:induction false} TouchedRowSpends(db: Db, op: Op, bound: nat, id: int)
    requires Valid(db) && Enabled(db, op) && !AddsWork(op)
    requires id in db.rows && id < bound && id in Apply(db, op).rows
    requires Apply(db, op).rows[id].status != db.rows[id].status
    ensures TotalRemaining(Apply(db, op).rows, bound) < TotalRemaining(db.rows, bound)
  {
    OpSpendsBudget(db, op, bound);
    StatusChangeCounts(db.rows, Apply(db, op).rows, bound, id);
  }

  lemma {:induction false} StatusChangeCounts(before: map<int, Row>, after: map<int, Row>, bound: nat, id: int)
    requires 0 <= id < bound && StatusChange(before, after, id) == 1
    ensures 1 <= StatusChanges(before, after, bound)
  {
    if id < bound - 1 {
      StatusChangeCounts(before, after, bound - 1, id);
    }
  }
}
