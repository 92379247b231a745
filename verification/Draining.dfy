/** Draining: no message gets stuck. A schedule of waits, reaps, claims and settlements finishes any table. */
module Draining {
  import opened Prelude
  import opened Messages
  import opened Delivery
  import opened BrokerTable

  predicate IsFinished(r: Row) { r.status.Done? || r.status.Dead? }

  /** The statements of a rescue: the clock, reaps, and the claims, acks and nacks of one consumer. */
  predicate IsRescue(op: Op, consumer: ConsumerId, timeout: Time)
  {
    match op
    case Elapse(_) => true
    case Reap(t, skipped) => t == timeout && skipped == {}
    case Claim(_, c, _) => c == consumer
    case Ack(_, c) => c == consumer
    case Nack(_, c) => c == consumer
    case _ => false
  }

  lemma {:induction false} RunThenApply(db: Db, ops: seq<Op>, op: Op)
    requires IsRun(db, ops) && Enabled(Run(db, ops), op)
    ensures IsRun(db, ops + [op]) && Run(db, ops + [op]) == Apply(Run(db, ops), op)
    decreases |ops|
  {
    if ops == [] {
      assert ops + [op] == [op];
      assert IsRun(Apply(db, op), []);
    } else {
      assert (ops + [op])[1..] == ops[1..] + [op];
      RunThenApply(Apply(db, ops[0]), ops[1..], op);
    }
  }

  /** A schedule under construction: the statements issued so far, from the table it started with. */
  ghost predicate IsSchedule(start: Db, ops: seq<Op>, db: Db, consumer: ConsumerId, timeout: Time)
  {
    && IsRun(start, ops) && db == Run(start, ops)
    && Valid(db)
    && db.rows.Keys == start.rows.Keys && db.nextId == start.nextId
    && forall i :: 0 <= i < |ops| ==> IsRescue(ops[i], consumer, timeout)
  }

  lemma RescueKeepsSchedule(start: Db, ops: seq<Op>, db: Db, op: Op, consumer: ConsumerId, timeout: Time)
    requires IsSchedule(start, ops, db, consumer, timeout)
    requires Enabled(db, op) && IsRescue(op, consumer, timeout)
    ensures IsSchedule(start, ops + [op], Apply(db, op), consumer, timeout)
    ensures TotalRemaining(Apply(db, op).rows, start.nextId) <= TotalRemaining(db.rows, start.nextId)
  {
    RunThenApply(start, ops, op);
    ApplyKeepsValid(db, op);
    OpSpendsBudget(db, op, db.nextId);
  }

  method FindUnfinished(b: Broker) returns (found: Option<int>)
    requires ValidIds(b.View())
    ensures found.Some? ==> found.value in b.rows && !IsFinished(b.rows[found.value])
    ensures found.None? ==> forall id :: id in b.rows ==> IsFinished(b.rows[id])
  {
    found := None;
    for id := 1 to b.nextId
      invariant forall other :: other in b.rows && other < id ==> IsFinished(b.rows[other])
    {
      if id in b.rows && !IsFinished(b.rows[id]) {
        return Some(id);
      }
    }
  }

  lemma WaitingLetsReap(db: Db, id: int, timeout: Time)
    requires Valid(db) && 0 <= timeout && id in db.rows && db.rows[id].status.Processing?
    ensures var waited := Apply(db, Elapse(timeout + 1));
      TotalRemaining(Apply(waited, Op.Reap(timeout, {})).rows, db.nextId) < TotalRemaining(db.rows, db.nextId)
  {
    var waited := Apply(db, Elapse(timeout + 1));
    assert ValidRow(db.rows[id], db.now);
    ApplyKeepsValid(db, Elapse(timeout + 1));
    OpSpendsBudget(db, Elapse(timeout + 1), db.nextId);
    assert IsExpired(waited.rows[id], waited.now, timeout);
    TouchedRowSpends(waited, Op.Reap(timeout, {}), db.nextId, id);
  }

  lemma ClaimSpends(db: Db, queue: Queue, consumer: ConsumerId, picked: int)
    requires Valid(db) && IsReadyId(db, queue, picked)
    ensures TotalRemaining(Apply(db, Op.Claim(queue, consumer, Some(picked))).rows, db.nextId)
          < TotalRemaining(db.rows, db.nextId)
  {
    TouchedRowSpends(db, Op.Claim(queue, consumer, Some(picked)), db.nextId, picked);
  }

  /** A row left processing by a crash: wait its lease out and reap. */
  method Recover(b: Broker, id: int, consumer: ConsumerId, timeout: Time, ghost start: Db, ghost ops: seq<Op>)
    returns (ghost done: seq<Op>)
    requires 0 <= timeout && IsSchedule(start, ops, b.View(), consumer, timeout)
    requires id in b.rows && b.rows[id].status.Processing?
    modifies b
    ensures IsSchedule(start, done, b.View(), consumer, timeout)
    ensures TotalRemaining(b.rows, start.nextId) < TotalRemaining(old(b.rows), start.nextId)
  {
    WaitingLetsReap(b.View(), id, timeout);
    ghost var db0 := b.View();
    b.Wait(timeout + 1);
    ghost var db1 := b.View();
    RescueKeepsSchedule(start, ops, db0, Elapse(timeout + 1), consumer, timeout);
    done := ops + [Elapse(timeout + 1)];
    var reaped := b.Reap(timeout);
    RescueKeepsSchedule(start, done, db1, Op.Reap(timeout, {}), consumer, timeout);
    done := done + [Op.Reap(timeout, {})];
  }

  /** A pending row: wait until it is available and claim from its queue; the handler may do anything. */
  method Deliver(b: Broker, id: int, consumer: ConsumerId, timeout: Time, ghost start: Db, ghost ops: seq<Op>)
    returns (ghost done: seq<Op>)
    requires IsSchedule(start, ops, b.View(), consumer, timeout)
    requires id in b.rows && b.rows[id].status.Pending?
    modifies b
    ensures IsSchedule(start, done, b.View(), consumer, timeout)
    ensures TotalRemaining(b.rows, start.nextId) < TotalRemaining(old(b.rows), start.nextId)
  {
    var delay := Max(0, b.rows[id].availableAt - b.now);
    var queue := b.rows[id].queue;
    ghost var db0 := b.View();
    b.Wait(delay);
    ghost var db1 := b.View();
    RescueKeepsSchedule(start, ops, db0, Elapse(delay), consumer, timeout);
    done := ops + [Elapse(delay)];
    var message := b.Claim(queue, consumer);
    ghost var claim := Op.Claim(queue, consumer, Some(message.value.id));
    RescueKeepsSchedule(start, done, db1, claim, consumer, timeout);
    done := done + [claim];
    ClaimSpends(db1, queue, consumer, message.value.id);
    done := Finish(b, message.value.id, consumer, timeout, start, done);
  }

  /** Ack or nack, whichever the handler's outcome calls for. */
  method Finish(b: Broker, id: int, consumer: ConsumerId, timeout: Time, ghost start: Db, ghost ops: seq<Op>)
    returns (ghost done: seq<Op>)
    requires IsSchedule(start, ops, b.View(), consumer, timeout)
    modifies b
    ensures IsSchedule(start, done, b.View(), consumer, timeout)
    ensures TotalRemaining(b.rows, start.nextId) <= TotalRemaining(old(b.rows), start.nextId)
  {
    ghost var db := b.View();
    var succeeded: bool := *;
    if succeeded {
      var _ := b.Ack(id, consumer);
      RescueKeepsSchedule(start, ops, db, Op.Ack(id, consumer), consumer, timeout);
      done := ops + [Op.Ack(id, consumer)];
    } else {
      var _ := b.Nack(id, consumer);
      RescueKeepsSchedule(start, ops, db, Op.Nack(id, consumer), consumer, timeout);
      done := ops + [Op.Nack(id, consumer)];
    }
  }

  /** No message gets stuck. From every valid table, whoever held its rows and has crashed, one consumer
    and one reaper bring every row to done or dead by waiting, reaping, claiming and settling, whatever
    its handlers do. */
  method Drain(b: Broker, consumer: ConsumerId, timeout: Time) returns (ghost ops: seq<Op>)
    requires Valid(b.View()) && 0 <= timeout
    modifies b
    ensures Valid(b.View()) && b.rows.Keys == old(b.rows.Keys)
    ensures forall id :: id in b.rows ==> IsFinished(b.rows[id])
    ensures IsRun(old(b.View()), ops) && b.View() == Run(old(b.View()), ops)
    ensures forall i :: 0 <= i < |ops| ==> IsRescue(ops[i], consumer, timeout)
  {
    ghost var start := b.View();
    ops := [];
    assert IsRun(start, ops);
    var unfinished := FindUnfinished(b);
    while unfinished.Some?
      invariant IsSchedule(start, ops, b.View(), consumer, timeout)
      invariant unfinished.Some? ==> unfinished.value in b.rows && !IsFinished(b.rows[unfinished.value])
      invariant unfinished.None? ==> forall id :: id in b.rows ==> IsFinished(b.rows[id])
      decreases TotalRemaining(b.rows, start.nextId)
    {
      RemainingIsNatural(b.View(), start.nextId);
      if b.rows[unfinished.value].status.Processing? {
        ops := Recover(b, unfinished.value, consumer, timeout, start, ops);
      } else {
        ops := Deliver(b, unfinished.value, consumer, timeout, start, ops);
      }
      RemainingIsNatural(b.View(), start.nextId);
      unfinished := FindUnfinished(b);
    }
  }
}
