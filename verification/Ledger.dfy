/** The table together with its history: every claim, and what closed it.

  The history is bookkeeping of the model, not a table of the broker. A claim is identified by its
  serial, its position in the log, so "the latest claim of a message" and "the claim a consumer
  believes it holds" are different things that can be compared. */
module History {
  import opened Prelude
  import opened Messages

  datatype Outcome = ByAck | ByNack | ByReap

  datatype Entry =
    | ClaimEntry(id: int, consumer: ConsumerId, attempt: nat, at: Time)
    | CloseEntry(how: Outcome, claims: map<int, nat>, at: Time)  // message id := serial of its claim
    | RequeueEntry(ids: set<int>)
    | ResetEntry

  /** `last` maps every message that has been claimed since it was published or requeued to the serial
    of its latest claim. */
  datatype Ledger = Ledger(db: Db, log: seq<Entry>, last: map<int, nat>)

  const BLANK: Ledger := Ledger(EMPTY, [], map[])

  /** The claims that `op` ends, by message. */
  function ClosedBy(l: Ledger, op: Op): map<int, nat>
  {
    if op.Ack? || op.Nack? || op.Reap? then
      map id | id in l.last && id in l.db.rows && Selects(op, id, l.db.rows[id], l.db.now) :: l.last[id]
    else map[]
  }

  function RequeuedBy(db: Db, op: Op): set<int>
  {
    if op.Requeue? then set id | id in db.rows && Selects(op, id, db.rows[id], db.now) else {}
  }

  function Recorded(l: Ledger, op: Op): seq<Entry>
  {
    match op
    case Claim(_, consumer, picked) =>
      if picked.Some? && picked.value in l.db.rows then
        [ClaimEntry(picked.value, consumer, l.db.rows[picked.value].attempts + 1, l.db.now)]
      else []
    case Ack(_, _) => if ClosedBy(l, op) == map[] then [] else [CloseEntry(ByAck, ClosedBy(l, op), l.db.now)]
    case Nack(_, _) => if ClosedBy(l, op) == map[] then [] else [CloseEntry(ByNack, ClosedBy(l, op), l.db.now)]
    case Reap(_, _) => [CloseEntry(ByReap, ClosedBy(l, op), l.db.now)]
    case Requeue(_, _) => [RequeueEntry(RequeuedBy(l.db, op))]
    case Reset => [ResetEntry]
    case _ => []
  }

  function Record(l: Ledger, op: Op): Ledger
  {
    var db := Apply(l.db, op);
    var last :=
      if op.Claim? && op.picked.Some? then l.last[op.picked.value := |l.log|]
      else map id | id in l.last && id in db.rows && id !in RequeuedBy(l.db, op) :: l.last[id];
    Ledger(db, l.log + Recorded(l, op), last)
  }

  // ----- reading the log -------------------------------------------------------------------------

  predicate Claims(e: Entry, id: int) { e.ClaimEntry? && e.id == id }

  predicate Closes(e: Entry, id: int, serial: nat)
  {
    e.CloseEntry? && id in e.claims && e.claims[id] == serial
  }

  /** After such an entry message `id` starts again with no attempts (a reset also restarts the ids). */
  predicate Restarts(e: Entry, id: int)
  {
    e.ResetEntry? || (e.RequeueEntry? && id in e.ids)
  }

  /** The claim with this serial has been ended neither by ack, nack or reap nor by a reset. */
  ghost predicate IsOpen(log: seq<Entry>, serial: nat)
    requires serial < |log| && log[serial].ClaimEntry?
  {
    forall j :: serial < j < |log| ==> !Closes(log[j], log[serial].id, serial) && !log[j].ResetEntry?
  }

  /** `id` has been neither claimed nor restarted strictly between two positions. */
  ghost predicate Quiet(log: seq<Entry>, id: int, from: int, to: int)
    requires to <= |log| && 0 <= from
  {
    forall j :: from < j < to ==> !Claims(log[j], id) && !Restarts(log[j], id)
  }

  /** The number of claims of `id` since it was published or last requeued. */
  function ClaimsSinceStart(log: seq<Entry>, id: int): nat
    decreases |log|
  {
    if log == [] then 0
    else
      var e := log[|log| - 1];
      if Restarts(e, id) then 0
      else ClaimsSinceStart(log[..|log| - 1], id) + if Claims(e, id) then 1 else 0
  }

  // ----- invariants, for one message or one claim at a time ----------------------------------------

  /** `last` points at the latest claim of `id`, and that claim carries its attempt number. */
  ghost predicate LastIsLatest(l: Ledger, id: int)
  {
    && (id in l.last ==> id in l.db.rows)
    && (id in l.db.rows ==> (id in l.last <==> 1 <= l.db.rows[id].attempts))
    && (id in l.last ==>
          && l.last[id] < |l.log|
          && Claims(l.log[l.last[id]], id)
          && Quiet(l.log, id, l.last[id], |l.log|)
          && l.log[l.last[id]].attempt == l.db.rows[id].attempts
          && l.log[l.last[id]].at <= l.db.now)
  }

  /** A message that is being processed has an open latest claim, by the consumer in locked_by. */
  ghost predicate LeaseIsOpen(l: Ledger, id: int)
  {
    id in l.last && id in l.db.rows && l.db.rows[id].status.Processing? && l.last[id] < |l.log|
      && Claims(l.log[l.last[id]], id) ==>
    && IsOpen(l.log, l.last[id])
    && l.db.rows[id].lockedBy == Some(l.log[l.last[id]].consumer)
    && (l.db.rows[id].lockedAt.Some? ==> l.log[l.last[id]].at <= l.db.rows[id].lockedAt.value)
  }

  /** An open claim is a lease in the table. */
  ghost predicate OpenIsLeased(l: Ledger, serial: nat)
  {
    serial < |l.log| && l.log[serial].ClaimEntry? && IsOpen(l.log, serial) ==>
      var id := l.log[serial].id;
      id in l.last && l.last[id] == serial && id in l.db.rows && l.db.rows[id].status.Processing?
  }

  /** attempts counts the claims since the message was published or last requeued. */
  ghost predicate AttemptsCountClaims(l: Ledger, id: int)
  {
    && (id in l.db.rows ==> l.db.rows[id].attempts == ClaimsSinceStart(l.log, id))
    && (l.db.nextId <= id ==> ClaimsSinceStart(l.log, id) == 0)
  }

  /** What the entry at `j` closes are claims made earlier, and not closed before. */
  ghost predicate ClosesOpenClaims(log: seq<Entry>, j: nat)
  {
    j < |log| && log[j].CloseEntry? ==>
      forall id :: id in log[j].claims ==>
        && log[j].claims[id] < j
        && Claims(log[log[j].claims[id]], id)
        && forall i :: log[j].claims[id] < i < j ==> !Closes(log[i], id, log[j].claims[id]) && !log[i].ResetEntry?
  }

  ghost predicate ValidLedger(l: Ledger)
  {
    && Valid(l.db)
    && (forall id :: LastIsLatest(l, id))
    && (forall id :: LeaseIsOpen(l, id))
    && (forall serial: nat :: OpenIsLeased(l, serial))
    && (forall id :: AttemptsCountClaims(l, id))
    && (forall j: nat :: ClosesOpenClaims(l.log, j))
  }

  // ----- every statement keeps them --------------------------------------------------------------

  lemma RecordKeepsLast(l: Ledger, op: Op, id: int)
    requires ValidIds(l.db) && Enabled(l.db, op) && LastIsLatest(l, id)
    ensures LastIsLatest(Record(l, op), id)
  {
    var m := Record(l, op);
    assert id in m.db.rows ==> (id in m.last <==> 1 <= m.db.rows[id].attempts);
    if id in m.last {
      assert Quiet(m.log, id, m.last[id], |m.log|);
      assert m.log[m.last[id]].attempt == m.db.rows[id].attempts;
    }
  }

  /** A claim adds one to the attempts of the row it picks, and one claim to the log. */
  lemma ClaimKeepsCount(l: Ledger, op: Op, id: int)
    requires ValidIds(l.db) && Enabled(l.db, op) && op.Claim? && op.picked.Some? && AttemptsCountClaims(l, id)
    ensures AttemptsCountClaims(Record(l, op), id)
  {
    var e := ClaimEntry(op.picked.value, op.consumer, l.db.rows[op.picked.value].attempts + 1, l.db.now);
    assert Recorded(l, op) == [e];
  }

  /** A requeue or a reset starts the count again. */
  lemma RestartKeepsCount(l: Ledger, op: Op, id: int)
    requires ValidIds(l.db) && (op.Requeue? || op.Reset?) && AttemptsCountClaims(l, id)
    ensures AttemptsCountClaims(Record(l, op), id)
  {
    var e := if op.Reset? then ResetEntry else RequeueEntry(RequeuedBy(l.db, op));
    assert Recorded(l, op) == [e];
  }

  /** No other statement counts. */
  lemma OthersKeepCount(l: Ledger, op: Op, id: int)
    requires ValidIds(l.db) && (op.Claim? ==> op.picked.None?) && !op.Requeue? && !op.Reset?
    requires AttemptsCountClaims(l, id)
    ensures AttemptsCountClaims(Record(l, op), id)
  {
    var entry := Recorded(l, op);
    if entry == [] {
      assert Record(l, op).log == l.log;
    } else {
      assert entry == [entry[0]] && entry[0].CloseEntry?;
    }
    assert ClaimsSinceStart(Record(l, op).log, id) == ClaimsSinceStart(l.log, id);
  }

  lemma RecordKeepsLease(l: Ledger, op: Op, id: int)
    requires Valid(l.db) && Enabled(l.db, op) && LastIsLatest(l, id) && LeaseIsOpen(l, id)
    ensures LeaseIsOpen(Record(l, op), id)
  {
    var m := Record(l, op);
    if id in m.last && id in m.db.rows && m.db.rows[id].status.Processing? {
      if id in l.last && m.last[id] == l.last[id] {
        assert !Selects(op, id, l.db.rows[id], l.db.now) || op.Renew?;
        assert l.db.rows[id].status.Processing?;
      }
    }
  }

  lemma RecordKeepsOpen(l: Ledger, op: Op, serial: nat)
    requires ValidIds(l.db) && Enabled(l.db, op) && OpenIsLeased(l, serial)
    requires serial < |l.log| && l.log[serial].ClaimEntry? ==> LastIsLatest(l, l.log[serial].id)
    ensures OpenIsLeased(Record(l, op), serial)
  {
    var m := Record(l, op);
    if serial < |l.log| && l.log[serial].ClaimEntry? && IsOpen(m.log, serial) {
      assert forall j :: serial < j < |l.log| ==> l.log[j] == m.log[j];
      assert IsOpen(l.log, serial);
      var id := l.log[serial].id;
      if Recorded(l, op) != [] {
        assert m.log[|l.log|] == Recorded(l, op)[0];
      }
    }
  }

  lemma RecordKeepsClosings(l: Ledger, op: Op)
    requires ValidLedger(l)
    ensures ClosesOpenClaims(Record(l, op).log, |l.log|)
  {
    var m := Record(l, op);
    if Recorded(l, op) != [] && m.log[|l.log|].CloseEntry? {
      assert m.log[|l.log|].claims == ClosedBy(l, op);
      forall id | id in ClosedBy(l, op)
        ensures l.last[id] < |l.log| && Claims(l.log[l.last[id]], id) && IsOpen(l.log, l.last[id])
      {
        assert LastIsLatest(l, id) && LeaseIsOpen(l, id);
      }
    }
  }

  lemma RecordKeepsValid(l: Ledger, op: Op)
    requires ValidLedger(l) && Enabled(l.db, op)
    ensures ValidLedger(Record(l, op))
  {
    var m := Record(l, op);
    ApplyKeepsValid(l.db, op);
    forall id ensures LastIsLatest(m, id) { RecordKeepsLast(l, op, id); }
    forall id ensures LeaseIsOpen(m, id) { RecordKeepsLease(l, op, id); }
    forall id ensures AttemptsCountClaims(m, id) {
      if op.Claim? && op.picked.Some? {
        ClaimKeepsCount(l, op, id);
      } else if op.Requeue? || op.Reset? {
        RestartKeepsCount(l, op, id);
      } else {
        OthersKeepCount(l, op, id);
      }
    }
    forall serial: nat ensures OpenIsLeased(m, serial) { RecordKeepsOpen(l, op, serial); }
    forall j: nat ensures ClosesOpenClaims(m.log, j) {
      assert ClosesOpenClaims(l.log, j);
      if j >= |l.log| {
        RecordKeepsClosings(l, op);
      }
    }
  }

  // ----- whole runs ------------------------------------------------------------------------------

  function Replay(l: Ledger, ops: seq<Op>): Ledger
    decreases |ops|
  {
    if ops == [] then l else Replay(Record(l, ops[0]), ops[1..])
  }

  lemma {:induction false} ReplayKeepsValid(l: Ledger, ops: seq<Op>)
    requires ValidLedger(l) && IsRun(l.db, ops)
    ensures ValidLedger(Replay(l, ops)) && Replay(l, ops).db == Run(l.db, ops)
    decreases |ops|
  {
    if ops != [] {
      RecordKeepsValid(l, ops[0]);
      ReplayKeepsValid(Record(l, ops[0]), ops[1..]);
    }
  }

  /** Over any run from the empty table, attempts is the number of claims since publish or requeue. */
  lemma AttemptsAlwaysCountClaims(ops: seq<Op>, id: int)
    requires IsRun(EMPTY, ops)
    ensures var l := Replay(BLANK, ops);
      id in l.db.rows ==> l.db.rows[id].attempts == ClaimsSinceStart(l.log, id) <= l.db.rows[id].maxAttempts
  {
    ReplayKeepsValid(BLANK, ops);
    assert AttemptsCountClaims(Replay(BLANK, ops), id);
  }

  /** Over any run, no claim is closed by two of ack, nack and reap, nor twice by one of them. In
    particular the passes of concurrent reapers return disjoint (message, claim) pairs. */
  lemma EveryClaimClosesOnce(ops: seq<Op>, i: nat, j: nat, id: int, serial: nat)
    requires IsRun(EMPTY, ops)
    requires i < |Replay(BLANK, ops).log| && j < |Replay(BLANK, ops).log|
    requires Closes(Replay(BLANK, ops).log[i], id, serial) && Closes(Replay(BLANK, ops).log[j], id, serial)
    ensures i == j
    ensures serial < i && Claims(Replay(BLANK, ops).log[serial], id)
  {
    ReplayKeepsValid(BLANK, ops);
    var log := Replay(BLANK, ops).log;
    assert ClosesOpenClaims(log, i) && ClosesOpenClaims(log, j);
  }

  // ----- at most one successful ack ------------------------------------------------------------------

  predicate IsAckOf(e: Entry, id: int) { e.CloseEntry? && e.how.ByAck? && id in e.claims }

  ghost predicate ResetBetween(log: seq<Entry>, i: int, j: int)
    requires 0 <= i && j <= |log|
  {
    exists k :: i < k < j && log[k].ResetEntry?
  }

  ghost predicate AckedIsDone(l: Ledger, i: nat, id: int)
  {
    i < |l.log| && IsAckOf(l.log[i], id) && !ResetBetween(l.log, i, |l.log|) ==>
      id in l.db.rows && l.db.rows[id].status.Done?
  }

  ghost predicate AcksApart(log: seq<Entry>, i: nat, j: nat, id: int)
  {
    i < j < |log| && IsAckOf(log[i], id) && IsAckOf(log[j], id) ==> ResetBetween(log, i, j)
  }

  lemma RecordKeepsAcked(l: Ledger, op: Op, i: nat, id: int)
    requires ValidIds(l.db) && Enabled(l.db, op) && AckedIsDone(l, i, id)
    ensures AckedIsDone(Record(l, op), i, id)
  {
    var m := Record(l, op);
    if i < |l.log| && ResetBetween(l.log, i, |l.log|) {
      var k :| i < k < |l.log| && l.log[k].ResetEntry?;
      assert m.log[k].ResetEntry?;
    } else if op.Reset? {
      assert m.log[|l.log|].ResetEntry?;
    }
  }

  lemma RecordKeepsAcksApart(l: Ledger, op: Op, i: nat, j: nat, id: int)
    requires ValidIds(l.db) && AckedIsDone(l, i, id) && AcksApart(l.log, i, j, id)
    ensures AcksApart(Record(l, op).log, i, j, id)
  {
    var m := Record(l, op);
    if i < j < |m.log| && IsAckOf(m.log[i], id) && IsAckOf(m.log[j], id) {
      var to := if j < |l.log| then j else |l.log|;
      assert ResetBetween(l.log, i, to);
      var k :| i < k < to && l.log[k].ResetEntry?;
      assert m.log[k].ResetEntry?;
    }
  }

  lemma {:induction false} ReplayKeepsAcksApart(l: Ledger, ops: seq<Op>, i: nat, j: nat, id: int)
    requires ValidLedger(l) && IsRun(l.db, ops) && AckedIsDone(l, i, id) && AcksApart(l.log, i, j, id)
    ensures AcksApart(Replay(l, ops).log, i, j, id)
    decreases |ops|
  {
    if ops != [] {
      RecordKeepsValid(l, ops[0]);
      RecordKeepsAcked(l, ops[0], i, id);
      RecordKeepsAcksApart(l, ops[0], i, j, id);
      ReplayKeepsAcksApart(Record(l, ops[0]), ops[1..], i, j, id);
    }
  }

  /** Over any run, no message has two successful acks: between two of the same id lies a reset, after
    which the id names another message. */
  lemma AckedAtMostOnce(ops: seq<Op>, i: nat, j: nat, id: int)
    requires IsRun(EMPTY, ops)
    requires i < j < |Replay(BLANK, ops).log|
    requires IsAckOf(Replay(BLANK, ops).log[i], id) && IsAckOf(Replay(BLANK, ops).log[j], id)
    ensures exists k :: i < k < j && Replay(BLANK, ops).log[k].ResetEntry?
  {
    ReplayKeepsAcksApart(BLANK, ops, i, j, id);
  }
}
