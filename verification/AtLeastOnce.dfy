/** At-least-once delivery: a message is done only if a handler of it has succeeded, and until then it is in
  the table. */
module AtLeastOnce {
  import opened Messages
  import opened History
  import opened Consumers
  import opened Leases

  // ----- nothing is lost -----------------------------------------------------------------------------

  /** Without a reset, a message leaves the table only by a purge, and only after its last attempt. */
  lemma {:induction false} OnlyDeadDisappear(db: Db, ops: seq<Op>, id: int) returns (i: nat)
    requires Valid(db) && IsRun(db, ops) && id in db.rows && id !in Run(db, ops).rows
    requires forall k :: 0 <= k < |ops| ==> !ops[k].Reset?
    ensures i < |ops| && ops[i].Purge?
    ensures var before := Run(db, ops[..i]);
      && id in before.rows && before.rows[id].status.Dead? && before.rows[id].attempts == before.rows[id].maxAttempts
      && (ops[i].wantedQueue.Some? ==> ops[i].wantedQueue.value == before.rows[id].queue)
    decreases |ops|
  {
    var next := Apply(db, ops[0]);
    if id !in next.rows {
      i := 0;
      assert Drops(ops[0], id, db.rows[id]) && ValidRow(db.rows[id], db.now);
    } else {
      ApplyKeepsValid(db, ops[0]);
      var k := OnlyDeadDisappear(next, ops[1..], id);
      i := k + 1;
      RunBegins(db, ops, k);
    }
  }

  lemma RunBegins(db: Db, ops: seq<Op>, k: nat)
    requires k < |ops|
    ensures Run(db, ops[..k + 1]) == Run(Apply(db, ops[0]), ops[1..][..k])
  {
    assert ops[..k + 1][1..] == ops[1..][..k];
  }

  // ----- nothing is done unhandled -------------------------------------------------------------------

  /** The claim, by serial, whose handler ends in this step, with this outcome. */
  function EndsNow(w: World, e: Event, succeeded: bool): set<nat>
  {
    if e.FinishHandler? && e.succeeded == succeeded && e.consumer in w.held then {w.held[e.consumer].serial} else {}
  }

  /** The claims whose handler ends with this outcome in these events. */
  function EndedClaims(w: World, events: seq<Event>, succeeded: bool): set<nat>
    requires IsHistory(w, events)
    decreases |events|
  {
    if events == [] then {}
    else EndsNow(w, events[0], succeeded) + EndedClaims(Step(w, events[0]), events[1..], succeeded)
  }

  /** How a claim is closed by a consumer whose handler succeeded, or failed. */
  function SettledBy(succeeded: bool): Outcome { if succeeded then ByAck else ByNack }

  /** Entry `j` is the ack of a claim of `id`. */
  predicate AcksClaim(log: seq<Entry>, j: nat, id: int, serial: nat)
  {
    j < |log| && Closes(log[j], id, serial) && log[j].how.ByAck?
  }

  /** The claims that entry `j` settles in this way are among `good`. */
  ghost predicate SettlementIsEarned(log: seq<Entry>, j: nat, succeeded: bool, good: set<nat>)
  {
    j < |log| && log[j].CloseEntry? && log[j].how == SettledBy(succeeded) ==>
      forall id :: id in log[j].claims ==> log[j].claims[id] in good
  }

  /** So is the claim that `c` is about to settle. */
  ghost predicate SettlingIsEarned(w: World, c: ConsumerId, succeeded: bool, good: set<nat>)
  {
    c in w.held && c in w.tasks && w.tasks[c].phase.Settling? && w.tasks[c].phase.succeeded == succeeded ==>
      w.held[c].serial in good
  }

  /** A done message has had its latest claim acked. */
  ghost predicate DoneWasAcked(l: Ledger, id: int)
  {
    id in l.db.rows && l.db.rows[id].status.Done? ==>
      id in l.last && exists j: nat :: j < |l.log| && AcksClaim(l.log, j, id, l.last[id])
  }

  ghost predicate AllEarned(w: World, succeeded: bool, good: set<nat>)
  {
    && (forall j: nat :: SettlementIsEarned(w.l.log, j, succeeded, good))
    && (forall c :: SettlingIsEarned(w, c, succeeded, good))
  }

  lemma RecordKeepsDoneAcked(l: Ledger, op: Op, id: int)
    requires Valid(l.db) && Enabled(l.db, op) && LastIsLatest(l, id) && DoneWasAcked(l, id)
    ensures DoneWasAcked(Record(l, op), id)
  {
    var m := Record(l, op);
    if id in m.db.rows && m.db.rows[id].status.Done? {
      if id in l.db.rows && l.db.rows[id].status.Done? {
        var j: nat :| j < |l.log| && AcksClaim(l.log, j, id, l.last[id]);
        assert AcksClaim(m.log, j, id, m.last[id]);
      } else {
        assert ValidRow(l.db.rows[id], l.db.now) && id in ClosedBy(l, op);
        assert AcksClaim(m.log, |l.log|, id, m.last[id]);
      }
    }
  }

  /** An ack or nack closes the claim its consumer is handling, if it closes any. */
  lemma SettleClosesOwnClaim(w: World, c: ConsumerId)
    requires ValidWorld(w) && c in w.tasks && w.tasks[c].phase.Settling?
    ensures c in w.held
    ensures forall id :: id in ClosedBy(w.l, SettleOp(c, w.tasks[c])) ==>
      ClosedBy(w.l, SettleOp(c, w.tasks[c]))[id] == w.held[c].serial
  {
    assert HeldMatchesTask(w, c);
    OwnsRowIffClaimOpen(w, c);
  }

  lemma StepKeepsDoneAcked(w: World, e: Event, id: int)
    requires ValidWorld(w) && CanStep(w, e) && DoneWasAcked(w.l, id)
    ensures DoneWasAcked(Step(w, e).l, id)
  {
    assert LastIsLatest(w.l, id);
    if StatementOf(w, e).Some? {
      RecordKeepsDoneAcked(w.l, StatementOf(w, e).value, id);
    }
  }

  lemma {:induction false} HistoryKeepsDoneAcked(w: World, events: seq<Event>, id: int)
    requires ValidWorld(w) && IsHistory(w, events) && DoneWasAcked(w.l, id)
    ensures DoneWasAcked(After(w, events).l, id)
    decreases |events|
  {
    if events != [] {
      StepKeepsValid(w, events[0]);
      StepKeepsDoneAcked(w, events[0], id);
      HistoryKeepsDoneAcked(Step(w, events[0]), events[1..], id);
    }
  }

  lemma StepKeepsSettlementEarned(w: World, e: Event, j: nat, succeeded: bool, good: set<nat>)
    requires ValidWorld(w) && CanStep(w, e) && AllEarned(w, succeeded, good)
    ensures SettlementIsEarned(Step(w, e).l.log, j, succeeded, good)
  {
    assert SettlementIsEarned(w.l.log, j, succeeded, good);
    if e.RunSettle? {
      assert SettlingIsEarned(w, e.consumer, succeeded, good);
      SettleClosesOwnClaim(w, e.consumer);
    }
  }

  lemma StepKeepsSettlingEarned(w: World, e: Event, c: ConsumerId, succeeded: bool, good: set<nat>)
    requires ValidWorld(w) && CanStep(w, e) && SettlingIsEarned(w, c, succeeded, good)
    ensures SettlingIsEarned(Step(w, e), c, succeeded, good + EndsNow(w, e, succeeded))
  {
  }

  lemma StepKeepsEarned(w: World, e: Event, succeeded: bool, good: set<nat>)
    requires ValidWorld(w) && CanStep(w, e) && AllEarned(w, succeeded, good)
    ensures AllEarned(Step(w, e), succeeded, good + EndsNow(w, e, succeeded))
  {
    var next, more := Step(w, e), good + EndsNow(w, e, succeeded);
    forall j: nat ensures SettlementIsEarned(next.l.log, j, succeeded, more) {
      StepKeepsSettlementEarned(w, e, j, succeeded, good);
    }
    forall c ensures SettlingIsEarned(next, c, succeeded, more) {
      StepKeepsSettlingEarned(w, e, c, succeeded, good);
    }
  }

  lemma {:induction false} HistoryKeepsEarned(w: World, events: seq<Event>, succeeded: bool, good: set<nat>)
    requires ValidWorld(w) && IsHistory(w, events) && AllEarned(w, succeeded, good)
    ensures AllEarned(After(w, events), succeeded, good + EndedClaims(w, events, succeeded))
    decreases |events|
  {
    if events == [] {
      assert good + {} == good;
    } else {
      var now, next := EndsNow(w, events[0], succeeded), Step(w, events[0]);
      StepKeepsValid(w, events[0]);
      StepKeepsEarned(w, events[0], succeeded, good);
      HistoryKeepsEarned(next, events[1..], succeeded, good + now);
      assert good + now + EndedClaims(next, events[1..], succeeded) == good + EndedClaims(w, events, succeeded);
    }
  }

  /** Over any history, with whatever crashes, lost replies, reaps, requeues and resets: an ack closes a claim only
    if its own handler has succeeded, and a nack only if it has failed. */
  lemma SettledAsHandled(events: seq<Event>, j: nat, id: int, serial: nat)
    requires IsHistory(START, events)
    requires j < |After(START, events).l.log| && Closes(After(START, events).l.log[j], id, serial)
    ensures After(START, events).l.log[j].how.ByAck? ==> serial in EndedClaims(START, events, true)
    ensures After(START, events).l.log[j].how.ByNack? ==> serial in EndedClaims(START, events, false)
  {
    StartIsValid();
    HistoryKeepsEarned(START, events, true, {});
    HistoryKeepsEarned(START, events, false, {});
    var log := After(START, events).l.log;
    assert SettlementIsEarned(log, j, true, {} + EndedClaims(START, events, true));
    assert SettlementIsEarned(log, j, false, {} + EndedClaims(START, events, false));
  }

  /** And a message that is done has had a handler of its latest claim succeed. */
  lemma DoneWasHandled(events: seq<Event>, id: int)
    requires IsHistory(START, events)
    requires id in After(START, events).l.db.rows && After(START, events).l.db.rows[id].status.Done?
    ensures var w := After(START, events); id in w.l.last && w.l.last[id] in EndedClaims(START, events, true)
  {
    StartIsValid();
    HistoryKeepsDoneAcked(START, events, id);
    var w := After(START, events);
    var j: nat :| j < |w.l.log| && AcksClaim(w.l.log, j, id, w.l.last[id]);
    SettledAsHandled(events, j, id, w.l.last[id]);
  }
}
