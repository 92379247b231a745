/** What timely heartbeats add to fencing: mutual exclusion. */
module Heartbeats {
  import opened Prelude
  import opened Messages
  import opened Consumers
  import opened Leases

  /** The consumer has made a claim, whether it has heard of it or not, and has not executed its ack or nack. */
  predicate IsHolding(w: World, c: ConsumerId)
  {
    c in w.held && !(c in w.replies && w.replies[c].SettleReply?)
  }

  /** Every lease held by a live consumer was claimed or renewed within `beat`; a consumer whose worker
    has stopped its heartbeats has settled or been cancelled within `grace` of that moment. */
  ghost predicate Timely(w: World, beat: Time, grace: Time)
  {
    forall c :: IsHolding(w, c) ==>
      if c in w.quiet then w.l.db.now - w.quiet[c] <= grace
      else w.l.db.now - w.held[c].since <= beat
  }

  ghost predicate TimelyHistory(w: World, events: seq<Event>, beat: Time, grace: Time)
    requires IsHistory(w, events)
    decreases |events|
  {
    Timely(w, beat, grace) && (events == [] || TimelyHistory(Step(w, events[0]), events[1..], beat, grace))
  }

  ghost predicate NobodyHolds(w: World) { forall c :: !IsHolding(w, c) }

  /** One visibility timeout for all reapers, and no reset while a message is held. */
  ghost predicate IsOrdinary(w: World, e: Event, timeout: Time)
  {
    e.Execute? ==> (e.op.Reset? ==> NobodyHolds(w)) && (e.op.Reap? ==> e.op.timeout == timeout)
  }

  ghost predicate OrdinaryHistory(w: World, events: seq<Event>, timeout: Time)
    requires IsHistory(w, events)
    decreases |events|
  {
    events == [] || (IsOrdinary(w, events[0], timeout) && OrdinaryHistory(Step(w, events[0]), events[1..], timeout))
  }

  /** What a live consumer believes is true: the message it handles is leased to it, and the lease is as
    old as it thinks. Its heartbeats were timely until they stopped. */
  ghost predicate IsRight(w: World, c: ConsumerId, beat: Time)
  {
    IsHolding(w, c) ==>
      && OwnsRow(w, c, w.held[c].id)
      && w.l.db.rows[w.held[c].id].lockedAt == Some(w.held[c].since)
      && (c in w.quiet ==> w.quiet[c] - beat <= w.held[c].since)
  }

  ghost predicate QuietIsPast(w: World, c: ConsumerId) { c in w.quiet ==> w.quiet[c] <= w.l.db.now }

  /** No statement but its holder's own ack or nack takes an unexpired lease away. */
  lemma LeaseSurvives(db: Db, op: Op, id: int, c: ConsumerId)
    requires ValidIds(db) && Enabled(db, op) && id in db.rows && IsHeldBy(db.rows[id], c)
    requires !op.Reset? && op != Ack(id, c) && op != Nack(id, c)
    requires op.Reap? ==> !IsExpired(db.rows[id], db.now, op.timeout)
    ensures var after := Apply(db, op);
      && id in after.rows && IsHeldBy(after.rows[id], c)
      && after.rows[id].lockedAt ==
           if op.Renew? && (id, c) in op.leases then Some(db.now) else db.rows[id].lockedAt
  {
  }

  /** A step that leaves c's message in its hands leaves c its row. */
  lemma StepKeepsRow(w: World, e: Event, c: ConsumerId, timeout: Time)
    requires ValidWorld(w) && CanStep(w, e) && IsOrdinary(w, e, timeout)
    requires IsHolding(w, c) && OwnsRow(w, c, w.held[c].id) && IsHolding(Step(w, e), c)
    requires !IsExpired(w.l.db.rows[w.held[c].id], w.l.db.now, timeout)
    ensures var id := w.held[c].id;
      && Step(w, e).held[c].id == id && OwnsRow(Step(w, e), c, id)
      && Step(w, e).l.db.rows[id].lockedAt ==
           if e.Execute? && e.op.Renew? && (id, c) in e.op.leases then Some(w.l.db.now)
           else w.l.db.rows[id].lockedAt
  {
    assert HeldMatchesTask(w, c);
    match StatementOf(w, e)
    case Some(op) => LeaseSurvives(w.l.db, op, w.held[c].id, c);
    case None =>
  }

  lemma StepKeepsRight(w: World, e: Event, c: ConsumerId, beat: Time, grace: Time, timeout: Time)
    requires ValidWorld(w) && CanStep(w, e) && IsOrdinary(w, e, timeout)
    requires 0 <= beat <= timeout && (c in w.quiet ==> beat + grace <= timeout)
    requires Timely(w, beat, grace) && IsRight(w, c, beat) && QuietIsPast(w, c)
    ensures IsRight(Step(w, e), c, beat)
  {
    assert HeldMatchesTask(w, c);
    if IsHolding(Step(w, e), c) {
      if IsHolding(w, c) {
        StepKeepsRow(w, e, c, timeout);
      } else {
        ClaimIsLeased(w.l.db, w.tasks[c].queue, c, e.picked);
      }
    }
  }

  lemma StepKeepsQuietPast(w: World, e: Event, c: ConsumerId)
    requires CanStep(w, e) && QuietIsPast(w, c)
    ensures QuietIsPast(Step(w, e), c)
  {
  }

  lemma ClaimIsLeased(db: Db, queue: Queue, c: ConsumerId, picked: Option<int>)
    requires ValidIds(db) && Enabled(db, Op.Claim(queue, c, picked))
    ensures picked.Some? ==>
      var after := Apply(db, Op.Claim(queue, c, picked));
      && picked.value in after.rows && IsHeldBy(after.rows[picked.value], c)
      && after.rows[picked.value].lockedAt == Some(db.now)
  {
  }

  lemma {:induction false} HistoryKeepsRight(w: World, events: seq<Event>, beat: Time, grace: Time, timeout: Time)
    requires ValidWorld(w) && IsHistory(w, events) && TimelyHistory(w, events, beat, grace)
    requires 0 <= beat <= timeout
    requires forall c :: IsRight(w, c, beat) && QuietIsPast(w, c)
    requires OrdinaryHistory(w, events, timeout)
    requires beat + grace <= timeout
      || (w.quiet == map[] && forall i :: 0 <= i < |events| ==> !events[i].StopHeartbeats?)
    ensures forall c :: IsRight(After(w, events), c, beat)
    decreases |events|
  {
    if events != [] {
      var next := Step(w, events[0]);
      StepKeepsValid(w, events[0]);
      forall c ensures IsRight(next, c, beat) && QuietIsPast(next, c) {
        StepKeepsRight(w, events[0], c, beat, grace, timeout);
        StepKeepsQuietPast(w, events[0], c);
      }
      HistoryKeepsRight(next, events[1..], beat, grace, timeout);
    }
  }

  /** The consumer's handler is running on message `id`, or has ended and its ack or nack has yet to be executed. */
  predicate IsActive(w: World, c: ConsumerId, id: int)
  {
    c in w.tasks && IsHandling(w.tasks[c]) && w.tasks[c].phase.message == id && c !in w.replies
  }

  lemma ActiveIsHolding(w: World, c: ConsumerId, id: int)
    requires HeldMatchesTask(w, c) && IsActive(w, c, id)
    ensures IsHolding(w, c) && w.held[c].id == id
  {
  }

  /** Mutual exclusion. If every held lease is renewed or closed within `beat`, which is at most the
    visibility timeout, no message is being handled by two live consumers, and the ack or nack of every
    live consumer would be accepted. The same holds through shutdown, where heartbeats stop before the
    consumers do, when `beat` plus the grace period is at most the timeout. */
  lemma MutualExclusion(events: seq<Event>, beat: Time, grace: Time, timeout: Time)
    requires IsHistory(START, events) && TimelyHistory(START, events, beat, grace)
    requires 0 <= beat <= timeout
    requires OrdinaryHistory(START, events, timeout)
    requires beat + grace <= timeout || forall i :: 0 <= i < |events| ==> !events[i].StopHeartbeats?
    ensures var w := After(START, events);
      && (forall c, d, id :: IsActive(w, c, id) && IsActive(w, d, id) ==> c == d)
      && (forall c, id :: IsActive(w, c, id) ==> OwnsRow(w, c, id))
  {
    StartIsValid();
    HistoryKeepsValid(START, events);
    HistoryKeepsRight(START, events, beat, grace, timeout);
    var w := After(START, events);
    forall c, id | IsActive(w, c, id) ensures OwnsRow(w, c, id) {
      assert HeldMatchesTask(w, c) && IsRight(w, c, beat);
      ActiveIsHolding(w, c, id);
    }
  }

  /** The proviso about resets is needed: a reset takes every lease away, however timely. */
  lemma ResetTakesLeases(w: World, c: ConsumerId)
    requires ValidWorld(w) && IsHolding(w, c)
    ensures !OwnsRow(Step(w, Execute(Reset)), c, w.held[c].id)
    ensures IsHolding(Step(w, Execute(Reset)), c)
  {
  }

  /** And resets are all that is needed: when every live consumer holds its row and heartbeats are timely,
    the next step takes somebody's row away if and only if it is a reset while a message is held. */
  lemma OnlyResetTakesLeases(w: World, e: Event, beat: Time, grace: Time, timeout: Time)
    requires ValidWorld(w) && CanStep(w, e) && (e.Execute? && e.op.Reap? ==> e.op.timeout == timeout)
    requires 0 <= beat <= timeout && (w.quiet == map[] || beat + grace <= timeout)
    requires Timely(w, beat, grace) && forall c :: IsRight(w, c, beat) && QuietIsPast(w, c)
    ensures (forall c :: IsHolding(Step(w, e), c) ==> OwnsRow(Step(w, e), c, Step(w, e).held[c].id))
      <==> !(e == Execute(Reset) && !NobodyHolds(w))
  {
    if e == Execute(Reset) && !NobodyHolds(w) {
      var c :| IsHolding(w, c);
      ResetTakesLeases(w, c);
    } else {
      var next := Step(w, e);
      forall c | IsHolding(next, c) ensures OwnsRow(next, c, next.held[c].id) {
        assert IsRight(w, c, beat) && QuietIsPast(w, c);
        StepKeepsRight(w, e, c, beat, grace, timeout);
      }
    }
  }
}
