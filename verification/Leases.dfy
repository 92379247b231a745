/** The lease protocol: any number of consumers, crashes, lost replies, reapers and heartbeats.

  The world is the table with its history, the consumers, the replies on their way to them, and for each
  consumer which claim it believes it holds. Steps interleave freely; a frozen consumer is one that takes no
  step, a killed one is cancelled. A statement is executed in one step and its reply arrives in another, any
  time later, or never. */
module Leases {
  import opened Prelude
  import opened Messages
  import opened History
  import opened Consumers

  /** The claim a consumer holds as far as it knows, or is about to hear of: when its lease was last claimed or
    renewed, and when its reply arrived (until then, when the claim was made). */
  datatype Held = Held(id: int, serial: nat, since: Time, heard: Time)

  /** `quiet` says since when a consumer's worker has sent no heartbeats: shutdown stops them first. */
  datatype World = World(
    l: Ledger,
    tasks: map<ConsumerId, Task>,
    replies: map<ConsumerId, Reply>,
    held: map<ConsumerId, Held>,
    quiet: map<ConsumerId, Time>)

  const START: World := World(BLANK, map[], map[], map[], map[])

  /** Run: the statement is executed. Hear: its reply arrives. Lose: the consumer sees an error instead, whether
    the statement has been executed or not. */
  datatype Event =
    | Execute(op: Op)                                                // by anything but a consumer
    | Begin(consumer: ConsumerId, queue: Queue)
    | Loop(consumer: ConsumerId, version: nat)
    | RunClaim(consumer: ConsumerId, picked: Option<int>)
    | HearClaim(consumer: ConsumerId)
    | LoseClaim(consumer: ConsumerId)
    | Wake(consumer: ConsumerId)
    | FinishHandler(consumer: ConsumerId, succeeded: bool)
    | RunSettle(consumer: ConsumerId)
    | HearSettle(consumer: ConsumerId)
    | LoseSettle(consumer: ConsumerId)
    | Retry(consumer: ConsumerId)
    | Cancel(consumer: ConsumerId)
    | RequestStop(consumer: ConsumerId)
    | StopHeartbeats(consumers: set<ConsumerId>)

  predicate CanStep(w: World, e: Event)
  {
    match e
    case Execute(op) => !op.Claim? && !op.Ack? && !op.Nack?
    case Begin(c, _) => c !in w.tasks
    case Loop(c, _) => c in w.tasks && w.tasks[c].phase.Looping?
    case RunClaim(c, picked) =>
      && c in w.tasks && w.tasks[c].phase.Claiming? && c !in w.replies
      && Enabled(w.l.db, Op.Claim(w.tasks[c].queue, c, picked))
    case HearClaim(c) => c in w.tasks && w.tasks[c].phase.Claiming? && c in w.replies && w.replies[c].ClaimReply?
    case LoseClaim(c) => c in w.tasks && w.tasks[c].phase.Claiming?
    case Wake(c) => c in w.tasks && w.tasks[c].phase.Parked?
    case FinishHandler(c, _) => c in w.tasks && w.tasks[c].phase.Handling?
    case RunSettle(c) => c in w.tasks && w.tasks[c].phase.Settling? && c !in w.replies
    case HearSettle(c) => c in w.tasks && w.tasks[c].phase.Settling? && c in w.replies
    case LoseSettle(c) => c in w.tasks && w.tasks[c].phase.Settling?
    case Retry(c) => c in w.tasks && w.tasks[c].phase.Retrying?
    case Cancel(c) => c in w.tasks && !w.tasks[c].phase.Ended?
    case RequestStop(c) => c in w.tasks
    case StopHeartbeats(_) => true
  }

  /** The statement an event executes, if any. */
  function StatementOf(w: World, e: Event): Option<Op>
    requires CanStep(w, e)
  {
    match e
    case Execute(op) => Some(op)
    case RunClaim(c, picked) => Some(Op.Claim(w.tasks[c].queue, c, picked))
    case RunSettle(c) => Some(SettleOp(c, w.tasks[c]))
    case _ => None
  }

  /** What the step does to the table and its history. */
  function LedgerAfter(w: World, e: Event): Ledger
    requires CanStep(w, e)
  {
    match StatementOf(w, e)
    case Some(op) => Record(w.l, op)
    case None => w.l
  }

  function TasksAfter(w: World, e: Event): map<ConsumerId, Task>
    requires CanStep(w, e)
  {
    match e
    case Begin(c, queue) => w.tasks[c := Fresh(queue)]
    case Loop(c, version) => w.tasks[c := Looped(w.tasks[c], version)]
    case HearClaim(c) => w.tasks[c := ClaimReplied(w.tasks[c], w.replies[c].picked)]
    case LoseClaim(c) => w.tasks[c := Errored(w.tasks[c])]
    case Wake(c) => w.tasks[c := Woken(w.tasks[c])]
    case FinishHandler(c, succeeded) => w.tasks[c := Handled(w.tasks[c], succeeded)]
    case HearSettle(c) => w.tasks[c := Settled(w.tasks[c])]
    case LoseSettle(c) => w.tasks[c := Errored(w.tasks[c])]
    case Retry(c) => w.tasks[c := Retried(w.tasks[c])]
    case Cancel(c) => w.tasks[c := Cancelled(w.tasks[c])]
    case RequestStop(c) => w.tasks[c := StopRequested(w.tasks[c])]
    case _ => w.tasks
  }

  function RepliesAfter(w: World, e: Event): map<ConsumerId, Reply>
    requires CanStep(w, e)
  {
    match e
    case RunClaim(c, picked) => w.replies[c := ClaimReply(picked)]
    case RunSettle(c) => w.replies[c := SettleReply]
    case HearClaim(c) => w.replies - {c}
    case LoseClaim(c) => w.replies - {c}
    case HearSettle(c) => w.replies - {c}
    case LoseSettle(c) => w.replies - {c}
    case Cancel(c) => w.replies - {c}
    case _ => w.replies
  }

  function HeldAfter(w: World, e: Event): map<ConsumerId, Held>
    requires CanStep(w, e)
  {
    match e
    case Execute(Renew(leases)) =>
      map c | c in w.held :: if (w.held[c].id, c) in leases then w.held[c].(since := w.l.db.now) else w.held[c]
    case RunClaim(c, Some(id)) => w.held[c := Held(id, |w.l.log|, w.l.db.now, w.l.db.now)]
    case HearClaim(c) => if c in w.held then w.held[c := w.held[c].(heard := w.l.db.now)] else w.held
    case LoseClaim(c) => w.held - {c}
    case HearSettle(c) => w.held - {c}
    case LoseSettle(c) => w.held - {c}
    case Cancel(c) => w.held - {c}
    case _ => w.held
  }

  function Step(w: World, e: Event): World
    requires CanStep(w, e)
  {
    World(LedgerAfter(w, e), TasksAfter(w, e), RepliesAfter(w, e), HeldAfter(w, e),
          if e.StopHeartbeats? then w.quiet + map c | c in e.consumers && c !in w.quiet :: w.l.db.now else w.quiet)
  }

  // ----- what every step keeps ---------------------------------------------------------------------

  /** A reply is on its way to a consumer that waits for it. */
  predicate ReplyMatchesTask(w: World, c: ConsumerId)
  {
    c in w.replies ==>
      c in w.tasks && if w.replies[c].ClaimReply? then w.tasks[c].phase.Claiming? else w.tasks[c].phase.Settling?
  }

  /** The consumer has not heard yet that its claim found a message. */
  predicate IsUnheard(w: World, c: ConsumerId)
  {
    && c in w.tasks && w.tasks[c].phase.Claiming?
    && c in w.replies && w.replies[c].ClaimReply? && w.replies[c].picked.Some?
  }

  /** `held` lists exactly the consumers that are handling a message or will as soon as they hear of it, with
    that message. */
  ghost predicate HeldMatchesTask(w: World, c: ConsumerId)
  {
    && (c in w.tasks ==> ValidTask(w.tasks[c]))
    && ReplyMatchesTask(w, c)
    && (c in w.held <==> (c in w.tasks && IsHandling(w.tasks[c])) || IsUnheard(w, c))
    && (c in w.held ==>
          if IsUnheard(w, c) then w.replies[c] == ClaimReply(Some(w.held[c].id))
          else w.tasks[c].phase.message == w.held[c].id)
  }

  /** What a consumer believes it holds is the latest claim it made, whoever holds the message now. */
  ghost predicate HoldsOwnLatestClaim(w: World, c: ConsumerId)
  {
    c in w.held ==>
      var h := w.held[c];
      && h.serial < |w.l.log|
      && Claims(w.l.log[h.serial], h.id)
      && w.l.log[h.serial].consumer == c
      && forall j :: h.serial < j < |w.l.log| && w.l.log[j].ClaimEntry? ==> w.l.log[j].consumer != c
  }

  ghost predicate ValidWorld(w: World)
  {
    && ValidLedger(w.l)
    && (forall c :: HeldMatchesTask(w, c))
    && (forall c :: HoldsOwnLatestClaim(w, c))
  }

  lemma StepKeepsLedger(w: World, e: Event)
    requires ValidLedger(w.l) && CanStep(w, e)
    ensures ValidLedger(Step(w, e).l)
  {
    if StatementOf(w, e).Some? {
      RecordKeepsValid(w.l, StatementOf(w, e).value);
    }
  }

  predicate Concerns(e: Event, c: ConsumerId) { !e.Execute? && !e.StopHeartbeats? && e.consumer == c }

  lemma StepKeepsHeld(w: World, e: Event, c: ConsumerId)
    requires HeldMatchesTask(w, c) && CanStep(w, e)
    ensures HeldMatchesTask(Step(w, e), c)
  {
    if Concerns(e, c) {
    } else {
    }
  }

  lemma StepKeepsBelief(w: World, e: Event, c: ConsumerId)
    requires HeldMatchesTask(w, c) && HoldsOwnLatestClaim(w, c) && CanStep(w, e)
    ensures HoldsOwnLatestClaim(Step(w, e), c)
  {
  }

  lemma StepKeepsValid(w: World, e: Event)
    requires ValidWorld(w) && CanStep(w, e)
    ensures ValidWorld(Step(w, e))
  {
    StepKeepsLedger(w, e);
    forall c ensures HeldMatchesTask(Step(w, e), c) { StepKeepsHeld(w, e, c); }
    forall c ensures HoldsOwnLatestClaim(Step(w, e), c) { StepKeepsBelief(w, e, c); }
  }

  ghost predicate IsHistory(w: World, events: seq<Event>)
    decreases |events|
  {
    events == [] || (CanStep(w, events[0]) && IsHistory(Step(w, events[0]), events[1..]))
  }

  function After(w: World, events: seq<Event>): World
    requires IsHistory(w, events)
    decreases |events|
  {
    if events == [] then w else After(Step(w, events[0]), events[1..])
  }

  lemma {:induction false} HistoryKeepsValid(w: World, events: seq<Event>)
    requires ValidWorld(w) && IsHistory(w, events)
    ensures ValidWorld(After(w, events))
    decreases |events|
  {
    if events != [] {
      StepKeepsValid(w, events[0]);
      HistoryKeepsValid(Step(w, events[0]), events[1..]);
    }
  }

  // ----- fencing -----------------------------------------------------------------------------------

  predicate OwnsRow(w: World, c: ConsumerId, id: int)
  {
    id in w.l.db.rows && IsHeldBy(w.l.db.rows[id], c)
  }

  /** `locked_by = me` is as good as comparing claims: a consumer that is handling a message finds its
    own name in the row exactly when the very claim it is handling is still open, and then that claim
    is the latest one of the message. */
  lemma OwnsRowIffClaimOpen(w: World, c: ConsumerId)
    requires ValidWorld(w) && c in w.held
    ensures HoldsOwnLatestClaim(w, c)
    ensures var h := w.held[c];
      && (OwnsRow(w, c, h.id) <==> IsOpen(w.l.log, h.serial))
      && (OwnsRow(w, c, h.id) ==>
            forall j :: h.serial < j < |w.l.log| ==> !Claims(w.l.log[j], h.id))
      && (OwnsRow(w, c, h.id) ==> h.id in w.l.last && w.l.last[h.id] == h.serial)
  {
    var h := w.held[c];
    assert HoldsOwnLatestClaim(w, c);
    assert LastIsLatest(w.l, h.id) && LeaseIsOpen(w.l, h.id) && OpenIsLeased(w.l, h.serial);
    if OwnsRow(w, c, h.id) {
      assert ValidRow(w.l.db.rows[h.id], w.l.db.now);
      assert h.serial <= w.l.last[h.id] <= h.serial;
    }
  }

  /** Over all runs, however claims, freezes, kills, database errors, reaps, requeues and resets
    interleave: an ack or nack that is executed changes the table exactly when the claim its consumer is
    handling is still open. It then closes that claim, which is the latest one of the message, and no
    other; if the claim is not open any more, neither the table nor the history changes. */
  lemma Fencing(events: seq<Event>, c: ConsumerId)
    requires IsHistory(START, events) && CanStep(After(START, events), RunSettle(c))
    ensures var w := After(START, events);
      var next := Step(w, RunSettle(c));
      && c in w.held && HoldsOwnLatestClaim(w, c)
      && var h := w.held[c];
         if IsOpen(w.l.log, h.serial) then
           && next.l.log == w.l.log + [CloseEntry(if w.tasks[c].phase.succeeded then ByAck else ByNack,
                                                  map[h.id := h.serial], w.l.db.now)]
           && (forall j :: h.serial < j < |w.l.log| ==> !Claims(w.l.log[j], h.id))
           && h.id in next.l.db.rows && next.l.db.rows[h.id].status != Processing
           && (forall id :: id in w.l.db.rows && id != h.id ==>
                 id in next.l.db.rows && next.l.db.rows[id] == w.l.db.rows[id])
         else
           next.l == w.l
  {
    StartIsValid();
    HistoryKeepsValid(START, events);
    var w := After(START, events);
    assert HeldMatchesTask(w, c);
    OwnsRowIffClaimOpen(w, c);
    var h := w.held[c];
    if OwnsRow(w, c, h.id) {
      SettleWithLease(w.l, SettleOp(c, w.tasks[c]), h.id, c);
    } else {
      SettleWithoutLease(w.l, SettleOp(c, w.tasks[c]), h.id, c);
    }
  }

  lemma StartIsValid()
    ensures ValidWorld(START)
  {
  }

  /** With the lease, an ack or nack closes the claim and changes one row. */
  lemma SettleWithLease(l: Ledger, op: Op, id: int, c: ConsumerId)
    requires op == Ack(id, c) || op == Nack(id, c)
    requires id in l.db.rows && IsHeldBy(l.db.rows[id], c) && id in l.last
    ensures var m := Record(l, op);
      && m.log == l.log + [CloseEntry(if op.Ack? then ByAck else ByNack, map[id := l.last[id]], l.db.now)]
      && id in m.db.rows && m.db.rows[id].status != Processing
      && (forall other :: other in l.db.rows && other != id ==>
            other in m.db.rows && m.db.rows[other] == l.db.rows[other])
  {
    var e := CloseEntry(if op.Ack? then ByAck else ByNack, map[id := l.last[id]], l.db.now);
    assert ClosedBy(l, op) == map[id := l.last[id]];
    assert ClosedBy(l, op) != map[] by { assert id in ClosedBy(l, op); }
    assert Recorded(l, op) == [e];
    assert Record(l, op).log == l.log + [e];
  }

  /** Without it, nothing happens at all. */
  lemma SettleWithoutLease(l: Ledger, op: Op, id: int, c: ConsumerId)
    requires op == Ack(id, c) || op == Nack(id, c)
    requires !(id in l.db.rows && IsHeldBy(l.db.rows[id], c))
    requires forall k :: LastIsLatest(l, k)
    ensures Record(l, op) == l
  {
    var m := Record(l, op);
    assert ClosedBy(l, op) == map[];
    UpdatedInPlace(l.db, op, l.db.rows);
    forall k ensures k in m.last <==> k in l.last { assert LastIsLatest(l, k); }
    assert m.last == l.last;
    assert m.log == l.log;
  }

  /** What happens to the table in a history of the world is a run of statements, so everything History,
    Retries, Delivery and Recovery prove over runs holds of the protocol. */
  lemma {:induction false} HistoryIsReplay(w: World, events: seq<Event>) returns (ops: seq<Op>)
    requires IsHistory(w, events)
    ensures IsRun(w.l.db, ops) && After(w, events).l == Replay(w.l, ops)
    decreases |events|
  {
    ops := [];
    if events != [] {
      var e := events[0];
      var rest := HistoryIsReplay(Step(w, e), events[1..]);
      match StatementOf(w, e)
      case Some(op) =>
        ops := [op] + rest;
        assert ops[1..] == rest;
      case None => ops := rest;
    }
  }
}
