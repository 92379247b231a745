/** What a worker process keeps track of, over all its runs: which consumers it has, which have finished,
  whom its heartbeats cover, and what stopping and killing a consumer achieve. */
module Bookkeeping {
  import opened Prelude
  import opened Messages
  import opened Consumers
  import opened Process

  /** The leases a heartbeat started now would renew: _beat takes this snapshot before it awaits. */
  function Snapshot(p: Process): set<Lease>
  {
    set c | c in p.consumers && c in p.tasks && p.tasks[c].current.Some? :: (p.tasks[c].current.value, c)
  }

  /** A consumer is in `consumers` from its start until it is killed or its exit callback runs. */
  ghost predicate Booked(p: Process, c: ConsumerId)
  {
    && (c in p.consumers <==> c in p.tasks && c !in p.killed && c !in p.exited)
    && (c in p.killed ==> c in p.tasks)
    && (c in p.exited ==> c in p.tasks && p.tasks[c].phase.Ended?)
    && (c in p.finished ==> c in p.exited)
  }

  ghost predicate TaskIsValid(p: Process, c: ConsumerId) { c in p.tasks ==> ValidTask(p.tasks[c]) }

  /** The counter is ahead of every consumer name. */
  ghost predicate Named(p: Process, c: ConsumerId)
  {
    c in p.tasks ==> exists n: nat :: n <= p.started && c == ConsumerName(p.worker, n)
  }

  /** A stopping consumer that waits has been poked since it last looked at the version, or is about to be. */
  ghost predicate StopReaches(p: Process, c: ConsumerId)
  {
    c in p.tasks && (p.tasks[c].phase.Claiming? || p.tasks[c].phase.Parked?) ==>
      && p.tasks[c].phase.seen <= p.version
      && (p.tasks[c].stopping ==> p.tasks[c].phase.seen < p.version || 0 < p.stopPokes)
  }

  ghost predicate ValidBooks(p: Process)
  {
    && (forall c :: TaskIsValid(p, c))
    && (forall c :: Named(p, c))
    && (forall c :: Booked(p, c))
    && (forall c :: StopReaches(p, c))
  }

  lemma StartedNameIsNew(p: Process)
    requires ValidBooks(p)
    ensures ConsumerName(p.worker, p.started + 1) !in p.tasks
  {
    var c := ConsumerName(p.worker, p.started + 1);
    assert Named(p, c);
    if c in p.tasks {
      var n: nat :| n <= p.started && c == ConsumerName(p.worker, n);
      NamesAreDistinct(p.worker, n, p.started + 1);
    }
  }

  lemma StepKeepsNamed(p: Process, e: Event, c: ConsumerId)
    requires Named(p, c) && CanStep(p, e)
    ensures Named(Step(p, e), c)
  {
  }

  predicate Executes(e: Event) { e.Execute? || e.RunClaim? || e.RunSettle? }

  predicate Hears(e: Event) { e.HearClaim? || e.LoseClaim? || e.HearSettle? || e.LoseSettle? }

  /** All but the name, for one consumer. */
  ghost predicate ValidEntry(p: Process, c: ConsumerId)
  {
    TaskIsValid(p, c) && Booked(p, c) && StopReaches(p, c)
  }

  /** A statement moves no consumer. */
  lemma StatementKeepsEntry(p: Process, e: Event, c: ConsumerId)
    requires ValidEntry(p, c) && CanStep(p, e) && Executes(e)
    ensures ValidEntry(Step(p, e), c)
  {
    var q := Step(p, e);
    assert q == p.(db := q.db, inFlight := q.inFlight, notes := q.notes, replies := q.replies);
  }

  /** Its reply, or the error that comes instead, moves the consumer that waited for it on. */
  lemma ReplyKeepsEntry(p: Process, e: Event, c: ConsumerId)
    requires ValidEntry(p, c) && CanStep(p, e) && Hears(e) && TaskIsValid(p, e.consumer)
    ensures ValidEntry(Step(p, e), c)
  {
    var d := e.consumer;
    var picked := if e.HearClaim? then p.replies[d].picked else None;
    TransitionsKeepValid(p.tasks[d], 0, picked, true);
    var t := if e.HearClaim? then ClaimReplied(p.tasks[d], picked)
             else if e.HearSettle? then Settled(p.tasks[d])
             else Errored(p.tasks[d]);
  }

  lemma StepKeepsEntry(p: Process, e: Event, c: ConsumerId)
    requires ValidEntry(p, c) && CanStep(p, e) && ConsumerName(p.worker, p.started + 1) !in p.tasks
    requires Hears(e) ==> TaskIsValid(p, e.consumer)
    ensures ValidEntry(Step(p, e), c)
  {
    if Executes(e) {
      StatementKeepsEntry(p, e, c);
    } else if Hears(e) {
      ReplyKeepsEntry(p, e, c);
    } else {
    }
  }

  lemma StepKeepsBooks(p: Process, e: Event)
    requires ValidBooks(p) && CanStep(p, e)
    ensures ValidBooks(Step(p, e))
  {
    StartedNameIsNew(p);
    forall c ensures Named(Step(p, e), c) { StepKeepsNamed(p, e, c); }
    forall c ensures ValidEntry(Step(p, e), c) {
      assert ValidEntry(p, c);
      StepKeepsEntry(p, e, c);
    }
    assert forall c :: ValidEntry(Step(p, e), c) ==>
      TaskIsValid(Step(p, e), c) && Booked(Step(p, e), c) && StopReaches(Step(p, e), c);
  }

  lemma {:induction false} RunKeepsBooks(p: Process, events: seq<Event>)
    requires ValidBooks(p) && CanRun(p, events)
    ensures ValidBooks(After(p, events))
    decreases |events|
  {
    if events != [] {
      StepKeepsBooks(p, events[0]);
      RunKeepsBooks(Step(p, events[0]), events[1..]);
    }
  }

  /** What never goes back: a consumer once gone from `consumers` stays gone, killed stays killed, stopping
    stays stopping, and a stopping consumer that is not in a claim never starts one. */
  lemma {:induction false} NoWayBack(p: Process, events: seq<Event>, c: ConsumerId)
    requires ValidBooks(p) && CanRun(p, events) && c in p.tasks
    ensures var q := After(p, events);
      && c in q.tasks
      && (c !in p.consumers ==> c !in q.consumers)
      && (c in p.killed ==> c in q.killed)
      && (p.tasks[c].stopping ==> q.tasks[c].stopping)
      && (p.tasks[c].stopping && !p.tasks[c].phase.Claiming? ==> !q.tasks[c].phase.Claiming?)
    decreases |events|
  {
    if events != [] {
      StepKeepsBooks(p, events[0]);
      StepHasNoWayBack(p, events[0], c);
      NoWayBack(Step(p, events[0]), events[1..], c);
    }
  }

  lemma StepHasNoWayBack(p: Process, e: Event, c: ConsumerId)
    requires ValidBooks(p) && CanStep(p, e) && c in p.tasks
    ensures var q := Step(p, e);
      && c in q.tasks
      && (c !in p.consumers ==> c !in q.consumers)
      && (c in p.killed ==> c in q.killed)
      && (p.tasks[c].stopping ==> q.tasks[c].stopping)
      && (p.tasks[c].stopping && !p.tasks[c].phase.Claiming? ==> !q.tasks[c].phase.Claiming?)
  {
    StartedNameIsNew(p);
    assert Booked(p, c);
  }

  /** Over all runs: each started consumer leaves `consumers` at most once and never returns. */
  lemma LeavesOnce(worker: string, db: Db, before: seq<Event>, after: seq<Event>, c: ConsumerId)
    requires CanRun(Initial(worker, db), before) && CanRun(After(Initial(worker, db), before), after)
    requires c in After(Initial(worker, db), before).tasks && c !in After(Initial(worker, db), before).consumers
    ensures c !in After(After(Initial(worker, db), before), after).consumers
  {
    RunKeepsBooks(Initial(worker, db), before);
    NoWayBack(After(Initial(worker, db), before), after, c);
  }

  /** At its exit a consumer is put in `_finished`, unless it was removed by a kill and its task ended
    cancelled; either way it is in `consumers` no more. */
  lemma ExitBooksFinished(worker: string, db: Db, events: seq<Event>, c: ConsumerId)
    requires CanRun(Initial(worker, db), events)
    requires CanStep(After(Initial(worker, db), events), RunExitCallback(c))
    ensures var p := After(Initial(worker, db), events);
      var q := Step(p, RunExitCallback(c));
      && c !in p.finished
      && (c in q.finished <==> !(c in p.killed && p.tasks[c].phase == Ended(true)))
      && c !in q.consumers
      && q.finished - {c} == p.finished
  {
    RunKeepsBooks(Initial(worker, db), events);
    assert Booked(After(Initial(worker, db), events), c);
  }

  /** A consumer asked to stop is not left waiting: if it is parked, either it can wake at once or the
    poke is due and then it can. */
  lemma StoppedConsumerWakes(worker: string, db: Db, events: seq<Event>, c: ConsumerId)
    requires CanRun(Initial(worker, db), events)
    requires var p := After(Initial(worker, db), events);
      c in p.tasks && p.tasks[c].stopping && p.tasks[c].phase.Parked?
    ensures var p := After(Initial(worker, db), events);
      || CanStep(p, Wake(c, false))
      || (CanStep(p, StopPoke) && CanStep(Step(p, StopPoke), Wake(c, false)))
  {
    RunKeepsBooks(Initial(worker, db), events);
    assert StopReaches(After(Initial(worker, db), events), c);
  }

  /** Until it exits or is killed, a consumer that is handling a message is covered by every heartbeat,
    stopping or not; and the heartbeat renews nothing else for it. */
  lemma HeartbeatCoversHandling(worker: string, db: Db, events: seq<Event>, c: ConsumerId, id: int)
    requires CanRun(Initial(worker, db), events)
    ensures var p := After(Initial(worker, db), events);
      (id, c) in Snapshot(p) <==>
        c in p.tasks && c !in p.killed && IsHandling(p.tasks[c]) && p.tasks[c].phase.message == id
  {
    RunKeepsBooks(Initial(worker, db), events);
    var p := After(Initial(worker, db), events);
    assert Booked(p, c) && TaskIsValid(p, c);
    if c in p.tasks && c !in p.killed && IsHandling(p.tasks[c]) && p.tasks[c].phase.message == id {
      assert c in p.consumers && p.tasks[c].current == Some(id);
    }
  }

  /** After a kill no later heartbeat lists a lease of the consumer. */
  lemma KilledIsNeverRenewed(worker: string, db: Db, before: seq<Event>, after: seq<Event>, c: ConsumerId)
    requires CanRun(Initial(worker, db), before)
    requires CanStep(After(Initial(worker, db), before), Kill(c))
    requires CanRun(Step(After(Initial(worker, db), before), Kill(c)), after)
    ensures forall l :: l in Snapshot(After(Step(After(Initial(worker, db), before), Kill(c)), after)) ==> l.1 != c
  {
    RunKeepsBooks(Initial(worker, db), before);
    var p := Step(After(Initial(worker, db), before), Kill(c));
    StepKeepsBooks(After(Initial(worker, db), before), Kill(c));
    NoWayBack(p, after, c);
    RunKeepsBooks(p, after);
  }

  lemma StopEndsClaims(p: Process, after: seq<Event>, c: ConsumerId)
    requires ValidBooks(p) && CanStep(p, RequestStop(c)) && CanRun(Step(p, RequestStop(c)), after)
    ensures var q := After(Step(p, RequestStop(c)), after);
      && c in q.tasks && q.tasks[c].stopping
      && (!p.tasks[c].phase.Claiming? ==> !q.tasks[c].phase.Claiming?)
  {
    StepKeepsBooks(p, RequestStop(c));
    NoWayBack(Step(p, RequestStop(c)), after, c);
  }

  /** After a stop the consumer issues no new claim: the only one there can be is the one it was in, and
    the next time it comes to the loop test it ends. */
  lemma StoppedConsumerClaimsNoMore(worker: string, db: Db, before: seq<Event>, after: seq<Event>, c: ConsumerId)
    requires CanRun(Initial(worker, db), before)
    requires CanStep(After(Initial(worker, db), before), RequestStop(c))
    requires CanRun(Step(After(Initial(worker, db), before), RequestStop(c)), after)
    ensures var p := After(Initial(worker, db), before);
      var q := After(Step(p, RequestStop(c)), after);
      && c in q.tasks && q.tasks[c].stopping
      && (!p.tasks[c].phase.Claiming? ==> !q.tasks[c].phase.Claiming?)
      && (CanStep(q, Loop(c)) ==> Step(q, Loop(c)).tasks[c].phase == Ended(false))
  {
    RunKeepsBooks(Initial(worker, db), before);
    StopEndsClaims(After(Initial(worker, db), before), after, c);
  }
}
