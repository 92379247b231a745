/** A worker process gets on with its work: its consumers go on claiming until they are asked to stop, and then they
  end; each notification is delivered once, and each consumer that ends is deregistered once. */
module Progress {
  import opened Prelude
  import opened Messages
  import opened Signals
  import opened Consumers
  import opened Notifications
  import opened ClaimOrder
  import opened Process
  import opened Bookkeeping

  // ----- only a stop ends a consumer -----------------------------------------------------------------

  lemma {:induction false} StoppingIffAsked(p: Process, events: seq<Event>, c: ConsumerId)
    requires ValidBooks(p) && CanRun(p, events)
    requires c in p.tasks ==> !p.tasks[c].stopping
    ensures var q := After(p, events); c in q.tasks ==> (q.tasks[c].stopping <==> RequestStop(c) in events)
    decreases |events|
  {
    if events != [] {
      var next := Step(p, events[0]);
      StartedNameIsNew(p);
      StepKeepsBooks(p, events[0]);
      if events[0] == RequestStop(c) {
        NoWayBack(next, events[1..], c);
      } else {
        StepAsksNobody(p, events[0], c);
        StoppingIffAsked(next, events[1..], c);
        assert events == [events[0]] + events[1..];
      }
    }
  }

  lemma StepAsksNobody(p: Process, e: Event, c: ConsumerId)
    requires CanStep(p, e) && e != RequestStop(c) && (c in p.tasks ==> !p.tasks[c].stopping)
    ensures c in Step(p, e).tasks ==> !Step(p, e).tasks[c].stopping
  {
  }

  /** Over all runs, a consumer ends by itself only if it was asked to stop. */
  lemma OnlyStopEnds(worker: string, db: Db, events: seq<Event>, c: ConsumerId)
    requires CanRun(Initial(worker, db), events)
    requires var p := After(Initial(worker, db), events); c in p.tasks && p.tasks[c].phase == Ended(false)
    ensures RequestStop(c) in events
  {
    RunKeepsBooks(Initial(worker, db), events);
    StoppingIffAsked(Initial(worker, db), events, c);
    assert TaskIsValid(After(Initial(worker, db), events), c);
  }

  // ----- what "starting" means -----------------------------------------------------------------------

  lemma StepAnswersNobody(p: Process, e: Event, c: ConsumerId)
    requires CanStep(p, e) && e != HearClaim(c) && e != RequestStop(c) && TaskIsValid(p, c)
    requires c in p.tasks ==> p.tasks[c].state.Starting?
    ensures c in Step(p, e).tasks ==> Step(p, e).tasks[c].state.Starting?
  {
  }

  lemma StepKeepsStarted(p: Process, e: Event, c: ConsumerId)
    requires ValidBooks(p) && CanStep(p, e) && c in p.tasks && !p.tasks[c].state.Starting?
    ensures c in Step(p, e).tasks && !Step(p, e).tasks[c].state.Starting?
  {
    StartedNameIsNew(p);
  }

  lemma {:induction false} StaysStarted(p: Process, events: seq<Event>, c: ConsumerId)
    requires ValidBooks(p) && CanRun(p, events) && c in p.tasks && !p.tasks[c].state.Starting?
    ensures c in After(p, events).tasks && !After(p, events).tasks[c].state.Starting?
    decreases |events|
  {
    if events != [] {
      StepKeepsStarted(p, events[0], c);
      StepKeepsBooks(p, events[0]);
      StaysStarted(Step(p, events[0]), events[1..], c);
    }
  }

  lemma {:induction false} StartingSince(p: Process, events: seq<Event>, c: ConsumerId)
    requires ValidBooks(p) && CanRun(p, events) && (c in p.tasks ==> p.tasks[c].state.Starting?)
    ensures c in After(p, events).tasks ==>
      (After(p, events).tasks[c].state.Starting? <==> HearClaim(c) !in events && RequestStop(c) !in events)
    decreases |events|
  {
    if events != [] {
      var e, next := events[0], Step(p, events[0]);
      StepKeepsBooks(p, e);
      assert events == [e] + events[1..];
      if e == HearClaim(c) || e == RequestStop(c) {
        StaysStarted(next, events[1..], c);
      } else {
        assert TaskIsValid(p, c);
        StepAnswersNobody(p, e, c);
        StartingSince(next, events[1..], c);
      }
    }
  }

  /** Over all runs the state of a consumer is "starting" until a claim of it is answered or it is asked to stop. */
  lemma StartingIffUnanswered(worker: string, db: Db, events: seq<Event>, c: ConsumerId)
    requires CanRun(Initial(worker, db), events) && c in After(Initial(worker, db), events).tasks
    ensures After(Initial(worker, db), events).tasks[c].state.Starting? <==>
      HearClaim(c) !in events && RequestStop(c) !in events
  {
    StartingSince(Initial(worker, db), events, c);
  }

  // ----- replies -------------------------------------------------------------------------------------

  /** A reply is on its way to a consumer that waits for it. */
  predicate ReplyFits(p: Process, c: ConsumerId)
  {
    c in p.replies ==>
      c in p.tasks && if p.replies[c].ClaimReply? then p.tasks[c].phase.Claiming? else p.tasks[c].phase.Settling?
  }

  lemma StepKeepsReply(p: Process, e: Event, c: ConsumerId)
    requires CanStep(p, e) && ReplyFits(p, c) && ConsumerName(p.worker, p.started + 1) !in p.tasks
    ensures ReplyFits(Step(p, e), c)
  {
    if Executes(e) {
      StatementKeepsReply(p, e, c);
    } else if Hears(e) {
      HearingKeepsReply(p, e, c);
    } else {
    }
  }

  lemma StatementKeepsReply(p: Process, e: Event, c: ConsumerId)
    requires CanStep(p, e) && ReplyFits(p, c) && Executes(e)
    ensures ReplyFits(Step(p, e), c)
  {
    assert Step(p, e).tasks == p.tasks;
  }

  lemma HearingKeepsReply(p: Process, e: Event, c: ConsumerId)
    requires CanStep(p, e) && ReplyFits(p, c) && Hears(e)
    ensures ReplyFits(Step(p, e), c)
  {
    var t := Step(p, e).tasks[e.consumer];
    assert Step(p, e) == Moved(p, e.consumer, t);
  }

  lemma {:induction false} RunKeepsReply(p: Process, events: seq<Event>, c: ConsumerId)
    requires ValidBooks(p) && CanRun(p, events) && ReplyFits(p, c)
    ensures ReplyFits(After(p, events), c)
    decreases |events|
  {
    if events != [] {
      StartedNameIsNew(p);
      StepKeepsReply(p, events[0], c);
      StepKeepsBooks(p, events[0]);
      RunKeepsReply(Step(p, events[0]), events[1..], c);
    }
  }

  // ----- a consumer goes on --------------------------------------------------------------------------

  /** What `c` does by itself. */
  predicate IsOwn(e: Event, c: ConsumerId)
  {
    (e.Loop? || e.RunClaim? || e.HearClaim? || e.Wake? || e.FinishHandler? || e.RunSettle? || e.HearSettle? || e.Retry?)
    && e.consumer == c
  }

  /** `c` has not been asked to stop, and `next` is the message a claim of it would find: the first ready one of its
    queue that no statement in flight has locked. */
  ghost predicate CanGoOn(p: Process, c: ConsumerId, next: int)
  {
    && Valid(p.db) && c in p.tasks && ReplyFits(p, c) && !p.tasks[c].stopping
    && IsNext(Without(p.db, p.locked), p.tasks[c].queue, Some(next))
  }

  /** What leads to `goal`: steps of `c`; and if that is to end, the pokes of stops, but no timeout. */
  predicate LeadsTo(e: Event, c: ConsumerId, goal: Phase)
  {
    if goal.Ended? then (IsOwn(e, c) && e != Wake(c, true)) || e.StopPoke? else IsOwn(e, c)
  }

  ghost predicate GetsTo(p: Process, c: ConsumerId, events: seq<Event>, goal: Phase)
  {
    && CanRun(p, events) && (forall i :: 0 <= i < |events| ==> LeadsTo(events[i], c, goal))
    && c in After(p, events).tasks && After(p, events).tasks[c].phase == goal
  }

  lemma OneMoreStep(p: Process, c: ConsumerId, e: Event, rest: seq<Event>, goal: Phase)
    requires CanStep(p, e) && LeadsTo(e, c, goal) && GetsTo(Step(p, e), c, rest, goal)
    ensures GetsTo(p, c, [e] + rest, goal)
  {
    StepFirst(p, e, rest);
  }

  lemma FromLooping(p: Process, c: ConsumerId, next: int)
    requires CanGoOn(p, c, next) && p.tasks[c].phase.Looping?
    ensures GetsTo(p, c, [Loop(c), RunClaim(c), HearClaim(c)], Handling(next))
  {
    var q := Step(p, Loop(c));
    FromClaiming(q, c, next);
    OneMoreStep(p, c, Loop(c), [RunClaim(c), HearClaim(c)], Handling(next));
    assert [Loop(c)] + [RunClaim(c), HearClaim(c)] == [Loop(c), RunClaim(c), HearClaim(c)];
  }

  lemma ClaimFinds(p: Process, c: ConsumerId, next: int)
    requires CanGoOn(p, c, next)
    ensures ClaimOp(p, c) == Claim(p.tasks[c].queue, c, Some(next))
  {
    FirstReadyIsNext(Without(p.db, p.locked), p.tasks[c].queue);
    NextIsUnique(Without(p.db, p.locked), p.tasks[c].queue, ClaimOp(p, c).picked, Some(next));
  }

  lemma FromClaiming(p: Process, c: ConsumerId, next: int)
    requires CanGoOn(p, c, next) && p.tasks[c].phase.Claiming? && c !in p.replies
    ensures GetsTo(p, c, [RunClaim(c), HearClaim(c)], Handling(next))
  {
    ClaimFinds(p, c, next);
    var q := Step(p, RunClaim(c));
    assert q.tasks == p.tasks && q.replies[c] == ClaimReply(Some(next));
    assert GetsTo(Step(q, HearClaim(c)), c, [], Handling(next));
    OneMoreStep(q, c, HearClaim(c), [], Handling(next));
    OneMoreStep(p, c, RunClaim(c), [HearClaim(c)], Handling(next));
    assert [HearClaim(c)] + [] == [HearClaim(c)] && [RunClaim(c)] + [HearClaim(c)] == [RunClaim(c), HearClaim(c)];
  }

  /** Settling a message makes no other one ready, and takes none away. */
  lemma SettleKeepsNext(db: Db, op: Op, locked: set<int>, queue: Queue, next: int)
    requires Valid(db) && (op.Ack? || op.Nack?) && IsNext(Without(db, locked), queue, Some(next))
    ensures IsNext(Without(Apply(db, op), locked), queue, Some(next))
  {
    var before, after := Without(db, locked), Without(Apply(db, op), locked);
    forall id ensures IsReadyId(after, queue, id) <==> IsReadyId(before, queue, id) {
      if id in db.rows {
        BackoffIsPositive(db.rows[id].attempts);
      }
    }
  }

  lemma SettleGoesOn(p: Process, c: ConsumerId, next: int)
    requires CanGoOn(p, c, next) && CanStep(p, RunSettle(c))
    ensures CanGoOn(Step(p, RunSettle(c)), c, next)
  {
    var op := SettleOp(c, p.tasks[c]);
    SettleKeepsNext(p.db, op, p.locked, p.tasks[c].queue, next);
    ApplyKeepsValid(p.db, op);
  }

  lemma FromSettling(p: Process, c: ConsumerId, next: int) returns (events: seq<Event>)
    requires CanGoOn(p, c, next) && p.tasks[c].phase.Settling?
    ensures GetsTo(p, c, events, Handling(next)) && |events| <= 5
  {
    var q := p;
    if c !in p.replies {
      SettleGoesOn(p, c, next);
      q := Step(p, RunSettle(c));
    }
    FromLooping(Step(q, HearSettle(c)), c, next);
    events := [Loop(c), RunClaim(c), HearClaim(c)];
    OneMoreStep(q, c, HearSettle(c), events, Handling(next));
    events := [HearSettle(c)] + events;
    if c !in p.replies {
      OneMoreStep(p, c, RunSettle(c), events, Handling(next));
      events := [RunSettle(c)] + events;
    }
  }

  lemma FromHandling(p: Process, c: ConsumerId, next: int, succeeded: bool) returns (events: seq<Event>)
    requires CanGoOn(p, c, next) && p.tasks[c].phase.Handling?
    ensures GetsTo(p, c, events, Handling(next)) && |events| <= 6
  {
    events := FromSettling(Step(p, FinishHandler(c, succeeded)), c, next);
    OneMoreStep(p, c, FinishHandler(c, succeeded), events, Handling(next));
    events := [FinishHandler(c, succeeded)] + events;
  }

  /** A consumer woken by a poke goes on to claim, and gets the first ready message. */
  lemma FromParked(p: Process, c: ConsumerId, next: int, timedOut: bool)
    requires CanGoOn(p, c, next) && p.tasks[c].phase.Parked? && (timedOut || p.tasks[c].phase.seen < p.version)
    ensures GetsTo(p, c, [Wake(c, timedOut), Loop(c), RunClaim(c), HearClaim(c)], Handling(next))
  {
    FromLooping(Step(p, Wake(c, timedOut)), c, next);
    OneMoreStep(p, c, Wake(c, timedOut), [Loop(c), RunClaim(c), HearClaim(c)], Handling(next));
    assert [Wake(c, timedOut)] + [Loop(c), RunClaim(c), HearClaim(c)]
      == [Wake(c, timedOut), Loop(c), RunClaim(c), HearClaim(c)];
  }

  lemma FromRetrying(p: Process, c: ConsumerId, next: int)
    requires CanGoOn(p, c, next) && p.tasks[c].phase.Retrying?
    ensures GetsTo(p, c, [Retry(c), Loop(c), RunClaim(c), HearClaim(c)], Handling(next))
  {
    FromLooping(Step(p, Retry(c)), c, next);
    OneMoreStep(p, c, Retry(c), [Loop(c), RunClaim(c), HearClaim(c)], Handling(next));
    assert [Retry(c)] + [Loop(c), RunClaim(c), HearClaim(c)] == [Retry(c), Loop(c), RunClaim(c), HearClaim(c)];
  }

  lemma FromHearing(p: Process, c: ConsumerId, next: int, succeeded: bool) returns (events: seq<Event>)
    requires CanGoOn(p, c, next) && p.tasks[c].phase.Claiming? && c in p.replies
    ensures GetsTo(p, c, events, Handling(next)) && |events| <= 7
  {
    var q := Step(p, HearClaim(c));
    if q.tasks[c].phase.Parked? {
      FromParked(q, c, next, true);
      events := [Wake(c, true), Loop(c), RunClaim(c), HearClaim(c)];
    } else {
      events := FromHandling(q, c, next, succeeded);
    }
    OneMoreStep(p, c, HearClaim(c), events, Handling(next));
    events := [HearClaim(c)] + events;
  }

  /** From every reachable state, whatever it is doing, a consumer that has neither ended nor been asked to stop gets
    in at most seven steps of its own to handling the message that comes first in claim order among those no
    statement in flight has locked, whatever its handler does with the message it may have in hand. */
  lemma AlwaysGoesOn(worker: string, db: Db, before: seq<Event>, c: ConsumerId, next: int, succeeded: bool)
    returns (events: seq<Event>)
    requires Valid(db) && CanRun(Initial(worker, db), before)
    requires var p := After(Initial(worker, db), before);
      && c in p.tasks && !p.tasks[c].phase.Ended? && !p.tasks[c].stopping
      && IsNext(Without(p.db, p.locked), p.tasks[c].queue, Some(next))
    ensures GetsTo(After(Initial(worker, db), before), c, events, Handling(next)) && |events| <= 7
  {
    Reachable(worker, db, before, c);
    var p := After(Initial(worker, db), before);
    match p.tasks[c].phase
    case Looping =>
      FromLooping(p, c, next);
      events := [Loop(c), RunClaim(c), HearClaim(c)];
    case Claiming(_) =>
      if c in p.replies {
        events := FromHearing(p, c, next, succeeded);
      } else {
        FromClaiming(p, c, next);
        events := [RunClaim(c), HearClaim(c)];
      }
    case Parked(_) =>
      FromParked(p, c, next, true);
      events := [Wake(c, true), Loop(c), RunClaim(c), HearClaim(c)];
    case Handling(_) => events := FromHandling(p, c, next, succeeded);
    case Settling(_, _) => events := FromSettling(p, c, next);
    case Retrying =>
      FromRetrying(p, c, next);
      events := [Retry(c), Loop(c), RunClaim(c), HearClaim(c)];
  }

  lemma Reachable(worker: string, db: Db, before: seq<Event>, c: ConsumerId)
    requires Valid(db) && CanRun(Initial(worker, db), before)
    ensures var p := After(Initial(worker, db), before); Valid(p.db) && ReplyFits(p, c) && ValidBooks(p)
  {
    RunKeepsWaiting(Initial(worker, db), before);
    RunKeepsReply(Initial(worker, db), before, c);
    RunKeepsBooks(Initial(worker, db), before);
  }

  /** In every reachable state a parked consumer that has been poked, and not to be stopped, needs no poll: it wakes,
    claims and handles the first ready message. */
  lemma PokedConsumerClaims(worker: string, db: Db, before: seq<Event>, c: ConsumerId, next: int)
    requires Valid(db) && CanRun(Initial(worker, db), before)
    requires var p := After(Initial(worker, db), before);
      && c in p.tasks && p.tasks[c].phase.Parked? && p.tasks[c].phase.seen < p.version && !p.tasks[c].stopping
      && IsNext(Without(p.db, p.locked), p.tasks[c].queue, Some(next))
    ensures GetsTo(After(Initial(worker, db), before), c,
                   [Wake(c, false), Loop(c), RunClaim(c), HearClaim(c)], Handling(next))
  {
    Reachable(worker, db, before, c);
    FromParked(After(Initial(worker, db), before), c, next, false);
  }

  /** In every reachable state a database error out of a claim, an ack or a nack costs a consumer its message and a
    second's sleep, and then it claims again. */
  lemma ErrorIsRetried(worker: string, db: Db, before: seq<Event>, e: Event, c: ConsumerId, next: int)
    requires Valid(db) && CanRun(Initial(worker, db), before)
    requires var p := After(Initial(worker, db), before);
      && (e == LoseClaim(c) || e == LoseSettle(c)) && CanStep(p, e) && !p.tasks[c].stopping
      && IsNext(Without(p.db, p.locked), p.tasks[c].queue, Some(next))
    ensures var q := Step(After(Initial(worker, db), before), e);
      && q.tasks[c].current == None && c !in q.replies
      && GetsTo(q, c, [Retry(c), Loop(c), RunClaim(c), HearClaim(c)], Handling(next))
  {
    Reachable(worker, db, before, c);
    FromRetrying(Step(After(Initial(worker, db), before), e), c, next);
  }

  // ----- and ends when it is asked to ----------------------------------------------------------------

  /** `c` has been asked to stop. */
  ghost predicate MustEnd(p: Process, c: ConsumerId)
  {
    c in p.tasks && p.tasks[c].stopping && ReplyFits(p, c) && StopReaches(p, c)
  }

  lemma StopsLooping(p: Process, c: ConsumerId)
    requires MustEnd(p, c) && p.tasks[c].phase.Looping?
    ensures GetsTo(p, c, [Loop(c)], Ended(false))
  {
    assert GetsTo(Step(p, Loop(c)), c, [], Ended(false));
    OneMoreStep(p, c, Loop(c), [], Ended(false));
    assert [Loop(c)] + [] == [Loop(c)];
  }

  /** The poke of the stop wakes it, if nothing else has. */
  lemma StopsParked(p: Process, c: ConsumerId) returns (events: seq<Event>)
    requires MustEnd(p, c) && p.tasks[c].phase.Parked?
    ensures GetsTo(p, c, events, Ended(false)) && |events| <= 3
  {
    var q := if p.tasks[c].phase.seen < p.version then p else Step(p, StopPoke);
    StopsLooping(Step(q, Wake(c, false)), c);
    OneMoreStep(q, c, Wake(c, false), [Loop(c)], Ended(false));
    events := [Wake(c, false)] + [Loop(c)];
    if p.tasks[c].phase.seen == p.version {
      OneMoreStep(p, c, StopPoke, events, Ended(false));
      events := [StopPoke] + events;
    }
  }

  lemma StopsSettling(p: Process, c: ConsumerId) returns (events: seq<Event>)
    requires MustEnd(p, c) && p.tasks[c].phase.Settling?
    ensures GetsTo(p, c, events, Ended(false)) && |events| <= 3
  {
    var q := if c in p.replies then p else Step(p, RunSettle(c));
    StopsLooping(Step(q, HearSettle(c)), c);
    OneMoreStep(q, c, HearSettle(c), [Loop(c)], Ended(false));
    events := [HearSettle(c)] + [Loop(c)];
    if c !in p.replies {
      OneMoreStep(p, c, RunSettle(c), events, Ended(false));
      events := [RunSettle(c)] + events;
    }
  }

  lemma StopsHandling(p: Process, c: ConsumerId, succeeded: bool) returns (events: seq<Event>)
    requires MustEnd(p, c) && p.tasks[c].phase.Handling?
    ensures GetsTo(p, c, events, Ended(false)) && |events| <= 4
  {
    events := StopsSettling(Step(p, FinishHandler(c, succeeded)), c);
    OneMoreStep(p, c, FinishHandler(c, succeeded), events, Ended(false));
    events := [FinishHandler(c, succeeded)] + events;
  }

  lemma StopsClaiming(p: Process, c: ConsumerId, succeeded: bool) returns (events: seq<Event>)
    requires MustEnd(p, c) && p.tasks[c].phase.Claiming?
    ensures GetsTo(p, c, events, Ended(false)) && |events| <= 6
  {
    var q := p;
    if c !in p.replies {
      q := Step(p, RunClaim(c));
      assert q.tasks == p.tasks && q.version == p.version && q.stopPokes == p.stopPokes;
    }
    var heard := Step(q, HearClaim(c));
    if heard.tasks[c].phase.Parked? {
      events := StopsParked(heard, c);
    } else {
      events := StopsHandling(heard, c, succeeded);
    }
    OneMoreStep(q, c, HearClaim(c), events, Ended(false));
    events := [HearClaim(c)] + events;
    if c !in p.replies {
      OneMoreStep(p, c, RunClaim(c), events, Ended(false));
      events := [RunClaim(c)] + events;
    }
  }

  /** From every reachable state, whatever it is doing, a consumer that was asked to stop and has not ended gets to
    its end in at most six steps of its own and pokes of stops, without waiting for a poll. */
  lemma StoppedConsumerEnds(worker: string, db: Db, before: seq<Event>, c: ConsumerId, succeeded: bool)
    returns (events: seq<Event>)
    requires Valid(db) && CanRun(Initial(worker, db), before)
    requires var p := After(Initial(worker, db), before);
      c in p.tasks && !p.tasks[c].phase.Ended? && p.tasks[c].stopping
    ensures GetsTo(After(Initial(worker, db), before), c, events, Ended(false)) && |events| <= 6
  {
    Reachable(worker, db, before, c);
    var p := After(Initial(worker, db), before);
    assert StopReaches(p, c);
    match p.tasks[c].phase
    case Looping =>
      StopsLooping(p, c);
      events := [Loop(c)];
    case Claiming(_) => events := StopsClaiming(p, c, succeeded);
    case Parked(_) => events := StopsParked(p, c);
    case Handling(_) => events := StopsHandling(p, c, succeeded);
    case Settling(_, _) => events := StopsSettling(p, c);
    case Retrying =>
      StopsLooping(Step(p, Retry(c)), c);
      OneMoreStep(p, c, Retry(c), [Loop(c)], Ended(false));
      events := [Retry(c)] + [Loop(c)];
  }

  // ----- each notification once ----------------------------------------------------------------------

  /** The statement of an event, if any. */
  function StatementOf(p: Process, e: Event): Option<Op>
    requires CanStep(p, e)
  {
    match e
    case Execute(op) => Some(op)
    case RunClaim(c) => Some(ClaimOp(p, c))
    case RunSettle(c) => Some(SettleOp(c, p.tasks[c]))
    case _ => None
  }

  /** How often these events notify the queue. */
  function TimesNotified(p: Process, events: seq<Event>, queue: Queue): nat
    requires CanRun(p, events)
    decreases |events|
  {
    if events == [] then 0
    else
      var op := StatementOf(p, events[0]);
      (if op.Some? && queue in Notifies(p.db, op.value) then 1 else 0)
      + TimesNotified(Step(p, events[0]), events[1..], queue)
  }

  function TimesDelivered(events: seq<Event>, queue: Queue): nat
    decreases |events|
  {
    if events == [] then 0 else (if events[0] == Deliver(queue) then 1 else 0) + TimesDelivered(events[1..], queue)
  }

  lemma StepKeepsCount(p: Process, e: Event, queue: Queue)
    requires CanStep(p, e) && p.listener.Listening? && !e.Disconnect?
    ensures Step(p, e).listener.Listening?
    ensures var op := StatementOf(p, e);
      p.inFlight[queue] + (if op.Some? && queue in Notifies(p.db, op.value) then 1 else 0)
        == Step(p, e).inFlight[queue] + (if e == Deliver(queue) then 1 else 0)
  {
    if Executes(e) {
      StatementMovesNobody(p, e);
    } else {
    }
  }

  /** While the connection lasts, every notification is delivered once or still in flight. */
  lemma {:induction false} NotificationsAreConserved(p: Process, events: seq<Event>, queue: Queue)
    requires CanRun(p, events) && p.listener.Listening? && Disconnect !in events
    ensures p.inFlight[queue] + TimesNotified(p, events, queue)
      == After(p, events).inFlight[queue] + TimesDelivered(events, queue)
    decreases |events|
  {
    if events != [] {
      assert events == [events[0]] + events[1..];
      StepKeepsCount(p, events[0], queue);
      NotificationsAreConserved(Step(p, events[0]), events[1..], queue);
    }
  }

  /** Moves a consumer on from what it waits for. */
  predicate MovesOn(e: Event, c: ConsumerId)
  {
    IsOwn(e, c) || e == LandCancel(c) || e == LoseClaim(c) || e == LoseSettle(c)
  }

  lemma StatementMovesNobody(p: Process, e: Event)
    requires CanStep(p, e) && Executes(e)
    ensures Step(p, e).tasks == p.tasks && Step(p, e).version == p.version && Step(p, e).listener == p.listener
  {
  }

  lemma StepLeavesParked(p: Process, e: Event, c: ConsumerId)
    requires CanStep(p, e) && c in p.tasks && p.tasks[c].phase.Parked? && !MovesOn(e, c)
    requires ConsumerName(p.worker, p.started + 1) !in p.tasks
    ensures c in Step(p, e).tasks && Step(p, e).tasks[c].phase == p.tasks[c].phase
  {
    if Executes(e) {
      StatementMovesNobody(p, e);
    } else if Hears(e) {
    } else {
    }
  }

  lemma StepCountsPoke(p: Process, e: Event)
    requires CanStep(p, e)
    ensures Step(p, e).version == p.version + if IsPoke(e) then 1 else 0
  {
  }

  lemma {:induction false} StaysParked(p: Process, events: seq<Event>, c: ConsumerId)
    requires ValidBooks(p) && CanRun(p, events) && c in p.tasks && p.tasks[c].phase.Parked?
    requires forall i :: 0 <= i < |events| ==> !MovesOn(events[i], c)
    ensures c in After(p, events).tasks && After(p, events).tasks[c].phase == p.tasks[c].phase
    decreases |events|
  {
    if events != [] {
      assert !MovesOn(events[0], c);
      StartedNameIsNew(p);
      StepLeavesParked(p, events[0], c);
      StepKeepsBooks(p, events[0]);
      StaysParked(Step(p, events[0]), events[1..], c);
    }
  }

  function Pokes(events: seq<Event>): nat
  {
    if events == [] then 0 else (if IsPoke(events[0]) then 1 else 0) + Pokes(events[1..])
  }

  lemma {:induction false} VersionCountsPokes(p: Process, events: seq<Event>)
    requires CanRun(p, events)
    ensures After(p, events).version == p.version + Pokes(events)
    decreases |events|
  {
    if events != [] {
      StepCountsPoke(p, events[0]);
      VersionCountsPokes(Step(p, events[0]), events[1..]);
    }
  }

  /** From every reachable state: while a parked consumer does nothing, it can wake before its poll if and only if it
    could already or somebody has poked since. */
  lemma WakesIffPoked(worker: string, db: Db, before: seq<Event>, events: seq<Event>, c: ConsumerId)
    requires CanRun(Initial(worker, db), before) && CanRun(After(Initial(worker, db), before), events)
    requires var p := After(Initial(worker, db), before); c in p.tasks && p.tasks[c].phase.Parked?
    requires forall i :: 0 <= i < |events| ==> !MovesOn(events[i], c)
    ensures var p := After(Initial(worker, db), before);
      CanStep(After(p, events), Wake(c, false)) <==> CanStep(p, Wake(c, false)) || 0 < Pokes(events)
  {
    RunKeepsBooks(Initial(worker, db), before);
    var p := After(Initial(worker, db), before);
    assert StopReaches(p, c);
    StaysParked(p, events, c);
    VersionCountsPokes(p, events);
  }

  /** From every reachable state: when the connection is lost, so is whatever was in flight; and once it is made again,
    the poke that follows lets every parked consumer wake without waiting for the poll. */
  lemma ReconnectWakesAll(worker: string, db: Db, before: seq<Event>, c: ConsumerId)
    requires Valid(db) && CanRun(Initial(worker, db), before)
    requires var p := After(Initial(worker, db), before); c in p.tasks && p.tasks[c].phase.Parked?
    ensures var lost := Step(After(Initial(worker, db), before), Disconnect);
      && lost.inFlight == multiset{} && CanStep(lost, Connect) && CanStep(Step(lost, Connect), ConnectPoke)
      && var q := Step(Step(lost, Connect), ConnectPoke);
         q.listener == Listening(true) && CanStep(q, Wake(c, false))
  {
    Reachable(worker, db, before, c);
    assert StopReaches(After(Initial(worker, db), before), c);
  }

  /** A heartbeat that deregisters the consumers that have ended deregisters each of them for the last time. */
  lemma DeregisteredOnce(worker: string, db: Db, before: seq<Event>, after: seq<Event>, c: ConsumerId)
    requires CanRun(Initial(worker, db), before) && c in After(Initial(worker, db), before).finished
    requires CanRun(Step(After(Initial(worker, db), before), TakeFinished), after)
    ensures c !in After(Step(After(Initial(worker, db), before), TakeFinished), after).finished
  {
    RunKeepsBooks(Initial(worker, db), before);
    var p := After(Initial(worker, db), before);
    assert Booked(p, c);
    StepKeepsBooks(p, TakeFinished);
    StaysDeregistered(Step(p, TakeFinished), after, c);
  }

  lemma {:induction false} StaysDeregistered(p: Process, events: seq<Event>, c: ConsumerId)
    requires CanRun(p, events) && c in p.exited && c !in p.finished
    ensures c !in After(p, events).finished
    decreases |events|
  {
    if events != [] {
      ExitedStays(p, events[0], c);
      StaysDeregistered(Step(p, events[0]), events[1..], c);
    }
  }

  lemma ExitedStays(p: Process, e: Event, c: ConsumerId)
    requires CanStep(p, e) && c in p.exited && c !in p.finished
    ensures c in Step(p, e).exited && c !in Step(p, e).finished
  {
  }
}
