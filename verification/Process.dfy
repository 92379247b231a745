/** One worker process: its consumers, its notifier, and its bookkeeping of which consumers it has.

  The process shares the table with everybody else, whose statements are the event `Execute`. A
  notification is in flight from the commit that sent it until the notifier's connection delivers it, and a
  reply from the execution of the statement until its consumer hears of it. */
module Process {
  import opened Prelude
  import opened Messages
  import opened Signals
  import opened Consumers
  import opened Notifications
  import opened ClaimOrder

  datatype Process = Process(
    worker: string,
    db: Db,
    version: nat,                          // Notifier.version
    listener: Listener,
    inFlight: multiset<Queue>,
    tasks: map<ConsumerId, Task>,          // every consumer ever started here
    replies: map<ConsumerId, Reply>,
    consumers: set<ConsumerId>,            // the keys of Worker.consumers
    finished: set<ConsumerId>,             // Worker._finished
    started: nat,                          // how far Worker._consumer_numbers has counted
    stopPokes: nat,                        // stop_consumer calls that have yet to poke
    killed: set<ConsumerId>,               // removed from consumers by kill_consumer
    exited: set<ConsumerId>,               // whose done callback has run
    locked: set<int>,                      // rows locked by other statements in flight
    notes: Notes)

  /** Bookkeeping of the model: of every consumer's last claim that found nothing, when it ran and which
    ready rows it skipped as locked that have not changed status since; and when each row got the status
    it has. */
  datatype Notes = Notes(
    claimedAt: map<ConsumerId, Time>,
    passedOver: map<ConsumerId, set<int>>,
    statusSince: map<int, Time>)

  // ----- consumer ids ------------------------------------------------------------------------------

  function Digit(d: nat): char
    requires d < 10
  {
    '0' + d as char
  }

  function Decimal(n: nat): string
  {
    if n < 10 then [Digit(n)] else Decimal(n / 10) + [Digit(n % 10)]
  }

  /** f"{worker}-c{n}" */
  function ConsumerName(worker: string, n: nat): ConsumerId { worker + "-c" + Decimal(n) }

  lemma {:induction false} DecimalIsInjective(m: nat, n: nat)
    requires Decimal(m) == Decimal(n)
    ensures m == n
    decreases m
  {
    var a, b := Decimal(m), Decimal(n);
    assert a[|a| - 1] == b[|b| - 1];
    if m >= 10 && n >= 10 {
      assert a[..|a| - 1] == Decimal(m / 10) && b[..|b| - 1] == Decimal(n / 10);
      DecimalIsInjective(m / 10, n / 10);
    }
  }

  lemma NamesAreDistinct(worker: string, m: nat, n: nat)
    requires ConsumerName(worker, m) == ConsumerName(worker, n)
    ensures m == n
  {
    var prefix := worker + "-c";
    assert (prefix + Decimal(m))[|prefix|..] == Decimal(m);
    assert (prefix + Decimal(n))[|prefix|..] == Decimal(n);
    DecimalIsInjective(m, n);
  }

  // ----- steps -------------------------------------------------------------------------------------

  datatype Event =
    | Execute(op: Op)                                             // a statement of anybody else
    | Lock(id: int)                                               // by a statement in flight,
    | Unlock(id: int)                                             // until it has committed or aborted
    | Connect                                                     // LISTEN has been executed
    | ConnectPoke
    | Disconnect
    | Deliver(queue: Queue)
    | OtherPoke                                                   // for the command loop, see CommandLoop
    | StartConsumer(queue: Queue)
    | Loop(consumer: ConsumerId)
    | RunClaim(consumer: ConsumerId)                              // the statement is executed,
    | HearClaim(consumer: ConsumerId)                             // and its reply arrives,
    | LoseClaim(consumer: ConsumerId)                             // or an error, executed or not
    | Wake(consumer: ConsumerId, timedOut: bool)
    | FinishHandler(consumer: ConsumerId, succeeded: bool)
    | RunSettle(consumer: ConsumerId)
    | HearSettle(consumer: ConsumerId)
    | LoseSettle(consumer: ConsumerId)
    | Retry(consumer: ConsumerId)
    | RequestStop(consumer: ConsumerId)                           // sets the flag; its poke follows
    | StopPoke
    | Kill(consumer: ConsumerId)                                  // removes it; the cancellation follows
    | LandCancel(consumer: ConsumerId)                            // from a kill, or from stop_all
    | RunExitCallback(consumer: ConsumerId)
    | TakeFinished                                                // _beat empties _finished

  predicate CanStep(p: Process, e: Event)
  {
    match e
    case Execute(op) => Enabled(p.db, op)
    case Lock(_) => true
    case Unlock(_) => true
    case Connect => p.listener.Down?
    case ConnectPoke => p.listener == Listening(false)
    case Disconnect => true
    case Deliver(queue) => p.listener == Listening(true) && queue in p.inFlight
    case OtherPoke => p.listener == Listening(true)
    case StartConsumer(_) => true
    case Loop(c) => c in p.tasks && p.tasks[c].phase.Looping?
    case RunClaim(c) => c in p.tasks && p.tasks[c].phase.Claiming? && c !in p.replies
    case HearClaim(c) => c in p.tasks && p.tasks[c].phase.Claiming? && c in p.replies && p.replies[c].ClaimReply?
    case LoseClaim(c) => c in p.tasks && p.tasks[c].phase.Claiming?
    case Wake(c, timedOut) =>
      c in p.tasks && p.tasks[c].phase.Parked? && (timedOut || p.tasks[c].phase.seen < p.version)
    case FinishHandler(c, _) => c in p.tasks && p.tasks[c].phase.Handling?
    case RunSettle(c) => c in p.tasks && p.tasks[c].phase.Settling? && c !in p.replies
    case HearSettle(c) => c in p.tasks && p.tasks[c].phase.Settling? && c in p.replies
    case LoseSettle(c) => c in p.tasks && p.tasks[c].phase.Settling?
    case Retry(c) => c in p.tasks && p.tasks[c].phase.Retrying?
    case RequestStop(c) => c in p.consumers && c in p.tasks
    case StopPoke => 0 < p.stopPokes
    case Kill(c) => c in p.consumers && c in p.tasks
    case LandCancel(c) => c in p.tasks && !p.tasks[c].phase.Ended?
    case RunExitCallback(c) => c in p.tasks && p.tasks[c].phase.Ended? && c !in p.exited
    case TakeFinished => true
  }

  predicate KeepsStatus(before: Db, after: Db, id: int)
  {
    id in before.rows && id in after.rows && before.rows[id].status == after.rows[id].status
  }

  function Noted(n: Notes, before: Db, after: Db): Notes
  {
    Notes(n.claimedAt,
          map c | c in n.passedOver :: (set id | id in n.passedOver[c] && KeepsStatus(before, after, id)),
          map id | id in after.rows ::
            if id in n.statusSince && KeepsStatus(before, after, id) then n.statusSince[id] else before.now)
  }

  /** Execute a statement; while LISTENing, its notifications go on their way to this process. */
  function Executed(p: Process, op: Op): Process
  {
    p.(db := Apply(p.db, op),
       inFlight := if p.listener.Listening? then p.inFlight + multiset(Notifies(p.db, op)) else p.inFlight,
       notes := Noted(p.notes, p.db, Apply(p.db, op)))
  }

  function Poked(p: Process): Process { p.(version := p.version + 1) }

  /** The consumer goes on to `t`, and no reply is on its way to it any more. */
  function Moved(p: Process, c: ConsumerId, t: Task): Process
  {
    p.(tasks := p.tasks[c := t], replies := p.replies - {c})
  }

  /** The statement of a claim: it picks the first ready row that nobody has locked. */
  function ClaimOp(p: Process, c: ConsumerId): Op
    requires c in p.tasks
  {
    Claim(p.tasks[c].queue, c, FirstReady(Without(p.db, p.locked), p.tasks[c].queue))
  }

  /** A claim that found nothing leaves a note of when, and of what it passed over. */
  function FoundNothing(p: Process, c: ConsumerId): Process
    requires c in p.tasks
  {
    p.(notes := p.notes.(
         claimedAt := p.notes.claimedAt[c := p.db.now],
         passedOver := p.notes.passedOver[c := set id | id in p.locked && IsReadyId(p.db, p.tasks[c].queue, id)]))
  }

  function ClaimRun(p: Process, c: ConsumerId): Process
    requires c in p.tasks
  {
    var op := ClaimOp(p, c);
    var q := if op.picked.None? then FoundNothing(p, c) else p;
    Executed(q, op).(replies := p.replies[c := ClaimReply(op.picked)])
  }

  function SettleRun(p: Process, c: ConsumerId): Process
    requires c in p.tasks && p.tasks[c].phase.Settling?
  {
    Executed(p, SettleOp(c, p.tasks[c])).(replies := p.replies[c := SettleReply])
  }

  function Step(p: Process, e: Event): Process
    requires CanStep(p, e)
  {
    match e
    case Execute(op) => Executed(p, op)
    case Lock(id) => p.(locked := p.locked + {id})
    case Unlock(id) => p.(locked := p.locked - {id})
    case Connect => p.(listener := Listening(false))
    case ConnectPoke => Poked(p.(listener := Listening(true)))
    case Disconnect => p.(listener := Down, inFlight := multiset{})
    case Deliver(queue) => Poked(p.(inFlight := p.inFlight - multiset{queue}))
    case OtherPoke => Poked(p)
    case StartConsumer(queue) =>
      var c := ConsumerName(p.worker, p.started + 1);
      p.(started := p.started + 1, tasks := p.tasks[c := Fresh(queue)], consumers := p.consumers + {c})
    case Loop(c) => Moved(p, c, Looped(p.tasks[c], p.version))
    case RunClaim(c) => ClaimRun(p, c)
    case HearClaim(c) => Moved(p, c, ClaimReplied(p.tasks[c], p.replies[c].picked))
    case LoseClaim(c) => Moved(p, c, Errored(p.tasks[c]))
    case Wake(c, _) => Moved(p, c, Woken(p.tasks[c]))
    case FinishHandler(c, succeeded) => Moved(p, c, Handled(p.tasks[c], succeeded))
    case RunSettle(c) => SettleRun(p, c)
    case HearSettle(c) => Moved(p, c, Settled(p.tasks[c]))
    case LoseSettle(c) => Moved(p, c, Errored(p.tasks[c]))
    case Retry(c) => Moved(p, c, Retried(p.tasks[c]))
    case RequestStop(c) => p.(tasks := p.tasks[c := StopRequested(p.tasks[c])], stopPokes := p.stopPokes + 1)
    case StopPoke => Poked(p.(stopPokes := p.stopPokes - 1))
    case Kill(c) => p.(consumers := p.consumers - {c}, killed := p.killed + {c})
    case LandCancel(c) => Moved(p, c, Cancelled(p.tasks[c]))
    case RunExitCallback(c) => ExitCallback(p, c)
    case TakeFinished => p.(finished := {})
  }

  /** _on_consumer_exit */
  function ExitCallback(p: Process, c: ConsumerId): Process
    requires c in p.tasks
  {
    var q := p.(exited := p.exited + {c});
    if p.tasks[c].phase == Ended(true) && c !in p.consumers then q
    else q.(consumers := p.consumers - {c}, finished := p.finished + {c})
  }

  function Initial(worker: string, db: Db): Process
  {
    Process(worker, db, 0, Down, multiset{}, map[], map[], {}, {}, 0, 0, {}, {}, {},
            Notes(map[], map[], map id | id in db.rows :: db.now))
  }

  // ----- no lost wake-up ---------------------------------------------------------------------------

  /** c's claim has found nothing, and c is parked or will be as soon as it hears of it. */
  predicate IsWaiting(p: Process, c: ConsumerId)
  {
    && c in p.tasks
    && (p.tasks[c].phase.Parked?
        || (p.tasks[c].phase.Claiming? && c in p.replies && p.replies[c] == ClaimReply(None)))
  }

  /** And the version it read before the claim is still the present one: it has not been poked since. */
  predicate IsUnpoked(p: Process, c: ConsumerId) { IsWaiting(p, c) && p.tasks[c].phase.seen == p.version }

  /** A version read is a version that was, and a claim made is a claim of the past. */
  ghost predicate SeenIsPast(p: Process, c: ConsumerId)
  {
    && (c in p.tasks && (p.tasks[c].phase.Claiming? || p.tasks[c].phase.Parked?) ==>
          p.tasks[c].phase.seen <= p.version)
    && (IsWaiting(p, c) ==>
          c in p.notes.claimedAt && p.notes.claimedAt[c] <= p.db.now && c in p.notes.passedOver)
  }

  ghost predicate StatusIsPast(p: Process, id: int)
  {
    id in p.db.rows ==> id in p.notes.statusSince && p.notes.statusSince[id] <= p.db.now
  }

  /** What explains that a message is ready although c's claim found nothing, without any notification: it
    had its present status before it was available, and became available after that claim. */
  predicate ReadyByTime(p: Process, c: ConsumerId, id: int)
  {
    && c in p.notes.claimedAt && id in p.db.rows && id in p.notes.statusSince
    && p.notes.claimedAt[c] < p.db.rows[id].availableAt && p.notes.statusSince[id] < p.db.rows[id].availableAt
  }

  predicate WasPassedOver(p: Process, c: ConsumerId, id: int) { c in p.notes.passedOver && id in p.notes.passedOver[c] }

  /** If c waits and has not been poked although `id` is ready for it, then a notification is still in
    flight, or the listener is down or about to poke, or the message has become ready only by time
    passing since c's claim, or that claim passed it over because another statement had it locked. */
  ghost predicate WakeUpAssured(p: Process, c: ConsumerId, id: int)
  {
    IsUnpoked(p, c) && IsReadyId(p.db, p.tasks[c].queue, id) ==>
      || p.tasks[c].queue in p.inFlight
      || p.listener != Listening(true)
      || ReadyByTime(p, c, id)
      || WasPassedOver(p, c, id)
  }

  ghost predicate ValidWaiting(p: Process)
  {
    && Valid(p.db)
    && (forall id :: StatusIsPast(p, id))
    && (forall c :: SeenIsPast(p, c))
    && (forall c, id :: WakeUpAssured(p, c, id))
  }

  /** A statement makes a message ready only by notifying its queue, or by letting time pass over a message
    that was pending already. */
  lemma ReadyNeedsNotify(db: Db, op: Op, queue: Queue, id: int)
    requires Valid(db) && Enabled(db, op) && IsReadyId(Apply(db, op), queue, id)
    ensures IsReadyId(db, queue, id) || queue in Notifies(db, op)
      || (KeepsStatus(db, Apply(db, op), id) && db.now < Apply(db, op).rows[id].availableAt)
    ensures IsReadyId(db, queue, id) ==>
      KeepsStatus(db, Apply(db, op), id) && Apply(db, op).rows[id].availableAt == db.rows[id].availableAt
  {
    FiresIffBecomesReady(db, op, id);
  }

  lemma ExecutedKeepsAssured(p: Process, op: Op, c: ConsumerId, id: int)
    requires Valid(p.db) && Enabled(p.db, op)
    requires StatusIsPast(p, id) && SeenIsPast(p, c) && WakeUpAssured(p, c, id)
    ensures WakeUpAssured(Executed(p, op), c, id)
  {
    var q := Executed(p, op);
    if c in p.tasks && IsReadyId(q.db, p.tasks[c].queue, id) {
      ReadyNeedsNotify(p.db, op, p.tasks[c].queue, id);
    }
  }

  lemma ExecutedKeepsWaiting(p: Process, op: Op)
    requires ValidWaiting(p) && Enabled(p.db, op)
    ensures ValidWaiting(Executed(p, op))
  {
    var q := Executed(p, op);
    ApplyKeepsValid(p.db, op);
    forall id ensures StatusIsPast(q, id) { assert StatusIsPast(p, id); }
    forall c ensures SeenIsPast(q, c) { assert SeenIsPast(p, c); }
    forall c, id ensures WakeUpAssured(q, c, id) {
      assert StatusIsPast(p, id) && SeenIsPast(p, c) && WakeUpAssured(p, c, id);
      ExecutedKeepsAssured(p, op, c, id);
    }
  }

  /** Steps that touch neither table nor waiting consumers, and leave less to explain. */
  lemma QuietStepKeepsWaiting(p: Process, q: Process)
    requires ValidWaiting(p) && q.db == p.db && q.notes.statusSince == p.notes.statusSince && p.version <= q.version
    requires forall c :: SeenIsPast(q, c)
    requires forall c :: IsUnpoked(q, c) ==>
      && IsUnpoked(p, c) && p.tasks[c].queue == q.tasks[c].queue
      && q.notes == p.notes
      && (p.tasks[c].queue in p.inFlight || p.listener != Listening(true) ==>
            q.tasks[c].queue in q.inFlight || q.listener != Listening(true))
    ensures ValidWaiting(q)
  {
    forall id ensures StatusIsPast(q, id) { assert StatusIsPast(p, id); }
    forall c, id ensures WakeUpAssured(q, c, id) { assert WakeUpAssured(p, c, id); }
  }

  /** A consumer that goes on keeps everybody's wake-up assured: it parks only on hearing that its claim found
    nothing, with the version it read before that claim. */
  lemma MovedKeepsWaiting(p: Process, c: ConsumerId, t: Task)
    requires ValidWaiting(p) && (t.phase.Claiming? ==> t.phase.seen <= p.version)
    requires t.phase.Parked? ==> IsWaiting(p, c) && p.tasks[c].phase.seen == t.phase.seen && p.tasks[c].queue == t.queue
    ensures ValidWaiting(Moved(p, c, t))
  {
    var q := Moved(p, c, t);
    forall d ensures SeenIsPast(q, d) { assert SeenIsPast(p, d) && SeenIsPast(p, c); }
    QuietStepKeepsWaiting(p, q);
  }

  /** A claim finds nothing only when everything ready in its queue is locked. */
  lemma NothingUnlocked(p: Process, c: ConsumerId, id: int)
    requires ValidIds(p.db) && c in p.tasks && ClaimOp(p, c).picked.None?
    requires IsReadyId(p.db, p.tasks[c].queue, id)
    ensures id in p.locked
  {
    FirstReadyIsNext(Without(p.db, p.locked), p.tasks[c].queue);
    assert id in Without(p.db, p.locked).rows ==> !IsReadyId(Without(p.db, p.locked), p.tasks[c].queue, id);
  }

  /** A note about a consumer that is not waiting changes nothing for those that are. */
  lemma NotedKeepsWaiting(p: Process, c: ConsumerId)
    requires ValidWaiting(p) && c in p.tasks && !IsWaiting(p, c)
    ensures ValidWaiting(FoundNothing(p, c))
  {
    var q := FoundNothing(p, c);
    forall id ensures StatusIsPast(q, id) { assert StatusIsPast(p, id); }
    forall d ensures SeenIsPast(q, d) { assert SeenIsPast(p, d); }
    forall d, id ensures WakeUpAssured(q, d, id) { assert WakeUpAssured(p, d, id); }
  }

  /** Whatever is ready after a claim that found nothing was ready and locked before it. */
  lemma NothingFoundIsPassedOver(p: Process, c: ConsumerId, id: int)
    requires ValidIds(p.db) && c in p.tasks && ClaimOp(p, c).picked.None?
    requires IsReadyId(Apply(p.db, ClaimOp(p, c)), p.tasks[c].queue, id)
    ensures WasPassedOver(Executed(FoundNothing(p, c), ClaimOp(p, c)), c, id)
  {
    assert IsReadyId(p.db, p.tasks[c].queue, id);
    NothingUnlocked(p, c, id);
  }

  /** So from the moment its claim has found nothing, the consumer's wake-up is assured. */
  lemma AnswerIsAssured(p: Process, c: ConsumerId, id: int)
    requires ValidIds(p.db) && CanStep(p, RunClaim(c))
    requires ClaimOp(p, c).picked.None?
    ensures WakeUpAssured(Step(p, RunClaim(c)), c, id)
  {
    if IsReadyId(Step(p, RunClaim(c)).db, p.tasks[c].queue, id) {
      NothingFoundIsPassedOver(p, c, id);
    }
  }

  lemma AnswerKeepsWaiting(p: Process, c: ConsumerId)
    requires ValidIds(p.db) && CanStep(p, RunClaim(c)) && p.tasks[c].phase.seen <= p.version
    requires var op := ClaimOp(p, c);
      ValidWaiting(Executed(if op.picked.None? then FoundNothing(p, c) else p, op))
    ensures ValidWaiting(Step(p, RunClaim(c)))
  {
    var op, r := ClaimOp(p, c), Step(p, RunClaim(c));
    var q := Executed(if op.picked.None? then FoundNothing(p, c) else p, op);
    assert r == q.(replies := r.replies);
    forall id ensures StatusIsPast(r, id) { assert StatusIsPast(q, id); }
    forall d ensures SeenIsPast(r, d) { assert SeenIsPast(q, d); }
    forall d, id ensures WakeUpAssured(r, d, id) {
      assert WakeUpAssured(q, d, id);
      if d == c && op.picked.None? {
        AnswerIsAssured(p, c, id);
      }
    }
  }

  lemma RunClaimKeepsWaiting(p: Process, c: ConsumerId)
    requires ValidWaiting(p) && CanStep(p, RunClaim(c))
    ensures ValidWaiting(Step(p, RunClaim(c)))
  {
    var op := ClaimOp(p, c);
    assert SeenIsPast(p, c);
    if op.picked.None? {
      NotedKeepsWaiting(p, c);
      ExecutedKeepsWaiting(FoundNothing(p, c), op);
    } else {
      ExecutedKeepsWaiting(p, op);
    }
    AnswerKeepsWaiting(p, c);
  }

  lemma RunSettleKeepsWaiting(p: Process, c: ConsumerId)
    requires ValidWaiting(p) && CanStep(p, RunSettle(c))
    ensures ValidWaiting(Step(p, RunSettle(c)))
  {
    var q, r := Executed(p, SettleOp(c, p.tasks[c])), Step(p, RunSettle(c));
    ExecutedKeepsWaiting(p, SettleOp(c, p.tasks[c]));
    forall d ensures SeenIsPast(r, d) { assert SeenIsPast(q, d); }
    QuietStepKeepsWaiting(q, r);
  }

  predicate IsPoke(e: Event) { e.ConnectPoke? || e.Deliver? || e.OtherPoke? || e.StopPoke? }

  predicate IsListenerStep(e: Event) { e.Connect? || e.Disconnect? }

  predicate KeepsBooks(e: Event)
  {
    e.Lock? || e.Unlock? || e.RequestStop? || e.Kill? || e.RunExitCallback? || e.TakeFinished?
  }

  /** A poke leaves nobody parked with version == seen. */
  lemma PokeKeepsWaiting(p: Process, e: Event)
    requires ValidWaiting(p) && CanStep(p, e) && IsPoke(e)
    ensures ValidWaiting(Step(p, e))
  {
    var q := Step(p, e);
    forall c ensures SeenIsPast(q, c) { assert SeenIsPast(p, c); }
    forall id ensures StatusIsPast(q, id) { assert StatusIsPast(p, id); }
    forall c, id ensures WakeUpAssured(q, c, id) { assert SeenIsPast(p, c); }
  }

  /** A connection just lost or made has a poke to come. */
  lemma ListenerStepKeepsWaiting(p: Process, e: Event)
    requires ValidWaiting(p) && CanStep(p, e) && IsListenerStep(e)
    ensures ValidWaiting(Step(p, e))
  {
    var q := Step(p, e);
    forall c ensures SeenIsPast(q, c) { assert SeenIsPast(p, c); }
    QuietStepKeepsWaiting(p, q);
  }

  lemma BookkeepingKeepsWaiting(p: Process, e: Event)
    requires ValidWaiting(p) && CanStep(p, e) && KeepsBooks(e)
    ensures ValidWaiting(Step(p, e))
  {
    var q := Step(p, e);
    forall c ensures SeenIsPast(q, c) { assert SeenIsPast(p, c); }
    QuietStepKeepsWaiting(p, q);
  }

  lemma StepKeepsWaiting(p: Process, e: Event)
    requires ValidWaiting(p) && CanStep(p, e)
    ensures ValidWaiting(Step(p, e))
  {
    match e
    case Execute(op) => ExecutedKeepsWaiting(p, op);
    case StartConsumer(queue) => StartKeepsWaiting(p, queue);
    case Loop(c) => MovedKeepsWaiting(p, c, Looped(p.tasks[c], p.version));
    case RunClaim(c) => RunClaimKeepsWaiting(p, c);
    case HearClaim(c) => MovedKeepsWaiting(p, c, ClaimReplied(p.tasks[c], p.replies[c].picked));
    case LoseClaim(c) => MovedKeepsWaiting(p, c, Errored(p.tasks[c]));
    case Wake(c, _) => MovedKeepsWaiting(p, c, Woken(p.tasks[c]));
    case FinishHandler(c, succeeded) => MovedKeepsWaiting(p, c, Handled(p.tasks[c], succeeded));
    case RunSettle(c) => RunSettleKeepsWaiting(p, c);
    case HearSettle(c) => MovedKeepsWaiting(p, c, Settled(p.tasks[c]));
    case LoseSettle(c) => MovedKeepsWaiting(p, c, Errored(p.tasks[c]));
    case Retry(c) => MovedKeepsWaiting(p, c, Retried(p.tasks[c]));
    case LandCancel(c) => MovedKeepsWaiting(p, c, Cancelled(p.tasks[c]));
    case _ =>
      if IsPoke(e) {
        PokeKeepsWaiting(p, e);
      } else if IsListenerStep(e) {
        ListenerStepKeepsWaiting(p, e);
      } else {
        BookkeepingKeepsWaiting(p, e);
      }
  }

  lemma StartKeepsWaiting(p: Process, queue: Queue)
    requires ValidWaiting(p)
    ensures ValidWaiting(Step(p, StartConsumer(queue)))
  {
    var q := Step(p, StartConsumer(queue));
    forall c ensures SeenIsPast(q, c) { assert SeenIsPast(p, c); }
    QuietStepKeepsWaiting(p, q);
  }

  // ----- whole runs --------------------------------------------------------------------------------

  ghost predicate CanRun(p: Process, events: seq<Event>)
    decreases |events|
  {
    events == [] || (CanStep(p, events[0]) && CanRun(Step(p, events[0]), events[1..]))
  }

  function After(p: Process, events: seq<Event>): Process
    requires CanRun(p, events)
    decreases |events|
  {
    if events == [] then p else After(Step(p, events[0]), events[1..])
  }

  lemma {:induction false} RunThenStep(p: Process, events: seq<Event>, e: Event)
    requires CanRun(p, events) && CanStep(After(p, events), e)
    ensures CanRun(p, events + [e]) && After(p, events + [e]) == Step(After(p, events), e)
    decreases |events|
  {
    if events == [] {
      assert [] + [e] == [e];
      assert CanRun(Step(p, e), []);
    } else {
      assert (events + [e])[1..] == events[1..] + [e];
      RunThenStep(Step(p, events[0]), events[1..], e);
    }
  }

  lemma {:induction false} RunKeepsWaiting(p: Process, events: seq<Event>)
    requires ValidWaiting(p) && CanRun(p, events)
    ensures ValidWaiting(After(p, events))
    decreases |events|
  {
    if events != [] {
      StepKeepsWaiting(p, events[0]);
      RunKeepsWaiting(Step(p, events[0]), events[1..]);
    }
  }

  /** No lost wake-up. In every reachable state, a consumer whose claim has found nothing, and that is parked or
    about to park with version == seen while a message of its queue is ready, has a notification of that queue
    in flight, or the listener is down or has yet to make its reconnect poke, or the message was pending already
    when it became available, after the consumer's claim, or that claim found it locked by another statement that
    has not changed it. */
  lemma NoLostWakeUp(worker: string, db: Db, events: seq<Event>, c: ConsumerId, id: int)
    requires Valid(db) && CanRun(Initial(worker, db), events)
    requires var p := After(Initial(worker, db), events); IsUnpoked(p, c) && IsReadyId(p.db, p.tasks[c].queue, id)
    ensures IsExplained(After(Initial(worker, db), events), c, id)
  {
    RunKeepsWaiting(Initial(worker, db), events);
    assert WakeUpAssured(After(Initial(worker, db), events), c, id);
  }

  predicate IsExplained(p: Process, c: ConsumerId, id: int)
  {
    && c in p.tasks && id in p.db.rows
    && (|| p.tasks[c].queue in p.inFlight
        || p.listener.Down?
        || p.listener == Listening(false)
        || (c in p.notes.claimedAt && id in p.notes.statusSince
            && Max(p.notes.claimedAt[c], p.notes.statusSince[id]) < p.db.rows[id].availableAt <= p.db.now)
        || (c in p.notes.passedOver && id in p.notes.passedOver[c]))
  }

  // ----- and when a message is passed over ---------------------------------------------------------

  /** What a waiting consumer's claim passed over was ready then, and still is. */
  ghost predicate PassedOverIsReady(p: Process, c: ConsumerId, id: int)
  {
    IsWaiting(p, c) && WasPassedOver(p, c, id) ==>
      && IsReadyId(p.db, p.tasks[c].queue, id)
      && c in p.notes.claimedAt && p.db.rows[id].availableAt <= p.notes.claimedAt[c]
  }

  lemma ExecutedKeepsPassedOver(p: Process, op: Op, c: ConsumerId, id: int)
    requires ValidIds(p.db) && Enabled(p.db, op) && PassedOverIsReady(p, c, id)
    ensures PassedOverIsReady(Executed(p, op), c, id)
  {
  }

  lemma RunClaimKeepsPassedOver(p: Process, d: ConsumerId, c: ConsumerId, id: int)
    requires ValidIds(p.db) && CanStep(p, RunClaim(d)) && PassedOverIsReady(p, c, id)
    ensures PassedOverIsReady(Step(p, RunClaim(d)), c, id)
  {
    ExecutedKeepsPassedOver(p, ClaimOp(p, d), c, id);
    if c == d && ClaimOp(p, d).picked.None? && WasPassedOver(Step(p, RunClaim(d)), c, id) {
    }
  }

  lemma RunSettleKeepsPassedOver(p: Process, d: ConsumerId, c: ConsumerId, id: int)
    requires ValidIds(p.db) && CanStep(p, RunSettle(d)) && PassedOverIsReady(p, c, id)
    ensures PassedOverIsReady(Step(p, RunSettle(d)), c, id)
  {
    ExecutedKeepsPassedOver(p, SettleOp(d, p.tasks[d]), c, id);
  }

  /** Steps that change neither the table nor what anybody waits for. */
  lemma OthersKeepPassedOver(p: Process, q: Process, c: ConsumerId, id: int)
    requires PassedOverIsReady(p, c, id) && q.db == p.db && q.notes == p.notes
    requires IsWaiting(q, c) ==> IsWaiting(p, c) && p.tasks[c].queue == q.tasks[c].queue
    ensures PassedOverIsReady(q, c, id)
  {
  }

  lemma StepKeepsPassedOver(p: Process, e: Event, c: ConsumerId, id: int)
    requires ValidIds(p.db) && CanStep(p, e) && PassedOverIsReady(p, c, id)
    ensures PassedOverIsReady(Step(p, e), c, id)
  {
    match e
    case Execute(op) => ExecutedKeepsPassedOver(p, op, c, id);
    case RunClaim(d) => RunClaimKeepsPassedOver(p, d, c, id);
    case RunSettle(d) => RunSettleKeepsPassedOver(p, d, c, id);
    case _ => OthersKeepPassedOver(p, Step(p, e), c, id);
  }

  lemma {:induction false} RunKeepsPassedOver(p: Process, events: seq<Event>, c: ConsumerId, id: int)
    requires ValidWaiting(p) && CanRun(p, events) && PassedOverIsReady(p, c, id)
    ensures PassedOverIsReady(After(p, events), c, id)
    decreases |events|
  {
    if events != [] {
      StepKeepsWaiting(p, events[0]);
      StepKeepsPassedOver(p, events[0], c, id);
      RunKeepsPassedOver(Step(p, events[0]), events[1..], c, id);
    }
  }

  /** Exactly when the design falls short. In every reachable state in which a consumer is parked, or about to,
    with version == seen, the listener listens and no notification of the consumer's queue is in flight, a message
    is ready for it, and not just by time passing, if and only if its claim passed the message over because
    another statement had it locked, and the message has not changed status since. */
  lemma StrandedIffPassedOver(worker: string, db: Db, events: seq<Event>, c: ConsumerId, id: int)
    requires Valid(db) && CanRun(Initial(worker, db), events)
    requires var p := After(Initial(worker, db), events);
      IsUnpoked(p, c) && p.listener == Listening(true) && p.tasks[c].queue !in p.inFlight
    ensures var p := After(Initial(worker, db), events);
      IsReadyId(p.db, p.tasks[c].queue, id) && !ReadyByTime(p, c, id) <==> WasPassedOver(p, c, id)
  {
    RunKeepsWaiting(Initial(worker, db), events);
    RunKeepsPassedOver(Initial(worker, db), events, c, id);
    assert WakeUpAssured(After(Initial(worker, db), events), c, id);
  }

  /** One ready message in an otherwise empty table. */
  const ONE_READY: Db := Db(map[1 := Row("q", Pending, 0, 0, 3, 0, None, None, None)], 2, 0)

  lemma StepFirst(p: Process, e: Event, rest: seq<Event>)
    requires CanStep(p, e) && CanRun(Step(p, e), rest)
    ensures CanRun(p, [e] + rest) && After(p, [e] + rest) == After(Step(p, e), rest)
  {
    assert ([e] + rest)[1..] == rest;
  }

  /** A listening process with one consumer about to start its loop, while the row is locked. */
  ghost predicate IsSetUp(p: Process, c: ConsumerId)
  {
    && p.db == ONE_READY && p.locked == {1} && p.inFlight == multiset{} && p.listener == Listening(true)
    && c in p.tasks && p.tasks[c] == Fresh("q") && c !in p.replies
  }

  /** The same process when its consumer has got to `phase`, waiting for `reply`. */
  ghost predicate IsPassing(p: Process, c: ConsumerId, phase: Phase, reply: Option<Reply>)
  {
    && p.db == ONE_READY && p.locked == {1} && p.inFlight == multiset{} && p.listener == Listening(true)
    && c in p.tasks && p.tasks[c].phase == phase && p.tasks[c].queue == "q"
    && (match reply case None => c !in p.replies case Some(r) => c in p.replies && p.replies[c] == r)
  }

  lemma LoopPast(p: Process, c: ConsumerId)
    requires IsSetUp(p, c)
    ensures CanStep(p, Loop(c)) && IsPassing(Step(p, Loop(c)), c, Claiming(p.version), None)
    ensures Step(p, Loop(c)).version == p.version
  {
  }

  lemma ClaimPast(p: Process, c: ConsumerId)
    requires IsPassing(p, c, Claiming(p.version), None)
    ensures CanStep(p, RunClaim(c))
    ensures var q := Step(p, RunClaim(c));
      && IsPassing(q, c, Claiming(p.version), Some(ClaimReply(None))) && q.version == p.version
      && !ReadyByTime(q, c, 1)
  {
    NothingFree(p, c);
  }

  lemma ParkPast(p: Process, c: ConsumerId)
    requires IsPassing(p, c, Claiming(p.version), Some(ClaimReply(None))) && !ReadyByTime(p, c, 1)
    ensures CanStep(p, HearClaim(c))
    ensures var q := Step(p, HearClaim(c));
      IsPassing(q, c, Parked(p.version), None) && q.version == p.version && !ReadyByTime(q, c, 1)
  {
  }

  /** A listening process starts a consumer while another statement has the row locked. */
  lemma StartAndPark(p: Process, c: ConsumerId) returns (events: seq<Event>)
    requires p.listener == Listening(true) && p.db == ONE_READY && p.locked == {} && p.inFlight == multiset{}
    requires c == ConsumerName(p.worker, p.started + 1) && c !in p.replies
    ensures CanRun(p, events) && IsStranded(After(p, events), c)
  {
    var p1 := Step(p, StartConsumer("q"));
    var p2 := Step(p1, Lock(1));
    events := ParkAndAbort(p2, c);
    StepFirst(p1, Lock(1), events);
    events := [Lock(1)] + events;
    StepFirst(p, StartConsumer("q"), events);
    events := [StartConsumer("q")] + events;
  }

  /** The consumer parks, and the statement that had the row locked aborts. */
  lemma ParkAndAbort(p: Process, c: ConsumerId) returns (events: seq<Event>)
    requires IsSetUp(p, c)
    ensures CanRun(p, events) && IsStranded(After(p, events), c)
  {
    LoopPast(p, c);
    var p1 := Step(p, Loop(c));
    ClaimPast(p1, c);
    var p2 := Step(p1, RunClaim(c));
    ParkPast(p2, c);
    var p3 := Step(p2, HearClaim(c));
    StepFirst(p3, Unlock(1), []);
    events := [Unlock(1)] + [];
    StepFirst(p2, HearClaim(c), events);
    events := [HearClaim(c)] + events;
    StepFirst(p1, RunClaim(c), events);
    events := [RunClaim(c)] + events;
    StepFirst(p, Loop(c), events);
    events := [Loop(c)] + events;
  }

  /** Parked beside a ready message that nobody has locked, with nothing on its way to wake it. */
  ghost predicate IsStranded(p: Process, c: ConsumerId)
  {
    && IsUnpoked(p, c) && p.tasks[c].phase.Parked? && IsReadyId(p.db, p.tasks[c].queue, 1)
    && p.inFlight == multiset{} && p.listener == Listening(true) && p.locked == {} && !ReadyByTime(p, c, 1)
  }

  /** The last case of NoLostWakeUp does happen: a claim passes over the only ready row because another statement
    has it locked, that statement aborts, and the consumer stays parked with nothing on its way to wake it. */
  lemma AbortLeavesParked(worker: string) returns (events: seq<Event>, c: ConsumerId)
    ensures Valid(ONE_READY) && CanRun(Initial(worker, ONE_READY), events)
    ensures IsStranded(After(Initial(worker, ONE_READY), events), c)
  {
    c := ConsumerName(worker, 1);
    var start := Initial(worker, ONE_READY);
    var p1 := Step(start, Connect);
    events := StartAndPark(Step(p1, ConnectPoke), c);
    StepFirst(p1, ConnectPoke, events);
    events := [ConnectPoke] + events;
    StepFirst(start, Connect, events);
    events := [Connect] + events;
  }

  lemma NothingFree(p: Process, c: ConsumerId)
    requires c in p.tasks && p.db == ONE_READY && p.locked == {1}
    ensures ClaimOp(p, c).picked == None && Apply(p.db, ClaimOp(p, c)) == p.db
    ensures Notifies(p.db, ClaimOp(p, c)) == {}
  {
    var op := ClaimOp(p, c);
    FirstReadyIsNext(Without(p.db, p.locked), p.tasks[c].queue);
    assert forall id :: !Fires(p.db, op, id);
    assert Apply(p.db, op).rows == p.db.rows;
  }
}
