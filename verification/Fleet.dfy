/** Any number of worker processes on one table. A run of the fleet is, for each of its processes, a run of
  Process, and all together a course of Cluster and so a history of Leases. What is proved about any of the three
  therefore holds of one and the same run. */
module Fleet {
  import opened Prelude
  import opened Messages
  import opened Consumers
  import opened Signals
  import P = Process
  import B = Bookkeeping
  import L = Leases
  import C = Cluster
  import H = Heartbeats
  import D = Deadline

  // ----- the worker of a consumer id -------------------------------------------------------------------

  predicate IsDigit(c: char) { '0' <= c <= '9' }

  function WithoutDigits(s: string): string
  {
    if s != [] && IsDigit(s[|s| - 1]) then WithoutDigits(s[..|s| - 1]) else s
  }

  /** What stands before the "-c" and the number. */
  function HomeOf(c: ConsumerId): string
  {
    var s := WithoutDigits(c);
    if |s| < 2 then "" else s[..|s| - 2]
  }

  lemma {:induction false} DecimalIsDigits(s: string, n: nat)
    ensures WithoutDigits(s + P.Decimal(n)) == WithoutDigits(s)
    decreases n
  {
    var t := s + P.Decimal(n);
    assert P.Decimal(n) == (if n < 10 then [] else P.Decimal(n / 10)) + [P.Digit(n % 10)];
    assert t[..|t| - 1] == s + (if n < 10 then [] else P.Decimal(n / 10));
    if n < 10 {
      assert t[..|t| - 1] == s;
    } else {
      DecimalIsDigits(s, n / 10);
    }
  }

  /** The id of a consumer determines its worker, so consumers of different workers have different ids. */
  lemma HomeOfName(worker: string, n: nat)
    ensures HomeOf(P.ConsumerName(worker, n)) == worker
  {
    var prefix := worker + "-c";
    DecimalIsDigits(prefix, n);
    assert prefix[|prefix| - 1] == 'c';
    assert WithoutDigits(prefix) == prefix;
    assert prefix[..|prefix| - 2] == worker;
  }

  // ----- steps -------------------------------------------------------------------------------------

  datatype Fleet = Fleet(procs: map<string, P.Process>, k: C.Cluster)

  const EMPTY_FLEET: Fleet := Fleet(map[], C.IDLE)

  datatype Event =
    | Boot(worker: string)                    // registers the worker; it has no consumers yet
    | Own(worker: string, step: P.Event)
    | Outside(op: Op)                         // a statement of the web app or a reaper, or the clock
    | StopBeats(worker: string)               // shutdown begins
    | StartBeat(worker: string)
    | CommitBeat(worker: string)
    | LoseBeat(worker: string)

  ghost predicate CanStep(cfg: C.Config, f: Fleet, e: Event)
  {
    match e
    case Boot(worker) => worker !in f.procs
    case Own(worker, step) => worker in f.procs && !step.Execute? && P.CanStep(f.procs[worker], step)
    case Outside(op) => !op.Claim? && !op.Ack? && !op.Nack? && !op.Renew? && (op.Reap? ==> op.timeout == cfg.timeout)
    case StopBeats(worker) => worker in f.procs
    case StartBeat(worker) => worker in f.procs && !C.InFlight(f.k, worker)
    case CommitBeat(worker) => C.InFlight(f.k, worker)
    case LoseBeat(worker) => C.InFlight(f.k, worker)
  }

  /** The statement that a step of a process commits, if any. */
  function StatementOf(p: P.Process, step: P.Event): Option<Op>
    requires P.CanStep(p, step)
  {
    match step
    case RunClaim(c) => Some(P.ClaimOp(p, c))
    case RunSettle(c) => Some(SettleOp(c, p.tasks[c]))
    case _ => None
  }

  /** The statement of an event, whoever executes it. */
  function StatementIn(f: Fleet, e: Event): Option<Op>
    requires e.Own? ==> e.worker in f.procs && P.CanStep(f.procs[e.worker], e.step)
  {
    match e
    case Own(worker, step) => StatementOf(f.procs[worker], step)
    case Outside(op) => Some(op)
    case CommitBeat(worker) =>
      if C.InFlight(f.k, worker) then Some(Renew(f.k.pulses[worker].inFlight.value.leases)) else None
    case _ => None
  }

  /** Every process shares the table, and its listener hears of the statements of all. */
  function ProcAfter(cfg: C.Config, f: Fleet, e: Event, worker: string): P.Process
    requires worker in f.procs && (e.Own? ==> e.worker in f.procs && P.CanStep(f.procs[e.worker], e.step))
  {
    if e.Own? && e.worker == worker then P.Step(f.procs[worker], e.step)
    else
      match StatementIn(f, e)
      case Some(op) => P.Executed(f.procs[worker], op)
      case None => f.procs[worker]
  }

  /** What a step of a process means to the lease protocol. A kill ends the consumer's heartbeats; the
    cancellation that follows ends the consumer. */
  function ProtocolOf(p: P.Process, step: P.Event): Option<L.Event>
    requires P.CanStep(p, step)
  {
    match step
    case StartConsumer(queue) => Some(L.Begin(P.ConsumerName(p.worker, p.started + 1), queue))
    case Loop(c) => Some(L.Loop(c, p.version))
    case RunClaim(c) => Some(L.RunClaim(c, P.ClaimOp(p, c).picked))
    case HearClaim(c) => Some(L.HearClaim(c))
    case LoseClaim(c) => Some(L.LoseClaim(c))
    case Wake(c, _) => Some(L.Wake(c))
    case FinishHandler(c, succeeded) => Some(L.FinishHandler(c, succeeded))
    case RunSettle(c) => Some(L.RunSettle(c))
    case HearSettle(c) => Some(L.HearSettle(c))
    case LoseSettle(c) => Some(L.LoseSettle(c))
    case Retry(c) => Some(L.Retry(c))
    case RequestStop(c) => Some(L.RequestStop(c))
    case Kill(c) => Some(L.StopHeartbeats({c}))
    case LandCancel(c) => Some(L.Cancel(c))
    case _ => None
  }

  /** What an event is in Cluster. The snapshot of a heartbeat is the one the worker takes. */
  function MoveOf(f: Fleet, e: Event): Option<C.Move>
    requires e.Own? ==> e.worker in f.procs && P.CanStep(f.procs[e.worker], e.step)
    requires e.StopBeats? || e.StartBeat? ==> e.worker in f.procs
  {
    match e
    case Boot(worker) => Some(C.Register(worker))
    case Own(worker, step) =>
      (match ProtocolOf(f.procs[worker], step) case Some(pe) => Some(C.Protocol(pe)) case None => None)
    case Outside(op) => Some(C.Protocol(L.Execute(op)))
    case StopBeats(worker) => Some(C.Protocol(L.StopHeartbeats(f.procs[worker].tasks.Keys)))
    case StartBeat(worker) => Some(C.StartBeat(worker, B.Snapshot(f.procs[worker])))
    case CommitBeat(worker) => Some(C.CommitBeat(worker))
    case LoseBeat(worker) => Some(C.LoseBeat(worker))
  }

  /** Moves that Cluster did not allow would be ignored; MoveIsLegal shows that there are none. */
  ghost function Step(cfg: C.Config, f: Fleet, e: Event): Fleet
    requires CanStep(cfg, f, e)
  {
    var procs := map worker | worker in f.procs :: ProcAfter(cfg, f, e, worker);
    Fleet(if e.Boot? then procs[e.worker := P.Initial(e.worker, f.k.w.l.db)] else procs,
          match MoveOf(f, e)
          case Some(m) => if C.CanMove(cfg, f.k, m) then C.Advance(cfg, f.k, m) else f.k
          case None => f.k)
  }

  // ----- agreement ---------------------------------------------------------------------------------

  ghost predicate UsesNames(cfg: C.Config) { forall c :: cfg.home(c) == HomeOf(c) }

  ghost predicate ProcAgrees(f: Fleet, worker: string)
  {
    && (worker in f.procs <==> worker in f.k.pulses)
    && (worker in f.procs ==>
          && f.procs[worker].worker == worker && f.procs[worker].db == f.k.w.l.db && B.ValidBooks(f.procs[worker]))
  }

  /** A consumer of the process is the same consumer in the world, with the same reply on its way. */
  ghost predicate SameConsumer(w: L.World, p: P.Process, c: ConsumerId)
  {
    && (c in w.tasks <==> c in p.tasks) && (c in w.tasks && c in p.tasks ==> w.tasks[c] == p.tasks[c])
    && (c in w.replies <==> c in p.replies) && (c in w.replies && c in p.replies ==> w.replies[c] == p.replies[c])
    && (c in p.killed ==> c in w.quiet)
  }

  /** The consumers of the world are those of the processes. */
  ghost predicate TaskAgrees(f: Fleet, c: ConsumerId)
  {
    if HomeOf(c) in f.procs then SameConsumer(f.k.w, f.procs[HomeOf(c)], c) else c !in f.k.w.tasks
  }

  ghost predicate Matches(f: Fleet)
  {
    && (forall worker :: ProcAgrees(f, worker))
    && (forall c :: TaskAgrees(f, c))
    && (forall c :: L.HeldMatchesTask(f.k.w, c))
  }

  ghost predicate Agrees(cfg: C.Config, f: Fleet) { C.ValidCluster(cfg, f.k) && Matches(f) }

  /** A process has only consumers of its own. */
  lemma TasksAreAtHome(f: Fleet, worker: string, c: ConsumerId)
    requires ProcAgrees(f, worker) && worker in f.procs && c in f.procs[worker].tasks
    ensures HomeOf(c) == worker
  {
    var p := f.procs[worker];
    assert B.Named(p, c);
    var n: nat :| n <= p.started && c == P.ConsumerName(worker, n);
    HomeOfName(worker, n);
  }

  /** So a consumer of a process is a consumer of the world, with the same task. */
  lemma TaskInWorld(cfg: C.Config, f: Fleet, worker: string, c: ConsumerId)
    requires Matches(f) && worker in f.procs && c in f.procs[worker].tasks
    ensures HomeOf(c) == worker && c in f.k.w.tasks && SameConsumer(f.k.w, f.procs[worker], c)
  {
    assert ProcAgrees(f, worker) && TaskAgrees(f, c);
    TasksAreAtHome(f, worker, c);
  }

  // ----- every step of a process is a move of the cluster ------------------------------------------------

  lemma OwnIsLegal(cfg: C.Config, f: Fleet, worker: string, step: P.Event)
    requires UsesNames(cfg) && Matches(f) && CanStep(cfg, f, Own(worker, step))
    requires ProtocolOf(f.procs[worker], step).Some?
    ensures C.CanMove(cfg, f.k, C.Protocol(ProtocolOf(f.procs[worker], step).value))
  {
    var p := f.procs[worker];
    assert ProcAgrees(f, worker);
    match step
    case StartConsumer(queue) =>
      B.StartedNameIsNew(p);
      HomeOfName(worker, p.started + 1);
      assert TaskAgrees(f, P.ConsumerName(worker, p.started + 1));
    case RunClaim(c) =>
      TaskInWorld(cfg, f, worker, c);
    case HearClaim(c) => TaskInWorld(cfg, f, worker, c);
    case LoseClaim(c) => TaskInWorld(cfg, f, worker, c);
    case Kill(_) =>
    case Loop(c) => TaskInWorld(cfg, f, worker, c);
    case Wake(c, _) => TaskInWorld(cfg, f, worker, c);
    case FinishHandler(c, _) => TaskInWorld(cfg, f, worker, c);
    case RunSettle(c) => TaskInWorld(cfg, f, worker, c);
    case HearSettle(c) => TaskInWorld(cfg, f, worker, c);
    case LoseSettle(c) => TaskInWorld(cfg, f, worker, c);
    case Retry(c) => TaskInWorld(cfg, f, worker, c);
    case RequestStop(c) => TaskInWorld(cfg, f, worker, c);
    case LandCancel(c) => TaskInWorld(cfg, f, worker, c);
    case _ =>
  }

  /** The snapshot a worker takes is one that Cluster reckons with. */
  lemma SnapshotIsLegal(cfg: C.Config, f: Fleet, worker: string)
    requires UsesNames(cfg) && Matches(f) && worker in f.procs
    ensures C.IsSnapshot(cfg, f.k.w, worker, B.Snapshot(f.procs[worker]))
  {
    var p, w := f.procs[worker], f.k.w;
    assert ProcAgrees(f, worker);
    forall l | l in B.Snapshot(p) ensures C.IsInHand(w, l.1) && cfg.home(l.1) == worker && l.0 == w.held[l.1].id {
      TaskInWorld(cfg, f, worker, l.1);
      assert B.TaskIsValid(p, l.1) && L.HeldMatchesTask(w, l.1);
    }
    forall c | C.IsInHand(w, c) && cfg.home(c) == worker && c !in w.quiet ensures (w.held[c].id, c) in B.Snapshot(p) {
      assert L.HeldMatchesTask(w, c) && TaskAgrees(f, c) && B.Booked(p, c) && B.TaskIsValid(p, c);
    }
  }

  lemma MoveIsLegal(cfg: C.Config, f: Fleet, e: Event)
    requires UsesNames(cfg) && Matches(f) && CanStep(cfg, f, e)
    ensures MoveOf(f, e).Some? ==> C.CanMove(cfg, f.k, MoveOf(f, e).value)
  {
    match e
    case Own(worker, step) =>
      if ProtocolOf(f.procs[worker], step).Some? {
        OwnIsLegal(cfg, f, worker, step);
      }
    case StartBeat(worker) =>
      assert ProcAgrees(f, worker);
      SnapshotIsLegal(cfg, f, worker);
    case Boot(worker) => assert ProcAgrees(f, worker);
    case _ =>
  }

  // ----- agreement is kept -------------------------------------------------------------------------

  /** The table of the world after an event is the table of the statement in it, if there is one. */
  lemma OwnTableAfter(cfg: C.Config, f: Fleet, worker: string, step: P.Event)
    requires UsesNames(cfg) && Matches(f) && CanStep(cfg, f, Own(worker, step))
    ensures Step(cfg, f, Own(worker, step)).k.w.l.db ==
      match StatementOf(f.procs[worker], step) case Some(op) => Apply(f.k.w.l.db, op) case None => f.k.w.l.db
  {
    MoveIsLegal(cfg, f, Own(worker, step));
    var p := f.procs[worker];
    var pe := ProtocolOf(p, step);
    if step.RunClaim? || step.RunSettle? {
      TaskInWorld(cfg, f, worker, step.consumer);
      assert L.StatementOf(f.k.w, pe.value) == StatementOf(p, step);
    } else if pe.Some? {
      assert L.StatementOf(f.k.w, pe.value) == None;
    }
  }

  lemma TableAfter(cfg: C.Config, f: Fleet, e: Event)
    requires UsesNames(cfg) && Matches(f) && CanStep(cfg, f, e)
    ensures Step(cfg, f, e).k.w.l.db ==
      match StatementIn(f, e) case Some(op) => Apply(f.k.w.l.db, op) case None => f.k.w.l.db
  {
    if e.Own? {
      OwnTableAfter(cfg, f, e.worker, e.step);
    } else {
      MoveIsLegal(cfg, f, e);
    }
  }

  /** A statement that is executed is enabled in every process. */
  lemma StatementIsEnabled(cfg: C.Config, f: Fleet, e: Event)
    requires Matches(f) && CanStep(cfg, f, e)
    ensures StatementIn(f, e).Some? ==> Enabled(f.k.w.l.db, StatementIn(f, e).value)
  {
    if e.Own? {
      assert ProcAgrees(f, e.worker);
      if e.step.RunClaim? {
      }
    }
  }

  /** The step of its own that an event is to a process, if any: another's statement is `Execute`. */
  function EventOf(f: Fleet, e: Event, worker: string): Option<P.Event>
    requires worker in f.procs && (e.Own? ==> e.worker in f.procs && P.CanStep(f.procs[e.worker], e.step))
  {
    if e.Own? && e.worker == worker then Some(e.step)
    else
      match StatementIn(f, e)
      case Some(op) => Some(P.Execute(op))
      case None => None
  }

  lemma ProcSteps(cfg: C.Config, f: Fleet, e: Event, worker: string)
    requires UsesNames(cfg) && Matches(f) && CanStep(cfg, f, e) && worker in f.procs
    ensures var q := ProcAfter(cfg, f, e, worker);
      match EventOf(f, e, worker)
      case Some(step) => P.CanStep(f.procs[worker], step) && q == P.Step(f.procs[worker], step)
      case None => q == f.procs[worker]
  {
    assert ProcAgrees(f, worker);
    StatementIsEnabled(cfg, f, e);
  }

  /** What a step of its own does to the table of a process. */
  lemma OwnTable(p: P.Process, step: P.Event)
    requires P.CanStep(p, step)
    ensures P.Step(p, step).db ==
      (if step.Execute? then Apply(p.db, step.op)
       else match StatementOf(p, step) case Some(op) => Apply(p.db, op) case None => p.db)
    ensures P.Step(p, step).worker == p.worker
  {
  }

  lemma StepKeepsProc(cfg: C.Config, f: Fleet, e: Event, worker: string)
    requires UsesNames(cfg) && Matches(f) && CanStep(cfg, f, e)
    ensures ProcAgrees(Step(cfg, f, e), worker)
  {
    assert ProcAgrees(f, worker);
    MoveIsLegal(cfg, f, e);
    TableAfter(cfg, f, e);
    if worker in f.procs {
      ProcSteps(cfg, f, e, worker);
      var own := EventOf(f, e, worker);
      if own.Some? {
        B.StepKeepsBooks(f.procs[worker], own.value);
        OwnTable(f.procs[worker], own.value);
      }
    } else if e == Boot(worker) {
    }
  }

  /** The consumers a protocol event is about. */
  function Concerns(e: L.Event): set<ConsumerId>
  {
    match e
    case Execute(_) => {}
    case StopHeartbeats(consumers) => consumers
    case _ => {e.consumer}
  }

  lemma ProtocolKeepsOthers(cfg: C.Config, k: C.Cluster, e: L.Event, c: ConsumerId)
    requires C.CanMove(cfg, k, C.Protocol(e)) && c !in Concerns(e)
    ensures var next := C.Advance(cfg, k, C.Protocol(e));
      && (c in next.w.tasks <==> c in k.w.tasks) && (c in k.w.tasks ==> next.w.tasks[c] == k.w.tasks[c])
      && (c in next.w.replies <==> c in k.w.replies) && (c in k.w.replies ==> next.w.replies[c] == k.w.replies[c])
      && (c in k.w.quiet ==> c in next.w.quiet)
  {
  }

  /** The consumers a step of a process is about are consumers of that process. */
  lemma ConcernsOwn(cfg: C.Config, f: Fleet, worker: string, step: P.Event, c: ConsumerId)
    requires Matches(f) && CanStep(cfg, f, Own(worker, step)) && ProtocolOf(f.procs[worker], step).Some?
    requires c in Concerns(ProtocolOf(f.procs[worker], step).value)
    ensures HomeOf(c) == worker
  {
    assert ProcAgrees(f, worker);
    if step.StartConsumer? {
      HomeOfName(worker, f.procs[worker].started + 1);
    } else {
      TasksAreAtHome(f, worker, c);
    }
  }

  ghost predicate KeepsConsumer(p: P.Process, q: P.Process, c: ConsumerId)
  {
    && (c in q.tasks <==> c in p.tasks) && (c in p.tasks ==> q.tasks[c] == p.tasks[c])
    && (c in q.replies <==> c in p.replies) && (c in p.replies ==> q.replies[c] == p.replies[c])
    && (c in q.killed <==> c in p.killed)
  }

  lemma MovedKeepsOthers(p: P.Process, d: ConsumerId, t: Task, c: ConsumerId)
    requires c != d
    ensures KeepsConsumer(p, P.Moved(p, d, t), c)
  {
  }

  /** In a process, only StartConsumer and the steps of `c` itself change c's task, and only Kill its mark. */
  lemma OwnStepKeepsOthers(p: P.Process, step: P.Event, c: ConsumerId)
    requires P.CanStep(p, step) && (ProtocolOf(p, step).Some? ==> c !in Concerns(ProtocolOf(p, step).value))
    ensures KeepsConsumer(p, P.Step(p, step), c)
  {
    match step
    case Loop(d) => MovedKeepsOthers(p, d, Looped(p.tasks[d], p.version), c);
    case HearClaim(d) => MovedKeepsOthers(p, d, ClaimReplied(p.tasks[d], p.replies[d].picked), c);
    case LoseClaim(d) => MovedKeepsOthers(p, d, Errored(p.tasks[d]), c);
    case Wake(d, _) => MovedKeepsOthers(p, d, Woken(p.tasks[d]), c);
    case FinishHandler(d, succeeded) => MovedKeepsOthers(p, d, Handled(p.tasks[d], succeeded), c);
    case HearSettle(d) => MovedKeepsOthers(p, d, Settled(p.tasks[d]), c);
    case LoseSettle(d) => MovedKeepsOthers(p, d, Errored(p.tasks[d]), c);
    case Retry(d) => MovedKeepsOthers(p, d, Retried(p.tasks[d]), c);
    case LandCancel(d) => MovedKeepsOthers(p, d, Cancelled(p.tasks[d]), c);
    case _ =>
  }

  /** Steps that move a consumer on to where the protocol moves it. */
  predicate MovesOn(step: P.Event)
  {
    || step.Loop? || step.HearClaim? || step.LoseClaim? || step.Wake? || step.FinishHandler?
    || step.HearSettle? || step.LoseSettle? || step.Retry? || step.LandCancel?
  }

  /** Where it moves it. */
  function Target(p: P.Process, step: P.Event): Task
    requires P.CanStep(p, step) && MovesOn(step)
  {
    var t := p.tasks[step.consumer];
    match step
    case Loop(_) => Looped(t, p.version)
    case HearClaim(c) => ClaimReplied(t, p.replies[c].picked)
    case Wake(_, _) => Woken(t)
    case FinishHandler(_, succeeded) => Handled(t, succeeded)
    case HearSettle(_) => Settled(t)
    case Retry(_) => Retried(t)
    case LandCancel(_) => Cancelled(t)
    case _ => Errored(t)
  }

  lemma ProcessMovesOn(p: P.Process, step: P.Event)
    requires P.CanStep(p, step) && MovesOn(step)
    ensures P.Step(p, step) == P.Moved(p, step.consumer, Target(p, step))
  {
  }

  lemma WorldForgetsReply(w: L.World, p: P.Process, step: P.Event)
    requires P.CanStep(p, step) && MovesOn(step) && ProtocolOf(p, step).Some?
    requires L.CanStep(w, ProtocolOf(p, step).value) && L.ReplyMatchesTask(w, step.consumer)
    ensures var next := L.Step(w, ProtocolOf(p, step).value);
      step.consumer !in next.replies && next.quiet == w.quiet
  {
  }

  lemma MoveOnIsProtocol(cfg: C.Config, k: C.Cluster, p: P.Process, step: P.Event, c: ConsumerId)
    requires P.CanStep(p, step) && MovesOn(step) && step.consumer == c
    requires C.CanMove(cfg, k, C.Protocol(ProtocolOf(p, step).value))
    requires c in p.tasks && SameConsumer(k.w, p, c) && L.ReplyMatchesTask(k.w, c)
    ensures SameConsumer(C.Advance(cfg, k, C.Protocol(ProtocolOf(p, step).value)).w, P.Step(p, step), c)
  {
    ProcessMovesOn(p, step);
    WorldForgetsReply(k.w, p, step);
  }

  /** A step of a process changes the task of its consumer as the protocol does. */
  lemma OwnStepIsProtocol(cfg: C.Config, k: C.Cluster, p: P.Process, step: P.Event, c: ConsumerId)
    requires P.CanStep(p, step) && ProtocolOf(p, step).Some? && c in Concerns(ProtocolOf(p, step).value)
    requires C.CanMove(cfg, k, C.Protocol(ProtocolOf(p, step).value))
    requires SameConsumer(k.w, p, c) && L.ReplyMatchesTask(k.w, c)
    ensures SameConsumer(C.Advance(cfg, k, C.Protocol(ProtocolOf(p, step).value)).w, P.Step(p, step), c)
  {
    if MovesOn(step) {
      MoveOnIsProtocol(cfg, k, p, step, c);
    }
  }

  lemma OwnKeepsTaskAtHome(cfg: C.Config, f: Fleet, worker: string, step: P.Event, c: ConsumerId)
    requires UsesNames(cfg) && Matches(f) && CanStep(cfg, f, Own(worker, step)) && HomeOf(c) == worker
    ensures TaskAgrees(Step(cfg, f, Own(worker, step)), c)
  {
    MoveIsLegal(cfg, f, Own(worker, step));
    assert TaskAgrees(f, c);
    var p := f.procs[worker];
    var pe := ProtocolOf(p, step);
    assert Step(cfg, f, Own(worker, step)).procs[worker] == P.Step(p, step);
    assert L.HeldMatchesTask(f.k.w, c);
    if pe.Some? && c in Concerns(pe.value) {
      OwnStepIsProtocol(cfg, f.k, p, step, c);
    } else {
      OwnStepKeepsOthers(p, step, c);
      if pe.Some? {
        ProtocolKeepsOthers(cfg, f.k, pe.value, c);
      }
    }
  }

  lemma OwnKeepsTaskElsewhere(cfg: C.Config, f: Fleet, worker: string, step: P.Event, c: ConsumerId)
    requires UsesNames(cfg) && Matches(f) && CanStep(cfg, f, Own(worker, step)) && HomeOf(c) != worker
    ensures TaskAgrees(Step(cfg, f, Own(worker, step)), c)
  {
    MoveIsLegal(cfg, f, Own(worker, step));
    assert TaskAgrees(f, c);
    var pe := ProtocolOf(f.procs[worker], step);
    if pe.Some? {
      if c in Concerns(pe.value) {
        ConcernsOwn(cfg, f, worker, step, c);
      }
      ProtocolKeepsOthers(cfg, f.k, pe.value, c);
    }
    assert Step(cfg, f, Own(worker, step)).procs.Keys == f.procs.Keys;
  }

  /** Events outside the processes move no consumer. */
  lemma OutsideKeepsTask(cfg: C.Config, f: Fleet, e: Event, c: ConsumerId)
    requires UsesNames(cfg) && Matches(f) && CanStep(cfg, f, e) && !e.Own?
    ensures TaskAgrees(Step(cfg, f, e), c)
  {
    MoveIsLegal(cfg, f, e);
    assert TaskAgrees(f, c) && L.HeldMatchesTask(f.k.w, c);
    var next := Step(cfg, f, e);
    if HomeOf(c) in f.procs {
      assert next.procs[HomeOf(c)].tasks == f.procs[HomeOf(c)].tasks;
    }
  }

  lemma StepKeepsAgreement(cfg: C.Config, f: Fleet, e: Event)
    requires UsesNames(cfg) && Agrees(cfg, f) && CanStep(cfg, f, e)
    ensures Agrees(cfg, Step(cfg, f, e))
  {
    MoveIsLegal(cfg, f, e);
    if MoveOf(f, e).Some? {
      C.MoveKeepsValid(cfg, f.k, MoveOf(f, e).value);
    }
    forall worker ensures ProcAgrees(Step(cfg, f, e), worker) { StepKeepsProc(cfg, f, e, worker); }
    forall c ensures TaskAgrees(Step(cfg, f, e), c) {
      if e.Own? {
        if e.worker == HomeOf(c) {
          OwnKeepsTaskAtHome(cfg, f, e.worker, e.step, c);
        } else {
          OwnKeepsTaskElsewhere(cfg, f, e.worker, e.step, c);
        }
      } else {
        OutsideKeepsTask(cfg, f, e, c);
      }
    }
  }

  // ----- whole runs --------------------------------------------------------------------------------

  ghost predicate CanRun(cfg: C.Config, f: Fleet, events: seq<Event>)
    decreases |events|
  {
    events == [] || (CanStep(cfg, f, events[0]) && CanRun(cfg, Step(cfg, f, events[0]), events[1..]))
  }

  ghost function After(cfg: C.Config, f: Fleet, events: seq<Event>): Fleet
    requires CanRun(cfg, f, events)
    decreases |events|
  {
    if events == [] then f else After(cfg, Step(cfg, f, events[0]), events[1..])
  }

  lemma EmptyAgrees(cfg: C.Config)
    ensures Agrees(cfg, EMPTY_FLEET)
  {
    C.IdleIsValid(cfg);
  }

  lemma {:induction false} RunKeepsAgreement(cfg: C.Config, f: Fleet, events: seq<Event>)
    requires UsesNames(cfg) && Agrees(cfg, f) && CanRun(cfg, f, events)
    ensures Agrees(cfg, After(cfg, f, events))
    decreases |events|
  {
    if events != [] {
      StepKeepsAgreement(cfg, f, events[0]);
      RunKeepsAgreement(cfg, Step(cfg, f, events[0]), events[1..]);
    }
  }

  /** Heartbeats and replies keep time throughout, and no reset happens while a message is held. */
  ghost predicate KeepsTime(cfg: C.Config, f: Fleet, events: seq<Event>)
    requires CanRun(cfg, f, events)
    decreases |events|
  {
    && C.IsInTime(cfg, f.k)
    && (events == [] ||
        ((events[0] == Outside(Reset) ==> H.NobodyHolds(f.k.w))
         && KeepsTime(cfg, Step(cfg, f, events[0]), events[1..])))
  }

  /** No worker shuts down and no consumer is killed. */
  predicate NobodyStopped(events: seq<Event>)
  {
    forall i :: 0 <= i < |events| ==> !events[i].StopBeats? && !(events[i].Own? && events[i].step.Kill?)
  }

  /** The moves of a run. */
  ghost function MovesOf(cfg: C.Config, f: Fleet, events: seq<Event>): seq<C.Move>
    requires CanRun(cfg, f, events)
    decreases |events|
  {
    if events == [] then []
    else
      (match MoveOf(f, events[0]) case Some(m) => [m] case None => [])
        + MovesOf(cfg, Step(cfg, f, events[0]), events[1..])
  }

  lemma MovesBegin(cfg: C.Config, f: Fleet, events: seq<Event>)
    requires CanRun(cfg, f, events) && events != []
    ensures var rest := MovesOf(cfg, Step(cfg, f, events[0]), events[1..]);
      match MoveOf(f, events[0])
      case Some(m) => MovesOf(cfg, f, events)[0] == m && MovesOf(cfg, f, events)[1..] == rest
      case None => MovesOf(cfg, f, events) == rest
  {
    var rest := MovesOf(cfg, Step(cfg, f, events[0]), events[1..]);
    match MoveOf(f, events[0])
    case Some(m) => assert MovesOf(cfg, f, events) == [m] + rest;
    case None => assert [] + rest == rest;
  }

  /** A run of the fleet is a course of Cluster, with its table, its leases in hand and its heartbeats. */
  lemma {:induction false} RunIsCourse(cfg: C.Config, f: Fleet, events: seq<Event>)
    requires UsesNames(cfg) && Agrees(cfg, f) && CanRun(cfg, f, events)
    ensures C.IsCourse(cfg, f.k, MovesOf(cfg, f, events))
    ensures C.AfterMoves(cfg, f.k, MovesOf(cfg, f, events)) == After(cfg, f, events).k
    decreases |events|
  {
    if events != [] {
      MoveIsLegal(cfg, f, events[0]);
      StepKeepsAgreement(cfg, f, events[0]);
      MovesBegin(cfg, f, events);
      RunIsCourse(cfg, Step(cfg, f, events[0]), events[1..]);
    }
  }

  lemma {:induction false} RunKeepsTime(cfg: C.Config, f: Fleet, events: seq<Event>)
    requires UsesNames(cfg) && Agrees(cfg, f) && CanRun(cfg, f, events) && KeepsTime(cfg, f, events)
    requires C.IsCourse(cfg, f.k, MovesOf(cfg, f, events))
    ensures C.BeatsInTime(cfg, f.k, MovesOf(cfg, f, events)) && C.ResetsOnlyIdle(cfg, f.k, MovesOf(cfg, f, events))
    decreases |events|
  {
    if events != [] {
      var next := Step(cfg, f, events[0]);
      MoveIsLegal(cfg, f, events[0]);
      StepKeepsAgreement(cfg, f, events[0]);
      MovesBegin(cfg, f, events);
      RunIsCourse(cfg, next, events[1..]);
      RunKeepsTime(cfg, next, events[1..]);
      assert MoveOf(f, events[0]) == Some(C.Protocol(L.Execute(Reset))) ==> events[0] == Outside(Reset);
    }
  }

  lemma {:induction false} NobodyStoppedInMoves(cfg: C.Config, f: Fleet, events: seq<Event>)
    requires CanRun(cfg, f, events) && NobodyStopped(events)
    ensures C.NobodyStopped(MovesOf(cfg, f, events))
    decreases |events|
  {
    if events != [] {
      assert !events[0].StopBeats? && !(events[0].Own? && events[0].step.Kill?);
      NobodyStoppedInMoves(cfg, Step(cfg, f, events[0]), events[1..]);
    }
  }

  /** For each of its processes it is a run of Process, in which the other processes' statements are somebody
    else's. */
  lemma {:induction false} RunIsRunOfProcess(cfg: C.Config, f: Fleet, events: seq<Event>, worker: string)
    returns (own: seq<P.Event>)
    requires UsesNames(cfg) && Agrees(cfg, f) && CanRun(cfg, f, events) && worker in f.procs
    ensures worker in After(cfg, f, events).procs
    ensures P.CanRun(f.procs[worker], own) && P.After(f.procs[worker], own) == After(cfg, f, events).procs[worker]
    decreases |events|
  {
    own := [];
    if events != [] {
      ProcSteps(cfg, f, events[0], worker);
      StepKeepsAgreement(cfg, f, events[0]);
      var rest := RunIsRunOfProcess(cfg, Step(cfg, f, events[0]), events[1..], worker);
      match EventOf(f, events[0], worker)
      case Some(step) =>
        own := [step] + rest;
        assert own[1..] == rest;
      case None => own := rest;
    }
  }

  /** Every process shares the one table, and the consumers of the world are those of the processes. */
  lemma RunSharesTable(cfg: C.Config, events: seq<Event>, worker: string, c: ConsumerId)
    requires UsesNames(cfg) && CanRun(cfg, EMPTY_FLEET, events)
    requires worker in After(cfg, EMPTY_FLEET, events).procs
    ensures var f := After(cfg, EMPTY_FLEET, events);
      && f.procs[worker].db == f.k.w.l.db
      && (c in f.procs[worker].tasks <==> c in f.k.w.tasks && HomeOf(c) == worker)
      && (c in f.procs[worker].tasks ==> SameConsumer(f.k.w, f.procs[worker], c))
  {
    EmptyAgrees(cfg);
    RunKeepsAgreement(cfg, EMPTY_FLEET, events);
    var f := After(cfg, EMPTY_FLEET, events);
    assert ProcAgrees(f, worker) && TaskAgrees(f, c);
    if c in f.procs[worker].tasks {
      TasksAreAtHome(f, worker, c);
    }
  }

  /** c's handler is running on message `id`, or has ended and its ack or nack has yet to be executed. */
  predicate Handles(p: P.Process, c: ConsumerId, id: int)
  {
    c in p.tasks && IsHandling(p.tasks[c]) && p.tasks[c].phase.message == id && c !in p.replies
  }

  /** Mutual exclusion across the fleet, from what the workers' heartbeat loops do: with heartbeats that commit
    starting at most P apart and taking at most D, replies to claims taking at most L, and P + D + L at most the
    visibility timeout (with the grace period added if workers shut down or consumers are killed), no message is
    being handled by two consumers, of one worker or of two, and every consumer handling a message finds its own
    name in the row. */
  lemma FleetExcludes(cfg: C.Config, events: seq<Event>, u: string, v: string, c: ConsumerId, d: ConsumerId, id: int)
    requires UsesNames(cfg) && CanRun(cfg, EMPTY_FLEET, events) && KeepsTime(cfg, EMPTY_FLEET, events)
    requires 0 <= cfg.period && 0 <= cfg.duration && 0 <= cfg.reply && C.MaxAge(cfg) <= cfg.timeout
    requires C.MaxAge(cfg) + cfg.grace <= cfg.timeout || NobodyStopped(events)
    requires var procs := After(cfg, EMPTY_FLEET, events).procs;
      u in procs && v in procs && Handles(procs[u], c, id) && Handles(procs[v], d, id)
    ensures c == d && u == v
    ensures var p := After(cfg, EMPTY_FLEET, events).procs[u]; id in p.db.rows && IsHeldBy(p.db.rows[id], c)
  {
    EmptyAgrees(cfg);
    RunIsCourse(cfg, EMPTY_FLEET, events);
    RunKeepsTime(cfg, EMPTY_FLEET, events);
    if NobodyStopped(events) {
      NobodyStoppedInMoves(cfg, EMPTY_FLEET, events);
    }
    C.HeartbeatsExclude(cfg, MovesOf(cfg, EMPTY_FLEET, events));
    RunSharesTable(cfg, events, u, c);
    RunSharesTable(cfg, events, v, d);
    var w := After(cfg, EMPTY_FLEET, events).k.w;
    assert H.IsActive(w, c, id) && H.IsActive(w, d, id);
  }

  // ----- what a heartbeat achieves -------------------------------------------------------------------

  /** The fleet after the worker's heartbeat in flight, if any, has failed. */
  ghost function WithoutBeat(cfg: C.Config, f: Fleet, worker: string): Fleet
  {
    if C.InFlight(f.k, worker) then Step(cfg, f, LoseBeat(worker)) else f
  }

  lemma BeatsAgain(cfg: C.Config, f: Fleet, worker: string)
    requires UsesNames(cfg) && Agrees(cfg, f) && worker in f.procs
    ensures var g := WithoutBeat(cfg, f, worker);
      && Agrees(cfg, g) && worker in g.procs && g.procs[worker] == f.procs[worker] && g.k.w == f.k.w
      && CanStep(cfg, g, StartBeat(worker))
      && var h := Step(cfg, g, StartBeat(worker));
         && Agrees(cfg, h) && h.k.w == f.k.w && CanStep(cfg, h, CommitBeat(worker))
         && h.k.pulses[worker].inFlight.value.leases == B.Snapshot(f.procs[worker])
  {
    var g := WithoutBeat(cfg, f, worker);
    if C.InFlight(f.k, worker) {
      MoveIsLegal(cfg, f, LoseBeat(worker));
      StepKeepsAgreement(cfg, f, LoseBeat(worker));
    }
    MoveIsLegal(cfg, g, StartBeat(worker));
    StepKeepsAgreement(cfg, g, StartBeat(worker));
  }

  /** In every run of the fleet, also after a heartbeat that failed, a worker's next heartbeat can start and commit,
    and then every message that a consumer there is handling under its own name, unless it was killed, has a lease as
    new as the heartbeat, in the table all workers see. */
  lemma FleetBeatRenews(cfg: C.Config, events: seq<Event>, worker: string, c: ConsumerId, id: int)
    requires UsesNames(cfg) && CanRun(cfg, EMPTY_FLEET, events)
    requires var f := After(cfg, EMPTY_FLEET, events);
      && worker in f.procs && Handles(f.procs[worker], c, id) && c !in f.procs[worker].killed
      && id in f.k.w.l.db.rows && IsHeldBy(f.k.w.l.db.rows[id], c)
    ensures var f := After(cfg, EMPTY_FLEET, events);
      var g := WithoutBeat(cfg, f, worker);
      && CanStep(cfg, g, StartBeat(worker)) && CanStep(cfg, Step(cfg, g, StartBeat(worker)), CommitBeat(worker))
      && var after := Step(cfg, Step(cfg, g, StartBeat(worker)), CommitBeat(worker));
         && id in after.k.w.l.db.rows
         && after.k.w.l.db.rows[id] == f.k.w.l.db.rows[id].(lockedAt := Some(f.k.w.l.db.now))
         && forall other :: other in after.procs ==> after.procs[other].db == after.k.w.l.db
  {
    EmptyAgrees(cfg);
    RunKeepsAgreement(cfg, EMPTY_FLEET, events);
    var f := After(cfg, EMPTY_FLEET, events);
    SnapshotLists(f, worker, c, id);
    BeatsAgain(cfg, f, worker);
    BeatCommits(cfg, Step(cfg, WithoutBeat(cfg, f, worker), StartBeat(worker)), worker, c, id);
  }

  lemma SnapshotLists(f: Fleet, worker: string, c: ConsumerId, id: int)
    requires Matches(f) && worker in f.procs && Handles(f.procs[worker], c, id) && c !in f.procs[worker].killed
    ensures (id, c) in B.Snapshot(f.procs[worker])
  {
    assert ProcAgrees(f, worker) && B.Booked(f.procs[worker], c) && B.TaskIsValid(f.procs[worker], c);
  }

  lemma BeatCommits(cfg: C.Config, f: Fleet, worker: string, c: ConsumerId, id: int)
    requires UsesNames(cfg) && Agrees(cfg, f) && CanStep(cfg, f, CommitBeat(worker))
    requires (id, c) in f.k.pulses[worker].inFlight.value.leases
    requires id in f.k.w.l.db.rows && IsHeldBy(f.k.w.l.db.rows[id], c)
    ensures var after := Step(cfg, f, CommitBeat(worker));
      && id in after.k.w.l.db.rows
      && after.k.w.l.db.rows[id] == f.k.w.l.db.rows[id].(lockedAt := Some(f.k.w.l.db.now))
      && forall other :: other in after.procs ==> after.procs[other].db == after.k.w.l.db
  {
    MoveIsLegal(cfg, f, CommitBeat(worker));
    StepKeepsAgreement(cfg, f, CommitBeat(worker));
    AllShareTable(cfg, Step(cfg, f, CommitBeat(worker)));
  }

  lemma AllShareTable(cfg: C.Config, f: Fleet)
    requires Agrees(cfg, f)
    ensures forall worker :: worker in f.procs ==> f.procs[worker].db == f.k.w.l.db
  {
    forall worker | worker in f.procs ensures f.procs[worker].db == f.k.w.l.db { assert ProcAgrees(f, worker); }
  }

  // ----- no lost wake-up, in every process of the fleet ----------------------------------------------------

  ghost predicate WaitsWell(p: P.Process)
  {
    P.ValidWaiting(p) && forall c, id :: P.PassedOverIsReady(p, c, id)
  }

  lemma StepKeepsWaits(cfg: C.Config, f: Fleet, e: Event, worker: string)
    requires UsesNames(cfg) && Agrees(cfg, f) && CanStep(cfg, f, e)
    requires worker in f.procs ==> WaitsWell(f.procs[worker])
    ensures worker in Step(cfg, f, e).procs ==> WaitsWell(Step(cfg, f, e).procs[worker])
  {
    if worker in f.procs {
      ProcSteps(cfg, f, e, worker);
      match EventOf(f, e, worker)
      case Some(step) =>
        P.StepKeepsWaiting(f.procs[worker], step);
        forall c, id ensures P.PassedOverIsReady(P.Step(f.procs[worker], step), c, id) {
          P.StepKeepsPassedOver(f.procs[worker], step, c, id);
        }
      case None =>
    }
  }

  lemma {:induction false} RunKeepsWaits(cfg: C.Config, f: Fleet, events: seq<Event>, worker: string)
    requires UsesNames(cfg) && Agrees(cfg, f) && CanRun(cfg, f, events)
    requires worker in f.procs ==> WaitsWell(f.procs[worker])
    ensures worker in After(cfg, f, events).procs ==> WaitsWell(After(cfg, f, events).procs[worker])
    decreases |events|
  {
    if events != [] {
      StepKeepsAgreement(cfg, f, events[0]);
      StepKeepsWaits(cfg, f, events[0], worker);
      RunKeepsWaits(cfg, Step(cfg, f, events[0]), events[1..], worker);
    }
  }

  /** In every run of the fleet, from the start of its workers on, a waiting consumer that has not been poked
    although a message of its queue is ready is explained as in Process.NoLostWakeUp, whichever worker or other
    client made the message ready; and with the listener up and no notification in flight, the message is ready
    other than by time passing if and only if the consumer's claim passed it over as locked. */
  lemma FleetLosesNoWakeUp(cfg: C.Config, events: seq<Event>, worker: string, c: ConsumerId, id: int)
    requires UsesNames(cfg) && CanRun(cfg, EMPTY_FLEET, events)
    requires worker in After(cfg, EMPTY_FLEET, events).procs
    requires P.IsUnpoked(After(cfg, EMPTY_FLEET, events).procs[worker], c)
    ensures var p := After(cfg, EMPTY_FLEET, events).procs[worker];
      && (IsReadyId(p.db, p.tasks[c].queue, id) ==> P.IsExplained(p, c, id))
      && (p.listener == Listening(true) && p.tasks[c].queue !in p.inFlight ==>
            (IsReadyId(p.db, p.tasks[c].queue, id) && !P.ReadyByTime(p, c, id) <==> P.WasPassedOver(p, c, id)))
  {
    EmptyAgrees(cfg);
    RunKeepsWaits(cfg, EMPTY_FLEET, events, worker);
    var p := After(cfg, EMPTY_FLEET, events).procs[worker];
    assert P.WakeUpAssured(p, c, id) && P.PassedOverIsReady(p, c, id);
  }

  // ----- recovery, across the fleet --------------------------------------------------------------------

  ghost predicate ReapsInTime(cfg: C.Config, f: Fleet, events: seq<Event>)
    requires CanRun(cfg, f, events)
    decreases |events|
  {
    D.OnTime(cfg, f.k) && (events == [] || ReapsInTime(cfg, Step(cfg, f, events[0]), events[1..]))
  }

  lemma {:induction false} RunReapsInTime(cfg: C.Config, f: Fleet, events: seq<Event>)
    requires UsesNames(cfg) && Agrees(cfg, f) && CanRun(cfg, f, events) && ReapsInTime(cfg, f, events)
    requires C.IsCourse(cfg, f.k, MovesOf(cfg, f, events))
    ensures D.ReapsInTime(cfg, f.k, MovesOf(cfg, f, events))
    decreases |events|
  {
    if events != [] {
      var next := Step(cfg, f, events[0]);
      MoveIsLegal(cfg, f, events[0]);
      StepKeepsAgreement(cfg, f, events[0]);
      MovesBegin(cfg, f, events);
      RunIsCourse(cfg, next, events[1..]);
      RunReapsInTime(cfg, next, events[1..]);
    }
  }

  lemma CancelIsMove(cfg: C.Config, f: Fleet, worker: string, c: ConsumerId)
    requires UsesNames(cfg) && Matches(f) && CanStep(cfg, f, Own(worker, P.LandCancel(c)))
    ensures C.CanMove(cfg, f.k, C.Protocol(L.Cancel(c)))
    ensures Step(cfg, f, Own(worker, P.LandCancel(c))).k == C.Advance(cfg, f.k, C.Protocol(L.Cancel(c)))
  {
    MoveIsLegal(cfg, f, Own(worker, P.LandCancel(c)));
  }

  /** In a run of the fleet, the cancellation of `c` lands. */
  ghost predicate IsKillRun(cfg: C.Config, events: seq<Event>, worker: string, c: ConsumerId)
  {
    && UsesNames(cfg) && CanRun(cfg, EMPTY_FLEET, events)
    && CanStep(cfg, After(cfg, EMPTY_FLEET, events), Own(worker, P.LandCancel(c)))
  }

  ghost function Killed(cfg: C.Config, events: seq<Event>, worker: string, c: ConsumerId): Fleet
    requires IsKillRun(cfg, events, worker, c)
  {
    Step(cfg, After(cfg, EMPTY_FLEET, events), Own(worker, P.LandCancel(c)))
  }

  /** That is a kill in its course. */
  lemma KillIsCancel(cfg: C.Config, events: seq<Event>, worker: string, c: ConsumerId)
    requires IsKillRun(cfg, events, worker, c) && 0 <= cfg.timeout
    ensures var f := Killed(cfg, events, worker, c); Agrees(cfg, f) && D.IsKill(cfg, f.k, c)
  {
    EmptyAgrees(cfg);
    RunKeepsAgreement(cfg, EMPTY_FLEET, events);
    RunIsCourse(cfg, EMPTY_FLEET, events);
    var f := After(cfg, EMPTY_FLEET, events);
    CancelIsMove(cfg, f, worker, c);
    StepKeepsAgreement(cfg, f, Own(worker, P.LandCancel(c)));
    D.CancelIsKill(cfg, MovesOf(cfg, EMPTY_FLEET, events), c);
  }

  /** When every worker is sure that `c` holds nothing: a visibility timeout and the time between two passes after
    the kill, plus what is left of a heartbeat in flight if that can renew its lease later than the kill. */
  ghost function Deadline(cfg: C.Config, k: C.Cluster, c: ConsumerId): Time
  {
    k.w.l.db.now + (if D.CanOutstay(cfg, k, c) then D.Leftover(cfg, k, c) else 0) + cfg.timeout + cfg.passes
  }

  lemma RecoversFrom(cfg: C.Config, f: Fleet, events: seq<Event>, c: ConsumerId, other: string)
    requires UsesNames(cfg) && Agrees(cfg, f) && D.IsKill(cfg, f.k, c) && 0 <= cfg.timeout
    requires CanRun(cfg, f, events) && ReapsInTime(cfg, f, events) && other in After(cfg, f, events).procs
    requires Deadline(cfg, f.k, c) < After(cfg, f, events).k.w.l.db.now
    ensures D.HoldsNothing(After(cfg, f, events).procs[other].db, c)
  {
    RunIsCourse(cfg, f, events);
    RunReapsInTime(cfg, f, events);
    RunKeepsAgreement(cfg, f, events);
    assert ProcAgrees(After(cfg, f, events), other);
    var until := Deadline(cfg, f.k, c) - cfg.timeout - cfg.passes;
    forall id ensures D.IsContained(cfg, f.k, c, id, until) {
      D.LeasesArePast(f.k, c, id);
      if !D.CanOutstay(cfg, f.k, c) {
        D.CannotOutstayIsContained(cfg, f.k, c, id);
      }
    }
    D.ContainedIsRecovered(cfg, f.k, MovesOf(cfg, f, events), c, until);
  }

  /** A consumer of any worker, cancelled at time t, has lost its messages in the table all workers share by
    t + visibility timeout + R, unless a heartbeat in flight can renew its lease later than t, and then by what is
    left of that heartbeat's duration later. */
  lemma FleetRecovers(
    cfg: C.Config, before: seq<Event>, after: seq<Event>, worker: string, c: ConsumerId, other: string)
    requires 0 <= cfg.timeout && IsKillRun(cfg, before, worker, c)
    requires CanRun(cfg, Killed(cfg, before, worker, c), after)
    requires ReapsInTime(cfg, Killed(cfg, before, worker, c), after)
    requires var f := Killed(cfg, before, worker, c);
      Deadline(cfg, f.k, c) < After(cfg, f, after).k.w.l.db.now && other in After(cfg, f, after).procs
    ensures D.HoldsNothing(After(cfg, Killed(cfg, before, worker, c), after).procs[other].db, c)
  {
    KillIsCancel(cfg, before, worker, c);
    RecoversFrom(cfg, Killed(cfg, before, worker, c), after, c, other);
  }
}
