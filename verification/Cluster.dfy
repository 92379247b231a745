/** Workers, heartbeats and reapers together, with what they do in time. What Heartbeats assumes of lease ages
  and Recovery of killed consumers follows here from how often heartbeats and reaper passes happen.

  A heartbeat takes a snapshot of the leases its worker's consumers hold, and commits some time later, when
  some of them may have been let go and others claimed; or it fails. Nothing else renews a lease. */
module Cluster {
  import opened Prelude
  import opened Messages
  import opened Leases
  import opened Heartbeats
  import opened Recovery

  /** A heartbeat in flight: when it took its snapshot, and the snapshot. */
  datatype Sent = Sent(start: Time, leases: set<Lease>)

  /** A worker's heartbeats: when the last one that has committed took its snapshot, and the one in flight. */
  datatype Pulse = Pulse(last: Time, inFlight: Option<Sent>)

  datatype Cluster = Cluster(w: World, pulses: map<string, Pulse>, lastPass: Time)

  /** The worker of each consumer id, the visibility timeout, and how well things keep time: heartbeats that
    commit start at most `period` apart and take at most `duration`, the reply to a claim takes at most `reply`,
    effective reaper passes are at most `passes` apart, and shutdown grants `grace`. */
  datatype Config = Config(
    home: ConsumerId -> string,
    timeout: Time,
    period: Time,
    duration: Time,
    reply: Time,
    passes: Time,
    grace: Time)

  /** How old a lease gets when heartbeats and replies keep time. A heartbeat does not list a claim whose reply
    has not arrived. */
  function MaxAge(cfg: Config): Time { cfg.period + cfg.duration + cfg.reply }

  const IDLE: Cluster := Cluster(START, map[], 0)

  datatype Move =
    | Protocol(event: Event)       // anything but a heartbeat
    | Register(worker: string)     // the heartbeat a worker sends before it starts any consumer
    | StartBeat(worker: string, leases: set<Lease>)
    | CommitBeat(worker: string)
    | LoseBeat(worker: string)

  predicate InFlight(k: Cluster, worker: string) { worker in k.pulses && k.pulses[worker].inFlight.Some? }

  /** What a move does to the world of the lease protocol, if anything. */
  function Inner(k: Cluster, m: Move): Option<Event>
  {
    match m
    case Protocol(e) => Some(e)
    case CommitBeat(worker) =>
      if InFlight(k, worker) then Some(Execute(Renew(k.pulses[worker].inFlight.value.leases))) else None
    case _ => None
  }

  /** The consumer has a message in hand: current_message_id is set. */
  predicate IsInHand(w: World, c: ConsumerId) { c in w.held && !IsUnheard(w, c) }

  /** A snapshot lists only messages in hand at the worker, and all of them but those of consumers that are being
    stopped or killed without heartbeats. */
  ghost predicate IsSnapshot(cfg: Config, w: World, worker: string, leases: set<Lease>)
  {
    && (forall l :: l in leases ==> IsInHand(w, l.1) && cfg.home(l.1) == worker && l.0 == w.held[l.1].id)
    && (forall c :: IsInHand(w, c) && cfg.home(c) == worker && c !in w.quiet ==> (w.held[c].id, c) in leases)
  }

  ghost predicate CanMove(cfg: Config, k: Cluster, m: Move)
  {
    match m
    case Protocol(e) =>
      && CanStep(k.w, e)
      && (e.Begin? ==> cfg.home(e.consumer) in k.pulses)
      && (e.Execute? ==> !e.op.Renew? && (e.op.Reap? ==> e.op.timeout == cfg.timeout))
    case Register(worker) => worker !in k.pulses
    case StartBeat(worker, leases) =>
      worker in k.pulses && !InFlight(k, worker) && IsSnapshot(cfg, k.w, worker, leases)
    case CommitBeat(worker) => InFlight(k, worker)
    case LoseBeat(worker) => InFlight(k, worker)
  }

  ghost function PulsesAfter(cfg: Config, k: Cluster, m: Move): map<string, Pulse>
    requires CanMove(cfg, k, m)
  {
    match m
    case Protocol(_) => k.pulses
    case Register(worker) => k.pulses[worker := Pulse(k.w.l.db.now, None)]
    case StartBeat(worker, leases) =>
      k.pulses[worker := k.pulses[worker].(inFlight := Some(Sent(k.w.l.db.now, leases)))]
    case CommitBeat(worker) => k.pulses[worker := Pulse(k.pulses[worker].inFlight.value.start, None)]
    case LoseBeat(worker) => k.pulses[worker := k.pulses[worker].(inFlight := None)]
  }

  ghost function Advance(cfg: Config, k: Cluster, m: Move): Cluster
    requires CanMove(cfg, k, m)
  {
    Cluster(match Inner(k, m) case Some(e) => Step(k.w, e) case None => k.w,
            PulsesAfter(cfg, k, m),
            if m.Protocol? && m.event.Execute? then LastPass(k.w.l.db, m.event.op, cfg.timeout, k.lastPass)
            else k.lastPass)
  }

  ghost predicate IsCourse(cfg: Config, k: Cluster, moves: seq<Move>)
    decreases |moves|
  {
    moves == [] || (CanMove(cfg, k, moves[0]) && IsCourse(cfg, Advance(cfg, k, moves[0]), moves[1..]))
  }

  ghost function AfterMoves(cfg: Config, k: Cluster, moves: seq<Move>): Cluster
    requires IsCourse(cfg, k, moves)
    decreases |moves|
  {
    if moves == [] then k else AfterMoves(cfg, Advance(cfg, k, moves[0]), moves[1..])
  }

  // ----- keeping time ------------------------------------------------------------------------------

  ghost predicate BeatsAreShort(cfg: Config, k: Cluster)
  {
    forall worker :: InFlight(k, worker) ==> k.w.l.db.now - k.pulses[worker].inFlight.value.start <= cfg.duration
  }

  /** The worker's next heartbeat to commit starts in time. */
  predicate IsBeating(cfg: Config, k: Cluster, worker: string)
  {
    && worker in k.pulses
    && var pulse := k.pulses[worker];
       || k.w.l.db.now - pulse.last <= cfg.period
       || (pulse.inFlight.Some? && pulse.inFlight.value.start - pulse.last <= cfg.period)
  }

  /** Workers with a message in hand are beating, and consumers that are being stopped without heartbeats are
    within their grace period. */
  ghost predicate BeatsAreFrequent(cfg: Config, k: Cluster)
  {
    forall c :: IsHolding(k.w, c) ==>
      if c in k.w.quiet then k.w.l.db.now - k.w.quiet[c] <= cfg.grace
      else IsInHand(k.w, c) ==> IsBeating(cfg, k, cfg.home(c))
  }

  /** No claim has been waiting longer for its reply to arrive. */
  ghost predicate RepliesAreFast(cfg: Config, k: Cluster)
  {
    forall c :: c in k.w.held && IsUnheard(k.w, c) && c !in k.w.quiet ==> k.w.l.db.now - k.w.held[c].since <= cfg.reply
  }

  ghost predicate IsInTime(cfg: Config, k: Cluster)
  {
    BeatsAreShort(cfg, k) && BeatsAreFrequent(cfg, k) && RepliesAreFast(cfg, k)
  }

  ghost predicate BeatsInTime(cfg: Config, k: Cluster, moves: seq<Move>)
    requires IsCourse(cfg, k, moves)
    decreases |moves|
  {
    && IsInTime(cfg, k)
    && (moves == [] || BeatsInTime(cfg, Advance(cfg, k, moves[0]), moves[1..]))
  }

  /** No reset while a message is held. */
  ghost predicate ResetsOnlyIdle(cfg: Config, k: Cluster, moves: seq<Move>)
    requires IsCourse(cfg, k, moves)
    decreases |moves|
  {
    moves == [] ||
      ((moves[0] == Protocol(Execute(Reset)) ==> NobodyHolds(k.w))
       && ResetsOnlyIdle(cfg, Advance(cfg, k, moves[0]), moves[1..]))
  }

  // ----- what every move keeps ---------------------------------------------------------------------

  ghost predicate PulseIsPast(cfg: Config, k: Cluster, worker: string)
  {
    worker in k.pulses ==>
      && k.pulses[worker].last <= k.w.l.db.now
      && (InFlight(k, worker) ==>
            && k.pulses[worker].inFlight.value.start <= k.w.l.db.now
            && forall l :: l in k.pulses[worker].inFlight.value.leases ==> cfg.home(l.1) == worker)
  }

  /** A message in hand has been in hand, or been renewed, since its worker's last heartbeat, and the one in
    flight lists it or is older than it. */
  ghost predicate IsCovered(cfg: Config, k: Cluster, c: ConsumerId)
  {
    && (c in k.w.tasks ==> cfg.home(c) in k.pulses)
    && (c in k.w.held ==> k.w.held[c].since <= k.w.l.db.now && k.w.held[c].heard <= k.w.l.db.now)
    && (IsInHand(k.w, c) && c !in k.w.quiet && cfg.home(c) in k.pulses ==>
          var pulse, h := k.pulses[cfg.home(c)], k.w.held[c];
          && pulse.last <= Max(h.since, h.heard)
          && (pulse.inFlight.Some? ==>
                (h.id, c) in pulse.inFlight.value.leases || pulse.inFlight.value.start <= Max(h.since, h.heard)))
  }

  ghost predicate ValidCluster(cfg: Config, k: Cluster)
  {
    && ValidWorld(k.w)
    && (forall worker :: PulseIsPast(cfg, k, worker))
    && (forall c :: IsCovered(cfg, k, c))
  }

  lemma MoveKeepsPulse(cfg: Config, k: Cluster, m: Move, worker: string)
    requires CanMove(cfg, k, m) && PulseIsPast(cfg, k, worker)
    ensures PulseIsPast(cfg, Advance(cfg, k, m), worker)
  {
  }

  lemma ProtocolKeepsCovered(cfg: Config, k: Cluster, e: Event, c: ConsumerId)
    requires CanMove(cfg, k, Protocol(e)) && IsCovered(cfg, k, c) && HeldMatchesTask(k.w, c)
    requires PulseIsPast(cfg, k, cfg.home(c))
    ensures IsCovered(cfg, Advance(cfg, k, Protocol(e)), c)
  {
  }

  lemma BeatKeepsCovered(cfg: Config, k: Cluster, m: Move, c: ConsumerId)
    requires CanMove(cfg, k, m) && !m.Protocol? && IsCovered(cfg, k, c) && HeldMatchesTask(k.w, c)
    requires PulseIsPast(cfg, k, cfg.home(c))
    ensures IsCovered(cfg, Advance(cfg, k, m), c)
  {
  }

  lemma MoveKeepsCovered(cfg: Config, k: Cluster, m: Move, c: ConsumerId)
    requires CanMove(cfg, k, m) && IsCovered(cfg, k, c) && PulseIsPast(cfg, k, cfg.home(c)) && HeldMatchesTask(k.w, c)
    ensures IsCovered(cfg, Advance(cfg, k, m), c)
  {
    if m.Protocol? {
      ProtocolKeepsCovered(cfg, k, m.event, c);
    } else {
      BeatKeepsCovered(cfg, k, m, c);
    }
  }

  lemma MoveKeepsValid(cfg: Config, k: Cluster, m: Move)
    requires ValidCluster(cfg, k) && CanMove(cfg, k, m)
    ensures ValidCluster(cfg, Advance(cfg, k, m))
  {
    if Inner(k, m).Some? {
      StepKeepsValid(k.w, Inner(k, m).value);
    }
    forall worker ensures PulseIsPast(cfg, Advance(cfg, k, m), worker) { MoveKeepsPulse(cfg, k, m, worker); }
    forall c ensures IsCovered(cfg, Advance(cfg, k, m), c) {
      assert IsCovered(cfg, k, c) && HeldMatchesTask(k.w, c) && forall worker :: PulseIsPast(cfg, k, worker);
      MoveKeepsCovered(cfg, k, m, c);
    }
  }

  lemma IdleIsValid(cfg: Config)
    ensures ValidCluster(cfg, IDLE)
  {
    StartIsValid();
  }

  lemma {:induction false} CourseKeepsValid(cfg: Config, k: Cluster, moves: seq<Move>)
    requires ValidCluster(cfg, k) && IsCourse(cfg, k, moves)
    ensures ValidCluster(cfg, AfterMoves(cfg, k, moves))
    decreases |moves|
  {
    if moves != [] {
      MoveKeepsValid(cfg, k, moves[0]);
      CourseKeepsValid(cfg, Advance(cfg, k, moves[0]), moves[1..]);
    }
  }

  /** A course is a history of the lease protocol, so what is proved over histories holds of it. */
  lemma {:induction false} CourseIsHistory(cfg: Config, k: Cluster, moves: seq<Move>) returns (events: seq<Event>)
    requires IsCourse(cfg, k, moves)
    ensures IsHistory(k.w, events) && After(k.w, events) == AfterMoves(cfg, k, moves).w
    decreases |moves|
  {
    events := [];
    if moves != [] {
      var rest := CourseIsHistory(cfg, Advance(cfg, k, moves[0]), moves[1..]);
      match Inner(k, moves[0])
      case Some(e) =>
        events := [e] + rest;
        assert events[1..] == rest;
      case None => events := rest;
    }
  }

  // ----- mutual exclusion, from the heartbeat loop ---------------------------------------------------

  /** The reply to the claim of a message in hand was fast. */
  predicate WasFast(cfg: Config, k: Cluster, c: ConsumerId)
  {
    IsInHand(k.w, c) && c !in k.w.quiet ==> k.w.held[c].heard - k.w.held[c].since <= cfg.reply
  }

  /** Heartbeats and replies in time keep every lease at most one period, one duration and one reply old. */
  lemma HeartbeatsAreTimely(cfg: Config, k: Cluster)
    requires ValidCluster(cfg, k) && IsInTime(cfg, k) && forall c :: WasFast(cfg, k, c)
    requires 0 <= cfg.period && 0 <= cfg.duration && 0 <= cfg.reply
    ensures Timely(k.w, MaxAge(cfg), cfg.grace)
  {
    forall c | IsHolding(k.w, c) && c !in k.w.quiet ensures k.w.l.db.now - k.w.held[c].since <= MaxAge(cfg) {
      if IsInHand(k.w, c) {
        assert IsCovered(cfg, k, c) && IsBeating(cfg, k, cfg.home(c)) && WasFast(cfg, k, c);
        assert InFlight(k, cfg.home(c)) <==> k.pulses[cfg.home(c)].inFlight.Some?;
      }
    }
  }

  ghost predicate IsStillRight(cfg: Config, k: Cluster, c: ConsumerId)
  {
    IsRight(k.w, c, MaxAge(cfg)) && QuietIsPast(k.w, c)
  }

  lemma MoveKeepsFast(cfg: Config, k: Cluster, m: Move, c: ConsumerId)
    requires ValidCluster(cfg, k) && CanMove(cfg, k, m) && RepliesAreFast(cfg, k) && WasFast(cfg, k, c)
    ensures WasFast(cfg, Advance(cfg, k, m), c)
  {
    assert HeldMatchesTask(k.w, c) && IsCovered(cfg, k, c);
  }

  lemma MoveKeepsRight(cfg: Config, k: Cluster, m: Move, c: ConsumerId)
    requires ValidCluster(cfg, k) && CanMove(cfg, k, m) && (m == Protocol(Execute(Reset)) ==> NobodyHolds(k.w))
    requires 0 <= MaxAge(cfg) <= cfg.timeout && (c in k.w.quiet ==> MaxAge(cfg) + cfg.grace <= cfg.timeout)
    requires Timely(k.w, MaxAge(cfg), cfg.grace) && IsStillRight(cfg, k, c)
    ensures IsStillRight(cfg, Advance(cfg, k, m), c)
  {
    match Inner(k, m)
    case Some(e) =>
      StepKeepsRight(k.w, e, c, MaxAge(cfg), cfg.grace, cfg.timeout);
      StepKeepsQuietPast(k.w, e, c);
    case None =>
  }

  lemma {:induction false} CourseKeepsRight(cfg: Config, k: Cluster, moves: seq<Move>)
    requires ValidCluster(cfg, k) && IsCourse(cfg, k, moves)
    requires BeatsInTime(cfg, k, moves) && ResetsOnlyIdle(cfg, k, moves)
    requires 0 <= cfg.period && 0 <= cfg.duration && 0 <= cfg.reply && MaxAge(cfg) <= cfg.timeout
    requires MaxAge(cfg) + cfg.grace <= cfg.timeout
      || (k.w.quiet == map[] && NobodyStopped(moves))
    requires forall c :: IsStillRight(cfg, k, c) && WasFast(cfg, k, c)
    ensures forall c :: IsStillRight(cfg, AfterMoves(cfg, k, moves), c)
    decreases |moves|
  {
    if moves != [] {
      var next := Advance(cfg, k, moves[0]);
      MoveKeepsValid(cfg, k, moves[0]);
      HeartbeatsAreTimely(cfg, k);
      forall c ensures IsStillRight(cfg, next, c) && WasFast(cfg, next, c) {
        MoveKeepsRight(cfg, k, moves[0], c);
        MoveKeepsFast(cfg, k, moves[0], c);
      }
      CourseKeepsRight(cfg, next, moves[1..]);
    }
  }

  /** No shutdown and no kill. */
  predicate NobodyStopped(moves: seq<Move>)
  {
    forall i :: 0 <= i < |moves| ==> moves[i].Protocol? ==> !moves[i].event.StopHeartbeats?
  }

  /** No message is being handled by two consumers, and each consumer owns the message it is handling. */
  ghost predicate IsExclusive(w: World)
  {
    && (forall c, d, id :: IsActive(w, c, id) && IsActive(w, d, id) ==> c == d)
    && (forall c, id :: IsActive(w, c, id) ==> OwnsRow(w, c, id))
  }

  /** Mutual exclusion from the heartbeat loop. If the heartbeats that commit start at most P apart and take at
    most D, replies to claims take at most L, P + D + L is at most the visibility timeout (with the grace period
    added if there are shutdowns or kills), and no reset happens while a message is held, then no message is being
    handled by two consumers and every consumer still owns the message it is handling. */
  lemma HeartbeatsExclude(cfg: Config, moves: seq<Move>)
    requires IsCourse(cfg, IDLE, moves) && BeatsInTime(cfg, IDLE, moves) && ResetsOnlyIdle(cfg, IDLE, moves)
    requires 0 <= cfg.period && 0 <= cfg.duration && 0 <= cfg.reply && MaxAge(cfg) <= cfg.timeout
    requires MaxAge(cfg) + cfg.grace <= cfg.timeout || NobodyStopped(moves)
    ensures IsExclusive(AfterMoves(cfg, IDLE, moves).w)
  {
    IdleIsValid(cfg);
    CourseKeepsValid(cfg, IDLE, moves);
    CourseKeepsRight(cfg, IDLE, moves);
    var k := AfterMoves(cfg, IDLE, moves);
    forall c, id | IsActive(k.w, c, id) ensures OwnsRow(k.w, c, id) {
      assert HeldMatchesTask(k.w, c) && IsStillRight(cfg, k, c);
      ActiveIsHolding(k.w, c, id);
    }
  }

  // ----- what a heartbeat achieves -------------------------------------------------------------------

  lemma MoveBefore(cfg: Config, k: Cluster, m: Move, rest: seq<Move>)
    requires CanMove(cfg, k, m) && IsCourse(cfg, Advance(cfg, k, m), rest)
    ensures IsCourse(cfg, k, [m] + rest)
    ensures AfterMoves(cfg, k, [m] + rest) == AfterMoves(cfg, Advance(cfg, k, m), rest)
  {
    assert ([m] + rest)[1..] == rest;
  }

  /** The messages in hand at a worker, but those of consumers that are being stopped or killed. */
  function InHand(cfg: Config, w: World, worker: string): set<Lease>
  {
    set c | c in w.held && IsInHand(w, c) && cfg.home(c) == worker && c !in w.quiet :: (w.held[c].id, c)
  }

  /** `c` owns the message in its hand, and its lease is as old as `since` says. */
  ghost predicate HasLease(w: World, c: ConsumerId, id: int, since: Time)
  {
    && c in w.held && w.held[c].id == id && w.held[c].since == since
    && OwnsRow(w, c, id) && w.l.db.rows[id].lockedAt == Some(since)
  }

  lemma RenewingRefreshes(w: World, leases: set<Lease>, c: ConsumerId, id: int)
    requires (id, c) in leases && c in w.held && w.held[c].id == id && OwnsRow(w, c, id)
    ensures HasLease(Step(w, Execute(Renew(leases))), c, id, w.l.db.now)
  {
  }

  /** From every reachable state, whether or not a heartbeat is in flight that then fails, a worker's next heartbeat
    can start and commit at once, and then every consumer there that owned the message in its hand, and is not being
    stopped or killed, still does, with a lease as new as the heartbeat. */
  lemma NextBeatRenews(cfg: Config, before: seq<Move>, worker: string) returns (moves: seq<Move>)
    requires IsCourse(cfg, IDLE, before) && worker in AfterMoves(cfg, IDLE, before).pulses
    ensures var k := AfterMoves(cfg, IDLE, before);
      && moves == (if InFlight(k, worker) then [LoseBeat(worker)] else [])
                  + [StartBeat(worker, InHand(cfg, k.w, worker)), CommitBeat(worker)]
      && IsCourse(cfg, k, moves)
      && var after := AfterMoves(cfg, k, moves);
         && after.pulses == k.pulses[worker := Pulse(k.w.l.db.now, None)]
         && forall c :: IsInHand(k.w, c) && cfg.home(c) == worker && c !in k.w.quiet
                        && OwnsRow(k.w, c, k.w.held[c].id) ==>
              HasLease(after.w, c, k.w.held[c].id, k.w.l.db.now)
  {
    var k := AfterMoves(cfg, IDLE, before);
    var leases := InHand(cfg, k.w, worker);
    var idle := if InFlight(k, worker) then Advance(cfg, k, LoseBeat(worker)) else k;
    assert idle.w == k.w && !InFlight(idle, worker);
    var started := Advance(cfg, idle, StartBeat(worker, leases));
    MoveBefore(cfg, started, CommitBeat(worker), []);
    moves := [CommitBeat(worker)] + [];
    MoveBefore(cfg, idle, StartBeat(worker, leases), moves);
    moves := [StartBeat(worker, leases)] + moves;
    if InFlight(k, worker) {
      MoveBefore(cfg, k, LoseBeat(worker), moves);
      moves := [LoseBeat(worker)] + moves;
    }
    forall c | IsInHand(k.w, c) && cfg.home(c) == worker && c !in k.w.quiet && OwnsRow(k.w, c, k.w.held[c].id)
      ensures HasLease(Advance(cfg, started, CommitBeat(worker)).w, c, k.w.held[c].id, k.w.l.db.now)
    {
      RenewingRefreshes(k.w, leases, c, k.w.held[c].id);
    }
  }
}
