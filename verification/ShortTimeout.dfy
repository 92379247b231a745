/** Two consumers on one message, while everything keeps time: a run for any timeout shorter than the time between two
  heartbeats, the duration of a heartbeat and the longest reply to a claim together, with the grace period added when
  workers shut down or consumers are killed. A heartbeat takes its snapshot right before the reply arrives, and the
  next one starts and commits as late as it may. With a reset while a message is held there is one for any timeout. */
module ShortTimeout {
  import opened Prelude
  import opened Messages
  import opened Consumers
  import opened Leases
  import opened Heartbeats
  import opened Cluster

  // ----- runs that keep time -----------------------------------------------------------------------

  /** What may happen besides delays: shutdowns and kills, and resets while a message is held. */
  datatype Faults = Faults(stops: bool, resets: bool)

  ghost predicate HasOnly(cfg: Config, k: Cluster, moves: seq<Move>, faults: Faults)
    requires IsCourse(cfg, k, moves)
  {
    (faults.resets || ResetsOnlyIdle(cfg, k, moves)) && (faults.stops || NobodyStopped(moves))
  }

  predicate BothHandle(w: World) { IsActive(w, "c", 1) && IsActive(w, "d", 1) }

  /** Moves from `k` that keep time, have only these faults, and end with two consumers handling message 1. */
  ghost predicate Breaks(cfg: Config, k: Cluster, moves: seq<Move>, faults: Faults)
  {
    && IsCourse(cfg, k, moves) && BeatsInTime(cfg, k, moves) && HasOnly(cfg, k, moves, faults)
    && BothHandle(AfterMoves(cfg, k, moves).w)
  }

  lemma MoveFirst(cfg: Config, k: Cluster, m: Move, rest: seq<Move>, faults: Faults)
    requires CanMove(cfg, k, m) && IsInTime(cfg, k) && (m == Protocol(Execute(Reset)) ==> faults.resets)
    requires faults.stops || !m.Protocol? || !m.event.StopHeartbeats?
    requires Breaks(cfg, Advance(cfg, k, m), rest, faults)
    ensures Breaks(cfg, k, [m] + rest, faults)
  {
    assert ([m] + rest)[1..] == rest;
    assert forall i :: 0 < i < |[m] + rest| ==> ([m] + rest)[i] == rest[i - 1];
  }

  // ----- the states of the run ---------------------------------------------------------------------

  /** Message 1 has been claimed by "c" at time 0, never renewed, and has attempts left. */
  predicate IsClaimed(k: Cluster)
  {
    && OwnsRow(k.w, "c", 1) && k.w.l.db.rows[1].lockedAt == Some(0) && k.w.l.db.rows[1].queue == "q"
    && k.w.l.db.rows[1].attempts < k.w.l.db.rows[1].maxAttempts && k.w.l.db.rows[1].availableAt <= k.w.l.db.now
  }

  /** "c" is the only consumer. Its claim was made at time 0, and it has heard of it at `heard`, if at all. */
  predicate IsAlone(cfg: Config, k: Cluster, heard: Option<Time>, now: Time, pulse: Pulse)
  {
    && k.pulses == map[cfg.home("c") := pulse] && k.w.l.db.now == now
    && k.w.tasks.Keys == {"c"} && k.w.held.Keys == {"c"}
    && k.w.held["c"].id == 1 && k.w.held["c"].since == 0
    && match heard
       case None => k.w.replies == map["c" := ClaimReply(Some(1))] && k.w.tasks["c"].phase.Claiming?
       case Some(at) =>
         k.w.replies == map[] && k.w.tasks["c"].phase == Handling(1) && k.w.held["c"].heard == at
  }

  lemma HearAlone(cfg: Config, k: Cluster, now: Time, pulse: Pulse)
    requires IsAlone(cfg, k, None, now, pulse)
    ensures CanMove(cfg, k, Protocol(HearClaim("c")))
    ensures var next := Advance(cfg, k, Protocol(HearClaim("c")));
      && IsAlone(cfg, next, Some(now), now, pulse) && next.w.quiet == k.w.quiet && next.w.l == k.w.l
  {
  }

  lemma StartAlone(cfg: Config, k: Cluster, heard: Option<Time>, now: Time, last: Time, leases: set<Lease>)
    requires IsAlone(cfg, k, heard, now, Pulse(last, None))
    requires if heard.None? || "c" in k.w.quiet then leases == {} else leases == {(1, "c")}
    ensures CanMove(cfg, k, StartBeat(cfg.home("c"), leases))
    ensures var next := Advance(cfg, k, StartBeat(cfg.home("c"), leases));
      IsAlone(cfg, next, heard, now, Pulse(last, Some(Sent(now, leases)))) && next.w == k.w
  {
  }

  lemma CommitNothing(cfg: Config, k: Cluster, heard: Option<Time>, now: Time, last: Time, start: Time)
    requires IsAlone(cfg, k, heard, now, Pulse(last, Some(Sent(start, {}))))
    ensures CanMove(cfg, k, CommitBeat(cfg.home("c")))
    ensures var next := Advance(cfg, k, CommitBeat(cfg.home("c")));
      IsAlone(cfg, next, heard, now, Pulse(start, None)) && next.w.quiet == k.w.quiet
  {
  }

  lemma CommitKeepsClaim(cfg: Config, k: Cluster, heard: Option<Time>, now: Time, last: Time, start: Time)
    requires IsAlone(cfg, k, heard, now, Pulse(last, Some(Sent(start, {})))) && IsClaimed(k)
    requires CanMove(cfg, k, CommitBeat(cfg.home("c")))
    ensures IsClaimed(Advance(cfg, k, CommitBeat(cfg.home("c"))))
  {
  }

  /** When such a state keeps time. */
  lemma AloneInTime(cfg: Config, k: Cluster, heard: Option<Time>, now: Time, pulse: Pulse)
    requires IsAlone(cfg, k, heard, now, pulse)
    requires pulse.inFlight.Some? ==> now - pulse.inFlight.value.start <= cfg.duration
    requires "c" in k.w.quiet ==> now - k.w.quiet["c"] <= cfg.grace
    requires "c" !in k.w.quiet && heard.None? ==> now <= cfg.reply
    requires "c" !in k.w.quiet && heard.Some? ==>
      || now - pulse.last <= cfg.period
      || (pulse.inFlight.Some? && pulse.inFlight.value.start - pulse.last <= cfg.period)
    ensures IsInTime(cfg, k)
  {
  }

  // ----- a second consumer -------------------------------------------------------------------------

  /** "c" is handling message 1, which is ready for anybody, while its worker's heartbeats are in time. */
  predicate IsRobbed(cfg: Config, k: Cluster)
  {
    && IsReadyId(k.w.l.db, "q", 1)
    && k.w.tasks.Keys == {"c"} && k.w.tasks["c"].phase == Handling(1)
    && k.w.held.Keys == {"c"} && k.w.replies == map[]
    && k.pulses.Keys == {cfg.home("c")}
  }

  /** Everything is in time and stays so if no time passes and only "d" does something. */
  ghost predicate StaysInTime(cfg: Config, k: Cluster)
  {
    && IsInTime(cfg, k) && 0 <= cfg.reply && "d" !in k.w.quiet
    && (cfg.home("d") in k.pulses ==> IsBeating(cfg, k, cfg.home("d")))
  }

  lemma RegisterSecond(cfg: Config, k: Cluster)
    requires IsRobbed(cfg, k) && StaysInTime(cfg, k) && cfg.home("d") !in k.pulses && 0 <= cfg.period
    ensures CanMove(cfg, k, Register(cfg.home("d")))
    ensures var next := Advance(cfg, k, Register(cfg.home("d")));
      && next.w == k.w && cfg.home("d") in next.pulses && StaysInTime(cfg, next)
  {
    var next := Advance(cfg, k, Register(cfg.home("d")));
    assert forall worker :: InFlight(next, worker) ==> InFlight(k, worker) && next.pulses[worker] == k.pulses[worker];
    assert forall worker :: IsBeating(cfg, k, worker) ==> IsBeating(cfg, next, worker);
  }

  /** "c" is handling message 1, and "d" is in the phase it needs for its next step. */
  ghost predicate HasSecond(cfg: Config, k: Cluster, phase: Phase, reply: Option<Reply>)
  {
    && StaysInTime(cfg, k) && cfg.home("d") in k.pulses
    && k.w.tasks.Keys == {"c", "d"} && k.w.tasks["c"].phase == Handling(1) && "c" !in k.w.replies
    && k.w.tasks["d"].phase == phase && k.w.tasks["d"].queue == "q" && !k.w.tasks["d"].stopping
    && (match reply
        case None => "d" !in k.w.replies
        case Some(r) => "d" in k.w.replies && k.w.replies["d"] == r)
    && ("d" in k.w.held ==> k.w.held["d"].since == k.w.l.db.now)
  }

  lemma BeginSecond(cfg: Config, k: Cluster)
    requires StaysInTime(cfg, k) && cfg.home("d") in k.pulses
    requires k.w.tasks.Keys == {"c"} && k.w.tasks["c"].phase == Handling(1) && k.w.held.Keys == {"c"}
    requires k.w.replies == map[]
    ensures CanMove(cfg, k, Protocol(Begin("d", "q")))
    ensures var next := Advance(cfg, k, Protocol(Begin("d", "q")));
      HasSecond(cfg, next, Looping, None) && next.w.l == k.w.l
  {
  }

  lemma LoopSecond(cfg: Config, k: Cluster)
    requires HasSecond(cfg, k, Looping, None)
    ensures CanMove(cfg, k, Protocol(Loop("d", 0)))
    ensures var next := Advance(cfg, k, Protocol(Loop("d", 0)));
      HasSecond(cfg, next, Claiming(0), None) && next.w.l == k.w.l
  {
  }

  lemma RunSecond(cfg: Config, k: Cluster)
    requires HasSecond(cfg, k, Claiming(0), None) && IsReadyId(k.w.l.db, "q", 1)
    ensures CanMove(cfg, k, Protocol(RunClaim("d", Some(1))))
    ensures HasSecond(cfg, Advance(cfg, k, Protocol(RunClaim("d", Some(1)))), Claiming(0), Some(ClaimReply(Some(1))))
  {
  }

  lemma HearSecond(cfg: Config, k: Cluster)
    requires HasSecond(cfg, k, Claiming(0), Some(ClaimReply(Some(1))))
    ensures CanMove(cfg, k, Protocol(HearClaim("d")))
    ensures HasSecond(cfg, Advance(cfg, k, Protocol(HearClaim("d"))), Handling(1), None)
  {
  }

  lemma RunBreaks(cfg: Config, k: Cluster, faults: Faults) returns (moves: seq<Move>)
    requires HasSecond(cfg, k, Claiming(0), None) && IsReadyId(k.w.l.db, "q", 1)
    ensures Breaks(cfg, k, moves, faults)
  {
    RunSecond(cfg, k);
    var run := Advance(cfg, k, Protocol(RunClaim("d", Some(1))));
    HearSecond(cfg, run);
    assert Breaks(cfg, Advance(cfg, run, Protocol(HearClaim("d"))), [], faults);
    MoveFirst(cfg, run, Protocol(HearClaim("d")), [], faults);
    moves := [Protocol(HearClaim("d"))] + [];
    MoveFirst(cfg, k, Protocol(RunClaim("d", Some(1))), moves, faults);
    moves := [Protocol(RunClaim("d", Some(1)))] + moves;
  }

  /** "d" claims the message that "c" is handling. */
  lemma SecondClaims(cfg: Config, k: Cluster, faults: Faults) returns (moves: seq<Move>)
    requires IsReadyId(k.w.l.db, "q", 1) && StaysInTime(cfg, k) && cfg.home("d") in k.pulses
    requires k.w.tasks.Keys == {"c"} && k.w.tasks["c"].phase == Handling(1) && k.w.held.Keys == {"c"}
    requires k.w.replies == map[]
    ensures Breaks(cfg, k, moves, faults)
  {
    BeginSecond(cfg, k);
    var k1 := Advance(cfg, k, Protocol(Begin("d", "q")));
    LoopSecond(cfg, k1);
    moves := RunBreaks(cfg, Advance(cfg, k1, Protocol(Loop("d", 0))), faults);
    MoveFirst(cfg, k1, Protocol(Loop("d", 0)), moves, faults);
    moves := [Protocol(Loop("d", 0))] + moves;
    MoveFirst(cfg, k, Protocol(Begin("d", "q")), moves, faults);
    moves := [Protocol(Begin("d", "q"))] + moves;
  }

  lemma RobbedBreaks(cfg: Config, k: Cluster, faults: Faults) returns (moves: seq<Move>)
    requires IsRobbed(cfg, k) && StaysInTime(cfg, k) && 0 <= cfg.period
    ensures Breaks(cfg, k, moves, faults)
  {
    if cfg.home("d") in k.pulses {
      moves := SecondClaims(cfg, k, faults);
    } else {
      RegisterSecond(cfg, k);
      moves := SecondClaims(cfg, Advance(cfg, k, Register(cfg.home("d"))), faults);
      MoveFirst(cfg, k, Register(cfg.home("d")), moves, faults);
      moves := [Register(cfg.home("d"))] + moves;
    }
  }

  // ----- the run -----------------------------------------------------------------------------------

  function Wait(d: nat): Move { Protocol(Execute(Elapse(d))) }

  function Pass(cfg: Config): Move { Protocol(Execute(Reap(cfg.timeout, {}))) }

  /** A pass takes the expired lease of "c", and "d" claims the message. */
  lemma PassBreaks(cfg: Config, k: Cluster, heard: Time, now: Time, pulse: Pulse, faults: Faults)
    returns (moves: seq<Move>)
    requires IsAlone(cfg, k, Some(heard), now, pulse) && IsClaimed(k) && cfg.timeout < now
    requires IsInTime(cfg, k) && IsBeating(cfg, k, cfg.home("c")) && "d" !in k.w.quiet
    requires 0 <= cfg.period && 0 <= cfg.reply
    ensures Breaks(cfg, k, moves, faults)
  {
    var robbed := Advance(cfg, k, Pass(cfg));
    PassStaysInTime(cfg, k, robbed);
    moves := RobbedBreaks(cfg, robbed, faults);
    MoveFirst(cfg, k, Pass(cfg), moves, faults);
    moves := [Pass(cfg)] + moves;
  }

  lemma PassStaysInTime(cfg: Config, k: Cluster, next: Cluster)
    requires CanMove(cfg, k, Pass(cfg)) && next == Advance(cfg, k, Pass(cfg)) && IsInTime(cfg, k)
    requires k.pulses.Keys == {cfg.home("c")} && IsBeating(cfg, k, cfg.home("c")) && "d" !in k.w.quiet && 0 <= cfg.reply
    ensures StaysInTime(cfg, next)
  {
    assert next.pulses == k.pulses && next.w.l.db.now == k.w.l.db.now && next.w.held == k.w.held;
    assert forall worker :: InFlight(next, worker) <==> InFlight(k, worker);
    assert forall worker :: IsBeating(cfg, next, worker) <==> IsBeating(cfg, k, worker);
    assert forall c :: IsHolding(next.w, c) <==> IsHolding(k.w, c);
  }

  /** A stopped consumer finishes no sooner than it must, while its worker's next heartbeat does not list it. */
  lemma GraceBreaks(cfg: Config, k: Cluster, heard: Time, now: Time, last: Time, faults: Faults)
    returns (moves: seq<Move>)
    requires faults.stops && IsAlone(cfg, k, Some(heard), now, Pulse(last, None)) && IsClaimed(k)
    requires k.w.quiet == map["c" := now]
    requires 0 <= cfg.period && 0 <= cfg.duration && 0 <= cfg.reply && 0 <= cfg.grace && cfg.timeout < now + cfg.grace
    ensures Breaks(cfg, k, moves, faults)
  {
    var late := now + cfg.grace;
    AloneInTime(cfg, k, Some(heard), now, Pulse(last, None));
    var waited := Advance(cfg, k, Wait(cfg.grace));
    moves := BeatAndPassBreaks(cfg, waited, heard, late, last, faults);
    MoveFirst(cfg, k, Wait(cfg.grace), moves, faults);
    moves := [Wait(cfg.grace)] + moves;
  }

  lemma BeatAndPassBreaks(cfg: Config, k: Cluster, heard: Time, late: Time, last: Time, faults: Faults)
    returns (moves: seq<Move>)
    requires faults.stops && IsAlone(cfg, k, Some(heard), late, Pulse(last, None)) && IsClaimed(k)
    requires k.w.quiet.Keys == {"c"} && late - k.w.quiet["c"] <= cfg.grace
    requires 0 <= cfg.period && 0 <= cfg.duration && 0 <= cfg.reply && cfg.timeout < late
    ensures Breaks(cfg, k, moves, faults)
  {
    var home := cfg.home("c");
    AloneInTime(cfg, k, Some(heard), late, Pulse(last, None));
    StartAlone(cfg, k, Some(heard), late, last, {});
    var started := Advance(cfg, k, StartBeat(home, {}));
    AloneInTime(cfg, started, Some(heard), late, Pulse(last, Some(Sent(late, {}))));
    CommitNothing(cfg, started, Some(heard), late, last, late);
    CommitKeepsClaim(cfg, started, Some(heard), late, last, late);
    var committed := Advance(cfg, started, CommitBeat(home));
    AloneInTime(cfg, committed, Some(heard), late, Pulse(late, None));
    moves := PassBreaks(cfg, committed, heard, late, Pulse(late, None), faults);
    MoveFirst(cfg, started, CommitBeat(home), moves, faults);
    moves := [CommitBeat(home)] + moves;
    MoveFirst(cfg, k, StartBeat(home, {}), moves, faults);
    moves := [StartBeat(home, {})] + moves;
  }

  /** "c" is shut down with the heartbeat in flight, which is lost. */
  lemma StopBreaks(cfg: Config, k: Cluster, heard: Time, now: Time, pulse: Pulse, faults: Faults)
    returns (moves: seq<Move>)
    requires faults.stops && IsAlone(cfg, k, Some(heard), now, pulse) && IsClaimed(k)
    requires k.w.quiet == map[] && pulse.inFlight.Some?
    requires IsInTime(cfg, k) && now - pulse.inFlight.value.start <= cfg.duration
    requires 0 <= cfg.period && 0 <= cfg.duration && 0 <= cfg.reply && 0 <= cfg.grace && cfg.timeout < now + cfg.grace
    ensures Breaks(cfg, k, moves, faults)
  {
    var stopped := Advance(cfg, k, Protocol(StopHeartbeats({"c"})));
    AloneInTime(cfg, stopped, Some(heard), now, pulse);
    moves := GraceBreaks(cfg, Advance(cfg, stopped, LoseBeat(cfg.home("c"))), heard, now, pulse.last, faults);
    MoveFirst(cfg, stopped, LoseBeat(cfg.home("c")), moves, faults);
    moves := [LoseBeat(cfg.home("c"))] + moves;
    MoveFirst(cfg, k, Protocol(StopHeartbeats({"c"})), moves, faults);
    moves := [Protocol(StopHeartbeats({"c"}))] + moves;
  }

  /** Whether the timeout is too short. */
  predicate IsTooShort(cfg: Config, faults: Faults)
  {
    cfg.timeout < MaxAge(cfg) + if faults.stops then cfg.grace else 0
  }

  /** The second heartbeat has not committed one duration after its start. */
  lemma LateCommitBreaks(cfg: Config, k: Cluster, faults: Faults) returns (moves: seq<Move>)
    requires var start := cfg.reply + cfg.period;
      IsAlone(cfg, k, Some(cfg.reply), start, Pulse(cfg.reply, Some(Sent(start, {(1, "c")}))))
    requires IsClaimed(k) && k.w.quiet == map[]
    requires 0 <= cfg.period && 0 <= cfg.duration && 0 <= cfg.reply && 0 <= cfg.grace && IsTooShort(cfg, faults)
    ensures Breaks(cfg, k, moves, faults)
  {
    var heard, start := Some(cfg.reply), cfg.reply + cfg.period;
    var listing := Pulse(cfg.reply, Some(Sent(start, {(1, "c")})));
    AloneInTime(cfg, k, heard, start, listing);
    var late := Advance(cfg, k, Wait(cfg.duration));
    AloneInTime(cfg, late, heard, MaxAge(cfg), listing);
    if faults.stops {
      moves := StopBreaks(cfg, late, cfg.reply, MaxAge(cfg), listing, faults);
    } else {
      moves := PassBreaks(cfg, late, cfg.reply, MaxAge(cfg), listing, faults);
    }
    MoveFirst(cfg, k, Wait(cfg.duration), moves, faults);
    moves := [Wait(cfg.duration)] + moves;
  }

  /** It starts one period after the first. */
  lemma SecondBeatBreaks(cfg: Config, k: Cluster, faults: Faults) returns (moves: seq<Move>)
    requires IsAlone(cfg, k, Some(cfg.reply), cfg.reply, Pulse(cfg.reply, None)) && IsClaimed(k) && k.w.quiet == map[]
    requires 0 <= cfg.period && 0 <= cfg.duration && 0 <= cfg.reply && 0 <= cfg.grace && IsTooShort(cfg, faults)
    ensures Breaks(cfg, k, moves, faults)
  {
    var home, heard, start := cfg.home("c"), Some(cfg.reply), cfg.reply + cfg.period;
    AloneInTime(cfg, k, heard, cfg.reply, Pulse(cfg.reply, None));
    var k1 := Advance(cfg, k, Wait(cfg.period));
    AloneInTime(cfg, k1, heard, start, Pulse(cfg.reply, None));
    StartAlone(cfg, k1, heard, start, cfg.reply, {(1, "c")});
    moves := LateCommitBreaks(cfg, Advance(cfg, k1, StartBeat(home, {(1, "c")})), faults);
    MoveFirst(cfg, k1, StartBeat(home, {(1, "c")}), moves, faults);
    moves := [StartBeat(home, {(1, "c")})] + moves;
    MoveFirst(cfg, k, Wait(cfg.period), moves, faults);
    moves := [Wait(cfg.period)] + moves;
  }

  /** The reply arrives right after the first heartbeat has taken its snapshot and committed. */
  lemma HearingBreaks(cfg: Config, k: Cluster, faults: Faults) returns (moves: seq<Move>)
    requires IsAlone(cfg, k, None, cfg.reply, Pulse(0, Some(Sent(cfg.reply, {})))) && IsClaimed(k) && k.w.quiet == map[]
    requires 0 <= cfg.period && 0 <= cfg.duration && 0 <= cfg.reply && 0 <= cfg.grace && IsTooShort(cfg, faults)
    ensures Breaks(cfg, k, moves, faults)
  {
    var home := cfg.home("c");
    AloneInTime(cfg, k, None, cfg.reply, Pulse(0, Some(Sent(cfg.reply, {}))));
    CommitNothing(cfg, k, None, cfg.reply, 0, cfg.reply);
    CommitKeepsClaim(cfg, k, None, cfg.reply, 0, cfg.reply);
    var committed := Advance(cfg, k, CommitBeat(home));
    AloneInTime(cfg, committed, None, cfg.reply, Pulse(cfg.reply, None));
    HearAlone(cfg, committed, cfg.reply, Pulse(cfg.reply, None));
    moves := SecondBeatBreaks(cfg, Advance(cfg, committed, Protocol(HearClaim("c"))), faults);
    MoveFirst(cfg, committed, Protocol(HearClaim("c")), moves, faults);
    moves := [Protocol(HearClaim("c"))] + moves;
    MoveFirst(cfg, k, CommitBeat(home), moves, faults);
    moves := [CommitBeat(home)] + moves;
  }

  /** The first heartbeat takes its snapshot when the reply is as late as it may be. */
  lemma FirstBeatBreaks(cfg: Config, k: Cluster, faults: Faults) returns (moves: seq<Move>)
    requires IsAlone(cfg, k, None, 0, Pulse(0, None)) && IsClaimed(k) && k.w.quiet == map[]
    requires 0 <= cfg.period && 0 <= cfg.duration && 0 <= cfg.reply && 0 <= cfg.grace && IsTooShort(cfg, faults)
    ensures Breaks(cfg, k, moves, faults)
  {
    var home := cfg.home("c");
    AloneInTime(cfg, k, None, 0, Pulse(0, None));
    var waited := Advance(cfg, k, Wait(cfg.reply));
    AloneInTime(cfg, waited, None, cfg.reply, Pulse(0, None));
    StartAlone(cfg, waited, None, cfg.reply, 0, {});
    moves := HearingBreaks(cfg, Advance(cfg, waited, StartBeat(home, {})), faults);
    MoveFirst(cfg, waited, StartBeat(home, {}), moves, faults);
    moves := [StartBeat(home, {})] + moves;
    MoveFirst(cfg, k, Wait(cfg.reply), moves, faults);
    moves := [Wait(cfg.reply)] + moves;
  }

  // ----- the beginning -----------------------------------------------------------------------------

  /** Nobody holds a message yet, at time 0. */
  ghost predicate IsQuiet(cfg: Config, k: Cluster)
  {
    && k.pulses == map[cfg.home("c") := Pulse(0, None)] && k.w.l.db.now == 0
    && k.w.held == map[] && k.w.replies == map[] && k.w.quiet == map[]
  }

  lemma QuietInTime(cfg: Config, k: Cluster)
    requires IsQuiet(cfg, k) || k == IDLE
    ensures IsInTime(cfg, k)
  {
  }

  /** A worker, a consumer and a message. */
  lemma Prepare(cfg: Config) returns (k1: Cluster, k2: Cluster, k3: Cluster)
    ensures CanMove(cfg, IDLE, Register(cfg.home("c"))) && k1 == Advance(cfg, IDLE, Register(cfg.home("c")))
    ensures CanMove(cfg, k1, Protocol(Begin("c", "q"))) && k2 == Advance(cfg, k1, Protocol(Begin("c", "q")))
    ensures k3 == Advance(cfg, k2, Protocol(Execute(Publish("q", 1, 0, 0, 3))))
    ensures IsQuiet(cfg, k1) && IsQuiet(cfg, k2) && IsQuiet(cfg, k3)
    ensures k3.w.tasks == map["c" := Fresh("q")] && IsReadyId(k3.w.l.db, "q", 1)
    ensures k3.w.l.db.rows[1].attempts == 0 && k3.w.l.db.rows[1].maxAttempts == 3
  {
    k1 := Advance(cfg, IDLE, Register(cfg.home("c")));
    k2 := Advance(cfg, k1, Protocol(Begin("c", "q")));
    assert IsNewId(k2.w.l.db, Publish("q", 1, 0, 0, 3), 1);
    k3 := Advance(cfg, k2, Protocol(Execute(Publish("q", 1, 0, 0, 3))));
  }

  lemma ClaimAlone(cfg: Config, k: Cluster)
    requires IsQuiet(cfg, k) && k.w.tasks == map["c" := Fresh("q")] && IsReadyId(k.w.l.db, "q", 1)
    requires k.w.l.db.rows[1].attempts == 0 && k.w.l.db.rows[1].maxAttempts == 3
    ensures CanMove(cfg, k, Protocol(Loop("c", 0)))
    ensures var k1 := Advance(cfg, k, Protocol(Loop("c", 0)));
      && IsQuiet(cfg, k1) && CanMove(cfg, k1, Protocol(RunClaim("c", Some(1))))
      && var k2 := Advance(cfg, k1, Protocol(RunClaim("c", Some(1))));
         IsAlone(cfg, k2, None, 0, Pulse(0, None)) && IsClaimed(k2) && k2.w.quiet == map[]
  {
  }

  /** A reset takes the message away, and the next one published gets its id. */
  lemma ResetRobs(cfg: Config, k: Cluster)
    requires IsAlone(cfg, k, Some(0), 0, Pulse(0, None)) && k.w.quiet == map[]
    ensures var k1 := Advance(cfg, k, Protocol(Execute(Reset)));
      && IsAlone(cfg, k1, Some(0), 0, Pulse(0, None)) && k1.w.quiet == map[] && k1.w.l.db.nextId == 1
      && var k2 := Advance(cfg, k1, Protocol(Execute(Publish("q", 1, 0, 0, 3))));
         IsRobbed(cfg, k2) && IsAlone(cfg, k2, Some(0), 0, Pulse(0, None)) && k2.w.quiet == map[]
  {
    var k1 := Advance(cfg, k, Protocol(Execute(Reset)));
    assert IsNewId(k1.w.l.db, Publish("q", 1, 0, 0, 3), 1);
  }

  lemma RestartBreaks(cfg: Config, k: Cluster, faults: Faults) returns (moves: seq<Move>)
    requires IsAlone(cfg, k, Some(0), 0, Pulse(0, None)) && k.w.quiet == map[] && faults.resets
    requires 0 <= cfg.period && 0 <= cfg.reply
    ensures Breaks(cfg, k, moves, faults)
  {
    ResetRobs(cfg, k);
    var k1 := Advance(cfg, k, Protocol(Execute(Reset)));
    var k2 := Advance(cfg, k1, Protocol(Execute(Publish("q", 1, 0, 0, 3))));
    AloneInTime(cfg, k, Some(0), 0, Pulse(0, None));
    AloneInTime(cfg, k1, Some(0), 0, Pulse(0, None));
    AloneInTime(cfg, k2, Some(0), 0, Pulse(0, None));
    moves := RobbedBreaks(cfg, k2, faults);
    MoveFirst(cfg, k1, Protocol(Execute(Publish("q", 1, 0, 0, 3))), moves, faults);
    moves := [Protocol(Execute(Publish("q", 1, 0, 0, 3)))] + moves;
    MoveFirst(cfg, k, Protocol(Execute(Reset)), moves, faults);
    moves := [Protocol(Execute(Reset))] + moves;
  }

  /** With a reset while a message is held, the reply arrives at once and the reset follows; without, it arrives as
    late as it may. */
  lemma ClaimedBreaks(cfg: Config, k: Cluster, faults: Faults) returns (moves: seq<Move>)
    requires IsAlone(cfg, k, None, 0, Pulse(0, None)) && IsClaimed(k) && k.w.quiet == map[]
    requires 0 <= cfg.period && 0 <= cfg.duration && 0 <= cfg.reply && 0 <= cfg.grace
    requires faults.resets || IsTooShort(cfg, faults)
    ensures Breaks(cfg, k, moves, faults)
  {
    if faults.resets {
      AloneInTime(cfg, k, None, 0, Pulse(0, None));
      HearAlone(cfg, k, 0, Pulse(0, None));
      moves := RestartBreaks(cfg, Advance(cfg, k, Protocol(HearClaim("c"))), faults);
      MoveFirst(cfg, k, Protocol(HearClaim("c")), moves, faults);
      moves := [Protocol(HearClaim("c"))] + moves;
    } else {
      moves := FirstBeatBreaks(cfg, k, faults);
    }
  }

  /** Two consumers handle one message in some run that keeps time, if the timeout is too short; and, whatever the
    timeout, if there may be resets while a message is held. */
  lemma FaultBreaks(cfg: Config, faults: Faults) returns (moves: seq<Move>)
    requires 0 <= cfg.period && 0 <= cfg.duration && 0 <= cfg.reply && 0 <= cfg.grace
    requires faults.resets || IsTooShort(cfg, faults)
    ensures Breaks(cfg, IDLE, moves, faults)
  {
    var k1, k2, k3 := Prepare(cfg);
    ClaimAlone(cfg, k3);
    var k4 := Advance(cfg, k3, Protocol(Loop("c", 0)));
    QuietInTime(cfg, k4);
    moves := ClaimedBreaks(cfg, Advance(cfg, k4, Protocol(RunClaim("c", Some(1)))), faults);
    MoveFirst(cfg, k4, Protocol(RunClaim("c", Some(1))), moves, faults);
    moves := [Protocol(RunClaim("c", Some(1)))] + moves;
    QuietInTime(cfg, k3);
    MoveFirst(cfg, k3, Protocol(Loop("c", 0)), moves, faults);
    moves := [Protocol(Loop("c", 0))] + moves;
    QuietInTime(cfg, k2);
    MoveFirst(cfg, k2, Protocol(Execute(Publish("q", 1, 0, 0, 3))), moves, faults);
    moves := [Protocol(Execute(Publish("q", 1, 0, 0, 3)))] + moves;
    QuietInTime(cfg, k1);
    MoveFirst(cfg, k1, Protocol(Begin("c", "q")), moves, faults);
    moves := [Protocol(Begin("c", "q"))] + moves;
    QuietInTime(cfg, IDLE);
    MoveFirst(cfg, IDLE, Register(cfg.home("c")), moves, faults);
    moves := [Register(cfg.home("c"))] + moves;
  }
}
