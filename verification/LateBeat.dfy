/** An instance of Deadline.RecoveredInTimeIff, for every configuration: a heartbeat has taken its snapshot right
  before a kill, so that a timely continuation leaves the killed consumer its message past the deadline. */
module LateBeat {
  import opened Prelude
  import opened Messages
  import opened Leases
  import opened Cluster
  import opened Deadline
  import opened ShortTimeout

  /** A snapshot right before the kill. */
  lemma SnapshotThenKill(cfg: Config, k: Cluster)
    requires IsAlone(cfg, k, Some(0), 0, Pulse(0, None)) && IsClaimed(k) && k.w.quiet == map[] && k.lastPass == 0
    requires 0 <= cfg.timeout && 1 <= cfg.passes && 1 <= cfg.duration
    ensures CanMove(cfg, k, StartBeat(cfg.home("c"), {(1, "c")}))
    ensures var beat := Advance(cfg, k, StartBeat(cfg.home("c"), {(1, "c")}));
      && CanMove(cfg, beat, Protocol(Cancel("c")))
      && var killed := Advance(cfg, beat, Protocol(Cancel("c")));
         OnTime(cfg, killed) && CanOutstay(cfg, killed, "c")
  {
    StartAlone(cfg, k, Some(0), 0, 0, {(1, "c")});
    var beat := Advance(cfg, k, StartBeat(cfg.home("c"), {(1, "c")}));
    assert IsListed(cfg, Advance(cfg, beat, Protocol(Cancel("c"))), "c", 1);
  }

  /** A worker, a consumer, a message, its claim and its reply, all at time 0. */
  lemma ClaimAndHear(cfg: Config) returns (moves: seq<Move>, k: Cluster)
    ensures IsCourse(cfg, IDLE, moves) && k == AfterMoves(cfg, IDLE, moves)
    ensures IsAlone(cfg, k, Some(0), 0, Pulse(0, None)) && IsClaimed(k) && k.w.quiet == map[] && k.lastPass == 0
  {
    var k1, k2, k3 := Prepare(cfg);
    ClaimAlone(cfg, k3);
    var k4 := Advance(cfg, k3, Protocol(Loop("c", 0)));
    var k5 := Advance(cfg, k4, Protocol(RunClaim("c", Some(1))));
    HearAlone(cfg, k5, 0, Pulse(0, None));
    k := Advance(cfg, k5, Protocol(HearClaim("c")));
    MoveBefore(cfg, k5, Protocol(HearClaim("c")), []);
    moves := [Protocol(HearClaim("c"))] + [];
    MoveBefore(cfg, k4, Protocol(RunClaim("c", Some(1))), moves);
    moves := [Protocol(RunClaim("c", Some(1)))] + moves;
    MoveBefore(cfg, k3, Protocol(Loop("c", 0)), moves);
    moves := [Protocol(Loop("c", 0))] + moves;
    MoveBefore(cfg, k2, Protocol(Execute(Publish("q", 1, 0, 0, 3))), moves);
    moves := [Protocol(Execute(Publish("q", 1, 0, 0, 3)))] + moves;
    MoveBefore(cfg, k1, Protocol(Begin("c", "q")), moves);
    moves := [Protocol(Begin("c", "q"))] + moves;
    MoveBefore(cfg, IDLE, Register(cfg.home("c")), moves);
    moves := [Register(cfg.home("c"))] + moves;
  }

  lemma {:induction false} CourseThenMove(cfg: Config, k: Cluster, moves: seq<Move>, m: Move)
    requires IsCourse(cfg, k, moves) && CanMove(cfg, AfterMoves(cfg, k, moves), m)
    ensures IsCourse(cfg, k, moves + [m])
    ensures AfterMoves(cfg, k, moves + [m]) == Advance(cfg, AfterMoves(cfg, k, moves), m)
    decreases |moves|
  {
    if moves == [] {
      MoveBefore(cfg, k, m, []);
      assert [] + [m] == [m] + [];
    } else {
      assert (moves + [m])[1..] == moves[1..] + [m];
      CourseThenMove(cfg, Advance(cfg, k, moves[0]), moves[1..], m);
    }
  }

  /** All heartbeats and passes are in time, and after more than the timeout and the time between two passes the
    killed consumer still has its message. */
  lemma LateBeatKeepsLease(cfg: Config) returns (before: seq<Move>, after: seq<Move>)
    requires 0 <= cfg.timeout && 1 <= cfg.passes && 1 <= cfg.duration
    ensures IsCourse(cfg, IDLE, before)
    ensures CanMove(cfg, AfterMoves(cfg, IDLE, before), Protocol(Cancel("c")))
    ensures var k := Advance(cfg, AfterMoves(cfg, IDLE, before), Protocol(Cancel("c")));
      && IsCourse(cfg, k, after) && ReapsInTime(cfg, k, after)
      && k.w.l.db.now + cfg.timeout + cfg.passes < AfterMoves(cfg, k, after).w.l.db.now
      && !HoldsNothing(AfterMoves(cfg, k, after).w.l.db, "c")
  {
    var k;
    before, k := ClaimAndHear(cfg);
    SnapshotThenKill(cfg, k);
    CourseThenMove(cfg, IDLE, before, StartBeat(cfg.home("c"), {(1, "c")}));
    before := before + [StartBeat(cfg.home("c"), {(1, "c")})];
    RecoveredInTimeIff(cfg, before, "c");
    var killed := Advance(cfg, AfterMoves(cfg, IDLE, before), Protocol(Cancel("c")));
    after :| IsCourse(cfg, killed, after) && ReapsInTime(cfg, killed, after)
      && killed.w.l.db.now + cfg.timeout + cfg.passes < AfterMoves(cfg, killed, after).w.l.db.now
      && !HoldsNothing(AfterMoves(cfg, killed, after).w.l.db, "c");
  }
}
