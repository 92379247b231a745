/** How long what a killed consumer held can stay with it.

  The message has left the killed consumer within the visibility timeout and the time between two effective
  reaper passes, unless a heartbeat in flight at the kill renews its lease later. Both halves are proved: when
  there is no such heartbeat, every timely continuation of the kill meets the deadline; when there is, some
  timely continuation misses it. */
module Deadline {
  import opened Prelude
  import opened Messages
  import opened Leases
  import opened Recovery
  import opened Cluster

  /** Heartbeats in flight are no longer than their duration, and the last effective pass is recent. */
  ghost predicate OnTime(cfg: Config, k: Cluster)
  {
    BeatsAreShort(cfg, k) && k.w.l.db.now - k.lastPass <= cfg.passes
  }

  ghost predicate ReapsInTime(cfg: Config, k: Cluster, moves: seq<Move>)
    requires IsCourse(cfg, k, moves)
    decreases |moves|
  {
    OnTime(cfg, k) && (moves == [] || ReapsInTime(cfg, Advance(cfg, k, moves[0]), moves[1..]))
  }

  predicate HoldsNothing(db: Db, c: ConsumerId)
  {
    forall id :: id in db.rows ==> !IsHeldBy(db.rows[id], c)
  }

  // ----- the deadline ------------------------------------------------------------------------------

  /** The heartbeat in flight at c's worker lists a lease that c still has in the table. */
  predicate IsListed(cfg: Config, k: Cluster, c: ConsumerId, id: int)
  {
    && InFlight(k, cfg.home(c)) && (id, c) in k.pulses[cfg.home(c)].inFlight.value.leases
    && OwnsRow(k.w, c, id)
  }

  predicate LeaseIsOlder(k: Cluster, c: ConsumerId, id: int, until: Time)
  {
    OwnsRow(k.w, c, id) && k.w.l.db.rows[id].lockedAt.Some? ==> k.w.l.db.rows[id].lockedAt.value <= until
  }

  /** The lease has expired and the next pass is due right now. */
  predicate IsDueNow(cfg: Config, k: Cluster, id: int, until: Time)
  {
    && k.w.l.db.now <= until
    && id in k.w.l.db.rows && IsExpired(k.w.l.db.rows[id], k.w.l.db.now, cfg.timeout)
    && cfg.passes <= k.w.l.db.now - k.lastPass
  }

  /** Message `id` has no lease of `c` from after `until`, and the heartbeat in flight cannot renew it later: it
    commits by then, or the lease is reaped before time goes on. */
  predicate IsContained(cfg: Config, k: Cluster, c: ConsumerId, id: int, until: Time)
  {
    && LeaseIsOlder(k, c, id, until)
    && (IsListed(cfg, k, c, id) ==>
          || k.pulses[cfg.home(c)].inFlight.value.start + cfg.duration <= until
          || IsDueNow(cfg, k, id, until))
  }

  predicate HasEnded(k: Cluster, c: ConsumerId) { c in k.w.tasks && k.w.tasks[c].phase.Ended? }

  /** No statement but its own claim gives a consumer a lease, and only a renewal changes the time of one. */
  lemma StatementGivesNoLease(db: Db, op: Op, c: ConsumerId, id: int)
    requires op.Claim? ==> op.consumer != c
    ensures var next := Apply(db, op);
      && (id in next.rows && IsHeldBy(next.rows[id], c) ==> id in db.rows && IsHeldBy(db.rows[id], c))
      && (id in next.rows && IsHeldBy(next.rows[id], c) && !(op.Renew? && (id, c) in op.leases) ==>
            id in db.rows && next.rows[id] == db.rows[id])
      && db.now <= next.now
  {
  }

  /** So an ended consumer gets no lease, and keeps its leases' times unless they are renewed. */
  lemma StepGivesNoLease(w: World, e: Event, c: ConsumerId, id: int)
    requires CanStep(w, e) && c in w.tasks && w.tasks[c].phase.Ended?
    ensures var next := Step(w, e);
      && c in next.tasks && next.tasks[c].phase.Ended?
      && (OwnsRow(next, c, id) ==> OwnsRow(w, c, id))
      && (OwnsRow(next, c, id) && !(e.Execute? && e.op.Renew? && (id, c) in e.op.leases) ==>
            next.l.db.rows[id] == w.l.db.rows[id])
      && w.l.db.now <= next.l.db.now
  {
    if StatementOf(w, e).Some? {
      StatementGivesNoLease(w.l.db, StatementOf(w, e).value, c, id);
    }
  }

  lemma MoveKeepsListed(cfg: Config, k: Cluster, m: Move, c: ConsumerId, id: int)
    requires ValidCluster(cfg, k) && CanMove(cfg, k, m) && HasEnded(k, c)
    requires IsListed(cfg, Advance(cfg, k, m), c, id)
    ensures IsListed(cfg, k, c, id)
    ensures Advance(cfg, k, m).pulses[cfg.home(c)] == k.pulses[cfg.home(c)]
    ensures Advance(cfg, k, m).w.l.db.rows[id] == k.w.l.db.rows[id]
  {
    assert HeldMatchesTask(k.w, c);
    if Inner(k, m).Some? {
      StepGivesNoLease(k.w, Inner(k, m).value, c, id);
    }
    if m.CommitBeat? {
      assert PulseIsPast(cfg, k, m.worker);
    }
  }

  lemma MoveKeepsOlder(cfg: Config, k: Cluster, m: Move, c: ConsumerId, id: int, until: Time)
    requires ValidCluster(cfg, k) && CanMove(cfg, k, m) && BeatsAreShort(cfg, k) && HasEnded(k, c)
    requires IsContained(cfg, k, c, id, until)
    ensures HasEnded(Advance(cfg, k, m), c) && LeaseIsOlder(Advance(cfg, k, m), c, id, until)
  {
    match Inner(k, m)
    case Some(e) =>
      StepGivesNoLease(k.w, e, c, id);
      if m.CommitBeat? {
        assert InFlight(k, m.worker) && PulseIsPast(cfg, k, m.worker);
      }
    case None =>
  }

  lemma MoveKeepsContained(cfg: Config, k: Cluster, m: Move, c: ConsumerId, id: int, until: Time)
    requires ValidCluster(cfg, k) && CanMove(cfg, k, m) && HasEnded(k, c)
    requires BeatsAreShort(cfg, k) && OnTime(cfg, Advance(cfg, k, m))
    requires IsContained(cfg, k, c, id, until)
    ensures IsContained(cfg, Advance(cfg, k, m), c, id, until)
  {
    var next := Advance(cfg, k, m);
    MoveKeepsOlder(cfg, k, m, c, id, until);
    if IsListed(cfg, next, c, id) {
      MoveKeepsListed(cfg, k, m, c, id);
      if IsDueNow(cfg, k, id, until) {
      }
    }
  }

  lemma MoveKeepsFresh(cfg: Config, k: Cluster, m: Move)
    requires ValidCluster(cfg, k) && CanMove(cfg, k, m) && 0 <= cfg.timeout
    requires LeasesFresh(k.w.l.db, cfg.timeout, k.lastPass) && k.lastPass <= k.w.l.db.now
    ensures var next := Advance(cfg, k, m);
      LeasesFresh(next.w.l.db, cfg.timeout, next.lastPass) && next.lastPass <= next.w.l.db.now
  {
    if Inner(k, m).Some? && StatementOf(k.w, Inner(k, m).value).Some? {
      ApplyKeepsLeasesFresh(k.w.l.db, StatementOf(k.w, Inner(k, m).value).value, cfg.timeout, k.lastPass);
    }
  }

  lemma {:induction false} CourseKeepsFresh(cfg: Config, k: Cluster, moves: seq<Move>)
    requires ValidCluster(cfg, k) && IsCourse(cfg, k, moves) && 0 <= cfg.timeout
    requires LeasesFresh(k.w.l.db, cfg.timeout, k.lastPass) && k.lastPass <= k.w.l.db.now
    ensures var end := AfterMoves(cfg, k, moves);
      LeasesFresh(end.w.l.db, cfg.timeout, end.lastPass) && end.lastPass <= end.w.l.db.now
    decreases |moves|
  {
    if moves != [] {
      MoveKeepsValid(cfg, k, moves[0]);
      MoveKeepsFresh(cfg, k, moves[0]);
      CourseKeepsFresh(cfg, Advance(cfg, k, moves[0]), moves[1..]);
    }
  }

  lemma {:induction false} CourseKeepsContained(cfg: Config, k: Cluster, moves: seq<Move>, c: ConsumerId, until: Time)
    requires ValidCluster(cfg, k) && IsCourse(cfg, k, moves) && ReapsInTime(cfg, k, moves) && HasEnded(k, c)
    requires forall id :: IsContained(cfg, k, c, id, until)
    ensures forall id :: IsContained(cfg, AfterMoves(cfg, k, moves), c, id, until)
    ensures OnTime(cfg, AfterMoves(cfg, k, moves))
    decreases |moves|
  {
    if moves != [] {
      var next := Advance(cfg, k, moves[0]);
      MoveKeepsValid(cfg, k, moves[0]);
      assert OnTime(cfg, next);
      MoveKeepsOlder(cfg, k, moves[0], c, 0, until);
      forall id ensures IsContained(cfg, next, c, id, until) {
        MoveKeepsContained(cfg, k, moves[0], c, id, until);
      }
      CourseKeepsContained(cfg, next, moves[1..], c, until);
    }
  }

  /** A state right after the cancellation of `c`, in a course from the start. */
  ghost predicate IsKill(cfg: Config, k: Cluster, c: ConsumerId)
  {
    && ValidCluster(cfg, k) && HasEnded(k, c)
    && LeasesFresh(k.w.l.db, cfg.timeout, k.lastPass) && k.lastPass <= k.w.l.db.now
  }

  lemma CancelIsKill(cfg: Config, moves: seq<Move>, c: ConsumerId)
    requires IsCourse(cfg, IDLE, moves) && 0 <= cfg.timeout
    requires CanMove(cfg, AfterMoves(cfg, IDLE, moves), Protocol(Cancel(c)))
    ensures IsKill(cfg, Advance(cfg, AfterMoves(cfg, IDLE, moves), Protocol(Cancel(c))), c)
  {
    IdleIsValid(cfg);
    CourseKeepsValid(cfg, IDLE, moves);
    CourseKeepsFresh(cfg, IDLE, moves);
    MoveKeepsValid(cfg, AfterMoves(cfg, IDLE, moves), Protocol(Cancel(c)));
    MoveKeepsFresh(cfg, AfterMoves(cfg, IDLE, moves), Protocol(Cancel(c)));
  }

  /** When no lease of `c` is renewed after `until`, timely passes have taken them all by the timeout and the
    time between two passes later. */
  lemma ContainedIsRecovered(cfg: Config, k: Cluster, moves: seq<Move>, c: ConsumerId, until: Time)
    requires IsKill(cfg, k, c) && IsCourse(cfg, k, moves) && ReapsInTime(cfg, k, moves) && 0 <= cfg.timeout
    requires forall id :: IsContained(cfg, k, c, id, until)
    requires until + cfg.timeout + cfg.passes < AfterMoves(cfg, k, moves).w.l.db.now
    ensures HoldsNothing(AfterMoves(cfg, k, moves).w.l.db, c)
  {
    CourseKeepsFresh(cfg, k, moves);
    CourseKeepsContained(cfg, k, moves, c, until);
    CourseKeepsValid(cfg, k, moves);
    var end := AfterMoves(cfg, k, moves);
    forall id | id in end.w.l.db.rows ensures !IsHeldBy(end.w.l.db.rows[id], c) {
      assert IsContained(cfg, end, c, id, until) && ValidRow(end.w.l.db.rows[id], end.w.l.db.now);
    }
  }

  /** How long the heartbeat in flight can still renew a lease that `c` has. */
  ghost function Leftover(cfg: Config, k: Cluster, c: ConsumerId): Time
  {
    if exists id :: IsListed(cfg, k, c, id) then
      Max(0, k.pulses[cfg.home(c)].inFlight.value.start + cfg.duration - k.w.l.db.now)
    else 0
  }

  /** Once a consumer is cancelled at time t, it holds no message any more after t + visibility timeout + R, when
    effective reaper passes are at most R apart; if a heartbeat in flight lists a lease it has, after what is
    left of that heartbeat's duration more. That it claims nothing and is not renewed any more is not assumed. */
  lemma KilledIsRecovered(cfg: Config, before: seq<Move>, after: seq<Move>, c: ConsumerId)
    requires IsCourse(cfg, IDLE, before) && 0 <= cfg.timeout
    requires CanMove(cfg, AfterMoves(cfg, IDLE, before), Protocol(Cancel(c)))
    requires var k := Advance(cfg, AfterMoves(cfg, IDLE, before), Protocol(Cancel(c)));
      && IsCourse(cfg, k, after) && ReapsInTime(cfg, k, after)
      && k.w.l.db.now + Leftover(cfg, k, c) + cfg.timeout + cfg.passes < AfterMoves(cfg, k, after).w.l.db.now
    ensures var k := Advance(cfg, AfterMoves(cfg, IDLE, before), Protocol(Cancel(c)));
      HoldsNothing(AfterMoves(cfg, k, after).w.l.db, c)
  {
    CancelIsKill(cfg, before, c);
    var k := Advance(cfg, AfterMoves(cfg, IDLE, before), Protocol(Cancel(c)));
    var until := k.w.l.db.now + Leftover(cfg, k, c);
    forall id ensures IsContained(cfg, k, c, id, until) { LeasesArePast(k, c, id); }
    ContainedIsRecovered(cfg, k, after, c, until);
  }

  lemma LeasesArePast(k: Cluster, c: ConsumerId, id: int)
    requires Valid(k.w.l.db)
    ensures LeaseIsOlder(k, c, id, k.w.l.db.now)
  {
    assert id in k.w.l.db.rows ==> ValidRow(k.w.l.db.rows[id], k.w.l.db.now);
  }

  // ----- missing it --------------------------------------------------------------------------------

  /** A heartbeat in flight can renew a lease of `c` later than now: it lists one that `c` has, it need not have
    committed by now, and the lease need not be reaped now. */
  ghost predicate CanOutstay(cfg: Config, k: Cluster, c: ConsumerId)
  {
    && InFlight(k, cfg.home(c)) && k.w.l.db.now < k.pulses[cfg.home(c)].inFlight.value.start + cfg.duration
    && exists id :: IsListed(cfg, k, c, id) && !IsDueNow(cfg, k, id, k.w.l.db.now)
  }

  /** Timely moves after which `c` still has message `id`, later than `deadline`. */
  ghost predicate Outstays(cfg: Config, k: Cluster, moves: seq<Move>, c: ConsumerId, id: int, deadline: Time)
  {
    && IsCourse(cfg, k, moves) && ReapsInTime(cfg, k, moves)
    && deadline < AfterMoves(cfg, k, moves).w.l.db.now
    && OwnsRow(AfterMoves(cfg, k, moves).w, c, id)
  }

  lemma MoveFirst(cfg: Config, k: Cluster, m: Move, rest: seq<Move>, c: ConsumerId, id: int, deadline: Time)
    requires CanMove(cfg, k, m) && OnTime(cfg, k) && Outstays(cfg, Advance(cfg, k, m), rest, c, id, deadline)
    ensures Outstays(cfg, k, [m] + rest, c, id, deadline)
  {
    assert ([m] + rest)[1..] == rest;
  }

  /** `c` has message `id` with a lease of time `since`. */
  predicate HasLease(k: Cluster, c: ConsumerId, id: int, since: Time)
  {
    OwnsRow(k.w, c, id) && k.w.l.db.rows[id].lockedAt == Some(since)
  }

  predicate NoBeats(k: Cluster) { forall worker :: worker in k.pulses ==> !InFlight(k, worker) }

  function Wait(d: nat): Move { Protocol(Execute(Elapse(d))) }

  function Pass(cfg: Config): Move { Protocol(Execute(Reap(cfg.timeout, {}))) }

  lemma PassKeepsLease(cfg: Config, k: Cluster, c: ConsumerId, id: int, since: Time)
    requires HasLease(k, c, id, since) && k.w.l.db.now - cfg.timeout <= since
    ensures var next := Advance(cfg, k, Pass(cfg));
      && HasLease(next, c, id, since)
      && next.w.l.db.now == next.lastPass == k.w.l.db.now && next.pulses == k.pulses
  {
  }

  lemma WaitOut(cfg: Config, k: Cluster, c: ConsumerId, id: int, since: Time) returns (moves: seq<Move>)
    requires NoBeats(k) && HasLease(k, c, id, since) && 1 <= cfg.passes && k.lastPass == k.w.l.db.now
    ensures Outstays(cfg, k, moves, c, id, k.w.l.db.now + cfg.passes - 1)
  {
    var end := Advance(cfg, k, Wait(cfg.passes));
    assert Outstays(cfg, end, [], c, id, k.w.l.db.now + cfg.passes - 1);
    MoveFirst(cfg, k, Wait(cfg.passes), [], c, id, k.w.l.db.now + cfg.passes - 1);
    moves := [Wait(cfg.passes)] + [];
  }

  /** With a pass every tick the lease lasts until it is exactly the timeout old, and then until the next pass. */
  lemma {:induction false} OutlastPasses(cfg: Config, k: Cluster, c: ConsumerId, id: int, since: Time)
    returns (moves: seq<Move>)
    requires NoBeats(k) && HasLease(k, c, id, since) && 1 <= cfg.passes
    requires k.lastPass <= k.w.l.db.now <= k.lastPass + cfg.passes && k.w.l.db.now <= since + cfg.timeout
    ensures Outstays(cfg, k, moves, c, id, since + cfg.timeout + cfg.passes - 1)
    decreases since + cfg.timeout - k.w.l.db.now
  {
    var deadline := since + cfg.timeout + cfg.passes - 1;
    var passed := Advance(cfg, k, Pass(cfg));
    PassKeepsLease(cfg, k, c, id, since);
    if k.w.l.db.now == since + cfg.timeout {
      moves := WaitOut(cfg, passed, c, id, since);
    } else {
      moves := OutlastPasses(cfg, Advance(cfg, passed, Wait(1)), c, id, since);
      MoveFirst(cfg, passed, Wait(1), moves, c, id, deadline);
      moves := [Wait(1)] + moves;
    }
    MoveFirst(cfg, k, Pass(cfg), moves, c, id, deadline);
    moves := [Pass(cfg)] + moves;
  }

  /** Only the heartbeat of `worker` may be in flight. */
  predicate OnlyBeat(k: Cluster, worker: string)
  {
    forall other :: other in k.pulses && other != worker ==> !InFlight(k, other)
  }

  /** Let the heartbeat commit, and outlast the passes. */
  lemma CommitAndOutlast(cfg: Config, k: Cluster, c: ConsumerId, id: int) returns (moves: seq<Move>)
    requires IsListed(cfg, k, c, id) && OnlyBeat(k, cfg.home(c)) && OnTime(cfg, k)
    requires k.lastPass <= k.w.l.db.now && 0 <= cfg.timeout && 1 <= cfg.passes
    ensures Outstays(cfg, k, moves, c, id, k.w.l.db.now + cfg.timeout + cfg.passes - 1)
  {
    moves := OutlastPasses(cfg, Advance(cfg, k, CommitBeat(cfg.home(c))), c, id, k.w.l.db.now);
    MoveFirst(cfg, k, CommitBeat(cfg.home(c)), moves, c, id, k.w.l.db.now + cfg.timeout + cfg.passes - 1);
    moves := [CommitBeat(cfg.home(c))] + moves;
  }

  /** Wait a tick first. */
  lemma RenewLate(cfg: Config, k: Cluster, c: ConsumerId, id: int) returns (moves: seq<Move>)
    requires IsListed(cfg, k, c, id) && OnlyBeat(k, cfg.home(c)) && ValidCluster(cfg, k)
    requires OnTime(cfg, k) && k.w.l.db.now < k.pulses[cfg.home(c)].inFlight.value.start + cfg.duration
    requires k.lastPass <= k.w.l.db.now < k.lastPass + cfg.passes && 0 <= cfg.timeout
    ensures Outstays(cfg, k, moves, c, id, k.w.l.db.now + cfg.timeout + cfg.passes)
  {
    assert ValidRow(k.w.l.db.rows[id], k.w.l.db.now);
    moves := CommitAndOutlast(cfg, Advance(cfg, k, Wait(1)), c, id);
    MoveFirst(cfg, k, Wait(1), moves, c, id, k.w.l.db.now + cfg.timeout + cfg.passes);
    moves := [Wait(1)] + moves;
  }

  /** Unless the lease is due now, there is time to wait a tick, perhaps after a pass that does not take it. */
  lemma PassAndRenewLate(cfg: Config, k: Cluster, c: ConsumerId, id: int) returns (moves: seq<Move>)
    requires IsListed(cfg, k, c, id) && OnlyBeat(k, cfg.home(c)) && ValidCluster(cfg, k)
    requires OnTime(cfg, k) && k.w.l.db.now < k.pulses[cfg.home(c)].inFlight.value.start + cfg.duration
    requires k.lastPass <= k.w.l.db.now && 0 <= cfg.timeout && 1 <= cfg.passes
    requires !IsDueNow(cfg, k, id, k.w.l.db.now)
    ensures Outstays(cfg, k, moves, c, id, k.w.l.db.now + cfg.timeout + cfg.passes)
  {
    if k.w.l.db.now < k.lastPass + cfg.passes {
      moves := RenewLate(cfg, k, c, id);
    } else {
      assert ValidRow(k.w.l.db.rows[id], k.w.l.db.now);
      PassKeepsLease(cfg, k, c, id, k.w.l.db.rows[id].lockedAt.value);
      MoveKeepsValid(cfg, k, Pass(cfg));
      moves := RenewLate(cfg, Advance(cfg, k, Pass(cfg)), c, id);
      MoveFirst(cfg, k, Pass(cfg), moves, c, id, k.w.l.db.now + cfg.timeout + cfg.passes);
      moves := [Pass(cfg)] + moves;
    }
  }

  function OtherBeats(k: Cluster, worker: string): set<string>
  {
    set other | other in k.pulses && other != worker && InFlight(k, other)
  }

  /** First the heartbeats of other workers are lost. */
  lemma {:induction false} LoseAndRenewLate(cfg: Config, k: Cluster, c: ConsumerId, id: int) returns (moves: seq<Move>)
    requires IsListed(cfg, k, c, id) && ValidCluster(cfg, k)
    requires OnTime(cfg, k) && k.w.l.db.now < k.pulses[cfg.home(c)].inFlight.value.start + cfg.duration
    requires k.lastPass <= k.w.l.db.now && 0 <= cfg.timeout && 1 <= cfg.passes
    requires !IsDueNow(cfg, k, id, k.w.l.db.now)
    ensures Outstays(cfg, k, moves, c, id, k.w.l.db.now + cfg.timeout + cfg.passes)
    decreases |OtherBeats(k, cfg.home(c))|
  {
    if |OtherBeats(k, cfg.home(c))| == 0 {
      forall other | other in k.pulses && other != cfg.home(c) ensures !InFlight(k, other) {
        assert other !in OtherBeats(k, cfg.home(c));
      }
      moves := PassAndRenewLate(cfg, k, c, id);
    } else {
      var other := Choose(OtherBeats(k, cfg.home(c)));
      var next := Advance(cfg, k, LoseBeat(other));
      MoveKeepsValid(cfg, k, LoseBeat(other));
      assert OtherBeats(next, cfg.home(c)) == OtherBeats(k, cfg.home(c)) - {other};
      assert forall worker :: InFlight(next, worker) ==> InFlight(k, worker) && next.pulses[worker] == k.pulses[worker];
      moves := LoseAndRenewLate(cfg, next, c, id);
      MoveFirst(cfg, k, LoseBeat(other), moves, c, id, k.w.l.db.now + cfg.timeout + cfg.passes);
      moves := [LoseBeat(other)] + moves;
    }
  }

  // ----- exactly when ------------------------------------------------------------------------------

  /** Every timely continuation leaves `c` without a message by the timeout and the time between two passes. */
  ghost predicate AlwaysRecovered(cfg: Config, k: Cluster, c: ConsumerId)
  {
    forall moves | IsCourse(cfg, k, moves) && ReapsInTime(cfg, k, moves) ::
      (k.w.l.db.now + cfg.timeout + cfg.passes < AfterMoves(cfg, k, moves).w.l.db.now ==>
        HoldsNothing(AfterMoves(cfg, k, moves).w.l.db, c))
  }

  lemma CannotOutstayIsContained(cfg: Config, k: Cluster, c: ConsumerId, id: int)
    requires Valid(k.w.l.db) && !CanOutstay(cfg, k, c)
    ensures IsContained(cfg, k, c, id, k.w.l.db.now)
  {
    LeasesArePast(k, c, id);
  }

  /** A consumer cancelled at time t, when everything has kept time so far, has lost its message by t + visibility
    timeout + R in every timely continuation, if and only if no heartbeat in flight can renew its lease later
    than t: none lists a lease that it still has, or it has to commit now, or the lease is reaped now. */
  lemma RecoveredInTimeIff(cfg: Config, before: seq<Move>, c: ConsumerId)
    requires IsCourse(cfg, IDLE, before) && 0 <= cfg.timeout && 1 <= cfg.passes
    requires CanMove(cfg, AfterMoves(cfg, IDLE, before), Protocol(Cancel(c)))
    requires OnTime(cfg, Advance(cfg, AfterMoves(cfg, IDLE, before), Protocol(Cancel(c))))
    ensures var k := Advance(cfg, AfterMoves(cfg, IDLE, before), Protocol(Cancel(c)));
      AlwaysRecovered(cfg, k, c) <==> !CanOutstay(cfg, k, c)
  {
    CancelIsKill(cfg, before, c);
    var k := Advance(cfg, AfterMoves(cfg, IDLE, before), Protocol(Cancel(c)));
    if CanOutstay(cfg, k, c) {
      var id :| IsListed(cfg, k, c, id) && !IsDueNow(cfg, k, id, k.w.l.db.now);
      var moves := LoseAndRenewLate(cfg, k, c, id);
      assert !HoldsNothing(AfterMoves(cfg, k, moves).w.l.db, c);
    } else {
      forall id ensures IsContained(cfg, k, c, id, k.w.l.db.now) { CannotOutstayIsContained(cfg, k, c, id); }
      forall moves | IsCourse(cfg, k, moves) && ReapsInTime(cfg, k, moves)
        && k.w.l.db.now + cfg.timeout + cfg.passes < AfterMoves(cfg, k, moves).w.l.db.now
        ensures HoldsNothing(AfterMoves(cfg, k, moves).w.l.db, c)
      {
        ContainedIsRecovered(cfg, k, moves, c, k.w.l.db.now);
      }
    }
  }
}
