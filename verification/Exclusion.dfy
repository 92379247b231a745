/** Exactly how large the visibility timeout has to be for mutual exclusion.

  Cluster shows that the time between two heartbeats, the duration of a heartbeat and the longest reply to a claim
  together are enough, with the grace period added when workers shut down or consumers are killed, as long as
  nobody resets the queue while a message is held. ShortTimeout has a run that breaks it for anything less. */
module Exclusion {
  import opened Cluster
  import opened ShortTimeout

  /** Every run that keeps time and has only these faults is exclusive. */
  ghost predicate AlwaysExclusive(cfg: Config, faults: Faults)
  {
    forall moves | IsCourse(cfg, IDLE, moves) && BeatsInTime(cfg, IDLE, moves) ::
      (HasOnly(cfg, IDLE, moves, faults) ==> IsExclusive(AfterMoves(cfg, IDLE, moves).w))
  }

  /** Mutual exclusion holds in every run that keeps time if and only if there are no resets while a message is held
    and the visibility timeout is at least the time between heartbeats, plus the duration of a heartbeat, plus the
    longest reply to a claim; and if workers may shut down or consumers be killed, plus the grace period. */
  lemma ExclusiveIff(cfg: Config, faults: Faults)
    requires 0 <= cfg.period && 0 <= cfg.duration && 0 <= cfg.reply && 0 <= cfg.grace
    ensures AlwaysExclusive(cfg, faults) <==>
      && !faults.resets
      && cfg.period + cfg.duration + cfg.reply + (if faults.stops then cfg.grace else 0) <= cfg.timeout
  {
    if faults.resets || IsTooShort(cfg, faults) {
      var moves := FaultBreaks(cfg, faults);
      assert !IsExclusive(AfterMoves(cfg, IDLE, moves).w);
    } else {
      forall moves | IsCourse(cfg, IDLE, moves) && BeatsInTime(cfg, IDLE, moves)
        ensures HasOnly(cfg, IDLE, moves, faults) ==> IsExclusive(AfterMoves(cfg, IDLE, moves).w)
      {
        if HasOnly(cfg, IDLE, moves, faults) {
          HeartbeatsExclude(cfg, moves);
        }
      }
    }
  }
}
