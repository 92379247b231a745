/** Retry spacing: how far apart two claims of the same message are, and how long a message that is
  always nacked stays alive. */
module Retries {
  import opened Prelude
  import opened Messages
  import opened History

  /** Two claims of `id` with neither a claim nor a restart of it in between. */
  ghost predicate Consecutive(log: seq<Entry>, i: nat, j: nat, id: int)
  {
    i < j < |log| && Claims(log[i], id) && Claims(log[j], id) && Quiet(log, id, i, j)
  }

  /** What closing entry `m`, which ended the claim at `i`, says about the earliest time `at` of the next
    claim: backoff after a nack, more than the visibility timeout after a reap, none after an ack. */
  predicate AllowsClaimAt(log: seq<Entry>, i: nat, m: nat, timeout: Time, at: Time)
    requires i < |log| && m < |log| && log[i].ClaimEntry? && log[m].CloseEntry?
  {
    match log[m].how
    case ByNack => log[i].at + Backoff(log[i].attempt) <= at
    case ByReap => log[i].at + timeout < at
    case ByAck => false
  }

  /** The claim at `j` is correctly spaced from the one before it. */
  ghost predicate SpacedFrom(log: seq<Entry>, i: nat, j: nat, id: int, timeout: Time)
  {
    Consecutive(log, i, j, id) ==>
      && log[j].attempt == log[i].attempt + 1
      && log[i].at <= log[j].at
      && (exists m :: i < m < j && Closes(log[m], id, i))
      && (forall m :: i < m < j && Closes(log[m], id, i) ==> AllowsClaimAt(log, i, m, timeout, log[j].at))
  }

  /** A pending message waits until the release of its latest claim allows the next one; a dead one died
    no earlier than its latest claim. */
  ghost predicate Released(l: Ledger, id: int, timeout: Time)
    requires LastIsLatest(l, id)
  {
    id in l.last ==>
      && (l.db.rows[id].status.Pending? ==>
            forall m :: l.last[id] < m < |l.log| && Closes(l.log[m], id, l.last[id]) ==>
              AllowsClaimAt(l.log, l.last[id], m, timeout, Max(l.db.rows[id].availableAt, l.db.now)))
      && (l.db.rows[id].status.Dead? && l.db.rows[id].finishedAt.Some? ==>
            l.log[l.last[id]].at <= l.db.rows[id].finishedAt.value)
  }

  /** Every reaper uses the configured visibility timeout. */
  predicate UsesTimeout(op: Op, timeout: Time) { op.Reap? ==> op.timeout == timeout }

  ghost predicate Spaced(l: Ledger, timeout: Time)
    requires ValidLedger(l)
  {
    && (forall id :: LastIsLatest(l, id) && Released(l, id, timeout))
    && (forall i: nat, j: nat, id :: SpacedFrom(l.log, i, j, id, timeout))
  }

  lemma {:induction false} UnrestartedClaimCounts(log: seq<Entry>, id: int, i: nat)
    requires i < |log| && Claims(log[i], id)
    requires forall j :: i < j < |log| ==> !Restarts(log[j], id)
    ensures 1 <= ClaimsSinceStart(log, id)
    decreases |log|
  {
    if i < |log| - 1 {
      UnrestartedClaimCounts(log[..|log| - 1], id, i);
    }
  }

  predicate Touches(l: Ledger, op: Op, id: int)
  {
    id in l.db.rows && Selects(op, id, l.db.rows[id], l.db.now)
  }

  /** A nack releases its message for when the backoff is over, or for good. */
  lemma NackReleases(l: Ledger, op: Op, id: int, timeout: Time)
    requires Valid(l.db) && op.Nack? && Touches(l, op, id)
    requires LastIsLatest(l, id) && LeaseIsOpen(l, id)
    requires LastIsLatest(Record(l, op), id)
    ensures Released(Record(l, op), id, timeout)
  {
    assert ValidRow(l.db.rows[id], l.db.now);
  }

  /** A reap releases its message no sooner than the visibility timeout after its claim. */
  lemma ReapReleases(l: Ledger, op: Op, id: int, timeout: Time)
    requires Valid(l.db) && op.Reap? && op.timeout == timeout && Touches(l, op, id)
    requires LastIsLatest(l, id) && LeaseIsOpen(l, id)
    requires LastIsLatest(Record(l, op), id)
    ensures Released(Record(l, op), id, timeout)
  {
    assert ValidRow(l.db.rows[id], l.db.now);
  }

  /** A message no statement touches stays as released as it was. */
  lemma UntouchedStaysReleased(l: Ledger, op: Op, id: int, timeout: Time)
    requires Valid(l.db) && Enabled(l.db, op) && (!Touches(l, op, id) || op.Renew?)
    requires LastIsLatest(l, id) && Released(l, id, timeout)
    requires LastIsLatest(Record(l, op), id)
    ensures Released(Record(l, op), id, timeout)
  {
    var m := Record(l, op);
    if id in m.last {
      assert id in l.last && m.last[id] == l.last[id];
      assert m.db.rows[id].status == l.db.rows[id].status && m.db.rows[id].availableAt == l.db.rows[id].availableAt;
      forall k | m.last[id] < k < |m.log| && Closes(m.log[k], id, m.last[id]) ensures k < |l.log| {
        assert k == |l.log| ==> id !in ClosedBy(l, op);
      }
    }
  }

  lemma RecordKeepsReleased(l: Ledger, op: Op, id: int, timeout: Time)
    requires Valid(l.db) && Enabled(l.db, op) && UsesTimeout(op, timeout)
    requires LastIsLatest(l, id) && LeaseIsOpen(l, id) && Released(l, id, timeout)
    ensures LastIsLatest(Record(l, op), id) && Released(Record(l, op), id, timeout)
  {
    RecordKeepsLast(l, op, id);
    if !Touches(l, op, id) || op.Renew? {
      UntouchedStaysReleased(l, op, id, timeout);
    } else if op.Nack? {
      NackReleases(l, op, id, timeout);
    } else if op.Reap? {
      ReapReleases(l, op, id, timeout);
    } else {
    }
  }

  /** The claim before a new claim of `id` is the one `last` points at. */
  lemma PreviousIsLast(l: Ledger, id: int, i: nat)
    requires ValidLedger(l) && id in l.db.rows
    requires i < |l.log| && Claims(l.log[i], id) && Quiet(l.log, id, i, |l.log|)
    ensures id in l.last && l.last[id] == i
  {
    UnrestartedClaimCounts(l.log, id, i);
    assert AttemptsCountClaims(l, id) && LastIsLatest(l, id);
  }

  lemma RecordKeepsSpacing(l: Ledger, op: Op, i: nat, j: nat, id: int, timeout: Time)
    requires ValidLedger(l) && Spaced(l, timeout) && Enabled(l.db, op)
    ensures SpacedFrom(Record(l, op).log, i, j, id, timeout)
  {
    var log := Record(l, op).log;
    if Consecutive(log, i, j, id) {
      assert forall x :: 0 <= x < |l.log| ==> log[x] == l.log[x];
      if j < |l.log| {
        assert SpacedFrom(l.log, i, j, id, timeout);
      } else {
        assert Quiet(l.log, id, i, |l.log|);
        PreviousIsLast(l, id, i);
        assert LastIsLatest(l, id) && Released(l, id, timeout) && OpenIsLeased(l, i);
      }
    }
  }

  lemma RecordKeepsSpaced(l: Ledger, op: Op, timeout: Time)
    requires ValidLedger(l) && Spaced(l, timeout) && Enabled(l.db, op) && UsesTimeout(op, timeout)
    ensures ValidLedger(Record(l, op)) && Spaced(Record(l, op), timeout)
  {
    var m := Record(l, op);
    RecordKeepsValid(l, op);
    forall id ensures LastIsLatest(m, id) && Released(m, id, timeout) {
      assert LastIsLatest(l, id) && LeaseIsOpen(l, id) && Released(l, id, timeout);
      RecordKeepsReleased(l, op, id, timeout);
    }
    forall i: nat, j: nat, id ensures SpacedFrom(m.log, i, j, id, timeout) {
      RecordKeepsSpacing(l, op, i, j, id, timeout);
    }
  }

  lemma {:induction false} ReplayKeepsSpaced(l: Ledger, ops: seq<Op>, timeout: Time)
    requires ValidLedger(l) && Spaced(l, timeout) && IsRun(l.db, ops)
    requires forall i :: 0 <= i < |ops| ==> UsesTimeout(ops[i], timeout)
    ensures ValidLedger(Replay(l, ops)) && Spaced(Replay(l, ops), timeout)
    decreases |ops|
  {
    if ops != [] {
      RecordKeepsSpaced(l, ops[0], timeout);
      ReplayKeepsSpaced(Record(l, ops[0]), ops[1..], timeout);
    }
  }

  /** Over any run from the empty table, of two consecutive claims of a message with no requeue or reset
    in between, the second carries the next attempt number; one entry (EveryClaimClosesOnce) closed the first; and the
    second comes min(2^attempts, 60) s or more after the first if that was a nack, and more than the
    visibility timeout after it if that was a reap. */
  lemma RetrySpacing(ops: seq<Op>, timeout: Time, i: nat, j: nat, id: int)
    requires IsRun(EMPTY, ops)
    requires forall k :: 0 <= k < |ops| ==> UsesTimeout(ops[k], timeout)
    requires Consecutive(Replay(BLANK, ops).log, i, j, id)
    ensures var log := Replay(BLANK, ops).log;
      && log[j].attempt == log[i].attempt + 1
      && exists m :: i < m < j && Closes(log[m], id, i)
           && (log[m].how.ByNack? ==> log[j].at - log[i].at >= SECOND * Min(Pow2(log[i].attempt), 60))
           && (log[m].how.ByReap? ==> log[j].at - log[i].at > timeout)
           && !log[m].how.ByAck?
  {
    ReplayKeepsSpaced(BLANK, ops, timeout);
    var log := Replay(BLANK, ops).log;
    assert SpacedFrom(log, i, j, id, timeout);
    var m :| i < m < j && Closes(log[m], id, i);
    assert AllowsClaimAt(log, i, m, timeout, log[j].at);
  }

  // ----- a message that is always nacked -----------------------------------------------------------

  /** The backoffs after attempts 1 to n, added up. */
  function TotalBackoff(n: nat): Time
  {
    if n == 0 then 0 else TotalBackoff(n - 1) + Backoff(n)
  }

  /** 2^max - 2 seconds up to six attempts, one more minute for each attempt beyond. */
  lemma {:induction false} TotalBackoffClosedForm(max: nat)
    requires 1 <= max
    ensures TotalBackoff(max - 1) ==
      SECOND * if max <= 6 then Pow2(max) - 2 else 62 + 60 * (max - 6)
  {
    if max > 1 {
      TotalBackoffClosedForm(max - 1);
      if max >= 7 {
        PowerExceedsCap(max - 1);
      } else {
        PowerBelowCap(max - 1);
      }
    }
  }

  lemma {:induction false} PowerExceedsCap(n: nat)
    requires 6 <= n
    ensures 64 <= Pow2(n)
  {
    if n > 6 {
      PowerExceedsCap(n - 1);
    } else {
      assert Pow2(3) == 8;
    }
  }

  lemma PowerBelowCap(n: nat)
    requires n <= 5
    ensures Pow2(n) <= 32
  {
    assert Pow2(0) == 1 && Pow2(1) == 2 && Pow2(2) == 4 && Pow2(3) == 8;
  }

  /** From `from` on, `id` is never restarted and all that ever closes one of its claims is a nack. */
  ghost predicate OnlyNacked(log: seq<Entry>, id: int, from: nat)
  {
    forall j :: from < j < |log| ==>
      !Restarts(log[j], id) && (log[j].CloseEntry? && id in log[j].claims ==> log[j].how.ByNack?)
  }

  /** The claim of `id` right before the one at `j`. */
  lemma {:induction false} PreviousClaim(log: seq<Entry>, id: int, i: nat, j: nat, k: nat) returns (p: nat)
    requires i <= k < j < |log| && Claims(log[i], id) && Claims(log[j], id)
    requires OnlyNacked(log, id, i)
    requires forall x :: k < x < j ==> !Claims(log[x], id)
    ensures i <= p && Consecutive(log, p, j, id)
    decreases k
  {
    if Claims(log[k], id) {
      p := k;
    } else {
      p := PreviousClaim(log, id, i, j, k - 1);
    }
  }

  lemma {:induction false} NackedClaimsSpread(l: Ledger, id: int, i: nat, j: nat, timeout: Time)
    requires ValidLedger(l) && Spaced(l, timeout)
    requires i <= j < |l.log| && Claims(l.log[i], id) && Claims(l.log[j], id)
    requires OnlyNacked(l.log, id, i) && l.log[i].attempt == 1
    ensures 1 <= l.log[j].attempt
    ensures l.log[i].at + TotalBackoff(l.log[j].attempt - 1) <= l.log[j].at
    decreases j
  {
    if i < j {
      var p := PreviousClaim(l.log, id, i, j, j - 1);
      NackedClaimsSpread(l, id, i, p, timeout);
      assert SpacedFrom(l.log, p, j, id, timeout);
      var m :| p < m < j && Closes(l.log[m], id, p);
      assert AllowsClaimAt(l.log, p, m, timeout, l.log[j].at);
    }
  }

  /** A message whose every claim was nacked and that is now dead has been claimed exactly max_attempts
    times, and died no sooner than the sum of its backoffs after its first claim. */
  lemma AlwaysNackedDies(ops: seq<Op>, timeout: Time, i: nat, id: int)
    requires IsRun(EMPTY, ops)
    requires forall k :: 0 <= k < |ops| ==> UsesTimeout(ops[k], timeout)
    requires id in Run(EMPTY, ops).rows && Run(EMPTY, ops).rows[id].status.Dead?
    requires i < |Replay(BLANK, ops).log| && Claims(Replay(BLANK, ops).log[i], id)
    requires Replay(BLANK, ops).log[i].attempt == 1 && OnlyNacked(Replay(BLANK, ops).log, id, i)
    ensures var r := Run(EMPTY, ops).rows[id];
      var log := Replay(BLANK, ops).log;
      && 1 <= r.maxAttempts == ClaimsSinceStart(log, id)
      && r.finishedAt.Some?
      && r.finishedAt.value - log[i].at >=
           SECOND * if r.maxAttempts <= 6 then Pow2(r.maxAttempts) - 2 else 62 + 60 * (r.maxAttempts - 6)
  {
    ReplayKeepsValid(BLANK, ops);
    ReplayKeepsSpaced(BLANK, ops, timeout);
    var l := Replay(BLANK, ops);
    assert LastIsLatest(l, id) && Released(l, id, timeout) && AttemptsCountClaims(l, id);
    assert ValidRow(l.db.rows[id], l.db.now);
    NackedClaimsSpread(l, id, i, l.last[id], timeout);
    TotalBackoffClosedForm(l.db.rows[id].maxAttempts);
  }

  // ----- and dies on time ----------------------------------------------------------------------------

  /** One more claim and its nack, and, unless that makes the message dead, the backoff. */
  function NackRound(queue: Queue, consumer: ConsumerId, id: int, attempts: nat, max: nat): seq<Op>
    requires attempts < max
  {
    [Claim(queue, consumer, Some(id)), Nack(id, consumer)]
    + if attempts + 1 == max then [] else [Elapse(SECOND * Min(Pow2(attempts + 1), 60))]
  }

  function NackRounds(queue: Queue, consumer: ConsumerId, id: int, attempts: nat, max: nat): seq<Op>
    requires attempts < max
    decreases max - attempts
  {
    NackRound(queue, consumer, id, attempts, max)
    + if attempts + 1 == max then [] else NackRounds(queue, consumer, id, attempts + 1, max)
  }

  lemma {:induction false} RunsCompose(db: Db, first: seq<Op>, rest: seq<Op>)
    requires IsRun(db, first) && IsRun(Run(db, first), rest)
    ensures IsRun(db, first + rest) && Run(db, first + rest) == Run(Run(db, first), rest)
    decreases |first|
  {
    if first == [] {
      assert first + rest == rest;
    } else {
      assert (first + rest)[1..] == first[1..] + rest;
      RunsCompose(Apply(db, first[0]), first[1..], rest);
    }
  }

  /** The message has been tried `attempts` times and is ready, or it is dead, since the time `at`. */
  ghost predicate IsTried(db: Db, id: int, r: Row, attempts: nat, at: Time)
  {
    && Valid(db) && id in db.rows && db.rows[id].attempts == attempts
    && db.rows[id].maxAttempts == r.maxAttempts && db.rows[id].queue == r.queue
    && if attempts < r.maxAttempts then IsReadyId(db, r.queue, id) && db.now == at
       else db.rows[id].status.Dead? && db.rows[id].finishedAt == Some(at)
  }

  lemma ClaimTries(db: Db, id: int, consumer: ConsumerId, r: Row, attempts: nat)
    requires IsTried(db, id, r, attempts, db.now) && attempts < r.maxAttempts
    ensures Enabled(db, Claim(r.queue, consumer, Some(id)))
    ensures var next := Apply(db, Claim(r.queue, consumer, Some(id)));
      && Valid(next) && next.now == db.now && id in next.rows && IsHeldBy(next.rows[id], consumer)
      && next.rows[id].attempts == attempts + 1 && next.rows[id].maxAttempts == r.maxAttempts
      && next.rows[id].queue == r.queue
  {
    ApplyKeepsValid(db, Claim(r.queue, consumer, Some(id)));
  }

  lemma NackTries(db: Db, id: int, consumer: ConsumerId, r: Row, attempts: nat)
    requires Valid(db) && id in db.rows && IsHeldBy(db.rows[id], consumer) && db.rows[id].attempts == attempts
    requires db.rows[id].maxAttempts == r.maxAttempts && db.rows[id].queue == r.queue
    ensures attempts == r.maxAttempts ==> IsTried(Apply(db, Nack(id, consumer)), id, r, attempts, db.now)
    ensures var wait := SECOND * Min(Pow2(attempts), 60);
      attempts < r.maxAttempts ==>
        IsTried(Apply(Apply(db, Nack(id, consumer)), Elapse(wait)), id, r, attempts, db.now + wait)
  {
    var next := Apply(db, Nack(id, consumer));
    ApplyKeepsValid(db, Nack(id, consumer));
    ApplyKeepsValid(next, Elapse(SECOND * Min(Pow2(attempts), 60)));
  }

  lemma RunsTwo(db: Db, first: Op, second: Op)
    requires Enabled(db, first) && Enabled(Apply(db, first), second)
    ensures IsRun(db, [first, second]) && Run(db, [first, second]) == Apply(Apply(db, first), second)
  {
    assert [first, second][1..] == [second] && [second][1..] == [];
    assert Run(Apply(db, first), [second]) == Apply(Apply(db, first), second);
  }

  lemma RunsThree(db: Db, first: Op, second: Op, third: Op)
    requires Enabled(db, first) && Enabled(Apply(db, first), second)
    requires Enabled(Apply(Apply(db, first), second), third)
    ensures IsRun(db, [first, second, third])
    ensures Run(db, [first, second, third]) == Apply(Apply(Apply(db, first), second), third)
  {
    assert [first, second, third][1..] == [second, third];
    RunsTwo(Apply(db, first), second, third);
  }

  lemma RoundTries(db: Db, id: int, consumer: ConsumerId, r: Row, attempts: nat)
    requires IsTried(db, id, r, attempts, db.now) && attempts < r.maxAttempts
    ensures var round := NackRound(r.queue, consumer, id, attempts, r.maxAttempts);
      && IsRun(db, round)
      && IsTried(Run(db, round), id, r, attempts + 1,
                 db.now + if attempts + 1 == r.maxAttempts then 0 else Backoff(attempts + 1))
  {
    var claim, nack, wait := Claim(r.queue, consumer, Some(id)), Nack(id, consumer), Elapse(Backoff(attempts + 1));
    ClaimTries(db, id, consumer, r, attempts);
    NackTries(Apply(db, claim), id, consumer, r, attempts + 1);
    if attempts + 1 == r.maxAttempts {
      RunsTwo(db, claim, nack);
      assert NackRound(r.queue, consumer, id, attempts, r.maxAttempts) == [claim, nack];
    } else {
      RunsThree(db, claim, nack, wait);
      assert NackRound(r.queue, consumer, id, attempts, r.maxAttempts) == [claim, nack, wait];
    }
  }

  lemma {:induction false} NackedUntilDead(db: Db, id: int, consumer: ConsumerId, r: Row, attempts: nat)
    requires IsTried(db, id, r, attempts, db.now) && attempts < r.maxAttempts
    ensures var rounds := NackRounds(r.queue, consumer, id, attempts, r.maxAttempts);
      && IsRun(db, rounds)
      && IsTried(Run(db, rounds), id, r, r.maxAttempts,
                 db.now + TotalBackoff(r.maxAttempts - 1) - TotalBackoff(attempts))
    decreases r.maxAttempts - attempts
  {
    var round := NackRound(r.queue, consumer, id, attempts, r.maxAttempts);
    RoundTries(db, id, consumer, r, attempts);
    if attempts + 1 == r.maxAttempts {
      assert round + [] == round;
    } else {
      NackedUntilDead(Run(db, round), id, consumer, r, attempts + 1);
      RunsCompose(db, round, NackRounds(r.queue, consumer, id, attempts + 1, r.maxAttempts));
    }
  }

  /** The bound of AlwaysNackedDies is met: claimed as soon as it is ready and nacked at once every time, a message
    that has not been tried yet dies exactly the sum of its backoffs later. */
  lemma DiesOnTime(db: Db, id: int, consumer: ConsumerId)
    requires Valid(db) && id in db.rows && IsReadyId(db, db.rows[id].queue, id) && db.rows[id].attempts == 0
    ensures var r := db.rows[id];
      var rounds := NackRounds(r.queue, consumer, id, 0, r.maxAttempts);
      && IsRun(db, rounds) && id in Run(db, rounds).rows
      && Run(db, rounds).rows[id].status.Dead?
      && Run(db, rounds).rows[id].finishedAt ==
           Some(db.now + SECOND * if r.maxAttempts <= 6 then Pow2(r.maxAttempts) - 2 else 62 + 60 * (r.maxAttempts - 6))
  {
    NackedUntilDead(db, id, consumer, db.rows[id], 0);
    TotalBackoffClosedForm(db.rows[id].maxAttempts);
  }
}
