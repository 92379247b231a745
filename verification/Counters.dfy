/** What the counters `processed` and `failed` of a consumer mean: handlers that ended, not settlements. */
module Counters {
  import opened Messages
  import opened History
  import opened Leases

  /** How often a handler of `c` ended this way. */
  function HandlersEnded(events: seq<Event>, c: ConsumerId, succeeded: bool): nat
  {
    if events == [] then 0
    else (if events[0] == FinishHandler(c, succeeded) then 1 else 0) + HandlersEnded(events[1..], c, succeeded)
  }

  function Processed(w: World, c: ConsumerId): nat { if c in w.tasks then w.tasks[c].processed else 0 }

  function Failed(w: World, c: ConsumerId): nat { if c in w.tasks then w.tasks[c].failed else 0 }

  /** Whatever becomes of the acks and nacks, `processed` grows by the handlers that succeeded and `failed`
    by those that raised. */
  lemma {:induction false} CountersCountHandlers(w: World, events: seq<Event>, c: ConsumerId)
    requires IsHistory(w, events)
    ensures Processed(After(w, events), c) == Processed(w, c) + HandlersEnded(events, c, true)
    ensures Failed(After(w, events), c) == Failed(w, c) + HandlersEnded(events, c, false)
    decreases |events|
  {
    if events != [] {
      CountersCountHandlers(Step(w, events[0]), events[1..], c);
    }
  }

  // ----- acks are at most as many --------------------------------------------------------------------

  /** Entry `j` is a successful ack of a claim that `c` made. */
  ghost predicate IsAckBy(log: seq<Entry>, j: nat, c: ConsumerId)
    requires j < |log|
  {
    && log[j].CloseEntry? && log[j].how.ByAck?
    && exists id :: id in log[j].claims && log[j].claims[id] < j
         && Claims(log[log[j].claims[id]], id) && log[log[j].claims[id]].consumer == c
  }

  /** The successful acks of `c` among the first `n` entries. */
  ghost function AcksBy(log: seq<Entry>, n: nat, c: ConsumerId): nat
    requires n <= |log|
  {
    if n == 0 then 0 else AcksBy(log, n - 1, c) + if IsAckBy(log, n - 1, c) then 1 else 0
  }

  lemma {:induction false} AcksStay(log: seq<Entry>, more: seq<Entry>, n: nat, c: ConsumerId)
    requires n <= |log|
    ensures AcksBy(log + more, n, c) == AcksBy(log, n, c)
  {
    if n > 0 {
      AcksStay(log, more, n - 1, c);
    }
  }

  /** An ack that has yet to be executed has already been counted. */
  ghost predicate AcksCounted(w: World, c: ConsumerId)
  {
    AcksBy(w.l.log, |w.l.log|, c)
      + (if c in w.tasks && w.tasks[c].phase.Settling? && w.tasks[c].phase.succeeded && c !in w.replies then 1 else 0)
    <= Processed(w, c)
  }

  lemma RecordAddsAck(l: Ledger, op: Op, c: ConsumerId)
    requires ValidLedger(l) && Enabled(l.db, op)
    ensures AcksBy(Record(l, op).log, |Record(l, op).log|, c)
         <= AcksBy(l.log, |l.log|, c) + if op.Ack? && op.consumer == c then 1 else 0
  {
    AcksStay(l.log, Recorded(l, op), |l.log|, c);
    if op.Ack? && op.consumer != c && Recorded(l, op) != [] {
      assert LeaseIsOpen(l, op.id) && LastIsLatest(l, op.id);
      assert Record(l, op).log[|l.log|].claims == ClosedBy(l, op);
    }
  }

  lemma StepKeepsAcksCounted(w: World, e: Event, c: ConsumerId)
    requires ValidWorld(w) && CanStep(w, e) && AcksCounted(w, c)
    ensures AcksCounted(Step(w, e), c)
  {
    assert HeldMatchesTask(w, c);
    if StatementOf(w, e).Some? {
      RecordAddsAck(w.l, StatementOf(w, e).value, c);
    }
  }

  lemma {:induction false} HistoryKeepsAcksCounted(w: World, events: seq<Event>, c: ConsumerId)
    requires ValidWorld(w) && IsHistory(w, events) && AcksCounted(w, c)
    ensures AcksCounted(After(w, events), c)
    decreases |events|
  {
    if events != [] {
      StepKeepsValid(w, events[0]);
      StepKeepsAcksCounted(w, events[0], c);
      HistoryKeepsAcksCounted(Step(w, events[0]), events[1..], c);
    }
  }

  /** Over any history a consumer has at most as many successful acks as it has counted in `processed`:
    the rest are handlers whose ack was refused, lost or never sent. */
  lemma AcksAtMostProcessed(events: seq<Event>, c: ConsumerId)
    requires IsHistory(START, events)
    ensures var w := After(START, events);
      AcksBy(w.l.log, |w.l.log|, c) <= Processed(w, c) == HandlersEnded(events, c, true)
  {
    StartIsValid();
    HistoryKeepsAcksCounted(START, events, c);
    CountersCountHandlers(START, events, c);
  }
}
