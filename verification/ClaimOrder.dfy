/** The order in which claims empty a queue. */
module ClaimOrder {
  import opened Prelude
  import opened Messages

  /** The first ready row of a queue among the ids below `bound`. */
  function FirstReadyBelow(db: Db, queue: Queue, bound: int): (first: Option<int>)
    ensures first.Some? ==> IsReadyId(db, queue, first.value) && first.value < bound
    decreases bound
  {
    if bound <= 1 then None
    else
      var id := bound - 1;
      var best := FirstReadyBelow(db, queue, id);
      if !IsReadyId(db, queue, id) then best
      else if best.None? || Precedes(db.rows, id, best.value) then Some(id)
      else best
  }

  function FirstReady(db: Db, queue: Queue): Option<int> { FirstReadyBelow(db, queue, db.nextId) }

  /** What SKIP LOCKED leaves of the table. */
  function Without(db: Db, locked: set<int>): Db { db.(rows := db.rows - locked) }

  lemma {:induction false} FirstReadyBelowIsFirst(db: Db, queue: Queue, bound: int, id: int)
    requires 1 <= id < bound && IsReadyId(db, queue, id)
    ensures FirstReadyBelow(db, queue, bound).Some?
    ensures var first := FirstReadyBelow(db, queue, bound).value; first != id ==> Precedes(db.rows, first, id)
    decreases bound
  {
    if id < bound - 1 {
      FirstReadyBelowIsFirst(db, queue, bound - 1, id);
    }
  }

  /** FirstReady is what CLAIM picks. */
  lemma FirstReadyIsNext(db: Db, queue: Queue)
    requires ValidIds(db)
    ensures IsNext(db, queue, FirstReady(db, queue))
  {
    forall id | id in db.rows && IsReadyId(db, queue, id)
      ensures FirstReady(db, queue).Some?
      ensures FirstReady(db, queue).value != id ==> Precedes(db.rows, FirstReady(db, queue).value, id)
    {
      FirstReadyBelowIsFirst(db, queue, db.nextId, id);
    }
  }

  /** The contract of Broker.Claim leaves no choice. */
  lemma NextIsUnique(db: Db, queue: Queue, a: Option<int>, b: Option<int>)
    requires IsNext(db, queue, a) && IsNext(db, queue, b)
    ensures a == b
  {
  }

  /** What claims on one queue return, made one after the other by the consumers in `who`. */
  function Claimants(db: Db, queue: Queue, who: seq<ConsumerId>): (results: seq<Option<int>>)
    ensures |results| == |who|
    decreases |who|
  {
    if who == [] then []
    else
      var picked := FirstReady(db, queue);
      [picked] + Claimants(Apply(db, Claim(queue, who[0], picked)), queue, who[1..])
  }

  /** `a` is claimed before `b`. */
  predicate ComesBefore(db: Db, queue: Queue, a: int, b: int)
  {
    IsReadyId(db, queue, a) && IsReadyId(db, queue, b) && Precedes(db.rows, a, b)
  }

  /** `results` lists the ready messages of a queue in claim order, as far as it goes, then nothing. */
  ghost predicate ListsReady(db: Db, queue: Queue, results: seq<Option<int>>)
  {
    && (forall i :: 0 <= i < |results| && results[i].Some? ==> IsReadyId(db, queue, results[i].value))
    && (forall i, j :: 0 <= i < j < |results| && results[j].Some? ==>
          results[i].Some? && ComesBefore(db, queue, results[i].value, results[j].value))
    && (forall i, id :: 0 <= i < |results| && results[i].None? && IsReadyId(db, queue, id) ==>
          exists j :: 0 <= j < i && results[j] == Some(id))
  }

  /** `after` has lost one ready message of the queue, or had none to lose. */
  ghost predicate LosesReady(db: Db, after: Db, queue: Queue, picked: Option<int>)
  {
    forall id ::
      && (IsReadyId(after, queue, id) <==> IsReadyId(db, queue, id) && picked != Some(id))
      && (IsReadyId(after, queue, id) ==> after.rows[id].priority == db.rows[id].priority)
  }

  lemma ClaimLosesReady(db: Db, queue: Queue, c: ConsumerId, picked: Option<int>)
    requires ValidIds(db) && IsNext(db, queue, picked)
    ensures LosesReady(db, Apply(db, Claim(queue, c, picked)), queue, picked)
    ensures ValidIds(Apply(db, Claim(queue, c, picked)))
  {
  }

  lemma PickedComesFirst(db: Db, after: Db, queue: Queue, picked: Option<int>, rest: seq<Option<int>>)
    requires IsNext(db, queue, picked) && LosesReady(db, after, queue, picked)
    requires ListsReady(after, queue, rest)
    ensures ListsReady(db, queue, [picked] + rest)
  {
    var results := [picked] + rest;
    forall i | 0 <= i < |results| && results[i].Some? ensures IsReadyId(db, queue, results[i].value) {
      if i > 0 {
        assert IsReadyId(after, queue, rest[i - 1].value);
      }
    }
    forall i, j | 0 <= i < j < |results| && results[j].Some?
      ensures results[i].Some? && ComesBefore(db, queue, results[i].value, results[j].value)
    {
      assert IsReadyId(after, queue, rest[j - 1].value);
      if i > 0 {
        assert ComesBefore(after, queue, rest[i - 1].value, rest[j - 1].value);
      }
    }
    forall i, id | 0 <= i < |results| && results[i].None? && IsReadyId(db, queue, id)
      ensures exists j :: 0 <= j < i && results[j] == Some(id)
    {
      if picked == Some(id) {
        assert results[0] == Some(id);
      } else {
        var j :| 0 <= j < i - 1 && rest[j] == Some(id);
        assert results[j + 1] == Some(id);
      }
    }
  }

  /** With no arrivals and a fixed clock, claims on a queue by any mix of consumers return its ready
    messages in priority-descending then id-ascending order, each of them once, and then nothing. */
  lemma {:induction false} DrainOrder(db: Db, queue: Queue, who: seq<ConsumerId>)
    requires ValidIds(db)
    ensures var results := Claimants(db, queue, who);
      && ListsReady(db, queue, results)
      && (forall i, j :: 0 <= i < j < |who| && results[j].Some? ==>
            results[i].Some?
            && var a, b := db.rows[results[i].value], db.rows[results[j].value];
               a.priority > b.priority || (a.priority == b.priority && results[i].value < results[j].value))
    decreases |who|
  {
    if who != [] {
      var picked := FirstReady(db, queue);
      var after := Apply(db, Claim(queue, who[0], picked));
      FirstReadyIsNext(db, queue);
      ClaimLosesReady(db, queue, who[0], picked);
      DrainOrder(after, queue, who[1..]);
      PickedComesFirst(db, after, queue, picked, Claimants(after, queue, who[1..]));
    }
  }

  // ----- from publish to claim ---------------------------------------------------------------------

  /** The messages that `op` has published. */
  predicate IsPublishedBy(db: Db, op: Op, id: int) { id in Apply(db, op).rows && id !in db.rows }

  lemma PublishedRow(db: Db, op: Op, id: int)
    requires ValidIds(db) && op.Publish?
    ensures ValidIds(Apply(db, op))
    ensures id in db.rows ==> id in Apply(db, op).rows && Apply(db, op).rows[id] == db.rows[id]
    ensures IsPublishedBy(db, op, id) ==>
      db.nextId <= id < Apply(db, op).nextId && Apply(db, op).rows[id].priority == op.priority
  {
  }

  /** Two messages of one publish are claimed in the order of their ids, and of two messages of different publishes
    the one whose publish asked for the higher priority is claimed first, and the one published first if both asked
    for the same. */
  lemma PublishedOrder(db: Db, first: Op, second: Op, queue: Queue, who: seq<ConsumerId>, i: nat, j: nat)
    requires ValidIds(db) && first.Publish? && second.Publish?
    requires i < |who| && j < |who|
    requires var results := Claimants(Apply(Apply(db, first), second), queue, who);
      && results[i].Some? && IsPublishedBy(db, first, results[i].value)
      && results[j].Some? && (IsPublishedBy(Apply(db, first), second, results[j].value)
                              || IsPublishedBy(db, first, results[j].value))
    ensures var results := Claimants(Apply(Apply(db, first), second), queue, who);
      i < j <==>
        if IsPublishedBy(db, first, results[j].value) then results[i].value < results[j].value
        else second.priority <= first.priority
  {
    var db1 := Apply(db, first);
    var results := Claimants(Apply(db1, second), queue, who);
    var a, b := results[i].value, results[j].value;
    PublishedRow(db, first, a);
    PublishedRow(db, first, b);
    PublishedRow(db1, second, a);
    PublishedRow(db1, second, b);
    DrainOrder(Apply(db1, second), queue, who);
  }

  /** When a claim finds nothing, every message published without a delay has been claimed. */
  lemma PublishedIsClaimed(db: Db, op: Op, who: seq<ConsumerId>, k: nat, id: int) returns (j: nat)
    requires ValidIds(db) && op.Publish? && op.delay <= 0 && IsPublishedBy(db, op, id)
    requires k < |who| && Claimants(Apply(db, op), op.queue, who)[k].None?
    ensures j < k && Claimants(Apply(db, op), op.queue, who)[j] == Some(id)
  {
    DrainOrder(Apply(db, op), op.queue, who);
    assert IsReadyId(Apply(db, op), op.queue, id);
    j :| 0 <= j < k && Claimants(Apply(db, op), op.queue, who)[j] == Some(id);
  }
}
