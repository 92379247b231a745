/** Overlapping claims with FOR UPDATE SKIP LOCKED refine atomic claims.

  Here a claim is split into its two halves: locking the first ready row that nobody has locked, and
  updating it and committing. Between the halves other claims, publishes, requeues, acks and nacks run. */
module SkipLocked {
  import opened Prelude
  import opened Messages
  import opened ClaimOrder

  /** The row a claim in flight has locked, and its now(). */
  datatype InFlight = InFlight(id: int, at: Time)

  type Results = map<ConsumerId, seq<Option<Message>>>

  datatype Overlapping = Overlapping(db: Db, locks: map<ConsumerId, InFlight>, results: Results)

  datatype Atomic = Atomic(db: Db, results: Results)

  datatype Event =
    | Lock(consumer: ConsumerId, queue: Queue)
    | Commit(consumer: ConsumerId)
    | Abort(consumer: ConsumerId)
    | Other(op: Op)

  function ResultsOf(results: Results, c: ConsumerId): seq<Option<Message>>
  {
    if c in results then results[c] else []
  }

  function LockedIds(locks: map<ConsumerId, InFlight>): set<int>
  {
    set c | c in locks :: locks[c].id
  }

  function Unlocked(s: Overlapping): Db { Without(s.db, LockedIds(s.locks)) }

  /** The row as the UPDATE half of c's claim will write and return it. */
  function Pending(s: Overlapping, c: ConsumerId): Message
    requires c in s.locks && s.locks[c].id in s.db.rows
  {
    Message(s.locks[c].id, Claimed(s.db.rows[s.locks[c].id], c, s.locks[c].at))
  }

  predicate MayRunBeside(op: Op, locks: map<ConsumerId, InFlight>)
  {
    match op
    case Elapse(_) => true
    case Publish(_, _, _, _, _) => true
    case Requeue(_, _) => true
    case Purge(_) => true
    // a consumer settles one message before it claims the next
    case Ack(_, c) => c !in locks
    case Nack(_, c) => c !in locks
    case _ => false
  }

  predicate CanHappen(s: Overlapping, e: Event)
  {
    match e
    case Lock(c, _) => c !in s.locks
    case Commit(c) => c in s.locks && s.locks[c].id in s.db.rows
    case Abort(c) => c in s.locks
    case Other(op) => MayRunBeside(op, s.locks)
  }

  function Step(s: Overlapping, e: Event): Overlapping
    requires CanHappen(s, e)
  {
    match e
    case Lock(c, queue) =>
      (match FirstReady(Unlocked(s), queue)
       case None => s.(results := s.results[c := ResultsOf(s.results, c) + [None]])
       case Some(id) => s.(locks := s.locks[c := InFlight(id, s.db.now)]))
    case Commit(c) =>
      var m := Pending(s, c);
      Overlapping(s.db.(rows := s.db.rows[m.id := m.row]), s.locks - {c},
                  s.results[c := ResultsOf(s.results, c) + [Some(m)]])
    case Abort(c) => s.(locks := s.locks - {c})
    case Other(op) => s.(db := Apply(s.db, op))
  }

  /** The same event with atomic claims: all of a claim happens when it takes its lock. */
  function AtomicStep(a: Atomic, e: Event): Atomic
  {
    match e
    case Lock(c, queue) =>
      var picked := FirstReady(a.db, queue);
      var after := Apply(a.db, Claim(queue, c, picked));
      Atomic(after, a.results[c := ResultsOf(a.results, c) +
        [if picked.Some? && picked.value in after.rows then Some(Message(picked.value, after.rows[picked.value]))
         else None]])
    case Other(op) => Atomic(Apply(a.db, op), a.results)
    case _ => a
  }

  // ----- the refinement relation -------------------------------------------------------------------

  /** Locked rows are disjoint, exist, and are still pending. */
  ghost predicate LocksDisjoint(s: Overlapping)
  {
    && (forall c :: c in s.locks ==> s.locks[c].id in s.db.rows && s.db.rows[s.locks[c].id].status.Pending?)
    && (forall c, d :: c in s.locks && d in s.locks && c != d ==> s.locks[c].id != s.locks[d].id)
  }

  ghost predicate SameShape(s: Overlapping, a: Atomic)
  {
    a.db.rows.Keys == s.db.rows.Keys && a.db.nextId == s.db.nextId && a.db.now == s.db.now
  }

  predicate IsLocked(s: Overlapping, id: int) { exists c :: c in s.locks && s.locks[c].id == id }

  /** A row nobody has locked is the same in both tables. */
  ghost predicate RowMatches(s: Overlapping, a: Atomic, id: int)
  {
    id in s.db.rows && id in a.db.rows && !IsLocked(s, id) ==> a.db.rows[id] == s.db.rows[id]
  }

  /** The row c has locked is already claimed in the atomic table, and its result is already known there. */
  ghost predicate ClaimMatches(s: Overlapping, a: Atomic, c: ConsumerId)
  {
    if c in s.locks && s.locks[c].id in s.db.rows && s.locks[c].id in a.db.rows then
      && a.db.rows[s.locks[c].id] == Pending(s, c).row
      && ResultsOf(a.results, c) == ResultsOf(s.results, c) + [Some(Pending(s, c))]
    else
      ResultsOf(a.results, c) == ResultsOf(s.results, c)
  }

  ghost predicate Refines(s: Overlapping, a: Atomic)
  {
    && ValidIds(s.db)
    && LocksDisjoint(s)
    && SameShape(s, a)
    && (forall id :: RowMatches(s, a, id))
    && (forall c :: ClaimMatches(s, a, c))
  }

  /** The row a claim finds past the locks is the row an atomic claim finds. */
  lemma SameFirstReady(s: Overlapping, a: Atomic, queue: Queue)
    requires Refines(s, a)
    ensures FirstReady(Unlocked(s), queue) == FirstReady(a.db, queue)
  {
    var u := Unlocked(s);
    forall id ensures IsReadyId(u, queue, id) <==> IsReadyId(a.db, queue, id) {
      if id in LockedIds(s.locks) {
        var c :| c in s.locks && s.locks[c].id == id;
        assert ClaimMatches(s, a, c);
      } else {
        assert RowMatches(s, a, id);
      }
    }
    forall id | IsReadyId(u, queue, id) ensures u.rows[id] == a.db.rows[id] {
      assert RowMatches(s, a, id);
    }
    FirstReadyIsNext(u, queue);
    FirstReadyIsNext(a.db, queue);
    var first := FirstReady(u, queue);
    assert IsNext(a.db, queue, first);
    NextIsUnique(a.db, queue, first, FirstReady(a.db, queue));
  }

  lemma LockTakesUnlocked(s: Overlapping, queue: Queue)
    requires ValidIds(s.db)
    ensures var first := FirstReady(Unlocked(s), queue);
      first.Some? ==> IsReadyId(s.db, queue, first.value) && !IsLocked(s, first.value)
  {
  }

  lemma LockRefinesRow(s: Overlapping, a: Atomic, c: ConsumerId, queue: Queue, id: int)
    requires Refines(s, a) && CanHappen(s, Lock(c, queue))
    ensures RowMatches(Step(s, Lock(c, queue)), AtomicStep(a, Lock(c, queue)), id)
  {
    SameFirstReady(s, a, queue);
    assert RowMatches(s, a, id);
    var t := Step(s, Lock(c, queue));
    if IsLocked(s, id) {
      var d :| d in s.locks && s.locks[d].id == id;
      assert d in t.locks && t.locks[d].id == id;
    }
    if FirstReady(a.db, queue) == Some(id) {
      assert c in t.locks && t.locks[c].id == id;
    }
  }

  lemma LockRefinesClaim(s: Overlapping, a: Atomic, c: ConsumerId, queue: Queue, d: ConsumerId)
    requires Refines(s, a) && CanHappen(s, Lock(c, queue))
    ensures ClaimMatches(Step(s, Lock(c, queue)), AtomicStep(a, Lock(c, queue)), d)
  {
    SameFirstReady(s, a, queue);
    LockTakesUnlocked(s, queue);
    assert ClaimMatches(s, a, d);
    var first := FirstReady(a.db, queue);
    if first.Some? {
      assert RowMatches(s, a, first.value);
    }
  }

  lemma LockRefines(s: Overlapping, a: Atomic, c: ConsumerId, queue: Queue)
    requires Refines(s, a) && CanHappen(s, Lock(c, queue))
    ensures Refines(Step(s, Lock(c, queue)), AtomicStep(a, Lock(c, queue)))
  {
    var t, b := Step(s, Lock(c, queue)), AtomicStep(a, Lock(c, queue));
    forall id ensures RowMatches(t, b, id) { LockRefinesRow(s, a, c, queue, id); }
    forall d ensures ClaimMatches(t, b, d) { LockRefinesClaim(s, a, c, queue, d); }
  }

  lemma CommitRefines(s: Overlapping, a: Atomic, c: ConsumerId)
    requires Refines(s, a) && CanHappen(s, Commit(c))
    ensures Refines(Step(s, Commit(c)), a)
  {
    var t := Step(s, Commit(c));
    forall d ensures ClaimMatches(t, a, d) {
      assert ClaimMatches(s, a, d);
    }
    forall id ensures RowMatches(t, a, id) {
      assert RowMatches(s, a, id) && ClaimMatches(s, a, c);
      if IsLocked(s, id) && id != s.locks[c].id {
        var d :| d in s.locks && s.locks[d].id == id;
        assert d in t.locks;
      }
    }
  }

  lemma OtherRefinesRow(s: Overlapping, a: Atomic, op: Op, id: int)
    requires SameShape(s, a) && RowMatches(s, a, id) && CanHappen(s, Other(op))
    ensures RowMatches(Step(s, Other(op)), AtomicStep(a, Other(op)), id)
  {
  }

  lemma OtherRefinesClaim(s: Overlapping, a: Atomic, op: Op, c: ConsumerId)
    requires ValidIds(s.db) && LocksDisjoint(s) && SameShape(s, a) && ClaimMatches(s, a, c) && CanHappen(s, Other(op))
    ensures ClaimMatches(Step(s, Other(op)), AtomicStep(a, Other(op)), c)
  {
  }

  /** A purge deletes the same rows from both tables: a locked row is dead in neither. */
  lemma SameRowsDropped(s: Overlapping, a: Atomic, op: Op, id: int)
    requires Refines(s, a) && CanHappen(s, Other(op)) && id in s.db.rows && id in a.db.rows
    ensures Drops(op, id, s.db.rows[id]) <==> Drops(op, id, a.db.rows[id])
  {
    assert RowMatches(s, a, id);
    if IsLocked(s, id) {
      var c :| c in s.locks && s.locks[c].id == id;
      assert ClaimMatches(s, a, c);
    }
  }

  lemma OtherKeepsShape(s: Overlapping, a: Atomic, op: Op)
    requires Refines(s, a) && CanHappen(s, Other(op))
    ensures SameShape(Step(s, Other(op)), AtomicStep(a, Other(op)))
  {
    forall id | id in s.db.rows ensures Drops(op, id, s.db.rows[id]) <==> Drops(op, id, a.db.rows[id]) {
      SameRowsDropped(s, a, op, id);
    }
  }

  lemma StepRefines(s: Overlapping, a: Atomic, e: Event)
    requires Refines(s, a) && CanHappen(s, e) && !e.Abort?
    ensures Refines(Step(s, e), AtomicStep(a, e))
  {
    match e
    case Lock(c, queue) => LockRefines(s, a, c, queue);
    case Commit(c) => CommitRefines(s, a, c);
    case Other(op) =>
      OtherKeepsShape(s, a, op);
      forall id ensures RowMatches(Step(s, e), AtomicStep(a, e), id) { OtherRefinesRow(s, a, op, id); }
      forall c ensures ClaimMatches(Step(s, e), AtomicStep(a, e), c) { OtherRefinesClaim(s, a, op, c); }
  }

  // ----- whole runs --------------------------------------------------------------------------------

  ghost predicate CanRun(s: Overlapping, events: seq<Event>)
    decreases |events|
  {
    events == [] || (CanHappen(s, events[0]) && CanRun(Step(s, events[0]), events[1..]))
  }

  function RunAll(s: Overlapping, events: seq<Event>): Overlapping
    requires CanRun(s, events)
    decreases |events|
  {
    if events == [] then s else RunAll(Step(s, events[0]), events[1..])
  }

  function RunAtomically(a: Atomic, events: seq<Event>): Atomic
    decreases |events|
  {
    if events == [] then a else RunAtomically(AtomicStep(a, events[0]), events[1..])
  }

  lemma {:induction false} RunRefines(s: Overlapping, a: Atomic, events: seq<Event>)
    requires Refines(s, a) && CanRun(s, events)
    requires forall i :: 0 <= i < |events| ==> !events[i].Abort?
    ensures Refines(RunAll(s, events), RunAtomically(a, events))
    decreases |events|
  {
    if events != [] {
      StepRefines(s, a, events[0]);
      RunRefines(Step(s, events[0]), AtomicStep(a, events[0]), events[1..]);
    }
  }

  /** With no claim in flight the two tables and the results are the same. */
  lemma IdleIsAtomic(s: Overlapping, a: Atomic)
    requires Refines(s, a) && s.locks == map[]
    ensures s.db == a.db && forall c :: ResultsOf(s.results, c) == ResultsOf(a.results, c)
  {
    forall c ensures ResultsOf(s.results, c) == ResultsOf(a.results, c) { assert ClaimMatches(s, a, c); }
    forall id | id in s.db.rows ensures a.db.rows[id] == s.db.rows[id] { assert RowMatches(s, a, id); }
    assert s.db.rows == a.db.rows;
  }

  /** Any overlapping run of claims with publishes, requeues, acks and nacks in which no claim aborts,
    once every claim has committed, has the final table and gives every consumer the results of the same
    run with atomic claims, made in the order in which the locks were taken. */
  lemma SkipLockedIsAtomic(db: Db, events: seq<Event>)
    requires ValidIds(db) && CanRun(Overlapping(db, map[], map[]), events)
    requires forall i :: 0 <= i < |events| ==> !events[i].Abort?
    requires RunAll(Overlapping(db, map[], map[]), events).locks == map[]
    ensures var overlapping := RunAll(Overlapping(db, map[], map[]), events);
      var atomic := RunAtomically(Atomic(db, map[]), events);
      && overlapping.db == atomic.db
      && forall c :: ResultsOf(overlapping.results, c) == ResultsOf(atomic.results, c)
  {
    RunRefines(Overlapping(db, map[], map[]), Atomic(db, map[]), events);
    IdleIsAtomic(RunAll(Overlapping(db, map[], map[]), events), RunAtomically(Atomic(db, map[]), events));
  }

  lemma StepKeepsDisjoint(s: Overlapping, e: Event)
    requires ValidIds(s.db) && LocksDisjoint(s) && CanHappen(s, e)
    ensures ValidIds(Step(s, e).db) && LocksDisjoint(Step(s, e))
  {
  }

  /** The rows locked by claims in flight are always disjoint, aborts included. */
  lemma {:induction false} LocksAlwaysDisjoint(s: Overlapping, events: seq<Event>)
    requires ValidIds(s.db) && LocksDisjoint(s) && CanRun(s, events)
    ensures LocksDisjoint(RunAll(s, events))
    decreases |events|
  {
    if events != [] {
      StepKeepsDisjoint(s, events[0]);
      LocksAlwaysDisjoint(Step(s, events[0]), events[1..]);
    }
  }

  /** Why aborts are excluded: if the first of two overlapping claims rolls back, the other one has been
    given a message although one that comes before it is ready, which no atomic claim does. */
  lemma AbortShowsThrough(db: Db, queue: Queue, c: ConsumerId, d: ConsumerId)
    requires ValidIds(db) && c != d
    requires FirstReady(db, queue).Some?
    requires var locks := map[c := InFlight(FirstReady(db, queue).value, db.now)];
      FirstReady(Unlocked(Overlapping(db, locks, map[])), queue).Some?
    ensures var start := Overlapping(db, map[], map[]);
      var events := [Lock(c, queue), Lock(d, queue), Abort(c), Commit(d)];
      && CanRun(start, events)
      && var end := RunAll(start, events);
         && end.locks == map[] && c !in end.results
         && d in end.results && |end.results[d]| == 1 && end.results[d][0].Some?
         && IsReadyId(end.db, queue, FirstReady(db, queue).value)
         && !IsNext(db, queue, Some(end.results[d][0].value.id))
  {
    var s0 := Overlapping(db, map[], map[]);
    assert Unlocked(s0) == db by { assert db.rows - {} == db.rows; }
    LockTakesUnlocked(s0, queue);
    var s1 := Step(s0, Lock(c, queue));
    assert s1 == Overlapping(db, map[c := InFlight(FirstReady(db, queue).value, db.now)], map[]);
    LockTakesUnlocked(s1, queue);
    var s2 := Step(s1, Lock(d, queue));
    var s3 := Step(s2, Abort(c));
    var s4 := Step(s3, Commit(d));
    FirstReadyIsNext(db, queue);
    assert s1.locks[c].id == FirstReady(db, queue).value;
    assert s2.locks[d].id != FirstReady(db, queue).value;
    var events := [Lock(c, queue), Lock(d, queue), Abort(c), Commit(d)];
    assert events[1..] == [Lock(d, queue), Abort(c), Commit(d)];
    assert events[1..][1..] == [Abort(c), Commit(d)];
    assert events[1..][1..][1..] == [Commit(d)];
    assert events[1..][1..][1..][1..] == [];
    assert CanRun(s4, []) && RunAll(s4, []) == s4;
    assert CanRun(s3, [Commit(d)]) && RunAll(s3, [Commit(d)]) == s4;
    assert CanRun(s2, [Abort(c), Commit(d)]) && RunAll(s2, [Abort(c), Commit(d)]) == s4;
    assert CanRun(s1, [Lock(d, queue), Abort(c), Commit(d)]) && RunAll(s1, [Lock(d, queue), Abort(c), Commit(d)]) == s4;
    assert RunAll(s0, events) == s4;
  }
}
