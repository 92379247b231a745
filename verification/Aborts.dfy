/** Overlapping claims some of which abort: exactly when they still look atomic.

  The atomic run to compare with leaves out the claims that lock a row and abort. The two agree if and only
  if no claim that stands has passed over a row whose holder aborts. */
module Aborts {
  import opened Prelude
  import opened Messages
  import opened ClaimOrder
  import opened SkipLocked

  /** Whether the claim that `c` has in flight aborts in the events to come. */
  predicate WillAbort(c: ConsumerId, events: seq<Event>)
  {
    events != [] &&
    (events[0] == Abort(c) || (events[0] != Commit(c) && WillAbort(c, events[1..])))
  }

  /** Whether `e`, followed by `rest`, is a claim that locks a row and aborts. */
  predicate IsDoomed(s: Overlapping, e: Event, rest: seq<Event>)
  {
    e.Lock? && FirstReady(Unlocked(s), e.queue).Some? && WillAbort(e.consumer, rest)
  }

  /** The atomic run without the doomed claims. */
  function RunStanding(s: Overlapping, a: Atomic, events: seq<Event>): Atomic
    requires CanRun(s, events)
    decreases |events|
  {
    if events == [] then a
    else
      RunStanding(Step(s, events[0]),
                  if IsDoomed(s, events[0], events[1..]) then a else AtomicStep(a, events[0]),
                  events[1..])
  }

  /** A claim passes over row `id`: ready in the claim's queue, and before the row it locks, if it locks one. */
  predicate PassesOver(s: Overlapping, queue: Queue, id: int)
  {
    && IsReadyId(s.db, queue, id)
    && match FirstReady(Unlocked(s), queue)
       case None => true
       case Some(picked) => picked in s.db.rows && Precedes(s.db.rows, id, picked)
  }

  /** `e` is a claim that stands and passes over a row whose holder aborts. */
  ghost predicate Overtakes(s: Overlapping, e: Event, rest: seq<Event>)
  {
    e.Lock? && !IsDoomed(s, e, rest)
    && exists d :: d in s.locks && WillAbort(d, rest) && PassesOver(s, e.queue, s.locks[d].id)
  }

  ghost predicate NoOvertaking(s: Overlapping, events: seq<Event>)
    requires CanRun(s, events)
    decreases |events|
  {
    events == [] || (!Overtakes(s, events[0], events[1..]) && NoOvertaking(Step(s, events[0]), events[1..]))
  }

  // ----- sufficient --------------------------------------------------------------------------------

  /** The run as if the claims in flight that abort had never locked anything. */
  function Survivors(s: Overlapping, events: seq<Event>): Overlapping
  {
    s.(locks := map c | c in s.locks && !WillAbort(c, events) :: s.locks[c])
  }

  /** The rows the survivors leave unlocked are those unlocked, and those of claims that abort. */
  lemma DoomedRowsAreFree(s: Overlapping, events: seq<Event>, id: int)
    requires LocksDisjoint(s)
    ensures id in Unlocked(Survivors(s, events)).rows <==>
      id in Unlocked(s).rows || exists d :: d in s.locks && WillAbort(d, events) && s.locks[d].id == id
    ensures id in Unlocked(s).rows ==> Unlocked(s).rows[id] == s.db.rows[id]
    ensures id in Unlocked(Survivors(s, events)).rows ==> Unlocked(Survivors(s, events)).rows[id] == s.db.rows[id]
  {
    var t := Survivors(s, events);
    if id in LockedIds(s.locks) {
      var c :| c in s.locks && s.locks[c].id == id;
      if !WillAbort(c, events) {
        assert t.locks[c].id == id;
      }
    }
  }

  /** A claim sees the same row with and without the locks of claims that abort, unless it passes over one of
    their rows. */
  lemma SameUnlessPassedOver(s: Overlapping, events: seq<Event>, queue: Queue)
    requires ValidIds(s.db) && LocksDisjoint(s)
    ensures FirstReady(Unlocked(s), queue) == FirstReady(Unlocked(Survivors(s, events)), queue) <==>
      !exists d :: d in s.locks && WillAbort(d, events) && PassesOver(s, queue, s.locks[d].id)
  {
    var u, v := Unlocked(s), Unlocked(Survivors(s, events));
    var p, q := FirstReady(u, queue), FirstReady(v, queue);
    forall id ensures id in u.rows ==> id in v.rows && u.rows[id] == v.rows[id] == s.db.rows[id] {
      DoomedRowsAreFree(s, events, id);
    }
    FirstReadyIsNext(u, queue);
    FirstReadyIsNext(v, queue);
    if p != q {
      var id := q.value;
      DoomedRowsAreFree(s, events, id);
      if id in u.rows {
        assert IsReadyId(u, queue, id);
        assert false;
      }
      var d :| d in s.locks && WillAbort(d, events) && s.locks[d].id == id;
      assert PassesOver(s, queue, s.locks[d].id);
    } else if d :| d in s.locks && WillAbort(d, events) && PassesOver(s, queue, s.locks[d].id) {
      DoomedRowsAreFree(s, events, s.locks[d].id);
      assert IsReadyId(v, queue, s.locks[d].id);
    }
  }

  lemma SurvivorsLock(s: Overlapping, e: Event, rest: seq<Event>)
    requires ValidIds(s.db) && LocksDisjoint(s) && CanHappen(s, e) && e.Lock? && !Overtakes(s, e, rest)
    ensures Survivors(Step(s, e), rest) ==
      if IsDoomed(s, e, rest) then Survivors(s, rest) else Step(Survivors(s, rest), e)
  {
    SameUnlessPassedOver(s, rest, e.queue);
    var next, survivors := Survivors(Step(s, e), rest), Survivors(s, rest);
    assert next.locks == (if IsDoomed(s, e, rest) then survivors else Step(survivors, e)).locks;
  }

  lemma SurvivorsOther(s: Overlapping, e: Event, rest: seq<Event>)
    requires CanHappen(s, e) && !e.Lock?
    ensures !e.Abort? ==> CanHappen(Survivors(s, [e] + rest), e)
    ensures Survivors(Step(s, e), rest) ==
      if e.Abort? then Survivors(s, [e] + rest) else Step(Survivors(s, [e] + rest), e)
  {
    assert ([e] + rest)[1..] == rest;
    var next, survivors := Survivors(Step(s, e), rest), Survivors(s, [e] + rest);
    assert next.locks == (if e.Abort? then survivors else Step(survivors, e)).locks;
  }

  /** A step of the run is a step of the survivors, or none if it aborts or belongs to a claim that will. */
  lemma SurvivorsStep(s: Overlapping, e: Event, rest: seq<Event>)
    requires ValidIds(s.db) && LocksDisjoint(s) && CanHappen(s, e) && !Overtakes(s, e, rest)
    ensures !e.Abort? && !IsDoomed(s, e, rest) ==> CanHappen(Survivors(s, [e] + rest), e)
    ensures Survivors(Step(s, e), rest) ==
      if e.Abort? || IsDoomed(s, e, rest) then Survivors(s, [e] + rest) else Step(Survivors(s, [e] + rest), e)
  {
    if e.Lock? {
      assert ([e] + rest)[1..] == rest;
      assert Survivors(s, [e] + rest) == Survivors(s, rest);
      SurvivorsLock(s, e, rest);
    } else {
      SurvivorsOther(s, e, rest);
    }
  }

  lemma {:induction false} StandingRefines(s: Overlapping, a: Atomic, events: seq<Event>)
    requires ValidIds(s.db) && LocksDisjoint(s) && CanRun(s, events) && NoOvertaking(s, events)
    requires Refines(Survivors(s, events), a)
    ensures Refines(Survivors(RunAll(s, events), []), RunStanding(s, a, events))
    decreases |events|
  {
    if events != [] {
      var e, rest := events[0], events[1..];
      assert events == [e] + rest;
      StepKeepsDisjoint(s, e);
      SurvivorsStep(s, e, rest);
      if !e.Abort? && !IsDoomed(s, e, rest) {
        StepRefines(Survivors(s, events), a, e);
      }
      StandingRefines(Step(s, e), if IsDoomed(s, e, rest) then a else AtomicStep(a, e), rest);
    }
  }

  // ----- necessary ---------------------------------------------------------------------------------

  lemma {:induction false} ResultsGrow(s: Overlapping, events: seq<Event>, c: ConsumerId)
    requires CanRun(s, events)
    ensures ResultsOf(s.results, c) <= ResultsOf(RunAll(s, events).results, c)
    decreases |events|
  {
    if events != [] {
      ResultsGrow(Step(s, events[0]), events[1..], c);
    }
  }

  lemma {:induction false} StandingResultsGrow(s: Overlapping, a: Atomic, events: seq<Event>, c: ConsumerId)
    requires CanRun(s, events)
    ensures ResultsOf(a.results, c) <= ResultsOf(RunStanding(s, a, events).results, c)
    decreases |events|
  {
    if events != [] {
      StandingResultsGrow(Step(s, events[0]),
                          if IsDoomed(s, events[0], events[1..]) then a else AtomicStep(a, events[0]),
                          events[1..], c);
    }
  }

  /** A claim in flight that does not abort commits before the run is over, and its next result is the row it
    has locked. */
  lemma {:induction false} StandingClaimCommits(s: Overlapping, events: seq<Event>, c: ConsumerId)
    requires CanRun(s, events) && c in s.locks && !WillAbort(c, events) && c !in RunAll(s, events).locks
    ensures var had, got := ResultsOf(s.results, c), ResultsOf(RunAll(s, events).results, c);
      |had| < |got| && got[|had|].Some? && got[|had|].value.id == s.locks[c].id
    decreases |events|
  {
    var next := Step(s, events[0]);
    if events[0] == Commit(c) {
      ResultsGrow(next, events[1..], c);
    } else {
      StandingClaimCommits(next, events[1..], c);
    }
  }

  /** The next result of a claim that stands is the row it finds, or nothing. */
  lemma StandingClaimResult(s: Overlapping, c: ConsumerId, queue: Queue, rest: seq<Event>)
    requires CanHappen(s, Lock(c, queue)) && CanRun(Step(s, Lock(c, queue)), rest)
    requires !IsDoomed(s, Lock(c, queue), rest) && c !in RunAll(Step(s, Lock(c, queue)), rest).locks
    ensures var had, got := ResultsOf(s.results, c), ResultsOf(RunAll(Step(s, Lock(c, queue)), rest).results, c);
      && |had| < |got|
      && match FirstReady(Unlocked(s), queue)
         case None => got[|had|] == None
         case Some(id) => got[|had|].Some? && got[|had|].value.id == id
  {
    var next := Step(s, Lock(c, queue));
    ResultsGrow(next, rest, c);
    if FirstReady(Unlocked(s), queue).Some? {
      StandingClaimCommits(next, rest, c);
    }
  }

  /** A claim that overtakes gets a result that the atomic claim does not get. */
  lemma OvertakingShows(s: Overlapping, a: Atomic, e: Event, rest: seq<Event>)
    requires ValidIds(s.db) && LocksDisjoint(s) && CanHappen(s, e) && CanRun(Step(s, e), rest)
    requires Overtakes(s, e, rest) && Refines(Survivors(s, rest), a)
    requires RunAll(Step(s, e), rest).locks == map[]
    ensures ResultsOf(RunAll(Step(s, e), rest).results, e.consumer)
         != ResultsOf(RunStanding(Step(s, e), AtomicStep(a, e), rest).results, e.consumer)
  {
    var c := e.consumer;
    SameUnlessPassedOver(s, rest, e.queue);
    SameFirstReady(Survivors(s, rest), a, e.queue);
    assert FirstReady(a.db, e.queue) != FirstReady(Unlocked(s), e.queue);
    OvertakenIsReady(s, a, e, rest);
    assert ClaimMatches(Survivors(s, rest), a, c);
    StandingClaimResult(s, c, e.queue, rest);
    StandingResultsGrow(Step(s, e), AtomicStep(a, e), rest, c);
  }

  lemma OvertakenIsReady(s: Overlapping, a: Atomic, e: Event, rest: seq<Event>)
    requires ValidIds(s.db) && LocksDisjoint(s) && Overtakes(s, e, rest) && Refines(Survivors(s, rest), a)
    ensures FirstReady(a.db, e.queue).Some?
  {
    var d :| d in s.locks && WillAbort(d, rest) && PassesOver(s, e.queue, s.locks[d].id);
    DoomedRowsAreFree(s, rest, s.locks[d].id);
    var free := Unlocked(Survivors(s, rest));
    FirstReadyIsNext(free, e.queue);
    assert IsReadyId(free, e.queue, s.locks[d].id);
    SameFirstReady(Survivors(s, rest), a, e.queue);
  }

  lemma {:induction false} OvertakingAlwaysShows(s: Overlapping, a: Atomic, events: seq<Event>) returns (c: ConsumerId)
    requires ValidIds(s.db) && LocksDisjoint(s) && CanRun(s, events) && !NoOvertaking(s, events)
    requires Refines(Survivors(s, events), a) && RunAll(s, events).locks == map[]
    ensures ResultsOf(RunAll(s, events).results, c) != ResultsOf(RunStanding(s, a, events).results, c)
    decreases |events|
  {
    var e, rest := events[0], events[1..];
    assert events == [e] + rest;
    if Overtakes(s, e, rest) {
      assert Survivors(s, events) == Survivors(s, rest);
      OvertakingShows(s, a, e, rest);
      c := e.consumer;
    } else {
      StepKeepsDisjoint(s, e);
      SurvivorsStep(s, e, rest);
      if !e.Abort? && !IsDoomed(s, e, rest) {
        StepRefines(Survivors(s, events), a, e);
      }
      c := OvertakingAlwaysShows(Step(s, e), if IsDoomed(s, e, rest) then a else AtomicStep(a, e), rest);
    }
  }

  // ----- exactly when ------------------------------------------------------------------------------

  ghost predicate LooksAtomic(db: Db, events: seq<Event>)
    requires CanRun(Overlapping(db, map[], map[]), events)
  {
    var overlapping := RunAll(Overlapping(db, map[], map[]), events);
    var atomic := RunStanding(Overlapping(db, map[], map[]), Atomic(db, map[]), events);
    && overlapping.db == atomic.db
    && forall c :: ResultsOf(overlapping.results, c) == ResultsOf(atomic.results, c)
  }

  /** Any overlapping run of claims, aborts included, once no claim is in flight any more, has the final table
    and the results of the same run with atomic claims in lock order and without the claims that aborted, if
    and only if no claim that stands has passed over a row whose holder aborts. */
  lemma AtomicIffNoOvertaking(db: Db, events: seq<Event>)
    requires ValidIds(db) && CanRun(Overlapping(db, map[], map[]), events)
    requires RunAll(Overlapping(db, map[], map[]), events).locks == map[]
    ensures LooksAtomic(db, events) <==> NoOvertaking(Overlapping(db, map[], map[]), events)
  {
    var s, a := Overlapping(db, map[], map[]), Atomic(db, map[]);
    assert Survivors(s, events) == s;
    if NoOvertaking(s, events) {
      StandingRefines(s, a, events);
      assert Survivors(RunAll(s, events), []) == RunAll(s, events);
      IdleIsAtomic(RunAll(s, events), RunStanding(s, a, events));
    } else {
      var c := OvertakingAlwaysShows(s, a, events);
    }
  }
}
