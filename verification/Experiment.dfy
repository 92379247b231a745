/** The locking experiment: one run of `jobs` jobs by consumers whose transactions last as long as the
  work, under each of the three claim queries.

  A run is a value, and a step is what one consumer does between two awaits: its claim query, waking up
  from a row lock, completing its job and committing, the check for pending jobs, and failing, which rolls
  its transaction back. Steps of the consumers interleave freely. */
module Experiment {
  import opened Prelude

  datatype Mode = NoLock | ForUpdate | SkipLocked

  datatype Execution = Execution(job: int, consumer: int)

  datatype Phase =
    | Claiming           // about to run the claim query in a new transaction
    | Waiting(job: int)  // blocked on the row lock of a job, holding none (FOR UPDATE only)
    | Working(job: int)  // in the transaction that selected the job, holding its lock in a locking mode
    | Checking           // the claim returned nothing: about to ask whether any job is pending
    | Sleeping           // there is one: asleep for 5 ms
    | Exited
    | Failed             // error, timeout or cancellation

  datatype Run = Run(
    mode: Mode,
    jobs: nat,
    done: set<int>,
    executions: seq<Execution>,
    phases: map<int, Phase>)

  predicate IsJob(r: Run, job: int) { 1 <= job <= r.jobs }

  predicate IsPending(r: Run, job: int) { IsJob(r, job) && job !in r.done }

  predicate IsWorkingOn(r: Run, c: int, job: int) { c in r.phases && r.phases[c] == Working(job) }

  /** Whether some transaction holds the row lock of a job. */
  predicate IsLocked(r: Run, job: int)
  {
    r.mode != NoLock && exists c :: c in r.phases && IsWorkingOn(r, c, job)
  }

  predicate IsLive(p: Phase) { !p.Exited? && !p.Failed? }

  function Start(mode: Mode, jobs: nat, consumers: nat): Run
  {
    Run(mode, jobs, {}, [], map c | 1 <= c <= consumers && IsMember(c, consumers) :: Claiming)
  }

  predicate IsMember(c: int, consumers: nat) { 1 <= c <= consumers }

  /** SELECT id ... WHERE status = 'pending' ORDER BY id LIMIT 1, from `job` on; with `skip`, past the
    rows locked by others. */
  function FirstPendingFrom(r: Run, job: int, skip: bool): (first: Option<int>)
    requires 1 <= job
    ensures first.Some? ==> IsPending(r, first.value) && job <= first.value && (skip ==> !IsLocked(r, first.value))
    ensures first.Some? ==>
      forall j :: job <= j < first.value && IsPending(r, j) ==> skip && IsLocked(r, j)
    ensures first.None? ==> forall j :: job <= j && IsPending(r, j) ==> skip && IsLocked(r, j)
    decreases r.jobs + 1 - job
  {
    if r.jobs < job then None
    else if job !in r.done && !(skip && IsLocked(r, job)) then Some(job)
    else FirstPendingFrom(r, job + 1, skip)
  }

  datatype Event =
    | Claim(consumer: int)
    | Unblock(consumer: int, next: Option<int>)
    | Complete(consumer: int, heard: bool)
    | Check(consumer: int)
    | Resume(consumer: int)
    | Fail(consumer: int)

  predicate CanStep(r: Run, e: Event)
  {
    e.consumer in r.phases &&
    var p := r.phases[e.consumer];
    match e
    case Claim(_) => p.Claiming?
    // The lock is free. If the job is still pending (its holder rolled back) it is ours. If not, the query
    // comes back with nothing or goes on to another pending row: which of the two is left open.
    case Unblock(_, next) =>
      p.Waiting? && !IsLocked(r, p.job) &&
      (if IsPending(r, p.job) then next == Some(p.job) else next.Some? ==> IsPending(r, next.value))
    case Complete(_, _) => p.Working?
    case Check(_) => p.Checking?
    case Resume(_) => p.Sleeping?
    case Fail(_) => IsLive(p)
  }

  /** Take the row lock of a job or wait for it. */
  function Locking(r: Run, job: int): Phase
  {
    if IsLocked(r, job) then Waiting(job) else Working(job)
  }

  function Claimed(r: Run): Phase
  {
    match FirstPendingFrom(r, 1, r.mode.SkipLocked?)
    case None => Checking
    case Some(job) => Locking(r, job)
  }

  function Moved(r: Run, c: int, p: Phase): Run { r.(phases := r.phases[c := p]) }

  function Step(r: Run, e: Event): Run
    requires CanStep(r, e)
  {
    match e
    case Claim(c) => Moved(r, c, Claimed(r))
    case Unblock(c, next) => Moved(r, c, if next.Some? then Locking(r, next.value) else Checking)
    case Complete(c, heard) =>
      var job := r.phases[c].job;
      Moved(r, c, if heard then Claiming else Failed).(
        done := r.done + {job}, executions := r.executions + [Execution(job, c)])
    case Check(c) => Moved(r, c, if FirstPendingFrom(r, 1, false).Some? then Sleeping else Exited)
    case Resume(c) => Moved(r, c, Claiming)
    case Fail(c) => Moved(r, c, Failed)
  }

  /** What the three claim queries come to. Without a lock a claim takes the first pending job, whoever works on it.
    With FOR UPDATE it takes the first pending job, or waits for it if somebody works on it. With SKIP LOCKED it
    takes the first pending job that nobody works on, and never waits. It finds nothing if and only if there is no
    such job. */
  lemma ClaimTakes(r: Run, c: int)
    requires CanStep(r, Claim(c))
    ensures match Step(r, Claim(c)).phases[c]
      case Working(job) =>
        && IsPending(r, job) && (r.mode != NoLock ==> forall d :: !IsWorkingOn(r, d, job))
        && forall j :: j < job && IsPending(r, j) ==> r.mode == SkipLocked && exists d :: IsWorkingOn(r, d, j)
      case Waiting(job) =>
        && r.mode == ForUpdate && IsPending(r, job) && (exists d :: IsWorkingOn(r, d, job))
        && forall j :: j < job ==> !IsPending(r, j)
      case Checking => forall j :: IsPending(r, j) ==> r.mode == SkipLocked && exists d :: IsWorkingOn(r, d, j)
      case _ => false
  {
  }

  // ----- what every step keeps ---------------------------------------------------------------------

  /** The executions of a job, if any, say that it is done; and no consumer has executed it twice. */
  ghost predicate ExecutionsMatch(r: Run)
  {
    && (forall i :: 0 <= i < |r.executions| ==>
          r.executions[i].job in r.done && r.executions[i].consumer in r.phases)
    && (forall job :: job in r.done ==>
          IsJob(r, job) && exists i :: 0 <= i < |r.executions| && r.executions[i].job == job)
    && (forall i, j :: 0 <= i < j < |r.executions| ==> r.executions[i] != r.executions[j])
  }

  ghost predicate ExecutedOnce(r: Run)
  {
    r.mode != NoLock ==> NoJobTwice(r.executions)
  }

  /** What a consumer works on it has not executed; in a locking mode nobody has, and nobody else works on
    it. What it waits for is somebody else's. Once one has exited, every job is done. */
  ghost predicate PhaseMatches(r: Run, c: int)
  {
    c in r.phases ==>
      match r.phases[c]
      case Working(job) =>
        && IsJob(r, job)
        && Execution(job, c) !in r.executions
        && (r.mode != NoLock ==> job !in r.done && forall d :: IsWorkingOn(r, d, job) ==> d == c)
      case Waiting(job) => r.mode.ForUpdate? && IsJob(r, job)
      case Exited => forall job :: !IsPending(r, job)
      case _ => true
  }

  ghost predicate ValidRun(r: Run)
  {
    ExecutionsMatch(r) && ExecutedOnce(r) && forall c :: PhaseMatches(r, c)
  }

  lemma CompleteKeepsExecutions(r: Run, c: int, heard: bool)
    requires ValidRun(r) && CanStep(r, Complete(c, heard))
    ensures ExecutionsMatch(Step(r, Complete(c, heard))) && ExecutedOnce(Step(r, Complete(c, heard)))
  {
    var t := Step(r, Complete(c, heard));
    assert PhaseMatches(r, c);
    assert t.executions[|r.executions|].job == r.phases[c].job;
    forall job | job in r.done ensures exists i :: 0 <= i < |t.executions| && t.executions[i].job == job {
      var i :| 0 <= i < |r.executions| && r.executions[i].job == job;
      assert t.executions[i].job == job;
    }
  }

  lemma StepKeepsPhase(r: Run, e: Event, c: int)
    requires ValidRun(r) && CanStep(r, e)
    ensures PhaseMatches(Step(r, e), c)
  {
    assert PhaseMatches(r, c) && PhaseMatches(r, e.consumer);
    var t := Step(r, e);
    assert forall job :: IsPending(t, job) ==> IsPending(r, job);
    if c in t.phases && t.phases[c].Working? && r.mode != NoLock {
      assert c != e.consumer ==> IsWorkingOn(r, c, t.phases[c].job);
      assert e.Complete? ==> IsWorkingOn(r, e.consumer, r.phases[e.consumer].job);
      forall d | IsWorkingOn(t, d, t.phases[c].job) ensures d == c {
        assert PhaseMatches(r, d);
        if d != e.consumer {
          assert IsWorkingOn(r, d, t.phases[c].job);
        }
      }
    }
  }

  lemma StepKeepsValid(r: Run, e: Event)
    requires ValidRun(r) && CanStep(r, e)
    ensures ValidRun(Step(r, e))
  {
    if e.Complete? {
      CompleteKeepsExecutions(r, e.consumer, e.heard);
    }
    forall c ensures PhaseMatches(Step(r, e), c) { StepKeepsPhase(r, e, c); }
  }

  ghost predicate IsRun(r: Run, events: seq<Event>)
    decreases |events|
  {
    events == [] || (CanStep(r, events[0]) && IsRun(Step(r, events[0]), events[1..]))
  }

  function After(r: Run, events: seq<Event>): Run
    requires IsRun(r, events)
    decreases |events|
  {
    if events == [] then r else After(Step(r, events[0]), events[1..])
  }

  lemma {:induction false} RunKeepsValid(r: Run, events: seq<Event>)
    requires ValidRun(r) && IsRun(r, events)
    ensures ValidRun(After(r, events))
    ensures After(r, events).phases.Keys == r.phases.Keys
    ensures After(r, events).mode == r.mode && After(r, events).jobs == r.jobs
    decreases |events|
  {
    if events != [] {
      StepKeepsValid(r, events[0]);
      RunKeepsValid(Step(r, events[0]), events[1..]);
    }
  }

  // ----- exactly once ------------------------------------------------------------------------------

  /** How many execution rows a job has. */
  function TimesExecuted(executions: seq<Execution>, job: int): nat
  {
    if executions == [] then 0
    else (if executions[0].job == job then 1 else 0) + TimesExecuted(executions[1..], job)
  }

  lemma {:induction false} NeverExecuted(executions: seq<Execution>, job: int)
    requires forall i :: 0 <= i < |executions| ==> executions[i].job != job
    ensures TimesExecuted(executions, job) == 0
  {
    if executions != [] {
      NeverExecuted(executions[1..], job);
    }
  }

  lemma {:induction false} ExecutedAt(executions: seq<Execution>, job: int, at: nat)
    requires at < |executions| && executions[at].job == job
    requires forall i :: 0 <= i < |executions| && executions[i].job == job ==> i == at
    ensures TimesExecuted(executions, job) == 1
  {
    if at == 0 {
      NeverExecuted(executions[1..], job);
    } else {
      ExecutedAt(executions[1..], job, at - 1);
    }
  }

  /** With FOR UPDATE and with SKIP LOCKED, whatever the interleaving and whoever fails and rolls back, a
    job has one execution row if it is done and none if it is pending. */
  lemma ExactlyOnce(mode: Mode, jobs: nat, consumers: nat, events: seq<Event>, job: int)
    requires mode != NoLock && IsRun(Start(mode, jobs, consumers), events)
    ensures var r := After(Start(mode, jobs, consumers), events);
      TimesExecuted(r.executions, job) == if job in r.done then 1 else 0
  {
    RunKeepsValid(Start(mode, jobs, consumers), events);
    var r := After(Start(mode, jobs, consumers), events);
    if job in r.done {
      var at :| 0 <= at < |r.executions| && r.executions[at].job == job;
      ExecutedAt(r.executions, job, at);
    } else {
      NeverExecuted(r.executions, job);
    }
  }

  // ----- completeness and duplicates ---------------------------------------------------------------

  function JobsOf(executions: seq<Execution>): set<int>
  {
    set e | e in executions :: e.job
  }

  /** executions - unique_jobs. */
  function Duplicates(executions: seq<Execution>): int { |executions| - |JobsOf(executions)| }

  ghost predicate NoJobTwice(executions: seq<Execution>)
  {
    forall i, j :: 0 <= i < j < |executions| ==> executions[i].job != executions[j].job
  }

  lemma {:induction false} JobsOfCount(executions: seq<Execution>)
    ensures |JobsOf(executions)| <= |executions|
    ensures NoJobTwice(executions) <==> |JobsOf(executions)| == |executions|
  {
    if executions != [] {
      JobsOfCount(executions[1..]);
      assert JobsOf(executions) == JobsOf(executions[1..]) + {executions[0].job};
    }
  }

  lemma {:induction false} DistinctCount(executions: seq<Execution>)
    requires forall i, j :: 0 <= i < j < |executions| ==> executions[i] != executions[j]
    ensures |set e | e in executions| == |executions|
  {
    if executions != [] {
      var rest := executions[1..];
      DistinctCount(rest);
      assert (set e | e in executions) == (set e | e in rest) + {executions[0]};
    }
  }

  lemma {:induction false} RowBound(executions: set<Execution>, job: int, consumers: nat)
    requires forall e :: e in executions ==> e.job == job && 1 <= e.consumer <= consumers
    ensures |executions| <= consumers
  {
    if consumers == 0 {
      assert executions == {};
    } else {
      RowBound(executions - {Execution(job, consumers)}, job, consumers - 1);
    }
  }

  lemma SplitCount<T>(whole: set<T>, part: set<T>)
    requires part <= whole
    ensures |whole| == |whole - part| + |part|
  {
  }

  lemma {:induction false} GridBound(executions: set<Execution>, jobs: nat, consumers: nat)
    requires forall e :: e in executions ==> 1 <= e.job <= jobs && 1 <= e.consumer <= consumers
    ensures |executions| <= jobs * consumers
  {
    if jobs == 0 {
      assert executions == {};
    } else {
      var row := set e | e in executions && e.job == jobs;
      var rest := executions - row;
      RowBound(row, jobs, consumers);
      GridBound(rest, jobs - 1, consumers);
      SplitCount(executions, row);
      assert jobs * consumers == (jobs - 1) * consumers + consumers;
    }
  }

  lemma {:induction false} IntervalCount(s: set<int>, n: nat)
    requires forall x :: x in s <==> 1 <= x <= n
    ensures |s| == n
  {
    if n == 0 {
      assert forall x :: x !in s;
      assert s == {};
    } else {
      IntervalCount(s - {n}, n - 1);
    }
  }

  /** The run makes at most jobs * consumers commits, since no consumer executes a job twice. */
  lemma CommitBound(mode: Mode, jobs: nat, consumers: nat, events: seq<Event>)
    requires IsRun(Start(mode, jobs, consumers), events)
    ensures var r := After(Start(mode, jobs, consumers), events);
      && (forall i, j :: 0 <= i < j < |r.executions| ==> r.executions[i] != r.executions[j])
      && |r.executions| <= jobs * consumers
  {
    RunKeepsValid(Start(mode, jobs, consumers), events);
    var r := After(Start(mode, jobs, consumers), events);
    DistinctCount(r.executions);
    forall e | e in r.executions ensures 1 <= e.job <= jobs && 1 <= e.consumer <= consumers {
      var i :| 0 <= i < |r.executions| && r.executions[i] == e;
      assert r.executions[i].consumer in Start(mode, jobs, consumers).phases;
    }
    GridBound((set e | e in r.executions), jobs, consumers);
  }

  /** Once any consumer has exited normally, every job is done. */
  lemma Completeness(mode: Mode, jobs: nat, consumers: nat, events: seq<Event>, c: int)
    requires IsRun(Start(mode, jobs, consumers), events)
    requires var r := After(Start(mode, jobs, consumers), events); c in r.phases && r.phases[c].Exited?
    ensures var r := After(Start(mode, jobs, consumers), events);
      && (forall job :: job in r.done <==> 1 <= job <= jobs)
      && (forall job :: job in JobsOf(r.executions) <==> 1 <= job <= jobs)
  {
    RunKeepsValid(Start(mode, jobs, consumers), events);
    var r := After(Start(mode, jobs, consumers), events);
    assert PhaseMatches(r, c);
    forall job ensures job in r.done <==> 1 <= job <= jobs { assert !IsPending(r, job); }
    forall job | job in r.done ensures job in JobsOf(r.executions) {
      var i :| 0 <= i < |r.executions| && r.executions[i].job == job;
      assert r.executions[i] in r.executions;
    }
  }

  /** A finished run has between `jobs` and jobs * consumers executions, so between 0 and
    jobs * (consumers - 1) duplicates, and none in the locking modes. */
  lemma DuplicateBound(mode: Mode, jobs: nat, consumers: nat, events: seq<Event>)
    requires 1 <= consumers && IsRun(Start(mode, jobs, consumers), events)
    requires var r := After(Start(mode, jobs, consumers), events); forall c :: c in r.phases ==> r.phases[c].Exited?
    ensures var r := After(Start(mode, jobs, consumers), events);
      && jobs <= |r.executions| <= jobs * consumers
      && |JobsOf(r.executions)| == jobs
      && 0 <= Duplicates(r.executions) <= jobs * (consumers - 1)
      && (mode != NoLock ==> Duplicates(r.executions) == 0)
  {
    RunKeepsValid(Start(mode, jobs, consumers), events);
    var r := After(Start(mode, jobs, consumers), events);
    assert 1 in Start(mode, jobs, consumers).phases && 1 in r.phases;
    Completeness(mode, jobs, consumers, events, 1);
    CommitBound(mode, jobs, consumers, events);
    JobsOfCount(r.executions);
    IntervalCount(JobsOf(r.executions), jobs);
  }

  // ----- progress ----------------------------------------------------------------------------------

  /** Whether a consumer can step without waiting for another one. */
  predicate IsUnblocked(r: Run, c: int)
  {
    c in r.phases && IsLive(r.phases[c]) && (r.phases[c].Waiting? ==> !IsLocked(r, r.phases[c].job))
  }

  /** A consumer that waits for a row lock holds none, and the lock it waits for is held by one that does
    not wait: there is no cycle of waits. So as long as any consumer is live, one can step. */
  lemma NoDeadlock(r: Run, c: int) returns (free: int)
    requires ValidRun(r) && c in r.phases && IsLive(r.phases[c])
    ensures IsUnblocked(r, free)
    ensures free != c ==> r.phases[c].Waiting? && IsWorkingOn(r, free, r.phases[c].job)
    ensures exists e: Event :: e.consumer == free && !e.Fail? && CanStep(r, e)
  {
    free := c;
    if r.phases[c].Waiting? && IsLocked(r, r.phases[c].job) {
      free :| free in r.phases && IsWorkingOn(r, free, r.phases[c].job);
    }
    var e := match r.phases[free]
      case Claiming => Claim(free)
      case Waiting(job) => Unblock(free, if IsPending(r, job) then Some(job) else None)
      case Working(_) => Complete(free, true)
      case Checking => Check(free)
      case _ => Resume(free);
    assert CanStep(r, e) && e.consumer == free && !e.Fail?;
  }

  /** A consumer that waits for a row lock gets the job if its holder fails and rolls back, and goes on without it if
    its holder commits. */
  lemma WaiterTakesOver(r: Run, c: int, d: int, job: int, heard: bool)
    requires ValidRun(r) && c in r.phases && r.phases[c] == Waiting(job) && IsWorkingOn(r, d, job)
    ensures var rolledBack := Step(r, Fail(d));
      && CanStep(rolledBack, Unblock(c, Some(job)))
      && Step(rolledBack, Unblock(c, Some(job))).phases[c] == Working(job)
    ensures var committed := Step(r, Complete(d, heard));
      && !CanStep(committed, Unblock(c, Some(job))) && CanStep(committed, Unblock(c, None))
      && Step(committed, Unblock(c, None)).phases[c] == Checking
  {
    assert PhaseMatches(r, c) && PhaseMatches(r, d);
    forall x ensures !IsWorkingOn(Step(r, Fail(d)), x, job) && !IsWorkingOn(Step(r, Complete(d, heard)), x, job) {
      assert IsWorkingOn(r, x, job) ==> x == d;
    }
  }

  function PendingJobs(r: Run): set<int> { set job | 1 <= job <= r.jobs && IsPending(r, job) }

  function WorkingConsumers(r: Run): set<int> { set c | c in r.phases && r.phases[c].Working? }

  /** How many steps a consumer is away from its next claim when nobody holds a lock. */
  function StepsToClaim(p: Phase): nat
  {
    match p
    case Waiting(_) => 3
    case Checking => 2
    case Sleeping => 1
    case _ => 0
  }

  /** Nobody works and some job is pending: what a live consumer does next. */
  function NextAlone(r: Run, c: int): Event
    requires c in r.phases && IsLive(r.phases[c])
  {
    match r.phases[c]
    case Waiting(job) => Unblock(c, if IsPending(r, job) then Some(job) else None)
    case Checking => Check(c)
    case Sleeping => Resume(c)
    case _ => Claim(c)
  }

  lemma AloneGetsOn(r: Run, c: int)
    requires ValidRun(r) && c in r.phases && IsLive(r.phases[c])
    requires |WorkingConsumers(r)| == 0 && |PendingJobs(r)| > 0
    ensures CanStep(r, NextAlone(r, c))
    ensures var t := Step(r, NextAlone(r, c));
      && PendingJobs(t) == PendingJobs(r) && IsLive(t.phases[c])
      && (t.phases[c].Working? ==> t.phases[c].job in PendingJobs(t))
      && (!t.phases[c].Working? ==> |WorkingConsumers(t)| == 0 && StepsToClaim(t.phases[c]) < StepsToClaim(r.phases[c]))
  {
    forall d | d in r.phases ensures !r.phases[d].Working? {
      assert d !in WorkingConsumers(r);
    }
    assert WorkingConsumers(Step(r, NextAlone(r, c))) <= {c};
    var job :| job in PendingJobs(r);
    assert IsPending(r, job) && !IsLocked(r, job);
  }

  lemma CompletingGetsOn(r: Run, c: int)
    requires ValidRun(r) && c in r.phases && r.phases[c].Working?
    ensures var t := Step(r, Complete(c, true));
      && PendingJobs(t) == PendingJobs(r) - {r.phases[c].job}
      && WorkingConsumers(t) == WorkingConsumers(r) - {c}
  {
  }

  lemma {:induction false} RunsCompose(r: Run, first: seq<Event>, rest: seq<Event>)
    requires IsRun(r, first) && IsRun(After(r, first), rest)
    ensures IsRun(r, first + rest) && After(r, first + rest) == After(After(r, first), rest)
    decreases |first|
  {
    if first == [] {
      assert first + rest == rest;
    } else {
      assert (first + rest)[1..] == first[1..] + rest;
      RunsCompose(Step(r, first[0]), first[1..], rest);
    }
  }

  /** `t` is closer to the end than `r`: fewer jobs are pending, or fewer consumers still work, or `c` is
    fewer steps away from its next claim. */
  predicate IsCloser(t: Run, r: Run, c: int)
    requires c in t.phases && c in r.phases
  {
    || |PendingJobs(t)| < |PendingJobs(r)|
    || (|PendingJobs(t)| == |PendingJobs(r)| && |WorkingConsumers(t)| < |WorkingConsumers(r)|)
    || (|PendingJobs(t)| == |PendingJobs(r)| && |WorkingConsumers(t)| == |WorkingConsumers(r)|
        && StepsToClaim(t.phases[c]) < StepsToClaim(r.phases[c]))
  }

  /** With nobody working: a step to the next claim, and from the claim to the commit. */
  lemma GetsOnAlone(r: Run, c: int) returns (first: seq<Event>, t: Run)
    requires ValidRun(r) && c in r.phases && IsLive(r.phases[c])
    requires |PendingJobs(r)| > 0 && |WorkingConsumers(r)| == 0
    ensures IsRun(r, first) && t == After(r, first) && ValidRun(t)
    ensures forall i :: 0 <= i < |first| ==> !first[i].Fail? && (first[i].Complete? ==> first[i].heard)
    ensures c in t.phases && IsLive(t.phases[c]) && IsCloser(t, r, c)
  {
    AloneGetsOn(r, c);
    var e := NextAlone(r, c);
    StepKeepsValid(r, e);
    first, t := [e], Step(r, e);
    if t.phases[c].Working? {
      CompletingGetsOn(t, c);
      StepKeepsValid(t, Complete(c, true));
      RunsCompose(r, [e], [Complete(c, true)]);
      first, t := [e] + [Complete(c, true)], Step(t, Complete(c, true));
    }
  }

  /** One or two steps that bring the run closer to its end. If anybody works, its commit will do. */
  lemma GetsOn(r: Run, c: int) returns (first: seq<Event>, t: Run)
    requires ValidRun(r) && c in r.phases && IsLive(r.phases[c]) && |PendingJobs(r)| > 0
    ensures IsRun(r, first) && t == After(r, first) && ValidRun(t)
    ensures forall i :: 0 <= i < |first| ==> !first[i].Fail? && (first[i].Complete? ==> first[i].heard)
    ensures c in t.phases && IsLive(t.phases[c]) && IsCloser(t, r, c)
  {
    if |WorkingConsumers(r)| == 0 {
      first, t := GetsOnAlone(r, c);
    } else {
      var d := Choose(WorkingConsumers(r));
      CompletingGetsOn(r, d);
      StepKeepsValid(r, Complete(d, true));
      first, t := [Complete(d, true)], Step(r, Complete(d, true));
    }
  }

  /** From every reachable state with a live consumer some schedule, in which nobody fails, completes
    every job. */
  lemma {:induction false} CanAlwaysFinish(r: Run, c: int) returns (events: seq<Event>)
    requires ValidRun(r) && c in r.phases && IsLive(r.phases[c])
    ensures IsRun(r, events) && PendingJobs(After(r, events)) == {}
    ensures forall i :: 0 <= i < |events| ==> !events[i].Fail? && (events[i].Complete? ==> events[i].heard)
    decreases |PendingJobs(r)|, |WorkingConsumers(r)|, StepsToClaim(r.phases[c])
  {
    events := [];
    if |PendingJobs(r)| > 0 {
      var first, t := GetsOn(r, c);
      var rest := CanAlwaysFinish(t, c);
      RunsCompose(r, first, rest);
      events := first + rest;
    }
  }

  // ----- and everyone comes home ---------------------------------------------------------------------

  /** Nobody fails. */
  predicate IsGood(e: Event) { !e.Fail? && (e.Complete? ==> e.heard) }

  function LiveConsumers(r: Run): set<int> { set c | c in r.phases && IsLive(r.phases[c]) }

  /** Every job is done, and nobody works any more. */
  ghost predicate IsOver(r: Run) { PendingJobs(r) == {} && WorkingConsumers(r) == {} }

  /** Between the two runs consumer `c` alone may have moved, and nothing else has changed. */
  ghost predicate OnlyMoves(r: Run, t: Run, c: int)
  {
    c in r.phases && t == r.(phases := t.phases) && t.phases.Keys == r.phases.Keys
    && forall d :: d in r.phases && d != c ==> t.phases[d] == r.phases[d]
  }

  /** A good run from `r` to `t`. */
  ghost predicate LeadsTo(r: Run, events: seq<Event>, t: Run)
  {
    IsRun(r, events) && After(r, events) == t && forall i :: 0 <= i < |events| ==> IsGood(events[i])
  }

  lemma LeadsOn(r: Run, first: seq<Event>, s: Run, rest: seq<Event>, t: Run)
    requires LeadsTo(r, first, s) && LeadsTo(s, rest, t)
    ensures LeadsTo(r, first + rest, t)
  {
    RunsCompose(r, first, rest);
  }

  lemma OneStep(r: Run, e: Event)
    requires CanStep(r, e) && IsGood(e)
    ensures LeadsTo(r, [e], Step(r, e))
  {
    assert [e][1..] == [];
    assert After(Step(r, e), []) == Step(r, e);
  }

  /** What a live consumer does next when all is over. */
  function NextHome(r: Run, c: int): Event
    requires c in r.phases && IsLive(r.phases[c]) && !r.phases[c].Working?
  {
    match r.phases[c]
    case Waiting(_) => Unblock(c, None)
    case Checking => Check(c)
    case Sleeping => Resume(c)
    case _ => Claim(c)
  }

  function StepsHome(p: Phase): nat
  {
    match p
    case Sleeping => 3
    case Claiming => 2
    case Waiting(_) => 2
    case Checking => 1
    case _ => 0
  }

  lemma OneStepHome(r: Run, c: int)
    requires ValidRun(r) && IsOver(r) && c in r.phases && IsLive(r.phases[c])
    ensures !r.phases[c].Working? && CanStep(r, NextHome(r, c)) && IsGood(NextHome(r, c))
    ensures var t := Step(r, NextHome(r, c));
      && IsOver(t) && OnlyMoves(r, t, c) && StepsHome(t.phases[c]) < StepsHome(r.phases[c])
      && (t.phases[c].Exited? || IsLive(t.phases[c]))
  {
    assert c !in WorkingConsumers(r);
    forall job ensures !IsPending(r, job) {
      assert job !in PendingJobs(r);
    }
    forall d | d in r.phases ensures !r.phases[d].Working? {
      assert d !in WorkingConsumers(r);
    }
    var t := Step(r, NextHome(r, c));
    assert PendingJobs(t) == PendingJobs(r);
    assert WorkingConsumers(t) == {};
  }

  /** When all is over, each consumer finds its way out. */
  lemma {:induction false} OneGoesHome(r: Run, c: int) returns (events: seq<Event>, t: Run)
    requires ValidRun(r) && IsOver(r) && c in r.phases && IsLive(r.phases[c])
    ensures LeadsTo(r, events, t) && ValidRun(t) && IsOver(t) && OnlyMoves(r, t, c) && t.phases[c].Exited?
    decreases StepsHome(r.phases[c])
  {
    OneStepHome(r, c);
    var e := NextHome(r, c);
    var s := Step(r, e);
    StepKeepsValid(r, e);
    OneStep(r, e);
    events, t := [e], s;
    if IsLive(s.phases[c]) {
      var rest;
      rest, t := OneGoesHome(s, c);
      LeadsOn(r, [e], s, rest, t);
      events := [e] + rest;
    }
  }

  lemma {:induction false} AllGoHome(r: Run) returns (events: seq<Event>, t: Run)
    requires ValidRun(r) && IsOver(r)
    ensures LeadsTo(r, events, t) && t.phases.Keys == r.phases.Keys
    ensures forall c :: c in r.phases ==> t.phases[c] == if IsLive(r.phases[c]) then Exited else r.phases[c]
    decreases |LiveConsumers(r)|
  {
    events, t := [], r;
    if |LiveConsumers(r)| > 0 {
      var c := Choose(LiveConsumers(r));
      var first, s := OneGoesHome(r, c);
      forall d ensures d in LiveConsumers(s) <==> d in LiveConsumers(r) - {c} {
        assert d in r.phases && d != c ==> s.phases[d] == r.phases[d];
      }
      assert LiveConsumers(s) == LiveConsumers(r) - {c};
      var rest;
      rest, t := AllGoHome(s);
      LeadsOn(r, first, s, rest, t);
      events := first + rest;
    } else {
      forall c | c in r.phases ensures !IsLive(r.phases[c]) {
        assert c !in LiveConsumers(r);
      }
    }
  }

  /** Those who still work when the last job is done, on a job that somebody else has done too, complete it. */
  lemma {:induction false} AllComplete(r: Run) returns (events: seq<Event>, t: Run)
    requires ValidRun(r) && PendingJobs(r) == {}
    ensures LeadsTo(r, events, t) && ValidRun(t) && IsOver(t) && t.phases.Keys == r.phases.Keys
    ensures forall c :: c in r.phases ==>
      t.phases[c] == r.phases[c] || (IsLive(r.phases[c]) && IsLive(t.phases[c]))
    decreases |WorkingConsumers(r)|
  {
    events, t := [], r;
    if |WorkingConsumers(r)| > 0 {
      var c := Choose(WorkingConsumers(r));
      CompletingGetsOn(r, c);
      var s := Step(r, Complete(c, true));
      StepKeepsValid(r, Complete(c, true));
      OneStep(r, Complete(c, true));
      var rest;
      rest, t := AllComplete(s);
      LeadsOn(r, [Complete(c, true)], s, rest, t);
      events := [Complete(c, true)] + rest;
    }
  }

  lemma {:induction false} GoodRunKeepsOutcomes(r: Run, events: seq<Event>, c: int)
    requires IsRun(r, events) && (forall i :: 0 <= i < |events| ==> IsGood(events[i])) && c in r.phases
    ensures c in After(r, events).phases
    ensures !r.phases[c].Failed? ==> !After(r, events).phases[c].Failed?
    ensures !IsLive(r.phases[c]) ==> After(r, events).phases[c] == r.phases[c]
    decreases |events|
  {
    if events != [] {
      assert IsGood(events[0]);
      GoodRunKeepsOutcomes(Step(r, events[0]), events[1..], c);
    }
  }

  /** From every reachable state with a live consumer some schedule in which nobody fails completes every job and
    ends with every consumer that had not failed exited: if nobody had, the run is recorded as finished. */
  lemma CanAlwaysEnd(r: Run, c: int) returns (events: seq<Event>)
    requires ValidRun(r) && c in r.phases && IsLive(r.phases[c])
    ensures IsRun(r, events) && PendingJobs(After(r, events)) == {}
    ensures forall i :: 0 <= i < |events| ==> !events[i].Fail? && (events[i].Complete? ==> events[i].heard)
    ensures After(r, events).phases.Keys == r.phases.Keys
    ensures forall d :: d in r.phases ==> After(r, events).phases[d] == if r.phases[d].Failed? then Failed else Exited
  {
    var first := CanAlwaysFinish(r, c);
    RunKeepsValid(r, first);
    var s := After(r, first);
    var second, t := AllComplete(s);
    var third, u := AllGoHome(t);
    LeadsOn(s, second, t, third, u);
    LeadsOn(r, first, s, second + third, u);
    events := first + (second + third);
    forall d | d in r.phases ensures u.phases[d] == if r.phases[d].Failed? then Failed else Exited {
      GoodRunKeepsOutcomes(r, events, d);
    }
    RunEndsPending(t, third);
  }

  lemma {:induction false} RunEndsPending(r: Run, events: seq<Event>)
    requires IsRun(r, events) && PendingJobs(r) == {}
    ensures PendingJobs(After(r, events)) == {}
    decreases |events|
  {
    if events != [] {
      forall job ensures job !in PendingJobs(Step(r, events[0])) {
        assert job !in PendingJobs(r);
      }
      RunEndsPending(Step(r, events[0]), events[1..]);
    }
  }

  /** Whether a consumer failed in these events, on an error or on the reply to its commit. */
  predicate Fails(events: seq<Event>, c: int) { Fail(c) in events || Complete(c, false) in events }

  lemma {:induction false} FailedIfAnyFailure(r: Run, events: seq<Event>, c: int)
    requires IsRun(r, events) && c in r.phases
    ensures c in After(r, events).phases
    ensures After(r, events).phases[c].Failed? <==> r.phases[c].Failed? || Fails(events, c)
    decreases |events|
  {
    if events != [] {
      assert events == [events[0]] + events[1..];
      FailedIfAnyFailure(Step(r, events[0]), events[1..], c);
    }
  }

  predicate AllExited(r: Run, consumers: nat)
  {
    forall c :: 1 <= c <= consumers ==> c in r.phases && r.phases[c].Exited?
  }

  /** A run all of whose consumers have ended is recorded as finished if and only if nobody failed in it. */
  lemma FinishedIffNobodyFailed(mode: Mode, jobs: nat, consumers: nat, events: seq<Event>)
    requires IsRun(Start(mode, jobs, consumers), events)
    requires var r := After(Start(mode, jobs, consumers), events); forall c :: c in r.phases ==> !IsLive(r.phases[c])
    ensures AllExited(After(Start(mode, jobs, consumers), events), consumers) <==>
      forall c :: 1 <= c <= consumers ==> !Fails(events, c)
  {
    var start := Start(mode, jobs, consumers);
    var r := After(start, events);
    forall c | 1 <= c <= consumers ensures c in r.phases && (r.phases[c].Exited? <==> !Fails(events, c)) {
      assert IsMember(c, consumers);
      FailedIfAnyFailure(start, events, c);
    }
    if AllExited(r, consumers) {
      forall c | 1 <= c <= consumers ensures !Fails(events, c) { assert r.phases[c].Exited?; }
    }
  }
}
