/** The experiment tables, updated in place by the consumers' statements. Each method is the stretch of
  `_consumer` between two awaits, and leaves the run as `Experiment.Step` says. */
module ExperimentRunner {
  import opened Experiment

  datatype RunStatus = Finished | FailedRun

  class Runner {
    const mode: Mode
    const jobs: nat
    var done: set<int>
    var executions: seq<Execution>
    var phases: map<int, Phase>

    function View(): Run
      reads this
    {
      Run(mode, jobs, done, executions, phases)
    }

    /** The jobs are inserted and one task is created per consumer. */
    constructor (mode: Mode, jobs: nat, consumers: nat)
      ensures View() == Start(mode, jobs, consumers) && ValidRun(View())
      ensures this.mode == mode && this.jobs == jobs && done == {} && executions == []
      ensures forall c :: c in phases <==> 1 <= c <= consumers
      ensures forall c :: c in phases ==> phases[c] == Claiming
    {
      this.mode, this.jobs := mode, jobs;
      done, executions := {}, [];
      var created: map<int, Phase> := map[];
      for c := 1 to consumers + 1
        invariant forall d :: d in created <==> 1 <= d < c
        invariant forall d :: d in created ==> created[d] == Claiming
      {
        created := created[c := Claiming];
      }
      phases := created;
      new;
      assert phases == Start(mode, jobs, consumers).phases;
    }

    /** The claim query: scan the jobs in id order, past locked rows if the mode says so. */
    method RunClaim(c: int)
      requires ValidRun(View()) && CanStep(View(), Claim(c))
      modifies this`phases
      ensures View() == Step(old(View()), Claim(c)) && ValidRun(View())
    {
      ghost var before := View();
      StepKeepsValid(before, Claim(c));
      var job := 1;
      while job <= jobs && (job in done || (mode == SkipLocked && IsLocked(View(), job)))
        invariant 1 <= job <= jobs + 1
        invariant FirstPendingFrom(before, 1, mode.SkipLocked?) == FirstPendingFrom(before, job, mode.SkipLocked?)
        decreases jobs - job
      {
        job := job + 1;
      }
      if job > jobs {
        phases := phases[c := Checking];
      } else if IsLocked(View(), job) {
        phases := phases[c := Waiting(job)];
      } else {
        phases := phases[c := Working(job)];
      }
    }

    /** COMPLETE_JOB and the commit: the job is done, and one execution row is appended. */
    method CompleteJob(c: int, heard: bool)
      requires ValidRun(View()) && CanStep(View(), Complete(c, heard))
      modifies this
      ensures View() == Step(old(View()), Complete(c, heard)) && ValidRun(View())
      ensures executions == old(executions) + [Execution(old(phases[c].job), c)]
      ensures done == old(done) + {old(phases[c].job)} && phases[c] == if heard then Claiming else Failed
    {
      StepKeepsValid(View(), Complete(c, heard));
      var job := phases[c].job;
      done := done + {job};
      executions := executions + [Execution(job, c)];
      phases := phases[c := if heard then Claiming else Failed];
    }

    /** SELECT EXISTS (a pending job): go on or return. */
    method CheckPending(c: int) returns (more: bool)
      requires ValidRun(View()) && CanStep(View(), Check(c))
      modifies this`phases
      ensures View() == Step(old(View()), Check(c)) && ValidRun(View())
      ensures more <==> exists job :: IsPending(View(), job)
      ensures phases[c] == if more then Sleeping else Exited
    {
      ghost var before := View();
      StepKeepsValid(before, Check(c));
      more := false;
      for job := 1 to jobs + 1
        invariant more <==> exists j :: 1 <= j < job && IsPending(before, j)
      {
        if job !in done {
          assert IsPending(before, job);
          more := true;
        }
      }
      phases := phases[c := if more then Sleeping else Exited];
      assert forall job :: IsPending(View(), job) <==> IsPending(before, job);
    }

    /** An error, the timeout or a cancellation: the open transaction rolls back. */
    method FailConsumer(c: int)
      requires ValidRun(View()) && CanStep(View(), Fail(c))
      modifies this`phases
      ensures View() == Step(old(View()), Fail(c)) && ValidRun(View())
      ensures phases[c].Failed? && done == old(done) && executions == old(executions)
    {
      StepKeepsValid(View(), Fail(c));
      phases := phases[c := Failed];
    }

    /** What `_run` records when all its tasks have ended. */
    method Outcome(consumers: nat) returns (status: RunStatus)
      requires forall c :: 1 <= c <= consumers ==> c in phases && !IsLive(phases[c])
      ensures status == Finished <==> forall c :: 1 <= c <= consumers ==> phases[c].Exited?
    {
      for c := 1 to consumers + 1
        invariant forall d :: 1 <= d < c ==> phases[d].Exited?
      {
        if phases[c].Failed? {
          return FailedRun;
        }
      }
      return Finished;
    }

    /** The counts of `results`: executions, distinct jobs, and their difference. */
    method Results() returns (count: nat, uniqueJobs: nat, duplicates: int)
      ensures count == |executions| && uniqueJobs == |JobsOf(executions)|
      ensures duplicates == Duplicates(executions) && 0 <= duplicates
      ensures duplicates == 0 <==> NoJobTwice(executions)
    {
      var seen: set<int> := {};
      for i := 0 to |executions|
        invariant seen == JobsOf(executions[..i])
      {
        assert executions[..i + 1] == executions[..i] + [executions[i]];
        seen := seen + {executions[i].job};
      }
      assert executions[..|executions|] == executions;
      count, uniqueJobs := |executions|, |seen|;
      duplicates := count - uniqueJobs;
      JobsOfCount(executions);
    }
  }
}
