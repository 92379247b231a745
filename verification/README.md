# A verified model of the PostgreSQL message broker

This project models a message broker that lives in one PostgreSQL table, run by consumers that can crash,
freeze, lose their connection in the middle of a statement, or be killed, and proves what the broker promises.
`dafny verify dfyconfig.toml` checks everything.

## What is modelled

| file | module | models |
|---|---|---|
| `Messages.dfy` | Messages | a row, every SQL statement on `messages` as a value (`Op`, `Apply`), the table invariant |
| `Broker.dfy` | BrokerTable | the same statements executed in place by the methods of class `Broker` |
| `Effects.dfy` | Effects | what becomes of a message after a nack, a reap or a requeue, and what never changes |
| `Delivery.dfy` | Delivery | how many status changes a run can make |
| `Ledger.dfy` | History | the table with the log of its claims and of what closed them |
| `Retries.dfy` | Retries | the spacing of two claims of one message |
| `Recovery.dfy` | Recovery | how old an abandoned lease can get |
| `Notifications.dfy` | Notifications | the two NOTIFY triggers |
| `Consumer.dfy` | Consumers | the claim/handle/settle loop of a consumer, from one await to the next |
| `Leases.dfy` | Leases | the lease protocol: table, log, consumers, and which claim each of them believes it holds |
| `Heartbeats.dfy` | Heartbeats | what timely heartbeats add |
| `Cluster.dfy` | Cluster | workers, heartbeats as snapshot and commit, and reapers, and how often they act |
| `ShortTimeout.dfy`, `Exclusion.dfy` | ShortTimeout, Exclusion | a run that breaks mutual exclusion; exactly how large the visibility timeout has to be |
| `Deadline.dfy`, `LateBeat.dfy` | Deadline, LateBeat | when a killed consumer has lost its message, and a run in which it is late |
| `Counters.dfy`, `AtLeastOnce.dfy` | Counters, AtLeastOnce | what the counters count; done means handled |
| `ClaimOrder.dfy`, `Draining.dfy` | ClaimOrder, Draining | the order in which claims empty a queue; a schedule that finishes every message |
| `SkipLocked.dfy`, `Aborts.dfy` | SkipLocked, Aborts | claims split into lock and commit, with row locks; when aborts show |
| `Experiment.dfy`, `ExperimentRunner.dfy` | Experiment, ExperimentRunner | the locking experiment under its three claim queries |
| `Signals.dfy` | Signals | the listener's connection and the remote commands |
| `Process.dfy`, `Bookkeeping.dfy`, `Worker.dfy` | Process, Bookkeeping, WorkerProcess | one worker process: notifier, wake-ups, consumers started, stopped, killed |
| `Progress.dfy` | Progress | its consumers go on claiming until they are asked to stop, and then end |
| `Fleet.dfy` | Fleet | any number of worker processes on one table: their runs are runs of Process, of Cluster and of Leases |
| `Commands.dfy` | Commands | remote control through `worker_commands` |
| `CommandLoop.dfy` | CommandLoop | a worker's command loop, waiting on the notifier's version |
| `Paging.dfy` | Paging | the message list page by page |

A statement is a value of type `Op`, and `Apply` says what it does to the table. The class `Broker` executes the
statements with loops over a mutable map, and each method is proved to leave exactly the table `Apply` gives, so
whatever is proved of `Apply` holds of the broker. Protocols are step relations: a value for the state, an `Event`
for each thing that can happen, and inductive invariants over all sequences of events. A frozen consumer is one
that takes no step; a killed one is cancelled; a statement may commit without its consumer hearing of it.
`Leases.HistoryIsReplay` ties the two levels together: what a history of the protocol does to the table is a run
of statements, so the theorems over runs hold of the protocol. The classes `Worker` and `Notifier` are tied to
Process in the same way: an object that mirrors a state of the process before a call mirrors the state after the
steps the call stands for. `Fleet` ties the protocols together: a run of many worker processes is a run of Process
for each of them, a course of Cluster for all (`Fleet.RunIsRunOfProcess`, `Fleet.RunIsCourse`), and that is a history
of Leases (`Cluster.CourseIsHistory`).

The log of claims (`History.Ledger`), the claim a consumer believes it holds (`Leases.Held`) and what a parked
consumer's last claim saw (`Process.Notes`) are bookkeeping of the model; the broker stores none of them. The
theorems say how far `locked_by` and `attempts` are a substitute.

### Assumptions

- Every SQL statement and every heartbeat transaction is one atomic step, with `now()` read in that step, and the
  clock does not go back. The exceptions are SkipLocked and Experiment, whose transactions are split. In the
  experiment COMPLETE_JOB and the commit after it are one step.
- The reply to a consumer's statement is another step, any time after its execution; anything may happen in between.
  Theorems that need replies to arrive in time say so. The reply to a heartbeat makes no difference to anybody.
- A statement whose client saw an error has already committed or never will. A claim can therefore commit although
  its consumer sees an error, and leave a lease that nobody handles; "one row per consumer" is not assumed.
- Worker ids are unique, which rests on their random suffix. That consumer ids are unique is then proved, inside one
  worker (`Process.NamesAreDistinct`, `Bookkeeping.StartedNameIsNew`) and between workers (`Fleet.HomeOfName`).
- Messages enter only through `publish`.
- The heartbeats of one worker do not overlap.
- After waiting for a row lock in the experiment's FOR UPDATE mode, the query returns the row if it is still
  pending; otherwise it is left open whether it returns nothing or another pending row.

Time is counted in microseconds, the resolution of `timestamptz`.

### Where the code differs from what is said about it

- The state diagram in `sql/schema.sql:10-14` says that a message whose lease expired is retried after a backoff.
  REAP (`app/broker/messages.py:181-196`) does not touch `available_at`, so it is ready at once.
  `Notifications.WhoNotifies` depends on it and `Retries.RetrySpacing` states what spacing remains.
- `processed` counts handlers that succeeded, not acks that did (`app/consumer.py:73-76`, `Counters`).

### What is false as one would first put it

- Timely heartbeats alone do not give mutual exclusion: `reset` takes every lease away and restarts the ids.
  `Heartbeats.OnlyResetTakesLeases` says that a step breaks a live consumer's lease if and only if it is a reset
  while a message is held.
- Heartbeats that start at most P apart and take at most D do not give mutual exclusion when the visibility timeout is
  P + D: a heartbeat that takes its snapshot between a claim and its reply does not list the claim. With L for the
  longest reply, `Exclusion.ExclusiveIff` says that every run in which everything keeps time is exclusive if and only
  if there are no such resets and P + D + L is at most the timeout, with the grace period added if workers may shut
  down or consumers be killed; `ShortTimeout.FaultBreaks` is the run in which two consumers handle one message otherwise.
- Overlapping SKIP LOCKED claims are not always equivalent to atomic claims when some of them abort:
  `SkipLocked.AbortShowsThrough` is a run in which they are not. `Aborts.AtomicIffNoOvertaking` says when they
  are: the run has the table and the results of atomic claims without the aborted ones if and only if no claim
  that stands passed over a row whose holder aborts. Without aborts that is always so.
- A parked consumer can miss a ready message without any fault of the notifier: its claim passed the row over because
  another statement had it locked, and that statement aborted. Nothing is notified, and the message waits for the
  next poll. `Process.StrandedIffPassedOver` says that, with the listener up and no notification in flight, this is
  so if and only if that is what happened; `Process.AbortLeavesParked` is such a run.
- A killed consumer does not always lose its message within the visibility timeout and the time between two reaper
  passes: a heartbeat that took its snapshot before the kill can commit after it. `Deadline.RecoveredInTimeIff` says
  that every timely continuation of the kill meets the deadline if and only if no heartbeat in flight can renew a
  lease that the consumer has later than the kill; `LateBeat.LateBeatKeepsLease` is a run that misses it.

## Model

| member | source | states |
|---|---|---|
| Messages.ApplyKeepsValid | sql/schema.sql:16-34 | Every statement keeps the table invariant: pending means attempts < max_attempts, dead means attempts = max_attempts, finished_at is set exactly for done and dead, the lock columns are null exactly for pending and dead, a lease is no older than available_at and not in the future, ids are below the identity sequence |
| Messages.RunKeepsValid | app/broker/messages.py:99-144 | So does every run of statements |
| Messages.DoneIsFinal | app/broker/messages.py:120-127 | A done row never changes again; only a reset removes it |
| Messages.RequeueSavesFromPurge | app/broker/messages.py:208-223 | After a queue's dead letters are requeued they are ready with no attempts, nothing else has changed, and a purge of that queue changes nothing |
| Messages.PurgeDeletesOnlyDead | app/broker/messages.py:219-223 | A purge deletes a row if and only if it is dead and of the wanted queue, and changes no other |
| BrokerTable.Broker.constructor | sql/schema.sql:16-34 | The table starts empty, with its identity sequence at 1 |
| BrokerTable.Broker.Wait | app/broker/messages.py:105-105 | Only the clock moves |
| BrokerTable.Broker.Publish | app/broker/messages.py:52-92 | Inserts count pending rows under consecutive new ids, with the queue, priority and max_attempts given, no attempts, and available after the delay; returns count and id range; none for count <= 0; max_attempts <= 0 violates the CHECK, inserts nothing and uses up an id; every other row is unchanged |
| BrokerTable.Broker.Claim | app/broker/messages.py:99-118 | Picks a ready row that precedes every other ready row of its queue by priority descending then id, or nothing exactly if no row is ready, and changes just that row: processing, locked by the caller now, one attempt more |
| BrokerTable.Broker.Ack | app/broker/messages.py:120-127 | True exactly if the caller holds the row, which then is done, finished now and otherwise unchanged; no other row changes |
| BrokerTable.Broker.Nack | app/broker/messages.py:129-144 | None exactly if the lease was lost, and nothing changes; otherwise the new status, dead exactly if the attempts are used up, and then finished now; else available again min(2^attempts, 60) s from now; unlocked; no other row changes |
| BrokerTable.Broker.Renew | app/broker/messages.py:147-153 | Sets locked_at to now for exactly the listed leases that are still held by the listed consumer |
| BrokerTable.Broker.Reap | app/broker/messages.py:181-201 | Returns exactly the ids whose lease is older than the timeout, each once, and releases exactly those rows, dead and finished now if the attempts are used up, otherwise pending with available_at as it was |
| BrokerTable.Broker.RequeueDead | app/broker/messages.py:208-229 | Makes exactly the dead rows with the id and the queue given, where they are given, pending, available now, with no attempts and no finished_at; returns how many rows it changed |
| BrokerTable.Broker.PurgeDead | app/broker/messages.py:219-233 | Deletes exactly the dead rows of the queue given, if one is given; returns how many rows it deleted |
| BrokerTable.Broker.Reset | app/broker/messages.py:236-238 | Empties the table and restarts the ids |
| Effects.RequeueRepublishes | app/broker/messages.py:208-229 | A requeue changes a row if and only if it is dead and has the id and the queue asked for, where one is; the row then is exactly what an undelayed publish of the same queue, priority and max_attempts would insert |
| Effects.RetryDelayIsExact | app/broker/messages.py:129-144 | A message nacked with attempts left is ready at a later time if and only if min(2^attempts, 60) seconds have passed, whatever happens in between but its claim and a reset |
| Effects.ReapedIsReady | app/broker/messages.py:181-196 | A message reaped with attempts left is ready at once and stays so until it is claimed, resets apart |
| Effects.IdentityIsKept | sql/schema.sql:16-34 | Over any run without a reset no id is used twice, and a message keeps its queue, priority and max_attempts |
| Delivery.BoundedDelivery | app/broker/messages.py:99-144 | A run without publish or requeue changes at most as many statuses as 2 * (max_attempts - attempts) over the non-terminal rows plus one per processing row, and what is left over bounds the rest of the run |
| Delivery.TouchedRowSpends | app/broker/messages.py:181-196 | Any change of a row's status strictly lowers that budget |
| History.AttemptsAlwaysCountClaims | app/broker/messages.py:114-114 | Over any run, attempts is the number of claims since publish or last requeue, and at most max_attempts |
| History.EveryClaimClosesOnce | app/broker/messages.py:181-196 | Over any run, each claim is closed by at most one of ack, nack and reap, so concurrent reapers return disjoint (message, claim) pairs |
| History.AckedAtMostOnce | app/broker/messages.py:120-127 | Over any run, no message has two successful acks: between two acks of one id lies a reset |
| History.RecordKeepsValid | app/broker/messages.py:99-144 | Every statement keeps the log consistent with the table: processing rows are exactly the messages with an open claim, by the consumer in locked_by, and that claim is their latest |
| Retries.RetrySpacing | app/broker/messages.py:129-144 | Of two consecutive claims of a message with no requeue in between, the second carries the next attempt number and comes min(2^attempts, 60) s or more after the first if that was nacked, and more than the visibility timeout after it if it was reaped; it was not acked |
| Retries.TotalBackoffClosedForm | app/broker/messages.py:132-135 | The backoffs of a message add up to 2^max - 2 seconds for max <= 6 and to 62 + 60 * (max - 6) beyond |
| Retries.AlwaysNackedDies | app/broker/messages.py:129-144 | A dead message whose every claim was nacked was claimed exactly max_attempts times and died no sooner than that after its first claim |
| Retries.DiesOnTime | app/broker/messages.py:99-144 | That bound is met: claimed as soon as it is ready and nacked at once every time, an untried message of any valid table dies exactly that long after its first claim |
| Recovery.RecoveryDeadline | app/reaper.py:17-33 | With effective reaper passes at most R apart no processing row ever has a lease older than visibility timeout + R |
| Recovery.KilledConsumerIsRecovered | app/broker/messages.py:181-196 | In a run of statements in which a consumer neither claims nor is renewed, it holds nothing any more after the start + visibility timeout + R |
| Deadline.KilledIsRecovered | app/worker.py:96-103 | A consumer cancelled at time t, in any run of workers whose heartbeats renew only their snapshots, holds nothing any more after t + visibility timeout + R, plus what is then left of the duration of a heartbeat in flight that lists a lease it has |
| Deadline.ContainedIsRecovered | app/broker/messages.py:181-196 | When no lease of an ended consumer can be renewed after some time, timely passes have taken them all by the timeout + R later |
| Deadline.LoseAndRenewLate | app/worker.py:154-194 | When a heartbeat in flight can renew a lease of an ended consumer later, a timely course exists in which it still holds the message past the deadline |
| Deadline.RecoveredInTimeIff | app/worker.py:96-103 | After a kill at time t with everything on time, every timely continuation has recovered the consumer's messages by t + visibility timeout + R if and only if no heartbeat in flight can renew a lease it has later than t |
| LateBeat.LateBeatKeepsLease | app/worker.py:162-191 | The run, for every configuration in which a heartbeat takes time at all: a reachable kill and a timely continuation that misses the deadline |
| Cluster.CourseIsHistory | app/broker/registry.py:46-59 | A course with its heartbeats is a history of the lease protocol |
| Cluster.HeartbeatsAreTimely | app/worker.py:154-194 | If heartbeats that commit start at most P apart and take at most D from snapshot to commit, and replies to claims take at most L, every lease a consumer holds, whether it has heard of it or not, is at most P + D + L old |
| Cluster.HeartbeatsExclude | app/worker.py:154-194 | With P + D + L (plus grace through shutdowns and kills) at most the visibility timeout and no reset while a message is held, no message is being handled by two consumers, and every consumer owns the row it is handling until its ack or nack is executed |
| ShortTimeout.FaultBreaks | app/worker.py:186-190 | For any shorter timeout, and for every timeout if there may be resets while a message is held, a run in which heartbeats, replies and grace are all in time and two consumers handle the same message |
| Exclusion.ExclusiveIff | app/worker.py:154-194 | Every run that keeps time is exclusive if and only if there are no resets while a message is held and P + D + L, plus the grace period if there may be shutdowns or kills, is at most the visibility timeout |
| Cluster.MoveKeepsValid | app/broker/registry.py:46-59 | Every move keeps each message in hand covered: its reply arrived, or its lease was renewed, no earlier than its worker's last committed snapshot, and the one in flight lists it unless the same holds for that one |
| Cluster.NextBeatRenews | app/worker.py:154-194 | From every reachable state, also after a heartbeat that failed, a worker's next heartbeat can start and commit, and every consumer there that owned the message in its hand, and is not being stopped or killed, then owns it with a lease as new as the heartbeat |
| Notifications.FiresIffBecomesReady | sql/schema.sql:68-81 | A trigger fires for a row if and only if the statement leaves it pending and available and it was not pending before |
| Notifications.NotifyExact | sql/schema.sql:60-81 | A queue is notified if and only if some row of it becomes ready that way |
| Notifications.WhoNotifies | sql/schema.sql:68-81 | The rows that fire are those of an undelayed publish, of a reap that retries, and of a requeue, and no others |
| Notifications.NackNeverNotifies | app/broker/messages.py:129-144 | A nack notifies nobody: its backoff is positive |
| Consumers.TransitionsKeepValid | app/consumer.py:48-79 | Between any two awaits, current_message_id is set, to the message in hand, exactly while a message is being handled or settled, and so is the state "processing"; "starting" means no claim was answered and no stop asked for, "stopping" that one was; whoever waits for work is "idle" or was asked to stop; and only a consumer asked to stop has ended by itself |
| Consumers.Consumer.constructor | app/consumer.py:35-46 | A consumer starts with nothing in hand and its counters at 0 |
| Consumers.Consumer.Loop | app/consumer.py:48-58 | A stopping consumer ends; any other reads the notifier's version before it claims |
| Consumers.Consumer.OnClaimed | app/consumer.py:59-66 | Parks on the version read before the claim, or takes the message in hand |
| Consumers.Consumer.OnWoken | app/consumer.py:62-63 | Goes back to the loop test |
| Consumers.Consumer.OnHandled | app/consumer.py:67-76 | Counts the handler's outcome and goes on to ack or nack, keeping the message in hand |
| Consumers.Consumer.OnSettled | app/consumer.py:77-79 | Lets the message go whether or not the lease was lost, is idle or stopping, and goes back to the loop test |
| Consumers.Consumer.OnDatabaseError | app/consumer.py:52-55 | Lets the message go and retries |
| Consumers.Consumer.OnRetried | app/consumer.py:49-55 | Goes back to the loop test |
| Consumers.Consumer.OnCancelled | app/consumer.py:77-79 | Lets the message go and ends cancelled |
| Consumers.Consumer.RequestStop | app/worker.py:86-93 | Sets the flag; the state shows it unless a message is in hand |
| Leases.StepKeepsValid | app/consumer.py:48-79 | Every step of the protocol, the execution of a statement and the arrival of its reply being two, keeps table, log and consumers consistent: what a consumer believes it holds, or is about to hear of, is the latest claim it made |
| Leases.OwnsRowIffClaimOpen | app/broker/messages.py:120-127 | A consumer handling a message, or about to hear of it, finds its own name in the row if and only if that very claim is still open |
| Leases.Fencing | app/consumer.py:48-79 | Over all histories an ack or nack closes the claim its consumer is handling, the message's latest one, and changes that row only; or that claim is no longer open and neither table nor log changes |
| Leases.SettleWithLease | app/broker/messages.py:120-144 | With the lease an ack or nack closes the latest claim and changes one row |
| Leases.SettleWithoutLease | app/broker/messages.py:120-144 | Without it nothing changes |
| Leases.HistoryIsReplay | app/db.py:19-29 | What a history does to the table is a run of its statements |
| Heartbeats.LeaseSurvives | app/broker/messages.py:181-196 | No statement but its holder's own ack or nack, and no reset, takes an unexpired lease away, and only its own renewal changes locked_at |
| Heartbeats.MutualExclusion | app/worker.py:61-114 | If every held lease is renewed or closed within H <= visibility timeout, and through shutdown H + grace <= timeout, no message is being handled by two live consumers, up to the execution of their acks and nacks, and none of these is refused |
| Heartbeats.ResetTakesLeases | app/broker/messages.py:236-238 | After a reset a consumer still handling a message no longer owns it |
| Heartbeats.OnlyResetTakesLeases | app/worker.py:154-194 | With timely heartbeats, a step takes some live consumer's row away if and only if it is a reset while a message is held |
| Counters.CountersCountHandlers | app/consumer.py:67-76 | processed and failed grow by the handlers that succeeded and that raised, whatever becomes of the acks and nacks |
| Counters.AcksAtMostProcessed | app/consumer.py:73-76 | A consumer has at most as many successful acks as processed messages |
| AtLeastOnce.OnlyDeadDisappear | app/broker/messages.py:219-223 | Without a reset a message leaves the table only by a purge of its queue while it is dead with its attempts used up |
| AtLeastOnce.DoneWasHandled | docs/sequence-crash-recovery.mmd:43-50 | Over all histories the latest claim of a done message had its own handler succeed |
| AtLeastOnce.SettledAsHandled | app/consumer.py:67-76 | Over all histories an ack closes a claim only if its own handler succeeded, and a nack only if it raised |
| ClaimOrder.FirstReadyIsNext | app/broker/messages.py:99-118 | The scan used as the simple form of CLAIM finds the row that comes first in claim order |
| ClaimOrder.NextIsUnique | app/broker/messages.py:106-107 | Claim order leaves no choice |
| ClaimOrder.DrainOrder | app/broker/messages.py:99-118 | With no arrivals and a fixed clock, claims on one queue by any mix of consumers return its ready messages by priority descending then id ascending, each once, and nothing only after all of them |
| ClaimOrder.PublishedOrder | app/broker/messages.py:52-118 | Of two messages of two publishes the one whose publish was given the higher priority is claimed first, and the one published first if both were given the same; within a publish, the one with the lower id |
| ClaimOrder.PublishedIsClaimed | app/broker/messages.py:52-118 | When a claim on the queue finds nothing, every message of an undelayed publish has been claimed |
| Draining.Recover | app/reaper.py:17-33 | Waiting out the lease of a processing row and reaping lowers the budget of status changes |
| Draining.Deliver | app/consumer.py:57-79 | So do waiting for a pending row and claiming from its queue, whatever the handler does |
| Draining.Finish | app/consumer.py:67-76 | An ack or a nack never raises it |
| Draining.Drain | app/broker/messages.py:99-196 | From every valid table, every holder crashed, a schedule of waits, reaps, claims and settlements with arbitrary handler outcomes brings every row to done or dead |
| SkipLocked.SkipLockedIsAtomic | docs/sequence-skip-locked.mmd:14-23 | Any overlapping run of two-phase SKIP LOCKED claims with publishes, requeues, purges, acks and nacks, in which no claim aborts, ends in the table and gives the results of atomic claims in lock order |
| SkipLocked.RunRefines | app/broker/messages.py:99-118 | At every point of such a run the two tables differ only in the rows locked by claims in flight, which the atomic one has already claimed |
| SkipLocked.LocksAlwaysDisjoint | app/broker/messages.py:99-118 | Rows locked by claims in flight are always distinct, aborts included |
| SkipLocked.AbortShowsThrough | docs/sequence-skip-locked.mmd:14-23 | A run that is not atomic: if the first of two overlapping claims aborts, the other has been given a message that does not come first |
| Aborts.AtomicIffNoOvertaking | app/broker/messages.py:99-118 | An overlapping run, aborts included, ends in the table and gives the results of atomic claims in lock order without the aborted ones, if and only if no claim that stands passed over a row whose holder aborts |
| Aborts.SameUnlessPassedOver | app/broker/messages.py:108-108 | A claim finds the same row with and without the locks of claims that abort, if and only if it passes over none of their rows |
| Aborts.StandingRefines | app/broker/messages.py:99-118 | While nothing is passed over, the run without the locks of doomed claims refines the atomic run at every point |
| Aborts.OvertakingAlwaysShows | app/broker/messages.py:99-118 | Once a standing claim has passed over a doomed row, its consumer's results differ from the atomic ones for good |
| Experiment.FirstPendingFrom | app/experiment.py:32-38 | The claim query's row: a pending one, not locked if locked rows are skipped, with none such before it; none exactly if there is none |
| Experiment.ClaimTakes | app/experiment.py:32-63 | Without a lock a claim takes the first pending job; with FOR UPDATE it takes it or waits for whoever works on it; with SKIP LOCKED it takes the first pending job nobody works on and never waits; and it finds nothing exactly if there is no such job |
| Experiment.StepKeepsValid | app/experiment.py:177-204 | Every step keeps the run invariant: executions are of done jobs, no pair repeats, in a locking mode nobody else works on or has executed a job in work, and once a consumer has exited no job is pending |
| Experiment.ExactlyOnce | app/experiment.py:40-75 | Under FOR UPDATE and SKIP LOCKED, with any number of consumers, any interleaving and rollbacks, a job has one execution row if it is done and none if it is pending |
| Experiment.Completeness | app/experiment.py:193-203 | In all three modes, once any consumer has exited normally every job is done and executed |
| Experiment.CommitBound | app/experiment.py:177-192 | No consumer executes the same job twice, so the run makes at most jobs * consumers commits |
| Experiment.DuplicateBound | app/experiment.py:224-226 | A finished run has jobs <= executions <= jobs * consumers and 0 <= duplicates <= jobs * (consumers - 1), and no duplicates in the locking modes |
| Experiment.NoDeadlock | app/experiment.py:177-192 | Whoever waits for a row lock holds none and waits for one that does not wait, so while a consumer is live some consumer can step |
| Experiment.WaiterTakesOver | app/experiment.py:177-198 | A consumer waiting for a row lock gets the job if its holder rolls back, and goes on without it if its holder commits |
| Experiment.CanAlwaysFinish | app/experiment.py:147-204 | From every reachable state with a live consumer a schedule without failures completes every job |
| Experiment.CanAlwaysEnd | app/experiment.py:147-204 | And it ends with every consumer exited that had not failed before, so if nobody had, the run is finished |
| Experiment.FinishedIffNobodyFailed | app/experiment.py:159-168 | A run whose consumers have all ended is finished if and only if none of them failed |
| Experiment.JobsOfCount | app/experiment.py:81-82 | There are no duplicates exactly if no job was executed twice |
| ExperimentRunner.Runner.constructor | app/experiment.py:147-163 | A run starts with its jobs pending, no executions, and one consumer per number about to claim |
| ExperimentRunner.Runner.RunClaim | app/experiment.py:183-187 | The scan past done and locked jobs leaves the consumer as the step relation says |
| ExperimentRunner.Runner.CompleteJob | app/experiment.py:188-192 | The job is done, one execution row is appended, and the run invariant is kept |
| ExperimentRunner.Runner.CheckPending | app/experiment.py:196-204 | True exactly if a job is pending, and then the consumer sleeps; otherwise it exits |
| ExperimentRunner.Runner.FailConsumer | app/experiment.py:160-168 | The consumer has failed and rolls back: neither jobs nor executions change |
| ExperimentRunner.Runner.Outcome | app/experiment.py:159-168 | The run is finished exactly if every consumer exited normally |
| ExperimentRunner.Runner.Results | app/experiment.py:214-230 | executions, unique jobs and duplicates, which are 0 exactly if no job was executed twice |
| Process.NamesAreDistinct | app/worker.py:75-77 | Different consumer numbers give different consumer ids |
| Process.ReadyNeedsNotify | sql/schema.sql:68-81 | A statement makes a message ready only by notifying its queue, unless the message was pending already and only time passes |
| Process.ExecutedKeepsAssured | sql/schema.sql:60-81 | No statement, a publish or requeue between the consumer's claim and its reply or after it included, makes a message ready for a waiting consumer without a NOTIFY on its way to it |
| Process.StepKeepsWaiting | app/notifier.py:39-66 | Every step of the process, its listener and everybody else's statements keeps assured the wake-up of every consumer whose claim has found nothing, from the claim's execution on |
| Process.NoLostWakeUp | app/notifier.py:39-66 | In every reachable state a consumer whose claim has found nothing, and that is parked or has yet to hear of it, with version == seen while a message of its queue is ready, has a NOTIFY in flight, or the listener is down or has yet to make its reconnect poke, or the message got its status before it became available and became available after that consumer's claim, so only by time passing, or that claim passed it over as locked and its status has not changed since |
| Process.StrandedIffPassedOver | app/notifier.py:39-66 | In every reachable state with such a consumer, the listener up and no NOTIFY of its queue in flight, a message is ready for it other than by time passing if and only if its claim passed the message over as locked and its status has not changed since |
| Process.AbortLeavesParked | app/broker/messages.py:108-108 | A run with such a message: an aborted statement leaves a consumer parked beside a ready message with no NOTIFY in flight |
| Progress.OnlyStopEnds | app/consumer.py:48-55 | Over all runs a consumer ends by itself only if it was asked to stop |
| Progress.StartingIffUnanswered | app/consumer.py:57-66 | Over all runs the state of a consumer is "starting" exactly until a claim of it is answered or it is asked to stop |
| Progress.AlwaysGoesOn | app/consumer.py:48-79 | From every reachable state, whatever it is doing, a consumer that has neither ended nor been asked to stop gets, in at most seven steps of its own, to handling the first message in claim order that no statement in flight has locked |
| Progress.PokedConsumerClaims | app/notifier.py:44-48 | In every reachable state a parked consumer that was poked wakes, claims and handles that message without waiting for the poll |
| Progress.ErrorIsRetried | app/consumer.py:52-55 | In every reachable state a database error costs a consumer the message in hand and a sleep, and then it claims again and handles that message |
| Progress.StoppedConsumerEnds | app/worker.py:86-94 | From every reachable state, whatever it is doing, a consumer asked to stop ends in at most six steps of its own and pokes of stops, without waiting for the poll |
| Progress.NotificationsAreConserved | app/notifier.py:58-61 | While the connection lasts, the notifications of a queue that were in flight or sent are those delivered and those still in flight |
| Progress.WakesIffPoked | app/notifier.py:39-48 | Over any run in which a parked consumer does nothing, it can wake before its poll if and only if it could before or somebody has poked |
| Progress.ReconnectWakesAll | app/notifier.py:50-66 | From every reachable state a lost connection loses what was in flight, and the poke after reconnecting lets every parked consumer wake without waiting for the poll |
| Progress.DeregisteredOnce | app/worker.py:192-194 | Over all runs a consumer deregistered by a heartbeat is never in `_finished` again |
| Fleet.HomeOfName | app/worker.py:75-77 | A consumer id determines its worker, so consumers of different workers have different ids |
| Fleet.SnapshotIsLegal | app/worker.py:162-191 | The leases a worker's heartbeat lists are those of its consumers that have heard of their claim and are still handling it, and all of those but of consumers killed or shut down |
| Fleet.RunIsRunOfProcess | app/worker.py:197-222 | A run of many workers on one table is a run of Process for each of them |
| Fleet.RunIsCourse | app/worker.py:154-194 | It is a course of Cluster for all of them, with the heartbeats the workers send |
| Fleet.RunSharesTable | app/db.py:19-29 | All processes see the one table, and their consumers are those of the lease protocol |
| Fleet.FleetExcludes | app/worker.py:61-114 | Across workers, with heartbeats and replies in time, no message is being handled by two consumers, and whoever handles a message finds its own name in the row |
| Fleet.FleetBeatRenews | app/worker.py:154-194 | In every run of the fleet, also after a heartbeat that failed, a worker's next heartbeat can start and commit, and every message that a consumer there is handling under its own name, unless it was killed, then has a lease as new as the heartbeat in the table all workers see |
| Fleet.FleetLosesNoWakeUp | app/notifier.py:39-66 | In every run of the fleet, from the start of its workers on, every process has the wake-up guarantee and its exact exception |
| Fleet.FleetRecovers | app/worker.py:96-103 | In every run of the fleet a cancelled consumer has lost its messages, in the table all workers see, by t + visibility timeout + R, or by what is left of a heartbeat in flight later if that can renew its lease |
| Bookkeeping.StartedNameIsNew | app/worker.py:73-82 | A started consumer gets an id no consumer of the worker ever had |
| Bookkeeping.LeavesOnce | app/worker.py:96-120 | A started consumer that has left `consumers` never returns |
| Bookkeeping.ExitBooksFinished | app/worker.py:116-120 | At its exit a consumer enters `_finished`, where it was not before, unless it was removed by a kill and its task ended cancelled |
| Bookkeeping.StoppedConsumerWakes | app/worker.py:86-94 | A stopping consumer that is parked can wake at once, or a poke is due after which it can |
| Bookkeeping.StoppedConsumerClaimsNoMore | app/consumer.py:48-59 | After a stop the consumer starts no claim and ends at its next loop test |
| Bookkeeping.HeartbeatCoversHandling | app/worker.py:162-191 | A heartbeat lists a message for a consumer exactly if it is handling it and has not been killed, stopping or not |
| Bookkeeping.KilledIsNeverRenewed | app/worker.py:96-103 | No heartbeat after a kill lists a lease of the killed consumer |
| WorkerProcess.Notifier.constructor | app/notifier.py:24-28 | Mirrors the initial state: version 0, not connected |
| WorkerProcess.Notifier.Poke | app/notifier.py:39-42 | The version grows by one |
| WorkerProcess.Notifier.OnListening | app/notifier.py:53-56 | Takes the step of a connection that has executed LISTEN |
| WorkerProcess.Notifier.OnPoke | app/notifier.py:58-61 | Takes the step of a poke, after connecting or for a notification; every version read before is outdated after it |
| WorkerProcess.Notifier.OnConnectionLost | app/notifier.py:62-65 | Takes the step of a connection that is lost, or was never made |
| WorkerProcess.Notifier.ServeConnection | app/notifier.py:50-65 | One turn of the loop with nobody else poking: one poke for what was missed and one per notification, or none if the connection fails before LISTEN; disconnected after it |
| WorkerProcess.NextNamesAreNumbered | app/worker.py:75-77 | The next count names are those with the next count numbers |
| WorkerProcess.StartsExactly | app/worker.py:73-82 | A start adds exactly count fresh consumers, under new names with the next numbers, and changes nothing else |
| WorkerProcess.StopsExactly | app/worker.py:86-94 | A stop asks exactly the listed consumers that exist to stop, outdates the version if there is one, and changes nothing else |
| WorkerProcess.KillsExactly | app/worker.py:96-103 | A kill removes exactly the named consumer, if it exists |
| WorkerProcess.CommandDoes | app/worker.py:134-150 | For every consumer there is or ever was, what each command does to it; which consumers there are after it; and that a start, and only a start, adds exactly count fresh ones |
| WorkerProcess.Worker.constructor | app/worker.py:41-52 | Mirrors the initial state: no consumers |
| WorkerProcess.Worker.CreateConsumer | app/worker.py:75-82 | Takes the step that starts one consumer |
| WorkerProcess.Worker.StartConsumers | app/worker.py:73-84 | Takes the steps of a start, none if the count is negative, and sends a heartbeat with the leases then in flight |
| WorkerProcess.Worker.StopConsumer | app/worker.py:86-94 | Takes the steps of one stop and its poke; an unknown id is ignored |
| WorkerProcess.Worker.KillConsumer | app/worker.py:96-103 | Takes the step of a kill and returns the consumer to be cancelled; an unknown id is ignored |
| WorkerProcess.Worker.OnConsumerExit | app/worker.py:116-120 | Takes the step of the exit callback |
| WorkerProcess.Worker.StopEvery | app/worker.py:105-109 | Takes the steps of stopping every consumer listed |
| WorkerProcess.Worker.Execute | app/worker.py:134-150 | Takes exactly the steps of the command, and sends a heartbeat if and only if it is a start |
| WorkerProcess.Worker.LeasesInFlight | app/worker.py:186-190 | The leases of a heartbeat are exactly the snapshot of the messages being handled |
| WorkerProcess.Worker.Beat | app/worker.py:162-194 | Sends that snapshot; the finished consumers are taken out and deregistered only if the heartbeat succeeded |
| Commands.PendingIsExact | app/broker/control.py:22-32 | A worker's batch has increasing ids and contains exactly its unread commands |
| Commands.SortSorts | app/broker/control.py:55-55 | Sorting the returned rows by id gives an increasing sequence with the same elements |
| Commands.Control.constructor | sql/schema.sql:120-126 | No commands and no workers |
| Commands.Control.SendCommand | app/broker/control.py:35-45 | Queued under a new id with its worker, or False and no row if the worker is not registered |
| Commands.Control.DeleteReturning | app/broker/control.py:22-32 | Deletes and returns exactly the worker's commands, each once, in no particular order |
| Commands.Control.TakeCommands | app/broker/control.py:48-55 | Returns the worker's commands oldest first and leaves none of them |
| Commands.Control.RegisterWorker | app/broker/registry.py:13-18 | The worker is registered; nothing else changes |
| Commands.Control.RemoveWorker | app/broker/registry.py:66-68 | The worker is not registered any more and exactly its unread commands are gone |
| Commands.CommandDelivery | app/broker/control.py:22-55 | Over any interleaving of sends, takes, registrations and removals, a worker's batches concatenated have strictly increasing ids and only commands sent to it, are a prefix of what was sent if nothing was deleted by cascade, and what it executed is a subsequence of them even when errors drop the rest of a batch, with as many commands as its turns executed |
| Commands.CommandAcceptance | app/broker/control.py:35-45 | Over any interleaving a command is accepted if and only if its worker was registered after it was last removed, and what a worker was sent is exactly what was accepted, in that order |
| CommandLoop.UnreadNeedsNotify | sql/schema.sql:131-142 | A worker gets an unread command only with a notification |
| CommandLoop.NoLostCommand | app/worker.py:124-132 | In every reachable state, when a turn's take has been executed, the version is still the one read before it and a command is unread, its NOTIFY is in flight, or the listener is down or has yet to make its reconnect poke |
| CommandLoop.AlwaysTakes | app/worker.py:124-132 | From every reachable state the loop, by steps of its own, gets to taking all commands that are unread now |
| CommandLoop.PokedLoopTakes | app/worker.py:124-132 | In every reachable state a waiting loop that was poked does so without waiting for the poll, also after an error |
| CommandLoop.LoopGoesOnAfterError | app/worker.py:128-132 | In every reachable state an error, out of the take or out of a command, costs the rest of the turn; after the poll the loop takes again |
| CommandLoop.LoopWakesIffPoked | app/notifier.py:39-48 | From every reachable state a waiting loop can wake before its poll if and only if it could already or somebody has poked since |
| CommandLoop.ReconnectWakesLoop | app/notifier.py:50-66 | From every reachable state a lost connection loses what was in flight, and the poke after reconnecting lets a waiting loop wake |
| CommandLoop.CommandNotificationsAreConserved | sql/schema.sql:131-142 | While the connection lasts there is one notification per command queued, delivered or in flight |
| CommandLoop.LoopDelivery | app/worker.py:124-150 | Over all runs the loop does to the command tables what Commands says, and the commands it executes are what Commands says: sent to it, each at most once, in the order of their ids |
| Paging.PageIsExact | app/broker/monitoring.py:27-35 | A page has at most limit matching rows below the cursor in strictly descending id order, and a matching row is missing only if the page is full and all its rows are newer |
| Paging.PublishExtends | app/broker/messages.py:52-65 | A publish keeps every row and adds only ids beyond the identity sequence |
| Paging.PublishesExtend | app/broker/messages.py:52-65 | So does any run of publishes, with time passing in between |
| Paging.PublishAddsNothingBelow | app/broker/monitoring.py:32-32 | A publish changes nothing below a cursor |
| Paging.PagesAreTheList | app/routes/messages.py:34-46 | Following the cursor ends within one request more than there are full pages and concatenates to the list as it was at the first request, whatever is published in between |
| Paging.BrowsingReadsEverything | app/routes/messages.py:34-46 | From the first page on, next_before_id leads to every row that matches the queue and status asked for, each once, newest first, and ends |
| Paging.FollowingNeverRepeats | app/broker/monitoring.py:27-35 | Whatever statements run between the requests, following the cursor reads in strictly descending id order, so no row twice, and only rows that matched when read |
| Paging.FollowingMissesNothing | app/broker/monitoring.py:27-35 | Whatever runs in between, every row that was there and matched at every request has been read when the cursor has come to its end |
| Paging.FollowingEnds | app/routes/messages.py:34-46 | And it comes to its end within as many requests as it takes pages to cover the ids |

## Left out

- Payloads, JSON, `last_error`, `created_at` and logging: no branch of the broker depends on them.
- The registry tables `workers` and `consumers`, except which workers exist for commands: the upserts of a heartbeat, `remove_consumers`, `forget_lost_workers` and the listings are plain writes and reads.
- Queue statistics, throughput, rates, per-consumer counts and experiment history: easy members only.
- FastAPI routes other than the message list, templates, form validation, schema bootstrap and its advisory lock: plumbing.
- psycopg, connection pools, asyncio and signals: only "a statement commits, or errors with or without having committed", and cancellation at an await, remain.
- PostgreSQL's MVCC, indexes and plans: replaced by atomic statements, or by explicit locks and commits in SkipLocked and Experiment.
- The endless loops of `run`, `_listen`, `_heartbeat_loop`, `_command_loop` and `run_reaper`: they are modelled from await to await as steps, with their order of effects, not as one unending method.
- The poll timeout and the sleeps: a parked consumer may time out at any moment; how long it takes is not modelled.
- Overlapping heartbeats of one worker, where timestamps could go back a little.
- Interleavings inside a loop over consumers: `StopEvery` runs without a consumer exiting between two stops; Process interleaves single stops freely.
- Reaps, renewals and resets beside claims in flight in SkipLocked: the refinement is about claims with publishes, requeues, purges, acks and nacks.
- "Only one experiment runs at a time": the check and the start are separated by an await, so it is not guaranteed; one run is modelled. Recovery of interrupted runs on startup only relabels them.
- Random failures: a handler's outcome is open.
