/** The notifier and the worker as objects. Their methods are the stretches of code between two awaits, and
  each is proved to take the steps of Process that it stands for: an object that mirrors a state of Process
  before a call mirrors the state after those steps. So what Process and Bookkeeping prove over all runs of a
  process holds of the objects. */
module WorkerProcess {
  import opened Prelude
  import opened Messages
  import opened Signals
  import opened Consumers
  import opened Process
  import opened Bookkeeping

  class Notifier {
    var version: nat
    var connected: bool

    predicate Mirrors(p: Process)
      reads this
    {
      version == p.version && connected == p.listener.Listening?
    }

    constructor ()
      ensures version == 0 && !connected
      ensures forall worker, db :: Mirrors(Initial(worker, db))
    {
      version, connected := 0, false;
    }

    method Poke()
      modifies this`version
      ensures version == old(version) + 1
    {
      version := version + 1;
    }

    /** The condition wait_newer waits for. */
    predicate IsNewer(seen: nat)
      reads this
    {
      version > seen
    }

    /** LISTEN has been executed on both channels. */
    method OnListening(ghost p: Process)
      requires Mirrors(p) && CanStep(p, Connect)
      modifies this`connected
      ensures Mirrors(Step(p, Connect))
    {
      connected := true;
    }

    /** The poke that `e` calls for: after connecting, for a notification, or for a stop. */
    method OnPoke(ghost p: Process, ghost e: Event)
      requires Mirrors(p) && CanStep(p, e) && IsPoke(e)
      modifies this`version
      ensures Mirrors(Step(p, e))
      ensures forall seen :: 0 <= seen <= old(version) ==> IsNewer(seen)
    {
      Poke();
    }

    /** The `finally` block: the connection was lost, or was never made. */
    method OnConnectionLost(ghost p: Process)
      requires Mirrors(p)
      modifies this`connected
      ensures Mirrors(Step(p, Disconnect))
    {
      connected := false;
    }

    /** One turn of the loop of `_listen` with nobody else poking. If the connection was made, one poke for what
      was missed and one for each notification; if it failed before LISTEN, none. */
    method ServeConnection(made: bool, delivered: nat)
      modifies this
      ensures version == old(version) + (if made then 1 + delivered else 0) && !connected
      ensures made ==> forall seen :: 0 <= seen <= old(version) ==> IsNewer(seen)
    {
      if made {
        connected := true;
        Poke();
        for i := 0 to delivered
          invariant version == old(version) + 1 + i
        {
          Poke();
        }
      }
      connected := false;
    }
  }

  // ----- commands as steps of the process -------------------------------------------------------------

  function StartSteps(count: nat, queue: Queue): seq<Event>
  {
    if count == 0 then [] else StartSteps(count - 1, queue) + [StartConsumer(queue)]
  }

  /** Asks the consumers in `order` to stop, each with a poke; ids not in `consumers` are ignored. */
  function StopSteps(consumers: set<ConsumerId>, order: seq<ConsumerId>): seq<Event>
  {
    if order == [] then []
    else
      var c := order[|order| - 1];
      StopSteps(consumers, order[..|order| - 1]) + if c in consumers then [RequestStop(c), StopPoke] else []
  }

  function KillSteps(consumers: set<ConsumerId>, c: ConsumerId): seq<Event>
  {
    if c in consumers then [Kill(c)] else []
  }

  /** range(count) is empty if the count is negative. `order` is list(self.consumers), which only the bare stop
    command uses. */
  function CommandSteps(p: Process, command: Command, order: seq<ConsumerId>): seq<Event>
  {
    match command
    case StartCommand(count, queue) => StartSteps(Max(0, count), queue)
    case StopOneCommand(c) => StopSteps(p.consumers, [c])
    case StopEveryCommand => StopSteps(p.consumers, order)
    case KillCommand(c) => KillSteps(p.consumers, c)
    case InvalidCommand => []
  }

  /** The names of the next `count` consumers. */
  function NextNames(worker: string, started: nat, count: nat): set<ConsumerId>
  {
    if count == 0 then {} else NextNames(worker, started, count - 1) + {ConsumerName(worker, started + count)}
  }

  lemma {:induction false} NextNamesAreNumbered(worker: string, started: nat, count: nat, c: ConsumerId)
    ensures c in NextNames(worker, started, count) <==>
      exists n | started < n <= started + count :: c == ConsumerName(worker, n)
  {
    if count > 0 {
      NextNamesAreNumbered(worker, started, count - 1, c);
    }
  }

  /** The process with fresh consumers under `names`, which is all that has changed. */
  function WithFresh(p: Process, names: set<ConsumerId>, count: nat, queue: Queue): Process
  {
    p.(started := p.started + count,
       tasks := p.tasks + (map c | c in names :: Fresh(queue)),
       consumers := p.consumers + names)
  }

  lemma NothingFresh(p: Process, queue: Queue)
    ensures WithFresh(p, {}, 0, queue) == p
  {
    var none: set<ConsumerId> := {};
    assert p.tasks + (map c | c in none :: Fresh(queue)) == p.tasks;
  }

  lemma OneMoreFresh(p: Process, names: set<ConsumerId>, count: nat, queue: Queue, c: ConsumerId)
    ensures var q := WithFresh(p, names, count, queue);
      q.(started := q.started + 1, tasks := q.tasks[c := Fresh(queue)], consumers := q.consumers + {c})
        == WithFresh(p, names + {c}, count + 1, queue)
  {
    var q, r := WithFresh(p, names, count, queue), WithFresh(p, names + {c}, count + 1, queue);
    assert q.tasks[c := Fresh(queue)] == r.tasks;
    assert q.consumers + {c} == r.consumers;
  }

  lemma StartIsFresh(p: Process, q: Process, names: set<ConsumerId>, count: nat, queue: Queue)
    requires q == WithFresh(p, names, count, queue) && ValidBooks(q)
    ensures var c := ConsumerName(p.worker, p.started + count + 1);
      && c !in p.tasks
      && Step(q, StartConsumer(queue)) == WithFresh(p, names + {c}, count + 1, queue)
      && ValidBooks(Step(q, StartConsumer(queue)))
  {
    StartedNameIsNew(q);
    StepKeepsBooks(q, StartConsumer(queue));
    OneMoreFresh(p, names, count, queue, ConsumerName(p.worker, p.started + count + 1));
  }

  ghost predicate HasStarted(p: Process, count: nat, queue: Queue)
  {
    && CanRun(p, StartSteps(count, queue))
    && After(p, StartSteps(count, queue)) == WithFresh(p, NextNames(p.worker, p.started, count), count, queue)
    && ValidBooks(After(p, StartSteps(count, queue)))
    && NextNames(p.worker, p.started, count) !! p.tasks.Keys
  }

  lemma OneMoreStart(p: Process, count: nat, queue: Queue)
    requires HasStarted(p, count, queue)
    ensures HasStarted(p, count + 1, queue)
  {
    StartIsFresh(p, After(p, StartSteps(count, queue)), NextNames(p.worker, p.started, count), count, queue);
    RunThenStep(p, StartSteps(count, queue), StartConsumer(queue));
  }

  /** A start adds fresh consumers under the next `count` names, new ones, and changes nothing else. */
  lemma {:induction false} StartsExactly(p: Process, count: nat, queue: Queue)
    requires ValidBooks(p)
    ensures HasStarted(p, count, queue)
  {
    if count > 0 {
      StartsExactly(p, count - 1, queue);
      OneMoreStart(p, count - 1, queue);
    } else {
      NothingFresh(p, queue);
    }
  }

  /** A consumer asked to stop, and everybody poked. */
  function Stopped(p: Process, c: ConsumerId): Process
    requires c in p.tasks
  {
    p.(tasks := p.tasks[c := StopRequested(p.tasks[c])], version := p.version + 1)
  }

  lemma StopIsStopped(p: Process, c: ConsumerId)
    requires ValidBooks(p) && c in p.consumers
    ensures CanStep(p, RequestStop(c)) && CanStep(Step(p, RequestStop(c)), StopPoke)
    ensures Step(Step(p, RequestStop(c)), StopPoke) == Stopped(p, c)
    ensures ValidBooks(Stopped(p, c))
  {
    assert Booked(p, c);
    StepKeepsBooks(p, RequestStop(c));
    StepKeepsBooks(Step(p, RequestStop(c)), StopPoke);
  }

  lemma StopStep(p: Process, steps: seq<Event>, c: ConsumerId)
    requires CanRun(p, steps) && ValidBooks(After(p, steps)) && c in After(p, steps).consumers
    ensures CanRun(p, steps + [RequestStop(c), StopPoke]) && c in After(p, steps).tasks
    ensures After(p, steps + [RequestStop(c), StopPoke]) == Stopped(After(p, steps), c)
    ensures ValidBooks(Stopped(After(p, steps), c))
  {
    StopIsStopped(After(p, steps), c);
    RunThenStep(p, steps, RequestStop(c));
    RunThenStep(p, steps + [RequestStop(c)], StopPoke);
    assert steps + [RequestStop(c)] + [StopPoke] == steps + [RequestStop(c), StopPoke];
  }

  /** A stop sets the flag of the consumers listed, with a poke; nothing else changes. */
  lemma {:induction false} StopsExactly(p: Process, order: seq<ConsumerId>)
    requires ValidBooks(p)
    ensures CanRun(p, StopSteps(p.consumers, order))
    ensures var q := After(p, StopSteps(p.consumers, order));
      && ValidBooks(q)
      && q == p.(tasks := q.tasks, version := q.version) && q.tasks.Keys == p.tasks.Keys
      && (forall c :: c in p.tasks ==>
            q.tasks[c] == if c in order && c in p.consumers then StopRequested(p.tasks[c]) else p.tasks[c])
      && p.version <= q.version
      && (forall c :: c in order && c in p.consumers ==> p.version < q.version)
  {
    if order != [] {
      var c, others := order[|order| - 1], order[..|order| - 1];
      StopsExactly(p, others);
      assert order == others + [c];
      if c in p.consumers {
        StopStep(p, StopSteps(p.consumers, others), c);
      } else {
        assert StopSteps(p.consumers, order) == StopSteps(p.consumers, others);
      }
    }
  }

  lemma KillsExactly(p: Process, c: ConsumerId)
    requires ValidBooks(p)
    ensures CanRun(p, KillSteps(p.consumers, c))
    ensures var q := After(p, KillSteps(p.consumers, c));
      && ValidBooks(q)
      && q == p.(consumers := p.consumers - {c}, killed := p.killed + if c in p.consumers then {c} else {})
  {
    if c in p.consumers {
      assert Booked(p, c);
      RunThenStep(p, [], Kill(c));
      StepKeepsBooks(p, Kill(c));
      assert KillSteps(p.consumers, c) == [] + [Kill(c)];
    } else {
      assert p.consumers - {c} == p.consumers && p.killed + {} == p.killed;
    }
  }

  predicate Stops(command: Command, c: ConsumerId) { command == StopOneCommand(c) || command.StopEveryCommand? }

  /** What a command does to the worker, whatever has happened before: a start adds exactly `count` consumers,
    fresh, under the next names; a stop asks the consumers it names to stop; a kill removes the one it names;
    and nothing else happens to any consumer. */
  lemma CommandDoes(p: Process, command: Command, order: seq<ConsumerId>)
    requires ValidBooks(p) && forall c :: c in order <==> c in p.consumers
    ensures CanRun(p, CommandSteps(p, command, order))
    ensures var q := After(p, CommandSteps(p, command, order));
      && ValidBooks(q) && q.db == p.db && q.finished == p.finished
      && (forall c :: c in p.tasks ==>
            && c in q.tasks
            && q.tasks[c] == (if c in p.consumers && Stops(command, c) then StopRequested(p.tasks[c]) else p.tasks[c])
            && (c in q.consumers <==> c in p.consumers && command != KillCommand(c)))
      && q.tasks.Keys - p.tasks.Keys ==
           (if command.StartCommand? then NextNames(p.worker, p.started, Max(0, command.count)) else {})
      && (forall c :: c in q.tasks && c !in p.tasks ==>
            c in q.consumers && command.StartCommand? && q.tasks[c] == Fresh(command.queue))
  {
    match command
    case StartCommand(count, queue) => StartsExactly(p, Max(0, count), queue);
    case StopOneCommand(c) => StopsExactly(p, [c]);
    case StopEveryCommand => StopsExactly(p, order);
    case KillCommand(c) => KillsExactly(p, c);
    case InvalidCommand =>
  }

  // ----- the worker --------------------------------------------------------------------------------

  /** What a heartbeat sends, and the consumers it deregisters. */
  datatype Heartbeat = Heartbeat(leases: set<Lease>, removed: set<ConsumerId>)

  function AfterBeat(p: Process, succeeded: bool): Process
  {
    if succeeded then Step(p, TakeFinished) else p
  }

  class Worker {
    const id: string
    const notifier: Notifier
    var consumers: map<ConsumerId, Consumer>
    var finished: set<ConsumerId>
    var started: nat

    ghost var tasks: map<ConsumerId, Consumer>  // every consumer ever started

    /** The object is in state `p`, as far as the process is up to it. */
    ghost predicate Mirrors(p: Process)
      reads this, notifier, tasks.Values
    {
      && p.worker == id && p.version == notifier.version && p.started == started && p.finished == finished
      && p.consumers == consumers.Keys && p.tasks.Keys == tasks.Keys
      && (forall c :: c in consumers ==> c in tasks && consumers[c] == tasks[c])
      && (forall c :: c in tasks ==> tasks[c].id == c && tasks[c].View() == p.tasks[c])
    }

    constructor (id: string, notifier: Notifier)
      requires notifier.version == 0
      ensures this.id == id && this.notifier == notifier
      ensures forall db :: Mirrors(Initial(id, db))
    {
      this.id, this.notifier := id, notifier;
      consumers, finished, started, tasks := map[], {}, 0, map[];
    }

    /** Starts one consumer under the next number, which no consumer has had. */
    method CreateConsumer(queue: Queue, ghost p: Process)
      requires Mirrors(p) && ValidBooks(p)
      modifies this`consumers, this`started, this`tasks
      ensures Mirrors(Step(p, StartConsumer(queue)))
    {
      StartedNameIsNew(p);
      started := started + 1;
      var name := ConsumerName(id, started);
      var consumer := new Consumer(name, queue);
      consumers := consumers[name := consumer];
      tasks := tasks[name := consumer];
    }

    /** start_consumers: the consumers, none if the count is negative, and a heartbeat. */
    method StartConsumers(count: int, queue: Queue, beatSucceeds: bool, ghost p: Process) returns (beat: Heartbeat)
      requires Mirrors(p) && ValidBooks(p)
      modifies this`consumers, this`started, this`tasks, this`finished
      ensures CanRun(p, StartSteps(Max(0, count), queue))
      ensures Mirrors(AfterBeat(After(p, StartSteps(Max(0, count), queue)), beatSucceeds))
      ensures beat.leases == Snapshot(After(p, StartSteps(Max(0, count), queue)))
      ensures beat.removed == if beatSucceeds then p.finished else {}
    {
      StartsExactly(p, 0, queue);
      ghost var q := p;
      for i := 0 to Max(0, count)
        invariant CanRun(p, StartSteps(i, queue)) && q == After(p, StartSteps(i, queue))
        invariant Mirrors(q) && ValidBooks(q) && q.finished == p.finished
      {
        CreateConsumer(queue, q);
        RunThenStep(p, StartSteps(i, queue), StartConsumer(queue));
        StepKeepsBooks(q, StartConsumer(queue));
        q := Step(q, StartConsumer(queue));
      }
      beat := Beat(beatSucceeds, q);
    }

    /** Graceful stop. An unknown id is ignored. */
    method StopConsumer(consumerId: ConsumerId, ghost p: Process)
      requires Mirrors(p) && TaskIsValid(p, consumerId)
      modifies notifier`version, if consumerId in consumers then {consumers[consumerId]} else {}
      ensures Mirrors(if consumerId in consumers then Stopped(p, consumerId) else p)
    {
      if consumerId !in consumers {
        return;
      }
      consumers[consumerId].RequestStop();
      notifier.Poke();
    }

    /** Removes the consumer, which is then cancelled; an unknown id is ignored. */
    method KillConsumer(consumerId: ConsumerId, ghost p: Process) returns (killed: Option<Consumer>)
      requires Mirrors(p) && ValidBooks(p)
      modifies this`consumers
      ensures killed == if consumerId in old(consumers) then Some(old(consumers)[consumerId]) else None
      ensures killed.Some? ==> CanStep(p, Kill(consumerId)) && Mirrors(Step(p, Kill(consumerId)))
      ensures killed.None? ==> Mirrors(p)
    {
      killed := if consumerId in consumers then Some(consumers[consumerId]) else None;
      consumers := consumers - {consumerId};
    }

    /** The done callback of a consumer's task. */
    method OnConsumerExit(consumer: Consumer, ghost p: Process)
      requires Mirrors(p) && ValidBooks(p)
      requires consumer in tasks.Values && CanStep(p, RunExitCallback(consumer.id))
      modifies this`consumers, this`finished
      ensures Mirrors(Step(p, RunExitCallback(consumer.id)))
    {
      if consumer.phase.cancelled && consumer.id !in consumers {
        return;
      }
      consumers := consumers - {consumer.id};
      finished := finished + {consumer.id};
    }

    /** The loop over list(self.consumers) of stop_all and of the stop command. */
    method StopEvery(order: seq<ConsumerId>, ghost p: Process)
      requires Mirrors(p) && ValidBooks(p)
      modifies notifier`version, consumers.Values
      ensures CanRun(p, StopSteps(p.consumers, order)) && Mirrors(After(p, StopSteps(p.consumers, order)))
    {
      StopsExactly(p, []);
      ghost var q := p;
      for i := 0 to |order|
        invariant CanRun(p, StopSteps(p.consumers, order[..i])) && q == After(p, StopSteps(p.consumers, order[..i]))
        invariant Mirrors(q)
      {
        ghost var r := StopsOneMore(p, order[..i], order[i]);
        assert order[..i + 1] == order[..i] + [order[i]];
        StopConsumer(order[i], q);
        q := r;
      }
      assert order[..|order|] == order;
    }

    /** One remote command, executed: its steps, and the heartbeat at the end of a start. */
    method Execute(command: Command, order: seq<ConsumerId>, beatSucceeds: bool, ghost p: Process)
      returns (beat: Option<Heartbeat>)
      requires Mirrors(p) && ValidBooks(p) && forall c :: c in order <==> c in consumers
      modifies this`consumers, this`started, this`tasks, this`finished, notifier`version, consumers.Values
      ensures CanRun(p, CommandSteps(p, command, order))
      ensures var q := After(p, CommandSteps(p, command, order));
        && Mirrors(if command.StartCommand? then AfterBeat(q, beatSucceeds) else q)
        && (beat.Some? <==> command.StartCommand?)
        && (beat.Some? ==> beat.value.leases == Snapshot(q))
    {
      CommandDoes(p, command, order);
      beat := None;
      match command
      case StartCommand(count, queue) =>
        var sent := StartConsumers(count, queue, beatSucceeds, p);
        beat := Some(sent);
      case StopOneCommand(consumerId) =>
        ghost var _ := StopsOneMore(p, [], consumerId);
        assert [] + [consumerId] == [consumerId];
        StopConsumer(consumerId, p);
      case StopEveryCommand => StopEvery(order, p);
      case KillCommand(consumerId) =>
        KillsExactly(p, consumerId);
        var _ := KillConsumer(consumerId, p);
      case InvalidCommand =>
    }

    /** The lease of every message in flight. */
    method LeasesInFlight(ghost p: Process) returns (leases: set<Lease>)
      requires Mirrors(p) && ValidBooks(p)
      ensures leases == Snapshot(p)
    {
      leases := {};
      var todo := consumers.Keys;
      while todo != {}
        invariant todo <= consumers.Keys
        invariant forall l :: l in leases <==>
          l.1 in consumers.Keys - todo && consumers[l.1].currentMessageId == Some(l.0)
        decreases |todo|
      {
        var c :| c in todo;
        if consumers[c].currentMessageId.Some? {
          leases := leases + {(consumers[c].currentMessageId.value, c)};
        }
        todo := todo - {c};
      }
      forall l ensures l in leases <==> l in Snapshot(p) {
        assert l.1 in consumers ==> consumers[l.1].currentMessageId == p.tasks[l.1].current;
      }
    }

    /** What a heartbeat sends: the lease of every message in flight, and, if its transaction succeeded,
      the ids to deregister, which are then forgotten whether or not deregistering them succeeds. */
    method Beat(succeeded: bool, ghost p: Process) returns (beat: Heartbeat)
      requires Mirrors(p) && ValidBooks(p)
      modifies this`finished
      ensures Mirrors(AfterBeat(p, succeeded))
      ensures beat.leases == Snapshot(p) && beat.removed == if succeeded then p.finished else {}
    {
      var leases := LeasesInFlight(p);
      beat := Heartbeat(leases, if succeeded then finished else {});
      if succeeded {
        finished := {};
      }
    }
  }

  lemma StopsOneMore(p: Process, order: seq<ConsumerId>, c: ConsumerId) returns (r: Process)
    requires ValidBooks(p)
    ensures CanRun(p, StopSteps(p.consumers, order)) && CanRun(p, StopSteps(p.consumers, order + [c]))
    ensures r == After(p, StopSteps(p.consumers, order + [c]))
    ensures var q := After(p, StopSteps(p.consumers, order));
      && q.consumers == p.consumers && TaskIsValid(q, c)
      && (c in p.consumers ==> c in q.tasks)
      && r == if c in p.consumers && c in q.tasks then Stopped(q, c) else q
  {
    StopsExactly(p, order);
    assert (order + [c])[..|order|] == order;
    var steps := StopSteps(p.consumers, order);
    if c in p.consumers {
      StopStep(p, steps, c);
    } else {
      assert StopSteps(p.consumers, order + [c]) == steps;
    }
    r := After(p, StopSteps(p.consumers, order + [c]));
  }
}
