/** The command loop of a worker: it waits on the same version counter as the consumers.

  A turn reads the version, takes the worker's commands, executes them and waits for a newer version. A
  notification is in flight from the commit of a command until the notifier's connection delivers it. */
module CommandLoop {
  import opened Commands
  import opened Signals

  datatype Phase =
    | Turning                                  // at the top of the loop
    | Taking(seen: nat)                        // take_commands has been sent
    | Answered(seen: nat, batch: seq<Delivery>)  // and executed; its reply is on its way
    | Executing(seen: nat, left: seq<Delivery>)
    | Waiting(seen: nat, taken: bool)          // in wait_newer; `taken` if the turn's statement was executed

  datatype Loop = Loop(inbox: Inbox, version: nat, listener: Listener, inFlight: nat, phase: Phase)

  datatype Step =
    | Others(event: Event)      // a send, a registration, a removal, or another worker's take
    | Connect
    | ConnectPoke
    | Disconnect
    | Deliver                   // Process.OtherPoke
    | OtherPoke                 // a notification of messages, or a stop
    | StartTurn
    | RunTake
    | HearTake
    | LoseTake                  // an error instead of the reply, whether the statement was executed or not
    | ExecuteOne
    | FailRest                  // an error out of a command drops the rest of the batch
    | Finish
    | Wake(timedOut: bool)

  predicate CanTake(me: string, l: Loop, s: Step)
  {
    match s
    case Others(e) => e.Take? ==> e.worker != me
    case Connect => l.listener.Down?
    case ConnectPoke => l.listener == Listening(false)
    case Disconnect => true
    case Deliver => l.listener == Listening(true) && 0 < l.inFlight
    case OtherPoke => l.listener == Listening(true)
    case StartTurn => l.phase.Turning?
    case RunTake => l.phase.Taking?
    case HearTake => l.phase.Answered?
    case LoseTake => l.phase.Taking? || l.phase.Answered?
    case ExecuteOne => l.phase.Executing? && l.phase.left != []
    case FailRest => l.phase.Executing?
    case Finish => l.phase.Executing? && l.phase.left == []
    case Wake(timedOut) => l.phase.Waiting? && (timedOut || l.phase.seen < l.version)
  }

  /** The tables after somebody else's event. */
  function InboxAfter(b: Inbox, e: Event): Inbox
  {
    match e
    case Register(w) => Registered(b, w)
    case Remove(w) => Removed(b, w)
    case Send(w, command) => Sent(b, w, command)
    case Take(w, _) => Taken(b, w)
  }

  /** worker_commands_notify fires for every inserted row. */
  predicate Notifies(b: Inbox, e: Event) { e.Send? && e.worker in b.workers }

  function After(me: string, l: Loop, s: Step): Loop
    requires CanTake(me, l, s)
  {
    match s
    case Others(e) =>
      l.(inbox := InboxAfter(l.inbox, e),
         inFlight := if Notifies(l.inbox, e) && l.listener.Listening? then l.inFlight + 1 else l.inFlight)
    case Connect => l.(listener := Listening(false))
    case ConnectPoke => l.(listener := Listening(true), version := l.version + 1)
    case Disconnect => l.(listener := Down, inFlight := 0)
    case Deliver => l.(inFlight := l.inFlight - 1, version := l.version + 1)
    case OtherPoke => l.(version := l.version + 1)
    case StartTurn => l.(phase := Taking(l.version))
    case RunTake => l.(inbox := Taken(l.inbox, me), phase := Answered(l.phase.seen, PendingFor(l.inbox, me)))
    case HearTake => l.(phase := Executing(l.phase.seen, l.phase.batch))
    case LoseTake => l.(phase := Waiting(l.phase.seen, l.phase.Answered?))
    case ExecuteOne => l.(phase := Executing(l.phase.seen, l.phase.left[1..]))
    case FailRest => l.(phase := Waiting(l.phase.seen, true))
    case Finish => l.(phase := Waiting(l.phase.seen, true))
    case Wake(_) => l.(phase := Turning)
  }

  /** The turn's statement has been executed. */
  predicate HasTaken(l: Loop)
  {
    l.phase.Answered? || l.phase.Executing? || (l.phase.Waiting? && l.phase.taken)
  }

  /** If commands are unread after the turn's statement, and the version has not moved since it was read, a
    notification is in flight, or the listener is down or about to poke. */
  ghost predicate ValidLoop(me: string, l: Loop)
  {
    && ValidInbox(l.inbox)
    && (!l.phase.Turning? ==> l.phase.seen <= l.version)
    && (HasTaken(l) && l.phase.seen == l.version && PendingFor(l.inbox, me) != [] ==>
          0 < l.inFlight || l.listener != Listening(true))
  }

  /** Only a command for the worker adds to its unread commands, and that notifies. */
  lemma UnreadNeedsNotify(me: string, b: Inbox, e: Event)
    requires ValidInbox(b) && (e.Take? ==> e.worker != me)
    ensures ValidInbox(InboxAfter(b, e))
    ensures PendingFor(InboxAfter(b, e), me) != [] ==> PendingFor(b, me) != [] || Notifies(b, e)
  {
    var next := InboxAfter(b, e);
    if !Notifies(b, e) && PendingFor(next, me) != [] {
      if e.Remove? && e.worker == me {
        EmptyInbox(next, me, next.nextId);
      } else {
        SamePending(b, next, me, b.nextId);
        UnusedIdIsNobodys(b, next, me, e);
      }
    }
  }

  /** A rejected command uses up an id, and nothing is pending under it. */
  lemma UnusedIdIsNobodys(b: Inbox, next: Inbox, me: string, e: Event)
    requires ValidInbox(b) && next == InboxAfter(b, e) && !Notifies(b, e)
    ensures PendingBelow(next, me, next.nextId) == PendingBelow(next, me, b.nextId)
  {
    assert next.nextId == b.nextId || (next.nextId == b.nextId + 1 && !IsFor(next, me, b.nextId));
  }

  lemma StepKeepsValid(me: string, l: Loop, s: Step)
    requires ValidLoop(me, l) && CanTake(me, l, s)
    ensures ValidLoop(me, After(me, l, s))
  {
    match s
    case Others(e) => UnreadNeedsNotify(me, l.inbox, e);
    case RunTake => EmptyInbox(Taken(l.inbox, me), me, l.inbox.nextId);
    case _ =>
  }

  ghost predicate CanRun(me: string, l: Loop, steps: seq<Step>)
    decreases |steps|
  {
    steps == [] || (CanTake(me, l, steps[0]) && CanRun(me, After(me, l, steps[0]), steps[1..]))
  }

  function AfterAll(me: string, l: Loop, steps: seq<Step>): Loop
    requires CanRun(me, l, steps)
    decreases |steps|
  {
    if steps == [] then l else AfterAll(me, After(me, l, steps[0]), steps[1..])
  }

  lemma {:induction false} RunKeepsValid(me: string, l: Loop, steps: seq<Step>)
    requires ValidLoop(me, l) && CanRun(me, l, steps)
    ensures ValidLoop(me, AfterAll(me, l, steps))
    decreases |steps|
  {
    if steps != [] {
      StepKeepsValid(me, l, steps[0]);
      RunKeepsValid(me, After(me, l, steps[0]), steps[1..]);
    }
  }

  const IDLE: Loop := Loop(Inbox(map[], 1, {}), 0, Down, 0, Turning)

  /** No lost wake-up for commands. In every reachable state, when the turn's take has been executed, the version
    is still the one read before it, and a command of the worker is unread, its notification is in flight, or the
    listener is down or has yet to make its reconnect poke. A turn whose take failed waits for the poll. */
  lemma NoLostCommand(me: string, steps: seq<Step>)
    requires CanRun(me, IDLE, steps)
    requires var l := AfterAll(me, IDLE, steps);
      HasTaken(l) && l.phase.seen == l.version && PendingFor(l.inbox, me) != []
    ensures var l := AfterAll(me, IDLE, steps);
      0 < l.inFlight || l.listener.Down? || l.listener == Listening(false)
  {
    RunKeepsValid(me, IDLE, steps);
  }

  /** And from the execution of a take until the loop wakes again that is what NoLostCommand is about. */
  lemma {:induction false} StaysTaken(me: string, l: Loop, steps: seq<Step>)
    requires CanRun(me, l, steps) && (HasTaken(l) || (steps != [] && steps[0].RunTake?))
    requires forall i :: 0 <= i < |steps| ==> !steps[i].Wake?
    ensures HasTaken(AfterAll(me, l, steps))
    decreases |steps|
  {
    if steps != [] {
      assert !steps[0].Wake?;
      StaysTaken(me, After(me, l, steps[0]), steps[1..]);
    }
  }

  // ----- the loop goes on ----------------------------------------------------------------------------

  /** What the loop does by itself when nothing fails. */
  predicate IsOwn(s: Step)
  {
    s.StartTurn? || s.RunTake? || s.HearTake? || s.ExecuteOne? || s.Finish? || s.Wake?
  }

  /** Steps of the loop alone, after which it has taken all of `batch` and is about to execute it. */
  ghost predicate Takes(me: string, l: Loop, steps: seq<Step>, batch: seq<Delivery>)
  {
    && CanRun(me, l, steps) && (forall i :: 0 <= i < |steps| ==> IsOwn(steps[i]))
    && var m := AfterAll(me, l, steps);
       m.phase.Executing? && m.phase.left == batch && PendingFor(m.inbox, me) == []
  }

  lemma OneMoreStep(me: string, l: Loop, s: Step, rest: seq<Step>, batch: seq<Delivery>)
    requires CanTake(me, l, s) && IsOwn(s) && Takes(me, After(me, l, s), rest, batch)
    ensures Takes(me, l, [s] + rest, batch)
  {
    assert ([s] + rest)[1..] == rest;
  }

  lemma FromTaking(me: string, l: Loop)
    requires ValidInbox(l.inbox) && l.phase.Taking?
    ensures Takes(me, l, [RunTake, HearTake], PendingFor(l.inbox, me))
  {
    var batch := PendingFor(l.inbox, me);
    var m := After(me, l, RunTake);
    EmptyInbox(m.inbox, me, m.inbox.nextId);
    assert Takes(me, After(me, m, HearTake), [], batch);
    OneMoreStep(me, m, HearTake, [], batch);
    OneMoreStep(me, l, RunTake, [HearTake], batch);
    assert [HearTake] + [] == [HearTake] && [RunTake] + [HearTake] == [RunTake, HearTake];
  }

  lemma FromTurning(me: string, l: Loop)
    requires ValidInbox(l.inbox) && l.phase.Turning?
    ensures Takes(me, l, [StartTurn, RunTake, HearTake], PendingFor(l.inbox, me))
  {
    FromTaking(me, After(me, l, StartTurn));
    OneMoreStep(me, l, StartTurn, [RunTake, HearTake], PendingFor(l.inbox, me));
    assert [StartTurn] + [RunTake, HearTake] == [StartTurn, RunTake, HearTake];
  }

  lemma FromWaiting(me: string, l: Loop, timedOut: bool)
    requires ValidInbox(l.inbox) && l.phase.Waiting? && (timedOut || l.phase.seen < l.version)
    ensures Takes(me, l, [Wake(timedOut), StartTurn, RunTake, HearTake], PendingFor(l.inbox, me))
  {
    FromTurning(me, After(me, l, Wake(timedOut)));
    OneMoreStep(me, l, Wake(timedOut), [StartTurn, RunTake, HearTake], PendingFor(l.inbox, me));
    assert [Wake(timedOut)] + [StartTurn, RunTake, HearTake] == [Wake(timedOut), StartTurn, RunTake, HearTake];
  }

  /** The rest of the last batch is executed first. */
  lemma {:induction false} FromExecuting(me: string, l: Loop) returns (steps: seq<Step>)
    requires ValidInbox(l.inbox) && l.phase.Executing?
    ensures Takes(me, l, steps, PendingFor(l.inbox, me)) && |steps| == |l.phase.left| + 5
    decreases |l.phase.left|
  {
    var batch := PendingFor(l.inbox, me);
    if l.phase.left == [] {
      FromWaiting(me, After(me, l, Finish), true);
      steps := [Wake(true), StartTurn, RunTake, HearTake];
      OneMoreStep(me, l, Finish, steps, batch);
      steps := [Finish] + steps;
    } else {
      steps := FromExecuting(me, After(me, l, ExecuteOne));
      OneMoreStep(me, l, ExecuteOne, steps, batch);
      steps := [ExecuteOne] + steps;
    }
  }

  /** From every reachable state the loop gets to taking every command that is unread now, by steps of its own. */
  lemma AlwaysTakes(me: string, before: seq<Step>) returns (steps: seq<Step>)
    requires CanRun(me, IDLE, before)
    ensures var l := AfterAll(me, IDLE, before); Takes(me, l, steps, PendingFor(l.inbox, me))
  {
    RunKeepsValid(me, IDLE, before);
    var l := AfterAll(me, IDLE, before);
    match l.phase
    case Turning =>
      FromTurning(me, l);
      steps := [StartTurn, RunTake, HearTake];
    case Taking(_) =>
      FromTaking(me, l);
      steps := [RunTake, HearTake];
    case Answered(_, _) =>
      steps := FromExecuting(me, After(me, l, HearTake));
      OneMoreStep(me, l, HearTake, steps, PendingFor(l.inbox, me));
      steps := [HearTake] + steps;
    case Executing(_, _) => steps := FromExecuting(me, l);
    case Waiting(_, _) =>
      FromWaiting(me, l, true);
      steps := [Wake(true), StartTurn, RunTake, HearTake];
  }

  /** In every reachable state a loop that waits and has been poked takes them without waiting for the poll, also
    after an error. */
  lemma PokedLoopTakes(me: string, before: seq<Step>)
    requires CanRun(me, IDLE, before)
    requires var l := AfterAll(me, IDLE, before); l.phase.Waiting? && l.phase.seen < l.version
    ensures var l := AfterAll(me, IDLE, before);
      Takes(me, l, [Wake(false), StartTurn, RunTake, HearTake], PendingFor(l.inbox, me))
  {
    RunKeepsValid(me, IDLE, before);
    FromWaiting(me, AfterAll(me, IDLE, before), false);
  }

  /** In every reachable state an error, out of the take or out of a command, costs the loop the rest of the turn:
    it waits for the poll and takes again. */
  lemma LoopGoesOnAfterError(me: string, before: seq<Step>, s: Step)
    requires CanRun(me, IDLE, before) && CanTake(me, AfterAll(me, IDLE, before), s) && (s.LoseTake? || s.FailRest?)
    ensures var l := After(me, AfterAll(me, IDLE, before), s);
      Takes(me, l, [Wake(true), StartTurn, RunTake, HearTake], PendingFor(l.inbox, me))
  {
    RunKeepsValid(me, IDLE, before);
    FromWaiting(me, After(me, AfterAll(me, IDLE, before), s), true);
  }

  // ----- pokes ---------------------------------------------------------------------------------------

  /** In every reachable state: a lost connection loses what was in flight, and the poke after reconnecting lets a
    waiting loop wake without waiting for the poll. */
  lemma ReconnectWakesLoop(me: string, before: seq<Step>)
    requires CanRun(me, IDLE, before)
    ensures var lost := After(me, AfterAll(me, IDLE, before), Disconnect);
      && lost.inFlight == 0 && CanTake(me, lost, Connect) && CanTake(me, After(me, lost, Connect), ConnectPoke)
      && var l := After(me, After(me, lost, Connect), ConnectPoke);
         l.listener == Listening(true) && (l.phase.Waiting? ==> CanTake(me, l, Wake(false)))
  {
    RunKeepsValid(me, IDLE, before);
  }

  predicate IsPoke(s: Step) { s.ConnectPoke? || s.Deliver? || s.OtherPoke? }

  function Pokes(steps: seq<Step>): nat
  {
    if steps == [] then 0 else (if IsPoke(steps[0]) then 1 else 0) + Pokes(steps[1..])
  }

  lemma {:induction false} VersionCountsPokes(me: string, l: Loop, steps: seq<Step>)
    requires CanRun(me, l, steps)
    ensures AfterAll(me, l, steps).version == l.version + Pokes(steps)
    decreases |steps|
  {
    if steps != [] {
      VersionCountsPokes(me, After(me, l, steps[0]), steps[1..]);
    }
  }

  lemma {:induction false} StaysWaiting(me: string, l: Loop, steps: seq<Step>)
    requires CanRun(me, l, steps) && l.phase.Waiting? && forall i :: 0 <= i < |steps| ==> !steps[i].Wake?
    ensures AfterAll(me, l, steps).phase == l.phase
    decreases |steps|
  {
    if steps != [] {
      assert !steps[0].Wake?;
      StaysWaiting(me, After(me, l, steps[0]), steps[1..]);
    }
  }

  /** From every reachable state a waiting loop can wake before its poll if and only if it could already or somebody
    has poked since. */
  lemma LoopWakesIffPoked(me: string, before: seq<Step>, steps: seq<Step>)
    requires CanRun(me, IDLE, before) && CanRun(me, AfterAll(me, IDLE, before), steps)
    requires AfterAll(me, IDLE, before).phase.Waiting? && forall i :: 0 <= i < |steps| ==> !steps[i].Wake?
    ensures var l := AfterAll(me, IDLE, before);
      CanTake(me, AfterAll(me, l, steps), Wake(false)) <==> CanTake(me, l, Wake(false)) || 0 < Pokes(steps)
  {
    RunKeepsValid(me, IDLE, before);
    StaysWaiting(me, AfterAll(me, IDLE, before), steps);
    VersionCountsPokes(me, AfterAll(me, IDLE, before), steps);
  }

  /** How many commands to registered workers these steps queue, and how many notifications they deliver. */
  function TimesSent(me: string, l: Loop, steps: seq<Step>): nat
    requires CanRun(me, l, steps)
    decreases |steps|
  {
    if steps == [] then 0
    else
      var s := steps[0];
      (if s.Others? && s.event.Send? && s.event.worker in l.inbox.workers then 1 else 0)
      + TimesSent(me, After(me, l, s), steps[1..])
  }

  function TimesDelivered(steps: seq<Step>): nat
  {
    if steps == [] then 0 else (if steps[0].Deliver? then 1 else 0) + TimesDelivered(steps[1..])
  }

  /** While the connection lasts, there is one notification for each command queued, delivered or in flight. */
  lemma {:induction false} CommandNotificationsAreConserved(me: string, l: Loop, steps: seq<Step>)
    requires CanRun(me, l, steps) && l.listener.Listening? && Disconnect !in steps
    ensures l.inFlight + TimesSent(me, l, steps) == AfterAll(me, l, steps).inFlight + TimesDelivered(steps)
    decreases |steps|
  {
    if steps != [] {
      assert steps == [steps[0]] + steps[1..];
      CommandNotificationsAreConserved(me, After(me, l, steps[0]), steps[1..]);
    }
  }

  // ----- the loop does what Commands says --------------------------------------------------------------

  /** How many commands are executed before the next take. */
  function ExecutesNext(steps: seq<Step>): nat
  {
    if steps == [] || steps[0].RunTake? then 0
    else (if steps[0].ExecuteOne? then 1 else 0) + ExecutesNext(steps[1..])
  }

  predicate IsEvent(s: Step) { s.Others? || s.RunTake? }

  /** A step as an event of the command tables; of the batch it may take, `executed` commands are executed. */
  function EventOf(me: string, s: Step, executed: nat): Event
    requires IsEvent(s)
  {
    match s
    case Others(Take(w, _)) => Event.Take(w, 0)
    case Others(e) => e
    case _ => Event.Take(me, executed)
  }

  /** The steps as events of the command tables. */
  function EventsOf(me: string, steps: seq<Step>): seq<Event>
  {
    if steps == [] then []
    else
      (if IsEvent(steps[0]) then [EventOf(me, steps[0], ExecutesNext(steps[1..]))] else []) + EventsOf(me, steps[1..])
  }

  function Outstanding(l: Loop): seq<Delivery>
  {
    match l.phase
    case Answered(_, batch) => batch
    case Executing(_, left) => left
    case _ => []
  }

  /** The commands that these steps execute. */
  function ExecutedBy(me: string, l: Loop, steps: seq<Step>): seq<Delivery>
    requires CanRun(me, l, steps)
    decreases |steps|
  {
    if steps == [] then []
    else (if steps[0].ExecuteOne? then [l.phase.left[0]] else []) + ExecutedBy(me, After(me, l, steps[0]), steps[1..])
  }

  lemma {:induction false} ExecutesOutstanding(me: string, l: Loop, steps: seq<Step>)
    requires CanRun(me, l, steps)
    ensures ExecutesNext(steps) <= |Outstanding(l)| && ExecutesNext(steps) <= |ExecutedBy(me, l, steps)|
    ensures ExecutedBy(me, l, steps)[..ExecutesNext(steps)] == Outstanding(l)[..ExecutesNext(steps)]
    decreases |steps|
  {
    if steps != [] && !steps[0].RunTake? {
      var next, rest := After(me, l, steps[0]), steps[1..];
      var k, later := ExecutesNext(rest), ExecutedBy(me, next, rest);
      ExecutesOutstanding(me, next, rest);
      if steps[0].ExecuteOne? {
        var left := l.phase.left;
        assert left[..k + 1] == [left[0]] + left[1..][..k];
        assert ([left[0]] + later)[..k + 1] == [left[0]] + later[..k];
      } else {
        assert [] + later == later;
        assert Outstanding(next) == Outstanding(l) || k == 0;
      }
    }
  }

  lemma OthersAreMail(me: string, l: Loop, s: Step, m: Mail, executed: nat)
    requires CanTake(me, l, s) && m.inbox == l.inbox && s.Others?
    ensures var e := EventOf(me, s, executed);
      && Commands.CanStep(m, e) && Commands.Step(me, m, e).inbox == After(me, l, s).inbox
      && Commands.Step(me, m, e).executed == m.executed
  {
  }

  lemma TakeIsMail(me: string, l: Loop, m: Mail, executed: nat)
    requires CanTake(me, l, RunTake) && m.inbox == l.inbox && executed <= |PendingFor(l.inbox, me)|
    ensures var e := EventOf(me, RunTake, executed);
      && Commands.CanStep(m, e) && Commands.Step(me, m, e).inbox == After(me, l, RunTake).inbox
      && Commands.Step(me, m, e).executed == m.executed + PendingFor(l.inbox, me)[..executed]
  {
  }

  /** `events` take the command tables to where `l` is, and execute `executed`. */
  ghost predicate MailGoes(me: string, m: Mail, events: seq<Event>, b: Inbox, executed: seq<Delivery>)
  {
    && Commands.CanRun(me, m, events)
    && Commands.After(me, m, events).inbox == b && Commands.After(me, m, events).executed == m.executed + executed
  }

  lemma MailFirst(
    me: string, m: Mail, e: Event, rest: seq<Event>, b: Inbox, first: seq<Delivery>, executed: seq<Delivery>)
    requires Commands.CanStep(m, e) && Commands.Step(me, m, e).executed == m.executed + first
    requires MailGoes(me, Commands.Step(me, m, e), rest, b, executed)
    ensures MailGoes(me, m, [e] + rest, b, first + executed)
  {
    assert ([e] + rest)[1..] == rest;
    assert (m.executed + first) + executed == m.executed + (first + executed);
  }

  /** The steps from `l` on are, for the command tables, the events from `m` on. */
  ghost predicate IsMail(me: string, l: Loop, steps: seq<Step>, m: Mail)
    requires CanRun(me, l, steps)
  {
    && ExecutesNext(steps) <= |ExecutedBy(me, l, steps)|
    && MailGoes(me, m, EventsOf(me, steps), AfterAll(me, l, steps).inbox,
                ExecutedBy(me, l, steps)[ExecutesNext(steps)..])
  }

  lemma TakeGoesOn(me: string, l: Loop, steps: seq<Step>, m: Mail)
    requires steps != [] && CanRun(me, l, steps) && m.inbox == l.inbox && steps[0].RunTake?
    requires ExecutesNext(steps[1..]) <= |PendingFor(l.inbox, me)|
    requires Commands.CanStep(m, EventOf(me, steps[0], ExecutesNext(steps[1..])))
    requires IsMail(me, After(me, l, steps[0]), steps[1..],
                    Commands.Step(me, m, EventOf(me, steps[0], ExecutesNext(steps[1..]))))
    ensures IsMail(me, l, steps, m)
  {
    var next, rest := After(me, l, steps[0]), steps[1..];
    var k, later := ExecutesNext(rest), ExecutedBy(me, next, rest);
    TakeIsMail(me, l, m, k);
    ExecutesOutstanding(me, next, rest);
    MailFirst(me, m, EventOf(me, RunTake, k), EventsOf(me, rest), AfterAll(me, next, rest).inbox,
              later[..k], later[k..]);
    assert later[..k] + later[k..] == later && [] + later == later;
  }

  lemma OthersGoOn(me: string, l: Loop, steps: seq<Step>, m: Mail)
    requires steps != [] && CanRun(me, l, steps) && m.inbox == l.inbox && steps[0].Others?
    requires Commands.CanStep(m, EventOf(me, steps[0], ExecutesNext(steps[1..])))
    requires IsMail(me, After(me, l, steps[0]), steps[1..],
                    Commands.Step(me, m, EventOf(me, steps[0], ExecutesNext(steps[1..]))))
    ensures IsMail(me, l, steps, m)
  {
    var next, rest := After(me, l, steps[0]), steps[1..];
    var k, later := ExecutesNext(rest), ExecutedBy(me, next, rest);
    OthersAreMail(me, l, steps[0], m, k);
    MailFirst(me, m, EventOf(me, steps[0], k), EventsOf(me, rest), AfterAll(me, next, rest).inbox, [], later[k..]);
    assert [] + later[k..] == later[k..] && [] + later == later;
  }

  lemma RestGoesOn(me: string, l: Loop, steps: seq<Step>, m: Mail)
    requires steps != [] && CanRun(me, l, steps) && !IsEvent(steps[0])
    requires IsMail(me, After(me, l, steps[0]), steps[1..], m)
    ensures IsMail(me, l, steps, m)
  {
    assert EventsOf(me, steps) == EventsOf(me, steps[1..]);
  }

  lemma {:induction false} LoopIsMail(me: string, l: Loop, steps: seq<Step>, m: Mail)
    requires CanRun(me, l, steps) && m.inbox == l.inbox
    ensures IsMail(me, l, steps, m)
    decreases |steps|
  {
    if steps != [] {
      var s, rest := steps[0], steps[1..];
      var next, k := After(me, l, s), ExecutesNext(rest);
      if s.RunTake? {
        ExecutesOutstanding(me, next, rest);
        TakeIsMail(me, l, m, k);
        LoopIsMail(me, next, rest, Commands.Step(me, m, EventOf(me, s, k)));
        TakeGoesOn(me, l, steps, m);
      } else if s.Others? {
        OthersAreMail(me, l, s, m, k);
        LoopIsMail(me, next, rest, Commands.Step(me, m, EventOf(me, s, k)));
        OthersGoOn(me, l, steps, m);
      } else {
        LoopIsMail(me, next, rest, m);
        RestGoesOn(me, l, steps, m);
      }
    }
  }

  /** Over all runs the loop does to the command tables what Commands says, and what it executes is what Commands
    says: commands that it was sent, each at most once, in the order of their ids. */
  lemma LoopDelivery(me: string, steps: seq<Step>)
    requires CanRun(me, IDLE, steps)
    ensures Commands.CanRun(me, NO_MAIL, EventsOf(me, steps))
    ensures var m := Commands.After(me, NO_MAIL, EventsOf(me, steps));
      && m.inbox == AfterAll(me, IDLE, steps).inbox && m.executed == ExecutedBy(me, IDLE, steps)
      && IsIncreasing(m.executed) && forall d :: d in m.executed ==> d in m.sent
  {
    LoopIsMail(me, IDLE, steps, NO_MAIL);
    ExecutesOutstanding(me, IDLE, steps);
    CommandDelivery(me, EventsOf(me, steps));
  }
}
