/** A consumer: the loop that claims a message, handles it, and acks or nacks it.

  The coroutine only changes its object between awaits, so its behaviour is a set of transitions from
  one await to the next. `Task` is the object as a value, with the await it is suspended in as its
  phase. The class at the end makes the same transitions by assigning the fields. */
module Consumers {
  import opened Prelude
  import opened Messages

  /** The `state` column of a consumer's registry row: starting, idle, processing (Busy here, since Processing
    is the status of a message) or stopping. */
  datatype State = Starting | Idle | Busy | Stopping

  datatype Phase =
    | Looping                                    // about to test `while not self.stopping`
    | Claiming(seen: nat)                        // in CLAIM, after reading the notifier's version
    | Parked(seen: nat)                          // in wait_newer, after a claim that found nothing
    | Handling(message: int)
    | Settling(message: int, succeeded: bool)    // in ACK, or in NACK if the handler failed
    | Retrying                                   // asleep after a database error
    | Ended(cancelled: bool)

  /** The reply to a statement that has been executed, on its way to the consumer that sent it. */
  datatype Reply = ClaimReply(picked: Option<int>) | SettleReply

  datatype Task = Task(
    queue: Queue,
    phase: Phase,
    state: State,
    current: Option<int>,
    processed: nat,
    failed: nat,
    stopping: bool)

  function Fresh(queue: Queue): Task { Task(queue, Looping, Starting, None, 0, 0, false) }

  predicate IsHandling(t: Task) { t.phase.Handling? || t.phase.Settling? }

  /** The loop test, and the start of a step: nothing is awaited between the two. */
  function Looped(t: Task, version: nat): Task
  {
    t.(phase := if t.stopping then Ended(false) else Claiming(version))
  }

  function ClaimReplied(t: Task, reply: Option<int>): Task
    requires t.phase.Claiming?
  {
    match reply
    case None => t.(phase := Parked(t.phase.seen), state := Idle)
    case Some(id) => t.(phase := Handling(id), state := Busy, current := Some(id))
  }

  function Woken(t: Task): Task { t.(phase := Looping) }

  /** processed counts handlers that succeeded, whatever becomes of the ack. */
  function Handled(t: Task, succeeded: bool): Task
    requires t.phase.Handling?
  {
    if succeeded then t.(phase := Settling(t.phase.message, true), processed := t.processed + 1)
    else t.(phase := Settling(t.phase.message, false), failed := t.failed + 1)
  }

  /** The `finally` block. */
  function LetGo(t: Task): Task
  {
    t.(current := None, state := if t.stopping then Stopping else Idle)
  }

  /** The ack or nack came back, and it makes no difference whether the lease was lost. */
  function Settled(t: Task): Task { LetGo(t).(phase := Looping) }

  /** psycopg.Error out of the claim, the ack or the nack. */
  function Errored(t: Task): Task
  {
    (if t.phase.Settling? then LetGo(t) else t).(phase := Retrying, current := None)
  }

  function Retried(t: Task): Task { t.(phase := Looping) }

  function StopRequested(t: Task): Task
  {
    t.(stopping := true, state := if t.state.Busy? then Busy else Stopping)
  }

  function Cancelled(t: Task): Task
  {
    (if IsHandling(t) then LetGo(t) else t).(phase := Ended(true))
  }

  /** The statement a settling consumer has sent. */
  function SettleOp(consumer: ConsumerId, t: Task): Op
    requires t.phase.Settling?
  {
    if t.phase.succeeded then Ack(t.phase.message, consumer) else Nack(t.phase.message, consumer)
  }

  /** current_message_id and state tell a heartbeat exactly whether a message is in flight; "starting" says that no
    claim has been answered, "stopping" that the consumer was asked to stop; a consumer that waits for work is "idle"
    or was asked to stop; and none ends by itself unless it was. */
  predicate ValidTask(t: Task)
  {
    && (IsHandling(t) <==> t.current.Some?)
    && (IsHandling(t) ==> t.current == Some(t.phase.message))
    && (IsHandling(t) <==> t.state.Busy?)
    && (t.state.Starting? ==> !t.stopping && t.processed == 0 && t.failed == 0 && !t.phase.Parked?)
    && (t.state.Stopping? ==> t.stopping)
    && (t.stopping && (t.phase.Claiming? || t.phase.Retrying?) ==> t.state.Stopping?)
    && (t.phase == Ended(false) ==> t.stopping)
  }

  /** Every transition keeps ValidTask. */
  lemma TransitionsKeepValid(t: Task, version: nat, reply: Option<int>, succeeded: bool)
    requires ValidTask(t)
    ensures t.phase.Looping? ==> ValidTask(Looped(t, version))
    ensures t.phase.Claiming? ==> ValidTask(ClaimReplied(t, reply))
    ensures t.phase.Parked? ==> ValidTask(Woken(t))
    ensures t.phase.Handling? ==> ValidTask(Handled(t, succeeded))
    ensures t.phase.Settling? ==> ValidTask(Settled(t))
    ensures t.phase.Claiming? || t.phase.Settling? ==> ValidTask(Errored(t))
    ensures t.phase.Retrying? ==> ValidTask(Retried(t))
    ensures ValidTask(StopRequested(t)) && ValidTask(Cancelled(t))
  {
  }

  class Consumer {
    const id: ConsumerId
    const queue: Queue
    var phase: Phase
    var state: State
    var currentMessageId: Option<int>
    var processed: nat
    var failed: nat
    var stopping: bool

    function View(): Task
      reads this
    {
      Task(queue, phase, state, currentMessageId, processed, failed, stopping)
    }

    constructor (id: ConsumerId, queue: Queue)
      ensures this.id == id && View() == Fresh(queue) && ValidTask(View())
    {
      this.id, this.queue := id, queue;
      phase, state, currentMessageId := Looping, Starting, None;
      processed, failed, stopping := 0, 0, false;
    }

    method Loop(version: nat)
      requires ValidTask(View()) && phase.Looping?
      modifies this
      ensures View() == Looped(old(View()), version) && ValidTask(View())
      ensures phase == if stopping then Ended(false) else Claiming(version)
    {
      if stopping {
        phase := Ended(false);
      } else {
        phase := Claiming(version);
      }
    }

    method OnClaimed(message: Option<int>)
      requires ValidTask(View()) && phase.Claiming?
      modifies this
      ensures View() == ClaimReplied(old(View()), message) && ValidTask(View())
      ensures match message
        case None => state == Idle && phase == Parked(old(phase.seen))
        case Some(id) => state == Busy && phase == Handling(id) && currentMessageId == Some(id)
    {
      if message.None? {
        state := Idle;
        phase := Parked(phase.seen);
        return;
      }
      state := Busy;
      currentMessageId := Some(message.value);
      phase := Handling(message.value);
    }

    /** wait_newer has returned, and so does the step. */
    method OnWoken()
      requires ValidTask(View()) && phase.Parked?
      modifies this`phase
      ensures View() == Woken(old(View())) && ValidTask(View())
      ensures phase == Looping
    {
      phase := Looping;
    }

    method OnHandled(succeeded: bool)
      requires ValidTask(View()) && phase.Handling?
      modifies this
      ensures View() == Handled(old(View()), succeeded) && ValidTask(View())
      ensures phase == Settling(old(phase.message), succeeded)
    {
      if succeeded {
        processed := processed + 1;
      } else {
        failed := failed + 1;
      }
      phase := Settling(phase.message, succeeded);
    }

    method OnSettled()
      requires ValidTask(View()) && phase.Settling?
      modifies this
      ensures View() == Settled(old(View())) && ValidTask(View())
      ensures phase == Looping && currentMessageId == None && state == if stopping then Stopping else Idle
    {
      currentMessageId := None;
      state := if stopping then Stopping else Idle;
      phase := Looping;
    }

    method OnDatabaseError()
      requires ValidTask(View()) && (phase.Claiming? || phase.Settling?)
      modifies this
      ensures View() == Errored(old(View())) && ValidTask(View())
      ensures phase == Retrying && currentMessageId == None
      ensures state == if old(phase.Claiming?) then old(state) else if stopping then Stopping else Idle
    {
      if phase.Settling? {
        state := if stopping then Stopping else Idle;
      }
      currentMessageId := None;
      phase := Retrying;
    }

    /** The second's sleep after a database error is over. */
    method OnRetried()
      requires ValidTask(View()) && phase.Retrying?
      modifies this`phase
      ensures View() == Retried(old(View())) && ValidTask(View())
      ensures phase == Looping
    {
      phase := Looping;
    }

    method OnCancelled()
      requires ValidTask(View())
      modifies this
      ensures View() == Cancelled(old(View())) && ValidTask(View())
      ensures phase == Ended(true) && currentMessageId == None
      ensures state == if old(state) != Busy then old(state) else if stopping then Stopping else Idle
    {
      if phase.Handling? || phase.Settling? {
        currentMessageId := None;
        state := if stopping then Stopping else Idle;
      }
      phase := Ended(true);
    }

    /** What stop_consumer does to the consumer. */
    method RequestStop()
      requires ValidTask(View())
      modifies this
      ensures View() == StopRequested(old(View())) && ValidTask(View())
      ensures stopping && state == if old(state) == Busy then Busy else Stopping
    {
      stopping := true;
      if state != Busy {
        state := Stopping;
      }
    }
  }
}
