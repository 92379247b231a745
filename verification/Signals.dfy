/** What reaches a worker process from outside: notifications, through its LISTEN connection, and commands. */
module Signals {
  import opened Messages

  /** The LISTEN connection: down, or listening, before or after the poke that follows a (re)connect. */
  datatype Listener = Down | Listening(poked: bool)

  /** Remote commands; anything else is logged and ignored. */
  datatype Command =
    | StartCommand(count: int, queue: Queue)
    | StopOneCommand(consumerId: ConsumerId)
    | StopEveryCommand
    | KillCommand(consumerId: ConsumerId)
    | InvalidCommand
}
