/**
 * The vocabulary the orchestrator shares with the rest of the co-simulation
 * workflow: response codes, lifecycle states, steering commands, events, the
 * messages put on the Command-and-Control channel, and the record of every
 * call the orchestrator makes on its collaborators.
 */
module Enums {

  datatype Option<+T> = None | Some(value: T)

  /** Binary outcome of every fallible operation (`Response.OK`, `Response.ERROR`). */
  datatype Response = OK | ERROR

  /**
   * Lifecycle states (`STATES`). `Error` stands for every state other than the
   * four the steering commands move between; no command accepts it.
   */
  datatype State = Ready | Synchronizing | Running | Terminated | Error

  /** Steering commands (`SteeringCommands`). */
  datatype Command = Init | Start | End

  /** Out-of-band events (`EVENT`). */
  datatype Event = Fatal | StateUpdateFatal

  /** What the orchestrator puts on the Command-and-Control in-queue. */
  datatype Message = SteeringMsg(command: Command) | EventMsg(event: Event)

  /** The four messages the orchestrator's own in-queue delivers to the main loop. */
  datatype Inbound = InboundFatal | InboundCommand(command: Command)

  /**
   * One element of a reply payload read from the Command-and-Control
   * out-queue: the `STATE_UPDATE_FATAL` marker, a step-size record
   * `{pid, min_delay}` (the reply to INIT), or a plain acknowledgement.
   */
  datatype Reply =
    | StateUpdateFatalNotice
    | StepRecord(pid: int, minDelay: real)
    | Acknowledgement(response: Response)

  /** What a receive on the Command-and-Control out-queue yields. */
  datatype Received = ReceiveError | Payload(replies: seq<Reply>)

  /** Outcome of `update_global_state()`: its response and the global state it leaves. */
  datatype Recompute = Recompute(result: Response, globalState: State)

  /** Abstract identity of a message queue. */
  type Channel = nat

  /** A registry entry's endpoint: the (in-queue, out-queue) pair. */
  datatype Endpoint = Endpoint(inQueue: Channel, outQueue: Channel)

  /** One call of the orchestrator on a collaborator, with the outcome it got. */
  datatype Call =
    | Registered(result: Response)
    | GlobalStateRead(seen: State)
    | LocalStateUpdated(newState: State, result: Response)
    | GlobalStateRecomputed(outcome: Recompute)
    | MonitoringStarted
    | MonitoringFinalized
    | MessageSent(msg: Message, queue: Channel, result: Response)
    | ReplyReceived(source: Channel, got: Received)
    | CommandReceived(inbound: Inbound)

  /**
   * How a call of an orchestrator operation ends: it returns a response, it
   * raises an exception that nothing in the core catches, or (only the main
   * loop) it is still blocked waiting for the next inbound command.
   */
  datatype Outcome = Returned(response: Response) | Raised | Blocked

  /** What `__process_responses` returns. */
  datatype Processed =
    | ProcessedError
    | MinimumStep(size: real)
    | Recorded
    | ProcessingRaised
}
