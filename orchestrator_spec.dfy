/**
 * A value-level model of the `Orchestrator` of python/orchestrator/orchestrator.py.
 *
 * The collaborators (service registry, queue communicator, health status
 * keeper) are abstract: their state is part of `World`, and the outcome of each
 * call on them comes from an `Env` of scripted answers. Every call the
 * orchestrator makes is appended to `World.calls`, so the order of the steps
 * and what was skipped can be read off the history.
 */
module OrchestratorSpec {
  import opened Enums
  import opened StepSizes

  /**
   * Scripted behaviour of the collaborators. Each oracle gives the outcome of
   * the call made at position `k` of the call history; `commandAndControl` is
   * what the registry lists under the Command-and-Control category.
   */
  datatype Env = Env(
    registerResult: nat -> Response,
    updateStateResult: nat -> Response,
    recomputeResult: nat -> Recompute,
    sendResult: nat -> Response,
    receiveResult: nat -> Received,
    commandAndControl: seq<Endpoint>)

  /**
   * The orchestrator's fields together with the collaborator state it acts on:
   * the health keeper's global state and monitoring flag, its own registry
   * entry's local state, the registration flag, the Command-and-Control
   * endpoint found at set-up, `__step_sizes`, `__responses_received`, and the
   * history of calls.
   */
  datatype World = World(
    globalState: State,
    localState: State,
    monitoring: bool,
    registered: bool,
    endpoint: Option<Endpoint>,
    stepSizes: Option<seq<Reply>>,
    responsesReceived: seq<seq<Reply>>,
    calls: seq<Call>)

  /** The state of a freshly constructed orchestrator, before `run`. */
  function Initial(globalState: State): World {
    World(globalState, Ready, false, false, None, None, [], [])
  }

  /** Result of the main loop: how it ended, the state, and the inbound commands left unread. */
  datatype LoopResult = LoopResult(outcome: Outcome, world: World, rest: seq<Inbound>)

  // ---------------------------------------------------------------------------
  // Single calls on the collaborators
  // ---------------------------------------------------------------------------

  /** `w'` continues `w`: the history only grew, and the endpoint and the registration are kept. */
  predicate Extends(w: World, w': World) {
    && w.calls <= w'.calls
    && w'.endpoint == w.endpoint
    && w'.registered == w.registered
  }

  function Record(w: World, c: Call): World {
    w.(calls := w.calls + [c])
  }

  /** `current_global_state()`. */
  function ReadGlobalState(w: World): World {
    Record(w, GlobalStateRead(w.globalState))
  }

  /** `__update_local_state`: the registry's `update_state` on the orchestrator's own entry. */
  function UpdateLocalState(env: Env, w: World, newState: State): (Response, World) {
    var r := env.updateStateResult(|w.calls|);
    var w' := if r == OK then w.(localState := newState) else w;
    (r, Record(w', LocalStateUpdated(newState, r)))
  }

  /** `update_global_state()`: the health keeper recomputes the global state. */
  function UpdateGlobalState(env: Env, w: World): (Response, World) {
    var rc := env.recomputeResult(|w.calls|);
    (rc.result, Record(w.(globalState := rc.globalState), GlobalStateRecomputed(rc)))
  }

  /** `finalize_monitoring()`. */
  function FinalizeMonitoring(w: World): World {
    Record(w.(monitoring := false), MonitoringFinalized)
  }

  /** `start_monitoring()`. */
  function StartMonitoring(w: World): World {
    Record(w.(monitoring := true), MonitoringStarted)
  }

  /** `communicator.send(msg, C&C in-queue)`. */
  function Send(env: Env, w: World, msg: Message): (Response, World)
    requires w.endpoint.Some?
  {
    var r := env.sendResult(|w.calls|);
    (r, Record(w, MessageSent(msg, w.endpoint.value.inQueue, r)))
  }

  /**
   * `__receive_responses`: a receive on the C&C out-queue. A caught exception
   * and an ERROR returned by the communicator both appear as `ReceiveError`.
   */
  function ReceiveResponses(env: Env, w: World): (Received, World)
    requires w.endpoint.Some?
  {
    var got := env.receiveResult(|w.calls|);
    (got, Record(w, ReplyReceived(w.endpoint.value.outQueue, got)))
  }

  // ---------------------------------------------------------------------------
  // Broadcast and response handling
  // ---------------------------------------------------------------------------

  predicate HasStateUpdateFatal(replies: seq<Reply>) {
    StateUpdateFatalNotice in replies
  }

  /** `__send_terminate_command`: the send's own result is ignored. */
  function SendTerminateCommand(env: Env, w: World, e: Event): World
    requires w.endpoint.Some?
  {
    Send(env, w, EventMsg(e)).1
  }

  /**
   * `__process_responses`. The `STATE_UPDATE_FATAL` marker is looked for first,
   * whatever the command. For INIT the payload is stored in `__step_sizes`
   * before the minimum is taken; Python raises if the payload is empty or holds
   * something other than step-size records. Any other command's payload is
   * appended to `__responses_received`.
   */
  function ProcessResponses(env: Env, w: World, replies: seq<Reply>, command: Command): (r: (Processed, World))
    requires w.endpoint.Some?
    ensures Extends(w, r.1)
  {
    if HasStateUpdateFatal(replies) then
      (ProcessedError, FinalizeMonitoring(SendTerminateCommand(env, w, StateUpdateFatal)))
    else if command == Init then
      var w' := w.(stepSizes := Some(replies));
      if IsStepSizeList(replies) then (MinimumStep(FindMinimumStepSize(replies)), w')
      else (ProcessingRaised, w')
    else
      (Recorded, w.(responsesReceived := w.responsesReceived + [replies]))
  }

  /**
   * `__execute_steering_command`: send the command, then receive, then process
   * the replies. Only an explicit ERROR from processing is an ERROR; the
   * minimum step or the `None` of an append is success.
   */
  function ExecuteSteeringCommand(env: Env, w: World, command: Command): (r: (Outcome, World))
    requires w.endpoint.Some?
    ensures Extends(w, r.1)
  {
    var (sent, w1) := Send(env, w, SteeringMsg(command));
    if sent == ERROR then (Returned(ERROR), w1)
    else
      var (got, w2) := ReceiveResponses(env, w1);
      if got.ReceiveError? then (Returned(ERROR), w2)
      else
        var (p, w3) := ProcessResponses(env, w2, got.replies, command);
        if p == ProcessedError then (Returned(ERROR), w3)
        else if p == ProcessingRaised then (Raised, w3)
        else (Returned(OK), w3)
  }

  // ---------------------------------------------------------------------------
  // The steering-command state machine
  // ---------------------------------------------------------------------------

  /**
   * `__execute_if_validated`: check the global state, commit the local state,
   * broadcast, recompute the global state; the first failing step ends it.
   */
  function ExecuteIfValidated(env: Env, w: World, command: Command, validState: State, newState: State): (r: (Outcome, World))
    requires w.endpoint.Some?
    ensures Extends(w, r.1)
  {
    var w1 := ReadGlobalState(w);
    if w.globalState != validState then (Returned(ERROR), w1)
    else
      var (local, w2) := UpdateLocalState(env, w1, newState);
      if local == ERROR then (Returned(ERROR), w2)
      else
        var (executed, w3) := ExecuteSteeringCommand(env, w2, command);
        if executed != Returned(OK) then (executed, w3)
        else
          var (global, w4) := UpdateGlobalState(env, w3);
          (Returned(global), w4)
  }

  /** The handler table: the `(valid_state, new_state)` pair of each steering command. */
  function Transition(command: Command): (State, State) {
    match command
    case Init => (Ready, Synchronizing)
    case Start => (Synchronizing, Running)
    case End => (Running, Terminated)
  }

  /** `__execute_init_command`, `__execute_start_command`, `__execute_end_command`. */
  function ExecuteCommand(env: Env, w: World, command: Command): (r: (Outcome, World))
    requires w.endpoint.Some?
    ensures Extends(w, r.1)
  {
    ExecuteIfValidated(env, w, command, Transition(command).0, Transition(command).1)
  }

  /** `command_execution_choices[inbound]()`; `__handle_fatal_event` only returns ERROR. */
  function Dispatch(env: Env, w: World, inbound: Inbound): (r: (Outcome, World))
    requires w.endpoint.Some?
    ensures Extends(w, r.1)
  {
    match inbound
    case InboundFatal => (Returned(ERROR), w)
    case InboundCommand(c) => ExecuteCommand(env, w, c)
  }

  /** `__terminate_with_error`: broadcast FATAL, finalize monitoring, return ERROR. */
  function TerminateWithError(env: Env, w: World): (Response, World)
    requires w.endpoint.Some?
  {
    (ERROR, FinalizeMonitoring(SendTerminateCommand(env, w, Fatal)))
  }

  /**
   * `__command_control_and_coordinate`: read the next inbound command and run
   * its handler; on ERROR run the fatal cascade and stop, after a successful
   * END stop with OK, otherwise go on. When the in-queue holds nothing more
   * the loop is left waiting (`Blocked`).
   */
  function CommandControlAndCoordinate(env: Env, w: World, inbound: seq<Inbound>): LoopResult
    requires w.endpoint.Some?
    decreases |inbound|, 2
  {
    if inbound == [] then LoopResult(Blocked, w, [])
    else ReadInbound(env, w, inbound)
  }

  /** `__orchestrator_in_queue.get()`: take the next command off the in-queue. */
  function ReadInbound(env: Env, w: World, inbound: seq<Inbound>): LoopResult
    requires w.endpoint.Some?
    requires inbound != []
    decreases |inbound|, 1
  {
    LoopIteration(env, Record(w, CommandReceived(inbound[0])), inbound[0], inbound[1..])
  }

  /** One pass of the loop body, for the command `m` just read. */
  function LoopIteration(env: Env, w: World, m: Inbound, rest: seq<Inbound>): LoopResult
    requires w.endpoint.Some?
    decreases |rest| + 1, 0
  {
    var (o, w1) := Dispatch(env, w, m);
    if o == Raised then LoopResult(Raised, w1, rest)
    else if o == Returned(ERROR) then
      var (r, w2) := TerminateWithError(env, w1);
      LoopResult(Returned(r), w2, rest)
    else if m == InboundCommand(End) then LoopResult(Returned(OK), w1, rest)
    else CommandControlAndCoordinate(env, w1, rest)
  }

  // ---------------------------------------------------------------------------
  // Set-up and entry point
  // ---------------------------------------------------------------------------

  /** `__register_with_registry`: register as READY; on success set the registered flag. */
  function RegisterWithRegistry(env: Env, w: World): (Response, World) {
    var r := env.registerResult(|w.calls|);
    var w' := Record(w, Registered(r));
    if r == ERROR then (ERROR, w')
    else (OK, w'.(registered := true, localState := Ready))
  }

  /**
   * `__set_up_runtime`: register, take the first Command-and-Control entry's
   * endpoint, ask for one global-state recomputation (its result is ignored),
   * start monitoring.
   */
  function SetUpRuntime(env: Env, w: World): (Response, World)
    requires env.registerResult(|w.calls|) == OK ==> |env.commandAndControl| > 0
  {
    var (r, w1) := RegisterWithRegistry(env, w);
    if r == ERROR then (ERROR, w1)
    else
      var w2 := w1.(endpoint := Some(env.commandAndControl[0]));
      var (_, w3) := UpdateGlobalState(env, w2);
      (OK, StartMonitoring(w3))
  }

  /** `run`: set up, then run the main loop. */
  function Run(env: Env, w: World, inbound: seq<Inbound>): LoopResult
    requires env.registerResult(|w.calls|) == OK ==> |env.commandAndControl| > 0
  {
    var (r, w1) := SetUpRuntime(env, w);
    if r == ERROR then LoopResult(Returned(ERROR), w1, inbound)
    else CommandControlAndCoordinate(env, w1, inbound)
  }
}
