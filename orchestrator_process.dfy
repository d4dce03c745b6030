/**
 * The `Orchestrator` process of python/orchestrator/orchestrator.py as an
 * object whose methods update its fields step by step, as the Python methods
 * do. Every method is proved to leave the object in the state, and to return
 * the result, that the matching function of `OrchestratorSpec` computes from
 * the state it started in; the properties proved about those functions
 * (`CommandProperties`, `LoopProperties`) therefore hold for the methods.
 *
 * Besides the orchestrator's own fields (`__is_registered`, the
 * Command-and-Control endpoint, `__step_sizes`, `__responses_received`) the
 * object carries the state of the collaborators it acts on (the global state
 * and monitoring flag of the health keeper, its registry entry's local state),
 * the history of calls, and the commands still waiting in its own in-queue.
 */
module OrchestratorProcess {
  import opened Enums
  import opened StepSizes
  import opened OrchestratorSpec
  import LoopProperties

  class Orchestrator {
    /** Scripted outcomes of the calls on the collaborators. */
    const env: Env

    var globalState: State
    var localState: State
    var monitoring: bool
    var registered: bool
    var endpoint: Option<Endpoint>
    var stepSizes: Option<seq<Reply>>
    var responsesReceived: seq<seq<Reply>>
    var calls: seq<Call>

    /** The commands waiting in `__orchestrator_in_queue`, oldest first. */
    var inQueue: seq<Inbound>

    /** The object's state as a value of the specification. */
    function Snapshot(): World
      reads this
    {
      World(globalState, localState, monitoring, registered, endpoint, stepSizes, responsesReceived, calls)
    }

    /** `__init__`: nothing registered, no endpoint, no step sizes, no responses. */
    constructor (env: Env, globalState: State, inbound: seq<Inbound>)
      ensures this.env == env
      ensures Snapshot() == Initial(globalState)
      ensures inQueue == inbound
    {
      this.env := env;
      this.globalState := globalState;
      localState := Ready;
      monitoring := false;
      registered := false;
      endpoint := None;
      stepSizes := None;
      responsesReceived := [];
      calls := [];
      inQueue := inbound;
    }

    method AppendCall(c: Call)
      modifies this
      ensures Snapshot() == OrchestratorSpec.Record(old(Snapshot()), c)
      ensures inQueue == old(inQueue)
    {
      calls := calls + [c];
    }

    // -------------------------------------------------------------------------
    // Calls on the collaborators
    // -------------------------------------------------------------------------

    /** `current_global_state()` of the health keeper. */
    method CurrentGlobalState() returns (s: State)
      modifies this
      ensures s == old(globalState)
      ensures Snapshot() == OrchestratorSpec.ReadGlobalState(old(Snapshot()))
      ensures inQueue == old(inQueue)
    {
      s := globalState;
      AppendCall(GlobalStateRead(s));
    }

    /** `__update_local_state`. */
    method UpdateLocalState(newState: State) returns (r: Response)
      modifies this
      ensures (r, Snapshot()) == OrchestratorSpec.UpdateLocalState(env, old(Snapshot()), newState)
      ensures inQueue == old(inQueue)
    {
      r := env.updateStateResult(|calls|);
      if r == OK {
        localState := newState;
      }
      AppendCall(LocalStateUpdated(newState, r));
    }

    /** `update_global_state()` of the health keeper. */
    method UpdateGlobalState() returns (r: Response)
      modifies this
      ensures (r, Snapshot()) == OrchestratorSpec.UpdateGlobalState(env, old(Snapshot()))
      ensures inQueue == old(inQueue)
    {
      var rc := env.recomputeResult(|calls|);
      globalState := rc.globalState;
      AppendCall(GlobalStateRecomputed(rc));
      r := rc.result;
    }

    /** `finalize_monitoring()` of the health keeper. */
    method FinalizeMonitoring()
      modifies this
      ensures Snapshot() == OrchestratorSpec.FinalizeMonitoring(old(Snapshot()))
      ensures inQueue == old(inQueue)
    {
      monitoring := false;
      AppendCall(MonitoringFinalized);
    }

    /** `start_monitoring()` of the health keeper. */
    method StartMonitoring()
      modifies this
      ensures Snapshot() == OrchestratorSpec.StartMonitoring(old(Snapshot()))
      ensures inQueue == old(inQueue)
    {
      monitoring := true;
      AppendCall(MonitoringStarted);
    }

    /** `communicator.send(msg, C&C in-queue)`. */
    method Send(msg: Message) returns (r: Response)
      requires endpoint.Some?
      modifies this
      ensures (r, Snapshot()) == OrchestratorSpec.Send(env, old(Snapshot()), msg)
      ensures inQueue == old(inQueue)
    {
      r := env.sendResult(|calls|);
      AppendCall(MessageSent(msg, endpoint.value.inQueue, r));
    }

    /** `communicator.receive(__orchestrator_in_queue)`: the next command of the in-queue. */
    method ReceiveCommand() returns (m: Inbound)
      requires inQueue != []
      modifies this
      ensures m == old(inQueue)[0] && inQueue == old(inQueue)[1..]
      ensures Snapshot() == OrchestratorSpec.Record(old(Snapshot()), CommandReceived(m))
    {
      m := inQueue[0];
      inQueue := inQueue[1..];
      AppendCall(CommandReceived(m));
    }

    // -------------------------------------------------------------------------
    // Broadcast and response handling
    // -------------------------------------------------------------------------

    /** `__receive_responses`. */
    method ReceiveResponses() returns (got: Received)
      requires endpoint.Some?
      modifies this
      ensures (got, Snapshot()) == OrchestratorSpec.ReceiveResponses(env, old(Snapshot()))
      ensures inQueue == old(inQueue)
    {
      got := env.receiveResult(|calls|);
      AppendCall(ReplyReceived(endpoint.value.outQueue, got));
    }

    /** `__send_terminate_command`. */
    method SendTerminateCommand(e: Event)
      requires endpoint.Some?
      modifies this
      ensures Snapshot() == OrchestratorSpec.SendTerminateCommand(env, old(Snapshot()), e)
      ensures endpoint == old(endpoint)
      ensures inQueue == old(inQueue)
    {
      var _ := Send(EventMsg(e));
    }

    /** `__process_responses`. */
    method ProcessResponses(replies: seq<Reply>, command: Command) returns (p: Processed)
      requires endpoint.Some?
      modifies this
      ensures (p, Snapshot()) == OrchestratorSpec.ProcessResponses(env, old(Snapshot()), replies, command)
      ensures inQueue == old(inQueue)
    {
      if StateUpdateFatalNotice in replies {
        SendTerminateCommand(StateUpdateFatal);
        FinalizeMonitoring();
        return ProcessedError;
      }
      if command == Init {
        stepSizes := Some(replies);
        if !IsStepSizeList(replies) {
          return ProcessingRaised;
        }
        return MinimumStep(FindMinimumStepSize(replies));
      }
      responsesReceived := responsesReceived + [replies];
      return Recorded;
    }

    /** `__execute_steering_command`. */
    method ExecuteSteeringCommand(command: Command) returns (o: Outcome)
      requires endpoint.Some?
      modifies this
      ensures (o, Snapshot()) == OrchestratorSpec.ExecuteSteeringCommand(env, old(Snapshot()), command)
      ensures inQueue == old(inQueue)
    {
      var sent := Send(SteeringMsg(command));
      if sent == ERROR {
        return Returned(ERROR);
      }
      var got := ReceiveResponses();
      if got.ReceiveError? {
        return Returned(ERROR);
      }
      var p := ProcessResponses(got.replies, command);
      if p == ProcessedError {
        return Returned(ERROR);
      }
      if p == ProcessingRaised {
        return Raised;
      }
      return Returned(OK);
    }

    // -------------------------------------------------------------------------
    // The steering-command state machine
    // -------------------------------------------------------------------------

    /** `__execute_if_validated`. */
    method ExecuteIfValidated(command: Command, validState: State, newState: State) returns (o: Outcome)
      requires endpoint.Some?
      modifies this
      ensures (o, Snapshot()) == OrchestratorSpec.ExecuteIfValidated(env, old(Snapshot()), command, validState, newState)
      ensures inQueue == old(inQueue)
    {
      var current := CurrentGlobalState();
      if current != validState {
        return Returned(ERROR);
      }
      var local := UpdateLocalState(newState);
      if local == ERROR {
        return Returned(ERROR);
      }
      o := ExecuteSteeringCommand(command);
      if o != Returned(OK) {
        return;
      }
      var global := UpdateGlobalState();
      return Returned(global);
    }

    /** `__execute_init_command`. */
    method ExecuteInitCommand() returns (o: Outcome)
      requires endpoint.Some?
      modifies this
      ensures (o, Snapshot()) == OrchestratorSpec.ExecuteCommand(env, old(Snapshot()), Init)
      ensures inQueue == old(inQueue)
    {
      o := ExecuteIfValidated(Init, Ready, Synchronizing);
    }

    /** `__execute_start_command`. */
    method ExecuteStartCommand() returns (o: Outcome)
      requires endpoint.Some?
      modifies this
      ensures (o, Snapshot()) == OrchestratorSpec.ExecuteCommand(env, old(Snapshot()), Start)
      ensures inQueue == old(inQueue)
    {
      o := ExecuteIfValidated(Start, Synchronizing, Running);
    }

    /** `__execute_end_command`. */
    method ExecuteEndCommand() returns (o: Outcome)
      requires endpoint.Some?
      modifies this
      ensures (o, Snapshot()) == OrchestratorSpec.ExecuteCommand(env, old(Snapshot()), End)
      ensures inQueue == old(inQueue)
    {
      o := ExecuteIfValidated(End, Running, Terminated);
    }

    /** `__handle_fatal_event`: ERROR, and no field changes. */
    method HandleFatalEvent() returns (r: Response)
      ensures r == ERROR
    {
      r := ERROR;
    }

    /** `command_execution_choices[m]()`. */
    method ExecuteChoice(m: Inbound) returns (o: Outcome)
      requires endpoint.Some?
      modifies this
      ensures (o, Snapshot()) == OrchestratorSpec.Dispatch(env, old(Snapshot()), m)
      ensures inQueue == old(inQueue)
    {
      match m
      case InboundFatal =>
        var r := HandleFatalEvent();
        o := Returned(r);
      case InboundCommand(Init) =>
        o := ExecuteInitCommand();
      case InboundCommand(Start) =>
        o := ExecuteStartCommand();
      case InboundCommand(End) =>
        o := ExecuteEndCommand();
    }

    /** `__terminate_with_error`. */
    method TerminateWithError() returns (r: Response)
      requires endpoint.Some?
      modifies this
      ensures (r, Snapshot()) == OrchestratorSpec.TerminateWithError(env, old(Snapshot()))
      ensures inQueue == old(inQueue)
    {
      SendTerminateCommand(Fatal);
      FinalizeMonitoring();
      r := ERROR;
    }

    /**
     * `__command_control_and_coordinate`: handle one inbound command after
     * another until one fails, raises, or END succeeds. When the in-queue runs
     * dry the method returns `Blocked` where the Python loop would wait.
     */
    method CommandControlAndCoordinate() returns (o: Outcome)
      requires endpoint.Some?
      modifies this
      ensures LoopResult(o, Snapshot(), inQueue)
           == OrchestratorSpec.CommandControlAndCoordinate(env, old(Snapshot()), old(inQueue))
    {
      ghost var target := OrchestratorSpec.CommandControlAndCoordinate(env, Snapshot(), inQueue);
      while true
        invariant endpoint.Some?
        invariant OrchestratorSpec.CommandControlAndCoordinate(env, Snapshot(), inQueue) == target
        decreases |inQueue|
      {
        if inQueue == [] {
          return Blocked;
        }
        ghost var before := Snapshot();
        ghost var rest := inQueue[1..];
        var m := ReceiveCommand();
        ghost var read := Snapshot();
        assert target == LoopIteration(env, read, m, rest);
        o := ExecuteChoice(m);
        LoopProperties.IterationCases(env, read, m, rest);
        if o == Raised {
          return;
        }
        if o == Returned(ERROR) {
          var r := TerminateWithError();
          return Returned(r);
        }
        if m == InboundCommand(End) {
          return Returned(OK);
        }
      }
    }

    // -------------------------------------------------------------------------
    // Set-up and entry point
    // -------------------------------------------------------------------------

    /** `__register_with_registry`. */
    method RegisterWithRegistry() returns (r: Response)
      modifies this
      ensures (r, Snapshot()) == OrchestratorSpec.RegisterWithRegistry(env, old(Snapshot()))
      ensures inQueue == old(inQueue)
    {
      r := env.registerResult(|calls|);
      AppendCall(Registered(r));
      if r == ERROR {
        return ERROR;
      }
      registered := true;
      localState := Ready;
      return OK;
    }

    /** `__set_up_runtime`. */
    method SetUpRuntime() returns (r: Response)
      requires env.registerResult(|calls|) == OK ==> |env.commandAndControl| > 0
      modifies this
      ensures (r, Snapshot()) == OrchestratorSpec.SetUpRuntime(env, old(Snapshot()))
      ensures inQueue == old(inQueue)
    {
      r := RegisterWithRegistry();
      if r == ERROR {
        return ERROR;
      }
      endpoint := Some(env.commandAndControl[0]);
      var _ := UpdateGlobalState();
      StartMonitoring();
      return OK;
    }

    /** `run`. */
    method Run() returns (o: Outcome)
      requires env.registerResult(|calls|) == OK ==> |env.commandAndControl| > 0
      modifies this
      ensures LoopResult(o, Snapshot(), inQueue) == OrchestratorSpec.Run(env, old(Snapshot()), old(inQueue))
    {
      var r := SetUpRuntime();
      if r == ERROR {
        return Returned(ERROR);
      }
      o := CommandControlAndCoordinate();
    }
  }
}
