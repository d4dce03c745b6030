# Orchestrator control core, modelled in Dafny

This project models the sequential control core of the co-simulation
orchestrator, the `Orchestrator` class of `python/orchestrator/orchestrator.py`,
and proves properties of it. The orchestrator:

- registers with the service registry;
- finds the Command-and-Control (C&C) service;
- takes steering commands (INIT, START, END) and the FATAL event from its own
  in-queue, one after another;
- runs each command as a fixed sequence of four steps:
  1. check the global state;
  2. commit its own local state;
  3. broadcast the command to the C&C service and interpret the replies;
  4. have the health keeper recompute the global state.

An ERROR inside the main loop ends the run through the fatal cascade: FATAL is
sent to the C&C in-queue, monitoring is finalized, and ERROR is returned. A
failed registration makes `run` return ERROR before the loop starts, with no
cascade. A successful END ends the run with OK.

## Structure

| file | module | contents |
|---|---|---|
| `enums.dfy` | `Enums` | responses, lifecycle states, commands, events, messages, reply payloads, and the record of calls the orchestrator makes |
| `step_sizes.dfy` | `StepSizes` | `__find_minimum_step_size` as a pure function, with lemmas about it |
| `orchestrator_spec.dfy` | `OrchestratorSpec` | a value-level specification: a world value and one function per method of the class |
| `orchestrator_process.dfy` | `OrchestratorProcess` | the class `Orchestrator`: fields and methods that update them step by step, as the Python does; the main loop is a `while` loop |
| `command_properties.dfy` | `CommandProperties` | properties of one steering command |
| `loop_properties.dfy` | `LoopProperties` | properties of the main loop and of `run` |
| `scenarios.dfy` | `Scenarios` | worked runs with fixed collaborator answers |

### How the collaborators are modelled

The collaborators are the service registry, the queue communicator and the
health-status keeper. They are not part of this model. Their state is part of
the world:

- the global state;
- the orchestrator's own local state;
- the monitoring flag.

The answer each of their calls gives comes from an `Env` of scripted outcomes.
An outcome is indexed by the call's position in the history `calls`, so a
lemma can fix, for example, "the send made as the fourth call fails". Every
call is appended to the history. Ordering and short-circuiting are therefore
stated as exact histories.

Each method of `OrchestratorProcess.Orchestrator` is proved to return the
result, and leave the state, that its `OrchestratorSpec` function computes
from the state it started in. The properties proved about those functions
therefore hold for the object.

In the table below, each `OrchestratorProcess.Orchestrator` row stands for
both layers: the method and the `OrchestratorSpec` function of the same name
that its contract equals. This covers `CommandControlAndCoordinate` (with its
helpers `ReadInbound` and `LoopIteration`), `TerminateWithError`,
`RegisterWithRegistry`, `SetUpRuntime`, `Run`, `SendTerminateCommand` and
`ReceiveResponses`. `OrchestratorSpec.Transition` is the table of valid and new
states that the `ExecuteInitCommand`, `ExecuteStartCommand` and
`ExecuteEndCommand` rows cite; `CommandProperties.TransitionAdvancesOneEdge`
states its properties.

### Two behaviours of the code worth noting

- **Malformed INIT reply.** An empty or malformed INIT reply is not turned
  into ERROR. `min([])` (python/orchestrator/orchestrator.py:141) raises, and
  so does the `min_delay` lookup (139) on a reply that is not a step-size
  record. Nothing in the class catches it. The model's outcome is then
  `Raised`, which ends the loop and `run` without the fatal cascade. Because
  `__step_sizes` is assigned (185) before `min` runs, it is updated even then.
- **Global state after a command.** The global state after a command is
  whatever `update_global_state()` (python/orchestrator/orchestrator.py:292)
  leaves. The model takes it from the scripted `Recompute` outcome.

## Model

| member | source | states |
|---|---|---|
| StepSizes.Min | python/orchestrator/orchestrator.py:141 | Python's `min` on a non-empty list: the result is an element of the list and no element is smaller |
| StepSizes.Delays | python/orchestrator/orchestrator.py:139 | the comprehension over `min_delay`: one delay per record, in the same order |
| StepSizes.FindMinimumStepSize | python/orchestrator/orchestrator.py:124-141 | on a non-empty list of step-size records, the result is the `min_delay` of some record and no record has a smaller one |
| StepSizes.MinimumIsUnique | python/orchestrator/orchestrator.py:139-141 | a value is a least delay of the records if and only if it is the reduction's result |
| StepSizes.SingleRecordGivesItsDelay | python/orchestrator/orchestrator.py:139-141 | a single record reduces to its own delay |
| StepSizes.MinimumIgnoresOrder | python/orchestrator/orchestrator.py:139-141 | two payloads holding the same records, in any order, reduce to the same step |
| OrchestratorSpec.ProcessResponses | python/orchestrator/orchestrator.py:155-193 | processing a payload only appends to the history and keeps the endpoint and the registration |
| OrchestratorSpec.ExecuteSteeringCommand | python/orchestrator/orchestrator.py:206-247 | a broadcast only appends to the history and keeps the endpoint and the registration |
| OrchestratorSpec.ExecuteIfValidated | python/orchestrator/orchestrator.py:249-297 | a validated execution only appends to the history and keeps the endpoint and the registration |
| OrchestratorSpec.ExecuteCommand | python/orchestrator/orchestrator.py:377-393 | the three command handlers only append to the history and keep the endpoint and the registration |
| OrchestratorSpec.Dispatch | python/orchestrator/orchestrator.py:412-416 | whichever handler the table picks, it only appends to the history and keeps the endpoint and the registration |
| CommandProperties.TransitionAdvancesOneEdge | python/orchestrator/orchestrator.py:377-393 | each handler's pair moves exactly one edge along READY, SYNCHRONIZING, RUNNING, TERMINATED; no command accepts TERMINATED; no two commands share a valid state or a new state |
| CommandProperties.RejectedWithoutSideEffects | python/orchestrator/orchestrator.py:272-277 | a global state other than the valid one gives ERROR, and the read is the only call made: no commit, no send, no recomputation |
| CommandProperties.TerminatedRejectsEveryCommand | python/orchestrator/orchestrator.py:377-393 | from TERMINATED, INIT, START and END all return ERROR after only the global-state read |
| CommandProperties.FailedCommitStopsBeforeBroadcast | python/orchestrator/orchestrator.py:279-283 | a failed local commit gives ERROR; no broadcast and no recomputation follow, and the local state is unchanged |
| CommandProperties.FailedSendStopsBeforeReceive | python/orchestrator/orchestrator.py:212-225 | a failed steering send gives ERROR; nothing is received and nothing is recomputed |
| CommandProperties.FailedReceiveSkipsProcessing | python/orchestrator/orchestrator.py:228-235 | a failed receive, whether a caught exception or ERROR, gives ERROR; no payload is processed and nothing is recomputed |
| CommandProperties.StateUpdateFatalCascade | python/orchestrator/orchestrator.py:172-181 | for any command, a marker in the payload makes the orchestrator send STATE_UPDATE_FATAL (not FATAL) and finalize monitoring, then return ERROR; `__step_sizes`, `__responses_received` and the global state are left as they were |
| CommandProperties.InitReplyGivesMinimumStep | python/orchestrator/orchestrator.py:183-189 | an INIT reply of step-size records is stored in `__step_sizes`, and the result is its least delay |
| CommandProperties.MalformedInitReplyRaises | python/orchestrator/orchestrator.py:184-187 | an empty or malformed INIT reply raises, with the payload already stored in `__step_sizes` |
| CommandProperties.OtherReplyIsRecorded | python/orchestrator/orchestrator.py:191-193 | the reply to START or END is appended to `__responses_received`, which grows by exactly that payload; the command counts as a success; nothing else changes |
| CommandProperties.BroadcastOkIffSucceeds | python/orchestrator/orchestrator.py:206-247 | the broadcast returns OK if and only if the send succeeds, a payload without the marker arrives, and for INIT that payload is a list of step-size records; it then makes exactly two calls |
| CommandProperties.OkIffAllStepsSucceed | python/orchestrator/orchestrator.py:272-297 | a command returns OK if and only if all four steps succeed: check, commit, broadcast, recompute |
| CommandProperties.SucceededBroadcastWorld | python/orchestrator/orchestrator.py:206-247 | after a successful broadcast, the payload is stored or recorded and exactly the send and the receive were made |
| CommandProperties.SucceededCommandWorld | python/orchestrator/orchestrator.py:272-297 | after a successful command, the local state is committed, the global state is recomputed, and the history shows check, commit, send, receive and recompute in that order |
| CommandProperties.OnlyInitRaises | python/orchestrator/orchestrator.py:184-189 | only INIT can raise, after check, commit, send and receive and with monitoring untouched |
| CommandProperties.FatalEventSkipsValidation | python/orchestrator/orchestrator.py:395-400 | an inbound FATAL gives ERROR with no call at all, not even a global-state read |
| LoopProperties.DispatchOk | python/orchestrator/orchestrator.py:428-429 | a handler that returned OK was a steering command; it neither finalized monitoring nor sent an event |
| LoopProperties.DispatchRaised | python/orchestrator/orchestrator.py:428-429 | a handler that raised was INIT; its reply held no marker and was not a list of step-size records; no cascade ran |
| LoopProperties.DispatchExtends | python/orchestrator/orchestrator.py:428-429 | any handler keeps the endpoint and the registration and only appends to the history |
| LoopProperties.IterationCases | python/orchestrator/orchestrator.py:428-448 | one pass of the loop: raise or ERROR ends it, the latter through the cascade; a successful END ends it with OK; a successful INIT or START goes on |
| LoopProperties.LoopExtends | python/orchestrator/orchestrator.py:417-448 | the loop only appends to the history and keeps the endpoint and the registration |
| LoopProperties.LoopShape | python/orchestrator/orchestrator.py:417-448 | the loop leaves a suffix of the in-queue unread: nothing when blocked (every command was read), and at least one command fewer than the whole queue otherwise |
| LoopProperties.LoopStopsAtLastRead | python/orchestrator/orchestrator.py:428-448 | every command read before the last one was an INIT or a START whose handler returned OK in the state the earlier commands left; when blocked, every command was read and succeeded, and the state is what handling them all in turn leaves |
| LoopProperties.LoopLastCommand | python/orchestrator/orchestrator.py:442-445 | OK comes only right after END; an uncaught exception only right after INIT |
| LoopProperties.LoopWithoutCascade | python/orchestrator/orchestrator.py:417-448 | a loop that returns OK or raises never finalized monitoring and never sent an event |
| LoopProperties.LoopRaisedKeepsPayload | python/orchestrator/orchestrator.py:184-187 | a raising loop leaves the malformed INIT payload in `__step_sizes` |
| LoopProperties.LoopOkOnlyAfterEnd | python/orchestrator/orchestrator.py:442-445 | the loop returns OK only after END, with monitoring never finalized and no event sent |
| LoopProperties.LoopErrorIsFatalCascade | python/orchestrator/orchestrator.py:428-439 | the loop returns ERROR only through the cascade: the history ends with FATAL sent to the C&C in-queue, then monitoring finalized |
| LoopProperties.LoopRaisedSkipsCascade | python/orchestrator/orchestrator.py:417-448 | the loop raises only on an INIT with a malformed reply; no cascade ran, and the payload is in `__step_sizes` |
| LoopProperties.FatalInboundCascade | python/orchestrator/orchestrator.py:395-400 | an inbound FATAL leads straight to the cascade with no state check; the rest of the in-queue is unread |
| LoopProperties.StateUpdateFatalThenFatal | python/orchestrator/orchestrator.py:428-439 | after a STATE_UPDATE_FATAL reply, the history shows STATE_UPDATE_FATAL sent and monitoring finalized, then FATAL sent and monitoring finalized again; the loop returns ERROR |
| LoopProperties.EndStopsTheLoop | python/orchestrator/orchestrator.py:442-445 | a successful END returns OK; the commands after it are never read |
| LoopProperties.OtherSuccessContinues | python/orchestrator/orchestrator.py:446-448 | a successful INIT or START goes on to the next command |
| LoopProperties.RegistrationFailureStopsRun | python/orchestrator/orchestrator.py:455-459 | a failed registration makes `run` return ERROR after the registration call alone; no command is read |
| LoopProperties.SetUpThenLoop | python/orchestrator/orchestrator.py:333-361 | after a successful registration, the loop starts registered, as READY, with the first C&C endpoint, after one recomputation and with monitoring started |
| LoopProperties.RunOkOnlyAfterEnd | python/orchestrator/orchestrator.py:450-462 | `run` returns OK only when registered, with monitoring still active, and right after END |
| LoopProperties.RunErrorPaths | python/orchestrator/orchestrator.py:450-462 | `run` returns ERROR either right after a failed registration, or through the fatal cascade on the C&C in-queue |
| Scenarios.TwoRecordsGiveSmallerDelay | python/orchestrator/orchestrator.py:124-141 | the records with delays 0.1 and 0.05 reduce to 0.05, in either order |
| Scenarios.InitFromReady | python/orchestrator/orchestrator.py:377-381 | INIT from READY with those records succeeds, the local and global states become SYNCHRONIZING, and the minimum step is 0.05 |
| Scenarios.StartSendFails | python/orchestrator/orchestrator.py:212-225 | START from SYNCHRONIZING with a failed send makes the loop return ERROR through the cascade; nothing is received, and the global state stays SYNCHRONIZING |
| Scenarios.EndFromRunning | python/orchestrator/orchestrator.py:442-445 | END from RUNNING, acknowledged: the loop returns OK, both states are TERMINATED, and monitoring is still active |
| Scenarios.TerminatedThenAnyCommand | python/orchestrator/orchestrator.py:272-277 | from TERMINATED, any command makes the loop return ERROR through the cascade |
| OrchestratorProcess.Orchestrator.constructor | python/orchestrator/orchestrator.py:70-77 | a new orchestrator is unregistered, with no endpoint, no step sizes and no responses |
| OrchestratorProcess.Orchestrator.CurrentGlobalState | python/orchestrator/orchestrator.py:273 | returns the global state and records the read |
| OrchestratorProcess.Orchestrator.UpdateLocalState | python/orchestrator/orchestrator.py:103-122 | the registry's answer; the local state changes only on OK |
| OrchestratorProcess.Orchestrator.UpdateGlobalState | python/orchestrator/orchestrator.py:292 | the recomputation's answer and the global state it leaves |
| OrchestratorProcess.Orchestrator.FinalizeMonitoring | python/orchestrator/orchestrator.py:373 | monitoring is off |
| OrchestratorProcess.Orchestrator.StartMonitoring | python/orchestrator/orchestrator.py:359 | monitoring is on |
| OrchestratorProcess.Orchestrator.Send | python/orchestrator/orchestrator.py:213-215 | the message goes to the C&C in-queue, with the communicator's answer |
| OrchestratorProcess.Orchestrator.ReceiveCommand | python/orchestrator/orchestrator.py:422-423 | the oldest inbound command is taken off the in-queue and recorded |
| OrchestratorProcess.Orchestrator.ReceiveResponses | python/orchestrator/orchestrator.py:143-153 | a receive on the C&C out-queue, equal to `OrchestratorSpec.ReceiveResponses` |
| OrchestratorProcess.Orchestrator.SendTerminateCommand | python/orchestrator/orchestrator.py:195-204 | the event is sent to the C&C in-queue; the send's result is ignored |
| OrchestratorProcess.Orchestrator.ProcessResponses | python/orchestrator/orchestrator.py:155-193 | result and new state equal `OrchestratorSpec.ProcessResponses`, so the `CommandProperties` lemmas on payloads hold for it |
| OrchestratorProcess.Orchestrator.ExecuteSteeringCommand | python/orchestrator/orchestrator.py:206-247 | result and new state equal `OrchestratorSpec.ExecuteSteeringCommand` (see `BroadcastOkIffSucceeds`) |
| OrchestratorProcess.Orchestrator.ExecuteIfValidated | python/orchestrator/orchestrator.py:249-297 | result and new state equal `OrchestratorSpec.ExecuteIfValidated` (see `OkIffAllStepsSucceed`) |
| OrchestratorProcess.Orchestrator.ExecuteInitCommand | python/orchestrator/orchestrator.py:377-381 | the validated execution of INIT from READY to SYNCHRONIZING |
| OrchestratorProcess.Orchestrator.ExecuteStartCommand | python/orchestrator/orchestrator.py:383-387 | the validated execution of START from SYNCHRONIZING to RUNNING |
| OrchestratorProcess.Orchestrator.ExecuteEndCommand | python/orchestrator/orchestrator.py:389-393 | the validated execution of END from RUNNING to TERMINATED |
| OrchestratorProcess.Orchestrator.HandleFatalEvent | python/orchestrator/orchestrator.py:395-400 | returns ERROR and changes nothing |
| OrchestratorProcess.Orchestrator.ExecuteChoice | python/orchestrator/orchestrator.py:412-429 | the handler the table picks for the inbound message, equal to `OrchestratorSpec.Dispatch` |
| OrchestratorProcess.Orchestrator.TerminateWithError | python/orchestrator/orchestrator.py:363-375 | FATAL is sent to the C&C in-queue, monitoring is finalized, and ERROR is returned |
| OrchestratorProcess.Orchestrator.CommandControlAndCoordinate | python/orchestrator/orchestrator.py:402-448 | the `while` loop ends with the outcome, state and unread commands of `OrchestratorSpec.CommandControlAndCoordinate`, so the `LoopProperties` lemmas hold for it |
| OrchestratorProcess.Orchestrator.RegisterWithRegistry | python/orchestrator/orchestrator.py:299-331 | on OK the orchestrator is registered as READY; on ERROR only the failed call is recorded |
| OrchestratorProcess.Orchestrator.SetUpRuntime | python/orchestrator/orchestrator.py:333-361 | register; on success take the first C&C endpoint, recompute once and start monitoring |
| OrchestratorProcess.Orchestrator.Run | python/orchestrator/orchestrator.py:450-462 | outcome and state equal `OrchestratorSpec.Run`, so `RunOkOnlyAfterEnd` and `RunErrorPaths` hold for it |

## Left out

- Signal handlers and `signal.raise_signal(SIGTERM)` on a failed registration (python/orchestrator/orchestrator.py:40-48, 317). This is process-level plumbing; a failed registration is modelled only as returning ERROR.
- `multiprocessing.Process`, `Manager().Queue()` and `multiprocessing.Event`. The queues are abstract channel identifiers, the registered flag is a boolean, and the in-queue is a finite sequence of commands.
- Blocking on the in-queue: when the sequence of inbound commands runs out, the loop returns `Blocked`, where the Python process would wait forever.
- The internals of the communicator, the health-status keeper, the signal manager and monitor, and the registry manager. These are not part of this model; their answers are scripted through `Env`.
- The background threads of the health keeper and the alarm monitor (python/orchestrator/orchestrator.py:359-360): only a monitoring flag is kept. Changes the background thread makes to the global state between two calls are not modelled.
- `find_by_id` and `__orchestrator_registered_component` (python/orchestrator/orchestrator.py:323-326): the local state is updated on the orchestrator's own entry directly.
- Logging, the exception-with-traceback boilerplate, and the global-state read the loop makes only for its log line (python/orchestrator/orchestrator.py:418-420).
- Float semantics of `min_delay`: delays are `real`; only their order matters.
- Response is taken to be a plain enumeration, so a minimum step size never compares equal to `Response.ERROR`.
- Unknown inbound messages, which would raise `KeyError` at python/orchestrator/orchestrator.py:428: the inbound message is a closed four-valued datatype.
- An empty C&C list after a successful registration (the `[0]` index at python/orchestrator/orchestrator.py:345-350, which would raise `IndexError`): a non-empty list is a precondition of `SetUpRuntime` and `Run` only when the registration succeeds; a failed registration returns ERROR (339-340) before the list is indexed, and that path is modelled whatever the list holds.
- The initial `update_global_state()` during set-up (python/orchestrator/orchestrator.py:357): its result is ignored, as in the source, and the global state it leaves is kept.
- The order in which commands are attempted over a whole run depends on what the health keeper recomputes. It is stated per command, by the check against the valid state, and not as a property of the whole sequence.
