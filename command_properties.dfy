/**
 * Properties of one steering command: the handler table, the four-step
 * validated execution, the broadcast and the handling of the replies.
 *
 * Positions in the history: when a command starts on a world with `k` calls,
 * the global-state read is call `k`, the local commit `k + 1`, the broadcast
 * `k + 2`, the receive `k + 3` and the global recomputation `k + 4`.
 */
module CommandProperties {
  import opened Enums
  import opened StepSizes
  import opened OrchestratorSpec

  /** The position of a lifecycle state along READY -> SYNCHRONIZING -> RUNNING -> TERMINATED. */
  function Rank(s: State): int {
    match s
    case Ready => 0
    case Synchronizing => 1
    case Running => 2
    case Terminated => 3
    case Error => -1
  }

  /**
   * The handler table moves one edge forward along the lifecycle, no command
   * accepts TERMINATED (or any state off the lifecycle), and no two commands
   * accept the same state.
   */
  lemma TransitionAdvancesOneEdge(c: Command, d: Command)
    ensures Rank(Transition(c).0) >= 0
    ensures Rank(Transition(c).1) == Rank(Transition(c).0) + 1
    ensures Transition(c).0 != Terminated
    ensures Transition(c).0 == Transition(d).0 ==> c == d
    ensures Transition(c).1 == Transition(d).1 ==> c == d
  {
  }

  /** A global state that is not `validState` is rejected with nothing done but the read. */
  lemma RejectedWithoutSideEffects(env: Env, w: World, c: Command, validState: State, newState: State)
    requires w.endpoint.Some?
    requires w.globalState != validState
    ensures ExecuteIfValidated(env, w, c, validState, newState)
         == (Returned(ERROR), w.(calls := w.calls + [GlobalStateRead(w.globalState)]))
  {
  }

  /** From TERMINATED every INIT, START and END is rejected before any commit or broadcast. */
  lemma TerminatedRejectsEveryCommand(env: Env, w: World, c: Command)
    requires w.endpoint.Some? && w.globalState == Terminated
    ensures ExecuteCommand(env, w, c) == (Returned(ERROR), w.(calls := w.calls + [GlobalStateRead(Terminated)]))
  {
    TransitionAdvancesOneEdge(c, c);
    RejectedWithoutSideEffects(env, w, c, Transition(c).0, Transition(c).1);
  }

  /** A failed local commit stops the command before the broadcast. */
  lemma FailedCommitStopsBeforeBroadcast(env: Env, w: World, c: Command, validState: State, newState: State)
    requires w.endpoint.Some?
    requires w.globalState == validState
    requires env.updateStateResult(|w.calls| + 1) == ERROR
    ensures ExecuteIfValidated(env, w, c, validState, newState)
         == (Returned(ERROR), w.(calls := w.calls + [GlobalStateRead(validState), LocalStateUpdated(newState, ERROR)]))
  {
    assert w.calls + [GlobalStateRead(validState)] + [LocalStateUpdated(newState, ERROR)]
        == w.calls + [GlobalStateRead(validState), LocalStateUpdated(newState, ERROR)];
  }

  /** A failed send stops the command before any receive and before the recomputation. */
  lemma FailedSendStopsBeforeReceive(env: Env, w: World, c: Command, validState: State, newState: State)
    requires w.endpoint.Some?
    requires w.globalState == validState
    requires env.updateStateResult(|w.calls| + 1) == OK
    requires env.sendResult(|w.calls| + 2) == ERROR
    ensures ExecuteIfValidated(env, w, c, validState, newState)
         == (Returned(ERROR), w.(localState := newState,
                                  calls := w.calls + [GlobalStateRead(validState), LocalStateUpdated(newState, OK),
                                                      MessageSent(SteeringMsg(c), w.endpoint.value.inQueue, ERROR)]))
  {
    var q := w.endpoint.value.inQueue;
    assert w.calls + [GlobalStateRead(validState)] + [LocalStateUpdated(newState, OK)]
                   + [MessageSent(SteeringMsg(c), q, ERROR)]
        == w.calls + [GlobalStateRead(validState), LocalStateUpdated(newState, OK), MessageSent(SteeringMsg(c), q, ERROR)];
  }

  /** A failed receive returns ERROR without processing any payload or recomputing. */
  lemma FailedReceiveSkipsProcessing(env: Env, w: World, c: Command, validState: State, newState: State)
    requires w.endpoint.Some?
    requires w.globalState == validState
    requires env.updateStateResult(|w.calls| + 1) == OK
    requires env.sendResult(|w.calls| + 2) == OK
    requires env.receiveResult(|w.calls| + 3) == ReceiveError
    ensures ExecuteIfValidated(env, w, c, validState, newState)
         == (Returned(ERROR), w.(localState := newState,
                                  calls := w.calls + [GlobalStateRead(validState), LocalStateUpdated(newState, OK),
                                                      MessageSent(SteeringMsg(c), w.endpoint.value.inQueue, OK),
                                                      ReplyReceived(w.endpoint.value.outQueue, ReceiveError)]))
  {
    var e := w.endpoint.value;
    assert w.calls + [GlobalStateRead(validState)] + [LocalStateUpdated(newState, OK)]
                   + [MessageSent(SteeringMsg(c), e.inQueue, OK)] + [ReplyReceived(e.outQueue, ReceiveError)]
        == w.calls + [GlobalStateRead(validState), LocalStateUpdated(newState, OK),
                      MessageSent(SteeringMsg(c), e.inQueue, OK), ReplyReceived(e.outQueue, ReceiveError)];
  }

  /**
   * A STATE_UPDATE_FATAL marker in the payload, whatever the command, makes the
   * orchestrator send STATE_UPDATE_FATAL (not FATAL), finalize monitoring and
   * return ERROR, leaving `__step_sizes`, `__responses_received` and the global
   * state as they were: no recomputation follows.
   */
  lemma StateUpdateFatalCascade(env: Env, w: World, c: Command, validState: State, newState: State)
    requires w.endpoint.Some?
    requires w.globalState == validState
    requires env.updateStateResult(|w.calls| + 1) == OK
    requires env.sendResult(|w.calls| + 2) == OK
    requires env.receiveResult(|w.calls| + 3).Payload?
    requires HasStateUpdateFatal(env.receiveResult(|w.calls| + 3).replies)
    ensures ExecuteIfValidated(env, w, c, validState, newState)
         == (Returned(ERROR), w.(localState := newState, monitoring := false,
                                  calls := w.calls + [GlobalStateRead(validState), LocalStateUpdated(newState, OK),
                                                      MessageSent(SteeringMsg(c), w.endpoint.value.inQueue, OK),
                                                      ReplyReceived(w.endpoint.value.outQueue, env.receiveResult(|w.calls| + 3)),
                                                      MessageSent(EventMsg(StateUpdateFatal), w.endpoint.value.inQueue,
                                                                  env.sendResult(|w.calls| + 4)),
                                                      MonitoringFinalized]))
  {
    var e := w.endpoint.value;
    var k := |w.calls|;
    var got := env.receiveResult(k + 3);
    var fatal := MessageSent(EventMsg(StateUpdateFatal), e.inQueue, env.sendResult(k + 4));
    assert w.calls + [GlobalStateRead(validState)] + [LocalStateUpdated(newState, OK)]
                   + [MessageSent(SteeringMsg(c), e.inQueue, OK)] + [ReplyReceived(e.outQueue, got)]
                   + [fatal] + [MonitoringFinalized]
        == w.calls + [GlobalStateRead(validState), LocalStateUpdated(newState, OK),
                      MessageSent(SteeringMsg(c), e.inQueue, OK), ReplyReceived(e.outQueue, got),
                      fatal, MonitoringFinalized];
  }

  /**
   * The reply to INIT, when it holds no marker, is stored in `__step_sizes`
   * and the result is the least `min_delay` among its records.
   */
  lemma InitReplyGivesMinimumStep(env: Env, w: World, replies: seq<Reply>)
    requires w.endpoint.Some?
    requires !HasStateUpdateFatal(replies) && IsStepSizeList(replies)
    ensures var (p, w') := ProcessResponses(env, w, replies, Init);
            && p.MinimumStep? && IsMinimumDelay(replies, p.size)
            && w' == w.(stepSizes := Some(replies))
  {
  }

  /**
   * An INIT reply that is empty or holds something other than step-size
   * records makes Python's `min` (or the `min_delay` lookup) raise; the
   * payload has already been stored in `__step_sizes`.
   */
  lemma MalformedInitReplyRaises(env: Env, w: World, replies: seq<Reply>)
    requires w.endpoint.Some?
    requires !HasStateUpdateFatal(replies) && !IsStepSizeList(replies)
    ensures ProcessResponses(env, w, replies, Init) == (ProcessingRaised, w.(stepSizes := Some(replies)))
  {
  }

  /**
   * The reply to any other command is appended to `__responses_received`,
   * which grows by exactly that one payload, and the command counts as a
   * success.
   */
  lemma OtherReplyIsRecorded(env: Env, w: World, replies: seq<Reply>, c: Command)
    requires w.endpoint.Some?
    requires !HasStateUpdateFatal(replies) && c != Init
    ensures var (p, w') := ProcessResponses(env, w, replies, c);
            && p == Recorded
            && |w'.responsesReceived| == |w.responsesReceived| + 1
            && w'.responsesReceived[..|w.responsesReceived|] == w.responsesReceived
            && w'.responsesReceived[|w.responsesReceived|] == replies
            && w' == w.(responsesReceived := w'.responsesReceived)
  {
    var w' := ProcessResponses(env, w, replies, c).1;
    assert w'.responsesReceived == w.responsesReceived + [replies];
  }

  /**
   * The broadcast of `c` started as call `k` succeeds: the send returns OK and
   * a payload without the marker arrives (for INIT a non-empty list of
   * step-size records).
   */
  predicate BroadcastSucceeds(env: Env, k: nat, c: Command) {
    var got := env.receiveResult(k + 1);
    && env.sendResult(k) == OK
    && got.Payload?
    && !HasStateUpdateFatal(got.replies)
    && (c == Init ==> IsStepSizeList(got.replies))
  }

  /** `__execute_steering_command` returns OK exactly when the broadcast succeeds, after two calls. */
  lemma BroadcastOkIffSucceeds(env: Env, w: World, c: Command)
    requires w.endpoint.Some?
    ensures ExecuteSteeringCommand(env, w, c).0 == Returned(OK) <==> BroadcastSucceeds(env, |w.calls|, c)
    ensures ExecuteSteeringCommand(env, w, c).0 == Returned(OK) ==> |ExecuteSteeringCommand(env, w, c).1.calls| == |w.calls| + 2
  {
    var k := |w.calls|;
    var (sent, w1) := Send(env, w, SteeringMsg(c));
    if sent == OK {
      var (got, w2) := ReceiveResponses(env, w1);
      assert got == env.receiveResult(k + 1);
      if got.Payload? && !HasStateUpdateFatal(got.replies) {
        assert |ProcessResponses(env, w2, got.replies, c).1.calls| == k + 2;
      }
    }
  }

  /**
   * Every step of a command succeeds, read off the scripted outcomes: the
   * global state matches, the commit returns OK, the broadcast succeeds and the
   * recomputation returns OK.
   */
  predicate StepsSucceed(env: Env, w: World, c: Command, validState: State) {
    var k := |w.calls|;
    && w.globalState == validState
    && env.updateStateResult(k + 1) == OK
    && BroadcastSucceeds(env, k + 2, c)
    && env.recomputeResult(k + 4).result == OK
  }

  /**
   * The world after a successful command: the local state committed, the
   * payload stored, the global state recomputed, and exactly five calls made,
   * in the order check, commit, broadcast, receive, recompute.
   */
  function SucceededWorld(env: Env, w: World, c: Command, validState: State, newState: State): World
    requires w.endpoint.Some?
    requires env.receiveResult(|w.calls| + 3).Payload?
  {
    var k := |w.calls|;
    var replies := env.receiveResult(k + 3).replies;
    var rc := env.recomputeResult(k + 4);
    w.(localState := newState,
       globalState := rc.globalState,
       stepSizes := if c == Init then Some(replies) else w.stepSizes,
       responsesReceived := if c == Init then w.responsesReceived else w.responsesReceived + [replies],
       calls := w.calls + [GlobalStateRead(validState), LocalStateUpdated(newState, OK),
                           MessageSent(SteeringMsg(c), w.endpoint.value.inQueue, OK),
                           ReplyReceived(w.endpoint.value.outQueue, env.receiveResult(k + 3)),
                           GlobalStateRecomputed(rc)])
  }

  /** OK comes back exactly when all four steps succeed. */
  lemma OkIffAllStepsSucceed(env: Env, w: World, c: Command, validState: State, newState: State)
    requires w.endpoint.Some?
    ensures ExecuteIfValidated(env, w, c, validState, newState).0 == Returned(OK)
        <==> StepsSucceed(env, w, c, validState)
  {
    var k := |w.calls|;
    if w.globalState == validState {
      var (local, w2) := UpdateLocalState(env, ReadGlobalState(w), newState);
      assert local == env.updateStateResult(k + 1) && |w2.calls| == k + 2;
      if local == OK {
        BroadcastOkIffSucceeds(env, w2, c);
      }
    }
  }

  /** A successful broadcast stores or records the payload and makes exactly the send and the receive. */
  lemma SucceededBroadcastWorld(env: Env, w: World, c: Command)
    requires w.endpoint.Some?
    requires BroadcastSucceeds(env, |w.calls|, c)
    ensures var got := env.receiveResult(|w.calls| + 1);
            var e := w.endpoint.value;
            (ExecuteSteeringCommand(env, w, c)
               == (Returned(OK),
                   w.(stepSizes := if c == Init then Some(got.replies) else w.stepSizes,
                      responsesReceived := if c == Init then w.responsesReceived
                                           else w.responsesReceived + [got.replies],
                      calls := w.calls + [MessageSent(SteeringMsg(c), e.inQueue, OK), ReplyReceived(e.outQueue, got)])))
  {
    var e := w.endpoint.value;
    var got := env.receiveResult(|w.calls| + 1);
    assert w.calls + [MessageSent(SteeringMsg(c), e.inQueue, OK)] + [ReplyReceived(e.outQueue, got)]
        == w.calls + [MessageSent(SteeringMsg(c), e.inQueue, OK), ReplyReceived(e.outQueue, got)];
  }

  /** After a successful command the world is `SucceededWorld`. */
  lemma SucceededCommandWorld(env: Env, w: World, c: Command, validState: State, newState: State)
    requires w.endpoint.Some?
    requires StepsSucceed(env, w, c, validState)
    ensures ExecuteIfValidated(env, w, c, validState, newState)
         == (Returned(OK), SucceededWorld(env, w, c, validState, newState))
  {
    var e := w.endpoint.value;
    var k := |w.calls|;
    var got := env.receiveResult(k + 3);
    var rc := env.recomputeResult(k + 4);
    var w2 := UpdateLocalState(env, ReadGlobalState(w), newState).1;
    var read := GlobalStateRead(validState);
    var commit := LocalStateUpdated(newState, OK);
    assert w2 == w.(localState := newState, calls := w.calls + [read] + [commit]);
    SucceededBroadcastWorld(env, w2, c);
    var send := MessageSent(SteeringMsg(c), e.inQueue, OK);
    var receive := ReplyReceived(e.outQueue, got);
    assert w.calls + [read] + [commit] + [send, receive] + [GlobalStateRecomputed(rc)]
        == w.calls + [read, commit, send, receive, GlobalStateRecomputed(rc)];
  }

  /** Only an INIT reply can make a command raise. */
  lemma OnlyInitRaises(env: Env, w: World, c: Command, validState: State, newState: State)
    requires w.endpoint.Some?
    requires ExecuteIfValidated(env, w, c, validState, newState).0 == Raised
    ensures c == Init
    ensures var w' := ExecuteIfValidated(env, w, c, validState, newState).1;
            && w'.monitoring == w.monitoring
            && w'.calls[|w.calls|..] ==
               [GlobalStateRead(validState), LocalStateUpdated(newState, OK),
                MessageSent(SteeringMsg(c), w.endpoint.value.inQueue, OK),
                ReplyReceived(w.endpoint.value.outQueue, env.receiveResult(|w.calls| + 3))]
  {
  }

  /** An inbound FATAL is answered with ERROR at once: no global-state read, no call at all. */
  lemma FatalEventSkipsValidation(env: Env, w: World)
    requires w.endpoint.Some?
    ensures Dispatch(env, w, InboundFatal) == (Returned(ERROR), w)
  {
  }
}
