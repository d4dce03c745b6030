/**
 * Worked runs of the orchestrator: the collaborators' answers are fixed for
 * the calls that matter, and the lemmas state the whole outcome.
 */
module Scenarios {
  import opened Enums
  import opened StepSizes
  import opened OrchestratorSpec
  import opened CommandProperties
  import opened LoopProperties

  /** The INIT reply of two simulators, with delays 0.1 and 0.05. */
  function TwoRecords(): seq<Reply> {
    [StepRecord(1, 0.1), StepRecord(2, 0.05)]
  }

  /** The two records reduce to 0.05, in either order. */
  lemma TwoRecordsGiveSmallerDelay()
    ensures IsStepSizeList(TwoRecords())
    ensures FindMinimumStepSize(TwoRecords()) == 0.05
    ensures FindMinimumStepSize([TwoRecords()[1], TwoRecords()[0]]) == 0.05
  {
    var rs := TwoRecords();
    assert IsMinimumDelay(rs, 0.05) by {
      assert rs[1].minDelay == 0.05;
    }
    MinimumIsUnique(rs, 0.05);
    assert multiset([rs[1], rs[0]]) == multiset(rs);
    MinimumIgnoresOrder([rs[1], rs[0]], rs);
  }

  /**
   * INIT from READY, the two records come back, the health keeper recomputes
   * SYNCHRONIZING: the command succeeds, the local and global states are
   * SYNCHRONIZING, the records are kept in `__step_sizes`, and processing the
   * reply gives the minimum step 0.05.
   */
  lemma InitFromReady(env: Env, w: World)
    requires w.endpoint.Some? && w.globalState == Ready
    requires env.updateStateResult(|w.calls| + 1) == OK
    requires env.sendResult(|w.calls| + 2) == OK
    requires env.receiveResult(|w.calls| + 3) == Payload(TwoRecords())
    requires env.recomputeResult(|w.calls| + 4) == Recompute(OK, Synchronizing)
    ensures var (o, w') := ExecuteCommand(env, w, Init);
            && o == Returned(OK)
            && w'.localState == Synchronizing && w'.globalState == Synchronizing
            && w'.stepSizes == Some(TwoRecords())
            && w'.monitoring == w.monitoring
    ensures ProcessResponses(env, w, TwoRecords(), Init).0 == MinimumStep(0.05)
  {
    TwoRecordsGiveSmallerDelay();
    assert !HasStateUpdateFatal(TwoRecords());
    SucceededCommandWorld(env, w, Init, Ready, Synchronizing);
  }

  /**
   * START from SYNCHRONIZING whose broadcast cannot be sent: the loop ends with
   * ERROR through the fatal cascade, no reply is read, and the global state is
   * still SYNCHRONIZING.
   */
  lemma StartSendFails(env: Env, w: World, rest: seq<Inbound>)
    requires w.endpoint.Some? && w.globalState == Synchronizing
    requires env.updateStateResult(|w.calls| + 2) == OK
    requires env.sendResult(|w.calls| + 3) == ERROR
    ensures var r := CommandControlAndCoordinate(env, w, [InboundCommand(Start)] + rest);
            var e := w.endpoint.value;
            && r.outcome == Returned(ERROR)
            && r.rest == rest
            && r.world.globalState == Synchronizing
            && !r.world.monitoring
            && r.world.calls == w.calls + [CommandReceived(InboundCommand(Start)),
                                           GlobalStateRead(Synchronizing),
                                           LocalStateUpdated(Running, OK),
                                           MessageSent(SteeringMsg(Start), e.inQueue, ERROR),
                                           MessageSent(EventMsg(Fatal), e.inQueue, env.sendResult(|w.calls| + 4)),
                                           MonitoringFinalized]
  {
    var q := [InboundCommand(Start)] + rest;
    var e := w.endpoint.value;
    var w0 := Record(w, CommandReceived(InboundCommand(Start)));
    FailedSendStopsBeforeReceive(env, w0, Start, Synchronizing, Running);
    assert q[1..] == rest;
    assert CommandControlAndCoordinate(env, w, q) == LoopIteration(env, w0, q[0], q[1..]);
    var fatal := MessageSent(EventMsg(Fatal), e.inQueue, env.sendResult(|w.calls| + 4));
    var sent := [CommandReceived(InboundCommand(Start)), GlobalStateRead(Synchronizing),
                 LocalStateUpdated(Running, OK), MessageSent(SteeringMsg(Start), e.inQueue, ERROR)];
    assert [CommandReceived(InboundCommand(Start))] + sent[1..] == sent;
    assert w.calls + sent + [fatal] + [MonitoringFinalized] == w.calls + (sent + [fatal, MonitoringFinalized]);
  }

  /**
   * END from RUNNING acknowledged with OK and recomputed to TERMINATED: the loop
   * returns OK with the local and global states TERMINATED, monitoring still
   * active, and the commands after END unread.
   */
  lemma EndFromRunning(env: Env, w: World, rest: seq<Inbound>)
    requires w.endpoint.Some? && w.globalState == Running && w.monitoring
    requires env.updateStateResult(|w.calls| + 2) == OK
    requires env.sendResult(|w.calls| + 3) == OK
    requires env.receiveResult(|w.calls| + 4) == Payload([Acknowledgement(OK)])
    requires env.recomputeResult(|w.calls| + 5) == Recompute(OK, Terminated)
    ensures var r := CommandControlAndCoordinate(env, w, [InboundCommand(End)] + rest);
            && r.outcome == Returned(OK)
            && r.rest == rest
            && r.world.localState == Terminated && r.world.globalState == Terminated
            && r.world.monitoring
            && r.world.responsesReceived == w.responsesReceived + [[Acknowledgement(OK)]]
  {
    var q := [InboundCommand(End)] + rest;
    assert q[0] == InboundCommand(End) && q[1..] == rest;
    assert !HasStateUpdateFatal([Acknowledgement(OK)]);
    EndStopsTheLoop(env, w, q);
  }

  /** Once the global state is TERMINATED, whatever command comes next ends the loop with ERROR. */
  lemma TerminatedThenAnyCommand(env: Env, w: World, c: Command, rest: seq<Inbound>)
    requires w.endpoint.Some? && w.globalState == Terminated
    ensures var r := CommandControlAndCoordinate(env, w, [InboundCommand(c)] + rest);
            && r.outcome == Returned(ERROR) && r.rest == rest && !r.world.monitoring
            && EndsWithFatalCascade(env, r.world.calls, w.endpoint.value.inQueue)
  {
    var q := [InboundCommand(c)] + rest;
    var w0 := Record(w, CommandReceived(InboundCommand(c)));
    TerminatedRejectsEveryCommand(env, w0, c);
    assert q[0] == InboundCommand(c) && q[1..] == rest;
    assert CommandControlAndCoordinate(env, w, q) == LoopIteration(env, w0, q[0], q[1..]);
  }
}
