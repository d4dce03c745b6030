/**
 * Properties of the main loop `__command_control_and_coordinate` and of `run`:
 * how the loop can end, what each ending leaves behind, and that nothing is
 * read after the command that ends it.
 */
module LoopProperties {
  import opened Enums
  import opened StepSizes
  import opened OrchestratorSpec
  import opened CommandProperties

  /** No call at position `from` or later finalizes monitoring or sends an event. */
  predicate NoCascade(calls: seq<Call>, from: nat) {
    forall i :: from <= i < |calls| ==>
      calls[i] != MonitoringFinalized && !(calls[i].MessageSent? && calls[i].msg.EventMsg?)
  }

  /** The last two calls are the fatal cascade: FATAL sent to `queue`, then monitoring finalized. */
  predicate EndsWithFatalCascade(env: Env, calls: seq<Call>, queue: Channel) {
    && |calls| >= 2
    && calls[|calls| - 2] == MessageSent(EventMsg(Fatal), queue, env.sendResult(|calls| - 2))
    && calls[|calls| - 1] == MonitoringFinalized
  }

  /** A handler that returned OK ran a steering command and neither finalized nor sent an event. */
  lemma DispatchOk(env: Env, w: World, m: Inbound)
    requires w.endpoint.Some?
    requires Dispatch(env, w, m).0 == Returned(OK)
    ensures m.InboundCommand?
    ensures var w' := Dispatch(env, w, m).1;
            && w.calls <= w'.calls && w'.endpoint == w.endpoint && w'.registered == w.registered
            && w'.monitoring == w.monitoring && NoCascade(w'.calls, |w.calls|)
  {
    var c := m.command;
    var (v, n) := Transition(c);
    OkIffAllStepsSucceed(env, w, c, v, n);
    SucceededCommandWorld(env, w, c, v, n);
  }

  /**
   * A handler that raised was INIT, whose reply held no marker and was not a
   * non-empty list of step-size records; nothing was finalized or sent as an
   * event.
   */
  lemma DispatchRaised(env: Env, w: World, m: Inbound)
    requires w.endpoint.Some?
    requires Dispatch(env, w, m).0 == Raised
    ensures m == InboundCommand(Init)
    ensures var w' := Dispatch(env, w, m).1;
            && w.calls <= w'.calls && w'.monitoring == w.monitoring && NoCascade(w'.calls, |w.calls|)
            && w'.stepSizes.Some? && !HasStateUpdateFatal(w'.stepSizes.value)
            && !IsStepSizeList(w'.stepSizes.value)
  {
    var (v, n) := Transition(m.command);
    OnlyInitRaises(env, w, m.command, v, n);
  }

  /** Any handler keeps the endpoint and the registration and only appends to the history. */
  lemma DispatchExtends(env: Env, w: World, m: Inbound)
    requires w.endpoint.Some?
    ensures var w' := Dispatch(env, w, m).1;
            && w.calls <= w'.calls && w'.endpoint == w.endpoint && w'.registered == w.registered
  {
  }

  /** A command after which the loop goes on when its handler returns OK: INIT or START. */
  predicate Continues(m: Inbound) {
    m.InboundCommand? && m.command != End
  }

  /**
   * The world after the first `k` commands of `q` have each been read and
   * handed to their handler, whatever the handlers returned.
   */
  function Handled(env: Env, w: World, q: seq<Inbound>, k: nat): (r: World)
    requires w.endpoint.Some? && k <= |q|
    ensures r.endpoint == w.endpoint
    decreases k
  {
    if k == 0 then w
    else Handled(env, Dispatch(env, Record(w, CommandReceived(q[0])), q[0]).1, q[1..], k - 1)
  }

  /**
   * The `i`-th command of `q` is an INIT or a START whose handler returned OK
   * in the world the commands before it left.
   */
  predicate HandledOk(env: Env, w: World, q: seq<Inbound>, i: nat)
    requires w.endpoint.Some? && i < |q|
  {
    && Continues(q[i])
    && Dispatch(env, Record(Handled(env, w, q, i), CommandReceived(q[i])), q[i]).0 == Returned(OK)
  }

  /** Each of the first `n` commands of `q` is an INIT or a START whose handler returned OK. */
  predicate SucceedsUpTo(env: Env, w: World, q: seq<Inbound>, n: int)
    requires w.endpoint.Some? && n <= |q|
  {
    forall i: nat :: i < n ==> HandledOk(env, w, q, i)
  }

  lemma SucceedsShift(env: Env, w: World, q: seq<Inbound>, n: int)
    requires w.endpoint.Some? && q != [] && HandledOk(env, w, q, 0)
    requires 0 <= n <= |q| - 1
    requires var w0 := Record(w, CommandReceived(q[0]));
             SucceedsUpTo(env, Dispatch(env, w0, q[0]).1, q[1..], n)
    ensures SucceedsUpTo(env, w, q, n + 1)
  {
    var w0 := Record(w, CommandReceived(q[0]));
    var w1 := Dispatch(env, w0, q[0]).1;
    forall i: nat | 0 < i < n + 1
      ensures HandledOk(env, w, q, i)
    {
      assert HandledOk(env, w1, q[1..], i - 1);
      assert Handled(env, w, q, i) == Handled(env, w1, q[1..], i - 1);
      assert q[i] == q[1..][i - 1];
    }
  }

  /**
   * One pass of the loop: a handler that raised or returned ERROR ends the
   * loop (the latter through the fatal cascade), a successful END ends it with
   * OK, a successful INIT or START goes on with the next command.
   */
  lemma IterationCases(env: Env, w: World, m: Inbound, rest: seq<Inbound>)
    requires w.endpoint.Some?
    ensures var (o, w1) := Dispatch(env, w, m);
            var r := LoopIteration(env, w, m, rest);
            && (o == Raised || o == Returned(ERROR) || o == Returned(OK))
            && (o == Raised ==> r == LoopResult(Raised, w1, rest))
            && (o == Returned(ERROR) ==> r == LoopResult(Returned(ERROR), TerminateWithError(env, w1).1, rest))
            && (o == Returned(OK) && m == InboundCommand(End) ==> r == LoopResult(Returned(OK), w1, rest))
            && (o == Returned(OK) && m != InboundCommand(End) ==> r == CommandControlAndCoordinate(env, w1, rest))
  {
  }

  /** Number of inbound commands the loop read. */
  function ReadCount(q: seq<Inbound>, r: LoopResult): int {
    |q| - |r.rest|
  }

  /** Two stretches of calls without a cascade, one after the other, make one. */
  lemma NoCascadeJoin(a: seq<Call>, b: seq<Call>, from: nat, mid: nat)
    requires from <= mid <= |a| && a <= b
    requires NoCascade(a, from) && NoCascade(b, mid)
    ensures NoCascade(b, from)
  {
    assert forall i :: from <= i < mid ==> b[i] == a[i];
  }

  /** The loop only appends to the history and keeps the endpoint and the registration. */
  lemma {:induction false} LoopExtends(env: Env, w: World, q: seq<Inbound>)
    requires w.endpoint.Some?
    ensures Extends(w, CommandControlAndCoordinate(env, w, q).world)
    decreases |q|
  {
    if q != [] {
      var w0 := Record(w, CommandReceived(q[0]));
      var (o, w1) := Dispatch(env, w0, q[0]);
      var r := LoopIteration(env, w0, q[0], q[1..]);
      IterationCases(env, w0, q[0], q[1..]);
      if o != Raised && o != Returned(ERROR) && q[0] != InboundCommand(End) {
        LoopExtends(env, w1, q[1..]);
      }
    }
  }

  /**
   * The loop leaves a suffix of the in-queue unread: nothing when it is
   * blocked (every command was read), at least one command less than the
   * whole queue otherwise.
   */
  lemma {:induction false} LoopShape(env: Env, w: World, q: seq<Inbound>)
    requires w.endpoint.Some?
    ensures var r := CommandControlAndCoordinate(env, w, q);
            && |r.rest| <= |q| && r.rest == q[|q| - |r.rest|..]
            && (r.outcome == Blocked ==> r.rest == [])
            && (r.outcome != Blocked ==> |r.rest| < |q|)
    decreases |q|
  {
    if q != [] {
      var w0 := Record(w, CommandReceived(q[0]));
      var (o, w1) := Dispatch(env, w0, q[0]);
      var r := LoopIteration(env, w0, q[0], q[1..]);
      IterationCases(env, w0, q[0], q[1..]);
      if o != Raised && o != Returned(ERROR) && q[0] != InboundCommand(End) {
        LoopShape(env, w1, q[1..]);
        assert q[1..][|q[1..]| - |r.rest|..] == q[|q| - |r.rest|..];
      }
    }
  }

  /**
   * The loop stops at the command it read last: every command before that one
   * was an INIT or a START whose handler returned OK. When it is blocked, every
   * command was read, each of them succeeded, and the state is what handling
   * them all in turn leaves.
   */
  lemma {:induction false} LoopStopsAtLastRead(env: Env, w: World, q: seq<Inbound>)
    requires w.endpoint.Some?
    ensures var r := CommandControlAndCoordinate(env, w, q);
            var n := ReadCount(q, r);
            && (r.outcome != Blocked ==> 0 < n <= |q| && SucceedsUpTo(env, w, q, n - 1))
            && (r.outcome == Blocked ==> SucceedsUpTo(env, w, q, |q|) && r.world == Handled(env, w, q, |q|))
    decreases |q|
  {
    LoopShape(env, w, q);
    if q != [] {
      var w0 := Record(w, CommandReceived(q[0]));
      var (o, w1) := Dispatch(env, w0, q[0]);
      var r := LoopIteration(env, w0, q[0], q[1..]);
      IterationCases(env, w0, q[0], q[1..]);
      if o == Returned(OK) && q[0] != InboundCommand(End) {
        DispatchOk(env, w0, q[0]);
        assert HandledOk(env, w, q, 0);
        LoopStopsAtLastRead(env, w1, q[1..]);
        LoopShape(env, w1, q[1..]);
        if r.outcome != Blocked {
          SucceedsShift(env, w, q, ReadCount(q[1..], r) - 1);
        } else {
          SucceedsShift(env, w, q, |q| - 1);
          assert Handled(env, w, q, |q|) == Handled(env, w1, q[1..], |q| - 1);
        }
      }
    }
  }

  /**
   * The command read last decides how the loop ended: OK comes only after END,
   * an uncaught exception only after INIT.
   */
  lemma {:induction false} LoopLastCommand(env: Env, w: World, q: seq<Inbound>)
    requires w.endpoint.Some?
    ensures var r := CommandControlAndCoordinate(env, w, q);
            var n := ReadCount(q, r);
            && (r.outcome == Returned(OK) ==> 0 < n <= |q| && q[n - 1] == InboundCommand(End))
            && (r.outcome == Raised ==> 0 < n <= |q| && q[n - 1] == InboundCommand(Init))
    decreases |q|
  {
    if q != [] {
      var w0 := Record(w, CommandReceived(q[0]));
      var (o, w1) := Dispatch(env, w0, q[0]);
      var r := LoopIteration(env, w0, q[0], q[1..]);
      IterationCases(env, w0, q[0], q[1..]);
      if o == Raised {
        DispatchRaised(env, w0, q[0]);
      } else if o == Returned(OK) && q[0] != InboundCommand(End) {
        LoopLastCommand(env, w1, q[1..]);
        LoopShape(env, w1, q[1..]);
        if r.outcome == Returned(OK) || r.outcome == Raised {
          assert q[ReadCount(q, r) - 1] == q[1..][ReadCount(q[1..], r) - 1];
        }
      }
    }
  }

  /**
   * When the loop returns OK or raises, it never finalized monitoring and sent
   * no event.
   */
  lemma {:induction false} LoopWithoutCascade(env: Env, w: World, q: seq<Inbound>)
    requires w.endpoint.Some?
    ensures var r := CommandControlAndCoordinate(env, w, q);
            r.outcome == Returned(OK) || r.outcome == Raised ==>
              r.world.monitoring == w.monitoring && NoCascade(r.world.calls, |w.calls|)
    decreases |q|
  {
    if q != [] {
      var w0 := Record(w, CommandReceived(q[0]));
      var (o, w1) := Dispatch(env, w0, q[0]);
      var r := LoopIteration(env, w0, q[0], q[1..]);
      IterationCases(env, w0, q[0], q[1..]);
      if o == Raised || o == Returned(OK) {
        if o == Raised {
          DispatchRaised(env, w0, q[0]);
        } else {
          DispatchOk(env, w0, q[0]);
        }
        NoCascadeJoin(w0.calls, w1.calls, |w.calls|, |w0.calls|);
        if o == Returned(OK) && q[0] != InboundCommand(End) {
          LoopWithoutCascade(env, w1, q[1..]);
          LoopExtends(env, w1, q[1..]);
          if r.outcome == Returned(OK) || r.outcome == Raised {
            NoCascadeJoin(w1.calls, r.world.calls, |w.calls|, |w1.calls|);
          }
        } else {
          assert r.world == w1;
        }
      }
    }
  }

  /** When the loop raises, `__step_sizes` holds the malformed INIT payload. */
  lemma {:induction false} LoopRaisedKeepsPayload(env: Env, w: World, q: seq<Inbound>)
    requires w.endpoint.Some?
    ensures var r := CommandControlAndCoordinate(env, w, q);
            r.outcome == Raised ==>
              r.world.stepSizes.Some? && !IsStepSizeList(r.world.stepSizes.value)
    decreases |q|
  {
    if q != [] {
      var w0 := Record(w, CommandReceived(q[0]));
      var (o, w1) := Dispatch(env, w0, q[0]);
      var r := LoopIteration(env, w0, q[0], q[1..]);
      IterationCases(env, w0, q[0], q[1..]);
      if o == Raised {
        DispatchRaised(env, w0, q[0]);
      } else if o == Returned(OK) && q[0] != InboundCommand(End) {
        LoopRaisedKeepsPayload(env, w1, q[1..]);
      }
    }
  }

  /**
   * The loop returns OK only right after a successful END; monitoring was
   * never finalized and no event was sent.
   */
  lemma LoopOkOnlyAfterEnd(env: Env, w: World, q: seq<Inbound>)
    requires w.endpoint.Some?
    ensures var r := CommandControlAndCoordinate(env, w, q);
            var n := ReadCount(q, r);
            r.outcome == Returned(OK) ==>
              && 0 < n <= |q| && q[n - 1] == InboundCommand(End)
              && r.world.monitoring == w.monitoring
              && NoCascade(r.world.calls, |w.calls|)
  {
    LoopLastCommand(env, w, q);
    LoopWithoutCascade(env, w, q);
  }

  /**
   * The loop returns ERROR only through the fatal cascade: the history ends
   * with FATAL sent to the Command-and-Control in-queue and monitoring
   * finalized.
   */
  lemma {:induction false} LoopErrorIsFatalCascade(env: Env, w: World, q: seq<Inbound>)
    requires w.endpoint.Some?
    ensures var r := CommandControlAndCoordinate(env, w, q);
            r.outcome == Returned(ERROR) ==>
              && !r.world.monitoring
              && EndsWithFatalCascade(env, r.world.calls, w.endpoint.value.inQueue)
    decreases |q|
  {
    if q != [] {
      var w0 := Record(w, CommandReceived(q[0]));
      var (o, w1) := Dispatch(env, w0, q[0]);
      var r := LoopIteration(env, w0, q[0], q[1..]);
      IterationCases(env, w0, q[0], q[1..]);
      if o == Returned(OK) && q[0] != InboundCommand(End) {
        LoopErrorIsFatalCascade(env, w1, q[1..]);
      }
    }
  }

  /**
   * The loop ends with an uncaught exception only on an INIT whose reply was
   * malformed; then no cascade ran, monitoring is as it was, and the offending
   * payload is in `__step_sizes`.
   */
  lemma LoopRaisedSkipsCascade(env: Env, w: World, q: seq<Inbound>)
    requires w.endpoint.Some?
    ensures var r := CommandControlAndCoordinate(env, w, q);
            var n := ReadCount(q, r);
            r.outcome == Raised ==>
              && 0 < n <= |q| && q[n - 1] == InboundCommand(Init)
              && r.world.monitoring == w.monitoring
              && NoCascade(r.world.calls, |w.calls|)
              && r.world.stepSizes.Some? && !IsStepSizeList(r.world.stepSizes.value)
  {
    LoopLastCommand(env, w, q);
    LoopWithoutCascade(env, w, q);
    LoopRaisedKeepsPayload(env, w, q);
  }

  /** An inbound FATAL is answered by the cascade at once, without reading the global state. */
  lemma FatalInboundCascade(env: Env, w: World, q: seq<Inbound>)
    requires w.endpoint.Some?
    requires q != [] && q[0] == InboundFatal
    ensures CommandControlAndCoordinate(env, w, q)
         == LoopResult(Returned(ERROR),
                       w.(monitoring := false,
                          calls := w.calls + [CommandReceived(InboundFatal),
                                              MessageSent(EventMsg(Fatal), w.endpoint.value.inQueue,
                                                          env.sendResult(|w.calls| + 1)),
                                              MonitoringFinalized]),
                       q[1..])
  {
    var fatal := MessageSent(EventMsg(Fatal), w.endpoint.value.inQueue, env.sendResult(|w.calls| + 1));
    var w0 := Record(w, CommandReceived(InboundFatal));
    assert CommandControlAndCoordinate(env, w, q) == LoopIteration(env, w0, q[0], q[1..]);
    assert w.calls + [CommandReceived(InboundFatal)] + [fatal] + [MonitoringFinalized]
        == w.calls + [CommandReceived(InboundFatal), fatal, MonitoringFinalized];
  }

  /**
   * A reply carrying STATE_UPDATE_FATAL ends the loop with ERROR, and the
   * history shows STATE_UPDATE_FATAL sent, monitoring finalized, then FATAL
   * sent and monitoring finalized again; the rest of the queue is left unread.
   */
  lemma StateUpdateFatalThenFatal(env: Env, w: World, q: seq<Inbound>, c: Command)
    requires w.endpoint.Some?
    requires q != [] && q[0] == InboundCommand(c)
    requires w.globalState == Transition(c).0
    requires env.updateStateResult(|w.calls| + 2) == OK
    requires env.sendResult(|w.calls| + 3) == OK
    requires env.receiveResult(|w.calls| + 4).Payload?
    requires HasStateUpdateFatal(env.receiveResult(|w.calls| + 4).replies)
    ensures var k := |w.calls|;
            var e := w.endpoint.value;
            (CommandControlAndCoordinate(env, w, q)
               == LoopResult(Returned(ERROR),
                             w.(localState := Transition(c).1, monitoring := false,
                                calls := w.calls + [CommandReceived(InboundCommand(c)),
                                                    GlobalStateRead(Transition(c).0),
                                                    LocalStateUpdated(Transition(c).1, OK),
                                                    MessageSent(SteeringMsg(c), e.inQueue, OK),
                                                    ReplyReceived(e.outQueue, env.receiveResult(k + 4)),
                                                    MessageSent(EventMsg(StateUpdateFatal), e.inQueue, env.sendResult(k + 5)),
                                                    MonitoringFinalized,
                                                    MessageSent(EventMsg(Fatal), e.inQueue, env.sendResult(k + 7)),
                                                    MonitoringFinalized]),
                             q[1..]))
  {
    var k := |w.calls|;
    var e := w.endpoint.value;
    var w0 := Record(w, CommandReceived(InboundCommand(c)));
    StateUpdateFatalCascade(env, w0, c, Transition(c).0, Transition(c).1);
    var w1 := Dispatch(env, w0, InboundCommand(c)).1;
    assert CommandControlAndCoordinate(env, w, q) == LoopIteration(env, w0, q[0], q[1..]);
    var fatal := MessageSent(EventMsg(Fatal), e.inQueue, env.sendResult(k + 7));
    assert w1.calls + [fatal] + [MonitoringFinalized] == w1.calls + [fatal, MonitoringFinalized];
  }

  /** A successful END ends the loop with OK; the commands after it are never read. */
  lemma EndStopsTheLoop(env: Env, w: World, q: seq<Inbound>)
    requires w.endpoint.Some?
    requires q != [] && q[0] == InboundCommand(End)
    requires StepsSucceed(env, Record(w, CommandReceived(q[0])), End, Running)
    ensures CommandControlAndCoordinate(env, w, q)
         == LoopResult(Returned(OK), SucceededWorld(env, Record(w, CommandReceived(q[0])), End, Running, Terminated), q[1..])
  {
    var w0 := Record(w, CommandReceived(q[0]));
    SucceededCommandWorld(env, w0, End, Running, Terminated);
    assert CommandControlAndCoordinate(env, w, q) == LoopIteration(env, w0, q[0], q[1..]);
  }

  /** A successful INIT or START lets the loop go on to the next command. */
  lemma OtherSuccessContinues(env: Env, w: World, q: seq<Inbound>, c: Command)
    requires w.endpoint.Some?
    requires q != [] && q[0] == InboundCommand(c) && c != End
    requires StepsSucceed(env, Record(w, CommandReceived(q[0])), c, Transition(c).0)
    ensures var w1 := SucceededWorld(env, Record(w, CommandReceived(q[0])), c, Transition(c).0, Transition(c).1);
            CommandControlAndCoordinate(env, w, q) == CommandControlAndCoordinate(env, w1, q[1..])
  {
    var w0 := Record(w, CommandReceived(q[0]));
    SucceededCommandWorld(env, w0, c, Transition(c).0, Transition(c).1);
    assert CommandControlAndCoordinate(env, w, q) == LoopIteration(env, w0, q[0], q[1..]);
  }

  /** A failed registration makes `run` return ERROR before the loop reads anything. */
  lemma RegistrationFailureStopsRun(env: Env, w: World, q: seq<Inbound>)
    requires env.registerResult(|w.calls|) == ERROR
    ensures Run(env, w, q) == LoopResult(Returned(ERROR), w.(calls := w.calls + [Registered(ERROR)]), q)
  {
  }

  /**
   * After a successful registration `run` enters the loop registered, as
   * READY, with the first Command-and-Control endpoint, after one global-state
   * recomputation and with monitoring started.
   */
  lemma SetUpThenLoop(env: Env, w: World, q: seq<Inbound>)
    requires |env.commandAndControl| > 0
    requires env.registerResult(|w.calls|) == OK
    ensures var rc := env.recomputeResult(|w.calls| + 1);
            (Run(env, w, q)
               == CommandControlAndCoordinate(env,
                    w.(registered := true, localState := Ready, endpoint := Some(env.commandAndControl[0]),
                       globalState := rc.globalState, monitoring := true,
                       calls := w.calls + [Registered(OK), GlobalStateRecomputed(rc), MonitoringStarted]),
                    q))
  {
    var rc := env.recomputeResult(|w.calls| + 1);
    assert w.calls + [Registered(OK)] + [GlobalStateRecomputed(rc)] + [MonitoringStarted]
        == w.calls + [Registered(OK), GlobalStateRecomputed(rc), MonitoringStarted];
  }

  /**
   * `run` returns OK only when the orchestrator registered, the last command it
   * read was END, and monitoring is still active: it is finalized only on the
   * error paths.
   */
  lemma RunOkOnlyAfterEnd(env: Env, w: World, q: seq<Inbound>)
    requires env.registerResult(|w.calls|) == OK ==> |env.commandAndControl| > 0
    ensures var r := Run(env, w, q);
            r.outcome == Returned(OK) ==>
              && r.world.registered && r.world.monitoring
              && 0 < ReadCount(q, r) && q[ReadCount(q, r) - 1] == InboundCommand(End)
  {
    if env.registerResult(|w.calls|) == OK {
      SetUpThenLoop(env, w, q);
      var (_, w1) := SetUpRuntime(env, w);
      LoopOkOnlyAfterEnd(env, w1, q);
      LoopExtends(env, w1, q);
    }
  }

  /** `run` returns ERROR either before the loop (registration) or through the fatal cascade. */
  lemma RunErrorPaths(env: Env, w: World, q: seq<Inbound>)
    requires env.registerResult(|w.calls|) == OK ==> |env.commandAndControl| > 0
    ensures var r := Run(env, w, q);
            r.outcome == Returned(ERROR) ==>
              || (r.rest == q && r.world == w.(calls := w.calls + [Registered(ERROR)]))
              || (r.world.registered && !r.world.monitoring
                  && |env.commandAndControl| > 0
                  && EndsWithFatalCascade(env, r.world.calls, env.commandAndControl[0].inQueue))
  {
    if env.registerResult(|w.calls|) == OK {
      SetUpThenLoop(env, w, q);
      var (_, w1) := SetUpRuntime(env, w);
      LoopErrorIsFatalCascade(env, w1, q);
      LoopExtends(env, w1, q);
    }
  }
}
