/**
 One client running alone: its steps in the machine, one after the other, come to exactly
 what the service's own call gives. What is proved of runs is thereby about those calls.
 */
module AuthorizationAlone {
  import opened Wrappers
  import opened Challenges
  import opened Ledger
  import opened Issuer
  import opened ReplayService
  import opened AuthorizationRuns
  import opened AuthorizationFrames
  import opened AuthorizationSafety

  /** Where a finished call leaves its client. */
  function EndPhase(outcome: Result<Execution, Failure>): Phase {
    match outcome
    case Success(e) => Returned(e)
    case Failure(f) => Raised(f)
  }

  /** Client `k` alone has moved, from `s`, with nothing logged. */
  ghost predicate Quiet(s: System, s': System, k: nat, rows: Rows, phase: Phase) {
    && k in s.clients && s'.rows == rows && s'.log == s.log
    && s'.clients == s.clients[k := s.clients[k].(phase := phase)]
  }

  lemma LastStep(s: System, acts: seq<Action>)
    requires acts != []
    ensures RunFrom(s, acts) == Step(RunFrom(s, acts[..|acts| - 1]), acts[|acts| - 1])
  {
  }

  lemma {:induction false} RunFromConcat(s: System, a: seq<Action>, b: seq<Action>)
    ensures RunFrom(s, a + b) == RunFrom(RunFrom(s, a), b)
    decreases |b|
  {
    if b == [] {
      assert a + b == a;
    } else {
      var init := b[..|b| - 1];
      RunFromConcat(s, a, init);
      LastStep(s, a + b);
      LastStep(RunFrom(s, a), b);
      assert (a + b)[..|a + b| - 1] == a + init && (a + b)[|a + b| - 1] == b[|b| - 1];
    }
  }

  /** A step that is neither the executor call nor the return logs nothing. */
  lemma StepIsQuiet(s: System, a: Action)
    requires IsClientAction(a) && !a.ExecuteAction? && !a.ReturnAction? && a.k in s.clients
    ensures var s' := Step(s, a); a.k in s'.clients && Quiet(s, s', a.k, s'.rows, s'.clients[a.k].phase)
  {
    ClientActionFrames(s, a);
    if Step(s, a) == s {
      assert s.clients[a.k := s.clients[a.k]] == s.clients;
    }
  }

  lemma TwoQuietSteps(s: System, k: nat, a: Action, b: Action)
    requires IsClientAction(a) && !a.ExecuteAction? && !a.ReturnAction? && a.k == k && k in s.clients
    requires IsClientAction(b) && !b.ExecuteAction? && !b.ReturnAction? && b.k == k
    ensures var s' := RunFrom(s, [a, b]); k in s'.clients && Quiet(s, s', k, s'.rows, s'.clients[k].phase)
  {
    TwoSteps(s, a, b);
    StepIsQuiet(s, a);
    StepIsQuiet(Step(s, a), b);
  }

  // ----- The stages of a call -----

  function Entry(k: nat, svc: Service, r: Request, nowNs: int): seq<Action> {
    [StartAction(k, svc, r, nowNs), VerifyAction(k)]
  }

  /** After starting and verifying: what the request's checks let through. */
  function EntryPhase(svc: Service, r: Request, nowNs: int): Phase {
    if r.ExecuteRequest? && !IsSha256Hex(r.requestHash) then Raised(BadBinding)
    else if Verify(svc, r.c, nowNs).Failure? then Raised(Verify(svc, r.c, nowNs).error)
    else if r.ExecuteRequest? then Verified else HasResult(r.recovered)
  }

  lemma VerifyMoves(s: System, k: nat)
    requires k in s.clients && s.clients[k].phase.Started?
    ensures Step(s, VerifyAction(k)) ==
            Moved(s, k, EntryPhase(s.clients[k].service, s.clients[k].request, s.clients[k].nowNs))
  {
  }

  lemma EntryEnters(s: System, k: nat, svc: Service, r: Request, nowNs: int)
    requires k !in s.clients
    ensures RunFrom(s, Entry(k, svc, r, nowNs)) ==
            s.(clients := s.clients[k := Client(svc, r, nowNs, EntryPhase(svc, r, nowNs))])
  {
    TwoSteps(s, StartAction(k, svc, r, nowNs), VerifyAction(k));
    var s1 := s.(clients := s.clients[k := Client(svc, r, nowNs, Started)]);
    assert Step(s, StartAction(k, svc, r, nowNs)) == s1;
    VerifyMoves(s1, k);
    assert s1.clients[k := Client(svc, r, nowNs, EntryPhase(svc, r, nowNs))] ==
           s.clients[k := Client(svc, r, nowNs, EntryPhase(svc, r, nowNs))];
  }

  lemma ReserveStage(s: System, k: nat)
    requires k in s.clients && s.clients[k].phase.Verified?
    ensures var r := s.clients[k].request;
            var call := Reserve(s.rows, r.c, r.Op(), r.requestHash, s.clients[k].nowNs);
            Quiet(s, RunFrom(s, [ReserveReadAction(k), ReserveUpdateAction(k)]), k, call.rows,
                  ReservePhase(r, call.outcome))
  {
    ReserveHalvesMakeTheCall(s, k);
    TwoQuietSteps(s, k, ReserveReadAction(k), ReserveUpdateAction(k));
  }

  lemma FinalizeStage(s: System, k: nat, nowNs: int)
    requires k in s.clients && s.clients[k].phase.HasResult?
    ensures var r := s.clients[k].request;
            var call := Finalize(s.rows, r.c, r.Op(), r.requestHash, s.clients[k].phase.result, nowNs);
            Quiet(s, RunFrom(s, [FinalizeReadAction(k), FinalizeUpdateAction(k, nowNs)]), k, call.rows,
                  FinalizePhase(call.outcome))
  {
    FinalizeHalvesMakeTheCall(s, k, nowNs);
    TwoQuietSteps(s, k, FinalizeReadAction(k), FinalizeUpdateAction(k, nowNs));
  }

  /** The executor call and what comes of it. */
  function ExecutedPhase(outcome: ExecutorOutcome): Phase {
    match ExecutorFailure(outcome)
    case Some(f) => Raised(f)
    case None => HasResult(outcome.result)
  }

  function CallEvent(k: nat, r: Request): Event {
    ExecutorCalled(k, r.Id(), r.c.payload.nonceDigest, r.Op())
  }

  lemma ExecutorReturns(m: System, k: nat, outcome: ExecutorOutcome)
    requires k in m.clients && m.clients[k].phase.Executing?
    ensures Step(m, ExecutorAction(k, outcome)) == Moved(m, k, ExecutedPhase(outcome))
  {
  }

  lemma ExecuteStage(s: System, k: nat, outcome: ExecutorOutcome)
    requires k in s.clients && s.clients[k].phase.Acquired?
    ensures var s' := RunFrom(s, [ExecuteAction(k), ExecutorAction(k, outcome)]);
            Quiet(s.(log := s.log + [CallEvent(k, s.clients[k].request)]), s', k, s.rows, ExecutedPhase(outcome))
  {
    TwoSteps(s, ExecuteAction(k), ExecutorAction(k, outcome));
    ExecutorReturns(ExecuteStep(s, k), k, outcome);
    assert Step(s, ExecuteAction(k)) == ExecuteStep(s, k);
  }

  /** Steps of a client that stands at none of their phases change nothing. */
  predicate IsIdle(p: Phase) {
    p.Raised? || p.Crashed? || p.Returned?
  }

  /** The steps from `from` on; 0 is reserve, 1 execute, 2 finalize, 3 return. */
  function Stage(k: nat, n: nat, outcome: ExecutorOutcome, finishNs: int): seq<Action> {
    match n
    case 0 => [ReserveReadAction(k), ReserveUpdateAction(k)]
    case 1 => [ExecuteAction(k), ExecutorAction(k, outcome)]
    case 2 => [FinalizeReadAction(k), FinalizeUpdateAction(k, finishNs)]
    case _ => [ReturnAction(k)]
  }

  lemma OneStep(s: System, a: Action)
    ensures RunFrom(s, [a]) == Step(s, a)
  {
    assert [a][..0] == [];
  }

  lemma StagePasses(s: System, k: nat, n: nat, outcome: ExecutorOutcome, finishNs: int)
    requires k in s.clients
    requires IsIdle(s.clients[k].phase) || (n < 3 && s.clients[k].phase.Committed?)
    ensures RunFrom(s, Stage(k, n, outcome, finishNs)) == s
  {
    var acts := Stage(k, n, outcome, finishNs);
    if n < 3 {
      TwoSteps(s, acts[0], acts[1]);
    } else {
      OneStep(s, acts[0]);
    }
  }

  // ----- The whole call -----

  /** Finalize and return, for a client that holds a result. */
  function Ending(k: nat, finishNs: int): seq<Action> {
    [FinalizeReadAction(k), FinalizeUpdateAction(k, finishNs)] + [ReturnAction(k)]
  }

  /** The client has finished with this outcome, the table and the log being these. */
  ghost predicate Ended(
    s: System, s': System, k: nat, rows: Rows, log: seq<Event>, outcome: Result<Execution, Failure>)
  {
    && k in s.clients && s'.rows == rows
    && s'.clients == s.clients[k := s.clients[k].(phase := EndPhase(outcome))]
    && s'.log ==
       log + if outcome.Success? then [CallReturned(k, s.clients[k].request.requestHash, outcome.value)] else []
  }

  lemma ReturnEnds(s: System, m: System, k: nat, rows: Rows, outcome: Result<Execution, Failure>)
    requires k in s.clients && Quiet(s, m, k, rows, FinalizePhase(outcome))
    ensures Ended(s, RunFrom(m, [ReturnAction(k)]), k, rows, s.log, outcome)
  {
    OneStep(m, ReturnAction(k));
    assert s.log + [] == s.log;
  }

  lemma EndingEnds(s: System, k: nat, finishNs: int)
    requires k in s.clients && s.clients[k].phase.HasResult?
    ensures var r := s.clients[k].request;
            var call := Finalize(s.rows, r.c, r.Op(), r.requestHash, s.clients[k].phase.result, finishNs);
            Ended(s, RunFrom(s, Ending(k, finishNs)), k, call.rows, s.log, call.outcome)
  {
    var r := s.clients[k].request;
    var call := Finalize(s.rows, r.c, r.Op(), r.requestHash, s.clients[k].phase.result, finishNs);
    FinalizeStage(s, k, finishNs);
    RunFromConcat(s, [FinalizeReadAction(k), FinalizeUpdateAction(k, finishNs)], [ReturnAction(k)]);
    ReturnEnds(s, RunFrom(s, [FinalizeReadAction(k), FinalizeUpdateAction(k, finishNs)]), k, call.rows, call.outcome);
  }

  lemma EndingPasses(s: System, k: nat, finishNs: int)
    requires k in s.clients && s.clients[k].phase.Raised?
    ensures RunFrom(s, Ending(k, finishNs)) == s
  {
    RunFromConcat(s, [FinalizeReadAction(k), FinalizeUpdateAction(k, finishNs)], [ReturnAction(k)]);
    StagePasses(s, k, 2, ReturnsOtherValue, finishNs);
    StagePasses(s, k, 3, ReturnsOtherValue, finishNs);
  }

  /** All actions of a recovering client. */
  function RecoverActions(k: nat, svc: Service, r: Request, nowNs: int): seq<Action> {
    Entry(k, svc, r, nowNs) + Ending(k, nowNs)
  }

  /** What a client that joined `s` leaves when it is done. */
  ghost predicate JoinedAndEnded(
    s: System, s': System, k: nat, cl: Client, rows: Rows, log: seq<Event>, outcome: Result<Execution, Failure>) {
    && s'.rows == rows && s'.clients == s.clients[k := cl.(phase := EndPhase(outcome))]
    && s'.log == log + if outcome.Success? then [CallReturned(k, cl.request.requestHash, outcome.value)] else []
  }

  /** A recovering client alone is the service's recover_result. */
  lemma RecoveringClientMakesTheCall(
    s: System, k: nat, svc: Service, c: Challenge, h: Hash, result: AuthorizationResult, nowNs: int)
    requires k !in s.clients
    ensures var r := RecoverRequest(c, h, result);
            var call := RecoverResult(svc, s.rows, c, h, result, nowNs);
            JoinedAndEnded(s, RunFrom(s, RecoverActions(k, svc, r, nowNs)), k, Client(svc, r, nowNs, Started),
                           call.rows, s.log, call.outcome)
  {
    var r := RecoverRequest(c, h, result);
    EntryEnters(s, k, svc, r, nowNs);
    RunFromConcat(s, Entry(k, svc, r, nowNs), Ending(k, nowNs));
    var m := RunFrom(s, Entry(k, svc, r, nowNs));
    assert s.log + [] == s.log;
    if Verify(svc, c, nowNs).Success? {
      EndingEnds(m, k, nowNs);
    } else {
      EndingPasses(m, k, nowNs);
    }
  }

  /** All actions of an executing client whose executor does what it does in the attempt. */
  function Rest(k: nat, outcome: ExecutorOutcome, finishNs: int): seq<Action> {
    Stage(k, 1, outcome, finishNs) + Ending(k, finishNs)
  }

  function ExecuteActions(k: nat, svc: Service, r: Request, a: Attempt): seq<Action> {
    Entry(k, svc, r, a.nowNs) + FromVerified(k, r, a)
  }

  lemma RestPasses(s: System, k: nat, outcome: ExecutorOutcome, finishNs: int)
    requires k in s.clients && s.clients[k].phase.Raised?
    ensures RunFrom(s, Rest(k, outcome, finishNs)) == s
  {
    RunFromConcat(s, Stage(k, 1, outcome, finishNs), Ending(k, finishNs));
    StagePasses(s, k, 1, outcome, finishNs);
    EndingPasses(s, k, finishNs);
  }

  lemma RestReturns(s: System, k: nat, outcome: ExecutorOutcome, finishNs: int)
    requires k in s.clients && s.clients[k].phase.Committed?
    ensures RunFrom(s, Rest(k, outcome, finishNs)) == RunFrom(s, [ReturnAction(k)])
  {
    RunFromConcat(s, Stage(k, 1, outcome, finishNs), Ending(k, finishNs));
    RunFromConcat(s, Stage(k, 2, outcome, finishNs), [ReturnAction(k)]);
    StagePasses(s, k, 1, outcome, finishNs);
    StagePasses(s, k, 2, outcome, finishNs);
  }

  /** From a fresh reservation: the executor, then finalize. */
  function AfterReservation(rows: Rows, r: Request, outcome: ExecutorOutcome, finishNs: int): Call<Execution> {
    match ExecutorFailure(outcome)
    case Some(f) => Call(rows, Failure(f))
    case None => Finalize(rows, r.c, r.Op(), r.requestHash, outcome.result, finishNs)
  }

  lemma RestExecutes(s: System, k: nat, outcome: ExecutorOutcome, finishNs: int)
    requires k in s.clients && s.clients[k].phase.Acquired?
    ensures var r := s.clients[k].request;
            var call := AfterReservation(s.rows, r, outcome, finishNs);
            Ended(s, RunFrom(s, Rest(k, outcome, finishNs)), k, call.rows, s.log + [CallEvent(k, r)], call.outcome)
  {
    var r := s.clients[k].request;
    RunFromConcat(s, Stage(k, 1, outcome, finishNs), Ending(k, finishNs));
    ExecuteStage(s, k, outcome);
    var m := RunFrom(s, Stage(k, 1, outcome, finishNs));
    if ExecutorFailure(outcome).Some? {
      EndingPasses(m, k, finishNs);
      assert m.log + [] == m.log;
    } else {
      EndingEnds(m, k, finishNs);
    }
  }

  /** Reserve, and what the client goes on to. */
  function FromVerified(k: nat, r: Request, a: Attempt): seq<Action> {
    Stage(k, 0, a.executor(r.Op()), a.finishNs) + Rest(k, a.executor(r.Op()), a.finishNs)
  }

  /** A reservation that was refused, or answered from the store. */
  lemma SettledClientEnds(s: System, k: nat, a: Attempt, outcome: Result<Execution, Failure>)
    requires k in s.clients && s.clients[k].phase.Verified? && s.clients[k].nowNs == a.nowNs
    requires var r := s.clients[k].request;
             ReservePhase(r, Reserve(s.rows, r.c, r.Op(), r.requestHash, a.nowNs).outcome) == FinalizePhase(outcome)
    ensures var r := s.clients[k].request;
            Ended(s, RunFrom(s, FromVerified(k, r, a)), k, Reserve(s.rows, r.c, r.Op(), r.requestHash, a.nowNs).rows,
                  s.log, outcome)
  {
    var r := s.clients[k].request;
    ReserveStage(s, k);
    RunFromConcat(s, Stage(k, 0, a.executor(r.Op()), a.finishNs), Rest(k, a.executor(r.Op()), a.finishNs));
    var m := RunFrom(s, Stage(k, 0, a.executor(r.Op()), a.finishNs));
    if outcome.Failure? {
      RestPasses(m, k, a.executor(r.Op()), a.finishNs);
      assert s.log + [] == s.log;
    } else {
      RestReturns(m, k, a.executor(r.Op()), a.finishNs);
      ReturnEnds(s, m, k, m.rows, outcome);
    }
  }

  lemma ReservedClientEnds(s: System, k: nat, a: Attempt)
    requires k in s.clients && s.clients[k].phase.Verified? && s.clients[k].nowNs == a.nowNs
    requires var r := s.clients[k].request;
             Reserve(s.rows, r.c, r.Op(), r.requestHash, a.nowNs).outcome == Success(AcquiredReservation)
    ensures var r := s.clients[k].request;
            var call := AfterReservation(Reserve(s.rows, r.c, r.Op(), r.requestHash, a.nowNs).rows, r,
                                         a.executor(r.Op()), a.finishNs);
            Ended(s, RunFrom(s, FromVerified(k, r, a)), k, call.rows, s.log + [CallEvent(k, r)], call.outcome)
  {
    var r := s.clients[k].request;
    ReserveStage(s, k);
    RunFromConcat(s, Stage(k, 0, a.executor(r.Op()), a.finishNs), Rest(k, a.executor(r.Op()), a.finishNs));
    RestExecutes(RunFrom(s, Stage(k, 0, a.executor(r.Op()), a.finishNs)), k, a.executor(r.Op()), a.finishNs);
  }

  /** A client whose request or challenge is refused has no further step. */
  lemma RefusedClientEnds(s: System, k: nat, r: Request, a: Attempt)
    requires k in s.clients && s.clients[k].phase.Raised?
    ensures RunFrom(s, FromVerified(k, r, a)) == s
  {
    RunFromConcat(s, Stage(k, 0, a.executor(r.Op()), a.finishNs), Rest(k, a.executor(r.Op()), a.finishNs));
    StagePasses(s, k, 0, a.executor(r.Op()), a.finishNs);
    RestPasses(s, k, a.executor(r.Op()), a.finishNs);
  }

  /** Once admitted, the call is its reservation and what follows it. */
  lemma AdmittedCall(svc: Service, rows: Rows, c: Challenge, h: Hash, a: Attempt)
    requires EntryPhase(svc, ExecuteRequest(c, h), a.nowNs).Verified?
    ensures var r := ExecuteRequest(c, h);
            var reserved := Reserve(rows, c, r.Op(), h, a.nowNs);
            ExecuteOnce(svc, rows, c, h, a) ==
            match reserved.outcome
            case Failure(f) => Ran(Call(reserved.rows, Failure(f)), false)
            case Success(ReplayOf(stored)) =>
              Ran(Call(reserved.rows, Success(Execution(r.Id(), r.Op(), stored, true))), false)
            case Success(AcquiredReservation) =>
              Ran(AfterReservation(reserved.rows, r, a.executor(r.Op()), a.finishNs), true)
  {
  }

  lemma EndedHasJoined(
    s: System, m: System, s': System, k: nat, cl: Client, p: Phase, rows: Rows, log: seq<Event>,
    outcome: Result<Execution, Failure>)
    requires k !in s.clients && m.clients == s.clients[k := cl.(phase := p)]
    requires Ended(m, s', k, rows, log, outcome)
    ensures JoinedAndEnded(s, s', k, cl, rows, log, outcome)
  {
    assert s'.clients == s.clients[k := cl.(phase := EndPhase(outcome))];
  }

  lemma AdmittedClientMakesTheCall(s: System, m: System, k: nat, svc: Service, c: Challenge, h: Hash, a: Attempt)
    requires k !in s.clients && EntryPhase(svc, ExecuteRequest(c, h), a.nowNs).Verified?
    requires m == s.(clients := s.clients[k := Client(svc, ExecuteRequest(c, h), a.nowNs, Verified)])
    ensures var r, ran := ExecuteRequest(c, h), ExecuteOnce(svc, s.rows, c, h, a);
            Ended(m, RunFrom(m, FromVerified(k, r, a)), k, ran.call.rows,
                  s.log + if ran.executed then [CallEvent(k, r)] else [], ran.call.outcome)
  {
    var r := ExecuteRequest(c, h);
    AdmittedCall(svc, s.rows, c, h, a);
    assert s.log + [] == s.log;
    if Reserve(s.rows, c, r.Op(), h, a.nowNs).outcome == Success(AcquiredReservation) {
      ReservedClientEnds(m, k, a);
    } else {
      SettledClientEnds(m, k, a, ExecuteOnce(svc, s.rows, c, h, a).call.outcome);
    }
  }

  /**
   An executing client alone is the service's execute_once: the same table and outcome, and
   the executor was called exactly when the call says so.
   */
  lemma ExecutingClientMakesTheCall(s: System, k: nat, svc: Service, c: Challenge, h: Hash, a: Attempt)
    requires k !in s.clients
    ensures var r := ExecuteRequest(c, h);
            var ran := ExecuteOnce(svc, s.rows, c, h, a);
            JoinedAndEnded(s, RunFrom(s, ExecuteActions(k, svc, r, a)), k, Client(svc, r, a.nowNs, Started),
                           ran.call.rows, s.log + if ran.executed then [CallEvent(k, r)] else [], ran.call.outcome)
  {
    var r, ran := ExecuteRequest(c, h), ExecuteOnce(svc, s.rows, c, h, a);
    EntryEnters(s, k, svc, r, a.nowNs);
    RunFromConcat(s, Entry(k, svc, r, a.nowNs), FromVerified(k, r, a));
    var m := RunFrom(s, Entry(k, svc, r, a.nowNs));
    if m.clients[k].phase.Raised? {
      RefusedClientEnds(m, k, r, a);
      assert s.log + [] + [] == s.log;
    } else {
      AdmittedClientMakesTheCall(s, m, k, svc, c, h, a);
      EndedHasJoined(s, m, RunFrom(m, FromVerified(k, r, a)), k, Client(svc, r, a.nowNs, Started), Verified,
                     ran.call.rows, s.log + if ran.executed then [CallEvent(k, r)] else [], ran.call.outcome);
    }
  }
}
