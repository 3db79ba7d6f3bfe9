/** The service: issue, execute once, recover, over one shared ledger. */
module ReplayService {
  import opened Wrappers
  import opened Challenges
  import opened Ledger
  import opened Issuer

  /** What calling the external executor with an operation id may do. */
  datatype ExecutorOutcome =
    | Returns(result: AuthorizationResult)
    | ReturnsOtherValue
    | RaisesReplayError(failure: Failure)
    | RaisesOtherError

  /** What the executor block of execute_once raises, if anything. */
  function ExecutorFailure(outcome: ExecutorOutcome): Option<Failure> {
    match outcome
    case Returns(result) =>
      (match ResultFailure(result)
       case Some(InvalidValue) => Some(ExecutionUnknown)
       case other => other)
    case ReturnsOtherValue => Some(ResultInvalid)
    case RaisesReplayError(f) => Some(f)
    case RaisesOtherError => Some(ExecutionUnknown)
  }

  function Issue(svc: Service, rows: Rows, req: IssueRequest, uuid: string, nonce: seq<byte>, nowNs: int)
    : Call<Challenge>
  {
    match MakeChallenge(svc, req, uuid, nonce, nowNs)
    case Failure(f) => Call(rows, Failure(f))
    case Success(c) =>
      var recorded := RecordIssued(rows, c, nowNs);
      Call(recorded.rows, if recorded.outcome.Success? then Success(c) else Failure(recorded.outcome.error))
  }

  /** One call's executor and the two clock readings it takes. */
  datatype Attempt = Attempt(executor: Hash -> ExecutorOutcome, nowNs: int, finishNs: int)

  datatype Ran = Ran(call: Call<Execution>, executed: bool)

  function ExecuteOnce(svc: Service, rows: Rows, c: Challenge, requestHash: Hash, a: Attempt): Ran
  {
    if !IsSha256Hex(requestHash) then Ran(Call(rows, Failure(BadBinding)), false)
    else if Verify(svc, c, a.nowNs).Failure? then
      Ran(Call(rows, Failure(Verify(svc, c, a.nowNs).error)), false)
    else
      var op := OperationId(c, requestHash);
      var reserved := Reserve(rows, c, op, requestHash, a.nowNs);
      match reserved.outcome
      case Failure(f) => Ran(Call(reserved.rows, Failure(f)), false)
      case Success(ReplayOf(stored)) =>
        Ran(Call(reserved.rows, Success(Execution(c.payload.challengeId, op, stored, true))), false)
      case Success(AcquiredReservation) =>
        match ExecutorFailure(a.executor(op))
        case Some(f) => Ran(Call(reserved.rows, Failure(f)), true)
        case None => Ran(Finalize(reserved.rows, c, op, requestHash, a.executor(op).result, a.finishNs), true)
  }

  function RecoverResult(
    svc: Service, rows: Rows, c: Challenge, requestHash: Hash, result: AuthorizationResult, nowNs: int)
    : Call<Execution>
  {
    if Verify(svc, c, nowNs).Failure? then Call(rows, Failure(Verify(svc, c, nowNs).error))
    else Finalize(rows, c, OperationId(c, requestHash), requestHash, result, nowNs)
  }

  class AuthorizationReplayService {
    const service: Service
    const ledger: ReplayLedger

    constructor (service: Service, ledger: ReplayLedger)
      ensures this.service == service && this.ledger == ledger
    {
      this.service := service;
      this.ledger := ledger;
    }

    method IssueChallenge(req: IssueRequest, uuid: string, nonce: seq<byte>, nowNs: int)
      returns (r: Result<Challenge, Failure>)
      modifies ledger
      ensures Call(ledger.rows, r) == Issue(service, old(ledger.rows), req, uuid, nonce, nowNs)
    {
      var c :- MakeChallenge(service, req, uuid, nonce, nowNs);
      var _ :- ledger.RecordIssuedRow(c, nowNs);
      return Success(c);
    }

    method ExecuteOnceWith(c: Challenge, requestHash: Hash, a: Attempt)
      returns (r: Result<Execution, Failure>, executed: bool)
      modifies ledger
      ensures Ran(Call(ledger.rows, r), executed) ==
              ExecuteOnce(service, old(ledger.rows), c, requestHash, a)
    {
      executed := false;
      if !IsSha256Hex(requestHash) {
        return Failure(BadBinding), false;
      }
      var verdict := Verify(service, c, a.nowNs);
      if verdict.Failure? {
        return Failure(verdict.error), false;
      }
      var op := OperationId(c, requestHash);
      var reservation := ledger.ReserveRow(c, op, requestHash, a.nowNs);
      match reservation {
        case Failure(f) =>
          r := Failure(f);
        case Success(ReplayOf(stored)) =>
          r := Success(Execution(c.payload.challengeId, op, stored, true));
        case Success(AcquiredReservation) =>
          var outcome := a.executor(op);
          executed := true;
          var failure := ExecutorFailure(outcome);
          if failure.Some? {
            r := Failure(failure.value);
          } else {
            r := ledger.FinalizeRow(c, op, requestHash, outcome.result, a.finishNs);
          }
      }
    }

    method RecoverWith(c: Challenge, requestHash: Hash, result: AuthorizationResult, nowNs: int)
      returns (r: Result<Execution, Failure>)
      modifies ledger
      ensures Call(ledger.rows, r) ==
              RecoverResult(service, old(ledger.rows), c, requestHash, result, nowNs)
    {
      var _ :- Verify(service, c, nowNs);
      r := ledger.FinalizeRow(c, OperationId(c, requestHash), requestHash, result, nowNs);
    }
  }

  // ----- What one caller may rely on -----

  /** How a successful call leaves its row. */
  ghost predicate HoldsExecution(rows: Rows, c: Challenge, requestHash: Hash, e: Execution) {
    && CheckedRow(rows, c).Success?
    && CheckedRow(rows, c).value.state == Consumed
    && SameRequest(CheckedRow(rows, c).value, OperationId(c, requestHash), requestHash)
    && StoredResult(CheckedRow(rows, c).value) == Success(e.result)
    && e.challengeId == c.payload.challengeId && e.operationId == OperationId(c, requestHash)
  }

  lemma ReplayHoldsExecution(rows: Rows, c: Challenge, requestHash: Hash, nowNs: int)
    requires var outcome := Reserve(rows, c, OperationId(c, requestHash), requestHash, nowNs).outcome;
             outcome.Success? && outcome.value.ReplayOf?
    ensures var op := OperationId(c, requestHash);
            var call := Reserve(rows, c, op, requestHash, nowNs);
            HoldsExecution(call.rows, c, requestHash,
                           Execution(c.payload.challengeId, op, call.outcome.value.result, true))
  {
  }

  lemma FinalizeHoldsExecution(
    rows: Rows, c: Challenge, requestHash: Hash, result: AuthorizationResult, nowNs: int)
    requires Finalize(rows, c, OperationId(c, requestHash), requestHash, result, nowNs).outcome.Success?
    ensures var call := Finalize(rows, c, OperationId(c, requestHash), requestHash, result, nowNs);
            HoldsExecution(call.rows, c, requestHash, call.outcome.value)
  {
  }

  lemma SuccessHoldsExecution(svc: Service, rows: Rows, c: Challenge, requestHash: Hash, a: Attempt)
    requires ExecuteOnce(svc, rows, c, requestHash, a).call.outcome.Success?
    ensures var first := ExecuteOnce(svc, rows, c, requestHash, a).call;
            HoldsExecution(first.rows, c, requestHash, first.outcome.value)
    ensures IsSha256Hex(requestHash) && Verify(svc, c, a.nowNs).Success?
  {
    var op := OperationId(c, requestHash);
    var reserved := Reserve(rows, c, op, requestHash, a.nowNs);
    if reserved.outcome.value.ReplayOf? {
      ReplayHoldsExecution(rows, c, requestHash, a.nowNs);
    } else {
      FinalizeHoldsExecution(reserved.rows, c, requestHash, a.executor(op).result, a.finishNs);
    }
  }

  /** After a success, the same request replays the same execution and never executes again. */
  lemma ExactRetryReplays(
    svc: Service, rows: Rows, c: Challenge, requestHash: Hash, a: Attempt, retry: Attempt)
    requires ExecuteOnce(svc, rows, c, requestHash, a).call.outcome.Success?
    requires retry.nowNs < c.payload.expiresAtNs
    ensures var first := ExecuteOnce(svc, rows, c, requestHash, a).call;
            ExecuteOnce(svc, first.rows, c, requestHash, retry) ==
            Ran(Call(first.rows, Success(first.outcome.value.(replayed := true))), false)
  {
    SuccessHoldsExecution(svc, rows, c, requestHash, a);
  }

  /** After a success, any other request on the challenge is refused and nothing executes. */
  lemma OtherRequestIsReplayed(
    svc: Service, rows: Rows, c: Challenge, requestHash: Hash, a: Attempt, other: Hash, retry: Attempt)
    requires ExecuteOnce(svc, rows, c, requestHash, a).call.outcome.Success?
    requires retry.nowNs < c.payload.expiresAtNs && other != requestHash && IsSha256Hex(other)
    ensures var first := ExecuteOnce(svc, rows, c, requestHash, a).call;
            ExecuteOnce(svc, first.rows, c, other, retry) == Ran(Call(first.rows, Failure(Replayed)), false)
  {
    SuccessHoldsExecution(svc, rows, c, requestHash, a);
  }

  /**
   After an executor failure the reservation stands: a retry is refused without executing,
   and recovery with any valid result, before the expiry, completes it.
   */
  lemma FailedExecutionIsFencedAndRecoverable(
    svc: Service, rows: Rows, c: Challenge, requestHash: Hash, a: Attempt,
    retry: Attempt, result: AuthorizationResult)
    requires ExecuteOnce(svc, rows, c, requestHash, a).executed
    requires ExecuteOnce(svc, rows, c, requestHash, a).call.outcome.Failure?
    requires retry.nowNs < c.payload.expiresAtNs && ValidResult(result)
    ensures var left := ExecuteOnce(svc, rows, c, requestHash, a).call.rows;
            && ExecuteOnce(svc, left, c, requestHash, retry) ==
               Ran(Call(left, Failure(InProgress)), false)
            && RecoverResult(svc, left, c, requestHash, result, retry.nowNs).outcome ==
               Success(Execution(c.payload.challengeId, OperationId(c, requestHash), result, false))
  {
    var op := OperationId(c, requestHash);
    var reserved := Reserve(rows, c, op, requestHash, a.nowNs).rows;
    assert reserved[c.payload.challengeId].state == Reserved;
    assert ExecutorFailure(a.executor(op)).Some?;
    assert Verify(svc, c, retry.nowNs).Success?;
  }
}
