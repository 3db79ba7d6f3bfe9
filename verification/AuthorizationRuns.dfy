/**
 Any number of clients running execute_once and recover_result against one ledger, with
 issues and revocations cutting in and any client crashing between any two steps.

 A reserve or finalize transaction is split here into its read and its guarded UPDATE,
 each an atomic step of its own; revoke stays one step. Runs of whole transactions are
 the runs in which the two halves follow each other at once.
 */
module AuthorizationRuns {
  import opened Wrappers
  import opened Challenges
  import opened Ledger
  import opened Issuer
  import opened ReplayService

  /** What a client asks for; one client makes one call. */
  datatype Request =
    | ExecuteRequest(c: Challenge, requestHash: Hash)
    | RecoverRequest(c: Challenge, requestHash: Hash, recovered: AuthorizationResult)
  {
    function Id(): string {
      c.payload.challengeId
    }

    function Op(): Hash {
      OperationId(c, requestHash)
    }
  }

  datatype Phase =
    | Started
    | Verified
    | ReserveChosen // the reserve transaction has read an unexpired ISSUED row
    | Acquired
    | Executing
    | HasResult(result: AuthorizationResult)
    | FinalizeChosen(result: AuthorizationResult) // the finalize transaction has read its reservation
    | Committed(execution: Execution) // about to return to the caller
    | Returned(execution: Execution)
    | Raised(failure: Failure)
    | Crashed

  /** A client calls the service it is given; services with different keys may share the ledger. */
  datatype Client = Client(service: Service, request: Request, nowNs: int, phase: Phase)

  datatype Event =
    | ExecutorCalled(client: nat, challengeId: string, nonceDigest: Hash, operationId: Hash)
    | CallReturned(client: nat, requestHash: Hash, execution: Execution)
    | ChallengeRevoked(challengeId: string)

  /** `reservedBy` and `consumedBy` record which client's UPDATE won; no step reads them. */
  datatype System = System(
    rows: Rows, clients: map<nat, Client>, log: seq<Event>,
    reservedBy: map<string, nat>, consumedBy: map<string, nat>)

  datatype Action =
    | IssueAction(svc: Service, req: IssueRequest, uuid: string, nonce: seq<byte>, nowNs: int)
    | RevokeAction(id: string, nowNs: int, reason: string)
    | StartAction(k: nat, svc: Service, request: Request, nowNs: int)
    | VerifyAction(k: nat)
    | ReserveReadAction(k: nat)
    | ReserveUpdateAction(k: nat)
    | ExecuteAction(k: nat)
    | ExecutorAction(k: nat, outcome: ExecutorOutcome)
    | FinalizeReadAction(k: nat)
    | FinalizeUpdateAction(k: nat, nowNs: int)
    | ReturnAction(k: nat)
    | CrashAction(k: nat)
    | LockTimeoutAction(k: nat)

  predicate IsClientAction(a: Action) {
    !a.IssueAction? && !a.RevokeAction? && !a.StartAction?
  }

  /** The halves of the two ledger transactions. */
  predicate IsTransactionAction(a: Action) {
    a.ReserveReadAction? || a.ReserveUpdateAction? || a.FinalizeReadAction? || a.FinalizeUpdateAction?
  }

  const EMPTY := System(map[], map[], [], map[], map[])

  function Moved(s: System, k: nat, phase: Phase): System
    requires k in s.clients
  {
    s.(clients := s.clients[k := s.clients[k].(phase := phase)])
  }

  function VerifyStep(s: System, k: nat): System
    requires k in s.clients && s.clients[k].phase.Started?
  {
    var r := s.clients[k].request;
    if r.ExecuteRequest? && !IsSha256Hex(r.requestHash) then Moved(s, k, Raised(BadBinding))
    else
      match Verify(s.clients[k].service, r.c, s.clients[k].nowNs)
      case Failure(f) => Moved(s, k, Raised(f))
      case Success(_) => Moved(s, k, if r.ExecuteRequest? then Verified else HasResult(r.recovered))
  }

  function ReserveReadStep(s: System, k: nat): System
    requires k in s.clients && s.clients[k].phase.Verified?
  {
    var r, nowNs := s.clients[k].request, s.clients[k].nowNs;
    match ReserveRead(s.rows, r.c, r.Op(), r.requestHash, nowNs)
    case ExpireRow => Moved(s, k, Raised(ExpiredFailure)).(rows := ExpireUpdate(s.rows, r.Id(), nowNs))
    case TryReserve => Moved(s, k, ReserveChosen)
    case ReserveSettled(Success(stored)) => Moved(s, k, Committed(Execution(r.Id(), r.Op(), stored, true)))
    case ReserveSettled(Failure(f)) => Moved(s, k, Raised(f))
  }

  function ReserveUpdateStep(s: System, k: nat): System
    requires k in s.clients && s.clients[k].phase.ReserveChosen?
  {
    var r := s.clients[k].request;
    if ReserveGuard(s.rows, r.Id()) then
      Moved(s, k, Acquired).(
      rows := ReserveUpdate(s.rows, r.Id(), r.Op(), r.requestHash, s.clients[k].nowNs),
      reservedBy := s.reservedBy[r.Id() := k])
    else Moved(s, k, Raised(ConflictedFailure))
  }

  function ExecuteStep(s: System, k: nat): System
    requires k in s.clients && s.clients[k].phase.Acquired?
  {
    var r := s.clients[k].request;
    Moved(s, k, Executing).(
    log := s.log + [ExecutorCalled(k, r.Id(), r.c.payload.nonceDigest, r.Op())])
  }

  function ExecutorStep(s: System, k: nat, outcome: ExecutorOutcome): System
    requires k in s.clients && s.clients[k].phase.Executing?
  {
    match ExecutorFailure(outcome)
    case Some(f) => Moved(s, k, Raised(f))
    case None => Moved(s, k, HasResult(outcome.result))
  }

  function FinalizeReadStep(s: System, k: nat): System
    requires k in s.clients && s.clients[k].phase.HasResult?
  {
    var r, result := s.clients[k].request, s.clients[k].phase.result;
    match FinalizeRead(s.rows, r.c, r.Op(), r.requestHash, result)
    case TryFinalize => Moved(s, k, FinalizeChosen(result))
    case FinalizeSettled(Success(e)) => Moved(s, k, Committed(e))
    case FinalizeSettled(Failure(f)) => Moved(s, k, Raised(f))
  }

  function FinalizeUpdateStep(s: System, k: nat, nowNs: int): System
    requires k in s.clients && s.clients[k].phase.FinalizeChosen?
  {
    var r, result := s.clients[k].request, s.clients[k].phase.result;
    if FinalizeGuard(s.rows, r.Id(), r.Op(), r.requestHash) then
      Moved(s, k, Committed(Execution(r.Id(), r.Op(), result, false))).(
      rows := FinalizeUpdate(s.rows, r.Id(), r.Op(), r.requestHash, result, nowNs),
      consumedBy := s.consumedBy[r.Id() := k])
    else Moved(s, k, Raised(ConflictedFailure))
  }

  function ReturnStep(s: System, k: nat): System
    requires k in s.clients && s.clients[k].phase.Committed?
  {
    var e := s.clients[k].phase.execution;
    Moved(s, k, Returned(e)).(log := s.log + [CallReturned(k, s.clients[k].request.requestHash, e)])
  }

  function RevokeStep(s: System, id: string, nowNs: int, reason: string): System {
    var call := Revoke(s.rows, id, nowNs, reason);
    if call.outcome.Success? then s.(rows := call.rows, log := s.log + [ChallengeRevoked(id)]) else s
  }

  /** One step; an action that is not enabled leaves the system as it is. */
  function Step(s: System, a: Action): System {
    match a
    case IssueAction(svc, req, uuid, nonce, t) => s.(rows := Issue(svc, s.rows, req, uuid, nonce, t).rows)
    case RevokeAction(id, t, reason) => RevokeStep(s, id, t, reason)
    case StartAction(k, svc, r, t) =>
      if k in s.clients then s else s.(clients := s.clients[k := Client(svc, r, t, Started)])
    case VerifyAction(k) =>
      if k in s.clients && s.clients[k].phase.Started? then VerifyStep(s, k) else s
    case ReserveReadAction(k) =>
      if k in s.clients && s.clients[k].phase.Verified? then ReserveReadStep(s, k) else s
    case ReserveUpdateAction(k) =>
      if k in s.clients && s.clients[k].phase.ReserveChosen? then ReserveUpdateStep(s, k) else s
    case ExecuteAction(k) =>
      if k in s.clients && s.clients[k].phase.Acquired? then ExecuteStep(s, k) else s
    case ExecutorAction(k, outcome) =>
      if k in s.clients && s.clients[k].phase.Executing? then ExecutorStep(s, k, outcome) else s
    case FinalizeReadAction(k) =>
      if k in s.clients && s.clients[k].phase.HasResult? then FinalizeReadStep(s, k) else s
    case FinalizeUpdateAction(k, t) =>
      if k in s.clients && s.clients[k].phase.FinalizeChosen? then FinalizeUpdateStep(s, k, t) else s
    case ReturnAction(k) =>
      if k in s.clients && s.clients[k].phase.Committed? then ReturnStep(s, k) else s
    case CrashAction(k) =>
      if k in s.clients && !s.clients[k].phase.Returned? then Moved(s, k, Crashed) else s
    case LockTimeoutAction(k) =>
      if k in s.clients && (s.clients[k].phase.Verified? || s.clients[k].phase.HasResult?) then
        Moved(s, k, Raised(StoreError))
      else s
  }

  function RunFrom(s: System, acts: seq<Action>): System {
    if acts == [] then s else Step(RunFrom(s, acts[..|acts| - 1]), acts[|acts| - 1])
  }

  function Run(acts: seq<Action>): System {
    RunFrom(EMPTY, acts)
  }
}
