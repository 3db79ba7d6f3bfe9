/** A success means an execution: without recovery, every return stands on one executor call. */
module AuthorizationExecution {
  import opened Wrappers
  import opened Challenges
  import opened Ledger
  import opened Issuer
  import opened ReplayService
  import opened AuthorizationRuns
  import opened AuthorizationInvariant
  import opened AuthorizationPreservation
  import opened AuthorizationFrames
  import opened AuthorizationSafety

  /** The log has an executor call under this operation id. */
  predicate Called(log: seq<Event>, op: Hash) {
    exists i :: 0 <= i < |log| && log[i].ExecutorCalled? && log[i].operationId == op
  }

  predicate RowBacked(log: seq<Event>, row: Row) {
    row.state == Consumed ==> row.reservedOperationId.Some? && Called(log, row.reservedOperationId.value)
  }

  predicate HasCalled(p: Phase) {
    p.Executing? || p.HasResult? || p.FinalizeChosen?
  }

  predicate ClientBacked(log: seq<Event>, cl: Client) {
    && cl.request.ExecuteRequest?
    && (HasCalled(cl.phase) ==> Called(log, cl.request.Op()))
    && (cl.phase.Committed? ==> Called(log, cl.phase.execution.operationId))
  }

  predicate ReturnBacked(log: seq<Event>, j: int)
    requires 0 <= j < |log|
  {
    log[j].CallReturned? ==> Called(log[..j], log[j].execution.operationId)
  }

  ghost predicate Backed(s: System) {
    && (forall id :: id in s.rows ==> RowBacked(s.log, s.rows[id]))
    && (forall k :: k in s.clients ==> ClientBacked(s.log, s.clients[k]))
    && (forall j :: 0 <= j < |s.log| ==> ReturnBacked(s.log, j))
  }

  predicate IsRecovery(a: Action) {
    a.StartAction? && a.request.RecoverRequest?
  }

  predicate NoRecovery(acts: seq<Action>) {
    forall i :: 0 <= i < |acts| ==> !IsRecovery(acts[i])
  }

  lemma CalledStays(log: seq<Event>, log': seq<Event>, op: Hash)
    requires log <= log' && Called(log, op)
    ensures Called(log', op)
  {
    var i :| 0 <= i < |log| && log[i].ExecutorCalled? && log[i].operationId == op;
    assert log'[i] == log[i];
  }

  lemma ClientStaysBacked(log: seq<Event>, log': seq<Event>, cl: Client)
    requires log <= log' && ClientBacked(log, cl)
    ensures ClientBacked(log', cl)
  {
    if HasCalled(cl.phase) {
      CalledStays(log, log', cl.request.Op());
    }
    if cl.phase.Committed? {
      CalledStays(log, log', cl.phase.execution.operationId);
    }
  }

  lemma RowsStayBacked(log: seq<Event>, log': seq<Event>, rows: Rows)
    requires log <= log' && forall id :: id in rows ==> RowBacked(log, rows[id])
    ensures forall id :: id in rows ==> RowBacked(log', rows[id])
  {
    forall id | id in rows ensures RowBacked(log', rows[id]) {
      if rows[id].state == Consumed {
        CalledStays(log, log', rows[id].reservedOperationId.value);
      }
    }
  }

  lemma OldReturnsStayBacked(log: seq<Event>, log': seq<Event>, j: int)
    requires log <= log' && 0 <= j < |log| && ReturnBacked(log, j)
    ensures ReturnBacked(log', j)
  {
    assert log'[..j] == log[..j];
  }

  lemma ClientsStayBacked(s: System, s': System, k: nat)
    requires Backed(s) && OnlyMoves(s, s', k) && s.log <= s'.log && ClientBacked(s'.log, s'.clients[k])
    ensures forall j :: j in s'.clients ==> ClientBacked(s'.log, s'.clients[j])
  {
    forall j | j in s'.clients ensures ClientBacked(s'.log, s'.clients[j]) {
      if j != k {
        ClientStaysBacked(s.log, s'.log, s.clients[j]);
      }
    }
  }

  lemma ReturnsStayBacked(s: System, s': System, k: nat)
    requires Backed(s) && k in s.clients && LogsOwn(s, s', k)
    ensures forall j :: 0 <= j < |s'.log| ==> ReturnBacked(s'.log, j)
  {
    forall j | 0 <= j < |s'.log| ensures ReturnBacked(s'.log, j) {
      if j < |s.log| {
        OldReturnsStayBacked(s.log, s'.log, j);
      } else {
        assert s'.log[..j] == s.log && ClientBacked(s.log, s.clients[k]);
      }
    }
  }

  /** A client's step keeps the backing once its rows and its own phase are backed. */
  lemma ClientStepKeepsBacked(s: System, s': System, k: nat)
    requires Backed(s) && ClientStep(s, s', k)
    requires forall id :: id in s'.rows ==> RowBacked(s.log, s'.rows[id])
    requires ClientBacked(s'.log, s'.clients[k])
    ensures Backed(s')
  {
    RowsStayBacked(s.log, s'.log, s'.rows);
    ClientsStayBacked(s, s', k);
    ReturnsStayBacked(s, s', k);
  }

  /** What a client's step must show: the rows over the old log, its own client over the new one. */
  ghost predicate Lands(s: System, s': System, k: nat) {
    && (forall id :: id in s'.rows ==> RowBacked(s.log, s'.rows[id]))
    && k in s'.clients && ClientBacked(s'.log, s'.clients[k])
  }

  lemma ReserveReadBacks(s: System, k: nat)
    requires Backed(s) && k in s.clients && s.clients[k].phase.Verified?
    ensures Lands(s, ReserveReadStep(s, k), k)
  {
    assert ClientBacked(s.log, s.clients[k]);
    var id := s.clients[k].request.Id();
    assert id in s.rows ==> RowBacked(s.log, s.rows[id]);
  }

  lemma ReserveUpdateBacks(s: System, k: nat)
    requires Backed(s) && k in s.clients && s.clients[k].phase.ReserveChosen?
    ensures Lands(s, ReserveUpdateStep(s, k), k)
  {
    assert ClientBacked(s.log, s.clients[k]);
  }

  lemma ExecuteBacks(s: System, k: nat)
    requires Backed(s) && k in s.clients && s.clients[k].phase.Acquired?
    ensures Lands(s, ExecuteStep(s, k), k)
  {
    assert ClientBacked(s.log, s.clients[k]);
    assert ExecuteStep(s, k).log[|s.log|].operationId == s.clients[k].request.Op();
  }

  lemma FinalizeReadBacks(s: System, k: nat)
    requires Backed(s) && k in s.clients && s.clients[k].phase.HasResult?
    ensures Lands(s, FinalizeReadStep(s, k), k)
  {
    assert ClientBacked(s.log, s.clients[k]);
  }

  lemma FinalizeUpdateBacks(s: System, k: nat, nowNs: int)
    requires Backed(s) && k in s.clients && s.clients[k].phase.FinalizeChosen?
    ensures Lands(s, FinalizeUpdateStep(s, k, nowNs), k)
  {
    assert ClientBacked(s.log, s.clients[k]);
  }

  /** A move that neither calls the executor nor commits. */
  lemma PlainMoveBacks(s: System, k: nat, p: Phase)
    requires Backed(s) && k in s.clients && MayGo(s.clients[k], p) && !p.Executing? && !p.Committed?
    requires p.HasResult? ==> HasCalled(s.clients[k].phase)
    ensures Lands(s, Moved(s, k, p), k)
  {
    assert ClientBacked(s.log, s.clients[k]);
  }

  lemma ReturnBacks(s: System, k: nat)
    requires Backed(s) && k in s.clients && s.clients[k].phase.Committed?
    ensures Lands(s, ReturnStep(s, k), k)
  {
    assert ClientBacked(s.log, s.clients[k]);
  }

  lemma VerifyBacks(s: System, k: nat)
    requires Backed(s) && k in s.clients && s.clients[k].phase.Started?
    ensures Lands(s, VerifyStep(s, k), k)
  {
    assert ClientBacked(s.log, s.clients[k]);
  }

  lemma ExecutorBacks(s: System, k: nat, outcome: ExecutorOutcome)
    requires Backed(s) && k in s.clients && s.clients[k].phase.Executing?
    ensures Lands(s, ExecutorStep(s, k, outcome), k)
  {
    assert ClientBacked(s.log, s.clients[k]);
  }

  lemma CallLands(s: System, a: Action)
    requires Backed(s) && (a.VerifyAction? || a.ExecuteAction? || a.ExecutorAction?) && Step(s, a) != s
    ensures Lands(s, Step(s, a), a.k)
  {
    match a
    case VerifyAction(k) => VerifyBacks(s, k);
    case ExecuteAction(k) => ExecuteBacks(s, k);
    case ExecutorAction(k, outcome) => ExecutorBacks(s, k, outcome);
  }

  lemma EndLands(s: System, a: Action)
    requires Backed(s) && (a.ReturnAction? || a.CrashAction? || a.LockTimeoutAction?) && Step(s, a) != s
    ensures Lands(s, Step(s, a), a.k)
  {
    match a
    case ReturnAction(k) => ReturnBacks(s, k);
    case CrashAction(k) => PlainMoveBacks(s, k, Crashed);
    case LockTimeoutAction(k) => PlainMoveBacks(s, k, Raised(StoreError));
  }

  lemma TransactionLands(s: System, a: Action)
    requires Backed(s) && IsTransactionAction(a) && Step(s, a) != s
    ensures Lands(s, Step(s, a), a.k)
  {
    match a
    case ReserveReadAction(k) => ReserveReadBacks(s, k);
    case ReserveUpdateAction(k) => ReserveUpdateBacks(s, k);
    case FinalizeReadAction(k) => FinalizeReadBacks(s, k);
    case FinalizeUpdateAction(k, t) => FinalizeUpdateBacks(s, k, t);
  }

  lemma IssueBacks(s: System, a: Action)
    requires Backed(s) && a.IssueAction?
    ensures forall id :: id in Step(s, a).rows ==> RowBacked(s.log, Step(s, a).rows[id])
  {
  }

  lemma RevokeBacks(s: System, a: Action)
    requires Backed(s) && a.RevokeAction?
    ensures forall id :: id in Step(s, a).rows ==> RowBacked(s.log, Step(s, a).rows[id])
  {
  }

  lemma OtherActionKeepsBacked(s: System, s': System)
    requires Backed(s) && s.log <= s'.log
    requires forall i :: |s.log| <= i < |s'.log| ==> s'.log[i].ChallengeRevoked?
    requires forall id :: id in s'.rows ==> RowBacked(s.log, s'.rows[id])
    requires forall k :: k in s'.clients ==>
                           if k in s.clients then s'.clients[k] == s.clients[k]
                           else s'.clients[k].phase.Started? && s'.clients[k].request.ExecuteRequest?
    ensures Backed(s')
  {
    RowsStayBacked(s.log, s'.log, s'.rows);
    forall k | k in s'.clients ensures ClientBacked(s'.log, s'.clients[k]) {
      if k in s.clients {
        ClientStaysBacked(s.log, s'.log, s.clients[k]);
      }
    }
    forall j | 0 <= j < |s'.log| ensures ReturnBacked(s'.log, j) {
      if j < |s.log| {
        OldReturnsStayBacked(s.log, s'.log, j);
      }
    }
  }

  lemma StepKeepsBacked(s: System, a: Action)
    requires Backed(s) && !IsRecovery(a)
    ensures Backed(Step(s, a))
  {
    if Step(s, a) == s {
    } else if IsClientAction(a) {
      ClientActionFrames(s, a);
      if IsTransactionAction(a) {
        TransactionLands(s, a);
      } else if a.VerifyAction? || a.ExecuteAction? || a.ExecutorAction? {
        CallLands(s, a);
      } else {
        EndLands(s, a);
      }
      ClientStepKeepsBacked(s, Step(s, a), a.k);
    } else {
      OtherActionFrames(s, a);
      match a {
        case IssueAction(_, _, _, _, _) => IssueBacks(s, a);
        case RevokeAction(_, _, _) => RevokeBacks(s, a);
        case _ =>
      }
      OtherActionKeepsBacked(s, Step(s, a));
    }
  }

  lemma {:induction false} RunsAreBacked(acts: seq<Action>)
    requires NoRecovery(acts)
    ensures Backed(Run(acts))
  {
    if acts != [] {
      RunsAreBacked(acts[..|acts| - 1]);
      assert !IsRecovery(acts[|acts| - 1]);
      StepKeepsBacked(Run(acts[..|acts| - 1]), acts[|acts| - 1]);
    }
  }

  lemma OneCallPerOperation(acts: seq<Action>, i: nat, j: nat)
    requires i < |Run(acts).log| && j < |Run(acts).log|
    requires Run(acts).log[i].ExecutorCalled? && Run(acts).log[j].ExecutorCalled?
    requires Run(acts).log[i].operationId == Run(acts).log[j].operationId
    ensures i == j
  {
    var s := Run(acts);
    RunsKeepInv(acts);
    assert EventOk(s, s.log[i]) && EventOk(s, s.log[j]);
    if i < j {
      ExecutorRunsAtMostOnce(acts, i, j);
    } else if j < i {
      ExecutorRunsAtMostOnce(acts, j, i);
    }
  }

  /** Entry `i` is the only executor call under this operation id. */
  ghost predicate IsTheCall(log: seq<Event>, i: int, op: Hash) {
    && 0 <= i < |log| && log[i].ExecutorCalled? && log[i].operationId == op
    && forall j :: 0 <= j < |log| && log[j].ExecutorCalled? && log[j].operationId == op ==> j == i
  }

  /**
   In a run without recovery every successful return is preceded by an executor call with its
   operation id, and that is the only call with this id in the whole run.
   */
  lemma SuccessMeansOneExecution(acts: seq<Action>, j: nat)
    requires NoRecovery(acts) && j < |Run(acts).log| && Run(acts).log[j].CallReturned?
    ensures exists i :: 0 <= i < j && IsTheCall(Run(acts).log, i, Run(acts).log[j].execution.operationId)
  {
    var log := Run(acts).log;
    var op := log[j].execution.operationId;
    RunsAreBacked(acts);
    assert ReturnBacked(log, j);
    var i :| 0 <= i < |log[..j]| && log[..j][i].ExecutorCalled? && log[..j][i].operationId == op;
    forall m | 0 <= m < |log| && log[m].ExecutorCalled? && log[m].operationId == op ensures m == i {
      OneCallPerOperation(acts, m, i);
    }
    assert IsTheCall(log, i, op);
  }
}
