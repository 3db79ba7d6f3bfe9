/** The guarantees of the replay service over every run, with crashes and revocations. */
module AuthorizationSafety {
  import opened Wrappers
  import opened Challenges
  import opened Ledger
  import opened Issuer
  import opened ReplayService
  import opened AuthorizationRuns
  import opened AuthorizationInvariant
  import opened AuthorizationPreservation

  /** Two executor calls in one run are for different challenges and different nonces. */
  lemma ExecutorRunsAtMostOnce(acts: seq<Action>, i: nat, j: nat)
    requires i < j < |Run(acts).log|
    requires Run(acts).log[i].ExecutorCalled? && Run(acts).log[j].ExecutorCalled?
    ensures Run(acts).log[i].challengeId != Run(acts).log[j].challengeId
    ensures Run(acts).log[i].nonceDigest != Run(acts).log[j].nonceDigest
  {
    var s := Run(acts);
    RunsKeepInv(acts);
    assert !Clash(s.log[i], s.log[j]);
    assert EventOk(s, s.log[i]) && EventOk(s, s.log[j]);
  }

  /** Two clients settled on one row share its request and its result. */
  lemma SettledAgree(s: System, k: nat, r: Request, x: Execution, k': nat, r': Request, x': Execution)
    requires Settled(s, k, r, x) && Settled(s, k', r', x') && x.challengeId == x'.challengeId
    ensures x.operationId == x'.operationId && r.requestHash == r'.requestHash && x.result == x'.result
    ensures k != k' ==> x.replayed || x'.replayed
  {
  }

  lemma ReturnedClientIsSettled(acts: seq<Action>, i: nat)
    requires i < |Run(acts).log| && Run(acts).log[i].CallReturned?
    ensures var s, e := Run(acts), Run(acts).log[i];
            && e.client in s.clients && s.clients[e.client].request.requestHash == e.requestHash
            && Settled(s, e.client, s.clients[e.client].request, e.execution)
  {
    var s := Run(acts);
    RunsKeepInv(acts);
    var e := s.log[i];
    assert EventOk(s, e);
    assert ClientOk(s, e.client, s.clients[e.client]);
  }

  lemma ReturnsAreApart(acts: seq<Action>, i: nat, j: nat)
    requires i < j < |Run(acts).log|
    requires Run(acts).log[i].CallReturned? && Run(acts).log[j].CallReturned?
    ensures Run(acts).log[i].client != Run(acts).log[j].client
  {
    RunsKeepInv(acts);
    assert !Clash(Run(acts).log[i], Run(acts).log[j]);
  }

  /**
   All successful returns for one challenge carry the same operation id, request hash and
   result, and at most one of them says it was not replayed.
   */
  lemma ReturnsAgree(acts: seq<Action>, i: nat, j: nat)
    requires i < j < |Run(acts).log|
    requires Run(acts).log[i].CallReturned? && Run(acts).log[j].CallReturned?
    requires Run(acts).log[i].execution.challengeId == Run(acts).log[j].execution.challengeId
    ensures var e, e' := Run(acts).log[i], Run(acts).log[j];
            && e.execution.operationId == e'.execution.operationId
            && e.requestHash == e'.requestHash
            && e.execution.result == e'.execution.result
            && (e.execution.replayed || e'.execution.replayed)
  {
    var s := Run(acts);
    var e, e' := s.log[i], s.log[j];
    ReturnedClientIsSettled(acts, i);
    ReturnedClientIsSettled(acts, j);
    ReturnsAreApart(acts, i, j);
    SettledAgree(s, e.client, s.clients[e.client].request, e.execution,
                 e'.client, s.clients[e'.client].request, e'.execution);
  }

  /** Every reachable row has the columns its state calls for; nonces are never shared. */
  lemma ReachableRowsAreShaped(acts: seq<Action>, id: string)
    requires id in Run(acts).rows
    ensures RowShape(id, Run(acts).rows[id])
    ensures forall other :: other in Run(acts).rows && other != id ==>
                              Run(acts).rows[other].issued.nonceDigest !=
                              Run(acts).rows[id].issued.nonceDigest
  {
    RunsKeepInv(acts);
  }

  /** No call of the service ever moves a row to EXPIRED: verify refuses first. */
  lemma ExpiredIsNeverEntered(acts: seq<Action>, id: string)
    requires id in Run(acts).rows
    ensures Run(acts).rows[id].state != Expired
  {
    RunsKeepInv(acts);
  }

  predicate ReportsCorruptStore(f: Failure) {
    f == StoreError || f == ResultInvalid || f == InvalidValue
  }

  lemma ShapedRowsAnswerCleanly(id: string, row: Row, op: Hash, h: Hash, result: AuthorizationResult)
    requires RowShape(id, row)
    ensures row.state != Issued && AnswerReserve(row, op, h).Failure? ==>
              !ReportsCorruptStore(AnswerReserve(row, op, h).error)
    ensures AnswerFinalize(row, id, op, h, result).Failure? ==>
              !ReportsCorruptStore(AnswerFinalize(row, id, op, h, result).error)
  {
  }

  lemma ShapedLedgerReservesCleanly(rows: Rows, c: Challenge, op: Hash, h: Hash, t: int)
    requires c.payload.challengeId in rows ==> RowShape(c.payload.challengeId, rows[c.payload.challengeId])
    ensures var reserved := Reserve(rows, c, op, h, t).outcome;
            reserved.Failure? ==> !ReportsCorruptStore(reserved.error)
  {
    if CheckedRow(rows, c).Success? {
      var row := CheckedRow(rows, c).value;
      if row.state == Issued {
      } else {
        var id := c.payload.challengeId;
        ShapedRowsAnswerCleanly(id, row, op, h, AuthorizationResult("", RejectedText(""), Text("")));
      }
    }
  }

  lemma ShapedLedgerFinalizesCleanly(
    rows: Rows, c: Challenge, op: Hash, h: Hash, result: AuthorizationResult, t: int)
    requires c.payload.challengeId in rows ==> RowShape(c.payload.challengeId, rows[c.payload.challengeId])
    requires ValidResult(result)
    ensures var finalized := Finalize(rows, c, op, h, result, t).outcome;
            finalized.Failure? ==> !ReportsCorruptStore(finalized.error)
  {
    if CheckedRow(rows, c).Success? {
      ShapedRowsAnswerCleanly(c.payload.challengeId, CheckedRow(rows, c).value, op, h, result);
    }
  }

  /** The errors for a consumed row without a valid stored result are unreachable. */
  lemma StoredResultsAreNeverMissing(
    acts: seq<Action>, c: Challenge, op: Hash, h: Hash, result: AuthorizationResult, t: int)
    requires ValidResult(result)
    ensures var reserved := Reserve(Run(acts).rows, c, op, h, t).outcome;
            reserved.Failure? ==> !ReportsCorruptStore(reserved.error)
    ensures var finalized := Finalize(Run(acts).rows, c, op, h, result, t).outcome;
            finalized.Failure? ==> !ReportsCorruptStore(finalized.error)
  {
    if c.payload.challengeId in Run(acts).rows {
      ReachableRowsAreShaped(acts, c.payload.challengeId);
    }
    ShapedLedgerReservesCleanly(Run(acts).rows, c, op, h, t);
    ShapedLedgerFinalizesCleanly(Run(acts).rows, c, op, h, result, t);
  }

  // ----- Whole transactions -----

  /** With nothing in between, a reserve UPDATE chosen by the read always finds its row. */
  lemma WholeReserveWinsItsRace(rows: Rows, c: Challenge, op: Hash, h: Hash, t: int)
    requires ReserveRead(rows, c, op, h, t).TryReserve?
    ensures ReserveGuard(rows, c.payload.challengeId)
  {
  }

  lemma WholeFinalizeWinsItsRace(rows: Rows, c: Challenge, op: Hash, h: Hash, result: AuthorizationResult)
    requires FinalizeRead(rows, c, op, h, result).TryFinalize?
    ensures FinalizeGuard(rows, c.payload.challengeId, op, h)
  {
  }

  lemma TwoSteps(s: System, a: Action, b: Action)
    ensures RunFrom(s, [a, b]) == Step(Step(s, a), b)
  {
    assert [a, b][..1] == [a] && [a][..0] == [];
    assert RunFrom(s, [a]) == Step(s, a);
  }

  function ReservePhase(r: Request, outcome: Result<Reservation, Failure>): Phase {
    match outcome
    case Failure(f) => Raised(f)
    case Success(AcquiredReservation) => Acquired
    case Success(ReplayOf(stored)) => Committed(Execution(r.Id(), r.Op(), stored, true))
  }

  function FinalizePhase(outcome: Result<Execution, Failure>): Phase {
    match outcome
    case Failure(f) => Raised(f)
    case Success(e) => Committed(e)
  }

  lemma ReserveActionsStep(s: System, m: System, k: nat)
    requires k in s.clients && s.clients[k].phase.Verified? && k in m.clients
    ensures Step(s, ReserveReadAction(k)) == ReserveReadStep(s, k)
    ensures Step(m, ReserveUpdateAction(k)) ==
            if m.clients[k].phase.ReserveChosen? then ReserveUpdateStep(m, k) else m
  {
  }

  lemma FinalizeActionsStep(s: System, m: System, k: nat, nowNs: int)
    requires k in s.clients && s.clients[k].phase.HasResult? && k in m.clients
    ensures Step(s, FinalizeReadAction(k)) == FinalizeReadStep(s, k)
    ensures Step(m, FinalizeUpdateAction(k, nowNs)) ==
            if m.clients[k].phase.FinalizeChosen? then FinalizeUpdateStep(m, k, nowNs) else m
  {
  }

  lemma ReserveHalvesRun(s: System, k: nat)
    requires k in s.clients && s.clients[k].phase.Verified?
    ensures var m := ReserveReadStep(s, k);
            RunFrom(s, [ReserveReadAction(k), ReserveUpdateAction(k)]) ==
            if m.clients[k].phase.ReserveChosen? then ReserveUpdateStep(m, k) else m
  {
    TwoSteps(s, ReserveReadAction(k), ReserveUpdateAction(k));
    ReserveActionsStep(s, ReserveReadStep(s, k), k);
  }

  lemma FinalizeHalvesRun(s: System, k: nat, nowNs: int)
    requires k in s.clients && s.clients[k].phase.HasResult?
    ensures var m := FinalizeReadStep(s, k);
            RunFrom(s, [FinalizeReadAction(k), FinalizeUpdateAction(k, nowNs)]) ==
            if m.clients[k].phase.FinalizeChosen? then FinalizeUpdateStep(m, k, nowNs) else m
  {
    TwoSteps(s, FinalizeReadAction(k), FinalizeUpdateAction(k, nowNs));
    FinalizeActionsStep(s, FinalizeReadStep(s, k), k, nowNs);
  }

  lemma ReserveStepsMakeTheCall(s: System, k: nat)
    requires k in s.clients && s.clients[k].phase.Verified?
    ensures var r := s.clients[k].request;
            var m := ReserveReadStep(s, k);
            var s' := if m.clients[k].phase.ReserveChosen? then ReserveUpdateStep(m, k) else m;
            var call := Reserve(s.rows, r.c, r.Op(), r.requestHash, s.clients[k].nowNs);
            s'.rows == call.rows && s'.clients[k].phase == ReservePhase(r, call.outcome)
  {
    var r := s.clients[k].request;
    if ReserveRead(s.rows, r.c, r.Op(), r.requestHash, s.clients[k].nowNs).TryReserve? {
      WholeReserveWinsItsRace(s.rows, r.c, r.Op(), r.requestHash, s.clients[k].nowNs);
    }
  }

  lemma FinalizeStepsMakeTheCall(s: System, k: nat, nowNs: int)
    requires k in s.clients && s.clients[k].phase.HasResult?
    ensures var r := s.clients[k].request;
            var m := FinalizeReadStep(s, k);
            var s' := if m.clients[k].phase.FinalizeChosen? then FinalizeUpdateStep(m, k, nowNs) else m;
            var call := Finalize(s.rows, r.c, r.Op(), r.requestHash, s.clients[k].phase.result, nowNs);
            s'.rows == call.rows && s'.clients[k].phase == FinalizePhase(call.outcome)
  {
    var r := s.clients[k].request;
    var result := s.clients[k].phase.result;
    if FinalizeRead(s.rows, r.c, r.Op(), r.requestHash, result).TryFinalize? {
      WholeFinalizeWinsItsRace(s.rows, r.c, r.Op(), r.requestHash, result);
    }
  }

  /** The two halves in sequence are exactly the ledger object's reserve call. */
  lemma ReserveHalvesMakeTheCall(s: System, k: nat)
    requires k in s.clients && s.clients[k].phase.Verified?
    ensures var r := s.clients[k].request;
            var s' := RunFrom(s, [ReserveReadAction(k), ReserveUpdateAction(k)]);
            var call := Reserve(s.rows, r.c, r.Op(), r.requestHash, s.clients[k].nowNs);
            s'.rows == call.rows && k in s'.clients && s'.clients[k].phase == ReservePhase(r, call.outcome)
  {
    ReserveHalvesRun(s, k);
    ReserveStepsMakeTheCall(s, k);
  }

  /** The two halves in sequence are exactly the ledger object's finalize call. */
  lemma FinalizeHalvesMakeTheCall(s: System, k: nat, nowNs: int)
    requires k in s.clients && s.clients[k].phase.HasResult?
    ensures var r := s.clients[k].request;
            var s' := RunFrom(s, [FinalizeReadAction(k), FinalizeUpdateAction(k, nowNs)]);
            var call := Finalize(s.rows, r.c, r.Op(), r.requestHash, s.clients[k].phase.result, nowNs);
            s'.rows == call.rows && k in s'.clients && s'.clients[k].phase == FinalizePhase(call.outcome)
  {
    FinalizeHalvesRun(s, k, nowNs);
    FinalizeStepsMakeTheCall(s, k, nowNs);
  }

  // ----- After the executor -----

  lemma HeldRowStaysOpen(s: System, k: nat, r: Request)
    requires Holds(s, k, r) && RowShape(r.Id(), s.rows[r.Id()]) && s.rows[r.Id()].state != Expired
    requires LogOk(s)
    ensures s.rows[r.Id()].reservedOperationId == Some(r.Op())
    ensures ChallengeRevoked(r.Id()) !in s.log ==>
              s.rows[r.Id()].state == Reserved || s.rows[r.Id()].state == Consumed
  {
  }

  /** After an executor call, and without a revocation, the row is reserved or consumed. */
  lemma ExecutedRowsStayOpen(acts: seq<Action>, i: nat)
    requires i < |Run(acts).log| && Run(acts).log[i].ExecutorCalled?
    ensures var s := Run(acts);
            var id := s.log[i].challengeId;
            && id in s.rows
            && s.rows[id].reservedOperationId == Some(s.log[i].operationId)
            && (ChallengeRevoked(id) !in s.log ==>
                  s.rows[id].state == Reserved || s.rows[id].state == Consumed)
  {
    var s := Run(acts);
    RunsKeepInv(acts);
    assert EventOk(s, s.log[i]);
    HeldRowStaysOpen(s, s.log[i].client, s.clients[s.log[i].client].request);
  }
}
