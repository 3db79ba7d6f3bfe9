/**
 Every step keeps the invariant, so every run satisfies it. Each step is one or two of
 four small changes: a client moves, a row is updated, a row is inserted, an event is logged.
 */
module AuthorizationPreservation {
  import opened Wrappers
  import opened Challenges
  import opened Ledger
  import opened Issuer
  import opened ReplayService
  import opened AuthorizationRuns
  import opened AuthorizationInvariant

  // ----- The four changes -----

  predicate MayMove(from: Phase, to: Phase) {
    !from.Returned? && (HasExecuted(from) ==> HasExecuted(to))
  }

  lemma EvolvesReflexive(s: System, s': System)
    requires s'.rows == s.rows && s'.reservedBy == s.reservedBy && s'.consumedBy == s.consumedBy
    ensures Evolves(s, s')
  {
  }

  lemma ClientsEvolve(s: System, s': System)
    requires ClientsOk(s) && Evolves(s, s') && s'.clients == s.clients
    ensures ClientsOk(s')
  {
    forall j | j in s'.clients ensures ClientOk(s', j, s'.clients[j]) {
      ClientOkEvolves(s, s', j, s.clients[j]);
    }
  }

  lemma MoveKeepsClients(s: System, k: nat, phase: Phase)
    requires ClientsOk(s) && k in s.clients && ClientOk(s, k, s.clients[k].(phase := phase))
    ensures ClientsOk(Moved(s, k, phase))
  {
    var s' := Moved(s, k, phase);
    EvolvesReflexive(s, s');
    ClientOkEvolves(s, s', k, s'.clients[k]);
    OthersStayOk(s, s', k);
  }

  lemma MoveKeepsLog(s: System, k: nat, phase: Phase)
    requires LogOk(s) && RowsOk(s.rows) && k in s.clients && MayMove(s.clients[k].phase, phase)
    ensures LogOk(Moved(s, k, phase))
  {
    EvolvesReflexive(s, Moved(s, k, phase));
    EventsStayOk(s, Moved(s, k, phase));
  }

  lemma MoveKeepsInv(s: System, k: nat, phase: Phase)
    requires Inv(s) && k in s.clients && MayMove(s.clients[k].phase, phase)
    requires ClientOk(s, k, s.clients[k].(phase := phase))
    ensures Inv(Moved(s, k, phase))
  {
    MoveKeepsClients(s, k, phase);
    MoveKeepsLog(s, k, phase);
  }

  lemma RowsOkUpdate(rows: Rows, id: string, row: Row)
    requires RowsOk(rows) && id in rows
    requires RowShape(id, row) && row.state != Expired && row.issued == rows[id].issued
    ensures RowsOk(rows[id := row])
  {
  }

  lemma RowUpdateEvolves(s: System, s': System, id: string)
    requires id in s.rows && id in s'.rows && s'.rows == s.rows[id := s'.rows[id]]
    requires RowEvolves(s.rows[id], s'.rows[id])
    requires s'.reservedBy == s.reservedBy
             || (id !in s.reservedBy && id in s'.reservedBy
                 && s'.reservedBy == s.reservedBy[id := s'.reservedBy[id]])
    requires s'.consumedBy == s.consumedBy
             || (id !in s.consumedBy && id in s'.consumedBy
                 && s'.consumedBy == s.consumedBy[id := s'.consumedBy[id]])
    ensures Evolves(s, s')
  {
  }

  lemma RowUpdateKeepsLog(s: System, s': System, id: string)
    requires LogOk(s) && RowsOk(s.rows) && Evolves(s, s') && s'.clients == s.clients && s'.log == s.log
    requires id in s.rows && id in s'.rows && s'.rows == s.rows[id := s'.rows[id]]
    requires s'.rows[id].state == Revoked || s'.rows[id].state == Conflicted ==> ChallengeRevoked(id) in s.log
    ensures LogOk(s')
  {
    EventsStayOk(s, s');
  }

  lemma RowUpdateKeepsInv(s: System, s': System, id: string)
    requires Inv(s) && s'.clients == s.clients && s'.log == s.log
    requires id in s.rows && id in s'.rows && s'.rows == s.rows[id := s'.rows[id]]
    requires RowShape(id, s'.rows[id]) && s'.rows[id].state != Expired
    requires Evolves(s, s') && WinnersOk(s')
    requires s'.rows[id].state == Revoked || s'.rows[id].state == Conflicted ==> ChallengeRevoked(id) in s.log
    ensures Inv(s')
  {
    RowsOkUpdate(s.rows, id, s'.rows[id]);
    ClientsEvolve(s, s');
    RowUpdateKeepsLog(s, s', id);
  }

  lemma LogOkAppend(s: System, e: Event)
    requires LogOk(s) && EventOk(s, e)
    requires forall i :: 0 <= i < |s.log| ==> !Clash(s.log[i], e)
    ensures LogOk(s.(log := s.log + [e]))
  {
    var s' := s.(log := s.log + [e]);
    forall i | 0 <= i < |s'.log| ensures EventOk(s', s'.log[i]) {
      assert EventOk(s, s'.log[i]);
    }
    forall id | id in s.rows && ChallengeRevoked(id) in s.log ensures ChallengeRevoked(id) in s'.log {
    }
  }

  lemma AppendKeepsInv(s: System, e: Event)
    requires Inv(s) && EventOk(s, e)
    requires forall i :: 0 <= i < |s.log| ==> !Clash(s.log[i], e)
    ensures Inv(s.(log := s.log + [e]))
  {
    EvolvesReflexive(s, s.(log := s.log + [e]));
    ClientsEvolve(s, s.(log := s.log + [e]));
    LogOkAppend(s, e);
  }

  // ----- Where each step leaves its client -----

  lemma VerifyLands(s: System, k: nat)
    requires k in s.clients && s.clients[k].phase.Started?
    ensures var p := VerifyStep(s, k).clients[k].phase;
            VerifyStep(s, k) == Moved(s, k, p) && ClientOk(s, k, s.clients[k].(phase := p))
  {
  }

  /** In a service run the presented expiry is the row's, so the read never finds it past. */
  lemma ServiceReadsNeverExpire(s: System, k: nat)
    requires RowsOk(s.rows) && k in s.clients && s.clients[k].phase.Verified?
    requires ClientOk(s, k, s.clients[k])
    ensures var r := s.clients[k].request;
            !ReserveRead(s.rows, r.c, r.Op(), r.requestHash, s.clients[k].nowNs).ExpireRow?
  {
    var r := s.clients[k].request;
    if r.Id() in s.rows {
      MatchIdentifiesChallenge(r.Id(), s.rows[r.Id()], r.c);
    }
  }

  lemma ReserveReadLands(s: System, k: nat)
    requires k in s.clients && s.clients[k].phase.Verified? && ClientOk(s, k, s.clients[k])
    requires var r := s.clients[k].request;
             !ReserveRead(s.rows, r.c, r.Op(), r.requestHash, s.clients[k].nowNs).ExpireRow?
    ensures var p := ReserveReadStep(s, k).clients[k].phase;
            ReserveReadStep(s, k) == Moved(s, k, p) && ClientOk(s, k, s.clients[k].(phase := p))
  {
  }

  lemma ExecutorLands(s: System, k: nat, outcome: ExecutorOutcome)
    requires k in s.clients && s.clients[k].phase.Executing? && ClientOk(s, k, s.clients[k])
    ensures var p := ExecutorStep(s, k, outcome).clients[k].phase;
            && ExecutorStep(s, k, outcome) == Moved(s, k, p)
            && MayMove(Executing, p) && ClientOk(s, k, s.clients[k].(phase := p))
  {
  }

  lemma FinalizeReadLands(s: System, k: nat)
    requires k in s.clients && s.clients[k].phase.HasResult? && ClientOk(s, k, s.clients[k])
    ensures var p := FinalizeReadStep(s, k).clients[k].phase;
            && FinalizeReadStep(s, k) == Moved(s, k, p)
            && MayMove(s.clients[k].phase, p) && ClientOk(s, k, s.clients[k].(phase := p))
  {
  }

  // ----- The steps -----

  lemma ReserveReadKeepsInv(s: System, k: nat)
    requires Inv(s) && k in s.clients && s.clients[k].phase.Verified?
    ensures Inv(ReserveReadStep(s, k))
  {
    assert ClientOk(s, k, s.clients[k]);
    ServiceReadsNeverExpire(s, k);
    ReserveReadLands(s, k);
    MoveKeepsInv(s, k, ReserveReadStep(s, k).clients[k].phase);
  }

  lemma ReservedRowShape(id: string, row: Row, r: Request, nowNs: int)
    requires RowShape(id, row) && row.state == Issued && Matches(row, r.c) && IsSha256Hex(r.requestHash)
    ensures RowShape(id, ReservedRow(row, r.Op(), r.requestHash, nowNs))
    ensures RowEvolves(row, ReservedRow(row, r.Op(), r.requestHash, nowNs))
  {
    MatchIdentifiesChallenge(id, row, r.c);
  }

  /** The winning reserve UPDATE alone, before its client moves on. */
  function Acquire(s: System, k: nat, r: Request, nowNs: int): System
    requires r.Id() in s.rows
  {
    s.(rows := s.rows[r.Id() := ReservedRow(s.rows[r.Id()], r.Op(), r.requestHash, nowNs)],
    reservedBy := s.reservedBy[r.Id() := k])
  }

  lemma AcquireEvolves(s: System, k: nat, r: Request, nowNs: int)
    requires WinnersOk(s) && r.Id() in s.rows && RowShape(r.Id(), s.rows[r.Id()])
    requires s.rows[r.Id()].state == Issued
    requires RowEvolves(s.rows[r.Id()], ReservedRow(s.rows[r.Id()], r.Op(), r.requestHash, nowNs))
    ensures Evolves(s, Acquire(s, k, r, nowNs)) && WinnersOk(Acquire(s, k, r, nowNs))
  {
    assert r.Id() !in s.reservedBy;
    RowUpdateEvolves(s, Acquire(s, k, r, nowNs), r.Id());
  }

  lemma AcquireKeepsInv(s: System, k: nat, r: Request, nowNs: int)
    requires Inv(s) && r.Id() in s.rows && s.rows[r.Id()].state == Issued
    requires Matches(s.rows[r.Id()], r.c) && IsSha256Hex(r.requestHash)
    ensures Inv(Acquire(s, k, r, nowNs)) && Holds(Acquire(s, k, r, nowNs), k, r)
  {
    ReservedRowShape(r.Id(), s.rows[r.Id()], r, nowNs);
    AcquireEvolves(s, k, r, nowNs);
    RowUpdateKeepsInv(s, Acquire(s, k, r, nowNs), r.Id());
  }

  lemma ReserveUpdateKeepsInv(s: System, k: nat)
    requires Inv(s) && k in s.clients && s.clients[k].phase.ReserveChosen?
    ensures Inv(ReserveUpdateStep(s, k))
  {
    var r, nowNs := s.clients[k].request, s.clients[k].nowNs;
    assert ClientOk(s, k, s.clients[k]);
    if ReserveGuard(s.rows, r.Id()) {
      AcquireKeepsInv(s, k, r, nowNs);
      MoveKeepsInv(Acquire(s, k, r, nowNs), k, Acquired);
    } else {
      MoveKeepsInv(s, k, Raised(ConflictedFailure));
    }
  }

  lemma ConsumedRowShape(id: string, row: Row, result: AuthorizationResult, nowNs: int)
    requires RowShape(id, row) && row.state == Reserved && ValidResult(result)
    ensures RowShape(id, ConsumedRow(row, result, nowNs))
    ensures RowEvolves(row, ConsumedRow(row, result, nowNs))
    ensures StoredResult(ConsumedRow(row, result, nowNs)) == Success(result)
  {
  }

  /** The winning finalize UPDATE alone, before its client moves on. */
  function Consume(s: System, k: nat, id: string, result: AuthorizationResult, nowNs: int): System
    requires id in s.rows
  {
    s.(rows := s.rows[id := ConsumedRow(s.rows[id], result, nowNs)], consumedBy := s.consumedBy[id := k])
  }

  lemma ConsumeEvolves(s: System, k: nat, id: string, result: AuthorizationResult, nowNs: int)
    requires WinnersOk(s) && id in s.rows && s.rows[id].state == Reserved
    requires RowEvolves(s.rows[id], ConsumedRow(s.rows[id], result, nowNs))
    ensures Evolves(s, Consume(s, k, id, result, nowNs)) && WinnersOk(Consume(s, k, id, result, nowNs))
  {
    assert id !in s.consumedBy;
    RowUpdateEvolves(s, Consume(s, k, id, result, nowNs), id);
  }

  lemma ConsumeSettles(s: System, k: nat, r: Request, result: AuthorizationResult, nowNs: int)
    requires r.Id() in s.rows && RowShape(r.Id(), s.rows[r.Id()]) && ValidResult(result)
    requires FinalizeGuard(s.rows, r.Id(), r.Op(), r.requestHash)
    ensures Settled(Consume(s, k, r.Id(), result, nowNs), k, r, Execution(r.Id(), r.Op(), result, false))
  {
    ConsumedRowShape(r.Id(), s.rows[r.Id()], result, nowNs);
  }

  lemma ConsumeKeepsInv(s: System, k: nat, r: Request, result: AuthorizationResult, nowNs: int)
    requires Inv(s) && ValidResult(result) && FinalizeGuard(s.rows, r.Id(), r.Op(), r.requestHash)
    ensures Inv(Consume(s, k, r.Id(), result, nowNs))
    ensures Settled(Consume(s, k, r.Id(), result, nowNs), k, r, Execution(r.Id(), r.Op(), result, false))
  {
    var id := r.Id();
    ConsumedRowShape(id, s.rows[id], result, nowNs);
    ConsumeEvolves(s, k, id, result, nowNs);
    RowUpdateKeepsInv(s, Consume(s, k, id, result, nowNs), id);
    ConsumeSettles(s, k, r, result, nowNs);
  }

  lemma WinningFinalizeConsumes(s: System, k: nat, nowNs: int)
    requires k in s.clients && s.clients[k].phase.FinalizeChosen?
    requires var r := s.clients[k].request; FinalizeGuard(s.rows, r.Id(), r.Op(), r.requestHash)
    ensures var r, result := s.clients[k].request, s.clients[k].phase.result;
            FinalizeUpdateStep(s, k, nowNs) ==
            Moved(Consume(s, k, r.Id(), result, nowNs), k, Committed(Execution(r.Id(), r.Op(), result, false)))
  {
  }

  lemma LosingFinalizeRaises(s: System, k: nat, nowNs: int)
    requires k in s.clients && s.clients[k].phase.FinalizeChosen?
    requires var r := s.clients[k].request; !FinalizeGuard(s.rows, r.Id(), r.Op(), r.requestHash)
    ensures FinalizeUpdateStep(s, k, nowNs) == Moved(s, k, Raised(ConflictedFailure))
  {
  }

  lemma CommitKeepsInv(s: System, k: nat, e: Execution)
    requires Inv(s) && k in s.clients && s.clients[k].phase.FinalizeChosen?
    requires Settled(s, k, s.clients[k].request, e)
    ensures Inv(Moved(s, k, Committed(e)))
  {
    assert ClientOk(s, k, s.clients[k].(phase := Committed(e)));
    MoveKeepsInv(s, k, Committed(e));
  }

  lemma FinalizeUpdateKeepsInv(s: System, k: nat, nowNs: int)
    requires Inv(s) && k in s.clients && s.clients[k].phase.FinalizeChosen?
    ensures Inv(FinalizeUpdateStep(s, k, nowNs))
  {
    var r, result := s.clients[k].request, s.clients[k].phase.result;
    assert ValidResult(result) by {
      assert ClientOk(s, k, s.clients[k]);
    }
    if FinalizeGuard(s.rows, r.Id(), r.Op(), r.requestHash) {
      WinningFinalizeConsumes(s, k, nowNs);
      ConsumeKeepsInv(s, k, r, result, nowNs);
      CommitKeepsInv(Consume(s, k, r.Id(), result, nowNs), k, Execution(r.Id(), r.Op(), result, false));
    } else {
      LosingFinalizeRaises(s, k, nowNs);
      MoveKeepsInv(s, k, Raised(ConflictedFailure));
    }
  }

  /** The client of an earlier call on the challenge would be this one, already past its call. */
  lemma ExecuteIsFirst(s: System, k: nat)
    requires LogOk(s) && k in s.clients && s.clients[k].phase.Acquired? && Holds(s, k, s.clients[k].request)
    ensures var r := s.clients[k].request;
            var e := ExecutorCalled(k, r.Id(), r.c.payload.nonceDigest, r.Op());
            forall i :: 0 <= i < |s.log| ==> !Clash(s.log[i], e)
  {
    var r := s.clients[k].request;
    var e := ExecutorCalled(k, r.Id(), r.c.payload.nonceDigest, r.Op());
    forall i | 0 <= i < |s.log| ensures !Clash(s.log[i], e) {
      assert EventOk(s, s.log[i]);
    }
  }

  lemma ExecuteKeepsInv(s: System, k: nat)
    requires Inv(s) && k in s.clients && s.clients[k].phase.Acquired?
    ensures Inv(ExecuteStep(s, k))
  {
    var r := s.clients[k].request;
    assert ClientOk(s, k, s.clients[k]);
    ExecuteIsFirst(s, k);
    MoveKeepsInv(s, k, Executing);
    AppendKeepsInv(Moved(s, k, Executing), ExecutorCalled(k, r.Id(), r.c.payload.nonceDigest, r.Op()));
  }

  lemma ReturnIsFirst(s: System, k: nat, x: Execution)
    requires LogOk(s) && k in s.clients && s.clients[k].phase.Committed?
    ensures forall i :: 0 <= i < |s.log| ==>
                          !Clash(s.log[i], CallReturned(k, s.clients[k].request.requestHash, x))
  {
    var e := CallReturned(k, s.clients[k].request.requestHash, x);
    forall i | 0 <= i < |s.log| ensures !Clash(s.log[i], e) {
      assert EventOk(s, s.log[i]);
    }
  }

  lemma ReturnKeepsInv(s: System, k: nat)
    requires Inv(s) && k in s.clients && s.clients[k].phase.Committed?
    ensures Inv(ReturnStep(s, k))
  {
    var x := s.clients[k].phase.execution;
    assert ClientOk(s, k, s.clients[k]);
    ReturnIsFirst(s, k, x);
    MoveKeepsInv(s, k, Returned(x));
    AppendKeepsInv(Moved(s, k, Returned(x)), CallReturned(k, s.clients[k].request.requestHash, x));
  }

  lemma RevokedRowShape(id: string, row: Row, nowNs: int, reason: string)
    requires RowShape(id, row) && row.state != Consumed
    ensures RowShape(id, RevokedRow(row, nowNs, reason))
    ensures RowEvolves(row, RevokedRow(row, nowNs, reason))
  {
  }

  lemma RevokeKeepsInv(s: System, id: string, nowNs: int, reason: string)
    requires Inv(s)
    ensures Inv(RevokeStep(s, id, nowNs, reason))
  {
    if Revoke(s.rows, id, nowNs, reason).outcome.Success? {
      AppendKeepsInv(s, ChallengeRevoked(id));
      var m := s.(log := s.log + [ChallengeRevoked(id)]);
      var s' := RevokeStep(s, id, nowNs, reason);
      RevokedRowShape(id, s.rows[id], nowNs, reason);
      RowUpdateEvolves(m, s', id);
      assert ChallengeRevoked(id) == m.log[|s.log|];
      RowUpdateKeepsInv(m, s', id);
    }
  }

  lemma InsertKeepsRows(rows: Rows, c: Challenge, nowNs: int)
    requires RowsOk(rows) && !Collides(rows, c)
    ensures RowsOk(rows[c.payload.challengeId := NewRow(c, nowNs)])
  {
    assert RowShape(c.payload.challengeId, NewRow(c, nowNs));
  }

  function Insert(s: System, c: Challenge, nowNs: int): System {
    s.(rows := s.rows[c.payload.challengeId := NewRow(c, nowNs)])
  }

  lemma InsertEvolves(s: System, c: Challenge, nowNs: int)
    requires c.payload.challengeId !in s.rows
    ensures Evolves(s, Insert(s, c, nowNs))
  {
  }

  lemma InsertKeepsLog(s: System, c: Challenge, nowNs: int)
    requires RowsOk(s.rows) && LogOk(s) && c.payload.challengeId !in s.rows
    ensures LogOk(Insert(s, c, nowNs))
  {
    InsertEvolves(s, c, nowNs);
    EventsStayOk(s, Insert(s, c, nowNs));
  }

  lemma InsertKeepsInv(s: System, c: Challenge, nowNs: int)
    requires Inv(s) && !Collides(s.rows, c)
    ensures Inv(Insert(s, c, nowNs))
  {
    InsertKeepsRows(s.rows, c, nowNs);
    InsertEvolves(s, c, nowNs);
    ClientsEvolve(s, Insert(s, c, nowNs));
    InsertKeepsLog(s, c, nowNs);
  }

  lemma IssueKeepsInv(svc: Service, s: System, req: IssueRequest, uuid: string, nonce: seq<byte>, nowNs: int)
    requires Inv(s)
    ensures Inv(s.(rows := Issue(svc, s.rows, req, uuid, nonce, nowNs).rows))
  {
    var made := MakeChallenge(svc, req, uuid, nonce, nowNs);
    if made.Success? && !Collides(s.rows, made.value) {
      InsertKeepsInv(s, made.value, nowNs);
    }
  }

  function Joined(s: System, k: nat, svc: Service, r: Request, nowNs: int): System {
    s.(clients := s.clients[k := Client(svc, r, nowNs, Started)])
  }

  lemma StartKeepsLog(s: System, k: nat, svc: Service, r: Request, nowNs: int)
    requires RowsOk(s.rows) && LogOk(s) && k !in s.clients
    ensures LogOk(Joined(s, k, svc, r, nowNs))
  {
    EvolvesReflexive(s, Joined(s, k, svc, r, nowNs));
    EventsStayOk(s, Joined(s, k, svc, r, nowNs));
  }

  lemma StartKeepsInv(s: System, k: nat, svc: Service, r: Request, nowNs: int)
    requires Inv(s) && k !in s.clients
    ensures Inv(Joined(s, k, svc, r, nowNs))
  {
    EvolvesReflexive(s, Joined(s, k, svc, r, nowNs));
    OthersStayOk(s, Joined(s, k, svc, r, nowNs), k);
    StartKeepsLog(s, k, svc, r, nowNs);
  }

  lemma VerifyKeepsInv(s: System, k: nat)
    requires Inv(s) && k in s.clients && s.clients[k].phase.Started?
    ensures Inv(VerifyStep(s, k))
  {
    VerifyLands(s, k);
    MoveKeepsInv(s, k, VerifyStep(s, k).clients[k].phase);
  }

  lemma ExecutorKeepsInv(s: System, k: nat, outcome: ExecutorOutcome)
    requires Inv(s) && k in s.clients && s.clients[k].phase.Executing?
    ensures Inv(ExecutorStep(s, k, outcome))
  {
    assert ClientOk(s, k, s.clients[k]);
    ExecutorLands(s, k, outcome);
    MoveKeepsInv(s, k, ExecutorStep(s, k, outcome).clients[k].phase);
  }

  lemma FinalizeReadKeepsInv(s: System, k: nat)
    requires Inv(s) && k in s.clients && s.clients[k].phase.HasResult?
    ensures Inv(FinalizeReadStep(s, k))
  {
    assert ClientOk(s, k, s.clients[k]);
    FinalizeReadLands(s, k);
    MoveKeepsInv(s, k, FinalizeReadStep(s, k).clients[k].phase);
  }

  lemma StopKeepsInv(s: System, k: nat, p: Phase)
    requires Inv(s) && k in s.clients && !s.clients[k].phase.Returned? && (p.Crashed? || p.Raised?)
    ensures Inv(Moved(s, k, p))
  {
    MoveKeepsInv(s, k, p);
  }

  lemma OutsideStepKeepsInv(s: System, a: Action)
    requires Inv(s) && !IsClientAction(a) && Step(s, a) != s
    ensures Inv(Step(s, a))
  {
    match a
    case IssueAction(svc, req, uuid, nonce, t) => IssueKeepsInv(svc, s, req, uuid, nonce, t);
    case RevokeAction(id, t, reason) => RevokeKeepsInv(s, id, t, reason);
    case StartAction(k, svc, r, t) => StartKeepsInv(s, k, svc, r, t);
  }

  lemma TransactionStepKeepsInv(s: System, a: Action)
    requires Inv(s) && IsTransactionAction(a) && Step(s, a) != s
    ensures Inv(Step(s, a))
  {
    match a
    case ReserveReadAction(k) => ReserveReadKeepsInv(s, k);
    case ReserveUpdateAction(k) => ReserveUpdateKeepsInv(s, k);
    case FinalizeReadAction(k) => FinalizeReadKeepsInv(s, k);
    case FinalizeUpdateAction(k, t) => FinalizeUpdateKeepsInv(s, k, t);
  }

  lemma ClientOnlyStepKeepsInv(s: System, a: Action)
    requires Inv(s) && IsClientAction(a) && !IsTransactionAction(a) && Step(s, a) != s
    ensures Inv(Step(s, a))
  {
    match a
    case VerifyAction(k) => VerifyKeepsInv(s, k);
    case ExecuteAction(k) => ExecuteKeepsInv(s, k);
    case ExecutorAction(k, outcome) => ExecutorKeepsInv(s, k, outcome);
    case ReturnAction(k) => ReturnKeepsInv(s, k);
    case CrashAction(k) => StopKeepsInv(s, k, Crashed);
    case LockTimeoutAction(k) => StopKeepsInv(s, k, Raised(StoreError));
  }

  lemma StepKeepsInv(s: System, a: Action)
    requires Inv(s)
    ensures Inv(Step(s, a))
  {
    if Step(s, a) != s {
      if !IsClientAction(a) {
        OutsideStepKeepsInv(s, a);
      } else if IsTransactionAction(a) {
        TransactionStepKeepsInv(s, a);
      } else {
        ClientOnlyStepKeepsInv(s, a);
      }
    }
  }

  lemma {:induction false} RunsFromKeepInv(s: System, acts: seq<Action>)
    requires Inv(s)
    ensures Inv(RunFrom(s, acts))
  {
    if acts != [] {
      RunsFromKeepInv(s, acts[..|acts| - 1]);
      StepKeepsInv(RunFrom(s, acts[..|acts| - 1]), acts[|acts| - 1]);
    }
  }

  lemma RunsKeepInv(acts: seq<Action>)
    ensures Inv(Run(acts))
  {
    RunsFromKeepInv(EMPTY, acts);
  }
}
