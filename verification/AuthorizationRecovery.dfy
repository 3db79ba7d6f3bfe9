/** Recovery: a client of the service that accepted the challenge completes what was left reserved. */
module AuthorizationRecovery {
  import opened Wrappers
  import opened Challenges
  import opened Ledger
  import opened Issuer
  import opened ReplayService
  import opened AuthorizationRuns
  import opened AuthorizationInvariant
  import opened AuthorizationPreservation
  import opened AuthorizationFrames
  import opened AuthorizationSafety

  // ----- Executed challenges were accepted by their client's service -----

  /** The service accepts the challenge at every time before its expiry. */
  ghost predicate Accepts(svc: Service, c: Challenge) {
    forall t :: t < c.payload.expiresAtNs ==> Verify(svc, c, t).Success?
  }

  lemma AcceptedOnceIsAccepted(svc: Service, c: Challenge, nowNs: int)
    requires Verify(svc, c, nowNs).Success?
    ensures Accepts(svc, c)
  {
  }

  /** On its way from verification to the executor call. */
  predicate IsApproaching(p: Phase) {
    p.Verified? || p.ReserveChosen? || p.Acquired?
  }

  ghost predicate ClientTrusted(cl: Client) {
    IsApproaching(cl.phase) ==> Accepts(cl.service, cl.request.c)
  }

  ghost predicate EventTrusted(s: System, e: Event) {
    e.ExecutorCalled? ==>
      e.client in s.clients && Accepts(s.clients[e.client].service, s.clients[e.client].request.c)
  }

  ghost predicate Trusted(s: System) {
    && (forall k :: k in s.clients ==> ClientTrusted(s.clients[k]))
    && (forall i :: 0 <= i < |s.log| ==> EventTrusted(s, s.log[i]))
  }

  lemma MovedClientIsTrusted(cl: Client, p: Phase)
    requires ClientTrusted(cl) && MayGo(cl, p)
    ensures ClientTrusted(cl.(phase := p))
  {
    if cl.phase.Started? && p.Verified? {
      AcceptedOnceIsAccepted(cl.service, cl.request.c, cl.nowNs);
    }
  }

  lemma ClientStepKeepsTrust(s: System, s': System, k: nat)
    requires Trusted(s) && ClientStep(s, s', k)
    ensures Trusted(s')
  {
    MovedClientIsTrusted(s.clients[k], s'.clients[k].phase);
    forall i | 0 <= i < |s'.log| ensures EventTrusted(s', s'.log[i]) {
      if i < |s.log| {
        assert s'.log[i] == s.log[i] && EventTrusted(s, s.log[i]);
      }
    }
  }

  lemma OtherActionKeepsTrust(s: System, s': System)
    requires Trusted(s) && s.log <= s'.log
    requires forall i :: |s.log| <= i < |s'.log| ==> s'.log[i].ChallengeRevoked?
    requires forall k :: k in s.clients ==> k in s'.clients && s'.clients[k] == s.clients[k]
    requires forall k :: k in s'.clients && k !in s.clients ==> s'.clients[k].phase.Started?
    ensures Trusted(s')
  {
    forall i | 0 <= i < |s'.log| ensures EventTrusted(s', s'.log[i]) {
      if i < |s.log| {
        assert s'.log[i] == s.log[i] && EventTrusted(s, s.log[i]);
      }
    }
  }

  lemma StepKeepsTrust(s: System, a: Action)
    requires Trusted(s)
    ensures Trusted(Step(s, a))
  {
    if !IsClientAction(a) {
      OtherActionFrames(s, a);
      OtherActionKeepsTrust(s, Step(s, a));
    } else {
      ClientActionFrames(s, a);
      if Step(s, a) != s {
        ClientStepKeepsTrust(s, Step(s, a), a.k);
      }
    }
  }

  lemma {:induction false} RunsAreTrusted(acts: seq<Action>)
    ensures Trusted(Run(acts))
  {
    if acts != [] {
      RunsAreTrusted(acts[..|acts| - 1]);
      StepKeepsTrust(Run(acts[..|acts| - 1]), acts[|acts| - 1]);
    }
  }

  // ----- Completing -----

  /** A recovery client's whole call: start, verify, the two halves of finalize, return. */
  function RecoveryActions(k: nat, svc: Service, r: Request, nowNs: int, laterNs: int): seq<Action> {
    [StartAction(k, svc, r, nowNs), VerifyAction(k), FinalizeReadAction(k),
     FinalizeUpdateAction(k, laterNs), ReturnAction(k)]
  }

  lemma RecoveryRun(svc: Service, s: System, k: nat, r: Request, nowNs: int, laterNs: int)
    ensures RunFrom(s, RecoveryActions(k, svc, r, nowNs, laterNs)) ==
            Step(Step(Step(Step(Step(s, StartAction(k, svc, r, nowNs)), VerifyAction(k)),
                                     FinalizeReadAction(k)), FinalizeUpdateAction(k, laterNs)), ReturnAction(k))
  {
    var a := RecoveryActions(k, svc, r, nowNs, laterNs);
    assert a[..4] == [a[0], a[1], a[2], a[3]] && a[..4][..3] == [a[0], a[1], a[2]];
    assert a[..4][..3][..2] == [a[0], a[1]];
    TwoSteps(s, a[0], a[1]);
    assert RunFrom(s, a[..4][..3]) == Step(RunFrom(s, [a[0], a[1]]), a[2]);
    assert RunFrom(s, a[..4]) == Step(RunFrom(s, a[..4][..3]), a[3]);
  }

  lemma RecoveryVerifies(svc: Service, s: System, k: nat, r: Request, nowNs: int)
    requires k !in s.clients && r.RecoverRequest? && Verify(svc, r.c, nowNs).Success?
    ensures var s2 := Step(Step(s, StartAction(k, svc, r, nowNs)), VerifyAction(k));
            && k in s2.clients && s2.clients[k].request == r && s2.clients[k].phase == HasResult(r.recovered)
            && s2.rows == s.rows
  {
  }

  lemma ReservedRowFinalizes(rows: Rows, c: Challenge, op: Hash, h: Hash, result: AuthorizationResult, nowNs: int)
    requires ValidResult(result) && c.payload.challengeId in rows
    requires rows[c.payload.challengeId].state == Reserved
    requires Matches(rows[c.payload.challengeId], c) && SameRequest(rows[c.payload.challengeId], op, h)
    ensures Finalize(rows, c, op, h, result, nowNs).outcome ==
            Success(Execution(c.payload.challengeId, op, result, false))
  {
  }

  lemma ReturnFollowsCommit(s: System, k: nat, x: Execution)
    requires k in s.clients && s.clients[k].phase == Committed(x)
    ensures var s' := Step(s, ReturnAction(k)); k in s'.clients && s'.clients[k].phase == Returned(x)
  {
  }

  /** The two halves of finalize on a client that holds its result. */
  lemma ReservedResultCommits(s: System, k: nat, laterNs: int)
    requires k in s.clients && s.clients[k].phase.HasResult? && ValidResult(s.clients[k].phase.result)
    requires var r := s.clients[k].request;
             r.Id() in s.rows && s.rows[r.Id()].state == Reserved
             && Matches(s.rows[r.Id()], r.c) && SameRequest(s.rows[r.Id()], r.Op(), r.requestHash)
    ensures var r := s.clients[k].request;
            var s' := Step(Step(s, FinalizeReadAction(k)), FinalizeUpdateAction(k, laterNs));
            k in s'.clients
            && s'.clients[k].phase == Committed(Execution(r.Id(), r.Op(), s.clients[k].phase.result, false))
  {
    var r := s.clients[k].request;
    TwoSteps(s, FinalizeReadAction(k), FinalizeUpdateAction(k, laterNs));
    FinalizeHalvesMakeTheCall(s, k, laterNs);
    ReservedRowFinalizes(s.rows, r.c, r.Op(), r.requestHash, s.clients[k].phase.result, laterNs);
  }

  /** Recovery from any state whose row is reserved for this request. */
  lemma ReservedRowsRecover(svc: Service, s: System, k: nat, r: Request, nowNs: int, laterNs: int)
    requires k !in s.clients && r.RecoverRequest? && ValidResult(r.recovered)
    requires Verify(svc, r.c, nowNs).Success?
    requires r.Id() in s.rows && s.rows[r.Id()].state == Reserved
    requires Matches(s.rows[r.Id()], r.c) && SameRequest(s.rows[r.Id()], r.Op(), r.requestHash)
    ensures var s' := RunFrom(s, RecoveryActions(k, svc, r, nowNs, laterNs));
            k in s'.clients && s'.clients[k].phase == Returned(Execution(r.Id(), r.Op(), r.recovered, false))
  {
    RecoveryRun(svc, s, k, r, nowNs, laterNs);
    var s2 := Step(Step(s, StartAction(k, svc, r, nowNs)), VerifyAction(k));
    RecoveryVerifies(svc, s, k, r, nowNs);
    ReservedResultCommits(s2, k, laterNs);
    ReturnFollowsCommit(Step(Step(s2, FinalizeReadAction(k)), FinalizeUpdateAction(k, laterNs)), k,
                        Execution(r.Id(), r.Op(), r.recovered, false));
  }

  /**
   Once the executor was called for a request, and while the row is still reserved, a fresh
   client that recovers that request, through the service that was called, with any valid result
   before the expiry succeeds: a crash or an executor failure in between makes no difference.
   */
  lemma RecoveryCompletes(
    acts: seq<Action>, i: nat, k: nat, result: AuthorizationResult, nowNs: int, laterNs: int)
    requires i < |Run(acts).log| && Run(acts).log[i].ExecutorCalled?
    requires k !in Run(acts).clients && ValidResult(result)
    requires Run(acts).log[i].challengeId in Run(acts).rows
    requires Run(acts).rows[Run(acts).log[i].challengeId].state == Reserved
    requires nowNs < Run(acts).rows[Run(acts).log[i].challengeId].issued.expiresAtNs
    ensures var s := Run(acts);
            var e := s.log[i];
            e.client in s.clients &&
            var cl := s.clients[e.client];
            var r := RecoverRequest(cl.request.c, cl.request.requestHash, result);
            var s' := RunFrom(s, RecoveryActions(k, cl.service, r, nowNs, laterNs));
            && k in s'.clients
            && s'.clients[k].phase == Returned(Execution(e.challengeId, e.operationId, result, false))
  {
    var s := Run(acts);
    RunsKeepInv(acts);
    RunsAreTrusted(acts);
    var e := s.log[i];
    assert EventOk(s, e) && EventTrusted(s, e);
    var cl := s.clients[e.client];
    var r := cl.request;
    MatchIdentifiesChallenge(r.Id(), s.rows[r.Id()], r.c);
    ReservedRowsRecover(cl.service, s, k, RecoverRequest(r.c, r.requestHash, result), nowNs, laterNs);
  }
}
