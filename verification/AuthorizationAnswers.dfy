/**
 What a call of the service answers, said of the challenge, the row and the executor: the
 fresh execution, every way it can fail, and the challenge's way from issue to consumption.
 */
module AuthorizationAnswers {
  import opened Wrappers
  import opened Challenges
  import opened Ledger
  import opened LedgerAnswers
  import opened Issuer
  import opened ReplayService
  import Base64Url
  import Nonce

  // ----- Names and digests -----

  predicate IsLetterOrDigit(c: char) {
    48 <= c as int <= 57 || 65 <= c as int <= 90 || 97 <= c as int <= 122
  }

  /** 1 to 128 characters: a letter or digit, then letters, digits and the marks . _ : / - */
  lemma IdentifiersAre(s: string)
    ensures IsIdentifier(s) <==>
            && 1 <= |s| <= 128 && IsLetterOrDigit(s[0])
            && forall i :: 0 < i < |s| ==> IsLetterOrDigit(s[i]) || s[i] in {'.', '_', ':', '/', '-'}
  {
  }

  /** A supplied digest is 64 hexadecimal digits in small letters; a computed one always passes. */
  lemma DigestsAre(h: Hash)
    ensures IsSha256Hex(h) <==>
            (h.Text? ==>
               && |h.text| == 64
               && forall i :: 0 <= i < 64 ==> 48 <= h.text[i] as int <= 57 || 97 <= h.text[i] as int <= 102)
  {
  }

  // ----- Issuing -----

  /** A challenge carries its request, its service, its nonce and its times, all under the tag. */
  lemma ChallengeCarriesRequest(svc: Service, req: IssueRequest, uuid: string, nonce: seq<byte>, nowNs: int)
    requires MakeChallenge(svc, req, uuid, nonce, nowNs).Success?
    ensures var c := MakeChallenge(svc, req, uuid, nonce, nowNs).value;
            var p := c.payload;
            && p.domain == req.domain && p.purpose == req.purpose && p.releaseId == req.releaseId
            && p.policyBundleHash == req.policyBundleHash && p.operationHash == req.operationHash
            && p.attemptId == req.attemptId && p.attemptGeneration == req.attemptGeneration
            && p.issuerId == svc.issuerId && p.issuerKeyId == svc.issuerKeyId
            && p.environment == svc.environment && p.cluster == svc.cluster
            && p.challengeId == "authz_" + uuid && p.schemaVersion == "pr201.authorization-replay.v1"
            && Base64Url.Decode(p.nonceB64) == Some(nonce) && p.nonceDigest == NonceHash(nonce)
            && p.issuedAtNs == nowNs && p.expiresAtNs == nowNs + req.ttlNs
            && c.authorityTag == Mac(svc.macKey, p)
  {
    Base64Url.DecodeInvertsEncode(nonce);
  }

  /** Which requests are issued: names, a generation not below zero, digests, at most 15 minutes. */
  lemma IssueIsRefusedUnless(svc: Service, req: IssueRequest, uuid: string, nonce: seq<byte>, nowNs: int)
    ensures var stated := && IsIdentifier(req.purpose) && IsIdentifier(req.releaseId) && IsIdentifier(req.attemptId)
                          && req.attemptGeneration >= 0 && IsSha256Hex(req.policyBundleHash)
                          && IsSha256Hex(req.operationHash) && 1 <= req.ttlNs <= 900_000_000_000;
            var made := MakeChallenge(svc, req, uuid, nonce, nowNs);
            && (made.Success? <==> stated && Nonce.Accepted(nonce))
            && (made.Failure? ==> made.error == if stated then BadNonce else InvalidValue)
  {
  }

  // ----- Verifying -----

  predicate IsThisService(svc: Service, p: Unsigned) {
    && p.schemaVersion == "pr201.authorization-replay.v1"
    && p.issuerId == svc.issuerId && p.issuerKeyId == svc.issuerKeyId
    && p.environment == svc.environment && p.cluster == svc.cluster
  }

  /** The nonce text decodes to an accepted nonce whose digest is the one presented. */
  predicate HasNonce(p: Unsigned) {
    var nonce := Base64Url.Decode(p.nonceB64);
    nonce.Some? && Nonce.Accepted(nonce.value) && p.nonceDigest == NonceHash(nonce.value)
  }

  /** What is accepted, and what each refusal of a challenge for this service means. */
  lemma VerifyAnswers(svc: Service, c: Challenge, nowNs: int)
    requires IsThisService(svc, c.payload)
    ensures var p, verdict := c.payload, Verify(svc, c, nowNs);
            var signed := HasNonce(p) && c.authorityTag == Mac(svc.macKey, p);
            && (verdict.Success? <==> signed && p.issuedAtNs < p.expiresAtNs && nowNs < p.expiresAtNs)
            && (verdict == Failure(BadNonce) <==> !HasNonce(p))
            && (verdict == Failure(BadAuthority) <==> HasNonce(p) && !signed)
            && (verdict == Failure(BadChallenge) <==> signed && p.expiresAtNs <= p.issuedAtNs)
            && (verdict == Failure(ExpiredFailure) <==> signed && p.issuedAtNs < p.expiresAtNs <= nowNs)
  {
  }

  /** A challenge of another schema, issuer or place is refused before anything else is looked at. */
  lemma ForeignChallenges(svc: Service, c: Challenge, nowNs: int)
    ensures var p, verdict := c.payload, Verify(svc, c, nowNs);
            && (p.schemaVersion != "pr201.authorization-replay.v1" ==> verdict == Failure(BadChallenge))
            && (p.schemaVersion == "pr201.authorization-replay.v1" ==>
                  && (p.issuerId != svc.issuerId || p.issuerKeyId != svc.issuerKeyId ==>
                        verdict == Failure(BadAuthority))
                  && (p.issuerId == svc.issuerId && p.issuerKeyId == svc.issuerKeyId ==>
                        (verdict == Failure(BadBinding) <==>
                         p.environment != svc.environment || p.cluster != svc.cluster)))
  {
  }

  /** Another service refuses what this one issued: by name, by place, or by key. */
  lemma OtherServiceRefuses(
    svc: Service, other: Service, req: IssueRequest, uuid: string, nonce: seq<byte>, issuedNs: int, nowNs: int)
    requires MakeChallenge(svc, req, uuid, nonce, issuedNs).Success? && other != svc
    ensures Verify(other, MakeChallenge(svc, req, uuid, nonce, issuedNs).value, nowNs) ==
            Failure(if other.issuerId != svc.issuerId || other.issuerKeyId != svc.issuerKeyId then BadAuthority
                    else if other.environment != svc.environment || other.cluster != svc.cluster then BadBinding
                    else BadAuthority)
  {
    MadeNonceChecks(svc, req, uuid, nonce, issuedNs);
  }

  // ----- The fresh execution -----

  /** A call with a well-formed request on an accepted challenge whose row is open. */
  predicate IsFresh(svc: Service, rows: Rows, c: Challenge, h: Hash, a: Attempt) {
    && IsSha256Hex(h) && Verify(svc, c, a.nowNs).Success?
    && CheckedRow(rows, c).Success? && CheckedRow(rows, c).value.state == Issued
    && a.nowNs < CheckedRow(rows, c).value.issued.expiresAtNs
  }

  lemma FreshReserves(svc: Service, rows: Rows, c: Challenge, h: Hash, a: Attempt)
    requires IsFresh(svc, rows, c, h, a)
    ensures var call, id := Reserve(rows, c, OperationId(c, h), h, a.nowNs), c.payload.challengeId;
            && call.outcome == Success(AcquiredReservation) && OnlyRow(rows, call.rows, id)
            && CheckedRow(call.rows, c).Success? && call.rows[id].issued == rows[id].issued
            && call.rows[id].state == Reserved && IsFor(call.rows[id], OperationId(c, h), h)
  {
    ReserveOpen(rows, c, OperationId(c, h), h, a.nowNs);
  }

  /**
   When the executor returns a valid result the call succeeds with it, at every later clock
   reading: the row is consumed by this request and stores the result, and no other row changes.
   */
  lemma FreshExecutionConsumes(
    svc: Service, rows: Rows, c: Challenge, h: Hash, a: Attempt, result: AuthorizationResult)
    requires IsFresh(svc, rows, c, h, a) && IsSealed(result) && a.executor(OperationId(c, h)) == Returns(result)
    ensures var ran, id, op := ExecuteOnce(svc, rows, c, h, a), c.payload.challengeId, OperationId(c, h);
            && ran.executed && ran.call.outcome == Success(Execution(id, op, result, false))
            && OnlyRow(rows, ran.call.rows, id) && ran.call.rows[id].issued == rows[id].issued
            && ran.call.rows[id].state == Consumed && IsFor(ran.call.rows[id], op, h)
            && Stores(ran.call.rows[id], result) && StoredResult(ran.call.rows[id]) == Success(result)
            && ran.call.rows[id].consumedAtNs == Some(a.finishNs)
  {
    var op := OperationId(c, h);
    FreshReserves(svc, rows, c, h, a);
    ValidIffSealed(result);
    FinalizeOwn(Reserve(rows, c, op, h, a.nowNs).rows, c, op, h, result, a.finishNs);
  }

  /** What the executor did, when it is not a valid result, as the error a caller sees. */
  function ErrorOf(outcome: ExecutorOutcome): Failure {
    match outcome
    case RaisesReplayError(f) => f
    case RaisesOtherError => ExecutionUnknown
    case ReturnsOtherValue => ResultInvalid
    case Returns(r) =>
      if r.payload.RejectedText? || (r.payload.ObjectText? && !IsIdentifier(r.kind)) then ExecutionUnknown
      else ResultInvalid
  }

  /** Otherwise the call fails with the executor's error and leaves the reservation standing. */
  lemma FreshExecutionFails(svc: Service, rows: Rows, c: Challenge, h: Hash, a: Attempt)
    requires IsFresh(svc, rows, c, h, a)
    requires var outcome := a.executor(OperationId(c, h)); outcome.Returns? ==> !IsSealed(outcome.result)
    ensures var ran, id, op := ExecuteOnce(svc, rows, c, h, a), c.payload.challengeId, OperationId(c, h);
            && ran.executed && ran.call.outcome == Failure(ErrorOf(a.executor(op)))
            && OnlyRow(rows, ran.call.rows, id)
            && ran.call.rows[id].state == Reserved && IsFor(ran.call.rows[id], op, h)
  {
    var op := OperationId(c, h);
    FreshReserves(svc, rows, c, h, a);
    if a.executor(op).Returns? {
      ValidIffSealed(a.executor(op).result);
    }
  }

  /** A call that is refused before the reservation changes nothing and executes nothing. */
  lemma RefusedCallDoesNothing(svc: Service, rows: Rows, c: Challenge, h: Hash, a: Attempt)
    requires !IsSha256Hex(h) || Verify(svc, c, a.nowNs).Failure?
    ensures var ran := ExecuteOnce(svc, rows, c, h, a);
            && ran.call.rows == rows && !ran.executed && ran.call.outcome.Failure?
            && ran.call.outcome.error == if !IsSha256Hex(h) then BadBinding else Verify(svc, c, a.nowNs).error
  {
  }

  /** On a row that is no longer open nothing executes, and the ledger's answer is the call's. */
  lemma ClosedCallAnswers(svc: Service, rows: Rows, c: Challenge, h: Hash, a: Attempt)
    requires IsSha256Hex(h) && Verify(svc, c, a.nowNs).Success?
    requires CheckedRow(rows, c).Success? && rows[c.payload.challengeId].state != Issued
    ensures var ran, row := ExecuteOnce(svc, rows, c, h, a), rows[c.payload.challengeId];
            && ran.call.rows == rows && !ran.executed
            && (row.state == Reserved ==>
                  ran.call.outcome ==
                  Failure(if IsFor(row, OperationId(c, h), h) then InProgress else ConflictedFailure))
            && (row.state == Revoked ==> ran.call.outcome == Failure(RevokedFailure))
            && (row.state == Conflicted ==> ran.call.outcome == Failure(ConflictedFailure))
            && (row.state == Expired ==> ran.call.outcome == Failure(ExpiredFailure))
            && (row.state == Consumed && !IsFor(row, OperationId(c, h), h) ==> ran.call.outcome == Failure(Replayed))
  {
    ReserveClosed(rows, c, OperationId(c, h), h, a.nowNs);
  }

  /** Recovery of a reservation by its own request, and by any other. */
  lemma RecoveryAnswers(
    svc: Service, rows: Rows, c: Challenge, h: Hash, result: AuthorizationResult, nowNs: int)
    requires Verify(svc, c, nowNs).Success? && CheckedRow(rows, c).Success? && IsSealed(result)
    requires rows[c.payload.challengeId].state != Consumed
    ensures var call, id, op := RecoverResult(svc, rows, c, h, result, nowNs), c.payload.challengeId, OperationId(c, h);
            if rows[id].state == Reserved && IsFor(rows[id], op, h)
            then && call.outcome == Success(Execution(id, op, result, false)) && OnlyRow(rows, call.rows, id)
                 && call.rows[id].state == Consumed && IsFor(call.rows[id], op, h) && Stores(call.rows[id], result)
            else call == Call(rows, Failure(ConflictedFailure))
  {
    if rows[c.payload.challengeId].state == Reserved && IsFor(rows[c.payload.challengeId], OperationId(c, h), h) {
      FinalizeOwn(rows, c, OperationId(c, h), h, result, nowNs);
    } else {
      FinalizeOther(rows, c, OperationId(c, h), h, result, nowNs);
    }
  }

  /** From issue to consumption: what was issued executes once, for any request, before its expiry. */
  lemma IssuedThenExecuted(
    svc: Service, rows: Rows, req: IssueRequest, uuid: string, nonce: seq<byte>, issuedNs: int,
    h: Hash, a: Attempt, result: AuthorizationResult)
    requires Issue(svc, rows, req, uuid, nonce, issuedNs).outcome.Success?
    requires IsSha256Hex(h) && a.nowNs < issuedNs + req.ttlNs && IsSealed(result)
    requires a.executor(OperationId(Issue(svc, rows, req, uuid, nonce, issuedNs).outcome.value, h)) == Returns(result)
    ensures var issued := Issue(svc, rows, req, uuid, nonce, issuedNs);
            var c := issued.outcome.value;
            var ran := ExecuteOnce(svc, issued.rows, c, h, a);
            && ran.executed
            && ran.call.outcome == Success(Execution("authz_" + uuid, OperationId(c, h), result, false))
            && (forall other :: other in rows ==> other in ran.call.rows && ran.call.rows[other] == rows[other])
  {
    var issued := Issue(svc, rows, req, uuid, nonce, issuedNs);
    var c := issued.outcome.value;
    ChallengeCarriesRequest(svc, req, uuid, nonce, issuedNs);
    IssuedChallengesVerify(svc, req, uuid, nonce, issuedNs, a.nowNs);
    RecordingAnswers(rows, c, issuedNs);
    FreshExecutionConsumes(svc, issued.rows, c, h, a, result);
  }
}
