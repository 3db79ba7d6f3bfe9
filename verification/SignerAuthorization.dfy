/**
 The wrapper that binds a signer request to a challenge: seven checks, one execution under the
 request's hash, and the authorization read back from the stored result. How a transaction is
 authorized and how a stored payload is read back are parameters.
 */
module SignerAuthorization {
  import opened Wrappers
  import opened Challenges
  import opened Ledger
  import opened Issuer
  import opened ReplayService
  import opened AuthorizationRuns
  import opened AuthorizationSafety
  import opened LedgerAnswers
  import opened AuthorizationAnswers
  import StringOrder

  /** The digest the wrapper binds a call to; the program set is hashed as a sorted list. */
  function HashRequest(sorted: seq<string>, r: SignerRequest): Hash {
    RequestHash(r.body, sorted)
  }

  ghost function Pr141RequestHash(r: SignerRequest): Hash {
    HashRequest(StringOrder.Sorted(r.allowedProgramIds), r)
  }

  lemma RequestHashIsInjective(r: SignerRequest, r': SignerRequest)
    requires Pr141RequestHash(r) == Pr141RequestHash(r')
    ensures r == r'
  {
    StringOrder.SortedIsInjective(r.allowedProgramIds, r'.allowedProgramIds);
  }

  /** The checks in the order they are made; the last one is the trusted nonce. */
  function Checks(c: Challenge, r: SignerRequest): (checks: seq<bool>)
    ensures |checks| == 7
  {
    [c.payload.domain == SignerTransaction,
     r.body.authorizationId == c.payload.challengeId,
     r.body.attemptId == c.payload.attemptId,
     r.body.attemptGeneration == c.payload.attemptGeneration,
     r.body.policyBundleHash == c.payload.policyBundleHash,
     r.body.decodedMessage.messageSha256 == c.payload.operationHash,
     r.body.nonceDigest == c.payload.nonceDigest]
  }

  /** All but the nonce is for this challenge. */
  predicate IsBoundButNonce(c: Challenge, r: SignerRequest) {
    && c.payload.domain == SignerTransaction
    && r.body.authorizationId == c.payload.challengeId
    && r.body.attemptId == c.payload.attemptId
    && r.body.attemptGeneration == c.payload.attemptGeneration
    && r.body.policyBundleHash == c.payload.policyBundleHash
    && r.body.decodedMessage.messageSha256 == c.payload.operationHash
  }

  /** The request is for this challenge. */
  predicate IsBound(c: Challenge, r: SignerRequest) {
    IsBoundButNonce(c, r) && r.body.nonceDigest == c.payload.nonceDigest
  }

  lemma FirstSixChecks(c: Challenge, r: SignerRequest)
    ensures IsBoundButNonce(c, r) <==> forall i :: 0 <= i < 6 ==> Checks(c, r)[i]
    ensures r.body.nonceDigest == c.payload.nonceDigest <==> Checks(c, r)[6]
  {
    var k := Checks(c, r);
    assert (forall i :: 0 <= i < 6 ==> k[i]) ==> k[0] && k[1] && k[2] && k[3] && k[4] && k[5];
  }

  method CheckBinding(c: Challenge, r: SignerRequest) returns (failure: Option<Failure>)
    ensures failure.None? <==> IsBound(c, r)
    ensures failure.Some? ==> failure.value == if IsBoundButNonce(c, r) then BadNonce else BadBinding
  {
    var checks := Checks(c, r);
    FirstSixChecks(c, r);
    for n := 0 to |checks|
      invariant forall i :: 0 <= i < n ==> checks[i]
    {
      if !checks[n] {
        return Some(if n == 6 then BadNonce else BadBinding);
      }
    }
    return None;
  }

  datatype Authorized<+A> = Authorized(call: Call<A>, executed: bool)

  /** One call of the wrapper over the ledger's rows. */
  ghost function AuthorizeOnce<A>(
    svc: Service, rows: Rows, c: Challenge, r: SignerRequest, a: Attempt, read: PayloadText -> Result<A, Failure>)
    : Authorized<A>
  {
    if !IsBound(c, r) then
      Authorized(Call(rows, Failure(if IsBoundButNonce(c, r) then BadNonce else BadBinding)), false)
    else
      var ran := ExecuteOnce(svc, rows, c, Pr141RequestHash(r), a);
      match ran.call.outcome
      case Failure(f) => Authorized(Call(ran.call.rows, Failure(f)), ran.executed)
      case Success(e) => Authorized(Call(ran.call.rows, read(e.result.payload)), ran.executed)
  }

  method AuthorizePr141Once<A>(
    service: AuthorizationReplayService, c: Challenge, r: SignerRequest, a: Attempt,
    read: PayloadText -> Result<A, Failure>)
    returns (res: Result<A, Failure>, executed: bool)
    modifies service.ledger
    ensures Authorized(Call(service.ledger.rows, res), executed) ==
            AuthorizeOnce(service.service, old(service.ledger.rows), c, r, a, read)
  {
    var failure := CheckBinding(c, r);
    if failure.Some? {
      return Failure(failure.value), false;
    }
    var sorted := StringOrder.SortNames(r.allowedProgramIds);
    var execution;
    execution, executed := service.ExecuteOnceWith(c, HashRequest(sorted, r), a);
    if execution.Failure? {
      return Failure(execution.error), executed;
    }
    res := read(execution.value.result.payload);
  }

  /** A request for another challenge reaches neither the ledger nor the signer. */
  lemma UnboundRequestDoesNothing<A>(
    svc: Service, rows: Rows, c: Challenge, r: SignerRequest, a: Attempt, read: PayloadText -> Result<A, Failure>)
    ensures !IsBound(c, r) ==>
              && AuthorizeOnce(svc, rows, c, r, a, read).call.outcome.Failure?
              && AuthorizeOnce(svc, rows, c, r, a, read).call.rows == rows
              && !AuthorizeOnce(svc, rows, c, r, a, read).executed
  {
  }

  /** A bound request on a fresh challenge is authorized by one execution, as the signer's result reads back. */
  lemma BoundRequestAuthorizes<A>(
    svc: Service, rows: Rows, c: Challenge, r: SignerRequest, a: Attempt, read: PayloadText -> Result<A, Failure>,
    result: AuthorizationResult)
    requires IsBound(c, r) && IsFresh(svc, rows, c, Pr141RequestHash(r), a) && IsSealed(result)
    requires a.executor(OperationId(c, Pr141RequestHash(r))) == Returns(result)
    ensures var made := AuthorizeOnce(svc, rows, c, r, a, read);
            && made.executed && made.call.outcome == read(result.payload)
            && OnlyRow(rows, made.call.rows, c.payload.challengeId)
            && made.call.rows[c.payload.challengeId].state == Consumed
            && Stores(made.call.rows[c.payload.challengeId], result)
  {
    FreshExecutionConsumes(svc, rows, c, Pr141RequestHash(r), a, result);
  }

  /**
   Once a request was authorized, a later call on the challenge before its expiry authorizes only
   the same request, field by field; it gives the same authorization and runs no signer.
   */
  lemma AuthorizedRequestIsFinal<A>(
    svc: Service, rows: Rows, c: Challenge, r: SignerRequest, a: Attempt, other: SignerRequest, later: Attempt,
    read: PayloadText -> Result<A, Failure>)
    requires AuthorizeOnce(svc, rows, c, r, a, read).call.outcome.Success?
    requires later.nowNs < c.payload.expiresAtNs
    ensures var first := AuthorizeOnce(svc, rows, c, r, a, read).call;
            var second := AuthorizeOnce(svc, first.rows, c, other, later, read);
            && (second.call.outcome.Success? <==> other == r)
            && (other == r ==> second.call.outcome == first.outcome)
            && second.call.rows == first.rows && !second.executed
  {
    if other == r {
      ExactRetryReplays(svc, rows, c, Pr141RequestHash(r), a, later);
    } else {
      if Pr141RequestHash(other) == Pr141RequestHash(r) {
        RequestHashIsInjective(other, r);
      }
      if IsBound(c, other) {
        OtherRequestIsReplayed(svc, rows, c, Pr141RequestHash(r), a, Pr141RequestHash(other), later);
      }
    }
  }

  /**
   Over whole runs: two successful returns for one challenge that were made through the wrapper
   were made for the same request, field by field, and read back to the same authorization.
   */
  lemma SignerReturnsAgree<A>(
    acts: seq<Action>, i: nat, j: nat, r: SignerRequest, r': SignerRequest, read: PayloadText -> Result<A, Failure>)
    requires i < j < |Run(acts).log|
    requires Run(acts).log[i].CallReturned? && Run(acts).log[j].CallReturned?
    requires Run(acts).log[i].execution.challengeId == Run(acts).log[j].execution.challengeId
    requires Run(acts).log[i].requestHash == Pr141RequestHash(r)
    requires Run(acts).log[j].requestHash == Pr141RequestHash(r')
    ensures r == r'
    ensures read(Run(acts).log[i].execution.result.payload) == read(Run(acts).log[j].execution.result.payload)
  {
    ReturnsAgree(acts, i, j);
    RequestHashIsInjective(r, r');
  }
}
