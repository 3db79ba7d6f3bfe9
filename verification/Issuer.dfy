/** Issuing a challenge and verifying one: the issuer's half of the replay service. */
module Issuer {
  import opened Wrappers
  import opened Challenges
  import Base64Url
  import Nonce

  const MAX_TTL_NS := 15 * 60 * 1_000_000_000

  datatype Service = Service(
    issuerId: string, issuerKeyId: string, macKey: seq<byte>, environment: string, cluster: string)

  datatype IssueRequest = IssueRequest(
    domain: Domain, purpose: string, releaseId: string, policyBundleHash: Hash,
    attemptId: string, attemptGeneration: int, operationHash: Hash, ttlNs: int)

  predicate WellFormedRequest(req: IssueRequest) {
    && IsIdentifier(req.purpose) && IsIdentifier(req.releaseId) && IsIdentifier(req.attemptId)
    && req.attemptGeneration >= 0
    && IsSha256Hex(req.policyBundleHash) && IsSha256Hex(req.operationHash)
    && 0 < req.ttlNs <= MAX_TTL_NS
  }

  /** `uuid` and `nonce` are what the random sources returned, `nowNs` what the clock did. */
  function MakeChallenge(svc: Service, req: IssueRequest, uuid: string, nonce: seq<byte>, nowNs: int)
    : Result<Challenge, Failure>
  {
    if !WellFormedRequest(req) then Failure(InvalidValue)
    else if !Nonce.Accepted(nonce) then Failure(BadNonce)
    else
      var payload := Unsigned(
                       SCHEMA_VERSION, "authz_" + uuid, svc.issuerId, svc.issuerKeyId,
                       req.domain, req.purpose, req.releaseId, req.policyBundleHash,
                       req.attemptId, req.attemptGeneration, req.operationHash, svc.environment,
                       svc.cluster, Base64Url.Encode(nonce), NonceHash(nonce),
                       nowNs, nowNs + req.ttlNs);
      Success(Challenge(payload, Mac(svc.macKey, payload)))
  }

  function CheckNonce(payload: Unsigned): Result<(), Failure> {
    match Base64Url.Decode(payload.nonceB64)
    case None => Failure(BadNonce)
    case Some(nonce) =>
      if !Nonce.Accepted(nonce) || NonceHash(nonce) != payload.nonceDigest then Failure(BadNonce)
      else Success(())
  }

  function Verify(svc: Service, c: Challenge, nowNs: int): Result<(), Failure> {
    var p := c.payload;
    if p.schemaVersion != SCHEMA_VERSION then Failure(BadChallenge)
    else if p.issuerId != svc.issuerId || p.issuerKeyId != svc.issuerKeyId then Failure(BadAuthority)
    else if p.environment != svc.environment || p.cluster != svc.cluster then Failure(BadBinding)
    else
      var _ :- CheckNonce(p);
      if c.authorityTag != Mac(svc.macKey, p) then Failure(BadAuthority)
      else if p.expiresAtNs <= p.issuedAtNs then Failure(BadChallenge)
      else if nowNs >= p.expiresAtNs then Failure(ExpiredFailure)
      else Success(())
  }

  lemma MadeNonceChecks(svc: Service, req: IssueRequest, uuid: string, nonce: seq<byte>, issuedNs: int)
    requires MakeChallenge(svc, req, uuid, nonce, issuedNs).Success?
    ensures CheckNonce(MakeChallenge(svc, req, uuid, nonce, issuedNs).value.payload) == Success(())
  {
    Base64Url.DecodeInvertsEncode(nonce);
  }

  /** What a service issues it accepts at every time before the expiry, and at none after. */
  lemma IssuedChallengesVerify(
    svc: Service, req: IssueRequest, uuid: string, nonce: seq<byte>, issuedNs: int, nowNs: int)
    requires MakeChallenge(svc, req, uuid, nonce, issuedNs).Success?
    ensures var c := MakeChallenge(svc, req, uuid, nonce, issuedNs).value;
            Verify(svc, c, nowNs) ==
            if nowNs < issuedNs + req.ttlNs then Success(()) else Failure(ExpiredFailure)
  {
    MadeNonceChecks(svc, req, uuid, nonce, issuedNs);
  }

  /** No other payload passes under an accepted challenge's tag, whichever fields differ. */
  lemma ReusedTagIsRefused(svc: Service, c: Challenge, forged: Unsigned, thenNs: int, nowNs: int)
    requires Verify(svc, c, thenNs).Success? && forged != c.payload
    ensures Verify(svc, Challenge(forged, c.authorityTag), nowNs).Failure?
  {
    assert c.authorityTag == Mac(svc.macKey, c.payload);
  }

  /** Two services that accept the same challenge hold the same key. */
  lemma AcceptedChallengeFixesTheKey(svc: Service, other: Service, c: Challenge, t: int, u: int)
    requires Verify(svc, c, t).Success? && Verify(other, c, u).Success?
    ensures svc == other
  {
    assert c.authorityTag == Mac(svc.macKey, c.payload) == Mac(other.macKey, c.payload);
  }
}
