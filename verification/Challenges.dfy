/**
 Challenges, results and the ideal hashes that tie them together.

 A digest is named by what was hashed and an authority tag by the key and payload that
 were authenticated, so equal digests have equal preimages and a tag is only equal to a
 recomputed one when key and payload agree. `Text` and `ForgedTag` stand for any other
 string a caller may supply.
 */
module Challenges {
  import opened Wrappers

  const SCHEMA_VERSION := "pr201.authorization-replay.v1"
  const MAX_RESULT_BYTES := 128 * 1024

  datatype Domain =
    | SignerTransaction
    | OperatorApproval
    | RecoveryAction
    | ReleaseActivation
    | SubmissionPermit
    | TreasuryTransfer

  datatype Failure =
    | BadChallenge
    | BadAuthority
    | BadBinding
    | BadNonce
    | NonceReused
    | ExpiredFailure
    | RevokedFailure
    | Replayed
    | InProgress
    | ConflictedFailure
    | ResultInvalid
    | ExecutionUnknown
    | StoreError
    | InvalidValue // a plain ValueError, outside the stable failure codes

  datatype Hash =
    | Text(text: string)
    | NonceHash(nonce: seq<byte>)
    | EnvelopeHash(payload: Unsigned, tag: Tag)
    | OperationHash(challengeId: string, domain: Domain, operationHash: Hash, requestHash: Hash)
    | ResultHash(kind: string, canonical: string)
    | RequestHash(body: RequestBody, sortedProgramIds: seq<string>)

  datatype Tag = Mac(key: seq<byte>, payload: Unsigned) | ForgedTag(text: string)

  /** Every field of a challenge but its authority tag. */
  datatype Unsigned = Unsigned(
    schemaVersion: string, challengeId: string, issuerId: string, issuerKeyId: string,
    domain: Domain, purpose: string, releaseId: string, policyBundleHash: Hash,
    attemptId: string, attemptGeneration: int, operationHash: Hash, environment: string,
    cluster: string, nonceB64: string, nonceDigest: Hash, issuedAtNs: int, expiresAtNs: int)

  datatype Challenge = Challenge(payload: Unsigned, authorityTag: Tag)

  datatype DecodedMessage = DecodedMessage(
    messageSha256: Hash, version: string, payer: string, requiredSigners: seq<string>,
    programIds: seq<string>, messageByteCount: int, requiredSignatureCount: int,
    addressLookupTableCount: int)

  /** A signer request, all fields but its set of allowed programs. */
  datatype RequestBody = RequestBody(
    authorizationId: string, attemptId: string, attemptGeneration: int,
    logicalOpportunityId: string, decodedMessage: DecodedMessage, expectedPayer: string,
    expectedRequiredSigners: seq<string>, planHash: Hash, policyBundleHash: Hash,
    exactSimulationHash: Hash, cpiCallGraphHash: Hash, feeComputeBudgetHash: Hash,
    blockhashAltForkHash: Hash, nonceDigest: Hash, issuedAtNs: int, expiresAtNs: int,
    altEvidenceHash: Option<Hash>)

  datatype SignerRequest = SignerRequest(body: RequestBody, allowedProgramIds: set<string>)

  /**
   The stored text of a result: an object text has one canonical rendering, whatever its
   spelling; the others are texts the JSON reader or the canonical writer rejects, and
   texts of values that are not objects.
   */
  datatype PayloadText =
    | ObjectText(spelling: string, canonical: string)
    | NonObjectText(spelling: string)
    | RejectedText(spelling: string)

  datatype AuthorizationResult = AuthorizationResult(kind: string, payload: PayloadText, digest: Hash)

  datatype Execution = Execution(
    challengeId: string, operationId: Hash, result: AuthorizationResult, replayed: bool)

  predicate IsAlphanumeric(c: char) {
    'a' <= c <= 'z' || 'A' <= c <= 'Z' || '0' <= c <= '9'
  }

  predicate IsIdentifierMark(c: char) {
    c == '.' || c == '_' || c == ':' || c == '/' || c == '-'
  }

  predicate IsIdentifier(s: string) {
    && 1 <= |s| <= 128
    && IsAlphanumeric(s[0])
    && forall i :: 1 <= i < |s| ==> IsAlphanumeric(s[i]) || IsIdentifierMark(s[i])
  }

  /** A computed digest is always 64 lowercase hex digits; a supplied text may not be. */
  predicate IsSha256Hex(h: Hash) {
    h.Text? ==>
      |h.text| == 64 && forall i :: 0 <= i < 64 ==> '0' <= h.text[i] <= '9' || 'a' <= h.text[i] <= 'f'
  }

  function Envelope(c: Challenge): Hash {
    EnvelopeHash(c.payload, c.authorityTag)
  }

  function OperationId(c: Challenge, requestHash: Hash): Hash {
    OperationHash(c.payload.challengeId, c.payload.domain, c.payload.operationHash, requestHash)
  }

  /** None when the result is valid, else what its validation raises. */
  function ResultFailure(r: AuthorizationResult): Option<Failure> {
    if r.payload.RejectedText? then Some(InvalidValue)
    else if r.payload.NonObjectText? then Some(ResultInvalid)
    else if !IsIdentifier(r.kind) then Some(InvalidValue)
    else if |r.payload.canonical| > MAX_RESULT_BYTES then Some(ResultInvalid)
    else if r.digest != ResultHash(r.kind, r.payload.canonical) then Some(ResultInvalid)
    else None
  }

  predicate ValidResult(r: AuthorizationResult) {
    ResultFailure(r).None?
  }
}
