/**
 The durable replay ledger: one row per challenge, one transaction per call.

 A transaction reads a row, decides, and runs one guarded UPDATE. The read and the UPDATE
 are separate functions here, so that the runs module can also interleave them; a whole
 call is the two in sequence.
 */
module Ledger {
  import opened Wrappers
  import opened Challenges

  datatype State = Issued | Reserved | Consumed | Expired | Revoked | Conflicted

  /** The columns written by issue and never updated. */
  datatype IssuedColumns = IssuedColumns(
    nonceDigest: Hash, envelopeHash: Hash, issuerId: string, issuerKeyId: string,
    domain: Domain, operationHash: Hash, expiresAtNs: int, authorityTag: Tag)

  datatype ResultColumns = ResultColumns(
    kind: Option<string>, payload: Option<PayloadText>, digest: Option<Hash>)

  datatype Row = Row(
    issued: IssuedColumns, state: State, reservedOperationId: Option<Hash>,
    requestHash: Option<Hash>, result: ResultColumns, updatedAtNs: int,
    consumedAtNs: Option<int>, conflictReason: Option<string>)

  type Rows = map<string, Row>

  datatype Call<+T> = Call(rows: Rows, outcome: Result<T, Failure>)

  datatype Reservation = AcquiredReservation | ReplayOf(result: AuthorizationResult)

  /** What a reserve transaction decides after reading the row. */
  datatype ReserveDecision =
    | ExpireRow
    | TryReserve
    | ReserveSettled(outcome: Result<AuthorizationResult, Failure>)

  /** What a finalize transaction decides after reading the row. */
  datatype FinalizeDecision =
    | TryFinalize
    | FinalizeSettled(outcome: Result<Execution, Failure>)

  function ColumnsOf(c: Challenge): IssuedColumns {
    IssuedColumns(
      c.payload.nonceDigest, Envelope(c), c.payload.issuerId, c.payload.issuerKeyId,
      c.payload.domain, c.payload.operationHash, c.payload.expiresAtNs, c.authorityTag)
  }

  function NewRow(c: Challenge, nowNs: int): Row {
    Row(ColumnsOf(c), Issued, None, None, ResultColumns(None, None, None), nowNs, None, None)
  }

  function ExpiredRow(row: Row, nowNs: int): Row {
    row.(state := Expired, updatedAtNs := nowNs)
  }

  function ReservedRow(row: Row, operationId: Hash, requestHash: Hash, nowNs: int): Row {
    row.(state := Reserved, reservedOperationId := Some(operationId),
         requestHash := Some(requestHash), updatedAtNs := nowNs)
  }

  function ConsumedRow(row: Row, result: AuthorizationResult, nowNs: int): Row {
    row.(state := Consumed,
         result := ResultColumns(Some(result.kind), Some(result.payload), Some(result.digest)),
         consumedAtNs := Some(nowNs), updatedAtNs := nowNs)
  }

  /** Revocation has no state guard but the refusal of CONSUMED. */
  function RevokedRow(row: Row, nowNs: int, reason: string): Row {
    row.(state := if row.state == Reserved then Conflicted else Revoked,
         conflictReason := Some(if |reason| > 128 then reason[..128] else reason),
         updatedAtNs := nowNs)
  }

  /** The primary key and the two UNIQUE columns. */
  predicate Collides(rows: Rows, c: Challenge) {
    || c.payload.challengeId in rows
    || exists id :: id in rows
                    && (|| rows[id].issued.nonceDigest == c.payload.nonceDigest
                        || rows[id].issued.envelopeHash == Envelope(c))
  }

  function RecordIssued(rows: Rows, c: Challenge, nowNs: int): Call<()> {
    if Collides(rows, c) then Call(rows, Failure(NonceReused))
    else Call(rows[c.payload.challengeId := NewRow(c, nowNs)], Success(()))
  }

  /** The seven columns every call compares with the presented challenge. */
  predicate Matches(row: Row, c: Challenge) {
    && row.issued.nonceDigest == c.payload.nonceDigest
    && row.issued.envelopeHash == Envelope(c)
    && row.issued.issuerId == c.payload.issuerId
    && row.issued.issuerKeyId == c.payload.issuerKeyId
    && row.issued.domain == c.payload.domain
    && row.issued.operationHash == c.payload.operationHash
    && row.issued.authorityTag == c.authorityTag
  }

  predicate SameRequest(row: Row, operationId: Hash, requestHash: Hash) {
    row.reservedOperationId == Some(operationId) && row.requestHash == Some(requestHash)
  }

  function StoredResult(row: Row): Result<AuthorizationResult, Failure> {
    if row.result.kind.None? || row.result.payload.None? || row.result.digest.None? then
      Failure(StoreError)
    else
      var r := AuthorizationResult(row.result.kind.value, row.result.payload.value, row.result.digest.value);
      match ResultFailure(r)
      case None => Success(r)
      case Some(f) => Failure(f)
  }

  /** The row a call works on, once it has matched the presented challenge. */
  function CheckedRow(rows: Rows, c: Challenge): Result<Row, Failure> {
    if c.payload.challengeId !in rows then Failure(BadChallenge)
    else if !Matches(rows[c.payload.challengeId], c) then Failure(BadBinding)
    else Success(rows[c.payload.challengeId])
  }

  /** What reserve answers on a row that has left ISSUED. */
  function AnswerReserve(row: Row, operationId: Hash, requestHash: Hash)
    : Result<AuthorizationResult, Failure>
    requires row.state != Issued
  {
    var same := SameRequest(row, operationId, requestHash);
    match row.state
    case Consumed => if same then StoredResult(row) else Failure(Replayed)
    case Reserved => Failure(if same then InProgress else ConflictedFailure)
    case Expired => Failure(ExpiredFailure)
    case Revoked => Failure(RevokedFailure)
    case Conflicted => Failure(ConflictedFailure)
  }

  function ReserveRead(rows: Rows, c: Challenge, operationId: Hash, requestHash: Hash, nowNs: int)
    : ReserveDecision
  {
    match CheckedRow(rows, c)
    case Failure(f) => ReserveSettled(Failure(f))
    case Success(row) =>
      if row.state == Issued then
        if nowNs >= row.issued.expiresAtNs then ExpireRow else TryReserve
      else ReserveSettled(AnswerReserve(row, operationId, requestHash))
  }

  /** UPDATE ... WHERE challenge_id = id AND state = 'issued', to EXPIRED. */
  function ExpireUpdate(rows: Rows, id: string, nowNs: int): Rows {
    if id in rows && rows[id].state == Issued then
      rows[id := ExpiredRow(rows[id], nowNs)]
    else rows
  }

  predicate ReserveGuard(rows: Rows, id: string) {
    id in rows && rows[id].state == Issued
  }

  /** UPDATE ... WHERE challenge_id = id AND state = 'issued', to RESERVED. */
  function ReserveUpdate(rows: Rows, id: string, operationId: Hash, requestHash: Hash, nowNs: int): Rows
  {
    if ReserveGuard(rows, id) then
      rows[id := ReservedRow(rows[id], operationId, requestHash, nowNs)]
    else rows
  }

  function Reserve(rows: Rows, c: Challenge, operationId: Hash, requestHash: Hash, nowNs: int)
    : Call<Reservation>
  {
    var id := c.payload.challengeId;
    match ReserveRead(rows, c, operationId, requestHash, nowNs)
    case ExpireRow => Call(ExpireUpdate(rows, id, nowNs), Failure(ExpiredFailure))
    case ReserveSettled(Success(stored)) => Call(rows, Success(ReplayOf(stored)))
    case ReserveSettled(Failure(f)) => Call(rows, Failure(f))
    case TryReserve =>
      if ReserveGuard(rows, id) then
        Call(ReserveUpdate(rows, id, operationId, requestHash, nowNs), Success(AcquiredReservation))
      else Call(rows, Failure(ConflictedFailure))
  }

  lemma ReserveOnIssued(rows: Rows, c: Challenge, operationId: Hash, requestHash: Hash, nowNs: int)
    requires CheckedRow(rows, c).Success? && CheckedRow(rows, c).value.state == Issued
    ensures var id, row := c.payload.challengeId, CheckedRow(rows, c).value;
            Reserve(rows, c, operationId, requestHash, nowNs) ==
            if nowNs >= row.issued.expiresAtNs
            then Call(rows[id := ExpiredRow(row, nowNs)], Failure(ExpiredFailure))
            else Call(rows[id := ReservedRow(row, operationId, requestHash, nowNs)], Success(AcquiredReservation))
  {
  }

  lemma ReserveElsewhere(rows: Rows, c: Challenge, operationId: Hash, requestHash: Hash, nowNs: int)
    requires CheckedRow(rows, c).Success? && CheckedRow(rows, c).value.state != Issued
    ensures Reserve(rows, c, operationId, requestHash, nowNs) ==
            match AnswerReserve(CheckedRow(rows, c).value, operationId, requestHash)
            case Success(stored) => Call(rows, Success(ReplayOf(stored)))
            case Failure(f) => Call(rows, Failure(f))
  {
  }

  /** What finalize answers on a row that is not the caller's reservation. */
  function AnswerFinalize(
    row: Row, id: string, operationId: Hash, requestHash: Hash, result: AuthorizationResult)
    : Result<Execution, Failure>
  {
    if row.state != Consumed then Failure(ConflictedFailure)
    else
      var stored :- StoredResult(row);
      if SameRequest(row, operationId, requestHash) && stored.digest == result.digest then
        Success(Execution(id, operationId, stored, true))
      else Failure(Replayed)
  }

  function FinalizeRead(
    rows: Rows, c: Challenge, operationId: Hash, requestHash: Hash, result: AuthorizationResult)
    : FinalizeDecision
  {
    if ResultFailure(result).Some? then FinalizeSettled(Failure(ResultFailure(result).value))
    else
      match CheckedRow(rows, c)
      case Failure(f) => FinalizeSettled(Failure(f))
      case Success(row) =>
        if row.state == Reserved && SameRequest(row, operationId, requestHash) then TryFinalize
        else
          FinalizeSettled(AnswerFinalize(row, c.payload.challengeId, operationId, requestHash, result))
  }

  predicate FinalizeGuard(rows: Rows, id: string, operationId: Hash, requestHash: Hash) {
    id in rows && rows[id].state == Reserved && SameRequest(rows[id], operationId, requestHash)
  }

  /** UPDATE ... WHERE challenge_id = id AND state = 'reserved' AND both request columns. */
  function FinalizeUpdate(
    rows: Rows, id: string, operationId: Hash, requestHash: Hash, result: AuthorizationResult, nowNs: int)
    : Rows
  {
    if FinalizeGuard(rows, id, operationId, requestHash) then
      rows[id := ConsumedRow(rows[id], result, nowNs)]
    else rows
  }

  function Finalize(
    rows: Rows, c: Challenge, operationId: Hash, requestHash: Hash, result: AuthorizationResult, nowNs: int)
    : Call<Execution>
  {
    var id := c.payload.challengeId;
    match FinalizeRead(rows, c, operationId, requestHash, result)
    case FinalizeSettled(outcome) => Call(rows, outcome)
    case TryFinalize =>
      if FinalizeGuard(rows, id, operationId, requestHash) then
        Call(FinalizeUpdate(rows, id, operationId, requestHash, result, nowNs),
             Success(Execution(id, operationId, result, false)))
      else Call(rows, Failure(ConflictedFailure))
  }

  /** `reason` is the caller's text already stripped; empty after stripping is refused. */
  function Revoke(rows: Rows, id: string, nowNs: int, reason: string): Call<()> {
    if !IsIdentifier(id) || reason == "" then Call(rows, Failure(InvalidValue))
    else if id !in rows then Call(rows, Failure(BadChallenge))
    else if rows[id].state == Consumed then Call(rows, Failure(Replayed))
    else Call(rows[id := RevokedRow(rows[id], nowNs, reason)], Success(()))
  }

  // ----- The ledger object -----

  class ReplayLedger {
    var rows: Rows

    constructor ()
      ensures rows == map[]
    {
      rows := map[];
    }

    method RecordIssuedRow(c: Challenge, nowNs: int) returns (r: Result<(), Failure>)
      modifies this
      ensures Call(rows, r) == RecordIssued(old(rows), c, nowNs)
    {
      if Collides(rows, c) {
        return Failure(NonceReused);
      }
      rows := rows[c.payload.challengeId := NewRow(c, nowNs)];
      return Success(());
    }

    method ReserveRow(c: Challenge, operationId: Hash, requestHash: Hash, nowNs: int)
      returns (r: Result<Reservation, Failure>)
      modifies this
      ensures Call(rows, r) == Reserve(old(rows), c, operationId, requestHash, nowNs)
    {
      var id := c.payload.challengeId;
      var row :- CheckedRow(rows, c);
      if row.state == Issued {
        ReserveOnIssued(rows, c, operationId, requestHash, nowNs);
        if nowNs >= row.issued.expiresAtNs {
          rows := rows[id := ExpiredRow(row, nowNs)]; // committed before the error is raised
          r := Failure(ExpiredFailure);
        } else {
          rows := rows[id := ReservedRow(row, operationId, requestHash, nowNs)];
          r := Success(AcquiredReservation);
        }
      } else {
        ReserveElsewhere(rows, c, operationId, requestHash, nowNs);
        var answer := AnswerReserve(row, operationId, requestHash);
        r := if answer.Success? then Success(ReplayOf(answer.value)) else Failure(answer.error);
      }
    }

    method FinalizeRow(
      c: Challenge, operationId: Hash, requestHash: Hash, result: AuthorizationResult, nowNs: int)
      returns (r: Result<Execution, Failure>)
      modifies this
      ensures Call(rows, r) == Finalize(old(rows), c, operationId, requestHash, result, nowNs)
    {
      var id := c.payload.challengeId;
      var invalid := ResultFailure(result);
      if invalid.Some? {
        return Failure(invalid.value);
      }
      var row :- CheckedRow(rows, c);
      if row.state == Reserved && SameRequest(row, operationId, requestHash) {
        rows := rows[id := ConsumedRow(row, result, nowNs)];
        r := Success(Execution(id, operationId, result, false));
      } else {
        r := AnswerFinalize(row, id, operationId, requestHash, result);
      }
    }

    method RevokeRow(id: string, nowNs: int, reason: string) returns (r: Result<(), Failure>)
      modifies this
      ensures Call(rows, r) == Revoke(old(rows), id, nowNs, reason)
    {
      if !IsIdentifier(id) || reason == "" {
        return Failure(InvalidValue);
      }
      if id !in rows {
        return Failure(BadChallenge);
      }
      var row := rows[id];
      if row.state == Consumed {
        return Failure(Replayed);
      }
      rows := rows[id := RevokedRow(row, nowNs, reason)];
      return Success(());
    }
  }
}
