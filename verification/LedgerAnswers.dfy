/**
 What each ledger call answers, and what it leaves in the table, said of the columns of the
 row and of what earlier calls did to it.
 */
module LedgerAnswers {
  import opened Wrappers
  import opened Challenges
  import opened Ledger

  /** The row was issued for this challenge. */
  predicate IssuedFor(rows: Rows, c: Challenge) {
    var id, p := c.payload.challengeId, c.payload;
    && id in rows
    && rows[id].issued == IssuedColumns(p.nonceDigest, EnvelopeHash(p, c.authorityTag), p.issuerId, p.issuerKeyId,
                                        p.domain, p.operationHash, p.expiresAtNs, c.authorityTag)
  }

  /** Only this row differs. */
  predicate OnlyRow(rows: Rows, rows': Rows, id: string) {
    && rows'.Keys == rows.Keys
    && forall other :: other in rows && other != id ==> rows'[other] == rows[other]
  }

  predicate IsFor(row: Row, op: Hash, h: Hash) {
    row.reservedOperationId == Some(op) && row.requestHash == Some(h)
  }

  predicate Stores(row: Row, result: AuthorizationResult) {
    row.result == ResultColumns(Some(result.kind), Some(result.payload), Some(result.digest))
  }

  /** A result whose text is an object of bounded size, under its own digest and a proper kind. */
  predicate IsSealed(r: AuthorizationResult) {
    && r.payload.ObjectText? && IsIdentifier(r.kind) && |r.payload.canonical| <= 131072
    && r.digest == ResultHash(r.kind, r.payload.canonical)
  }

  lemma ValidIffSealed(r: AuthorizationResult)
    ensures ValidResult(r) <==> IsSealed(r)
    ensures !IsSealed(r) ==>
              ResultFailure(r) ==
              Some(if r.payload.RejectedText? || (r.payload.ObjectText? && !IsIdentifier(r.kind)) then InvalidValue
                   else ResultInvalid)
  {
  }

  // ----- Which rows a challenge reaches -----

  /** A challenge reaches its own row and no other, and every changed copy of it is refused. */
  lemma ChallengeReachesItsRow(rows: Rows, issued: Challenge, c: Challenge)
    requires IssuedFor(rows, issued) && c.payload.challengeId == issued.payload.challengeId
    ensures CheckedRow(rows, c) == if c == issued then Success(rows[c.payload.challengeId]) else Failure(BadBinding)
  {
  }

  /** A call works on the row of the challenge's id when seven columns agree with the challenge. */
  lemma RowsAreChecked(rows: Rows, c: Challenge)
    ensures var id, p := c.payload.challengeId, c.payload;
            && (CheckedRow(rows, c) == Failure(BadChallenge) <==> id !in rows)
            && (id in rows ==>
                  CheckedRow(rows, c) ==
                  if && rows[id].issued.nonceDigest == p.nonceDigest
                     && rows[id].issued.envelopeHash == EnvelopeHash(p, c.authorityTag)
                     && rows[id].issued.issuerId == p.issuerId && rows[id].issued.issuerKeyId == p.issuerKeyId
                     && rows[id].issued.domain == p.domain && rows[id].issued.operationHash == p.operationHash
                     && rows[id].issued.authorityTag == c.authorityTag
                  then Success(rows[id]) else Failure(BadBinding))
  {
  }

  /** A call on a challenge that is not in the table, or not as issued, is refused and changes nothing. */
  lemma UncheckedRowsRefuse(
    rows: Rows, c: Challenge, op: Hash, h: Hash, result: AuthorizationResult, nowNs: int)
    requires CheckedRow(rows, c).Failure?
    ensures Reserve(rows, c, op, h, nowNs) == Call(rows, Failure(CheckedRow(rows, c).error))
    ensures IsSealed(result) ==>
              Finalize(rows, c, op, h, result, nowNs) == Call(rows, Failure(CheckedRow(rows, c).error))
  {
    ValidIffSealed(result);
  }

  /** Recording succeeds exactly when id, nonce and envelope are new, and adds one open row. */
  lemma RecordingAnswers(rows: Rows, c: Challenge, nowNs: int)
    ensures var call, id := RecordIssued(rows, c, nowNs), c.payload.challengeId;
            var envelope := EnvelopeHash(c.payload, c.authorityTag);
            var isNew := id !in rows
                         && forall other :: other in rows ==>
                                              && rows[other].issued.nonceDigest != c.payload.nonceDigest
                                              && rows[other].issued.envelopeHash != envelope;
            && (isNew ==>
                  && call.outcome.Success? && IssuedFor(call.rows, c) && call.rows.Keys == rows.Keys + {id}
                  && (forall other :: other in rows ==> call.rows[other] == rows[other])
                  && call.rows[id].state == Issued && call.rows[id].requestHash.None?
                  && call.rows[id].reservedOperationId.None?)
            && (!isNew ==> call == Call(rows, Failure(NonceReused)))
  {
  }

  // ----- Reserve -----

  /** An open row is reserved for the request before its expiry, and expired from then on. */
  lemma ReserveOpen(rows: Rows, c: Challenge, op: Hash, h: Hash, nowNs: int)
    requires CheckedRow(rows, c).Success? && rows[c.payload.challengeId].state == Issued
    ensures var call, id := Reserve(rows, c, op, h, nowNs), c.payload.challengeId;
            && OnlyRow(rows, call.rows, id) && call.rows[id].issued == rows[id].issued
            && call.rows[id].updatedAtNs == nowNs
            && call.rows[id].result == rows[id].result
            && (nowNs < rows[id].issued.expiresAtNs ==>
                  && call.outcome == Success(AcquiredReservation)
                  && call.rows[id].state == Reserved && IsFor(call.rows[id], op, h))
            && (nowNs >= rows[id].issued.expiresAtNs ==>
                  && call.outcome == Failure(ExpiredFailure) && call.rows[id].state == Expired
                  && call.rows[id].requestHash == rows[id].requestHash)
  {
    ReserveOnIssued(rows, c, op, h, nowNs);
  }

  /** A row that is not open answers by its state and is left as it is. */
  lemma ReserveClosed(rows: Rows, c: Challenge, op: Hash, h: Hash, nowNs: int)
    requires CheckedRow(rows, c).Success? && rows[c.payload.challengeId].state != Issued
    ensures var call, row := Reserve(rows, c, op, h, nowNs), rows[c.payload.challengeId];
            && call.rows == rows
            && (row.state == Reserved ==>
                  call.outcome == Failure(if IsFor(row, op, h) then InProgress else ConflictedFailure))
            && (row.state == Consumed && !IsFor(row, op, h) ==> call.outcome == Failure(Replayed))
            && (row.state == Expired ==> call.outcome == Failure(ExpiredFailure))
            && (row.state == Revoked ==> call.outcome == Failure(RevokedFailure))
            && (row.state == Conflicted ==> call.outcome == Failure(ConflictedFailure))
  {
    ReserveElsewhere(rows, c, op, h, nowNs);
  }

  /** A consumed row replays the stored result to the request it was consumed by. */
  lemma ReserveReplays(rows: Rows, c: Challenge, op: Hash, h: Hash, nowNs: int, result: AuthorizationResult)
    requires CheckedRow(rows, c).Success? && rows[c.payload.challengeId].state == Consumed
    requires IsFor(rows[c.payload.challengeId], op, h)
    requires Stores(rows[c.payload.challengeId], result) && IsSealed(result)
    ensures Reserve(rows, c, op, h, nowNs) == Call(rows, Success(ReplayOf(result)))
  {
    ReserveElsewhere(rows, c, op, h, nowNs);
    ValidIffSealed(result);
  }

  /** What a consumed row is missing, or how its stored result is malformed. */
  lemma ConsumedWithoutResult(
    rows: Rows, c: Challenge, op: Hash, h: Hash, result: AuthorizationResult, nowNs: int)
    requires CheckedRow(rows, c).Success? && rows[c.payload.challengeId].state == Consumed && IsSealed(result)
    requires IsFor(rows[c.payload.challengeId], op, h)
    ensures var r := rows[c.payload.challengeId].result;
            (r.kind == None || r.payload == None || r.digest == None) ==>
              && Reserve(rows, c, op, h, nowNs) == Call(rows, Failure(StoreError))
              && Finalize(rows, c, op, h, result, nowNs) == Call(rows, Failure(StoreError))
  {
    ReserveElsewhere(rows, c, op, h, nowNs);
    ValidIffSealed(result);
  }

  // ----- Finalize -----

  /** The caller's own reservation is consumed with the result and the time. */
  lemma FinalizeOwn(rows: Rows, c: Challenge, op: Hash, h: Hash, result: AuthorizationResult, nowNs: int)
    requires CheckedRow(rows, c).Success? && rows[c.payload.challengeId].state == Reserved && IsSealed(result)
    requires IsFor(rows[c.payload.challengeId], op, h)
    ensures var call, id := Finalize(rows, c, op, h, result, nowNs), c.payload.challengeId;
            && call.outcome == Success(Execution(id, op, result, false))
            && OnlyRow(rows, call.rows, id) && call.rows[id].issued == rows[id].issued
            && call.rows[id].state == Consumed && IsFor(call.rows[id], op, h) && Stores(call.rows[id], result)
            && call.rows[id].consumedAtNs == Some(nowNs) && call.rows[id].updatedAtNs == nowNs
  {
    ValidIffSealed(result);
  }

  /** What finalize answers otherwise; nothing changes. */
  lemma FinalizeOther(rows: Rows, c: Challenge, op: Hash, h: Hash, result: AuthorizationResult, nowNs: int)
    requires CheckedRow(rows, c).Success?
    ensures var call, row := Finalize(rows, c, op, h, result, nowNs), rows[c.payload.challengeId];
            && (!IsSealed(result) ==>
                  call.rows == rows && call.outcome.Failure? && Some(call.outcome.error) == ResultFailure(result))
            && (IsSealed(result) && row.state != Consumed && !(row.state == Reserved && IsFor(row, op, h)) ==>
                  call == Call(rows, Failure(ConflictedFailure)))
  {
    ValidIffSealed(result);
  }

  /** On a consumed row only the same request with the same digest is answered, with what is stored. */
  lemma FinalizeConsumed(
    rows: Rows, c: Challenge, op: Hash, h: Hash, result: AuthorizationResult, nowNs: int, stored: AuthorizationResult)
    requires CheckedRow(rows, c).Success? && rows[c.payload.challengeId].state == Consumed
    requires IsSealed(result) && IsSealed(stored) && Stores(rows[c.payload.challengeId], stored)
    ensures Finalize(rows, c, op, h, result, nowNs) ==
            Call(rows, if IsFor(rows[c.payload.challengeId], op, h) && stored.digest == result.digest
                 then Success(Execution(c.payload.challengeId, op, stored, true)) else Failure(Replayed))
  {
    ValidIffSealed(result);
    ValidIffSealed(stored);
  }

  // ----- Revoke -----

  /** The first 128 characters. */
  predicate IsCut(kept: string, reason: string) {
    kept <= reason && |kept| <= 128 && (kept != reason ==> |kept| == 128)
  }

  /** Every row but a consumed one is revoked, a reserved one into conflict, and says why. */
  lemma RevokeAnswers(rows: Rows, id: string, nowNs: int, reason: string)
    ensures !(IsIdentifier(id) && reason != "") ==>
              Revoke(rows, id, nowNs, reason) == Call(rows, Failure(InvalidValue))
    ensures var call := Revoke(rows, id, nowNs, reason);
            IsIdentifier(id) && reason != "" ==>
            && (id !in rows ==> call == Call(rows, Failure(BadChallenge)))
            && (id in rows && rows[id].state == Consumed ==> call == Call(rows, Failure(Replayed)))
            && (id in rows && rows[id].state != Consumed ==>
                  && call.outcome.Success? && OnlyRow(rows, call.rows, id)
                  && call.rows[id].issued == rows[id].issued && call.rows[id].requestHash == rows[id].requestHash
                  && (call.rows[id].state == Conflicted <==> rows[id].state == Reserved)
                  && (call.rows[id].state == Revoked <==> rows[id].state != Reserved)
                  && call.rows[id].conflictReason.Some? && IsCut(call.rows[id].conflictReason.value, reason)
                  && call.rows[id].updatedAtNs == nowNs)
  {
  }

  /**
   After a revocation every reserve is refused with nothing changed: as a conflict when a
   reservation was open, as revoked otherwise.
   */
  lemma RevocationIsAnswered(
    rows: Rows, c: Challenge, nowNs: int, reason: string, op: Hash, h: Hash, laterNs: int)
    requires CheckedRow(rows, c).Success? && Revoke(rows, c.payload.challengeId, nowNs, reason).outcome.Success?
    ensures var after := Revoke(rows, c.payload.challengeId, nowNs, reason).rows;
            Reserve(after, c, op, h, laterNs) ==
            Call(after, Failure(if rows[c.payload.challengeId].state == Reserved then ConflictedFailure
                                else RevokedFailure))
  {
    var after := Revoke(rows, c.payload.challengeId, nowNs, reason).rows;
    RevokeAnswers(rows, c.payload.challengeId, nowNs, reason);
    ReserveClosed(after, c, op, h, laterNs);
  }
}
