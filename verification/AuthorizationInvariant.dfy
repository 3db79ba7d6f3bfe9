/** The invariant of every run: rows, clients and log agree, whatever the interleaving. */
module AuthorizationInvariant {
  import opened Wrappers
  import opened Challenges
  import opened Ledger
  import opened Issuer
  import opened ReplayService
  import opened AuthorizationRuns

  // ----- Rows -----

  /** The challenge a row was issued for; the envelope digest names all of it. */
  function IssuedChallenge(row: Row): Challenge
    requires row.issued.envelopeHash.EnvelopeHash?
  {
    Challenge(row.issued.envelopeHash.payload, row.issued.envelopeHash.tag)
  }

  predicate IsReservable(s: State) {
    s == Issued || s == Expired
  }

  /** Which columns are set, and to what, in each state. */
  ghost predicate RowShape(id: string, row: Row) {
    && row.issued.envelopeHash.EnvelopeHash?
    && row.issued == ColumnsOf(IssuedChallenge(row))
    && IssuedChallenge(row).payload.challengeId == id
    && (row.reservedOperationId.Some? <==> row.requestHash.Some?)
    && (row.requestHash.Some? ==>
          && IsSha256Hex(row.requestHash.value)
          && row.reservedOperationId == Some(OperationId(IssuedChallenge(row), row.requestHash.value)))
    && (IsReservable(row.state) ==> row.requestHash.None?)
    && (row.state == Reserved || row.state == Conflicted || row.state == Consumed ==> row.requestHash.Some?)
    && (row.state == Consumed ==> StoredResult(row).Success? && row.consumedAtNs.Some?)
    && (row.state != Consumed ==> row.result == ResultColumns(None, None, None) && row.consumedAtNs.None?)
  }

  /** Matching the seven columns is matching the whole challenge the row was issued for. */
  lemma MatchIdentifiesChallenge(id: string, row: Row, c: Challenge)
    requires RowShape(id, row)
    ensures Matches(row, c) <==> c == IssuedChallenge(row)
    ensures Matches(row, c) ==> id == c.payload.challengeId && row.issued == ColumnsOf(c)
  {
  }

  ghost predicate RowsOk(rows: Rows) {
    && (forall id :: id in rows ==> RowShape(id, rows[id]) && rows[id].state != Expired)
    && (forall id, id' :: id in rows && id' in rows && id != id' ==>
                            rows[id].issued.nonceDigest != rows[id'].issued.nonceDigest)
  }

  /** How rows may change: issued columns never, request columns once, a CONSUMED row never. */
  ghost predicate RowEvolves(row: Row, row': Row) {
    && row'.issued == row.issued
    && (row.requestHash.Some? ==>
          row'.requestHash == row.requestHash && row'.reservedOperationId == row.reservedOperationId)
    && (row.state == Consumed ==> row' == row)
  }

  ghost predicate Evolves(s: System, s': System) {
    && (forall id :: id in s.rows ==> id in s'.rows && RowEvolves(s.rows[id], s'.rows[id]))
    && (forall id :: id in s.reservedBy ==> id in s'.reservedBy && s'.reservedBy[id] == s.reservedBy[id])
    && (forall id :: id in s.consumedBy ==> id in s'.consumedBy && s'.consumedBy[id] == s.consumedBy[id])
  }

  // ----- Clients -----

  /** The row carries this client's request, and this client's UPDATE put it there. */
  ghost predicate Holds(s: System, k: nat, r: Request) {
    && r.Id() in s.rows && r.Id() in s.reservedBy && s.reservedBy[r.Id()] == k
    && SameRequest(s.rows[r.Id()], r.Op(), r.requestHash)
    && Matches(s.rows[r.Id()], r.c)
  }

  /** The row is consumed by this request, with this execution's result. */
  ghost predicate Settled(s: System, k: nat, r: Request, e: Execution) {
    && r.Id() in s.rows && s.rows[r.Id()].state == Consumed
    && SameRequest(s.rows[r.Id()], r.Op(), r.requestHash)
    && StoredResult(s.rows[r.Id()]) == Success(e.result)
    && e.challengeId == r.Id() && e.operationId == r.Op()
    && (!e.replayed ==> r.Id() in s.consumedBy && s.consumedBy[r.Id()] == k)
  }

  ghost predicate ClientOk(s: System, k: nat, cl: Client) {
    var r := cl.request;
    match cl.phase
    case Verified => r.ExecuteRequest? && IsSha256Hex(r.requestHash) && cl.nowNs < r.c.payload.expiresAtNs
    case ReserveChosen =>
      && r.ExecuteRequest? && IsSha256Hex(r.requestHash)
      && r.Id() in s.rows && Matches(s.rows[r.Id()], r.c)
    case Acquired => r.ExecuteRequest? && Holds(s, k, r)
    case Executing => r.ExecuteRequest? && Holds(s, k, r)
    case HasResult(_) => r.ExecuteRequest? ==> Holds(s, k, r)
    case FinalizeChosen(result) => ValidResult(result) && (r.ExecuteRequest? ==> Holds(s, k, r))
    case Committed(e) => Settled(s, k, r, e)
    case Returned(e) => Settled(s, k, r, e)
    case _ => true
  }

  ghost predicate ClientsOk(s: System) {
    forall k :: k in s.clients ==> ClientOk(s, k, s.clients[k])
  }

  // ----- Winners and log -----

  ghost predicate WinnersOk(s: System) {
    && (forall id :: id in s.reservedBy ==> id in s.rows && s.rows[id].requestHash.Some?)
    && (forall id :: id in s.consumedBy ==> id in s.rows && s.rows[id].state == Consumed)
  }

  predicate HasExecuted(phase: Phase) {
    !(phase.Started? || phase.Verified? || phase.ReserveChosen? || phase.Acquired?)
  }

  ghost predicate EventOk(s: System, e: Event) {
    match e
    case ExecutorCalled(k, id, nonceDigest, op) =>
      && k in s.clients && HasExecuted(s.clients[k].phase)
      && var r := s.clients[k].request;
      && r.Id() == id && r.Op() == op && r.c.payload.nonceDigest == nonceDigest
      && Holds(s, k, r)
    case CallReturned(k, requestHash, x) =>
      && k in s.clients && s.clients[k].phase == Returned(x)
      && s.clients[k].request.requestHash == requestHash
    case ChallengeRevoked(_) => true
  }

  /** Two events that cannot both be in one log. */
  predicate Clash(e: Event, e': Event) {
    || (e.ExecutorCalled? && e'.ExecutorCalled? && e.challengeId == e'.challengeId)
    || (e.CallReturned? && e'.CallReturned? && e.client == e'.client)
  }

  ghost predicate LogOk(s: System) {
    && (forall i :: 0 <= i < |s.log| ==> EventOk(s, s.log[i]))
    && (forall i, j :: 0 <= i < j < |s.log| ==> !Clash(s.log[i], s.log[j]))
    && (forall id :: id in s.rows && (s.rows[id].state == Revoked || s.rows[id].state == Conflicted) ==>
                       ChallengeRevoked(id) in s.log)
  }

  ghost predicate Inv(s: System) {
    RowsOk(s.rows) && ClientsOk(s) && WinnersOk(s) && LogOk(s)
  }

  // ----- Frame lemmas -----

  lemma ClientOkEvolves(s: System, s': System, k: nat, cl: Client)
    requires ClientOk(s, k, cl) && Evolves(s, s')
    ensures ClientOk(s', k, cl)
  {
  }

  /** Every client but `k` keeps its part of the invariant. */
  lemma OthersStayOk(s: System, s': System, k: nat)
    requires ClientsOk(s) && Evolves(s, s')
    requires s'.clients.Keys == s.clients.Keys + {k}
    requires forall j :: j in s.clients && j != k ==> s'.clients[j] == s.clients[j]
    requires ClientOk(s', k, s'.clients[k])
    ensures ClientsOk(s')
  {
    forall j | j in s'.clients ensures ClientOk(s', j, s'.clients[j]) {
      if j != k {
        ClientOkEvolves(s, s', j, s.clients[j]);
      }
    }
  }

  /** Old events stay in order when rows evolve and clients only move forward. */
  lemma EventsStayOk(s: System, s': System)
    requires LogOk(s) && Evolves(s, s') && RowsOk(s.rows)
    requires s.clients.Keys <= s'.clients.Keys
    requires forall k :: k in s.clients ==>
                           && s'.clients[k].request == s.clients[k].request
                           && (HasExecuted(s.clients[k].phase) ==> HasExecuted(s'.clients[k].phase))
                           && (s.clients[k].phase.Returned? ==> s'.clients[k].phase == s.clients[k].phase)
    ensures forall i :: 0 <= i < |s.log| ==> EventOk(s', s.log[i])
  {
    forall i | 0 <= i < |s.log| ensures EventOk(s', s.log[i]) {
      assert EventOk(s, s.log[i]);
    }
  }
}
