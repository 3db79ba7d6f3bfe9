/** What any sequence of ledger calls, with any arguments, keeps. */
module LedgerLaws {
  import opened Wrappers
  import opened Challenges
  import opened Ledger

  datatype Op =
    | IssueOp(c: Challenge, nowNs: int)
    | ReserveOp(c: Challenge, operationId: Hash, requestHash: Hash, nowNs: int)
    | FinalizeOp(c: Challenge, operationId: Hash, requestHash: Hash, result: AuthorizationResult, nowNs: int)
    | RevokeOp(id: string, nowNs: int, reason: string)

  function Apply(rows: Rows, op: Op): Rows {
    match op
    case IssueOp(c, t) => RecordIssued(rows, c, t).rows
    case ReserveOp(c, o, h, t) => Reserve(rows, c, o, h, t).rows
    case FinalizeOp(c, o, h, r, t) => Finalize(rows, c, o, h, r, t).rows
    case RevokeOp(id, t, reason) => Revoke(rows, id, t, reason).rows
  }

  predicate Raises(rows: Rows, op: Op) {
    match op
    case IssueOp(c, t) => RecordIssued(rows, c, t).outcome.Failure?
    case ReserveOp(c, o, h, t) => Reserve(rows, c, o, h, t).outcome.Failure?
    case FinalizeOp(c, o, h, r, t) => Finalize(rows, c, o, h, r, t).outcome.Failure?
    case RevokeOp(id, t, reason) => Revoke(rows, id, t, reason).outcome.Failure?
  }

  /** The table after the calls of `ops`, in order, on an empty ledger. */
  function RowsAfter(ops: seq<Op>): Rows {
    if ops == [] then map[] else Apply(RowsAfter(ops[..|ops| - 1]), ops[|ops| - 1])
  }

  function Subject(op: Op): string {
    match op
    case IssueOp(c, _) => c.payload.challengeId
    case ReserveOp(c, _, _, _) => c.payload.challengeId
    case FinalizeOp(c, _, _, _, _) => c.payload.challengeId
    case RevokeOp(id, _, _) => id
  }

  // ----- One call -----

  /** A raising call changes nothing, but for one edge: a late reserve on an ISSUED row. */
  predicate IsLateReserve(rows: Rows, op: Op) {
    && op.ReserveOp?
    && CheckedRow(rows, op.c).Success?
    && CheckedRow(rows, op.c).value.state == Issued
    && op.nowNs >= CheckedRow(rows, op.c).value.issued.expiresAtNs
  }

  lemma RaisingCallsAreTransparent(rows: Rows, op: Op)
    requires Raises(rows, op)
    ensures Apply(rows, op) != rows <==> IsLateReserve(rows, op)
    ensures IsLateReserve(rows, op) ==>
              Apply(rows, op) == rows[Subject(op) := ExpiredRow(rows[Subject(op)], op.nowNs)]
  {
    if IsLateReserve(rows, op) {
      assert Apply(rows, op)[Subject(op)].state == Expired;
    }
  }

  predicate Edge(from: State, to: State) {
    match from
    case Issued => to == Reserved || to == Expired || to == Revoked
    case Reserved => to == Consumed || to == Conflicted
    case Expired => to == Revoked
    case Conflicted => to == Revoked
    case Consumed => false
    case Revoked => false
  }

  /** One call touches only its own row, along an edge of the lifecycle if it changes state. */
  lemma CallsFollowTheLifecycle(rows: Rows, op: Op)
    ensures var after := Apply(rows, op);
            && rows.Keys <= after.Keys <= rows.Keys + {Subject(op)}
            && (forall id :: id in rows && id != Subject(op) ==> after[id] == rows[id])
            && (forall id :: id in rows && after[id].state != rows[id].state ==>
                               Edge(rows[id].state, after[id].state))
            && (forall id :: id in rows && rows[id].state == Consumed ==> after[id] == rows[id])
            && (forall id :: id in after && id !in rows ==> after[id].state == Issued)
  {
  }

  // ----- Any number of calls -----

  function Rank(s: State): nat {
    match s
    case Issued => 0
    case Reserved => 1
    case Expired => 2
    case Conflicted => 2
    case Consumed => 3
    case Revoked => 3
  }

  /** How often the state of row `id` changes in the run. */
  function ChangesOf(ops: seq<Op>, id: string): nat {
    if ops == [] then 0
    else
      var before := RowsAfter(ops[..|ops| - 1]);
      var after := RowsAfter(ops);
      ChangesOf(ops[..|ops| - 1], id) +
      if id in before && id in after && before[id].state != after[id].state then 1 else 0
  }

  /** A row changes state at most three times, and no more often than its rank says. */
  lemma {:induction false} RowChangesAtMostThreeTimes(ops: seq<Op>, id: string)
    ensures ChangesOf(ops, id) <= if id in RowsAfter(ops) then Rank(RowsAfter(ops)[id].state) else 0
    ensures ChangesOf(ops, id) <= 3
  {
    if ops != [] {
      RowChangesAtMostThreeTimes(ops[..|ops| - 1], id);
      CallsFollowTheLifecycle(RowsAfter(ops[..|ops| - 1]), ops[|ops| - 1]);
    }
  }

  /** All state changes of a run, over all rows. */
  ghost function TotalChanges(ops: seq<Op>): nat {
    if ops == [] then 0
    else TotalChanges(ops[..|ops| - 1]) + |Changed(RowsAfter(ops[..|ops| - 1]), RowsAfter(ops))|
  }

  ghost function RankSum(rows: Rows): nat {
    if rows == map[] then 0
    else
      var id :| id in rows;
      Rank(rows[id].state) + RankSum(rows - {id})
  }

  lemma {:induction false} RankSumSplits(rows: Rows, id: string)
    requires id in rows
    ensures RankSum(rows) == Rank(rows[id].state) + RankSum(rows - {id})
    decreases |rows|
  {
    var pick :| pick in rows && RankSum(rows) == Rank(rows[pick].state) + RankSum(rows - {pick});
    if pick != id {
      RankSumSplits(rows - {pick}, id);
      RankSumSplits(rows - {id}, pick);
      assert rows - {pick} - {id} == rows - {id} - {pick};
    }
  }

  lemma {:induction false} RankSumBounded(rows: Rows)
    ensures RankSum(rows) <= 3 * |rows|
    decreases |rows|
  {
    if rows != map[] {
      var id :| id in rows;
      RankSumSplits(rows, id);
      RankSumBounded(rows - {id});
      assert |rows| == |rows - {id}| + 1 by {
        assert rows.Keys == (rows - {id}).Keys + {id};
      }
    }
  }

  ghost function Changed(rows: Rows, after: Rows): set<string> {
    set id | id in rows && id in after && rows[id].state != after[id].state
  }

  lemma OneRowRankSum(rows: Rows, after: Rows, s: string)
    requires after == rows || (s in after && after - {s} == rows - {s})
    requires s in rows && s in after && rows[s].state != after[s].state ==>
               Rank(rows[s].state) < Rank(after[s].state)
    ensures RankSum(after) >= RankSum(rows) + |Changed(rows, after)|
  {
    if after == rows {
      assert Changed(rows, after) == {};
    } else {
      forall id | id in rows && id in after && id != s ensures rows[id] == after[id] {
        assert id in rows - {s} && (after - {s})[id] == (rows - {s})[id];
      }
      RankSumSplits(after, s);
      if s in rows {
        RankSumSplits(rows, s);
        assert Changed(rows, after) == if rows[s].state != after[s].state then {s} else {};
      } else {
        assert rows - {s} == rows;
        assert Changed(rows, after) == {};
      }
    }
  }

  /** One call raises the rank sum by at least the number of rows whose state it changes. */
  lemma ChangesRaiseRankSum(rows: Rows, op: Op)
    ensures RankSum(Apply(rows, op)) >= RankSum(rows) + |Changed(rows, Apply(rows, op))|
  {
    var after := Apply(rows, op);
    var s := Subject(op);
    CallsFollowTheLifecycle(rows, op);
    assert s in after ==> after - {s} == rows - {s};
    assert s !in after ==> after == rows;
    OneRowRankSum(rows, after, s);
  }

  /** Over any run, at most three state changes for each challenge ever issued. */
  lemma {:induction false} TotalChangesBounded(ops: seq<Op>)
    ensures TotalChanges(ops) <= RankSum(RowsAfter(ops))
    ensures TotalChanges(ops) <= 3 * |RowsAfter(ops)|
  {
    if ops != [] {
      TotalChangesBounded(ops[..|ops| - 1]);
      ChangesRaiseRankSum(RowsAfter(ops[..|ops| - 1]), ops[|ops| - 1]);
    }
    RankSumBounded(RowsAfter(ops));
  }

  /** CONSUMED is absorbing: nothing a later call does alters any column of the row. */
  lemma {:induction false} ConsumedRowsAreFrozen(ops: seq<Op>, more: seq<Op>, id: string)
    requires id in RowsAfter(ops) && RowsAfter(ops)[id].state == Consumed
    ensures id in RowsAfter(ops + more) && RowsAfter(ops + more)[id] == RowsAfter(ops)[id]
    decreases |more|
  {
    if more == [] {
      assert ops + more == ops;
    } else {
      var init := more[..|more| - 1];
      ConsumedRowsAreFrozen(ops, init, id);
      assert (ops + more)[..|ops + more| - 1] == ops + init;
      CallsFollowTheLifecycle(RowsAfter(ops + init), more[|more| - 1]);
    }
  }

  lemma OneMoreCall(ops: seq<Op>, op: Op)
    ensures RowsAfter(ops + [op]) == Apply(RowsAfter(ops), op)
  {
    assert (ops + [op])[..|ops|] == ops;
  }

  lemma OneCallStaysLeft(rows: Rows, op: Op, id: string)
    requires id in rows && rows[id].state != Issued
    ensures id in Apply(rows, op) && Apply(rows, op)[id].state != Issued
    ensures rows[id].state != Reserved ==> Apply(rows, op)[id].state != Reserved
  {
    CallsFollowTheLifecycle(rows, op);
  }

  /** ISSUED is never re-entered, and RESERVED is only entered from ISSUED. */
  lemma {:induction false} LeavingIssuedIsFinal(ops: seq<Op>, more: seq<Op>, id: string)
    requires id in RowsAfter(ops) && RowsAfter(ops)[id].state != Issued
    ensures id in RowsAfter(ops + more) && RowsAfter(ops + more)[id].state != Issued
    ensures RowsAfter(ops)[id].state != Reserved ==> RowsAfter(ops + more)[id].state != Reserved
    decreases |more|
  {
    if more == [] {
      assert ops + more == ops;
    } else {
      var init := more[..|more| - 1];
      LeavingIssuedIsFinal(ops, init, id);
      assert ops + more == ops + init + [more[|more| - 1]];
      OneMoreCall(ops + init, more[|more| - 1]);
      OneCallStaysLeft(RowsAfter(ops + init), more[|more| - 1], id);
    }
  }
}
