/** The order in which a readiness state lists things: first occurrences, by kind, stated blockers first. */
module ReadinessOrder {
  import opened Wrappers
  import opened Readiness
  import opened ReadinessLaws

  // ----- First occurrences -----

  /** Where the element is first found. */
  function FirstIndex<T(==,!new)>(list: seq<T>, x: T): (p: nat)
    requires x in list
    ensures p < |list| && list[p] == x && forall k :: 0 <= k < p ==> list[k] != x
  {
    var init, n := list[..|list| - 1], |list| - 1;
    assert list == init + [list[n]];
    if x in init then FirstIndex(init, x) else n
  }

  lemma FirstIndexSnoc<T(!new)>(init: seq<T>, last: T, x: T)
    requires x in init || x == last
    ensures x in init + [last]
    ensures FirstIndex(init + [last], x) == if x in init then FirstIndex(init, x) else |init|
  {
    assert (init + [last])[..|init|] == init;
  }

  /** Dropping repeats keeps the first of each, in order. */
  lemma {:induction false} DistinctKeepsOrder<T(!new)>(list: seq<T>, i: int, j: int)
    requires 0 <= i < j < |Distinct(list)|
    ensures Distinct(list)[i] in list && Distinct(list)[j] in list
    ensures FirstIndex(list, Distinct(list)[i]) < FirstIndex(list, Distinct(list)[j])
  {
    var init, last := list[..|list| - 1], list[|list| - 1];
    var u, w := Distinct(list), Distinct(init);
    assert list == init + [last];
    assert u[i] == w[i] && w[i] in init;
    FirstIndexSnoc(init, last, u[i]);
    FirstIndexSnoc(init, last, u[j]);
    if j < |w| {
      assert u[j] == w[j] && w[j] in init;
      DistinctKeepsOrder(init, i, j);
    }
  }

  // ----- The codes of a record -----

  lemma {:induction false} DistinctPrefix<T(!new)>(a: seq<T>, b: seq<T>)
    ensures Distinct(a) <= Distinct(a + b)
    decreases |b|
  {
    if b == [] {
      assert a + b == a;
    } else {
      DistinctPrefix(a, b[..|b| - 1]);
      assert (a + b)[..|a + b| - 1] == a + b[..|b| - 1];
    }
  }

  predicate HasNoRepeats<T(==)>(list: seq<T>) {
    forall i, j :: 0 <= i < j < |list| ==> list[i] != list[j]
  }

  lemma WithoutLast<T(!new)>(init: seq<T>, last: T)
    requires HasNoRepeats(init + [last])
    ensures HasNoRepeats(init) && last !in init
  {
    var list := init + [last];
    forall i | 0 <= i < |init| ensures init[i] != last {
      assert list[i] != list[|init|];
    }
    forall i, j | 0 <= i < j < |init| ensures init[i] != init[j] {
      assert list[i] != list[j];
    }
  }

  lemma DistinctSnoc<T(!new)>(init: seq<T>, last: T)
    ensures Distinct(init + [last]) == if last in init then Distinct(init) else Distinct(init) + [last]
  {
    assert (init + [last])[..|init|] == init;
  }

  lemma {:induction false} DistinctOfDistinct<T(!new)>(list: seq<T>)
    requires HasNoRepeats(list)
    ensures Distinct(list) == list
  {
    if list != [] {
      var init, last := list[..|list| - 1], list[|list| - 1];
      assert list == init + [last];
      WithoutLast(init, last);
      DistinctOfDistinct(init);
      DistinctSnoc(init, last);
    }
  }

  lemma DistinctKeepsPrefix<T(!new)>(a: seq<T>, b: seq<T>)
    requires a <= b && HasNoRepeats(a)
    ensures a <= Distinct(b)
  {
    assert b == a + b[|a|..];
    DistinctPrefix(a, b[|a|..]);
    DistinctOfDistinct(a);
  }

  lemma StatedStay(r: Requirement)
    ensures Distinct(r.blockers) <= StatedBlockers(r)
  {
  }

  lemma BindingExtends(list: seq<string>, r: Requirement)
    requires BindingBlockers(list, r).Success?
    ensures list <= BindingBlockers(list, r).value
  {
  }

  /** A record's own blockers come first, in its order and each once; what the checks add follows. */
  lemma StatedComeFirst(r: Requirement)
    requires BlockersOf(r).Success?
    ensures Distinct(r.blockers) <= BlockersOf(r).value
  {
    var stated := Distinct(r.blockers);
    var bound := BindingBlockers(StatedBlockers(r), r).value;
    var live := LiveBlockers(bound, r);
    var all := AppendIf(live, IsTruthy(r.supersededBy) && !IsTruthy(r.removalCriteria),
                        SUPERSEDED_REQUIREMENT_NEEDS_REMOVAL_CRITERIA);
    StatedStay(r);
    BindingExtends(StatedBlockers(r), r);
    assert StatedBlockers(r) <= bound <= live <= all;
    DistinctKeepsPrefix(stated, all);
  }

  // ----- The global blockers -----

  /** Duplicates, then legacy reports, then supersessions. */
  function Place(b: GlobalBlocker): nat {
    match b
    case DuplicateActiveRequirement(_) => 0
    case DuplicateActiveOwner(_) => 1
    case LegacyReportsDiverge => 2
    case MultipleLegacyTruthPlanes => 3
    case SupersededStillActive(_) => 4
    case SupersedingMissing(_) => 4
  }

  predicate IsPlaced(list: seq<GlobalBlocker>) {
    forall i, j :: 0 <= i < j < |list| ==> Place(list[i]) <= Place(list[j])
  }

  lemma PlacedConcat(a: seq<GlobalBlocker>, b: seq<GlobalBlocker>, border: nat)
    requires IsPlaced(a) && IsPlaced(b)
    requires (forall x :: x in a ==> Place(x) <= border) && forall x :: x in b ==> border <= Place(x)
    ensures IsPlaced(a + b)
  {
    forall i, j | 0 <= i < j < |a + b| ensures Place((a + b)[i]) <= Place((a + b)[j]) {
      if i < |a| {
        assert (a + b)[i] in a;
      }
      if j >= |a| {
        assert (a + b)[j] in b;
      }
    }
  }

  lemma OfOnePlace(list: seq<GlobalBlocker>, place: nat)
    requires forall x :: x in list ==> Place(x) == place
    ensures IsPlaced(list)
  {
    forall i, j | 0 <= i < j < |list| ensures Place(list[i]) <= Place(list[j]) {
      assert list[i] in list && list[j] in list;
    }
  }

  predicate IsWithin(list: seq<GlobalBlocker>, low: nat, high: nat) {
    forall x :: x in list ==> low <= Place(x) <= high
  }

  lemma JoinPlaced(a: seq<GlobalBlocker>, b: seq<GlobalBlocker>, low: nat, border: nat, high: nat)
    requires IsPlaced(a) && IsPlaced(b) && IsWithin(a, low, border) && IsWithin(b, border, high)
    requires low <= border <= high
    ensures IsPlaced(a + b) && IsWithin(a + b, low, high)
  {
    PlacedConcat(a, b, border);
  }

  lemma DuplicatesArePlaced(reqs: seq<Requirement>)
    ensures var list := DuplicateRequirements(reqs) + DuplicateOwners(OwnerOrder(reqs), OwnerTable(reqs));
            IsPlaced(list) && IsWithin(list, 0, 1)
  {
    var requirements, owners := DuplicateRequirements(reqs), DuplicateOwners(OwnerOrder(reqs), OwnerTable(reqs));
    DuplicateRequirementsKind(reqs);
    DuplicateOwnersIs(OwnerOrder(reqs), OwnerTable(reqs), "");
    OfOnePlace(requirements, 0);
    OfOnePlace(owners, 1);
    JoinPlaced(requirements, owners, 0, 1, 1);
  }

  lemma ReportsArePlaced(legacy: seq<LegacyReport>)
    ensures IsPlaced(LegacyBlockers(legacy)) && IsWithin(LegacyBlockers(legacy), 2, 3)
  {
  }

  lemma SupersessionsArePlaced(reqs: seq<Requirement>)
    ensures var list := Distinct(Supersessions(reqs, LastTable(reqs))); IsPlaced(list) && IsWithin(list, 4, 4)
  {
    SupersessionsIs(reqs, LastTable(reqs));
    OfOnePlace(Distinct(Supersessions(reqs, LastTable(reqs))), 4);
  }

  lemma GlobalIsPlaced(reqs: seq<Requirement>, legacy: seq<LegacyReport>)
    ensures IsPlaced(GlobalBlockers(reqs, legacy))
  {
    var duplicates := DuplicateRequirements(reqs) + DuplicateOwners(OwnerOrder(reqs), OwnerTable(reqs));
    DuplicatesArePlaced(reqs);
    ReportsArePlaced(legacy);
    SupersessionsArePlaced(reqs);
    JoinPlaced(duplicates, LegacyBlockers(legacy), 0, 2, 3);
    JoinPlaced(duplicates + LegacyBlockers(legacy), Distinct(Supersessions(reqs, LastTable(reqs))), 0, 4, 4);
  }

  lemma DistinctIsPlaced(list: seq<GlobalBlocker>)
    requires IsPlaced(list)
    ensures IsPlaced(Distinct(list))
  {
    var u := Distinct(list);
    forall i, j | 0 <= i < j < |u| ensures Place(u[i]) <= Place(u[j]) {
      DistinctKeepsOrder(list, i, j);
      var p, q := FirstIndex(list, u[i]), FirstIndex(list, u[j]);
      assert p < q && list[p] == u[i] && list[q] == u[j];
    }
  }

  /** The global blockers are listed by kind: duplicates, legacy reports, supersessions. */
  lemma GlobalBlockersAreInOrder(reqs: seq<Requirement>, legacy: seq<LegacyReport>, release: string)
    requires Accepts(reqs, legacy, release)
    ensures IsPlaced(Evaluate(reqs, legacy, release).value.globalBlockers)
  {
    GlobalIsPlaced(reqs, legacy);
    DistinctIsPlaced(GlobalBlockers(reqs, legacy));
  }
}
