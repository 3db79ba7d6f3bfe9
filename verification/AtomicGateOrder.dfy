/** The gate's index check: what it forces, and exactly when it forces ascending indices. */
module AtomicGateOrder {
  import opened Wrappers
  import opened EvidenceValues
  import opened AtomicGate

  /** The roles in list order are those in index order. */
  predicate PassesIndexCheck(items: seq<Mapping>) {
    SameRoles(Roles(items), Roles(SortByIndex(items)))
  }

  lemma SortIsPermutation(items: seq<Mapping>, k: int)
    requires 0 <= k < |items|
    ensures |SortByIndex(items)| == |items| && SortByIndex(items)[k] in items && items[k] in SortByIndex(items)
  {
    SortKeepsItems(items);
    assert |multiset(items)| == |items| && |multiset(SortByIndex(items))| == |SortByIndex(items)|;
    assert SortByIndex(items)[k] in multiset(SortByIndex(items)) && items[k] in multiset(items);
  }

  /** An instruction whose role no other has keeps its position under a sort that keeps the roles. */
  lemma UniqueRoleStays(items: seq<Mapping>, p: int)
    requires 0 <= p < |items| && PassesIndexCheck(items)
    requires forall k :: 0 <= k < |items| && k != p ==> !Same(Get(items[k], Role), Get(items[p], Role))
    ensures |SortByIndex(items)| == |items| && SortByIndex(items)[p] == items[p]
  {
    var sorted := SortByIndex(items);
    SortIsPermutation(items, p);
    var k :| 0 <= k < |items| && items[k] == sorted[p];
    assert Same(Roles(items)[p], Roles(sorted)[p]);
  }

  predicate IndexOrdered(items: seq<Mapping>, i: int, j: int)
    requires 0 <= i < |items| && 0 <= j < |items|
  {
    && (forall k :: 0 <= k < |items| ==> NotAfter(items[0], items[k]) && NotAfter(items[k], items[|items| - 1]))
    && NotAfter(items[i], items[j])
  }

  lemma Extremes(items: seq<Mapping>, sorted: seq<Mapping>, x: Mapping)
    requires Ascending(sorted) && |sorted| == |items| > 0 && x in sorted
    ensures NotAfter(sorted[0], x) && NotAfter(x, sorted[|sorted| - 1])
  {
    var k :| 0 <= k < |sorted| && sorted[k] == x;
    NotAfterTotal(x, x);
  }

  // ----- What passes -----

  /** Instructions with these roles and indices. */
  function ItemsAt(roles: seq<Value>, indices: seq<int>): (items: seq<Mapping>)
    requires |roles| == |indices|
    ensures |items| == |roles| && Sortable(items)
    ensures forall k :: 0 <= k < |items| ==> items[k] == map[Role := roles[k], Index := Int(indices[k])]
  {
    seq(|roles|, k requires 0 <= k < |roles| => map[Role := roles[k], Index := Int(indices[k])])
  }

  lemma ItemsHaveTheirRoles(roles: seq<Value>, indices: seq<int>)
    requires |roles| == |indices|
    ensures Roles(ItemsAt(roles, indices)) == roles
  {
  }

  lemma AscendingPasses(items: seq<Mapping>)
    requires Ascending(items)
    ensures PassesIndexCheck(items)
  {
    SortOfAscending(items);
  }

  /** Any roles pass with any indices that do not descend: repeats and gaps go unseen. */
  lemma RepeatsAndGapsPass(roles: seq<Value>, indices: seq<int>)
    requires |roles| == |indices| && forall i, j :: 0 <= i < j < |indices| ==> indices[i] <= indices[j]
    ensures PassesIndexCheck(ItemsAt(roles, indices))
  {
    AscendingPasses(ItemsAt(roles, indices));
  }

  /** The four sensitive roles, the first two at one index and a gap before the last. */
  lemma RepeatAndGapExample()
    ensures var roles := [Str(BORROW), Str(LEG_A), Str(LEG_B), Str(REPAY)];
            PassesIndexCheck(ItemsAt(roles, [5, 5, 6, 900]))
  {
    RepeatsAndGapsPass([Str(BORROW), Str(LEG_A), Str(LEG_B), Str(REPAY)], [5, 5, 6, 900]);
  }

  // ----- When the check forces the order -----

  predicate DistinctRoles(roles: seq<Value>) {
    forall k, m :: 0 <= k < m < |roles| ==> !Same(roles[k], roles[m])
  }

  lemma DistinctRolesForceOrder(items: seq<Mapping>)
    requires Sortable(items) && DistinctRoles(Roles(items)) && PassesIndexCheck(items)
    ensures Ascending(items)
  {
    if |items| >= 2 {
      var sorted := SortByIndex(items);
      SortableMeansSameKind(items);
      SortAscends(items);
      forall p | 0 <= p < |items| ensures |sorted| == |items| && sorted[p] == items[p] {
        forall k | 0 <= k < |items| && k != p ensures !Same(Get(items[k], Role), Get(items[p], Role)) {
          assert if k < p then !Same(Roles(items)[k], Roles(items)[p]) else !Same(Roles(items)[p], Roles(items)[k]);
        }
        UniqueRoleStays(items, p);
      }
      assert sorted == items by { SortIsPermutation(items, 0); }
    }
  }

  /** No two instructions share an index. */
  predicate DistinctIndices(items: seq<Mapping>) {
    forall x, y :: x in items && y in items && x != y ==> KeyOf(x) != KeyOf(y)
  }

  predicate NumericIndices(items: seq<Mapping>) {
    forall x :: x in items ==> KeyOf(x).Int?
  }

  lemma HeadIsLeast(a: seq<Mapping>, x: Mapping)
    requires Ascending(a) && x in a && NumericIndices(a)
    ensures KeyOf(a[0]).number <= KeyOf(x).number
  {
    var k :| 0 <= k < |a| && a[k] == x;
    assert a[0] in a;
    assert k > 0 ==> NotAfter(a[0], a[k]);
  }

  lemma SameItems(a: seq<Mapping>, b: seq<Mapping>)
    requires multiset(a) == multiset(b)
    ensures |a| == |b| && forall x :: x in a <==> x in b
  {
    assert |multiset(a)| == |a| && |multiset(b)| == |b|;
    assert forall x :: x in a <==> x in multiset(a);
    assert forall x :: x in b <==> x in multiset(b);
  }

  lemma HeadsAgree(a: seq<Mapping>, b: seq<Mapping>)
    requires a != [] && b != [] && Ascending(a) && Ascending(b) && (forall x :: x in a <==> x in b)
    requires NumericIndices(a) && DistinctIndices(a)
    ensures a[0] == b[0]
  {
    assert a[0] in a && b[0] in b;
    HeadIsLeast(a, b[0]);
    HeadIsLeast(b, a[0]);
  }

  lemma TailsKeepItems(a: seq<Mapping>, b: seq<Mapping>)
    requires a != [] && b != [] && a[0] == b[0] && multiset(a) == multiset(b)
    ensures multiset(a[1..]) == multiset(b[1..]) && forall x :: x in a[1..] ==> x in a
  {
    assert a == [a[0]] + a[1..] && b == [b[0]] + b[1..];
    assert multiset(a[1..]) == multiset(a) - multiset{a[0]};
    assert multiset(b[1..]) == multiset(b) - multiset{b[0]};
  }

  /** Ascending lists of the same instructions, no two at one index, are one list. */
  lemma {:induction false} AscendingListIsUnique(a: seq<Mapping>, b: seq<Mapping>)
    requires Ascending(a) && Ascending(b) && multiset(a) == multiset(b)
    requires NumericIndices(a) && DistinctIndices(a)
    ensures a == b
  {
    SameItems(a, b);
    if a != [] {
      HeadsAgree(a, b);
      TailsKeepItems(a, b);
      AscendingListIsUnique(a[1..], b[1..]);
      assert a == [a[0]] + a[1..] && b == [b[0]] + b[1..];
    }
  }

  /** 0, 1, 2, ... with `p` and `q` exchanged. */
  function Exchanged(n: nat, p: nat, q: nat): (r: seq<int>)
    requires p < q < n
    ensures |r| == n && forall k :: 0 <= k < n ==> r[k] == if k == p then q else if k == q then p else k
  {
    seq(n, k => if k == p then q else if k == q then p else k)
  }

  lemma SwapKeepsItems(items: seq<Mapping>, p: nat, q: nat)
    requires p < q < |items|
    ensures multiset(items[p := items[q]][q := items[p]]) == multiset(items)
  {
  }

  lemma ExchangedOrdered(roles: seq<Value>, p: nat, q: nat)
    requires p < q < |roles|
    ensures var items := ItemsAt(roles, Exchanged(|roles|, p, q));
            var ordered := items[p := items[q]][q := items[p]];
            Ascending(ordered) && NumericIndices(ordered) && DistinctIndices(ordered)
  {
    var items := ItemsAt(roles, Exchanged(|roles|, p, q));
    var ordered := items[p := items[q]][q := items[p]];
    assert forall k :: 0 <= k < |ordered| ==> KeyOf(ordered[k]) == Int(k);
  }

  lemma ExchangedSorts(roles: seq<Value>, p: nat, q: nat)
    requires p < q < |roles|
    ensures var items := ItemsAt(roles, Exchanged(|roles|, p, q));
            SortByIndex(items) == items[p := items[q]][q := items[p]]
  {
    var items := ItemsAt(roles, Exchanged(|roles|, p, q));
    var ordered := items[p := items[q]][q := items[p]];
    SwapKeepsItems(items, p, q);
    SortKeepsItems(items);
    ExchangedOrdered(roles, p, q);
    SameItems(items, ordered);
    SortAscends(items);
    AscendingListIsUnique(ordered, SortByIndex(items));
  }

  /** Exchanging the indices of two instructions of the same role goes unseen. */
  lemma ExchangePasses(roles: seq<Value>, p: nat, q: nat)
    requires p < q < |roles| && Same(roles[p], roles[q])
    ensures var items := ItemsAt(roles, Exchanged(|roles|, p, q));
            PassesIndexCheck(items) && !Ascending(items)
  {
    var items := ItemsAt(roles, Exchanged(|roles|, p, q));
    ExchangedSorts(roles, p, q);
    ItemsHaveTheirRoles(roles, Exchanged(|roles|, p, q));
    assert !NotAfter(items[p], items[q]);
  }

  /** For these roles, the check passes only lists in ascending index order. */
  ghost predicate ForcesOrder(roles: seq<Value>) {
    forall items :: Roles(items) == roles && Sortable(items) && PassesIndexCheck(items) ==> Ascending(items)
  }

  /** The check compares roles, not indices: it forces ascending indices exactly when no role repeats. */
  lemma IndexCheckForcesOrderIff(roles: seq<Value>)
    ensures ForcesOrder(roles) <==> DistinctRoles(roles)
  {
    if DistinctRoles(roles) {
      forall items | Roles(items) == roles && Sortable(items) && PassesIndexCheck(items) ensures Ascending(items) {
        DistinctRolesForceOrder(items);
      }
    } else {
      var p, q :| 0 <= p < q < |roles| && Same(roles[p], roles[q]);
      ExchangePasses(roles, p, q);
      ItemsHaveTheirRoles(roles, Exchanged(|roles|, p, q));
      assert !ForcesOrder(roles);
    }
  }
}
