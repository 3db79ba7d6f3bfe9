/** What the readiness state promises: exact duplicate detection, order and monotonicity. */
module ReadinessLaws {
  import opened Wrappers
  import opened Readiness

  // ----- Single records -----

  /** What a record's binding proofs must show once its owner claims to be implemented. */
  predicate IsBound(r: Requirement) {
    ClaimsImplementation(r.implementation) ==>
      && r.architecture.Some? && r.architecture.value.cliImportsComposition
      && r.architecture.value.compositionImportsOwner && r.architecture.value.runtimeUsesOwner
      && !r.architecture.value.isolatedGateOnly
      && r.package.Some? && r.package.value.activeImportOwner == r.package.value.ownerModule
      && r.package.value.sourceWheelParity
  }

  predicate EvidenceHolds(r: Requirement) {
    && (r.evidence.VerifiedCurrent? || r.evidence.ProducedUnverified?
        || (r.evidence.DescriptorOnly? && r.mode.NonBlocking?))
    && (r.implementation.LiveApproved? ==> r.evidence.VerifiedCurrent?)
  }

  lemma DistinctIsEmptyIff<T(!new)>(list: seq<T>)
    ensures Distinct(list) == [] <==> list == []
  {
    if list != [] {
      assert list[0] in Distinct(list);
    }
  }

  lemma BindingIsCleanIff(list: seq<string>, r: Requirement)
    requires BindingBlockers(list, r).Success?
    ensures BindingBlockers(list, r).value == [] <==> list == [] && IsBound(r)
  {
  }

  lemma StatedIsCleanIff(r: Requirement)
    ensures StatedBlockers(r) == [] <==>
            && r.blockers == [] && !r.implementation.RevokedOwner?
            && (r.evidence.VerifiedCurrent? || r.evidence.ProducedUnverified?
                || (r.evidence.DescriptorOnly? && r.mode.NonBlocking?))
  {
    DistinctIsEmptyIff(r.blockers);
  }

  /** A well-formed record reports nothing exactly when all of this holds. */
  lemma RecordIsCleanIff(r: Requirement)
    requires BlockersOf(r).Success?
    ensures BlockersOf(r).value == [] <==>
            && r.blockers == [] && !r.implementation.RevokedOwner? && EvidenceHolds(r) && IsBound(r)
            && (IsTruthy(r.supersededBy) ==> IsTruthy(r.removalCriteria))
  {
    StatedIsCleanIff(r);
    BindingIsCleanIff(StatedBlockers(r), r);
    var live := LiveBlockers(BindingBlockers(StatedBlockers(r), r).value, r);
    DistinctIsEmptyIff(AppendIf(live, IsTruthy(r.supersededBy) && !IsTruthy(r.removalCriteria),
                                SUPERSEDED_REQUIREMENT_NEEDS_REMOVAL_CRITERIA));
  }

  /** The record reports some blocker. */
  predicate Reports(r: Requirement) {
    BlockersOf(r).Success? && BlockersOf(r).value != []
  }

  // ----- The tables -----

  predicate FirstAt(reqs: seq<Requirement>, i: int, d: string) {
    && 0 <= i < |reqs| && reqs[i].domainId == d
    && forall k :: 0 <= k < i ==> reqs[k].domainId != d
  }

  predicate LastAt(reqs: seq<Requirement>, i: int, d: string) {
    && 0 <= i < |reqs| && reqs[i].domainId == d
    && forall k :: i < k < |reqs| ==> reqs[k].domainId != d
  }

  predicate DomainAt(reqs: seq<Requirement>, k: int, d: string) {
    0 <= k < |reqs| && reqs[k].domainId == d
  }

  lemma {:induction false} FirstExists(reqs: seq<Requirement>, d: string)
    ensures (exists i :: FirstAt(reqs, i, d)) <==> exists k :: DomainAt(reqs, k, d)
  {
    if i :| FirstAt(reqs, i, d) {
      assert DomainAt(reqs, i, d);
    }
    if k :| DomainAt(reqs, k, d) {
      var init := reqs[..k];
      FirstExists(init, d);
      if m :| DomainAt(init, m, d) {
        var i :| FirstAt(init, i, d);
        assert FirstAt(reqs, i, d);
      } else {
        forall m | 0 <= m < k ensures reqs[m].domainId != d {
          assert !DomainAt(init, m, d);
        }
        assert FirstAt(reqs, k, d);
      }
    }
  }

  lemma {:induction false} FirstTableHas(reqs: seq<Requirement>, d: string)
    ensures d in FirstTable(reqs) <==> exists k :: DomainAt(reqs, k, d)
  {
    if reqs != [] {
      var init, n := reqs[..|reqs| - 1], |reqs| - 1;
      FirstTableHas(init, d);
      assert forall k :: DomainAt(init, k, d) ==> DomainAt(reqs, k, d);
      assert forall k :: DomainAt(reqs, k, d) && k < n ==> DomainAt(init, k, d);
      assert DomainAt(reqs, n, d) <==> reqs[n].domainId == d;
    }
  }

  lemma {:induction false} FirstTableIs(reqs: seq<Requirement>, i: int, d: string)
    requires FirstAt(reqs, i, d)
    ensures d in FirstTable(reqs) && FirstTable(reqs)[d] == reqs[i]
  {
    var init, n := reqs[..|reqs| - 1], |reqs| - 1;
    FirstTableHas(init, d);
    if i < n {
      assert FirstAt(init, i, d);
      FirstTableIs(init, i, d);
    }
  }

  lemma {:induction false} LastTableHas(reqs: seq<Requirement>, d: string)
    ensures d in LastTable(reqs) <==> exists k :: DomainAt(reqs, k, d)
  {
    if reqs != [] {
      var init, n := reqs[..|reqs| - 1], |reqs| - 1;
      LastTableHas(init, d);
      assert forall k :: DomainAt(init, k, d) ==> DomainAt(reqs, k, d);
      assert forall k :: DomainAt(reqs, k, d) && k < n ==> DomainAt(init, k, d);
      assert DomainAt(reqs, n, d) <==> reqs[n].domainId == d;
    }
  }

  lemma {:induction false} LastTableIs(reqs: seq<Requirement>, i: int, d: string)
    requires LastAt(reqs, i, d)
    ensures d in LastTable(reqs) && LastTable(reqs)[d] == reqs[i]
  {
    var init, n := reqs[..|reqs| - 1], |reqs| - 1;
    if i < n {
      assert LastAt(init, i, d);
      LastTableIs(init, i, d);
    }
  }

  predicate ReportsAt(reqs: seq<Requirement>, i: int, d: string) {
    DomainAt(reqs, i, d) && Reports(reqs[i])
  }

  lemma {:induction false} BlockerTableIs(reqs: seq<Requirement>, d: string)
    requires AllWellFormed(reqs)
    ensures d in BlockerTable(reqs) <==> exists i :: ReportsAt(reqs, i, d)
  {
    if reqs != [] {
      var init, n := reqs[..|reqs| - 1], |reqs| - 1;
      assert reqs == init + [reqs[n]];
      AllWellFormedSnoc(init, reqs[n]);
      BlockerTableSnoc(init, reqs[n], BlockersOf(reqs[n]).value);
      BlockerTableIs(init, d);
      ReportsAtSnoc(init, reqs[n], d);
    }
  }

  lemma ReportsAtSnoc(init: seq<Requirement>, r: Requirement, d: string)
    ensures (exists i :: ReportsAt(init + [r], i, d)) <==>
            (exists i :: ReportsAt(init, i, d)) || (r.domainId == d && Reports(r))
  {
    var reqs := init + [r];
    if i :| ReportsAt(reqs, i, d) && i < |init| {
      assert reqs[i] == init[i] && ReportsAt(init, i, d);
    }
    if i :| ReportsAt(init, i, d) {
      assert reqs[i] == init[i] && ReportsAt(reqs, i, d);
    }
    if r.domainId == d && Reports(r) {
      assert reqs[|init|] == r && ReportsAt(reqs, |init|, d);
    }
  }

  // ----- Duplicate detection -----

  predicate ActiveIn(reqs: seq<Requirement>, i: int, d: string) {
    0 <= i < |reqs| && reqs[i].domainId == d && IsActiveOwner(reqs[i])
  }

  lemma {:induction false} OwnerTableIs(reqs: seq<Requirement>, d: string, owner: string)
    ensures owner in OwnersOf(OwnerTable(reqs), d) <==> exists i :: ActiveIn(reqs, i, d) && reqs[i].ownerModule == owner
  {
    if reqs != [] {
      var init, n := reqs[..|reqs| - 1], |reqs| - 1;
      OwnerTableIs(init, d, owner);
      assert forall i :: ActiveIn(init, i, d) ==> ActiveIn(reqs, i, d) && reqs[i] == init[i];
      assert forall i :: ActiveIn(reqs, i, d) && i < n ==> ActiveIn(init, i, d);
      assert ActiveIn(reqs, n, d) <==> reqs[n].domainId == d && IsActiveOwner(reqs[n]);
    }
  }

  lemma TwoElements<T>(s: set<T>)
    ensures |s| > 1 <==> exists a, b :: a in s && b in s && a != b
  {
    if |s| > 1 {
      var a :| a in s;
      assert |s - {a}| > 0;
      var b :| b in s - {a};
    }
    if a, b :| a in s && b in s && a != b {
      assert {a, b} <= s;
      assert |s - {a, b}| == |s| - 2;
    }
  }

  lemma {:induction false} DuplicateOwnersIs(order: seq<string>, owners: map<string, set<string>>, d: string)
    ensures DuplicateActiveOwner(d) in DuplicateOwners(order, owners) <==> d in order && |OwnersOf(owners, d)| > 1
    ensures forall b :: b in DuplicateOwners(order, owners) ==> b.DuplicateActiveOwner?
  {
    if order != [] {
      var init, n := order[..|order| - 1], |order| - 1;
      DuplicateOwnersIs(init, owners, d);
      assert order == init + [order[n]];
    }
  }

  /** The first record of the domain and the later record `j` are both active. */
  predicate RepeatsFirst(reqs: seq<Requirement>, i: int, j: int, d: string) {
    FirstAt(reqs, i, d) && IsActiveOwner(reqs[i]) && i < j && ActiveIn(reqs, j, d)
  }

  lemma {:induction false} DuplicateRequirementsKind(reqs: seq<Requirement>)
    ensures forall b :: b in DuplicateRequirements(reqs) ==> b.DuplicateActiveRequirement?
  {
    if reqs != [] {
      DuplicateRequirementsKind(reqs[..|reqs| - 1]);
    }
  }

  lemma RepeatsFirstSnoc(init: seq<Requirement>, r: Requirement, d: string)
    ensures (exists i, j :: RepeatsFirst(init + [r], i, j, d)) <==>
            || (exists i, j :: RepeatsFirst(init, i, j, d))
            || (r.domainId == d && IsActiveOwner(r) && d in FirstTable(init) && IsActiveOwner(FirstTable(init)[d]))
  {
    var reqs, n := init + [r], |init|;
    assert forall k :: 0 <= k < n ==> reqs[k] == init[k];
    if i, j :| RepeatsFirst(reqs, i, j, d) {
      assert FirstAt(init, i, d);
      FirstTableIs(init, i, d);
      if j < n {
        assert RepeatsFirst(init, i, j, d);
      }
    }
    if i, j :| RepeatsFirst(init, i, j, d) {
      assert RepeatsFirst(reqs, i, j, d);
    }
    if r.domainId == d && IsActiveOwner(r) && d in FirstTable(init) && IsActiveOwner(FirstTable(init)[d]) {
      FirstTableHas(init, d);
      FirstExists(init, d);
      var i :| FirstAt(init, i, d);
      FirstTableIs(init, i, d);
      assert RepeatsFirst(reqs, i, n, d);
    }
  }

  lemma {:induction false} DuplicateRequirementsIs(reqs: seq<Requirement>, d: string)
    ensures DuplicateActiveRequirement(d) in DuplicateRequirements(reqs) <==> exists i, j :: RepeatsFirst(reqs, i, j, d)
  {
    if reqs != [] {
      var init, n := reqs[..|reqs| - 1], |reqs| - 1;
      DuplicateRequirementsIs(init, d);
      RepeatsFirstSnoc(init, reqs[n], d);
      assert reqs == init + [reqs[n]];
    }
  }

  lemma {:induction false} StillActiveIs(superseded: seq<string>, byDomain: map<string, Requirement>)
    ensures forall b :: b in StillActive(superseded, byDomain) ==> b.SupersededStillActive?
    ensures StillActive(superseded, byDomain) == [] <==>
            forall d :: d in superseded && d in byDomain ==> !IsActiveOwner(byDomain[d])
  {
    if superseded != [] {
      var init, n := superseded[..|superseded| - 1], |superseded| - 1;
      StillActiveIs(init, byDomain);
      assert superseded == init + [superseded[n]];
    }
  }

  predicate RecordSettled(r: Requirement, byDomain: map<string, Requirement>) {
    && (forall d :: d in r.supersedes && d in byDomain ==> !IsActiveOwner(byDomain[d]))
    && (IsTruthy(r.supersededBy) ==> r.supersededBy.value in byDomain)
  }

  lemma SupersessionOfIs(r: Requirement, byDomain: map<string, Requirement>)
    ensures forall b :: b in SupersessionOf(r, byDomain) ==> b.SupersededStillActive? || b.SupersedingMissing?
    ensures SupersessionOf(r, byDomain) == [] <==> RecordSettled(r, byDomain)
  {
    StillActiveIs(r.supersedes, byDomain);
  }

  predicate AllSettled(reqs: seq<Requirement>, byDomain: map<string, Requirement>) {
    forall i :: 0 <= i < |reqs| ==> RecordSettled(reqs[i], byDomain)
  }

  lemma AllSettledSnoc(init: seq<Requirement>, r: Requirement, byDomain: map<string, Requirement>)
    ensures AllSettled(init + [r], byDomain) <==> AllSettled(init, byDomain) && RecordSettled(r, byDomain)
  {
    var reqs := init + [r];
    assert reqs[|init|] == r;
    assert forall i :: 0 <= i < |init| ==> reqs[i] == init[i];
  }

  lemma {:induction false} SupersessionsIs(reqs: seq<Requirement>, byDomain: map<string, Requirement>)
    ensures forall b :: b in Supersessions(reqs, byDomain) ==> b.SupersededStillActive? || b.SupersedingMissing?
    ensures Supersessions(reqs, byDomain) == [] <==> AllSettled(reqs, byDomain)
  {
    if reqs != [] {
      var init, n := reqs[..|reqs| - 1], |reqs| - 1;
      assert reqs == init + [reqs[n]];
      SupersessionsIs(init, byDomain);
      SupersessionOfIs(reqs[n], byDomain);
      AllSettledSnoc(init, reqs[n], byDomain);
    }
  }

  lemma InOneOfFour<T>(a: seq<T>, b: seq<T>, c: seq<T>, d: seq<T>, x: T)
    ensures x in a + b + c + d <==> x in a || x in b || x in c || x in d
  {
  }

  lemma OtherListsHoldNoDuplicates(reqs: seq<Requirement>, legacy: seq<LegacyReport>, x: GlobalBlocker)
    requires x.DuplicateActiveRequirement? || x.DuplicateActiveOwner?
    ensures x !in LegacyBlockers(legacy) && x !in Distinct(Supersessions(reqs, LastTable(reqs)))
  {
    SupersessionsIs(reqs, LastTable(reqs));
  }

  lemma DuplicateListsAreApart(reqs: seq<Requirement>, x: GlobalBlocker)
    ensures x.DuplicateActiveOwner? ==> x !in DuplicateRequirements(reqs)
    ensures x.DuplicateActiveRequirement? ==> x !in DuplicateOwners(OwnerOrder(reqs), OwnerTable(reqs))
  {
    DuplicateRequirementsKind(reqs);
    if x.DuplicateActiveRequirement? {
      DuplicateOwnersIs(OwnerOrder(reqs), OwnerTable(reqs), x.domain);
    }
  }

  /** The blockers of the two duplicate kinds come from their own lists. */
  lemma DuplicatesAreReported(reqs: seq<Requirement>, legacy: seq<LegacyReport>, x: GlobalBlocker)
    requires x.DuplicateActiveRequirement? || x.DuplicateActiveOwner?
    ensures x in Distinct(GlobalBlockers(reqs, legacy)) <==>
            if x.DuplicateActiveOwner? then x in DuplicateOwners(OwnerOrder(reqs), OwnerTable(reqs))
            else x in DuplicateRequirements(reqs)
  {
    var owners := DuplicateOwners(OwnerOrder(reqs), OwnerTable(reqs));
    var supersessions := Distinct(Supersessions(reqs, LastTable(reqs)));
    OtherListsHoldNoDuplicates(reqs, legacy, x);
    DuplicateListsAreApart(reqs, x);
    InOneOfFour(DuplicateRequirements(reqs), owners, LegacyBlockers(legacy), supersessions, x);
  }

  /** Two active records of the domain name different owner modules. */
  predicate OwnersClash(reqs: seq<Requirement>, i: int, j: int, d: string) {
    ActiveIn(reqs, i, d) && ActiveIn(reqs, j, d) && reqs[i].ownerModule != reqs[j].ownerModule
  }

  lemma ClashIffTwoOwners(reqs: seq<Requirement>, d: string)
    ensures |OwnersOf(OwnerTable(reqs), d)| > 1 <==> exists i, j :: OwnersClash(reqs, i, j, d)
  {
    var owners := OwnersOf(OwnerTable(reqs), d);
    TwoElements(owners);
    if a, b :| a in owners && b in owners && a != b {
      OwnerTableIs(reqs, d, a);
      OwnerTableIs(reqs, d, b);
      var i :| ActiveIn(reqs, i, d) && reqs[i].ownerModule == a;
      var j :| ActiveIn(reqs, j, d) && reqs[j].ownerModule == b;
      assert OwnersClash(reqs, i, j, d);
    }
    if i, j :| OwnersClash(reqs, i, j, d) {
      OwnerTableIs(reqs, d, reqs[i].ownerModule);
      OwnerTableIs(reqs, d, reqs[j].ownerModule);
    }
  }

  /** DUPLICATE_ACTIVE_OWNER is reported exactly when two active records name different owners. */
  lemma DuplicateOwnerIsExact(reqs: seq<Requirement>, legacy: seq<LegacyReport>, d: string)
    ensures DuplicateActiveOwner(d) in Distinct(GlobalBlockers(reqs, legacy)) <==>
            exists i, j :: OwnersClash(reqs, i, j, d)
  {
    DuplicatesAreReported(reqs, legacy, DuplicateActiveOwner(d));
    DuplicateOwnersIs(OwnerOrder(reqs), OwnerTable(reqs), d);
    ClashIffTwoOwners(reqs, d);
  }

  /**
   DUPLICATE_ACTIVE_REQUIREMENT is reported exactly when the first record of the domain and
   some later one are both active; two active records after an inactive first one are not.
   */
  lemma DuplicateRequirementIsExact(reqs: seq<Requirement>, legacy: seq<LegacyReport>, d: string)
    ensures DuplicateActiveRequirement(d) in Distinct(GlobalBlockers(reqs, legacy)) <==>
            exists i, j :: RepeatsFirst(reqs, i, j, d)
  {
    DuplicatesAreReported(reqs, legacy, DuplicateActiveRequirement(d));
    DuplicateRequirementsIs(reqs, d);
  }

  // ----- The flags, for distinct domains -----

  predicate DistinctDomains(reqs: seq<Requirement>) {
    forall i, j :: 0 <= i < j < |reqs| ==> reqs[i].domainId != reqs[j].domainId
  }

  /** Nothing superseded is still active, and every named successor is among the records. */
  ghost predicate Settled(reqs: seq<Requirement>) {
    && (forall r, q :: r in reqs && q in reqs && q.domainId in r.supersedes ==> !IsActiveOwner(q))
    && (forall r :: r in reqs && IsTruthy(r.supersededBy) ==>
                      exists q :: q in reqs && q.domainId == r.supersededBy.value)
  }

  /** Legacy reports are compatible with readiness only when there is at most one. */
  lemma LegacyIsCleanIff(legacy: seq<LegacyReport>)
    ensures LegacyBlockers(legacy) == [] <==> |legacy| <= 1
  {
    if |legacy| == 1 {
      assert Answers(legacy) == {(legacy[0].paperReady, legacy[0].liveReady, legacy[0].productionReady)};
    } else if legacy == [] {
      assert Answers(legacy) == {};
    }
  }

  lemma DistinctHasNoDuplicates(reqs: seq<Requirement>)
    requires DistinctDomains(reqs)
    ensures DuplicateRequirements(reqs) == [] && DuplicateOwners(OwnerOrder(reqs), OwnerTable(reqs)) == []
  {
    var order, owners := OwnerOrder(reqs), OwnerTable(reqs);
    if DuplicateRequirements(reqs) != [] {
      DuplicateRequirementsKind(reqs);
      var b := DuplicateRequirements(reqs)[0];
      DuplicateRequirementsIs(reqs, b.domain);
    }
    if DuplicateOwners(order, owners) != [] {
      DuplicateOwnersIs(order, owners, "");
      var d := DuplicateOwners(order, owners)[0].domain;
      DuplicateOwnersIs(order, owners, d);
      DuplicateOwnerIsExact(reqs, [], d);
    }
  }

  lemma LastOfDistinct(reqs: seq<Requirement>, i: int)
    requires DistinctDomains(reqs) && 0 <= i < |reqs|
    ensures reqs[i].domainId in LastTable(reqs) && LastTable(reqs)[reqs[i].domainId] == reqs[i]
    ensures reqs[i].domainId in FirstTable(reqs) && FirstTable(reqs)[reqs[i].domainId] == reqs[i]
  {
    var d := reqs[i].domainId;
    LastTableIs(reqs, i, d);
    assert FirstAt(reqs, i, d);
    FirstTableIs(reqs, i, d);
  }

  lemma LastTableHolds(reqs: seq<Requirement>, d: string)
    requires DistinctDomains(reqs) && d in LastTable(reqs)
    ensures LastTable(reqs)[d] in reqs && LastTable(reqs)[d].domainId == d
  {
    LastTableHas(reqs, d);
    var k :| DomainAt(reqs, k, d);
    LastOfDistinct(reqs, k);
  }

  lemma RecordSettledIff(reqs: seq<Requirement>, r: Requirement)
    requires DistinctDomains(reqs)
    ensures RecordSettled(r, LastTable(reqs)) <==>
            && (forall q :: q in reqs && q.domainId in r.supersedes ==> !IsActiveOwner(q))
            && (IsTruthy(r.supersededBy) ==> exists q :: q in reqs && q.domainId == r.supersededBy.value)
  {
    var last := LastTable(reqs);
    forall q | q in reqs ensures q.domainId in last && last[q.domainId] == q {
      var i :| 0 <= i < |reqs| && reqs[i] == q;
      LastOfDistinct(reqs, i);
    }
    forall d | d in last ensures last[d] in reqs && last[d].domainId == d {
      LastTableHolds(reqs, d);
    }
  }

  lemma SettledIff(reqs: seq<Requirement>)
    requires DistinctDomains(reqs)
    ensures Supersessions(reqs, LastTable(reqs)) == [] <==> Settled(reqs)
  {
    SupersessionsIs(reqs, LastTable(reqs));
    forall i | 0 <= i < |reqs|
      ensures RecordSettled(reqs[i], LastTable(reqs)) <==>
              && (forall q :: q in reqs && q.domainId in reqs[i].supersedes ==> !IsActiveOwner(q))
              && (IsTruthy(reqs[i].supersededBy) ==> exists q :: q in reqs && q.domainId == reqs[i].supersededBy.value)
    {
      RecordSettledIff(reqs, reqs[i]);
    }
  }

  lemma GlobalIsCleanIff(reqs: seq<Requirement>, legacy: seq<LegacyReport>)
    requires DistinctDomains(reqs)
    ensures GlobalBlockers(reqs, legacy) == [] <==> |legacy| <= 1 && Settled(reqs)
  {
    DistinctHasNoDuplicates(reqs);
    LegacyIsCleanIff(legacy);
    SettledIff(reqs);
    DistinctIsEmptyIff(Supersessions(reqs, LastTable(reqs)));
  }

  lemma SomeBlocksIff(reqs: seq<Requirement>, blocks: Requirement -> bool)
    requires DistinctDomains(reqs) && AllWellFormed(reqs)
    requires forall d :: d in BlockerTable(reqs) ==> d in FirstTable(reqs)
    ensures SomeBlocks(BlockerTable(reqs), FirstTable(reqs), blocks) <==>
            exists r :: r in reqs && Reports(r) && blocks(r)
  {
    var table, first := BlockerTable(reqs), FirstTable(reqs);
    if d :| d in table && blocks(first[d]) {
      BlockerTableIs(reqs, d);
      var i :| ReportsAt(reqs, i, d);
      LastOfDistinct(reqs, i);
      assert reqs[i] in reqs;
    }
    if r :| r in reqs && Reports(r) && blocks(r) {
      var i :| 0 <= i < |reqs| && reqs[i] == r;
      BlockerTableIs(reqs, r.domainId);
      assert ReportsAt(reqs, i, r.domainId);
      LastOfDistinct(reqs, i);
    }
  }

  /** Ready for the uses that `blocks` guards: stated by membership, so without order. */
  ghost predicate ReadyFor(reqs: seq<Requirement>, legacy: seq<LegacyReport>, blocks: Requirement -> bool) {
    |legacy| <= 1 && Settled(reqs) && forall r :: r in reqs && Reports(r) ==> !blocks(r)
  }

  /** What the three flags mean for records with distinct domains. */
  lemma FlagsMean(reqs: seq<Requirement>, legacy: seq<LegacyReport>, release: string)
    requires DistinctDomains(reqs) && Accepts(reqs, legacy, release)
    ensures var s := Evaluate(reqs, legacy, release).value;
            && (s.paperReady <==> ReadyFor(reqs, legacy, BlocksPaper))
            && (s.liveReady <==> ReadyFor(reqs, legacy, BlocksLiveUse))
            && (s.productionReady <==> ReadyFor(reqs, legacy, BlocksProductionUse))
  {
    BlockedDomainsAreSeen(reqs);
    GlobalIsCleanIff(reqs, legacy);
    SomeBlocksIff(reqs, BlocksPaper);
    SomeBlocksIff(reqs, BlocksLiveUse);
    SomeBlocksIff(reqs, BlocksProductionUse);
  }

  // ----- Order, monotonicity, authority -----

  /** The three readiness flags. */
  datatype Flags = Flags(paper: bool, live: bool, production: bool)

  function FlagsOf(s: State): Flags {
    Flags(s.paperReady, s.liveReady, s.productionReady)
  }

  lemma PermutationKeepsMembers(reqs: seq<Requirement>, other: seq<Requirement>)
    requires multiset(reqs) == multiset(other)
    ensures forall r :: r in reqs <==> r in other
  {
    assert forall r :: r in reqs <==> r in multiset(reqs);
    assert forall r :: r in other <==> r in multiset(other);
  }

  lemma MembersDecideWellFormedness(reqs: seq<Requirement>, other: seq<Requirement>)
    requires forall r :: r in reqs <==> r in other
    ensures AllWellFormed(reqs) ==> AllWellFormed(other)
  {
    if AllWellFormed(reqs) {
      forall i | 0 <= i < |other| ensures BlockersOf(other[i]).Success? {
        assert other[i] in reqs;
      }
    }
  }

  lemma MembersDecideReadiness(
    reqs: seq<Requirement>, other: seq<Requirement>, legacy: seq<LegacyReport>, blocks: Requirement -> bool)
    requires forall r :: r in reqs <==> r in other
    ensures ReadyFor(reqs, legacy, blocks) <==> ReadyFor(other, legacy, blocks)
  {
  }

  lemma FlagsAreReadiness(reqs: seq<Requirement>, legacy: seq<LegacyReport>, release: string)
    requires DistinctDomains(reqs) && Accepts(reqs, legacy, release)
    ensures FlagsOf(Evaluate(reqs, legacy, release).value) ==
            Flags(ReadyFor(reqs, legacy, BlocksPaper), ReadyFor(reqs, legacy, BlocksLiveUse),
                  ReadyFor(reqs, legacy, BlocksProductionUse))
  {
    FlagsMean(reqs, legacy, release);
  }

  lemma MembersDecideAcceptance(
    reqs: seq<Requirement>, other: seq<Requirement>, legacy: seq<LegacyReport>, release: string)
    requires multiset(reqs) == multiset(other)
    ensures Evaluate(reqs, legacy, release).Success? ==> Evaluate(other, legacy, release).Success?
  {
    PermutationKeepsMembers(reqs, other);
    MembersDecideWellFormedness(reqs, other);
    assert |multiset(reqs)| == |reqs| && |multiset(other)| == |other|;
  }

  /** For distinct domains the flags, and whether the evaluation raises, do not depend on order. */
  lemma OrderDoesNotMatter(
    reqs: seq<Requirement>, other: seq<Requirement>, legacy: seq<LegacyReport>, release: string)
    requires DistinctDomains(reqs) && DistinctDomains(other) && multiset(reqs) == multiset(other)
    ensures Evaluate(reqs, legacy, release).Success? <==> Evaluate(other, legacy, release).Success?
    ensures Evaluate(reqs, legacy, release).Success? ==>
              FlagsOf(Evaluate(reqs, legacy, release).value) == FlagsOf(Evaluate(other, legacy, release).value)
  {
    MembersDecideAcceptance(reqs, other, legacy, release);
    MembersDecideAcceptance(other, reqs, legacy, release);
    if Evaluate(reqs, legacy, release).Success? {
      PermutationKeepsMembers(reqs, other);
      FlagsAreReadiness(reqs, legacy, release);
      FlagsAreReadiness(other, legacy, release);
      MembersDecideReadiness(reqs, other, legacy, BlocksPaper);
      MembersDecideReadiness(reqs, other, legacy, BlocksLiveUse);
      MembersDecideReadiness(reqs, other, legacy, BlocksProductionUse);
    }
  }

  /** The same records with, in each, the same or more stated blockers. */
  predicate MoreBlocked(reqs: seq<Requirement>, worse: seq<Requirement>) {
    |reqs| == |worse| && forall i :: 0 <= i < |reqs| ==> WorseRecord(reqs[i], worse[i])
  }

  predicate WorseRecord(r: Requirement, worse: Requirement) {
    worse == r.(blockers := worse.blockers) && (r.blockers != [] ==> worse.blockers != [])
  }

  lemma WorseRecordReports(r: Requirement, worse: Requirement)
    requires WorseRecord(r, worse) && BlockersOf(r).Success? && BlockersOf(worse).Success?
    ensures Reports(r) ==> Reports(worse)
  {
    RecordIsCleanIff(r);
    RecordIsCleanIff(worse);
  }

  lemma {:induction false} WorseTables(reqs: seq<Requirement>, worse: seq<Requirement>)
    requires MoreBlocked(reqs, worse)
    ensures FirstTable(worse).Keys == FirstTable(reqs).Keys
    ensures forall d :: d in FirstTable(reqs) ==> WorseRecord(FirstTable(reqs)[d], FirstTable(worse)[d])
    ensures LastTable(worse).Keys == LastTable(reqs).Keys
    ensures forall d :: d in LastTable(reqs) ==> WorseRecord(LastTable(reqs)[d], LastTable(worse)[d])
  {
    if reqs != [] {
      WorseTables(reqs[..|reqs| - 1], worse[..|reqs| - 1]);
    }
  }

  lemma {:induction false} WorseOwners(reqs: seq<Requirement>, worse: seq<Requirement>)
    requires MoreBlocked(reqs, worse)
    ensures OwnerTable(worse) == OwnerTable(reqs) && OwnerOrder(worse) == OwnerOrder(reqs)
    ensures DuplicateRequirements(worse) == DuplicateRequirements(reqs)
  {
    if reqs != [] {
      WorseOwners(reqs[..|reqs| - 1], worse[..|reqs| - 1]);
      WorseTables(reqs[..|reqs| - 1], worse[..|reqs| - 1]);
    }
  }

  lemma WorseSupersessions(reqs: seq<Requirement>, worse: seq<Requirement>)
    requires MoreBlocked(reqs, worse)
    ensures Supersessions(worse, LastTable(worse)) == [] <==> Supersessions(reqs, LastTable(reqs)) == []
  {
    WorseTables(reqs, worse);
    SupersessionsIs(reqs, LastTable(reqs));
    SupersessionsIs(worse, LastTable(worse));
    forall i | 0 <= i < |reqs|
      ensures RecordSettled(reqs[i], LastTable(reqs)) <==> RecordSettled(worse[i], LastTable(worse))
    {
      assert WorseRecord(reqs[i], worse[i]);
    }
  }

  lemma WorseGlobal(
    reqs: seq<Requirement>, worse: seq<Requirement>, legacy: seq<LegacyReport>, more: seq<LegacyReport>)
    requires MoreBlocked(reqs, worse) && |legacy| <= |more|
    ensures GlobalBlockers(worse, more) == [] ==> GlobalBlockers(reqs, legacy) == []
  {
    WorseOwners(reqs, worse);
    WorseSupersessions(reqs, worse);
    LegacyIsCleanIff(legacy);
    LegacyIsCleanIff(more);
    DistinctIsEmptyIff(Supersessions(reqs, LastTable(reqs)));
    DistinctIsEmptyIff(Supersessions(worse, LastTable(worse)));
  }

  lemma WorseBlockerTable(reqs: seq<Requirement>, worse: seq<Requirement>, d: string)
    requires MoreBlocked(reqs, worse) && AllWellFormed(reqs) && AllWellFormed(worse)
    ensures d in BlockerTable(reqs) ==> d in BlockerTable(worse)
  {
    BlockerTableIs(reqs, d);
    BlockerTableIs(worse, d);
    if i :| ReportsAt(reqs, i, d) {
      assert WorseRecord(reqs[i], worse[i]);
      WorseRecordReports(reqs[i], worse[i]);
      assert ReportsAt(worse, i, d);
    }
  }

  /** Blocking is decided by the mode, which stated blockers leave alone. */
  ghost predicate ByMode(blocks: Requirement -> bool) {
    forall r, worse :: WorseRecord(r, worse) ==> blocks(worse) == blocks(r)
  }

  lemma WorseBlocks(reqs: seq<Requirement>, worse: seq<Requirement>, blocks: Requirement -> bool)
    requires MoreBlocked(reqs, worse) && AllWellFormed(reqs) && AllWellFormed(worse) && ByMode(blocks)
    requires forall d :: d in BlockerTable(reqs) ==> d in FirstTable(reqs)
    requires forall d :: d in BlockerTable(worse) ==> d in FirstTable(worse)
    ensures SomeBlocks(BlockerTable(reqs), FirstTable(reqs), blocks) ==>
              SomeBlocks(BlockerTable(worse), FirstTable(worse), blocks)
  {
    WorseTables(reqs, worse);
    if d :| d in BlockerTable(reqs) && blocks(FirstTable(reqs)[d]) {
      WorseBlockerTable(reqs, worse, d);
    }
  }

  /**
   Adding blockers to any records, or adding legacy reports, never turns a false flag true;
   domains may repeat.
   */
  lemma FlagsAreMonotone(
    reqs: seq<Requirement>, worse: seq<Requirement>, legacy: seq<LegacyReport>, more: seq<LegacyReport>,
    release: string)
    requires MoreBlocked(reqs, worse) && |legacy| <= |more|
    requires Accepts(reqs, legacy, release) && Accepts(worse, more, release)
    ensures var before, after := Evaluate(reqs, legacy, release).value, Evaluate(worse, more, release).value;
            && (after.paperReady ==> before.paperReady) && (after.liveReady ==> before.liveReady)
            && (after.productionReady ==> before.productionReady)
  {
    BlockedDomainsAreSeen(reqs);
    BlockedDomainsAreSeen(worse);
    WorseGlobal(reqs, worse, legacy, more);
    WorseBlocks(reqs, worse, BlocksPaper);
    WorseBlocks(reqs, worse, BlocksLiveUse);
    WorseBlocks(reqs, worse, BlocksProductionUse);
  }

  /** Production readiness implies live readiness, which implies paper readiness. */
  lemma FlagsAreNested(reqs: seq<Requirement>, legacy: seq<LegacyReport>, release: string)
    requires Accepts(reqs, legacy, release)
    ensures var s := Evaluate(reqs, legacy, release).value;
            && (s.productionReady ==> s.liveReady) && (s.liveReady ==> s.paperReady)
            && (s.product.ProductionReady? <==> s.productionReady)
            && (s.product.NotProductionReady? <==> !s.paperReady)
  {
  }

  lemma NothingBlocksIff(reqs: seq<Requirement>)
    requires AllWellFormed(reqs)
    ensures BlockerTable(reqs) == map[] <==> forall r :: r in reqs ==> !Reports(r)
  {
    if r :| r in reqs && Reports(r) {
      var i :| 0 <= i < |reqs| && reqs[i] == r;
      BlockerTableIs(reqs, r.domainId);
      assert ReportsAt(reqs, i, r.domainId);
    }
    if BlockerTable(reqs) != map[] {
      var d :| d in BlockerTable(reqs);
      BlockerTableIs(reqs, d);
      var i :| ReportsAt(reqs, i, d);
      assert reqs[i] in reqs;
    }
  }

  /** The single-authority assertion passes exactly when no record reports and nothing is global. */
  lemma AuthorityIff(reqs: seq<Requirement>, legacy: seq<LegacyReport>, release: string)
    requires Accepts(reqs, legacy, release)
    ensures AssertSingle(Evaluate(reqs, legacy, release).value) <==>
            GlobalBlockers(reqs, legacy) == [] && forall r :: r in reqs ==> !Reports(r)
  {
    DistinctIsEmptyIff(GlobalBlockers(reqs, legacy));
    NothingBlocksIff(reqs);
  }

  /** Passing the assertion implies all three flags; a tracked, non-blocking record is why not back. */
  lemma AuthorityImpliesReady(reqs: seq<Requirement>, legacy: seq<LegacyReport>, release: string)
    requires Accepts(reqs, legacy, release)
    ensures var s := Evaluate(reqs, legacy, release).value;
            AssertSingle(s) ==> FlagsOf(s) == Flags(true, true, true)
  {
    DistinctIsEmptyIff(GlobalBlockers(reqs, legacy));
  }
}
