/**
 The canonical readiness state: requirement records per domain, their blockers, the global
 blockers, and the three readiness flags.
 */
module Readiness {
  import opened Texts
  import opened Wrappers

  datatype BlockingMode = BlocksPaperAndLive | BlocksLive | BlocksProduction | NonBlocking

  datatype ImplementationState =
    | Declared | ImplementationPending | ImplementedIsolated | IntegratedDisabled | IntegratedPaper
    | EvidencePending | ReviewReady | LiveApproved | RevokedOwner | Superseded

  datatype EvidenceState = Absent | DescriptorOnly | ProducedUnverified | VerifiedCurrent | Stale | RevokedEvidence

  datatype Architecture = Architecture(
    cliEntrypoint: string, compositionRoot: string, ownerModule: string, ownerSymbol: string,
    cliImportsComposition: bool, compositionImportsOwner: bool, runtimeUsesOwner: bool,
    isolatedGateOnly: bool, proofHash: Option<string>)

  datatype Package = Package(
    distributionName: string, distributionVersion: string, ownerModule: string,
    sourceDigest: string, wheelDigest: string, activeImportOwner: string, sourceWheelParity: bool)

  datatype Requirement = Requirement(
    domainId: string, title: string, ownerModule: string, mode: BlockingMode,
    implementation: ImplementationState, evidence: EvidenceState,
    evidenceProducer: string, evidenceVerifier: string,
    architecture: Option<Architecture>, package: Option<Package>,
    blockers: seq<string>, supersedes: seq<string>, supersededBy: Option<string>,
    removalCriteria: Option<string>, evidenceExpiresAtNs: Option<int>)

  datatype LegacyReport = LegacyReport(
    systemId: string, paperReady: bool, liveReady: bool, productionReady: bool, reportHash: string)

  datatype GlobalBlocker =
    | DuplicateActiveRequirement(domain: string)
    | DuplicateActiveOwner(domain: string)
    | LegacyReportsDiverge
    | MultipleLegacyTruthPlanes
    | SupersededStillActive(domain: string)
    | SupersedingMissing(domain: string)

  datatype ProductState = NotProductionReady | PaperReviewReady | LiveCanaryReviewReady | ProductionReady

  datatype State = State(
    product: ProductState, paperReady: bool, liveReady: bool, productionReady: bool,
    requirementBlockers: map<string, seq<string>>, globalBlockers: seq<GlobalBlocker>)

  datatype Error = Malformed

  // ----- The codes a record may report -----

  const CLI_DOES_NOT_IMPORT_COMPOSITION_ROOT := "CLI_DOES_NOT_IMPORT_COMPOSITION_ROOT"
  const COMPOSITION_DOES_NOT_IMPORT_OWNER := "COMPOSITION_DOES_NOT_IMPORT_OWNER"
  const RUNTIME_DOES_NOT_USE_OWNER := "RUNTIME_DOES_NOT_USE_OWNER"
  const ISOLATED_GATE_ONLY_CANNOT_CLOSE_INTEGRATION := "ISOLATED_GATE_ONLY_CANNOT_CLOSE_INTEGRATION"
  const ACTIVE_IMPORT_OWNER_MISMATCH := "ACTIVE_IMPORT_OWNER_MISMATCH"
  const SOURCE_WHEEL_PARITY_NOT_PROVEN := "SOURCE_WHEEL_PARITY_NOT_PROVEN"
  const ACTIVE_RUNTIME_BINDING_PROOF_MISSING := "ACTIVE_RUNTIME_BINDING_PROOF_MISSING"
  const PACKAGE_BINDING_PROOF_MISSING := "PACKAGE_BINDING_PROOF_MISSING"
  const REQUIREMENT_OWNER_REVOKED := "REQUIREMENT_OWNER_REVOKED"
  const EVIDENCE_MISSING := "EVIDENCE_MISSING"
  const EVIDENCE_STALE := "EVIDENCE_STALE"
  const EVIDENCE_REVOKED := "EVIDENCE_REVOKED"
  const DESCRIPTOR_ONLY_CANNOT_CLOSE_READINESS := "DESCRIPTOR_ONLY_CANNOT_CLOSE_READINESS"
  const LIVE_APPROVAL_REQUIRES_CURRENT_VERIFIED_EVIDENCE := "LIVE_APPROVAL_REQUIRES_CURRENT_VERIFIED_EVIDENCE"
  const LIVE_APPROVAL_HAS_OPEN_BLOCKERS := "LIVE_APPROVAL_HAS_OPEN_BLOCKERS"
  const SUPERSEDED_REQUIREMENT_NEEDS_REMOVAL_CRITERIA := "SUPERSEDED_REQUIREMENT_NEEDS_REMOVAL_CRITERIA"

  // ----- Well-formed fields -----

  predicate IsHash(s: string) {
    IsLowerHex(s, 64)
  }

  predicate IsDigit(c: char) {
    '0' <= c <= '9'
  }

  predicate IsWord(c: char) {
    'a' <= c <= 'z' || IsDigit(c)
  }

  /** Two separators in a row, the second at `i`. */
  predicate IsDoubled(s: string, i: int)
    requires 0 < i < |s|
  {
    !IsWord(s[i - 1]) && !IsWord(s[i])
  }

  /** Lower-case words, the first starting with a letter, separated by single dots or dashes. */
  predicate IsDottedName(s: string) {
    && s != "" && 'a' <= s[0] <= 'z' && IsWord(s[|s| - 1])
    && (forall i :: 0 <= i < |s| ==> IsWord(s[i]) || s[i] == '.' || s[i] == '-')
    && (forall i :: 0 < i < |s| ==> !IsDoubled(s, i))
  }

  /** The characters from `i` to `j` are a whole word made of "pr" and digits. */
  predicate IsPrNumber(s: string, i: nat, j: nat)
    requires j <= |s|
  {
    && i + 2 < j && s[i] == 'p' && s[i + 1] == 'r' && (forall k :: i + 2 <= k < j ==> IsDigit(s[k]))
    && (i == 0 || !IsWord(s[i - 1])) && (j == |s| || !IsWord(s[j]))
  }

  predicate IsDomainId(s: string) {
    && IsDottedName(s)
    && !(|s| >= 3 && s[0] == 'p' && s[1] == 'r' && s[2] == '-')
    && !exists i, j :: 0 <= i < j <= |s| && IsPrNumber(s, i, j)
  }

  predicate IsTruthy(s: Option<string>) {
    s.Some? && s.value != ""
  }

  predicate IsValid(r: Requirement) {
    && IsDomainId(r.domainId) && IsNonempty(r.title) && IsNonempty(r.ownerModule)
    && IsNonempty(r.evidenceProducer) && IsNonempty(r.evidenceVerifier)
    && r.evidenceProducer != r.evidenceVerifier
    && (r.evidenceExpiresAtNs.Some? ==> r.evidenceExpiresAtNs.value >= 0)
    && r.supersededBy != Some(r.domainId)
  }

  // ----- One record -----

  predicate IsActiveOwner(r: Requirement) {
    r.implementation != Superseded && r.implementation != RevokedOwner && r.supersededBy.None?
  }

  predicate BlocksPaper(r: Requirement) {
    r.mode == BlocksPaperAndLive
  }

  predicate BlocksLiveUse(r: Requirement) {
    r.mode == BlocksPaperAndLive || r.mode == BlocksLive
  }

  predicate BlocksProductionUse(r: Requirement) {
    r.mode != NonBlocking
  }

  function AppendIf(list: seq<string>, condition: bool, text: string): seq<string> {
    if condition then list + [text] else list
  }

  function ArchitectureBlockers(list: seq<string>, a: Architecture): Result<seq<string>, Error> {
    if !IsNonempty(a.cliEntrypoint) || !IsNonempty(a.compositionRoot) || !IsNonempty(a.ownerModule)
       || !IsNonempty(a.ownerSymbol) || (a.proofHash.Some? && !IsHash(a.proofHash.value))
    then Failure(Malformed)
    else
      var cli := AppendIf(list, !a.cliImportsComposition, CLI_DOES_NOT_IMPORT_COMPOSITION_ROOT);
      var root := AppendIf(cli, !a.compositionImportsOwner, COMPOSITION_DOES_NOT_IMPORT_OWNER);
      var used := AppendIf(root, !a.runtimeUsesOwner, RUNTIME_DOES_NOT_USE_OWNER);
      Success(AppendIf(used, a.isolatedGateOnly, ISOLATED_GATE_ONLY_CANNOT_CLOSE_INTEGRATION))
  }

  function PackageBlockers(list: seq<string>, p: Package): Result<seq<string>, Error> {
    if !IsNonempty(p.distributionName) || !IsNonempty(p.distributionVersion) || !IsNonempty(p.ownerModule)
       || !IsHash(p.sourceDigest) || !IsHash(p.wheelDigest) || !IsNonempty(p.activeImportOwner)
    then Failure(Malformed)
    else
      var owner := AppendIf(list, p.activeImportOwner != p.ownerModule, ACTIVE_IMPORT_OWNER_MISMATCH);
      Success(AppendIf(owner, !p.sourceWheelParity, SOURCE_WHEEL_PARITY_NOT_PROVEN))
  }

  /** `dict.fromkeys`: first occurrences, in order. */
  function Distinct<T(==,!new)>(list: seq<T>): (r: seq<T>)
    ensures forall x :: x in r <==> x in list
    ensures forall i, j :: 0 <= i < j < |r| ==> r[i] != r[j]
  {
    if list == [] then []
    else
      var init, last := list[..|list| - 1], list[|list| - 1];
      assert list == init + [last];
      if last in Distinct(init) then Distinct(init) else Distinct(init) + [last]
  }

  /** States in which the owner claims to be implemented, so that its binding must be proved. */
  predicate ClaimsImplementation(i: ImplementationState) {
    i.ImplementedIsolated? || i.IntegratedDisabled? || i.IntegratedPaper? || i.EvidencePending?
    || i.ReviewReady? || i.LiveApproved?
  }

  function BindingBlockers(list: seq<string>, r: Requirement): Result<seq<string>, Error> {
    if !ClaimsImplementation(r.implementation) then Success(list)
    else
      var architecture :-
        (match r.architecture
         case None => Success(list + [ACTIVE_RUNTIME_BINDING_PROOF_MISSING])
         case Some(a) => ArchitectureBlockers(list, a));
      match r.package
      case None => Success(architecture + [PACKAGE_BINDING_PROOF_MISSING])
      case Some(p) => PackageBlockers(architecture, p)
  }

  function StatedBlockers(r: Requirement): seq<string> {
    var revoked := AppendIf(Distinct(r.blockers), r.implementation.RevokedOwner?, REQUIREMENT_OWNER_REVOKED);
    var absent := AppendIf(revoked, r.evidence.Absent?, EVIDENCE_MISSING);
    var stale := AppendIf(absent, r.evidence.Stale?, EVIDENCE_STALE);
    var withdrawn := AppendIf(stale, r.evidence.RevokedEvidence?, EVIDENCE_REVOKED);
    AppendIf(withdrawn, r.evidence.DescriptorOnly? && BlocksProductionUse(r), DESCRIPTOR_ONLY_CANNOT_CLOSE_READINESS)
  }

  function LiveBlockers(list: seq<string>, r: Requirement): seq<string> {
    if !r.implementation.LiveApproved? then list
    else
      var verified :=
        AppendIf(list, !r.evidence.VerifiedCurrent?, LIVE_APPROVAL_REQUIRES_CURRENT_VERIFIED_EVIDENCE);
      AppendIf(verified, BlocksLiveUse(r) && verified != [], LIVE_APPROVAL_HAS_OPEN_BLOCKERS)
  }

  function BlockersOf(r: Requirement): Result<seq<string>, Error> {
    if !IsValid(r) then Failure(Malformed)
    else
      var bound :- BindingBlockers(StatedBlockers(r), r);
      var live := LiveBlockers(bound, r);
      Success(Distinct(
                AppendIf(live, IsTruthy(r.supersededBy) && !IsTruthy(r.removalCriteria),
                         SUPERSEDED_REQUIREMENT_NEEDS_REMOVAL_CRITERIA)))
  }

  // ----- The tables built over a list of records -----

  predicate AllWellFormed(reqs: seq<Requirement>) {
    forall i :: 0 <= i < |reqs| ==> BlockersOf(reqs[i]).Success?
  }

  /** The last non-empty blockers reported for each domain. */
  function BlockerTable(reqs: seq<Requirement>): map<string, seq<string>>
    requires AllWellFormed(reqs)
  {
    if reqs == [] then map[]
    else
      var init, r := BlockerTable(reqs[..|reqs| - 1]), reqs[|reqs| - 1];
      var blockers := BlockersOf(r).value;
      if blockers == [] then init else init[r.domainId := blockers]
  }

  /** The first record of each domain. */
  function FirstTable(reqs: seq<Requirement>): map<string, Requirement> {
    if reqs == [] then map[]
    else
      var init, r := FirstTable(reqs[..|reqs| - 1]), reqs[|reqs| - 1];
      if r.domainId in init then init else init[r.domainId := r]
  }

  /** The last record of each domain. */
  function LastTable(reqs: seq<Requirement>): map<string, Requirement> {
    if reqs == [] then map[]
    else
      var r := reqs[|reqs| - 1];
      LastTable(reqs[..|reqs| - 1])[r.domainId := r]
  }

  function DuplicateRequirements(reqs: seq<Requirement>): seq<GlobalBlocker> {
    if reqs == [] then []
    else
      var init, r := reqs[..|reqs| - 1], reqs[|reqs| - 1];
      DuplicateRequirements(init)
      + if r.domainId in FirstTable(init) && IsActiveOwner(r) && IsActiveOwner(FirstTable(init)[r.domainId])
        then [DuplicateActiveRequirement(r.domainId)] else []
  }

  function OwnersOf(owners: map<string, set<string>>, domain: string): set<string> {
    if domain in owners then owners[domain] else {}
  }

  /** The owner modules of each domain's active records. */
  function OwnerTable(reqs: seq<Requirement>): map<string, set<string>> {
    if reqs == [] then map[]
    else
      var init, r := OwnerTable(reqs[..|reqs| - 1]), reqs[|reqs| - 1];
      if IsActiveOwner(r) then init[r.domainId := OwnersOf(init, r.domainId) + {r.ownerModule}] else init
  }

  /** Its keys in the order they were inserted. */
  function OwnerOrder(reqs: seq<Requirement>): (r: seq<string>)
    ensures forall d :: d in r <==> d in OwnerTable(reqs)
  {
    if reqs == [] then []
    else
      var init, r := OwnerOrder(reqs[..|reqs| - 1]), reqs[|reqs| - 1];
      if IsActiveOwner(r) && r.domainId !in init then init + [r.domainId] else init
  }

  function DuplicateOwners(order: seq<string>, owners: map<string, set<string>>): seq<GlobalBlocker> {
    if order == [] then []
    else
      var last := order[|order| - 1];
      DuplicateOwners(order[..|order| - 1], owners)
      + if |OwnersOf(owners, last)| > 1 then [DuplicateActiveOwner(last)] else []
  }

  function Answers(reports: seq<LegacyReport>): set<(bool, bool, bool)> {
    set i | 0 <= i < |reports| :: (reports[i].paperReady, reports[i].liveReady, reports[i].productionReady)
  }

  predicate ReportsValid(reports: seq<LegacyReport>) {
    forall i :: 0 <= i < |reports| ==> IsNonempty(reports[i].systemId) && IsHash(reports[i].reportHash)
  }

  function LegacyBlockers(reports: seq<LegacyReport>): seq<GlobalBlocker> {
    (if |Answers(reports)| > 1 then [LegacyReportsDiverge] else [])
    + if |reports| > 1 then [MultipleLegacyTruthPlanes] else []
  }

  function StillActive(superseded: seq<string>, byDomain: map<string, Requirement>): seq<GlobalBlocker> {
    if superseded == [] then []
    else
      var last := superseded[|superseded| - 1];
      StillActive(superseded[..|superseded| - 1], byDomain)
      + if last in byDomain && IsActiveOwner(byDomain[last]) then [SupersededStillActive(last)] else []
  }

  function SupersessionOf(r: Requirement, byDomain: map<string, Requirement>): seq<GlobalBlocker> {
    StillActive(r.supersedes, byDomain)
    + if IsTruthy(r.supersededBy) && r.supersededBy.value !in byDomain then [SupersedingMissing(r.domainId)] else []
  }

  function Supersessions(reqs: seq<Requirement>, byDomain: map<string, Requirement>): seq<GlobalBlocker> {
    if reqs == [] then []
    else Supersessions(reqs[..|reqs| - 1], byDomain) + SupersessionOf(reqs[|reqs| - 1], byDomain)
  }

  function GlobalBlockers(reqs: seq<Requirement>, legacy: seq<LegacyReport>): seq<GlobalBlocker> {
    DuplicateRequirements(reqs) + DuplicateOwners(OwnerOrder(reqs), OwnerTable(reqs))
    + LegacyBlockers(legacy) + Distinct(Supersessions(reqs, LastTable(reqs)))
  }

  // ----- The flags -----

  /** A domain with reported blockers whose first record blocks this use. */
  predicate SomeBlocks(table: map<string, seq<string>>, first: map<string, Requirement>, blocks: Requirement -> bool)
    requires forall d :: d in table ==> d in first
  {
    exists d :: d in table && blocks(first[d])
  }

  lemma {:induction false} BlockedDomainsAreSeen(reqs: seq<Requirement>)
    requires AllWellFormed(reqs)
    ensures forall d :: d in BlockerTable(reqs) ==> d in FirstTable(reqs)
  {
    if reqs != [] {
      BlockedDomainsAreSeen(reqs[..|reqs| - 1]);
    }
  }

  function Conclude(
    table: map<string, seq<string>>, first: map<string, Requirement>, global: seq<GlobalBlocker>): State
    requires forall d :: d in table ==> d in first
  {
    var paper := global == [] && !SomeBlocks(table, first, BlocksPaper);
    var live := global == [] && !SomeBlocks(table, first, BlocksLiveUse) && paper;
    var production := global == [] && !SomeBlocks(table, first, BlocksProductionUse) && live;
    var product :=
      if production then ProductionReady
      else if live then LiveCanaryReviewReady
      else if paper then PaperReviewReady
      else NotProductionReady;
    State(product, paper, live, production, table, Distinct(global))
  }

  predicate Accepts(reqs: seq<Requirement>, legacy: seq<LegacyReport>, release: string) {
    reqs != [] && IsNonempty(release) && AllWellFormed(reqs) && ReportsValid(legacy)
  }

  function Evaluate(reqs: seq<Requirement>, legacy: seq<LegacyReport>, release: string): Result<State, Error> {
    if !Accepts(reqs, legacy, release) then Failure(Malformed)
    else
      BlockedDomainsAreSeen(reqs);
      Success(Conclude(BlockerTable(reqs), FirstTable(reqs), GlobalBlockers(reqs, legacy)))
  }

  /** Passes only when no blocker of either kind is left. */
  predicate AssertSingle(s: State) {
    s.globalBlockers == [] && s.requirementBlockers == map[]
  }

  // ----- The loops -----

  method EvaluateBlockers(r: Requirement) returns (blockers: Result<seq<string>, Error>)
    ensures blockers == BlockersOf(r)
  {
    if !IsValid(r) {
      return Failure(Malformed);
    }
    var list := DistinctOf(r.blockers);
    if r.implementation == RevokedOwner {
      list := list + [REQUIREMENT_OWNER_REVOKED];
    }
    match r.evidence {
      case Absent => list := list + [EVIDENCE_MISSING];
      case Stale => list := list + [EVIDENCE_STALE];
      case RevokedEvidence => list := list + [EVIDENCE_REVOKED];
      case _ =>
    }
    if r.evidence == DescriptorOnly && BlocksProductionUse(r) {
      list := list + [DESCRIPTOR_ONLY_CANNOT_CLOSE_READINESS];
    }
    list :- BindingBlockers(list, r);
    if r.implementation == LiveApproved {
      if r.evidence != VerifiedCurrent {
        list := list + [LIVE_APPROVAL_REQUIRES_CURRENT_VERIFIED_EVIDENCE];
      }
      if BlocksLiveUse(r) && list != [] {
        list := list + [LIVE_APPROVAL_HAS_OPEN_BLOCKERS];
      }
    }
    if IsTruthy(r.supersededBy) && !IsTruthy(r.removalCriteria) {
      list := list + [SUPERSEDED_REQUIREMENT_NEEDS_REMOVAL_CRITERIA];
    }
    list := DistinctOf(list);
    return Success(list);
  }

  method DistinctOf<T(==,!new)>(list: seq<T>) returns (r: seq<T>)
    ensures r == Distinct(list)
  {
    var seen: set<T> := {};
    r := [];
    for n := 0 to |list|
      invariant r == Distinct(list[..n])
      invariant forall x :: x in seen <==> x in r
    {
      assert list[..n + 1][..n] == list[..n];
      if list[n] !in seen {
        seen := seen + {list[n]};
        r := r + [list[n]];
      }
    }
    assert list[..|list|] == list;
  }

  method SupersessionBlockers(reqs: seq<Requirement>) returns (r: seq<GlobalBlocker>)
    ensures r == Distinct(Supersessions(reqs, LastTable(reqs)))
  {
    var byDomain: map<string, Requirement> := map[];
    for n := 0 to |reqs|
      invariant byDomain == LastTable(reqs[..n])
    {
      assert reqs[..n + 1][..n] == reqs[..n];
      byDomain := byDomain[reqs[n].domainId := reqs[n]];
    }
    assert reqs[..|reqs|] == reqs;
    var blockers := [];
    for n := 0 to |reqs|
      invariant blockers == Supersessions(reqs[..n], byDomain)
    {
      assert reqs[..n + 1][..n] == reqs[..n];
      var still := StillActiveOf(reqs[n].supersedes, byDomain);
      blockers := blockers + still;
      if IsTruthy(reqs[n].supersededBy) && reqs[n].supersededBy.value !in byDomain {
        blockers := blockers + [SupersedingMissing(reqs[n].domainId)];
      }
    }
    r := DistinctOf(blockers);
  }

  method StillActiveOf(superseded: seq<string>, byDomain: map<string, Requirement>) returns (r: seq<GlobalBlocker>)
    ensures r == StillActive(superseded, byDomain)
  {
    r := [];
    for n := 0 to |superseded|
      invariant r == StillActive(superseded[..n], byDomain)
    {
      assert superseded[..n + 1][..n] == superseded[..n];
      if superseded[n] in byDomain && IsActiveOwner(byDomain[superseded[n]]) {
        r := r + [SupersededStillActive(superseded[n])];
      }
    }
    assert superseded[..|superseded|] == superseded;
  }

  method OwnerBlockers(order: seq<string>, owners: map<string, set<string>>) returns (r: seq<GlobalBlocker>)
    ensures r == DuplicateOwners(order, owners)
  {
    r := [];
    for n := 0 to |order|
      invariant r == DuplicateOwners(order[..n], owners)
    {
      assert order[..n + 1][..n] == order[..n];
      if |OwnersOf(owners, order[n])| > 1 {
        r := r + [DuplicateActiveOwner(order[n])];
      }
    }
    assert order[..|order|] == order;
  }

  /** The dictionaries and the list that the loop over the records fills. */
  datatype Tables = Tables(
    blockers: map<string, seq<string>>, first: map<string, Requirement>,
    owners: map<string, set<string>>, order: seq<string>, duplicates: seq<GlobalBlocker>)

  function TablesOf(reqs: seq<Requirement>): Tables
    requires AllWellFormed(reqs)
  {
    Tables(BlockerTable(reqs), FirstTable(reqs), OwnerTable(reqs), OwnerOrder(reqs), DuplicateRequirements(reqs))
  }

  /** What one record adds to the dictionaries and the list. */
  method AddRecord(t: Tables, r: Requirement, blockers: seq<string>) returns (t': Tables)
    ensures t'.blockers == if blockers == [] then t.blockers else t.blockers[r.domainId := blockers]
    ensures t'.first == if r.domainId in t.first then t.first else t.first[r.domainId := r]
    ensures t'.owners ==
            if IsActiveOwner(r) then t.owners[r.domainId := OwnersOf(t.owners, r.domainId) + {r.ownerModule}]
            else t.owners
    ensures t'.order == if IsActiveOwner(r) && r.domainId !in t.owners then t.order + [r.domainId] else t.order
    ensures t'.duplicates ==
            if r.domainId in t.first && IsActiveOwner(r) && IsActiveOwner(t.first[r.domainId])
            then t.duplicates + [DuplicateActiveRequirement(r.domainId)] else t.duplicates
  {
    t' := t;
    if blockers != [] {
      t' := t'.(blockers := t'.blockers[r.domainId := blockers]);
    }
    if r.domainId in t'.first {
      if IsActiveOwner(r) && IsActiveOwner(t'.first[r.domainId]) {
        t' := t'.(duplicates := t'.duplicates + [DuplicateActiveRequirement(r.domainId)]);
      }
    } else {
      t' := t'.(first := t'.first[r.domainId := r]);
    }
    if IsActiveOwner(r) {
      if r.domainId !in t'.owners {
        t' := t'.(order := t'.order + [r.domainId]);
      }
      t' := t'.(owners := t'.owners[r.domainId := OwnersOf(t'.owners, r.domainId) + {r.ownerModule}]);
    }
  }

  lemma AllWellFormedSnoc(reqs: seq<Requirement>, r: Requirement)
    ensures AllWellFormed(reqs + [r]) <==> AllWellFormed(reqs) && BlockersOf(r).Success?
  {
    var longer := reqs + [r];
    assert longer[|reqs|] == r;
    assert forall i :: 0 <= i < |reqs| ==> longer[i] == reqs[i];
  }

  lemma BlockerTableSnoc(reqs: seq<Requirement>, r: Requirement, blockers: seq<string>)
    requires AllWellFormed(reqs + [r]) && AllWellFormed(reqs) && BlockersOf(r) == Success(blockers)
    ensures BlockerTable(reqs + [r]) ==
            if blockers == [] then BlockerTable(reqs) else BlockerTable(reqs)[r.domainId := blockers]
  {
    assert (reqs + [r])[..|reqs|] == reqs;
  }

  lemma OtherTablesSnoc(reqs: seq<Requirement>, r: Requirement)
    ensures FirstTable(reqs + [r]) ==
            if r.domainId in FirstTable(reqs) then FirstTable(reqs) else FirstTable(reqs)[r.domainId := r]
    ensures OwnerTable(reqs + [r]) ==
            if IsActiveOwner(r)
            then OwnerTable(reqs)[r.domainId := OwnersOf(OwnerTable(reqs), r.domainId) + {r.ownerModule}]
            else OwnerTable(reqs)
    ensures OwnerOrder(reqs + [r]) ==
            if IsActiveOwner(r) && r.domainId !in OwnerTable(reqs) then OwnerOrder(reqs) + [r.domainId]
            else OwnerOrder(reqs)
    ensures DuplicateRequirements(reqs + [r]) ==
            if r.domainId in FirstTable(reqs) && IsActiveOwner(r) && IsActiveOwner(FirstTable(reqs)[r.domainId])
            then DuplicateRequirements(reqs) + [DuplicateActiveRequirement(r.domainId)] else DuplicateRequirements(reqs)
  {
    assert (reqs + [r])[..|reqs|] == reqs;
  }

  lemma TablesSnoc(reqs: seq<Requirement>, r: Requirement, t: Tables, t': Tables)
    requires AllWellFormed(reqs) && t == TablesOf(reqs) && BlockersOf(r).Success?
    requires t'.blockers ==
             if BlockersOf(r).value == [] then t.blockers else t.blockers[r.domainId := BlockersOf(r).value]
    requires t'.first == if r.domainId in t.first then t.first else t.first[r.domainId := r]
    requires t'.owners ==
             if IsActiveOwner(r) then t.owners[r.domainId := OwnersOf(t.owners, r.domainId) + {r.ownerModule}]
             else t.owners
    requires t'.order == if IsActiveOwner(r) && r.domainId !in t.owners then t.order + [r.domainId] else t.order
    requires t'.duplicates ==
             if r.domainId in t.first && IsActiveOwner(r) && IsActiveOwner(t.first[r.domainId])
             then t.duplicates + [DuplicateActiveRequirement(r.domainId)] else t.duplicates
    ensures AllWellFormed(reqs + [r]) && t' == TablesOf(reqs + [r])
  {
    AllWellFormedSnoc(reqs, r);
    BlockerTableSnoc(reqs, r, BlockersOf(r).value);
    OtherTablesSnoc(reqs, r);
  }

  lemma PrefixWellFormed(reqs: seq<Requirement>, n: nat)
    requires n <= |reqs| && AllWellFormed(reqs)
    ensures AllWellFormed(reqs[..n])
  {
  }

  /** One turn of the loop, on what it has built over the records before. */
  method ScanRecord(ghost done: seq<Requirement>, t: Tables, r: Requirement) returns (next: Option<Tables>)
    requires AllWellFormed(done) && t == TablesOf(done)
    ensures next.Some? <==> AllWellFormed(done + [r])
    ensures next.Some? ==> next.value == TablesOf(done + [r])
  {
    AllWellFormedSnoc(done, r);
    var blockers := EvaluateBlockers(r);
    if blockers.Failure? {
      return None;
    }
    var added := AddRecord(t, r, blockers.value);
    TablesSnoc(done, r, t, added);
    return Some(added);
  }

  method ScanRecords(reqs: seq<Requirement>) returns (r: Option<Tables>)
    ensures r.Some? <==> AllWellFormed(reqs)
    ensures r.Some? ==> r.value == TablesOf(reqs)
  {
    var t := Tables(map[], map[], map[], [], []);
    for n := 0 to |reqs|
      invariant AllWellFormed(reqs[..n]) && t == TablesOf(reqs[..n])
    {
      assert reqs[..n + 1] == reqs[..n] + [reqs[n]];
      var next := ScanRecord(reqs[..n], t, reqs[n]);
      if next.None? {
        if AllWellFormed(reqs) {
          PrefixWellFormed(reqs, n + 1);
        }
        return None;
      }
      t := next.value;
    }
    assert reqs[..|reqs|] == reqs;
    return Some(t);
  }

  method EvaluateReadiness(reqs: seq<Requirement>, legacy: seq<LegacyReport>, release: string)
    returns (r: Result<State, Error>)
    ensures r == Evaluate(reqs, legacy, release)
  {
    if reqs == [] || !IsNonempty(release) {
      return Failure(Malformed);
    }
    var scanned := ScanRecords(reqs);
    if scanned.None? || !ReportsValid(legacy) {
      return Failure(Malformed);
    }
    var t := scanned.value;
    var ownerBlockers := OwnerBlockers(t.order, t.owners);
    var supersession := SupersessionBlockers(reqs);
    var global := t.duplicates + ownerBlockers + LegacyBlockers(legacy) + supersession;
    BlockedDomainsAreSeen(reqs);
    return Success(Conclude(t.blockers, t.first, global));
  }
}
