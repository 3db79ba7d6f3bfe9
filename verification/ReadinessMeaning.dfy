/**
 What a readiness state says, stated on the records themselves: which codes a record reports,
 which global blockers there are, what the flags mean by blocking mode, and what is refused.
 */
module ReadinessMeaning {
  import opened Texts
  import opened Wrappers
  import opened Readiness
  import opened ReadinessLaws

  // ----- The codes of one record -----

  /** Implementation states that claim an implemented owner. */
  const IMPLEMENTED: set<ImplementationState> := {
    ImplementedIsolated, IntegratedDisabled, IntegratedPaper, EvidencePending, ReviewReady, LiveApproved}

  predicate IsGiven(s: Option<string>) {
    s != None && s != Some("")
  }

  predicate ReportsEvidence(r: Requirement, code: string) {
    || (code == "REQUIREMENT_OWNER_REVOKED" && r.implementation == RevokedOwner)
    || (code == "EVIDENCE_MISSING" && r.evidence == Absent)
    || (code == "EVIDENCE_STALE" && r.evidence == Stale)
    || (code == "EVIDENCE_REVOKED" && r.evidence == RevokedEvidence)
    || (code == "DESCRIPTOR_ONLY_CANNOT_CLOSE_READINESS" && r.evidence == DescriptorOnly && r.mode != NonBlocking)
  }

  predicate ReportsArchitecture(a: Option<Architecture>, code: string) {
    match a
    case None => code == "ACTIVE_RUNTIME_BINDING_PROOF_MISSING"
    case Some(p) =>
      || (code == "CLI_DOES_NOT_IMPORT_COMPOSITION_ROOT" && !p.cliImportsComposition)
      || (code == "COMPOSITION_DOES_NOT_IMPORT_OWNER" && !p.compositionImportsOwner)
      || (code == "RUNTIME_DOES_NOT_USE_OWNER" && !p.runtimeUsesOwner)
      || (code == "ISOLATED_GATE_ONLY_CANNOT_CLOSE_INTEGRATION" && p.isolatedGateOnly)
  }

  predicate ReportsPackage(a: Option<Package>, code: string) {
    match a
    case None => code == "PACKAGE_BINDING_PROOF_MISSING"
    case Some(p) =>
      || (code == "ACTIVE_IMPORT_OWNER_MISMATCH" && p.activeImportOwner != p.ownerModule)
      || (code == "SOURCE_WHEEL_PARITY_NOT_PROVEN" && !p.sourceWheelParity)
  }

  predicate ReportsBinding(r: Requirement, code: string) {
    r.implementation in IMPLEMENTED && (ReportsArchitecture(r.architecture, code) || ReportsPackage(r.package, code))
  }

  /** Something else is open: a stated blocker, unverified evidence or an unproved binding. */
  predicate IsOpen(r: Requirement) {
    || r.blockers != [] || r.evidence != VerifiedCurrent
    || r.architecture == None || r.package == None
    || !r.architecture.value.cliImportsComposition || !r.architecture.value.compositionImportsOwner
    || !r.architecture.value.runtimeUsesOwner || r.architecture.value.isolatedGateOnly
    || r.package.value.activeImportOwner != r.package.value.ownerModule || !r.package.value.sourceWheelParity
  }

  predicate ReportsApproval(r: Requirement, code: string) {
    && r.implementation == LiveApproved
    && (|| (code == "LIVE_APPROVAL_REQUIRES_CURRENT_VERIFIED_EVIDENCE" && r.evidence != VerifiedCurrent)
        || (code == "LIVE_APPROVAL_HAS_OPEN_BLOCKERS" && r.mode in {BlocksPaperAndLive, BlocksLive} && IsOpen(r)))
  }

  /** The record reports this code. */
  predicate IsReported(r: Requirement, code: string) {
    || code in r.blockers || ReportsEvidence(r, code) || ReportsBinding(r, code) || ReportsApproval(r, code)
    || (code == "SUPERSEDED_REQUIREMENT_NEEDS_REMOVAL_CRITERIA" && IsGiven(r.supersededBy)
        && !IsGiven(r.removalCriteria))
  }

  lemma StatedCodes(r: Requirement, code: string)
    ensures code in StatedBlockers(r) <==> code in r.blockers || ReportsEvidence(r, code)
  {
  }

  lemma ArchitectureCodes(list: seq<string>, a: Architecture, code: string)
    requires ArchitectureBlockers(list, a).Success?
    ensures code in ArchitectureBlockers(list, a).value <==> code in list || ReportsArchitecture(Some(a), code)
  {
  }

  lemma PackageCodes(list: seq<string>, p: Package, code: string)
    requires PackageBlockers(list, p).Success?
    ensures code in PackageBlockers(list, p).value <==> code in list || ReportsPackage(Some(p), code)
  {
  }

  lemma BindingCodes(list: seq<string>, r: Requirement, code: string)
    requires BindingBlockers(list, r).Success?
    ensures code in BindingBlockers(list, r).value <==> code in list || ReportsBinding(r, code)
  {
    if r.implementation in IMPLEMENTED {
      var architecture :=
        match r.architecture
        case None => list + [ACTIVE_RUNTIME_BINDING_PROOF_MISSING]
        case Some(a) => ArchitectureBlockers(list, a).value;
      if r.architecture.Some? {
        ArchitectureCodes(list, r.architecture.value, code);
      }
      if r.package.Some? {
        PackageCodes(architecture, r.package.value, code);
      }
    }
  }

  lemma OpenIff(r: Requirement)
    requires BindingBlockers(StatedBlockers(r), r).Success? && r.implementation == LiveApproved
    ensures IsOpen(r) <==>
            BindingBlockers(StatedBlockers(r), r).value != [] || r.evidence != VerifiedCurrent
  {
    StatedIsCleanIff(r);
    BindingIsCleanIff(StatedBlockers(r), r);
  }

  lemma ApprovalCodes(r: Requirement, code: string)
    requires BindingBlockers(StatedBlockers(r), r).Success?
    ensures var bound := BindingBlockers(StatedBlockers(r), r).value;
            code in LiveBlockers(bound, r) <==> code in bound || ReportsApproval(r, code)
  {
    if r.implementation == LiveApproved {
      OpenIff(r);
    }
  }

  /** A well-formed record reports exactly the codes whose conditions hold, each once. */
  lemma RecordReportsExactly(r: Requirement, code: string)
    requires BlockersOf(r).Success?
    ensures code in BlockersOf(r).value <==> IsReported(r, code)
    ensures forall i, j :: 0 <= i < j < |BlockersOf(r).value| ==> BlockersOf(r).value[i] != BlockersOf(r).value[j]
  {
    StatedCodes(r, code);
    BindingCodes(StatedBlockers(r), r, code);
    ApprovalCodes(r, code);
  }

  // ----- Domain names -----

  predicate IsSmallOrDigit(c: char) {
    97 <= c as int <= 122 || 48 <= c as int <= 57
  }

  predicate IsDigits(s: string) {
    s != "" && forall i :: 0 <= i < |s| ==> 48 <= s[i] as int <= 57
  }

  /** One or more small letters and digits. */
  predicate IsWordText(s: string) {
    s != "" && forall i :: 0 <= i < |s| ==> IsSmallOrDigit(s[i])
  }

  /** Words joined by single dots or dashes, the first beginning with a letter. */
  ghost predicate IsDotted(s: string)
    decreases |s|
  {
    || (IsWordText(s) && 97 <= s[0] as int <= 122)
    || exists k :: 0 <= k < |s| && s[k] in {'.', '-'} && IsDotted(s[..k]) && IsWordText(s[k + 1..])
  }

  /** From `i` to `j` is a whole word: "pr" and a number. */
  predicate IsPrWord(s: string, i: int, j: int) {
    && 0 <= i && i + 2 < j <= |s| && s[i..i + 2] == "pr" && IsDigits(s[i + 2..j])
    && (i == 0 || s[i - 1] in {'.', '-'}) && (j == |s| || s[j] in {'.', '-'})
  }

  ghost predicate NamesPrNumber(s: string) {
    exists i, j :: IsPrWord(s, i, j)
  }

  lemma WordsAre(c: char)
    ensures IsWord(c) <==> IsSmallOrDigit(c)
    ensures IsDigit(c) <==> 48 <= c as int <= 57
  {
  }

  /** Where the last word begins: after the last mark, or at the start. */
  lemma {:induction false} LastWord(s: string) returns (k: int)
    requires s != ""
    ensures -1 <= k < |s| && (k >= 0 ==> !IsWord(s[k])) && forall i :: k < i < |s| ==> IsWord(s[i])
  {
    k := |s| - 1;
    if IsWord(s[k]) {
      k := -1;
      if |s| > 1 {
        k := LastWord(s[..|s| - 1]);
        assert forall i :: 0 <= i < |s| - 1 ==> s[..|s| - 1][i] == s[i];
      }
    }
  }

  lemma DottedPrefix(s: string, k: int)
    requires IsDottedName(s) && 0 < k < |s| && !IsWord(s[k])
    ensures IsDottedName(s[..k])
  {
    assert !IsDoubled(s, k);
    forall i | 0 < i < k ensures !IsDoubled(s[..k], i) {
      assert !IsDoubled(s, i);
    }
  }

  lemma {:induction false} DottedNamesAreDotted(s: string)
    requires IsDottedName(s)
    ensures IsDotted(s)
    decreases |s|
  {
    var k := LastWord(s);
    if k < 0 {
      assert IsWordText(s);
    } else {
      assert k > 0;
      DottedPrefix(s, k);
      DottedNamesAreDotted(s[..k]);
      assert s[k] in {'.', '-'} && IsWordText(s[k + 1..]);
    }
  }

  lemma DottedLonger(s: string, k: int)
    requires 0 < k < |s| - 1 && s[k] in {'.', '-'} && IsDottedName(s[..k]) && IsWordText(s[k + 1..])
    ensures IsDottedName(s)
  {
    assert forall i :: 0 <= i < k ==> s[i] == s[..k][i];
    assert forall i :: k < i < |s| ==> s[i] == s[k + 1..][i - k - 1];
    forall i | 0 < i < |s| ensures !IsDoubled(s, i) {
      if i < k {
        assert !IsDoubled(s[..k], i);
      }
    }
  }

  lemma {:induction false} DottedAreDottedNames(s: string)
    requires IsDotted(s)
    ensures IsDottedName(s)
    decreases |s|
  {
    if !(IsWordText(s) && 97 <= s[0] as int <= 122) {
      var k :| 0 <= k < |s| && s[k] in {'.', '-'} && IsDotted(s[..k]) && IsWordText(s[k + 1..]);
      DottedAreDottedNames(s[..k]);
      DottedLonger(s, k);
    }
  }

  lemma PrWordIff(s: string, i: nat, j: nat)
    requires IsDottedName(s) && j <= |s|
    ensures IsPrWord(s, i, j) <==> IsPrNumber(s, i, j)
  {
    if i + 2 < j {
      assert s[i..i + 2] == "pr" <==> s[i] == 'p' && s[i + 1] == 'r';
      assert forall k :: i + 2 <= k < j ==> s[k] == s[i + 2..j][k - i - 2];
    }
  }

  lemma PrNumbersIff(s: string)
    requires IsDottedName(s)
    ensures NamesPrNumber(s) <==> exists i, j :: 0 <= i < j <= |s| && IsPrNumber(s, i, j)
  {
    if i, j :| IsPrWord(s, i, j) {
      PrWordIff(s, i, j);
    }
    if i, j :| 0 <= i < j <= |s| && IsPrNumber(s, i, j) {
      PrWordIff(s, i, j);
    }
  }

  /** A domain is named by words, never by a pull-request number. */
  ghost predicate IsDomainName(s: string) {
    IsDotted(s) && !("pr-" <= s) && !NamesPrNumber(s)
  }

  lemma DomainIdIff(s: string)
    ensures IsDomainId(s) <==> IsDomainName(s)
  {
    if IsDotted(s) {
      DottedAreDottedNames(s);
    }
    if IsDottedName(s) {
      DottedNamesAreDotted(s);
      PrNumbersIff(s);
    }
  }

  // ----- Well-formed records -----

  predicate HasText(s: string) {
    exists i :: 0 <= i < |s| && !IsBlank(s[i])
  }

  predicate IsDigestText(s: string) {
    |s| == 64 && forall i :: 0 <= i < 64 ==> '0' <= s[i] <= '9' || 'a' <= s[i] <= 'f'
  }

  predicate IsFormedArchitecture(a: Architecture) {
    && HasText(a.cliEntrypoint) && HasText(a.compositionRoot) && HasText(a.ownerModule) && HasText(a.ownerSymbol)
    && (a.proofHash.Some? ==> IsDigestText(a.proofHash.value))
  }

  predicate IsFormedPackage(p: Package) {
    && HasText(p.distributionName) && HasText(p.distributionVersion) && HasText(p.ownerModule)
    && IsDigestText(p.sourceDigest) && IsDigestText(p.wheelDigest) && HasText(p.activeImportOwner)
  }

  /** The proofs that are there are well-formed. */
  predicate HasFormedProofs(r: Requirement) {
    && (r.architecture.Some? ==> IsFormedArchitecture(r.architecture.value))
    && (r.package.Some? ==> IsFormedPackage(r.package.value))
  }

  /** The fields that are read are well-formed; the proofs are read only of an implemented owner. */
  ghost predicate IsFormed(r: Requirement) {
    && IsDomainName(r.domainId) && HasText(r.title) && HasText(r.ownerModule)
    && HasText(r.evidenceProducer) && HasText(r.evidenceVerifier) && r.evidenceProducer != r.evidenceVerifier
    && (r.evidenceExpiresAtNs.Some? ==> r.evidenceExpiresAtNs.value >= 0) && r.supersededBy != Some(r.domainId)
    && (r.implementation in IMPLEMENTED ==> HasFormedProofs(r))
  }

  lemma ArchitectureFormedIff(list: seq<string>, a: Architecture)
    ensures ArchitectureBlockers(list, a).Success? <==> IsFormedArchitecture(a)
  {
  }

  lemma PackageFormedIff(list: seq<string>, p: Package)
    ensures PackageBlockers(list, p).Success? <==> IsFormedPackage(p)
  {
  }

  lemma BindingFormedIff(list: seq<string>, r: Requirement)
    requires r.implementation in IMPLEMENTED
    ensures BindingBlockers(list, r).Success? <==> HasFormedProofs(r)
  {
    var architecture := match r.architecture
                        case None => Success(list + [ACTIVE_RUNTIME_BINDING_PROOF_MISSING])
                        case Some(a) => ArchitectureBlockers(list, a);
    if r.architecture.Some? {
      ArchitectureFormedIff(list, r.architecture.value);
    }
    if architecture.Success? && r.package.Some? {
      PackageFormedIff(architecture.value, r.package.value);
    }
  }

  lemma UnimplementedIsUnread(list: seq<string>, r: Requirement)
    requires r.implementation !in IMPLEMENTED
    ensures BindingBlockers(list, r).Success?
  {
  }

  lemma FormedIff(r: Requirement)
    ensures BlockersOf(r).Success? <==> IsFormed(r)
  {
    DomainIdIff(r.domainId);
    if r.implementation in IMPLEMENTED {
      BindingFormedIff(StatedBlockers(r), r);
    } else {
      UnimplementedIsUnread(StatedBlockers(r), r);
    }
  }

  lemma AllFormedIff(reqs: seq<Requirement>)
    ensures AllWellFormed(reqs) <==> forall r :: r in reqs ==> IsFormed(r)
  {
    forall r | r in reqs ensures BlockersOf(r).Success? <==> IsFormed(r) {
      FormedIff(r);
    }
    if !AllWellFormed(reqs) {
      var i :| 0 <= i < |reqs| && BlockersOf(reqs[i]).Failure?;
      assert reqs[i] in reqs;
    }
  }

  predicate IsFormedReport(l: LegacyReport) {
    HasText(l.systemId) && IsDigestText(l.reportHash)
  }

  lemma ReportsFormedIff(legacy: seq<LegacyReport>)
    ensures ReportsValid(legacy) <==> forall l :: l in legacy ==> IsFormedReport(l)
  {
    forall l ensures IsFormedReport(l) <==> IsNonempty(l.systemId) && IsHash(l.reportHash) {
    }
  }

  /** The evaluation raises exactly on no records, a blank release, or a malformed record or report. */
  lemma AcceptedIff(reqs: seq<Requirement>, legacy: seq<LegacyReport>, release: string)
    ensures Evaluate(reqs, legacy, release).Success? <==>
            && reqs != [] && HasText(release) && (forall r :: r in reqs ==> IsFormed(r))
            && forall l :: l in legacy ==> IsFormedReport(l)
  {
    AllFormedIff(reqs);
    ReportsFormedIff(legacy);
    assert HasText(release) <==> IsNonempty(release);
  }

  // ----- The global blockers -----

  /** The record owns its domain: neither superseded nor revoked, and naming no successor. */
  predicate Owns(r: Requirement) {
    r.implementation !in {Superseded, RevokedOwner} && r.supersededBy == None
  }

  predicate OwnerAt(reqs: seq<Requirement>, i: int, d: string) {
    0 <= i < |reqs| && reqs[i].domainId == d && Owns(reqs[i])
  }

  predicate IsFirstAt(reqs: seq<Requirement>, i: int, d: string) {
    0 <= i < |reqs| && reqs[i].domainId == d && forall k :: 0 <= k < i ==> reqs[k].domainId != d
  }

  predicate IsLastAt(reqs: seq<Requirement>, i: int, d: string) {
    0 <= i < |reqs| && reqs[i].domainId == d && forall k :: i < k < |reqs| ==> reqs[k].domainId != d
  }

  predicate AgainOwned(reqs: seq<Requirement>, i: int, j: int, d: string) {
    IsFirstAt(reqs, i, d) && Owns(reqs[i]) && i < j && OwnerAt(reqs, j, d)
  }

  predicate TwiceOwned(reqs: seq<Requirement>, i: int, j: int, d: string) {
    OwnerAt(reqs, i, d) && OwnerAt(reqs, j, d) && reqs[i].ownerModule != reqs[j].ownerModule
  }

  predicate Diverge(a: LegacyReport, b: LegacyReport) {
    a.paperReady != b.paperReady || a.liveReady != b.liveReady || a.productionReady != b.productionReady
  }

  /** Record `i` names domain `d` as superseded, and the last record of `d` still owns it. */
  predicate SupersedesOwner(reqs: seq<Requirement>, i: int, j: int, d: string) {
    0 <= i < |reqs| && d in reqs[i].supersedes && IsLastAt(reqs, j, d) && Owns(reqs[j])
  }

  /** Record `i` of domain `d` names a successor for which there is no record. */
  predicate LacksSuccessor(reqs: seq<Requirement>, i: int, d: string) {
    && 0 <= i < |reqs| && reqs[i].domainId == d && IsGiven(reqs[i].supersededBy)
    && forall k :: 0 <= k < |reqs| ==> reqs[k].domainId != reqs[i].supersededBy.value
  }

  /** The condition of each global blocker. */
  ghost predicate Holds(reqs: seq<Requirement>, legacy: seq<LegacyReport>, b: GlobalBlocker) {
    match b
    case DuplicateActiveRequirement(d) => exists i, j :: AgainOwned(reqs, i, j, d)
    case DuplicateActiveOwner(d) => exists i, j :: TwiceOwned(reqs, i, j, d)
    case LegacyReportsDiverge => exists a, b :: a in legacy && b in legacy && Diverge(a, b)
    case MultipleLegacyTruthPlanes => |legacy| >= 2
    case SupersededStillActive(d) => exists i, j :: SupersedesOwner(reqs, i, j, d)
    case SupersedingMissing(d) => exists i :: LacksSuccessor(reqs, i, d)
  }

  lemma OwnsIff(r: Requirement)
    ensures Owns(r) <==> IsActiveOwner(r)
  {
  }

  lemma AgainOwnedIff(reqs: seq<Requirement>, d: string)
    ensures (exists i, j :: AgainOwned(reqs, i, j, d)) <==> exists i, j :: RepeatsFirst(reqs, i, j, d)
  {
    if i, j :| AgainOwned(reqs, i, j, d) {
      assert RepeatsFirst(reqs, i, j, d);
    }
    if i, j :| RepeatsFirst(reqs, i, j, d) {
      assert AgainOwned(reqs, i, j, d);
    }
  }

  lemma TwiceOwnedIff(reqs: seq<Requirement>, d: string)
    ensures (exists i, j :: TwiceOwned(reqs, i, j, d)) <==> exists i, j :: OwnersClash(reqs, i, j, d)
  {
    if i, j :| TwiceOwned(reqs, i, j, d) {
      assert OwnersClash(reqs, i, j, d);
    }
    if i, j :| OwnersClash(reqs, i, j, d) {
      assert TwiceOwned(reqs, i, j, d);
    }
  }

  function AnswerOf(l: LegacyReport): (bool, bool, bool) {
    (l.paperReady, l.liveReady, l.productionReady)
  }

  lemma AnswersAre(legacy: seq<LegacyReport>, x: (bool, bool, bool))
    ensures x in Answers(legacy) <==> exists l :: l in legacy && AnswerOf(l) == x
  {
    if x in Answers(legacy) {
      var i :| 0 <= i < |legacy|
               && (legacy[i].paperReady, legacy[i].liveReady, legacy[i].productionReady) == x;
      assert legacy[i] in legacy && AnswerOf(legacy[i]) == x;
    }
  }

  lemma DivergeIff(legacy: seq<LegacyReport>)
    ensures |Answers(legacy)| > 1 <==> exists a, b :: a in legacy && b in legacy && Diverge(a, b)
  {
    TwoElements(Answers(legacy));
    if x, y :| x in Answers(legacy) && y in Answers(legacy) && x != y {
      AnswersAre(legacy, x);
      AnswersAre(legacy, y);
      var a :| a in legacy && AnswerOf(a) == x;
      var b :| b in legacy && AnswerOf(b) == y;
      assert Diverge(a, b);
    }
    if a, b :| a in legacy && b in legacy && Diverge(a, b) {
      AnswersAre(legacy, AnswerOf(a));
      AnswersAre(legacy, AnswerOf(b));
    }
  }

  lemma {:induction false} LastExists(reqs: seq<Requirement>, d: string)
    ensures d in LastTable(reqs) ==> exists j :: IsLastAt(reqs, j, d) && LastTable(reqs)[d] == reqs[j]
    ensures forall j :: IsLastAt(reqs, j, d) ==> d in LastTable(reqs) && LastTable(reqs)[d] == reqs[j]
  {
    if reqs != [] {
      var init, n := reqs[..|reqs| - 1], |reqs| - 1;
      LastExists(init, d);
      if reqs[n].domainId == d {
        assert IsLastAt(reqs, n, d);
      } else if d in LastTable(init) {
        var j :| IsLastAt(init, j, d) && LastTable(init)[d] == init[j];
        assert IsLastAt(reqs, j, d);
      }
      forall j | IsLastAt(reqs, j, d) ensures d in LastTable(reqs) && LastTable(reqs)[d] == reqs[j] {
        if j < n {
          assert IsLastAt(init, j, d);
        }
      }
    }
  }

  lemma {:induction false} StillActiveHas(superseded: seq<string>, byDomain: map<string, Requirement>, d: string)
    ensures SupersededStillActive(d) in StillActive(superseded, byDomain) <==>
            d in superseded && d in byDomain && Owns(byDomain[d])
    ensures forall b :: b in StillActive(superseded, byDomain) ==> b.SupersededStillActive?
  {
    if superseded != [] {
      var init, n := superseded[..|superseded| - 1], |superseded| - 1;
      StillActiveHas(init, byDomain, d);
      assert superseded == init + [superseded[n]];
    }
  }

  predicate NamesOwner(reqs: seq<Requirement>, i: int, byDomain: map<string, Requirement>, d: string) {
    0 <= i < |reqs| && d in reqs[i].supersedes && d in byDomain && Owns(byDomain[d])
  }

  predicate NamesNobody(reqs: seq<Requirement>, i: int, byDomain: map<string, Requirement>, d: string) {
    && 0 <= i < |reqs| && reqs[i].domainId == d && IsGiven(reqs[i].supersededBy)
    && reqs[i].supersededBy.value !in byDomain
  }

  lemma SupersessionHas(r: Requirement, byDomain: map<string, Requirement>, d: string)
    ensures SupersededStillActive(d) in SupersessionOf(r, byDomain) <==>
            d in r.supersedes && d in byDomain && Owns(byDomain[d])
    ensures SupersedingMissing(d) in SupersessionOf(r, byDomain) <==>
            r.domainId == d && IsGiven(r.supersededBy) && r.supersededBy.value !in byDomain
  {
    StillActiveHas(r.supersedes, byDomain, d);
  }

  lemma NamesOwnerSnoc(init: seq<Requirement>, r: Requirement, byDomain: map<string, Requirement>, d: string)
    ensures (exists i :: NamesOwner(init + [r], i, byDomain, d)) <==>
            (exists i :: NamesOwner(init, i, byDomain, d)) || (d in r.supersedes && d in byDomain && Owns(byDomain[d]))
  {
    var reqs, n := init + [r], |init|;
    if i :| NamesOwner(reqs, i, byDomain, d) && i < n {
      assert NamesOwner(init, i, byDomain, d);
    }
    if i :| NamesOwner(init, i, byDomain, d) {
      assert NamesOwner(reqs, i, byDomain, d);
    }
    if d in r.supersedes && d in byDomain && Owns(byDomain[d]) {
      assert NamesOwner(reqs, n, byDomain, d);
    }
  }

  lemma NamesNobodySnoc(init: seq<Requirement>, r: Requirement, byDomain: map<string, Requirement>, d: string)
    ensures (exists i :: NamesNobody(init + [r], i, byDomain, d)) <==>
            || (exists i :: NamesNobody(init, i, byDomain, d))
            || (r.domainId == d && IsGiven(r.supersededBy) && r.supersededBy.value !in byDomain)
  {
    var reqs, n := init + [r], |init|;
    if i :| NamesNobody(reqs, i, byDomain, d) && i < n {
      assert NamesNobody(init, i, byDomain, d);
    }
    if i :| NamesNobody(init, i, byDomain, d) {
      assert NamesNobody(reqs, i, byDomain, d);
    }
    if r.domainId == d && IsGiven(r.supersededBy) && r.supersededBy.value !in byDomain {
      assert NamesNobody(reqs, n, byDomain, d);
    }
  }

  lemma SupersessionsSnoc(init: seq<Requirement>, r: Requirement, byDomain: map<string, Requirement>)
    ensures Supersessions(init + [r], byDomain) == Supersessions(init, byDomain) + SupersessionOf(r, byDomain)
  {
    assert (init + [r])[..|init|] == init;
  }

  lemma {:induction false} SupersessionsHaveOwner(reqs: seq<Requirement>, byDomain: map<string, Requirement>, d: string)
    ensures SupersededStillActive(d) in Supersessions(reqs, byDomain) <==> exists i :: NamesOwner(reqs, i, byDomain, d)
  {
    if reqs != [] {
      var init, r := reqs[..|reqs| - 1], reqs[|reqs| - 1];
      assert reqs == init + [r];
      SupersessionsHaveOwner(init, byDomain, d);
      SupersessionsSnoc(init, r, byDomain);
      SupersessionHas(r, byDomain, d);
      NamesOwnerSnoc(init, r, byDomain, d);
    }
  }

  lemma {:induction false} SupersessionsHaveMissing(
    reqs: seq<Requirement>, byDomain: map<string, Requirement>, d: string)
    ensures SupersedingMissing(d) in Supersessions(reqs, byDomain) <==> exists i :: NamesNobody(reqs, i, byDomain, d)
  {
    if reqs != [] {
      var init, r := reqs[..|reqs| - 1], reqs[|reqs| - 1];
      assert reqs == init + [r];
      SupersessionsHaveMissing(init, byDomain, d);
      SupersessionsSnoc(init, r, byDomain);
      SupersessionHas(r, byDomain, d);
      NamesNobodySnoc(init, r, byDomain, d);
    }
  }

  lemma SupersedesOwnerIff(reqs: seq<Requirement>, d: string)
    ensures (exists i :: NamesOwner(reqs, i, LastTable(reqs), d)) <==> exists i, j :: SupersedesOwner(reqs, i, j, d)
  {
    LastExists(reqs, d);
    if i :| NamesOwner(reqs, i, LastTable(reqs), d) {
      var j :| IsLastAt(reqs, j, d) && LastTable(reqs)[d] == reqs[j];
      assert SupersedesOwner(reqs, i, j, d);
    }
    if i, j :| SupersedesOwner(reqs, i, j, d) {
      assert NamesOwner(reqs, i, LastTable(reqs), d);
    }
  }

  lemma LacksSuccessorIff(reqs: seq<Requirement>, d: string)
    ensures (exists i :: NamesNobody(reqs, i, LastTable(reqs), d)) <==> exists i :: LacksSuccessor(reqs, i, d)
  {
    forall i | 0 <= i < |reqs| && IsGiven(reqs[i].supersededBy)
      ensures reqs[i].supersededBy.value !in LastTable(reqs) <==>
              forall k :: 0 <= k < |reqs| ==> reqs[k].domainId != reqs[i].supersededBy.value
    {
      var s := reqs[i].supersededBy.value;
      LastTableHas(reqs, s);
      assert forall k :: DomainAt(reqs, k, s) <==> 0 <= k < |reqs| && reqs[k].domainId == s;
    }
    if i :| NamesNobody(reqs, i, LastTable(reqs), d) {
      assert LacksSuccessor(reqs, i, d);
    }
    if i :| LacksSuccessor(reqs, i, d) {
      assert NamesNobody(reqs, i, LastTable(reqs), d);
    }
  }

  lemma DuplicateHolds(reqs: seq<Requirement>, legacy: seq<LegacyReport>, b: GlobalBlocker)
    requires b.DuplicateActiveRequirement? || b.DuplicateActiveOwner?
    ensures b in Distinct(GlobalBlockers(reqs, legacy)) <==> Holds(reqs, legacy, b)
  {
    if b.DuplicateActiveRequirement? {
      DuplicateRequirementIsExact(reqs, legacy, b.domain);
      AgainOwnedIff(reqs, b.domain);
    } else {
      DuplicateOwnerIsExact(reqs, legacy, b.domain);
      TwiceOwnedIff(reqs, b.domain);
    }
  }

  lemma DuplicateLists(reqs: seq<Requirement>, b: GlobalBlocker)
    requires !b.DuplicateActiveRequirement? && !b.DuplicateActiveOwner?
    ensures b !in DuplicateRequirements(reqs) && b !in DuplicateOwners(OwnerOrder(reqs), OwnerTable(reqs))
  {
    DuplicateRequirementsKind(reqs);
    DuplicateOwnersIs(OwnerOrder(reqs), OwnerTable(reqs), "");
  }

  lemma OtherBlockers(reqs: seq<Requirement>, legacy: seq<LegacyReport>, b: GlobalBlocker)
    requires !b.DuplicateActiveRequirement? && !b.DuplicateActiveOwner?
    ensures b in Distinct(GlobalBlockers(reqs, legacy)) <==>
            b in LegacyBlockers(legacy) || b in Supersessions(reqs, LastTable(reqs))
  {
    DuplicateLists(reqs, b);
    InOneOfFour(DuplicateRequirements(reqs), DuplicateOwners(OwnerOrder(reqs), OwnerTable(reqs)),
                LegacyBlockers(legacy), Distinct(Supersessions(reqs, LastTable(reqs))), b);
  }

  lemma LegacyHolds(reqs: seq<Requirement>, legacy: seq<LegacyReport>, b: GlobalBlocker)
    requires b.LegacyReportsDiverge? || b.MultipleLegacyTruthPlanes?
    ensures b in Distinct(GlobalBlockers(reqs, legacy)) <==> Holds(reqs, legacy, b)
  {
    OtherBlockers(reqs, legacy, b);
    SupersessionsIs(reqs, LastTable(reqs));
    DivergeIff(legacy);
  }

  lemma SupersessionHolds(reqs: seq<Requirement>, legacy: seq<LegacyReport>, b: GlobalBlocker)
    requires b.SupersededStillActive? || b.SupersedingMissing?
    ensures b in Distinct(GlobalBlockers(reqs, legacy)) <==> Holds(reqs, legacy, b)
  {
    OtherBlockers(reqs, legacy, b);
    if b.SupersededStillActive? {
      SupersessionsHaveOwner(reqs, LastTable(reqs), b.domain);
      SupersedesOwnerIff(reqs, b.domain);
    } else {
      SupersessionsHaveMissing(reqs, LastTable(reqs), b.domain);
      LacksSuccessorIff(reqs, b.domain);
    }
  }

  /** The state lists exactly the global blockers whose conditions hold. */
  lemma GlobalBlockersAreExact(
    reqs: seq<Requirement>, legacy: seq<LegacyReport>, release: string, b: GlobalBlocker)
    requires Accepts(reqs, legacy, release)
    ensures b in Evaluate(reqs, legacy, release).value.globalBlockers <==> Holds(reqs, legacy, b)
  {
    match b
    case DuplicateActiveRequirement(_) => DuplicateHolds(reqs, legacy, b);
    case DuplicateActiveOwner(_) => DuplicateHolds(reqs, legacy, b);
    case LegacyReportsDiverge => LegacyHolds(reqs, legacy, b);
    case MultipleLegacyTruthPlanes => LegacyHolds(reqs, legacy, b);
    case SupersededStillActive(_) => SupersessionHolds(reqs, legacy, b);
    case SupersedingMissing(_) => SupersessionHolds(reqs, legacy, b);
  }

  // ----- The flags -----

  ghost predicate ReportsSomething(r: Requirement) {
    exists code :: IsReported(r, code)
  }

  lemma ReportsIff(r: Requirement)
    requires BlockersOf(r).Success?
    ensures Reports(r) <==> ReportsSomething(r)
  {
    if Reports(r) {
      RecordReportsExactly(r, BlockersOf(r).value[0]);
    }
    if code :| IsReported(r, code) {
      RecordReportsExactly(r, code);
    }
  }

  /** Record `i` reports something, and the first record of its domain, `j`, has one of these modes. */
  ghost predicate IsBlockedBy(reqs: seq<Requirement>, i: int, j: int, modes: set<BlockingMode>) {
    && 0 <= i < |reqs| && ReportsSomething(reqs[i]) && IsFirstAt(reqs, j, reqs[i].domainId) && reqs[j].mode in modes
  }

  /** No global blocker, and no domain blocked by a mode among these. */
  ghost predicate IsReadyFor(reqs: seq<Requirement>, legacy: seq<LegacyReport>, modes: set<BlockingMode>) {
    (forall b :: !Holds(reqs, legacy, b)) && !exists i, j :: IsBlockedBy(reqs, i, j, modes)
  }

  lemma FirstOfDomain(reqs: seq<Requirement>, d: string) returns (j: int)
    requires d in FirstTable(reqs)
    ensures IsFirstAt(reqs, j, d) && FirstTable(reqs)[d] == reqs[j]
  {
    FirstTableHas(reqs, d);
    FirstExists(reqs, d);
    j :| FirstAt(reqs, j, d);
    FirstTableIs(reqs, j, d);
  }

  lemma BlockedIff(reqs: seq<Requirement>, modes: set<BlockingMode>, blocks: Requirement -> bool)
    requires AllWellFormed(reqs) && forall r :: blocks(r) <==> r.mode in modes
    requires forall d :: d in BlockerTable(reqs) ==> d in FirstTable(reqs)
    ensures SomeBlocks(BlockerTable(reqs), FirstTable(reqs), blocks) <==> exists i, j :: IsBlockedBy(reqs, i, j, modes)
  {
    if d :| d in BlockerTable(reqs) && blocks(FirstTable(reqs)[d]) {
      BlockerTableIs(reqs, d);
      var i :| ReportsAt(reqs, i, d);
      ReportsIff(reqs[i]);
      var j := FirstOfDomain(reqs, d);
      assert IsBlockedBy(reqs, i, j, modes);
    }
    if i, j :| IsBlockedBy(reqs, i, j, modes) {
      var d := reqs[i].domainId;
      ReportsIff(reqs[i]);
      assert ReportsAt(reqs, i, d);
      BlockerTableIs(reqs, d);
      assert FirstAt(reqs, j, d);
      FirstTableIs(reqs, j, d);
    }
  }

  lemma GlobalBlockersHold(reqs: seq<Requirement>, legacy: seq<LegacyReport>, release: string)
    requires Accepts(reqs, legacy, release) && forall b :: !Holds(reqs, legacy, b)
    ensures GlobalBlockers(reqs, legacy) == []
  {
    var global := GlobalBlockers(reqs, legacy);
    if global != [] {
      assert global[0] in Distinct(global);
      GlobalBlockersAreExact(reqs, legacy, release, global[0]);
    }
  }

  lemma NothingGlobalIff(reqs: seq<Requirement>, legacy: seq<LegacyReport>, release: string)
    requires Accepts(reqs, legacy, release)
    ensures GlobalBlockers(reqs, legacy) == [] <==> forall b :: !Holds(reqs, legacy, b)
  {
    if b :| Holds(reqs, legacy, b) {
      GlobalBlockersAreExact(reqs, legacy, release, b);
      assert b in GlobalBlockers(reqs, legacy);
    } else {
      GlobalBlockersHold(reqs, legacy, release);
    }
  }

  /** Nothing global, and no domain blocks this use. */
  ghost predicate IsFree(reqs: seq<Requirement>, legacy: seq<LegacyReport>, blocks: Requirement -> bool)
    requires AllWellFormed(reqs) && forall d :: d in BlockerTable(reqs) ==> d in FirstTable(reqs)
  {
    GlobalBlockers(reqs, legacy) == [] && !SomeBlocks(BlockerTable(reqs), FirstTable(reqs), blocks)
  }

  lemma FlagsAre(reqs: seq<Requirement>, legacy: seq<LegacyReport>, release: string)
    requires Accepts(reqs, legacy, release)
    requires forall d :: d in BlockerTable(reqs) ==> d in FirstTable(reqs)
    ensures FlagsOf(Evaluate(reqs, legacy, release).value) ==
            Flags(IsFree(reqs, legacy, BlocksPaper), IsFree(reqs, legacy, BlocksLiveUse),
                  IsFree(reqs, legacy, BlocksProductionUse))
  {
  }

  /** A use is blocked by the modes that guard it, or by anything global. */
  lemma UseIsReady(
    reqs: seq<Requirement>, legacy: seq<LegacyReport>, release: string, modes: set<BlockingMode>,
    blocks: Requirement -> bool)
    requires Accepts(reqs, legacy, release) && forall r :: blocks(r) <==> r.mode in modes
    requires forall d :: d in BlockerTable(reqs) ==> d in FirstTable(reqs)
    ensures IsReadyFor(reqs, legacy, modes) <==> IsFree(reqs, legacy, blocks)
  {
    NothingGlobalIff(reqs, legacy, release);
    BlockedIff(reqs, modes, blocks);
  }

  lemma PaperByMode(reqs: seq<Requirement>, legacy: seq<LegacyReport>, release: string)
    requires Accepts(reqs, legacy, release)
    requires forall d :: d in BlockerTable(reqs) ==> d in FirstTable(reqs)
    ensures IsReadyFor(reqs, legacy, {BlocksPaperAndLive}) <==> IsFree(reqs, legacy, BlocksPaper)
  {
    UseIsReady(reqs, legacy, release, {BlocksPaperAndLive}, BlocksPaper);
  }

  lemma LiveByMode(reqs: seq<Requirement>, legacy: seq<LegacyReport>, release: string)
    requires Accepts(reqs, legacy, release)
    requires forall d :: d in BlockerTable(reqs) ==> d in FirstTable(reqs)
    ensures IsReadyFor(reqs, legacy, {BlocksPaperAndLive, BlocksLive}) <==> IsFree(reqs, legacy, BlocksLiveUse)
  {
    UseIsReady(reqs, legacy, release, {BlocksPaperAndLive, BlocksLive}, BlocksLiveUse);
  }

  lemma ProductionByMode(reqs: seq<Requirement>, legacy: seq<LegacyReport>, release: string)
    requires Accepts(reqs, legacy, release)
    requires forall d :: d in BlockerTable(reqs) ==> d in FirstTable(reqs)
    ensures IsReadyFor(reqs, legacy, {BlocksPaperAndLive, BlocksLive, BlocksProduction}) <==>
            IsFree(reqs, legacy, BlocksProductionUse)
  {
    UseIsReady(reqs, legacy, release, {BlocksPaperAndLive, BlocksLive, BlocksProduction}, BlocksProductionUse);
  }

  /**
   What the flags mean, by blocking mode and for any records, domains repeated or not: a domain
   blocks with the mode of its first record.
   */
  lemma FlagsByMode(reqs: seq<Requirement>, legacy: seq<LegacyReport>, release: string)
    requires Accepts(reqs, legacy, release)
    ensures FlagsOf(Evaluate(reqs, legacy, release).value) ==
            Flags(IsReadyFor(reqs, legacy, {BlocksPaperAndLive}),
                  IsReadyFor(reqs, legacy, {BlocksPaperAndLive, BlocksLive}),
                  IsReadyFor(reqs, legacy, {BlocksPaperAndLive, BlocksLive, BlocksProduction}))
  {
    BlockedDomainsAreSeen(reqs);
    FlagsAre(reqs, legacy, release);
    PaperByMode(reqs, legacy, release);
    LiveByMode(reqs, legacy, release);
    ProductionByMode(reqs, legacy, release);
  }

  /** The product state names the highest flag that holds. */
  lemma ProductStateIs(reqs: seq<Requirement>, legacy: seq<LegacyReport>, release: string)
    requires Accepts(reqs, legacy, release)
    ensures var s := Evaluate(reqs, legacy, release).value;
            && (s.product == NotProductionReady <==> !s.paperReady)
            && (s.product == PaperReviewReady <==> s.paperReady && !s.liveReady)
            && (s.product == LiveCanaryReviewReady <==> s.liveReady && !s.productionReady)
            && (s.product == ProductionReady <==> s.productionReady)
  {
  }

  /** With one record for each domain the mode is the reporting record's own. */
  lemma DistinctFlagsByMode(reqs: seq<Requirement>, legacy: seq<LegacyReport>, release: string)
    requires DistinctDomains(reqs) && Accepts(reqs, legacy, release)
    ensures var s := Evaluate(reqs, legacy, release).value;
            var clean := |legacy| <= 1 && Settled(reqs);
            && (s.paperReady <==>
                clean && forall r :: r in reqs && ReportsSomething(r) ==> r.mode != BlocksPaperAndLive)
            && (s.liveReady <==>
                clean && forall r :: r in reqs && ReportsSomething(r) ==> r.mode !in {BlocksPaperAndLive, BlocksLive})
            && (s.productionReady <==>
                clean && forall r :: r in reqs && ReportsSomething(r) ==> r.mode == NonBlocking)
  {
    FlagsMean(reqs, legacy, release);
    forall r | r in reqs ensures Reports(r) <==> ReportsSomething(r) {
      ReportsIff(r);
    }
  }

  // ----- The table of requirement blockers -----

  /** Record `i` is the last of domain `d` that reports something. */
  ghost predicate IsLastReport(reqs: seq<Requirement>, i: int, d: string) {
    && 0 <= i < |reqs| && reqs[i].domainId == d && ReportsSomething(reqs[i])
    && forall k :: i < k < |reqs| && reqs[k].domainId == d ==> !ReportsSomething(reqs[k])
  }

  /** The last non-empty entry of each name. */
  function LastKept(entries: seq<(string, seq<string>)>): map<string, seq<string>> {
    if entries == [] then map[]
    else
      var init, last := LastKept(entries[..|entries| - 1]), entries[|entries| - 1];
      if last.1 == [] then init else init[last.0 := last.1]
  }

  predicate IsLastEntry(entries: seq<(string, seq<string>)>, i: int, d: string) {
    && 0 <= i < |entries| && entries[i].0 == d && entries[i].1 != []
    && forall k :: i < k < |entries| && entries[k].0 == d ==> entries[k].1 == []
  }

  lemma {:induction false} LastKeptIs(entries: seq<(string, seq<string>)>, d: string)
    ensures d in LastKept(entries) ==> exists i :: IsLastEntry(entries, i, d)
    ensures forall i :: IsLastEntry(entries, i, d) ==> d in LastKept(entries) && LastKept(entries)[d] == entries[i].1
  {
    if entries != [] {
      var init, n := entries[..|entries| - 1], |entries| - 1;
      LastKeptIs(init, d);
      assert forall k :: 0 <= k < n ==> init[k] == entries[k];
      if entries[n].0 == d && entries[n].1 != [] {
        assert IsLastEntry(entries, n, d);
      } else if d in LastKept(init) {
        var i :| IsLastEntry(init, i, d);
        assert IsLastEntry(entries, i, d);
      }
      forall i | IsLastEntry(entries, i, d) ensures d in LastKept(entries) && LastKept(entries)[d] == entries[i].1 {
        if i < n {
          assert IsLastEntry(init, i, d);
        }
      }
    }
  }

  function EntryOf(r: Requirement): (string, seq<string>)
    requires BlockersOf(r).Success?
  {
    (r.domainId, BlockersOf(r).value)
  }

  function EntriesOf(reqs: seq<Requirement>): (e: seq<(string, seq<string>)>)
    requires AllWellFormed(reqs)
    ensures |e| == |reqs| && forall i :: 0 <= i < |e| ==> e[i] == EntryOf(reqs[i])
  {
    seq(|reqs|, i requires 0 <= i < |reqs| => EntryOf(reqs[i]))
  }

  lemma EntriesSnoc(init: seq<Requirement>, r: Requirement)
    requires AllWellFormed(init) && AllWellFormed(init + [r]) && BlockersOf(r).Success?
    ensures EntriesOf(init + [r]) == EntriesOf(init) + [EntryOf(r)]
  {
  }

  lemma LastKeptSnoc(entries: seq<(string, seq<string>)>, last: (string, seq<string>))
    ensures LastKept(entries + [last]) ==
            if last.1 == [] then LastKept(entries) else LastKept(entries)[last.0 := last.1]
  {
    assert (entries + [last])[..|entries|] == entries;
  }

  lemma {:induction false} TableIsLastKept(reqs: seq<Requirement>)
    requires AllWellFormed(reqs)
    ensures BlockerTable(reqs) == LastKept(EntriesOf(reqs))
  {
    if reqs != [] {
      var init, r := reqs[..|reqs| - 1], reqs[|reqs| - 1];
      assert reqs == init + [r];
      AllWellFormedSnoc(init, r);
      BlockerTableSnoc(init, r, BlockersOf(r).value);
      TableIsLastKept(init);
      EntriesSnoc(init, r);
      LastKeptSnoc(EntriesOf(init), EntryOf(r));
    }
  }

  lemma EntryReports(r: Requirement)
    requires BlockersOf(r).Success?
    ensures EntryOf(r).1 != [] <==> ReportsSomething(r)
  {
    ReportsIff(r);
  }

  lemma LastReportIff(reqs: seq<Requirement>, i: int, d: string)
    requires AllWellFormed(reqs)
    ensures IsLastReport(reqs, i, d) <==> IsLastEntry(EntriesOf(reqs), i, d)
  {
    var entries := EntriesOf(reqs);
    forall k | 0 <= k < |reqs|
      ensures entries[k].0 == reqs[k].domainId && (entries[k].1 != [] <==> ReportsSomething(reqs[k]))
    {
      EntryReports(reqs[k]);
    }
  }

  /** The table holds, for each domain with a report, the codes of its last reporting record. */
  lemma RequirementTableIs(reqs: seq<Requirement>, legacy: seq<LegacyReport>, release: string, d: string, code: string)
    requires Accepts(reqs, legacy, release)
    ensures var table := Evaluate(reqs, legacy, release).value.requirementBlockers;
            d in table && code in table[d] <==> exists i :: IsLastReport(reqs, i, d) && IsReported(reqs[i], code)
  {
    var entries := EntriesOf(reqs);
    TableIsLastKept(reqs);
    LastKeptIs(entries, d);
    if d in LastKept(entries) && code in LastKept(entries)[d] {
      var i :| IsLastEntry(entries, i, d);
      LastReportIff(reqs, i, d);
      RecordReportsExactly(reqs[i], code);
    }
    if i :| IsLastReport(reqs, i, d) && IsReported(reqs[i], code) {
      LastReportIff(reqs, i, d);
      RecordReportsExactly(reqs[i], code);
    }
  }

  /** The single-authority assertion passes exactly when nothing global holds and no record reports. */
  lemma AuthorityMeans(reqs: seq<Requirement>, legacy: seq<LegacyReport>, release: string)
    requires Accepts(reqs, legacy, release)
    ensures AssertSingle(Evaluate(reqs, legacy, release).value) <==>
            && (forall b :: !Holds(reqs, legacy, b)) && forall r :: r in reqs ==> !ReportsSomething(r)
  {
    AuthorityIff(reqs, legacy, release);
    NothingGlobalIff(reqs, legacy, release);
    forall r | r in reqs ensures Reports(r) <==> ReportsSomething(r) {
      ReportsIff(r);
    }
  }
}
