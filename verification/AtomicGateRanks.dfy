/** The order of a report: violations come in the order in which the gate makes its checks. */
module AtomicGateRanks {
  import opened Wrappers
  import opened EvidenceValues
  import opened RequiredFindings
  import opened AtomicGate

  /** The place of a check among all checks; those made item by item share one place. */
  function Rank(code: Code): nat {
    match code
    case ForbiddenRequest => 0
    case ForbiddenSurface => 1
    case BadPlanId => 2
    case BadPlanHash => 3
    case BadPlanAmount => 4
    case BadSlippage => 5
    case MessageBinding => 6
    case BadMessageHash => 7
    case BadBlockhash => 8
    case BadBlockHeight => 9
    case BlockhashStale => 10
    case ContextSlotStale => 11
    case WireSize => 12
    case InstructionIndexGap => 13
    case NoInstructions => 14
    case BadFlashBracket => 15
    case BadSwapOrder => 16
    case DuplicateOrMissingRole => 17
    case UnknownInstruction => 18
    case BadInstructionEvidence => 18
    case BadInstructionAmount => 18
    case BorrowAmount => 19
    case RepayAmount => 20
    case BadSimulationHash => 21
    case SimulationBinding => 22
    case SimulationFailed => 23
    case SimulationErrorPresent => 24
    case LocalSignatureCheck => 25
    case BadSimulationCounter => 26
    case BadEconomicAmount => 27
    case EconomicRepayment => 28
    case FeeNotSimulationBound => 29
    case FailedLandingFee => 30
    case GuaranteedOutput => 31
    case MinProfitBinding => 32
    case ConservativeProfit => 33
    case BadQualificationHash => 34
    case BadQualificationWindow => 35
    case QualificationCount => 36
    case QualificationFlag => 37
    case DuplicateFinding => 38
    case FindingsIncomplete => 39
  }

  predicate PlacesIdentity(rank: Code -> nat) {
    && rank(ForbiddenRequest) == 0
    && rank(ForbiddenSurface) == 1
    && rank(BadPlanId) == 2
    && rank(BadPlanHash) == 3
    && rank(BadPlanAmount) == 4
    && rank(BadSlippage) == 5
    && rank(MessageBinding) == 6
  }

  predicate PlacesMessage(rank: Code -> nat) {
    && rank(BadMessageHash) == 7
    && rank(BadBlockhash) == 8
    && rank(BadBlockHeight) == 9
    && rank(BlockhashStale) == 10
    && rank(ContextSlotStale) == 11
    && rank(WireSize) == 12
  }

  predicate PlacesOrder(rank: Code -> nat) {
    && rank(InstructionIndexGap) == 13
    && rank(NoInstructions) == 14
    && rank(BadFlashBracket) == 15
    && rank(BadSwapOrder) == 16
    && rank(DuplicateOrMissingRole) == 17
  }

  predicate PlacesItems(rank: Code -> nat) {
    && rank(UnknownInstruction) == 18
    && rank(BadInstructionEvidence) == 18
    && rank(BadInstructionAmount) == 18
    && rank(BorrowAmount) == 19
    && rank(RepayAmount) == 20
  }

  predicate PlacesSimulation(rank: Code -> nat) {
    && rank(BadSimulationHash) == 21
    && rank(SimulationBinding) == 22
    && rank(SimulationFailed) == 23
  }

  predicate PlacesSignature(rank: Code -> nat) {
    && rank(SimulationErrorPresent) == 24
    && rank(LocalSignatureCheck) == 25
    && rank(BadSimulationCounter) == 26
  }

  predicate PlacesAmounts(rank: Code -> nat) {
    && rank(BadEconomicAmount) == 27
    && rank(EconomicRepayment) == 28
    && rank(FeeNotSimulationBound) == 29
  }

  predicate PlacesGuarantees(rank: Code -> nat) {
    && rank(FailedLandingFee) == 30
    && rank(GuaranteedOutput) == 31
  }

  predicate PlacesProfit(rank: Code -> nat) {
    && rank(MinProfitBinding) == 32
    && rank(ConservativeProfit) == 33
  }

  predicate PlacesQualification(rank: Code -> nat) {
    && rank(BadQualificationHash) == 34
    && rank(BadQualificationWindow) == 35
  }

  predicate PlacesDrills(rank: Code -> nat) {
    && rank(QualificationCount) == 36
    && rank(QualificationFlag) == 37
  }

  predicate PlacesFindings(rank: Code -> nat) {
    && rank(DuplicateFinding) == 38
    && rank(FindingsIncomplete) == 39
  }

  /** A numbering that gives these places. */
  predicate IsPlacing(rank: Code -> nat) {
    && PlacesIdentity(rank) && PlacesMessage(rank) && PlacesOrder(rank) && PlacesItems(rank)
    && PlacesSimulation(rank) && PlacesSignature(rank) && PlacesAmounts(rank)
    && PlacesGuarantees(rank) && PlacesProfit(rank) && PlacesQualification(rank)
    && PlacesDrills(rank) && PlacesFindings(rank)
  }

  /** In order of place, and none beyond `top`. */
  predicate IsRanked(rank: Code -> nat, blockers: seq<Violation>, top: int) {
    && (forall i :: 0 <= i < |blockers| ==> rank(blockers[i].code) <= top)
    && forall i, j :: 0 <= i < j < |blockers| ==> rank(blockers[i].code) <= rank(blockers[j].code)
  }

  lemma AddKeepsRank(
    rank: Code -> nat, blockers: seq<Violation>, top: int, ok: bool, code: Code, detail: Detail, place: nat)
    requires IsRanked(rank, blockers, top) && top <= rank(code) == place
    ensures IsRanked(rank, AddUnless(blockers, ok, code, detail), place)
  {
  }

  lemma {:induction false} EachKeepsRank(
    rank: Code -> nat, blockers: seq<Violation>, top: int, m: Mapping, keys: seq<Field>, test: Test, code: Code,
    place: nat)
    requires IsRanked(rank, blockers, top) && top <= rank(code) == place
    ensures IsRanked(rank, AddUnlessEach(blockers, m, keys, test, code), place)
  {
    if keys != [] {
      var init, last := keys[..|keys| - 1], keys[|keys| - 1];
      EachKeepsRank(rank, blockers, top, m, init, test, code, place);
      AddKeepsRank(rank, AddUnlessEach(blockers, m, init, test, code), place, Passes(test, m, last), code, Key(last),
                   place);
    }
  }

  lemma AskingIsRanked(rank: Code -> nat, e: Evidence)
    requires rank(ForbiddenRequest) == 0 && rank(ForbiddenSurface) == 1
    ensures IsRanked(rank, AfterForbidden([], e.requests, e.qualification), 1)
  {
    var asked := AddUnlessEach([], e.requests, REQUEST_KEYS, IsFalsy, ForbiddenRequest);
    EachKeepsRank(rank, [], 0, e.requests, REQUEST_KEYS, IsFalsy, ForbiddenRequest, 0);
    EachKeepsRank(rank, asked, 0, e.qualification, SURFACE_KEYS, IsFalsy, ForbiddenSurface, 1);
  }

  lemma PlanIsRanked(rank: Code -> nat, blockers: seq<Violation>, plan: Mapping)
    requires IsRanked(rank, blockers, 1) && rank(BadPlanId) == 2 && rank(BadPlanHash) == 3
    requires rank(BadPlanAmount) == 4 && rank(BadSlippage) == 5
    ensures IsRanked(rank, AfterPlan(blockers, plan), 5)
  {
    var ids := AddUnlessEach(blockers, plan, PLAN_IDS, ASafeText, BadPlanId);
    EachKeepsRank(rank, blockers, 1, plan, PLAN_IDS, ASafeText, BadPlanId, 2);
    var hashes := AddUnlessEach(ids, plan, PLAN_HASHES, AHash, BadPlanHash);
    EachKeepsRank(rank, ids, 2, plan, PLAN_HASHES, AHash, BadPlanHash, 3);
    var principal := AddUnless(hashes, IsPositive(Get(plan, PrincipalLamports)), BadPlanAmount, Key(PrincipalLamports));
    AddKeepsRank(rank, hashes, 3, IsPositive(Get(plan, PrincipalLamports)), BadPlanAmount, Key(PrincipalLamports), 4);
    var fee := AddUnless(principal, IsUint(Get(plan, FlashFeeLamports)), BadPlanAmount, Key(FlashFeeLamports));
    AddKeepsRank(rank, principal, 4, IsUint(Get(plan, FlashFeeLamports)), BadPlanAmount, Key(FlashFeeLamports), 4);
    var profit := AddUnless(fee, IsUint(Get(plan, MinimumProfitLamports)), BadPlanAmount, Key(MinimumProfitLamports));
    AddKeepsRank(rank, fee, 4, IsUint(Get(plan, MinimumProfitLamports)), BadPlanAmount, Key(MinimumProfitLamports), 4);
    AddKeepsRank(rank, profit, 4, SlippageOk(Get(plan, MaxSlippageBps)), BadSlippage, Key(MaxSlippageBps), 5);
  }

  lemma IdentityIsRanked(rank: Code -> nat, blockers: seq<Violation>, plan: Mapping, message: Mapping)
    requires IsRanked(rank, blockers, 5) && rank(MessageBinding) == 6 && rank(BadMessageHash) == 7
    requires rank(BadBlockhash) == 8 && rank(BadBlockHeight) == 9
    ensures IsRanked(rank, AfterMessageIdentity(blockers, plan, message), 9)
  {
    var same := Same(Get(message, PlanId), Get(plan, PlanId));
    var bound := AddUnless(blockers, same, MessageBinding, Key(PlanId));
    AddKeepsRank(rank, blockers, 5, same, MessageBinding, Key(PlanId), 6);
    var hashes := AddUnlessEach(bound, message, MESSAGE_HASHES, AHash, BadMessageHash);
    EachKeepsRank(rank, bound, 6, message, MESSAGE_HASHES, AHash, BadMessageHash, 7);
    var blockhash := AddUnless(hashes, IsSafe(Get(message, RecentBlockhash)), BadBlockhash, Key(RecentBlockhash));
    AddKeepsRank(rank, hashes, 7, IsSafe(Get(message, RecentBlockhash)), BadBlockhash, Key(RecentBlockhash), 8);
    AddKeepsRank(rank, blockhash, 8, HeightsOk(message), BadBlockHeight, Whole, 9);
  }

  lemma MessageIsRanked(rank: Code -> nat, blockers: seq<Violation>, plan: Mapping, message: Mapping)
    requires IsRanked(rank, blockers, 5) && AfterMessage(blockers, plan, message).Success? && IsPlacing(rank)
    ensures IsRanked(rank, AfterMessage(blockers, plan, message).value, 12)
  {
    var live, observed, fits := IsFresh(message).value, SlotObserved(message).value, WireFits(message).value;
    var identified := AfterMessageIdentity(blockers, plan, message);
    IdentityIsRanked(rank, blockers, plan, message);
    var window := AddUnless(identified, live, BlockhashStale, Whole);
    AddKeepsRank(rank, identified, 9, live, BlockhashStale, Whole, 10);
    var slot := AddUnless(window, observed, ContextSlotStale, Whole);
    AddKeepsRank(rank, window, 10, observed, ContextSlotStale, Whole, 11);
    AddKeepsRank(rank, slot, 11, fits, WireSize, Whole, 12);
  }

  lemma {:induction false} CountsAreRanked(
    rank: Code -> nat, blockers: seq<Violation>, roles: seq<Value>, names: seq<string>)
    requires IsRanked(rank, blockers, 16) && rank(DuplicateOrMissingRole) == 17
    ensures IsRanked(rank, AfterCounts(blockers, roles, names), 17)
  {
    if names != [] {
      var init, last := names[..|names| - 1], names[|names| - 1];
      CountsAreRanked(rank, blockers, roles, init);
      AddKeepsRank(rank, AfterCounts(blockers, roles, init), 17, Count(roles, last) == 1, DuplicateOrMissingRole,
                   RoleName(last), 17);
    }
  }

  lemma OrderIsRanked(rank: Code -> nat, blockers: seq<Violation>, items: seq<Mapping>)
    requires IsRanked(rank, blockers, 12) && IsPlacing(rank)
    ensures IsRanked(rank, AfterOrder(blockers, items), 17)
  {
    var roles := Roles(items);
    var same := SameRoles(roles, Roles(SortByIndex(items)));
    var two := Legs(roles) == [Str(LEG_A), Str(LEG_B)];
    var indexed := AddUnless(blockers, same, InstructionIndexGap, Whole);
    var some := AddUnless(indexed, roles != [], NoInstructions, Whole);
    var bracketed := AddUnless(some, IsBracket(roles), BadFlashBracket, Whole);
    var swapped := AddUnless(bracketed, two, BadSwapOrder, Whole);
    AddKeepsRank(rank, blockers, 12, same, InstructionIndexGap, Whole, 13);
    AddKeepsRank(rank, indexed, 13, roles != [], NoInstructions, Whole, 14);
    AddKeepsRank(rank, some, 14, IsBracket(roles), BadFlashBracket, Whole, 15);
    AddKeepsRank(rank, bracketed, 15, two, BadSwapOrder, Whole, 16);
    CountsAreRanked(rank, swapped, roles, SENSITIVE_ROLES);
  }

  lemma ItemIsRanked(rank: Code -> nat, blockers: seq<Violation>, top: int, item: Mapping)
    requires IsRanked(rank, blockers, top) && top <= 18 && rank(UnknownInstruction) == 18
    requires rank(BadInstructionEvidence) == 18 && rank(BadInstructionAmount) == 18
    ensures IsRanked(rank, AfterItem(blockers, item), 18)
  {
    var role := Get(item, Role);
    var known := AddUnless(blockers, IsAllowedRole(role), UnknownInstruction, RoleName(Text(role)));
    var program := AddUnlessEach(known, item, ITEM_PROGRAM, ASafeText, BadInstructionEvidence);
    var hashes := AddUnlessEach(program, item, ITEM_HASHES, AHash, BadInstructionEvidence);
    AddKeepsRank(rank, blockers, top, IsAllowedRole(role), UnknownInstruction, RoleName(Text(role)), 18);
    EachKeepsRank(rank, known, 18, item, ITEM_PROGRAM, ASafeText, BadInstructionEvidence, 18);
    EachKeepsRank(rank, program, 18, item, ITEM_HASHES, AHash, BadInstructionEvidence, 18);
    EachKeepsRank(rank, hashes, 18, item, ITEM_AMOUNTS, AUintOrAbsent, BadInstructionAmount, 18);
  }

  lemma {:induction false} ItemsAreRanked(rank: Code -> nat, blockers: seq<Violation>, items: seq<Mapping>)
    requires IsRanked(rank, blockers, 18) && IsPlacing(rank)
    ensures IsRanked(rank, AfterItems(blockers, items), 18)
  {
    if items != [] {
      var init, last := items[..|items| - 1], items[|items| - 1];
      ItemsAreRanked(rank, blockers, init);
      ItemIsRanked(rank, AfterItems(blockers, init), 18, last);
    }
  }

  lemma InstructionsAreRanked(rank: Code -> nat, blockers: seq<Violation>, plan: Mapping, items: seq<Mapping>)
    requires IsRanked(rank, blockers, 12) && AfterInstructions(blockers, plan, items).Success? && IsPlacing(rank)
    ensures IsRanked(rank, AfterInstructions(blockers, plan, items).value, 20)
  {
    OrderIsRanked(rank, blockers, items);
    ItemsAreRanked(rank, AfterOrder(blockers, items), items);
    var evidenced := AfterItems(AfterOrder(blockers, items), items);
    var borrowed := AddUnless(evidenced, BorrowsPrincipal(plan, items), BorrowAmount, Whole);
    AddKeepsRank(rank, evidenced, 18, BorrowsPrincipal(plan, items), BorrowAmount, Whole, 19);
    AddKeepsRank(rank, borrowed, 19, Repays(items, ExpectedRepayment(plan).value), RepayAmount, Whole, 20);
  }

  lemma SimulationIsRanked(rank: Code -> nat, blockers: seq<Violation>, message: Mapping, simulation: Mapping)
    requires IsRanked(rank, blockers, 20) && IsPlacing(rank)
    ensures IsRanked(rank, AfterSimulation(blockers, message, simulation), 26)
  {
    var same := Same(Get(simulation, MessageHash), Get(message, MessageHash));
    var success, silence := Get(simulation, SuccessFlag) == Bool(true), Get(simulation, ErrorCode) == Null;
    var checked := Get(simulation, LocalSignatureVerificationPassed) == Bool(true);
    var ran := IsPositive(Get(simulation, UnitsConsumed));
    var paid := IsPositive(Get(simulation, TotalTransactionFeeLamports));
    var hashes := AddUnlessEach(blockers, simulation, SIMULATION_HASHES, AHash, BadSimulationHash);
    EachKeepsRank(rank, blockers, 20, simulation, SIMULATION_HASHES, AHash, BadSimulationHash, 21);
    var bound := AddUnless(hashes, same, SimulationBinding, Key(MessageHash));
    AddKeepsRank(rank, hashes, 21, same, SimulationBinding, Key(MessageHash), 22);
    var passed := AddUnless(bound, success, SimulationFailed, Key(SuccessFlag));
    AddKeepsRank(rank, bound, 22, success, SimulationFailed, Key(SuccessFlag), 23);
    var silent := AddUnless(passed, silence, SimulationErrorPresent, Key(ErrorCode));
    AddKeepsRank(rank, passed, 23, silence, SimulationErrorPresent, Key(ErrorCode), 24);
    var signed := AddUnless(silent, checked, LocalSignatureCheck, Whole);
    AddKeepsRank(rank, silent, 24, checked, LocalSignatureCheck, Whole, 25);
    var units := AddUnless(signed, ran, BadSimulationCounter, Key(UnitsConsumed));
    AddKeepsRank(rank, signed, 25, ran, BadSimulationCounter, Key(UnitsConsumed), 26);
    AddKeepsRank(rank, units, 26, paid, BadSimulationCounter, Key(TotalTransactionFeeLamports), 26);
  }

  lemma EconomicsAreRanked(
    rank: Code -> nat, blockers: seq<Violation>, plan: Mapping, items: seq<Mapping>, simulation: Mapping,
    economics: Mapping)
    requires IsRanked(rank, blockers, 26) && IsPlacing(rank)
    requires AfterEconomics(blockers, plan, items, simulation, economics).Success?
    ensures IsRanked(rank, AfterEconomics(blockers, plan, items, simulation, economics).value, 33)
  {
    var owed := Same(Get(economics, RepaymentLamports), ExpectedRepayment(plan).value);
    var reserved, profitable := IsReserved(economics).value, IsProfitable(plan, economics).value;
    var amounts := AddUnlessEach(blockers, economics, ECONOMIC_AMOUNTS, AUint, BadEconomicAmount);
    EachKeepsRank(rank, blockers, 26, economics, ECONOMIC_AMOUNTS, AUint, BadEconomicAmount, 27);
    var repaid := AddUnless(amounts, owed, EconomicRepayment, Whole);
    AddKeepsRank(rank, amounts, 27, owed, EconomicRepayment, Whole, 28);
    var simulated := AddUnless(repaid, FeeIsSimulated(simulation, economics), FeeNotSimulationBound, Whole);
    AddKeepsRank(rank, repaid, 28, FeeIsSimulated(simulation, economics), FeeNotSimulationBound, Whole, 29);
    var landing := AddUnless(simulated, reserved, FailedLandingFee, Whole);
    AddKeepsRank(rank, simulated, 29, reserved, FailedLandingFee, Whole, 30);
    var guaranteed := AddUnless(landing, OutputIsGuaranteed(items, economics), GuaranteedOutput, Whole);
    AddKeepsRank(rank, landing, 30, OutputIsGuaranteed(items, economics), GuaranteedOutput, Whole, 31);
    var planned := AddUnless(guaranteed, ProfitIsPlanned(plan, economics), MinProfitBinding, Whole);
    AddKeepsRank(rank, guaranteed, 31, ProfitIsPlanned(plan, economics), MinProfitBinding, Whole, 32);
    AddKeepsRank(rank, planned, 32, profitable, ConservativeProfit, Whole, 33);
  }

  lemma QualificationIsRanked(rank: Code -> nat, blockers: seq<Violation>, qualification: Mapping)
    requires IsRanked(rank, blockers, 33) && AfterQualification(blockers, qualification).Success? && IsPlacing(rank)
    ensures IsRanked(rank, AfterQualification(blockers, qualification).value, 37)
  {
    var elapsed := HasElapsed(qualification).value;
    var hashes := AddUnlessEach(blockers, qualification, QUALIFICATION_HASHES, AHash, BadQualificationHash);
    var window := AddUnless(hashes, elapsed, BadQualificationWindow, Whole);
    var counts := AddUnlessEach(window, qualification, QUALIFICATION_COUNTS, APositive, QualificationCount);
    EachKeepsRank(rank, blockers, 33, qualification, QUALIFICATION_HASHES, AHash, BadQualificationHash, 34);
    AddKeepsRank(rank, hashes, 34, elapsed, BadQualificationWindow, Whole, 35);
    EachKeepsRank(rank, window, 35, qualification, QUALIFICATION_COUNTS, APositive, QualificationCount, 36);
    EachKeepsRank(rank, counts, 36, qualification, QUALIFICATION_FLAGS, IsTrue, QualificationFlag, 37);
  }

  lemma FindingsAreRanked(rank: Code -> nat, blockers: seq<Violation>, findings: seq<Value>)
    requires IsRanked(rank, blockers, 37) && rank(DuplicateFinding) == 38 && rank(FindingsIncomplete) == 39
    ensures IsRanked(rank, AfterFindings(blockers, findings), 39)
  {
    var missing := MissingFindings(REQUIRED_FINDINGS, findings);
    var distinct := AddUnless(blockers, NoRepeats(findings), DuplicateFinding, Whole);
    AddKeepsRank(rank, blockers, 37, NoRepeats(findings), DuplicateFinding, Whole, 38);
    AddKeepsRank(rank, distinct, 38, missing == [], FindingsIncomplete, Missing(missing), 39);
  }

  lemma FrontIsRanked(rank: Code -> nat, e: Evidence)
    requires IsPlacing(rank)
    ensures IsRanked(rank, AfterPlan(AfterForbidden([], e.requests, e.qualification), e.plan), 5)
  {
    AskingIsRanked(rank, e);
    PlanIsRanked(rank, AfterForbidden([], e.requests, e.qualification), e.plan);
  }

  lemma AllBlockersAreRanked(rank: Code -> nat, e: Evidence)
    requires AllBlockers(e).Success? && IsPlacing(rank)
    ensures IsRanked(rank, AllBlockers(e).value, 39)
  {
    var plan := AfterPlan(AfterForbidden([], e.requests, e.qualification), e.plan);
    FrontIsRanked(rank, e);
    MessageIsRanked(rank, plan, e.plan, e.message);
    var message := AfterMessage(plan, e.plan, e.message).value;
    InstructionsAreRanked(rank, message, e.plan, e.instructions);
    var instructions := AfterInstructions(message, e.plan, e.instructions).value;
    SimulationIsRanked(rank, instructions, e.message, e.simulation);
    var simulation := AfterSimulation(instructions, e.message, e.simulation);
    EconomicsAreRanked(rank, simulation, e.plan, e.instructions, e.simulation, e.economics);
    var economics := AfterEconomics(simulation, e.plan, e.instructions, e.simulation, e.economics).value;
    QualificationIsRanked(rank, economics, e.qualification);
    FindingsAreRanked(rank, AfterQualification(economics, e.qualification).value, e.findings);
  }

  // ----- First occurrences -----

  /** Where the violation is first found. */
  function FirstIndex(blockers: seq<Violation>, v: Violation): (p: nat)
    requires v in blockers
    ensures p < |blockers| && blockers[p] == v && forall k :: 0 <= k < p ==> blockers[k] != v
  {
    var init, n := blockers[..|blockers| - 1], |blockers| - 1;
    assert blockers == init + [blockers[n]];
    if v in init then FirstIndex(init, v) else n
  }

  lemma FirstIndexSnoc(init: seq<Violation>, last: Violation, v: Violation)
    requires v in init || v == last
    ensures v in init + [last]
    ensures FirstIndex(init + [last], v) == if v in init then FirstIndex(init, v) else |init|
  {
    assert (init + [last])[..|init|] == init;
  }

  /** Dropping repeats keeps the first of each, in order. */
  lemma {:induction false} UniqueKeepsOrder(blockers: seq<Violation>, i: int, j: int)
    requires 0 <= i < j < |Unique(blockers)|
    ensures Unique(blockers)[i] in blockers && Unique(blockers)[j] in blockers
    ensures FirstIndex(blockers, Unique(blockers)[i]) < FirstIndex(blockers, Unique(blockers)[j])
  {
    var init, last := blockers[..|blockers| - 1], blockers[|blockers| - 1];
    var u, w := Unique(blockers), Unique(init);
    assert blockers == init + [last];
    assert u[i] == w[i] && w[i] in init;
    FirstIndexSnoc(init, last, u[i]);
    FirstIndexSnoc(init, last, u[j]);
    if j < |w| {
      assert u[j] == w[j] && w[j] in init;
      UniqueKeepsOrder(init, i, j);
    }
  }

  lemma UniqueIsRanked(rank: Code -> nat, blockers: seq<Violation>, top: int)
    requires IsRanked(rank, blockers, top)
    ensures IsRanked(rank, Unique(blockers), top)
  {
    var u := Unique(blockers);
    forall i | 0 <= i < |u| ensures rank(u[i].code) <= top {
      assert u[i] in blockers && blockers[FirstIndex(blockers, u[i])] == u[i];
    }
    forall i, j | 0 <= i < j < |u| ensures rank(u[i].code) <= rank(u[j].code) {
      UniqueKeepsOrder(blockers, i, j);
      var p, q := FirstIndex(blockers, u[i]), FirstIndex(blockers, u[j]);
      assert p < q && blockers[p] == u[i] && blockers[q] == u[j];
    }
  }

  lemma RankPlacesIdentity()
    ensures PlacesIdentity(Rank)
  {
  }

  lemma RankPlacesMessage()
    ensures PlacesMessage(Rank)
  {
  }

  lemma RankPlacesOrder()
    ensures PlacesOrder(Rank)
  {
  }

  lemma RankPlacesItems()
    ensures PlacesItems(Rank)
  {
  }

  lemma RankPlacesSimulation()
    ensures PlacesSimulation(Rank)
  {
  }

  lemma RankPlacesSignature()
    ensures PlacesSignature(Rank)
  {
  }

  lemma RankPlacesAmounts()
    ensures PlacesAmounts(Rank)
  {
  }

  lemma RankPlacesGuarantees()
    ensures PlacesGuarantees(Rank)
  {
  }

  lemma RankPlacesProfit()
    ensures PlacesProfit(Rank)
  {
  }

  lemma RankPlacesQualification()
    ensures PlacesQualification(Rank)
  {
  }

  lemma RankPlacesDrills()
    ensures PlacesDrills(Rank)
  {
  }

  lemma RankPlacesFindings()
    ensures PlacesFindings(Rank)
  {
  }

  lemma ReportIsRanked(rank: Code -> nat, e: Evidence)
    requires Evaluate(e).Success? && IsPlacing(rank)
    ensures IsRanked(rank, Evaluate(e).value.blockers, 39)
  {
    AllBlockersAreRanked(rank, e);
    UniqueIsRanked(rank, AllBlockers(e).value, 39);
  }

  /** The violations of a report come in the order of the checks. */
  lemma ReportIsInOrder(e: Evidence)
    requires Evaluate(e).Success?
    ensures IsRanked(Rank, Evaluate(e).value.blockers, 39)
  {
    RankPlacesIdentity();
    RankPlacesMessage();
    RankPlacesOrder();
    RankPlacesItems();
    RankPlacesSimulation();
    RankPlacesSignature();
    RankPlacesAmounts();
    RankPlacesGuarantees();
    RankPlacesProfit();
    RankPlacesQualification();
    RankPlacesDrills();
    RankPlacesFindings();
    ReportIsRanked(Rank, e);
  }
}
