/**
 The sender-free evidence gate for one atomic flash-loan bundle: what each check adds to the
 list of blockers, and the validators that build the list.
 */
module AtomicGate {
  import opened Wrappers
  import opened EvidenceValues
  import opened RequiredFindings

  const BORROW := "marginfi.borrow"
  const REPAY := "marginfi.repay"
  const LEG_A := "jupiter.leg_a"
  const LEG_B := "jupiter.leg_b"
  const SENSITIVE_ROLES := [BORROW, LEG_A, LEG_B, REPAY]
  const AUXILIARY_ROLES := ["ata.create", "ata.close", "wsol.wrap", "wsol.unwrap"]

  const REQUEST_KEYS := [LiveExecutionRequested, SignerRequested, SenderRequested]
  const SURFACE_KEYS := [
    SenderNamespaceReachable, SignerNamespaceReachable, PrivateKeyReachable, NetworkSubmissionReachable]
  const PLAN_IDS := [ReleaseId, PlanId, WalletPubkey, DurableReservationId]
  const PLAN_HASHES := [ClusterGenesisHash, ProtocolRegistryHash, ProviderGenerationHash, BuildArtifactHash]
  const MESSAGE_HASHES := [MessageHash, MessageBytesHash, AccountMetaHash, AltSnapshotHash]
  const ITEM_PROGRAM := [ProgramId]
  const ITEM_HASHES := [InstructionHash, AccountRolesHash, DecodedSemanticsHash]
  const ITEM_AMOUNTS := [InputLamports, OutputLamports, PrincipalLamports, FlashFeeLamports, RepaymentLamports]
  const SIMULATION_HASHES := [MessageHash, RequestHash, ResponseHash, PreAccountsHash, PostAccountsHash, LogsHash]
  const REQUIRED_COSTS := [
    TotalTransactionFeeLamports, FailedLandingFeeLamports, RentCreateLamports, PriorityFeeLamports,
    JitoTipLamports, TokenTransferFeeLamports, ContingencyLamports]
  const ECONOMIC_AMOUNTS := REQUIRED_COSTS + [MinimumProfitLamports, RentRefundLamports]
  const QUALIFICATION_HASHES := [
    InstalledArtifactHash, CompositionRootHash, DurableShadowTraceHash, ReplayBundleHash]
  const QUALIFICATION_COUNTS := [NonSyntheticCycleCount, RestartDrillCount, ProviderDegradationDrillCount]
  const QUALIFICATION_FLAGS := [
    DeterministicReplayPassed, DurableTraceMaterialized, CompiledFromInstalledArtifact,
    ExactSimulationReplayed, EconomicsReconciled]

  datatype Code =
    | ForbiddenRequest | ForbiddenSurface
    | BadPlanId | BadPlanHash | BadPlanAmount | BadSlippage
    | MessageBinding | BadMessageHash | BadBlockhash | BadBlockHeight | BlockhashStale
    | ContextSlotStale | WireSize
    | InstructionIndexGap | NoInstructions | BadFlashBracket | BadSwapOrder | DuplicateOrMissingRole
    | UnknownInstruction | BadInstructionEvidence | BadInstructionAmount | BorrowAmount | RepayAmount
    | BadSimulationHash | SimulationBinding | SimulationFailed | SimulationErrorPresent
    | LocalSignatureCheck | BadSimulationCounter
    | BadEconomicAmount | EconomicRepayment | FeeNotSimulationBound | FailedLandingFee
    | GuaranteedOutput | MinProfitBinding | ConservativeProfit
    | BadQualificationHash | BadQualificationWindow | QualificationCount | QualificationFlag
    | DuplicateFinding | FindingsIncomplete

  datatype Detail = Whole | Key(field: Field) | RoleName(text: string) | Missing(findings: seq<string>)

  datatype Violation = Violation(code: Code, detail: Detail)

  datatype Evidence = Evidence(
    requests: Mapping, plan: Mapping, message: Mapping, instructions: seq<Mapping>,
    simulation: Mapping, economics: Mapping, qualification: Mapping, findings: seq<Value>)

  /** The ideal digest of a bundle, named by the bundle. */
  datatype EvidenceHash = HashOf(evidence: Evidence)

  datatype Report = Report(
    ready: bool, blockers: seq<Violation>, evidenceHash: EvidenceHash,
    signerAllowed: bool, senderAllowed: bool, liveExecutionAllowed: bool)

  /** The checks that are made on one field at a time. */
  datatype Test = AHash | ASafeText | AUint | AUintOrAbsent | APositive | IsTrue | IsFalsy

  predicate Passes(test: Test, m: Mapping, key: Field) {
    match test
    case AHash => IsHash(Get(m, key))
    case ASafeText => IsSafe(Get(m, key))
    case AUint => IsUint(Get(m, key))
    case AUintOrAbsent => IsUint(GetOr(m, key, Int(0)))
    case APositive => IsPositive(Get(m, key))
    case IsTrue => Get(m, key) == Bool(true)
    case IsFalsy => !Truthy(Get(m, key))
  }

  // ----- What each validator makes of the blockers so far -----

  function AddUnless(blockers: seq<Violation>, ok: bool, code: Code, detail: Detail): seq<Violation> {
    if ok then blockers else blockers + [Violation(code, detail)]
  }

  function AddUnlessEach(blockers: seq<Violation>, m: Mapping, keys: seq<Field>, test: Test, code: Code)
    : seq<Violation>
  {
    if keys == [] then blockers
    else
      var last := keys[|keys| - 1];
      AddUnless(AddUnlessEach(blockers, m, keys[..|keys| - 1], test, code), Passes(test, m, last), code, Key(last))
  }

  function AfterForbidden(blockers: seq<Violation>, requests: Mapping, qualification: Mapping): seq<Violation> {
    var asked := AddUnlessEach(blockers, requests, REQUEST_KEYS, IsFalsy, ForbiddenRequest);
    AddUnlessEach(asked, qualification, SURFACE_KEYS, IsFalsy, ForbiddenSurface)
  }

  /** A boolean slippage is accepted: it is an integer. */
  predicate SlippageOk(v: Value) {
    Number(v).Some? && 0 <= Number(v).value <= 1000
  }

  function AfterPlan(blockers: seq<Violation>, plan: Mapping): seq<Violation> {
    var ids := AddUnlessEach(blockers, plan, PLAN_IDS, ASafeText, BadPlanId);
    var hashes := AddUnlessEach(ids, plan, PLAN_HASHES, AHash, BadPlanHash);
    var principal := AddUnless(hashes, IsPositive(Get(plan, PrincipalLamports)), BadPlanAmount, Key(PrincipalLamports));
    var fee := AddUnless(principal, IsUint(Get(plan, FlashFeeLamports)), BadPlanAmount, Key(FlashFeeLamports));
    var profit := AddUnless(fee, IsUint(Get(plan, MinimumProfitLamports)), BadPlanAmount, Key(MinimumProfitLamports));
    AddUnless(profit, SlippageOk(Get(plan, MaxSlippageBps)), BadSlippage, Key(MaxSlippageBps))
  }

  predicate HeightsOk(message: Mapping) {
    && IsUint(Get(message, CurrentBlockHeight)) && IsUint(Get(message, LastValidBlockHeight))
    && IsUint(Get(message, SafetyMarginBlocks))
  }

  function IsFresh(message: Mapping): Result<bool, Raised> {
    var deadline :- Plus(Get(message, CurrentBlockHeight), Get(message, SafetyMarginBlocks));
    IsBelow(deadline, Get(message, LastValidBlockHeight))
  }

  function SlotObserved(message: Mapping): Result<bool, Raised> {
    IsAtLeast(GetOr(message, ObservedContextSlot, Int(-1)), GetOr(message, MinContextSlot, Int(0)))
  }

  /** 65 < bytes + 1 + 64 * signatures <= limit; the limit is read only if the first half holds. */
  function WireFits(message: Mapping): Result<bool, Raised> {
    var bytes := Number(GetOr(message, UnsignedTransactionBytes, Int(0)));
    var signatures := Number(GetOr(message, RequiredSignatureCount, Int(0)));
    if bytes.None? || signatures.None? then Failure(TypeError)
    else
      var wire := bytes.value + 1 + 64 * signatures.value;
      if wire <= 65 then Success(false) else IsAtLeast(GetOr(message, MaxWireBytes, Int(1232)), Int(wire))
  }

  function AfterMessageIdentity(blockers: seq<Violation>, plan: Mapping, message: Mapping): seq<Violation> {
    var bound := AddUnless(blockers, Same(Get(message, PlanId), Get(plan, PlanId)), MessageBinding, Key(PlanId));
    var hashes := AddUnlessEach(bound, message, MESSAGE_HASHES, AHash, BadMessageHash);
    var blockhash := AddUnless(hashes, IsSafe(Get(message, RecentBlockhash)), BadBlockhash, Key(RecentBlockhash));
    AddUnless(blockhash, HeightsOk(message), BadBlockHeight, Whole)
  }

  function AfterMessage(blockers: seq<Violation>, plan: Mapping, message: Mapping): Result<seq<Violation>, Raised> {
    var live :- IsFresh(message);
    var observed :- SlotObserved(message);
    var fits :- WireFits(message);
    var identified := AfterMessageIdentity(blockers, plan, message);
    var window := AddUnless(identified, live, BlockhashStale, Whole);
    Success(AddUnless(AddUnless(window, observed, ContextSlotStale, Whole), fits, WireSize, Whole))
  }

  function Roles(items: seq<Mapping>): (r: seq<Value>)
    ensures |r| == |items|
    ensures forall i :: 0 <= i < |r| ==> r[i] == Get(items[i], Role)
  {
    seq(|items|, i requires 0 <= i < |items| => Get(items[i], Role))
  }

  predicate SameRoles(a: seq<Value>, b: seq<Value>) {
    |a| == |b| && forall i :: 0 <= i < |a| ==> Same(a[i], b[i])
  }

  predicate IsBracket(roles: seq<Value>) {
    roles != [] && roles[0] == Str(BORROW) && roles[|roles| - 1] == Str(REPAY)
  }

  predicate IsLeg(role: Value) {
    role == Str(LEG_A) || role == Str(LEG_B)
  }

  /** The swap legs among the roles, in order. */
  function Legs(roles: seq<Value>): seq<Value> {
    if roles == [] then []
    else
      var last := roles[|roles| - 1];
      Legs(roles[..|roles| - 1]) + if IsLeg(last) then [last] else []
  }

  function Count(roles: seq<Value>, role: string): nat {
    if roles == [] then 0
    else Count(roles[..|roles| - 1], role) + if roles[|roles| - 1] == Str(role) then 1 else 0
  }

  function AfterCounts(blockers: seq<Violation>, roles: seq<Value>, names: seq<string>): seq<Violation> {
    if names == [] then blockers
    else
      var last := names[|names| - 1];
      AddUnless(AfterCounts(blockers, roles, names[..|names| - 1]),
                Count(roles, last) == 1, DuplicateOrMissingRole, RoleName(last))
  }

  predicate IsAllowedRole(role: Value) {
    role.Str? && (role.text in SENSITIVE_ROLES || role.text in AUXILIARY_ROLES)
  }

  function AfterItem(blockers: seq<Violation>, item: Mapping): seq<Violation> {
    var role := Get(item, Role);
    var known := AddUnless(blockers, IsAllowedRole(role), UnknownInstruction, RoleName(Text(role)));
    var program := AddUnlessEach(known, item, ITEM_PROGRAM, ASafeText, BadInstructionEvidence);
    var hashes := AddUnlessEach(program, item, ITEM_HASHES, AHash, BadInstructionEvidence);
    AddUnlessEach(hashes, item, ITEM_AMOUNTS, AUintOrAbsent, BadInstructionAmount)
  }

  function AfterItems(blockers: seq<Violation>, items: seq<Mapping>): seq<Violation> {
    if items == [] then blockers
    else AfterItem(AfterItems(blockers, items[..|items| - 1]), items[|items| - 1])
  }

  /** The first instruction with the role, or an empty mapping. */
  function Find(items: seq<Mapping>, role: string): Mapping {
    if items == [] then map[]
    else if Get(items[0], Role) == Str(role) then items[0]
    else Find(items[1..], role)
  }

  function ExpectedRepayment(plan: Mapping): Result<Value, Raised> {
    Plus(GetOr(plan, PrincipalLamports, Int(0)), GetOr(plan, FlashFeeLamports, Int(0)))
  }

  function AfterOrder(blockers: seq<Violation>, items: seq<Mapping>): seq<Violation> {
    var roles := Roles(items);
    var indexed := AddUnless(blockers, SameRoles(roles, Roles(SortByIndex(items))), InstructionIndexGap, Whole);
    var some := AddUnless(indexed, roles != [], NoInstructions, Whole);
    var bracketed := AddUnless(some, IsBracket(roles), BadFlashBracket, Whole);
    var swapped := AddUnless(bracketed, Legs(roles) == [Str(LEG_A), Str(LEG_B)], BadSwapOrder, Whole);
    AfterCounts(swapped, roles, SENSITIVE_ROLES)
  }

  predicate BorrowsPrincipal(plan: Mapping, items: seq<Mapping>) {
    Same(Get(Find(items, BORROW), PrincipalLamports), Get(plan, PrincipalLamports))
  }

  predicate Repays(items: seq<Mapping>, expected: Value) {
    Same(Get(Find(items, REPAY), RepaymentLamports), expected)
  }

  function AfterInstructions(blockers: seq<Violation>, plan: Mapping, items: seq<Mapping>)
    : Result<seq<Violation>, Raised>
  {
    if !Sortable(items) then Failure(TypeError)
    else
      var expected :- ExpectedRepayment(plan);
      var evidenced := AfterItems(AfterOrder(blockers, items), items);
      var borrowed := AddUnless(evidenced, BorrowsPrincipal(plan, items), BorrowAmount, Whole);
      Success(AddUnless(borrowed, Repays(items, expected), RepayAmount, Whole))
  }

  function AfterSimulation(blockers: seq<Violation>, message: Mapping, simulation: Mapping): seq<Violation> {
    var hashes := AddUnlessEach(blockers, simulation, SIMULATION_HASHES, AHash, BadSimulationHash);
    var bound := AddUnless(hashes, Same(Get(simulation, MessageHash), Get(message, MessageHash)),
                           SimulationBinding, Key(MessageHash));
    var passed := AddUnless(bound, Get(simulation, SuccessFlag) == Bool(true), SimulationFailed, Key(SuccessFlag));
    var silent := AddUnless(passed, Get(simulation, ErrorCode) == Null, SimulationErrorPresent, Key(ErrorCode));
    var signed := AddUnless(silent, Get(simulation, LocalSignatureVerificationPassed) == Bool(true),
                            LocalSignatureCheck, Whole);
    var units := AddUnless(signed, IsPositive(Get(simulation, UnitsConsumed)),
                           BadSimulationCounter, Key(UnitsConsumed));
    AddUnless(units, IsPositive(Get(simulation, TotalTransactionFeeLamports)),
              BadSimulationCounter, Key(TotalTransactionFeeLamports))
  }

  /** `net` after the costs in order, starting from `start`. */
  function NetAfter(economics: Mapping, costs: seq<Field>, start: Value): Result<Value, Raised> {
    if costs == [] then Success(start)
    else
      var net :- NetAfter(economics, costs[..|costs| - 1], start);
      Minus(net, GetOr(economics, costs[|costs| - 1], Int(0)))
  }

  function NetStart(economics: Mapping): Result<Value, Raised> {
    var afterRepayment :-
      Minus(Get(economics, GuaranteedLegBOutputLamports), GetOr(economics, RepaymentLamports, Int(0)));
    Plus(afterRepayment, GetOr(economics, RentRefundLamports, Int(0)))
  }

  function Net(economics: Mapping): Result<Value, Raised> {
    var start :- NetStart(economics);
    NetAfter(economics, REQUIRED_COSTS, start)
  }

  function IsReserved(economics: Mapping): Result<bool, Raised> {
    IsBelow(Int(0), GetOr(economics, FailedLandingFeeLamports, Int(0)))
  }

  function IsProfitable(plan: Mapping, economics: Mapping): Result<bool, Raised> {
    var net :- Net(economics);
    IsAtLeast(net, GetOr(plan, MinimumProfitLamports, Int(0)))
  }

  predicate FeeIsSimulated(simulation: Mapping, economics: Mapping) {
    Same(Get(economics, TotalTransactionFeeLamports), Get(simulation, TotalTransactionFeeLamports))
  }

  predicate OutputIsGuaranteed(items: seq<Mapping>, economics: Mapping) {
    Same(Get(economics, GuaranteedLegBOutputLamports), Get(Find(items, LEG_B), OutputLamports))
  }

  predicate ProfitIsPlanned(plan: Mapping, economics: Mapping) {
    Same(Get(economics, MinimumProfitLamports), Get(plan, MinimumProfitLamports))
  }

  function AfterEconomics(
    blockers: seq<Violation>, plan: Mapping, items: seq<Mapping>, simulation: Mapping, economics: Mapping)
    : Result<seq<Violation>, Raised>
  {
    var expected :- ExpectedRepayment(plan);
    var reserved :- IsReserved(economics);
    var profitable :- IsProfitable(plan, economics);
    var amounts := AddUnlessEach(blockers, economics, ECONOMIC_AMOUNTS, AUint, BadEconomicAmount);
    var repaid := AddUnless(amounts, Same(Get(economics, RepaymentLamports), expected), EconomicRepayment, Whole);
    var simulated := AddUnless(repaid, FeeIsSimulated(simulation, economics), FeeNotSimulationBound, Whole);
    var landing := AddUnless(simulated, reserved, FailedLandingFee, Whole);
    var guaranteed := AddUnless(landing, OutputIsGuaranteed(items, economics), GuaranteedOutput, Whole);
    var planned := AddUnless(guaranteed, ProfitIsPlanned(plan, economics), MinProfitBinding, Whole);
    Success(AddUnless(planned, profitable, ConservativeProfit, Whole))
  }

  function HasElapsed(qualification: Mapping): Result<bool, Raised> {
    IsBelow(GetOr(qualification, StartedNs, Int(0)), GetOr(qualification, EndedNs, Int(0)))
  }

  function AfterQualification(blockers: seq<Violation>, qualification: Mapping): Result<seq<Violation>, Raised> {
    var elapsed :- HasElapsed(qualification);
    var hashes := AddUnlessEach(blockers, qualification, QUALIFICATION_HASHES, AHash, BadQualificationHash);
    var window := AddUnless(hashes, elapsed, BadQualificationWindow, Whole);
    var counts := AddUnlessEach(window, qualification, QUALIFICATION_COUNTS, APositive, QualificationCount);
    Success(AddUnlessEach(counts, qualification, QUALIFICATION_FLAGS, IsTrue, QualificationFlag))
  }

  predicate NoRepeats(findings: seq<Value>) {
    forall i, j :: 0 <= i < j < |findings| ==> !Same(findings[i], findings[j])
  }

  function MissingFindings(required: seq<string>, findings: seq<Value>): seq<string> {
    if required == [] then []
    else (if Str(required[0]) in findings then [] else [required[0]]) + MissingFindings(required[1..], findings)
  }

  function AfterFindings(blockers: seq<Violation>, findings: seq<Value>): seq<Violation> {
    var missing := MissingFindings(REQUIRED_FINDINGS, findings);
    var distinct := AddUnless(blockers, NoRepeats(findings), DuplicateFinding, Whole);
    AddUnless(distinct, missing == [], FindingsIncomplete, Missing(missing))
  }

  function AllBlockers(e: Evidence): Result<seq<Violation>, Raised> {
    var message :- AfterMessage(AfterPlan(AfterForbidden([], e.requests, e.qualification), e.plan), e.plan, e.message);
    var instructions :- AfterInstructions(message, e.plan, e.instructions);
    var simulation := AfterSimulation(instructions, e.message, e.simulation);
    var economics :- AfterEconomics(simulation, e.plan, e.instructions, e.simulation, e.economics);
    var qualification :- AfterQualification(economics, e.qualification);
    Success(AfterFindings(qualification, e.findings))
  }

  /** First occurrences only, in order. */
  function Unique(blockers: seq<Violation>): (r: seq<Violation>)
    ensures forall b :: b in r <==> b in blockers
    ensures forall i, j :: 0 <= i < j < |r| ==> r[i] != r[j]
  {
    if blockers == [] then []
    else
      var init, last := blockers[..|blockers| - 1], blockers[|blockers| - 1];
      assert blockers == init + [last];
      if last in Unique(init) then Unique(init) else Unique(init) + [last]
  }

  function Evaluate(e: Evidence): Result<Report, Raised> {
    var blockers :- AllBlockers(e);
    var unique := Unique(blockers);
    Success(Report(unique == [], unique, HashOf(e), false, false, false))
  }

  // ----- The validators -----

  class BlockerList {
    var items: seq<Violation>

    constructor ()
      ensures items == []
    {
      items := [];
    }

    method Require(ok: bool, code: Code, detail: Detail)
      modifies this
      ensures items == AddUnless(old(items), ok, code, detail)
    {
      if !ok {
        items := items + [Violation(code, detail)];
      }
    }

    lemma EachSnoc(blockers: seq<Violation>, m: Mapping, keys: seq<Field>, n: nat, test: Test, code: Code)
      requires n < |keys|
      ensures AddUnlessEach(blockers, m, keys[..n + 1], test, code) ==
              AddUnless(AddUnlessEach(blockers, m, keys[..n], test, code), Passes(test, m, keys[n]), code, Key(keys[n]))
    {
      assert keys[..n + 1][..n] == keys[..n];
    }

    method RequireEach(m: Mapping, keys: seq<Field>, test: Test, code: Code)
      modifies this
      ensures items == AddUnlessEach(old(items), m, keys, test, code)
    {
      for n := 0 to |keys|
        invariant items == AddUnlessEach(old(items), m, keys[..n], test, code)
      {
        EachSnoc(old(items), m, keys, n, test, code);
        Require(Passes(test, m, keys[n]), code, Key(keys[n]));
      }
      assert keys[..|keys|] == keys;
    }

    method ForbidRuntimeSurfaces(requests: Mapping, qualification: Mapping)
      modifies this
      ensures items == AfterForbidden(old(items), requests, qualification)
    {
      RequireEach(requests, REQUEST_KEYS, IsFalsy, ForbiddenRequest);
      RequireEach(qualification, SURFACE_KEYS, IsFalsy, ForbiddenSurface);
    }

    method ValidatePlan(plan: Mapping)
      modifies this
      ensures items == AfterPlan(old(items), plan)
    {
      RequireEach(plan, PLAN_IDS, ASafeText, BadPlanId);
      RequireEach(plan, PLAN_HASHES, AHash, BadPlanHash);
      Require(IsPositive(Get(plan, PrincipalLamports)), BadPlanAmount, Key(PrincipalLamports));
      Require(IsUint(Get(plan, FlashFeeLamports)), BadPlanAmount, Key(FlashFeeLamports));
      Require(IsUint(Get(plan, MinimumProfitLamports)), BadPlanAmount, Key(MinimumProfitLamports));
      Require(SlippageOk(Get(plan, MaxSlippageBps)), BadSlippage, Key(MaxSlippageBps));
    }

    method ValidateMessage(plan: Mapping, message: Mapping) returns (r: Result<(), Raised>)
      modifies this
      ensures match AfterMessage(old(items), plan, message)
              case Success(after) => r.Success? && items == after
              case Failure(_) => r.Failure?
    {
      Require(Same(Get(message, PlanId), Get(plan, PlanId)), MessageBinding, Key(PlanId));
      RequireEach(message, MESSAGE_HASHES, AHash, BadMessageHash);
      Require(IsSafe(Get(message, RecentBlockhash)), BadBlockhash, Key(RecentBlockhash));
      Require(HeightsOk(message), BadBlockHeight, Whole);
      var live :- IsFresh(message);
      Require(live, BlockhashStale, Whole);
      var observed :- SlotObserved(message);
      Require(observed, ContextSlotStale, Whole);
      var fits :- WireFits(message);
      Require(fits, WireSize, Whole);
      return Success(());
    }

    method RequireCounts(roles: seq<Value>, names: seq<string>)
      modifies this
      ensures items == AfterCounts(old(items), roles, names)
    {
      for n := 0 to |names|
        invariant items == AfterCounts(old(items), roles, names[..n])
      {
        assert names[..n + 1][..n] == names[..n];
        Require(Count(roles, names[n]) == 1, DuplicateOrMissingRole, RoleName(names[n]));
      }
      assert names[..|names|] == names;
    }

    method ValidateItems(instructions: seq<Mapping>)
      modifies this
      ensures items == AfterItems(old(items), instructions)
    {
      for n := 0 to |instructions|
        invariant items == AfterItems(old(items), instructions[..n])
      {
        var item := instructions[n];
        assert instructions[..n + 1][..n] == instructions[..n];
        Require(IsAllowedRole(Get(item, Role)), UnknownInstruction, RoleName(Text(Get(item, Role))));
        RequireEach(item, ITEM_PROGRAM, ASafeText, BadInstructionEvidence);
        RequireEach(item, ITEM_HASHES, AHash, BadInstructionEvidence);
        RequireEach(item, ITEM_AMOUNTS, AUintOrAbsent, BadInstructionAmount);
      }
      assert instructions[..|instructions|] == instructions;
    }

    method ValidateInstructions(plan: Mapping, instructions: seq<Mapping>) returns (r: Result<(), Raised>)
      modifies this
      ensures match AfterInstructions(old(items), plan, instructions)
              case Success(after) => r.Success? && items == after
              case Failure(_) => r.Failure?
    {
      if !Sortable(instructions) {
        return Failure(TypeError);
      }
      var roles := Roles(instructions);
      Require(SameRoles(roles, Roles(SortByIndex(instructions))), InstructionIndexGap, Whole);
      Require(roles != [], NoInstructions, Whole);
      Require(IsBracket(roles), BadFlashBracket, Whole);
      Require(Legs(roles) == [Str(LEG_A), Str(LEG_B)], BadSwapOrder, Whole);
      RequireCounts(roles, SENSITIVE_ROLES);
      ValidateItems(instructions);
      var expected :- ExpectedRepayment(plan);
      Require(BorrowsPrincipal(plan, instructions), BorrowAmount, Whole);
      Require(Repays(instructions, expected), RepayAmount, Whole);
      return Success(());
    }

    method ValidateSimulation(message: Mapping, simulation: Mapping)
      modifies this
      ensures items == AfterSimulation(old(items), message, simulation)
    {
      RequireEach(simulation, SIMULATION_HASHES, AHash, BadSimulationHash);
      Require(Same(Get(simulation, MessageHash), Get(message, MessageHash)), SimulationBinding, Key(MessageHash));
      Require(Get(simulation, SuccessFlag) == Bool(true), SimulationFailed, Key(SuccessFlag));
      Require(Get(simulation, ErrorCode) == Null, SimulationErrorPresent, Key(ErrorCode));
      Require(Get(simulation, LocalSignatureVerificationPassed) == Bool(true), LocalSignatureCheck, Whole);
      Require(IsPositive(Get(simulation, UnitsConsumed)), BadSimulationCounter, Key(UnitsConsumed));
      Require(IsPositive(Get(simulation, TotalTransactionFeeLamports)),
              BadSimulationCounter, Key(TotalTransactionFeeLamports));
    }

    method ValidateEconomics(plan: Mapping, instructions: seq<Mapping>, simulation: Mapping, economics: Mapping)
      returns (r: Result<(), Raised>)
      modifies this
      ensures match AfterEconomics(old(items), plan, instructions, simulation, economics)
              case Success(after) => r.Success? && items == after
              case Failure(_) => r.Failure?
    {
      RequireEach(economics, ECONOMIC_AMOUNTS, AUint, BadEconomicAmount);
      var expected :- ExpectedRepayment(plan);
      Require(Same(Get(economics, RepaymentLamports), expected), EconomicRepayment, Whole);
      Require(FeeIsSimulated(simulation, economics), FeeNotSimulationBound, Whole);
      var reserved :- IsReserved(economics);
      Require(reserved, FailedLandingFee, Whole);
      Require(OutputIsGuaranteed(instructions, economics), GuaranteedOutput, Whole);
      var net :- NetOf(economics);
      Require(ProfitIsPlanned(plan, economics), MinProfitBinding, Whole);
      var profitable :- IsAtLeast(net, GetOr(plan, MinimumProfitLamports, Int(0)));
      Require(profitable, ConservativeProfit, Whole);
      return Success(());
    }

    method ValidateQualification(qualification: Mapping) returns (r: Result<(), Raised>)
      modifies this
      ensures match AfterQualification(old(items), qualification)
              case Success(after) => r.Success? && items == after
              case Failure(_) => r.Failure?
    {
      RequireEach(qualification, QUALIFICATION_HASHES, AHash, BadQualificationHash);
      var elapsed :- HasElapsed(qualification);
      Require(elapsed, BadQualificationWindow, Whole);
      RequireEach(qualification, QUALIFICATION_COUNTS, APositive, QualificationCount);
      RequireEach(qualification, QUALIFICATION_FLAGS, IsTrue, QualificationFlag);
      return Success(());
    }

    method ValidateFindings(findings: seq<Value>)
      modifies this
      ensures items == AfterFindings(old(items), findings)
    {
      var missing := MissingFindings(REQUIRED_FINDINGS, findings);
      Require(NoRepeats(findings), DuplicateFinding, Whole);
      Require(missing == [], FindingsIncomplete, Missing(missing));
    }
  }

  /** The loop that takes the costs off, one at a time. */
  method NetOf(economics: Mapping) returns (r: Result<Value, Raised>)
    ensures match Net(economics)
            case Success(net) => r == Success(net)
            case Failure(_) => r.Failure?
  {
    var start :- NetStart(economics);
    var net := start;
    for n := 0 to |REQUIRED_COSTS|
      invariant NetAfter(economics, REQUIRED_COSTS[..n], start) == Success(net)
    {
      assert REQUIRED_COSTS[..n + 1][..n] == REQUIRED_COSTS[..n];
      var next := Minus(net, GetOr(economics, REQUIRED_COSTS[n], Int(0)));
      if next.Failure? {
        FailureStays(economics, REQUIRED_COSTS, n + 1, start);
        return next;
      }
      net := next.value;
    }
    assert REQUIRED_COSTS[..|REQUIRED_COSTS|] == REQUIRED_COSTS;
    return Success(net);
  }

  lemma {:induction false} FailureStays(economics: Mapping, costs: seq<Field>, n: nat, start: Value)
    requires n <= |costs| && NetAfter(economics, costs[..n], start).Failure?
    ensures NetAfter(economics, costs, start).Failure?
    decreases |costs|
  {
    assert costs[..|costs|] == costs;
    if n < |costs| {
      var init := costs[..|costs| - 1];
      assert init[..n] == costs[..n];
      FailureStays(economics, init, n, start);
    }
  }

  method Dedupe(blockers: seq<Violation>) returns (r: seq<Violation>)
    ensures r == Unique(blockers)
  {
    var seen: set<Violation> := {};
    r := [];
    for n := 0 to |blockers|
      invariant r == Unique(blockers[..n])
      invariant forall b :: b in seen <==> b in r
    {
      assert blockers[..n + 1][..n] == blockers[..n];
      if blockers[n] !in seen {
        seen := seen + {blockers[n]};
        r := r + [blockers[n]];
      }
    }
    assert blockers[..|blockers|] == blockers;
  }

  method EvaluateEvidence(e: Evidence) returns (r: Result<Report, Raised>)
    ensures match Evaluate(e)
            case Success(report) => r == Success(report)
            case Failure(_) => r.Failure?
  {
    var blockers := new BlockerList();
    blockers.ForbidRuntimeSurfaces(e.requests, e.qualification);
    blockers.ValidatePlan(e.plan);
    var _ :- blockers.ValidateMessage(e.plan, e.message);
    var _ :- blockers.ValidateInstructions(e.plan, e.instructions);
    blockers.ValidateSimulation(e.message, e.simulation);
    var _ :- blockers.ValidateEconomics(e.plan, e.instructions, e.simulation, e.economics);
    var _ :- blockers.ValidateQualification(e.qualification);
    blockers.ValidateFindings(e.findings);
    var unique := Dedupe(blockers.items);
    return Success(Report(unique == [], unique, HashOf(e), false, false, false));
  }
}
