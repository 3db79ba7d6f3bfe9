/**
 What a report lists: a violation is in it exactly when the condition it names fails, and
 when the evaluation raises instead of reporting.
 */
module AtomicGateReports {
  import opened Wrappers
  import opened StringOrder
  import opened EvidenceValues
  import opened RequiredFindings
  import opened AtomicGate
  import opened AtomicGateSoundness
  import opened AtomicGateFields

  // ----- The faults, one validator at a time -----

  /** One of these fields fails its condition, and the violation names it. */
  predicate IsFieldFault(v: Violation, code: Code, fields: set<Field>) {
    v.code == code && v.detail.Key? && v.detail.field in fields
  }

  predicate AskingFault(e: Evidence, v: Violation) {
    || (IsFieldFault(v, ForbiddenRequest, {LiveExecutionRequested, SignerRequested, SenderRequested})
        && !HoldsNothing(e.requests, v.detail.field))
    || (IsFieldFault(v, ForbiddenSurface, {SenderNamespaceReachable, SignerNamespaceReachable, PrivateKeyReachable,
                                           NetworkSubmissionReachable})
        && !HoldsNothing(e.qualification, v.detail.field))
  }

  predicate PlanFault(plan: Mapping, v: Violation) {
    || (IsFieldFault(v, BadPlanId, {ReleaseId, PlanId, WalletPubkey, DurableReservationId})
        && !HoldsName(plan, v.detail.field))
    || (IsFieldFault(v, BadPlanHash, {ClusterGenesisHash, ProtocolRegistryHash, ProviderGenerationHash,
                                      BuildArtifactHash})
        && !HoldsHash(plan, v.detail.field))
    || (v == Violation(BadPlanAmount, Key(PrincipalLamports)) && !HoldsPositive(plan, PrincipalLamports))
    || (IsFieldFault(v, BadPlanAmount, {FlashFeeLamports, MinimumProfitLamports}) && !HoldsCount(plan, v.detail.field))
    || (v == Violation(BadSlippage, Key(MaxSlippageBps))
        && !(IsNumeric(FieldOr(plan, MaxSlippageBps, Null)) && 0 <= AmountIn(plan, MaxSlippageBps) <= 1000))
  }

  /** The block height and the margin have reached the last valid height. */
  predicate IsStale(height: Value, margin: Value, last: Value) {
    if IsNumeric(height) then NumberIn(height) + NumberIn(margin) >= NumberIn(last)
    else height.Str? && margin.Str? && last.Str? && !Less(height.text + margin.text, last.text)
  }

  predicate MessageFault(plan: Mapping, message: Mapping, v: Violation) {
    || (v == Violation(MessageBinding, Key(PlanId))
        && !AreEqual(FieldOr(message, PlanId, Null), FieldOr(plan, PlanId, Null)))
    || (IsFieldFault(v, BadMessageHash, {MessageHash, MessageBytesHash, AccountMetaHash, AltSnapshotHash})
        && !HoldsHash(message, v.detail.field))
    || (v == Violation(BadBlockhash, Key(RecentBlockhash)) && !HoldsName(message, RecentBlockhash))
    || (v == Violation(BadBlockHeight, Whole)
        && !(HoldsCount(message, CurrentBlockHeight) && HoldsCount(message, LastValidBlockHeight)
             && HoldsCount(message, SafetyMarginBlocks)))
    || (v == Violation(BlockhashStale, Whole)
        && IsStale(FieldOr(message, CurrentBlockHeight, Null), FieldOr(message, SafetyMarginBlocks, Null),
                   FieldOr(message, LastValidBlockHeight, Null)))
    || (v == Violation(ContextSlotStale, Whole)
        && IsLess(FieldOr(message, ObservedContextSlot, Int(-1)), FieldOr(message, MinContextSlot, Int(0))))
    || (v == Violation(WireSize, Whole) && !SizeHolds(message))
  }

  predicate SimulationFault(message: Mapping, simulation: Mapping, v: Violation) {
    || (IsFieldFault(v, BadSimulationHash, {MessageHash, RequestHash, ResponseHash, PreAccountsHash, PostAccountsHash,
                                            LogsHash})
        && !HoldsHash(simulation, v.detail.field))
    || (v == Violation(SimulationBinding, Key(MessageHash))
        && !AreEqual(FieldOr(simulation, MessageHash, Null), FieldOr(message, MessageHash, Null)))
    || (v == Violation(SimulationFailed, Key(SuccessFlag)) && !HoldsTrue(simulation, SuccessFlag))
    || (v == Violation(SimulationErrorPresent, Key(ErrorCode)) && FieldOr(simulation, ErrorCode, Null) != Null)
    || (v == Violation(LocalSignatureCheck, Whole) && !HoldsTrue(simulation, LocalSignatureVerificationPassed))
    || (IsFieldFault(v, BadSimulationCounter, {UnitsConsumed, TotalTransactionFeeLamports})
        && !HoldsPositive(simulation, v.detail.field))
  }

  predicate QualificationFault(qualification: Mapping, v: Violation) {
    || (IsFieldFault(v, BadQualificationHash, {InstalledArtifactHash, CompositionRootHash, DurableShadowTraceHash,
                                               ReplayBundleHash})
        && !HoldsHash(qualification, v.detail.field))
    || (v == Violation(BadQualificationWindow, Whole)
        && !IsLess(FieldOr(qualification, StartedNs, Int(0)), FieldOr(qualification, EndedNs, Int(0))))
    || (IsFieldFault(v, QualificationCount, {NonSyntheticCycleCount, RestartDrillCount, ProviderDegradationDrillCount})
        && !HoldsPositive(qualification, v.detail.field))
    || (IsFieldFault(v, QualificationFlag, {DeterministicReplayPassed, DurableTraceMaterialized,
                                            CompiledFromInstalledArtifact, ExactSimulationReplayed,
                                            EconomicsReconciled})
        && !HoldsTrue(qualification, v.detail.field))
  }

  predicate Ascends(at: seq<int>) {
    forall a, b :: 0 <= a < b < |at| ==> at[a] < at[b]
  }

  /** `at` lists, from left to right, the positions of the required findings that are not covered. */
  predicate AreUncovered(at: seq<int>, required: seq<string>, findings: seq<Value>) {
    && Ascends(at) && (forall a :: 0 <= a < |at| ==> 0 <= at[a] < |required|)
    && forall i :: 0 <= i < |required| ==> (i in at <==> Str(required[i]) !in findings)
  }

  predicate AreNamesAt(missing: seq<string>, at: seq<int>, required: seq<string>) {
    |missing| == |at| && forall a :: 0 <= a < |at| ==> 0 <= at[a] < |required| && missing[a] == required[at[a]]
  }

  /** These are the required findings that are not covered, in their order. */
  ghost predicate AreMissing(missing: seq<string>, required: seq<string>, findings: seq<Value>) {
    exists at: seq<int> :: AreUncovered(at, required, findings) && AreNamesAt(missing, at, required)
  }

  ghost predicate FindingsFault(findings: seq<Value>, v: Violation) {
    || (v == Violation(DuplicateFinding, Whole)
        && exists i, j :: 0 <= i < j < |findings| && AreEqual(findings[i], findings[j]))
    || (v.code == FindingsIncomplete && v.detail.Missing? && v.detail.findings != []
        && AreMissing(v.detail.findings, REQUIRED_FINDINGS, findings))
  }

  predicate ItemFault(item: Mapping, v: Violation) {
    || (v == Violation(UnknownInstruction, RoleName(Text(FieldOr(item, Role, Null))))
        && FieldOr(item, Role, Null) !in {
             Str("marginfi.borrow"), Str("marginfi.repay"), Str("jupiter.leg_a"), Str("jupiter.leg_b"),
             Str("ata.create"), Str("ata.close"), Str("wsol.wrap"), Str("wsol.unwrap")})
    || (v == Violation(BadInstructionEvidence, Key(ProgramId)) && !HoldsName(item, ProgramId))
    || (IsFieldFault(v, BadInstructionEvidence, {InstructionHash, AccountRolesHash, DecodedSemanticsHash})
        && !HoldsHash(item, v.detail.field))
    || (IsFieldFault(v, BadInstructionAmount, {InputLamports, OutputLamports, PrincipalLamports, FlashFeeLamports,
                                               RepaymentLamports})
        && !HoldsCountIfAny(item, v.detail.field))
  }

  predicate FirstWithRole(items: seq<Mapping>, role: string, k: int) {
    HasRole(items, k, role) && forall m :: 0 <= m < k ==> !HasRole(items, m, role)
  }

  /** The first item of the role, or no fields at all when there is none. */
  ghost predicate IsItemOf(items: seq<Mapping>, role: string, item: Mapping) {
    || (exists k :: FirstWithRole(items, role, k) && item == items[k])
    || ((forall k :: !HasRole(items, k, role)) && item == map[])
  }

  predicate OnlyAt(items: seq<Mapping>, role: string, p: int) {
    HasRole(items, p, role) && forall k :: 0 <= k < |items| && HasRole(items, k, role) ==> k == p
  }

  /** Leg A at `i`, leg B at `j`, no other leg. */
  predicate LegsAt(items: seq<Mapping>, i: int, j: int) {
    i < j && OnlyAt(items, "jupiter.leg_a", i) && OnlyAt(items, "jupiter.leg_b", j)
  }

  /** The value is the sum of the two, or, for texts, the one after the other. */
  predicate IsSum(v: Value, a: Value, b: Value) {
    if IsNumeric(a) then IsNumber(v, NumberIn(a) + NumberIn(b)) else a.Str? && b.Str? && v == Str(a.text + b.text)
  }

  predicate IsOwed(v: Value, plan: Mapping) {
    IsSum(v, FieldOr(plan, PrincipalLamports, Int(0)), FieldOr(plan, FlashFeeLamports, Int(0)))
  }

  ghost predicate OrderFault(items: seq<Mapping>, v: Violation) {
    || (v == Violation(InstructionIndexGap, Whole)
        && exists k :: 0 <= k < |items| == |SortByIndex(items)|
                       && !AreEqual(FieldOr(items[k], Role, Null), FieldOr(SortByIndex(items)[k], Role, Null)))
    || (v == Violation(NoInstructions, Whole) && items == [])
    || (v == Violation(BadFlashBracket, Whole)
        && !(HasRole(items, 0, "marginfi.borrow") && HasRole(items, |items| - 1, "marginfi.repay")))
    || (v == Violation(BadSwapOrder, Whole) && !exists i, j :: LegsAt(items, i, j))
    || (v.code == DuplicateOrMissingRole && v.detail.RoleName?
        && v.detail.text in {"marginfi.borrow", "marginfi.repay", "jupiter.leg_a", "jupiter.leg_b"}
        && !exists p :: OnlyAt(items, v.detail.text, p))
  }

  ghost predicate AmountFault(plan: Mapping, items: seq<Mapping>, v: Violation) {
    || (v == Violation(BorrowAmount, Whole)
        && exists item :: IsItemOf(items, "marginfi.borrow", item)
                          && !AreEqual(FieldOr(item, PrincipalLamports, Null), FieldOr(plan, PrincipalLamports, Null)))
    || (v == Violation(RepayAmount, Whole)
        && exists item :: IsItemOf(items, "marginfi.repay", item)
                          && !IsOwed(FieldOr(item, RepaymentLamports, Null), plan))
  }

  ghost predicate InstructionFault(plan: Mapping, items: seq<Mapping>, v: Violation) {
    || OrderFault(items, v) || AmountFault(plan, items, v)
    || exists k :: 0 <= k < |items| && ItemFault(items[k], v)
  }

  /** What is left of the output and the refund after repayment and the seven costs, absent amounts being 0. */
  function Remains(economics: Mapping): int {
    AmountIn(economics, GuaranteedLegBOutputLamports) - AmountIn(economics, RepaymentLamports)
    + AmountIn(economics, RentRefundLamports) - CostsOf(economics)
  }

  ghost predicate EconomicsFault(
    plan: Mapping, items: seq<Mapping>, simulation: Mapping, economics: Mapping, v: Violation)
  {
    || (IsFieldFault(v, BadEconomicAmount, {
                       TotalTransactionFeeLamports, FailedLandingFeeLamports, RentCreateLamports, PriorityFeeLamports,
                       JitoTipLamports, TokenTransferFeeLamports, ContingencyLamports, MinimumProfitLamports,
                       RentRefundLamports})
        && !HoldsCount(economics, v.detail.field))
    || (v == Violation(EconomicRepayment, Whole) && !IsOwed(FieldOr(economics, RepaymentLamports, Null), plan))
    || (v == Violation(FeeNotSimulationBound, Whole)
        && !AreEqual(FieldOr(economics, TotalTransactionFeeLamports, Null),
                     FieldOr(simulation, TotalTransactionFeeLamports, Null)))
    || (v == Violation(FailedLandingFee, Whole) && AmountIn(economics, FailedLandingFeeLamports) <= 0)
    || (v == Violation(GuaranteedOutput, Whole)
        && exists item :: IsItemOf(items, "jupiter.leg_b", item)
                          && !AreEqual(FieldOr(economics, GuaranteedLegBOutputLamports, Null),
                                       FieldOr(item, OutputLamports, Null)))
    || (v == Violation(MinProfitBinding, Whole)
        && !AreEqual(FieldOr(economics, MinimumProfitLamports, Null), FieldOr(plan, MinimumProfitLamports, Null)))
    || (v == Violation(ConservativeProfit, Whole) && Remains(economics) < AmountIn(plan, MinimumProfitLamports))
  }

  /** The bundle has this fault. */
  ghost predicate IsFault(e: Evidence, v: Violation) {
    || AskingFault(e, v) || PlanFault(e.plan, v) || MessageFault(e.plan, e.message, v)
    || InstructionFault(e.plan, e.instructions, v) || SimulationFault(e.message, e.simulation, v)
    || EconomicsFault(e.plan, e.instructions, e.simulation, e.economics, v)
    || QualificationFault(e.qualification, v) || FindingsFault(e.findings, v)
  }

  // ----- When the evaluation raises -----

  predicate AreOneKind(a: Value, b: Value) {
    (IsNumeric(a) && IsNumeric(b)) || (a.Str? && b.Str?)
  }

  predicate MessageComputes(message: Mapping) {
    var height, margin := FieldOr(message, CurrentBlockHeight, Null), FieldOr(message, SafetyMarginBlocks, Null);
    var bytes := FieldOr(message, UnsignedTransactionBytes, Int(0));
    var signatures := FieldOr(message, RequiredSignatureCount, Int(0));
    && AreOneKind(height, margin) && AreOneKind(height, FieldOr(message, LastValidBlockHeight, Null))
    && AreOneKind(FieldOr(message, ObservedContextSlot, Int(-1)), FieldOr(message, MinContextSlot, Int(0)))
    && IsNumeric(bytes) && IsNumeric(signatures)
    && (65 < NumberIn(bytes) + 1 + 64 * NumberIn(signatures) ==> IsNumeric(FieldOr(message, MaxWireBytes, Int(1232))))
  }

  predicate InstructionsCompute(plan: Mapping, items: seq<Mapping>) {
    && AreOneKind(FieldOr(plan, PrincipalLamports, Int(0)), FieldOr(plan, FlashFeeLamports, Int(0)))
    && forall a, b :: 0 <= a < b < |items| ==>
                        AreOneKind(FieldOr(items[a], Index, Int(-1)), FieldOr(items[b], Index, Int(-1)))
  }

  predicate EconomicsCompute(plan: Mapping, economics: Mapping) {
    && IsNumeric(FieldOr(economics, GuaranteedLegBOutputLamports, Null))
    && IsNumeric(FieldOr(economics, RepaymentLamports, Int(0)))
    && IsNumeric(FieldOr(economics, RentRefundLamports, Int(0)))
    && IsNumeric(FieldOr(economics, TotalTransactionFeeLamports, Int(0)))
    && IsNumeric(FieldOr(economics, FailedLandingFeeLamports, Int(0)))
    && IsNumeric(FieldOr(economics, RentCreateLamports, Int(0)))
    && IsNumeric(FieldOr(economics, PriorityFeeLamports, Int(0)))
    && IsNumeric(FieldOr(economics, JitoTipLamports, Int(0)))
    && IsNumeric(FieldOr(economics, TokenTransferFeeLamports, Int(0)))
    && IsNumeric(FieldOr(economics, ContingencyLamports, Int(0)))
    && IsNumeric(FieldOr(plan, MinimumProfitLamports, Int(0)))
  }

  /** Every sum and comparison is of numbers, or of texts. */
  predicate Computes(e: Evidence) {
    && MessageComputes(e.message) && InstructionsCompute(e.plan, e.instructions)
    && EconomicsCompute(e.plan, e.economics)
    && AreOneKind(FieldOr(e.qualification, StartedNs, Int(0)), FieldOr(e.qualification, EndedNs, Int(0)))
  }

  // ----- What each validator adds -----

  lemma AddedUnless(blockers: seq<Violation>, ok: bool, code: Code, detail: Detail, v: Violation)
    ensures v in AddUnless(blockers, ok, code, detail) <==> v in blockers || (!ok && v == Violation(code, detail))
  {
  }

  predicate Fails(m: Mapping, keys: seq<Field>, test: Test, code: Code, v: Violation) {
    v.code == code && v.detail.Key? && v.detail.field in keys && !Passes(test, m, v.detail.field)
  }

  lemma FailsSnoc(m: Mapping, init: seq<Field>, last: Field, test: Test, code: Code, v: Violation)
    ensures Fails(m, init + [last], test, code, v) <==>
            Fails(m, init, test, code, v) || (!Passes(test, m, last) && v == Violation(code, Key(last)))
  {
  }

  lemma EachSnoc(blockers: seq<Violation>, m: Mapping, init: seq<Field>, last: Field, test: Test, code: Code)
    ensures AddUnlessEach(blockers, m, init + [last], test, code) ==
            AddUnless(AddUnlessEach(blockers, m, init, test, code), Passes(test, m, last), code, Key(last))
  {
    assert (init + [last])[..|init|] == init;
  }

  lemma {:induction false} AddedUnlessEach(
    blockers: seq<Violation>, m: Mapping, keys: seq<Field>, test: Test, code: Code, v: Violation)
    ensures v in AddUnlessEach(blockers, m, keys, test, code) <==> v in blockers || Fails(m, keys, test, code, v)
  {
    if keys != [] {
      var init, last := keys[..|keys| - 1], keys[|keys| - 1];
      assert keys == init + [last];
      AddedUnlessEach(blockers, m, init, test, code, v);
      EachSnoc(blockers, m, init, last, test, code);
      FailsSnoc(m, init, last, test, code, v);
      AddedUnless(AddUnlessEach(blockers, m, init, test, code), Passes(test, m, last), code, Key(last), v);
    }
  }

  lemma FailsMeans(m: Mapping, keys: seq<Field>, code: Code, v: Violation)
    ensures Fails(m, keys, AHash, code, v) <==>
            v.code == code && v.detail.Key? && v.detail.field in keys && !HoldsHash(m, v.detail.field)
    ensures Fails(m, keys, ASafeText, code, v) <==>
            v.code == code && v.detail.Key? && v.detail.field in keys && !HoldsName(m, v.detail.field)
  {
    if v.detail.Key? {
      HashMeans(m, v.detail.field);
      NameMeans(m, v.detail.field);
    }
  }

  lemma NothingReported(e: Evidence, v: Violation)
    ensures v in AfterForbidden([], e.requests, e.qualification) <==> AskingFault(e, v)
  {
    var asked := AddUnlessEach([], e.requests, REQUEST_KEYS, IsFalsy, ForbiddenRequest);
    AddedUnlessEach([], e.requests, REQUEST_KEYS, IsFalsy, ForbiddenRequest, v);
    AddedUnlessEach(asked, e.qualification, SURFACE_KEYS, IsFalsy, ForbiddenSurface, v);
    if v.detail.Key? {
      NothingMeans(e.requests, v.detail.field);
      NothingMeans(e.qualification, v.detail.field);
    }
  }

  lemma PlanReported(blockers: seq<Violation>, plan: Mapping, v: Violation)
    ensures v in AfterPlan(blockers, plan) <==> v in blockers || PlanFault(plan, v)
  {
    var ids := AddUnlessEach(blockers, plan, PLAN_IDS, ASafeText, BadPlanId);
    AddedUnlessEach(blockers, plan, PLAN_IDS, ASafeText, BadPlanId, v);
    FailsMeans(plan, PLAN_IDS, BadPlanId, v);
    AddedUnlessEach(ids, plan, PLAN_HASHES, AHash, BadPlanHash, v);
    FailsMeans(plan, PLAN_HASHES, BadPlanHash, v);
    CountsMean(plan, PrincipalLamports);
    CountsMean(plan, FlashFeeLamports);
    CountsMean(plan, MinimumProfitLamports);
    NumbersMean(FieldOr(plan, MaxSlippageBps, Null));
  }

  lemma StaleMeans(message: Mapping)
    requires MessageComputes(message)
    ensures IsFresh(message) ==
            Success(!IsStale(FieldOr(message, CurrentBlockHeight, Null), FieldOr(message, SafetyMarginBlocks, Null),
                             FieldOr(message, LastValidBlockHeight, Null)))
  {
  }

  lemma SlotMeans(message: Mapping)
    requires MessageComputes(message)
    ensures SlotObserved(message) ==
            Success(!IsLess(FieldOr(message, ObservedContextSlot, Int(-1)), FieldOr(message, MinContextSlot, Int(0))))
  {
  }

  lemma WireMeans(message: Mapping)
    requires MessageComputes(message)
    ensures WireFits(message) == Success(SizeHolds(message))
  {
  }

  lemma MessageComputesIff(blockers: seq<Violation>, plan: Mapping, message: Mapping)
    ensures AfterMessage(blockers, plan, message).Success? <==> MessageComputes(message)
  {
  }

  lemma IdentityReported(blockers: seq<Violation>, plan: Mapping, message: Mapping, v: Violation)
    ensures v in AfterMessageIdentity(blockers, plan, message) <==>
            || v in blockers
            || (MessageFault(plan, message, v) && v.code !in {BlockhashStale, ContextSlotStale, WireSize})
  {
    var bound := AddUnless(blockers, Same(Get(message, PlanId), Get(plan, PlanId)), MessageBinding, Key(PlanId));
    AddedUnlessEach(bound, message, MESSAGE_HASHES, AHash, BadMessageHash, v);
    FailsMeans(message, MESSAGE_HASHES, BadMessageHash, v);
    EqualMeans(Get(message, PlanId), Get(plan, PlanId));
    NameMeans(message, RecentBlockhash);
    CountsMean(message, CurrentBlockHeight);
    CountsMean(message, LastValidBlockHeight);
    CountsMean(message, SafetyMarginBlocks);
  }

  lemma MessageReported(blockers: seq<Violation>, plan: Mapping, message: Mapping, v: Violation)
    requires MessageComputes(message)
    ensures AfterMessage(blockers, plan, message).Success?
    ensures v in AfterMessage(blockers, plan, message).value <==> v in blockers || MessageFault(plan, message, v)
  {
    IdentityReported(blockers, plan, message, v);
    StaleMeans(message);
    SlotMeans(message);
    WireMeans(message);
  }

  lemma SimulationHashesReported(blockers: seq<Violation>, simulation: Mapping, v: Violation)
    ensures v in AddUnlessEach(blockers, simulation, SIMULATION_HASHES, AHash, BadSimulationHash) <==>
            || v in blockers
            || (IsFieldFault(v, BadSimulationHash, {MessageHash, RequestHash, ResponseHash, PreAccountsHash,
                                                    PostAccountsHash, LogsHash})
                && !HoldsHash(simulation, v.detail.field))
  {
    AddedUnlessEach(blockers, simulation, SIMULATION_HASHES, AHash, BadSimulationHash, v);
    FailsMeans(simulation, SIMULATION_HASHES, BadSimulationHash, v);
  }

  lemma SimulationReported(blockers: seq<Violation>, message: Mapping, simulation: Mapping, v: Violation)
    ensures v in AfterSimulation(blockers, message, simulation) <==>
            v in blockers || SimulationFault(message, simulation, v)
  {
    SimulationHashesReported(blockers, simulation, v);
    EqualMeans(Get(simulation, MessageHash), Get(message, MessageHash));
    CountsMean(simulation, UnitsConsumed);
    CountsMean(simulation, TotalTransactionFeeLamports);
  }

  lemma WindowMeans(qualification: Mapping)
    ensures HasElapsed(qualification).Success? <==>
            AreOneKind(FieldOr(qualification, StartedNs, Int(0)), FieldOr(qualification, EndedNs, Int(0)))
    ensures HasElapsed(qualification) == Success(true) <==>
            IsLess(FieldOr(qualification, StartedNs, Int(0)), FieldOr(qualification, EndedNs, Int(0)))
  {
  }

  lemma QualificationHashesReported(blockers: seq<Violation>, qualification: Mapping, v: Violation)
    ensures v in AddUnlessEach(blockers, qualification, QUALIFICATION_HASHES, AHash, BadQualificationHash) <==>
            || v in blockers
            || (IsFieldFault(v, BadQualificationHash, {InstalledArtifactHash, CompositionRootHash,
                                                       DurableShadowTraceHash, ReplayBundleHash})
                && !HoldsHash(qualification, v.detail.field))
  {
    AddedUnlessEach(blockers, qualification, QUALIFICATION_HASHES, AHash, BadQualificationHash, v);
    FailsMeans(qualification, QUALIFICATION_HASHES, BadQualificationHash, v);
  }

  lemma CountsReportedIn(blockers: seq<Violation>, qualification: Mapping, v: Violation)
    ensures v in AddUnlessEach(blockers, qualification, QUALIFICATION_COUNTS, APositive, QualificationCount) <==>
            || v in blockers
            || (IsFieldFault(v, QualificationCount, {NonSyntheticCycleCount, RestartDrillCount,
                                                     ProviderDegradationDrillCount})
                && !HoldsPositive(qualification, v.detail.field))
  {
    AddedUnlessEach(blockers, qualification, QUALIFICATION_COUNTS, APositive, QualificationCount, v);
    if v.detail.Key? {
      CountsMean(qualification, v.detail.field);
    }
  }

  lemma FlagsReportedIn(blockers: seq<Violation>, qualification: Mapping, v: Violation)
    ensures v in AddUnlessEach(blockers, qualification, QUALIFICATION_FLAGS, IsTrue, QualificationFlag) <==>
            || v in blockers
            || (IsFieldFault(v, QualificationFlag, {DeterministicReplayPassed, DurableTraceMaterialized,
                                                    CompiledFromInstalledArtifact, ExactSimulationReplayed,
                                                    EconomicsReconciled})
                && !HoldsTrue(qualification, v.detail.field))
  {
    AddedUnlessEach(blockers, qualification, QUALIFICATION_FLAGS, IsTrue, QualificationFlag, v);
    if v.detail.Key? {
      FlagMeans(qualification, v.detail.field);
    }
  }

  lemma QualificationReported(blockers: seq<Violation>, qualification: Mapping, v: Violation)
    requires AfterQualification(blockers, qualification).Success?
    ensures v in AfterQualification(blockers, qualification).value <==>
            v in blockers || QualificationFault(qualification, v)
  {
    var hashes := AddUnlessEach(blockers, qualification, QUALIFICATION_HASHES, AHash, BadQualificationHash);
    WindowMeans(qualification);
    var window := AddUnless(hashes, HasElapsed(qualification).value, BadQualificationWindow, Whole);
    var counts := AddUnlessEach(window, qualification, QUALIFICATION_COUNTS, APositive, QualificationCount);
    QualificationHashesReported(blockers, qualification, v);
    AddedUnless(hashes, HasElapsed(qualification).value, BadQualificationWindow, Whole, v);
    CountsReportedIn(window, qualification, v);
    FlagsReportedIn(counts, qualification, v);
  }

  // ----- The findings -----

  function Shifted(at: seq<int>): (r: seq<int>)
    ensures |r| == |at| && forall a :: 0 <= a < |r| ==> r[a] == at[a] + 1
  {
    seq(|at|, a requires 0 <= a < |at| => at[a] + 1)
  }

  lemma ShiftedHas(at: seq<int>, i: int)
    ensures i in Shifted(at) <==> i - 1 in at
  {
    if i - 1 in at {
      var a :| 0 <= a < |at| && at[a] == i - 1;
      assert Shifted(at)[a] == i;
    }
  }

  /** One more required finding in front. */
  lemma UncoveredGrow(at: seq<int>, first: string, rest: seq<string>, findings: seq<Value>)
    requires AreUncovered(at, rest, findings)
    ensures AreUncovered((if Str(first) in findings then [] else [0]) + Shifted(at), [first] + rest, findings)
  {
    var required := [first] + rest;
    var longer := (if Str(first) in findings then [] else [0]) + Shifted(at);
    forall i | 0 <= i < |required| ensures i in longer <==> Str(required[i]) !in findings {
      ShiftedHas(at, i);
      assert i > 0 ==> required[i] == rest[i - 1];
      assert forall a :: 0 <= a < |at| ==> at[a] >= 0;
      if i == 0 {
        assert -1 !in at;
      }
    }
  }

  lemma NamesGrow(missing: seq<string>, at: seq<int>, first: string, rest: seq<string>, isNew: bool)
    requires AreNamesAt(missing, at, rest)
    ensures AreNamesAt((if isNew then [first] else []) + missing, (if isNew then [0] else []) + Shifted(at),
                       [first] + rest)
  {
  }

  lemma MissingByPlaces(at: seq<int>, missing: seq<string>, required: seq<string>, findings: seq<Value>)
    requires AreUncovered(at, required, findings) && AreNamesAt(missing, at, required)
    ensures AreMissing(missing, required, findings)
  {
  }

  lemma {:induction false} MissingFindingsAreMissing(required: seq<string>, findings: seq<Value>)
    ensures AreMissing(MissingFindings(required, findings), required, findings)
  {
    if required == [] {
      assert AreUncovered([], required, findings) && AreNamesAt([], [], required);
    } else {
      var first, rest := required[0], required[1..];
      MissingFindingsAreMissing(rest, findings);
      var missing := MissingFindings(rest, findings);
      var at: seq<int> :| AreUncovered(at, rest, findings) && AreNamesAt(missing, at, rest);
      var isNew := Str(first) !in findings;
      UncoveredGrow(at, first, rest, findings);
      NamesGrow(missing, at, first, rest, isNew);
      MissingByPlaces((if isNew then [0] else []) + Shifted(at), (if isNew then [first] else []) + missing,
                      [first] + rest, findings);
      assert required == [first] + rest;
    }
  }

  lemma EmptyHasNone(a: seq<int>)
    ensures a == [] <==> forall i :: i !in a
  {
    if a != [] {
      var first := a[0];
      assert first in a;
    }
  }

  lemma LastsAgree(a: seq<int>, b: seq<int>)
    requires Ascends(a) && Ascends(b) && a != [] && b != [] && forall i :: i in a <==> i in b
    ensures a[|a| - 1] == b[|b| - 1]
  {
    var x, y := a[|a| - 1], b[|b| - 1];
    assert x in a && y in b;
    var i :| 0 <= i < |b| && b[i] == x;
    var j :| 0 <= j < |a| && a[j] == y;
  }

  lemma WithoutLast(a: seq<int>, k: int)
    requires Ascends(a) && a != []
    ensures k in a[..|a| - 1] <==> k in a && k != a[|a| - 1]
  {
    assert a == a[..|a| - 1] + [a[|a| - 1]];
  }

  lemma SnocsAgree(a: seq<int>, b: seq<int>)
    requires a != [] && b != [] && a[..|a| - 1] == b[..|b| - 1] && a[|a| - 1] == b[|b| - 1]
    ensures a == b
  {
    assert a == a[..|a| - 1] + [a[|a| - 1]] && b == b[..|b| - 1] + [b[|b| - 1]];
  }

  lemma {:induction false} AscendingIsUnique(a: seq<int>, b: seq<int>)
    requires Ascends(a) && Ascends(b) && forall i :: i in a <==> i in b
    ensures a == b
  {
    EmptyHasNone(a);
    EmptyHasNone(b);
    if a != [] && b != [] {
      LastsAgree(a, b);
      var s, t := a[..|a| - 1], b[..|b| - 1];
      forall k ensures k in s <==> k in t {
        WithoutLast(a, k);
        WithoutLast(b, k);
      }
      AscendingIsUnique(s, t);
      SnocsAgree(a, b);
    }
  }

  lemma MissingIsUnique(missing: seq<string>, other: seq<string>, required: seq<string>, findings: seq<Value>)
    requires AreMissing(missing, required, findings) && AreMissing(other, required, findings)
    ensures missing == other
  {
    var at: seq<int> :| AreUncovered(at, required, findings) && AreNamesAt(missing, at, required);
    var bt: seq<int> :| AreUncovered(bt, required, findings) && AreNamesAt(other, bt, required);
    forall i ensures i in at <==> i in bt {
    }
    AscendingIsUnique(at, bt);
  }

  // ----- The instructions -----

  lemma RoleNames()
    ensures BORROW == "marginfi.borrow" && REPAY == "marginfi.repay"
    ensures LEG_A == "jupiter.leg_a" && LEG_B == "jupiter.leg_b"
  {
  }

  lemma ItemReported(blockers: seq<Violation>, item: Mapping, v: Violation)
    ensures v in AfterItem(blockers, item) <==> v in blockers || ItemFault(item, v)
  {
    var role := Get(item, Role);
    var known := AddUnless(blockers, IsAllowedRole(role), UnknownInstruction, RoleName(Text(role)));
    var program := AddUnlessEach(known, item, ITEM_PROGRAM, ASafeText, BadInstructionEvidence);
    var hashes := AddUnlessEach(program, item, ITEM_HASHES, AHash, BadInstructionEvidence);
    AddedUnlessEach(known, item, ITEM_PROGRAM, ASafeText, BadInstructionEvidence, v);
    FailsMeans(item, ITEM_PROGRAM, BadInstructionEvidence, v);
    AddedUnlessEach(program, item, ITEM_HASHES, AHash, BadInstructionEvidence, v);
    FailsMeans(item, ITEM_HASHES, BadInstructionEvidence, v);
    AddedUnlessEach(hashes, item, ITEM_AMOUNTS, AUintOrAbsent, BadInstructionAmount, v);
    if v.detail.Key? {
      OptionalCountMeans(item, v.detail.field);
    }
    AllowedMeans(role);
  }

  lemma AllowedMeans(role: Value)
    ensures IsAllowedRole(role) <==>
            role in {Str("marginfi.borrow"), Str("marginfi.repay"), Str("jupiter.leg_a"), Str("jupiter.leg_b"),
                     Str("ata.create"), Str("ata.close"), Str("wsol.wrap"), Str("wsol.unwrap")}
  {
    RoleNames();
  }

  lemma FaultsSnoc(init: seq<Mapping>, item: Mapping, v: Violation)
    ensures (exists k :: 0 <= k < |init + [item]| && ItemFault((init + [item])[k], v)) <==>
            (exists k :: 0 <= k < |init| && ItemFault(init[k], v)) || ItemFault(item, v)
  {
    var items := init + [item];
    assert items[|init|] == item && forall k :: 0 <= k < |init| ==> items[k] == init[k];
  }

  lemma {:induction false} ItemsReported(blockers: seq<Violation>, items: seq<Mapping>, v: Violation)
    ensures v in AfterItems(blockers, items) <==>
            v in blockers || exists k :: 0 <= k < |items| && ItemFault(items[k], v)
  {
    if items != [] {
      var init, n := items[..|items| - 1], |items| - 1;
      ItemsReported(blockers, init, v);
      ItemReported(AfterItems(blockers, init), items[n], v);
      FaultsSnoc(init, items[n], v);
      assert items == init + [items[n]];
    }
  }

  lemma OnlyOneIff(items: seq<Mapping>, role: string)
    ensures Count(Roles(items), role) == 1 <==> exists p :: OnlyAt(items, role, p)
  {
    var roles := Roles(items);
    forall k | 0 <= k < |items| ensures roles[k] == Str(role) <==> HasRole(items, k, role) {
    }
    if p :| 0 <= p < |items| && roles[p] == Str(role) {
      CountOne(roles, role, p);
      if Count(roles, role) == 1 {
        assert OnlyAt(items, role, p);
      }
    } else {
      CountZero(roles, role);
    }
    if p :| OnlyAt(items, role, p) {
      CountOne(roles, role, p);
    }
  }

  lemma LegsIff(items: seq<Mapping>)
    ensures Legs(Roles(items)) == [Str(LEG_A), Str(LEG_B)] <==> exists i, j :: LegsAt(items, i, j)
  {
    var roles := Roles(items);
    RoleNames();
    LegNamesDiffer();
    LegsInOrder(roles);
    forall k | 0 <= k < |items|
      ensures IsLeg(roles[k]) <==> HasRole(items, k, "jupiter.leg_a") || HasRole(items, k, "jupiter.leg_b")
    {
    }
    if i, j :| TwoLegs(roles, i, j) {
      assert LegsAt(items, i, j);
    }
    if i, j :| LegsAt(items, i, j) {
      assert TwoLegs(roles, i, j);
    }
  }

  lemma {:induction false} CountsReported(blockers: seq<Violation>, roles: seq<Value>, names: seq<string>, v: Violation)
    ensures v in AfterCounts(blockers, roles, names) <==>
            || v in blockers
            || (v.code == DuplicateOrMissingRole && v.detail.RoleName? && v.detail.text in names
                && Count(roles, v.detail.text) != 1)
  {
    if names != [] {
      var init, last := names[..|names| - 1], names[|names| - 1];
      assert names == init + [last];
      CountsReported(blockers, roles, init, v);
    }
  }

  lemma RolesAgreeIff(a: seq<Value>, b: seq<Value>)
    requires |a| == |b|
    ensures !SameRoles(a, b) <==> exists k :: 0 <= k < |a| && !AreEqual(a[k], b[k])
  {
    forall k | 0 <= k < |a| ensures AreEqual(a[k], b[k]) <==> Same(a[k], b[k]) {
      EqualMeans(a[k], b[k]);
    }
  }

  lemma IndexGapIff(items: seq<Mapping>)
    ensures |SortByIndex(items)| == |items|
    ensures !SameRoles(Roles(items), Roles(SortByIndex(items))) <==>
            exists k :: 0 <= k < |items|
                        && !AreEqual(FieldOr(items[k], Role, Null), FieldOr(SortByIndex(items)[k], Role, Null))
  {
    SortKeepsItems(items);
    assert |multiset(items)| == |items| && |multiset(SortByIndex(items))| == |SortByIndex(items)|;
    RolesAgreeIff(Roles(items), Roles(SortByIndex(items)));
  }

  /** The checks on the order of the roles, before each sensitive role is counted. */
  function AfterPlaces(blockers: seq<Violation>, items: seq<Mapping>): seq<Violation> {
    var roles := Roles(items);
    var indexed := AddUnless(blockers, SameRoles(roles, Roles(SortByIndex(items))), InstructionIndexGap, Whole);
    var some := AddUnless(indexed, roles != [], NoInstructions, Whole);
    var bracketed := AddUnless(some, IsBracket(roles), BadFlashBracket, Whole);
    AddUnless(bracketed, Legs(roles) == [Str(LEG_A), Str(LEG_B)], BadSwapOrder, Whole)
  }

  lemma BracketMeans(items: seq<Mapping>)
    ensures IsBracket(Roles(items)) <==>
            HasRole(items, 0, "marginfi.borrow") && HasRole(items, |items| - 1, "marginfi.repay")
  {
    RoleNames();
  }

  lemma PlacesReported(blockers: seq<Violation>, items: seq<Mapping>, v: Violation)
    ensures v in AfterPlaces(blockers, items) <==>
            v in blockers || (OrderFault(items, v) && v.code != DuplicateOrMissingRole)
  {
    IndexGapIff(items);
    LegsIff(items);
    BracketMeans(items);
  }

  lemma SensitiveNames(name: string)
    ensures name in SENSITIVE_ROLES <==>
            name in {"marginfi.borrow", "marginfi.repay", "jupiter.leg_a", "jupiter.leg_b"}
  {
    RoleNames();
  }

  lemma OrderReported(blockers: seq<Violation>, items: seq<Mapping>, v: Violation)
    ensures v in AfterOrder(blockers, items) <==> v in blockers || OrderFault(items, v)
  {
    PlacesReported(blockers, items, v);
    CountsReported(AfterPlaces(blockers, items), Roles(items), SENSITIVE_ROLES, v);
    if v.detail.RoleName? {
      SensitiveNames(v.detail.text);
      OnlyOneIff(items, v.detail.text);
    }
  }

  lemma {:induction false} FindFinds(items: seq<Mapping>, role: string)
    ensures IsItemOf(items, role, Find(items, role))
  {
    if items != [] && FieldOr(items[0], Role, Null) != Str(role) {
      FindFinds(items[1..], role);
      if k :| FirstWithRole(items[1..], role, k) && Find(items[1..], role) == items[1..][k] {
        FirstComesLater(items, role, k);
      } else {
        forall k | 0 <= k < |items| ensures !HasRole(items, k, role) {
          assert k > 0 ==> !HasRole(items[1..], k - 1, role);
        }
      }
    } else if items != [] {
      assert FirstWithRole(items, role, 0);
    }
  }

  lemma FirstComesLater(items: seq<Mapping>, role: string, k: int)
    requires items != [] && FieldOr(items[0], Role, Null) != Str(role) && FirstWithRole(items[1..], role, k)
    ensures FirstWithRole(items, role, k + 1) && items[1..][k] == items[k + 1]
  {
    forall m | 0 <= m < k + 1 ensures !HasRole(items, m, role) {
      assert m > 0 ==> !HasRole(items[1..], m - 1, role);
    }
  }

  lemma ItemIsUnique(items: seq<Mapping>, role: string, a: Mapping, b: Mapping)
    requires IsItemOf(items, role, a) && IsItemOf(items, role, b)
    ensures a == b
  {
    if k :| FirstWithRole(items, role, k) && a == items[k] {
      if m :| FirstWithRole(items, role, m) && b == items[m] {
        assert k == m;
      }
    }
  }

  lemma NumberSumMeans(v: Value, a: Value, b: Value)
    requires Plus(a, b).Success? && IsNumeric(a)
    ensures Same(v, Plus(a, b).value) <==> IsSum(v, a, b)
  {
    NumbersMean(a);
    NumbersMean(b);
    EqualMeans(v, Plus(a, b).value);
  }

  lemma TextSumMeans(v: Value, a: Value, b: Value)
    requires Plus(a, b).Success? && !IsNumeric(a)
    ensures Same(v, Plus(a, b).value) <==> IsSum(v, a, b)
  {
    NumbersMean(a);
    assert Plus(a, b).value == Str(a.text + b.text);
  }

  lemma OwedMeans(v: Value, plan: Mapping)
    requires ExpectedRepayment(plan).Success?
    ensures Same(v, ExpectedRepayment(plan).value) <==> IsOwed(v, plan)
  {
    var a, b := FieldOr(plan, PrincipalLamports, Int(0)), FieldOr(plan, FlashFeeLamports, Int(0));
    if IsNumeric(a) {
      NumberSumMeans(v, a, b);
    } else {
      TextSumMeans(v, a, b);
    }
  }

  lemma FoundIsUnique(items: seq<Mapping>, role: string)
    ensures forall item :: IsItemOf(items, role, item) <==> item == Find(items, role)
  {
    FindFinds(items, role);
    forall item | IsItemOf(items, role, item) ensures item == Find(items, role) {
      ItemIsUnique(items, role, item, Find(items, role));
    }
  }

  lemma BorrowMeans(plan: Mapping, items: seq<Mapping>)
    ensures !BorrowsPrincipal(plan, items) <==>
            exists item :: IsItemOf(items, "marginfi.borrow", item)
                           && !AreEqual(FieldOr(item, PrincipalLamports, Null), FieldOr(plan, PrincipalLamports, Null))
  {
    RoleNames();
    FoundIsUnique(items, BORROW);
    assert IsItemOf(items, "marginfi.borrow", Find(items, BORROW));
    EqualMeans(Get(Find(items, BORROW), PrincipalLamports), Get(plan, PrincipalLamports));
  }

  lemma RepayMeans(plan: Mapping, items: seq<Mapping>)
    requires ExpectedRepayment(plan).Success?
    ensures !Repays(items, ExpectedRepayment(plan).value) <==>
            exists item :: IsItemOf(items, "marginfi.repay", item)
                           && !IsOwed(FieldOr(item, RepaymentLamports, Null), plan)
  {
    RoleNames();
    FoundIsUnique(items, REPAY);
    assert IsItemOf(items, "marginfi.repay", Find(items, REPAY));
    OwedMeans(Get(Find(items, REPAY), RepaymentLamports), plan);
  }

  lemma AmountsReported(blockers: seq<Violation>, plan: Mapping, items: seq<Mapping>, v: Violation)
    requires ExpectedRepayment(plan).Success?
    ensures var borrowed := AddUnless(blockers, BorrowsPrincipal(plan, items), BorrowAmount, Whole);
            v in AddUnless(borrowed, Repays(items, ExpectedRepayment(plan).value), RepayAmount, Whole) <==>
            v in blockers || AmountFault(plan, items, v)
  {
    BorrowMeans(plan, items);
    RepayMeans(plan, items);
  }

  lemma SortableIff(items: seq<Mapping>)
    ensures Sortable(items) <==>
            forall a, b :: 0 <= a < b < |items| ==>
                             AreOneKind(FieldOr(items[a], Index, Int(-1)), FieldOr(items[b], Index, Int(-1)))
  {
    if |items| >= 2 && forall a, b :: 0 <= a < b < |items| ==>
                                      AreOneKind(FieldOr(items[a], Index, Int(-1)), FieldOr(items[b], Index, Int(-1))) {
      assert AreOneKind(KeyOf(items[0]), KeyOf(items[1]));
      forall k | 0 <= k < |items| ensures Number(KeyOf(items[k])).Some? <==> Number(KeyOf(items[0])).Some? {
        assert k > 0 ==> AreOneKind(FieldOr(items[0], Index, Int(-1)), FieldOr(items[k], Index, Int(-1)));
      }
    }
  }

  lemma InstructionsComputeIff(blockers: seq<Violation>, plan: Mapping, items: seq<Mapping>)
    ensures AfterInstructions(blockers, plan, items).Success? <==> InstructionsCompute(plan, items)
  {
    SortableIff(items);
  }

  lemma InstructionsReported(blockers: seq<Violation>, plan: Mapping, items: seq<Mapping>, v: Violation)
    requires AfterInstructions(blockers, plan, items).Success?
    ensures v in AfterInstructions(blockers, plan, items).value <==> v in blockers || InstructionFault(plan, items, v)
  {
    OrderReported(blockers, items, v);
    ItemsReported(AfterOrder(blockers, items), items, v);
    AmountsReported(AfterItems(AfterOrder(blockers, items), items), plan, items, v);
  }

  // ----- The economics -----

  predicate CostsCompute(economics: Mapping, costs: seq<Field>) {
    forall i :: 0 <= i < |costs| ==> IsNumeric(FieldOr(economics, costs[i], Int(0)))
  }

  function CostsIn(economics: Mapping, costs: seq<Field>): int {
    if costs == [] then 0
    else CostsIn(economics, costs[..|costs| - 1]) + AmountIn(economics, costs[|costs| - 1])
  }

  lemma AbsentIsZero(m: Mapping, key: Field)
    ensures NumberIn(FieldOr(m, key, Int(0))) == AmountIn(m, key)
  {
  }

  /** Taking off the costs raises at the first that is no number, and otherwise takes off their sum. */
  lemma {:induction false} CostsAreTakenOff(economics: Mapping, costs: seq<Field>, start: int)
    ensures NetAfter(economics, costs, Int(start)).Success? <==> CostsCompute(economics, costs)
    ensures CostsCompute(economics, costs) ==>
              NetAfter(economics, costs, Int(start)) == Success(Int(start - CostsIn(economics, costs)))
  {
    if costs != [] {
      var init, last := costs[..|costs| - 1], costs[|costs| - 1];
      CostsAreTakenOff(economics, init, start);
      NumbersMean(FieldOr(economics, last, Int(0)));
      assert CostsCompute(economics, costs) <==>
             CostsCompute(economics, init) && IsNumeric(FieldOr(economics, last, Int(0)));
    }
  }

  lemma CostsInSnoc(m: Mapping, keys: seq<Field>, n: nat)
    requires 0 < n <= |keys|
    ensures CostsIn(m, keys[..n]) == CostsIn(m, keys[..n - 1]) + AmountIn(m, keys[n - 1])
  {
    assert keys[..n][..n - 1] == keys[..n - 1];
  }

  lemma CostsAreSeven(m: Mapping)
    ensures CostsIn(m, REQUIRED_COSTS) == CostsOf(m)
  {
    var c := REQUIRED_COSTS;
    CostsInSnoc(m, c, 7);
    CostsInSnoc(m, c, 6);
    CostsInSnoc(m, c, 5);
    CostsInSnoc(m, c, 4);
    CostsInSnoc(m, c, 3);
    CostsInSnoc(m, c, 2);
    CostsInSnoc(m, c, 1);
    assert c[..7] == c;
  }

  lemma CostsComputeSeven(m: Mapping)
    ensures CostsCompute(m, REQUIRED_COSTS) <==>
            && IsNumeric(FieldOr(m, TotalTransactionFeeLamports, Int(0)))
            && IsNumeric(FieldOr(m, FailedLandingFeeLamports, Int(0)))
            && IsNumeric(FieldOr(m, RentCreateLamports, Int(0)))
            && IsNumeric(FieldOr(m, PriorityFeeLamports, Int(0)))
            && IsNumeric(FieldOr(m, JitoTipLamports, Int(0)))
            && IsNumeric(FieldOr(m, TokenTransferFeeLamports, Int(0)))
            && IsNumeric(FieldOr(m, ContingencyLamports, Int(0)))
  {
    var c := REQUIRED_COSTS;
    assert |c| == 7 && c[0] == TotalTransactionFeeLamports && c[1] == FailedLandingFeeLamports;
    assert c[2] == RentCreateLamports && c[3] == PriorityFeeLamports && c[4] == JitoTipLamports;
    assert c[5] == TokenTransferFeeLamports && c[6] == ContingencyLamports;
  }

  lemma NetStartMeans(economics: Mapping)
    ensures NetStart(economics).Success? <==>
            && IsNumeric(FieldOr(economics, GuaranteedLegBOutputLamports, Null))
            && IsNumeric(FieldOr(economics, RepaymentLamports, Int(0)))
            && IsNumeric(FieldOr(economics, RentRefundLamports, Int(0)))
    ensures NetStart(economics).Success? ==>
              NetStart(economics) ==
              Success(Int(AmountIn(economics, GuaranteedLegBOutputLamports) - AmountIn(economics, RepaymentLamports)
                          + AmountIn(economics, RentRefundLamports)))
  {
    NumbersMean(FieldOr(economics, GuaranteedLegBOutputLamports, Null));
    NumbersMean(FieldOr(economics, RepaymentLamports, Int(0)));
    NumbersMean(FieldOr(economics, RentRefundLamports, Int(0)));
    AbsentIsZero(economics, RepaymentLamports);
    AbsentIsZero(economics, RentRefundLamports);
  }

  lemma NetMeans(economics: Mapping)
    ensures Net(economics).Success? <==> NetStart(economics).Success? && CostsCompute(economics, REQUIRED_COSTS)
    ensures Net(economics).Success? ==> Net(economics) == Success(Int(Remains(economics)))
  {
    NetStartMeans(economics);
    CostsAreSeven(economics);
    if NetStart(economics).Success? {
      var start := AmountIn(economics, GuaranteedLegBOutputLamports) - AmountIn(economics, RepaymentLamports)
                   + AmountIn(economics, RentRefundLamports);
      assert NetStart(economics) == Success(Int(start));
      CostsAreTakenOff(economics, REQUIRED_COSTS, start);
    }
  }

  lemma ProfitMeans(plan: Mapping, economics: Mapping)
    ensures IsProfitable(plan, economics).Success? <==>
            Net(economics).Success? && IsNumeric(FieldOr(plan, MinimumProfitLamports, Int(0)))
    ensures IsProfitable(plan, economics).Success? ==>
              IsProfitable(plan, economics) == Success(Remains(economics) >= AmountIn(plan, MinimumProfitLamports))
  {
    NetMeans(economics);
    NumbersMean(FieldOr(plan, MinimumProfitLamports, Int(0)));
    AbsentIsZero(plan, MinimumProfitLamports);
  }

  lemma LandingMeans(economics: Mapping)
    ensures IsReserved(economics).Success? <==> IsNumeric(FieldOr(economics, FailedLandingFeeLamports, Int(0)))
    ensures IsReserved(economics).Success? ==>
              IsReserved(economics) == Success(AmountIn(economics, FailedLandingFeeLamports) > 0)
  {
    NumbersMean(FieldOr(economics, FailedLandingFeeLamports, Int(0)));
    AbsentIsZero(economics, FailedLandingFeeLamports);
  }

  lemma EconomicsComputeIff(
    blockers: seq<Violation>, plan: Mapping, items: seq<Mapping>, simulation: Mapping, economics: Mapping)
    requires ExpectedRepayment(plan).Success?
    ensures AfterEconomics(blockers, plan, items, simulation, economics).Success? <==> EconomicsCompute(plan, economics)
  {
    LandingMeans(economics);
    ProfitMeans(plan, economics);
    NetMeans(economics);
    NetStartMeans(economics);
    CostsComputeSeven(economics);
  }

  lemma OutputMeans(items: seq<Mapping>, economics: Mapping)
    ensures !OutputIsGuaranteed(items, economics) <==>
            exists item :: IsItemOf(items, "jupiter.leg_b", item)
                           && !AreEqual(FieldOr(economics, GuaranteedLegBOutputLamports, Null),
                                        FieldOr(item, OutputLamports, Null))
  {
    RoleNames();
    FoundIsUnique(items, LEG_B);
    assert IsItemOf(items, "jupiter.leg_b", Find(items, LEG_B));
    EqualMeans(Get(economics, GuaranteedLegBOutputLamports), Get(Find(items, LEG_B), OutputLamports));
  }

  lemma EconomicAmounts(v: Violation)
    ensures v.detail.Key? ==>
              (v.detail.field in ECONOMIC_AMOUNTS <==>
               v.detail.field in {
                 TotalTransactionFeeLamports, FailedLandingFeeLamports, RentCreateLamports, PriorityFeeLamports,
                 JitoTipLamports, TokenTransferFeeLamports, ContingencyLamports, MinimumProfitLamports,
                 RentRefundLamports})
  {
  }

  lemma AmountsChecked(blockers: seq<Violation>, economics: Mapping, v: Violation)
    ensures v in AddUnlessEach(blockers, economics, ECONOMIC_AMOUNTS, AUint, BadEconomicAmount) <==>
            || v in blockers
            || (IsFieldFault(v, BadEconomicAmount, {
                               TotalTransactionFeeLamports, FailedLandingFeeLamports, RentCreateLamports,
                               PriorityFeeLamports, JitoTipLamports, TokenTransferFeeLamports, ContingencyLamports,
                               MinimumProfitLamports, RentRefundLamports})
                && !HoldsCount(economics, v.detail.field))
  {
    AddedUnlessEach(blockers, economics, ECONOMIC_AMOUNTS, AUint, BadEconomicAmount, v);
    EconomicAmounts(v);
    if v.detail.Key? {
      CountsMean(economics, v.detail.field);
    }
  }

  /** The checks after the amounts, by what each of them found. */
  lemma BoundReported(
    amounts: seq<Violation>, owed: bool, simulated: bool, landing: bool, guaranteed: bool, planned: bool,
    profitable: bool, v: Violation)
    ensures var a := AddUnless(amounts, owed, EconomicRepayment, Whole);
            var b := AddUnless(a, simulated, FeeNotSimulationBound, Whole);
            var c := AddUnless(b, landing, FailedLandingFee, Whole);
            var d := AddUnless(c, guaranteed, GuaranteedOutput, Whole);
            var e := AddUnless(d, planned, MinProfitBinding, Whole);
            v in AddUnless(e, profitable, ConservativeProfit, Whole) <==>
            || v in amounts
            || (v == Violation(EconomicRepayment, Whole) && !owed)
            || (v == Violation(FeeNotSimulationBound, Whole) && !simulated)
            || (v == Violation(FailedLandingFee, Whole) && !landing)
            || (v == Violation(GuaranteedOutput, Whole) && !guaranteed)
            || (v == Violation(MinProfitBinding, Whole) && !planned)
            || (v == Violation(ConservativeProfit, Whole) && !profitable)
  {
  }

  lemma EconomicsAreChecks(
    blockers: seq<Violation>, plan: Mapping, items: seq<Mapping>, simulation: Mapping, economics: Mapping, v: Violation)
    requires AfterEconomics(blockers, plan, items, simulation, economics).Success?
    ensures ExpectedRepayment(plan).Success? && IsReserved(economics).Success? && IsProfitable(plan, economics).Success?
    ensures v in AfterEconomics(blockers, plan, items, simulation, economics).value <==>
            || v in AddUnlessEach(blockers, economics, ECONOMIC_AMOUNTS, AUint, BadEconomicAmount)
            || (v == Violation(EconomicRepayment, Whole)
                && !Same(Get(economics, RepaymentLamports), ExpectedRepayment(plan).value))
            || (v == Violation(FeeNotSimulationBound, Whole) && !FeeIsSimulated(simulation, economics))
            || (v == Violation(FailedLandingFee, Whole) && !IsReserved(economics).value)
            || (v == Violation(GuaranteedOutput, Whole) && !OutputIsGuaranteed(items, economics))
            || (v == Violation(MinProfitBinding, Whole) && !ProfitIsPlanned(plan, economics))
            || (v == Violation(ConservativeProfit, Whole) && !IsProfitable(plan, economics).value)
  {
    BoundReported(AddUnlessEach(blockers, economics, ECONOMIC_AMOUNTS, AUint, BadEconomicAmount),
                  Same(Get(economics, RepaymentLamports), ExpectedRepayment(plan).value),
                  FeeIsSimulated(simulation, economics), IsReserved(economics).value,
                  OutputIsGuaranteed(items, economics), ProfitIsPlanned(plan, economics),
                  IsProfitable(plan, economics).value, v);
  }

  lemma BindingsMean(plan: Mapping, simulation: Mapping, economics: Mapping)
    ensures FeeIsSimulated(simulation, economics) <==>
            AreEqual(FieldOr(economics, TotalTransactionFeeLamports, Null),
                     FieldOr(simulation, TotalTransactionFeeLamports, Null))
    ensures ProfitIsPlanned(plan, economics) <==>
            AreEqual(FieldOr(economics, MinimumProfitLamports, Null), FieldOr(plan, MinimumProfitLamports, Null))
  {
    EqualMeans(Get(economics, TotalTransactionFeeLamports), Get(simulation, TotalTransactionFeeLamports));
    EqualMeans(Get(economics, MinimumProfitLamports), Get(plan, MinimumProfitLamports));
  }

  lemma EconomicsReported(
    blockers: seq<Violation>, plan: Mapping, items: seq<Mapping>, simulation: Mapping, economics: Mapping, v: Violation)
    requires AfterEconomics(blockers, plan, items, simulation, economics).Success?
    ensures v in AfterEconomics(blockers, plan, items, simulation, economics).value <==>
            v in blockers || EconomicsFault(plan, items, simulation, economics, v)
  {
    EconomicsAreChecks(blockers, plan, items, simulation, economics, v);
    AmountsChecked(blockers, economics, v);
    OwedMeans(Get(economics, RepaymentLamports), plan);
    BindingsMean(plan, simulation, economics);
    LandingMeans(economics);
    OutputMeans(items, economics);
    ProfitMeans(plan, economics);
  }

  lemma RepeatsMean(findings: seq<Value>)
    ensures !NoRepeats(findings) <==> exists i, j :: 0 <= i < j < |findings| && AreEqual(findings[i], findings[j])
  {
    forall i, j | 0 <= i < j < |findings|
      ensures AreEqual(findings[i], findings[j]) <==> Same(findings[i], findings[j])
    {
      EqualMeans(findings[i], findings[j]);
    }
  }

  lemma MissingIff(missing: seq<string>, findings: seq<Value>)
    ensures AreMissing(missing, REQUIRED_FINDINGS, findings) <==>
            missing == MissingFindings(REQUIRED_FINDINGS, findings)
  {
    MissingFindingsAreMissing(REQUIRED_FINDINGS, findings);
    if AreMissing(missing, REQUIRED_FINDINGS, findings) {
      MissingIsUnique(missing, MissingFindings(REQUIRED_FINDINGS, findings), REQUIRED_FINDINGS, findings);
    }
  }

  lemma FindingsReported(blockers: seq<Violation>, findings: seq<Value>, v: Violation)
    ensures v in AfterFindings(blockers, findings) <==> v in blockers || FindingsFault(findings, v)
  {
    RepeatsMean(findings);
    if v.detail.Missing? {
      MissingIff(v.detail.findings, findings);
    }
  }

  // ----- The report -----

  /** The evaluation raises exactly when some sum or comparison it makes mixes kinds. */
  lemma ReportedIffComputes(e: Evidence)
    ensures Evaluate(e).Success? <==> Computes(e)
  {
    var plan := AfterPlan(AfterForbidden([], e.requests, e.qualification), e.plan);
    MessageComputesIff(plan, e.plan, e.message);
    var message := AfterMessage(plan, e.plan, e.message);
    if message.Success? {
      InstructionsComputeIff(message.value, e.plan, e.instructions);
      var instructions := AfterInstructions(message.value, e.plan, e.instructions);
      if instructions.Success? {
        var simulation := AfterSimulation(instructions.value, e.message, e.simulation);
        EconomicsComputeIff(simulation, e.plan, e.instructions, e.simulation, e.economics);
        WindowMeans(e.qualification);
      }
    }
  }

  /** A report lists exactly the faults of the bundle, each once. */
  lemma ReportIsExact(e: Evidence, v: Violation)
    requires Computes(e)
    ensures Evaluate(e).Success?
    ensures v in Evaluate(e).value.blockers <==> IsFault(e, v)
    ensures forall i, j :: 0 <= i < j < |Evaluate(e).value.blockers| ==>
                             Evaluate(e).value.blockers[i] != Evaluate(e).value.blockers[j]
  {
    ReportedIffComputes(e);
    var asked := AfterForbidden([], e.requests, e.qualification);
    var plan := AfterPlan(asked, e.plan);
    NothingReported(e, v);
    PlanReported(asked, e.plan, v);
    MessageReported(plan, e.plan, e.message, v);
    var message := AfterMessage(plan, e.plan, e.message).value;
    InstructionsReported(message, e.plan, e.instructions, v);
    var instructions := AfterInstructions(message, e.plan, e.instructions).value;
    SimulationReported(instructions, e.message, e.simulation, v);
    var simulation := AfterSimulation(instructions, e.message, e.simulation);
    EconomicsReported(simulation, e.plan, e.instructions, e.simulation, e.economics, v);
    var economics := AfterEconomics(simulation, e.plan, e.instructions, e.simulation, e.economics).value;
    QualificationReported(economics, e.qualification, v);
    var qualification := AfterQualification(economics, e.qualification).value;
    FindingsReported(qualification, e.findings, v);
  }

  lemma NothingListedIff(e: Evidence)
    requires Computes(e)
    ensures Evaluate(e).Success?
    ensures Evaluate(e).value.blockers == [] <==> forall v :: !IsFault(e, v)
  {
    ReportedIffComputes(e);
    if v :| IsFault(e, v) {
      ReportIsExact(e, v);
    } else if Evaluate(e).value.blockers != [] {
      ReportIsExact(e, Evaluate(e).value.blockers[0]);
    }
  }

  /** Ready means computable and without fault. */
  lemma ReadyIffFaultless(e: Evidence)
    ensures IsReady(e) <==> Computes(e) && forall v :: !IsFault(e, v)
  {
    ReportedIffComputes(e);
    if Computes(e) {
      NothingListedIff(e);
    }
  }

  /** No report ever allows signing, sending or executing, and each names its bundle. */
  lemma NothingIsAllowed(e: Evidence)
    requires Computes(e)
    ensures Evaluate(e).Success?
    ensures var r := Evaluate(e).value;
            !r.signerAllowed && !r.senderAllowed && !r.liveExecutionAllowed && r.evidenceHash == HashOf(e)
  {
    ReportedIffComputes(e);
  }
}
