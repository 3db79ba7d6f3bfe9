/**
 What a READY report demands, said of the fields of the bundle one by one, and when the
 evaluation raises instead.
 */
module AtomicGateFields {
  import opened Wrappers
  import opened StringOrder
  import opened EvidenceValues
  import opened RequiredFindings
  import opened AtomicGate
  import opened AtomicGateOrder
  import opened AtomicGateSoundness

  // ----- What one field may hold -----

  /** The field's value, or this one when it is absent. */
  function FieldOr(m: Mapping, key: Field, absent: Value): Value {
    if key in m then m[key] else absent
  }

  predicate HoldsHash(m: Mapping, key: Field) {
    && key in m && m[key].Str? && |m[key].text| == 64
    && forall i :: 0 <= i < 64 ==> '0' <= m[key].text[i] <= '9' || 'a' <= m[key].text[i] <= 'f'
  }

  predicate IsLetterOrDigit(c: char) {
    'a' <= c <= 'z' || 'A' <= c <= 'Z' || '0' <= c <= '9'
  }

  /** 1 to 128 characters: a letter or digit, then letters, digits and the marks . _ : / @ + - */
  predicate HoldsName(m: Mapping, key: Field) {
    && key in m && m[key].Str? && 1 <= |m[key].text| <= 128 && IsLetterOrDigit(m[key].text[0])
    && forall i :: 0 <= i < |m[key].text| ==>
                     IsLetterOrDigit(m[key].text[i]) || m[key].text[i] in {'.', '_', ':', '/', '@', '+', '-'}
  }

  predicate HoldsCount(m: Mapping, key: Field) {
    key in m && m[key].Int? && m[key].number >= 0
  }

  predicate HoldsPositive(m: Mapping, key: Field) {
    key in m && m[key].Int? && m[key].number > 0
  }

  predicate HoldsCountIfAny(m: Mapping, key: Field) {
    key in m ==> m[key].Int? && m[key].number >= 0
  }

  predicate HoldsTrue(m: Mapping, key: Field) {
    key in m && m[key] == Bool(true)
  }

  /** Absent, null, false, zero or the empty text. */
  predicate HoldsNothing(m: Mapping, key: Field) {
    key in m ==> m[key] in {Null, Bool(false), Int(0), Str("")}
  }

  predicate IsNumeric(v: Value) {
    v.Int? || v.Bool?
  }

  /** The number a value counts as: booleans are 0 and 1, and what is no number is 0. */
  function NumberIn(v: Value): int {
    match v
    case Int(n) => n
    case Bool(b) => if b then 1 else 0
    case _ => 0
  }

  predicate IsNumber(v: Value, n: int) {
    IsNumeric(v) && NumberIn(v) == n
  }

  predicate AreEqual(a: Value, b: Value) {
    a == b || (IsNumeric(a) && IsNumeric(b) && NumberIn(a) == NumberIn(b))
  }

  /** The amount in the field. */
  function AmountIn(m: Mapping, key: Field): int {
    NumberIn(FieldOr(m, key, Null))
  }

  // ----- What the bundle must hold -----

  predicate AsksNothing(e: Evidence) {
    && HoldsNothing(e.requests, LiveExecutionRequested) && HoldsNothing(e.requests, SignerRequested)
    && HoldsNothing(e.requests, SenderRequested)
    && HoldsNothing(e.qualification, SenderNamespaceReachable)
    && HoldsNothing(e.qualification, SignerNamespaceReachable)
    && HoldsNothing(e.qualification, PrivateKeyReachable) && HoldsNothing(e.qualification, NetworkSubmissionReachable)
  }

  predicate PlanHolds(plan: Mapping) {
    && HoldsName(plan, ReleaseId) && HoldsName(plan, PlanId) && HoldsName(plan, WalletPubkey)
    && HoldsName(plan, DurableReservationId)
    && HoldsHash(plan, ClusterGenesisHash) && HoldsHash(plan, ProtocolRegistryHash)
    && HoldsHash(plan, ProviderGenerationHash) && HoldsHash(plan, BuildArtifactHash)
    && HoldsPositive(plan, PrincipalLamports) && HoldsCount(plan, FlashFeeLamports)
    && HoldsCount(plan, MinimumProfitLamports)
    && IsNumeric(FieldOr(plan, MaxSlippageBps, Null)) && 0 <= AmountIn(plan, MaxSlippageBps) <= 1000
  }

  /** `a <= b` on two numbers, or on two texts. */
  predicate IsAtMost(a: Value, b: Value) {
    || (IsNumeric(a) && IsNumeric(b) && NumberIn(a) <= NumberIn(b))
    || (a.Str? && b.Str? && !Less(b.text, a.text))
  }

  predicate IsLess(a: Value, b: Value) {
    || (IsNumeric(a) && IsNumeric(b) && NumberIn(a) < NumberIn(b))
    || (a.Str? && b.Str? && Less(a.text, b.text))
  }

  /** The signed size, from the unsigned bytes and 64 for each signature, is above 65 and within the limit. */
  predicate SizeHolds(message: Mapping) {
    var bytes, signatures := FieldOr(message, UnsignedTransactionBytes, Int(0)),
                             FieldOr(message, RequiredSignatureCount, Int(0));
    var limit := FieldOr(message, MaxWireBytes, Int(1232));
    && IsNumeric(bytes) && IsNumeric(signatures) && IsNumeric(limit)
    && 65 < NumberIn(bytes) + 1 + 64 * NumberIn(signatures) <= NumberIn(limit)
  }

  predicate MessageHolds(plan: Mapping, message: Mapping) {
    && AreEqual(FieldOr(message, PlanId, Null), FieldOr(plan, PlanId, Null))
    && HoldsHash(message, MessageHash) && HoldsHash(message, MessageBytesHash)
    && HoldsHash(message, AccountMetaHash) && HoldsHash(message, AltSnapshotHash)
    && HoldsName(message, RecentBlockhash)
    && HoldsCount(message, CurrentBlockHeight) && HoldsCount(message, LastValidBlockHeight)
    && HoldsCount(message, SafetyMarginBlocks)
    && AmountIn(message, CurrentBlockHeight) + AmountIn(message, SafetyMarginBlocks) <
       AmountIn(message, LastValidBlockHeight)
    && IsAtMost(FieldOr(message, MinContextSlot, Int(0)), FieldOr(message, ObservedContextSlot, Int(-1)))
    && SizeHolds(message)
  }

  predicate ItemHolds(item: Mapping) {
    && FieldOr(item, Role, Null) in {
         Str("marginfi.borrow"), Str("marginfi.repay"), Str("jupiter.leg_a"), Str("jupiter.leg_b"),
         Str("ata.create"), Str("ata.close"), Str("wsol.wrap"), Str("wsol.unwrap")}
    && HoldsName(item, ProgramId) && HoldsHash(item, InstructionHash) && HoldsHash(item, AccountRolesHash)
    && HoldsHash(item, DecodedSemanticsHash)
    && HoldsCountIfAny(item, InputLamports) && HoldsCountIfAny(item, OutputLamports)
    && HoldsCountIfAny(item, PrincipalLamports) && HoldsCountIfAny(item, FlashFeeLamports)
    && HoldsCountIfAny(item, RepaymentLamports)
  }

  predicate HasRole(items: seq<Mapping>, k: int, role: string) {
    0 <= k < |items| && FieldOr(items[k], Role, Null) == Str(role)
  }

  /** Borrow first, repay last, leg A before leg B in between, and none of the four anywhere else. */
  predicate IsFlashLoan(items: seq<Mapping>, i: int, j: int) {
    && 0 < i < j < |items| - 1
    && HasRole(items, 0, "marginfi.borrow") && HasRole(items, i, "jupiter.leg_a")
    && HasRole(items, j, "jupiter.leg_b") && HasRole(items, |items| - 1, "marginfi.repay")
    && forall k :: 0 <= k < |items| && k != 0 && k != i && k != j && k != |items| - 1 ==>
                     && !HasRole(items, k, "marginfi.borrow") && !HasRole(items, k, "marginfi.repay")
                     && !HasRole(items, k, "jupiter.leg_a") && !HasRole(items, k, "jupiter.leg_b")
  }

  /** The items, the loan at `i` and `j`, and the amounts at its ends. */
  predicate LoanHolds(plan: Mapping, items: seq<Mapping>, i: int, j: int) {
    && IsFlashLoan(items, i, j)
    && AreEqual(FieldOr(items[0], PrincipalLamports, Null), FieldOr(plan, PrincipalLamports, Null))
    && IsNumber(FieldOr(items[|items| - 1], RepaymentLamports, Null),
                AmountIn(plan, PrincipalLamports) + AmountIn(plan, FlashFeeLamports))
  }

  predicate SimulationHolds(message: Mapping, simulation: Mapping) {
    && HoldsHash(simulation, MessageHash) && HoldsHash(simulation, RequestHash) && HoldsHash(simulation, ResponseHash)
    && HoldsHash(simulation, PreAccountsHash) && HoldsHash(simulation, PostAccountsHash)
    && HoldsHash(simulation, LogsHash)
    && AreEqual(FieldOr(simulation, MessageHash, Null), FieldOr(message, MessageHash, Null))
    && HoldsTrue(simulation, SuccessFlag) && FieldOr(simulation, ErrorCode, Null) == Null
    && HoldsTrue(simulation, LocalSignatureVerificationPassed)
    && HoldsPositive(simulation, UnitsConsumed) && HoldsPositive(simulation, TotalTransactionFeeLamports)
  }

  predicate CostsHold(economics: Mapping) {
    && HoldsCount(economics, TotalTransactionFeeLamports) && HoldsPositive(economics, FailedLandingFeeLamports)
    && HoldsCount(economics, RentCreateLamports) && HoldsCount(economics, PriorityFeeLamports)
    && HoldsCount(economics, JitoTipLamports) && HoldsCount(economics, TokenTransferFeeLamports)
    && HoldsCount(economics, ContingencyLamports) && HoldsCount(economics, MinimumProfitLamports)
    && HoldsCount(economics, RentRefundLamports)
  }

  function CostsOf(economics: Mapping): int {
    AmountIn(economics, TotalTransactionFeeLamports) + AmountIn(economics, FailedLandingFeeLamports)
    + AmountIn(economics, RentCreateLamports) + AmountIn(economics, PriorityFeeLamports)
    + AmountIn(economics, JitoTipLamports) + AmountIn(economics, TokenTransferFeeLamports)
    + AmountIn(economics, ContingencyLamports)
  }

  /** With `legB` the second swap: the amounts agree with plan, simulation and swap, and leave the profit. */
  predicate EconomicsHold(plan: Mapping, legB: Mapping, simulation: Mapping, economics: Mapping) {
    && CostsHold(economics)
    && IsNumber(FieldOr(economics, RepaymentLamports, Null),
                AmountIn(plan, PrincipalLamports) + AmountIn(plan, FlashFeeLamports))
    && AreEqual(FieldOr(economics, TotalTransactionFeeLamports, Null),
                FieldOr(simulation, TotalTransactionFeeLamports, Null))
    && IsNumeric(FieldOr(economics, GuaranteedLegBOutputLamports, Null))
    && AreEqual(FieldOr(economics, GuaranteedLegBOutputLamports, Null), FieldOr(legB, OutputLamports, Null))
    && AreEqual(FieldOr(economics, MinimumProfitLamports, Null), FieldOr(plan, MinimumProfitLamports, Null))
    && AmountIn(economics, GuaranteedLegBOutputLamports) + AmountIn(economics, RentRefundLamports) >=
       AmountIn(plan, PrincipalLamports) + AmountIn(plan, FlashFeeLamports) + CostsOf(economics)
       + AmountIn(plan, MinimumProfitLamports)
  }

  predicate QualificationHolds(qualification: Mapping) {
    && HoldsHash(qualification, InstalledArtifactHash) && HoldsHash(qualification, CompositionRootHash)
    && HoldsHash(qualification, DurableShadowTraceHash) && HoldsHash(qualification, ReplayBundleHash)
    && IsLess(FieldOr(qualification, StartedNs, Int(0)), FieldOr(qualification, EndedNs, Int(0)))
    && HoldsPositive(qualification, NonSyntheticCycleCount) && HoldsPositive(qualification, RestartDrillCount)
    && HoldsPositive(qualification, ProviderDegradationDrillCount)
    && HoldsTrue(qualification, DeterministicReplayPassed) && HoldsTrue(qualification, DurableTraceMaterialized)
    && HoldsTrue(qualification, CompiledFromInstalledArtifact) && HoldsTrue(qualification, ExactSimulationReplayed)
    && HoldsTrue(qualification, EconomicsReconciled)
  }

  /** Every required finding is covered and none is given twice. */
  predicate FindingsHold(findings: seq<Value>) {
    && (forall f :: f in REQUIRED_FINDINGS ==> Str(f) in findings)
    && forall i, j :: 0 <= i < j < |findings| ==> !AreEqual(findings[i], findings[j])
  }

  /** All of it, for a loan whose legs stand at `i` and `j`. */
  ghost predicate FieldsHold(e: Evidence, i: int, j: int) {
    && AsksNothing(e) && PlanHolds(e.plan) && MessageHolds(e.plan, e.message)
    && (forall k :: 0 <= k < |e.instructions| ==> ItemHolds(e.instructions[k]))
    && LoanHolds(e.plan, e.instructions, i, j) && PassesIndexCheck(e.instructions) && Sortable(e.instructions)
    && SimulationHolds(e.message, e.simulation)
    && EconomicsHold(e.plan, e.instructions[j], e.simulation, e.economics)
    && QualificationHolds(e.qualification) && FindingsHold(e.findings)
  }

  // ----- The checks mean these conditions -----

  lemma HashMeans(m: Mapping, key: Field)
    ensures Passes(AHash, m, key) <==> HoldsHash(m, key)
  {
  }

  lemma MarksMean(c: char)
    ensures IsWordCharacter(c) <==> IsLetterOrDigit(c)
    ensures IsMark(c) <==> c in {'.', '_', ':', '/', '@', '+', '-'}
  {
  }

  lemma NamesAreSafe(m: Mapping, key: Field)
    requires HoldsName(m, key)
    ensures Passes(ASafeText, m, key)
  {
    var t := m[key].text;
    forall i | 1 <= i < |t| ensures IsWordCharacter(t[i]) || IsMark(t[i]) {
      MarksMean(t[i]);
    }
  }

  lemma SafeTextsAreNames(m: Mapping, key: Field)
    requires Passes(ASafeText, m, key)
    ensures HoldsName(m, key)
  {
    var t := m[key].text;
    forall i | 0 <= i < |t| ensures IsLetterOrDigit(t[i]) || t[i] in {'.', '_', ':', '/', '@', '+', '-'} {
      MarksMean(t[i]);
    }
  }

  lemma NameMeans(m: Mapping, key: Field)
    ensures Passes(ASafeText, m, key) <==> HoldsName(m, key)
  {
    if HoldsName(m, key) {
      NamesAreSafe(m, key);
    }
    if Passes(ASafeText, m, key) {
      SafeTextsAreNames(m, key);
    }
  }

  lemma CountsMean(m: Mapping, key: Field)
    ensures Passes(AUint, m, key) <==> HoldsCount(m, key)
    ensures Passes(APositive, m, key) <==> HoldsPositive(m, key)
  {
  }

  lemma OptionalCountMeans(m: Mapping, key: Field)
    ensures Passes(AUintOrAbsent, m, key) <==> HoldsCountIfAny(m, key)
  {
  }

  lemma FlagMeans(m: Mapping, key: Field)
    ensures Passes(IsTrue, m, key) <==> HoldsTrue(m, key)
  {
  }

  lemma NothingMeans(m: Mapping, key: Field)
    ensures Passes(IsFalsy, m, key) <==> HoldsNothing(m, key)
  {
  }

  lemma NumbersMean(v: Value)
    ensures IsNumeric(v) <==> Number(v).Some?
    ensures IsNumeric(v) ==> Number(v) == Some(NumberIn(v))
  {
  }

  lemma EqualMeans(a: Value, b: Value)
    ensures AreEqual(a, b) <==> Same(a, b)
  {
  }

  lemma AmountsMean(m: Mapping, key: Field)
    ensures Amount(m, key) == AmountIn(m, key)
  {
  }

  lemma ComparisonsMean(a: Value, b: Value)
    ensures IsAtLeast(b, a) == Success(true) <==> IsAtMost(a, b)
    ensures IsBelow(a, b) == Success(true) <==> IsLess(a, b)
  {
  }

  lemma SizeMeans(message: Mapping)
    ensures WireFits(message) == Success(true) <==> SizeHolds(message)
  {
  }

  // ----- Each part of a sound bundle -----

  lemma ThreeKeys(m: Mapping, keys: seq<Field>, test: Test)
    requires |keys| == 3
    ensures AllPass(m, keys, test) <==> Passes(test, m, keys[0]) && Passes(test, m, keys[1]) && Passes(test, m, keys[2])
  {
  }

  lemma FourKeys(m: Mapping, keys: seq<Field>, test: Test)
    requires |keys| == 4
    ensures AllPass(m, keys, test) <==>
            && Passes(test, m, keys[0]) && Passes(test, m, keys[1]) && Passes(test, m, keys[2])
            && Passes(test, m, keys[3])
  {
  }

  lemma FiveKeys(m: Mapping, keys: seq<Field>, test: Test)
    requires |keys| == 5
    ensures AllPass(m, keys, test) <==>
            && Passes(test, m, keys[0]) && Passes(test, m, keys[1]) && Passes(test, m, keys[2])
            && Passes(test, m, keys[3]) && Passes(test, m, keys[4])
  {
  }

  lemma MoreKeys(m: Mapping, keys: seq<Field>, n: nat, test: Test)
    requires n <= |keys|
    ensures AllPass(m, keys, test) <==> AllPass(m, keys[..n], test) && AllPass(m, keys[n..], test)
  {
    forall i | n <= i < |keys| ensures keys[i] == keys[n..][i - n] {
    }
  }

  lemma AskingMeans(e: Evidence)
    ensures NothingForbidden(e) <==> AsksNothing(e)
  {
    ThreeKeys(e.requests, REQUEST_KEYS, IsFalsy);
    FourKeys(e.qualification, SURFACE_KEYS, IsFalsy);
  }

  lemma PlanMeans(plan: Mapping)
    ensures PlanSound(plan) <==> PlanHolds(plan)
  {
    FourKeys(plan, PLAN_IDS, ASafeText);
    FourKeys(plan, PLAN_HASHES, AHash);
    NumbersMean(FieldOr(plan, MaxSlippageBps, Null));
  }

  lemma MessageMeans(plan: Mapping, message: Mapping)
    ensures MessageSound(plan, message) <==> MessageHolds(plan, message)
  {
    FourKeys(message, MESSAGE_HASHES, AHash);
    ComparisonsMean(FieldOr(message, MinContextSlot, Int(0)), FieldOr(message, ObservedContextSlot, Int(-1)));
    SizeMeans(message);
  }

  lemma ItemMeans(item: Mapping)
    ensures ItemSound(item) <==> ItemHolds(item)
  {
    assert ITEM_PROGRAM[0] == ProgramId;
    ThreeKeys(item, ITEM_HASHES, AHash);
    FiveKeys(item, ITEM_AMOUNTS, AUintOrAbsent);
  }

  lemma SimulationMeans(message: Mapping, simulation: Mapping)
    ensures SimulationSound(message, simulation) <==> SimulationHolds(message, simulation)
  {
    MoreKeys(simulation, SIMULATION_HASHES, 3, AHash);
    ThreeKeys(simulation, SIMULATION_HASHES[..3], AHash);
    ThreeKeys(simulation, SIMULATION_HASHES[3..], AHash);
  }

  lemma QualificationMeans(qualification: Mapping)
    ensures QualificationSound(qualification) <==> QualificationHolds(qualification)
  {
    FourKeys(qualification, QUALIFICATION_HASHES, AHash);
    ThreeKeys(qualification, QUALIFICATION_COUNTS, APositive);
    FiveKeys(qualification, QUALIFICATION_FLAGS, IsTrue);
    ComparisonsMean(FieldOr(qualification, StartedNs, Int(0)), FieldOr(qualification, EndedNs, Int(0)));
  }

  lemma FindingsMean(findings: seq<Value>)
    ensures FindingsSound(findings) <==> FindingsHold(findings)
  {
    forall i, j | 0 <= i < j < |findings|
      ensures AreEqual(findings[i], findings[j]) <==> Same(findings[i], findings[j])
    {
      EqualMeans(findings[i], findings[j]);
    }
  }

  lemma CostsMean(economics: Mapping)
    ensures AllPass(economics, ECONOMIC_AMOUNTS, AUint) && Amount(economics, FailedLandingFeeLamports) > 0 <==>
            CostsHold(economics)
  {
    MoreKeys(economics, ECONOMIC_AMOUNTS, 4, AUint);
    FourKeys(economics, ECONOMIC_AMOUNTS[..4], AUint);
    FiveKeys(economics, ECONOMIC_AMOUNTS[4..], AUint);
  }

  lemma EconomicsMean(plan: Mapping, items: seq<Mapping>, simulation: Mapping, economics: Mapping)
    ensures EconomicsSound(plan, items, simulation, economics) <==>
            EconomicsHold(plan, Find(items, LEG_B), simulation, economics)
  {
    CostsMean(economics);
    SevenCosts(economics);
    NumbersMean(FieldOr(economics, RepaymentLamports, Null));
    NumbersMean(FieldOr(economics, GuaranteedLegBOutputLamports, Null));
  }

  // ----- The loan -----

  lemma FlashLoanMeans(items: seq<Mapping>, i: int, j: int)
    ensures IsFlashLoan(items, i, j) <==> InFlashOrder(Roles(items), i, j)
  {
    var roles := Roles(items);
    assert BORROW == "marginfi.borrow" && REPAY == "marginfi.repay";
    assert LEG_A == "jupiter.leg_a" && LEG_B == "jupiter.leg_b";
    forall k | 0 <= k < |items|
      ensures IsSensitive(roles[k]) <==>
              || HasRole(items, k, "marginfi.borrow") || HasRole(items, k, "marginfi.repay")
              || HasRole(items, k, "jupiter.leg_a") || HasRole(items, k, "jupiter.leg_b")
    {
    }
  }

  lemma LoanIsFound(items: seq<Mapping>, i: int, j: int)
    requires InFlashOrder(Roles(items), i, j)
    ensures Find(items, BORROW) == items[0] && Find(items, LEG_B) == items[j]
  {
    SensitiveRolesAreAlone(Roles(items), i, j);
    LoneRoleIsFound(items, LEG_B, j);
  }

  lemma RepaymentIsNumber(plan: Mapping, m: Mapping)
    ensures Repayment(plan, Get(m, RepaymentLamports)) <==>
            IsNumber(FieldOr(m, RepaymentLamports, Null),
                     AmountIn(plan, PrincipalLamports) + AmountIn(plan, FlashFeeLamports))
  {
    NumbersMean(FieldOr(m, RepaymentLamports, Null));
  }

  lemma RepaymentMeans(plan: Mapping, items: seq<Mapping>, n: int)
    requires n == |items| - 1 && IsAlone(Roles(items), n) && Roles(items)[n] == Str(REPAY)
    ensures Repayment(plan, Get(Find(items, REPAY), RepaymentLamports)) <==>
            IsNumber(FieldOr(items[n], RepaymentLamports, Null),
                     AmountIn(plan, PrincipalLamports) + AmountIn(plan, FlashFeeLamports))
  {
    LoneRoleIsFound(items, REPAY, n);
    RepaymentIsNumber(plan, items[n]);
  }

  lemma LoanMeans(plan: Mapping, items: seq<Mapping>, i: int, j: int)
    requires InFlashOrder(Roles(items), i, j)
    ensures BorrowsPrincipal(plan, items) && Repayment(plan, Get(Find(items, REPAY), RepaymentLamports)) <==>
            LoanHolds(plan, items, i, j)
  {
    FlashLoanMeans(items, i, j);
    LoanIsFound(items, i, j);
    SensitiveRolesAreAlone(Roles(items), i, j);
    RepaymentMeans(plan, items, |items| - 1);
  }

  lemma FieldsHoldWhenSound(e: Evidence)
    requires Sound(e)
    ensures exists i, j :: FieldsHold(e, i, j)
  {
    var items := e.instructions;
    var i, j :| InFlashOrder(Roles(items), i, j);
    PartsMean(e);
    LoanMeans(e.plan, items, i, j);
    LoanIsFound(items, i, j);
    assert FieldsHold(e, i, j);
  }

  lemma SoundWhenFieldsHold(e: Evidence, i: int, j: int)
    requires FieldsHold(e, i, j)
    ensures Sound(e)
  {
    var items := e.instructions;
    FlashLoanMeans(items, i, j);
    PartsMean(e);
    LoanMeans(e.plan, items, i, j);
    LoanIsFound(items, i, j);
  }

  /** The parts that do not depend on where the legs stand. */
  lemma PartsMean(e: Evidence)
    ensures NothingForbidden(e) <==> AsksNothing(e)
    ensures PlanSound(e.plan) <==> PlanHolds(e.plan)
    ensures MessageSound(e.plan, e.message) <==> MessageHolds(e.plan, e.message)
    ensures forall k :: 0 <= k < |e.instructions| ==> (ItemSound(e.instructions[k]) <==> ItemHolds(e.instructions[k]))
    ensures SimulationSound(e.message, e.simulation) <==> SimulationHolds(e.message, e.simulation)
    ensures EconomicsSound(e.plan, e.instructions, e.simulation, e.economics) <==>
            EconomicsHold(e.plan, Find(e.instructions, LEG_B), e.simulation, e.economics)
    ensures QualificationSound(e.qualification) <==> QualificationHolds(e.qualification)
    ensures FindingsSound(e.findings) <==> FindingsHold(e.findings)
  {
    AskingMeans(e);
    PlanMeans(e.plan);
    MessageMeans(e.plan, e.message);
    forall k | 0 <= k < |e.instructions| ensures ItemSound(e.instructions[k]) <==> ItemHolds(e.instructions[k]) {
      ItemMeans(e.instructions[k]);
    }
    SimulationMeans(e.message, e.simulation);
    EconomicsMean(e.plan, e.instructions, e.simulation, e.economics);
    QualificationMeans(e.qualification);
    FindingsMean(e.findings);
  }

  /** A bundle is ready exactly when its fields hold all of this, for some positions of the two legs. */
  lemma ReadyIffFieldsHold(e: Evidence)
    ensures IsReady(e) <==> exists i, j :: FieldsHold(e, i, j)
  {
    ReadyIffSound(e);
    if Sound(e) {
      FieldsHoldWhenSound(e);
    }
    if i, j :| FieldsHold(e, i, j) {
      SoundWhenFieldsHold(e, i, j);
    }
  }
}
