/** What a READY report means: the flash-loan bracket, the index order and the surplus. */
module AtomicGateSoundness {
  import opened Wrappers
  import opened EvidenceValues
  import opened RequiredFindings
  import opened AtomicGate
  import opened AtomicGateOrder

  // ----- When a validator leaves the list empty -----

  predicate AllPass(m: Mapping, keys: seq<Field>, test: Test) {
    forall i :: 0 <= i < |keys| ==> Passes(test, m, keys[i])
  }

  lemma AllPassSnoc(m: Mapping, keys: seq<Field>, last: Field, test: Test)
    ensures AllPass(m, keys + [last], test) <==> AllPass(m, keys, test) && Passes(test, m, last)
  {
    var longer := keys + [last];
    assert longer[|keys|] == last && forall i :: 0 <= i < |keys| ==> longer[i] == keys[i];
  }

  lemma {:induction false} EachIsClean(blockers: seq<Violation>, m: Mapping, keys: seq<Field>, test: Test, code: Code)
    ensures AddUnlessEach(blockers, m, keys, test, code) == [] <==> blockers == [] && AllPass(m, keys, test)
  {
    if keys != [] {
      var init, last := keys[..|keys| - 1], keys[|keys| - 1];
      EachIsClean(blockers, m, init, test, code);
      AllPassSnoc(m, init, last, test);
      assert keys == init + [last];
    }
  }

  predicate ItemSound(item: Mapping) {
    && IsAllowedRole(Get(item, Role)) && AllPass(item, ITEM_PROGRAM, ASafeText)
    && AllPass(item, ITEM_HASHES, AHash) && AllPass(item, ITEM_AMOUNTS, AUintOrAbsent)
  }

  lemma ItemIsClean(blockers: seq<Violation>, item: Mapping)
    ensures AfterItem(blockers, item) == [] <==> blockers == [] && ItemSound(item)
  {
    var role := Get(item, Role);
    var known := AddUnless(blockers, IsAllowedRole(role), UnknownInstruction, RoleName(Text(role)));
    var program := AddUnlessEach(known, item, ITEM_PROGRAM, ASafeText, BadInstructionEvidence);
    var hashes := AddUnlessEach(program, item, ITEM_HASHES, AHash, BadInstructionEvidence);
    EachIsClean(known, item, ITEM_PROGRAM, ASafeText, BadInstructionEvidence);
    EachIsClean(program, item, ITEM_HASHES, AHash, BadInstructionEvidence);
    EachIsClean(hashes, item, ITEM_AMOUNTS, AUintOrAbsent, BadInstructionAmount);
  }

  lemma {:induction false} ItemsAreClean(blockers: seq<Violation>, items: seq<Mapping>)
    ensures AfterItems(blockers, items) == [] <==>
            blockers == [] && forall i :: 0 <= i < |items| ==> ItemSound(items[i])
  {
    if items != [] {
      ItemsAreClean(blockers, items[..|items| - 1]);
      ItemIsClean(AfterItems(blockers, items[..|items| - 1]), items[|items| - 1]);
    }
  }

  predicate EachOnce(roles: seq<Value>, names: seq<string>) {
    forall i :: 0 <= i < |names| ==> Count(roles, names[i]) == 1
  }

  lemma {:induction false} CountsAreClean(blockers: seq<Violation>, roles: seq<Value>, names: seq<string>)
    ensures AfterCounts(blockers, roles, names) == [] <==> blockers == [] && EachOnce(roles, names)
  {
    if names != [] {
      CountsAreClean(blockers, roles, names[..|names| - 1]);
    }
  }

  // ----- The bracket -----

  predicate TwoLegs(roles: seq<Value>, i: int, j: int) {
    && 0 <= i < j < |roles| && roles[i] == Str(LEG_A) && roles[j] == Str(LEG_B)
    && forall k :: 0 <= k < |roles| && k != i && k != j ==> !IsLeg(roles[k])
  }

  predicate OneLeg(roles: seq<Value>, i: int) {
    && 0 <= i < |roles| && roles[i] == Str(LEG_A)
    && forall k :: 0 <= k < |roles| && k != i ==> !IsLeg(roles[k])
  }

  lemma {:induction false} NoLegs(roles: seq<Value>)
    ensures Legs(roles) == [] <==> forall k :: 0 <= k < |roles| ==> !IsLeg(roles[k])
  {
    if roles != [] {
      var init, n := roles[..|roles| - 1], |roles| - 1;
      NoLegs(init);
      assert |Legs(roles)| == |Legs(init)| + if IsLeg(roles[n]) then 1 else 0;
      assert forall k :: 0 <= k < n ==> roles[k] == init[k];
    }
  }

  lemma SnocOne<T>(s: seq<T>, x: T, a: T)
    requires s + [x] == [a]
    ensures s == [] && x == a
  {
    assert |s + [x]| == |s| + 1 && (s + [x])[|s|] == x;
  }

  lemma SnocTwo<T>(s: seq<T>, x: T, a: T, b: T)
    requires s + [x] == [a, b]
    ensures s == [a] && x == b
  {
    assert |s + [x]| == |s| + 1 && (s + [x])[|s|] == x && (s + [x])[0] == s[0];
  }

  lemma {:induction false} OneFromLegs(roles: seq<Value>)
    requires Legs(roles) == [Str(LEG_A)]
    ensures exists i :: OneLeg(roles, i)
  {
    var init, n := roles[..|roles| - 1], |roles| - 1;
    if IsLeg(roles[n]) {
      SnocOne(Legs(init), roles[n], Str(LEG_A));
      NoLegs(init);
      assert OneLeg(roles, n);
    } else {
      OneFromLegs(init);
      var i :| OneLeg(init, i);
      assert OneLeg(roles, i);
    }
  }

  lemma {:induction false} LegsFromOne(roles: seq<Value>, i: int)
    requires OneLeg(roles, i)
    ensures Legs(roles) == [Str(LEG_A)]
  {
    var init, n := roles[..|roles| - 1], |roles| - 1;
    if i == n {
      NoLegs(init);
    } else {
      assert OneLeg(init, i);
      LegsFromOne(init, i);
    }
  }

  lemma {:induction false} TwoFromLegs(roles: seq<Value>)
    requires Legs(roles) == [Str(LEG_A), Str(LEG_B)]
    ensures exists i, j :: TwoLegs(roles, i, j)
  {
    var init, n := roles[..|roles| - 1], |roles| - 1;
    if IsLeg(roles[n]) {
      SnocTwo(Legs(init), roles[n], Str(LEG_A), Str(LEG_B));
      OneFromLegs(init);
      var i :| OneLeg(init, i);
      assert TwoLegs(roles, i, n);
    } else {
      TwoFromLegs(init);
      var i, j :| TwoLegs(init, i, j);
      assert TwoLegs(roles, i, j);
    }
  }

  lemma {:induction false} LegsFromTwo(roles: seq<Value>, i: int, j: int)
    requires TwoLegs(roles, i, j)
    ensures Legs(roles) == [Str(LEG_A), Str(LEG_B)]
  {
    var init, n := roles[..|roles| - 1], |roles| - 1;
    if j == n {
      assert OneLeg(init, i);
      LegsFromOne(init, i);
    } else {
      assert TwoLegs(init, i, j);
      LegsFromTwo(init, i, j);
    }
  }

  /** The filtered roles are leg A then leg B exactly when each occurs once, in this order. */
  lemma LegsInOrder(roles: seq<Value>)
    ensures Legs(roles) == [Str(LEG_A), Str(LEG_B)] <==> exists i, j :: TwoLegs(roles, i, j)
  {
    if Legs(roles) == [Str(LEG_A), Str(LEG_B)] {
      TwoFromLegs(roles);
    }
    if i, j :| TwoLegs(roles, i, j) {
      LegsFromTwo(roles, i, j);
    }
  }

  lemma {:induction false} CountZero(roles: seq<Value>, name: string)
    ensures Count(roles, name) == 0 <==> forall k :: 0 <= k < |roles| ==> roles[k] != Str(name)
  {
    if roles != [] {
      CountZero(roles[..|roles| - 1], name);
    }
  }

  /** A role counted once stands at no other position. */
  lemma {:induction false} CountOne(roles: seq<Value>, name: string, p: int)
    requires 0 <= p < |roles| && roles[p] == Str(name)
    ensures Count(roles, name) == 1 <==> forall k :: 0 <= k < |roles| && k != p ==> roles[k] != Str(name)
  {
    var init, n := roles[..|roles| - 1], |roles| - 1;
    CountZero(init, name);
    if p < n {
      CountOne(init, name, p);
      assert Count(init, name) >= 1;
    }
  }

  predicate IsSensitive(role: Value) {
    role == Str(BORROW) || role == Str(REPAY) || IsLeg(role)
  }

  /** Borrow first, repay last, leg A before leg B between them, and no other of the four. */
  predicate InFlashOrder(roles: seq<Value>, i: int, j: int) {
    && 0 < i < j < |roles| - 1
    && roles[0] == Str(BORROW) && roles[i] == Str(LEG_A) && roles[j] == Str(LEG_B) && roles[|roles| - 1] == Str(REPAY)
    && forall k :: 0 <= k < |roles| && k != 0 && k != i && k != j && k != |roles| - 1 ==> !IsSensitive(roles[k])
  }

  lemma LegNamesDiffer()
    ensures Str(LEG_A) != Str(LEG_B)
  {
    assert LEG_A[12] != LEG_B[12];
  }

  lemma RoleNamesDiffer()
    ensures Str(BORROW) != Str(REPAY) && !IsLeg(Str(BORROW)) && !IsLeg(Str(REPAY)) && Str(LEG_A) != Str(LEG_B)
  {
    assert BORROW[9] == 'b' && REPAY[9] == 'r';
    assert BORROW[0] == REPAY[0] == 'm' && LEG_A[0] == LEG_B[0] == 'j';
    LegNamesDiffer();
  }

  lemma OnceEach(roles: seq<Value>)
    ensures EachOnce(roles, SENSITIVE_ROLES) <==>
            && Count(roles, BORROW) == 1 && Count(roles, LEG_A) == 1
            && Count(roles, LEG_B) == 1 && Count(roles, REPAY) == 1
  {
    assert SENSITIVE_ROLES[0] == BORROW && SENSITIVE_ROLES[1] == LEG_A;
    assert SENSITIVE_ROLES[2] == LEG_B && SENSITIVE_ROLES[3] == REPAY && |SENSITIVE_ROLES| == 4;
  }

  /** The three order checks together say just that the roles are in flash order. */
  lemma BracketIff(roles: seq<Value>)
    ensures IsBracket(roles) && Legs(roles) == [Str(LEG_A), Str(LEG_B)] && EachOnce(roles, SENSITIVE_ROLES)
            <==> exists i, j :: InFlashOrder(roles, i, j)
  {
    RoleNamesDiffer();
    LegsInOrder(roles);
    OnceEach(roles);
    if IsBracket(roles) {
      CountOne(roles, BORROW, 0);
      CountOne(roles, REPAY, |roles| - 1);
      if i, j :| TwoLegs(roles, i, j) {
        CountOne(roles, LEG_A, i);
        CountOne(roles, LEG_B, j);
        if EachOnce(roles, SENSITIVE_ROLES) {
          assert InFlashOrder(roles, i, j);
        }
      }
    }
    if i, j :| InFlashOrder(roles, i, j) {
      assert TwoLegs(roles, i, j);
      CountOne(roles, LEG_A, i);
      CountOne(roles, LEG_B, j);
    }
  }

  // ----- The index order -----

  /** No other position holds the text that this one holds. */
  predicate IsAlone(roles: seq<Value>, p: int) {
    0 <= p < |roles| && roles[p].Str? && forall k :: 0 <= k < |roles| && k != p ==> roles[k] != roles[p]
  }

  lemma SensitiveRolesAreAlone(roles: seq<Value>, i: int, j: int)
    requires InFlashOrder(roles, i, j)
    ensures IsAlone(roles, 0) && IsAlone(roles, |roles| - 1)
    ensures IsAlone(roles, i) && IsAlone(roles, j)
  {
    RoleNamesDiffer();
  }

  lemma LonePositionStays(items: seq<Mapping>, p: int)
    requires IsAlone(Roles(items), p) && SameRoles(Roles(items), Roles(SortByIndex(items)))
    ensures |SortByIndex(items)| == |items| && SortByIndex(items)[p] == items[p]
  {
    forall k | 0 <= k < |items| && k != p ensures !Same(Get(items[k], Role), Get(items[p], Role)) {
      assert Roles(items)[k] != Roles(items)[p];
    }
    UniqueRoleStays(items, p);
  }

  lemma FixedEndsAreExtremes(items: seq<Mapping>, k: int)
    requires 0 <= k < |items| == |SortByIndex(items)| && Ascending(SortByIndex(items))
    requires SortByIndex(items)[0] == items[0] && SortByIndex(items)[|items| - 1] == items[|items| - 1]
    ensures NotAfter(items[0], items[k]) && NotAfter(items[k], items[|items| - 1])
  {
    SortIsPermutation(items, k);
    Extremes(items, SortByIndex(items), items[k]);
  }

  lemma LoneEndsAreExtremes(items: seq<Mapping>, n: int, k: int)
    requires Sortable(items) && SameRoles(Roles(items), Roles(SortByIndex(items)))
    requires n == |items| - 1 > 0 && IsAlone(Roles(items), 0) && IsAlone(Roles(items), n) && 0 <= k <= n
    ensures NotAfter(items[0], items[k]) && NotAfter(items[k], items[n])
  {
    LonePositionStays(items, 0);
    LonePositionStays(items, n);
    SortableMeansSameKind(items);
    SortAscends(items);
    FixedEndsAreExtremes(items, k);
  }

  lemma LonePairIsOrdered(items: seq<Mapping>, i: int, j: int)
    requires Sortable(items) && SameRoles(Roles(items), Roles(SortByIndex(items)))
    requires i < j && IsAlone(Roles(items), i) && IsAlone(Roles(items), j)
    ensures NotAfter(items[i], items[j])
  {
    LonePositionStays(items, i);
    LonePositionStays(items, j);
    SortableMeansSameKind(items);
    SortAscends(items);
    assert NotAfter(SortByIndex(items)[i], SortByIndex(items)[j]);
  }

  /** In index order too, the borrow comes first, the repay last, and leg A before leg B. */
  lemma FlashOrderByIndex(items: seq<Mapping>, i: int, j: int)
    requires Sortable(items) && InFlashOrder(Roles(items), i, j)
    requires SameRoles(Roles(items), Roles(SortByIndex(items)))
    ensures IndexOrdered(items, i, j)
  {
    SensitiveRolesAreAlone(Roles(items), i, j);
    forall k | 0 <= k < |items| ensures NotAfter(items[0], items[k]) && NotAfter(items[k], items[|items| - 1]) {
      LoneEndsAreExtremes(items, |items| - 1, k);
    }
    LonePairIsOrdered(items, i, j);
  }

  // ----- The surplus -----

  function Amount(m: Mapping, key: Field): int {
    match Number(Get(m, key))
    case Some(n) => n
    case None => 0
  }

  function Total(m: Mapping, keys: seq<Field>): int {
    if keys == [] then 0 else Total(m, keys[..|keys| - 1]) + Amount(m, keys[|keys| - 1])
  }

  lemma {:induction false} NetIsStartLessCosts(economics: Mapping, costs: seq<Field>, start: Value)
    requires AllPass(economics, costs, AUint) && Number(start).Some?
    ensures NetAfter(economics, costs, start).Success?
    ensures Number(NetAfter(economics, costs, start).value) == Some(Number(start).value - Total(economics, costs))
  {
    if costs != [] {
      var init, last := costs[..|costs| - 1], costs[|costs| - 1];
      NetIsStartLessCosts(economics, init, start);
      assert Passes(AUint, economics, last);
    }
  }

  lemma SevenCosts(m: Mapping)
    ensures Total(m, REQUIRED_COSTS) ==
            Amount(m, TotalTransactionFeeLamports) + Amount(m, FailedLandingFeeLamports)
            + Amount(m, RentCreateLamports) + Amount(m, PriorityFeeLamports) + Amount(m, JitoTipLamports)
            + Amount(m, TokenTransferFeeLamports) + Amount(m, ContingencyLamports)
  {
    var c := REQUIRED_COSTS;
    TotalSnoc(m, c, 7);
    TotalSnoc(m, c, 6);
    TotalSnoc(m, c, 5);
    TotalSnoc(m, c, 4);
    TotalSnoc(m, c, 3);
    TotalSnoc(m, c, 2);
    TotalSnoc(m, c, 1);
    assert c[..7] == c;
  }

  lemma TotalSnoc(m: Mapping, keys: seq<Field>, n: nat)
    requires 0 < n <= |keys|
    ensures Total(m, keys[..n]) == Total(m, keys[..n - 1]) + Amount(m, keys[n - 1])
  {
    assert keys[..n][..n - 1] == keys[..n - 1];
  }

  // ----- A sound bundle -----

  predicate NothingForbidden(e: Evidence) {
    AllPass(e.requests, REQUEST_KEYS, IsFalsy) && AllPass(e.qualification, SURFACE_KEYS, IsFalsy)
  }

  predicate PlanSound(plan: Mapping) {
    && AllPass(plan, PLAN_IDS, ASafeText) && AllPass(plan, PLAN_HASHES, AHash)
    && IsPositive(Get(plan, PrincipalLamports)) && IsUint(Get(plan, FlashFeeLamports))
    && IsUint(Get(plan, MinimumProfitLamports)) && SlippageOk(Get(plan, MaxSlippageBps))
  }

  predicate MessageSound(plan: Mapping, message: Mapping) {
    && Same(Get(message, PlanId), Get(plan, PlanId)) && AllPass(message, MESSAGE_HASHES, AHash)
    && IsSafe(Get(message, RecentBlockhash)) && HeightsOk(message)
    && Amount(message, CurrentBlockHeight) + Amount(message, SafetyMarginBlocks) < Amount(message, LastValidBlockHeight)
    && SlotObserved(message) == Success(true) && WireFits(message) == Success(true)
  }

  predicate Repayment(plan: Mapping, v: Value) {
    Number(v) == Some(Amount(plan, PrincipalLamports) + Amount(plan, FlashFeeLamports))
  }

  ghost predicate LayoutSound(items: seq<Mapping>) {
    && Sortable(items) && SameRoles(Roles(items), Roles(SortByIndex(items)))
    && (exists i, j :: InFlashOrder(Roles(items), i, j))
    && (forall i :: 0 <= i < |items| ==> ItemSound(items[i]))
  }

  ghost predicate InstructionsSound(plan: Mapping, items: seq<Mapping>) {
    LayoutSound(items) && BorrowsPrincipal(plan, items) && Repayment(plan, Get(Find(items, REPAY), RepaymentLamports))
  }

  predicate SimulationSound(message: Mapping, simulation: Mapping) {
    && AllPass(simulation, SIMULATION_HASHES, AHash)
    && Same(Get(simulation, MessageHash), Get(message, MessageHash))
    && Get(simulation, SuccessFlag) == Bool(true) && Get(simulation, ErrorCode) == Null
    && Get(simulation, LocalSignatureVerificationPassed) == Bool(true)
    && IsPositive(Get(simulation, UnitsConsumed)) && IsPositive(Get(simulation, TotalTransactionFeeLamports))
  }

  /** The guaranteed output and the rent refund cover the repayment, the costs and the profit. */
  predicate HasSurplus(plan: Mapping, economics: Mapping) {
    Amount(economics, GuaranteedLegBOutputLamports) + Amount(economics, RentRefundLamports) >=
    Amount(plan, PrincipalLamports) + Amount(plan, FlashFeeLamports)
    + Total(economics, REQUIRED_COSTS) + Amount(plan, MinimumProfitLamports)
  }

  predicate EconomicsSound(plan: Mapping, items: seq<Mapping>, simulation: Mapping, economics: Mapping) {
    && AllPass(economics, ECONOMIC_AMOUNTS, AUint) && Repayment(plan, Get(economics, RepaymentLamports))
    && FeeIsSimulated(simulation, economics) && Amount(economics, FailedLandingFeeLamports) > 0
    && Number(Get(economics, GuaranteedLegBOutputLamports)).Some? && OutputIsGuaranteed(items, economics)
    && ProfitIsPlanned(plan, economics) && HasSurplus(plan, economics)
  }

  predicate QualificationSound(qualification: Mapping) {
    && AllPass(qualification, QUALIFICATION_HASHES, AHash) && HasElapsed(qualification) == Success(true)
    && AllPass(qualification, QUALIFICATION_COUNTS, APositive) && AllPass(qualification, QUALIFICATION_FLAGS, IsTrue)
  }

  predicate FindingsSound(findings: seq<Value>) {
    NoRepeats(findings) && forall i :: 0 <= i < |REQUIRED_FINDINGS| ==> Str(REQUIRED_FINDINGS[i]) in findings
  }

  ghost predicate Sound(e: Evidence) {
    && NothingForbidden(e) && PlanSound(e.plan) && MessageSound(e.plan, e.message)
    && InstructionsSound(e.plan, e.instructions) && SimulationSound(e.message, e.simulation)
    && EconomicsSound(e.plan, e.instructions, e.simulation, e.economics)
    && QualificationSound(e.qualification) && FindingsSound(e.findings)
  }

  // ----- Each validator leaves the list empty exactly on sound input -----

  predicate Clean(r: Result<seq<Violation>, Raised>) {
    r.Success? && r.value == []
  }

  lemma ForbiddenIsClean(e: Evidence)
    ensures AfterForbidden([], e.requests, e.qualification) == [] <==> NothingForbidden(e)
  {
    EachIsClean([], e.requests, REQUEST_KEYS, IsFalsy, ForbiddenRequest);
    var asked := AddUnlessEach([], e.requests, REQUEST_KEYS, IsFalsy, ForbiddenRequest);
    EachIsClean(asked, e.qualification, SURFACE_KEYS, IsFalsy, ForbiddenSurface);
  }

  lemma PlanIsClean(blockers: seq<Violation>, plan: Mapping)
    ensures AfterPlan(blockers, plan) == [] <==> blockers == [] && PlanSound(plan)
  {
    EachIsClean(blockers, plan, PLAN_IDS, ASafeText, BadPlanId);
    EachIsClean(AddUnlessEach(blockers, plan, PLAN_IDS, ASafeText, BadPlanId), plan, PLAN_HASHES, AHash, BadPlanHash);
  }

  lemma MessageIsClean(blockers: seq<Violation>, plan: Mapping, message: Mapping)
    ensures Clean(AfterMessage(blockers, plan, message)) <==> blockers == [] && MessageSound(plan, message)
  {
    var bound := AddUnless(blockers, Same(Get(message, PlanId), Get(plan, PlanId)), MessageBinding, Key(PlanId));
    EachIsClean(bound, message, MESSAGE_HASHES, AHash, BadMessageHash);
  }

  lemma RepaymentIsExpected(plan: Mapping, v: Value)
    requires PlanSound(plan)
    ensures ExpectedRepayment(plan) ==
            Success(Int(Amount(plan, PrincipalLamports) + Amount(plan, FlashFeeLamports)))
    ensures Same(v, ExpectedRepayment(plan).value) <==> Repayment(plan, v)
  {
  }

  lemma OrderIsClean(blockers: seq<Violation>, items: seq<Mapping>)
    ensures AfterOrder(blockers, items) == [] <==>
            && blockers == [] && SameRoles(Roles(items), Roles(SortByIndex(items)))
            && exists i, j :: InFlashOrder(Roles(items), i, j)
  {
    var roles := Roles(items);
    var indexed := AddUnless(blockers, SameRoles(roles, Roles(SortByIndex(items))), InstructionIndexGap, Whole);
    var some := AddUnless(indexed, roles != [], NoInstructions, Whole);
    var bracketed := AddUnless(some, IsBracket(roles), BadFlashBracket, Whole);
    var swapped := AddUnless(bracketed, Legs(roles) == [Str(LEG_A), Str(LEG_B)], BadSwapOrder, Whole);
    CountsAreClean(swapped, roles, SENSITIVE_ROLES);
    BracketIff(roles);
  }

  lemma InstructionsAreClean(blockers: seq<Violation>, plan: Mapping, items: seq<Mapping>)
    requires blockers == [] ==> PlanSound(plan)
    ensures Clean(AfterInstructions(blockers, plan, items)) <==> blockers == [] && InstructionsSound(plan, items)
  {
    if blockers == [] {
      RepaymentIsExpected(plan, Get(Find(items, REPAY), RepaymentLamports));
    }
    OrderIsClean(blockers, items);
    ItemsAreClean(AfterOrder(blockers, items), items);
  }

  lemma SimulationIsClean(blockers: seq<Violation>, message: Mapping, simulation: Mapping)
    ensures AfterSimulation(blockers, message, simulation) == [] <==>
            blockers == [] && SimulationSound(message, simulation)
  {
    EachIsClean(blockers, simulation, SIMULATION_HASHES, AHash, BadSimulationHash);
  }

  lemma AmountsAreUints(economics: Mapping)
    requires AllPass(economics, ECONOMIC_AMOUNTS, AUint)
    ensures AllPass(economics, REQUIRED_COSTS, AUint)
    ensures IsUint(Get(economics, FailedLandingFeeLamports)) && IsUint(Get(economics, MinimumProfitLamports))
    ensures IsUint(Get(economics, RentRefundLamports))
  {
    forall i | 0 <= i < |REQUIRED_COSTS| ensures Passes(AUint, economics, REQUIRED_COSTS[i]) {
      assert ECONOMIC_AMOUNTS[i] == REQUIRED_COSTS[i];
    }
    assert REQUIRED_COSTS[1] == FailedLandingFeeLamports && |REQUIRED_COSTS| == 7;
    assert ECONOMIC_AMOUNTS[7] == MinimumProfitLamports && ECONOMIC_AMOUNTS[8] == RentRefundLamports;
  }

  lemma NetIsSurplus(plan: Mapping, economics: Mapping)
    requires PlanSound(plan) && AllPass(economics, ECONOMIC_AMOUNTS, AUint)
    requires Repayment(plan, Get(economics, RepaymentLamports))
    requires Number(Get(economics, GuaranteedLegBOutputLamports)).Some?
    ensures IsProfitable(plan, economics) == Success(HasSurplus(plan, economics))
  {
    AmountsAreUints(economics);
    NetIsStartLessCosts(economics, REQUIRED_COSTS, NetStart(economics).value);
  }

  lemma EconomicsAreClean(
    blockers: seq<Violation>, plan: Mapping, items: seq<Mapping>, simulation: Mapping, economics: Mapping)
    requires blockers == [] ==> PlanSound(plan)
    ensures Clean(AfterEconomics(blockers, plan, items, simulation, economics)) <==>
            blockers == [] && EconomicsSound(plan, items, simulation, economics)
  {
    EachIsClean(blockers, economics, ECONOMIC_AMOUNTS, AUint, BadEconomicAmount);
    if blockers == [] {
      RepaymentIsExpected(plan, Get(economics, RepaymentLamports));
    }
    if && blockers == [] && AllPass(economics, ECONOMIC_AMOUNTS, AUint)
       && Repayment(plan, Get(economics, RepaymentLamports)) {
      AmountsAreUints(economics);
      if Number(Get(economics, GuaranteedLegBOutputLamports)).Some? {
        NetIsSurplus(plan, economics);
      }
    }
  }

  lemma QualificationIsClean(blockers: seq<Violation>, qualification: Mapping)
    ensures Clean(AfterQualification(blockers, qualification)) <==> blockers == [] && QualificationSound(qualification)
  {
    var hashes := AddUnlessEach(blockers, qualification, QUALIFICATION_HASHES, AHash, BadQualificationHash);
    EachIsClean(blockers, qualification, QUALIFICATION_HASHES, AHash, BadQualificationHash);
    if HasElapsed(qualification).Success? {
      var window := AddUnless(hashes, HasElapsed(qualification).value, BadQualificationWindow, Whole);
      EachIsClean(window, qualification, QUALIFICATION_COUNTS, APositive, QualificationCount);
      var counts := AddUnlessEach(window, qualification, QUALIFICATION_COUNTS, APositive, QualificationCount);
      EachIsClean(counts, qualification, QUALIFICATION_FLAGS, IsTrue, QualificationFlag);
    }
  }

  lemma {:induction false} NoneMissing(required: seq<string>, findings: seq<Value>)
    ensures MissingFindings(required, findings) == [] <==>
            forall i :: 0 <= i < |required| ==> Str(required[i]) in findings
  {
    if required != [] {
      NoneMissing(required[1..], findings);
      assert forall i :: 1 <= i < |required| ==> required[i] == required[1..][i - 1];
    }
  }

  lemma FindingsAreClean(blockers: seq<Violation>, findings: seq<Value>)
    ensures AfterFindings(blockers, findings) == [] <==> blockers == [] && FindingsSound(findings)
  {
    NoneMissing(REQUIRED_FINDINGS, findings);
  }

  function BeforeInstructions(e: Evidence): Result<seq<Violation>, Raised> {
    AfterMessage(AfterPlan(AfterForbidden([], e.requests, e.qualification), e.plan), e.plan, e.message)
  }

  lemma IdentityIsClean(e: Evidence)
    ensures Clean(BeforeInstructions(e)) <==>
            NothingForbidden(e) && PlanSound(e.plan) && MessageSound(e.plan, e.message)
  {
    var forbidden := AfterForbidden([], e.requests, e.qualification);
    ForbiddenIsClean(e);
    PlanIsClean(forbidden, e.plan);
    MessageIsClean(AfterPlan(forbidden, e.plan), e.plan, e.message);
  }

  /** The list after the message, carried through the remaining validators. */
  function Remaining(e: Evidence, message: seq<Violation>): Result<seq<Violation>, Raised> {
    var instructions :- AfterInstructions(message, e.plan, e.instructions);
    var simulation := AfterSimulation(instructions, e.message, e.simulation);
    var economics :- AfterEconomics(simulation, e.plan, e.instructions, e.simulation, e.economics);
    var qualification :- AfterQualification(economics, e.qualification);
    Success(AfterFindings(qualification, e.findings))
  }

  lemma RemainingIsClean(e: Evidence, message: seq<Violation>)
    requires message == [] ==> PlanSound(e.plan)
    ensures Clean(Remaining(e, message)) <==>
            && message == [] && InstructionsSound(e.plan, e.instructions) && SimulationSound(e.message, e.simulation)
            && EconomicsSound(e.plan, e.instructions, e.simulation, e.economics)
            && QualificationSound(e.qualification) && FindingsSound(e.findings)
  {
    InstructionsAreClean(message, e.plan, e.instructions);
    var instructions := AfterInstructions(message, e.plan, e.instructions);
    if instructions.Success? {
      SimulationIsClean(instructions.value, e.message, e.simulation);
      var simulation := AfterSimulation(instructions.value, e.message, e.simulation);
      EconomicsAreClean(simulation, e.plan, e.instructions, e.simulation, e.economics);
      var economics := AfterEconomics(simulation, e.plan, e.instructions, e.simulation, e.economics);
      if economics.Success? {
        QualificationIsClean(economics.value, e.qualification);
        var qualification := AfterQualification(economics.value, e.qualification);
        if qualification.Success? {
          FindingsAreClean(qualification.value, e.findings);
        }
      }
    }
  }

  lemma UniqueIsEmptyIff(blockers: seq<Violation>)
    ensures Unique(blockers) == [] <==> blockers == []
  {
    if blockers != [] {
      assert blockers[0] in Unique(blockers);
    }
  }

  predicate IsReady(e: Evidence) {
    Evaluate(e).Success? && Evaluate(e).value.ready
  }

  /** A bundle is reported ready exactly when it is sound. */
  lemma ReadyIffSound(e: Evidence)
    ensures IsReady(e) <==> Sound(e)
  {
    IdentityIsClean(e);
    var message := BeforeInstructions(e);
    if message.Success? {
      RemainingIsClean(e, message.value);
      assert AllBlockers(e) == Remaining(e, message.value);
    }
    if AllBlockers(e).Success? {
      UniqueIsEmptyIff(AllBlockers(e).value);
    }
  }

  ghost predicate FlashLoan(items: seq<Mapping>, i: int, j: int) {
    InFlashOrder(Roles(items), i, j) && IndexOrdered(items, i, j)
  }

  /** Ready means: one borrow first, one repay last, leg A before leg B, in list and in index order. */
  lemma ReadyIsBracketed(e: Evidence)
    requires IsReady(e)
    ensures exists i, j :: FlashLoan(e.instructions, i, j)
  {
    ReadyIffSound(e);
    var i, j :| InFlashOrder(Roles(e.instructions), i, j);
    FlashOrderByIndex(e.instructions, i, j);
    assert FlashLoan(e.instructions, i, j);
  }

  /** The first item with this role is at this position. */
  predicate FirstWith(items: seq<Mapping>, role: string, p: int) {
    && 0 <= p < |items| && Get(items[p], Role) == Str(role)
    && forall k :: 0 <= k < p ==> Get(items[k], Role) != Str(role)
  }

  lemma {:induction false} FindIsFirst(items: seq<Mapping>, role: string, p: int)
    requires FirstWith(items, role, p)
    ensures Find(items, role) == items[p]
  {
    if p > 0 {
      FindIsFirst(items[1..], role, p - 1);
    }
  }

  lemma LoneRoleIsFound(items: seq<Mapping>, role: string, p: int)
    requires IsAlone(Roles(items), p) && Roles(items)[p] == Str(role)
    ensures Find(items, role) == items[p]
  {
    forall k | 0 <= k < p ensures Get(items[k], Role) != Str(role) {
      assert Roles(items)[k] != Roles(items)[p];
    }
    FindIsFirst(items, role, p);
  }

  lemma SameAmount(a: Mapping, k: Field, b: Mapping, m: Field)
    requires Same(Get(a, k), Get(b, m))
    ensures Amount(a, k) == Amount(b, m)
  {
  }

  /**
   Ready means: what leg B puts out and the rent refund cover the principal, the flash fee,
   all seven costs and the plan's minimum profit.
   */
  lemma ReadyHasSurplus(e: Evidence, i: int, j: int)
    requires IsReady(e) && InFlashOrder(Roles(e.instructions), i, j)
    ensures var x := e.economics;
            Amount(e.instructions[j], OutputLamports) + Amount(x, RentRefundLamports) >=
            Amount(e.plan, PrincipalLamports) + Amount(e.plan, FlashFeeLamports)
            + Amount(x, TotalTransactionFeeLamports) + Amount(x, FailedLandingFeeLamports)
            + Amount(x, RentCreateLamports) + Amount(x, PriorityFeeLamports) + Amount(x, JitoTipLamports)
            + Amount(x, TokenTransferFeeLamports) + Amount(x, ContingencyLamports)
            + Amount(e.plan, MinimumProfitLamports)
  {
    ReadyIffSound(e);
    SensitiveRolesAreAlone(Roles(e.instructions), i, j);
    LoneRoleIsFound(e.instructions, LEG_B, j);
    SevenCosts(e.economics);
    SameAmount(e.economics, GuaranteedLegBOutputLamports, e.instructions[j], OutputLamports);
  }

  lemma FirstBorrows(plan: Mapping, items: seq<Mapping>)
    requires items != [] && Get(items[0], Role) == Str(BORROW) && BorrowsPrincipal(plan, items)
    ensures Amount(items[0], PrincipalLamports) == Amount(plan, PrincipalLamports)
  {
    SameAmount(items[0], PrincipalLamports, plan, PrincipalLamports);
  }

  lemma LastRepays(plan: Mapping, items: seq<Mapping>, n: int)
    requires n == |items| - 1 && IsAlone(Roles(items), n) && Roles(items)[n] == Str(REPAY)
    requires Repayment(plan, Get(Find(items, REPAY), RepaymentLamports))
    ensures Amount(items[n], RepaymentLamports) == Amount(plan, PrincipalLamports) + Amount(plan, FlashFeeLamports)
  {
    LoneRoleIsFound(items, REPAY, n);
  }

  lemma EndsMoveTheLoan(plan: Mapping, items: seq<Mapping>, i: int, j: int)
    requires InstructionsSound(plan, items) && InFlashOrder(Roles(items), i, j)
    ensures Amount(items[0], PrincipalLamports) == Amount(plan, PrincipalLamports)
    ensures Amount(items[|items| - 1], RepaymentLamports) ==
            Amount(plan, PrincipalLamports) + Amount(plan, FlashFeeLamports)
  {
    SensitiveRolesAreAlone(Roles(items), i, j);
    FirstBorrows(plan, items);
    LastRepays(plan, items, |items| - 1);
  }

  /** Ready means: the first instruction borrows the principal, the last repays it with the fee. */
  lemma ReadyRepays(e: Evidence, i: int, j: int)
    requires IsReady(e) && InFlashOrder(Roles(e.instructions), i, j)
    ensures var items := e.instructions;
            && Amount(items[0], PrincipalLamports) == Amount(e.plan, PrincipalLamports)
            && Amount(items[|items| - 1], RepaymentLamports) ==
               Amount(e.plan, PrincipalLamports) + Amount(e.plan, FlashFeeLamports)
  {
    ReadyIffSound(e);
    EndsMoveTheLoan(e.plan, e.instructions, i, j);
  }

  // ----- A boolean slippage -----

  /** Which slippages pass: the whole numbers from 0 to 1000, and both booleans. */
  lemma SlippagePassesIff(v: Value)
    ensures SlippageOk(v) <==> v.Bool? || (v.Int? && 0 <= v.number <= 1000)
  {
  }

  lemma PlanStaysSound(plan: Mapping, flag: bool)
    requires PlanSound(plan)
    ensures PlanSound(plan[MaxSlippageBps := Bool(flag)])
  {
    var plan' := plan[MaxSlippageBps := Bool(flag)];
    forall i | 0 <= i < |PLAN_IDS| ensures Passes(ASafeText, plan', PLAN_IDS[i]) {
      assert Passes(ASafeText, plan, PLAN_IDS[i]);
    }
    forall i | 0 <= i < |PLAN_HASHES| ensures Passes(AHash, plan', PLAN_HASHES[i]) {
      assert Passes(AHash, plan, PLAN_HASHES[i]);
    }
  }

  /** The plans agree on the fields the other validators read. */
  predicate AgreeElsewhere(plan: Mapping, other: Mapping) {
    && Get(plan, PlanId) == Get(other, PlanId)
    && Get(plan, PrincipalLamports) == Get(other, PrincipalLamports)
    && Get(plan, FlashFeeLamports) == Get(other, FlashFeeLamports)
    && Get(plan, MinimumProfitLamports) == Get(other, MinimumProfitLamports)
  }

  lemma MessageReadsNoSlippage(plan: Mapping, other: Mapping, message: Mapping)
    requires AgreeElsewhere(plan, other) && MessageSound(plan, message)
    ensures MessageSound(other, message)
  {
  }

  lemma InstructionsReadNoSlippage(plan: Mapping, other: Mapping, items: seq<Mapping>)
    requires AgreeElsewhere(plan, other) && InstructionsSound(plan, items)
    ensures InstructionsSound(other, items)
  {
  }

  lemma EconomicsReadNoSlippage(
    plan: Mapping, other: Mapping, items: seq<Mapping>, simulation: Mapping, economics: Mapping)
    requires AgreeElsewhere(plan, other) && EconomicsSound(plan, items, simulation, economics)
    ensures EconomicsSound(other, items, simulation, economics)
  {
  }

  lemma BooleanSlippageStaysSound(e: Evidence, plan: Mapping, flag: bool)
    requires Sound(e) && plan == e.plan[MaxSlippageBps := Bool(flag)]
    ensures Sound(e.(plan := plan))
  {
    PlanStaysSound(e.plan, flag);
    MessageReadsNoSlippage(e.plan, plan, e.message);
    InstructionsReadNoSlippage(e.plan, plan, e.instructions);
    EconomicsReadNoSlippage(e.plan, plan, e.instructions, e.simulation, e.economics);
  }

  /** A ready bundle stays ready when its slippage is replaced by a boolean. */
  lemma BooleanSlippageStaysReady(e: Evidence, flag: bool)
    requires IsReady(e)
    ensures IsReady(e.(plan := e.plan[MaxSlippageBps := Bool(flag)]))
  {
    var plan := e.plan[MaxSlippageBps := Bool(flag)];
    ReadyIffSound(e);
    BooleanSlippageStaysSound(e, plan, flag);
    ReadyIffSound(e.(plan := plan));
  }
}
