/** The Token-2022 transfer fee: a rate in basis points, rounded up and capped. */
module TransferFee {
  import opened Wrappers

  const BPS := 10_000
  const U64_MAX := 0xFFFF_FFFF_FFFF_FFFF

  datatype Error = InvalidInteger | FeeInvalid | UnsupportedHook | DefaultFrozen | OutOfBounds

  datatype Token2022 = Token2022(feeBps: int, maxFee: int, unsupportedHooks: seq<string>, defaultFrozen: bool)

  datatype Taken = Taken(net: int, fee: int)

  /** The exact-integer type of the shared arithmetic: 64 bits, unsigned. */
  predicate IsStrictInt(n: int) {
    0 <= n <= U64_MAX
  }

  function CeilDiv(n: int, d: int): Result<int, Error> {
    if !IsStrictInt(n) || !IsStrictInt(d) || d == 0 then Failure(OutOfBounds) else Success((n + d - 1) / d)
  }

  function Min(a: int, b: int): int {
    if a <= b then a else b
  }

  method ApplyTransferFee(amount: int, policy: Token2022) returns (r: Result<Taken, Error>)
    ensures r == AfterFee(amount, policy)
  {
    if amount < 0 || policy.feeBps < 0 || policy.maxFee < 0 {
      return Failure(InvalidInteger);
    }
    if policy.feeBps >= BPS {
      return Failure(FeeInvalid);
    }
    if policy.unsupportedHooks != [] {
      return Failure(UnsupportedHook);
    }
    if policy.defaultFrozen {
      return Failure(DefaultFrozen);
    }
    if amount == 0 || policy.feeBps == 0 {
      return Success(Taken(amount, 0));
    }
    var fee :- CeilDiv(amount * policy.feeBps, BPS);
    fee := Min(fee, Min(policy.maxFee, amount));
    return Success(Taken(amount - fee, fee));
  }

  function AfterFee(amount: int, policy: Token2022): Result<Taken, Error> {
    if amount < 0 || policy.feeBps < 0 || policy.maxFee < 0 then Failure(InvalidInteger)
    else if policy.feeBps >= BPS then Failure(FeeInvalid)
    else if policy.unsupportedHooks != [] then Failure(UnsupportedHook)
    else if policy.defaultFrozen then Failure(DefaultFrozen)
    else if amount == 0 || policy.feeBps == 0 then Success(Taken(amount, 0))
    else
      var raised :- CeilDiv(amount * policy.feeBps, BPS);
      var fee := Min(raised, Min(policy.maxFee, amount));
      Success(Taken(amount - fee, fee))
  }

  /** The policy is one this function can apply. */
  predicate IsApplicable(policy: Token2022) {
    && 0 <= policy.feeBps < 10_000 && 0 <= policy.maxFee
    && policy.unsupportedHooks == [] && !policy.defaultFrozen
  }

  /** The least whole fee that is no less than the rate times the amount. */
  ghost predicate IsRoundedUp(raised: int, amount: int, feeBps: int) {
    && raised * 10_000 >= amount * feeBps
    && forall f :: f * 10_000 >= amount * feeBps ==> raised <= f
  }

  /** The fee the policy means, stated without division. */
  ghost predicate IsFee(fee: int, amount: int, policy: Token2022) {
    exists raised :: IsRoundedUp(raised, amount, policy.feeBps) && fee == Min(raised, Min(policy.maxFee, amount))
  }

  lemma CeilIsLeast(n: nat)
    ensures (n + BPS - 1) / BPS * BPS >= n
    ensures forall f: int :: f * BPS >= n ==> (n + BPS - 1) / BPS <= f
  {
  }

  lemma RateTimesAmount(amount: nat, feeBps: nat)
    ensures 0 <= amount * feeBps
    ensures amount == 0 || feeBps == 0 ==> amount * feeBps == 0
  {
  }

  /**
   The fee is taken, exactly, unless the amount times the rate leaves 64 bits: the shared
   ceiling division refuses such a product even where the amount itself is a valid one.
   */
  lemma SucceedsIff(amount: int, policy: Token2022)
    ensures AfterFee(amount, policy).Success? <==>
            0 <= amount && IsApplicable(policy) && amount * policy.feeBps < 0x1_0000_0000_0000_0000
  {
    if 0 <= amount && 0 <= policy.feeBps {
      RateTimesAmount(amount, policy.feeBps);
    }
  }

  /** A refusal names the first thing that is wrong. */
  lemma RefusalsOf(amount: int, policy: Token2022)
    ensures var r := AfterFee(amount, policy);
            && (r == Failure(InvalidInteger) <==> amount < 0 || policy.feeBps < 0 || policy.maxFee < 0)
            && (amount >= 0 && policy.feeBps >= 0 && policy.maxFee >= 0 ==>
                  && (r == Failure(FeeInvalid) <==> policy.feeBps >= 10_000)
                  && (policy.feeBps < 10_000 ==>
                        && (r == Failure(UnsupportedHook) <==> policy.unsupportedHooks != [])
                        && (policy.unsupportedHooks == [] ==> (r == Failure(DefaultFrozen) <==> policy.defaultFrozen))))
            && (r == Failure(OutOfBounds) ==> IsApplicable(policy))
  {
  }

  lemma FeeOf(amount: int, policy: Token2022)
    requires AfterFee(amount, policy).Success?
    ensures AfterFee(amount, policy).value.fee ==
            Min((amount * policy.feeBps + BPS - 1) / BPS, Min(policy.maxFee, amount))
  {
    RateTimesAmount(amount, policy.feeBps);
  }

  /** Net plus fee is the amount, and the fee is the rounded-up rate under the cap. */
  lemma FeeIsConserved(amount: int, policy: Token2022)
    requires AfterFee(amount, policy).Success?
    ensures var t := AfterFee(amount, policy).value;
            t.net + t.fee == amount && 0 <= t.fee <= amount && t.fee <= policy.maxFee && IsFee(t.fee, amount, policy)
  {
    SucceedsIff(amount, policy);
    FeeOf(amount, policy);
    RateTimesAmount(amount, policy.feeBps);
    CeilIsLeast(amount * policy.feeBps);
    assert IsRoundedUp((amount * policy.feeBps + BPS - 1) / BPS, amount, policy.feeBps);
  }

  lemma CeilGrowsSlowly(a: nat, more: nat, feeBps: nat)
    requires feeBps < BPS
    ensures (a * feeBps + BPS - 1) / BPS <= ((a + more) * feeBps + BPS - 1) / BPS
    ensures ((a + more) * feeBps + BPS - 1) / BPS <= (a * feeBps + BPS - 1) / BPS + more
  {
    assert (a + more) * feeBps == a * feeBps + more * feeBps;
    assert 0 <= more * feeBps <= more * BPS by { ProductGrows(more, feeBps, BPS); }
  }

  lemma ProductGrows(n: nat, a: nat, b: nat)
    requires a <= b
    ensures 0 <= n * a <= n * b
  {
  }

  lemma CeilIsSubadditive(a: nat, b: nat, feeBps: nat)
    ensures ((a + b) * feeBps + BPS - 1) / BPS <= (a * feeBps + BPS - 1) / BPS + (b * feeBps + BPS - 1) / BPS
  {
    assert (a + b) * feeBps == a * feeBps + b * feeBps;
  }

  lemma ProductsGrow(a: nat, b: nat, n: nat)
    requires a <= b
    ensures 0 <= a * n <= b * n
  {
  }

  lemma SmallerSucceeds(a: int, b: int, policy: Token2022)
    requires 0 <= a <= b && AfterFee(b, policy).Success?
    ensures AfterFee(a, policy).Success?
  {
    SucceedsIff(b, policy);
    ProductsGrow(a, b, policy.feeBps);
    SucceedsIff(a, policy);
  }

  /** Both the fee and what is left grow with the amount. */
  lemma NetIsMonotone(a: int, b: int, policy: Token2022)
    requires 0 <= a <= b && AfterFee(b, policy).Success?
    ensures AfterFee(a, policy).Success?
    ensures AfterFee(a, policy).value.fee <= AfterFee(b, policy).value.fee
    ensures AfterFee(a, policy).value.net <= AfterFee(b, policy).value.net
  {
    SmallerSucceeds(a, b, policy);
    SucceedsIff(b, policy);
    FeeOf(a, policy);
    FeeOf(b, policy);
    CeilGrowsSlowly(a, b - a, policy.feeBps);
  }

  function RoundedUp(amount: int, policy: Token2022): int {
    (amount * policy.feeBps + BPS - 1) / BPS
  }

  /** Below the full rate the rounded-up fee never exceeds the amount. */
  lemma CeilIsWithinAmount(amount: nat, feeBps: nat)
    requires feeBps < BPS
    ensures 0 <= (amount * feeBps + BPS - 1) / BPS <= amount
  {
    ProductGrows(amount, feeBps, BPS);
    CeilIsLeast(amount * feeBps);
  }

  lemma ClampIsSubadditive(x: nat, y: nat, z: int, cap: nat, a: nat, b: nat)
    requires x <= a && y <= b && z <= x + y
    ensures Min(z, Min(cap, a + b)) <= Min(x, Min(cap, a)) + Min(y, Min(cap, b))
  {
  }

  /** Splitting one transfer in two never lowers the total fee. */
  lemma SplittingNeverHelps(a: nat, b: nat, policy: Token2022)
    requires AfterFee(a + b, policy).Success?
    ensures AfterFee(a, policy).Success? && AfterFee(b, policy).Success?
    ensures AfterFee(a + b, policy).value.fee <= AfterFee(a, policy).value.fee + AfterFee(b, policy).value.fee
  {
    SmallerSucceeds(a, a + b, policy);
    SmallerSucceeds(b, a + b, policy);
    SucceedsIff(a + b, policy);
    FeeOf(a, policy);
    FeeOf(b, policy);
    FeeOf(a + b, policy);
    CeilIsSubadditive(a, b, policy.feeBps);
    CeilIsWithinAmount(a, policy.feeBps);
    CeilIsWithinAmount(b, policy.feeBps);
    ClampIsSubadditive(RoundedUp(a, policy), RoundedUp(b, policy), RoundedUp(a + b, policy), policy.maxFee, a, b);
  }

  function Sum(parts: seq<nat>): nat {
    if parts == [] then 0 else Sum(parts[..|parts| - 1]) + parts[|parts| - 1]
  }

  function TotalFee(parts: seq<nat>, policy: Token2022): int {
    if parts == [] then 0
    else
      var last := AfterFee(parts[|parts| - 1], policy);
      TotalFee(parts[..|parts| - 1], policy) + if last.Success? then last.value.fee else 0
  }

  /** Nor does splitting it into any number of parts. */
  lemma {:induction false} ManyPartsNeverHelp(parts: seq<nat>, policy: Token2022)
    requires AfterFee(Sum(parts), policy).Success?
    ensures AfterFee(Sum(parts), policy).value.fee <= TotalFee(parts, policy)
  {
    if parts != [] {
      var init, last := parts[..|parts| - 1], parts[|parts| - 1];
      SplittingNeverHelps(Sum(init), last, policy);
      ManyPartsNeverHelp(init, policy);
    }
  }
}
