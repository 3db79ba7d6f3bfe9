/**
 What a concentrated-liquidity quote is worth, said of the prices and capacities of the bands
 themselves, and which requests are quoted at all.
 */
module ClmmQuoteMeaning {
  import opened Wrappers
  import opened Texts
  import opened ClmmQuote
  import opened ClmmQuoteLaws
  import TransferFee

  // ----- What the bands pay -----

  /** The greatest whole output whose price in this band is covered by `x`. */
  predicate IsPaidBy(p: int, b: Band, x: int) {
    p * b.denominator <= x * b.numerator < (p + 1) * b.denominator
  }

  function Least(a: int, b: int): int {
    if a < b then a else b
  }

  function Positive(x: int): int {
    if x < 0 then 0 else x
  }

  lemma QuotientIsFloor(n: int, d: int)
    requires 0 <= n && 0 < d
    ensures n / d * d <= n < (n / d + 1) * d
  {
    assert n == n / d * d + n % d;
  }

  /** One band pays at its own price, rounded down, as far as its capacity goes. */
  lemma OneBandPays(b: Band, x: nat)
    requires IsBand(b)
    ensures IsPaidBy(Output([b], x), b, Least(x, b.capacityIn)) && Capacity([b]) == b.capacityIn
  {
    assert [b][..0] == [];
    var take := Least(x, b.capacityIn);
    ProductGrows(0, take, b.numerator);
    QuotientIsFloor(take * b.numerator, b.denominator);
    assert Capacity([]) == 0 && Output([], x) == 0;
    if x == 0 {
      assert Output([b], x) == 0;
    } else {
      assert Output([b], x) == take * b.numerator / b.denominator;
    }
  }

  lemma ConcatBands(a: seq<Band>, b: seq<Band>)
    requires AllBands(a) && AllBands(b)
    ensures AllBands(a + b)
  {
  }

  lemma {:induction false} CapacityAdds(a: seq<Band>, b: seq<Band>)
    ensures Capacity(a + b) == Capacity(a) + Capacity(b)
    decreases |b|
  {
    if b == [] {
      assert a + b == a;
    } else {
      CapacityAdds(a, b[..|b| - 1]);
      assert (a + b)[..|a + b| - 1] == a + b[..|b| - 1];
    }
  }

  lemma {:induction false} NothingPaysNothing(bands: seq<Band>, x: int)
    requires AllBands(bands) && x <= 0
    ensures Output(bands, x) == 0
  {
    if bands != [] {
      NothingPaysNothing(bands[..|bands| - 1], x);
      CapacityGrows(bands[..|bands| - 1], 0);
    }
  }

  lemma {:induction false} FullPaysNoMore(bands: seq<Band>, x: int)
    requires AllBands(bands) && Capacity(bands) <= x
    ensures Output(bands, x) == Output(bands, Capacity(bands))
  {
    if bands != [] {
      var init, last := bands[..|bands| - 1], bands[|bands| - 1];
      FullPaysNoMore(init, x);
      FullPaysNoMore(init, Capacity(bands));
    }
  }

  /** The bands behind get what the bands in front cannot take. */
  lemma {:induction false} OutputAdds(a: seq<Band>, b: seq<Band>, x: int)
    requires AllBands(a) && AllBands(b)
    ensures AllBands(a + b) && Output(a + b, x) == Output(a, x) + Output(b, x - Capacity(a))
    decreases |b|
  {
    ConcatBands(a, b);
    if b == [] {
      assert a + b == a;
    } else {
      var init, last := b[..|b| - 1], b[|b| - 1];
      OutputAdds(a, init, x);
      CapacityAdds(a, init);
      assert (a + b)[..|a + b| - 1] == a + init && (a + b)[|a + b| - 1] == last;
    }
  }

  /** Cut anywhere, each part pays for its own share of the input. */
  lemma OutputSplits(a: seq<Band>, b: seq<Band>, x: nat)
    requires AllBands(a) && AllBands(b)
    ensures AllBands(a + b)
    ensures Output(a + b, x) == Output(a, Least(x, Capacity(a))) + Output(b, Positive(x - Capacity(a)))
  {
    OutputAdds(a, b, x);
    if Capacity(a) <= x {
      FullPaysNoMore(a, x);
    } else {
      NothingPaysNothing(b, x - Capacity(a));
      NothingPaysNothing(b, 0);
    }
  }

  // ----- The pool fee -----

  predicate IsU64(n: int) {
    0 <= n < 0x1_0000_0000_0000_0000
  }

  /** The least whole fee at this rate per million. */
  predicate IsPoolFee(fee: int, amount: int, feePpm: int) {
    (fee - 1) * 1_000_000 < amount * feePpm <= fee * 1_000_000
  }

  lemma CeilIsLeast(n: nat, d: nat)
    requires d > 0
    ensures ((n + d - 1) / d - 1) * d < n <= (n + d - 1) / d * d
  {
    QuotientIsFloor(n + d - 1, d);
  }

  lemma PoolFeeIsLeast(amountIn: int, feePpm: int)
    ensures PoolFee(amountIn, feePpm).Success? <==>
            IsU64(amountIn) && IsU64(feePpm) && IsU64(amountIn * feePpm)
    ensures PoolFee(amountIn, feePpm).Success? ==> IsPoolFee(PoolFee(amountIn, feePpm).value, amountIn, feePpm)
  {
    if 0 <= amountIn && 0 <= feePpm {
      ProductGrows(0, amountIn, feePpm);
      CeilIsLeast(amountIn * feePpm, 1_000_000);
    }
  }

  lemma PoolFeeIsUnique(fee: int, other: int, amountIn: int, feePpm: int)
    requires IsPoolFee(fee, amountIn, feePpm) && IsPoolFee(other, amountIn, feePpm)
    ensures fee == other
  {
  }

  /** A band takes and pays at least one unit, in 64 bits. */
  lemma BandsAre(b: Band)
    ensures IsBand(b) <==>
            && 1 <= b.capacityIn && IsU64(b.capacityIn) && 1 <= b.numerator && IsU64(b.numerator)
            && 1 <= b.denominator && IsU64(b.denominator)
  {
  }

  /** A traversal needs an amount, a band, a fee within 64 bits, and room for what is left of the amount. */
  lemma TraversesIff(amountIn: int, bands: seq<Band>, feePpm: int)
    requires AllBands(bands)
    ensures Traverse(amountIn, bands, feePpm).Success? <==>
            && amountIn >= 1 && bands != [] && IsU64(amountIn) && IsU64(feePpm) && IsU64(amountIn * feePpm)
            && exists fee :: IsPoolFee(fee, amountIn, feePpm) && amountIn - fee <= Capacity(bands)
    ensures Traverse(amountIn, bands, feePpm).Failure? ==>
              Traverse(amountIn, bands, feePpm) == Failure(CoverageInsufficient)
  {
    PoolFeeIsLeast(amountIn, feePpm);
    CapacityGrows(bands, 0);
    if PoolFee(amountIn, feePpm).Success? {
      var fee := PoolFee(amountIn, feePpm).value;
      forall other | IsPoolFee(other, amountIn, feePpm) ensures other == fee {
        PoolFeeIsUnique(fee, other, amountIn, feePpm);
      }
    }
  }

  // ----- What a quote promises -----

  /** A quote charges the least pool fee and, after the transfer fee, pays all that the bands put out for the rest. */
  lemma QuotePays(q: Request, amountIn: int)
    requires QuoteClmm(q, amountIn).Success?
    ensures var quote := QuoteClmm(q, amountIn).value;
            && IsPoolFee(quote.fee, amountIn, q.feePpm)
            && quote.amountOut + quote.transferFee == Output(BandsOf(q.bands), Positive(amountIn - quote.fee))
  {
    var quote, bands := QuoteClmm(q, amountIn).value, BandsOf(q.bands);
    PoolFeeIsLeast(amountIn, q.feePpm);
    QuoteParts(q, amountIn);
    if amountIn <= quote.fee {
      NothingPaysNothing(bands, 0);
    }
  }

  /** The transfer fee is the token policy's, on all that the bands put out. */
  lemma QuoteTransferFee(q: Request, amountIn: int)
    requires QuoteClmm(q, amountIn).Success?
    ensures var quote := QuoteClmm(q, amountIn).value;
            && TransferFee.IsFee(quote.transferFee, quote.amountOut + quote.transferFee, q.token)
            && 0 <= quote.transferFee <= quote.amountOut + quote.transferFee
  {
    QuoteParts(q, amountIn);
    TransferFee.FeeIsConserved(Traverse(amountIn, BandsOf(q.bands), q.feePpm).value.output, q.token);
  }

  /** `n` is the length of the shortest prefix that holds the input. */
  predicate IsReached(bands: seq<Band>, n: int, input: int) {
    && 0 <= n <= |bands|
    && (if input <= 0 then n == 0 else n > 0 && Capacity(bands[..n - 1]) < input <= Capacity(bands[..n]))
  }

  lemma TraverseTouches(amountIn: int, bands: seq<Band>, feePpm: int)
    requires AllBands(bands) && Traverse(amountIn, bands, feePpm).Success?
    ensures var gross := Traverse(amountIn, bands, feePpm).value; IsReached(bands, gross.touched, amountIn - gross.fee)
  {
    var gross := Traverse(amountIn, bands, feePpm).value;
    if amountIn > gross.fee {
      TouchedIsLeastPrefix(bands, amountIn - gross.fee);
    }
  }

  lemma TouchedAreNames(q: Request, amountIn: int)
    requires QuoteClmm(q, amountIn).Success?
    ensures var quote, gross := QuoteClmm(q, amountIn).value, Traverse(amountIn, BandsOf(q.bands), q.feePpm).value;
            && quote.fee == gross.fee && gross.touched <= |q.bands| && quote.touched == Names(q.bands, gross.touched)
  {
  }

  /** The arrays touched are those of the bands the input reaches, in their order. */
  lemma QuoteTouches(q: Request, amountIn: int)
    requires QuoteClmm(q, amountIn).Success?
    ensures var quote, bands := QuoteClmm(q, amountIn).value, BandsOf(q.bands);
            && IsReached(bands, |quote.touched|, amountIn - quote.fee)
            && forall i :: 0 <= i < |quote.touched| ==> quote.touched[i] == q.bands[i].0
  {
    TouchedAreNames(q, amountIn);
    TraverseTouches(amountIn, BandsOf(q.bands), q.feePpm);
  }

  /** The remaining fields: the market asked for, the digests, and what the independent vector says. */
  lemma QuoteCarries(q: Request, amountIn: int)
    requires QuoteClmm(q, amountIn).Success?
    ensures var quote := QuoteClmm(q, amountIn).value;
            && quote.amountIn == amountIn && quote.marketId == q.marketId
            && quote.stateHash == StateDigest(q.family, q.evidence.stateHash, amountIn, quote.touched)
            && quote.basis == BasisDigest(q.family, q.marketId, q.direction)
            && (quote.needsVector <==> q.reference != Some(quote.amountOut))
            && (quote.offlineVerified <==> q.reference == Some(quote.amountOut) && q.evidence.vectorHash.Some?)
  {
  }

  // ----- Which requests are quoted -----

  predicate HasText(s: string) {
    exists i :: 0 <= i < |s| && !IsBlank(s[i])
  }

  predicate IsHexText(s: string) {
    && |s| == 64 && (exists i :: 0 <= i < 64 && s[i] != '0')
    && forall i :: 0 <= i < 64 ==> '0' <= s[i] <= '9' || 'a' <= s[i] <= 'f' || 'A' <= s[i] <= 'F'
  }

  /** The evidence is well-formed and the time is within it. */
  predicate IsCurrent(e: Evidence, now: int) {
    && HasText(e.generation) && IsHexText(e.stateHash) && (e.vectorHash.Some? ==> IsHexText(e.vectorHash.value))
    && 0 <= e.observedAt <= now < e.expiresAt
  }

  /** The last position of the name. */
  predicate IsLastAt(names: seq<string>, name: string, p: int) {
    0 <= p < |names| && names[p] == name && forall k :: p < k < |names| ==> names[k] != name
  }

  /** Every band's array is loaded, and no band comes before an earlier one in loaded order. */
  ghost predicate InLoadedOrder(q: Request) {
    && (forall i :: 0 <= i < |q.bands| ==> q.bands[i].0 in q.loaded)
    && forall i, j, p, r ::
         (0 <= i < j < |q.bands| && IsLastAt(q.loaded, q.bands[i].0, p) && IsLastAt(q.loaded, q.bands[j].0, r)
          ==> p <= r)
  }

  ghost predicate IsAdmissible(q: Request, amountIn: int) {
    && amountIn > 0 && HasText(q.marketId) && HasText(q.direction) && IsCurrent(q.evidence, q.now)
    && (q.family.RaydiumClmm? || (q.family.Orca? && q.evidence.licenseDecision == Some("APPROVED")))
    && (forall name :: name in q.required ==> name in q.loaded)
    && q.bands != [] && InLoadedOrder(q)
  }

  lemma LastPosition(names: seq<string>, name: string)
    ensures LastIndex(names, name) >= 0 <==> name in names
    ensures LastIndex(names, name) >= 0 ==> IsLastAt(names, name, LastIndex(names, name))
    ensures forall p :: IsLastAt(names, name, p) ==> p == LastIndex(names, name)
  {
    LastIndexIs(names, name);
  }

  lemma {:induction false} OrderedPair(bands: seq<Placed>, loaded: seq<string>, i: int, j: int)
    requires IsOrdered(bands, loaded) && 0 <= i <= j < |bands|
    ensures LastIndex(loaded, bands[i].0) <= LastIndex(loaded, bands[j].0)
    decreases j
  {
    if i < j {
      OrderedPair(bands, loaded, i, j - 1);
    }
  }

  lemma OrderedIff(q: Request)
    ensures IsOrdered(q.bands, q.loaded) <==> InLoadedOrder(q)
  {
    forall i | 0 <= i < |q.bands| ensures LastIndex(q.loaded, q.bands[i].0) >= 0 <==> q.bands[i].0 in q.loaded {
      LastPosition(q.loaded, q.bands[i].0);
    }
    if IsOrdered(q.bands, q.loaded) {
      forall i, j, p, r | 0 <= i < j < |q.bands| && IsLastAt(q.loaded, q.bands[i].0, p)
                          && IsLastAt(q.loaded, q.bands[j].0, r)
        ensures p <= r
      {
        LastPosition(q.loaded, q.bands[i].0);
        LastPosition(q.loaded, q.bands[j].0);
        OrderedPair(q.bands, q.loaded, i, j);
      }
    }
    if InLoadedOrder(q) {
      forall i | 0 < i < |q.bands|
        ensures LastIndex(q.loaded, q.bands[i - 1].0) <= LastIndex(q.loaded, q.bands[i].0)
      {
        LastPosition(q.loaded, q.bands[i - 1].0);
        LastPosition(q.loaded, q.bands[i].0);
      }
    }
  }

  lemma RequiredAreLoaded(required: seq<string>, loaded: seq<string>)
    ensures AllLoaded(required, loaded) <==> forall name :: name in required ==> name in loaded
  {
  }

  lemma EvidenceIsCurrentIff(e: Evidence, now: int)
    ensures EvidenceError(e, now).None? <==> IsCurrent(e, now)
  {
  }

  lemma AdmittedIff(q: Request, amountIn: int)
    ensures AdmissionError(q, amountIn).None? <==> IsAdmissible(q, amountIn)
  {
    OrderedIff(q);
    EvidenceIsCurrentIff(q.evidence, q.now);
    RequiredAreLoaded(q.required, q.loaded);
    assert APPROVED == "APPROVED";
  }

  /** The pool fee is within 64 bits, and the bands hold what is left of the amount. */
  ghost predicate IsCovered(q: Request, amountIn: int) {
    && IsU64(amountIn) && IsU64(q.feePpm) && IsU64(amountIn * q.feePpm)
    && exists fee :: IsPoolFee(fee, amountIn, q.feePpm) && amountIn - fee <= Capacity(BandsOf(q.bands))
  }

  lemma TraversedIff(q: Request, amountIn: int)
    requires amountIn > 0 && q.bands != []
    ensures Traverse(amountIn, BandsOf(q.bands), q.feePpm).Success? <==> IsCovered(q, amountIn)
  {
    TraversesIff(amountIn, BandsOf(q.bands), q.feePpm);
  }

  /** The token lets its fee be taken of this amount. */
  predicate IsTakable(token: TransferFee.Token2022, amount: int) {
    && 0 <= token.feeBps < 10_000 && 0 <= token.maxFee && token.unsupportedHooks == [] && !token.defaultFrozen
    && IsU64(amount * token.feeBps)
  }

  lemma OutputIsTakable(q: Request, amountIn: int)
    requires Traverse(amountIn, BandsOf(q.bands), q.feePpm).Success?
    ensures var output := Traverse(amountIn, BandsOf(q.bands), q.feePpm).value.output;
            TransferFee.AfterFee(output, q.token).Success? <==> IsTakable(q.token, output)
  {
    var bands := BandsOf(q.bands);
    var output := Traverse(amountIn, bands, q.feePpm).value.output;
    var fee := PoolFee(amountIn, q.feePpm).value;
    OutputIsMonotone(bands, amountIn - fee, amountIn - fee);
    TransferFee.SucceedsIff(output, q.token);
    if 0 <= q.token.feeBps {
      ProductGrows(0, output, q.token.feeBps);
    }
  }

  /** A quote is given exactly when the request is admissible, the bands cover it and the token's fee can be taken. */
  lemma QuotedIff(q: Request, amountIn: int, fee: int)
    requires IsPoolFee(fee, amountIn, q.feePpm)
    ensures QuoteClmm(q, amountIn).Success? <==>
            && IsAdmissible(q, amountIn) && IsCovered(q, amountIn)
            && IsTakable(q.token, Output(BandsOf(q.bands), Positive(amountIn - fee)))
  {
    AdmittedIff(q, amountIn);
    if IsAdmissible(q, amountIn) {
      TraversedIff(q, amountIn);
      if IsCovered(q, amountIn) {
        PoolFeeIsLeast(amountIn, q.feePpm);
        PoolFeeIsUnique(fee, PoolFee(amountIn, q.feePpm).value, amountIn, q.feePpm);
        NothingPaysNothing(BandsOf(q.bands), 0);
        OutputIsTakable(q, amountIn);
      }
    }
  }

  // ----- What a refusal says -----

  /** The error of evidence that is not current: its form first, then its times. */
  lemma EvidenceRefusals(q: Request, amountIn: int)
    requires amountIn > 0 && HasText(q.marketId) && HasText(q.direction) && !IsCurrent(q.evidence, q.now)
    ensures var r, e := QuoteClmm(q, amountIn), q.evidence;
            var formed := IsHexText(e.stateHash) && (e.vectorHash.Some? ==> IsHexText(e.vectorHash.value));
            var counted := e.observedAt >= 0 && e.expiresAt > 0 && q.now >= 0;
            r == Failure(if !HasText(e.generation) then InvalidText
                         else if !formed then InvalidHash
                         else if !counted then InvalidInteger
                         else if e.observedAt > q.now then EvidenceFromFuture
                         else EvidenceStale)
  {
  }

  /** With current evidence a refusal names the first of the remaining conditions that fails. */
  lemma MarketRefusals(q: Request, amountIn: int)
    requires amountIn > 0 && HasText(q.marketId) && HasText(q.direction) && IsCurrent(q.evidence, q.now)
    ensures var r := QuoteClmm(q, amountIn);
            var licensed := q.family.Orca? ==> q.evidence.licenseDecision == Some("APPROVED");
            var loaded := forall name :: name in q.required ==> name in q.loaded;
            && (q.family.OtherFamily? ==> r == Failure(FamilyInvalid))
            && (!licensed ==> r == Failure(LicenseBlocked))
            && (!q.family.OtherFamily? && licensed ==>
                  && (!loaded ==> r == Failure(TickArrayMissing))
                  && (loaded && q.bands == [] ==> r == Failure(BandsEmpty))
                  && (loaded && q.bands != [] && !InLoadedOrder(q) ==> r == Failure(ArrayOrderInvalid))
                  && (IsAdmissible(q, amountIn) && !IsCovered(q, amountIn) ==> r == Failure(CoverageInsufficient)))
  {
    OrderedIff(q);
    AdmittedIff(q, amountIn);
    RequiredAreLoaded(q.required, q.loaded);
    EvidenceIsCurrentIff(q.evidence, q.now);
    if IsAdmissible(q, amountIn) {
      TraversedIff(q, amountIn);
    }
  }
}
