/** What a concentrated-liquidity quote promises about the input it consumes and what it pays. */
module ClmmQuoteLaws {
  import opened Wrappers
  import opened ClmmQuote
  import TransferFee

  // ----- One traversal -----

  /** What band by band is taken of `input`. */
  function Consumed(bands: seq<Band>, input: int): int {
    if bands == [] then 0
    else
      var init, last := bands[..|bands| - 1], bands[|bands| - 1];
      var left := input - Capacity(init);
      Consumed(init, input) + if left > 0 then TransferFee.Min(left, last.capacityIn) else 0
  }

  /** Bands in front are emptied before the next is touched, and nothing is lost between them. */
  lemma {:induction false} ConsumesInput(bands: seq<Band>, input: nat)
    requires AllBands(bands)
    ensures Consumed(bands, input) == TransferFee.Min(input, Capacity(bands))
  {
    if bands != [] {
      ConsumesInput(bands[..|bands| - 1], input);
      CapacityGrows(bands, |bands| - 1);
    }
  }

  /** The bands touched are the shortest prefix that holds the input. */
  lemma {:induction false} TouchedIsLeastPrefix(bands: seq<Band>, input: int)
    requires AllBands(bands) && 0 < input <= Capacity(bands)
    ensures 1 <= Touched(bands, input)
    ensures Capacity(bands[..Touched(bands, input) - 1]) < input <= Capacity(bands[..Touched(bands, input)])
  {
    var n := |bands| - 1;
    var init := bands[..n];
    if input > Capacity(init) {
      AllTouched(init, input);
      assert bands[..n + 1] == bands;
    } else {
      TouchedIsLeastPrefix(init, input);
      var t := Touched(init, input);
      assert bands[..t] == init[..t] && bands[..t - 1] == init[..t - 1];
    }
  }

  lemma {:induction false} AllTouched(bands: seq<Band>, input: int)
    requires AllBands(bands) && input > Capacity(bands)
    ensures Touched(bands, input) == |bands|
  {
    if bands != [] {
      CapacityGrows(bands, |bands| - 1);
      AllTouched(bands[..|bands| - 1], input);
    }
  }

  lemma ProductGrows(a: nat, b: nat, k: nat)
    requires a <= b
    ensures 0 <= a * k <= b * k
  {
  }

  lemma LessByProduct(a: nat, b: nat, k: nat)
    requires a * k < b * k
    ensures a < b
  {
    if b <= a {
      ProductGrows(b, a, k);
    }
  }

  lemma TheQuotient(x: nat, d: nat) returns (q: nat)
    requires d > 0
    ensures q == x / d && q * d <= x < (q + 1) * d
  {
    q := x / d;
    assert x == x / d * d + x % d;
  }

  lemma QuotientsCompare(q: nat, p: nat, x: nat, y: nat, d: nat)
    requires q * d <= x <= y < (p + 1) * d
    ensures q <= p
  {
    LessByProduct(q, p + 1, d);
  }

  lemma QuotientGrows(x: nat, y: nat, d: nat)
    requires x <= y && d > 0
    ensures x / d <= y / d
  {
    var q := TheQuotient(x, d);
    var p := TheQuotient(y, d);
    QuotientsCompare(q, p, x, y, d);
  }

  lemma PaysMore(band: Band, a: nat, b: nat)
    requires IsBand(band) && a <= b
    ensures 0 <= Pays(band, a) <= Pays(band, b)
  {
    ProductGrows(a, b, band.numerator);
    QuotientGrows(a * band.numerator, b * band.numerator, band.denominator);
  }

  /** More input never pays less, and never touches fewer bands. */
  lemma {:induction false} OutputIsMonotone(bands: seq<Band>, x: int, y: int)
    requires AllBands(bands) && x <= y
    ensures 0 <= Output(bands, x) <= Output(bands, y) && Touched(bands, x) <= Touched(bands, y)
  {
    if bands != [] {
      var init, last := bands[..|bands| - 1], bands[|bands| - 1];
      OutputIsMonotone(init, x, y);
      var more := y - Capacity(init);
      var less := x - Capacity(init);
      if less > 0 {
        PaysMore(last, TransferFee.Min(less, last.capacityIn), TransferFee.Min(more, last.capacityIn));
      } else if more > 0 {
        PaysMore(last, 0, TransferFee.Min(more, last.capacityIn));
      }
    }
  }

  // ----- The pool fee -----

  function Entering(amountIn: int, feePpm: int): int {
    amountIn - (amountIn * feePpm + PPM - 1) / PPM
  }

  lemma CeilGrowsSlowly(a: nat, more: nat, feePpm: nat)
    ensures (a * feePpm + PPM - 1) / PPM <= ((a + more) * feePpm + PPM - 1) / PPM
    ensures feePpm <= PPM ==> ((a + more) * feePpm + PPM - 1) / PPM <= (a * feePpm + PPM - 1) / PPM + more
  {
    assert (a + more) * feePpm == a * feePpm + more * feePpm;
    ProductGrows(0, more, feePpm);
    if feePpm <= PPM {
      ProductGrows(feePpm, PPM, more);
    }
  }

  lemma WholeFeeLeavesNothing(a: nat, feePpm: nat)
    requires feePpm >= PPM
    ensures Entering(a, feePpm) <= 0
  {
    ProductGrows(PPM, feePpm, a);
  }

  /** Up to the full rate, more input means at least as much entering the bands; above it, nothing enters. */
  lemma EnteringIsMonotone(a: nat, b: nat, feePpm: nat)
    requires a <= b
    ensures Entering(a, feePpm) <= Entering(b, feePpm) || (Entering(a, feePpm) <= 0 && Entering(b, feePpm) <= 0)
  {
    if feePpm <= PPM {
      CeilGrowsSlowly(a, b - a, feePpm);
    } else {
      WholeFeeLeavesNothing(a, feePpm);
      WholeFeeLeavesNothing(b, feePpm);
    }
  }

  lemma PoolFeeIs(amountIn: int, feePpm: int)
    requires PoolFee(amountIn, feePpm).Success?
    ensures 0 <= feePpm && amountIn - PoolFee(amountIn, feePpm).value == Entering(amountIn, feePpm)
  {
  }

  lemma SmallerPoolFee(a: int, b: int, feePpm: int)
    requires 0 <= a <= b && PoolFee(b, feePpm).Success?
    ensures PoolFee(a, feePpm).Success?
  {
    ProductGrows(a, b, feePpm);
  }

  // ----- The quote -----

  /** A smaller amount can be traversed too, pays no more and touches no more bands. */
  lemma TraverseIsMonotone(a: int, b: int, bands: seq<Band>, feePpm: int)
    requires AllBands(bands) && 1 <= a <= b && Traverse(b, bands, feePpm).Success?
    ensures Traverse(a, bands, feePpm).Success?
    ensures 0 <= Traverse(a, bands, feePpm).value.output <= Traverse(b, bands, feePpm).value.output
    ensures Traverse(a, bands, feePpm).value.touched <= Traverse(b, bands, feePpm).value.touched
  {
    SmallerPoolFee(a, b, feePpm);
    PoolFeeIs(a, feePpm);
    PoolFeeIs(b, feePpm);
    EnteringIsMonotone(a, b, feePpm);
    var x, y := Entering(a, feePpm), Entering(b, feePpm);
    if y > 0 {
      OutputIsMonotone(bands, if x <= y then x else y, y);
    }
  }

  lemma NamesPrefix(bands: seq<Placed>, m: nat, n: nat)
    requires m <= n <= |bands|
    ensures Names(bands, m) <= Names(bands, n)
  {
  }

  /**
   On one pool, whatever can be quoted for an amount can be quoted for any smaller positive
   one; it pays no more after both fees, and touches a prefix of the same arrays.
   */
  lemma QuoteIsMonotone(q: Request, a: int, b: int)
    requires 1 <= a <= b && QuoteClmm(q, b).Success?
    ensures QuoteClmm(q, a).Success?
    ensures QuoteClmm(q, a).value.amountOut <= QuoteClmm(q, b).value.amountOut
    ensures QuoteClmm(q, a).value.touched <= QuoteClmm(q, b).value.touched
  {
    var bands := BandsOf(q.bands);
    TraverseIsMonotone(a, b, bands, q.feePpm);
    var less, more := Traverse(a, bands, q.feePpm).value, Traverse(b, bands, q.feePpm).value;
    TransferFee.NetIsMonotone(less.output, more.output, q.token);
    NamesPrefix(q.bands, less.touched, more.touched);
  }

  /** Past the fee, the bands take all of the amount and put out what is paid. */
  predicate Conserved(bands: seq<Band>, amountIn: int, fee: int, paid: int)
    requires AllBands(bands)
  {
    if amountIn > fee
    then Consumed(bands, amountIn - fee) == amountIn - fee && paid == Output(bands, amountIn - fee)
    else paid == 0
  }

  lemma TraverseConserves(amountIn: int, bands: seq<Band>, feePpm: int)
    requires AllBands(bands) && Traverse(amountIn, bands, feePpm).Success?
    ensures var t := Traverse(amountIn, bands, feePpm).value;
            Conserved(bands, amountIn, t.fee, t.output)
  {
    var t := Traverse(amountIn, bands, feePpm).value;
    if amountIn > t.fee {
      ConsumesInput(bands, amountIn - t.fee);
    }
  }

  lemma QuoteParts(q: Request, amountIn: int)
    requires QuoteClmm(q, amountIn).Success?
    ensures var quote, gross := QuoteClmm(q, amountIn).value, Traverse(amountIn, BandsOf(q.bands), q.feePpm);
            && gross.Success? && quote.fee == gross.value.fee
            && quote.amountOut + quote.transferFee == gross.value.output
  {
    TransferFee.FeeIsConserved(Traverse(amountIn, BandsOf(q.bands), q.feePpm).value.output, q.token);
  }

  /**
   Every unit of input goes to the pool fee or into a touched band, and every unit the bands
   put out goes to the taker or the transfer fee.
   */
  lemma QuoteConserves(q: Request, amountIn: int)
    requires QuoteClmm(q, amountIn).Success?
    ensures var quote := QuoteClmm(q, amountIn).value;
            Conserved(BandsOf(q.bands), amountIn, quote.fee, quote.amountOut + quote.transferFee)
  {
    QuoteParts(q, amountIn);
    TraverseConserves(amountIn, BandsOf(q.bands), q.feePpm);
  }

  /** The touched arrays are loaded, and come in loaded order. */
  lemma TouchedArraysAreOrdered(q: Request, amountIn: int, i: int, j: int)
    requires QuoteClmm(q, amountIn).Success?
    requires 0 <= i <= j < |QuoteClmm(q, amountIn).value.touched|
    ensures var t := QuoteClmm(q, amountIn).value.touched;
            && t[i] in q.loaded && t[j] in q.loaded
            && LastIndex(q.loaded, t[i]) <= LastIndex(q.loaded, t[j])
    decreases j - i
  {
    var t := QuoteClmm(q, amountIn).value.touched;
    LastIndexIs(q.loaded, t[i]);
    LastIndexIs(q.loaded, t[j]);
    if i < j {
      TouchedArraysAreOrdered(q, amountIn, i, j - 1);
      assert LastIndex(q.loaded, q.bands[j - 1].0) <= LastIndex(q.loaded, q.bands[j].0);
    }
  }
}
