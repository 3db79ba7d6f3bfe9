/**
 The concentrated-liquidity quote: tick arrays in loaded order, bands consumed from the front,
 the pool fee taken before and the transfer fee after.
 */
module ClmmQuote {
  import opened Texts
  import opened Wrappers
  import TransferFee

  const PPM := 1_000_000

  /** A decoded band; its constructor refuses anything below one. */
  datatype Band = Band(capacityIn: int, numerator: int, denominator: int)

  predicate IsBand(b: Band) {
    1 <= b.capacityIn <= TransferFee.U64_MAX && 1 <= b.numerator <= TransferFee.U64_MAX
    && 1 <= b.denominator <= TransferFee.U64_MAX
  }

  type Placed = p: (string, Band) | IsBand(p.1) witness ("", Band(1, 1, 1))

  datatype Family = RaydiumClmm | Orca | OtherFamily

  datatype Error =
    | InvalidInteger | InvalidText | InvalidHash | EvidenceFromFuture | EvidenceStale | FamilyInvalid | LicenseBlocked
    | TickArrayMissing | BandsEmpty | ArrayOrderInvalid | CoverageInsufficient
    | TransferRefused(error: TransferFee.Error)

  datatype Evidence = Evidence(
    generation: string, stateHash: string, observedAt: int, expiresAt: int,
    vectorHash: Option<string>, licenseDecision: Option<string>)

  const APPROVED := "APPROVED"

  datatype Request = Request(
    family: Family, bands: seq<Placed>, required: seq<string>, loaded: seq<string>, feePpm: int,
    evidence: Evidence, marketId: string, direction: string, now: int, reference: Option<int>,
    token: TransferFee.Token2022)

  /** What a traversal consumed: the output, the pool fee, and how many bands from the front. */
  datatype Traversed = Traversed(output: int, fee: int, touched: nat)

  /** The ideal digests a quote carries, named by what is hashed. */
  datatype Digest =
    | StateDigest(family: Family, stateHash: string, amountIn: int, touched: seq<string>)
    | BasisDigest(family: Family, marketId: string, direction: string)

  datatype Quote = Quote(
    amountIn: int, amountOut: int, fee: int, transferFee: int, touched: seq<string>,
    stateHash: Digest, marketId: string, basis: Digest, offlineVerified: bool, needsVector: bool)

  // ----- Array order -----

  /** The position a name gets in the order table: its last one. */
  function LastIndex(names: seq<string>, name: string): int {
    if names == [] then -1
    else if names[|names| - 1] == name then |names| - 1
    else LastIndex(names[..|names| - 1], name)
  }

  predicate IsOrdered(bands: seq<Placed>, loaded: seq<string>) {
    && (forall i :: 0 <= i < |bands| ==> LastIndex(loaded, bands[i].0) >= 0)
    && (forall i :: 0 < i < |bands| ==> LastIndex(loaded, bands[i - 1].0) <= LastIndex(loaded, bands[i].0))
  }

  function BandsOf(bands: seq<Placed>): (r: seq<Band>)
    ensures |r| == |bands| && forall i :: 0 <= i < |r| ==> r[i] == bands[i].1 && IsBand(r[i])
  {
    if bands == [] then [] else BandsOf(bands[..|bands| - 1]) + [bands[|bands| - 1].1]
  }

  lemma {:induction false} LastIndexIs(names: seq<string>, name: string)
    ensures LastIndex(names, name) < |names|
    ensures LastIndex(names, name) >= 0 <==> name in names
    ensures LastIndex(names, name) >= 0 ==> names[LastIndex(names, name)] == name
    ensures forall k :: LastIndex(names, name) < k < |names| && 0 <= k ==> names[k] != name
  {
    if names != [] {
      LastIndexIs(names[..|names| - 1], name);
      assert names == names[..|names| - 1] + [names[|names| - 1]];
    }
  }

  method OrderOf(loaded: seq<string>) returns (order: map<string, int>)
    ensures forall name :: name in order <==> LastIndex(loaded, name) >= 0
    ensures forall name :: name in order ==> order[name] == LastIndex(loaded, name)
  {
    order := map[];
    for n := 0 to |loaded|
      invariant forall name :: name in order <==> LastIndex(loaded[..n], name) >= 0
      invariant forall name :: name in order ==> order[name] == LastIndex(loaded[..n], name)
    {
      assert loaded[..n + 1][..n] == loaded[..n];
      order := order[loaded[n] := n];
    }
    assert loaded[..|loaded|] == loaded;
  }

  /** Band `n` is loaded, and no earlier than the band before it. */
  predicate IsInOrder(bands: seq<Placed>, loaded: seq<string>, n: nat)
    requires n < |bands|
  {
    && LastIndex(loaded, bands[n].0) >= 0
    && (n > 0 ==> LastIndex(loaded, bands[n - 1].0) <= LastIndex(loaded, bands[n].0))
  }

  lemma OrderedSnoc(bands: seq<Placed>, loaded: seq<string>, n: nat)
    requires n < |bands|
    ensures IsOrdered(bands[..n + 1], loaded) <==> IsOrdered(bands[..n], loaded) && IsInOrder(bands, loaded, n)
    ensures BandsOf(bands[..n + 1]) == BandsOf(bands[..n]) + [bands[n].1]
    ensures IsOrdered(bands, loaded) ==> IsInOrder(bands, loaded, n)
  {
    assert bands[..n + 1][..n] == bands[..n];
    assert forall i :: 0 <= i <= n ==> bands[..n + 1][i] == bands[i];
    assert forall i :: 0 <= i < n ==> bands[..n][i] == bands[i];
  }

  /** Accepts the bands exactly when every array is loaded and they come in loaded order. */
  method DecodeInOrder(bands: seq<Placed>, loaded: seq<string>) returns (r: Result<seq<Band>, Error>)
    ensures r.Success? <==> IsOrdered(bands, loaded)
    ensures r == if IsOrdered(bands, loaded) then Success(BandsOf(bands)) else Failure(ArrayOrderInvalid)
  {
    var order := OrderOf(loaded);
    var last := -1;
    var decoded: seq<Band> := [];
    for n := 0 to |bands|
      invariant IsOrdered(bands[..n], loaded) && decoded == BandsOf(bands[..n])
      invariant last == if n == 0 then -1 else LastIndex(loaded, bands[n - 1].0)
    {
      var name := bands[n].0;
      OrderedSnoc(bands, loaded, n);
      if name !in order || order[name] < last {
        assert !IsInOrder(bands, loaded, n);
        return Failure(ArrayOrderInvalid);
      }
      last := order[name];
      decoded := decoded + [bands[n].1];
    }
    assert bands[..|bands|] == bands;
    return Success(decoded);
  }

  // ----- Traversal -----

  function Capacity(bands: seq<Band>): int {
    if bands == [] then 0 else Capacity(bands[..|bands| - 1]) + bands[|bands| - 1].capacityIn
  }

  /** What the band pays for `take` of its input, rounded down. */
  function Pays(b: Band, take: int): int
    requires IsBand(b)
  {
    take * b.numerator / b.denominator
  }

  predicate AllBands(bands: seq<Band>) {
    forall i :: 0 <= i < |bands| ==> IsBand(bands[i])
  }

  /** The output when `input` enters the bands from the front. */
  function Output(bands: seq<Band>, input: int): int
    requires AllBands(bands)
  {
    if bands == [] then 0
    else
      var init, last := bands[..|bands| - 1], bands[|bands| - 1];
      var left := input - Capacity(init);
      Output(init, input) + if left > 0 then Pays(last, TransferFee.Min(left, last.capacityIn)) else 0
  }

  /** How many bands `input` reaches. */
  function Touched(bands: seq<Band>, input: int): (n: nat)
    ensures n <= |bands|
  {
    if bands == [] then 0
    else Touched(bands[..|bands| - 1], input) + if input > Capacity(bands[..|bands| - 1]) then 1 else 0
  }

  function PoolFee(amountIn: int, feePpm: int): Result<int, Error> {
    if !TransferFee.IsStrictInt(amountIn) || !TransferFee.IsStrictInt(feePpm) then Failure(CoverageInsufficient)
    else
      match TransferFee.CeilDiv(amountIn * feePpm, PPM)
      case Success(fee) => Success(fee)
      case Failure(_) => Failure(CoverageInsufficient)
  }

  function Traverse(amountIn: int, bands: seq<Band>, feePpm: int): Result<Traversed, Error>
    requires AllBands(bands)
  {
    if amountIn < 1 || bands == [] then Failure(CoverageInsufficient)
    else
      var fee :- PoolFee(amountIn, feePpm);
      var input := amountIn - fee;
      if input <= 0 then Success(Traversed(0, fee, 0))
      else if Capacity(bands) < input then Failure(CoverageInsufficient)
      else Success(Traversed(Output(bands, input), fee, Touched(bands, input)))
  }

  lemma {:induction false} CapacityGrows(bands: seq<Band>, n: nat)
    requires AllBands(bands) && n <= |bands|
    ensures n <= Capacity(bands[..n]) <= Capacity(bands)
    ensures n < |bands| ==> Capacity(bands[..n]) < Capacity(bands)
    decreases |bands|
  {
    var init := if bands == [] then [] else bands[..|bands| - 1];
    if n == |bands| {
      assert bands[..n] == bands;
      if n > 0 {
        CapacityGrows(init, n - 1);
        assert init[..n - 1] == init;
      }
    } else {
      CapacityGrows(init, n);
      assert bands[..n] == init[..n];
    }
  }

  /** Bands past the point where the input runs out add nothing. */
  lemma {:induction false} RestIsUntouched(bands: seq<Band>, input: int, n: nat)
    requires AllBands(bands) && n <= |bands| && input <= Capacity(bands[..n])
    ensures Output(bands, input) == Output(bands[..n], input) && Touched(bands, input) == Touched(bands[..n], input)
    decreases |bands|
  {
    if n == |bands| {
      assert bands[..n] == bands;
    } else {
      var init := bands[..|bands| - 1];
      assert bands[..n] == init[..n];
      CapacityGrows(init, n);
      RestIsUntouched(init, input, n);
    }
  }

  lemma CapacitySnoc(bands: seq<Band>, n: nat)
    requires n < |bands|
    ensures Capacity(bands[..n + 1]) == Capacity(bands[..n]) + bands[n].capacityIn
  {
    assert bands[..n + 1][..n] == bands[..n];
  }

  lemma OutputSnoc(bands: seq<Band>, n: nat, input: int)
    requires AllBands(bands) && n < |bands| && input > Capacity(bands[..n])
    ensures Output(bands[..n + 1], input) ==
            Output(bands[..n], input)
            + Pays(bands[n], TransferFee.Min(input - Capacity(bands[..n]), bands[n].capacityIn))
    ensures Touched(bands[..n + 1], input) == Touched(bands[..n], input) + 1
  {
    assert bands[..n + 1][..n] == bands[..n];
  }

  method TraverseBands(amountIn: int, bands: seq<Band>, feePpm: int) returns (r: Result<Traversed, Error>)
    requires AllBands(bands)
    ensures r == Traverse(amountIn, bands, feePpm)
  {
    if amountIn < 1 || bands == [] {
      return Failure(CoverageInsufficient);
    }
    var fee :- PoolFee(amountIn, feePpm);
    var remaining := amountIn - fee;
    if remaining <= 0 {
      return Success(Traversed(0, fee, 0));
    }
    ghost var input := remaining;
    var output, used := 0, 0;
    while used < |bands| && remaining > 0
      invariant 0 <= used <= |bands| && 0 <= remaining
      invariant remaining > 0 ==> remaining == input - Capacity(bands[..used])
      invariant remaining == 0 ==> input <= Capacity(bands[..used])
      invariant output == Output(bands[..used], input) && used == Touched(bands[..used], input)
    {
      var band := bands[used];
      CapacitySnoc(bands, used);
      OutputSnoc(bands, used, input);
      var take := TransferFee.Min(remaining, band.capacityIn);
      output := output + take * band.numerator / band.denominator;
      remaining := remaining - take;
      used := used + 1;
    }
    if remaining > 0 {
      assert bands[..used] == bands;
      return Failure(CoverageInsufficient);
    }
    CapacityGrows(bands, used);
    RestIsUntouched(bands, input, used);
    return Success(Traversed(output, fee, used));
  }

  // ----- The quote -----

  predicate IsHexDigit(c: char) {
    IsLowerHexDigit(c) || 'A' <= c <= 'F'
  }

  /** 64 hexadecimal digits, not all zero. */
  predicate IsDigest(s: string) {
    && |s| == 64 && (forall i :: 0 <= i < |s| ==> IsHexDigit(s[i]))
    && exists i :: 0 <= i < |s| && s[i] != '0'
  }

  function EvidenceError(e: Evidence, now: int): Option<Error> {
    if !IsNonempty(e.generation) then Some(InvalidText)
    else if !IsDigest(e.stateHash) || (e.vectorHash.Some? && !IsDigest(e.vectorHash.value)) then Some(InvalidHash)
    else if e.observedAt < 0 || e.expiresAt <= 0 || now < 0 then Some(InvalidInteger)
    else if e.observedAt > now then Some(EvidenceFromFuture)
    else if e.expiresAt <= e.observedAt || now >= e.expiresAt then Some(EvidenceStale)
    else None
  }

  predicate AllLoaded(required: seq<string>, loaded: seq<string>) {
    forall i :: 0 <= i < |required| ==> required[i] in loaded
  }

  /** The checks that come before the bands are looked at. */
  function AdmissionError(q: Request, amountIn: int): Option<Error> {
    if amountIn <= 0 then Some(InvalidInteger)
    else if !IsNonempty(q.marketId) || !IsNonempty(q.direction) then Some(InvalidText)
    else if EvidenceError(q.evidence, q.now).Some? then EvidenceError(q.evidence, q.now)
    else if q.family.OtherFamily? then Some(FamilyInvalid)
    else if q.family.Orca? && q.evidence.licenseDecision != Some(APPROVED) then Some(LicenseBlocked)
    else if !AllLoaded(q.required, q.loaded) then Some(TickArrayMissing)
    else if q.bands == [] then Some(BandsEmpty)
    else if !IsOrdered(q.bands, q.loaded) then Some(ArrayOrderInvalid)
    else None
  }

  function Names(bands: seq<Placed>, n: nat): (r: seq<string>)
    requires n <= |bands|
    ensures |r| == n && forall i :: 0 <= i < n ==> r[i] == bands[i].0
  {
    if n == 0 then [] else Names(bands, n - 1) + [bands[n - 1].0]
  }

  function QuoteClmm(q: Request, amountIn: int): Result<Quote, Error> {
    if AdmissionError(q, amountIn).Some? then Failure(AdmissionError(q, amountIn).value)
    else
      var gross :- Traverse(amountIn, BandsOf(q.bands), q.feePpm);
      match TransferFee.AfterFee(gross.output, q.token)
      case Failure(e) => Failure(TransferRefused(e))
      case Success(taken) =>
        var unmatched, touched := q.reference != Some(taken.net), Names(q.bands, gross.touched);
        Success(Quote(amountIn, taken.net, gross.fee, taken.fee, touched,
                      StateDigest(q.family, q.evidence.stateHash, amountIn, touched), q.marketId,
                      BasisDigest(q.family, q.marketId, q.direction),
                      !unmatched && q.evidence.vectorHash.Some?, unmatched))
  }

  method MakeQuote(q: Request, amountIn: int) returns (r: Result<Quote, Error>)
    ensures r == QuoteClmm(q, amountIn)
  {
    if amountIn <= 0 {
      return Failure(InvalidInteger);
    }
    if !IsNonempty(q.marketId) || !IsNonempty(q.direction) {
      return Failure(InvalidText);
    }
    var evidence := EvidenceError(q.evidence, q.now);
    if evidence.Some? {
      return Failure(evidence.value);
    }
    if q.family == OtherFamily {
      return Failure(FamilyInvalid);
    }
    if q.family == Orca && q.evidence.licenseDecision != Some(APPROVED) {
      return Failure(LicenseBlocked);
    }
    if !AllLoaded(q.required, q.loaded) {
      return Failure(TickArrayMissing);
    }
    if q.bands == [] {
      return Failure(BandsEmpty);
    }
    var decoded :- DecodeInOrder(q.bands, q.loaded);
    var gross :- TraverseBands(amountIn, decoded, q.feePpm);
    var taken := TransferFee.ApplyTransferFee(gross.output, q.token);
    if taken.Failure? {
      return Failure(TransferRefused(taken.error));
    }
    var unmatched := q.reference != Some(taken.value.net);
    var touched := Names(q.bands, gross.touched);
    return Success(Quote(amountIn, taken.value.net, gross.fee, taken.value.fee, touched,
                         StateDigest(q.family, q.evidence.stateHash, amountIn, touched), q.marketId,
                         BasisDigest(q.family, q.marketId, q.direction),
                         !unmatched && q.evidence.vectorHash.Some?, unmatched));
  }
}
