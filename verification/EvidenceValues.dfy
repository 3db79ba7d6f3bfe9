/**
 The loosely typed evidence of the sender-free gate: fields that may be absent, null, booleans,
 integers or strings, with Python's comparisons. A boolean is an integer to arithmetic and to
 `==`, and a mixed comparison raises.
 */
module EvidenceValues {
  import opened Wrappers
  import opened StringOrder
  import opened Texts

  datatype Value = Null | Bool(flag: bool) | Int(number: int) | Str(text: string)

  datatype Raised = TypeError

  datatype Field =
    | LiveExecutionRequested | SignerRequested | SenderRequested
    | SenderNamespaceReachable | SignerNamespaceReachable | PrivateKeyReachable | NetworkSubmissionReachable
    | InstalledArtifactHash | CompositionRootHash | DurableShadowTraceHash | ReplayBundleHash
    | EndedNs | StartedNs | NonSyntheticCycleCount | RestartDrillCount | ProviderDegradationDrillCount
    | DeterministicReplayPassed | DurableTraceMaterialized | CompiledFromInstalledArtifact
    | ExactSimulationReplayed | EconomicsReconciled
    | ReleaseId | PlanId | WalletPubkey | DurableReservationId
    | ClusterGenesisHash | ProtocolRegistryHash | ProviderGenerationHash | BuildArtifactHash
    | PrincipalLamports | FlashFeeLamports | MinimumProfitLamports | MaxSlippageBps
    | MessageHash | MessageBytesHash | AccountMetaHash | AltSnapshotHash | RecentBlockhash
    | CurrentBlockHeight | LastValidBlockHeight | SafetyMarginBlocks | ObservedContextSlot | MinContextSlot
    | UnsignedTransactionBytes | RequiredSignatureCount | MaxWireBytes
    | Role | Index | ProgramId | InstructionHash | AccountRolesHash | DecodedSemanticsHash
    | InputLamports | OutputLamports | RepaymentLamports
    | RequestHash | ResponseHash | PreAccountsHash | PostAccountsHash | LogsHash
    | SuccessFlag | ErrorCode | LocalSignatureVerificationPassed | UnitsConsumed | TotalTransactionFeeLamports
    | FailedLandingFeeLamports | RentCreateLamports | PriorityFeeLamports | JitoTipLamports
    | TokenTransferFeeLamports | ContingencyLamports | RentRefundLamports | GuaranteedLegBOutputLamports

  type Mapping = map<Field, Value>

  /** mapping.get(key, default) */
  function GetOr(m: Mapping, key: Field, default: Value): Value {
    if key in m then m[key] else default
  }

  function Get(m: Mapping, key: Field): Value {
    GetOr(m, key, Null)
  }

  function Number(v: Value): Option<int> {
    match v
    case Bool(b) => Some(if b then 1 else 0)
    case Int(n) => Some(n)
    case _ => None
  }

  /** `==` */
  predicate Same(a: Value, b: Value) {
    a == b || (Number(a).Some? && Number(a) == Number(b))
  }

  predicate Truthy(v: Value) {
    match v
    case Null => false
    case Bool(b) => b
    case Int(n) => n != 0
    case Str(s) => s != ""
  }

  function Plus(a: Value, b: Value): Result<Value, Raised> {
    if Number(a).Some? && Number(b).Some? then Success(Int(Number(a).value + Number(b).value))
    else if a.Str? && b.Str? then Success(Str(a.text + b.text))
    else Failure(TypeError)
  }

  function Minus(a: Value, b: Value): Result<Value, Raised> {
    if Number(a).Some? && Number(b).Some? then Success(Int(Number(a).value - Number(b).value))
    else Failure(TypeError)
  }

  predicate Comparable(a: Value, b: Value) {
    (Number(a).Some? && Number(b).Some?) || (a.Str? && b.Str?)
  }

  /** `<` on two comparable values */
  predicate Below(a: Value, b: Value) {
    if a.Str? && b.Str? then Less(a.text, b.text)
    else Number(a).Some? && Number(b).Some? && Number(a).value < Number(b).value
  }

  function IsBelow(a: Value, b: Value): Result<bool, Raised> {
    if Comparable(a, b) then Success(Below(a, b)) else Failure(TypeError)
  }

  function IsAtLeast(a: Value, b: Value): Result<bool, Raised> {
    if Comparable(a, b) then Success(!Below(a, b)) else Failure(TypeError)
  }

  /** A non-negative integer; a boolean does not pass. */
  predicate IsUint(v: Value) {
    v.Int? && v.number >= 0
  }

  predicate IsPositive(v: Value) {
    IsUint(v) && v.number > 0
  }

  predicate IsHash(v: Value) {
    v.Str? && IsLowerHex(v.text, 64)
  }

  predicate IsWordCharacter(c: char) {
    'a' <= c <= 'z' || 'A' <= c <= 'Z' || '0' <= c <= '9'
  }

  predicate IsMark(c: char) {
    c == '.' || c == '_' || c == ':' || c == '/' || c == '@' || c == '+' || c == '-'
  }

  predicate IsSafe(v: Value) {
    v.Str? && 1 <= |v.text| <= 128 && IsWordCharacter(v.text[0])
    && forall i :: 1 <= i < |v.text| ==> IsWordCharacter(v.text[i]) || IsMark(v.text[i])
  }

  function Digit(d: int): char
    requires 0 <= d < 10
  {
    (d + 48) as char
  }

  function Digits(n: nat): string {
    if n < 10 then [Digit(n)] else Digits(n / 10) + [Digit(n % 10)]
  }

  /** str(v) */
  function Text(v: Value): string {
    match v
    case Null => "None"
    case Bool(b) => if b then "True" else "False"
    case Int(n) => if n < 0 then "-" + Digits(-n) else Digits(n)
    case Str(s) => s
  }

  // ----- sorted(items, key=...) -----

  function KeyOf(item: Mapping): Value {
    GetOr(item, Index, Int(-1))
  }

  /** Sorting compares keys, so it raises unless all are numbers or all are strings. */
  predicate Sortable(items: seq<Mapping>) {
    || |items| < 2
    || (forall i :: 0 <= i < |items| ==> Number(KeyOf(items[i])).Some?)
    || (forall i :: 0 <= i < |items| ==> KeyOf(items[i]).Str?)
  }

  predicate NotAfter(a: Mapping, b: Mapping) {
    !Below(KeyOf(b), KeyOf(a))
  }

  predicate Ascending(items: seq<Mapping>) {
    forall i, j :: 0 <= i < j < |items| ==> NotAfter(items[i], items[j])
  }

  function Insert(x: Mapping, items: seq<Mapping>): seq<Mapping> {
    if items == [] || NotAfter(x, items[0]) then [x] + items
    else [items[0]] + Insert(x, items[1..])
  }

  /** The stable sort by index. */
  function SortByIndex(items: seq<Mapping>): seq<Mapping> {
    if items == [] then [] else Insert(items[0], SortByIndex(items[1..]))
  }

  lemma {:induction false} InsertKeepsItems(x: Mapping, items: seq<Mapping>)
    ensures multiset(Insert(x, items)) == multiset{x} + multiset(items)
  {
    if items != [] && !NotAfter(x, items[0]) {
      InsertKeepsItems(x, items[1..]);
      assert items == [items[0]] + items[1..];
    }
  }

  lemma {:induction false} SortKeepsItems(items: seq<Mapping>)
    ensures multiset(SortByIndex(items)) == multiset(items)
  {
    if items != [] {
      SortKeepsItems(items[1..]);
      InsertKeepsItems(items[0], SortByIndex(items[1..]));
      assert items == [items[0]] + items[1..];
    }
  }

  predicate SameKind(items: seq<Mapping>) {
    || (forall x :: x in items ==> Number(KeyOf(x)).Some?)
    || (forall x :: x in items ==> KeyOf(x).Str?)
  }

  lemma NotAfterTransitive(a: Mapping, b: Mapping, c: Mapping)
    requires SameKind([a, b, c]) && NotAfter(a, b) && NotAfter(b, c)
    ensures NotAfter(a, c)
  {
    assert a in [a, b, c] && b in [a, b, c] && c in [a, b, c];
    var x, y, z := KeyOf(a), KeyOf(b), KeyOf(c);
    if x.Str? && y.Str? && z.Str? && Less(z.text, x.text) {
      LessTotal(x.text, y.text);
      if x == y {
      } else {
        LessTransitive(z.text, x.text, y.text);
      }
    }
  }

  lemma NotAfterTotal(a: Mapping, b: Mapping)
    ensures NotAfter(a, b) || NotAfter(b, a)
  {
    var x, y := KeyOf(a), KeyOf(b);
    if x.Str? && y.Str? && Less(x.text, y.text) && Less(y.text, x.text) {
      LessTransitive(x.text, y.text, x.text);
      LessIrreflexive(x.text);
    }
  }

  lemma {:induction false} InsertAscends(x: Mapping, items: seq<Mapping>)
    requires Ascending(items) && SameKind([x] + items)
    ensures Ascending(Insert(x, items))
  {
    assert x in [x] + items && forall y :: y in items ==> y in [x] + items;
    if items == [] {
    } else if NotAfter(x, items[0]) {
      forall j | 0 <= j < |items| ensures NotAfter(x, items[j]) {
        if j > 0 {
          NotAfterTransitive(x, items[0], items[j]);
        }
      }
    } else {
      assert forall y :: y in [x] + items[1..] ==> y in [x] + items;
      InsertAscends(x, items[1..]);
      InsertKeepsItems(x, items[1..]);
      NotAfterTotal(x, items[0]);
      var rest := Insert(x, items[1..]);
      forall j | 0 <= j < |rest| ensures NotAfter(items[0], rest[j]) {
        assert rest[j] in multiset(rest);
        if rest[j] != x {
          assert rest[j] in items[1..];
          var i :| 0 <= i < |items[1..]| && items[1..][i] == rest[j];
          assert NotAfter(items[0], items[i + 1]);
        }
      }
    }
  }

  lemma {:induction false} SortAscends(items: seq<Mapping>)
    requires SameKind(items)
    ensures Ascending(SortByIndex(items))
  {
    if items != [] {
      SortAscends(items[1..]);
      SortKeepsItems(items[1..]);
      var rest := SortByIndex(items[1..]);
      forall y | y in [items[0]] + rest ensures y in items {
        assert y != items[0] ==> y in multiset(rest);
      }
      InsertAscends(items[0], rest);
    }
  }

  /** An ascending list is left as it is. */
  lemma {:induction false} SortOfAscending(items: seq<Mapping>)
    requires Ascending(items)
    ensures SortByIndex(items) == items
  {
    if items != [] {
      SortOfAscending(items[1..]);
      assert |items| > 1 ==> NotAfter(items[0], items[1]);
      assert items == [items[0]] + items[1..];
    }
  }

  /** The instructions at this index, in their order. */
  function AtIndex(items: seq<Mapping>, index: Value): seq<Mapping> {
    if items == [] then []
    else (if Same(KeyOf(items[0]), index) then [items[0]] else []) + AtIndex(items[1..], index)
  }

  lemma SameIndexIsNotBelow(a: Mapping, b: Mapping, index: Value)
    requires Same(KeyOf(a), index) && Same(KeyOf(b), index)
    ensures !Below(KeyOf(a), KeyOf(b))
  {
    if KeyOf(a).Str? {
      LessIrreflexive(KeyOf(a).text);
    }
  }

  lemma AtIndexCons(x: Mapping, rest: seq<Mapping>, index: Value)
    ensures AtIndex([x] + rest, index) == (if Same(KeyOf(x), index) then [x] else []) + AtIndex(rest, index)
  {
    assert ([x] + rest)[1..] == rest;
  }

  lemma NotBothAtIndex(x: Mapping, y: Mapping, index: Value)
    requires !NotAfter(x, y)
    ensures !(Same(KeyOf(x), index) && Same(KeyOf(y), index))
  {
    if Same(KeyOf(x), index) && Same(KeyOf(y), index) {
      SameIndexIsNotBelow(y, x, index);
    }
  }

  lemma {:induction false} InsertIsStable(x: Mapping, items: seq<Mapping>, index: Value)
    ensures AtIndex(Insert(x, items), index) == AtIndex([x] + items, index)
  {
    if items != [] && !NotAfter(x, items[0]) {
      var y, rest := items[0], items[1..];
      InsertIsStable(x, rest, index);
      NotBothAtIndex(x, y, index);
      assert items == [y] + rest;
      AtIndexCons(x, items, index);
      AtIndexCons(y, rest, index);
      AtIndexCons(x, rest, index);
      AtIndexCons(y, Insert(x, rest), index);
    }
  }

  /** Instructions at one index stay in the order they came in. */
  lemma {:induction false} SortIsStable(items: seq<Mapping>, index: Value)
    ensures AtIndex(SortByIndex(items), index) == AtIndex(items, index)
  {
    if items != [] {
      SortIsStable(items[1..], index);
      InsertIsStable(items[0], SortByIndex(items[1..]), index);
      assert ([items[0]] + SortByIndex(items[1..]))[1..] == SortByIndex(items[1..]);
    }
  }

  // ----- str(v) -----

  /** The number a decimal text stands for. */
  function Decimal(s: string): int {
    if s == "" then 0 else 10 * Decimal(s[..|s| - 1]) + (s[|s| - 1] as int - '0' as int)
  }

  /** Digits are the decimal digits of the number, without leading zeros. */
  lemma {:induction false} DigitsAreDecimal(n: nat)
    ensures Digits(n) != "" && Decimal(Digits(n)) == n && (n > 0 ==> Digits(n)[0] != '0')
    ensures forall i :: 0 <= i < |Digits(n)| ==> '0' <= Digits(n)[i] <= '9'
  {
    if n >= 10 {
      DigitsAreDecimal(n / 10);
      assert Digits(n)[..|Digits(n)| - 1] == Digits(n / 10);
    } else {
      assert Digits(n)[..0] == "";
    }
  }

  /** How a value is written out. */
  lemma TextsAre(v: Value)
    ensures v == Null ==> Text(v) == "None"
    ensures v == Bool(true) ==> Text(v) == "True"
    ensures v == Bool(false) ==> Text(v) == "False"
    ensures v.Int? && v.number >= 0 ==> Text(v) == Digits(v.number) && Decimal(Text(v)) == v.number
    ensures v.Int? && v.number < 0 ==>
              && Text(v) != "" && Text(v)[0] == '-' && Text(v)[1..] == Digits(-v.number)
              && Decimal(Text(v)[1..]) == -v.number
    ensures v.Str? ==> Text(v) == v.text
  {
    if v.Int? {
      DigitsAreDecimal(if v.number < 0 then -v.number else v.number);
    }
  }

  /** An instruction without an index stands where -1 would. */
  lemma AbsentIndexIsMinusOne(a: Mapping, b: Mapping)
    requires Index !in a && Index in b && b[Index].Int?
    ensures NotAfter(a, b) <==> -1 <= b[Index].number
    ensures NotAfter(b, a) <==> b[Index].number <= -1
  {
  }

  lemma SortableMeansSameKind(items: seq<Mapping>)
    requires Sortable(items) && |items| >= 2
    ensures SameKind(items)
  {
  }
}
