/**
 Merging requirement locks: pinned lines keyed by canonical project name (PEP 503, "Normalized
 Names"), with the project's own pins taking precedence and any other disagreement an error.
 */
module LockMerge {
  import opened Wrappers
  import opened StringOrder
  import opened Texts

  datatype Error =
    | UnexpectedRequirement(line: string)
    | DirectNotExact(value: string)
    | TransitiveConflict(name: string)

  type Pins = map<string, string>

  // ----- Names and pins -----

  predicate IsSeparator(c: char) {
    c == '-' || c == '_' || c == '.'
  }

  function Lower(c: char): char {
    if 'A' <= c <= 'Z' then (c as int + 32) as char else c
  }

  /** Every run of separators becomes one dash, and letters become lower case. */
  function CanonicalName(s: string): string {
    if s == "" then ""
    else
      var init, last := CanonicalName(s[..|s| - 1]), s[|s| - 1];
      if !IsSeparator(last) then init + [Lower(last)]
      else if init != "" && init[|init| - 1] == '-' then init
      else init + "-"
  }

  predicate IsNameCharacter(c: char) {
    'A' <= c <= 'Z' || 'a' <= c <= 'z' || '0' <= c <= '9' || IsSeparator(c)
  }

  /** How many leading characters pass, from `i` on. */
  function Run(s: string, i: nat, passes: char -> bool): (j: nat)
    requires i <= |s|
    ensures i <= j <= |s|
    decreases |s| - i
  {
    if i < |s| && passes(s[i]) then Run(s, i + 1, passes) else i
  }

  predicate IsExtraCharacter(c: char) {
    IsNameCharacter(c) || c == ','
  }

  /** Past an optional bracketed list of extras, if one starts at `i`. */
  function PastExtras(s: string, i: nat): (j: nat)
    requires i <= |s|
    ensures i <= j <= |s|
  {
    if i < |s| && s[i] == '[' then
      var j := Run(s, i + 1, IsExtraCharacter);
      if i + 1 < j < |s| && s[j] == ']' then j + 1 else i
    else i
  }

  /** No line break but, perhaps, the last character. */
  predicate IsOneLine(s: string) {
    forall i :: 0 <= i < |s| - 1 ==> s[i] != '\n'
  }

  /** The name of an exact pin: a name, optional extras, `==` and the start of a version. */
  function PinName(line: string): Option<string> {
    var n := Run(line, 0, IsNameCharacter);
    var v := PastExtras(line, n);
    if n > 0 && v + 2 < |line| && line[v] == '=' && line[v + 1] == '=' && !IsBlank(line[v + 2]) && line[v + 2] != ';'
       && IsOneLine(line)
    then Some(line[..n]) else None
  }

  function StripRight(s: string, drops: char -> bool): string {
    if s != "" && drops(s[|s| - 1]) then StripRight(s[..|s| - 1], drops) else s
  }

  function StripLeft(s: string, drops: char -> bool): string {
    if s != "" && drops(s[0]) then StripLeft(s[1..], drops) else s
  }

  function Strip(s: string): string {
    StripRight(StripLeft(s, IsBlank), IsBlank)
  }

  predicate IsTail(c: char) {
    c == ' ' || c == '\\'
  }

  predicate IsSkipped(line: string) {
    line == "" || line[0] == '#' || line[0] == '-'
  }

  /** The pins of a lock file; a name pinned twice keeps its last pin. */
  function ParsedPins(lines: seq<string>): Result<Pins, Error> {
    if lines == [] then Success(map[])
    else
      var pins :- ParsedPins(lines[..|lines| - 1]);
      var line := Strip(lines[|lines| - 1]);
      if IsSkipped(line) then Success(pins)
      else
        match PinName(line)
        case None => Failure(UnexpectedRequirement(line))
        case Some(name) => Success(pins[CanonicalName(name) := StripRight(line, IsTail)])
  }

  /** The project's own requirements, every one of which must be an exact pin. */
  function DirectPins(values: seq<string>): Result<Pins, Error> {
    if values == [] then Success(map[])
    else
      var direct :- DirectPins(values[..|values| - 1]);
      var value := values[|values| - 1];
      match PinName(value)
      case None => Failure(DirectNotExact(value))
      case Some(name) => Success(direct[CanonicalName(name) := value])
  }

  function ComponentPins(locks: seq<seq<string>>): Result<seq<Pins>, Error> {
    if locks == [] then Success([])
    else
      var init :- ComponentPins(locks[..|locks| - 1]);
      var last :- ParsedPins(locks[|locks| - 1]);
      Success(init + [last])
  }

  // ----- The merge -----

  /** Every name any component pins. */
  ghost function Names(components: seq<Pins>): set<string> {
    set i, name | 0 <= i < |components| && name in components[i] :: name
  }

  /** The pins the components give a name. */
  ghost function Choices(components: seq<Pins>, name: string): set<string> {
    set i | 0 <= i < |components| && name in components[i] :: components[i][name]
  }

  /** Names without a direct pin on which components disagree. */
  ghost function Conflicts(components: seq<Pins>, direct: Pins): set<string> {
    set name | name in Names(components) && name !in direct && |Choices(components, name)| != 1
  }

  ghost predicate IsPinFor(components: seq<Pins>, direct: Pins, name: string, pin: string) {
    if name in direct then pin == direct[name] else Choices(components, name) == {pin}
  }

  ghost predicate IsMerged(components: seq<Pins>, direct: Pins, lines: seq<string>) {
    var names := Sorted(Names(components));
    |lines| == |names| && forall i :: 0 <= i < |lines| ==> IsPinFor(components, direct, names[i], lines[i])
  }

  /** The outcome: the first conflicting name, or one line for each name in ascending order. */
  ghost predicate IsOutcome(components: seq<Pins>, direct: Pins, r: Result<seq<string>, Error>) {
    var conflicts := Conflicts(components, direct);
    match r
    case Failure(e) => e.TransitiveConflict? && IsLeast(e.name, conflicts)
    case Success(lines) => conflicts == {} && IsMerged(components, direct, lines)
  }

  /** What merging the lock files of a project gives. */
  ghost predicate IsMergeOf(locks: seq<seq<string>>, values: seq<string>, r: Result<seq<string>, Error>) {
    match ComponentPins(locks)
    case Failure(e) => r == Failure(e)
    case Success(components) =>
      match DirectPins(values)
      case Failure(e) => r == Failure(e)
      case Success(direct) => IsOutcome(components, direct, r)
  }

  // ----- The loops -----

  method ParsePins(lines: seq<string>) returns (r: Result<Pins, Error>)
    ensures r == ParsedPins(lines)
  {
    var pins: Pins := map[];
    for n := 0 to |lines|
      invariant ParsedPins(lines[..n]) == Success(pins)
    {
      assert lines[..n + 1][..n] == lines[..n];
      var line := Strip(lines[n]);
      if !IsSkipped(line) {
        var name := PinName(line);
        if name.None? {
          ParseStops(lines, n + 1);
          return Failure(UnexpectedRequirement(line));
        }
        pins := pins[CanonicalName(name.value) := StripRight(line, IsTail)];
      }
    }
    assert lines[..|lines|] == lines;
    return Success(pins);
  }

  lemma {:induction false} ParseStops(lines: seq<string>, n: nat)
    requires n <= |lines| && ParsedPins(lines[..n]).Failure?
    ensures ParsedPins(lines) == ParsedPins(lines[..n])
    decreases |lines|
  {
    assert lines[..|lines|] == lines;
    if n < |lines| {
      var init := lines[..|lines| - 1];
      assert init[..n] == lines[..n];
      ParseStops(init, n);
    }
  }

  method DirectVersions(values: seq<string>) returns (r: Result<Pins, Error>)
    ensures r == DirectPins(values)
  {
    var direct: Pins := map[];
    for n := 0 to |values|
      invariant DirectPins(values[..n]) == Success(direct)
    {
      assert values[..n + 1][..n] == values[..n];
      var name := PinName(values[n]);
      if name.None? {
        DirectStops(values, n + 1);
        return Failure(DirectNotExact(values[n]));
      }
      direct := direct[CanonicalName(name.value) := values[n]];
    }
    assert values[..|values|] == values;
    return Success(direct);
  }

  lemma {:induction false} DirectStops(values: seq<string>, n: nat)
    requires n <= |values| && DirectPins(values[..n]).Failure?
    ensures DirectPins(values) == DirectPins(values[..n])
    decreases |values|
  {
    assert values[..|values|] == values;
    if n < |values| {
      var init := values[..|values| - 1];
      assert init[..n] == values[..n];
      DirectStops(init, n);
    }
  }

  ghost predicate IsCandidates(candidates: map<string, set<string>>, components: seq<Pins>) {
    && candidates.Keys == Names(components)
    && forall name :: name in candidates ==> candidates[name] == Choices(components, name)
  }

  /** Adds one component's pins, in any order, to the candidates. */
  method AddPins(candidates: map<string, set<string>>, pins: Pins) returns (r: map<string, set<string>>)
    ensures r.Keys == candidates.Keys + pins.Keys
    ensures forall name :: name in r ==>
                             r[name] == (if name in candidates then candidates[name] else {})
                                        + (if name in pins then {pins[name]} else {})
  {
    r := candidates;
    var rest := pins.Keys;
    while rest != {}
      invariant rest <= pins.Keys
      invariant forall name :: name in r <==> name in candidates || (name in pins && name !in rest)
      invariant forall name :: name in r ==>
                                 r[name] == (if name in candidates then candidates[name] else {})
                                            + (if name in pins && name !in rest then {pins[name]} else {})
    {
      var name :| name in rest;
      rest := rest - {name};
      r := r[name := (if name in r then r[name] else {}) + {pins[name]}];
    }
  }

  lemma NamesSnoc(components: seq<Pins>, pins: Pins)
    ensures Names(components + [pins]) == Names(components) + pins.Keys
  {
    var longer := components + [pins];
    assert longer[|components|] == pins;
    assert forall i :: 0 <= i < |components| ==> longer[i] == components[i];
  }

  lemma ChoicesSnoc(components: seq<Pins>, pins: Pins, name: string)
    ensures Choices(components + [pins], name) ==
            Choices(components, name) + if name in pins then {pins[name]} else {}
  {
    var longer := components + [pins];
    assert longer[|components|] == pins;
    assert forall i :: 0 <= i < |components| ==> longer[i] == components[i];
  }

  lemma CandidatesSnoc(
    candidates: map<string, set<string>>, components: seq<Pins>, pins: Pins, next: map<string, set<string>>)
    requires IsCandidates(candidates, components)
    requires next.Keys == candidates.Keys + pins.Keys
    requires forall name :: name in next ==>
                              next[name] == (if name in candidates then candidates[name] else {})
                                            + (if name in pins then {pins[name]} else {})
    ensures IsCandidates(next, components + [pins])
  {
    NamesSnoc(components, pins);
    forall name | name in next ensures next[name] == Choices(components + [pins], name) {
      ChoicesSnoc(components, pins, name);
      if name !in candidates {
        assert Choices(components, name) == {};
      }
    }
  }

  method ReadComponents(locks: seq<seq<string>>)
    returns (r: Result<map<string, set<string>>, Error>, ghost components: seq<Pins>)
    ensures match ComponentPins(locks)
            case Failure(e) => r == Failure(e)
            case Success(cs) => r.Success? && components == cs && IsCandidates(r.value, cs)
  {
    var candidates: map<string, set<string>> := map[];
    components := [];
    for n := 0 to |locks|
      invariant ComponentPins(locks[..n]) == Success(components) && IsCandidates(candidates, components)
    {
      assert locks[..n + 1][..n] == locks[..n];
      var pins := ParsePins(locks[n]);
      if pins.Failure? {
        ReadStops(locks, n + 1);
        return Failure(pins.error), components;
      }
      var next := AddPins(candidates, pins.value);
      CandidatesSnoc(candidates, components, pins.value, next);
      candidates, components := next, components + [pins.value];
    }
    assert locks[..|locks|] == locks;
    return Success(candidates), components;
  }

  lemma {:induction false} ReadStops(locks: seq<seq<string>>, n: nat)
    requires n <= |locks| && ComponentPins(locks[..n]).Failure?
    ensures ComponentPins(locks) == ComponentPins(locks[..n])
    decreases |locks|
  {
    assert locks[..|locks|] == locks;
    if n < |locks| {
      var init := locks[..|locks| - 1];
      assert init[..n] == locks[..n];
      ReadStops(init, n);
    }
  }

  lemma OneChoice(s: set<string>, pin: string)
    requires |s| == 1 && pin in s
    ensures s == {pin}
  {
    assert |s - {pin}| == 0;
  }

  /** The pin of one candidate, or None when it is a conflict. */
  method PinFor(choices: set<string>, direct: Pins, name: string, ghost components: seq<Pins>)
    returns (r: Option<string>)
    requires name in Names(components) && choices == Choices(components, name)
    ensures r.None? <==> name in Conflicts(components, direct)
    ensures r.Some? ==> IsPinFor(components, direct, name, r.value)
  {
    if name in direct {
      r := Some(direct[name]);
    } else if |choices| == 1 {
      var pin :| pin in choices;
      OneChoice(choices, pin);
      r := Some(pin);
    } else {
      r := None;
    }
  }

  /** The lines so far, with no conflict among their names. */
  ghost predicate MergedSoFar(components: seq<Pins>, direct: Pins, names: seq<string>, lines: seq<string>) {
    && |lines| <= |names|
    && forall i :: 0 <= i < |lines| ==>
                     names[i] !in Conflicts(components, direct) && IsPinFor(components, direct, names[i], lines[i])
  }

  lemma MergedSnoc(components: seq<Pins>, direct: Pins, names: seq<string>, lines: seq<string>, pin: string)
    requires MergedSoFar(components, direct, names, lines) && |lines| < |names|
    requires names[|lines|] !in Conflicts(components, direct)
    requires IsPinFor(components, direct, names[|lines|], pin)
    ensures MergedSoFar(components, direct, names, lines + [pin])
  {
  }

  /** The loop over the candidates in ascending order of name. */
  method MergeCandidates(candidates: map<string, set<string>>, direct: Pins, ghost components: seq<Pins>)
    returns (r: Result<seq<string>, Error>)
    requires IsCandidates(candidates, components)
    ensures IsOutcome(components, direct, r)
  {
    var names := SortNames(candidates.Keys);
    var lines: seq<string> := [];
    for n := 0 to |names|
      invariant |lines| == n && MergedSoFar(components, direct, names, lines)
    {
      assert names[n] in names;
      var pin := PinFor(candidates[names[n]], direct, names[n], components);
      if pin.None? {
        FirstConflict(components, direct, names, lines);
        return Failure(TransitiveConflict(names[n]));
      }
      MergedSnoc(components, direct, names, lines, pin.value);
      lines := lines + [pin.value];
    }
    NoConflict(components, direct, names, lines);
    return Success(lines);
  }

  lemma FirstConflict(components: seq<Pins>, direct: Pins, names: seq<string>, lines: seq<string>)
    requires names == Sorted(Names(components)) && MergedSoFar(components, direct, names, lines)
    requires |lines| < |names| && names[|lines|] in Conflicts(components, direct)
    ensures IsOutcome(components, direct, Failure(TransitiveConflict(names[|lines|])))
  {
    var n := |lines|;
    forall x | x in Conflicts(components, direct) && x != names[n] ensures Less(names[n], x) {
      assert x in names;
      var k :| 0 <= k < |names| && names[k] == x;
    }
  }

  lemma NoConflict(components: seq<Pins>, direct: Pins, names: seq<string>, lines: seq<string>)
    requires names == Sorted(Names(components)) && MergedSoFar(components, direct, names, lines)
    requires |lines| == |names|
    ensures IsOutcome(components, direct, Success(lines))
  {
    forall x ensures x !in Conflicts(components, direct) {
      if x in Names(components) {
        assert x in names;
        var k :| 0 <= k < |names| && names[k] == x;
      }
    }
  }

  /** Parse the component locks, then the project's pins, then merge. */
  method MergeLocks(locks: seq<seq<string>>, values: seq<string>) returns (r: Result<seq<string>, Error>)
    ensures IsMergeOf(locks, values, r)
  {
    var read, components := ReadComponents(locks);
    if read.Failure? {
      return Failure(read.error);
    }
    var direct := DirectVersions(values);
    if direct.Failure? {
      return Failure(direct.error);
    }
    r := MergeCandidates(read.value, direct.value, components);
  }

  // ----- Canonical names -----

  /** Lower case, with single dashes as the only separators. */
  predicate IsCanonical(s: string) {
    && (forall i :: 0 <= i < |s| ==> s[i] != '_' && s[i] != '.' && !('A' <= s[i] <= 'Z'))
    && (forall i :: 0 < i < |s| ==> !(s[i - 1] == '-' && s[i] == '-'))
  }

  lemma {:induction false} CanonicalNameIsCanonical(s: string)
    ensures IsCanonical(CanonicalName(s))
  {
    if s != "" {
      CanonicalNameIsCanonical(s[..|s| - 1]);
    }
  }

  /** Exactly the canonical names are their own canonical form. */
  lemma {:induction false} CanonicalIffFixed(s: string)
    ensures CanonicalName(s) == s <==> IsCanonical(s)
  {
    if s != "" {
      var init, last := s[..|s| - 1], s[|s| - 1];
      assert s == init + [last];
      CanonicalNameIsCanonical(s);
      if IsCanonical(s) {
        assert IsCanonical(init) by { assert forall i :: 0 <= i < |init| ==> init[i] == s[i]; }
        CanonicalIffFixed(init);
      }
    }
  }

  lemma CanonicalNameIsIdempotent(s: string)
    ensures CanonicalName(CanonicalName(s)) == CanonicalName(s)
  {
    CanonicalNameIsCanonical(s);
    CanonicalIffFixed(CanonicalName(s));
  }

  /** Every name a lock file is parsed into is canonical, so spellings of one project meet. */
  lemma {:induction false} ParsedNamesAreCanonical(lines: seq<string>)
    requires ParsedPins(lines).Success?
    ensures forall name :: name in ParsedPins(lines).value ==> IsCanonical(name) && CanonicalName(name) == name
  {
    if lines != [] {
      var init, line := lines[..|lines| - 1], Strip(lines[|lines| - 1]);
      ParsedNamesAreCanonical(init);
      if PinName(line).Some? {
        CanonicalNameIsCanonical(PinName(line).value);
        CanonicalNameIsIdempotent(PinName(line).value);
      }
    }
  }

  // ----- What the merge promises -----

  /** Components `i` and `j` pin the name differently, and the project does not pin it. */
  predicate Disagree(components: seq<Pins>, direct: Pins, name: string, i: int, j: int) {
    && 0 <= i < |components| && 0 <= j < |components| && name !in direct
    && name in components[i] && name in components[j] && components[i][name] != components[j][name]
  }

  lemma AnotherChoice(s: set<string>, pin: string)
    requires pin in s && |s| != 1
    ensures exists other :: other in s && other != pin
  {
    assert |s - {pin}| == |s| - 1 && |s| > 0;
    var other :| other in s - {pin};
  }

  lemma ConflictIff(components: seq<Pins>, direct: Pins, name: string)
    ensures name in Conflicts(components, direct) <==> exists i, j :: Disagree(components, direct, name, i, j)
  {
    var choices := Choices(components, name);
    if name in Conflicts(components, direct) {
      var i :| 0 <= i < |components| && name in components[i];
      assert components[i][name] in choices;
      AnotherChoice(choices, components[i][name]);
      var pin :| pin in choices && pin != components[i][name];
      var j :| 0 <= j < |components| && name in components[j] && components[j][name] == pin;
      assert Disagree(components, direct, name, i, j);
    }
    if i, j :| Disagree(components, direct, name, i, j) {
      assert components[i][name] in choices && components[j][name] in choices;
      if |choices| == 1 {
        OneChoice(choices, components[i][name]);
      }
    }
  }

  /** Merging fails exactly when some name without a direct pin has two different component pins. */
  lemma FailsIffDisagreement(components: seq<Pins>, direct: Pins, r: Result<seq<string>, Error>)
    requires IsOutcome(components, direct, r)
    ensures r.Failure? <==> exists name, i, j :: Disagree(components, direct, name, i, j)
  {
    if r.Failure? {
      ConflictIff(components, direct, r.error.name);
    }
    if name, i, j :| Disagree(components, direct, name, i, j) {
      ConflictIff(components, direct, name);
    }
  }

  /**
   On success there is one line for each name of the union of the components, in strictly
   ascending order of name: the direct pin, or the pin every component that has the name gives.
   */
  lemma MergedLines(components: seq<Pins>, direct: Pins, lines: seq<string>, names: seq<string>)
    requires IsOutcome(components, direct, Success(lines)) && names == Sorted(Names(components))
    ensures StrictlySorted(names) && |names| == |lines|
    ensures forall name :: name in names <==> exists i :: 0 <= i < |components| && name in components[i]
    ensures forall k :: 0 <= k < |lines| && names[k] in direct ==> lines[k] == direct[names[k]]
    ensures forall k, i :: 0 <= k < |lines| && names[k] !in direct && 0 <= i < |components| && names[k] in components[i]
                           ==> lines[k] == components[i][names[k]]
  {
    forall k, i | 0 <= k < |lines| && names[k] !in direct && 0 <= i < |components| && names[k] in components[i]
      ensures lines[k] == components[i][names[k]]
    {
      assert components[i][names[k]] in Choices(components, names[k]);
      assert IsPinFor(components, direct, names[k], lines[k]);
    }
  }

  lemma NamesByMember(a: seq<Pins>, b: seq<Pins>)
    requires forall x :: x in a ==> x in b
    ensures Names(a) <= Names(b)
    ensures forall name :: Choices(a, name) <= Choices(b, name)
  {
    forall i | 0 <= i < |a| ensures exists j :: 0 <= j < |b| && b[j] == a[i] {
      assert a[i] in b;
    }
  }

  /** Neither the order nor repetitions of the components change the lines or the conflict reported. */
  lemma OrderDoesNotMatter(
    a: seq<Pins>, b: seq<Pins>, direct: Pins, r: Result<seq<string>, Error>, t: Result<seq<string>, Error>)
    requires (forall x :: x in a <==> x in b) && IsOutcome(a, direct, r) && IsOutcome(b, direct, t)
    ensures r == t
  {
    NamesByMember(a, b);
    NamesByMember(b, a);
    assert Names(a) == Names(b);
    assert forall name :: Choices(a, name) == Choices(b, name);
    assert Conflicts(a, direct) == Conflicts(b, direct);
    OutcomeIsUnique(a, direct, r, t);
  }

  lemma OutcomeIsUnique(
    components: seq<Pins>, direct: Pins, r: Result<seq<string>, Error>, t: Result<seq<string>, Error>)
    requires IsOutcome(components, direct, r) && IsOutcome(components, direct, t)
    ensures r == t
  {
    if r.Failure? && t.Failure? && r.error.name != t.error.name {
      LessTransitive(r.error.name, t.error.name, r.error.name);
      LessIrreflexive(r.error.name);
    }
    if r.Success? && t.Success? {
      var names := Sorted(Names(components));
      forall k | 0 <= k < |names| ensures r.value[k] == t.value[k] {
        assert IsPinFor(components, direct, names[k], r.value[k]) && IsPinFor(components, direct, names[k], t.value[k]);
        assert names[k] !in direct ==> r.value[k] in Choices(components, names[k]);
      }
      assert r.value == t.value;
    }
  }

  // ----- Lock files -----

  /** The components are the parsed files, one for each. */
  lemma {:induction false} ComponentsAreParsedFiles(locks: seq<seq<string>>)
    requires ComponentPins(locks).Success?
    ensures |ComponentPins(locks).value| == |locks|
    ensures forall i :: 0 <= i < |locks| ==> ParsedPins(locks[i]) == Success(ComponentPins(locks).value[i])
  {
    if locks != [] {
      var init, n := locks[..|locks| - 1], |locks| - 1;
      ComponentsAreParsedFiles(init);
      assert forall i :: 0 <= i < n ==> locks[i] == init[i];
    }
  }

  lemma {:induction false} ParsedFilesAreComponents(locks: seq<seq<string>>)
    requires forall i :: 0 <= i < |locks| ==> ParsedPins(locks[i]).Success?
    ensures ComponentPins(locks).Success?
  {
    if locks != [] {
      ParsedFilesAreComponents(locks[..|locks| - 1]);
    }
  }

  /** A file among others that all parse is one of the components. */
  lemma FileIsComponent(l: seq<string>, other: seq<seq<string>>)
    requires l in other && ComponentPins(other).Success?
    ensures ParsedPins(l).Success? && ParsedPins(l).value in ComponentPins(other).value
  {
    ComponentsAreParsedFiles(other);
    var j :| 0 <= j < |other| && other[j] == l;
    assert ComponentPins(other).value[j] == ParsedPins(l).value;
  }

  lemma FilesDecideComponents(locks: seq<seq<string>>, other: seq<seq<string>>)
    requires forall l :: l in locks ==> l in other
    requires ComponentPins(other).Success?
    ensures ComponentPins(locks).Success?
    ensures forall x :: x in ComponentPins(locks).value ==> x in ComponentPins(other).value
  {
    forall i | 0 <= i < |locks|
      ensures ParsedPins(locks[i]).Success? && ParsedPins(locks[i]).value in ComponentPins(other).value
    {
      FileIsComponent(locks[i], other);
    }
    ParsedFilesAreComponents(locks);
    ComponentsAreParsedFiles(locks);
  }

  /**
   Reordering the lock files changes nothing of the merge but, when some file does not parse,
   which offending line is named.
   */
  lemma LockOrderDoesNotMatter(
    locks: seq<seq<string>>, other: seq<seq<string>>, values: seq<string>,
    r: Result<seq<string>, Error>, t: Result<seq<string>, Error>)
    requires multiset(locks) == multiset(other) && IsMergeOf(locks, values, r) && IsMergeOf(other, values, t)
    ensures ComponentPins(locks).Success? <==> ComponentPins(other).Success?
    ensures r.Success? <==> t.Success?
    ensures ComponentPins(locks).Success? ==> r == t
  {
    assert forall l :: l in locks <==> l in multiset(locks);
    assert forall l :: l in other <==> l in multiset(other);
    if ComponentPins(locks).Success? {
      FilesDecideComponents(other, locks);
    }
    if ComponentPins(other).Success? {
      FilesDecideComponents(locks, other);
      if DirectPins(values).Success? {
        OrderDoesNotMatter(
          ComponentPins(locks).value, ComponentPins(other).value, DirectPins(values).value, r, t);
      }
    }
  }
}
