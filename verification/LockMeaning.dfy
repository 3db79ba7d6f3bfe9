/**
 What a lock file means, said of its characters: which spellings of a name meet, which lines
 are pins, and which pins a file and a project come to.
 */
module LockMeaning {
  import opened Wrappers
  import opened StringOrder
  import opened Texts
  import opened LockMerge

  // ----- Canonical names -----

  predicate IsMark(c: char) {
    c in {'-', '_', '.'}
  }

  /** `low` is the character, or its small letter when it is a capital one. */
  predicate IsLowered(c: char, low: char) {
    if 65 <= c as int <= 90 then low as int == c as int + 32 else low == c
  }

  /** `k` is where the last, maximal run of marks begins. */
  predicate EndsInRun(s: string, k: int) {
    0 <= k < |s| && (forall i :: k <= i < |s| ==> IsMark(s[i])) && (k > 0 ==> !IsMark(s[k - 1]))
  }

  /** From right to left: a dash stands for a whole run of marks, any other character for one letter or digit. */
  ghost predicate Renders(s: string, name: string)
    decreases |name|
  {
    if name == "" then s == ""
    else
      var init, last := name[..|name| - 1], name[|name| - 1];
      if last == '-' then exists k :: EndsInRun(s, k) && Renders(s[..k], init)
      else s != "" && !IsMark(s[|s| - 1]) && IsLowered(s[|s| - 1], last) && Renders(s[..|s| - 1], init)
  }

  lemma {:induction false} RunExists(s: string) returns (k: int)
    requires s != "" && IsMark(s[|s| - 1])
    ensures EndsInRun(s, k)
    ensures if |s| > 1 && IsMark(s[|s| - 2]) then EndsInRun(s[..|s| - 1], k) else k == |s| - 1
  {
    k := |s| - 1;
    if |s| > 1 && IsMark(s[|s| - 2]) {
      var init := s[..|s| - 1];
      k := RunExists(init);
      forall i | k <= i < |s| ensures IsMark(s[i]) {
        assert i < |init| ==> s[i] == init[i];
      }
    }
  }

  lemma {:induction false} CanonicalEndsInDash(s: string)
    requires s != ""
    ensures CanonicalName(s) != ""
    ensures CanonicalName(s)[|CanonicalName(s)| - 1] == '-' <==> IsMark(s[|s| - 1])
  {
    if IsMark(s[|s| - 1]) && |s| > 1 {
      CanonicalEndsInDash(s[..|s| - 1]);
    }
  }

  /** A whole run of marks at the end adds one dash. */
  lemma {:induction false} RunBecomesDash(s: string, k: int)
    requires EndsInRun(s, k)
    ensures CanonicalName(s) == CanonicalName(s[..k]) + "-"
    decreases |s|
  {
    var init := s[..|s| - 1];
    if k < |s| - 1 {
      assert forall i :: 0 <= i < |init| ==> init[i] == s[i];
      RunBecomesDash(init, k);
      assert init[..k] == s[..k];
    } else {
      assert init == s[..k];
      if init != "" {
        CanonicalEndsInDash(init);
      }
    }
  }

  lemma {:induction false} CanonicalRenders(s: string)
    ensures Renders(s, CanonicalName(s))
    decreases |s|
  {
    if s != "" {
      CanonicalEndsInDash(s);
      var name := CanonicalName(s);
      if IsMark(s[|s| - 1]) {
        var k := RunExists(s);
        RunBecomesDash(s, k);
        CanonicalRenders(s[..k]);
        assert name[..|name| - 1] == CanonicalName(s[..k]);
      } else {
        CanonicalRenders(s[..|s| - 1]);
        assert name[..|name| - 1] == CanonicalName(s[..|s| - 1]);
      }
    }
  }

  lemma {:induction false} RendersOne(s: string, name: string)
    requires Renders(s, name)
    ensures name == CanonicalName(s)
    decreases |name|
  {
    if name != "" {
      var init, last := name[..|name| - 1], name[|name| - 1];
      assert name == init + [last];
      if last == '-' {
        var k :| EndsInRun(s, k) && Renders(s[..k], init);
        RendersOne(s[..k], init);
        RunBecomesDash(s, k);
      } else {
        RendersOne(s[..|s| - 1], init);
      }
    }
  }

  /** The canonical name is the one in small letters with one dash for every run of marks. */
  lemma CanonicalIffRenders(s: string, name: string)
    ensures CanonicalName(s) == name <==> Renders(s, name)
  {
    CanonicalRenders(s);
    if Renders(s, name) {
      RendersOne(s, name);
    }
  }

  /** Character by character the same letter, small or capital, or two marks. */
  predicate SameSpelling(s: string, t: string) {
    && |s| == |t|
    && forall i :: 0 <= i < |s| ==>
                     || s[i] == t[i] || (IsMark(s[i]) && IsMark(t[i]))
                     || (65 <= s[i] as int <= 90 && t[i] as int == s[i] as int + 32)
                     || (65 <= t[i] as int <= 90 && s[i] as int == t[i] as int + 32)
  }

  /** Spellings that differ in capitals and in which marks they use meet in one name. */
  lemma {:induction false} SpellingsMeet(s: string, t: string)
    requires SameSpelling(s, t)
    ensures CanonicalName(s) == CanonicalName(t)
  {
    if s != "" {
      SpellingsMeet(s[..|s| - 1], t[..|t| - 1]);
    }
  }

  // ----- Pins -----

  predicate IsNamePart(c: char) {
    48 <= c as int <= 57 || 65 <= c as int <= 90 || 97 <= c as int <= 122 || IsMark(c)
  }

  predicate IsNameText(s: string) {
    s != "" && forall i :: 0 <= i < |s| ==> IsNamePart(s[i])
  }

  predicate IsExtras(s: string) {
    || s == ""
    || (|s| > 2 && s[0] == '[' && s[|s| - 1] == ']' && forall i :: 0 < i < |s| - 1 ==> IsNamePart(s[i]) || s[i] == ',')
  }

  /** A name, optional extras in brackets, `==`, and a version that begins at once. */
  ghost predicate IsPin(line: string, name: string, extras: string, version: string) {
    && line == name + extras + "==" + version && IsNameText(name) && IsExtras(extras)
    && version != "" && !IsBlank(version[0]) && version[0] != ';'
    && forall i :: 0 <= i < |line| - 1 ==> line[i] != '\n'
  }

  lemma {:induction false} RunIs(s: string, i: nat, passes: char -> bool)
    requires i <= |s|
    ensures var j := Run(s, i, passes);
            (forall k :: i <= k < j ==> passes(s[k])) && (j < |s| ==> !passes(s[j]))
    decreases |s| - i
  {
    if i < |s| && passes(s[i]) {
      RunIs(s, i + 1, passes);
    }
  }

  lemma {:induction false} RunReaches(s: string, i: nat, j: nat, passes: char -> bool)
    requires i <= j <= |s| && (forall k :: i <= k < j ==> passes(s[k])) && (j < |s| ==> !passes(s[j]))
    ensures Run(s, i, passes) == j
    decreases j - i
  {
    if i < j {
      RunReaches(s, i + 1, j, passes);
    }
  }

  lemma PinNameReads(line: string, name: string, extras: string, version: string)
    requires IsPin(line, name, extras, version)
    ensures PinName(line) == Some(name)
  {
    var n, v := |name|, |name| + |extras|;
    assert forall k :: 0 <= k < n ==> line[k] == name[k];
    assert forall k :: 0 <= k < |extras| ==> line[n + k] == extras[k];
    assert line[v] == '=' && line[v + 1] == '=' && line[v + 2] == version[0];
    RunReaches(line, 0, n, IsNameCharacter);
    if extras != "" {
      RunReaches(line, n + 1, v - 1, IsExtraCharacter);
    }
    assert line[..n] == name;
  }

  lemma ExtrasAre(line: string, n: nat)
    requires n <= |line|
    ensures IsExtras(line[n..PastExtras(line, n)])
  {
    var v := PastExtras(line, n);
    if v > n {
      RunIs(line, n + 1, IsExtraCharacter);
      assert forall k :: 0 <= k < v - n ==> line[n..v][k] == line[n + k];
    }
  }

  lemma CutInFour(line: string, n: nat, v: nat)
    requires n <= v && v + 2 <= |line| && line[v] == '=' && line[v + 1] == '='
    ensures line == line[..n] + line[n..v] + "==" + line[v + 2..]
  {
    assert line[v..v + 2] == "==";
  }

  lemma PinNameFinds(line: string) returns (extras: string, version: string)
    requires PinName(line).Some?
    ensures IsPin(line, PinName(line).value, extras, version)
  {
    var n := Run(line, 0, IsNameCharacter);
    var v := PastExtras(line, n);
    RunIs(line, 0, IsNameCharacter);
    extras, version := line[n..v], line[v + 2..];
    ExtrasAre(line, n);
    CutInFour(line, n, v);
  }

  /** A line is read as a pin of a name exactly when it has the form of one. */
  lemma PinNameIff(line: string, name: string)
    ensures PinName(line) == Some(name) <==> exists extras, version :: IsPin(line, name, extras, version)
  {
    if PinName(line) == Some(name) {
      var extras, version := PinNameFinds(line);
    }
    if extras, version :| IsPin(line, name, extras, version) {
      PinNameReads(line, name, extras, version);
    }
  }

  // ----- Lines -----

  predicate AreBlank(s: string) {
    forall i :: 0 <= i < |s| ==> IsBlank(s[i])
  }

  /** From `i` to `j` is all of the line but the white space around it. */
  predicate Spans(line: string, i: int, j: int) {
    && 0 <= i < j <= |line| && !IsBlank(line[i]) && !IsBlank(line[j - 1])
    && forall k :: 0 <= k < |line| && (k < i || j <= k) ==> IsBlank(line[k])
  }

  /** `text` is the line without the white space around it. */
  ghost predicate IsStripped(line: string, text: string) {
    if AreBlank(line) then text == "" else exists i, j :: Spans(line, i, j) && text == line[i..j]
  }

  /** `text` is the line without the characters of `dropped` at its end. */
  ghost predicate IsCutRight(line: string, text: string, dropped: set<char>) {
    && text <= line && (forall i :: |text| <= i < |line| ==> line[i] in dropped)
    && (text != "" ==> text[|text| - 1] !in dropped)
  }

  lemma {:induction false} StripRightIs(s: string, drops: char -> bool)
    ensures var t := StripRight(s, drops);
            && t <= s && (forall i :: |t| <= i < |s| ==> drops(s[i])) && (t != "" ==> !drops(t[|t| - 1]))
  {
    if s != "" && drops(s[|s| - 1]) {
      StripRightIs(s[..|s| - 1], drops);
    }
  }

  lemma {:induction false} StripLeftIs(s: string, drops: char -> bool)
    ensures var t := StripLeft(s, drops);
            && |t| <= |s| && t == s[|s| - |t|..] && (forall i :: 0 <= i < |s| - |t| ==> drops(s[i]))
            && (t != "" ==> !drops(t[0]))
  {
    if s != "" && drops(s[0]) {
      StripLeftIs(s[1..], drops);
    }
  }

  lemma StripIs(line: string)
    ensures IsStripped(line, Strip(line))
  {
    var left := StripLeft(line, IsBlank);
    var text := Strip(line);
    StripLeftIs(line, IsBlank);
    StripRightIs(left, IsBlank);
    var i := |line| - |left|;
    var j := i + |text|;
    assert forall k :: i <= k < |line| ==> line[k] == left[k - i];
    if text != "" {
      assert text == line[i..j];
      assert Spans(line, i, j);
    }
  }

  lemma SpanIsUnique(line: string, i: int, j: int, m: int, n: int)
    requires Spans(line, i, j) && Spans(line, m, n)
    ensures i == m && j == n
  {
  }

  lemma StrippedIsUnique(line: string, text: string, other: string)
    requires IsStripped(line, text) && IsStripped(line, other)
    ensures text == other
  {
    if !AreBlank(line) {
      var i, j :| Spans(line, i, j) && text == line[i..j];
      var m, n :| Spans(line, m, n) && other == line[m..n];
      SpanIsUnique(line, i, j, m, n);
    }
  }

  lemma StripIff(line: string, text: string)
    ensures Strip(line) == text <==> IsStripped(line, text)
  {
    StripIs(line);
    if IsStripped(line, text) {
      StrippedIsUnique(line, text, Strip(line));
    }
  }

  lemma CutRightIff(line: string, text: string)
    ensures StripRight(line, IsTail) == text <==> IsCutRight(line, text, {' ', '\\'})
  {
    StripRightIs(line, IsTail);
    var cut := StripRight(line, IsTail);
    if IsCutRight(line, text, {' ', '\\'}) {
      assert |text| <= |cut| by {
        assert text != "" ==> line[|text| - 1] == text[|text| - 1];
      }
      assert |cut| <= |text| by {
        assert cut != "" ==> line[|cut| - 1] == cut[|cut| - 1];
      }
      assert text == line[..|text|] && cut == line[..|cut|];
    }
  }

  // ----- Files -----

  /** Nothing, a comment or an option. */
  ghost predicate IsIgnored(raw: string) {
    exists text :: IsStripped(raw, text) && (text == "" || text[0] in {'#', '-'})
  }

  /** The line, stripped, is a pin of this canonical name, kept up to trailing blanks and backslashes. */
  ghost predicate IsPinLine(raw: string, name: string, kept: string) {
    exists text, spelling, extras, version ::
      && IsStripped(raw, text) && !IsIgnored(raw) && IsPin(text, spelling, extras, version)
      && Renders(spelling, name) && IsCutRight(text, kept, {' ', '\\'})
  }

  /** What the parser makes of one line. */
  datatype Reading = Ignored | Pinned(name: string, kept: string) | Refused(text: string)

  function ReadLine(raw: string): Reading {
    var line := Strip(raw);
    if IsSkipped(line) then Ignored
    else
      match PinName(line)
      case None => Refused(line)
      case Some(spelling) => Pinned(CanonicalName(spelling), StripRight(line, IsTail))
  }

  lemma ReadsIgnored(raw: string)
    ensures ReadLine(raw).Ignored? <==> IsIgnored(raw)
  {
    StripIff(raw, Strip(raw));
    if text :| IsStripped(raw, text) && (text == "" || text[0] in {'#', '-'}) {
      StripIff(raw, text);
    }
  }

  lemma PinLineIsRead(raw: string, name: string, kept: string)
    requires IsPinLine(raw, name, kept)
    ensures ReadLine(raw) == Pinned(name, kept)
  {
    var text, spelling, extras, version :|
      && IsStripped(raw, text) && !IsIgnored(raw) && IsPin(text, spelling, extras, version)
      && Renders(spelling, name) && IsCutRight(text, kept, {' ', '\\'});
    ReadsIgnored(raw);
    StripIff(raw, text);
    PinNameReads(text, spelling, extras, version);
    CanonicalIffRenders(spelling, name);
    CutRightIff(text, kept);
  }

  lemma ReadIsPinLine(raw: string, name: string, kept: string)
    requires ReadLine(raw) == Pinned(name, kept)
    ensures IsPinLine(raw, name, kept)
  {
    var text := Strip(raw);
    ReadsIgnored(raw);
    StripIff(raw, text);
    var extras, version := PinNameFinds(text);
    CanonicalIffRenders(PinName(text).value, name);
    CutRightIff(text, kept);
    assert IsStripped(raw, text) && IsPin(text, PinName(text).value, extras, version);
  }

  /** A line is a pin line exactly when it is read as that pin. */
  lemma PinLineIff(raw: string, name: string, kept: string)
    ensures ReadLine(raw) == Pinned(name, kept) <==> IsPinLine(raw, name, kept)
  {
    if IsPinLine(raw, name, kept) {
      PinLineIsRead(raw, name, kept);
    }
    if ReadLine(raw) == Pinned(name, kept) {
      ReadIsPinLine(raw, name, kept);
    }
  }

  /** The last line of the file that pins the name is `i`. */
  predicate IsLastPin(lines: seq<string>, i: int, name: string, kept: string) {
    && 0 <= i < |lines| && ReadLine(lines[i]) == Pinned(name, kept)
    && forall k :: i < k < |lines| && ReadLine(lines[k]).Pinned? ==> ReadLine(lines[k]).name != name
  }

  predicate IsFirstRefused(lines: seq<string>, i: int, text: string) {
    && 0 <= i < |lines| && ReadLine(lines[i]) == Refused(text)
    && forall k :: 0 <= k < i ==> !ReadLine(lines[k]).Refused?
  }

  lemma ParsedSnoc(init: seq<string>, raw: string)
    ensures ParsedPins(init + [raw]) ==
            match ParsedPins(init)
            case Failure(e) => Failure(e)
            case Success(pins) =>
              match ReadLine(raw)
              case Ignored => Success(pins)
              case Refused(text) => Failure(UnexpectedRequirement(text))
              case Pinned(name, kept) => Success(pins[name := kept])
  {
    assert (init + [raw])[..|init|] == init;
  }

  /** A file parses exactly when no line is refused, and otherwise the first refused line is named. */
  lemma {:induction false} ParsesIff(lines: seq<string>)
    ensures ParsedPins(lines).Success? <==> forall i :: 0 <= i < |lines| ==> !ReadLine(lines[i]).Refused?
    ensures ParsedPins(lines).Failure? ==>
              exists i, text :: IsFirstRefused(lines, i, text) && ParsedPins(lines).error == UnexpectedRequirement(text)
  {
    if lines != [] {
      var init, raw := lines[..|lines| - 1], lines[|lines| - 1];
      assert lines == init + [raw];
      ParsedSnoc(init, raw);
      ParsesIff(init);
      if ParsedPins(init).Failure? {
        var i, text :| IsFirstRefused(init, i, text) && ParsedPins(init).error == UnexpectedRequirement(text);
        assert IsFirstRefused(lines, i, text);
      } else if ReadLine(raw).Refused? {
        assert IsFirstRefused(lines, |init|, ReadLine(raw).text);
      }
    }
  }

  /** A parsed file pins exactly the names its lines pin, each as its last pin line has it. */
  lemma {:induction false} ParsedPinsAre(lines: seq<string>, name: string)
    requires ParsedPins(lines).Success?
    ensures var pins := ParsedPins(lines).value;
            && (name in pins ==> exists i :: IsLastPin(lines, i, name, pins[name]))
            && forall i, kept :: IsLastPin(lines, i, name, kept) ==> name in pins && pins[name] == kept
  {
    if lines != [] {
      var init, raw := lines[..|lines| - 1], lines[|lines| - 1];
      assert lines == init + [raw];
      ParsedSnoc(init, raw);
      ParsedPinsAre(init, name);
      LastPinSnoc(init, raw, name);
      var pins := ParsedPins(lines).value;
      if name in pins {
        if ReadLine(raw).Pinned? && ReadLine(raw).name == name {
          assert IsLastPin(lines, |init|, name, pins[name]);
        } else {
          var i :| IsLastPin(init, i, name, pins[name]);
          assert IsLastPin(lines, i, name, pins[name]);
        }
      }
    }
  }

  lemma LastPinSnoc(init: seq<string>, raw: string, name: string)
    ensures forall i, kept :: IsLastPin(init + [raw], i, name, kept) <==>
                              if ReadLine(raw).Pinned? && ReadLine(raw).name == name
                              then i == |init| && ReadLine(raw).kept == kept
                              else IsLastPin(init, i, name, kept)
  {
    var lines := init + [raw];
    assert lines[|init|] == raw && forall i :: 0 <= i < |init| ==> lines[i] == init[i];
  }

  // ----- The project's own pins -----

  /** Entry `i` is the last direct requirement of the name. */
  predicate IsLastDirect(values: seq<string>, i: int, name: string) {
    && 0 <= i < |values| && PinName(values[i]).Some? && CanonicalName(PinName(values[i]).value) == name
    && forall k :: i < k < |values| && PinName(values[k]).Some? ==> CanonicalName(PinName(values[k]).value) != name
  }

  lemma DirectSnoc(init: seq<string>, value: string)
    ensures DirectPins(init + [value]) ==
            match DirectPins(init)
            case Failure(e) => Failure(e)
            case Success(direct) =>
              match PinName(value)
              case None => Failure(DirectNotExact(value))
              case Some(name) => Success(direct[CanonicalName(name) := value])
  {
    assert (init + [value])[..|init|] == init;
  }

  lemma LastDirectSnoc(init: seq<string>, value: string, name: string)
    ensures forall i :: IsLastDirect(init + [value], i, name) <==>
                        if PinName(value).Some? && CanonicalName(PinName(value).value) == name
                        then i == |init| else IsLastDirect(init, i, name)
  {
    var values := init + [value];
    assert values[|init|] == value && forall i :: 0 <= i < |init| ==> values[i] == init[i];
  }

  /** The direct pins are, for each name, the last requirement of that name as it is written. */
  lemma {:induction false} DirectPinsAre(values: seq<string>, name: string)
    requires DirectPins(values).Success?
    ensures var direct := DirectPins(values).value;
            && (name in direct ==> exists i :: IsLastDirect(values, i, name) && direct[name] == values[i])
            && forall i :: IsLastDirect(values, i, name) ==> name in direct && direct[name] == values[i]
  {
    if values != [] {
      var init, value := values[..|values| - 1], values[|values| - 1];
      assert values == init + [value];
      DirectSnoc(init, value);
      DirectPinsAre(init, name);
      LastDirectSnoc(init, value, name);
    }
  }

  /** They exist exactly when every requirement is an exact pin; else the first that is not is named. */
  lemma {:induction false} DirectIff(values: seq<string>)
    ensures DirectPins(values).Success? <==> forall i :: 0 <= i < |values| ==> PinName(values[i]).Some?
    ensures DirectPins(values).Failure? ==>
              exists i :: && 0 <= i < |values| && PinName(values[i]).None?
                          && (forall k :: 0 <= k < i ==> PinName(values[k]).Some?)
                          && DirectPins(values).error == DirectNotExact(values[i])
  {
    if values != [] {
      var init, value := values[..|values| - 1], values[|values| - 1];
      assert values == init + [value];
      DirectSnoc(init, value);
      DirectIff(init);
    }
  }
}
