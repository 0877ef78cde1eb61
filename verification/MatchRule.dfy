/** Match rules: the prepared tests on cut and folded data agree with the plain definitions. */
module MatchRule {
  import opened Basics

  datatype Mode = Prefix | Contains | Suffix

  datatype Cond = And | Or

  datatype Settings = Settings(
    values: seq<string>, mode: Mode, caseInsensitive: bool, invert: bool,
    minSize: nat, maxSize: nat, prepared: bool)

  // --------------------------------------------------------------- plain definitions

  /** Lower case of a single-byte character. */
  function LowerChar(c: char): char {
    if 'A' <= c <= 'Z' then c - 'A' + 'a' else c
  }

  function Lower(s: string): (r: string)
    ensures |r| == |s| && forall i :: 0 <= i < |s| ==> r[i] == LowerChar(s[i])
  {
    seq(|s|, i requires 0 <= i < |s| => LowerChar(s[i]))
  }

  function Fold(caseInsensitive: bool, s: string): string {
    if caseInsensitive then Lower(s) else s
  }

  predicate HasPrefix(data: string, v: string) {
    |v| <= |data| && data[..|v|] == v
  }

  predicate HasSuffix(data: string, v: string) {
    |v| <= |data| && data[|data| - |v|..] == v
  }

  predicate OccursAt(data: string, v: string, k: int) {
    0 <= k <= |data| - |v| && data[k..k + |v|] == v
  }

  ghost predicate Occurs(data: string, v: string) {
    exists k :: OccursAt(data, v, k)
  }

  ghost predicate Test(mode: Mode, data: string, v: string) {
    match mode
    case Prefix => HasPrefix(data, v)
    case Contains => Occurs(data, v)
    case Suffix => HasSuffix(data, v)
  }

  /** One of the values is a prefix, a part or a suffix of the data. */
  ghost predicate AnyOf(mode: Mode, data: string, values: seq<string>) {
    exists i :: 0 <= i < |values| && Test(mode, data, values[i])
  }

  // ------------------------------------------------------------------- preparation

  function FoldAll(caseInsensitive: bool, values: seq<string>): (r: seq<string>)
    ensures |r| == |values| && forall i :: 0 <= i < |r| ==> r[i] == Fold(caseInsensitive, values[i])
  {
    seq(|values|, i requires 0 <= i < |values| => Fold(caseInsensitive, values[i]))
  }

  /** The sizes frame the values, and some value has each of them. */
  ghost predicate SizesOf(values: seq<string>, minSize: nat, maxSize: nat) {
    && (forall i :: 0 <= i < |values| ==> minSize <= |values[i]| <= maxSize)
    && (exists i :: 0 <= i < |values| && |values[i]| == minSize)
    && (exists i :: 0 <= i < |values| && |values[i]| == maxSize)
  }

  /** A prepared rule has the sizes of its values. */
  ghost predicate Ready(s: Settings) {
    s.prepared ==> SizesOf(s.values, s.minSize, s.maxSize)
  }

  lemma FoldTwice(ci: bool, s: string)
    ensures Fold(ci, Fold(ci, s)) == Fold(ci, s)
  {
    assert Lower(Lower(s)) == Lower(s);
  }

  /** Preparing again changes nothing. */
  lemma FoldAllTwice(ci: bool, values: seq<string>)
    ensures FoldAll(ci, FoldAll(ci, values)) == FoldAll(ci, values)
  {
    forall i | 0 <= i < |values|
      ensures Fold(ci, Fold(ci, values[i])) == Fold(ci, values[i])
    {
      FoldTwice(ci, values[i]);
    }
  }

  // ------------------------------------------------------------- what folding means

  /** The same character, or the upper and the lower case of one letter. */
  predicate SameLetter(a: char, b: char) {
    || a == b
    || ('A' <= a <= 'Z' && 'a' <= b <= 'z' && a as int - 'A' as int == b as int - 'a' as int)
    || ('a' <= a <= 'z' && 'A' <= b <= 'Z' && a as int - 'a' as int == b as int - 'A' as int)
  }

  lemma FoldedLetters(a: char, b: char)
    ensures LowerChar(a) == LowerChar(b) <==> SameLetter(a, b)
  {
  }

  /** The value is in the data at `k`, character by character and letters in any case if asked. */
  ghost predicate ReadsAt(ci: bool, data: string, v: string, k: int) {
    && 0 <= k <= |data| - |v|
    && forall i :: 0 <= i < |v| ==> if ci then SameLetter(data[k + i], v[i]) else data[k + i] == v[i]
  }

  /** The test that a user asks for, on the data and the value as they are written. */
  ghost predicate Asked(mode: Mode, ci: bool, data: string, v: string) {
    match mode
    case Prefix => ReadsAt(ci, data, v, 0)
    case Contains => exists k :: ReadsAt(ci, data, v, k)
    case Suffix => ReadsAt(ci, data, v, |data| - |v|)
  }

  lemma FoldedAt(ci: bool, data: string, v: string, k: int)
    ensures OccursAt(Fold(ci, data), Fold(ci, v), k) <==> ReadsAt(ci, data, v, k)
  {
    if 0 <= k <= |data| - |v| {
      var d, w := Fold(ci, data), Fold(ci, v);
      forall i | 0 <= i < |v|
        ensures d[k..k + |v|][i] == w[i] <==> if ci then SameLetter(data[k + i], v[i]) else data[k + i] == v[i]
      {
        FoldedLetters(data[k + i], v[i]);
      }
      assert d[k..k + |v|] == w <==> forall i :: 0 <= i < |v| ==> d[k..k + |v|][i] == w[i];
    }
  }

  lemma FoldedOccurs(ci: bool, data: string, v: string)
    ensures Occurs(Fold(ci, data), Fold(ci, v)) <==> exists k :: ReadsAt(ci, data, v, k)
  {
    forall k
      ensures OccursAt(Fold(ci, data), Fold(ci, v), k) <==> ReadsAt(ci, data, v, k)
    {
      FoldedAt(ci, data, v, k);
    }
  }

  lemma PlainEnds(data: string, v: string)
    ensures HasPrefix(data, v) <==> OccursAt(data, v, 0)
    ensures HasSuffix(data, v) <==> OccursAt(data, v, |data| - |v|)
  {
    if |v| <= |data| {
      assert data[0..0 + |v|] == data[..|v|];
      assert data[|data| - |v|..|data|] == data[|data| - |v|..];
    }
  }

  /** Comparing folded data with a folded value is the test that was asked for. */
  lemma FoldedTest(mode: Mode, ci: bool, data: string, v: string)
    ensures Test(mode, Fold(ci, data), Fold(ci, v)) <==> Asked(mode, ci, data, v)
  {
    PlainEnds(Fold(ci, data), Fold(ci, v));
    match mode
    case Prefix => FoldedAt(ci, data, v, 0);
    case Contains => FoldedOccurs(ci, data, v);
    case Suffix => FoldedAt(ci, data, v, |data| - |v|);
  }

  /** So a prepared rule tests what its values ask for. */
  lemma PreparedTest(mode: Mode, ci: bool, data: string, values: seq<string>)
    ensures AnyOf(mode, Fold(ci, data), FoldAll(ci, values)) <==>
            exists i :: 0 <= i < |values| && Asked(mode, ci, data, values[i])
  {
    forall i | 0 <= i < |values|
      ensures Test(mode, Fold(ci, data), FoldAll(ci, values)[i]) <==> Asked(mode, ci, data, values[i])
    {
      FoldedTest(mode, ci, data, values[i]);
    }
  }

  // --------------------------------------------------------- cutting before comparing

  /** The part of the data that a prefix or suffix test can see. */
  function Cut(mode: Mode, raw: string, maxSize: nat): string {
    if |raw| < maxSize then raw
    else if mode == Suffix then raw[|raw| - maxSize..] else raw[..maxSize]
  }

  /** Cutting to the longest value and folding afterwards does not change a prefix test, */
  lemma CutPrefix(ci: bool, raw: string, maxSize: nat, v: string)
    requires |v| <= maxSize
    ensures HasPrefix(Fold(ci, Cut(Prefix, raw, maxSize)), v) <==> HasPrefix(Fold(ci, raw), v)
  {
    var cut := Fold(ci, Cut(Prefix, raw, maxSize));
    if |v| <= |raw| {
      assert cut[..|v|] == Fold(ci, raw)[..|v|];
    }
  }

  /** nor a suffix test. */
  lemma CutSuffix(ci: bool, raw: string, maxSize: nat, v: string)
    requires |v| <= maxSize
    ensures HasSuffix(Fold(ci, Cut(Suffix, raw, maxSize)), v) <==> HasSuffix(Fold(ci, raw), v)
  {
    var cut := Fold(ci, Cut(Suffix, raw, maxSize));
    if |v| <= |raw| {
      assert cut[|cut| - |v|..] == Fold(ci, raw)[|raw| - |v|..];
    }
  }

  lemma CutTest(mode: Mode, ci: bool, raw: string, maxSize: nat, v: string)
    requires mode != Contains && |v| <= maxSize
    ensures Test(mode, Fold(ci, Cut(mode, raw, maxSize)), v) <==> Test(mode, Fold(ci, raw), v)
  {
    if mode == Prefix {
      CutPrefix(ci, raw, maxSize, v);
    } else {
      CutSuffix(ci, raw, maxSize, v);
    }
  }

  /** Data shorter than every value matches none. */
  lemma TooShort(s: Settings, raw: string)
    requires SizesOf(s.values, s.minSize, s.maxSize) && |raw| < s.minSize
    ensures !AnyOf(s.mode, Fold(s.caseInsensitive, raw), s.values)
  {
    var data := Fold(s.caseInsensitive, raw);
    forall i | 0 <= i < |s.values|
      ensures !Test(s.mode, data, s.values[i])
    {
      assert |data| < |s.values[i]|;
    }
  }

  /** A search through the data. */
  method ContainsBytes(data: string, v: string) returns (found: bool)
    ensures found <==> Occurs(data, v)
  {
    var k := 0;
    while k + |v| <= |data|
      invariant 0 <= k
      invariant forall j :: 0 <= j < k ==> !OccursAt(data, v, j)
    {
      if data[k..k + |v|] == v {
        assert OccursAt(data, v, k);
        return true;
      }
      k := k + 1;
    }
    return false;
  }

  // ------------------------------------------------------------------- the objects

  class Rule {
    var values: seq<string>
    const mode: Mode
    const caseInsensitive: bool
    const invert: bool
    var minValueSize: nat
    var maxValueSize: nat
    var prepared: bool

    ghost function Value(): Settings
      reads this
    {
      Settings(values, mode, caseInsensitive, invert, minValueSize, maxValueSize, prepared)
    }

    ghost predicate Valid()
      reads this
    {
      Ready(Value())
    }

    constructor (values: seq<string>, mode: Mode, caseInsensitive: bool, invert: bool)
      ensures Valid() && Value() == Settings(values, mode, caseInsensitive, invert, 0, 0, false)
    {
      this.values, this.mode, this.caseInsensitive, this.invert := values, mode, caseInsensitive, invert;
      minValueSize, maxValueSize, prepared := 0, 0, false;
    }

    /** A rule with values becomes prepared, with folded values; one without stays as it is. */
    method Prepare()
      modifies this
      ensures old(values) == [] ==> Value() == old(Value())
      ensures old(values) != [] ==> prepared && Valid() && values == FoldAll(caseInsensitive, old(values))
    {
      if |values| == 0 {
        return;
      }
      var min := |values[0]|;
      var max := |values[0]|;
      ghost var minAt, maxAt := 0, 0;
      var i := 0;
      while i < |values|
        invariant 0 <= i <= |values| == |old(values)|
        invariant forall j :: 0 <= j < i ==> values[j] == Fold(caseInsensitive, old(values)[j])
        invariant forall j :: i <= j < |values| ==> values[j] == old(values)[j]
        invariant forall j :: 0 <= j < i ==> min <= |values[j]| <= max
        invariant 0 <= minAt < |values| && |values[minAt]| == min
        invariant 0 <= maxAt < |values| && |values[maxAt]| == max
      {
        if caseInsensitive {
          values := values[i := Lower(values[i])];
        }
        if |values[i]| > max {
          max, maxAt := |values[i]|, i;
        }
        if |values[i]| < min {
          min, minAt := |values[i]|, i;
        }
        i := i + 1;
      }
      assert values == FoldAll(caseInsensitive, old(values));
      minValueSize, maxValueSize, prepared := min, max, true;
    }

    method MatchContains(raw: string) returns (ok: bool)
      requires mode == Contains
      ensures ok <==> AnyOf(mode, Fold(caseInsensitive, raw), values)
    {
      var data := raw;
      if caseInsensitive {
        data := Lower(data);
      }
      var i := 0;
      while i < |values|
        invariant 0 <= i <= |values|
        invariant forall j :: 0 <= j < i ==> !Test(mode, data, values[j])
      {
        if |data| >= |values[i]| {
          var found := ContainsBytes(data, values[i]);
          if found {
            return true;
          }
        }
        i := i + 1;
      }
      return false;
    }

    method CutData(raw: string) returns (cutData: string)
      requires mode != Contains
      ensures cutData == Fold(caseInsensitive, Cut(mode, raw, maxValueSize))
    {
      cutData := raw;
      if |raw| >= maxValueSize {
        if mode == Prefix {
          cutData := raw[..maxValueSize];
        } else {
          cutData := raw[|raw| - maxValueSize..];
        }
      }
      if caseInsensitive {
        cutData := Lower(cutData);
      }
    }

    method MatchValue(cutData: string, value: string) returns (ok: bool)
      requires mode != Contains
      ensures ok <==> Test(mode, cutData, value)
    {
      if |cutData| < |value| {
        return false;
      }
      var data := if mode == Prefix then cutData[..|value|] else cutData[|cutData| - |value|..];
      return data == value;
    }

    method MatchEnd(raw: string) returns (ok: bool)
      requires mode != Contains && SizesOf(values, minValueSize, maxValueSize)
      ensures ok <==> AnyOf(mode, Fold(caseInsensitive, raw), values)
    {
      var cutData := CutData(raw);
      var i := 0;
      while i < |values|
        invariant 0 <= i <= |values|
        invariant forall j :: 0 <= j < i ==> !Test(mode, Fold(caseInsensitive, raw), values[j])
      {
        CutTest(mode, caseInsensitive, raw, maxValueSize, values[i]);
        ok := MatchValue(cutData, values[i]);
        if ok {
          return;
        }
        i := i + 1;
      }
      return false;
    }

    /** An unprepared rule panics; a prepared one gives the plain test on the whole data, inverted
        if the rule says so. */
    method Match(raw: string) returns (r: Option<bool>)
      requires Valid()
      ensures r.None? <==> !prepared
      ensures r.Some? ==> r.value == (invert != AnyOf(mode, Fold(caseInsensitive, raw), values))
    {
      if !prepared {
        return None;
      }
      var ok := false;
      if |raw| < minValueSize {
        TooShort(Value(), raw);
      } else if mode == Contains {
        ok := MatchContains(raw);
      } else {
        ok := MatchEnd(raw);
      }
      if invert {
        ok := !ok;
      }
      return Some(ok);
    }
  }

  /** The verdict of a rule: none when it was not prepared. */
  ghost function Verdict(s: Settings, raw: string): Option<bool> {
    if s.prepared then Some(s.invert != AnyOf(s.mode, Fold(s.caseInsensitive, raw), s.values)) else None
  }

  ghost predicate Undecided(cond: Cond, s: Settings, raw: string) {
    Verdict(s, raw) == Some(cond == And)
  }

  class RuleSet {
    const cond: Cond
    const rules: seq<Rule>

    ghost predicate Distinct() {
      forall i, j :: 0 <= i < j < |rules| ==> rules[i] != rules[j]
    }

    constructor (cond: Cond, rules: seq<Rule>)
      ensures this.cond == cond && this.rules == rules
    {
      this.cond, this.rules := cond, rules;
    }

    /** Every rule that has values becomes prepared, the others stay as they are. */
    method Prepare()
      requires Distinct()
      modifies rules
      ensures forall i :: 0 <= i < |rules| && old(rules[i].values) == [] ==> rules[i].Value() == old(rules[i].Value())
      ensures forall i :: 0 <= i < |rules| && old(rules[i].values) != [] ==>
                rules[i].prepared && rules[i].Valid()
                && rules[i].values == FoldAll(rules[i].caseInsensitive, old(rules[i].values))
    {
      var i := 0;
      while i < |rules|
        invariant 0 <= i <= |rules|
        invariant forall j :: i <= j < |rules| ==> rules[j].Value() == old(rules[j].Value())
        invariant forall j :: 0 <= j < i && old(rules[j].values) == [] ==> rules[j].Value() == old(rules[j].Value())
        invariant forall j :: 0 <= j < i && old(rules[j].values) != [] ==>
                    rules[j].prepared && rules[j].Valid()
                    && rules[j].values == FoldAll(rules[j].caseInsensitive, old(rules[j].values))
      {
        rules[i].Prepare();
        i := i + 1;
      }
    }

    /** Without rules nothing matches. Otherwise the rules are asked in order until one decides,
        and it panics exactly when an unprepared rule is reached before that. */
    method Match(data: string) returns (r: Option<bool>)
      requires forall i :: 0 <= i < |rules| ==> rules[i].Valid()
      ensures r.None? <==> exists k :: 0 <= k < |rules| && !rules[k].prepared
                                       && forall j :: 0 <= j < k ==> Undecided(cond, rules[j].Value(), data)
      ensures r.Some? && cond == And ==>
                (r.value <==> rules != [] &&
                              forall i :: 0 <= i < |rules| ==> Verdict(rules[i].Value(), data) == Some(true))
      ensures r.Some? && cond == Or ==>
                (r.value <==> exists i :: 0 <= i < |rules| && Verdict(rules[i].Value(), data) == Some(true))
    {
      if |rules| == 0 {
        return Some(false);
      }
      var i := 0;
      while i < |rules|
        invariant 0 <= i <= |rules|
        invariant forall j :: 0 <= j < i ==> Undecided(cond, rules[j].Value(), data)
      {
        var m := rules[i].Match(data);
        assert m == Verdict(rules[i].Value(), data);
        if m.None? {
          return None;
        }
        if m.value && cond == Or {
          return Some(true);
        }
        if !m.value && cond == And {
          return Some(false);
        }
        i := i + 1;
      }
      return Some(cond == And);
    }
  }
}
