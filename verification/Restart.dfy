/** Committed offsets, and what a job reads after a restart. */
module Restart {
  import opened Basics
  import opened Lines

  // --------------------------------------------------------------- slicemap.go

  /** No stream is listed twice. */
  ghost predicate Distinct(s: seq<KV>) {
    forall i, j :: 0 <= i < j < |s| ==> s[i].stream != s[j].stream
  }

  /** The map that a slice stands for. */
  ghost function AsMap(s: seq<KV>): map<StreamName, int> {
    if s == [] then map[] else AsMap(s[..|s| - 1])[s[|s| - 1].stream := s[|s| - 1].offset]
  }

  lemma {:induction false} AsMapKeys(s: seq<KV>)
    ensures forall n :: n in AsMap(s) <==> exists i :: 0 <= i < |s| && s[i].stream == n
  {
    if s != [] {
      var l := |s| - 1;
      AsMapKeys(s[..l]);
      forall n
        ensures n in AsMap(s) <==> exists i :: 0 <= i < |s| && s[i].stream == n
      {
        if n in AsMap(s[..l]) {
          var i :| 0 <= i < l && s[..l][i].stream == n;
          assert s[i].stream == n;
        }
        if i :| 0 <= i < |s| && s[i].stream == n {
          if i < l {
            assert s[..l][i].stream == n;
          }
        }
      }
    }
  }

  lemma {:induction false} AsMapAt(s: seq<KV>, i: nat)
    requires Distinct(s) && i < |s|
    ensures s[i].stream in AsMap(s) && AsMap(s)[s[i].stream] == s[i].offset
  {
    var l := |s| - 1;
    if i < l {
      AsMapAt(s[..l], i);
    }
  }

  lemma {:induction false} AsMapUpdate(s: seq<KV>, i: nat, offset: int)
    requires Distinct(s) && i < |s|
    ensures Distinct(s[i := s[i].(offset := offset)])
    ensures AsMap(s[i := s[i].(offset := offset)]) == AsMap(s)[s[i].stream := offset]
  {
    var l := |s| - 1;
    var s' := s[i := s[i].(offset := offset)];
    if i < l {
      AsMapUpdate(s[..l], i, offset);
      assert s'[..l] == s[..l][i := s[..l][i].(offset := offset)];
    } else {
      assert s'[..l] == s[..l];
    }
  }

  lemma AsMapAppend(s: seq<KV>, name: StreamName, offset: int)
    requires Distinct(s) && name !in AsMap(s)
    ensures Distinct(s + [KV(name, offset)])
    ensures AsMap(s + [KV(name, offset)]) == AsMap(s)[name := offset]
  {
    AsMapKeys(s);
    assert (s + [KV(name, offset)])[..|s|] == s;
  }

  class SliceMap {
    var items: seq<KV>

    ghost predicate Valid()
      reads this
    {
      Distinct(items)
    }

    ghost function Contents(): map<StreamName, int>
      reads this
    {
      AsMap(items)
    }

    constructor Empty()
      ensures Valid() && Contents() == map[]
    {
      items := [];
    }

    /** The source ranges over a map in no particular order. */
    constructor FromMap(m: map<StreamName, int>)
      ensures Valid() && Contents() == m
    {
      items := [];
      new;
      var left := m.Keys;
      while left != {}
        invariant left <= m.Keys
        invariant Valid() && Contents() == m - left
        decreases |left|
      {
        var k :| k in left;
        AsMapAppend(items, k, m[k]);
        items := items + [KV(k, m[k])];
        left := left - {k};
      }
    }

    method Get(name: StreamName) returns (offset: int, has: bool)
      requires Valid()
      ensures has <==> name in Contents()
      ensures offset == if has then Contents()[name] else 0
    {
      AsMapKeys(items);
      var i := 0;
      while i < |items|
        invariant 0 <= i <= |items|
        invariant forall j :: 0 <= j < i ==> items[j].stream != name
      {
        if items[i].stream == name {
          AsMapAt(items, i);
          return items[i].offset, true;
        }
        i := i + 1;
      }
      return 0, false;
    }

    method Set(name: StreamName, offset: int)
      requires Valid()
      modifies this
      ensures Valid() && Contents() == old(Contents())[name := offset]
    {
      AsMapKeys(items);
      var i := 0;
      while i < |items|
        invariant 0 <= i <= |items|
        invariant items == old(items)
        invariant forall j :: 0 <= j < i ==> items[j].stream != name
      {
        if items[i].stream == name {
          AsMapUpdate(items, i, offset);
          items := items[i := items[i].(offset := offset)];
          return;
        }
        i := i + 1;
      }
      AsMapAppend(items, name, offset);
      items := items + [KV(name, offset)];
    }
  }

  // --------------------------------------------------------- provider.go commit

  /** An event as the input gets it back. */
  datatype Commit = Commit(stream: StreamName, offset: int, seqID: nat, isRegular: bool)

  type Offsets = map<StreamName, int>

  function Current(m: Offsets, s: StreamName): int {
    if s in m then m[s] else 0
  }

  /** The commit is of a regular event that came after the last truncation. */
  predicate Counts(ignoreEventsLE: nat, c: Commit) {
    c.isRegular && c.seqID > ignoreEventsLE
  }

  /** The new offsets, and whether the "offset corruption" panic fires. */
  function CommitOne(m: Offsets, ignoreEventsLE: nat, c: Commit): (Offsets, bool) {
    if !c.isRegular || c.seqID <= ignoreEventsLE then (m, false)
    else if Current(m, c.stream) >= c.offset then (m, true)
    else (m[c.stream := c.offset], false)
  }

  /** `commit` for a job that is known: the offset is checked and stored. */
  method CommitEvent(offsets: SliceMap, ignoreEventsLE: nat, c: Commit) returns (panic: bool)
    requires offsets.Valid()
    modifies offsets
    ensures offsets.Valid()
    ensures (offsets.Contents(), panic) == CommitOne(old(offsets.Contents()), ignoreEventsLE, c)
  {
    if !c.isRegular || c.seqID <= ignoreEventsLE {
      return false;
    }
    var value, has := offsets.Get(c.stream);
    if value >= c.offset {
      return true;
    }
    offsets.Set(c.stream, c.offset);
    return false;
  }

  /** A commit that counts, above the current offset, becomes the offset of its stream and of no other;
      one that is not above it panics; all others change nothing. */
  lemma CommitStores(m: Offsets, g: nat, c: Commit)
    ensures var (m', panic) := CommitOne(m, g, c);
            && (panic <==> c.isRegular && c.seqID > g && c.offset <= Current(m, c.stream))
            && (c.isRegular && c.seqID > g && !panic ==> c.stream in m' && m'[c.stream] == c.offset)
            && (!c.isRegular || c.seqID <= g || panic ==> m' == m)
            && m.Keys <= m'.Keys <= m.Keys + {c.stream}
            && (forall t :: t in m && t != c.stream ==> m'[t] == m[t])
  {
  }

  function CommitAll(m: Offsets, ignoreEventsLE: nat, cs: seq<Commit>): (Offsets, bool) {
    if cs == [] then (m, false)
    else
      var (m1, bad) := CommitAll(m, ignoreEventsLE, cs[..|cs| - 1]);
      if bad then (m1, true) else CommitOne(m1, ignoreEventsLE, cs[|cs| - 1])
  }

  /** The commits of each stream come with growing offsets, above the stream's saved one. */
  ghost predicate InOrder(m: Offsets, ignoreEventsLE: nat, cs: seq<Commit>) {
    && (forall i :: 0 <= i < |cs| && Counts(ignoreEventsLE, cs[i]) ==> cs[i].offset > Current(m, cs[i].stream))
    && (forall i, j :: 0 <= i < j < |cs| ==>
          Counts(ignoreEventsLE, cs[i]) && Counts(ignoreEventsLE, cs[j]) && cs[i].stream == cs[j].stream ==>
            cs[i].offset < cs[j].offset)
  }

  /** The offset a stream has after the commits: the last one committed, or the saved one. */
  function Last(m: Offsets, ignoreEventsLE: nat, cs: seq<Commit>, s: StreamName): int {
    if cs == [] then Current(m, s)
    else if cs[|cs| - 1].stream == s && Counts(ignoreEventsLE, cs[|cs| - 1]) then cs[|cs| - 1].offset
    else Last(m, ignoreEventsLE, cs[..|cs| - 1], s)
  }

  lemma {:induction false} LastBound(m: Offsets, g: nat, cs: seq<Commit>, c: Commit)
    requires InOrder(m, g, cs + [c]) && Counts(g, c)
    ensures Last(m, g, cs, c.stream) < c.offset
    decreases |cs|
  {
    var all := cs + [c];
    assert all[|cs|] == c;
    if cs != [] {
      var l := |cs| - 1;
      assert all[l] == cs[l];
      if !(cs[l].stream == c.stream && Counts(g, cs[l])) {
        var shorter := cs[..l] + [c];
        assert forall i | 0 <= i < l :: shorter[i] == all[i];
        LastBound(m, g, cs[..l], c);
      }
    }
  }

  /** With in-order commits the panic never fires, every stream ends at its last committed
      offset, and offsets only grow. The panic fires exactly when the order is broken. */
  lemma {:induction false} CommitsInOrder(m: Offsets, g: nat, cs: seq<Commit>)
    ensures CommitAll(m, g, cs).1 <==> !InOrder(m, g, cs)
    ensures InOrder(m, g, cs) ==>
              forall s :: Current(CommitAll(m, g, cs).0, s) == Last(m, g, cs, s) >= Current(m, s)
    ensures InOrder(m, g, cs) ==> m.Keys <= CommitAll(m, g, cs).0.Keys
    ensures InOrder(m, g, cs) ==> forall s ::
              s in CommitAll(m, g, cs).0 <==>
              (s in m || exists i :: 0 <= i < |cs| && cs[i].stream == s && Counts(g, cs[i]))
    decreases |cs|
  {
    if cs != [] {
      var l := |cs| - 1;
      var before, c := cs[..l], cs[l];
      assert cs == before + [c];
      CommitsInOrder(m, g, before);
      if InOrder(m, g, cs) {
        assert InOrder(m, g, before);
        if Counts(g, c) {
          LastBound(m, g, before, c);
        }
      } else if InOrder(m, g, before) {
        BrokenAtEnd(m, g, before, c);
      }
    }
  }

  lemma {:induction false} LastCovers(m: Offsets, g: nat, cs: seq<Commit>, i: nat)
    requires InOrder(m, g, cs) && i < |cs| && Counts(g, cs[i])
    ensures Last(m, g, cs, cs[i].stream) >= cs[i].offset
    decreases |cs|
  {
    var l := |cs| - 1;
    if !(cs[l].stream == cs[i].stream && Counts(g, cs[l])) {
      LastCovers(m, g, cs[..l], i);
    }
  }

  lemma BrokenAtEnd(m: Offsets, g: nat, before: seq<Commit>, c: Commit)
    requires InOrder(m, g, before) && !InOrder(m, g, before + [c])
    ensures Counts(g, c) && Last(m, g, before, c.stream) >= c.offset
  {
    var cs := before + [c];
    assert forall i | 0 <= i < |before| :: cs[i] == before[i];
    assert cs[|before|] == c;
    if Counts(g, c) && c.offset > Last(m, g, before, c.stream) {
      LastGrows(m, g, before, c.stream);
      forall i | 0 <= i < |before| && Counts(g, before[i]) && before[i].stream == c.stream
        ensures before[i].offset < c.offset
      {
        LastCovers(m, g, before, i);
      }
    }
  }

  lemma {:induction false} LastGrows(m: Offsets, g: nat, cs: seq<Commit>, s: StreamName)
    requires InOrder(m, g, cs)
    ensures Last(m, g, cs, s) >= Current(m, s)
    decreases |cs|
  {
    if cs != [] {
      LastGrows(m, g, cs[..|cs| - 1], s);
    }
  }

  // --------------------------------------------------- initJobOffset, PassEvent

  /** The minimum over a non-empty map. */
  ghost predicate IsMin(m: Offsets, lo: int) {
    (exists s :: s in m && m[s] == lo) && forall s :: s in m ==> lo <= m[s]
  }

  /** The loop that finds the offset to resume from. */
  method MinOffset(m: Offsets) returns (lo: int)
    requires m != map[]
    requires forall s :: s in m ==> m[s] <= 0x7fff_ffff_ffff_ffff
    ensures IsMin(m, lo)
  {
    lo := 0x7fff_ffff_ffff_ffff;
    var left := m.Keys;
    while left != {}
      invariant left <= m.Keys
      invariant forall s :: s in m && s !in left ==> lo <= m[s]
      invariant lo <= 0x7fff_ffff_ffff_ffff
      invariant (exists s :: s in m && s !in left && m[s] == lo) || lo == 0x7fff_ffff_ffff_ffff
      decreases |left|
    {
      var k :| k in left;
      if m[k] < lo {
        lo := m[k];
      }
      left := left - {k};
    }
    assert m.Keys != {};
    ghost var k :| k in m;
    assert lo <= m[k];
  }

  predicate PassEvent(m: Offsets, s: StreamName, offset: int) {
    s !in m || offset > m[s]
  }

  /** The lines of stream `s`; which stream a line belongs to is read from the line. */
  function IsOf(streamOf: Bytes -> StreamName, s: StreamName): Line -> bool {
    (x: Line) => streamOf(x.data) == s
  }

  function OfStream(streamOf: Bytes -> StreamName, s: StreamName, ls: seq<Line>): seq<Line> {
    Filter(ls, IsOf(streamOf, s))
  }

  function IsPast(lo: int): Line -> bool {
    (x: Line) => x.offset > lo
  }

  function Past(lo: int, ls: seq<Line>): seq<Line> {
    Filter(ls, IsPast(lo))
  }

  function Passes(streamOf: Bytes -> StreamName, m: Offsets): Line -> bool {
    (x: Line) => PassEvent(m, streamOf(x.data), x.offset)
  }

  /** What a worker's lines become behind `PassEvent`. */
  function Passed(streamOf: Bytes -> StreamName, m: Offsets, ls: seq<Line>): seq<Line> {
    Filter(ls, Passes(streamOf, m))
  }

  /** What a job resumed at `lo` passes on. */
  function Resumed(streamOf: Bytes -> StreamName, cap: nat, m: Offsets, lo: nat, file: Bytes): seq<Line>
    requires lo <= |file|
  {
    Passed(streamOf, m, Wanted(cap, false, lo, file[lo..]))
  }

  /** All lines of the file that the worker would hand over. */
  function FileLines(cap: nat, file: Bytes): seq<Line> {
    Wanted(cap, false, 0, file)
  }

  /** The offset is just past a newline, as every committed offset is. */
  predicate Boundary(file: Bytes, lo: nat) {
    lo <= |file| && (lo == 0 || file[lo - 1] == NL)
  }

  lemma {:induction false} RestSplit(a: Bytes, b: Bytes)
    requires Rest(a) == []
    ensures Rest(a + b) == Rest(b)
    decreases |b|
  {
    if b == [] {
      assert a + b == a;
    } else {
      var l := |b| - 1;
      assert b == b[..l] + [b[l]];
      RestSplit(a, b[..l]);
      Assoc(a, b[..l], [b[l]]);
      Snoc(0, a + b[..l], b[l]);
      Snoc(0, b[..l], b[l]);
    }
  }

  /** After a line boundary the lines start anew. */
  lemma {:induction false} LinesSplit(base: int, a: Bytes, b: Bytes)
    requires Rest(a) == []
    ensures Lines.Lines(base, a + b) == Lines.Lines(base, a) + Lines.Lines(base + |a|, b)
    decreases |b|
  {
    if b == [] {
      assert a + b == a;
    } else {
      var l := |b| - 1;
      LinesSplit(base, a, b[..l]);
      RestSplit(a, b[..l]);
      LinesSplitStep(base, a, b[..l], b[l]);
      assert b == b[..l] + [b[l]];
    }
  }

  lemma LinesSplitStep(base: int, a: Bytes, b: Bytes, x: byte)
    requires Lines.Lines(base, a + b) == Lines.Lines(base, a) + Lines.Lines(base + |a|, b)
    requires Rest(a + b) == Rest(b)
    ensures Lines.Lines(base, a + (b + [x])) == Lines.Lines(base, a) + Lines.Lines(base + |a|, b + [x])
  {
    Assoc(a, b, [x]);
    Snoc(base, a + b, x);
    Snoc(base + |a|, b, x);
    Assoc(Lines.Lines(base, a), Lines.Lines(base + |a|, b), [Line(base + |a| + |b| + 1, Rest(b) + [NL])]);
  }

  lemma {:induction false} FilterConcat(a: seq<Line>, b: seq<Line>, p: Line -> bool)
    ensures Filter(a + b, p) == Filter(a, p) + Filter(b, p)
    decreases |b|
  {
    if b == [] {
      assert a + b == a && Filter(a, p) + [] == Filter(a, p);
    } else {
      var l := |b| - 1;
      FilterConcat(a, b[..l], p);
      assert b == b[..l] + [b[l]] && a + b == (a + b[..l]) + [b[l]];
      FilterSnoc(a + b[..l], b[l], p);
      FilterSnoc(b[..l], b[l], p);
    }
  }

  /** A filter that nothing passes, and one that everything passes. */
  lemma {:induction false} FilterConstant(ls: seq<Line>, p: Line -> bool, keep: bool)
    requires forall x :: x in ls ==> p(x) == keep
    ensures Filter(ls, p) == if keep then ls else []
  {
    if ls != [] {
      var l := |ls| - 1;
      assert ls == ls[..l] + [ls[l]];
      FilterConstant(ls[..l], p, keep);
    }
  }

  lemma {:induction false} FilterIn(ls: seq<Line>, p: Line -> bool)
    ensures forall x :: x in Filter(ls, p) <==> x in ls && p(x)
  {
    if ls != [] {
      var l := |ls| - 1;
      assert ls == ls[..l] + [ls[l]];
      FilterIn(ls[..l], p);
    }
  }

  function Both(p: Line -> bool, q: Line -> bool): Line -> bool {
    (x: Line) => p(x) && q(x)
  }

  lemma {:induction false} FilterTwice(ls: seq<Line>, p: Line -> bool, q: Line -> bool)
    ensures Filter(Filter(ls, p), q) == Filter(ls, Both(p, q))
    decreases |ls|
  {
    if ls != [] {
      var l := |ls| - 1;
      assert ls == ls[..l] + [ls[l]];
      FilterTwice(ls[..l], p, q);
      FilterSnoc(ls[..l], ls[l], p);
      FilterSnoc(ls[..l], ls[l], Both(p, q));
      FilterSnoc(Filter(ls[..l], p), ls[l], q);
    }
  }

  lemma {:induction false} FilterSame(ls: seq<Line>, p: Line -> bool, q: Line -> bool)
    requires forall x :: p(x) == q(x)
    ensures Filter(ls, p) == Filter(ls, q)
  {
    if ls != [] {
      FilterSame(ls[..|ls| - 1], p, q);
    }
  }

  /** Two chains of filters that keep the same lines. */
  lemma FiltersAgree(ls: seq<Line>, p1: Line -> bool, p2: Line -> bool, p3: Line -> bool,
                     q1: Line -> bool, q2: Line -> bool)
    requires forall x :: (p1(x) && p2(x) && p3(x)) == (q1(x) && q2(x))
    ensures Filter(Filter(Filter(ls, p1), p2), p3) == Filter(Filter(ls, q1), q2)
  {
    FilterTwice(ls, p1, p2);
    FilterTwice(ls, Both(p1, p2), p3);
    FilterTwice(ls, q1, q2);
    FilterSame(ls, Both(Both(p1, p2), p3), Both(q1, q2));
  }

  lemma OffsetsBetween(base: int, c: Bytes, x: Line)
    requires x in Lines.Lines(base, c)
    ensures base < x.offset <= base + |c|
  {
    var i :| 0 <= i < |Lines.Lines(base, c)| && Lines.Lines(base, c)[i] == x;
    LineOffsets(base, c, i);
  }

  lemma WithinOffsets(cap: nat, base: int, c: Bytes)
    ensures forall x :: x in Within(cap, Lines.Lines(base, c)) ==> base < x.offset <= base + |c|
  {
    FilterIn(Lines.Lines(base, c), FitsIn(cap));
    forall x | x in Within(cap, Lines.Lines(base, c))
      ensures base < x.offset <= base + |c|
    {
      OffsetsBetween(base, c, x);
    }
  }

  lemma PastOfConcat(lo: int, a: seq<Line>, b: seq<Line>)
    requires (forall x :: x in a ==> x.offset <= lo) && (forall x :: x in b ==> x.offset > lo)
    ensures Past(lo, a + b) == b
  {
    FilterConcat(a, b, IsPast(lo));
    FilterConstant(a, IsPast(lo), false);
    FilterConstant(b, IsPast(lo), true);
  }

  lemma WithinSplit(cap: nat, a: Bytes, b: Bytes)
    requires Rest(a) == []
    ensures FileLines(cap, a + b) == Within(cap, Lines.Lines(0, a)) + Within(cap, Lines.Lines(|a|, b))
  {
    LinesSplit(0, a, b);
    FilterConcat(Lines.Lines(0, a), Lines.Lines(|a|, b), FitsIn(cap));
  }

  lemma ReadsPast(cap: nat, a: Bytes, b: Bytes)
    requires Rest(a) == []
    ensures Wanted(cap, false, |a|, b) == Past(|a|, FileLines(cap, a + b))
  {
    WithinSplit(cap, a, b);
    WithinOffsets(cap, 0, a);
    WithinOffsets(cap, |a|, b);
    PastOfConcat(|a|, Within(cap, Lines.Lines(0, a)), Within(cap, Lines.Lines(|a|, b)));
  }

  /** Reading from a line boundary gives exactly the file's lines past it. */
  lemma ResumeReadsPast(cap: nat, lo: nat, file: Bytes)
    requires Boundary(file, lo)
    ensures Wanted(cap, false, lo, file[lo..]) == Past(lo, FileLines(cap, file))
  {
    assert Rest(file[..lo]) == [];
    ReadsPast(cap, file[..lo], file[lo..]);
    assert file[..lo] + file[lo..] == file;
  }

  lemma SameForSaved(streamOf: Bytes -> StreamName, m: Offsets, lo: int, s: StreamName, x: Line)
    requires s in m && lo <= m[s]
    ensures (IsPast(lo)(x) && Passes(streamOf, m)(x) && IsOf(streamOf, s)(x))
           == (IsOf(streamOf, s)(x) && IsPast(m[s])(x))
  {
    var t := streamOf(x.data);
    assert t == s ==> t in m && m[t] == m[s];
    assert Passes(streamOf, m)(x) == PassEvent(m, t, x.offset);
  }

  lemma SameForUnsaved(streamOf: Bytes -> StreamName, m: Offsets, lo: int, s: StreamName, x: Line)
    requires s !in m
    ensures (IsPast(lo)(x) && Passes(streamOf, m)(x) && IsOf(streamOf, s)(x)) == (IsOf(streamOf, s)(x) && IsPast(lo)(x))
  {
    var t := streamOf(x.data);
    assert t == s ==> t !in m;
    assert Passes(streamOf, m)(x) == PassEvent(m, t, x.offset);
  }

  /** A job resumed from the least saved offset passes on, for every stream with a saved
      offset, exactly that stream's lines past it: nothing twice, nothing skipped. */
  lemma ResumeSavedStream(streamOf: Bytes -> StreamName, cap: nat, m: Offsets, lo: nat, file: Bytes, s: StreamName)
    requires IsMin(m, lo) && Boundary(file, lo) && s in m
    ensures OfStream(streamOf, s, Resumed(streamOf, cap, m, lo, file))
         == Past(m[s], OfStream(streamOf, s, FileLines(cap, file)))
  {
    ResumeReadsPast(cap, lo, file);
    forall x: Line
      ensures (IsPast(lo)(x) && Passes(streamOf, m)(x) && IsOf(streamOf, s)(x))
           == (IsOf(streamOf, s)(x) && IsPast(m[s])(x))
    {
      SameForSaved(streamOf, m, lo, s, x);
    }
    FiltersAgree(FileLines(cap, file), IsPast(lo), Passes(streamOf, m),
                 IsOf(streamOf, s), IsOf(streamOf, s), IsPast(m[s]));
  }

  lemma {:induction false} LineEnds(base: int, c: Bytes, i: nat)
    requires i < |Lines.Lines(base, c)|
    ensures 0 < Lines.Lines(base, c)[i].offset - base <= |c|
    ensures c[Lines.Lines(base, c)[i].offset - base - 1] == NL
  {
    var l := |c| - 1;
    if !(c[l] == NL && i == |Lines.Lines(base, c[..l])|) {
      LineEnds(base, c[..l], i);
    }
  }

  /** Every offset that can be committed is a boundary, and stays one while the file grows. */
  lemma CommittedIsBoundary(cap: nat, file: Bytes, more: Bytes, x: Line)
    requires x in FileLines(cap, file)
    ensures x.offset > 0 && Boundary(file + more, x.offset)
  {
    FilterIn(Lines.Lines(0, file), FitsIn(cap));
    var i :| 0 <= i < |Lines.Lines(0, file)| && Lines.Lines(0, file)[i] == x;
    LineEnds(0, file, i);
  }

  lemma {:induction false} LastIsCommitted(m: Offsets, g: nat, cs: seq<Commit>, s: StreamName) returns (i: nat)
    requires Last(m, g, cs, s) != Current(m, s)
    ensures i < |cs| && cs[i].offset == Last(m, g, cs, s) && cs[i].stream == s && Counts(g, cs[i])
    decreases |cs|
  {
    var l := |cs| - 1;
    if cs[l].stream == s && Counts(g, cs[l]) {
      i := l;
    } else {
      i := LastIsCommitted(m, g, cs[..l], s);
    }
  }

  lemma PastIsAllIff(lo: int, ls: seq<Line>)
    ensures Past(lo, ls) == ls <==> forall i :: 0 <= i < |ls| ==> ls[i].offset > lo
  {
    FilterIn(ls, IsPast(lo));
    if forall i :: 0 <= i < |ls| ==> ls[i].offset > lo {
      FilterConstant(ls, IsPast(lo), true);
    } else {
      var i :| 0 <= i < |ls| && !(ls[i].offset > lo);
      assert ls[i] in ls && ls[i] !in Past(lo, ls);
    }
  }

  /** A stream with no saved offset has had nothing committed, yet the job passes on all of
      its lines only if none of them ends at or before the least saved offset. */
  lemma ResumeUnsavedStreamIff(streamOf: Bytes -> StreamName, cap: nat, m: Offsets, lo: nat, file: Bytes, s: StreamName)
    requires IsMin(m, lo) && Boundary(file, lo) && s !in m
    ensures var ls := OfStream(streamOf, s, FileLines(cap, file));
            OfStream(streamOf, s, Resumed(streamOf, cap, m, lo, file)) == ls
            <==> forall i :: 0 <= i < |ls| ==> ls[i].offset > lo
  {
    ResumeReadsPast(cap, lo, file);
    forall x: Line
      ensures (IsPast(lo)(x) && Passes(streamOf, m)(x) && IsOf(streamOf, s)(x))
           == (IsOf(streamOf, s)(x) && IsPast(lo)(x))
    {
      SameForUnsaved(streamOf, m, lo, s, x);
    }
    FiltersAgree(FileLines(cap, file), IsPast(lo), Passes(streamOf, m),
                 IsOf(streamOf, s), IsOf(streamOf, s), IsPast(lo));
    PastIsAllIff(lo, OfStream(streamOf, s, FileLines(cap, file)));
  }

  /** Such a loss: the first line, of a stream with nothing committed yet, is behind the
      committed second line of another stream. */
  lemma UnsavedStreamLoses()
    ensures var file: Bytes := [97, NL, 98, NL];
            var streamOf := (d: Bytes) => if d != [] && d[0] == 97 then "a" else "b";
            var m := map["b" := 4];
            && IsMin(m, 4) && Boundary(file, 4)
            && Line(2, [97, NL]) in FileLines(0, file)
            && Resumed(streamOf, 0, m, 4, file) == []
  {
    var file: Bytes := [97, NL, 98, NL];
    var m := map["b" := 4];
    assert "b" in m && m["b"] == 4;
    assert file[4..] == [];
    var one: Bytes := [97, NL];
    var two: Bytes := [98, NL];
    assert [] + one == one;
    AppendLine(0, [], one);
    assert Rest([]) + one == one;
    assert file == one + two;
    LinesSplit(0, one, two);
    FilterIn(Lines.Lines(0, file), FitsIn(0));
    assert Line(2, one) in Lines.Lines(0, one);
  }
}
