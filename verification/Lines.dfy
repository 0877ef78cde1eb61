/** Splitting a file into lines, as one definition over the whole content and as the worker
    does it: chunk by chunk, across several job runs, with a cap on the line length. */
module Lines {
  import opened Basics

  newtype byte = x: int | 0 <= x < 256

  const NL: byte := 10

  type Bytes = seq<byte>

  /** A complete line: its bytes with the newline, and the offset just past it. */
  datatype Line = Line(offset: int, data: Bytes)

  // ------------------------------------------------------------ the definition

  /** The bytes after the last newline. */
  function Rest(c: Bytes): Bytes {
    if c == [] then []
    else if c[|c| - 1] == NL then []
    else Rest(c[..|c| - 1]) + [c[|c| - 1]]
  }

  /** The complete lines of `c`, which starts at offset `base`. */
  function Lines(base: int, c: Bytes): seq<Line> {
    if c == [] then []
    else
      var l := |c| - 1;
      if c[l] == NL then Lines(base, c[..l]) + [Line(base + l + 1, Rest(c[..l]) + [NL])]
      else Lines(base, c[..l])
  }

  predicate Fits(cap: nat, d: Bytes) {
    cap == 0 || |d| <= cap
  }

  function Filter(ls: seq<Line>, p: Line -> bool): seq<Line> {
    if ls == [] then []
    else Filter(ls[..|ls| - 1], p) + if p(ls[|ls| - 1]) then [ls[|ls| - 1]] else []
  }

  function FitsIn(cap: nat): Line -> bool {
    (x: Line) => Fits(cap, x.data)
  }

  /** The lines within the cap; a cap of 0 means none. */
  function Within(cap: nat, ls: seq<Line>): seq<Line> {
    Filter(ls, FitsIn(cap))
  }

  function Kept(skipFirst: bool, ls: seq<Line>): seq<Line> {
    if skipFirst && ls != [] then ls[1..] else ls
  }

  /** What the input should get from content `c`: a job that starts in the middle of a line
      leaves out the first one. */
  function Wanted(cap: nat, skipFirst: bool, base: int, c: Bytes): seq<Line> {
    Within(cap, Kept(skipFirst, Lines(base, c)))
  }

  // -------------------------------------------------- what the definition means

  function Flatten(ls: seq<Line>): Bytes {
    if ls == [] then [] else Flatten(ls[..|ls| - 1]) + ls[|ls| - 1].data
  }

  lemma FlattenSnoc(ls: seq<Line>, x: Line)
    ensures Flatten(ls + [x]) == Flatten(ls) + x.data
  {
    assert (ls + [x])[..|ls|] == ls;
  }

  /** A line has one newline, at its end. */
  ghost predicate IsLine(d: Bytes) {
    d != [] && d[|d| - 1] == NL && forall i :: 0 <= i < |d| - 1 ==> d[i] != NL
  }

  /** How one more byte changes the lines and the rest. */
  lemma Snoc(base: int, c: Bytes, b: byte)
    ensures Rest(c + [b]) == if b == NL then [] else Rest(c) + [b]
    ensures Lines(base, c + [b]) ==
            if b == NL then Lines(base, c) + [Line(base + |c| + 1, Rest(c) + [NL])] else Lines(base, c)
  {
    assert (c + [b])[..|c|] == c;
  }

  lemma {:induction false} RestIsPlain(c: Bytes)
    ensures NL !in Rest(c)
  {
    if c != [] && c[|c| - 1] != NL {
      RestIsPlain(c[..|c| - 1]);
    }
  }

  lemma {:induction false} LinesAreLines(base: int, c: Bytes, i: nat)
    requires i < |Lines(base, c)|
    ensures IsLine(Lines(base, c)[i].data)
  {
    var l := |c| - 1;
    if c[l] == NL && i == |Lines(base, c[..l])| {
      RestIsPlain(c[..l]);
    } else {
      LinesAreLines(base, c[..l], i);
    }
  }

  /** The lines and the rest are the content, cut right after each newline. */
  lemma {:induction false} LinesCoverContent(base: int, c: Bytes)
    ensures Flatten(Lines(base, c)) + Rest(c) == c
    decreases |c|
  {
    if c != [] {
      var l := |c| - 1;
      var d, b := c[..l], c[l];
      assert c == d + [b];
      LinesCoverContent(base, d);
      Snoc(base, d, b);
      if b == NL {
        FlattenSnoc(Lines(base, d), Line(base + |d| + 1, Rest(d) + [NL]));
      }
      Assoc(Flatten(Lines(base, d)), Rest(d), [b]);
    }
  }

  /** Every line carries the offset just past its newline. */
  lemma {:induction false} LineOffsets(base: int, c: Bytes, i: nat)
    requires i < |Lines(base, c)|
    ensures Lines(base, c)[i].offset == base + |Flatten(Lines(base, c)[..i + 1])|
    ensures base < Lines(base, c)[i].offset <= base + |c|
  {
    var l := |c| - 1;
    var before := Lines(base, c[..l]);
    if c[l] == NL && i == |before| {
      LinesCoverContent(base, c);
      assert Lines(base, c)[..i + 1] == Lines(base, c);
    } else {
      LineOffsets(base, c[..l], i);
      assert Lines(base, c)[..i + 1] == before[..i + 1];
    }
  }

  /** Offsets grow from line to line. */
  lemma OffsetsIncrease(base: int, c: Bytes, i: nat, j: nat)
    requires i < j < |Lines(base, c)|
    ensures Lines(base, c)[i].offset < Lines(base, c)[j].offset
  {
    LineOffsets(base, c, i);
    LineOffsets(base, c, j);
    forall k | 0 <= k < |Lines(base, c)|
      ensures Lines(base, c)[k].data != []
    {
      LinesAreLines(base, c, k);
    }
    FlattenGrows(Lines(base, c), i + 1, j + 1);
  }

  lemma {:induction false} FlattenGrows(ls: seq<Line>, i: nat, j: nat)
    requires i < j <= |ls| && forall k :: 0 <= k < |ls| ==> ls[k].data != []
    ensures |Flatten(ls[..i])| < |Flatten(ls[..j])|
    decreases j
  {
    assert ls[..j][..j - 1] == ls[..j - 1];
    if i < j - 1 {
      FlattenGrows(ls, i, j - 1);
    }
  }

  // ------------------------------------------------------------------- growth

  /** Bytes without a newline only lengthen the rest. */
  lemma {:induction false} AppendPlain(base: int, c: Bytes, p: Bytes)
    requires NL !in p
    ensures Lines(base, c + p) == Lines(base, c)
    ensures Rest(c + p) == Rest(c) + p
    decreases |p|
  {
    if p == [] {
      assert c + p == c && Rest(c) + p == Rest(c);
    } else {
      var l := |p| - 1;
      assert p == p[..l] + [p[l]];
      AppendPlain(base, c, p[..l]);
      Assoc(c, p[..l], [p[l]]);
      Snoc(base, c + p[..l], p[l]);
      Assoc(Rest(c), p[..l], [p[l]]);
    }
  }

  lemma AppendNewline(base: int, c: Bytes, q: Bytes)
    requires NL !in q
    ensures Lines(base, c + (q + [NL])) == Lines(base, c) + [Line(base + |c| + |q| + 1, Rest(c) + (q + [NL]))]
    ensures Rest(c + (q + [NL])) == []
  {
    AppendPlain(base, c, q);
    Assoc(c, q, [NL]);
    Snoc(base, c + q, NL);
    Assoc(Rest(c), q, [NL]);
  }

  /** Bytes that end with their only newline complete one line. */
  lemma AppendLine(base: int, c: Bytes, p: Bytes)
    requires IsLine(p)
    ensures Lines(base, c + p) == Lines(base, c) + [Line(base + |c| + |p|, Rest(c) + p)]
    ensures Rest(c + p) == []
  {
    var q := p[..|p| - 1];
    assert p == q + [NL];
    assert NL !in q;
    AppendNewline(base, c, q);
  }

  lemma FilterSnoc(ls: seq<Line>, x: Line, p: Line -> bool)
    ensures Filter(ls + [x], p) == if p(x) then Filter(ls, p) + [x] else Filter(ls, p)
  {
    assert (ls + [x])[..|ls|] == ls;
  }

  /** The input gets a line exactly if it is not left out and, with its newline, is within the cap. */
  lemma {:induction false} WithinIff(cap: nat, ls: seq<Line>, x: Line)
    ensures x in Within(cap, ls) <==> x in ls && (cap == 0 || |x.data| <= cap)
  {
    if ls != [] {
      var n := |ls| - 1;
      WithinIff(cap, ls[..n], x);
      assert ls == ls[..n] + [ls[n]];
    }
  }

  lemma KeptGrows(cap: nat, skipFirst: bool, ls: seq<Line>, x: Line)
    ensures Within(cap, Kept(skipFirst, ls + [x]))
         == Within(cap, Kept(skipFirst, ls)) + if Fits(cap, x.data) && !(skipFirst && ls == []) then [x] else []
  {
    if !skipFirst {
      FilterSnoc(ls, x, FitsIn(cap));
    } else if ls == [] {
      assert (ls + [x])[1..] == [];
    } else {
      assert (ls + [x])[1..] == ls[1..] + [x];
      FilterSnoc(ls[1..], x, FitsIn(cap));
    }
  }

  /** What one more line adds to what the input should get. */
  lemma WantedGrows(cap: nat, skipFirst: bool, base: int, c: Bytes, p: Bytes)
    requires IsLine(p)
    ensures var x := Line(base + |c| + |p|, Rest(c) + p);
            Wanted(cap, skipFirst, base, c + p)
            == Wanted(cap, skipFirst, base, c)
               + if Fits(cap, x.data) && !(skipFirst && Lines(base, c) == []) then [x] else []
  {
    AppendLine(base, c, p);
    KeptGrows(cap, skipFirst, Lines(base, c), Line(base + |c| + |p|, Rest(c) + p));
  }

  function Join(parts: seq<Bytes>): Bytes {
    if parts == [] then [] else Join(parts[..|parts| - 1]) + parts[|parts| - 1]
  }

  lemma JoinSnoc(parts: seq<Bytes>, p: Bytes)
    ensures Join(parts + [p]) == Join(parts) + p
  {
    assert (parts + [p])[..|parts|] == parts;
  }

  /** Everything that several job runs read. */
  function JoinRuns(runs: seq<seq<Bytes>>): Bytes {
    if runs == [] then [] else JoinRuns(runs[..|runs| - 1]) + Join(runs[|runs| - 1])
  }

  lemma JoinRunsSnoc(runs: seq<seq<Bytes>>, r: seq<Bytes>)
    ensures JoinRuns(runs + [r]) == JoinRuns(runs) + Join(r)
  {
    assert (runs + [r])[..|runs|] == runs;
  }
}
