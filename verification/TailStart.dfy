/** How a job chooses the offset from which it reads, and why a job that starts at the end of a
    file neither loses a whole line nor hands over a part of one. */
module TailStart {
  import opened Basics
  import opened Lines
  import Restart

  datatype OffsetsOp = Tail | Reset | Continue

  /** Where a job starts: the offset, whether the first line is left out, the saved offsets. */
  datatype Begin = Begin(offset: int, skipFirst: bool, offsets: Restart.Offsets)

  /** `initJobOffset`. Saved offsets without any stream are a panic. */
  method InitJobOffset(op: OffsetsOp, size: nat, loaded: Option<Restart.Offsets>) returns (r: Option<Begin>)
    requires loaded.Some? ==> forall s :: s in loaded.value ==> loaded.value[s] <= 0x7fff_ffff_ffff_ffff
    ensures r.None? <==> op == Continue && loaded == Some(map[])
    ensures op == Tail ==> r == Some(if size == 0 then Begin(0, false, map[]) else Begin(size - 1, true, map[]))
    ensures op == Reset || (op == Continue && loaded.None?) ==> r == Some(Begin(0, false, map[]))
    ensures op == Continue && loaded.Some? && loaded.value != map[] ==>
              r.Some? && !r.value.skipFirst && r.value.offsets == loaded.value
              && Restart.IsMin(loaded.value, r.value.offset)
  {
    if op == Tail {
      if size == 0 {
        return Some(Begin(0, false, map[]));
      }
      return Some(Begin(size - 1, true, map[]));
    }
    if op == Reset || loaded.None? {
      return Some(Begin(0, false, map[]));
    }
    if loaded.value == map[] {
      return None;
    }
    var lo := Restart.MinOffset(loaded.value);
    return Some(Begin(lo, false, loaded.value));
  }

  /** The line begins at or after `k`. */
  function StartsAt(k: int): Line -> bool {
    (x: Line) => x.offset - |x.data| >= k
  }

  /** Reading `b` from offset `k` on, seen against the whole file: before the first newline nothing
      was completed on either side; afterwards the unfinished line is the same, and the lines but
      the first are those of the file that begin at the old end. `tail` are the lines of `b`, `whole`
      those of the file that begin past `k`, the others are what is unfinished before `b`, with it,
      and in it alone. */
  ghost predicate Agree(b: Bytes, tail: seq<Line>, whole: seq<Line>, rest: Bytes, both: Bytes, own: Bytes) {
    if NL in b then tail != [] && Kept(true, tail) == whole && both == own && |own| < |b|
    else tail == [] && whole == [] && both == rest + b && own == b
  }

  lemma AgreeNewline(k: nat, b: Bytes, tail: seq<Line>, whole: seq<Line>, rest: Bytes, both: Bytes, own: Bytes)
    requires Agree(b, tail, whole, rest, both, own)
    ensures var x := Line(k + |b| + 1, both + [NL]);
            Agree(b + [NL], tail + [Line(k + |b| + 1, own + [NL])],
                  if StartsAt(k + 1)(x) then whole + [x] else whole, rest, [], [])
  {
    assert (b + [NL])[|b|] == NL;
    KeptSnoc(tail, Line(k + |b| + 1, own + [NL]));
  }

  lemma AgreePlain(k: nat, b: Bytes, tail: seq<Line>, whole: seq<Line>, rest: Bytes, both: Bytes, own: Bytes, y: byte)
    requires Agree(b, tail, whole, rest, both, own) && y != NL
    ensures Agree(b + [y], tail, whole, rest, both + [y], own + [y])
  {
    Assoc(rest, b, [y]);
    assert NL in b + [y] <==> NL in b;
  }

  /** `d` is the whole file: what was there before, and `b`. */
  ghost predicate InStep(k: nat, rest: Bytes, b: Bytes, d: Bytes) {
    && |d| == k + |b|
    && Agree(b, Lines.Lines(k, b), Filter(Lines.Lines(0, d), StartsAt(k + 1)), rest, Rest(d), Rest(b))
  }

  lemma {:induction false} RestBound(c: Bytes)
    ensures |Rest(c)| <= |c|
  {
    if c != [] {
      RestBound(c[..|c| - 1]);
    }
  }

  lemma {:induction false} NoneStartsPast(a: Bytes, k: int)
    requires k >= |a|
    ensures Filter(Lines.Lines(0, a), StartsAt(k)) == []
    decreases |a|
  {
    if a != [] {
      var l := |a| - 1;
      NoneStartsPast(a[..l], k);
      RestBound(a[..l]);
      if a[l] == NL {
        FilterSnoc(Lines.Lines(0, a[..l]), Line(l + 1, Rest(a[..l]) + [NL]), StartsAt(k));
      }
    }
  }

  lemma KeptSnoc(ls: seq<Line>, x: Line)
    ensures Kept(true, ls + [x]) == if ls == [] then [] else Kept(true, ls) + [x]
  {
  }

  lemma NewlineFilter(d: Bytes, k: int)
    ensures var x := Line(|d| + 1, Rest(d) + [NL]);
            var whole := Filter(Lines.Lines(0, d), StartsAt(k));
            Filter(Lines.Lines(0, d + [NL]), StartsAt(k)) == if StartsAt(k)(x) then whole + [x] else whole
  {
    Snoc(0, d, NL);
    FilterSnoc(Lines.Lines(0, d), Line(|d| + 1, Rest(d) + [NL]), StartsAt(k));
  }

  lemma StepNewline(k: nat, rest: Bytes, b: Bytes, d: Bytes)
    requires InStep(k, rest, b, d)
    ensures InStep(k, rest, b + [NL], d + [NL])
  {
    NewlineFilter(d, k + 1);
    Snoc(0, d, NL);
    Snoc(k, b, NL);
    AgreeNewline(k, b, Lines.Lines(k, b), Filter(Lines.Lines(0, d), StartsAt(k + 1)), rest, Rest(d), Rest(b));
  }

  lemma StepPlain(k: nat, rest: Bytes, b: Bytes, d: Bytes, y: byte)
    requires InStep(k, rest, b, d) && y != NL
    ensures InStep(k, rest, b + [y], d + [y])
  {
    Snoc(0, d, y);
    Snoc(k, b, y);
    AgreePlain(k, b, Lines.Lines(k, b), Filter(Lines.Lines(0, d), StartsAt(k + 1)), rest, Rest(d), Rest(b), y);
  }

  lemma {:induction false} AllInStep(a: Bytes, b: Bytes, d: Bytes)
    requires d == a + b
    ensures InStep(|a|, Rest(a), b, d)
    decreases |b|
  {
    if b == [] {
      assert d == a;
      NoneStartsPast(a, |a| + 1);
    } else {
      var l := |b| - 1;
      var b', d' := b[..l], d[..|d| - 1];
      AllInStep(a, b', d');
      assert b == b' + [b[l]] && d == d' + [b[l]];
      if b[l] == NL {
        StepNewline(|a|, Rest(a), b', d');
      } else {
        StepPlain(|a|, Rest(a), b', d', b[l]);
      }
    }
  }

  lemma TailLines(a: Bytes, b: Bytes, d: Bytes)
    requires d == a + b
    ensures Kept(true, Lines.Lines(|a|, b)) == Filter(Lines.Lines(0, d), StartsAt(|a| + 1))
  {
    AllInStep(a, b, d);
  }

  /** A job that starts at the end of `file` reads from its last byte on and leaves out the first
      line it sees. It hands over exactly the lines within the cap that begin at the old end or
      later: no whole line is lost, and no part of one that was already begun is taken for one. */
  lemma TailKeepsWholeLines(cap: nat, file: Bytes, more: Bytes)
    requires file != []
    ensures Wanted(cap, true, |file| - 1, (file + more)[|file| - 1..])
         == Within(cap, Filter(Lines.Lines(0, file + more), StartsAt(|file|)))
  {
    var a, b := file[..|file| - 1], (file + more)[|file| - 1..];
    TailLines(a, b, file + more);
  }
}
