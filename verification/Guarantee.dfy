/** What the whole is for: no line is lost over a crash. The lines of a file go through the pipeline
    in some run, offsets are saved after some of the notifications, the process ends at any moment,
    and a new one resumes from what was saved. */
module Guarantee {
  import opened Basics
  import opened Lines
  import R = Restart
  import S = Streams
  import I = StreamsInv
  import B = Batcher
  import D = Delivery

  // ------------------------------------------------------- offsets while they change

  /** What happens to a job while it reads: the worker hands over the next line, or the output
      commits one that was passed on. */
  datatype Act = ReadNext | CommitPassed(i: nat)

  datatype Reading = Reading(offsets: R.Offsets, pos: nat, passed: seq<Line>)

  /** `PassEvent` looks at the offsets as they are at that moment. */
  function DoAct(streamOf: Bytes -> StreamName, ls: seq<Line>, r: Reading, a: Act): Reading {
    match a
    case ReadNext =>
      if r.pos >= |ls| then r
      else
        var x := ls[r.pos];
        var pass := R.PassEvent(r.offsets, streamOf(x.data), x.offset);
        r.(pos := r.pos + 1, passed := if pass then r.passed + [x] else r.passed)
    case CommitPassed(i) =>
      if i >= |r.passed| then r
      else
        var x := r.passed[i];
        r.(offsets := R.CommitOne(r.offsets, 0, R.Commit(streamOf(x.data), x.offset, i + 1, true)).0)
  }

  function DoActs(streamOf: Bytes -> StreamName, ls: seq<Line>, m: R.Offsets, acts: seq<Act>): Reading {
    if acts == [] then Reading(m, 0, [])
    else DoAct(streamOf, ls, DoActs(streamOf, ls, m, acts[..|acts| - 1]), acts[|acts| - 1])
  }

  ghost predicate Ascending(ls: seq<Line>) {
    forall i, j :: 0 <= i < j < |ls| ==> ls[i].offset < ls[j].offset
  }

  /** An offset is the saved one, or that of a line read since. */
  ghost predicate OffsetOK(ls: seq<Line>, m: R.Offsets, r: Reading, t: StreamName) {
    && (t in m ==> t in r.offsets && r.offsets[t] >= m[t])
    && (t in r.offsets ==>
          || (t in m && r.offsets[t] == m[t])
          || exists i :: 0 <= i < r.pos && i < |ls| && ls[i].offset == r.offsets[t])
  }

  ghost predicate ReadingOK(streamOf: Bytes -> StreamName, ls: seq<Line>, m: R.Offsets, r: Reading) {
    && r.pos <= |ls|
    && r.passed == R.Passed(streamOf, m, ls[..r.pos])
    && forall t :: OffsetOK(ls, m, r, t)
  }

  /** So the changed offset of a stream decides on its next line as the saved one does. */
  lemma SameDecision(ls: seq<Line>, m: R.Offsets, r: Reading, t: StreamName)
    requires Ascending(ls) && r.pos < |ls| && OffsetOK(ls, m, r, t)
    ensures R.PassEvent(r.offsets, t, ls[r.pos].offset) == R.PassEvent(m, t, ls[r.pos].offset)
  {
  }

  lemma ReadKeeps(streamOf: Bytes -> StreamName, ls: seq<Line>, m: R.Offsets, r: Reading)
    requires Ascending(ls) && ReadingOK(streamOf, ls, m, r)
    ensures ReadingOK(streamOf, ls, m, DoAct(streamOf, ls, r, ReadNext))
  {
    if r.pos < |ls| {
      var x := ls[r.pos];
      var r' := DoAct(streamOf, ls, r, ReadNext);
      SameDecision(ls, m, r, streamOf(x.data));
      assert ls[..r.pos + 1] == ls[..r.pos] + [x];
      FilterSnoc(ls[..r.pos], x, R.Passes(streamOf, m));
      forall t
        ensures OffsetOK(ls, m, r', t)
      {
        assert OffsetOK(ls, m, r, t);
      }
    }
  }

  lemma CommitKeeps(streamOf: Bytes -> StreamName, ls: seq<Line>, m: R.Offsets, r: Reading, i: nat)
    requires ReadingOK(streamOf, ls, m, r)
    ensures ReadingOK(streamOf, ls, m, DoAct(streamOf, ls, r, CommitPassed(i)))
  {
    if i < |r.passed| {
      var x := r.passed[i];
      var r' := DoAct(streamOf, ls, r, CommitPassed(i));
      R.FilterIn(ls[..r.pos], R.Passes(streamOf, m));
      assert x in ls[..r.pos];
      var k :| 0 <= k < r.pos && ls[..r.pos][k] == x;
      forall t
        ensures OffsetOK(ls, m, r', t)
      {
        assert OffsetOK(ls, m, r, t);
        assert ls[k].offset == x.offset;
      }
    }
  }

  /** However commits and reads mix, the lines passed on are those that the saved offsets let
      through. */
  lemma {:induction false} LiveOffsets(streamOf: Bytes -> StreamName, ls: seq<Line>, m: R.Offsets, acts: seq<Act>)
    requires Ascending(ls)
    ensures ReadingOK(streamOf, ls, m, DoActs(streamOf, ls, m, acts))
    decreases |acts|
  {
    if acts != [] {
      var n := |acts| - 1;
      LiveOffsets(streamOf, ls, m, acts[..n]);
      var r := DoActs(streamOf, ls, m, acts[..n]);
      match acts[n]
      case ReadNext => ReadKeeps(streamOf, ls, m, r);
      case CommitPassed(i) => CommitKeeps(streamOf, ls, m, r, i);
    }
  }

  // --------------------------------------------------------------- one life of a job

  /** A job from its start: what was saved, where it resumes, the file as far as it is read, and
      the names of its streams. Other streams of the pipeline belong to other jobs. `refused` are the
      lines that `Pipeline.In` does not let in, for whatever reason it has in this life. */
  datatype Life = Life(
    streamOf: Bytes -> StreamName,
    cap: nat,
    names: map<S.StreamId, StreamName>,
    saved: R.Offsets,
    lo: nat,
    file: Bytes,
    refused: Line -> bool)

  ghost predicate StartsAt(m: R.Offsets, lo: nat) {
    if m == map[] then lo == 0 else R.IsMin(m, lo)
  }

  /** Saved offsets are line ends of the file. */
  ghost predicate SavedOK(m: R.Offsets, file: Bytes) {
    forall t :: t in m ==> m[t] > 0 && R.Boundary(file, m[t])
  }

  ghost predicate LifeOK(l: Life) {
    l.lo <= |l.file| && StartsAt(l.saved, l.lo) && SavedOK(l.saved, l.file) && OneName(l.names)
  }

  ghost predicate OneName(names: map<S.StreamId, StreamName>) {
    forall a, b :: a in names && b in names && names[a] == names[b] ==> a == b
  }

  /** The lines of one stream that are read and that `PassEvent` lets through. */
  function Handed(l: Life, t: StreamName): seq<Line>
    requires l.lo <= |l.file|
  {
    R.OfStream(l.streamOf, t, R.Resumed(l.streamOf, l.cap, l.saved, l.lo, l.file))
  }

  lemma {:induction false} FilterAscending(ls: seq<Line>, p: Line -> bool)
    requires Ascending(ls)
    ensures Ascending(Filter(ls, p))
    decreases |ls|
  {
    if ls != [] {
      var n := |ls| - 1;
      FilterAscending(ls[..n], p);
      R.FilterIn(ls[..n], p);
      assert forall x :: x in ls[..n] ==> x.offset < ls[n].offset;
      var f := Filter(ls[..n], p);
      assert forall i :: 0 <= i < |f| ==> f[i] in f;
    }
  }

  lemma LinesAscend(base: int, c: Bytes)
    ensures Ascending(Lines.Lines(base, c))
  {
    forall i, j | 0 <= i < j < |Lines.Lines(base, c)|
      ensures Lines.Lines(base, c)[i].offset < Lines.Lines(base, c)[j].offset
    {
      OffsetsIncrease(base, c, i, j);
    }
  }

  lemma StartIsBoundary(l: Life)
    requires LifeOK(l)
    ensures R.Boundary(l.file, l.lo)
  {
  }

  /** They are lines of the file, in order, and past what was saved. */
  lemma HandedLines(l: Life, t: StreamName)
    requires LifeOK(l)
    ensures Ascending(Handed(l, t))
    ensures forall x :: x in Handed(l, t) ==>
              && x in R.FileLines(l.cap, l.file) && l.streamOf(x.data) == t
              && x.offset > l.lo && x.offset > R.Current(l.saved, t)
  {
    StartIsBoundary(l);
    var read := Wanted(l.cap, false, l.lo, l.file[l.lo..]);
    R.ResumeReadsPast(l.cap, l.lo, l.file);
    R.FilterIn(R.FileLines(l.cap, l.file), R.IsPast(l.lo));
    R.FilterIn(read, R.Passes(l.streamOf, l.saved));
    R.FilterIn(R.Resumed(l.streamOf, l.cap, l.saved, l.lo, l.file), R.IsOf(l.streamOf, t));
    LinesAscend(l.lo, l.file[l.lo..]);
    FilterAscending(Lines.Lines(l.lo, l.file[l.lo..]), FitsIn(l.cap));
    FilterAscending(read, R.Passes(l.streamOf, l.saved));
    FilterAscending(R.Resumed(l.streamOf, l.cap, l.saved, l.lo, l.file), R.IsOf(l.streamOf, t));
  }

  /** The worker's reads, mixed with commits in any way, pass on the handed lines of every stream in
      their order, and all of them once the file is read. */
  lemma ReadsAreHanded(l: Life, acts: seq<Act>, t: StreamName)
    requires l.lo <= |l.file|
    ensures var read := Wanted(l.cap, false, l.lo, l.file[l.lo..]);
            var r := DoActs(l.streamOf, read, l.saved, acts);
            var sent := R.OfStream(l.streamOf, t, r.passed);
            && sent <= Handed(l, t)
            && (r.pos == |read| ==> sent == Handed(l, t))
  {
    var read := Wanted(l.cap, false, l.lo, l.file[l.lo..]);
    var r := DoActs(l.streamOf, read, l.saved, acts);
    LinesAscend(l.lo, l.file[l.lo..]);
    FilterAscending(Lines.Lines(l.lo, l.file[l.lo..]), FitsIn(l.cap));
    LiveOffsets(l.streamOf, read, l.saved, acts);
    var p, q := R.Passes(l.streamOf, l.saved), R.IsOf(l.streamOf, t);
    assert read == read[..r.pos] + read[r.pos..];
    R.FilterConcat(read[..r.pos], read[r.pos..], p);
    R.FilterConcat(Filter(read[..r.pos], p), Filter(read[r.pos..], p), q);
  }

  function LetIn(l: Life): Line -> bool {
    (x: Line) => !l.refused(x)
  }

  /** Those of them that the pipeline makes events of. */
  function Entered(l: Life, t: StreamName): seq<Line>
    requires l.lo <= |l.file|
  {
    Filter(Handed(l, t), LetIn(l))
  }

  lemma EnteredLines(l: Life, t: StreamName)
    requires LifeOK(l)
    ensures Ascending(Entered(l, t))
    ensures forall x :: x in Entered(l, t) <==> x in Handed(l, t) && !l.refused(x)
    ensures forall x :: x in Entered(l, t) ==>
              && x in R.FileLines(l.cap, l.file) && l.streamOf(x.data) == t
              && x.offset > l.lo && x.offset > R.Current(l.saved, t)
  {
    HandedLines(l, t);
    R.FilterIn(Handed(l, t), LetIn(l));
    FilterAscending(Handed(l, t), LetIn(l));
  }

  // ------------------------------------------------------ notifications are commits

  /** The pipeline's events of the job are the lines that it let in, in their order. */
  ghost predicate Fed(l: Life, y: D.System)
    requires l.lo <= |l.file|
  {
    forall s :: s in l.names && s in y.pipe.streams ==> y.pipe.streams[s].currentSeq <= |Entered(l, l.names[s])|
  }

  predicate IsLine(l: Life, e: S.Event)
    requires l.lo <= |l.file|
  {
    e.stream in l.names && 1 <= e.seqID <= |Entered(l, l.names[e.stream])|
  }

  /** What the job's offsets see of a notification; those of other jobs leave them alone. */
  function AsCommit(l: Life, e: S.Event): R.Commit
    requires l.lo <= |l.file|
  {
    if IsLine(l, e)
    then R.Commit(l.names[e.stream], Entered(l, l.names[e.stream])[e.seqID - 1].offset, e.seqID, true)
    else R.Commit("", 0, 0, false)
  }

  function Commits(l: Life, notified: seq<S.Event>): (r: seq<R.Commit>)
    requires l.lo <= |l.file|
    ensures |r| == |notified| && forall i :: 0 <= i < |r| ==> r[i] == AsCommit(l, notified[i])
  {
    seq(|notified|, i requires 0 <= i < |notified| => AsCommit(l, notified[i]))
  }

  /** Two events of a stream whose numbers increase. */
  lemma {:induction false} NumbersInOrder(events: seq<S.Event>, s: S.StreamId, i: nat, j: nat)
    requires Increasing(I.Numbers(events, s)) && i < j < |events|
    requires events[i].stream == s && events[j].stream == s
    ensures events[i].seqID < events[j].seqID
    decreases |events|
  {
    var n := |events| - 1;
    var before := I.Numbers(events[..n], s);
    if j < n {
      assert forall k :: 0 <= k < |before| ==> I.Numbers(events, s)[k] == before[k];
      NumbersInOrder(events[..n], s, i, j);
    } else {
      InNumbers(events[..n], s, i);
      var k :| 0 <= k < |before| && before[k] == events[i].seqID;
      assert I.Numbers(events, s) == before + [events[n].seqID];
      assert I.Numbers(events, s)[k] == before[k] && I.Numbers(events, s)[|before|] == events[n].seqID;
    }
  }

  lemma {:induction false} InNumbers(events: seq<S.Event>, s: S.StreamId, i: nat)
    requires i < |events| && events[i].stream == s
    ensures events[i].seqID in I.Numbers(events, s)
    decreases |events|
  {
    var n := |events| - 1;
    if i < n {
      InNumbers(events[..n], s, i);
    }
  }

  /** The first `k` notifications of any run, as the job's offsets see them, are in order: the
      corruption panic cannot fire. */
  lemma NotificationsInOrder(g: D.Settings, steps: seq<D.Step>, l: Life, k: nat)
    requires B.ValidOptions(g.opts) && D.ValidRun(g, steps) && LifeOK(l) && Fed(l, D.Exec(g, steps))
    requires k <= |D.Exec(g, steps).pipe.notified|
    ensures R.InOrder(l.saved, 0, Commits(l, D.Exec(g, steps).pipe.notified[..k]))
  {
    var y := D.Exec(g, steps);
    var all := y.pipe.notified;
    D.RunInv(g, steps);
    forall s | s in y.pipe.streams
      ensures Increasing(I.Numbers(all, s))
    {
      D.InOrderNoGaps(g, steps, s);
    }
    CommitsAreInOrder(l, y, k);
  }

  lemma CommitsAreInOrder(l: Life, y: D.System, k: nat)
    requires LifeOK(l) && k <= |y.pipe.notified| && I.EventsOK(y.pipe)
    requires forall s :: s in y.pipe.streams ==> Increasing(I.Numbers(y.pipe.notified, s))
    ensures R.InOrder(l.saved, 0, Commits(l, y.pipe.notified[..k]))
  {
    var all := y.pipe.notified;
    var cs := Commits(l, all[..k]);
    forall i | 0 <= i < |cs| && R.Counts(0, cs[i])
      ensures cs[i].offset > R.Current(l.saved, cs[i].stream)
    {
      EnteredLines(l, cs[i].stream);
      assert Entered(l, cs[i].stream)[all[i].seqID - 1] in Entered(l, cs[i].stream);
    }
    forall i, j | 0 <= i < j < |cs| && R.Counts(0, cs[i]) && R.Counts(0, cs[j]) && cs[i].stream == cs[j].stream
      ensures cs[i].offset < cs[j].offset
    {
      var s := all[i].stream;
      assert all[i] in all && s == all[j].stream;
      NumbersInOrder(all, s, i, j);
      EnteredLines(l, cs[i].stream);
    }
  }

  // --------------------------------------------------------------- saving and resuming

  /** The offsets after the first `k` notifications: the newest that may be on disk when the process
      ends. */
  function SavedAfter(l: Life, notified: seq<S.Event>, k: nat): R.Offsets
    requires l.lo <= |l.file| && k <= |notified|
  {
    R.CommitAll(l.saved, 0, Commits(l, notified[..k])).0
  }

  /** The commits are those of handed lines. */
  ghost predicate OfLines(l: Life, cs: seq<R.Commit>)
    requires l.lo <= |l.file|
  {
    forall i :: 0 <= i < |cs| && R.Counts(0, cs[i]) ==>
      exists x :: x in Entered(l, cs[i].stream) && x.offset == cs[i].offset
  }

  lemma CommitsOfLines(l: Life, notified: seq<S.Event>)
    requires l.lo <= |l.file|
    ensures OfLines(l, Commits(l, notified))
  {
    var cs := Commits(l, notified);
    forall i | 0 <= i < |cs| && R.Counts(0, cs[i])
      ensures exists x :: x in Entered(l, cs[i].stream) && x.offset == cs[i].offset
    {
      assert Entered(l, cs[i].stream)[notified[i].seqID - 1] in Entered(l, cs[i].stream);
    }
  }

  lemma LastIsLine(l: Life, cs: seq<R.Commit>, more: Bytes, t: StreamName)
    requires LifeOK(l) && OfLines(l, cs) && R.Last(l.saved, 0, cs, t) != R.Current(l.saved, t)
    ensures R.Last(l.saved, 0, cs, t) > 0 && R.Boundary(l.file + more, R.Last(l.saved, 0, cs, t))
  {
    var i := R.LastIsCommitted(l.saved, 0, cs, t);
    EnteredLines(l, t);
    var x :| x in Entered(l, cs[i].stream) && x.offset == cs[i].offset;
    R.CommittedIsBoundary(l.cap, l.file, more, x);
  }

  lemma LastOfNew(l: Life, cs: seq<R.Commit>, t: StreamName)
    requires LifeOK(l) && OfLines(l, cs) && R.InOrder(l.saved, 0, cs) && t !in l.saved
    requires exists k :: 0 <= k < |cs| && cs[k].stream == t && R.Counts(0, cs[k])
    ensures R.Last(l.saved, 0, cs, t) != R.Current(l.saved, t)
  {
    var k :| 0 <= k < |cs| && cs[k].stream == t && R.Counts(0, cs[k]);
    R.LastCovers(l.saved, 0, cs, k);
  }

  /** What was saved is again a set of line ends, also of the file as it has grown. */
  lemma SavedStaysOK(l: Life, cs: seq<R.Commit>, more: Bytes)
    requires LifeOK(l) && OfLines(l, cs) && R.InOrder(l.saved, 0, cs)
    ensures !R.CommitAll(l.saved, 0, cs).1 && SavedOK(R.CommitAll(l.saved, 0, cs).0, l.file + more)
  {
    R.CommitsInOrder(l.saved, 0, cs);
    var m := R.CommitAll(l.saved, 0, cs).0;
    forall t | t in m
      ensures m[t] > 0 && R.Boundary(l.file + more, m[t])
    {
      assert R.Current(m, t) == R.Last(l.saved, 0, cs, t);
      if t !in l.saved {
        LastOfNew(l, cs, t);
      }
      if R.Last(l.saved, 0, cs, t) != R.Current(l.saved, t) {
        LastIsLine(l, cs, more, t);
      }
    }
  }

  /** A file that grows changes none of the lines it has. */
  lemma {:induction false} EarlierLines(cap: nat, file: Bytes, more: Bytes, x: Line)
    requires x in R.FileLines(cap, file + more) && x.offset <= |file|
    ensures x in R.FileLines(cap, file)
    decreases |more|
  {
    if more == [] {
      assert file + more == file;
    } else {
      var n := |more| - 1;
      assert file + more == (file + more[..n]) + [more[n]];
      Snoc(0, file + more[..n], more[n]);
      R.FilterIn(Lines.Lines(0, file + more[..n]), FitsIn(cap));
      R.FilterIn(Lines.Lines(0, file + more), FitsIn(cap));
      EarlierLines(cap, file, more[..n], x);
    }
  }

  /** The job that resumes on the grown file from what was saved. */
  function Next(l: Life, notified: seq<S.Event>, k: nat, more: Bytes, lo: nat, names: map<S.StreamId, StreamName>,
                refused: Line -> bool): Life
    requires l.lo <= |l.file| && k <= |notified|
  {
    Life(l.streamOf, l.cap, names, SavedAfter(l, notified, k), lo, l.file + more, refused)
  }

  /** The `i`th notification is of a line of stream `t`, not before line `x`. */
  ghost predicate Reaches(l: Life, all: seq<S.Event>, t: StreamName, x: Line, i: nat)
    requires l.lo <= |l.file|
  {
    && i < |all| && IsLine(l, all[i]) && l.names[all[i].stream] == t
    && x.offset <= Entered(l, t)[all[i].seqID - 1].offset
  }

  /** A saved offset at or past a line comes from the notification of a line that is not before it. */
  lemma SavedComesFrom(l: Life, all: seq<S.Event>, k: nat, t: StreamName, x: Line) returns (i: nat)
    requires LifeOK(l) && k <= |all| && x in Handed(l, t)
    requires R.InOrder(l.saved, 0, Commits(l, all[..k]))
    requires t in SavedAfter(l, all, k) && x.offset <= SavedAfter(l, all, k)[t]
    ensures Reaches(l, all, t, x, i)
  {
    var cs := Commits(l, all[..k]);
    R.CommitsInOrder(l.saved, 0, cs);
    assert R.Current(SavedAfter(l, all, k), t) == R.Last(l.saved, 0, cs, t);
    HandedLines(l, t);
    i := R.LastIsCommitted(l.saved, 0, cs, t);
    assert cs[i] == AsCommit(l, all[i]);
  }

  lemma NotifiedIsKnown(g: D.Settings, steps: seq<D.Step>, i: nat)
    requires B.ValidOptions(g.opts) && D.ValidRun(g, steps) && i < |D.Exec(g, steps).pipe.notified|
    ensures var y := D.Exec(g, steps);
            var e := y.pipe.notified[i];
            e.stream in y.pipe.streams && e.seqID in D.NotifiedNumbers(y, e.stream)
  {
    var st := D.Exec(g, steps).pipe;
    D.RunInv(g, steps);
    assert I.EventsOK(st);
    assert st.notified[i] in st.notified;
    InNumbers(st.notified, st.notified[i].stream, i);
  }

  lemma EarlierIsDone(g: D.Settings, steps: seq<D.Step>, y: D.System, s: S.StreamId, last: nat, n: nat)
    requires B.ValidOptions(g.opts) && D.ValidRun(g, steps) && y == D.Exec(g, steps) && s in y.pipe.streams
    requires last in D.NotifiedNumbers(y, s) && 1 <= n <= last
    ensures n <= y.pipe.streams[s].currentSeq
    ensures n in D.NotifiedNumbers(y, s) || n in y.pipe.streams[s].dropped
  {
    D.InOrderNoGaps(g, steps, s);
    var done := D.NotifiedNumbers(y, s);
    assert last <= y.pipe.streams[s].currentSeq;
    if n < last {
      assert n in done || n in y.pipe.streams[s].dropped;
    }
  }

  /** The notified events of the job are its lines. */
  ghost predicate OfJob(l: Life, events: seq<S.Event>)
    requires l.lo <= |l.file|
  {
    forall e :: e in events && e.stream in l.names ==> IsLine(l, e)
  }

  /** The offset of the line of the last of the numbers. */
  function LastLine(l: Life, t: StreamName, numbers: seq<nat>): int
    requires l.lo <= |l.file|
  {
    if numbers == [] then R.Current(l.saved, t)
    else
      var n := numbers[|numbers| - 1];
      if 1 <= n <= |Entered(l, t)| then Entered(l, t)[n - 1].offset else 0
  }

  lemma LastSnoc(m: R.Offsets, cs: seq<R.Commit>, c: R.Commit, t: StreamName)
    ensures R.Last(m, 0, cs + [c], t) == if c.stream == t && R.Counts(0, c) then c.offset else R.Last(m, 0, cs, t)
  {
    assert (cs + [c])[..|cs|] == cs;
  }

  lemma CommitsSnoc(l: Life, events: seq<S.Event>, e: S.Event)
    requires l.lo <= |l.file|
    ensures Commits(l, events + [e]) == Commits(l, events) + [AsCommit(l, e)]
  {
  }

  lemma NextLine(l: Life, cs: seq<R.Commit>, e: S.Event, s: S.StreamId, numbers: seq<nat>)
    requires LifeOK(l) && s in l.names && (e.stream in l.names ==> IsLine(l, e))
    requires R.Last(l.saved, 0, cs, l.names[s]) == LastLine(l, l.names[s], numbers)
    ensures R.Last(l.saved, 0, cs + [AsCommit(l, e)], l.names[s])
         == LastLine(l, l.names[s], numbers + if e.stream == s then [e.seqID] else [])
  {
    LastSnoc(l.saved, cs, AsCommit(l, e), l.names[s]);
    assert numbers + [] == numbers;
  }

  lemma {:induction false} LastNotified(l: Life, events: seq<S.Event>, s: S.StreamId)
    requires LifeOK(l) && OfJob(l, events) && s in l.names
    ensures R.Last(l.saved, 0, Commits(l, events), l.names[s]) == LastLine(l, l.names[s], I.Numbers(events, s))
    decreases |events|
  {
    if events != [] {
      var n := |events| - 1;
      var before, e := events[..n], events[n];
      assert events == before + [e] && e in events;
      assert OfJob(l, before) by {
        assert forall x :: x in before ==> x in events;
      }
      LastNotified(l, before, s);
      CommitsSnoc(l, before, e);
      NextLine(l, Commits(l, before), e, s, I.Numbers(before, s));
    }
  }

  lemma RunIsOfJob(g: D.Settings, steps: seq<D.Step>, l: Life, k: nat)
    requires B.ValidOptions(g.opts) && D.ValidRun(g, steps) && LifeOK(l) && Fed(l, D.Exec(g, steps))
    requires k <= |D.Exec(g, steps).pipe.notified|
    ensures OfJob(l, D.Exec(g, steps).pipe.notified[..k])
  {
    var all := D.Exec(g, steps).pipe.notified;
    forall e | e in all[..k] && e.stream in l.names
      ensures IsLine(l, e)
    {
      var i :| 0 <= i < k && all[i] == e;
      NotifiedIsKnown(g, steps, i);
      D.InOrderNoGaps(g, steps, e.stream);
    }
  }

  lemma {:induction false} NumberComesFrom(events: seq<S.Event>, s: S.StreamId, n: nat) returns (i: nat)
    requires n in I.Numbers(events, s)
    ensures i < |events| && events[i].stream == s && events[i].seqID == n
    decreases |events|
  {
    var l := |events| - 1;
    if events[l].stream == s && events[l].seqID == n {
      i := l;
    } else {
      i := NumberComesFrom(events[..l], s, n);
    }
  }

  /** The stream has the offset of its last line among the events. */
  ghost predicate SavesLast(l: Life, m: R.Offsets, done: seq<S.Event>, s: S.StreamId)
    requires l.lo <= |l.file| && s in l.names
  {
    var t, numbers := l.names[s], I.Numbers(done, s);
    if numbers == [] then R.Current(m, t) == R.Current(l.saved, t)
    else
      && 1 <= numbers[|numbers| - 1] <= |Entered(l, t)|
      && t in m && m[t] == Entered(l, t)[numbers[|numbers| - 1] - 1].offset
  }

  lemma SavedOfJob(l: Life, done: seq<S.Event>, m: R.Offsets, s: S.StreamId)
    requires LifeOK(l) && OfJob(l, done) && s in l.names
    requires R.Current(m, l.names[s]) == R.Last(l.saved, 0, Commits(l, done), l.names[s])
    ensures SavesLast(l, m, done, s)
  {
    var t, numbers := l.names[s], I.Numbers(done, s);
    LastNotified(l, done, s);
    if numbers != [] {
      var last := numbers[|numbers| - 1];
      var i := NumberComesFrom(done, s, last);
      assert done[i] in done && IsLine(l, done[i]);
      EnteredLines(l, t);
      assert Entered(l, t)[last - 1] in Entered(l, t);
    }
  }

  /** What is saved: after the first `k` notifications of any run, the offset of a stream is that of the
      line of its last event among them; without one it is as before. */
  lemma SavedIsLastNotified(g: D.Settings, steps: seq<D.Step>, l: Life, k: nat, s: S.StreamId)
    requires B.ValidOptions(g.opts) && D.ValidRun(g, steps) && LifeOK(l) && Fed(l, D.Exec(g, steps))
    requires k <= |D.Exec(g, steps).pipe.notified| && s in l.names
    ensures var all := D.Exec(g, steps).pipe.notified;
            SavesLast(l, SavedAfter(l, all, k), all[..k], s)
  {
    var all := D.Exec(g, steps).pipe.notified;
    RunIsOfJob(g, steps, l, k);
    NotificationsInOrder(g, steps, l, k);
    R.CommitsInOrder(l.saved, 0, Commits(l, all[..k]));
    SavedOfJob(l, all[..k], SavedAfter(l, all, k), s);
  }

  /** Line `x` of stream `t` is the `n`th event of the job's stream `s`, and the output has notified
      it or an action has dropped it. */
  ghost predicate DoneAs(l: Life, y: D.System, t: StreamName, x: Line, s: S.StreamId, n: nat)
    requires l.lo <= |l.file|
  {
    && s in l.names && l.names[s] == t && s in y.pipe.streams
    && 1 <= n <= y.pipe.streams[s].currentSeq && n <= |Entered(l, t)| && Entered(l, t)[n - 1] == x
    && (n in D.NotifiedNumbers(y, s) || n in y.pipe.streams[s].dropped)
  }

  /** Line `x` was read and refused: the `n`th event of its stream is a later line. */
  ghost predicate RefusedBefore(l: Life, y: D.System, t: StreamName, x: Line, s: S.StreamId, n: nat)
    requires l.lo <= |l.file|
  {
    && x in Handed(l, t) && l.refused(x)
    && s in l.names && l.names[s] == t && s in y.pipe.streams
    && 1 <= n <= y.pipe.streams[s].currentSeq && n <= |Entered(l, t)| && Entered(l, t)[n - 1].offset > x.offset
  }

  /** The pipeline is through with the line. */
  ghost predicate Through(l: Life, y: D.System, t: StreamName, x: Line)
    requires l.lo <= |l.file|
  {
    || (exists s, n: nat :: DoneAs(l, y, t, x, s, n))
    || (exists s, n: nat :: RefusedBefore(l, y, t, x, s, n))
  }

  lemma SameOffset(ls: seq<Line>, x: Line, y: Line)
    requires Ascending(ls) && x in ls && y in ls && x.offset == y.offset
    ensures x == y
  {
    var i :| 0 <= i < |ls| && ls[i] == x;
    var j :| 0 <= j < |ls| && ls[j] == y;
  }

  lemma IndexOf(ls: seq<Line>, x: Line, n: nat) returns (i: nat)
    requires Ascending(ls) && x in ls && 1 <= n <= |ls| && x.offset <= ls[n - 1].offset
    ensures 1 <= i <= n && ls[i - 1] == x
  {
    var k :| 0 <= k < |ls| && ls[k] == x;
    i := k + 1;
  }

  lemma LastIsThrough(
    g: D.Settings, steps: seq<D.Step>, l: Life, y: D.System, t: StreamName, x: Line, s: S.StreamId, last: nat)
    requires B.ValidOptions(g.opts) && D.ValidRun(g, steps) && y == D.Exec(g, steps) && LifeOK(l)
    requires s in l.names && l.names[s] == t && s in y.pipe.streams && last in D.NotifiedNumbers(y, s)
    requires 1 <= last <= |Entered(l, t)| && x in Handed(l, t) && x.offset <= Entered(l, t)[last - 1].offset
    ensures Through(l, y, t, x)
  {
    EnteredLines(l, t);
    EarlierIsDone(g, steps, y, s, last, last);
    var e := Entered(l, t)[last - 1];
    assert e in Entered(l, t);
    if l.refused(x) {
      HandedLines(l, t);
      if x.offset == e.offset {
        SameOffset(Handed(l, t), x, e);
      }
      assert RefusedBefore(l, y, t, x, s, last);
    } else {
      var n := IndexOf(Entered(l, t), x, last);
      EarlierIsDone(g, steps, y, s, last, n);
      assert DoneAs(l, y, t, x, s, n);
    }
  }

  lemma NotifiedIsThrough(
    g: D.Settings, steps: seq<D.Step>, l: Life, y: D.System, t: StreamName, x: Line, i: nat)
    requires B.ValidOptions(g.opts) && D.ValidRun(g, steps) && y == D.Exec(g, steps) && LifeOK(l)
    requires x in Handed(l, t) && Reaches(l, y.pipe.notified, t, x, i)
    ensures Through(l, y, t, x)
  {
    NotifiedIsKnown(g, steps, i);
    LastIsThrough(g, steps, l, y, t, x, y.pipe.notified[i].stream, y.pipe.notified[i].seqID);
  }

  /** A line up to the saved offset of its stream was notified or dropped, or had been refused. */
  lemma SavedIsDone(g: D.Settings, steps: seq<D.Step>, l: Life, y: D.System, k: nat, t: StreamName, x: Line)
    requires B.ValidOptions(g.opts) && D.ValidRun(g, steps) && y == D.Exec(g, steps) && LifeOK(l) && Fed(l, y)
    requires k <= |y.pipe.notified| && x in Handed(l, t)
    requires t in SavedAfter(l, y.pipe.notified, k) && x.offset <= SavedAfter(l, y.pipe.notified, k)[t]
    ensures Through(l, y, t, x)
  {
    NotificationsInOrder(g, steps, l, k);
    var i := SavedComesFrom(l, y.pipe.notified, k, t, x);
    NotifiedIsThrough(g, steps, l, y, t, x, i);
  }

  /** The job starts behind the line: at or past its end by the saved offset of the stream, or by
      the start of the job if the stream has none. */
  ghost predicate Behind(l: Life, t: StreamName, x: Line) {
    x.offset <= if t in l.saved then l.saved[t] else l.lo
  }

  lemma SavedLineIff(l: Life, t: StreamName, x: Line)
    requires LifeOK(l) && t in l.saved && x in R.FileLines(l.cap, l.file) && l.streamOf(x.data) == t
    ensures x in Handed(l, t) <==> x.offset > l.saved[t]
  {
    StartIsBoundary(l);
    R.ResumeSavedStream(l.streamOf, l.cap, l.saved, l.lo, l.file, t);
    R.FilterIn(R.FileLines(l.cap, l.file), R.IsOf(l.streamOf, t));
    R.FilterIn(R.OfStream(l.streamOf, t, R.FileLines(l.cap, l.file)), R.IsPast(l.saved[t]));
  }

  /** A stream without a saved offset has none of its lines notified before the save. Exactly those
      that end at or before the offset from which the job resumes are not passed on. */
  lemma UnsavedLineIff(l: Life, t: StreamName, x: Line)
    requires LifeOK(l) && t !in l.saved && x in R.FileLines(l.cap, l.file) && l.streamOf(x.data) == t
    ensures x in Handed(l, t) <==> x.offset > l.lo
  {
    StartIsBoundary(l);
    R.ResumeReadsPast(l.cap, l.lo, l.file);
    R.FilterIn(R.FileLines(l.cap, l.file), R.IsPast(l.lo));
    R.FilterIn(Wanted(l.cap, false, l.lo, l.file[l.lo..]), R.Passes(l.streamOf, l.saved));
    R.FilterIn(R.Resumed(l.streamOf, l.cap, l.saved, l.lo, l.file), R.IsOf(l.streamOf, t));
  }

  lemma HandedIff(l: Life, t: StreamName, x: Line)
    requires LifeOK(l) && x in R.FileLines(l.cap, l.file) && l.streamOf(x.data) == t
    ensures x in Handed(l, t) <==> !Behind(l, t, x)
  {
    if t in l.saved {
      SavedLineIff(l, t, x);
    } else {
      UnsavedLineIff(l, t, x);
    }
  }

  lemma BehindIsNotHanded(l: Life, t: StreamName, x: Line)
    requires LifeOK(l) && Behind(l, t, x)
    ensures x !in Handed(l, t) && x !in Entered(l, t)
  {
    HandedLines(l, t);
    EnteredLines(l, t);
  }

  lemma BehindIsNotThrough(l: Life, y: D.System, t: StreamName, x: Line)
    requires LifeOK(l) && Behind(l, t, x)
    ensures !Through(l, y, t, x)
  {
    BehindIsNotHanded(l, t, x);
  }

  /** Offsets only grow, and a stream that gets its first one gets it past the start. */
  lemma SavedGrows(l: Life, cs: seq<R.Commit>, t: StreamName)
    requires LifeOK(l) && OfLines(l, cs) && R.InOrder(l.saved, 0, cs)
    ensures var m := R.CommitAll(l.saved, 0, cs).0;
            && (t in l.saved ==> t in m && m[t] >= l.saved[t])
            && (t in m && t !in l.saved ==> m[t] > l.lo && exists x :: x in Entered(l, t) && x.offset == m[t])
            && (t in m ==> m[t] >= l.lo)
  {
    R.CommitsInOrder(l.saved, 0, cs);
    var m := R.CommitAll(l.saved, 0, cs).0;
    assert R.Current(m, t) == R.Last(l.saved, 0, cs, t) >= R.Current(l.saved, t);
    if t in m && t !in l.saved {
      LastOfNew(l, cs, t);
      var i := R.LastIsCommitted(l.saved, 0, cs, t);
      EnteredLines(l, t);
    }
  }

  // ------------------------------------------------------------ any number of restarts

  /** One life: its run, how many notifications were saved, what the file had gained at the next
      start, where that start was, and the streams and the refusals of the next life. */
  datatype Episode = Episode(
    steps: seq<D.Step>, k: nat, more: Bytes, lo: nat, names: map<S.StreamId, StreamName>, refused: Line -> bool)

  ghost predicate Happened(g: D.Settings, l: Life, e: Episode) {
    && D.ValidRun(g, e.steps) && l.lo <= |l.file| && Fed(l, D.Exec(g, e.steps))
    && e.k <= |D.Exec(g, e.steps).pipe.notified|
    && StartsAt(SavedAfter(l, D.Exec(g, e.steps).pipe.notified, e.k), e.lo) && OneName(e.names)
  }

  ghost function Reborn(g: D.Settings, l: Life, e: Episode): Life
    requires Happened(g, l, e)
  {
    Next(l, D.Exec(g, e.steps).pipe.notified, e.k, e.more, e.lo, e.names, e.refused)
  }

  ghost predicate Lived(g: D.Settings, l: Life, es: seq<Episode>)
    decreases |es|
  {
    es == [] || (Happened(g, l, es[0]) && Lived(g, Reborn(g, l, es[0]), es[1..]))
  }

  ghost function Latest(g: D.Settings, l: Life, es: seq<Episode>): Life
    requires Lived(g, l, es)
    decreases |es|
  {
    if es == [] then l else Latest(g, Reborn(g, l, es[0]), es[1..])
  }

  /** Whatever a life did, the next one starts from good offsets, and nothing panicked. */
  lemma RebornOK(g: D.Settings, l: Life, e: Episode)
    requires B.ValidOptions(g.opts) && LifeOK(l) && Happened(g, l, e)
    ensures LifeOK(Reborn(g, l, e))
    ensures !R.CommitAll(l.saved, 0, Commits(l, D.Exec(g, e.steps).pipe.notified[..e.k])).1
  {
    var done := D.Exec(g, e.steps).pipe.notified[..e.k];
    NotificationsInOrder(g, e.steps, l, e.k);
    CommitsOfLines(l, done);
    SavedStaysOK(l, Commits(l, done), e.more);
  }

  /** A restart continues: whatever was saved before, after any run and on the grown file, the job
      passes on for every stream with a saved offset exactly the lines past its last saved commit. */
  lemma RestartContinues(g: D.Settings, l: Life, e: Episode, t: StreamName)
    requires B.ValidOptions(g.opts) && LifeOK(l) && Happened(g, l, e) && t in Reborn(g, l, e).saved
    ensures LifeOK(Reborn(g, l, e))
    ensures var cs := Commits(l, D.Exec(g, e.steps).pipe.notified[..e.k]);
            Handed(Reborn(g, l, e), t)
            == R.Past(R.Last(l.saved, 0, cs, t), R.OfStream(l.streamOf, t, R.FileLines(l.cap, l.file + e.more)))
  {
    var l' := Reborn(g, l, e);
    var cs := Commits(l, D.Exec(g, e.steps).pipe.notified[..e.k]);
    RebornOK(g, l, e);
    NotificationsInOrder(g, e.steps, l, e.k);
    R.CommitsInOrder(l.saved, 0, cs);
    assert R.Current(l'.saved, t) == R.Last(l.saved, 0, cs, t);
    StartIsBoundary(l');
    R.ResumeSavedStream(l.streamOf, l.cap, l'.saved, l'.lo, l'.file, t);
  }

  lemma {:induction false} LivesStayOK(g: D.Settings, l: Life, es: seq<Episode>)
    requires B.ValidOptions(g.opts) && LifeOK(l) && Lived(g, l, es)
    ensures LifeOK(Latest(g, l, es))
    decreases |es|
  {
    if es != [] {
      RebornOK(g, l, es[0]);
      LivesStayOK(g, Reborn(g, l, es[0]), es[1..]);
    }
  }

  /** What was saved and where the next life starts, after the life `e`. */
  lemma RebornGrows(g: D.Settings, l: Life, e: Episode, t: StreamName)
    requires B.ValidOptions(g.opts) && LifeOK(l) && Happened(g, l, e)
    ensures var l' := Reborn(g, l, e);
            && LifeOK(l')
            && (t in l.saved ==> t in l'.saved && l'.saved[t] >= l.saved[t])
            && (t in l'.saved && t !in l.saved ==>
                  l'.saved[t] > l.lo && exists x :: x in Entered(l, t) && x.offset == l'.saved[t])
            && (t in l'.saved ==> l'.saved[t] >= l.lo)
  {
    var done := D.Exec(g, e.steps).pipe.notified[..e.k];
    RebornOK(g, l, e);
    NotificationsInOrder(g, e.steps, l, e.k);
    CommitsOfLines(l, done);
    SavedGrows(l, Commits(l, done), t);
  }

  lemma StartGrows(g: D.Settings, l: Life, e: Episode)
    requires B.ValidOptions(g.opts) && LifeOK(l) && Happened(g, l, e)
    ensures l.lo <= Reborn(g, l, e).lo
  {
    var l' := Reborn(g, l, e);
    if l'.saved == map[] {
      forall t | t in l.saved
        ensures false
      {
        RebornGrows(g, l, e, t);
      }
    } else {
      var t :| t in l'.saved && l'.saved[t] == l'.lo;
      RebornGrows(g, l, e, t);
    }
  }

  /** What a life starts behind, all later ones do. */
  lemma BehindStays(g: D.Settings, l: Life, e: Episode, t: StreamName, x: Line)
    requires B.ValidOptions(g.opts) && LifeOK(l) && Happened(g, l, e) && Behind(l, t, x)
    ensures Behind(Reborn(g, l, e), t, x)
  {
    RebornGrows(g, l, e, t);
    StartGrows(g, l, e);
  }

  /** The pipeline was through with the line in the life `e`. */
  ghost predicate DoneIn(g: D.Settings, l: Life, e: Episode, t: StreamName, x: Line)
    requires Happened(g, l, e)
  {
    Through(l, D.Exec(g, e.steps), t, x)
  }

  ghost predicate Done(g: D.Settings, l: Life, es: seq<Episode>, t: StreamName, x: Line)
    requires Lived(g, l, es)
    decreases |es|
  {
    es != [] && (DoneIn(g, l, es[0], t, x) || Done(g, Reborn(g, l, es[0]), es[1..], t, x))
  }

  lemma LastInFile(l: Life, cs: seq<R.Commit>, t: StreamName)
    requires LifeOK(l) && OfLines(l, cs) && R.InOrder(l.saved, 0, cs) && t in R.CommitAll(l.saved, 0, cs).0
    ensures R.CommitAll(l.saved, 0, cs).0[t] <= |l.file|
  {
    SavedStaysOK(l, cs, []);
    assert l.file + [] == l.file;
  }

  lemma SavedInFile(g: D.Settings, l: Life, e: Episode, t: StreamName)
    requires B.ValidOptions(g.opts) && LifeOK(l) && Happened(g, l, e) && t in Reborn(g, l, e).saved
    ensures Reborn(g, l, e).saved[t] <= |l.file|
  {
    var done := D.Exec(g, e.steps).pipe.notified[..e.k];
    NotificationsInOrder(g, e.steps, l, e.k);
    CommitsOfLines(l, done);
    LastInFile(l, Commits(l, done), t);
  }

  lemma HandedEarlier(l: Life, t: StreamName, x: Line, file: Bytes)
    requires LifeOK(l) && !Behind(l, t, x) && x.offset <= |l.file|
    requires l.file <= file && x in R.FileLines(l.cap, file) && l.streamOf(x.data) == t
    ensures x in Handed(l, t)
  {
    var more := file[|l.file|..];
    assert file == l.file + more;
    EarlierLines(l.cap, l.file, more, x);
    HandedIff(l, t, x);
  }

  /** A line that the saved offset of its stream has overtaken in life `e` was done in it. */
  lemma OvertakenIsDone(g: D.Settings, l: Life, e: Episode, t: StreamName, x: Line)
    requires B.ValidOptions(g.opts) && LifeOK(l) && Happened(g, l, e) && x in Handed(l, t)
    requires t in Reborn(g, l, e).saved && x.offset <= Reborn(g, l, e).saved[t]
    ensures DoneIn(g, l, e, t, x)
  {
    SavedIsDone(g, e.steps, l, D.Exec(g, e.steps), e.k, t, x);
  }

  /** What a life starts behind is never done again, and never passed on. */
  lemma {:induction false} NeverAgain(g: D.Settings, l: Life, es: seq<Episode>, t: StreamName, x: Line)
    requires B.ValidOptions(g.opts) && LifeOK(l) && Lived(g, l, es) && Behind(l, t, x)
    ensures !Done(g, l, es, t, x)
    ensures LifeOK(Latest(g, l, es)) && x !in Handed(Latest(g, l, es), t)
    decreases |es|
  {
    if es == [] {
      BehindIsNotHanded(l, t, x);
    } else {
      BehindIsNotThrough(l, D.Exec(g, es[0].steps), t, x);
      RebornOK(g, l, es[0]);
      BehindStays(g, l, es[0], t, x);
      NeverAgain(g, Reborn(g, l, es[0]), es[1..], t, x);
    }
  }

  /** Some life starts past the end of the line, with no saved offset for its stream, and no earlier
      life has done the line. */
  ghost predicate Skipped(g: D.Settings, l: Life, es: seq<Episode>, t: StreamName, x: Line)
    requires Lived(g, l, es)
    decreases |es|
  {
    || (t !in l.saved && x.offset <= l.lo)
    || (es != [] && !DoneIn(g, l, es[0], t, x) && Skipped(g, Reborn(g, l, es[0]), es[1..], t, x))
  }

  lemma {:induction false} SavedIsNotSkipped(g: D.Settings, l: Life, es: seq<Episode>, t: StreamName, x: Line)
    requires B.ValidOptions(g.opts) && LifeOK(l) && Lived(g, l, es) && t in l.saved
    ensures !Skipped(g, l, es, t, x)
    decreases |es|
  {
    if es != [] {
      RebornGrows(g, l, es[0], t);
      SavedIsNotSkipped(g, Reborn(g, l, es[0]), es[1..], t, x);
    }
  }

  lemma {:induction false} FileGrows(g: D.Settings, l: Life, es: seq<Episode>)
    requires Lived(g, l, es)
    ensures l.file <= Latest(g, l, es).file && Latest(g, l, es).cap == l.cap
    ensures Latest(g, l, es).streamOf == l.streamOf
    decreases |es|
  {
    if es != [] {
      FileGrows(g, Reborn(g, l, es[0]), es[1..]);
    }
  }

  /** The line is safe: its end was saved before the first life, or some life has notified or dropped
      it, or the life after the last one passes it on. */
  ghost predicate Safe(g: D.Settings, l: Life, es: seq<Episode>, t: StreamName, x: Line)
    requires B.ValidOptions(g.opts) && LifeOK(l) && Lived(g, l, es)
  {
    LivesStayOK(g, l, es);
    || (t in l.saved && x.offset <= l.saved[t])
    || Done(g, l, es, t, x)
    || x in Handed(Latest(g, l, es), t)
  }

  /** The guarantee over any number of lives, each with any run of the pipeline, ended at any moment
      with any part of its commits saved: a line of the file is lost exactly if some life starts past
      its end with no saved offset for its stream before any life has done it. */
  lemma {:induction false} LineIsLostIff(g: D.Settings, l: Life, es: seq<Episode>, t: StreamName, x: Line)
    requires B.ValidOptions(g.opts) && LifeOK(l) && Lived(g, l, es)
    requires x in R.FileLines(l.cap, Latest(g, l, es).file) && l.streamOf(x.data) == t
    ensures !Safe(g, l, es, t, x) <==> Skipped(g, l, es, t, x)
    decreases |es|
  {
    LivesStayOK(g, l, es);
    if Behind(l, t, x) {
      NeverAgain(g, l, es, t, x);
      if t in l.saved {
        SavedIsNotSkipped(g, l, es, t, x);
      }
    } else if es == [] {
      HandedIff(l, t, x);
    } else if !DoneIn(g, l, es[0], t, x) {
      var l' := Reborn(g, l, es[0]);
      RebornOK(g, l, es[0]);
      LivesStayOK(g, l', es[1..]);
      FileGrows(g, l, es);
      LineIsLostIff(g, l', es[1..], t, x);
      if t in l'.saved && x.offset <= l'.saved[t] {
        SavedInFile(g, l, es[0], t);
        HandedEarlier(l, t, x, Latest(g, l, es).file);
        OvertakenIsDone(g, l, es[0], t, x);
      }
    }
  }

  /** Of a stream that has a saved offset no line is ever lost: every line past that offset was
      notified or dropped in some life, or is passed on by the latest. */
  lemma NoLineIsEverLost(g: D.Settings, l: Life, es: seq<Episode>, t: StreamName, x: Line)
    requires B.ValidOptions(g.opts) && LifeOK(l) && Lived(g, l, es) && t in l.saved
    requires x in R.FileLines(l.cap, Latest(g, l, es).file) && l.streamOf(x.data) == t
    ensures LifeOK(Latest(g, l, es))
    ensures x.offset <= l.saved[t] || Done(g, l, es, t, x) || x in Handed(Latest(g, l, es), t)
  {
    LivesStayOK(g, l, es);
    SavedIsNotSkipped(g, l, es, t, x);
    LineIsLostIff(g, l, es, t, x);
  }

  lemma {:induction false} OneStreamIsNotSkipped(g: D.Settings, l: Life, es: seq<Episode>, t: StreamName, x: Line)
    requires B.ValidOptions(g.opts) && LifeOK(l) && Lived(g, l, es) && l.saved.Keys <= {t}
    requires (forall d :: l.streamOf(d) == t) && x.offset > 0
    ensures !Skipped(g, l, es, t, x)
    decreases |es|
  {
    if es != [] {
      var l' := Reborn(g, l, es[0]);
      RebornOK(g, l, es[0]);
      forall u | u in l'.saved
        ensures u == t
      {
        RebornGrows(g, l, es[0], u);
        EnteredLines(l, u);
      }
      OneStreamIsNotSkipped(g, l', es[1..], t, x);
    }
  }

  /** A file with one stream loses no line from its first life on. */
  lemma OneStreamLosesNothing(g: D.Settings, l: Life, es: seq<Episode>, t: StreamName, x: Line)
    requires B.ValidOptions(g.opts) && OneName(l.names) && l.saved == map[] && l.lo == 0 && Lived(g, l, es)
    requires (forall d :: l.streamOf(d) == t) && x in R.FileLines(l.cap, Latest(g, l, es).file)
    ensures LifeOK(Latest(g, l, es))
    ensures Done(g, l, es, t, x) || x in Handed(Latest(g, l, es), t)
  {
    LivesStayOK(g, l, es);
    R.CommittedIsBoundary(l.cap, Latest(g, l, es).file, [], x);
    OneStreamIsNotSkipped(g, l, es, t, x);
    LineIsLostIff(g, l, es, t, x);
  }
}
