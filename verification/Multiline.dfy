/** The k8s action that joins the fragments into which the container runtime splits long lines. */
module Multiline {
  import Basics

  const LOOKAHEAD: nat := 128 * 1024

  const NEW_LINE: string := "\\n"

  const QUOTE: char := '\"'

  /** `maxSize` 0 means no cap. */
  datatype Config = Config(onlyNode: bool, splitSize: int, maxSize: nat)

  /** A fragment is the escaped `log` field with its quotes, empty when there is no such field. */
  datatype Event = Timeout | Fragment(log: string, size: nat)

  /** `buf` starts with a quote; `size` is the size of the events since the last reset. */
  datatype State = State(buf: string, size: nat, skip: bool)

  const INITIAL: State := State([QUOTE], 0, false)

  /** `Pass` has the `log` field with which the event goes on. Slicing out of range is Go's panic,
      a missing field ends the program. */
  datatype Result = Pass(log: string) | Collapse | Discard | Panic

  predicate IsEnd(log: string)
    requires |log| >= 3
  {
    log[|log| - 3..|log| - 1] == NEW_LINE
  }

  function Body(log: string): string
    requires |log| >= 3
  {
    log[1..|log| - 1]
  }

  function Reset(s: State): State
    requires |s.buf| >= 1
  {
    s.(buf := s.buf[..1], size := 0)
  }

  function Do(c: Config, s: State, e: Event): (State, Result)
    requires |s.buf| >= 1
  {
    match e
    case Timeout => (Reset(s), Discard)
    case Fragment(log, size) =>
      if c.onlyNode then (s, Pass(log))
      else if log == "" then (s, Panic)
      else
        var s1 := s.(size := s.size + size);
        if |log| < 3 then (s1, Panic)
        else
          var split := s1.size + LOOKAHEAD > c.splitSize;
          var end := IsEnd(log);
          if !end && !split then
            if c.maxSize == 0 || |s1.buf| + |log| < c.maxSize then (s1.(buf := s1.buf + Body(log)), Collapse)
            else (s1.(skip := true), Collapse)
          else if s1.skip then
            if !end then (s1, Collapse) else (Reset(s1.(skip := false)), Discard)
          else
            (Reset(s1), Pass(if |s1.buf| > 1 then s1.buf + Body(log) + [QUOTE] else log))
  }

  // ------------------------------------------------------------------ whole runs

  /** The state and the `log` fields that were let through. */
  function Run(c: Config, es: seq<Event>): (r: (State, seq<string>))
    ensures |r.0.buf| >= 1 && r.0.buf[0] == QUOTE
  {
    if es == [] then (INITIAL, [])
    else
      var (s, out) := Run(c, es[..|es| - 1]);
      var (s', res) := Do(c, s, es[|es| - 1]);
      (s', if res.Pass? then out + [res.log] else out)
  }

  /** A real fragment: quoted and not empty inside. */
  predicate Proper(e: Event) {
    e.Fragment? && |e.log| >= 3 && e.log[0] == QUOTE && e.log[|e.log| - 1] == QUOTE
  }

  predicate AllProper(es: seq<Event>) {
    forall i :: 0 <= i < |es| ==> Proper(es[i])
  }

  function Quoted(body: string): string {
    [QUOTE] + body + [QUOTE]
  }

  /** The text of a run of fragments. */
  function Text(es: seq<Event>): string
    requires AllProper(es)
  {
    if es == [] then "" else Text(es[..|es| - 1]) + Body(es[|es| - 1].log)
  }

  function Size(es: seq<Event>): nat {
    if es == [] then 0
    else Size(es[..|es| - 1]) + if es[|es| - 1].Fragment? then es[|es| - 1].size else 0
  }

  /** The text inside the quotes of all results. */
  function Inside(out: seq<string>): string {
    if out == [] then ""
    else
      var log := out[|out| - 1];
      Inside(out[..|out| - 1]) + if |log| >= 2 then log[1..|log| - 1] else ""
  }

  lemma QuotedBody(e: Event)
    requires Proper(e)
    ensures e.log == Quoted(Body(e.log))
  {
  }

  lemma InsideSnoc(out: seq<string>, body: string)
    ensures Inside(out + [Quoted(body)]) == Inside(out) + body
  {
    assert (out + [Quoted(body)])[..|out|] == out;
    assert Quoted(body)[1..|Quoted(body)| - 1] == body;
  }

  /** A fragment ends a line exactly if its text ends with a backslash and an n, a newline as it is
      escaped in JSON. */
  lemma EndIsNewLine(e: Event)
    requires Proper(e)
    ensures IsEnd(e.log) <==> exists t: string :: e.log == ['\"'] + t + ['\\', 'n'] + ['\"']
  {
    var n := |e.log|;
    if IsEnd(e.log) {
      var t := if n > 3 then e.log[1..n - 3] else "";
      assert e.log[n - 3] == NEW_LINE[0] && e.log[n - 2] == NEW_LINE[1];
      assert n > 3 ==> e.log == ['\"'] + t + ['\\', 'n'] + ['\"'];
    }
    if t: string :| e.log == ['\"'] + t + ['\\', 'n'] + ['\"'] {
      assert e.log[n - 3..n - 1] == ['\\', 'n'];
    }
  }

  /** With only the node's name wanted, every fragment goes on as it is. */
  lemma OnlyNodePasses(c: Config, s: State, e: Event)
    requires |s.buf| >= 1 && c.onlyNode && e.Fragment?
    ensures Do(c, s, e) == (s, Pass(e.log))
  {
  }

  /** Otherwise a fragment without its two quotes and at least one character ends the program. */
  lemma PanicsIff(c: Config, s: State, e: Event)
    requires |s.buf| >= 1
    ensures Do(c, s, e).1.Panic? <==> !c.onlyNode && e.Fragment? && |e.log| < 3
  {
  }

  // ------------------------------------------------- nothing lost, however it is split

  lemma DoText(c: Config, s: State, e: Event)
    requires !c.onlyNode && c.maxSize == 0 && Proper(e) && !s.skip && |s.buf| >= 1 && s.buf[0] == QUOTE
    ensures var (s', res) := Do(c, s, e);
            && !s'.skip && |s'.buf| >= 1 && s'.buf[0] == QUOTE
            && (res == Collapse || res.Pass?)
            && (res == Collapse ==> s'.buf[1..] == s.buf[1..] + Body(e.log))
            && (res.Pass? ==> s'.buf[1..] == "" && res.log == Quoted(s.buf[1..] + Body(e.log)))
            && (res == Collapse ==> s'.size == s.size + e.size && s'.size + LOOKAHEAD <= c.splitSize)
            && (res.Pass? ==> s'.size == 0)
  {
    QuotedBody(e);
    if |s.buf| > 1 {
      assert s.buf == [QUOTE] + s.buf[1..];
      assert s.buf + Body(e.log) + [QUOTE] == Quoted(s.buf[1..] + Body(e.log));
    } else {
      assert s.buf[1..] == "";
      assert s.buf[1..] + Body(e.log) == Body(e.log);
    }
  }

  /** Without a cap the results and the buffer together are the text of all fragments, in order
      and without a gap, wherever a long line was split. */
  lemma {:induction false} NoTextLost(c: Config, es: seq<Event>)
    requires !c.onlyNode && c.maxSize == 0 && AllProper(es)
    ensures var (s, out) := Run(c, es);
            !s.skip && Inside(out) + s.buf[1..] == Text(es)
    decreases |es|
  {
    if es != [] {
      var n := |es| - 1;
      NoTextLost(c, es[..n]);
      var (s, out) := Run(c, es[..n]);
      DoText(c, s, es[n]);
      var (s', res) := Do(c, s, es[n]);
      var body := Body(es[n].log);
      Basics.Assoc(Inside(out), s.buf[1..], body);
      if res.Pass? {
        InsideSnoc(out, s.buf[1..] + body);
        assert Inside(out + [res.log]) + "" == Inside(out) + (s.buf[1..] + body);
      }
    } else {
      assert [QUOTE][1..] == "";
    }
  }

  lemma SuffixSnoc(es: seq<Event>, e: Event, k: nat)
    requires AllProper(es) && Proper(e) && k <= |es|
    ensures Text((es + [e])[k..]) == Text(es[k..]) + Body(e.log)
    ensures Size((es + [e])[k..]) == Size(es[k..]) + e.size
  {
    assert (es + [e])[k..] == es[k..] + [e];
    assert (es[k..] + [e])[..|es| - k] == es[k..];
  }

  /** The buffer is the text of the fragments from `k` on, `size` is their size, and it leaves
      room for one more fragment. */
  ghost predicate Holds(c: Config, s: State, es: seq<Event>, k: nat)
    requires AllProper(es)
  {
    && k <= |es| && !s.skip && |s.buf| >= 1 && s.buf[0] == QUOTE
    && s.buf[1..] == Text(es[k..]) && s.size == Size(es[k..])
    && (k == |es| || s.size + LOOKAHEAD <= c.splitSize)
  }

  lemma DoHolds(c: Config, s: State, es: seq<Event>, e: Event, k: nat)
    requires !c.onlyNode && c.maxSize == 0 && AllProper(es) && Proper(e) && Holds(c, s, es, k)
    ensures var (s', res) := Do(c, s, e);
            Holds(c, s', es + [e], if res.Pass? then |es| + 1 else k)
  {
    DoText(c, s, e);
    SuffixSnoc(es, e, k);
    assert (es + [e])[|es| + 1..] == [];
  }

  lemma {:induction false} Buffered(c: Config, es: seq<Event>) returns (k: nat)
    requires !c.onlyNode && c.maxSize == 0 && AllProper(es)
    ensures Holds(c, Run(c, es).0, es, k)
    decreases |es|
  {
    if es == [] {
      k := 0;
      assert [QUOTE][1..] == "" && es[0..] == [];
    } else {
      var n := |es| - 1;
      var j := Buffered(c, es[..n]);
      var s := Run(c, es[..n]).0;
      DoHolds(c, s, es[..n], es[n], j);
      assert es[..n] + [es[n]] == es;
      k := if Do(c, s, es[n]).1.Pass? then |es| else j;
    }
  }

  /** The lookahead does what it is for: when no fragment is larger than it, a result that was
      joined from several fragments is their text, and their size is within the split size. */
  lemma JoinedFits(c: Config, es: seq<Event>, e: Event) returns (k: nat)
    requires !c.onlyNode && c.maxSize == 0 && AllProper(es) && Proper(e) && e.size <= LOOKAHEAD
    ensures k <= |es|
    ensures var s := Run(c, es).0;
            var res := Do(c, s, e).1;
            res.Pass? ==>
              && res.log == Quoted(Text(es[k..]) + Body(e.log))
              && (k < |es| ==> Size(es[k..]) + e.size <= c.splitSize)
  {
    k := Buffered(c, es);
    DoText(c, Run(c, es).0, e);
  }

  // ----------------------------------------------- with a cap: whole lines or nothing

  /** Real fragments and timeouts. */
  predicate AllGood(es: seq<Event>) {
    forall i :: 0 <= i < |es| ==> es[i].Timeout? || Proper(es[i])
  }

  predicate Ends(e: Event) {
    Proper(e) && IsEnd(e.log)
  }

  /** The fragments since the last line end or timeout. */
  function Open(es: seq<Event>): (r: seq<Event>)
    requires AllGood(es)
    ensures AllProper(r)
  {
    if es == [] || es[|es| - 1].Timeout? || Ends(es[|es| - 1]) then []
    else Open(es[..|es| - 1]) + [es[|es| - 1]]
  }

  /** A fragment is within the cap together with the text before it. */
  predicate FitsBehind(maxSize: nat, line: seq<Event>, e: Event)
    requires AllProper(line) && Proper(e)
  {
    maxSize == 0 || 1 + |Text(line)| + |e.log| < maxSize
  }

  /** Each fragment of a line but the last is. */
  ghost predicate Fits(maxSize: nat, line: seq<Event>)
    requires AllProper(line)
  {
    forall k :: 0 <= k < |line| ==> FitsBehind(maxSize, line[..k], line[k])
  }

  /** Fragment `i` is over the cap, and no line has ended since. */
  ghost predicate OverSince(maxSize: nat, es: seq<Event>, i: nat)
    requires AllGood(es)
  {
    && i < |es| && es[i].Fragment? && !FitsBehind(maxSize, Open(es[..i]), es[i])
    && forall j :: i <= j < |es| ==> !Ends(es[j])
  }

  /** Some fragment since the last line end was over the cap. Timeouts do not matter here. */
  ghost predicate Over(maxSize: nat, es: seq<Event>)
    requires AllGood(es)
  {
    exists i: nat :: OverSince(maxSize, es, i)
  }

  /** What is let through: at a line end the text since the last line end or timeout, unless a
      fragment since the last line end was over the cap. */
  ghost function Results(maxSize: nat, es: seq<Event>): seq<string>
    requires AllGood(es)
  {
    if es == [] then []
    else
      var n := |es| - 1;
      var before := Results(maxSize, es[..n]);
      if Ends(es[n]) && !Over(maxSize, es[..n])
      then before + [Quoted(Text(Open(es[..n])) + Body(es[n].log))]
      else before
  }

  /** No fragment of the run makes a line too long for the split size. */
  ghost predicate NeverSplit(c: Config, es: seq<Event>)
    requires AllGood(es)
  {
    forall i :: 0 <= i < |es| && es[i].Fragment? ==>
      Size(Open(es[..i])) + es[i].size + LOOKAHEAD <= c.splitSize
  }

  /** What the state says about the open line and the mark. */
  ghost predicate Describes(s: State, line: seq<Event>, over: bool)
    requires AllProper(line)
  {
    && |s.buf| >= 1 && s.buf[0] == QUOTE && s.size == Size(line)
    && s.skip == over
    && (!over ==> s.buf == [QUOTE] + Text(line))
  }

  lemma DoMiddle(c: Config, s: State, e: Event)
    requires !c.onlyNode && Proper(e) && |s.buf| >= 1 && s.buf[0] == QUOTE
    requires !IsEnd(e.log) && s.size + e.size + LOOKAHEAD <= c.splitSize
    ensures var (s', res) := Do(c, s, e);
            var fits := c.maxSize == 0 || |s.buf| + |e.log| < c.maxSize;
            && res == Collapse && |s'.buf| >= 1 && s'.buf[0] == QUOTE && s'.size == s.size + e.size
            && (fits ==> s'.buf == s.buf + Body(e.log)) && s'.skip == (s.skip || !fits)
  {
  }

  lemma LineSnoc(line: seq<Event>, e: Event)
    requires AllProper(line) && Proper(e)
    ensures [QUOTE] + Text(line + [e]) == [QUOTE] + Text(line) + Body(e.log)
    ensures Size(line + [e]) == Size(line) + e.size
  {
    assert (line + [e])[..|line|] == line;
    Basics.Assoc([QUOTE], Text(line), Body(e.log));
  }

  lemma MiddleDescribes(c: Config, s: State, line: seq<Event>, over: bool, e: Event)
    requires !c.onlyNode && AllProper(line) && Proper(e) && Describes(s, line, over)
    requires !IsEnd(e.log) && s.size + e.size + LOOKAHEAD <= c.splitSize
    ensures var (s', res) := Do(c, s, e);
            res == Collapse && Describes(s', line + [e], over || !FitsBehind(c.maxSize, line, e))
  {
    DoMiddle(c, s, e);
    LineSnoc(line, e);
  }

  lemma EndDescribes(c: Config, s: State, line: seq<Event>, over: bool, e: Event)
    requires !c.onlyNode && AllProper(line) && Proper(e) && Describes(s, line, over) && IsEnd(e.log)
    ensures var (s', res) := Do(c, s, e);
            && Describes(s', [], false)
            && res == if over then Discard else Pass(Quoted(Text(line) + Body(e.log)))
  {
    if !over {
      QuotedBody(e);
      assert s.buf + Body(e.log) + [QUOTE] == Quoted(Text(line) + Body(e.log));
      if |s.buf| == 1 {
        assert Text(line) + Body(e.log) == Body(e.log);
      }
    }
  }

  lemma TimeoutDescribes(c: Config, s: State, line: seq<Event>, over: bool)
    requires AllProper(line) && Describes(s, line, over)
    ensures var (s', res) := Do(c, s, Timeout);
            res == Discard && Describes(s', [], over)
  {
  }

  /** How one more event changes the mark. */
  lemma OverSnoc(maxSize: nat, es: seq<Event>, e: Event)
    requires AllGood(es) && (e.Timeout? || Proper(e))
    ensures Over(maxSize, es + [e]) <==>
            !Ends(e) && (Over(maxSize, es) || (e.Fragment? && !FitsBehind(maxSize, Open(es), e)))
  {
    var all := es + [e];
    assert all[..|es|] == es;
    if Over(maxSize, es) && !Ends(e) {
      var i: nat :| OverSince(maxSize, es, i);
      assert all[..i] == es[..i];
      assert OverSince(maxSize, all, i);
    } else if !Ends(e) && e.Fragment? && !FitsBehind(maxSize, Open(es), e) {
      assert OverSince(maxSize, all, |es|);
    }
    if Over(maxSize, all) {
      var i: nat :| OverSince(maxSize, all, i);
      assert !Ends(all[|es|]);
      if i < |es| {
        assert all[..i] == es[..i];
        assert forall j :: i <= j < |es| ==> all[j] == es[j];
        assert OverSince(maxSize, es, i);
      }
    }
  }

  lemma NeverSplitPrefix(c: Config, es: seq<Event>, n: nat)
    requires AllGood(es) && NeverSplit(c, es) && n <= |es|
    ensures NeverSplit(c, es[..n])
  {
    forall i | 0 <= i < n && es[..n][i].Fragment?
      ensures Size(Open(es[..n][..i])) + es[..n][i].size + LOOKAHEAD <= c.splitSize
    {
      assert es[..n][..i] == es[..i];
    }
  }

  /** With a cap, timeouts at any place and no split, every line end lets through the whole text
      since the last line end or timeout, exactly when no fragment since the last line end was over
      the cap; otherwise no part of it. */
  lemma {:induction false} WholeOrNothing(c: Config, es: seq<Event>)
    requires !c.onlyNode && AllGood(es) && NeverSplit(c, es)
    ensures var (s, out) := Run(c, es);
            out == Results(c.maxSize, es) && Describes(s, Open(es), Over(c.maxSize, es))
    decreases |es|
  {
    if es != [] {
      var n := |es| - 1;
      var before, e := es[..n], es[n];
      NeverSplitPrefix(c, es, n);
      WholeOrNothing(c, before);
      assert es == before + [e];
      OverSnoc(c.maxSize, before, e);
      var s := Run(c, before).0;
      if e.Timeout? {
        TimeoutDescribes(c, s, Open(before), Over(c.maxSize, before));
      } else if Ends(e) {
        EndDescribes(c, s, Open(before), Over(c.maxSize, before), e);
      } else {
        MiddleDescribes(c, s, Open(before), Over(c.maxSize, before), e);
      }
    }
  }

  // ------------------------------------------------------------- without timeouts

  /** The complete lines of a run, without those over the cap. */
  ghost function WholeLines(maxSize: nat, es: seq<Event>): seq<string>
    requires AllProper(es)
  {
    if es == [] then []
    else
      var n := |es| - 1;
      var before := WholeLines(maxSize, es[..n]);
      if IsEnd(es[n].log) && Fits(maxSize, Open(es[..n]))
      then before + [Quoted(Text(Open(es[..n])) + Body(es[n].log))]
      else before
  }

  lemma FitsSnoc(maxSize: nat, line: seq<Event>, e: Event)
    requires AllProper(line) && Proper(e)
    ensures Fits(maxSize, line + [e]) <==> Fits(maxSize, line) && FitsBehind(maxSize, line, e)
  {
    var all := line + [e];
    assert all[..|line|] == line;
    if Fits(maxSize, all) {
      assert FitsBehind(maxSize, all[..|line|], all[|line|]);
      forall k | 0 <= k < |line|
        ensures FitsBehind(maxSize, line[..k], line[k])
      {
        assert all[..k] == line[..k] && all[k] == line[k];
      }
    }
    if Fits(maxSize, line) && FitsBehind(maxSize, line, e) {
      forall k | 0 <= k < |all|
        ensures FitsBehind(maxSize, all[..k], all[k])
      {
        if k < |line| {
          assert all[..k] == line[..k];
        }
      }
    }
  }

  /** Without timeouts the mark says just that the open line does not fit. */
  lemma {:induction false} OverIsNoFit(maxSize: nat, es: seq<Event>)
    requires AllProper(es)
    ensures Over(maxSize, es) <==> !Fits(maxSize, Open(es))
    decreases |es|
  {
    if es != [] {
      var n := |es| - 1;
      OverIsNoFit(maxSize, es[..n]);
      assert es == es[..n] + [es[n]];
      OverSnoc(maxSize, es[..n], es[n]);
      if !Ends(es[n]) {
        FitsSnoc(maxSize, Open(es[..n]), es[n]);
      }
    }
  }

  /** So without timeouts exactly the complete lines that fit are let through. */
  lemma {:induction false} LinesThatFit(maxSize: nat, es: seq<Event>)
    requires AllProper(es)
    ensures Results(maxSize, es) == WholeLines(maxSize, es)
    decreases |es|
  {
    if es != [] {
      LinesThatFit(maxSize, es[..|es| - 1]);
      OverIsNoFit(maxSize, es[..|es| - 1]);
    }
  }

  // -------------------------------------------------------------------- timeouts

  lemma OpenSnoc(es: seq<Event>, e: Event)
    requires AllGood(es) && Proper(e) && !IsEnd(e.log)
    ensures AllGood(es + [e]) && Open(es + [e]) == Open(es) + [e]
  {
    assert (es + [e])[..|es|] == es;
  }

  lemma {:induction false} OpenAfter(es: seq<Event>, line: seq<Event>)
    requires AllGood(es) && AllProper(line) && Open(es) == []
    requires forall k :: 0 <= k < |line| ==> !IsEnd(line[k].log)
    ensures AllGood(es + line) && Open(es + line) == line
    decreases |line|
  {
    if line == [] {
      assert es + line == es;
    } else {
      var n := |line| - 1;
      OpenAfter(es, line[..n]);
      OpenSnoc(es + line[..n], line[n]);
      assert es + line == (es + line[..n]) + [line[n]];
      assert line == line[..n] + [line[n]];
    }
  }

  lemma {:induction false} OverAfter(maxSize: nat, es: seq<Event>, line: seq<Event>)
    requires AllGood(es) && AllProper(line) && es != [] && es[|es| - 1].Timeout?
    requires forall k :: 0 <= k < |line| ==> !IsEnd(line[k].log)
    ensures AllGood(es + line)
    ensures Over(maxSize, es + line) <==> Over(maxSize, es) || !Fits(maxSize, line)
    decreases |line|
  {
    if line == [] {
      assert es + line == es;
    } else {
      var n := |line| - 1;
      OverAfter(maxSize, es, line[..n]);
      OpenAfter(es, line[..n]);
      assert es + line == (es + line[..n]) + [line[n]];
      assert line == line[..n] + [line[n]];
      OverSnoc(maxSize, es + line[..n], line[n]);
      FitsSnoc(maxSize, line[..n], line[n]);
    }
  }

  lemma {:induction false} ResultsOfOpen(maxSize: nat, es: seq<Event>, line: seq<Event>)
    requires AllGood(es) && AllProper(line)
    requires forall k :: 0 <= k < |line| ==> !IsEnd(line[k].log)
    ensures AllGood(es + line) && Results(maxSize, es + line) == Results(maxSize, es)
    decreases |line|
  {
    if line == [] {
      assert es + line == es;
    } else {
      var n := |line| - 1;
      ResultsOfOpen(maxSize, es, line[..n]);
      assert es + line == (es + line[..n]) + [line[n]];
      assert (es + line)[..|es| + n] == es + line[..n];
    }
  }

  lemma ResultsEnd(maxSize: nat, es: seq<Event>, e: Event)
    requires AllGood(es) && Ends(e)
    ensures AllGood(es + [e])
    ensures Results(maxSize, es + [e])
         == if Over(maxSize, es) then Results(maxSize, es)
            else Results(maxSize, es) + [Quoted(Text(Open(es)) + Body(e.log))]
  {
    assert (es + [e])[..|es|] == es;
  }

  lemma ResultsAfterTimeout(maxSize: nat, es: seq<Event>, line: seq<Event>, e: Event)
    requires AllGood(es) && AllProper(line) && Ends(e)
    requires forall k :: 0 <= k < |line| ==> !IsEnd(line[k].log)
    ensures AllGood(es + [Timeout]) && AllGood(es + [Timeout] + line + [e])
    ensures var start := Results(maxSize, es + [Timeout]);
            Results(maxSize, es + [Timeout] + line + [e])
            == if Over(maxSize, es) || !Fits(maxSize, line) then start
               else start + [Quoted(Text(line) + Body(e.log))]
  {
    var t := es + [Timeout];
    OverSnoc(maxSize, es, Timeout);
    OverAfter(maxSize, t, line);
    OpenAfter(t, line);
    ResultsOfOpen(maxSize, t, line);
    ResultsEnd(maxSize, t + line, e);
  }

  lemma RunsAreResults(c: Config, t: seq<Event>, all: seq<Event>)
    requires !c.onlyNode && AllGood(t) && AllGood(all) && NeverSplit(c, all) && t <= all
    ensures Run(c, t).1 == Results(c.maxSize, t) && Run(c, all).1 == Results(c.maxSize, all)
  {
    assert all[..|t|] == t;
    NeverSplitPrefix(c, all, |t|);
    WholeOrNothing(c, all);
    WholeOrNothing(c, t);
  }

  /** The line that follows a timeout, of any number of fragments, is let through exactly when it
      fits and no oversized line was open when the timeout came. */
  lemma AfterTimeout(c: Config, es: seq<Event>, line: seq<Event>, e: Event)
    requires !c.onlyNode && AllGood(es) && AllProper(line) && Ends(e)
    requires forall k :: 0 <= k < |line| ==> !IsEnd(line[k].log)
    requires NeverSplit(c, es + [Timeout] + line + [e])
    ensures var start := Run(c, es + [Timeout]).1;
            Run(c, es + [Timeout] + line + [e]).1
            == if Over(c.maxSize, es) || !Fits(c.maxSize, line) then start
               else start + [Quoted(Text(line) + Body(e.log))]
  {
    ResultsAfterTimeout(c.maxSize, es, line, e);
    var t := es + [Timeout];
    RunsAreResults(c, t, t + line + [e]);
  }

  lemma RunSnoc(c: Config, es: seq<Event>, e: Event)
    ensures var (s, out) := Run(c, es);
            var (s', res) := Do(c, s, e);
            Run(c, es + [e]) == (s', if res.Pass? then out + [res.log] else out)
  {
    assert (es + [e])[..|es|] == es;
  }

  ghost predicate RunsTo(c: Config, es: seq<Event>, line: seq<Event>, over: bool, out: seq<string>)
    requires AllProper(line)
  {
    Describes(Run(c, es).0, line, over) && Run(c, es).1 == out
  }

  lemma Marked(c: Config, big: Event)
    requires !c.onlyNode && 0 < c.maxSize && Proper(big) && !IsEnd(big.log)
    requires 1 + |big.log| >= c.maxSize && big.size + LOOKAHEAD <= c.splitSize
    ensures RunsTo(c, [big], [big], true, [])
  {
    MiddleDescribes(c, INITIAL, [], false, big);
    RunSnoc(c, [], big);
    assert [] + [big] == [big];
  }

  lemma StaysMarked(c: Config, es: seq<Event>, line: seq<Event>, over: bool, out: seq<string>)
    requires AllProper(line) && RunsTo(c, es, line, over, out)
    ensures RunsTo(c, es + [Timeout], [], over, out)
  {
    TimeoutDescribes(c, Run(c, es).0, line, over);
    RunSnoc(c, es, Timeout);
  }

  lemma DropsMarked(c: Config, es: seq<Event>, out: seq<string>, end: Event)
    requires !c.onlyNode && RunsTo(c, es, [], true, out) && Ends(end)
    ensures Run(c, es + [end]).1 == out
  {
    EndDescribes(c, Run(c, es).0, [], true, end);
    RunSnoc(c, es, end);
  }

  /** Runs in which the mark outlives its line: the first fragment is over the cap, the timeout ends
      its line, and the next line is dropped, however short it is. Without that fragment it is let
      through. */
  lemma MarkOutlivesLine(c: Config, big: Event, end: Event)
    requires !c.onlyNode && 0 < c.maxSize && Proper(big) && !IsEnd(big.log) && Ends(end)
    requires 1 + |big.log| >= c.maxSize && big.size + LOOKAHEAD <= c.splitSize
    ensures Run(c, [big] + [Timeout] + [end]).1 == [] && Run(c, [Timeout, end]).1 == [end.log]
  {
    Marked(c, big);
    StaysMarked(c, [big], [big], true, []);
    DropsMarked(c, [big] + [Timeout], [], end);
    NextIsFirst(c, end);
  }

  lemma NextIsFirst(c: Config, end: Event)
    requires !c.onlyNode && Ends(end)
    ensures Run(c, [Timeout, end]).1 == [end.log]
  {
    RunSnoc(c, [], Timeout);
    assert [] + [Timeout] == [Timeout];
    assert Run(c, [Timeout]).0 == INITIAL;
    EndDescribes(c, INITIAL, [], false, end);
    RunSnoc(c, [Timeout], end);
    assert [Timeout] + [end] == [Timeout, end];
    QuotedBody(end);
    assert Text([]) + Body(end.log) == Body(end.log);
  }

  // ------------------------------------------------------------------- the object

  class MultilineAction {
    const config: Config
    var eventBuf: string
    var eventSize: nat
    var skipNextEvent: bool

    ghost predicate Valid()
      reads this
    {
      |eventBuf| >= 1
    }

    ghost function Value(): State
      reads this
    {
      State(eventBuf, eventSize, skipNextEvent)
    }

    constructor (config: Config)
      ensures Valid() && Value() == INITIAL && this.config == config
    {
      this.config := config;
      eventBuf, eventSize, skipNextEvent := [QUOTE], 0, false;
    }

    method ResetLogBuf()
      requires Valid()
      modifies this
      ensures Valid() && Value() == Reset(old(Value()))
    {
      eventBuf := eventBuf[..1];
      eventSize := 0;
    }

    method DoAction(event: Event) returns (r: Result)
      requires Valid()
      modifies this
      ensures Valid() && (Value(), r) == Do(config, old(Value()), event)
    {
      if event.Timeout? {
        ResetLogBuf();
        return Discard;
      }
      if config.onlyNode {
        return Pass(event.log);
      }
      var logFragment := event.log;
      if logFragment == "" {
        return Panic;
      }
      eventSize := eventSize + event.size;
      var predictedLen := eventSize + LOOKAHEAD;
      var shouldSplit := predictedLen > config.splitSize;
      var logFragmentLen := |logFragment|;
      if logFragmentLen < 3 {
        return Panic;
      }
      var isEnd := logFragment[logFragmentLen - 3..logFragmentLen - 1] == NEW_LINE;
      if !isEnd && !shouldSplit {
        var sizeAfterAppend := |eventBuf| + |logFragment|;
        if config.maxSize == 0 || sizeAfterAppend < config.maxSize {
          eventBuf := eventBuf + logFragment[1..logFragmentLen - 1];
        } else if !skipNextEvent {
          skipNextEvent := true;
        }
        return Collapse;
      }
      if skipNextEvent {
        if !isEnd {
          return Collapse;
        }
        skipNextEvent := false;
        ResetLogBuf();
        return Discard;
      }
      var log := logFragment;
      if |eventBuf| > 1 {
        eventBuf := eventBuf + logFragment[1..logFragmentLen - 1];
        eventBuf := eventBuf + [QUOTE];
        log := eventBuf;
        assert eventBuf[..1] == old(eventBuf)[..1];
      }
      ResetLogBuf();
      return Pass(log);
    }
  }
}
