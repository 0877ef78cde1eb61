/** The join action: a run of events that starts with a match of the start pattern and goes
    on with matches of the continue pattern becomes one event.

    The patterns are uninterpreted. What the plugin does event by event is compared with a
    definition by grouping that knows nothing of the plugin's state. */
module Join {
  import opened Basics

  /** The checked field of an event: its text and whether it is a JSON string. */
  datatype Field = Field(text: string, isString: bool)

  datatype Event = Event(id: nat, field: Option<Field>)

  /** What the processor hands to the action. */
  datatype Input = Regular(event: Event) | Timeout

  /** What leaves the action: an event unchanged, or the first of a run with the joined text. */
  datatype Output = Plain(event: Event) | Joined(event: Event, text: string)

  datatype Config = Config(start: string -> bool, continue_: string -> bool, maxEventSize: nat, negate: bool)

  /** `initial` is the held event, `isJoining` and `buff` are the plugin's other fields. */
  datatype State = State(isJoining: bool, initial: Option<Event>, buff: string)

  /** The outcome of one call of `Do`. */
  datatype Outcome = Outcome(state: State, out: seq<Output>, result: ActionResult, panic: bool)

  const IDLE := State(false, None, "")

  // ------------------------------------------------------------- the plugin

  function Flush(st: State): (seq<Output>, State, bool) {
    var st' := st.(isJoining := false, initial := None);
    if st.initial.None? then ([], st', true) else ([Joined(st.initial.value, st.buff)], st', false)
  }

  function FlushIfJoining(st: State): (seq<Output>, State, bool) {
    if st.isJoining then Flush(st) else ([], st, false)
  }

  predicate IsStart(cfg: Config, e: Event) {
    e.field.Some? && e.field.value.isString && cfg.start(e.field.value.text)
  }

  predicate MatchesContinue(cfg: Config, text: string) {
    cfg.continue_(text) != cfg.negate
  }

  function Do(cfg: Config, st: State, x: Input): Outcome {
    match x
    case Timeout =>
      if !st.isJoining then Outcome(st, [], Discard, true)
      else
        var (out, st', bad) := Flush(st);
        Outcome(st', out, Discard, bad)
    case Regular(e) =>
      if e.field.None? then
        var (out, st', bad) := FlushIfJoining(st);
        Outcome(st', out + [Plain(e)], Pass, bad)
      else if IsStart(cfg, e) then
        var (out, _, bad) := FlushIfJoining(st);
        Outcome(State(true, Some(e), e.field.value.text), out, Hold, bad)
      else if st.isJoining && MatchesContinue(cfg, e.field.value.text) then
        var grows := cfg.maxEventSize == 0 || |st.buff| < cfg.maxEventSize;
        Outcome(if grows then st.(buff := st.buff + e.field.value.text) else st, [], Collapse, false)
      else
        var (out, st', bad) := FlushIfJoining(st);
        Outcome(st', out + [Plain(e)], Pass, bad)
  }

  /** All output for an input that ends with a timeout if something is held then. */
  function Run(cfg: Config, st: State, xs: seq<Input>): (seq<Output>, bool)
    decreases |xs|
  {
    if xs == [] then
      if st.isJoining then (var o := Do(cfg, st, Timeout); (o.out, o.panic)) else ([], false)
    else
      var o := Do(cfg, st, xs[0]);
      var (out, bad) := Run(cfg, o.state, xs[1..]);
      (o.out + out, o.panic || bad)
  }

  // --------------------------------------------------------------- grouping

  /** The start pattern matches a field that is a string. */
  predicate Starts(cfg: Config, x: Input) {
    && x.Regular? && x.event.field.Some?
    && var f := x.event.field.value;
    f.isString && cfg.start(f.text)
  }

  /** The event belongs to the run of the event before it. */
  predicate Continues(cfg: Config, x: Input) {
    && x.Regular? && x.event.field.Some? && !Starts(cfg, x)
    && if cfg.negate then !cfg.continue_(x.event.field.value.text) else cfg.continue_(x.event.field.value.text)
  }

  /** How many events at the front continue a run: as many as possible. */
  function RunLength(cfg: Config, xs: seq<Input>): (k: nat)
    ensures k <= |xs|
    ensures forall i :: 0 <= i < k ==> Continues(cfg, xs[i])
    ensures k < |xs| ==> !Continues(cfg, xs[k])
  {
    if xs == [] || !Continues(cfg, xs[0]) then 0 else 1 + RunLength(cfg, xs[1..])
  }

  function Text(x: Input): string {
    if x.Regular? && x.event.field.Some? then x.event.field.value.text else ""
  }

  function Texts(xs: seq<Input>): (r: seq<string>)
    ensures |r| == |xs| && forall i :: 0 <= i < |r| ==> r[i] == Text(xs[i])
  {
    seq(|xs|, i requires 0 <= i < |xs| => Text(xs[i]))
  }

  function Concat(pieces: seq<string>): string {
    if pieces == [] then "" else pieces[0] + Concat(pieces[1..])
  }

  /** The least number of pieces, `k` or more, that reaches the cap; all of them if none does. */
  function Cut(cap: nat, pieces: seq<string>, k: nat): (r: nat)
    requires k <= |pieces|
    ensures k <= r <= |pieces|
    ensures r < |pieces| ==> cap != 0 && |Concat(pieces[..r])| >= cap
    ensures forall j :: k <= j < r ==> cap == 0 || |Concat(pieces[..j])| < cap
    decreases |pieces| - k
  {
    if k == |pieces| || (cap != 0 && |Concat(pieces[..k])| >= cap) then k else Cut(cap, pieces, k + 1)
  }

  /** The joined text: the shortest prefix of whole pieces, at least one, that reaches the
      cap. */
  function JoinedText(cap: nat, pieces: seq<string>): string
    requires pieces != []
  {
    Concat(pieces[..Cut(cap, pieces, 1)])
  }

  /** The input with every maximal run replaced by one event. */
  function Group(cfg: Config, xs: seq<Input>): seq<Output>
    decreases |xs|
  {
    if xs == [] then []
    else if Starts(cfg, xs[0]) then
      var k := 1 + RunLength(cfg, xs[1..]);
      [Joined(xs[0].event, JoinedText(cfg.maxEventSize, Texts(xs[..k])))] + Group(cfg, xs[k..])
    else
      (if xs[0].Regular? then [Plain(xs[0].event)] else []) + Group(cfg, xs[1..])
  }

  /** Timeouts come only right after a run. */
  predicate Timely(cfg: Config, xs: seq<Input>)
    decreases |xs|
  {
    if xs == [] then true
    else if Starts(cfg, xs[0]) then
      var k := 1 + RunLength(cfg, xs[1..]);
      if k < |xs| && xs[k].Timeout? then Timely(cfg, xs[k + 1..]) else Timely(cfg, xs[k..])
    else
      xs[0].Regular? && Timely(cfg, xs[1..])
  }

  // ------------------------------------------------------------- refinement

  /** The plugin is in the middle of a run whose pieces so far are `pieces`. */
  ghost predicate InRun(cfg: Config, st: State, e: Event, pieces: seq<string>) {
    st.isJoining && st.initial == Some(e) && pieces != [] && st.buff == JoinedText(cfg.maxEventSize, pieces)
  }

  lemma ConcatSnoc(pieces: seq<string>, p: string)
    ensures Concat(pieces + [p]) == Concat(pieces) + p
  {
    if pieces != [] {
      assert (pieces + [p])[1..] == pieces[1..] + [p];
      ConcatSnoc(pieces[1..], p);
    } else {
      assert pieces + [p] == [p] && [p][1..] == [];
      assert Concat([p]) == p + Concat([]);
    }
  }

  /** One more piece joins the text exactly while the text is below the cap. */
  lemma {:induction false} CutGrows(cap: nat, pieces: seq<string>, p: string, k: nat)
    requires k <= |pieces|
    ensures var r := Cut(cap, pieces, k);
            Cut(cap, pieces + [p], k) == if r == |pieces| && (cap == 0 || |Concat(pieces)| < cap) then r + 1 else r
    decreases |pieces| - k
  {
    assert (pieces + [p])[..k] == pieces[..k];
    if k == |pieces| {
      assert pieces[..k] == pieces;
      if cap == 0 || |Concat(pieces)| < cap {
        assert Cut(cap, pieces + [p], k) == Cut(cap, pieces + [p], k + 1);
      }
    } else if !(cap != 0 && |Concat(pieces[..k])| >= cap) {
      CutGrows(cap, pieces, p, k + 1);
    }
  }

  lemma TextGrows(cap: nat, pieces: seq<string>, p: string)
    requires pieces != []
    ensures var t := JoinedText(cap, pieces);
            JoinedText(cap, pieces + [p]) == if cap == 0 || |t| < cap then t + p else t
  {
    CutGrows(cap, pieces, p, 1);
    var r := Cut(cap, pieces, 1);
    if r == |pieces| {
      assert pieces[..r] == pieces;
      assert (pieces + [p])[..r] == pieces && (pieces + [p])[..r + 1 - 1] == pieces;
      ConcatSnoc(pieces, p);
      assert cap == 0 || |Concat(pieces)| < cap ==> (pieces + [p])[..r + 1] == pieces + [p];
    } else {
      assert (pieces + [p])[..r] == pieces[..r];
    }
  }

  lemma BeginRun(cfg: Config, st: State, x: Input)
    requires Starts(cfg, x) && (st.isJoining ==> st.initial.Some?)
    ensures InRun(cfg, Do(cfg, st, x).state, x.event, [Text(x)])
    ensures !Do(cfg, st, x).panic
  {
    var p := [Text(x)];
    assert Cut(cfg.maxEventSize, p, 1) == 1 && p[..1] == p;
    ConcatSnoc([], Text(x));
    assert [] + p == p;
  }

  lemma ContinueRun(cfg: Config, st: State, e: Event, pieces: seq<string>, x: Input)
    requires InRun(cfg, st, e, pieces) && Continues(cfg, x)
    ensures var o := Do(cfg, st, x);
            InRun(cfg, o.state, e, pieces + [Text(x)]) && o.out == [] && o.result == Collapse && !o.panic
  {
    TextGrows(cfg.maxEventSize, pieces, Text(x));
  }

  /** From the middle of a run: the run is completed, then the rest is grouped. */
  lemma {:induction false} RunFromRun(cfg: Config, st: State, e: Event, pieces: seq<string>, xs: seq<Input>)
    requires InRun(cfg, st, e, pieces)
    ensures var k := RunLength(cfg, xs);
            var rest := if k < |xs| && xs[k].Timeout? then xs[k + 1..] else xs[k..];
            && Run(cfg, st, xs).0
               == [Joined(e, JoinedText(cfg.maxEventSize, pieces + Texts(xs[..k])))] + Group(cfg, xs[k..])
            && (Run(cfg, st, xs).1 <==> !Timely(cfg, rest))
    decreases |xs|, 2
  {
    if RunLength(cfg, xs) > 0 {
      ContinueRun(cfg, st, e, pieces, xs[0]);
      RunFromRun(cfg, Do(cfg, st, xs[0]).state, e, pieces + [Text(xs[0])], xs[1..]);
      assert Run(cfg, st, xs).0 == Run(cfg, Do(cfg, st, xs[0]).state, xs[1..]).0;
      ShiftRun(cfg, pieces, xs);
    } else {
      assert xs[..0] == [] && Texts(xs[..0]) == [] && pieces + [] == pieces && xs[0..] == xs;
      EndOfRun(cfg, st, e, xs);
    }
  }

  lemma TextsHead(xs: seq<Input>)
    requires xs != []
    ensures Texts(xs) == [Text(xs[0])] + Texts(xs[1..])
  {
  }

  /** Moving the first event of a run to the pieces changes nothing. */
  lemma ShiftRun(cfg: Config, pieces: seq<string>, xs: seq<Input>)
    requires RunLength(cfg, xs) > 0
    ensures var k := RunLength(cfg, xs);
            && RunLength(cfg, xs[1..]) == k - 1
            && pieces + Texts(xs[..k]) == pieces + [Text(xs[0])] + Texts(xs[1..][..k - 1])
            && xs[1..][k - 1..] == xs[k..]
            && (k < |xs| ==> xs[1..][k - 1] == xs[k] && xs[1..][k..] == xs[k + 1..])
  {
    var k := RunLength(cfg, xs);
    TextsHead(xs[..k]);
    assert xs[..k][1..] == xs[1..][..k - 1];
    Assoc(pieces, [Text(xs[0])], Texts(xs[1..][..k - 1]));
  }

  /** An input that does not continue the run flushes it. */
  lemma DoEndsRun(cfg: Config, st: State, e: Event, x: Input)
    requires st.isJoining && st.initial == Some(e) && !Continues(cfg, x)
    ensures var o := Do(cfg, st, x);
            && !o.panic
            && (Starts(cfg, x) ==> o.out == [Joined(e, st.buff)])
            && (!Starts(cfg, x) ==> !o.state.isJoining)
            && (!Starts(cfg, x) ==> o.out == [Joined(e, st.buff)] + if x.Regular? then [Plain(x.event)] else [])
  {
  }

  lemma {:induction false} EndOfRun(cfg: Config, st: State, e: Event, xs: seq<Input>)
    requires st.isJoining && st.initial == Some(e) && RunLength(cfg, xs) == 0
    ensures Run(cfg, st, xs).0 == [Joined(e, st.buff)] + Group(cfg, xs)
    ensures Run(cfg, st, xs).1 <==> !Timely(cfg, if xs != [] && xs[0].Timeout? then xs[1..] else xs)
    decreases |xs|, 1
  {
    if xs != [] {
      var x := xs[0];
      var o := Do(cfg, st, x);
      DoEndsRun(cfg, st, e, x);
      if Starts(cfg, x) {
        BeginRun(cfg, st, x);
        GroupHead(cfg, o.state, xs);
      } else {
        RunFromIdle(cfg, o.state, xs[1..]);
        Assoc([Joined(e, st.buff)], if x.Regular? then [Plain(x.event)] else [], Group(cfg, xs[1..]));
      }
    }
  }

  /** The head of the input begins a run. */
  lemma {:induction false} GroupHead(cfg: Config, st: State, xs: seq<Input>)
    requires xs != [] && Starts(cfg, xs[0]) && InRun(cfg, st, xs[0].event, [Text(xs[0])])
    ensures Run(cfg, st, xs[1..]).0 == Group(cfg, xs)
    ensures Run(cfg, st, xs[1..]).1 <==> !Timely(cfg, xs)
    decreases |xs|, 0
  {
    RunFromRun(cfg, st, xs[0].event, [Text(xs[0])], xs[1..]);
    var k := RunLength(cfg, xs[1..]);
    assert xs[1..][..k] == xs[..k + 1][1..];
    assert [Text(xs[0])] + Texts(xs[1..][..k]) == Texts(xs[..k + 1]);
    assert xs[1..][k..] == xs[k + 1..];
    assert k + 1 < |xs| ==> xs[1..][k + 1..] == xs[k + 2..];
  }

  /** With nothing held, the plugin's output is the grouping of its input, and it panics
      exactly when a timeout does not follow a run. */
  lemma {:induction false} RunFromIdle(cfg: Config, st: State, xs: seq<Input>)
    requires !st.isJoining
    ensures Run(cfg, st, xs).0 == Group(cfg, xs)
    ensures Run(cfg, st, xs).1 <==> !Timely(cfg, xs)
    decreases |xs|, 1
  {
    if xs != [] {
      var x := xs[0];
      var o := Do(cfg, st, x);
      if Starts(cfg, x) {
        BeginRun(cfg, st, x);
        GroupHead(cfg, o.state, xs);
      } else {
        assert o.out == if x.Regular? then [Plain(x.event)] else [];
        RunFromIdle(cfg, o.state, xs[1..]);
      }
    }
  }

  /** What join is for: the output is the input with every maximal run replaced by one
      event, whatever the patterns, the cap and the input. */
  lemma JoinIsGrouping(cfg: Config, xs: seq<Input>)
    ensures Run(cfg, IDLE, xs).0 == Group(cfg, xs)
    ensures Run(cfg, IDLE, xs).1 <==> !Timely(cfg, xs)
  {
    RunFromIdle(cfg, IDLE, xs);
  }

  // ------------------------------------------- what the processor is told of each event

  function Results(cfg: Config, st: State, xs: seq<Input>): (r: seq<ActionResult>)
    ensures |r| == |xs|
    decreases |xs|
  {
    if xs == [] then []
    else
      var o := Do(cfg, st, xs[0]);
      [o.result] + Results(cfg, o.state, xs[1..])
  }

  /** The run of the event at `i` starts at `j`: only events that continue it are in between. */
  ghost predicate TailOf(cfg: Config, xs: seq<Input>, i: nat, j: nat) {
    j < i < |xs| && Starts(cfg, xs[j]) && forall k :: j < k <= i ==> Continues(cfg, xs[k])
  }

  ghost predicate InTail(cfg: Config, xs: seq<Input>, i: nat) {
    exists j :: TailOf(cfg, xs, i, j)
  }

  /** What the processor has to do with the event at `i`: throw away a timeout, hold the start of a run,
      drop what was joined to it, and pass on everything else. */
  ghost function Verdict(cfg: Config, xs: seq<Input>, i: nat): ActionResult
    requires i < |xs|
  {
    if xs[i].Timeout? then Discard
    else if Starts(cfg, xs[i]) then Hold
    else if InTail(cfg, xs, i) then Collapse
    else Pass
  }

  /** The plugin joins exactly while the last event it saw starts a run or is in the tail of one. */
  ghost predicate Mirrors(cfg: Config, st: State, seen: seq<Input>) {
    var n := |seen|;
    st.isJoining <==> n > 0 && (Starts(cfg, seen[n - 1]) || InTail(cfg, seen, n - 1))
  }

  lemma TailGrows(cfg: Config, xs: seq<Input>, x: Input)
    ensures var n := |xs|;
            InTail(cfg, xs + [x], n) <==>
            Continues(cfg, x) && n > 0 && (Starts(cfg, xs[n - 1]) || InTail(cfg, xs, n - 1))
  {
    var ys, n := xs + [x], |xs|;
    if InTail(cfg, ys, n) {
      var j: nat :| TailOf(cfg, ys, n, j);
      assert Continues(cfg, ys[n]);
      if j < n - 1 {
        assert forall k :: j <= k < n ==> ys[k] == xs[k] && (j < k ==> Continues(cfg, ys[k]));
        assert TailOf(cfg, xs, n - 1, j);
      }
    }
    if Continues(cfg, x) && n > 0 {
      if Starts(cfg, xs[n - 1]) {
        assert TailOf(cfg, ys, n, n - 1);
      } else if InTail(cfg, xs, n - 1) {
        var j: nat :| TailOf(cfg, xs, n - 1, j);
        assert TailOf(cfg, ys, n, j);
      }
    }
  }

  lemma DoMirrors(cfg: Config, st: State, seen: seq<Input>, x: Input)
    requires Mirrors(cfg, st, seen)
    ensures var o := Do(cfg, st, x);
            o.result == Verdict(cfg, seen + [x], |seen|) && Mirrors(cfg, o.state, seen + [x])
  {
    TailGrows(cfg, seen, x);
    assert (seen + [x])[|seen|] == x;
  }

  /** Later events do not change what an event is. */
  lemma VerdictStays(cfg: Config, xs: seq<Input>, k: nat, i: nat)
    requires i < k <= |xs|
    ensures Verdict(cfg, xs[..k], i) == Verdict(cfg, xs, i)
  {
    if InTail(cfg, xs, i) {
      var j: nat :| TailOf(cfg, xs, i, j);
      assert TailOf(cfg, xs[..k], i, j);
    }
    if InTail(cfg, xs[..k], i) {
      var j: nat :| TailOf(cfg, xs[..k], i, j);
      assert forall m :: j < m <= i ==> xs[..k][m] == xs[m] && Continues(cfg, xs[..k][m]);
      assert TailOf(cfg, xs, i, j);
    }
  }

  lemma {:induction false} ResultsFrom(cfg: Config, st: State, all: seq<Input>, k: nat, i: nat)
    requires k <= i < |all| && Mirrors(cfg, st, all[..k])
    ensures Results(cfg, st, all[k..])[i - k] == Verdict(cfg, all, i)
    decreases |all| - k
  {
    DoMirrors(cfg, st, all[..k], all[k]);
    assert all[..k] + [all[k]] == all[..k + 1];
    assert all[k..][1..] == all[k + 1..];
    if i == k {
      VerdictStays(cfg, all, k + 1, k);
    } else {
      ResultsFrom(cfg, Do(cfg, st, all[k]).state, all, k + 1, i);
    }
  }

  /** For every input and every event the processor is told what the grouping makes of the event. */
  lemma ResultsAreVerdicts(cfg: Config, xs: seq<Input>, i: nat)
    requires i < |xs|
    ensures Results(cfg, IDLE, xs)[i] == Verdict(cfg, xs, i)
  {
    assert xs[..0] == [] && xs[0..] == xs;
    ResultsFrom(cfg, IDLE, xs, 0, i);
  }

  function OutText(o: Output): string {
    match o
    case Plain(e) => Text(Regular(e))
    case Joined(_, t) => t
  }

  function OutTexts(os: seq<Output>): string {
    if os == [] then "" else OutText(os[0]) + OutTexts(os[1..])
  }

  lemma {:induction false} ConcatSplit(a: seq<string>, b: seq<string>)
    ensures Concat(a + b) == Concat(a) + Concat(b)
  {
    if a == [] {
      assert a + b == b;
    } else {
      ConcatSplit(a[1..], b);
      assert (a + b)[1..] == a[1..] + b;
    }
  }

  /** The texts of the first `k` inputs and of the others. */
  lemma SplitTexts(xs: seq<Input>, k: nat)
    requires k <= |xs|
    ensures Concat(Texts(xs)) == Concat(Texts(xs[..k])) + Concat(Texts(xs[k..]))
  {
    assert Texts(xs) == Texts(xs[..k]) + Texts(xs[k..]);
    ConcatSplit(Texts(xs[..k]), Texts(xs[k..]));
  }

  lemma OutTextsHead(o: Output, os: seq<Output>)
    ensures OutTexts([o] + os) == OutText(o) + OutTexts(os)
  {
    assert ([o] + os)[1..] == os;
  }

  lemma RunText(cfg: Config, xs: seq<Input>, k: nat)
    requires xs != [] && cfg.maxEventSize == 0 && Starts(cfg, xs[0]) && k == 1 + RunLength(cfg, xs[1..])
    ensures OutTexts(Group(cfg, xs)) == Concat(Texts(xs[..k])) + OutTexts(Group(cfg, xs[k..]))
  {
    var ps := Texts(xs[..k]);
    assert ps[..Cut(0, ps, 1)] == ps;
    OutTextsHead(Joined(xs[0].event, JoinedText(0, ps)), Group(cfg, xs[k..]));
  }

  lemma ConcatOne(t: string)
    ensures Concat([t]) == t
  {
    assert [t][1..] == [];
    assert t + "" == t;
  }

  lemma PlainText(cfg: Config, xs: seq<Input>)
    requires xs != [] && !Starts(cfg, xs[0])
    ensures OutTexts(Group(cfg, xs)) == Text(xs[0]) + OutTexts(Group(cfg, xs[1..]))
  {
    var rest := Group(cfg, xs[1..]);
    if xs[0].Regular? {
      assert Group(cfg, xs) == [Plain(xs[0].event)] + rest;
      OutTextsHead(Plain(xs[0].event), rest);
    } else {
      assert Group(cfg, xs) == [] + rest == rest;
      assert "" + OutTexts(rest) == OutTexts(rest);
    }
  }

  /** Without a cap no text is lost or moved: the texts of the output, one after the other,
      are the texts of the input. */
  lemma {:induction false} NoTextLost(cfg: Config, xs: seq<Input>)
    requires cfg.maxEventSize == 0
    ensures OutTexts(Group(cfg, xs)) == Concat(Texts(xs))
    decreases |xs|
  {
    if xs != [] {
      var k := if Starts(cfg, xs[0]) then 1 + RunLength(cfg, xs[1..]) else 1;
      NoTextLost(cfg, xs[k..]);
      SplitTexts(xs, k);
      if Starts(cfg, xs[0]) {
        RunText(cfg, xs, k);
      } else {
        PlainText(cfg, xs);
        assert Texts(xs[..1]) == [Text(xs[0])];
        ConcatOne(Text(xs[0]));
      }
    }
  }

  // --------------------------------------------------------- the plugin object

  class Plugin {
    const cfg: Config
    var isJoining: bool
    var initial: Option<Event>
    var buff: string

    ghost function Value(): State
      reads this
    {
      State(isJoining, initial, buff)
    }

    constructor (cfg: Config)
      ensures this.cfg == cfg && Value() == IDLE
    {
      this.cfg := cfg;
      isJoining, initial, buff := false, None, "";
    }

    /** Returns what goes to `Propagate`. */
    method FlushHeld() returns (out: seq<Output>, panic: bool)
      modifies this
      ensures (out, Value(), panic) == Flush(old(Value()))
    {
      var event := initial;
      initial := None;
      isJoining := false;
      if event.None? {
        return [], true;
      }
      return [Joined(event.value, buff)], false;
    }

    method DoAction(x: Input) returns (out: seq<Output>, result: ActionResult, panic: bool)
      modifies this
      ensures Outcome(Value(), out, result, panic) == Do(cfg, old(Value()), x)
    {
      out, panic := [], false;
      if x.Timeout? {
        if !isJoining {
          return [], Discard, true;
        }
        out, panic := FlushHeld();
        return out, Discard, panic;
      }
      var e := x.event;
      if e.field.None? {
        if isJoining {
          out, panic := FlushHeld();
        }
        return out + [Plain(e)], Pass, panic;
      }
      var value := e.field.value.text;
      var firstOK := false;
      if e.field.value.isString {
        firstOK := cfg.start(value);
      }
      if firstOK {
        if isJoining {
          out, panic := FlushHeld();
        }
        initial, isJoining, buff := Some(e), true, value;
        return out, Hold, panic;
      }
      if isJoining {
        var nextOK := cfg.continue_(value);
        if cfg.negate {
          nextOK := !nextOK;
        }
        if nextOK {
          if cfg.maxEventSize == 0 || |buff| < cfg.maxEventSize {
            buff := buff + value;
          }
          return [], Collapse, false;
        }
      }
      if isJoining {
        out, panic := FlushHeld();
      }
      return out + [Plain(e)], Pass, panic;
    }

    /** A whole input, and the timeout that ends it. */
    method DoAll(xs: seq<Input>) returns (out: seq<Output>, panic: bool)
      requires Value() == IDLE
      modifies this
      ensures out == Group(cfg, xs)
      ensures panic <==> !Timely(cfg, xs)
    {
      out, panic := [], false;
      var i := 0;
      assert xs[0..] == xs;
      while i < |xs|
        invariant 0 <= i <= |xs|
        invariant Run(cfg, IDLE, xs).0 == out + Run(cfg, Value(), xs[i..]).0
        invariant Run(cfg, IDLE, xs).1 <==> panic || Run(cfg, Value(), xs[i..]).1
      {
        ghost var rest := Run(cfg, Value(), xs[i..]).0;
        ghost var before := out;
        var o, _, bad := DoAction(xs[i]);
        assert xs[i..][1..] == xs[i + 1..];
        assert rest == o + Run(cfg, Value(), xs[i + 1..]).0;
        out, panic := out + o, panic || bad;
        assert before + rest == out + Run(cfg, Value(), xs[i + 1..]).0;
        i := i + 1;
      }
      assert xs[i..] == [];
      if isJoining {
        var o, _, bad := DoAction(Timeout);
        out, panic := out + o, panic || bad;
      }
      JoinIsGrouping(cfg, xs);
    }
  }
}
