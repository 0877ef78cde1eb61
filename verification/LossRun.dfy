/** A run in which a line is lost for good: a file with lines of two streams, of which the output
    commits the second before the first is processed. */
module LossRun {
  import opened Basics
  import opened Lines
  import R = Restart
  import S = Streams
  import I = StreamsInv
  import B = Batcher
  import D = Delivery
  import G = Guarantee

  /** No actions, one worker, and batches of one event. */
  const SETUP := D.Settings(S.Config(0, 0, S.Join), B.Options(1, 1, 0))

  const FIRST := S.Event(1, 1, false)
  const SECOND := S.Event(0, 1, false)

  const UNTOUCHED := S.Stream(1, 0, 0, false, false, [FIRST], {})

  /** Stream 1 waits in `charged`, and the processor has stream 0. */
  function Pipe(pc: S.Pc, x: S.Stream, output: seq<S.Event>): S.State {
    S.State(map[1 := UNTOUCHED, 0 := x], map[0 := S.Proc(pc, 0, [], 0, false, None)], map[0 := 0], [1],
            S.BlockList([], map[]), output, None, [], false)
  }

  const EMPTY: B.Batch<S.Event> := B.Batch([], 0, 0, B.NotReady)
  const FULL := B.Batch([B.Item(SECOND, 1)], 1, 0, B.MaxSizeExceeded)

  /** The batcher from the moment when the batch is full. */
  function Out(senders: seq<B.Batch<S.Event>>, full: seq<B.Batch<S.Event>>, w: B.Worker<S.Event>,
               mu: Option<nat>, commitSeq: nat): B.State<S.Event> {
    B.State([], None, senders, full, [w], mu, 1, commitSeq, false, [FULL], [SECOND], [])
  }

  const IDLE_OUT: B.State<S.Event> := B.State([EMPTY], None, [], [], [B.Idle], None, 0, 0, false, [], [], [])

  const FILLING := IDLE_OUT.(free := [], current := Some(EMPTY))

  lemma Go(steps: seq<D.Step>, y: D.System, step: D.Step, y': D.System) returns (steps': seq<D.Step>)
    requires D.ValidRun(SETUP, steps) && D.Exec(SETUP, steps) == y
    requires D.Enabled(SETUP, y, step) && D.Apply(SETUP, y, step) == y'
    ensures D.ValidRun(SETUP, steps') && D.Exec(SETUP, steps') == y'
  {
    steps' := steps + [step];
    assert steps'[..|steps'| - 1] == steps;
  }

  const JOINED := S.Stream(1, 0, 0, false, false, [SECOND], {})
  const TAKEN := S.Stream(1, 0, 1, false, true, [], {})

  const ALONE := S.START.(procs := map[0 := S.Proc(S.Idle, 0, [], 0, false, None)])
  const ONE_PUT := ALONE.(streams := map[1 := UNTOUCHED], charged := [1])
  const TWO_PUT := ALONE.(streams := map[1 := UNTOUCHED, 0 := JOINED], charged := [1, 0])

  lemma PutOne()
    ensures S.Apply(SETUP.cfg, ALONE, S.PutStep(1)) == ONE_PUT
  {
    assert [] + [FIRST] == [FIRST];
  }

  lemma PutTwo()
    ensures S.Apply(SETUP.cfg, ONE_PUT, S.PutStep(0)) == TWO_PUT
  {
    assert [] + [SECOND] == [SECOND];
  }

  lemma TakeTwo()
    ensures S.Enabled(SETUP.cfg, TWO_PUT, S.TakeCharged(0))
    ensures S.Apply(SETUP.cfg, TWO_PUT, S.TakeCharged(0)) == Pipe(S.Joined, JOINED, [])
  {
    assert [1, 0][..1] == [1];
  }

  lemma Prepared() returns (steps: seq<D.Step>)
    ensures D.ValidRun(SETUP, steps) && D.Exec(SETUP, steps) == D.System(ALONE, IDLE_OUT)
  {
    var y := D.Start(SETUP);
    assert y == D.System(S.START, IDLE_OUT);
    assert S.NewProc(SETUP.cfg) == S.Proc(S.Idle, 0, [], 0, false, None);
    steps := Go([], y, D.PipeStep(S.AddProc(0)), D.System(ALONE, IDLE_OUT));
  }

  lemma InputGoes(steps: seq<D.Step>, p: S.State, step: S.Step, p': S.State) returns (steps': seq<D.Step>)
    requires D.ValidRun(SETUP, steps) && D.Exec(SETUP, steps) == D.System(p, IDLE_OUT)
    requires (step.PutStep? || step.TakeCharged?) && S.Enabled(SETUP.cfg, p, step)
    requires S.Apply(SETUP.cfg, p, step) == p'
    ensures D.ValidRun(SETUP, steps') && D.Exec(SETUP, steps') == D.System(p', IDLE_OUT)
  {
    steps' := Go(steps, D.System(p, IDLE_OUT), D.PipeStep(step), D.System(p', IDLE_OUT));
  }

  /** Both lines are put, the first one first; the processor takes the stream charged last. */
  lemma BothPut() returns (steps: seq<D.Step>)
    ensures D.ValidRun(SETUP, steps)
    ensures D.Exec(SETUP, steps) == D.System(Pipe(S.Joined, JOINED, []), IDLE_OUT)
  {
    PutOne();
    PutTwo();
    TakeTwo();
    steps := Prepared();
    steps := InputGoes(steps, ALONE, S.PutStep(1), ONE_PUT);
    steps := InputGoes(steps, ONE_PUT, S.PutStep(0), TWO_PUT);
    steps := InputGoes(steps, TWO_PUT, S.TakeCharged(0), Pipe(S.Joined, JOINED, []));
  }

  lemma PipeGo(steps: seq<D.Step>, out: B.State<S.Event>, pc: S.Pc, x: S.Stream, pc': S.Pc, x': S.Stream)
      returns (steps': seq<D.Step>)
    requires D.ValidRun(SETUP, steps) && D.Exec(SETUP, steps) == D.System(Pipe(pc, x, []), out)
    requires pc.Joined? || pc.Discharging? || pc.Acting?
    requires S.Move(SETUP.cfg, S.Proc(pc, 0, [], 0, false, None), x, S.DoPass)
          == S.Moved(S.Proc(pc', 0, [], 0, false, None), x')
    requires pc'.Discharging? || pc'.Acting? || pc'.Emitting?
    ensures D.ValidRun(SETUP, steps') && D.Exec(SETUP, steps') == D.System(Pipe(pc', x', []), out)
  {
    steps' := Go(steps, D.System(Pipe(pc, x, []), out), D.PipeStep(S.Run(0, S.DoPass)),
                 D.System(Pipe(pc', x', []), out));
  }

  /** The second line passes the actions, of which there are none. */
  lemma SecondPasses() returns (steps: seq<D.Step>)
    ensures D.ValidRun(SETUP, steps)
    ensures D.Exec(SETUP, steps) == D.System(Pipe(S.Emitting(SECOND), TAKEN, []), IDLE_OUT)
  {
    steps := BothPut();
    var attached := JOINED.(isAttached := true);
    steps := PipeGo(steps, IDLE_OUT, S.Joined, JOINED, S.Discharging, attached);
    assert [SECOND][1..] == [];
    steps := PipeGo(steps, IDLE_OUT, S.Discharging, attached, S.Acting(SECOND, 0), TAKEN);
    steps := PipeGo(steps, IDLE_OUT, S.Acting(SECOND, 0), TAKEN, S.Emitting(SECOND), TAKEN);
  }

  const WAITING := Pipe(S.Discharging, TAKEN, [SECOND])

  lemma AddFills()
    ensures B.Apply(SETUP.opts, FILLING, B.Add(B.Item(SECOND, 1), false)) == Out([FULL], [], B.Idle, None, 0)
  {
    assert B.Append(EMPTY, B.Item(SECOND, 1)).events == [B.Item(SECOND, 1)];
  }

  const EMITS := Pipe(S.Emitting(SECOND), TAKEN, [])

  lemma EmitMoves()
    ensures S.Enabled(SETUP.cfg, EMITS, S.Run(0, S.DoPass))
    ensures S.Apply(SETUP.cfg, EMITS, S.Run(0, S.DoPass)) == WAITING
  {
    assert [] + [SECOND] == [SECOND];
  }

  lemma OutApplies()
    ensures var y := D.System(EMITS, FILLING);
            && D.Enabled(SETUP, y, D.OutStep(0, 1, false))
            && D.Apply(SETUP, y, D.OutStep(0, 1, false)) == D.System(WAITING, Out([FULL], [], B.Idle, None, 0))
  {
    EmitMoves();
    AddFills();
  }

  lemma BatchFetched() returns (steps: seq<D.Step>)
    ensures D.ValidRun(SETUP, steps) && D.Exec(SETUP, steps) == D.System(EMITS, FILLING)
  {
    steps := SecondPasses();
    assert [EMPTY][1..] == [];
    steps := Go(steps, D.System(EMITS, IDLE_OUT), D.BatchStep(B.Fetch), D.System(EMITS, FILLING));
  }

  /** It fills a batch. */
  lemma SecondIsOut() returns (steps: seq<D.Step>)
    ensures D.ValidRun(SETUP, steps)
    ensures D.Exec(SETUP, steps) == D.System(WAITING, Out([FULL], [], B.Idle, None, 0))
  {
    steps := BatchFetched();
    OutApplies();
    steps := Go(steps, D.System(EMITS, FILLING), D.OutStep(0, 1, false),
                D.System(WAITING, Out([FULL], [], B.Idle, None, 0)));
  }

  lemma BatchGo(steps: seq<D.Step>, out: B.State<S.Event>, step: B.Step<S.Event>, out': B.State<S.Event>)
      returns (steps': seq<D.Step>)
    requires D.ValidRun(SETUP, steps) && D.Exec(SETUP, steps) == D.System(WAITING, out)
    requires step.Push? || step.Take? || step.OutDone? || step.Begin?
    requires B.Enabled(SETUP.opts, out, step) && B.Apply(SETUP.opts, out, step) == out'
    ensures D.ValidRun(SETUP, steps') && D.Exec(SETUP, steps') == D.System(WAITING, out')
  {
    steps' := Go(steps, D.System(WAITING, out), D.BatchStep(step), D.System(WAITING, out'));
  }

  lemma PushMoves()
    ensures B.Apply(SETUP.opts, Out([FULL], [], B.Idle, None, 0), B.Push(0)) == Out([], [FULL], B.Idle, None, 0)
  {
    assert [FULL][..0] + [FULL][1..] == [] && [] + [FULL] == [FULL];
  }

  lemma TakeMoves()
    ensures B.Apply(SETUP.opts, Out([], [FULL], B.Idle, None, 0), B.Take(0)) == Out([], [], B.InOut(FULL), None, 0)
  {
    assert [FULL][1..] == [];
  }

  /** A worker has the batch. */
  lemma SecondIsTaken() returns (steps: seq<D.Step>)
    ensures D.ValidRun(SETUP, steps)
    ensures D.Exec(SETUP, steps) == D.System(WAITING, Out([], [], B.InOut(FULL), None, 0))
  {
    PushMoves();
    TakeMoves();
    steps := SecondIsOut();
    steps := BatchGo(steps, Out([FULL], [], B.Idle, None, 0), B.Push(0), Out([], [FULL], B.Idle, None, 0));
    steps := BatchGo(steps, Out([], [FULL], B.Idle, None, 0), B.Take(0), Out([], [], B.InOut(FULL), None, 0));
  }

  /** The batch is sent, and the worker is about to commit it. */
  lemma SecondIsSent() returns (steps: seq<D.Step>)
    ensures D.ValidRun(SETUP, steps)
    ensures D.Exec(SETUP, steps) == D.System(WAITING, Out([], [], B.Committing(FULL, 0), Some(0), 1))
  {
    steps := SecondIsTaken();
    steps := BatchGo(steps, Out([], [], B.InOut(FULL), None, 0), B.OutDone(0), Out([], [], B.AtGate(FULL), None, 0));
    steps := BatchGo(steps, Out([], [], B.AtGate(FULL), None, 0), B.Begin(0),
                     Out([], [], B.Committing(FULL, 0), Some(0), 1));
  }

  /** The input is notified of the second line, while the first is in its queue. */
  lemma SecondIsNotified() returns (steps: seq<D.Step>)
    ensures D.ValidRun(SETUP, steps)
    ensures D.Exec(SETUP, steps).pipe.notified == [SECOND]
    ensures D.Exec(SETUP, steps).pipe.streams == map[1 := UNTOUCHED, 0 := TAKEN]
  {
    steps := SecondIsSent();
    var y := D.System(WAITING, Out([], [], B.Committing(FULL, 0), Some(0), 1));
    assert [] + [SECOND] == [SECOND];
    steps := Go(steps, y, D.NoteStep(0), D.Apply(SETUP, y, D.NoteStep(0)));
  }

  // ------------------------------------------------------------------- the file

  const ONE: Bytes := [97, NL]
  const TWO: Bytes := [98, NL]

  function StreamOf(d: Bytes): StreamName {
    if d == ONE then "a" else "b"
  }

  function Nothing(x: Line): bool {
    false
  }

  const START := G.Life(StreamOf, 0, map[1 := "a", 0 := "b"], map[], 0, ONE + TWO, Nothing)

  lemma ShortLine(base: int, b: byte)
    requires b != NL
    ensures Lines.Lines(base, [b, NL]) == [Line(base + 2, [b, NL])]
  {
    var c: Bytes := [b, NL];
    var d: Bytes := [b];
    assert c[..1] == d && d[..0] == [] && d + [NL] == c;
    Snoc(base, [], b);
    assert [] + [b] == d;
  }

  lemma FileIs()
    ensures R.FileLines(0, ONE + TWO) == [Line(2, ONE), Line(4, TWO)]
  {
    ShortLine(0, 97);
    ShortLine(2, 98);
    R.LinesSplit(0, ONE, TWO);
    R.FilterConstant([Line(2, ONE), Line(4, TWO)], FitsIn(0), true);
  }

  lemma {:induction false} OneOfTwo(x: Line, y: Line, p: Line -> bool)
    ensures Filter([x, y], p) == (if p(x) then [x] else []) + (if p(y) then [y] else [])
  {
    assert [x, y][..1] == [x] && [x][..0] == [];
    assert Filter([x], p) == if p(x) then [x] else [];
  }

  lemma AllPass()
    ensures R.Resumed(START.streamOf, START.cap, START.saved, START.lo, START.file) == [Line(2, ONE), Line(4, TWO)]
  {
    FileIs();
    assert START.file[START.lo..] == START.file;
    R.FilterConstant([Line(2, ONE), Line(4, TWO)], R.Passes(START.streamOf, START.saved), true);
  }

  lemma StreamsDiffer()
    ensures StreamOf(ONE) == "a" && StreamOf(TWO) == "b" && "a" != "b"
  {
    assert ONE[0] != TWO[0] && "a"[0] != "b"[0];
  }

  lemma HandsOne(t: StreamName, x: Line)
    requires (t == "a" && x == Line(2, ONE)) || (t == "b" && x == Line(4, TWO))
    ensures G.Handed(START, t) == [x]
  {
    AllPass();
    StreamsDiffer();
    OneOfTwo(Line(2, ONE), Line(4, TWO), R.IsOf(START.streamOf, t));
  }

  lemma EntersOne(t: StreamName, x: Line)
    requires (t == "a" && x == Line(2, ONE)) || (t == "b" && x == Line(4, TWO))
    ensures G.Entered(START, t) == [x]
  {
    HandsOne(t, x);
    R.FilterConstant([x], G.LetIn(START), true);
  }

  lemma SavedIsFour(y: D.System)
    requires y.pipe.notified == [SECOND]
    ensures G.SavedAfter(START, y.pipe.notified, 1) == map["b" := 4]
  {
    EntersOne("b", Line(4, TWO));
    assert [SECOND][..1] == [SECOND];
    var cs := G.Commits(START, [SECOND]);
    assert cs == [R.Commit("b", 4, 1, true)];
    assert cs[..0] == [];
    assert R.CommitAll(START.saved, 0, cs[..0]) == (START.saved, false);
  }

  lemma NotThrough(y: D.System)
    requires y.pipe.notified == [SECOND] && y.pipe.streams == map[1 := UNTOUCHED, 0 := TAKEN]
    ensures !G.Through(START, y, "a", Line(2, ONE))
  {
    assert [SECOND][..0] == [];
    assert I.Numbers([SECOND], 1) == [];
  }

  lemma FileIsFed(y: D.System)
    requires y.pipe.streams == map[1 := UNTOUCHED, 0 := TAKEN]
    ensures G.Fed(START, y)
  {
    EntersOne("a", Line(2, ONE));
    EntersOne("b", Line(4, TWO));
  }

  lemma FourIsLeast()
    ensures G.StartsAt(map["b" := 4], 4) && G.LifeOK(START)
  {
    var m: R.Offsets := map["b" := 4];
    assert "b" in m && m["b"] == 4;
    assert "a"[0] != "b"[0];
  }

  lemma SecondLife(e: G.Episode, y: D.System)
    requires D.ValidRun(SETUP, e.steps) && y == D.Exec(SETUP, e.steps) && y.pipe.notified == [SECOND]
    requires y.pipe.streams == map[1 := UNTOUCHED, 0 := TAKEN]
    requires e == G.Episode(e.steps, 1, [], 4, map[], Nothing)
    ensures G.Happened(SETUP, START, e)
    ensures var l := G.Reborn(SETUP, START, e);
            "a" !in l.saved && l.lo == 4 && l.file == START.file
  {
    FileIsFed(y);
    SavedIsFour(y);
    FourIsLeast();
    assert "a"[0] != "b"[0];
    assert START.file + [] == START.file;
  }

  lemma IsSkipped(e: G.Episode, x: Line)
    requires G.Happened(SETUP, START, e) && !G.DoneIn(SETUP, START, e, "a", x)
    requires "a" !in G.Reborn(SETUP, START, e).saved && x.offset <= G.Reborn(SETUP, START, e).lo
    ensures G.Lived(SETUP, START, [e]) && G.Latest(SETUP, START, [e]) == G.Reborn(SETUP, START, e)
    ensures G.Skipped(SETUP, START, [e], "a", x)
  {
    var l := G.Reborn(SETUP, START, e);
    assert [e][1..] == [];
    assert G.Lived(SETUP, l, []) && G.Latest(SETUP, l, []) == l && G.Skipped(SETUP, l, [], "a", x);
  }

  /** The life that ends after that notification, and one that begins behind the first line: the
      first line is lost. */
  lemma LineIsLost() returns (e: G.Episode)
    ensures G.LifeOK(START) && G.Lived(SETUP, START, [e])
    ensures Line(2, ONE) in R.FileLines(0, G.Latest(SETUP, START, [e]).file)
    ensures !G.Safe(SETUP, START, [e], "a", Line(2, ONE))
  {
    var steps := SecondIsNotified();
    e := G.Episode(steps, 1, [], 4, map[], Nothing);
    SecondLife(e, D.Exec(SETUP, steps));
    NotThrough(D.Exec(SETUP, steps));
    FourIsLeast();
    IsSkipped(e, Line(2, ONE));
    FileIs();
    G.LineIsLostIff(SETUP, START, [e], "a", Line(2, ONE));
  }
}
