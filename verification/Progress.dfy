/** The pipeline finishes what it has: every run of its own steps ends, and where it can go no
    further everything was delivered or dropped. */
module Progress {
  import opened Basics
  import S = Streams
  import I = StreamsInv
  import W = StreamsWork
  import B = Batcher
  import opened Delivery

  // ------------------------------------------------------------------- own steps

  /** A processor is about to give an event to the output. */
  ghost predicate SomeEmits(st: S.State) {
    exists p :: p in st.procs && Emits(st.procs[p])
  }

  /** The steps that the pipeline takes by itself and that do something: no new input and no new
      processor; a timeout only for a stream with an empty queue; the heartbeat's turn only when it
      sends a batch; a free batch only when an event is there for it. The actions may answer what
      they like, except that none throws a timeout away which is meant for the holding one. */
  ghost predicate Own(g: Settings, y: System, step: Step) {
    match step
    case PipeStep(x) =>
      (match x
       case Run(p, v) => p in y.pipe.procs && !W.Swallows(g.cfg, y.pipe.procs[p], v)
       case TimeoutStep(s) => s in y.pipe.streams && y.pipe.streams[s].queue == []
       case TakeCharged(_) => true
       case CommitStep => true
       case _ => false)
    case BatchStep(x) =>
      || B.Internal(x)
      || (x == B.Tick(true) && y.out.current.Some? && y.out.current.value.events != [])
      || (x == B.Fetch && SomeEmits(y.pipe))
    case _ => true
  }

  /** The steps with which it goes on below: every action that is asked passes its event on. */
  predicate Passing(step: Step) {
    step.PipeStep? && step.step.Run? ==> step.step.v == S.DoPass
  }

  /** Something put into the pipeline is not finished. */
  ghost predicate Unfinished(y: System) {
    || y.pipe.committing.Some?
    || y.pipe.output != []
    || (exists s :: s in y.pipe.streams && y.pipe.streams[s].queue != [])
    || (exists p :: p in y.pipe.procs && y.pipe.procs[p].pc != S.Idle)
  }

  // ------------------------------------------------------------------ the measure

  /** What is left to do for the batch that is being filled. */
  function CurrentWork(current: Option<B.Batch<S.Event>>): nat {
    if current.None? then 1
    else if current.value.events == [] then 0
    else |current.value.events| + 7
  }

  ghost function BatchWork(out: B.State<S.Event>): nat {
    B.Work(out) + CurrentWork(out.current)
  }

  ghost function Work(g: Settings, y: System, ids: seq<S.StreamId>): nat {
    W.StreamWork(g.cfg, y.pipe, ids) + 2 * BatchWork(y.out) + if y.pipe.committing.Some? then 1 else 0
  }

  /** One more event makes at most eight more moves in the batcher. */
  lemma AddWork(o: B.Options, out: B.State<S.Event>, x: B.Item<S.Event>, late: bool)
    requires B.Enabled(o, out, B.Add(x, late))
    ensures BatchWork(B.Apply(o, out, B.Add(x, late))) <= BatchWork(out) + 8
  {
    var out' := B.Apply(o, out, B.Add(x, late));
    if out'.current.None? {
      SumSnoc(out.senders, out'.senders[|out.senders|], B.BatchWork(5));
    }
  }

  /** The heartbeat sends a batch that has events. */
  lemma TickWork(o: B.Options, out: B.State<S.Event>)
    requires out.current.Some? && out.current.value.events != []
    ensures BatchWork(B.Apply(o, out, B.Tick(true))) < BatchWork(out)
  {
    var out' := B.Apply(o, out, B.Tick(true));
    SumSnoc(out.senders, out'.senders[|out.senders|], B.BatchWork(5));
  }

  lemma FetchWork(o: B.Options, out: B.State<S.Event>)
    requires B.Enabled(o, out, B.Fetch)
    ensures BatchWork(B.Apply(o, out, B.Fetch)) < BatchWork(out)
  {
  }

  lemma InternalWork(o: B.Options, out: B.State<S.Event>, x: B.Step<S.Event>)
    requires B.Enabled(o, out, x) && B.Internal(x)
    ensures BatchWork(B.Apply(o, out, x)) < BatchWork(out)
  {
    B.InternalDecreases(o, out, x);
    B.InternalFrame(o, out, x);
  }

  lemma PipeLowers(g: Settings, y: System, x: S.Step, ids: seq<S.StreamId>)
    requires Inv(g, y) && Enabled(g, y, PipeStep(x)) && Own(g, y, PipeStep(x)) && W.Lists(ids, y.pipe)
    ensures var y' := Apply(g, y, PipeStep(x));
            W.Lists(ids, y'.pipe) && Work(g, y', ids) < Work(g, y, ids)
  {
    match x
    case Run(p, v) =>
      QuietMove(g.cfg, y.pipe.procs[p], y.pipe.streams[y.pipe.procs[p].sid], v);
      W.RunLowers(g.cfg, y.pipe, p, v, ids);
    case TimeoutStep(s) => W.TimeoutLowers(g.cfg, y.pipe, s, ids);
    case TakeCharged(p) => W.TakeChargedLowers(g.cfg, y.pipe, p, ids);
    case CommitStep => W.CommitKeepsWork(g.cfg, y.pipe, ids);
  }

  lemma OutLowers(g: Settings, y: System, p: S.ProcId, size: nat, late: bool, ids: seq<S.StreamId>)
    requires Inv(g, y) && Enabled(g, y, OutStep(p, size, late)) && W.Lists(ids, y.pipe)
    ensures var y' := Apply(g, y, OutStep(p, size, late));
            W.Lists(ids, y'.pipe) && Work(g, y', ids) < Work(g, y, ids)
  {
    W.RunLowers(g.cfg, y.pipe, p, S.DoPass, ids);
    AddWork(g.opts, y.out, B.Item(Emission(y.pipe.procs[p]), size), late);
  }

  lemma NoteLowers(g: Settings, y: System, w: nat, ids: seq<S.StreamId>)
    requires B.ValidOptions(g.opts) && Inv(g, y) && Enabled(g, y, NoteStep(w)) && W.Lists(ids, y.pipe)
    ensures var y' := Apply(g, y, NoteStep(w));
            W.Lists(ids, y'.pipe) && Work(g, y', ids) < Work(g, y, ids)
  {
    NoteIsNotify(g, y, w);
    W.NotifyKeepsWork(g.cfg, y.pipe, ids);
    InternalWork(g.opts, y.out, B.CommitOne(w));
  }

  /** Every own step leaves less to do. */
  lemma OwnLowers(g: Settings, y: System, step: Step, ids: seq<S.StreamId>)
    requires B.ValidOptions(g.opts) && Inv(g, y) && W.Lists(ids, y.pipe)
    requires Enabled(g, y, step) && Own(g, y, step)
    ensures var y' := Apply(g, y, step);
            W.Lists(ids, y'.pipe) && Work(g, y', ids) < Work(g, y, ids)
  {
    match step
    case PipeStep(x) => PipeLowers(g, y, x, ids);
    case OutStep(p, size, late) => OutLowers(g, y, p, size, late, ids);
    case NoteStep(w) => NoteLowers(g, y, w, ids);
    case BatchStep(x) =>
      if B.Internal(x) {
        InternalWork(g.opts, y.out, x);
      } else if x.Tick? {
        TickWork(g.opts, y.out);
      } else {
        FetchWork(g.opts, y.out);
      }
  }

  // -------------------------------------------------------------- some step is enabled

  lemma BatcherStep(g: Settings, y: System) returns (step: Step)
    requires Inv(g, y) && y.pipe.committing.None? && B.Done(y.out) < y.out.outSeq
    ensures Own(g, y, step) && Enabled(g, y, step) && Passing(step)
  {
    var x := B.NotStuck(g.opts, y.out);
    step := if x.CommitOne? then NoteStep(x.w) else BatchStep(x);
  }

  /** The batcher can move whenever it holds an event that is not committed. */
  lemma BatcherMoves(g: Settings, y: System) returns (step: Step)
    requires Inv(g, y) && y.pipe.committing.None? && y.pipe.output != []
    ensures Own(g, y, step) && Enabled(g, y, step) && Passing(step)
  {
    if B.Done(y.out) < y.out.outSeq {
      step := BatcherStep(g, y);
    } else {
      assert y.out.sent[..B.Done(y.out)] == y.out.sent;
      assert y.out.current.Some? && y.out.current.value.events != [];
      step := BatchStep(B.Tick(true));
    }
  }

  /** A processor that wants to give an event to the output waits at most for the batcher. */
  lemma OutMoves(g: Settings, y: System, p: S.ProcId) returns (step: Step)
    requires Inv(g, y) && y.pipe.committing.None? && g.opts.workers > 0
    requires p in y.pipe.procs && Emits(y.pipe.procs[p])
    ensures Own(g, y, step) && Enabled(g, y, step) && Passing(step)
  {
    if y.out.current.Some? {
      OwnedCanRun(g, y, p);
      step := OutStep(p, 0, false);
    } else if y.out.free != [] {
      step := BatchStep(B.Fetch);
    } else {
      FlightPending(g.opts, y.out);
      step := BatcherStep(g, y);
    }
  }

  /** With no batch free and none being filled, some batch is in flight. */
  lemma FlightPending(o: B.Options, st: B.State<S.Event>)
    requires B.Inv(o, st) && st.current.None? && st.free == [] && o.workers > 0
    ensures B.Done(st) < st.outSeq
  {
    if st.seqMu.None? {
      if st.senders != [] {
        assert B.Genuine(st.sent, st.senders[0]);
        SumAtLeast(st.senders, 0, B.Carries(st.senders[0].num));
        assert B.Carriers(st, st.senders[0].num) == 1;
      } else if st.full != [] {
        assert B.Genuine(st.sent, st.full[0]);
        SumAtLeast(st.full, 0, B.Carries(st.full[0].num));
        assert B.Carriers(st, st.full[0].num) == 1;
      } else {
        var w := SumWitness(st.workers, B.IsBusy());
        assert B.Genuine(st.sent, st.workers[w].batch);
        SumAtLeast(st.workers, w, B.WorkerCarries(st.workers[w].batch.num));
        assert B.Carriers(st, st.workers[w].batch.num) == 1;
      }
    }
  }

  lemma PassAllowed(cfg: S.Config, s: S.StreamId, pr: S.Proc, x: S.Stream)
    requires I.ProcOK(cfg, s, pr, x)
    ensures S.Allowed(cfg, pr, S.DoPass)
    ensures |pr.busy| == cfg.actions && (pr.pc.Returned? ==> pr.pc.index < cfg.actions)
  {
  }

  ghost predicate Runnable(cfg: S.Config, st: S.State, p: S.ProcId) {
    && p in st.procs && st.procs[p].sid in st.streams
    && (!(st.procs[p].pc.Waiting? && st.streams[st.procs[p].sid].queue == []) ==>
          S.Enabled(cfg, st, S.Run(p, S.DoPass)))
    && (st.procs[p].pc.Waiting? ==> S.Enabled(cfg, st, S.TimeoutStep(st.procs[p].sid)))
  }

  lemma ProcRuns(cfg: S.Config, st: S.State, p: S.ProcId)
    requires p in st.procs && st.procs[p].pc != S.Idle && st.procs[p].sid in st.streams
    requires I.ProcOK(cfg, st.procs[p].sid, st.procs[p], st.streams[st.procs[p].sid])
    requires st.procs[p].pc.Waiting? ==> st.procs[p].sid in st.blocks.blocked
    ensures Runnable(cfg, st, p)
  {
    PassAllowed(cfg, st.procs[p].sid, st.procs[p], st.streams[st.procs[p].sid]);
  }

  /** A processor with a stream can take its next step, unless it sleeps on an empty queue. */
  lemma OwnedCanRun(g: Settings, y: System, p: S.ProcId)
    requires Inv(g, y) && p in y.pipe.procs && y.pipe.procs[p].pc != S.Idle
    ensures Runnable(g.cfg, y.pipe, p)
  {
    OwnedView(g.cfg, y.pipe, p);
    ProcRuns(g.cfg, y.pipe, p);
  }

  lemma OwnedView(cfg: S.Config, st: S.State, p: S.ProcId)
    requires I.Inv(cfg, st) && p in st.procs && st.procs[p].pc != S.Idle
    ensures var s := st.procs[p].sid;
            && s in st.streams
            && I.ProcOK(cfg, s, st.procs[p], st.streams[s])
            && (st.procs[p].pc.Waiting? ==> s in st.blocks.blocked)
  {
    var s := st.procs[p].sid;
    assert s in st.owner && st.owner[s] == p;
    assert I.StreamOK(cfg, s, I.ViewOf(st, s));
  }

  /** A processor with a stream goes on: to the output, with a timeout, or with its next move. */
  lemma ProcMoves(g: Settings, y: System, p: S.ProcId) returns (step: Step)
    requires Inv(g, y) && y.pipe.committing.None? && g.opts.workers > 0
    requires p in y.pipe.procs && y.pipe.procs[p].pc != S.Idle
    ensures Own(g, y, step) && Enabled(g, y, step) && Passing(step)
  {
    OwnedCanRun(g, y, p);
    var s := y.pipe.procs[p].sid;
    if Emits(y.pipe.procs[p]) {
      step := OutMoves(g, y, p);
    } else if y.pipe.procs[p].pc.Waiting? && y.pipe.streams[s].queue == [] {
      step := PipeStep(S.TimeoutStep(s));
    } else {
      step := PipeStep(S.Run(p, S.DoPass));
    }
  }

  /** With an empty output and every processor idle, a stream with events is charged. */
  lemma ChargedMoves(g: Settings, y: System, s: S.StreamId) returns (step: Step)
    requires Inv(g, y) && y.pipe.output == [] && y.pipe.committing.None? && |y.pipe.procs| > 0
    requires forall p :: p in y.pipe.procs ==> y.pipe.procs[p].pc == S.Idle
    requires s in y.pipe.streams && y.pipe.streams[s].queue != []
    ensures Own(g, y, step) && Enabled(g, y, step) && Passing(step)
  {
    var v := I.ViewOf(y.pipe, s);
    assert I.StreamOK(g.cfg, s, v);
    assert v.proc.None?;
    assert v.out == [];
    assert !v.stream.isAttached;
    assert multiset(y.pipe.charged)[s] == 1;
    assert s in y.pipe.charged;
    assert y.pipe.procs.Keys != {};
    var p :| p in y.pipe.procs;
    step := PipeStep(S.TakeCharged(p));
  }

  /** While anything is not finished and there is a processor and a worker, an own step is
      enabled. */
  lemma NotStuck(g: Settings, y: System) returns (step: Step)
    requires Inv(g, y) && g.opts.workers > 0 && |y.pipe.procs| > 0 && Unfinished(y)
    ensures Own(g, y, step) && Enabled(g, y, step) && Passing(step)
  {
    if y.pipe.committing.Some? {
      step := PipeStep(S.CommitStep);
    } else if y.pipe.output != [] {
      step := BatcherMoves(g, y);
    } else if p :| p in y.pipe.procs && y.pipe.procs[p].pc != S.Idle {
      step := ProcMoves(g, y, p);
    } else {
      var s :| s in y.pipe.streams && y.pipe.streams[s].queue != [];
      step := ChargedMoves(g, y, s);
    }
  }

  // ------------------------------------------------------------------- own runs

  /** A run of own steps from `y`. */
  ghost predicate OwnRun(g: Settings, y: System, steps: seq<Step>)
    decreases |steps|
  {
    steps == [] ||
    (Enabled(g, y, steps[0]) && Own(g, y, steps[0]) && OwnRun(g, Apply(g, y, steps[0]), steps[1..]))
  }

  ghost function After(g: Settings, y: System, steps: seq<Step>): System
    requires OwnRun(g, y, steps)
    decreases |steps|
  {
    if steps == [] then y else After(g, Apply(g, y, steps[0]), steps[1..])
  }

  lemma OwnKeepsProcs(g: Settings, y: System, step: Step)
    requires Enabled(g, y, step) && Own(g, y, step)
    ensures Apply(g, y, step).pipe.procs.Keys == y.pipe.procs.Keys
  {
  }

  /** No run of own steps goes on for ever: it has at most `Work` steps. */
  lemma {:induction false} OwnRunsEnd(g: Settings, y: System, steps: seq<Step>, ids: seq<S.StreamId>)
    requires B.ValidOptions(g.opts) && Inv(g, y) && W.Lists(ids, y.pipe) && OwnRun(g, y, steps)
    ensures Inv(g, After(g, y, steps)) && W.Lists(ids, After(g, y, steps).pipe)
    ensures |steps| + Work(g, After(g, y, steps), ids) <= Work(g, y, ids)
    decreases |steps|
  {
    if steps != [] {
      StepKeeps(g, y, steps[0]);
      OwnLowers(g, y, steps[0], ids);
      OwnRunsEnd(g, Apply(g, y, steps[0]), steps[1..], ids);
    }
  }

  /** One more step towards the end. */
  lemma StepOn(g: Settings, y: System, ids: seq<S.StreamId>) returns (step: Step)
    requires B.ValidOptions(g.opts) && Inv(g, y) && W.Lists(ids, y.pipe)
    requires g.opts.workers > 0 && |y.pipe.procs| > 0 && Unfinished(y)
    ensures Enabled(g, y, step) && Own(g, y, step) && Passing(step)
    ensures var y' := Apply(g, y, step);
            && Inv(g, y') && W.Lists(ids, y'.pipe) && |y'.pipe.procs| > 0
            && Work(g, y', ids) < Work(g, y, ids)
  {
    step := NotStuck(g, y);
    StepKeeps(g, y, step);
    OwnLowers(g, y, step, ids);
    OwnKeepsProcs(g, y, step);
    var y' := Apply(g, y, step);
    assert |y'.pipe.procs| == |y'.pipe.procs.Keys| && |y.pipe.procs| == |y.pipe.procs.Keys|;
  }

  lemma OwnRunCons(g: Settings, y: System, step: Step, rest: seq<Step>)
    requires Enabled(g, y, step) && Own(g, y, step) && OwnRun(g, Apply(g, y, step), rest)
    ensures OwnRun(g, y, [step] + rest) && After(g, y, [step] + rest) == After(g, Apply(g, y, step), rest)
  {
    assert ([step] + rest)[1..] == rest;
  }

  lemma {:induction false} Finish(g: Settings, y: System, ids: seq<S.StreamId>) returns (steps: seq<Step>)
    requires B.ValidOptions(g.opts) && Inv(g, y) && W.Lists(ids, y.pipe)
    requires g.opts.workers > 0 && |y.pipe.procs| > 0
    ensures OwnRun(g, y, steps) && !Unfinished(After(g, y, steps)) && forall x :: x in steps ==> Passing(x)
    decreases Work(g, y, ids)
  {
    if !Unfinished(y) {
      steps := [];
    } else {
      var step := StepOn(g, y, ids);
      var rest := Finish(g, Apply(g, y, step), ids);
      OwnRunCons(g, y, step, rest);
      steps := [step] + rest;
    }
  }

  // ------------------------------------------------------------------ main results

  /** Every event that stream `s` numbered was notified or dropped by an action. */
  ghost predicate Delivered(y: System, s: S.StreamId)
    requires s in y.pipe.streams
  {
    forall n :: 1 <= n <= y.pipe.streams[s].currentSeq ==>
      n in NotifiedNumbers(y, s) || n in y.pipe.streams[s].dropped
  }

  /** A stream that nobody has, with an empty queue and nothing in the output. */
  lemma NothingLeft(cfg: S.Config, s: S.StreamId, v: I.View, n: nat)
    requires I.StreamOK(cfg, s, v) && v.proc.None? && v.stream.queue == [] && v.out == []
    requires 1 <= n <= v.stream.currentSeq
    ensures n in v.noted || n in v.stream.dropped
  {
    assert I.Flow(v) == v.noted;
    InQueue(cfg, s, v, n);
  }

  lemma NobodyHasIt(cfg: S.Config, st: S.State, s: S.StreamId)
    requires I.Paired(cfg, st) && s in st.streams
    requires forall p :: p in st.procs ==> st.procs[p].pc == S.Idle
    ensures I.ViewOf(st, s).proc.None?
  {
  }

  lemma FinishedIsDelivered(g: Settings, y: System, s: S.StreamId)
    requires I.Inv(g.cfg, y.pipe) && !Unfinished(y) && s in y.pipe.streams
    ensures Delivered(y, s)
  {
    var v := I.ViewOf(y.pipe, s);
    NobodyHasIt(g.cfg, y.pipe, s);
    assert I.StreamOK(g.cfg, s, v);
    assert v.stream.queue == [] && v.out == [];
    forall n | 1 <= n <= v.stream.currentSeq
      ensures n in v.noted || n in v.stream.dropped
    {
      NothingLeft(g.cfg, s, v, n);
    }
  }

  lemma MoveKeepsNumbers(cfg: S.Config, pr: S.Proc, x: S.Stream, v: S.Verdict)
    requires |pr.busy| == cfg.actions && S.CanMove(pr, x) && (pr.pc.Returned? ==> pr.pc.index < cfg.actions)
    ensures S.Move(cfg, pr, x, v).stream.currentSeq == x.currentSeq
  {
  }

  lemma PipeKeepsNumbers(cfg: S.Config, st: S.State, x: S.Step, s: S.StreamId)
    requires S.Enabled(cfg, st, x) && !x.PutStep? && s in st.streams
    ensures var st' := S.Apply(cfg, st, x);
            s in st'.streams && st'.streams[s].currentSeq == st.streams[s].currentSeq
  {
    if x.Run? {
      var pr := st.procs[x.p];
      MoveKeepsNumbers(cfg, pr, st.streams[pr.sid], x.v);
    }
  }

  lemma OwnKeepsNumbers(g: Settings, y: System, step: Step, s: S.StreamId)
    requires Enabled(g, y, step) && Own(g, y, step) && s in y.pipe.streams
    ensures var y' := Apply(g, y, step);
            s in y'.pipe.streams && y'.pipe.streams[s].currentSeq == y.pipe.streams[s].currentSeq
  {
    match step
    case PipeStep(x) => PipeKeepsNumbers(g.cfg, y.pipe, x, s);
    case OutStep(p, _, _) => PipeKeepsNumbers(g.cfg, y.pipe, S.Run(p, S.DoPass), s);
    case _ =>
  }

  lemma {:induction false} OwnRunKeepsNumbers(g: Settings, y: System, steps: seq<Step>, s: S.StreamId)
    requires OwnRun(g, y, steps) && s in y.pipe.streams
    ensures var z := After(g, y, steps);
            s in z.pipe.streams && z.pipe.streams[s].currentSeq == y.pipe.streams[s].currentSeq
    decreases |steps|
  {
    if steps != [] {
      OwnKeepsNumbers(g, y, steps[0], s);
      OwnRunKeepsNumbers(g, Apply(g, y, steps[0]), steps[1..], s);
    }
  }

  /** After every run, the runs of own steps that can follow it are bounded. */
  lemma OwnStepsEnd(g: Settings, steps: seq<Step>) returns (bound: nat)
    requires B.ValidOptions(g.opts) && ValidRun(g, steps)
    ensures forall more :: OwnRun(g, Exec(g, steps), more) ==> |more| <= bound
  {
    var y := Exec(g, steps);
    RunInv(g, steps);
    var ids := Enumerate(y.pipe.streams.Keys);
    bound := Work(g, y, ids);
    forall more | OwnRun(g, y, more)
      ensures |more| <= bound
    {
      OwnRunsEnd(g, y, more, ids);
    }
  }

  /** The pipeline stops only when it is done: whatever own steps it took, if it can take no further
      one, every event that any stream numbered was notified or dropped. */
  lemma StopsOnlyWhenDone(g: Settings, steps: seq<Step>, more: seq<Step>, s: S.StreamId)
    requires B.ValidOptions(g.opts) && ValidRun(g, steps) && OwnRun(g, Exec(g, steps), more)
    requires var z := After(g, Exec(g, steps), more);
             && g.opts.workers > 0 && |z.pipe.procs| > 0 && s in z.pipe.streams
             && forall step :: Enabled(g, z, step) ==> !Own(g, z, step)
    ensures var z := After(g, Exec(g, steps), more);
            !Unfinished(z) && Delivered(z, s)
  {
    var y := Exec(g, steps);
    RunInv(g, steps);
    var ids := Enumerate(y.pipe.streams.Keys);
    OwnRunsEnd(g, y, more, ids);
    var z := After(g, y, more);
    if Unfinished(z) {
      var step := NotStuck(g, z);
      assert false;
    }
    FinishedIsDelivered(g, z, s);
  }

  /** So from every reachable state the pipeline's own steps lead to one in which every event put
      so far was delivered. */
  lemma EverythingIsDelivered(g: Settings, steps: seq<Step>) returns (more: seq<Step>)
    requires B.ValidOptions(g.opts) && ValidRun(g, steps)
    requires g.opts.workers > 0 && |Exec(g, steps).pipe.procs| > 0
    ensures var y := Exec(g, steps);
            && OwnRun(g, y, more) && (forall x :: x in more ==> Passing(x))
            && var z := After(g, y, more);
            && !Unfinished(z)
            && forall s :: s in y.pipe.streams ==>
                 s in z.pipe.streams && z.pipe.streams[s].currentSeq == y.pipe.streams[s].currentSeq && Delivered(z, s)
  {
    var y := Exec(g, steps);
    RunInv(g, steps);
    var ids := Enumerate(y.pipe.streams.Keys);
    more := Finish(g, y, ids);
    OwnRunsEnd(g, y, more, ids);
    var z := After(g, y, more);
    forall s | s in y.pipe.streams
      ensures s in z.pipe.streams && z.pipe.streams[s].currentSeq == y.pipe.streams[s].currentSeq && Delivered(z, s)
    {
      OwnRunKeepsNumbers(g, y, more, s);
      FinishedIsDelivered(g, z, s);
    }
  }
}
