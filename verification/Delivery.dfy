/** The pipeline with a batcher as its output, from the input's put to the input's
    notification. */
module Delivery {
  import opened Basics
  import S = Streams
  import I = StreamsInv
  import T = StreamsSteps
  import B = Batcher

  /** `pipe.output` is a history variable here: the events given to the batcher and not yet
      notified. The events themselves are in the batcher. */
  datatype System = System(pipe: S.State, out: B.State<S.Event>)

  datatype Settings = Settings(cfg: S.Config, opts: B.Options)

  datatype Step =
    | PipeStep(step: S.Step)                              // a step that gives nothing to the output
    | OutStep(p: S.ProcId, size: nat, late: bool)         // a processor's Out, which is Batcher.Add
    | BatchStep(batch: B.Step<S.Event>)                   // batches move
    | NoteStep(w: nat)                                    // a worker commits one event: the input is notified

  function Start(g: Settings): System {
    System(S.START, B.Init(g.opts))
  }

  predicate Emits(pr: S.Proc) {
    pr.pc.Emitting? || pr.pc.FlushOut?
  }

  /** The event a processor is about to give to the output. */
  function Emission(pr: S.Proc): S.Event
    requires Emits(pr)
  {
    if pr.pc.Emitting? then pr.pc.event else pr.pc.flushed
  }

  /** A worker inside `Controller.Commit` goes on only when that call has returned. */
  predicate Enabled(g: Settings, y: System, step: Step) {
    match step
    case PipeStep(x) =>
      && S.Enabled(g.cfg, y.pipe, x)
      && x != S.Notify
      && (x.Run? ==> !Emits(y.pipe.procs[x.p]))
    case OutStep(p, _, _) =>
      && S.Enabled(g.cfg, y.pipe, S.Run(p, S.DoPass))
      && Emits(y.pipe.procs[p])
      && y.out.current.Some?
    case BatchStep(x) =>
      && !x.Add? && !x.CommitOne?
      && B.Enabled(g.opts, y.out, x)
      && (x.Finish? ==> y.pipe.committing.None?)
    case NoteStep(w) =>
      B.Enabled(g.opts, y.out, B.CommitOne(w)) && y.pipe.committing.None?
  }

  /** `Pipeline.Commit` up to the call that notifies the input, for the event that the
      batcher hands over. */
  function Notified(st: S.State, e: S.Event): S.State {
    st.(output := if st.output == [] then [] else st.output[1..],
        notified := st.notified + [e],
        committing := Some(e))
  }

  function Apply(g: Settings, y: System, step: Step): System
    requires Enabled(g, y, step)
  {
    match step
    case PipeStep(x) => y.(pipe := S.Apply(g.cfg, y.pipe, x))
    case OutStep(p, size, late) =>
      var e := Emission(y.pipe.procs[p]);
      System(S.Apply(g.cfg, y.pipe, S.Run(p, S.DoPass)),
             B.Apply(g.opts, y.out, B.Add(B.Item(e, size), late)))
    case BatchStep(x) => y.(out := B.Apply(g.opts, y.out, x))
    case NoteStep(w) =>
      var x := y.out.workers[w];
      System(Notified(y.pipe, x.batch.events[x.next].event),
             B.Apply(g.opts, y.out, B.CommitOne(w)))
  }

  ghost predicate ValidRun(g: Settings, steps: seq<Step>)
    decreases |steps|, 0
  {
    steps == [] ||
    (ValidRun(g, steps[..|steps| - 1]) &&
     Enabled(g, Exec(g, steps[..|steps| - 1]), steps[|steps| - 1]))
  }

  ghost function Exec(g: Settings, steps: seq<Step>): System
    requires ValidRun(g, steps)
    decreases |steps|, 1
  {
    if steps == [] then Start(g)
    else Apply(g, Exec(g, steps[..|steps| - 1]), steps[|steps| - 1])
  }

  // ---------------------------------------------------------------- invariant

  /** The two halves agree on what is on its way and what was notified. */
  ghost predicate Coupled(y: System) {
    && y.pipe.notified == y.out.committed
    && y.out.added == y.out.committed + y.pipe.output
  }

  ghost predicate Inv(g: Settings, y: System) {
    I.Inv(g.cfg, y.pipe) && B.Inv(g.opts, y.out) && Coupled(y)
  }

  lemma OutputUnchanged(cfg: S.Config, st: S.State, x: S.Step)
    requires S.Enabled(cfg, st, x) && x != S.Notify
    requires x.Run? ==> !Emits(st.procs[x.p])
    ensures var st' := S.Apply(cfg, st, x);
            st'.output == st.output && st'.notified == st.notified
  {
    if x.Run? {
      var pr := st.procs[x.p];
      QuietMove(cfg, pr, st.streams[pr.sid], x.v);
      assert st.output + [] == st.output;
    }
  }

  lemma QuietMove(cfg: S.Config, pr: S.Proc, x: S.Stream, v: S.Verdict)
    requires |pr.busy| == cfg.actions && S.CanMove(pr, x) && !Emits(pr)
    requires pr.pc.Returned? ==> pr.pc.index < cfg.actions
    ensures S.Move(cfg, pr, x, v).emit == []
  {
  }

  lemma AddedBy(o: B.Options, st: B.State<S.Event>, x: B.Step<S.Event>)
    requires B.Enabled(o, st, x)
    ensures var st' := B.Apply(o, st, x);
            && st'.added == st.added + (if x.Add? then [x.item.event] else [])
            && (!x.CommitOne? ==> st'.committed == st.committed)
  {
  }

  lemma OutCoupled(g: Settings, y: System, p: S.ProcId, size: nat, late: bool)
    requires Coupled(y) && Enabled(g, y, OutStep(p, size, late))
    ensures Coupled(Apply(g, y, OutStep(p, size, late)))
  {
    var pr := y.pipe.procs[p];
    var e := Emission(pr);
    AddedBy(g.opts, y.out, B.Add(B.Item(e, size), late));
    assert S.Move(g.cfg, pr, y.pipe.streams[pr.sid], S.DoPass).emit == [e];
  }

  lemma OutKeeps(g: Settings, y: System, p: S.ProcId, size: nat, late: bool)
    requires B.ValidOptions(g.opts) && Inv(g, y) && Enabled(g, y, OutStep(p, size, late))
    ensures Inv(g, Apply(g, y, OutStep(p, size, late)))
  {
    T.RunKeeps(g.cfg, y.pipe, p, S.DoPass);
    B.AddKeeps(g.opts, y.out, B.Item(Emission(y.pipe.procs[p]), size), late);
    OutCoupled(g, y, p, size, late);
  }

  /** The batcher hands over exactly the oldest event that was given to it and not yet
      notified. */
  lemma HandsOverOldest(o: B.Options, out: B.State<S.Event>, w: nat, pending: seq<S.Event>)
    requires B.ValidOptions(o) && B.Inv(o, out) && B.Enabled(o, out, B.CommitOne(w))
    requires out.added == out.committed + pending
    ensures pending != []
    ensures out.workers[w].batch.events[out.workers[w].next].event == pending[0]
  {
    var e := out.workers[w].batch.events[out.workers[w].next].event;
    B.CommitOneKeeps(o, out, w);
    B.InvPrefix(o, B.Apply(o, out, B.CommitOne(w)));
    assert out.committed + [e] <= out.committed + pending;
    var k := |out.committed|;
    assert (out.committed + [e])[k] == e;
    assert (out.committed + pending)[k] == e;
  }

  lemma NoteCoupled(g: Settings, y: System, w: nat)
    requires Coupled(y) && Enabled(g, y, NoteStep(w)) && y.pipe.output != []
    requires y.out.workers[w].batch.events[y.out.workers[w].next].event == y.pipe.output[0]
    ensures Coupled(Apply(g, y, NoteStep(w)))
  {
    var e := y.pipe.output[0];
    assert y.out.committed + y.pipe.output == y.out.committed + [e] + y.pipe.output[1..];
  }

  /** So the batcher's commit of one event is the abstract `Notify`. */
  lemma NoteIsNotify(g: Settings, y: System, w: nat)
    requires B.ValidOptions(g.opts) && Inv(g, y) && Enabled(g, y, NoteStep(w))
    ensures S.Enabled(g.cfg, y.pipe, S.Notify)
    ensures Apply(g, y, NoteStep(w)).pipe == S.Apply(g.cfg, y.pipe, S.Notify)
    ensures Coupled(Apply(g, y, NoteStep(w)))
  {
    HandsOverOldest(g.opts, y.out, w, y.pipe.output);
    NoteCoupled(g, y, w);
  }

  lemma NoteKeeps(g: Settings, y: System, w: nat)
    requires B.ValidOptions(g.opts) && Inv(g, y) && Enabled(g, y, NoteStep(w))
    ensures Inv(g, Apply(g, y, NoteStep(w)))
  {
    NoteIsNotify(g, y, w);
    T.NotifyKeeps(g.cfg, y.pipe);
    B.CommitOneKeeps(g.opts, y.out, w);
  }

  lemma StepKeeps(g: Settings, y: System, step: Step)
    requires B.ValidOptions(g.opts) && Inv(g, y) && Enabled(g, y, step)
    ensures Inv(g, Apply(g, y, step))
  {
    match step
    case PipeStep(x) =>
      T.StepKeeps(g.cfg, y.pipe, x);
      OutputUnchanged(g.cfg, y.pipe, x);
    case OutStep(p, size, late) => OutKeeps(g, y, p, size, late);
    case BatchStep(x) =>
      B.StepKeeps(g.opts, y.out, x);
      AddedBy(g.opts, y.out, x);
    case NoteStep(w) => NoteKeeps(g, y, w);
  }

  lemma StartInv(g: Settings)
    ensures Inv(g, Start(g))
  {
    B.InitInv<S.Event>(g.opts);
  }

  lemma {:induction false} RunInv(g: Settings, steps: seq<Step>)
    requires B.ValidOptions(g.opts) && ValidRun(g, steps)
    ensures Inv(g, Exec(g, steps))
  {
    if steps == [] {
      StartInv(g);
    } else {
      var l := |steps| - 1;
      RunInv(g, steps[..l]);
      StepKeeps(g, Exec(g, steps[..l]), steps[l]);
    }
  }

  // ------------------------------------------------------------- main results

  /** The numbers of the stream's events the input was notified of, in order. */
  ghost function NotifiedNumbers(y: System, s: S.StreamId): seq<nat> {
    I.Numbers(y.pipe.notified, s)
  }

  /** In every run, with any number of processors and batcher workers and any interleaving,
      the input is notified of a stream's events in strictly increasing order (so each at
      most once), and when it is notified of event `n`, every earlier event of the stream
      was notified before or was discarded or collapsed by an action. */
  lemma InOrderNoGaps(g: Settings, steps: seq<Step>, s: S.StreamId)
    requires B.ValidOptions(g.opts) && ValidRun(g, steps)
    requires s in Exec(g, steps).pipe.streams
    ensures var y := Exec(g, steps);
            var done := NotifiedNumbers(y, s);
            && Increasing(done)
            && (forall n, m: nat :: n in done && 1 <= m < n ==> m in done || m in y.pipe.streams[s].dropped)
            && (forall n :: n in done ==> n !in y.pipe.streams[s].dropped && 1 <= n <= y.pipe.streams[s].currentSeq)
  {
    RunInv(g, steps);
    var y := Exec(g, steps);
    assert I.StreamOK(g.cfg, s, I.ViewOf(y.pipe, s));
    NoGaps(I.ViewOf(y.pipe, s));
  }

  lemma NoGaps(v: I.View)
    requires I.FlowOK(v)
    ensures Increasing(v.noted)
    ensures forall n, m: nat :: n in v.noted && 1 <= m < n ==> m in v.noted || m in v.stream.dropped
    ensures forall n: nat :: n in v.noted ==> n !in v.stream.dropped && 1 <= n <= v.stream.awaySeq
  {
    var f := I.Flow(v);
    assert v.noted <= f;
    assert forall n: nat | n in v.noted :: n in f;
    forall n, m: nat | n in v.noted && 1 <= m < n
      ensures m in v.noted || m in v.stream.dropped
    {
      assert n in f && 1 <= n <= v.stream.awaySeq;
      if m !in v.stream.dropped {
        assert m in f;
        var i :| 0 <= i < |v.noted| && v.noted[i] == n;
        var j :| 0 <= j < |f| && f[j] == m;
        assert f[i] == n;
        assert j < i;
        assert v.noted[j] == m;
      }
    }
  }

  /** Nothing is lost on the way: every event a stream numbered is in its queue, in a
      processor's hands, in the batcher, notified, or dropped by an action; exactly one of
      these. */
  lemma NothingLost(g: Settings, steps: seq<Step>, s: S.StreamId, n: nat)
    requires B.ValidOptions(g.opts) && ValidRun(g, steps)
    requires s in Exec(g, steps).pipe.streams
    requires 1 <= n <= Exec(g, steps).pipe.streams[s].currentSeq
    ensures var st := Exec(g, steps).pipe;
            var v := I.ViewOf(st, s);
            var places := (if S.Event(s, n, false) in v.stream.queue then 1 else 0)
                        + (if n in v.noted then 1 else 0) + (if n in v.out then 1 else 0)
                        + (if n in I.Hands(v) then 1 else 0) + (if n in v.stream.dropped then 1 else 0);
            places == 1
  {
    RunInv(g, steps);
    var v := I.ViewOf(Exec(g, steps).pipe, s);
    assert I.StreamOK(g.cfg, s, v);
    InQueue(g.cfg, s, v, n);
    OnePlace(v.noted, v.out, I.Hands(v), n);
  }

  /** An event is in the queue exactly when it has not been given away. */
  lemma InQueue(cfg: S.Config, s: S.StreamId, v: I.View, n: nat)
    requires I.LocalOK(cfg, s, v) && 1 <= n <= v.stream.currentSeq
    ensures S.Event(s, n, false) in v.stream.queue <==> n > v.stream.awaySeq
  {
    var x := v.stream;
    var rest := I.Range(s, x.awaySeq, x.currentSeq);
    if n > x.awaySeq {
      assert rest[n - x.awaySeq - 1] == S.Event(s, n, false);
      assert S.Event(s, n, false) in rest;
    } else {
      assert forall i | 0 <= i < |rest| :: rest[i].seqID > x.awaySeq;
    }
  }

  lemma OnePlace(a: seq<nat>, b: seq<nat>, c: seq<nat>, n: nat)
    requires Increasing(a + b + c)
    ensures n in a + b + c <==> n in a || n in b || n in c
    ensures !(n in a && n in b) && !(n in a && n in c) && !(n in b && n in c)
  {
    var f := a + b + c;
    assert forall i | 0 <= i < |a| :: f[i] == a[i];
    assert forall i | 0 <= i < |b| :: f[|a| + i] == b[i];
    assert forall i | 0 <= i < |c| :: f[|a| + |b| + i] == c[i];
  }

  /** No panic of the stream, the streamer, the processor, join or the batcher is ever
      reached. */
  lemma NeverPanics(g: Settings, steps: seq<Step>)
    requires B.ValidOptions(g.opts) && ValidRun(g, steps)
    ensures !Exec(g, steps).pipe.panicked && !Exec(g, steps).out.panicked
  {
    RunInv(g, steps);
  }

  /** Who has a stream: an unattached one with events is in `charged` exactly once or with
      exactly one joining processor; an attached one is with exactly one processor or is
      detaching, and then its last event is still in the output, whose commit frees it. */
  ghost predicate OwnedOnce(st: S.State, s: S.StreamId)
    requires s in st.streams
  {
    var x := st.streams[s];
    var holders := set p | p in st.procs && st.procs[p].pc != S.Idle && st.procs[p].sid == s;
    && multiset(st.charged)[s] + |holders| <= 1
    && (!x.isAttached && x.queue != [] ==> multiset(st.charged)[s] + |holders| == 1)
    && (x.isAttached ==> |holders| == 1 || x.isDetaching)
    && (x.isDetaching ==>
          && |holders| == 0 && x.commitSeq < x.awaySeq
          && (x.awaySeq in I.Numbers(st.output, s) || st.committing == Some(S.Event(s, x.awaySeq, false))))
    && x.commitSeq <= x.awaySeq <= x.currentSeq
  }

  lemma OneHolder(cfg: S.Config, st: S.State, s: S.StreamId)
    requires I.Paired(cfg, st)
    ensures (set p | p in st.procs && st.procs[p].pc != S.Idle && st.procs[p].sid == s)
         == if s in st.owner then {st.owner[s]} else {}
  {
  }

  lemma InvOwnsOnce(cfg: S.Config, st: S.State, s: S.StreamId)
    requires I.Inv(cfg, st) && s in st.streams
    ensures OwnedOnce(st, s)
  {
    assert I.StreamOK(cfg, s, I.ViewOf(st, s));
    OneHolder(cfg, st, s);
  }

  lemma StreamOwnership(g: Settings, steps: seq<Step>, s: S.StreamId)
    requires B.ValidOptions(g.opts) && ValidRun(g, steps)
    requires s in Exec(g, steps).pipe.streams
    ensures OwnedOnce(Exec(g, steps).pipe, s)
  {
    RunInv(g, steps);
    InvOwnsOnce(g.cfg, Exec(g, steps).pipe, s);
  }

  /** The blocked list holds exactly the streams whose processor sleeps in `blockGet`, once
      each, with matching indexes; for such a stream the check in `tryUnblock` holds. */
  lemma BlockedList(g: Settings, steps: seq<Step>)
    requires B.ValidOptions(g.opts) && ValidRun(g, steps)
    ensures var st := Exec(g, steps).pipe;
            && (forall s :: s in st.blocks.blocked <==>
                  s in st.owner && st.owner[s] in st.procs && st.procs[st.owner[s]].pc.Waiting?)
            && (forall i :: 0 <= i < |st.blocks.blocked| ==>
                  st.blocks.blocked[i] in st.blocks.blockIndex && st.blocks.blockIndex[st.blocks.blocked[i]] == i)
            && (forall s :: s in st.blocks.blocked ==>
                  s in st.streams && st.streams[s].awaySeq == st.streams[s].commitSeq)
  {
    RunInv(g, steps);
    var st := Exec(g, steps).pipe;
    forall s
      ensures s in st.blocks.blocked <==>
                s in st.owner && st.owner[s] in st.procs && st.procs[st.owner[s]].pc.Waiting?
      ensures s in st.blocks.blocked ==> s in st.streams && st.streams[s].awaySeq == st.streams[s].commitSeq
    {
      if s in st.streams {
        assert I.StreamOK(g.cfg, s, I.ViewOf(st, s));
      }
    }
  }

  /** Outside the holding action's own `Do`. */
  predicate BetweenActions(pc: S.Pc) {
    !pc.Returned? && !pc.Flushing? && !pc.FlushOut?
  }

  /** The processor and join agree: the total counts the busy flags; between actions join joins
      exactly when it holds an event and exactly when its flag is up. So a timeout that reaches
      join finds it joining, the flushed event never makes the processor wait for another one, and
      an event that passed all actions leaves nothing busy. */
  ghost predicate Agreed(cfg: S.Config, pr: S.Proc) {
    && |pr.busy| == cfg.actions
    && pr.busyTotal == |set i | 0 <= i < |pr.busy| && pr.busy[i]|
    && (cfg.kind == S.Join && cfg.holder < cfg.actions && BetweenActions(pr.pc) ==>
          pr.joining == pr.held.Some? == pr.busy[cfg.holder])
    && (cfg.kind == S.Join && pr.pc.Acting? && pr.pc.event.timeout && pr.pc.index == cfg.holder ==> pr.joining)
    && (pr.pc.Flushing? || pr.pc.FlushOut? || pr.pc.Emitting? ==> pr.busyTotal == 0)
  }

  lemma FlagsAreCounted(cfg: S.Config, pr: S.Proc)
    requires I.BusyOK(cfg, pr)
    ensures pr.busyTotal == |set i | 0 <= i < |pr.busy| && pr.busy[i]|
  {
    var flags := set i | 0 <= i < |pr.busy| && pr.busy[i];
    if I.BusyHolder(cfg, pr) {
      assert flags == {cfg.holder};
    } else {
      assert flags == {};
    }
  }

  lemma BusyProcAgrees(cfg: S.Config, s: S.StreamId, pr: S.Proc, x: S.Stream)
    requires I.ProcOK(cfg, s, pr, x)
    ensures Agreed(cfg, pr)
  {
    FlagsAreCounted(cfg, pr);
  }

  lemma IdleProcAgrees(cfg: S.Config, pr: S.Proc)
    requires I.IdleOK(cfg, pr)
    ensures Agreed(cfg, pr)
  {
    FlagsAreCounted(cfg, pr);
  }

  lemma InvAgrees(cfg: S.Config, st: S.State, p: S.ProcId)
    requires I.Inv(cfg, st) && p in st.procs
    ensures Agreed(cfg, st.procs[p])
  {
    var pr := st.procs[p];
    if pr.pc == S.Idle {
      IdleProcAgrees(cfg, pr);
    } else {
      var s := pr.sid;
      assert s in st.owner && st.owner[s] == p;
      assert I.StreamOK(cfg, s, I.ViewOf(st, s));
      BusyProcAgrees(cfg, s, pr, st.streams[s]);
    }
  }

  lemma ProcessorAgrees(g: Settings, steps: seq<Step>, p: S.ProcId)
    requires B.ValidOptions(g.opts) && ValidRun(g, steps) && p in Exec(g, steps).pipe.procs
    ensures Agreed(g.cfg, Exec(g, steps).pipe.procs[p])
  {
    RunInv(g, steps);
    InvAgrees(g.cfg, Exec(g, steps).pipe, p);
  }
}
