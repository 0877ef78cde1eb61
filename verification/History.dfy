/** What happened to an event on its way: which actions it came to, and whether one of them turned it
    down. Both are read off the steps of the run, and explain where the event ended. */
module History {
  import opened Basics
  import S = Streams
  import I = StreamsInv
  import T = StreamsSteps
  import B = Batcher
  import D = Delivery
  import P = Progress

  // ------------------------------------------------------------ events turned down

  /** The regular event that an action turns down with answer `v`: one that it discards, that the k8s
      action collapses, or that join collapses into the event it holds; or a flushed one that an
      action behind join discards. */
  function TurnedDown(cfg: S.Config, pr: S.Proc, v: S.Verdict): set<S.Event> {
    match pr.pc
    case Acting(e, i) =>
      if !e.timeout && i < cfg.actions
         && (v == S.DoDiscard || (v == S.Continue && (cfg.kind == S.Multiline || pr.joining)))
      then {e} else {}
    case Flushing(_, _, flushed, i) => if i < cfg.actions && v == S.DoDiscard then {flushed} else {}
    case _ => {}
  }

  function TurnedDownBy(cfg: S.Config, st: S.State, x: S.Step): set<S.Event> {
    if x.Run? && x.p in st.procs then TurnedDown(cfg, st.procs[x.p], x.v) else {}
  }

  /** The action's answer is given, and the event is about to be dropped. */
  predicate Sentenced(pc: S.Pc, e: S.Event) {
    pc.Returned? && pc.event == e && (pc.result == Discard || pc.result == Collapse)
  }

  ghost predicate Gone(st: S.State, e: S.Event) {
    || (e.stream in st.streams && e.seqID in st.streams[e.stream].dropped)
    || exists p :: p in st.procs && Sentenced(st.procs[p].pc, e)
  }

  /** The part of it that one processor and its stream decide. */
  ghost predicate GoneHere(pr: S.Proc, x: S.Stream, e: S.Event) {
    (e.stream == pr.sid && e.seqID in x.dropped) || Sentenced(pr.pc, e)
  }

  lemma ActGone(cfg: S.Config, pr: S.Proc, x: S.Stream, v: S.Verdict, e: S.Event)
    requires I.ProcOK(cfg, pr.sid, pr, x) && S.Allowed(cfg, pr, v) && pr.pc.Acting? && !e.timeout
    ensures var o := S.Move(cfg, pr, x, v);
            GoneHere(o.proc, o.stream, e) <==> GoneHere(pr, x, e) || e in TurnedDown(cfg, pr, v)
  {
  }

  lemma SettleGone(cfg: S.Config, pr: S.Proc, x: S.Stream, v: S.Verdict, e: S.Event)
    requires I.ProcOK(cfg, pr.sid, pr, x) && pr.pc.Returned? && !e.timeout
    ensures var o := S.Move(cfg, pr, x, v);
            GoneHere(o.proc, o.stream, e) <==> GoneHere(pr, x, e)
  {
  }

  lemma FlushGone(cfg: S.Config, pr: S.Proc, x: S.Stream, v: S.Verdict, e: S.Event)
    requires I.ProcOK(cfg, pr.sid, pr, x) && S.Allowed(cfg, pr, v) && !e.timeout
    requires pr.pc.Flushing? || pr.pc.FlushOut?
    ensures var o := S.Move(cfg, pr, x, v);
            GoneHere(o.proc, o.stream, e) <==> GoneHere(pr, x, e) || e in TurnedDown(cfg, pr, v)
  {
  }

  lemma OtherGone(cfg: S.Config, pr: S.Proc, x: S.Stream, v: S.Verdict, e: S.Event)
    requires I.ProcOK(cfg, pr.sid, pr, x) && S.CanMove(pr, x)
    requires !pr.pc.Acting? && !pr.pc.Returned? && !pr.pc.Flushing? && !pr.pc.FlushOut?
    ensures var o := S.Move(cfg, pr, x, v);
            GoneHere(o.proc, o.stream, e) <==> GoneHere(pr, x, e)
  {
  }

  /** A move drops exactly the events that an action turned down, and then or later only these. */
  lemma MoveGone(cfg: S.Config, pr: S.Proc, x: S.Stream, v: S.Verdict, e: S.Event)
    requires I.ProcOK(cfg, pr.sid, pr, x) && S.CanMove(pr, x) && S.Allowed(cfg, pr, v) && !e.timeout
    ensures var o := S.Move(cfg, pr, x, v);
            && o.proc.sid == pr.sid
            && (GoneHere(o.proc, o.stream, e) <==> GoneHere(pr, x, e) || e in TurnedDown(cfg, pr, v))
  {
    if pr.pc.Acting? {
      ActGone(cfg, pr, x, v, e);
    } else if pr.pc.Returned? {
      SettleGone(cfg, pr, x, v, e);
    } else if pr.pc.Flushing? || pr.pc.FlushOut? {
      FlushGone(cfg, pr, x, v, e);
    } else {
      OtherGone(cfg, pr, x, v, e);
    }
  }

  lemma LiftGone(st: S.State, p: S.ProcId, o: S.Outcome, e: S.Event)
    requires p in st.procs && st.procs[p].sid in st.streams && o.proc.sid == st.procs[p].sid
    ensures var pr := st.procs[p];
            Gone(S.Lift(st, p, o), e) && !GoneHere(o.proc, o.stream, e) ==> Gone(st, e)
    ensures GoneHere(o.proc, o.stream, e) ==> Gone(S.Lift(st, p, o), e)
    ensures var pr := st.procs[p];
            Gone(st, e) && !GoneHere(pr, st.streams[pr.sid], e) ==> Gone(S.Lift(st, p, o), e)
    ensures var pr := st.procs[p];
            GoneHere(pr, st.streams[pr.sid], e) ==> Gone(st, e)
  {
    var st' := S.Lift(st, p, o);
    if Gone(st', e) && !GoneHere(o.proc, o.stream, e)
       && !(e.stream in st'.streams && e.seqID in st'.streams[e.stream].dropped) {
      var q :| q in st'.procs && Sentenced(st'.procs[q].pc, e);
      assert q != p && Sentenced(st.procs[q].pc, e);
    }
    if GoneHere(o.proc, o.stream, e) && Sentenced(o.proc.pc, e) {
      assert Sentenced(st'.procs[p].pc, e);
    }
    var pr := st.procs[p];
    if Gone(st, e) && !GoneHere(pr, st.streams[pr.sid], e)
       && !(e.stream in st.streams && e.seqID in st.streams[e.stream].dropped) {
      var q :| q in st.procs && Sentenced(st.procs[q].pc, e);
      assert q != p && Sentenced(st'.procs[q].pc, e);
    }
  }

  lemma RunGone(cfg: S.Config, st: S.State, p: S.ProcId, v: S.Verdict, e: S.Event)
    requires I.Inv(cfg, st) && S.Enabled(cfg, st, S.Run(p, v)) && !e.timeout
    ensures Gone(S.Apply(cfg, st, S.Run(p, v)), e) <==> Gone(st, e) || e in TurnedDown(cfg, st.procs[p], v)
  {
    var pr := st.procs[p];
    P.OwnedView(cfg, st, p);
    MoveGone(cfg, pr, st.streams[pr.sid], v, e);
    LiftGone(st, p, S.Move(cfg, pr, st.streams[pr.sid], v), e);
  }

  /** No other step drops anything. */
  lemma QuietGone(cfg: S.Config, st: S.State, x: S.Step, e: S.Event)
    requires S.Enabled(cfg, st, x) && !x.Run?
    ensures Gone(S.Apply(cfg, st, x), e) <==> Gone(st, e)
  {
    var st' := S.Apply(cfg, st, x);
    assert forall p :: p in st.procs ==>
        p in st'.procs && (Sentenced(st'.procs[p].pc, e) <==> Sentenced(st.procs[p].pc, e));
    assert forall p :: p in st'.procs && Sentenced(st'.procs[p].pc, e) ==> p in st.procs;
  }

  lemma StepGone(cfg: S.Config, st: S.State, x: S.Step, e: S.Event)
    requires I.Inv(cfg, st) && S.Enabled(cfg, st, x) && !e.timeout
    ensures Gone(S.Apply(cfg, st, x), e) <==> Gone(st, e) || e in TurnedDownBy(cfg, st, x)
  {
    if x.Run? {
      RunGone(cfg, st, x.p, x.v, e);
    } else {
      QuietGone(cfg, st, x, e);
    }
  }

  // ------------------------------------------------------------ actions that were met

  /** Action `action` had the event before it. */
  datatype Meeting = Meeting(event: S.Event, action: nat)

  function Meets(cfg: S.Config, pr: S.Proc): set<Meeting> {
    match pr.pc
    case Acting(e, i) => if !e.timeout && i < cfg.actions then {Meeting(e, i)} else {}
    case Flushing(_, _, flushed, i) => if i < cfg.actions then {Meeting(flushed, i)} else {}
    case _ => {}
  }

  function MeetsIn(cfg: S.Config, st: S.State, x: S.Step): set<Meeting> {
    if x.Run? && x.p in st.procs then Meets(cfg, st.procs[x.p]) else {}
  }

  /** A regular event has met the first `k` actions. */
  ghost predicate UpTo(met: set<Meeting>, e: S.Event, k: nat) {
    !e.timeout ==> forall j: nat :: j < k ==> Meeting(e, j) in met
  }

  /** How far the events are that a processor has. */
  ghost predicate HandsMet(cfg: S.Config, pr: S.Proc, met: set<Meeting>) {
    && (pr.held.Some? ==> UpTo(met, pr.held.value, cfg.holder + 1))
    && match pr.pc
       case Acting(e, i) => UpTo(met, e, i)
       case Returned(e, i, _) => UpTo(met, e, i + 1)
       case Flushing(e, _, flushed, i) => UpTo(met, e, cfg.holder + 1) && UpTo(met, flushed, i)
       case FlushOut(e, _, flushed) => UpTo(met, e, cfg.holder + 1) && UpTo(met, flushed, cfg.actions)
       case Emitting(e) => UpTo(met, e, cfg.actions)
       case _ => true
  }

  ghost predicate AllMet(cfg: S.Config, events: seq<S.Event>, met: set<Meeting>) {
    forall e :: e in events ==> UpTo(met, e, cfg.actions)
  }

  /** What a move has to show for the events in the processor's hands and for what it emits. */
  ghost predicate MoveOK(cfg: S.Config, o: S.Outcome, met: set<Meeting>) {
    HandsMet(cfg, o.proc, met) && AllMet(cfg, o.emit, met)
  }

  lemma UpToNext(met: set<Meeting>, e: S.Event, k: nat)
    requires UpTo(met, e, k)
    ensures UpTo(met + {Meeting(e, k)}, e, k + 1)
  {
  }

  lemma UpToGrows(met: set<Meeting>, e: S.Event, k: nat, met': set<Meeting>)
    requires UpTo(met, e, k) && met <= met'
    ensures UpTo(met', e, k)
  {
  }

  lemma ActMet(cfg: S.Config, pr: S.Proc, x: S.Stream, v: S.Verdict, met: set<Meeting>)
    requires I.ProcOK(cfg, pr.sid, pr, x) && S.Allowed(cfg, pr, v) && HandsMet(cfg, pr, met)
    requires pr.pc.Acting? && pr.pc.index < cfg.actions
    ensures MoveOK(cfg, S.Move(cfg, pr, x, v), met + Meets(cfg, pr))
  {
    var e, met' := pr.pc.event, met + Meets(cfg, pr);
    if !e.timeout {
      UpToNext(met, e, pr.pc.index);
    }
    assert UpTo(met', e, pr.pc.index + 1);
    if pr.held.Some? {
      UpToGrows(met, pr.held.value, cfg.holder + 1, met');
    }
  }

  lemma FlushMet(cfg: S.Config, pr: S.Proc, x: S.Stream, v: S.Verdict, met: set<Meeting>)
    requires I.ProcOK(cfg, pr.sid, pr, x) && S.Allowed(cfg, pr, v) && HandsMet(cfg, pr, met)
    requires pr.pc.Flushing? && pr.pc.index < cfg.actions
    ensures MoveOK(cfg, S.Move(cfg, pr, x, v), met + Meets(cfg, pr))
  {
    var met' := met + Meets(cfg, pr);
    UpToNext(met, pr.pc.flushed, pr.pc.index);
    UpToGrows(met, pr.pc.event, cfg.holder + 1, met');
  }

  lemma RestMet(cfg: S.Config, pr: S.Proc, x: S.Stream, v: S.Verdict, met: set<Meeting>)
    requires I.ProcOK(cfg, pr.sid, pr, x) && S.CanMove(pr, x) && HandsMet(cfg, pr, met)
    requires (pr.pc.Acting? || pr.pc.Flushing?) ==> pr.pc.index >= cfg.actions
    ensures MoveOK(cfg, S.Move(cfg, pr, x, v), met)
  {
  }

  /** A move lets no event pass by an action, and what it emits has met them all. */
  lemma MoveMet(cfg: S.Config, pr: S.Proc, x: S.Stream, v: S.Verdict, met: set<Meeting>)
    requires I.ProcOK(cfg, pr.sid, pr, x) && S.CanMove(pr, x) && S.Allowed(cfg, pr, v) && HandsMet(cfg, pr, met)
    ensures MoveOK(cfg, S.Move(cfg, pr, x, v), met + Meets(cfg, pr))
  {
    if pr.pc.Acting? && pr.pc.index < cfg.actions {
      ActMet(cfg, pr, x, v, met);
    } else if pr.pc.Flushing? && pr.pc.index < cfg.actions {
      FlushMet(cfg, pr, x, v, met);
    } else {
      RestMet(cfg, pr, x, v, met);
      assert met + Meets(cfg, pr) == met;
    }
  }

  ghost predicate MetOK(cfg: S.Config, st: S.State, met: set<Meeting>) {
    && (forall p :: p in st.procs ==> HandsMet(cfg, st.procs[p], met))
    && AllMet(cfg, st.output, met) && AllMet(cfg, st.notified, met)
  }

  lemma MetGrows(cfg: S.Config, pr: S.Proc, met: set<Meeting>, met': set<Meeting>)
    requires HandsMet(cfg, pr, met) && met <= met'
    ensures HandsMet(cfg, pr, met')
  {
  }

  lemma LiftMet(cfg: S.Config, st: S.State, p: S.ProcId, o: S.Outcome, met: set<Meeting>, met': set<Meeting>)
    requires p in st.procs && MetOK(cfg, st, met) && met <= met' && MoveOK(cfg, o, met')
    ensures MetOK(cfg, S.Lift(st, p, o), met')
  {
    var st' := S.Lift(st, p, o);
    forall q | q in st'.procs
      ensures HandsMet(cfg, st'.procs[q], met')
    {
      if q != p {
        MetGrows(cfg, st.procs[q], met, met');
      }
    }
  }

  lemma RunMet(cfg: S.Config, st: S.State, p: S.ProcId, v: S.Verdict, met: set<Meeting>)
    requires I.Inv(cfg, st) && S.Enabled(cfg, st, S.Run(p, v)) && MetOK(cfg, st, met)
    ensures MetOK(cfg, S.Apply(cfg, st, S.Run(p, v)), met + Meets(cfg, st.procs[p]))
  {
    var pr := st.procs[p];
    P.OwnedView(cfg, st, p);
    MoveMet(cfg, pr, st.streams[pr.sid], v, met);
    LiftMet(cfg, st, p, S.Move(cfg, pr, st.streams[pr.sid], v), met, met + Meets(cfg, pr));
  }

  lemma QuietMet(cfg: S.Config, st: S.State, x: S.Step, met: set<Meeting>)
    requires S.Enabled(cfg, st, x) && !x.Run? && MetOK(cfg, st, met)
    ensures MetOK(cfg, S.Apply(cfg, st, x), met)
  {
  }

  lemma StepMet(cfg: S.Config, st: S.State, x: S.Step, met: set<Meeting>)
    requires I.Inv(cfg, st) && S.Enabled(cfg, st, x) && MetOK(cfg, st, met)
    ensures MetOK(cfg, S.Apply(cfg, st, x), met + MeetsIn(cfg, st, x))
  {
    if x.Run? {
      RunMet(cfg, st, x.p, x.v, met);
    } else {
      QuietMet(cfg, st, x, met);
      assert met + {} == met;
    }
  }

  // ------------------------------------------------------------------- whole runs

  /** The step of the pipeline without batcher that a step makes, if it makes one. */
  function PipePart(step: D.Step): Option<S.Step> {
    match step
    case PipeStep(x) => Some(x)
    case OutStep(p, _, _) => Some(S.Run(p, S.DoPass))
    case BatchStep(_) => None
    case NoteStep(_) => Some(S.Notify)
  }

  lemma PipeMoves(g: D.Settings, y: D.System, step: D.Step)
    requires B.ValidOptions(g.opts) && D.Inv(g, y) && D.Enabled(g, y, step)
    ensures var part := PipePart(step);
            var pipe' := D.Apply(g, y, step).pipe;
            if part.None? then pipe' == y.pipe
            else S.Enabled(g.cfg, y.pipe, part.value) && pipe' == S.Apply(g.cfg, y.pipe, part.value)
  {
    if step.NoteStep? {
      D.NoteIsNotify(g, y, step.w);
    }
  }

  /** The events that the actions turned down in the run. */
  ghost function Refusals(g: D.Settings, steps: seq<D.Step>): set<S.Event>
    requires D.ValidRun(g, steps)
    decreases |steps|
  {
    if steps == [] then {}
    else
      var n := |steps| - 1;
      var part := PipePart(steps[n]);
      Refusals(g, steps[..n])
      + if part.None? then {} else TurnedDownBy(g.cfg, D.Exec(g, steps[..n]).pipe, part.value)
  }

  /** The meetings of events and actions in the run. */
  ghost function Meetings(g: D.Settings, steps: seq<D.Step>): set<Meeting>
    requires D.ValidRun(g, steps)
    decreases |steps|
  {
    if steps == [] then {}
    else
      var n := |steps| - 1;
      var part := PipePart(steps[n]);
      Meetings(g, steps[..n]) + if part.None? then {} else MeetsIn(g.cfg, D.Exec(g, steps[..n]).pipe, part.value)
  }

  lemma {:induction false} RunGoneIff(g: D.Settings, steps: seq<D.Step>, e: S.Event)
    requires B.ValidOptions(g.opts) && D.ValidRun(g, steps) && !e.timeout
    ensures Gone(D.Exec(g, steps).pipe, e) <==> e in Refusals(g, steps)
    decreases |steps|
  {
    if steps != [] {
      var n := |steps| - 1;
      var y := D.Exec(g, steps[..n]);
      RunGoneIff(g, steps[..n], e);
      D.RunInv(g, steps[..n]);
      PipeMoves(g, y, steps[n]);
      if PipePart(steps[n]).Some? {
        StepGone(g.cfg, y.pipe, PipePart(steps[n]).value, e);
      }
    }
  }

  lemma {:induction false} RunMeets(g: D.Settings, steps: seq<D.Step>)
    requires B.ValidOptions(g.opts) && D.ValidRun(g, steps)
    ensures MetOK(g.cfg, D.Exec(g, steps).pipe, Meetings(g, steps))
    decreases |steps|
  {
    if steps != [] {
      var n := |steps| - 1;
      var y := D.Exec(g, steps[..n]);
      RunMeets(g, steps[..n]);
      D.RunInv(g, steps[..n]);
      PipeMoves(g, y, steps[n]);
      if PipePart(steps[n]).Some? {
        StepMet(g.cfg, y.pipe, PipePart(steps[n]).value, Meetings(g, steps[..n]));
      } else {
        assert Meetings(g, steps) == Meetings(g, steps[..n]);
      }
    }
  }

  lemma {:induction false} NumbersIn(events: seq<S.Event>, s: S.StreamId, n: nat)
    requires forall e :: e in events ==> !e.timeout
    ensures n in I.Numbers(events, s) <==> S.Event(s, n, false) in events
  {
    if events != [] {
      var l := |events| - 1;
      assert events == events[..l] + [events[l]];
      NumbersIn(events[..l], s, n);
    }
  }

  lemma DroppedIsNotNoted(v: I.View, n: nat)
    requires I.FlowOK(v) && n in v.stream.dropped
    ensures n !in v.noted
  {
    assert n !in I.Flow(v);
    assert forall m :: m in v.noted ==> m in I.Flow(v);
  }

  lemma InHandsIsNotNoted(v: I.View, pr: S.Proc, n: nat)
    requires I.FlowOK(v) && v.proc == Some(pr) && n in I.InHands(pr)
    ensures n !in v.noted
  {
    var f := I.Flow(v);
    var i :| 0 <= i < |I.InHands(pr)| && I.InHands(pr)[i] == n;
    assert f[|v.noted| + |v.out| + i] == n;
    assert forall k :: 0 <= k < |v.noted| ==> f[k] == v.noted[k];
  }

  lemma SentencedIsNotNoted(cfg: S.Config, st: S.State, p: S.ProcId, e: S.Event)
    requires I.Inv(cfg, st) && !e.timeout && p in st.procs && Sentenced(st.procs[p].pc, e)
    ensures e.stream in st.streams && e.seqID !in I.Numbers(st.notified, e.stream)
  {
    var pr := st.procs[p];
    P.OwnedView(cfg, st, p);
    assert pr.sid == e.stream && st.owner[e.stream] == p;
    var v := I.ViewOf(st, e.stream);
    assert I.StreamOK(cfg, e.stream, v);
    assert e.seqID in I.InHands(pr);
    InHandsIsNotNoted(v, pr, e.seqID);
  }

  lemma GoneIsNotNoted(cfg: S.Config, st: S.State, e: S.Event)
    requires I.Inv(cfg, st) && e.stream in st.streams && !e.timeout && Gone(st, e)
    ensures e.seqID !in I.Numbers(st.notified, e.stream)
  {
    if e.seqID in st.streams[e.stream].dropped {
      assert I.StreamOK(cfg, e.stream, I.ViewOf(st, e.stream));
      DroppedIsNotNoted(I.ViewOf(st, e.stream), e.seqID);
    } else {
      var p :| p in st.procs && Sentenced(st.procs[p].pc, e);
      SentencedIsNotNoted(cfg, st, p, e);
    }
  }

  /** In every run an event is dropped only if an action turned it down, and an event that an action
      turned down is dropped or about to be; the input is never notified of it. */
  lemma DropsAreAnswers(g: D.Settings, steps: seq<D.Step>, s: S.StreamId, n: nat)
    requires B.ValidOptions(g.opts) && D.ValidRun(g, steps) && s in D.Exec(g, steps).pipe.streams
    ensures var y := D.Exec(g, steps);
            var e := S.Event(s, n, false);
            && (e in Refusals(g, steps) <==>
                n in y.pipe.streams[s].dropped || exists p :: p in y.pipe.procs && Sentenced(y.pipe.procs[p].pc, e))
            && (e in Refusals(g, steps) ==> n !in D.NotifiedNumbers(y, s))
  {
    var e := S.Event(s, n, false);
    RunGoneIff(g, steps, e);
    D.RunInv(g, steps);
    if e in Refusals(g, steps) {
      GoneIsNotNoted(g.cfg, D.Exec(g, steps).pipe, e);
    }
  }

  /** The input is notified only of events that came to every action, and that none turned down. */
  lemma NotifiedPassedAll(g: D.Settings, steps: seq<D.Step>, s: S.StreamId, n: nat, j: nat)
    requires B.ValidOptions(g.opts) && D.ValidRun(g, steps) && s in D.Exec(g, steps).pipe.streams
    requires n in D.NotifiedNumbers(D.Exec(g, steps), s) && j < g.cfg.actions
    ensures Meeting(S.Event(s, n, false), j) in Meetings(g, steps)
    ensures S.Event(s, n, false) !in Refusals(g, steps)
  {
    var st := D.Exec(g, steps).pipe;
    RunMeets(g, steps);
    D.RunInv(g, steps);
    NumbersIn(st.notified, s, n);
    assert UpTo(Meetings(g, steps), S.Event(s, n, false), g.cfg.actions);
    DropsAreAnswers(g, steps, s, n);
  }

  /** So when the input is notified of an event, it was notified of every earlier one of the stream, or
      an action had turned that one down. */
  lemma EarlierIsAnswered(g: D.Settings, steps: seq<D.Step>, s: S.StreamId, n: nat, m: nat)
    requires B.ValidOptions(g.opts) && D.ValidRun(g, steps) && s in D.Exec(g, steps).pipe.streams
    requires n in D.NotifiedNumbers(D.Exec(g, steps), s) && 1 <= m < n
    ensures m in D.NotifiedNumbers(D.Exec(g, steps), s) <==> S.Event(s, m, false) !in Refusals(g, steps)
  {
    D.InOrderNoGaps(g, steps, s);
    DropsAreAnswers(g, steps, s, m);
  }

  // ------------------------------------------------------- where everything ends

  /** The step gives no answer that turns an event down. */
  predicate Harmless(step: D.Step) {
    step.PipeStep? && step.step.Run? ==> step.step.v != S.DoDiscard && step.step.v != S.Continue
  }

  lemma {:induction false} HarmlessRun(g: D.Settings, steps: seq<D.Step>)
    requires D.ValidRun(g, steps) && forall x :: x in steps ==> Harmless(x)
    ensures Refusals(g, steps) == {}
    decreases |steps|
  {
    if steps != [] {
      var n := |steps| - 1;
      assert steps[n] in steps && forall x :: x in steps[..n] ==> x in steps;
      HarmlessRun(g, steps[..n]);
    }
  }

  /** A run without such answers drops nothing. */
  lemma NothingIsDropped(g: D.Settings, steps: seq<D.Step>, s: S.StreamId)
    requires B.ValidOptions(g.opts) && D.ValidRun(g, steps) && s in D.Exec(g, steps).pipe.streams
    requires forall x :: x in steps ==> Harmless(x)
    ensures D.Exec(g, steps).pipe.streams[s].dropped == {}
  {
    HarmlessRun(g, steps);
    forall n | n in D.Exec(g, steps).pipe.streams[s].dropped
      ensures false
    {
      DropsAreAnswers(g, steps, s, n);
    }
  }

  lemma HarmlessStep(g: D.Settings, y: D.System, step: D.Step, e: S.Event)
    requires B.ValidOptions(g.opts) && D.Inv(g, y) && D.Enabled(g, y, step) && Harmless(step) && !e.timeout
    ensures Gone(D.Apply(g, y, step).pipe, e) <==> Gone(y.pipe, e)
  {
    PipeMoves(g, y, step);
    if PipePart(step).Some? {
      StepGone(g.cfg, y.pipe, PipePart(step).value, e);
    }
  }

  lemma {:induction false} HarmlessOwnRun(g: D.Settings, y: D.System, steps: seq<D.Step>, e: S.Event)
    requires B.ValidOptions(g.opts) && D.Inv(g, y) && P.OwnRun(g, y, steps) && !e.timeout
    requires forall x :: x in steps ==> Harmless(x)
    ensures D.Inv(g, P.After(g, y, steps)) && (Gone(P.After(g, y, steps).pipe, e) <==> Gone(y.pipe, e))
    decreases |steps|
  {
    if steps != [] {
      assert steps[0] in steps && forall x :: x in steps[1..] ==> x in steps;
      HarmlessStep(g, y, steps[0], e);
      D.StepKeeps(g, y, steps[0]);
      HarmlessOwnRun(g, D.Apply(g, y, steps[0]), steps[1..], e);
    }
  }

  lemma DeliveredUnlessGone(cfg: S.Config, z: D.System, e: S.Event)
    requires I.Inv(cfg, z.pipe) && !e.timeout && e.stream in z.pipe.streams && P.Delivered(z, e.stream)
    requires 1 <= e.seqID <= z.pipe.streams[e.stream].currentSeq
    ensures e.seqID in D.NotifiedNumbers(z, e.stream) <==> !Gone(z.pipe, e)
  {
    if Gone(z.pipe, e) {
      GoneIsNotNoted(cfg, z.pipe, e);
    }
  }

  /** The input was notified of exactly the events up to `last` that were not turned down. */
  ghost predicate AllAnswered(z: D.System, refused: set<S.Event>, s: S.StreamId, last: nat) {
    forall n :: 1 <= n <= last ==> (n in D.NotifiedNumbers(z, s) <==> S.Event(s, n, false) !in refused)
  }

  lemma AnsweredAfter(g: D.Settings, steps: seq<D.Step>, y: D.System, more: seq<D.Step>, e: S.Event)
    requires B.ValidOptions(g.opts) && D.ValidRun(g, steps) && y == D.Exec(g, steps) && !e.timeout
    requires P.OwnRun(g, y, more) && forall x :: x in more ==> P.Passing(x)
    requires var z := P.After(g, y, more);
             && e.stream in z.pipe.streams && P.Delivered(z, e.stream)
             && 1 <= e.seqID <= z.pipe.streams[e.stream].currentSeq
    ensures e.seqID in D.NotifiedNumbers(P.After(g, y, more), e.stream) <==> e !in Refusals(g, steps)
  {
    D.RunInv(g, steps);
    RunGoneIff(g, steps, e);
    HarmlessOwnRun(g, y, more, e);
    DeliveredUnlessGone(g.cfg, P.After(g, y, more), e);
  }

  /** After every run the pipeline can go on by itself, with actions that pass their events on, to a
      state in which the input was notified of exactly those events that no action had turned down. */
  lemma EverythingIsAnswered(g: D.Settings, steps: seq<D.Step>) returns (more: seq<D.Step>)
    requires B.ValidOptions(g.opts) && D.ValidRun(g, steps)
    requires g.opts.workers > 0 && |D.Exec(g, steps).pipe.procs| > 0
    ensures var y := D.Exec(g, steps);
            && P.OwnRun(g, y, more) && (forall x :: x in more ==> P.Passing(x))
            && forall s :: s in y.pipe.streams ==>
                 AllAnswered(P.After(g, y, more), Refusals(g, steps), s, y.pipe.streams[s].currentSeq)
  {
    var y := D.Exec(g, steps);
    more := P.EverythingIsDelivered(g, steps);
    var z := P.After(g, y, more);
    forall s | s in y.pipe.streams
      ensures AllAnswered(z, Refusals(g, steps), s, y.pipe.streams[s].currentSeq)
    {
      forall n | 1 <= n <= y.pipe.streams[s].currentSeq
        ensures n in D.NotifiedNumbers(z, s) <==> S.Event(s, n, false) !in Refusals(g, steps)
      {
        AnsweredAfter(g, steps, y, more, S.Event(s, n, false));
      }
    }
  }
}
