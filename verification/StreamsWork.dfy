/** How much is left to do for the events in the streams: a number that every step of a processor
    lowers, unless an action throws a timeout away that is not meant for it. */
module StreamsWork {
  import opened Basics
  import opened Streams
  import opened StreamsInv
  import opened StreamsSteps

  // ------------------------------------------------------------------ the costs

  function Left(a: nat, b: nat): nat {
    if a >= b then a - b else 0
  }

  /** More than the way of a timeout to the holding action and of the flushed event behind it. */
  function TimeoutCost(cfg: Config): nat {
    21 + 3 * cfg.actions
  }

  /** More than the way of a regular event, and of a timeout after it. */
  function EventCost(cfg: Config): nat {
    TimeoutCost(cfg) + 3 * cfg.actions + 26
  }

  /** What is left when the holding action has answered. */
  function AnswerCost(cfg: Config, e: Event): nat {
    if e.timeout then 2 else TimeoutCost(cfg) + 4 + 2 * Left(cfg.actions, cfg.holder)
  }

  /** What is left of the current event. `empty` says that the stream's queue is. Giving an event to
      the output lowers it by 17, which pays for the event's way through the batcher. */
  function PcCost(cfg: Config, pc: Pc, empty: bool): nat {
    match pc
    case Idle => 0
    case Joined => 2
    case Discharging => 1
    case Acting(e, i) =>
      if e.timeout then 21 + cfg.actions + 2 * Left(cfg.holder, i)
      else TimeoutCost(cfg) + 5 + 2 * Left(cfg.actions, i) + if i <= cfg.holder then cfg.actions + 20 else 0
    case Returned(e, i, r) =>
      if !e.timeout then
        TimeoutCost(cfg) + 4 + 2 * Left(cfg.actions, i) + if i < cfg.holder then cfg.actions + 20 else 0
      else if i >= cfg.holder then 2
      else if r == Discard then TimeoutCost(cfg) + 5
      else 20 + cfg.actions + 2 * Left(cfg.holder, i)
    case Flushing(e, _, _, j) => AnswerCost(cfg, e) + 18 + Left(cfg.actions, j)
    case FlushOut(e, _, _) => AnswerCost(cfg, e) + 17
    case Emitting(_) => 18
    case Asking(_) => TimeoutCost(cfg) + 4
    case Waiting(_) => TimeoutCost(cfg) + 2 + if empty then 1 else 0
  }

  function QueueCost(cfg: Config, x: Stream): nat {
    Left(x.currentSeq, x.awaySeq) * EventCost(cfg)
  }

  function OwnerCost(cfg: Config, v: View): nat {
    if v.proc.Some? then PcCost(cfg, v.proc.value.pc, v.stream.queue == [])
    else if v.stream.queue == [] then 0
    else 3
  }

  function Weight(cfg: Config, v: View): nat {
    QueueCost(cfg, v.stream) + OwnerCost(cfg, v)
  }

  /** An action in front of the holding one throws the timeout away. */
  predicate Swallows(cfg: Config, pr: Proc, w: Verdict) {
    pr.pc.Acting? && pr.pc.event.timeout && pr.pc.index < cfg.holder && w == DoDiscard
  }

  // ------------------------------------------------------------ moves of a processor

  lemma TakesOne(cfg: Config, x: Stream)
    requires x.awaySeq < x.currentSeq
    ensures QueueCost(cfg, x) == QueueCost(cfg, x.(awaySeq := x.awaySeq + 1)) + EventCost(cfg)
  {
    var k := x.currentSeq - x.awaySeq - 1;
    assert (k + 1) * EventCost(cfg) == k * EventCost(cfg) + EventCost(cfg);
  }

  /** The move lowers the weight, and by enough when it gives an event to the output. */
  ghost predicate Lowers(cfg: Config, v: View, o: Outcome)
    requires v.proc.Some? && forall e | e in o.emit :: !e.timeout
  {
    Weight(cfg, AfterMove(v, o)) + (if o.emit == [] then 1 else 17) <= Weight(cfg, v)
  }

  lemma TakeLowers(cfg: Config, s: StreamId, v: View, w: Verdict)
    requires CanRun(cfg, s, v, w)
    requires v.proc.value.pc.Discharging? || v.proc.value.pc.Asking? || v.proc.value.pc.Waiting?
    requires v.stream.queue != []
    ensures Lowers(cfg, v, Move(cfg, v.proc.value, v.stream, w))
  {
    QueueHead(cfg, s, v);
    if !v.stream.queue[0].timeout {
      TakesOne(cfg, v.stream);
    }
  }

  lemma SkipLowers(cfg: Config, s: StreamId, v: View, w: Verdict)
    requires CanRun(cfg, s, v, w) && v.proc.value.pc.Acting?
    requires v.proc.value.pc.index >= cfg.actions || w == NotMatched
    ensures Lowers(cfg, v, Move(cfg, v.proc.value, v.stream, w))
  {
  }

  /** Any other action than the holding one. */
  lemma ActLowers(cfg: Config, s: StreamId, v: View, w: Verdict)
    requires CanRun(cfg, s, v, w) && v.proc.value.pc.Acting? && !Swallows(cfg, v.proc.value, w)
    requires v.proc.value.pc.index < cfg.actions && v.proc.value.pc.index != cfg.holder && w != NotMatched
    ensures Lowers(cfg, v, Move(cfg, v.proc.value, v.stream, w))
  {
  }

  lemma FlushStarts(cfg: Config, s: StreamId, v: View, w: Verdict)
    requires CanRun(cfg, s, v, w) && v.proc.value.pc.Acting? && w != NotMatched
    requires v.proc.value.pc.index == cfg.holder < cfg.actions && cfg.kind == Join && v.proc.value.joining
    requires w != Continue || v.proc.value.pc.event.timeout
    ensures Lowers(cfg, v, Move(cfg, v.proc.value, v.stream, w))
  {
    var pr, e := v.proc.value, v.proc.value.pc.event;
    var o := Flush(cfg, pr, v.stream, e, if e.timeout then Discard else if w == Begin then Hold else Pass);
    assert o == Move(cfg, pr, v.stream, w);
  }

  lemma HolderAnswers(cfg: Config, s: StreamId, v: View, w: Verdict)
    requires CanRun(cfg, s, v, w) && v.proc.value.pc.Acting? && w != NotMatched
    requires v.proc.value.pc.index == cfg.holder < cfg.actions
    requires cfg.kind == Join && v.proc.value.joining ==> w == Continue && !v.proc.value.pc.event.timeout
    ensures Lowers(cfg, v, Move(cfg, v.proc.value, v.stream, w))
  {
  }

  lemma AnyActLowers(cfg: Config, s: StreamId, v: View, w: Verdict)
    requires CanRun(cfg, s, v, w) && v.proc.value.pc.Acting? && !Swallows(cfg, v.proc.value, w)
    ensures Lowers(cfg, v, Move(cfg, v.proc.value, v.stream, w))
  {
    var pr := v.proc.value;
    if pr.pc.index >= cfg.actions || w == NotMatched {
      SkipLowers(cfg, s, v, w);
    } else if pr.pc.index != cfg.holder {
      ActLowers(cfg, s, v, w);
    } else if cfg.kind == Join && pr.joining && (w != Continue || pr.pc.event.timeout) {
      FlushStarts(cfg, s, v, w);
    } else {
      HolderAnswers(cfg, s, v, w);
    }
  }

  lemma SettleLowers(cfg: Config, s: StreamId, v: View, w: Verdict)
    requires CanRun(cfg, s, v, w) && v.proc.value.pc.Returned?
    ensures Lowers(cfg, v, Move(cfg, v.proc.value, v.stream, w))
  {
  }

  lemma FlushLowers(cfg: Config, s: StreamId, v: View, w: Verdict)
    requires CanRun(cfg, s, v, w) && v.proc.value.pc.Flushing?
    ensures Lowers(cfg, v, Move(cfg, v.proc.value, v.stream, w))
  {
  }

  lemma OutLowers(cfg: Config, s: StreamId, v: View, w: Verdict)
    requires CanRun(cfg, s, v, w) && (v.proc.value.pc.FlushOut? || v.proc.value.pc.Emitting?)
    requires EmitOK(s, Move(cfg, v.proc.value, v.stream, w))
    ensures Lowers(cfg, v, Move(cfg, v.proc.value, v.stream, w))
  {
  }

  lemma PlainLowers(cfg: Config, s: StreamId, v: View, w: Verdict)
    requires CanRun(cfg, s, v, w)
    requires v.proc.value.pc.Joined? || v.proc.value.pc.Discharging? || v.proc.value.pc.Asking?
    requires v.stream.queue == [] || v.proc.value.pc.Joined?
    ensures Lowers(cfg, v, Move(cfg, v.proc.value, v.stream, w))
  {
  }

  /** Every move lowers the weight of the stream, whatever the actions answer, unless one of them
      swallows a timeout. */
  lemma MoveLowers(cfg: Config, s: StreamId, v: View, w: Verdict)
    requires CanRun(cfg, s, v, w) && !Swallows(cfg, v.proc.value, w)
    ensures EmitOK(s, Move(cfg, v.proc.value, v.stream, w))
    ensures Lowers(cfg, v, Move(cfg, v.proc.value, v.stream, w))
  {
    AnyMove(cfg, s, v, w);
    var pc := v.proc.value.pc;
    if pc.Acting? {
      AnyActLowers(cfg, s, v, w);
    } else if pc.Returned? {
      SettleLowers(cfg, s, v, w);
    } else if pc.Flushing? {
      FlushLowers(cfg, s, v, w);
    } else if pc.FlushOut? || pc.Emitting? {
      OutLowers(cfg, s, v, w);
    } else if v.stream.queue == [] || pc.Joined? {
      PlainLowers(cfg, s, v, w);
    } else {
      TakeLowers(cfg, s, v, w);
    }
  }

  // -------------------------------------------------------------- the whole system

  ghost function WeightOf(cfg: Config, st: State): StreamId -> nat {
    (s: StreamId) => if s in st.streams then Weight(cfg, ViewOf(st, s)) else 0
  }

  /** Every stream is in the list once. */
  ghost predicate Lists(ids: seq<StreamId>, st: State) {
    NoRepeats(ids) && forall s :: s in ids <==> s in st.streams
  }

  /** What is left to do for all streams. */
  ghost function StreamWork(cfg: Config, st: State, ids: seq<StreamId>): nat {
    Sum(ids, WeightOf(cfg, st))
  }

  /** A step that changes the view of one stream only changes the work by that stream's part. */
  lemma WorkChanges(cfg: Config, st: State, st': State, ids: seq<StreamId>, s: StreamId)
    requires Lists(ids, st) && s in st.streams && st'.streams.Keys == st.streams.Keys
    requires forall t :: t in st.streams && t != s ==> ViewOf(st', t) == ViewOf(st, t)
    ensures Lists(ids, st')
    ensures StreamWork(cfg, st', ids) + Weight(cfg, ViewOf(st, s))
            == StreamWork(cfg, st, ids) + Weight(cfg, ViewOf(st', s))
  {
    assert forall t :: t in st'.streams <==> t in st'.streams.Keys;
    assert forall t :: t in st.streams <==> t in st.streams.Keys;
    SumChange(ids, WeightOf(cfg, st), WeightOf(cfg, st'), s);
  }

  lemma RunLowers(cfg: Config, st: State, p: ProcId, w: Verdict, ids: seq<StreamId>)
    requires Inv(cfg, st) && Enabled(cfg, st, Run(p, w)) && !Swallows(cfg, st.procs[p], w) && Lists(ids, st)
    ensures var st' := Apply(cfg, st, Run(p, w));
            var emits := Move(cfg, st.procs[p], st.streams[st.procs[p].sid], w).emit != [];
            && Lists(ids, st')
            && StreamWork(cfg, st', ids) + (if emits then 17 else 1) <= StreamWork(cfg, st, ids)
  {
    var pr := st.procs[p];
    var s := pr.sid;
    var o := Move(cfg, pr, st.streams[s], w);
    LiftView(cfg, st, p, w);
    MoveKeeps(cfg, s, ViewOf(st, s), w);
    LiftFrame(cfg, st, p, o);
    MovedView(cfg, st, p, o);
    MoveLowers(cfg, s, ViewOf(st, s), w);
    forall t | t in st.streams && t != s
      ensures ViewOf(Lift(st, p, o), t) == ViewOf(st, t)
    {
      assert t in st.owner ==> st.owner[t] != p;
      OtherView(cfg, st, p, o, t);
    }
    WorkChanges(cfg, st, Lift(st, p, o), ids, s);
  }

  lemma TakeChargedLowers(cfg: Config, st: State, p: ProcId, ids: seq<StreamId>)
    requires Inv(cfg, st) && Enabled(cfg, st, TakeCharged(p)) && Lists(ids, st)
    ensures var st' := Apply(cfg, st, TakeCharged(p));
            Lists(ids, st') && StreamWork(cfg, st', ids) < StreamWork(cfg, st, ids)
  {
    var st' := Apply(cfg, st, TakeCharged(p));
    var s := st.charged[|st.charged| - 1];
    ChargedIsFree(cfg, st, p);
    TakeChargedSees(cfg, st, p);
    assert StreamOK(cfg, s, ViewOf(st, s));
    forall t | t in st.streams && t != s
      ensures ViewOf(st', t) == ViewOf(st, t)
    {
      TakeChargedOther(cfg, st, p, t);
    }
    WorkChanges(cfg, st, st', ids, s);
  }

  /** A timeout for a stream that has nothing else to wait for. */
  lemma TimeoutLowers(cfg: Config, st: State, s: StreamId, ids: seq<StreamId>)
    requires Inv(cfg, st) && Enabled(cfg, st, TimeoutStep(s)) && st.streams[s].queue == [] && Lists(ids, st)
    ensures var st' := Apply(cfg, st, TimeoutStep(s));
            Lists(ids, st') && StreamWork(cfg, st', ids) < StreamWork(cfg, st, ids)
  {
    var st' := Apply(cfg, st, TimeoutStep(s));
    assert StreamOK(cfg, s, ViewOf(st, s));
    assert ViewOf(st', s) == ViewOf(st, s).(stream := st'.streams[s]);
    forall t | t in st.streams && t != s
      ensures ViewOf(st', t) == ViewOf(st, t)
    {
      OwnerSees(st, st', t);
    }
    WorkChanges(cfg, st, st', ids, s);
  }

  lemma CommitWeighs(cfg: Config, v: View)
    requires v.committing.Some?
    ensures Weight(cfg, AfterCommit(v)) == Weight(cfg, v)
  {
  }

  lemma CommitKeepsWork(cfg: Config, st: State, ids: seq<StreamId>)
    requires FrameOK(cfg, st) && Enabled(cfg, st, CommitStep) && Lists(ids, st)
    ensures var st' := Apply(cfg, st, CommitStep);
            Lists(ids, st') && StreamWork(cfg, st', ids) == StreamWork(cfg, st, ids)
  {
    CommitSees(cfg, st);
    CommitWeighs(cfg, ViewOf(st, st.committing.value.stream));
    WorkChanges(cfg, st, Apply(cfg, st, CommitStep), ids, st.committing.value.stream);
  }

  lemma NotifyKeepsWork(cfg: Config, st: State, ids: seq<StreamId>)
    requires FrameOK(cfg, st) && Enabled(cfg, st, Notify) && Lists(ids, st)
    ensures var st' := Apply(cfg, st, Notify);
            Lists(ids, st') && StreamWork(cfg, st', ids) == StreamWork(cfg, st, ids)
  {
    NotifySees(cfg, st);
    WorkChanges(cfg, st, Apply(cfg, st, Notify), ids, st.output[0].stream);
  }
}
