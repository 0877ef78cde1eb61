/** Every step of the whole system keeps the invariant, so every run does. */
module StreamsSteps {
  import opened Basics
  import opened Streams
  import opened StreamsInv

  // ------------------------------------------------------------------ numbers

  lemma NumbersSnoc(events: seq<Event>, e: Event, s: StreamId)
    ensures Numbers(events + [e], s) == Numbers(events, s) + if e.stream == s then [e.seqID] else []
  {
    assert (events + [e])[..|events|] == events;
  }

  lemma {:induction false} NumbersConcat(a: seq<Event>, b: seq<Event>, s: StreamId)
    ensures Numbers(a + b, s) == Numbers(a, s) + Numbers(b, s)
    decreases |b|
  {
    if b == [] {
      assert a + b == a;
    } else {
      var l := |b| - 1;
      NumbersConcat(a, b[..l], s);
      assert b == b[..l] + [b[l]];
      assert a + b == (a + b[..l]) + [b[l]];
      NumbersSnoc(a + b[..l], b[l], s);
      NumbersSnoc(b[..l], b[l], s);
    }
  }

  lemma NumbersCons(events: seq<Event>, s: StreamId)
    requires events != []
    ensures Numbers(events, s) == (if events[0].stream == s then [events[0].seqID] else []) + Numbers(events[1..], s)
  {
    assert events == [events[0]] + events[1..];
    NumbersConcat([events[0]], events[1..], s);
    NumbersSnoc([], events[0], s);
    assert [] + [events[0]] == [events[0]];
  }

  // ------------------------------------------------------------- blocked list

  /** The entries are distinct. */
  lemma BlockedOnce(b: BlockList, i: nat, j: nat)
    requires BlocksOK(b) && i < |b.blocked| && j < |b.blocked| && b.blocked[i] == b.blocked[j]
    ensures i == j
  {
  }

  lemma MakeBlockedKeeps(b: BlockList, s: StreamId)
    requires BlocksOK(b) && s !in b.blocked
    ensures var b' := MakeBlocked(b, s);
            BlocksOK(b') && forall t :: t in b'.blocked <==> t == s || t in b.blocked
  {
  }

  /** Swap-removal takes out exactly the one stream and repairs the index of the moved one. */
  lemma ResetBlockedKeeps(b: BlockList, s: StreamId)
    requires BlocksOK(b) && s in b.blocked
    ensures !ResetBlockedPanics(b, s)
    ensures var b' := ResetBlocked(b, s);
            BlocksOK(b') && forall t :: t in b'.blocked <==> t != s && t in b.blocked
  {
    var i :| 0 <= i < |b.blocked| && b.blocked[i] == s;
    assert b.blockIndex[s] == i;
    var last := |b.blocked| - 1;
    var b' := ResetBlocked(b, s);
    assert forall k | 0 <= k < last :: b'.blocked[k] == if k == i then b.blocked[last] else b.blocked[k];
    forall k | 0 <= k < last
      ensures b'.blocked[k] != s && b'.blocked[k] in b'.blockIndex && b'.blockIndex[b'.blocked[k]] == k
    {
      if k == i {
        assert b.blockIndex[b.blocked[last]] == last;
      } else {
        assert b.blockIndex[b.blocked[k]] == k && b.blockIndex[b.blocked[last]] == last;
      }
    }
    forall t | t != s && t in b.blocked
      ensures t in b'.blocked
    {
      var k :| 0 <= k < |b.blocked| && b.blocked[k] == t;
      if k == last {
        assert b'.blocked[i] == t;
      } else {
        assert b'.blocked[k] == t;
      }
    }
  }

  // -------------------------------------------------------------- single steps

  lemma ChargeOther(charged: seq<StreamId>, s: StreamId, t: StreamId)
    ensures multiset(charged + [s])[t] == multiset(charged)[t] + if s == t then 1 else 0
  {
  }

  lemma NumbersNone(events: seq<Event>, s: StreamId)
    requires forall e :: e in events ==> e.stream != s
    ensures Numbers(events, s) == []
  {
    if events != [] {
      var l := |events| - 1;
      assert events[l] in events;
      assert forall e | e in events[..l] :: e in events;
      NumbersNone(events[..l], s);
    }
  }

  /** What stream `s` sees, also before its first event. */
  ghost function Seen(st: State, s: StreamId): View {
    if s in st.streams then ViewOf(st, s) else UNKNOWN
  }

  /** The part of a view that depends on who owns the stream. */
  lemma OwnerSees(st: State, st': State, t: StreamId)
    requires t in st.streams && t in st'.streams
    requires st'.streams[t] == st.streams[t]
    requires t in st.owner <==> t in st'.owner
    requires t in st.owner ==> st.owner[t] == st'.owner[t]
    requires t in st.owner && st.owner[t] in st.procs ==>
               st.owner[t] in st'.procs && st'.procs[st.owner[t]] == st.procs[st.owner[t]]
    requires t in st.owner && st.owner[t] !in st.procs ==> st.owner[t] !in st'.procs
    requires multiset(st'.charged)[t] == multiset(st.charged)[t]
    requires t in st'.blocks.blocked <==> t in st.blocks.blocked
    requires Numbers(st'.output, t) == Numbers(st.output, t)
    requires st'.committing == st.committing && st'.notified == st.notified
    ensures ViewOf(st', t) == ViewOf(st, t)
  {
  }

  lemma PutSees(cfg: Config, st: State, s: StreamId)
    requires FrameOK(cfg, st)
    ensures ViewOf(Apply(cfg, st, PutStep(s)), s) == AfterPut(s, Seen(st, s))
  {
    ChargeOther(st.charged, s, s);
    if s !in st.streams {
      NumbersNone(st.output, s);
      NumbersNone(st.notified, s);
      assert s !in st.charged && multiset(st.charged)[s] == 0;
    }
  }

  lemma PutFrame(cfg: Config, st: State, s: StreamId)
    requires FrameOK(cfg, st)
    ensures FrameOK(cfg, Apply(cfg, st, PutStep(s)))
  {
  }

  lemma PutKeeps(cfg: Config, st: State, s: StreamId)
    requires Inv(cfg, st)
    ensures Inv(cfg, Apply(cfg, st, PutStep(s)))
  {
    var st' := Apply(cfg, st, PutStep(s));
    PutFrame(cfg, st, s);
    PutSees(cfg, st, s);
    PutKeepsView(cfg, s, Seen(st, s));
    forall t | t in st'.streams && t != s
      ensures StreamOK(cfg, t, ViewOf(st', t))
    {
      ChargeOther(st.charged, s, t);
      OwnerSees(st, st', t);
    }
  }

  lemma AddProcFrame(cfg: Config, st: State, p: ProcId)
    requires FrameOK(cfg, st) && p !in st.procs
    ensures FrameOK(cfg, Apply(cfg, st, AddProc(p)))
  {
  }

  lemma AddProcSees(cfg: Config, st: State, p: ProcId, t: StreamId)
    requires Paired(cfg, st) && p !in st.procs && t in st.streams
    ensures ViewOf(Apply(cfg, st, AddProc(p)), t) == ViewOf(st, t)
  {
    OwnerSees(st, Apply(cfg, st, AddProc(p)), t);
  }

  lemma AddProcKeeps(cfg: Config, st: State, p: ProcId)
    requires Inv(cfg, st) && p !in st.procs
    ensures Inv(cfg, Apply(cfg, st, AddProc(p)))
  {
    var st' := Apply(cfg, st, AddProc(p));
    AddProcFrame(cfg, st, p);
    forall t | t in st'.streams
      ensures StreamOK(cfg, t, ViewOf(st', t))
    {
      AddProcSees(cfg, st, p, t);
    }
  }

  lemma TakeChargedSees(cfg: Config, st: State, p: ProcId)
    requires FrameOK(cfg, st) && Enabled(cfg, st, TakeCharged(p))
    requires st.charged[|st.charged| - 1] !in st.owner
    ensures var st' := Apply(cfg, st, TakeCharged(p));
            var s := st.charged[|st.charged| - 1];
            var v := ViewOf(st, s);
            && v.charged > 0
            && ViewOf(st', s) == v.(proc := Some(st.procs[p].(pc := Joined, sid := s)), charged := v.charged - 1)
  {
    var l := |st.charged|;
    var s := st.charged[l - 1];
    assert st.charged == st.charged[..l - 1] + [s];
    ChargeOther(st.charged[..l - 1], s, s);
  }

  lemma TakeChargedFrame(cfg: Config, st: State, p: ProcId)
    requires FrameOK(cfg, st) && Enabled(cfg, st, TakeCharged(p))
    requires st.charged[|st.charged| - 1] !in st.owner
    ensures FrameOK(cfg, Apply(cfg, st, TakeCharged(p)))
  {
  }

  lemma TakeChargedOther(cfg: Config, st: State, p: ProcId, t: StreamId)
    requires FrameOK(cfg, st) && Enabled(cfg, st, TakeCharged(p))
    requires t in st.streams && t != st.charged[|st.charged| - 1]
    ensures ViewOf(Apply(cfg, st, TakeCharged(p)), t) == ViewOf(st, t)
  {
    var l := |st.charged|;
    var s := st.charged[l - 1];
    assert st.charged == st.charged[..l - 1] + [s];
    ChargeOther(st.charged[..l - 1], s, t);
    assert t in st.owner ==> st.owner[t] != p;
    OwnerSees(st, Apply(cfg, st, TakeCharged(p)), t);
  }

  /** The stream on top of the charged list is nobody's. */
  lemma ChargedIsFree(cfg: Config, st: State, p: ProcId)
    requires Inv(cfg, st) && Enabled(cfg, st, TakeCharged(p))
    ensures var s := st.charged[|st.charged| - 1];
            && s !in st.owner && s in st.streams
            && StreamOK(cfg, s, ViewOf(Apply(cfg, st, TakeCharged(p)), s))
  {
    var s := st.charged[|st.charged| - 1];
    assert s in st.streams && multiset(st.charged)[s] > 0;
    TakeChargedView(cfg, s, ViewOf(st, s), st.procs[p]);
    assert s !in st.owner;
    TakeChargedSees(cfg, st, p);
  }

  lemma TakeChargedKeeps(cfg: Config, st: State, p: ProcId)
    requires Inv(cfg, st) && Enabled(cfg, st, TakeCharged(p))
    ensures Inv(cfg, Apply(cfg, st, TakeCharged(p)))
  {
    var st' := Apply(cfg, st, TakeCharged(p));
    ChargedIsFree(cfg, st, p);
    TakeChargedFrame(cfg, st, p);
    forall t | t in st'.streams
      ensures StreamOK(cfg, t, ViewOf(st', t))
    {
      if t != st.charged[|st.charged| - 1] {
        TakeChargedOther(cfg, st, p, t);
      }
    }
  }

  lemma TimeoutKeeps(cfg: Config, st: State, s: StreamId)
    requires Inv(cfg, st) && Enabled(cfg, st, TimeoutStep(s))
    ensures Inv(cfg, Apply(cfg, st, TimeoutStep(s)))
  {
    var st' := Apply(cfg, st, TimeoutStep(s));
    TimeoutView(cfg, s, ViewOf(st, s));
    assert ViewOf(st', s) == ViewOf(st, s).(stream := st'.streams[s]);
    forall t | t in st'.streams && t != s
      ensures StreamOK(cfg, t, ViewOf(st', t))
    {
      OwnerSees(st, st', t);
    }
  }

  lemma NotifySees(cfg: Config, st: State)
    requires FrameOK(cfg, st) && Enabled(cfg, st, Notify)
    ensures var st' := Apply(cfg, st, Notify);
            var s := st.output[0].stream;
            && FrameOK(cfg, st')
            && s in st.streams
            && var v := ViewOf(st, s);
            && v.out != []
            && ViewOf(st', s) == v.(out := v.out[1..], noted := v.noted + [v.out[0]], committing := Some(v.out[0]))
            && (forall t :: t in st.streams && t != s ==> ViewOf(st', t) == ViewOf(st, t))
  {
    var st' := Apply(cfg, st, Notify);
    var e := st.output[0];
    assert e in st.output;
    NumbersCons(st.output, e.stream);
    NumbersSnoc(st.notified, e, e.stream);
    forall t | t in st.streams && t != e.stream
      ensures ViewOf(st', t) == ViewOf(st, t)
    {
      NumbersCons(st.output, t);
      NumbersSnoc(st.notified, e, t);
    }
  }

  lemma NotifyKeeps(cfg: Config, st: State)
    requires Inv(cfg, st) && Enabled(cfg, st, Notify)
    ensures Inv(cfg, Apply(cfg, st, Notify))
  {
    NotifySees(cfg, st);
    var s := st.output[0].stream;
    NotifyViewKeeps(cfg, s, ViewOf(st, s));
  }

  lemma CommitSees(cfg: Config, st: State)
    requires FrameOK(cfg, st) && Enabled(cfg, st, CommitStep)
    ensures var st' := Apply(cfg, st, CommitStep);
            var s := st.committing.value.stream;
            && FrameOK(cfg, st')
            && ViewOf(st, s).committing.Some?
            && ViewOf(st', s) == AfterCommit(ViewOf(st, s))
            && (forall t :: t in st.streams && t != s ==> ViewOf(st', t) == ViewOf(st, t))
  {
    var st' := Apply(cfg, st, CommitStep);
    var s := st.committing.value.stream;
    ChargeOther(st.charged, s, s);
    forall t | t in st.streams && t != s
      ensures ViewOf(st', t) == ViewOf(st, t)
    {
      ChargeOther(st.charged, s, t);
    }
  }

  lemma CommitKeeps(cfg: Config, st: State)
    requires Inv(cfg, st) && Enabled(cfg, st, CommitStep)
    ensures Inv(cfg, Apply(cfg, st, CommitStep))
  {
    CommitSees(cfg, st);
    var s := st.committing.value.stream;
    CommitViewKeeps(cfg, s, ViewOf(st, s));
  }

  // ------------------------------------------------------- moves of processors

  lemma LiftView(cfg: Config, st: State, p: ProcId, w: Verdict)
    requires Inv(cfg, st) && Enabled(cfg, st, Run(p, w))
    ensures var pr := st.procs[p];
            var s := pr.sid;
            && s in st.streams && ViewOf(st, s).proc == Some(pr)
            && CanRun(cfg, s, ViewOf(st, s), w)
            && FlowOK(ViewOf(st, s))
            && Tracked(st, p)
  {
    var s := st.procs[p].sid;
    assert StreamOK(cfg, s, ViewOf(st, s));
  }

  /** The stream's place in the blocked list follows its processor. */
  ghost predicate Tracked(st: State, p: ProcId) {
    p in st.procs && st.procs[p].pc != Idle && (st.procs[p].sid in st.blocks.blocked <==> st.procs[p].pc.Waiting?)
  }

  lemma BlocksKeep(cfg: Config, st: State, p: ProcId, o: Outcome)
    requires BlocksOK(st.blocks) && Tracked(st, p)
    ensures var s := st.procs[p].sid;
            var (b, bad) := Blocks(st.blocks, s, st.procs[p].pc, o.proc.pc);
            && !bad && BlocksOK(b)
            && (forall t :: t != s ==> (t in b.blocked <==> t in st.blocks.blocked))
            && (s in b.blocked <==> o.proc.pc.Waiting?)
  {
    var s := st.procs[p].sid;
    if !st.procs[p].pc.Waiting? && o.proc.pc.Waiting? {
      MakeBlockedKeeps(st.blocks, s);
    } else if st.procs[p].pc.Waiting? && !o.proc.pc.Waiting? {
      ResetBlockedKeeps(st.blocks, s);
    }
  }

  lemma OutputSees(output: seq<Event>, s: StreamId, o: Outcome, t: StreamId)
    requires EmitOK(s, o)
    ensures Numbers(output + o.emit, t) == Numbers(output, t) + if t == s then Emitted(o) else []
  {
    if |o.emit| == 1 {
      assert o.emit == [o.emit[0]] && o.emit[0] in o.emit;
      NumbersSnoc(output, o.emit[0], t);
    } else {
      assert output + o.emit == output;
    }
  }

  /** What the system shows of the stream whose processor moved. */
  lemma MovedView(cfg: Config, st: State, p: ProcId, o: Outcome)
    requires FrameOK(cfg, st) && Tracked(st, p) && EmitOK(st.procs[p].sid, o)
    ensures var s := st.procs[p].sid;
            && s in st.streams && ViewOf(st, s).proc == Some(st.procs[p])
            && ViewOf(Lift(st, p, o), s) == AfterMove(ViewOf(st, s), o)
  {
    var s := st.procs[p].sid;
    BlocksKeep(cfg, st, p, o);
    ChargeOther(st.charged, s, s);
    OutputSees(st.output, s, o, s);
  }

  /** ... and that it shows the same of every other stream. */
  lemma OtherView(cfg: Config, st: State, p: ProcId, o: Outcome, t: StreamId)
    requires BlocksOK(st.blocks) && Tracked(st, p) && EmitOK(st.procs[p].sid, o)
    requires t in st.streams && t != st.procs[p].sid
    requires t in st.owner ==> st.owner[t] != p
    ensures ViewOf(Lift(st, p, o), t) == ViewOf(st, t)
  {
    var s, st' := st.procs[p].sid, Lift(st, p, o);
    BlocksKeep(cfg, st, p, o);
    ChargeOther(st.charged, s, t);
    OutputSees(st.output, s, o, t);
    OwnerSees(st, st', t);
  }

  lemma LiftPaired(cfg: Config, st: State, p: ProcId, o: Outcome)
    requires Paired(cfg, st) && p in st.procs && st.procs[p].pc != Idle
    requires if o.proc.pc == Idle then IdleOK(cfg, o.proc) else o.proc.sid == st.procs[p].sid
    ensures Paired(cfg, Lift(st, p, o))
  {
  }

  lemma LiftFrame(cfg: Config, st: State, p: ProcId, o: Outcome)
    requires FrameOK(cfg, st) && Tracked(st, p)
    requires EmitOK(st.procs[p].sid, o) && !o.panic
    requires if o.proc.pc == Idle then IdleOK(cfg, o.proc) else o.proc.sid == st.procs[p].sid
    ensures FrameOK(cfg, Lift(st, p, o))
    ensures Lift(st, p, o).streams.Keys == st.streams.Keys
  {
    BlocksKeep(cfg, st, p, o);
    LiftPaired(cfg, st, p, o);
    assert st.procs[p].sid in st.streams;
  }

  lemma RunKeeps(cfg: Config, st: State, p: ProcId, w: Verdict)
    requires Inv(cfg, st) && Enabled(cfg, st, Run(p, w))
    ensures Inv(cfg, Apply(cfg, st, Run(p, w)))
  {
    var pr := st.procs[p];
    var s := pr.sid;
    var o := Move(cfg, pr, st.streams[s], w);
    LiftView(cfg, st, p, w);
    MoveKeeps(cfg, s, ViewOf(st, s), w);
    LiftFrame(cfg, st, p, o);
    MovedView(cfg, st, p, o);
    forall t | t in st.streams && t != s
      ensures StreamOK(cfg, t, ViewOf(Lift(st, p, o), t))
    {
      assert t in st.owner ==> st.owner[t] != p;
      OtherView(cfg, st, p, o, t);
    }
  }

  // -------------------------------------------------------------------- runs

  /** Every step keeps the invariant. */
  lemma StepKeeps(cfg: Config, st: State, step: Step)
    requires Inv(cfg, st) && Enabled(cfg, st, step)
    ensures Inv(cfg, Apply(cfg, st, step))
  {
    match step
    case PutStep(s) => PutKeeps(cfg, st, s);
    case AddProc(p) => AddProcKeeps(cfg, st, p);
    case TakeCharged(p) => TakeChargedKeeps(cfg, st, p);
    case Run(p, w) => RunKeeps(cfg, st, p, w);
    case TimeoutStep(s) => TimeoutKeeps(cfg, st, s);
    case Notify => NotifyKeeps(cfg, st);
    case CommitStep => CommitKeeps(cfg, st);
  }

  /** Every run ends in a state where the invariant holds. */
  lemma {:induction false} RunInv(cfg: Config, steps: seq<Step>)
    requires ValidRun(cfg, steps)
    ensures Inv(cfg, Exec(cfg, steps))
  {
    if steps != [] {
      var l := |steps| - 1;
      RunInv(cfg, steps[..l]);
      StepKeeps(cfg, Exec(cfg, steps[..l]), steps[l]);
    }
  }
}
