/** Two ways in which a timeout event fails its purpose, and exactly when it serves it. */
module Timeouts {
  import opened Basics
  import opened Streams
  import opened StreamsInv
  import opened StreamsSteps

  // -------------------------------------------------- the heartbeat's stale copy

  /** The heartbeat copies the blocked list and then calls `tryUnblock` on each entry of the
      copy; by then a stream may no longer wait. What holds of a stream survives the call
      exactly when the stream still waits or has an event. */
  lemma TryUnblockSafeIff(cfg: Config, s: StreamId, v: View)
    requires StreamOK(cfg, s, v)
    ensures StreamOK(cfg, s, v.(stream := TryUnblock(s, v.stream).stream)) <==> v.blocked || v.stream.queue != []
  {
    if v.blocked {
      TimeoutView(cfg, s, v);
    } else if v.stream.queue != [] {
      assert v.(stream := TryUnblock(s, v.stream).stream) == v;
    } else {
      var v' := v.(stream := TryUnblock(s, v.stream).stream);
      var x := v.stream;
      var rest := Range(s, x.awaySeq, x.currentSeq);
      assert rest == [];
      assert !QueueOK(s, v');
    }
  }

  /** Nobody has the stream, and it is not in the charged list, but it has events. */
  ghost predicate Stranded(st: State, s: StreamId) {
    && s in st.streams
    && !st.streams[s].isAttached && !st.streams[s].isDetaching
    && st.streams[s].queue != []
    && s !in st.charged
    && (forall p :: p in st.procs && st.procs[p].pc != Idle ==> st.procs[p].sid != s)
  }

  /** A stale `tryUnblock` strands every stream that was left: it puts the timeout event
      into the queue and charges nobody. */
  lemma StaleTimeoutStrands(cfg: Config, steps: seq<Step>, s: StreamId)
    requires ValidRun(cfg, steps)
    requires s in Exec(cfg, steps).streams
    requires !Exec(cfg, steps).streams[s].isAttached && Exec(cfg, steps).streams[s].queue == []
    ensures var st := Exec(cfg, steps);
            Stranded(WithEffect(st, s, TryUnblock(s, st.streams[s])), s)
  {
    RunInv(cfg, steps);
    var st := Exec(cfg, steps);
    var v := ViewOf(st, s);
    assert StreamOK(cfg, s, v);
    assert v.proc.None?;
    assert multiset(st.charged)[s] == 0;
    assert s !in st.owner;
  }

  /** A stranded stream stays stranded whatever happens; its later events are never
      processed. */
  lemma StrandedForever(cfg: Config, st: State, s: StreamId, step: Step)
    requires Stranded(st, s) && Enabled(cfg, st, step)
    ensures Stranded(Apply(cfg, st, step), s)
    ensures st.streams[s].queue <= Apply(cfg, st, step).streams[s].queue
  {
    match step
    case Run(p, v) =>
      var pr := st.procs[p];
      assert pr.sid != s;
      MoveKeepsStream(cfg, pr, st.streams[pr.sid], v);
    case _ =>
  }

  /** A processor leaves its stream or keeps it; it never changes to another one. */
  lemma MoveKeepsStream(cfg: Config, pr: Proc, x: Stream, v: Verdict)
    requires |pr.busy| == cfg.actions && CanMove(pr, x)
    requires pr.pc.Returned? ==> pr.pc.index < cfg.actions
    ensures Move(cfg, pr, x, v).proc.sid == pr.sid
  {
  }

  // ----------------------------------------- the action that gets the timeout

  /** The event is stuck behind the holding action: its processor sleeps with an empty
      queue, and the next timeout goes to action `last`. */
  ghost predicate HoldsAsleep(cfg: Config, s: StreamId, v: View, last: nat) {
    && StreamOK(cfg, s, v)
    && v.proc.Some? && v.proc.value.pc == Waiting(last)
    && v.proc.value.held.Some?
    && cfg.kind == Join
    && v.stream.queue == []
  }

  /** What the timeout does to the sleeping processor, up to the point where action `last`
      gets the event. */
  function Woken(pr: Proc, s: StreamId, x: Stream, last: nat): Proc {
    pr.(pc := Acting(Event(s, x.commitSeq, true), last))
  }

  /** The timeout wakes the processor and changes nothing in the stream. */
  lemma TimeoutWakes(cfg: Config, s: StreamId, v: View, last: nat, w: Verdict)
    requires HoldsAsleep(cfg, s, v, last)
    ensures var x := TryUnblock(s, v.stream).stream;
            && CanMove(v.proc.value, x)
            && var o := Move(cfg, v.proc.value, x, w);
            o.proc == Woken(v.proc.value, s, v.stream, last) && o.stream == v.stream && o.emit == [] && !o.panic
  {
    var x := TryUnblock(s, v.stream).stream;
    assert x.queue[1..] == [];
    assert v.stream.queue == [];
  }

  /** The moves of a processor that has a timeout for action `pr.pc.index`, when action `k` answers
      `vs[k]`: up to the flush of the holding action, or to the wait for the next event. */
  function Walk(cfg: Config, pr: Proc, x: Stream, vs: seq<Verdict>): (Proc, Stream)
    requires |pr.busy| == cfg.actions && cfg.holder < cfg.actions == |vs|
    requires pr.pc.Acting? && pr.pc.index <= cfg.holder
    decreases cfg.holder - pr.pc.index
  {
    var i := pr.pc.index;
    var o1 := Move(cfg, pr, x, vs[i]);
    if !(o1.proc.pc.Returned? && o1.proc.pc.index < cfg.actions && |o1.proc.busy| == cfg.actions) then
      (o1.proc, o1.stream)
    else
      var o2 := Move(cfg, o1.proc, o1.stream, DoPass);
      if o2.proc.pc.Acting? && i < o2.proc.pc.index <= cfg.holder && |o2.proc.busy| == cfg.actions
      then Walk(cfg, o2.proc, o2.stream, vs)
      else (o2.proc, o2.stream)
  }

  /** The answers open to the actions from `last` to the holding one: to a timeout they pass or
      discard. */
  ghost predicate Answers(cfg: Config, pr: Proc, last: nat, vs: seq<Verdict>) {
    && |vs| == cfg.actions
    && forall k :: last <= k <= cfg.holder && k < |vs| ==>
         pr.pc.Acting? && Allowed(cfg, pr.(pc := Acting(pr.pc.event, k)), vs[k])
  }

  /** The state in which the timeout reaches action `i`. */
  ghost predicate Reaches(cfg: Config, pr: Proc, i: nat) {
    && BusyOK(cfg, pr) && cfg.kind == Join && cfg.holder < cfg.actions && pr.busy[cfg.holder]
    && pr.joining && pr.held.Some?
    && pr.pc.Acting? && pr.pc.event.timeout && pr.pc.index == i <= cfg.holder
  }

  lemma PassedOn(cfg: Config, pr: Proc, x: Stream, i: nat, vs: seq<Verdict>)
    requires Reaches(cfg, pr, i) && i < cfg.holder && Answers(cfg, pr, i, vs) && vs[i] != DoDiscard
    ensures Walk(cfg, pr, x, vs) == Walk(cfg, pr.(pc := Acting(pr.pc.event, i + 1)), x, vs)
  {
    assert Allowed(cfg, pr.(pc := Acting(pr.pc.event, i)), vs[i]);
  }

  lemma Discarded(cfg: Config, pr: Proc, x: Stream, i: nat, vs: seq<Verdict>)
    requires Reaches(cfg, pr, i) && i < cfg.holder && |vs| == cfg.actions && vs[i] == DoDiscard
    ensures Walk(cfg, pr, x, vs) == (pr.(pc := Asking(i)), x)
  {
  }

  lemma Flushed(cfg: Config, pr: Proc, x: Stream, vs: seq<Verdict>)
    requires Reaches(cfg, pr, cfg.holder) && Answers(cfg, pr, cfg.holder, vs)
    ensures var r := Walk(cfg, pr, x, vs);
            r.0.pc.Flushing? && r.0.pc.flushed == pr.held.value && r.0.held.None? && r.1 == x
  {
    assert Allowed(cfg, pr.(pc := Acting(pr.pc.event, cfg.holder)), vs[cfg.holder]);
  }

  /** The first action from `i` on that discards, if it is in front of the holding one. */
  function FirstDiscard(vs: seq<Verdict>, i: nat, holder: nat): (k: nat)
    requires i <= holder <= |vs|
    ensures i <= k <= holder && (k < holder ==> vs[k] == DoDiscard)
    ensures forall j :: i <= j < k ==> vs[j] != DoDiscard
    decreases holder - i
  {
    if i == holder || vs[i] == DoDiscard then i else FirstDiscard(vs, i + 1, holder)
  }

  /** How the walk of a timeout ends when `k` is the first action that discards it. */
  ghost predicate EndsAt(cfg: Config, pr: Proc, x: Stream, k: nat, r: (Proc, Stream)) {
    && r.1 == x
    && if k < cfg.holder then r.0 == pr.(pc := Asking(k))
       else r.0.pc.Flushing? && pr.held.Some? && r.0.pc.flushed == pr.held.value && r.0.held.None?
  }

  lemma {:induction false} WalkEnds(cfg: Config, pr: Proc, x: Stream, i: nat, vs: seq<Verdict>)
    requires Reaches(cfg, pr, i) && Answers(cfg, pr, i, vs)
    ensures EndsAt(cfg, pr, x, FirstDiscard(vs, i, cfg.holder), Walk(cfg, pr, x, vs))
    decreases cfg.holder - i
  {
    if i == cfg.holder {
      Flushed(cfg, pr, x, vs);
    } else if vs[i] == DoDiscard {
      Discarded(cfg, pr, x, i, vs);
    } else {
      PassedOn(cfg, pr, x, i, vs);
      WalkEnds(cfg, pr.(pc := Acting(pr.pc.event, i + 1)), x, i + 1, vs);
    }
  }

  /** Exactly when a timeout serves its purpose: it makes the holding action flush the held event if
      and only if no action from `last` up to it discards it. Otherwise the first one that does
      sends the processor back to wait, with the event still held, and the stream is unchanged. */
  lemma TimeoutFlushesIff(cfg: Config, s: StreamId, v: View, last: nat, vs: seq<Verdict>)
    requires HoldsAsleep(cfg, s, v, last)
    requires Answers(cfg, Woken(v.proc.value, s, v.stream, last), last, vs)
    ensures var r := Walk(cfg, Woken(v.proc.value, s, v.stream, last), v.stream, vs);
            var k := FirstDiscard(vs, last, cfg.holder);
            && r.1 == v.stream
            && (r.0.pc.Flushing? <==> forall j :: last <= j < cfg.holder ==> vs[j] != DoDiscard)
            && (r.0.pc.Flushing? ==> r.0.pc.flushed == v.proc.value.held.value && r.0.held.None?)
            && (!r.0.pc.Flushing? ==> k < cfg.holder && r.0 == v.proc.value.(pc := Asking(k)))
  {
    WalkEnds(cfg, Woken(v.proc.value, s, v.stream, last), v.stream, last, vs);
  }

  /** An action in front of the holding one that discards the timeout sends the processor
      back to sleep in the very state it was in: the held event is not flushed, and the next
      timeout goes to the same action again. */
  lemma TimeoutSwallowed(cfg: Config, s: StreamId, v: View, last: nat)
    requires HoldsAsleep(cfg, s, v, last) && last < cfg.holder
    ensures var pr := Woken(v.proc.value, s, v.stream, last);
            && Allowed(cfg, pr, DoDiscard)
            && var o1 := Move(cfg, pr, v.stream, DoDiscard);
            && o1.proc.pc.Returned? && o1.proc.pc.index < cfg.actions && |o1.proc.busy| == cfg.actions
            && var o2 := Move(cfg, o1.proc, o1.stream, DoPass);
            && o2.proc.pc == Asking(last) && |o2.proc.busy| == cfg.actions
            && var o3 := Move(cfg, o2.proc, o2.stream, DoPass);
            && o3.proc == v.proc.value && o3.stream == v.stream
            && o1.emit == [] && o2.emit == [] && o3.emit == []
  {
    var pr := Woken(v.proc.value, s, v.stream, last);
    var o1 := Move(cfg, pr, v.stream, DoDiscard);
    var o2 := Move(cfg, o1.proc, o1.stream, DoPass);
    assert pr.busy[last] == false;
    assert o2.proc == v.proc.value.(pc := Asking(last));
  }

  // ------------------------------------------- what a stale call does to a taken stream

  /** What `tryUnblock` does at once. Nothing if the stream has events; else it panics exactly if an
      event is away that is not committed. If it does not, and nobody has the stream, the timeout is
      in a queue that nobody was charged for. */
  lemma StaleCallAtOnce(cfg: Config, s: StreamId, v: View)
    requires StreamOK(cfg, s, v)
    ensures var f := TryUnblock(s, v.stream);
            && (f.panic <==> v.stream.queue == [] && v.stream.commitSeq < v.stream.awaySeq)
            && (f.stream == v.stream <==> v.stream.queue != [])
            && (v.stream.queue == [] && v.proc.None? && !f.panic ==>
                  !f.stream.isAttached && !f.stream.isDetaching && f.stream.queue != [] && v.charged == 0)
  {
  }

  /** A processor that is about to wait takes the timeout as if it had waited. */
  lemma StaleCallWhileAsking(cfg: Config, s: StreamId, v: View, w: Verdict)
    requires StreamOK(cfg, s, v) && v.stream.queue == []
    requires v.proc.Some? && v.proc.value.pc.Asking?
    ensures var pr := v.proc.value;
            var o := Move(cfg, pr, TryUnblock(s, v.stream).stream, w);
            && o == Moved(Woken(pr, s, v.stream, pr.pc.last), v.stream)
            && StreamOK(cfg, s, v.(proc := Some(o.proc)))
  {
    var x := TryUnblock(s, v.stream).stream;
    assert x.queue[1..] == [];
    assert v.stream.queue == [];
    assert v.stream == x.(queue := x.queue[1..], awaySeq := x.queue[0].seqID);
    var pr := v.proc.value;
    assert InHands(Woken(pr, s, v.stream, pr.pc.last)) == InHands(pr);
    assert Flow(v.(proc := Some(Woken(pr, s, v.stream, pr.pc.last)))) == Flow(v);
  }

  /** A processor that is done with its events takes it too, with nothing held anywhere. */
  lemma StaleCallWhileDischarging(cfg: Config, s: StreamId, v: View, w: Verdict)
    requires StreamOK(cfg, s, v) && v.stream.queue == [] && v.stream.commitSeq == v.stream.awaySeq
    requires v.proc.Some? && v.proc.value.pc.Discharging? && cfg.holder < cfg.actions
    ensures var pr := v.proc.value;
            var o := Move(cfg, pr, TryUnblock(s, v.stream).stream, w);
            o == Moved(Woken(pr, s, v.stream, 0), v.stream) && Strays(cfg, o.proc, 0)
  {
    var x := TryUnblock(s, v.stream).stream;
    assert x.queue[1..] == [];
    assert v.stream.queue == [];
    assert v.stream == x.(queue := x.queue[1..], awaySeq := x.queue[0].seqID);
  }

  /** A timeout at action `i` while no action holds anything. */
  ghost predicate Strays(cfg: Config, pr: Proc, i: nat) {
    && BusyOK(cfg, pr) && Quiet(cfg, pr) && cfg.holder < cfg.actions
    && pr.pc.Acting? && pr.pc.event.timeout && pr.pc.index == i <= cfg.holder
  }

  /** How its walk ends when `k` is the first action that discards it: it is gone, or it reaches join,
      which panics. */
  ghost predicate StrayEndsAt(cfg: Config, pr: Proc, x: Stream, k: nat, vs: seq<Verdict>, r: (Proc, Stream)) {
    && pr.pc.Acting? && |pr.busy| == cfg.actions == |vs| && cfg.holder < cfg.actions
    && if k < cfg.holder || cfg.kind == Multiline then r == (pr.(pc := Discharging), x)
       else
         && r == (pr.(pc := Acting(pr.pc.event, cfg.holder)), x)
         && Act(cfg, r.0, x, pr.pc.event, cfg.holder, vs[cfg.holder]).panic
  }

  lemma StrayPassedOn(cfg: Config, pr: Proc, x: Stream, i: nat, vs: seq<Verdict>)
    requires Strays(cfg, pr, i) && i < cfg.holder && Answers(cfg, pr, i, vs) && vs[i] != DoDiscard
    ensures Walk(cfg, pr, x, vs) == Walk(cfg, pr.(pc := Acting(pr.pc.event, i + 1)), x, vs)
  {
    assert Allowed(cfg, pr.(pc := Acting(pr.pc.event, i)), vs[i]);
  }

  lemma StrayStops(cfg: Config, pr: Proc, x: Stream, i: nat, vs: seq<Verdict>)
    requires Strays(cfg, pr, i) && Answers(cfg, pr, i, vs) && (i == cfg.holder || vs[i] == DoDiscard)
    ensures StrayEndsAt(cfg, pr, x, i, vs, Walk(cfg, pr, x, vs))
  {
    assert Allowed(cfg, pr.(pc := Acting(pr.pc.event, i)), vs[i]);
  }

  /** A stray timeout makes join panic exactly if no action in front of it discards it. With the k8s
      action in place of join it does nothing. */
  lemma {:induction false} StrayEnds(cfg: Config, pr: Proc, x: Stream, i: nat, vs: seq<Verdict>)
    requires Strays(cfg, pr, i) && Answers(cfg, pr, i, vs)
    ensures StrayEndsAt(cfg, pr, x, FirstDiscard(vs, i, cfg.holder), vs, Walk(cfg, pr, x, vs))
    decreases cfg.holder - i
  {
    if i == cfg.holder || vs[i] == DoDiscard {
      StrayStops(cfg, pr, x, i, vs);
    } else {
      StrayPassedOn(cfg, pr, x, i, vs);
      StrayEnds(cfg, pr.(pc := Acting(pr.pc.event, i + 1)), x, i + 1, vs);
    }
  }

  /** One stream, one processor that has it, and nothing else going on. */
  function AloneWith(pr: Proc, x: Stream, b: BlockList): State {
    State(map[0 := x], map[0 := pr], map[0 := 0], [], b, [], None, [], false)
  }

  const UNBLOCKED := BlockList([], map[])

  function Alone(pr: Proc, x: Stream): State {
    AloneWith(pr, x, UNBLOCKED)
  }

  lemma AloneStep(cfg: Config, pr: Proc, x: Stream, b: BlockList, v: Verdict, pr': Proc, x': Stream)
    requires Enabled(cfg, AloneWith(pr, x, b), Run(0, v)) && pr.sid == 0
    requires Move(cfg, pr, x, v) == Moved(pr', x')
    requires !pr.pc.Waiting? && !pr'.pc.Waiting? && pr'.pc != Idle
    ensures Apply(cfg, AloneWith(pr, x, b), Run(0, v)) == AloneWith(pr', x', b)
  {
  }

  lemma RunsWith(cfg: Config, steps: seq<Step>, pr: Proc, x: Stream, b: BlockList, v: Verdict, pr': Proc, x': Stream)
      returns (steps': seq<Step>)
    requires ValidRun(cfg, steps) && Exec(cfg, steps) == AloneWith(pr, x, b)
    requires Enabled(cfg, AloneWith(pr, x, b), Run(0, v)) && pr.sid == 0
    requires Move(cfg, pr, x, v) == Moved(pr', x')
    requires !pr.pc.Waiting? && !pr'.pc.Waiting? && pr'.pc != Idle
    ensures steps < steps' && ValidRun(cfg, steps') && Exec(cfg, steps') == AloneWith(pr', x', b)
  {
    var st;
    AloneStep(cfg, pr, x, b, v, pr', x');
    steps', st := Next(cfg, steps, AloneWith(pr, x, b), Run(0, v));
  }

  lemma AloneRuns(cfg: Config, steps: seq<Step>, pr: Proc, x: Stream, v: Verdict, pr': Proc, x': Stream)
      returns (steps': seq<Step>)
    requires ValidRun(cfg, steps) && Exec(cfg, steps) == Alone(pr, x)
    requires Enabled(cfg, Alone(pr, x), Run(0, v)) && pr.sid == 0
    requires Move(cfg, pr, x, v) == Moved(pr', x')
    requires !pr.pc.Waiting? && !pr'.pc.Waiting? && pr'.pc != Idle
    ensures ValidRun(cfg, steps') && Exec(cfg, steps') == Alone(pr', x')
  {
    steps' := RunsWith(cfg, steps, pr, x, UNBLOCKED, v, pr', x');
  }

  lemma FirstEvent(cfg: Config) returns (steps: seq<Step>)
    ensures ValidRun(cfg, steps)
    ensures Exec(cfg, steps) == Alone(NewProc(cfg).(pc := Joined), Put(0, NEW_STREAM).stream)
  {
    var st := START;
    steps := [];
    steps, st := Next(cfg, steps, st, AddProc(0));
    steps, st := Next(cfg, steps, st, PutStep(0));
    assert st.charged == [0];
    steps, st := Next(cfg, steps, st, TakeCharged(0));
    assert st == Alone(NewProc(cfg).(pc := Joined), Put(0, NEW_STREAM).stream);
  }

  const SWALLOWER := Config(2, 1, Join)
  const E1 := Event(0, 1, false)
  const E2 := Event(0, 2, false)
  const HOLDING := [false, true]

  const FREE := [false, false]

  /** The processor takes the first event. */
  lemma FirstTaken() returns (steps: seq<Step>)
    ensures ValidRun(SWALLOWER, steps)
    ensures Exec(SWALLOWER, steps)
         == Alone(Proc(Acting(E1, 0), 0, FREE, 0, false, None), Stream(1, 0, 1, false, true, [], {}))
  {
    var cfg := SWALLOWER;
    steps := FirstEvent(cfg);
    assert NewProc(cfg) == Proc(Idle, 0, FREE, 0, false, None);
    var x := Stream(1, 0, 0, false, true, [E1], {});
    assert [] + [E1] == [E1] && [E1][1..] == [];
    steps := AloneRuns(cfg, steps, Proc(Joined, 0, FREE, 0, false, None), Put(0, NEW_STREAM).stream, DoPass,
                       Proc(Discharging, 0, FREE, 0, false, None), x);
    steps := AloneRuns(cfg, steps, Proc(Discharging, 0, FREE, 0, false, None), x, DoPass,
                       Proc(Acting(E1, 0), 0, FREE, 0, false, None), Stream(1, 0, 1, false, true, [], {}));
  }

  /** Join, the second action, holds the first event. */
  lemma FirstHeld() returns (steps: seq<Step>)
    ensures ValidRun(SWALLOWER, steps)
    ensures Exec(SWALLOWER, steps)
         == Alone(Proc(Asking(1), 0, HOLDING, 1, true, Some(E1)), Stream(1, 1, 1, false, true, [], {}))
  {
    var cfg := SWALLOWER;
    steps := FirstTaken();
    var y := Stream(1, 0, 1, false, true, [], {});
    steps := AloneRuns(cfg, steps, Proc(Acting(E1, 0), 0, FREE, 0, false, None), y, NotMatched,
                       Proc(Acting(E1, 1), 0, FREE, 0, false, None), y);
    steps := AloneRuns(cfg, steps, Proc(Acting(E1, 1), 0, FREE, 0, false, None), y, Begin,
                       Proc(Returned(E1, 1, Hold), 0, FREE, 0, true, Some(E1)), y);
    assert FREE[1 := true] == HOLDING;
    steps := AloneRuns(cfg, steps, Proc(Returned(E1, 1, Hold), 0, FREE, 0, true, Some(E1)), y, DoPass,
                       Proc(Asking(1), 0, HOLDING, 1, true, Some(E1)), Stream(1, 1, 1, false, true, [], {}));
  }

  const JOIN_HOLDS := Proc(Asking(1), 0, HOLDING, 1, true, Some(E1))

  /** The next event comes while join waits. */
  lemma SecondPut() returns (steps: seq<Step>)
    ensures ValidRun(SWALLOWER, steps)
    ensures Exec(SWALLOWER, steps) == Alone(JOIN_HOLDS, Stream(2, 1, 1, false, true, [E2], {}))
  {
    var x := Stream(1, 1, 1, false, true, [], {});
    steps := FirstHeld();
    var st;
    steps, st := Next(SWALLOWER, steps, Alone(JOIN_HOLDS, x), PutStep(0));
    assert [] + [E2] == [E2];
    assert Put(0, x) == Effect(Stream(2, 1, 1, false, true, [E2], {}), false, false);
    assert st == Alone(JOIN_HOLDS, Stream(2, 1, 1, false, true, [E2], {}));
  }

  /** The processor takes it. */
  lemma SecondTaken() returns (steps: seq<Step>)
    ensures ValidRun(SWALLOWER, steps)
    ensures Exec(SWALLOWER, steps)
         == Alone(JOIN_HOLDS.(pc := Acting(E2, 0)), Stream(2, 1, 2, false, true, [], {}))
  {
    steps := SecondPut();
    assert [E2][1..] == [];
    steps := AloneRuns(SWALLOWER, steps, JOIN_HOLDS, Stream(2, 1, 1, false, true, [E2], {}), DoPass,
                       JOIN_HOLDS.(pc := Acting(E2, 0)), Stream(2, 1, 2, false, true, [], {}));
  }

  /** The first action discards it. */
  lemma SecondDiscarded() returns (steps: seq<Step>)
    ensures ValidRun(SWALLOWER, steps)
    ensures Exec(SWALLOWER, steps)
         == Alone(JOIN_HOLDS.(pc := Asking(0)), Stream(2, 2, 2, false, true, [], {2}))
  {
    var pr := JOIN_HOLDS;
    var y := Stream(2, 1, 2, false, true, [], {});
    steps := SecondTaken();
    steps := AloneRuns(SWALLOWER, steps, pr.(pc := Acting(E2, 0)), y, DoDiscard,
                       pr.(pc := Returned(E2, 0, Discard)), y);
    steps := AloneRuns(SWALLOWER, steps, pr.(pc := Returned(E2, 0, Discard)), y, DoPass,
                       pr.(pc := Asking(0)), Stream(2, 2, 2, false, true, [], {2}));
  }

  /** A run that gets there: with a discarding action in front of join, an event that join
      holds is followed by one that the first action discards. */
  lemma SwallowingRun() returns (steps: seq<Step>)
    ensures ValidRun(SWALLOWER, steps)
    ensures 0 in Exec(SWALLOWER, steps).streams
    ensures HoldsAsleep(SWALLOWER, 0, ViewOf(Exec(SWALLOWER, steps), 0), 0)
  {
    var cfg := SWALLOWER;
    var pr := JOIN_HOLDS.(pc := Asking(0));
    var z := Stream(2, 2, 2, false, true, [], {2});
    steps := SecondDiscarded();
    var st;
    steps, st := Next(cfg, steps, Alone(pr, z), Run(0, DoPass));
    RunInv(cfg, steps);
    assert StreamOK(cfg, 0, ViewOf(st, 0));
  }

  lemma Next(cfg: Config, steps: seq<Step>, st: State, step: Step) returns (steps': seq<Step>, st': State)
    requires ValidRun(cfg, steps) && Exec(cfg, steps) == st && Enabled(cfg, st, step)
    ensures steps' == steps + [step] && ValidRun(cfg, steps') && Exec(cfg, steps') == st'
    ensures st' == Apply(cfg, st, step)
  {
    steps', st' := steps + [step], Apply(cfg, st, step);
    assert steps'[..|steps'| - 1] == steps;
  }

  // ------------------------------------------------------ a run with a stale entry

  const ASSEMBLER := Config(1, 0, Multiline)

  const FREE_ONE := Proc(Discharging, 0, [false], 0, false, None)

  lemma TakenAlone() returns (steps: seq<Step>)
    ensures ValidRun(ASSEMBLER, steps)
    ensures Exec(ASSEMBLER, steps) == Alone(FREE_ONE.(pc := Acting(E1, 0)), Stream(1, 0, 1, false, true, [], {}))
  {
    var cfg := ASSEMBLER;
    steps := FirstEvent(cfg);
    assert NewProc(cfg) == FREE_ONE.(pc := Idle);
    var x := Stream(1, 0, 0, false, true, [E1], {});
    assert [] + [E1] == [E1] && [E1][1..] == [];
    steps := AloneRuns(cfg, steps, FREE_ONE.(pc := Joined), Put(0, NEW_STREAM).stream, DoPass, FREE_ONE, x);
    steps := AloneRuns(cfg, steps, FREE_ONE, x, DoPass, FREE_ONE.(pc := Acting(E1, 0)),
                       Stream(1, 0, 1, false, true, [], {}));
  }

  /** The k8s action collapses the first event. */
  lemma Collapsed() returns (steps: seq<Step>)
    ensures ValidRun(ASSEMBLER, steps)
    ensures Exec(ASSEMBLER, steps)
         == Alone(Proc(Asking(0), 0, [true], 1, false, None), Stream(1, 1, 1, false, true, [], {1}))
  {
    var cfg := ASSEMBLER;
    var y := Stream(1, 0, 1, false, true, [], {});
    steps := TakenAlone();
    var collapsing := FREE_ONE.(pc := Returned(E1, 0, Collapse));
    steps := AloneRuns(cfg, steps, FREE_ONE.(pc := Acting(E1, 0)), y, Continue, collapsing, y);
    assert [false][0 := true] == [true];
    steps := AloneRuns(cfg, steps, collapsing, y, DoPass,
                       Proc(Asking(0), 0, [true], 1, false, None), Stream(1, 1, 1, false, true, [], {1}));
  }

  const ASLEEP := Proc(Waiting(0), 0, [true], 1, false, None)

  /** The stream waits, and is on the blocked list. */
  lemma PutToSleep() returns (steps: seq<Step>)
    ensures ValidRun(ASSEMBLER, steps)
    ensures Exec(ASSEMBLER, steps)
         == AloneWith(ASLEEP, Stream(1, 1, 1, false, true, [], {1}), LISTED)
  {
    steps := Collapsed();
    var st;
    var x := Stream(1, 1, 1, false, true, [], {1});
    steps, st := Next(ASSEMBLER, steps, Alone(Proc(Asking(0), 0, [true], 1, false, None), x), Run(0, DoPass));
    assert MakeBlocked(UNBLOCKED, 0) == LISTED;
    assert st == AloneWith(ASLEEP, x, LISTED);
  }

  const CLEARED := BlockList([], map[0 := -1])

  const LISTED := BlockList([0], map[0 := 0])

  lemma PutWhileAsleep(before: seq<Step>) returns (steps: seq<Step>)
    requires ValidRun(ASSEMBLER, before)
    requires Exec(ASSEMBLER, before) == AloneWith(ASLEEP, Stream(1, 1, 1, false, true, [], {1}), LISTED)
    ensures before < steps && ValidRun(ASSEMBLER, steps)
    ensures Exec(ASSEMBLER, steps) == AloneWith(ASLEEP, Stream(2, 1, 1, false, true, [E2], {1}), LISTED)
  {
    var st;
    var x := Stream(1, 1, 1, false, true, [], {1});
    steps, st := Next(ASSEMBLER, before, AloneWith(ASLEEP, x, LISTED), PutStep(0));
    assert [] + [E2] == [E2];
    assert Put(0, x) == Effect(Stream(2, 1, 1, false, true, [E2], {1}), false, false);
    assert st == AloneWith(ASLEEP, Stream(2, 1, 1, false, true, [E2], {1}), LISTED);
  }

  lemma WakeStep()
    ensures var st := AloneWith(ASLEEP, Stream(2, 1, 1, false, true, [E2], {1}), LISTED);
            && Enabled(ASSEMBLER, st, Run(0, DoPass))
            && Apply(ASSEMBLER, st, Run(0, DoPass))
            == AloneWith(ASLEEP.(pc := Acting(E2, 0)), Stream(2, 1, 2, false, true, [], {1}), CLEARED)
  {
    var x := Stream(2, 1, 1, false, true, [E2], {1});
    assert [E2][1..] == [];
    assert Move(ASSEMBLER, ASLEEP, x, DoPass)
        == Moved(ASLEEP.(pc := Acting(E2, 0)), Stream(2, 1, 2, false, true, [], {1}));
    assert ResetBlocked(LISTED, 0) == CLEARED;
  }

  /** The next event wakes it. */
  lemma WokenUp(before: seq<Step>) returns (steps: seq<Step>)
    requires ValidRun(ASSEMBLER, before)
    requires Exec(ASSEMBLER, before) == AloneWith(ASLEEP, Stream(2, 1, 1, false, true, [E2], {1}), LISTED)
    ensures before < steps && ValidRun(ASSEMBLER, steps)
    ensures Exec(ASSEMBLER, steps)
         == AloneWith(ASLEEP.(pc := Acting(E2, 0)), Stream(2, 1, 2, false, true, [], {1}), CLEARED)
  {
    var st;
    WakeStep();
    var x := Stream(2, 1, 1, false, true, [E2], {1});
    steps, st := Next(ASSEMBLER, before, AloneWith(ASLEEP, x, LISTED), Run(0, DoPass));
  }

  /** The action lets go of it. */
  lemma Released(before: seq<Step>) returns (steps: seq<Step>)
    requires ValidRun(ASSEMBLER, before)
    requires Exec(ASSEMBLER, before)
          == AloneWith(ASLEEP.(pc := Acting(E2, 0)), Stream(2, 1, 2, false, true, [], {1}), CLEARED)
    ensures before < steps && ValidRun(ASSEMBLER, steps)
    ensures Exec(ASSEMBLER, steps) == AloneWith(FREE_ONE, Stream(2, 2, 2, false, true, [], {1, 2}), CLEARED)
  {
    var cfg := ASSEMBLER;
    var y := Stream(2, 1, 2, false, true, [], {1});
    var acting, back := ASLEEP.(pc := Acting(E2, 0)), ASLEEP.(pc := Returned(E2, 0, Discard));
    steps := RunsWith(cfg, before, acting, y, CLEARED, DoDiscard, back, y);
    assert [true][0 := false] == [false];
    steps := RunsWith(cfg, steps, back, y, CLEARED, DoPass, FREE_ONE, Stream(2, 2, 2, false, true, [], {1, 2}));
  }

  /** And the processor leaves the stream. */
  lemma LeftEmpty(before: seq<Step>) returns (steps: seq<Step>)
    requires ValidRun(ASSEMBLER, before)
    requires Exec(ASSEMBLER, before) == AloneWith(FREE_ONE, Stream(2, 2, 2, false, true, [], {1, 2}), CLEARED)
    ensures before < steps && ValidRun(ASSEMBLER, steps) && 0 in Exec(ASSEMBLER, steps).streams
    ensures Exec(ASSEMBLER, steps).streams[0] == Stream(2, 2, 2, false, false, [], {1, 2})
  {
    var st;
    var x := Stream(2, 2, 2, false, true, [], {1, 2});
    steps, st := Next(ASSEMBLER, before, AloneWith(FREE_ONE, x, CLEARED), Run(0, DoPass));
  }

  /** The stale entry is real: a stream that was on the blocked list when the heartbeat copied it,
      and that its processor has left since. The late `tryUnblock` strands it. */
  lemma StaleEntryRun() returns (before: seq<Step>, steps: seq<Step>)
    ensures before < steps && ValidRun(ASSEMBLER, before) && ValidRun(ASSEMBLER, steps)
    ensures 0 in Exec(ASSEMBLER, before).blocks.blocked
    ensures var st := Exec(ASSEMBLER, steps);
            && 0 in st.streams && !st.streams[0].isAttached && st.streams[0].queue == []
            && Stranded(WithEffect(st, 0, TryUnblock(0, st.streams[0])), 0)
  {
    before := PutToSleep();
    steps := PutWhileAsleep(before);
    steps := WokenUp(steps);
    steps := Released(steps);
    steps := LeftEmpty(steps);
    StaleTimeoutStrands(ASSEMBLER, steps, 0);
  }
}
