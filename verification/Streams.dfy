/** Streams, the streamer and the processors, as the atomic steps they take.

    A stream is a queue of events that one processor at a time drains. The streamer keeps
    the streams that wait for a processor (`charged`) and the streams whose processor waits
    for the next event (`blocked`). Every operation below is one section of code that runs
    under a stream's mutex, or one local move of a processor between two such sections.

    A condition the source answers with a panic sets `panic` instead of being ruled out by a
    precondition. */
module Streams {
  import opened Basics

  type StreamId = nat
  type ProcId = nat

  /** `seqID` is the number the stream gave the event; a timeout event carries a copy of
      the stream's commit number instead. */
  datatype Event = Event(stream: StreamId, seqID: nat, timeout: bool)

  /** `first`/`last` of the source are the two ends of `queue`. `dropped` is a history
      variable: the numbers of the events an action discarded or collapsed. */
  datatype Stream = Stream(
    currentSeq: nat,
    commitSeq: nat,
    awaySeq: nat,
    isDetaching: bool,
    isAttached: bool,
    queue: seq<Event>,
    dropped: set<nat>)

  const NEW_STREAM := Stream(0, 0, 0, false, false, [], {})

  /** What a section of stream code did: the new stream, whether it called `makeCharged`,
      and whether it hit a panic. */
  datatype Effect = Effect(stream: Stream, charge: bool, panic: bool)

  // ---------------------------------------------------------------- stream.go

  function TryDetach(x: Stream): (r: Effect) {
    if x.awaySeq != x.commitSeq then
      Effect(x, false, false)
    else
      Effect(x.(isAttached := false, isDetaching := false), x.queue != [], false)
  }

  function Leave(x: Stream): (r: Effect) {
    if x.isDetaching || !x.isAttached then
      Effect(x, false, true)
    else
      TryDetach(x.(isDetaching := true))
  }

  /** Numbers smaller than the current commit number are ignored: a discarded event may
      overtake earlier ones that still travel through the output. */
  function Commit(x: Stream, e: Event): (r: Effect) {
    if e.seqID < x.commitSeq then
      Effect(x, false, false)
    else
      var y := x.(commitSeq := e.seqID);
      if y.isDetaching then TryDetach(y) else Effect(y, false, false)
  }

  function Attach(x: Stream): (r: Effect) {
    Effect(x.(isAttached := true), false, x.isAttached || x.isDetaching || x.queue == [])
  }

  function Put(s: StreamId, x: Stream): (r: Effect) {
    var e := Event(s, x.currentSeq + 1, false);
    Effect(
      x.(currentSeq := x.currentSeq + 1, queue := x.queue + [e]),
      x.queue == [] && !x.isAttached,
      false)
  }

  /** The part of `get` that removes the head of a non-empty queue. */
  function Get(x: Stream): (r: Effect)
    requires x.queue != []
  {
    Effect(
      x.(queue := x.queue[1..], awaySeq := x.queue[0].seqID),
      false,
      x.isDetaching || !x.isAttached)
  }

  /** The streamer's heartbeat puts a timeout event into an empty queue. */
  function TryUnblock(s: StreamId, x: Stream): (r: Effect) {
    if x.queue != [] then
      Effect(x, false, false)
    else
      Effect(
        x.(queue := [Event(s, x.commitSeq, true)]),
        false,
        x.awaySeq != x.commitSeq)
  }

  /** `Pipeline.finalize` as far as the stream is concerned; `drop` records that the event
      will never reach the output. */
  function Finalize(x: Stream, e: Event, drop: bool): (r: Effect) {
    if e.timeout then
      Effect(x, false, false)
    else
      Commit(if drop then x.(dropped := x.dropped + {e.seqID}) else x, e)
  }

  // ------------------------------------------------------------- processor.go

  /** The one action that may hold or collapse: the join plugin or the k8s multiline one. */
  datatype HolderKind = Join | Multiline

  /** `actions` is the number of actions, `holder` the index of the holding one (there is
      none when it is not below `actions`). */
  datatype Config = Config(actions: nat, holder: nat, kind: HolderKind)

  /** How an action answers an event. `NotMatched` means that it does not see the event at
      all; `Begin` and `Continue` are join's two patterns, and `Continue` is also
      multiline's answer to an incomplete line. */
  datatype Verdict = NotMatched | DoPass | DoDiscard | Begin | Continue

  /** Where a processor stands between two atomic steps. */
  datatype Pc =
    | Idle                                                    // in joinStream
    | Joined                                                  // took a stream from charged, before attach
    | Discharging                                             // before instantGet
    | Acting(event: Event, index: nat)                        // doActions, before action `index`
    | Returned(event: Event, index: nat, result: ActionResult)  // action `index` answered
    | Flushing(event: Event, result: ActionResult, flushed: Event, index: nat)  // inside join.flush
    | FlushOut(event: Event, result: ActionResult, flushed: Event)  // before Out of the flushed event
    | Emitting(event: Event)                                  // before Out
    | Asking(last: nat)                                       // before blockGet
    | Waiting(last: nat)                                      // asleep in blockGet

  /** `joining` and `held` are the join plugin's `isJoining` and `initial`. */
  datatype Proc = Proc(
    pc: Pc,
    sid: StreamId,
    busy: seq<bool>,
    busyTotal: int,
    joining: bool,
    held: Option<Event>)

  function NewProc(cfg: Config): Proc {
    Proc(Idle, 0, seq(cfg.actions, _ => false), 0, false, None)
  }

  /** What a processor's move did. `emit` is what it gave to the output. */
  datatype Outcome = Outcome(
    proc: Proc,
    stream: Stream,
    emit: seq<Event>,
    charge: bool,
    panic: bool)

  function Moved(pr: Proc, x: Stream): Outcome {
    Outcome(pr, x, [], false, false)
  }

  function MarkBusy(pr: Proc, i: nat): Proc
    requires i < |pr.busy|
  {
    if pr.busy[i] then pr else pr.(busy := pr.busy[i := true], busyTotal := pr.busyTotal + 1)
  }

  function ResetBusy(pr: Proc, i: nat): Proc
    requires i < |pr.busy|
  {
    if !pr.busy[i] then pr else pr.(busy := pr.busy[i := false], busyTotal := pr.busyTotal - 1)
  }

  predicate BusyPanic(pr: Proc) {
    pr.busyTotal < 0 || pr.busyTotal > |pr.busy|
  }

  /** The head of the queue goes to the actions; a timeout goes to the action that stopped
      the event before it. */
  function Take(pr: Proc, x: Stream, last: nat): Outcome
    requires x.queue != []
  {
    var g := Get(x);
    var e := x.queue[0];
    Outcome(pr.(pc := Acting(e, if e.timeout then last else 0)), g.stream, [], g.charge, g.panic)
  }

  /** `flush`, up to the point where `Propagate` starts the remaining actions. */
  function Flush(cfg: Config, pr: Proc, x: Stream, e: Event, r: ActionResult): Outcome
    requires cfg.holder < |pr.busy|
  {
    var cleared := pr.(joining := false, held := None);
    if pr.held.None? then
      Moved(cleared, x).(panic := true)
    else
      var reset := ResetBusy(cleared, cfg.holder);
      Moved(reset.(pc := Flushing(e, r, pr.held.value, cfg.holder + 1)), x).(panic := BusyPanic(reset))
  }

  /** The holding action's `Do` returns `r`; before a `Hold` it remembers the event. */
  function Finish(cfg: Config, pr: Proc, e: Event, r: ActionResult): Proc {
    var p := pr.(pc := Returned(e, cfg.holder, r));
    if r == Hold then p.(joining := true, held := Some(e)) else p
  }

  /** `Do` of the holding action. */
  function DoHolder(cfg: Config, pr: Proc, x: Stream, e: Event, v: Verdict): Outcome
    requires cfg.holder < |pr.busy|
  {
    match cfg.kind
    case Join =>
      if e.timeout then
        if pr.joining then Flush(cfg, pr, x, e, Discard) else Moved(pr, x).(panic := true)
      else if v == Begin then
        if pr.joining then Flush(cfg, pr, x, e, Hold) else Moved(Finish(cfg, pr, e, Hold), x)
      else if v == Continue && pr.joining then
        Moved(Finish(cfg, pr, e, Collapse), x)
      else
        if pr.joining then Flush(cfg, pr, x, e, Pass) else Moved(Finish(cfg, pr, e, Pass), x)
    case Multiline =>
      var r := if e.timeout || v == DoDiscard then Discard else if v == Continue then Collapse else Pass;
      Moved(Finish(cfg, pr, e, r), x)
  }

  /** One turn of the loop in `doActions`. */
  function Act(cfg: Config, pr: Proc, x: Stream, e: Event, i: nat, v: Verdict): Outcome
    requires |pr.busy| == cfg.actions
  {
    if i >= cfg.actions then
      Moved(pr.(pc := Emitting(e)), x)
    else if v == NotMatched then
      Moved(pr.(pc := Acting(e, i + 1)), x)
    else if i == cfg.holder then
      DoHolder(cfg, pr, x, e, v)
    else
      Moved(pr.(pc := Returned(e, i, if v == DoDiscard then Discard else Pass)), x)
  }

  /** `processEvent` after an event that did not pass: done, or wait for the next one. */
  function AfterStop(pr: Proc, i: nat): Proc {
    pr.(pc := if pr.busyTotal == 0 then Discharging else Asking(i))
  }

  /** The switch on an action's answer in `doActions`. */
  function Settle(pr: Proc, x: Stream, e: Event, i: nat, r: ActionResult): Outcome
    requires i < |pr.busy|
  {
    var marked := if r == Pass || r == Discard then ResetBusy(pr, i) else MarkBusy(pr, i);
    if r == Pass then
      Moved(marked.(pc := Acting(e, i + 1)), x).(panic := BusyPanic(marked))
    else
      var f := Finalize(x, e, r != Hold);
      Outcome(AfterStop(marked, i), f.stream, [], f.charge, f.panic || BusyPanic(marked))
  }

  /** One turn of the nested `doActions` that `Propagate` runs for the flushed event. A
      nested wait for another event counts as a panic here: it would take events of the
      stream out of order. */
  function FlushAct(cfg: Config, pr: Proc, x: Stream, pc: Pc, v: Verdict): Outcome
    requires pc.Flushing? && |pr.busy| == cfg.actions
  {
    var i := pc.index;
    if i >= cfg.actions then
      Moved(pr.(pc := FlushOut(pc.event, pc.result, pc.flushed)), x)
    else if v == NotMatched then
      Moved(pr.(pc := pc.(index := i + 1)), x)
    else
      var reset := ResetBusy(pr, i);
      if v != DoDiscard then
        Moved(reset.(pc := pc.(index := i + 1)), x).(panic := BusyPanic(reset))
      else
        var f := Finalize(x, pc.flushed, true);
        Outcome(Finish(cfg, reset, pc.event, pc.result), f.stream, [], f.charge,
                f.panic || BusyPanic(reset) || reset.busyTotal != 0)
  }

  /** The answers open to a processor. Only the holding action may begin or continue a
      group, an action that is busy or that gets a timeout sees the event in any case, and
      join discards nothing but timeouts. */
  predicate Allowed(cfg: Config, pr: Proc, v: Verdict) {
    match pr.pc
    case Acting(e, i) =>
      i < cfg.actions ==>
        && (v == NotMatched ==> i < |pr.busy| && !pr.busy[i] && !e.timeout)
        && (v == Begin || v == Continue ==> i == cfg.holder)
        && (v == Begin ==> cfg.kind == Join)
        && (v == DoDiscard && i == cfg.holder ==> cfg.kind == Multiline)
    case Flushing(_, _, _, i) =>
      i < cfg.actions ==>
        && (v == NotMatched ==> i < |pr.busy| && !pr.busy[i])
        && v != Begin && v != Continue
    case _ => true
  }

  /** A processor asleep in `blockGet` moves only once its queue is no longer empty. */
  predicate CanMove(pr: Proc, x: Stream) {
    pr.pc != Idle && (pr.pc.Waiting? ==> x.queue != [])
  }

  /** One move of a processor on the stream it took. */
  function Move(cfg: Config, pr: Proc, x: Stream, v: Verdict): Outcome
    requires |pr.busy| == cfg.actions
    requires CanMove(pr, x)
    requires pr.pc.Returned? ==> pr.pc.index < cfg.actions
  {
    match pr.pc
    case Joined =>
      var a := Attach(x);
      Outcome(pr.(pc := Discharging), a.stream, [], a.charge, a.panic)
    case Discharging =>
      if x.queue == [] then
        var l := Leave(x);
        Outcome(pr.(pc := Idle), l.stream, [], l.charge, l.panic)
      else
        Take(pr, x, 0)
    case Acting(e, i) => Act(cfg, pr, x, e, i, v)
    case Returned(e, i, r) => Settle(pr, x, e, i, r)
    case Flushing(_, _, _, _) => FlushAct(cfg, pr, x, pr.pc, v)
    case FlushOut(e, r, flushed) => Moved(Finish(cfg, pr, e, r), x).(emit := [flushed])
    case Emitting(e) => Moved(pr.(pc := Discharging), x).(emit := [e])
    case Asking(last) =>
      if x.queue == [] then
        Moved(pr.(pc := Waiting(last)), x).(panic := !x.isAttached)
      else
        Take(pr, x, last)
    case Waiting(last) => Take(pr, x, last)
  }

  // -------------------------------------------------------------- streamer.go

  /** `blockIndex` is a field of the source's stream, but it is guarded by the streamer's
      mutex; the streamer rewrites it for streams it does not otherwise touch. */
  datatype BlockList = BlockList(blocked: seq<StreamId>, blockIndex: map<StreamId, int>)

  function MakeBlocked(b: BlockList, s: StreamId): BlockList {
    BlockList(b.blocked + [s], b.blockIndex[s := |b.blocked|])
  }

  predicate ResetBlockedPanics(b: BlockList, s: StreamId) {
    || s !in b.blockIndex
    || b.blockIndex[s] == -1
    || b.blocked == []
    || !(0 <= b.blockIndex[s] < |b.blocked|)
  }

  /** Removal by moving the last entry into the gap. */
  function ResetBlocked(b: BlockList, s: StreamId): BlockList
    requires !ResetBlockedPanics(b, s)
  {
    var last := |b.blocked| - 1;
    var i := b.blockIndex[s];
    var mover := b.blocked[last];
    BlockList(b.blocked[i := mover][..last], b.blockIndex[mover := i][s := -1])
  }

  // ------------------------------------------------------------- whole system

  /** `output` holds the events given to the output and not yet notified, in the order they
      were given. The output's committer first notifies the input and then commits to the
      stream; between the two, `committing` is the event. `notified` is a history variable,
      and so is `owner`: the processor that took a stream from `charged` and has not left it
      yet. */
  datatype State = State(
    streams: map<StreamId, Stream>,
    procs: map<ProcId, Proc>,
    owner: map<StreamId, ProcId>,
    charged: seq<StreamId>,
    blocks: BlockList,
    output: seq<Event>,
    committing: Option<Event>,
    notified: seq<Event>,
    panicked: bool)

  const START := State(map[], map[], map[], [], BlockList([], map[]), [], None, [], false)

  datatype Step =
    | PutStep(s: StreamId)            // the input puts one more event
    | AddProc(p: ProcId)              // one more processor starts
    | TakeCharged(p: ProcId)          // joinStream pops the last charged stream
    | Run(p: ProcId, v: Verdict)      // a processor moves on
    | TimeoutStep(s: StreamId)        // the heartbeat unblocks a waiting stream
    | Notify                          // the output commits its oldest event to the input
    | CommitStep                      // ... and then to the event's stream

  predicate Enabled(cfg: Config, st: State, step: Step) {
    match step
    case PutStep(_) => true
    case AddProc(p) => p !in st.procs
    case TakeCharged(p) => p in st.procs && st.procs[p].pc == Idle && st.charged != []
    case Run(p, v) =>
      && p in st.procs
      && var pr := st.procs[p];
      && pr.sid in st.streams
      && |pr.busy| == cfg.actions
      && (pr.pc.Returned? ==> pr.pc.index < cfg.actions)
      && CanMove(pr, st.streams[pr.sid])
      && Allowed(cfg, pr, v)
    case TimeoutStep(s) => s in st.blocks.blocked && s in st.streams
    case Notify => st.output != [] && st.committing == None
    case CommitStep => st.committing.Some? && st.committing.value.stream in st.streams
  }

  /** Lifts what a section of code did to stream `s`. */
  function WithEffect(st: State, s: StreamId, f: Effect): State {
    st.(streams := st.streams[s := f.stream],
        charged := if f.charge then st.charged + [s] else st.charged,
        panicked := st.panicked || f.panic)
  }

  /** Entering and leaving the wait inside `blockGet` adds the stream to the blocked list
      and removes it again. */
  function Blocks(b: BlockList, s: StreamId, before: Pc, after: Pc): (BlockList, bool) {
    if !before.Waiting? && after.Waiting? then
      (MakeBlocked(b, s), false)
    else if before.Waiting? && !after.Waiting? then
      if ResetBlockedPanics(b, s) then (b, true) else (ResetBlocked(b, s), false)
    else
      (b, false)
  }

  function Lift(st: State, p: ProcId, o: Outcome): State
    requires p in st.procs
  {
    var pr := st.procs[p];
    var s := pr.sid;
    var (b, bad) := Blocks(st.blocks, s, pr.pc, o.proc.pc);
    State(
      st.streams[s := o.stream],
      st.procs[p := o.proc],
      if o.proc.pc == Idle then st.owner - {s} else st.owner,
      if o.charge then st.charged + [s] else st.charged,
      b,
      st.output + o.emit,
      st.committing,
      st.notified,
      st.panicked || o.panic || bad)
  }

  function Apply(cfg: Config, st: State, step: Step): State
    requires Enabled(cfg, st, step)
  {
    match step
    case PutStep(s) =>
      WithEffect(st, s, Put(s, if s in st.streams then st.streams[s] else NEW_STREAM))
    case AddProc(p) => st.(procs := st.procs[p := NewProc(cfg)])
    case TakeCharged(p) =>
      var l := |st.charged|;
      var s := st.charged[l - 1];
      st.(charged := st.charged[..l - 1],
          procs := st.procs[p := st.procs[p].(pc := Joined, sid := s)],
          owner := st.owner[s := p])
    case Run(p, v) =>
      var pr := st.procs[p];
      Lift(st, p, Move(cfg, pr, st.streams[pr.sid], v))
    case TimeoutStep(s) => WithEffect(st, s, TryUnblock(s, st.streams[s]))
    case Notify =>
      st.(output := st.output[1..],
          notified := st.notified + [st.output[0]],
          committing := Some(st.output[0]))
    case CommitStep =>
      var e := st.committing.value;
      WithEffect(st.(committing := None), e.stream, Finalize(st.streams[e.stream], e, false))
  }

  /** The steps can be taken one after the other from the initial state. */
  ghost predicate ValidRun(cfg: Config, steps: seq<Step>)
    decreases |steps|, 0
  {
    steps == [] ||
    (ValidRun(cfg, steps[..|steps| - 1]) &&
     Enabled(cfg, Exec(cfg, steps[..|steps| - 1]), steps[|steps| - 1]))
  }

  /** The state a run ends in. */
  ghost function Exec(cfg: Config, steps: seq<Step>): State
    requires ValidRun(cfg, steps)
    decreases |steps|, 1
  {
    if steps == [] then START
    else Apply(cfg, Exec(cfg, steps[..|steps| - 1]), steps[|steps| - 1])
  }
}
