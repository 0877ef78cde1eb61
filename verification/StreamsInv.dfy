/** What every step of the streams and processors keeps.

    The invariant is stated stream by stream, on what one stream can see of the whole
    system (its `View`). A step changes the view of one stream only. */
module StreamsInv {
  import opened Basics
  import opened Streams

  // ------------------------------------------------------------------- views

  /** The numbers of the events of stream `s`, in order. */
  ghost function Numbers(events: seq<Event>, s: StreamId): seq<nat> {
    if events == [] then []
    else
      var l := |events| - 1;
      Numbers(events[..l], s) + (if events[l].stream == s then [events[l].seqID] else [])
  }

  /** `charged` counts how often the stream is in the charged list. `noted` and `out` are
      its events that were notified, and that are in the output. */
  datatype View = View(
    stream: Stream,
    proc: Option<Proc>,
    charged: nat,
    blocked: bool,
    out: seq<nat>,
    committing: Option<nat>,
    noted: seq<nat>)

  ghost function ViewOf(st: State, s: StreamId): View
    requires s in st.streams
  {
    View(
      st.streams[s],
      if s in st.owner && st.owner[s] in st.procs then Some(st.procs[st.owner[s]]) else None,
      multiset(st.charged)[s],
      s in st.blocks.blocked,
      Numbers(st.output, s),
      if st.committing.Some? && st.committing.value.stream == s then Some(st.committing.value.seqID) else None,
      Numbers(st.notified, s))
  }

  // ------------------------------------------------------- what a processor holds

  function Number(e: Event): seq<nat> {
    if e.timeout then [] else [e.seqID]
  }

  function Held(pr: Proc): seq<nat> {
    if pr.held.Some? then [pr.held.value.seqID] else []
  }

  /** The numbers of the regular events in a processor's hands, oldest first. */
  function InHands(pr: Proc): seq<nat> {
    match pr.pc
    case Acting(e, _) => Held(pr) + Number(e)
    case Returned(e, _, r) => if r == Hold then Number(e) else Held(pr) + Number(e)
    case Flushing(e, _, flushed, _) => [flushed.seqID] + Number(e)
    case FlushOut(e, _, flushed) => [flushed.seqID] + Number(e)
    case Emitting(e) => Held(pr) + Number(e)
    case _ => Held(pr)
  }

  function Hands(v: View): seq<nat> {
    if v.proc.Some? then InHands(v.proc.value) else []
  }

  /** The processor is at work on the event it took last. */
  predicate HasCurrent(pr: Proc) {
    match pr.pc
    case Acting(e, _) => !e.timeout
    case Returned(e, _, _) => !e.timeout
    case Flushing(e, _, _, _) => !e.timeout
    case FlushOut(e, _, _) => !e.timeout
    case Emitting(e) => !e.timeout
    case _ => false
  }

  /** Every event of the stream that is past the queue and not dropped, in order. */
  function Flow(v: View): seq<nat> {
    v.noted + v.out + Hands(v)
  }

  // --------------------------------------------------------------- invariants

  predicate BusyHolder(cfg: Config, pr: Proc)
    requires |pr.busy| == cfg.actions
  {
    cfg.holder < cfg.actions && pr.busy[cfg.holder]
  }

  /** Only the holding action is ever busy, and the total counts the flags. */
  ghost predicate BusyOK(cfg: Config, pr: Proc) {
    && |pr.busy| == cfg.actions
    && (forall i | 0 <= i < cfg.actions :: i != cfg.holder ==> !pr.busy[i])
    && pr.busyTotal == (if BusyHolder(cfg, pr) then 1 else 0)
  }

  /** Between events, join's two fields and the processor's flag say the same thing. */
  predicate Agree(cfg: Config, pr: Proc)
    requires |pr.busy| == cfg.actions
  {
    match cfg.kind
    case Join => pr.joining == pr.held.Some? == BusyHolder(cfg, pr)
    case Multiline => !pr.joining && pr.held.None?
  }

  predicate Quiet(cfg: Config, pr: Proc)
    requires |pr.busy| == cfg.actions
  {
    !pr.joining && pr.held.None? && !BusyHolder(cfg, pr)
  }

  predicate OfStream(e: Event, s: StreamId) {
    !e.timeout && e.stream == s
  }

  /** The current event is the one the stream gave away last; a timeout comes only when
      that one is committed. */
  predicate CurrentOK(e: Event, s: StreamId, x: Stream) {
    && e.stream == s
    && (if e.timeout then x.commitSeq == x.awaySeq else e.seqID == x.awaySeq)
  }

  predicate ReturnedOK(cfg: Config, pr: Proc, e: Event, i: nat, r: ActionResult)
    requires |pr.busy| == cfg.actions
  {
    && i < cfg.actions
    && match r
       case Hold =>
         i == cfg.holder && cfg.kind == Join && !e.timeout && !BusyHolder(cfg, pr)
         && pr.joining && pr.held == Some(e)
       case Collapse =>
         i == cfg.holder && !e.timeout && Agree(cfg, pr) && (cfg.kind == Join ==> pr.joining)
       case _ =>
         && Agree(cfg, pr)
         && (i == cfg.holder && cfg.kind == Join ==> Quiet(cfg, pr))
         && (i > cfg.holder ==> !BusyHolder(cfg, pr))
         && (e.timeout ==> if i == cfg.holder then r == Discard else i < cfg.holder && BusyHolder(cfg, pr))
  }

  predicate FlushingOK(cfg: Config, pr: Proc, s: StreamId, x: Stream, e: Event, r: ActionResult, flushed: Event)
    requires |pr.busy| == cfg.actions
  {
    && Quiet(cfg, pr) && cfg.kind == Join && cfg.holder < cfg.actions
    && OfStream(flushed, s) && flushed.seqID <= x.awaySeq
    && r != Collapse
    && (e.timeout <==> r == Discard)
  }

  /** What holds of a processor at each point, with `x` the stream it took. */
  ghost predicate ProcOK(cfg: Config, s: StreamId, pr: Proc, x: Stream) {
    && pr.sid == s
    && BusyOK(cfg, pr)
    && (pr.held.Some? ==> OfStream(pr.held.value, s) && pr.held.value.seqID <= x.awaySeq)
    && match pr.pc
       case Idle => false
       case Joined => Quiet(cfg, pr)
       case Discharging => Quiet(cfg, pr)
       case Acting(e, i) =>
         && Agree(cfg, pr) && CurrentOK(e, s, x) && i <= cfg.actions
         && (i > cfg.holder ==> !BusyHolder(cfg, pr))
         && (e.timeout ==> i <= cfg.holder && BusyHolder(cfg, pr))
       case Returned(e, i, r) => CurrentOK(e, s, x) && ReturnedOK(cfg, pr, e, i, r)
       case Flushing(e, r, flushed, i) =>
         CurrentOK(e, s, x) && FlushingOK(cfg, pr, s, x, e, r, flushed) && cfg.holder < i <= cfg.actions
       case FlushOut(e, r, flushed) => CurrentOK(e, s, x) && FlushingOK(cfg, pr, s, x, e, r, flushed)
       case Emitting(e) => Quiet(cfg, pr) && CurrentOK(e, s, x) && !e.timeout
       case Asking(last) => Agree(cfg, pr) && BusyHolder(cfg, pr) && last <= cfg.holder && x.commitSeq == x.awaySeq
       case Waiting(last) => Agree(cfg, pr) && BusyHolder(cfg, pr) && last <= cfg.holder && x.commitSeq == x.awaySeq
  }

  /** A processor with no stream has nothing held and nothing busy. */
  ghost predicate IdleOK(cfg: Config, pr: Proc) {
    pr.pc == Idle && BusyOK(cfg, pr) && Quiet(cfg, pr)
  }

  /** The events numbered `lo + 1` to `hi`. */
  function Range(s: StreamId, lo: nat, hi: nat): (r: seq<Event>)
    requires lo <= hi
    ensures |r| == hi - lo
  {
    seq(hi - lo, i requires 0 <= i < hi - lo => Event(s, lo + 1 + i, false))
  }

  /** The queue is what the stream numbered and has not given away, preceded by a timeout
      event only while the processor waits. */
  predicate QueueOK(s: StreamId, v: View)
    requires v.stream.awaySeq <= v.stream.currentSeq
  {
    var x := v.stream;
    var rest := Range(s, x.awaySeq, x.currentSeq);
    || x.queue == rest
    || (v.proc.Some? && v.proc.value.pc.Waiting? && x.queue == [Event(s, x.commitSeq, true)] + rest)
  }

  /** Who has the stream. */
  predicate OwnerOK(v: View) {
    var x := v.stream;
    && v.charged == (if !x.isAttached && x.queue != [] && v.proc.None? then 1 else 0)
    && (if v.proc.None? then x.isAttached == x.isDetaching
        else
          !x.isDetaching &&
          if v.proc.value.pc.Joined? then !x.isAttached && x.queue != [] else x.isAttached)
    && (v.blocked <==> v.proc.Some? && v.proc.value.pc.Waiting?)
  }

  /** The numbers of the stream. */
  predicate SeqOK(v: View) {
    var x := v.stream;
    && x.commitSeq <= x.awaySeq <= x.currentSeq
    && (x.isDetaching ==> x.commitSeq < x.awaySeq)
    && (x.commitSeq < x.awaySeq ==>
          x.awaySeq in v.out || v.committing == Some(x.awaySeq) || (v.proc.Some? && HasCurrent(v.proc.value)))
    && (v.committing.Some? ==> v.committing.value in v.noted)
  }

  /** Order, and nothing lost: the numbers given away so far are exactly those in the flow
      and those dropped. */
  ghost predicate FlowOK(v: View) {
    && Increasing(Flow(v))
    && (forall n: nat :: 1 <= n <= v.stream.awaySeq <==> n in Flow(v) || n in v.stream.dropped)
    && (forall n: nat :: n in Flow(v) ==> n !in v.stream.dropped)
  }

  /** Everything but the flow. */
  ghost predicate LocalOK(cfg: Config, s: StreamId, v: View) {
    && SeqOK(v)
    && OwnerOK(v)
    && QueueOK(s, v)
    && (v.proc.Some? ==> ProcOK(cfg, s, v.proc.value, v.stream))
  }

  ghost predicate StreamOK(cfg: Config, s: StreamId, v: View) {
    LocalOK(cfg, s, v) && FlowOK(v)
  }

  /** `owner` pairs the streams that are taken with the processors that took them. */
  ghost predicate Paired(cfg: Config, st: State) {
    && (forall s :: s in st.owner ==>
          && s in st.streams && st.owner[s] in st.procs
          && st.procs[st.owner[s]].sid == s && st.procs[st.owner[s]].pc != Idle)
    && (forall p :: p in st.procs ==>
          if st.procs[p].pc == Idle then IdleOK(cfg, st.procs[p])
          else st.procs[p].sid in st.owner && st.owner[st.procs[p].sid] == p)
  }

  /** Only regular events of known streams reach the output. */
  ghost predicate EventsOK(st: State) {
    && (forall e :: e in st.output ==> !e.timeout && e.stream in st.streams)
    && (forall e :: e in st.notified ==> !e.timeout && e.stream in st.streams)
    && (st.committing.Some? ==> !st.committing.value.timeout && st.committing.value.stream in st.streams)
    && (forall s :: s in st.charged ==> s in st.streams)
  }

  /** The blocked list and the indexes point at each other. */
  ghost predicate BlocksOK(b: BlockList) {
    forall i :: 0 <= i < |b.blocked| ==> b.blocked[i] in b.blockIndex && b.blockIndex[b.blocked[i]] == i
  }

  ghost predicate FrameOK(cfg: Config, st: State) {
    && !st.panicked
    && Paired(cfg, st)
    && EventsOK(st)
    && BlocksOK(st.blocks)
    && (forall s :: s in st.blocks.blocked ==> s in st.streams)
  }

  ghost predicate Inv(cfg: Config, st: State) {
    && FrameOK(cfg, st)
    && (forall s :: s in st.streams ==> StreamOK(cfg, s, ViewOf(st, s)))
  }

  // ------------------------------------------------------- moves of a processor

  /** The numbers a move gives to the output. */
  function Emitted(o: Outcome): seq<nat> {
    if |o.emit| == 1 then [o.emit[0].seqID] else []
  }

  /** The view after a processor's move, the owner's part. */
  function AfterMove(v: View, o: Outcome): View
    requires v.proc.Some?
    requires forall e | e in o.emit :: !e.timeout
  {
    View(
      o.stream,
      if o.proc.pc == Idle then None else Some(o.proc),
      if o.charge then v.charged + 1 else v.charged,
      o.proc.pc.Waiting?,
      v.out + Emitted(o),
      v.committing,
      v.noted)
  }

  predicate EmitOK(s: StreamId, o: Outcome) {
    |o.emit| <= 1 && forall e | e in o.emit :: OfStream(e, s)
  }

  ghost predicate CanRun(cfg: Config, s: StreamId, v: View, w: Verdict) {
    && LocalOK(cfg, s, v)
    && v.proc.Some?
    && CanMove(v.proc.value, v.stream)
    && Allowed(cfg, v.proc.value, w)
  }

  /** The move hits no panic and keeps everything but the flow. */
  ghost predicate GoodMove(cfg: Config, s: StreamId, v: View, o: Outcome)
    requires v.proc.Some?
  {
    && EmitOK(s, o)
    && !o.panic
    && (if o.proc.pc == Idle then IdleOK(cfg, o.proc) else o.proc.sid == s)
    && LocalOK(cfg, s, AfterMove(v, o))
  }

  lemma RangeHead(s: StreamId, lo: nat, hi: nat)
    requires lo < hi
    ensures Range(s, lo, hi) == [Event(s, lo + 1, false)] + Range(s, lo + 1, hi)
    ensures Range(s, lo, hi)[0] == Event(s, lo + 1, false)
    ensures Range(s, lo, hi)[1..] == Range(s, lo + 1, hi)
  {
  }

  /** What the head of a non-empty queue is, and what is left without it. */
  lemma QueueHead(cfg: Config, s: StreamId, v: View)
    requires LocalOK(cfg, s, v) && v.stream.queue != []
    ensures var x := v.stream;
            if x.queue[0].timeout then
              x.queue[0] == Event(s, x.commitSeq, true) && x.queue[1..] == Range(s, x.awaySeq, x.currentSeq)
            else
              && x.queue == Range(s, x.awaySeq, x.currentSeq)
              && x.awaySeq < x.currentSeq
              && x.queue[0] == Event(s, x.awaySeq + 1, false)
              && x.queue[1..] == Range(s, x.awaySeq + 1, x.currentSeq)
  {
    var x := v.stream;
    if x.queue == Range(s, x.awaySeq, x.currentSeq) {
      RangeHead(s, x.awaySeq, x.currentSeq);
    } else {
      assert x.queue[1..] == Range(s, x.awaySeq, x.currentSeq);
    }
  }

  lemma TakeMove(cfg: Config, s: StreamId, v: View, w: Verdict)
    requires CanRun(cfg, s, v, w)
    requires v.proc.value.pc.Discharging? || v.proc.value.pc.Asking? || v.proc.value.pc.Waiting?
    requires v.stream.queue != []
    ensures GoodMove(cfg, s, v, Move(cfg, v.proc.value, v.stream, w))
  {
    QueueHead(cfg, s, v);
  }

  /** Attaching, leaving, starting to wait, and giving an event to the output. */
  lemma PlainMove(cfg: Config, s: StreamId, v: View, w: Verdict)
    requires CanRun(cfg, s, v, w)
    requires match v.proc.value.pc
             case Joined => true
             case Discharging => v.stream.queue == []
             case Asking(_) => v.stream.queue == []
             case FlushOut(_, _, _) => true
             case Emitting(_) => true
             case _ => false
    ensures GoodMove(cfg, s, v, Move(cfg, v.proc.value, v.stream, w))
  {
  }

  /** The holding action of a join pipeline flushes what it holds. */
  lemma JoinFlush(cfg: Config, s: StreamId, v: View, w: Verdict)
    requires CanRun(cfg, s, v, w) && v.proc.value.pc.Acting? && w != NotMatched
    requires v.proc.value.pc.index == cfg.holder < cfg.actions && cfg.kind == Join && v.proc.value.joining
    requires w != Continue || v.proc.value.pc.event.timeout
    ensures GoodMove(cfg, s, v, Move(cfg, v.proc.value, v.stream, w))
  {
    var pr, e := v.proc.value, v.proc.value.pc.event;
    var o := Flush(cfg, pr, v.stream, e, if e.timeout then Discard else if w == Begin then Hold else Pass);
    assert o == Move(cfg, pr, v.stream, w);
  }

  /** ... or answers at once. */
  lemma JoinAnswer(cfg: Config, s: StreamId, v: View, w: Verdict)
    requires CanRun(cfg, s, v, w) && v.proc.value.pc.Acting? && w != NotMatched
    requires v.proc.value.pc.index == cfg.holder < cfg.actions && cfg.kind == Join
    requires v.proc.value.joining ==> w == Continue && !v.proc.value.pc.event.timeout
    ensures GoodMove(cfg, s, v, Move(cfg, v.proc.value, v.stream, w))
  {
    var pr, e := v.proc.value, v.proc.value.pc.event;
    assert !e.timeout;
    var r := if pr.joining then Collapse else if w == Begin then Hold else Pass;
    assert Move(cfg, pr, v.stream, w) == Moved(Finish(cfg, pr, e, r), v.stream);
  }

  /** The holding action of a multiline pipeline. */
  lemma MultilineMove(cfg: Config, s: StreamId, v: View, w: Verdict)
    requires CanRun(cfg, s, v, w) && v.proc.value.pc.Acting? && w != NotMatched
    requires v.proc.value.pc.index == cfg.holder < cfg.actions && cfg.kind == Multiline
    ensures GoodMove(cfg, s, v, Move(cfg, v.proc.value, v.stream, w))
  {
  }

  /** Any other action, one that does not see the event, or the end of the actions. */
  lemma ActMove(cfg: Config, s: StreamId, v: View, w: Verdict)
    requires CanRun(cfg, s, v, w) && v.proc.value.pc.Acting?
    requires v.proc.value.pc.index == cfg.holder < cfg.actions ==> w == NotMatched
    ensures GoodMove(cfg, s, v, Move(cfg, v.proc.value, v.stream, w))
  {
  }

  lemma SettlePass(cfg: Config, s: StreamId, v: View, w: Verdict)
    requires CanRun(cfg, s, v, w) && v.proc.value.pc.Returned? && v.proc.value.pc.result == Pass
    ensures GoodMove(cfg, s, v, Move(cfg, v.proc.value, v.stream, w))
  {
  }

  lemma SettleDiscard(cfg: Config, s: StreamId, v: View, w: Verdict)
    requires CanRun(cfg, s, v, w) && v.proc.value.pc.Returned? && v.proc.value.pc.result == Discard
    ensures GoodMove(cfg, s, v, Move(cfg, v.proc.value, v.stream, w))
  {
  }

  lemma SettleKeep(cfg: Config, s: StreamId, v: View, w: Verdict)
    requires CanRun(cfg, s, v, w) && v.proc.value.pc.Returned?
    requires v.proc.value.pc.result == Collapse || v.proc.value.pc.result == Hold
    ensures GoodMove(cfg, s, v, Move(cfg, v.proc.value, v.stream, w))
  {
  }

  lemma FlushMove(cfg: Config, s: StreamId, v: View, w: Verdict)
    requires CanRun(cfg, s, v, w) && v.proc.value.pc.Flushing?
    ensures GoodMove(cfg, s, v, Move(cfg, v.proc.value, v.stream, w))
  {
  }

  lemma AnyMove(cfg: Config, s: StreamId, v: View, w: Verdict)
    requires CanRun(cfg, s, v, w)
    ensures GoodMove(cfg, s, v, Move(cfg, v.proc.value, v.stream, w))
  {
    match v.proc.value.pc
    case Joined => PlainMove(cfg, s, v, w);
    case Discharging =>
      if v.stream.queue == [] { PlainMove(cfg, s, v, w); } else { TakeMove(cfg, s, v, w); }
    case Acting(_, i) =>
      if !(i == cfg.holder < cfg.actions && w != NotMatched) {
        ActMove(cfg, s, v, w);
      } else if cfg.kind == Multiline {
        MultilineMove(cfg, s, v, w);
      } else if v.proc.value.joining && (w != Continue || v.proc.value.pc.event.timeout) {
        JoinFlush(cfg, s, v, w);
      } else {
        JoinAnswer(cfg, s, v, w);
      }
    case Returned(_, _, r) =>
      if r == Pass { SettlePass(cfg, s, v, w); }
      else if r == Discard { SettleDiscard(cfg, s, v, w); }
      else { SettleKeep(cfg, s, v, w); }
    case Flushing(_, _, _, _) => FlushMove(cfg, s, v, w);
    case FlushOut(_, _, _) => PlainMove(cfg, s, v, w);
    case Emitting(_) => PlainMove(cfg, s, v, w);
    case Asking(_) =>
      if v.stream.queue == [] { PlainMove(cfg, s, v, w); } else { TakeMove(cfg, s, v, w); }
    case Waiting(_) => TakeMove(cfg, s, v, w);
  }

  // ------------------------------------------------------------------ the flow

  /** The number that a move takes out of the flow for good. */
  function DroppedBy(cfg: Config, pr: Proc, w: Verdict): seq<nat> {
    match pr.pc
    case Returned(e, _, r) => if r == Discard || r == Collapse then Number(e) else []
    case Flushing(_, _, flushed, i) => if i < cfg.actions && w == DoDiscard then [flushed.seqID] else []
    case _ => []
  }

  /** The number that a move brings into the flow. */
  function TakenBy(pr: Proc, x: Stream): seq<nat> {
    if (pr.pc.Discharging? || pr.pc.Asking? || pr.pc.Waiting?) && x.queue != []
    then Number(x.queue[0]) else []
  }

  /** The split of what a processor has in hands and takes in a move: what it gives to the
      output, what it drops and what it keeps, in this order up to the dropped number. */
  ghost predicate HandsSplit(cfg: Config, pr: Proc, x: Stream, w: Verdict, o: Outcome,
                             before: seq<nat>, after: seq<nat>) {
    && InHands(pr) + TakenBy(pr, x) == Emitted(o) + before + DroppedBy(cfg, pr, w) + after
    && (if o.proc.pc == Idle then [] else InHands(o.proc)) == before + after
  }

  lemma HandsPass(cfg: Config, s: StreamId, pr: Proc, x: Stream, w: Verdict)
    requires ProcOK(cfg, s, pr, x) && pr.pc.Returned? && pr.pc.result == Pass
    ensures HandsSplit(cfg, pr, x, w, Move(cfg, pr, x, w), Held(pr), Number(pr.pc.event))
  {
  }

  lemma HandsHold(cfg: Config, s: StreamId, pr: Proc, x: Stream, w: Verdict)
    requires ProcOK(cfg, s, pr, x) && pr.pc.Returned? && pr.pc.result == Hold
    ensures HandsSplit(cfg, pr, x, w, Move(cfg, pr, x, w), [], Number(pr.pc.event))
  {
  }

  lemma HandsDrop(cfg: Config, s: StreamId, pr: Proc, x: Stream, w: Verdict)
    requires ProcOK(cfg, s, pr, x) && pr.pc.Returned? && (pr.pc.result == Discard || pr.pc.result == Collapse)
    ensures HandsSplit(cfg, pr, x, w, Move(cfg, pr, x, w), Held(pr), [])
  {
  }

  lemma HandsStop(cfg: Config, s: StreamId, pr: Proc, x: Stream, w: Verdict)
      returns (before: seq<nat>, after: seq<nat>)
    requires ProcOK(cfg, s, pr, x) && pr.pc.Returned?
    ensures HandsSplit(cfg, pr, x, w, Move(cfg, pr, x, w), before, after)
  {
    if pr.pc.result == Pass {
      HandsPass(cfg, s, pr, x, w);
      return Held(pr), Number(pr.pc.event);
    } else if pr.pc.result == Hold {
      HandsHold(cfg, s, pr, x, w);
      return [], Number(pr.pc.event);
    } else {
      HandsDrop(cfg, s, pr, x, w);
      return Held(pr), [];
    }
  }

  lemma HandsFlush(cfg: Config, s: StreamId, pr: Proc, x: Stream, w: Verdict)
      returns (before: seq<nat>, after: seq<nat>)
    requires ProcOK(cfg, s, pr, x) && CanMove(pr, x) && Allowed(cfg, pr, w)
    requires pr.pc.Flushing?
    ensures HandsSplit(cfg, pr, x, w, Move(cfg, pr, x, w), before, after)
  {
    before := if DroppedBy(cfg, pr, w) == [] then [pr.pc.flushed.seqID] else [];
    after := Number(pr.pc.event);
    var o := Move(cfg, pr, x, w);
    assert InHands(pr) + TakenBy(pr, x) == [pr.pc.flushed.seqID] + after;
    assert InHands(o.proc) == before + after;
  }

  /** Nothing is dropped: what was in hands or taken is emitted or still in hands. */
  ghost predicate HandsSame(pr: Proc, x: Stream, o: Outcome) {
    InHands(pr) + TakenBy(pr, x) == Emitted(o) + if o.proc.pc == Idle then [] else InHands(o.proc)
  }

  lemma HandsActing(cfg: Config, s: StreamId, pr: Proc, x: Stream, w: Verdict)
    requires ProcOK(cfg, s, pr, x) && Allowed(cfg, pr, w) && pr.pc.Acting?
    ensures HandsSame(pr, x, Move(cfg, pr, x, w))
  {
    assert InHands(Move(cfg, pr, x, w).proc) == InHands(pr);
  }

  lemma HandsOut(cfg: Config, s: StreamId, pr: Proc, x: Stream, w: Verdict)
    requires ProcOK(cfg, s, pr, x) && (pr.pc.FlushOut? || pr.pc.Emitting?)
    ensures HandsSame(pr, x, Move(cfg, pr, x, w))
  {
    if pr.pc.FlushOut? {
      assert InHands(Move(cfg, pr, x, w).proc) == Number(pr.pc.event);
    }
  }

  lemma HandsTake(cfg: Config, s: StreamId, pr: Proc, x: Stream, w: Verdict)
    requires ProcOK(cfg, s, pr, x) && CanMove(pr, x)
    requires pr.pc.Joined? || pr.pc.Discharging? || pr.pc.Asking? || pr.pc.Waiting?
    ensures HandsSame(pr, x, Move(cfg, pr, x, w))
  {
  }

  lemma HandsKept(cfg: Config, s: StreamId, pr: Proc, x: Stream, w: Verdict)
    requires ProcOK(cfg, s, pr, x) && CanMove(pr, x) && Allowed(cfg, pr, w)
    requires !pr.pc.Returned? && !pr.pc.Flushing?
    ensures HandsSame(pr, x, Move(cfg, pr, x, w))
  {
    if pr.pc.Acting? {
      HandsActing(cfg, s, pr, x, w);
    } else if pr.pc.FlushOut? || pr.pc.Emitting? {
      HandsOut(cfg, s, pr, x, w);
    } else {
      HandsTake(cfg, s, pr, x, w);
    }
  }

  lemma HandsMove(cfg: Config, s: StreamId, pr: Proc, x: Stream, w: Verdict)
      returns (before: seq<nat>, after: seq<nat>)
    requires ProcOK(cfg, s, pr, x) && CanMove(pr, x) && Allowed(cfg, pr, w)
    ensures HandsSplit(cfg, pr, x, w, Move(cfg, pr, x, w), before, after)
  {
    if pr.pc.Returned? {
      before, after := HandsStop(cfg, s, pr, x, w);
    } else if pr.pc.Flushing? {
      before, after := HandsFlush(cfg, s, pr, x, w);
    } else {
      HandsKept(cfg, s, pr, x, w);
      var o := Move(cfg, pr, x, w);
      before, after := if o.proc.pc == Idle then [] else InHands(o.proc), [];
    }
  }

  /** The numbers a move takes, drops and changes. */
  ghost predicate NumbersStep(x: Stream, x': Stream, d: seq<nat>, taken: seq<nat>) {
    && |d| + |taken| <= 1
    && x'.dropped == x.dropped + (set n | n in d)
    && x'.awaySeq == x.awaySeq + |taken|
    && (taken == [] || taken == [x.awaySeq + 1])
  }

  /** One number is taken, or one is dropped, or the flow stays the same. */
  ghost predicate FlowStep(v: View, v': View, before: seq<nat>, d: seq<nat>, after: seq<nat>, taken: seq<nat>) {
    && Flow(v) + taken == before + d + after && Flow(v') == before + after
    && NumbersStep(v.stream, v'.stream, d, taken)
  }

  /** What the flow keeps when one number is taken, or one is dropped. */
  lemma FlowMove(v: View, v': View, before: seq<nat>, d: seq<nat>, after: seq<nat>, taken: seq<nat>)
    requires FlowOK(v)
    requires FlowStep(v, v', before, d, after, taken)
    ensures FlowOK(v')
  {
    if d != [] {
      assert Flow(v) + taken == Flow(v) && d == [d[0]] && (set n | n in d) == {d[0]};
      RemoveKeepsIncreasing(before, d[0], after);
    } else if taken != [] {
      assert taken == [taken[0]] && before + d + after == before + after;
      AppendKeepsIncreasing(Flow(v), taken[0]);
    } else {
      assert Flow(v) + taken == Flow(v) && before + d + after == before + after;
      assert (set n | n in d) == {};
    }
  }

  /** A processor that takes the head of the queue takes the next number, or a timeout. */
  lemma NumbersTake(cfg: Config, s: StreamId, v: View, w: Verdict)
    requires CanRun(cfg, s, v, w)
    requires v.proc.value.pc.Discharging? || v.proc.value.pc.Asking? || v.proc.value.pc.Waiting?
    requires v.stream.queue != []
    ensures NumbersStep(v.stream, Move(cfg, v.proc.value, v.stream, w).stream,
                        DroppedBy(cfg, v.proc.value, w), TakenBy(v.proc.value, v.stream))
  {
    QueueHead(cfg, s, v);
  }

  lemma NumbersStop(cfg: Config, s: StreamId, v: View, w: Verdict)
    requires CanRun(cfg, s, v, w)
    requires v.proc.value.pc.Returned? || v.proc.value.pc.Flushing?
    ensures NumbersStep(v.stream, Move(cfg, v.proc.value, v.stream, w).stream,
                        DroppedBy(cfg, v.proc.value, w), TakenBy(v.proc.value, v.stream))
  {
  }

  lemma NumbersMove(cfg: Config, s: StreamId, v: View, w: Verdict)
    requires CanRun(cfg, s, v, w)
    ensures NumbersStep(v.stream, Move(cfg, v.proc.value, v.stream, w).stream,
                        DroppedBy(cfg, v.proc.value, w), TakenBy(v.proc.value, v.stream))
  {
    var pc := v.proc.value.pc;
    if pc.Returned? || pc.Flushing? {
      NumbersStop(cfg, s, v, w);
    } else if (pc.Discharging? || pc.Asking? || pc.Waiting?) && v.stream.queue != [] {
      NumbersTake(cfg, s, v, w);
    }
  }

  lemma Regroup(flow: seq<nat>, hands: seq<nat>, taken: seq<nat>, e: seq<nat>, a: seq<nat>, d: seq<nat>, b: seq<nat>)
    requires hands + taken == e + a + d + b
    ensures flow + hands + taken == (flow + e + a) + d + b
  {
    assert flow + hands + taken == flow + (hands + taken);
    var r := e + a + d + b;
    var l := (flow + e + a) + d + b;
    assert flow + r == l;
  }

  lemma FlowSplit(v: View, v': View, e: seq<nat>, a: seq<nat>, d: seq<nat>, b: seq<nat>, taken: seq<nat>)
    requires Hands(v) + taken == e + a + d + b && Hands(v') == a + b
    requires v'.noted == v.noted && v'.out == v.out + e
    ensures Flow(v) + taken == v.noted + v.out + e + a + d + b
    ensures Flow(v') == v.noted + v.out + e + a + b
  {
    Regroup(v.noted + v.out, Hands(v), taken, e, a, d, b);
    assert v.noted + (v.out + e) == v.noted + v.out + e;
    assert v.noted + v.out + e + (a + b) == v.noted + v.out + e + a + b;
  }

  lemma MoveFlow(cfg: Config, s: StreamId, v: View, w: Verdict)
      returns (before: seq<nat>, after: seq<nat>)
    requires CanRun(cfg, s, v, w)
    requires EmitOK(s, Move(cfg, v.proc.value, v.stream, w))
    ensures FlowStep(v, AfterMove(v, Move(cfg, v.proc.value, v.stream, w)), before,
                     DroppedBy(cfg, v.proc.value, w), after, TakenBy(v.proc.value, v.stream))
  {
    var o := Move(cfg, v.proc.value, v.stream, w);
    var a, b := HandsMove(cfg, s, v.proc.value, v.stream, w);
    NumbersMove(cfg, s, v, w);
    FlowSplit(v, AfterMove(v, o), Emitted(o), a, DroppedBy(cfg, v.proc.value, w), b, TakenBy(v.proc.value, v.stream));
    return v.noted + v.out + Emitted(o) + a, b;
  }

  /** Every move of a processor keeps what holds of its stream, and hits no panic. */
  lemma MoveKeeps(cfg: Config, s: StreamId, v: View, w: Verdict)
    requires CanRun(cfg, s, v, w) && FlowOK(v)
    ensures GoodMove(cfg, s, v, Move(cfg, v.proc.value, v.stream, w))
    ensures StreamOK(cfg, s, AfterMove(v, Move(cfg, v.proc.value, v.stream, w)))
  {
    AnyMove(cfg, s, v, w);
    var pr, x := v.proc.value, v.stream;
    var before, after := MoveFlow(cfg, s, v, w);
    FlowMove(v, AfterMove(v, Move(cfg, pr, x, w)), before, DroppedBy(cfg, pr, w), after, TakenBy(pr, x));
  }

  // ------------------------------------------------- the other steps, on a view

  lemma FlowSame(v: View, v': View)
    requires FlowOK(v) && Flow(v') == Flow(v)
    requires v'.stream.awaySeq == v.stream.awaySeq && v'.stream.dropped == v.stream.dropped
    ensures FlowOK(v')
  {
  }

  /** A stream nobody has put an event into. */
  const UNKNOWN := View(NEW_STREAM, None, 0, false, [], None, [])

  function AfterPut(s: StreamId, v: View): View {
    var f := Put(s, v.stream);
    v.(stream := f.stream, charged := if f.charge then v.charged + 1 else v.charged)
  }

  lemma PutLocal(cfg: Config, s: StreamId, v: View)
    requires LocalOK(cfg, s, v)
    ensures LocalOK(cfg, s, AfterPut(s, v))
  {
    var x := v.stream;
    var e := Event(s, x.currentSeq + 1, false);
    var rest := Range(s, x.awaySeq, x.currentSeq);
    assert Range(s, x.awaySeq, x.currentSeq + 1) == rest + [e];
    if x.queue != rest {
      assert x.queue + [e] == [Event(s, x.commitSeq, true)] + (rest + [e]);
    }
  }

  lemma PutKeepsView(cfg: Config, s: StreamId, v: View)
    requires StreamOK(cfg, s, v) || v == UNKNOWN
    ensures StreamOK(cfg, s, AfterPut(s, v))
  {
    if v == UNKNOWN {
      assert Range(s, 0, 0) == [];
      assert Flow(v) == [];
    }
    PutLocal(cfg, s, v);
    FlowSame(v, AfterPut(s, v));
  }

  /** A processor takes a charged stream; no other processor can have it. */
  lemma TakeChargedView(cfg: Config, s: StreamId, v: View, pr: Proc)
    requires StreamOK(cfg, s, v) && v.charged > 0 && IdleOK(cfg, pr)
    ensures v.charged == 1 && v.proc.None?
    ensures StreamOK(cfg, s, v.(proc := Some(pr.(pc := Joined, sid := s)), charged := 0))
  {
    FlowSame(v, v.(proc := Some(pr.(pc := Joined, sid := s)), charged := 0));
  }

  lemma TimeoutView(cfg: Config, s: StreamId, v: View)
    requires StreamOK(cfg, s, v) && v.blocked
    ensures StreamOK(cfg, s, v.(stream := TryUnblock(s, v.stream).stream))
    ensures !TryUnblock(s, v.stream).panic
  {
    var v' := v.(stream := TryUnblock(s, v.stream).stream);
    FlowSame(v, v');
    if v.stream.queue == [] {
      var x := v.stream;
      assert v'.stream.queue == [Event(s, x.commitSeq, true)] + Range(s, x.awaySeq, x.currentSeq);
    }
  }

  lemma NotifyViewKeeps(cfg: Config, s: StreamId, v: View)
    requires StreamOK(cfg, s, v) && v.out != [] && v.committing.None?
    ensures StreamOK(cfg, s, v.(out := v.out[1..], noted := v.noted + [v.out[0]], committing := Some(v.out[0])))
  {
    var v' := v.(out := v.out[1..], noted := v.noted + [v.out[0]], committing := Some(v.out[0]));
    assert v.out == [v.out[0]] + v.out[1..];
    assert Flow(v') == Flow(v);
    FlowSame(v, v');
  }

  function AfterCommit(v: View): View
    requires v.committing.Some?
  {
    var f := Finalize(v.stream, Event(0, v.committing.value, false), false);
    v.(stream := f.stream, charged := if f.charge then v.charged + 1 else v.charged, committing := None)
  }

  /** A commit moves the commit number up to an event that was given away, and frees a
      detaching stream exactly when that event was the last one. */
  lemma CommitViewKeeps(cfg: Config, s: StreamId, v: View)
    requires StreamOK(cfg, s, v) && v.committing.Some?
    ensures StreamOK(cfg, s, AfterCommit(v))
    ensures v.stream.isDetaching ==>
              (v.committing.value == v.stream.awaySeq <==> !AfterCommit(v).stream.isDetaching)
  {
    assert v.committing.value in Flow(v);
    CommitLocal(cfg, s, v);
    FlowSame(v, AfterCommit(v));
  }

  lemma CommitLocal(cfg: Config, s: StreamId, v: View)
    requires LocalOK(cfg, s, v) && v.committing.Some? && v.committing.value <= v.stream.awaySeq
    ensures LocalOK(cfg, s, AfterCommit(v))
  {
  }
}
