/** The batcher: events are collected into batches, workers send the batches in parallel and
    out of order, and commits are put back in order by sequence number.

    A fixed number of batches circulates: the channel of free batches, the batch being
    filled, senders on their way to the channel of full batches, that channel, and the
    workers. Each step below is one section under a mutex, or one channel operation. */
module Batcher {
  import opened Basics

  /** An event and its last known size in bytes. */
  datatype Item<E> = Item(event: E, size: nat)

  datatype Status = NotReady | MaxSizeExceeded | TimeoutExceeded

  datatype Batch<E> = Batch(events: seq<Item<E>>, eventsSize: nat, num: nat, status: Status)

  /** `maxCount` and `maxBytes` are 0 when that limit is not set. */
  datatype Options = Options(workers: nat, maxCount: nat, maxBytes: nat)

  /** `newBatch` refuses a configuration without any limit. */
  predicate ValidOptions(o: Options) {
    o.maxCount != 0 || o.maxBytes != 0
  }

  // ------------------------------------------------------------------ batches

  function Reset<E>(b: Batch<E>): Batch<E> {
    b.(events := [], eventsSize := 0, status := NotReady)
  }

  function Append<E>(b: Batch<E>, x: Item<E>): Batch<E> {
    b.(events := b.events + [x], eventsSize := b.eventsSize + x.size)
  }

  /** `late` stands for the clock: more than the flush timeout since the last reset. */
  function UpdateStatus<E>(o: Options, b: Batch<E>, late: bool): Batch<E> {
    var l := |b.events|;
    b.(status :=
      if (o.maxCount != 0 && l == o.maxCount) || (o.maxBytes != 0 && o.maxBytes <= b.eventsSize) then MaxSizeExceeded
      else if l > 0 && late then TimeoutExceeded
      else NotReady)
  }

  // ------------------------------------------------------------------- state

  datatype Worker<E> =
    | Idle                                  // before receiving from fullBatches
    | InOut(batch: Batch<E>)                // inside OutFn
    | AtGate(batch: Batch<E>)               // waits until its number is up
    | Committing(batch: Batch<E>, next: nat)  // holds seqMu, about to commit event `next`

  /** `senders` are the batches numbered under the mutex and not yet in the channel.
      `sent`, `added` and `committed` are history variables. */
  datatype State<E> = State(
    free: seq<Batch<E>>,
    current: Option<Batch<E>>,
    senders: seq<Batch<E>>,
    full: seq<Batch<E>>,
    workers: seq<Worker<E>>,
    seqMu: Option<nat>,
    outSeq: nat,
    commitSeq: nat,
    panicked: bool,
    sent: seq<Batch<E>>,
    added: seq<E>,
    committed: seq<E>)

  function Init<E>(o: Options): State<E> {
    State(seq(o.workers, _ => Batch([], 0, 0, NotReady)), None, [], [],
          seq(o.workers, _ => Idle), None, 0, 0, false, [], [], [])
  }

  datatype Step<E> =
    | Fetch                                 // getBatch takes a free batch
    | Add(item: Item<E>, late: bool)        // append and trySend, under mu
    | Tick(late: bool)                      // the heartbeat's trySend
    | Push(i: nat)                          // a sender puts its batch into the channel
    | Take(w: nat)                          // a worker receives
    | OutDone(w: nat)                       // OutFn returns
    | Begin(w: nat)                         // the worker's number is up
    | CommitOne(w: nat)                     // one event is committed
    | Finish(w: nat)                        // the batch goes back, seqMu is released

  /** The steps that only move batches that were already sent. */
  predicate Internal<E>(step: Step<E>) {
    step.Push? || step.Take? || step.OutDone? || step.Begin? || step.CommitOne? || step.Finish?
  }

  predicate Enabled<E>(o: Options, st: State<E>, step: Step<E>) {
    match step
    case Fetch => st.current.None? && st.free != []
    case Add(_, _) => st.current.Some?
    case Tick(_) => st.current.Some?
    case Push(i) => i < |st.senders| && |st.full| < o.workers
    case Take(w) => w < |st.workers| && st.workers[w].Idle? && st.full != []
    case OutDone(w) => w < |st.workers| && st.workers[w].InOut?
    case Begin(w) =>
      w < |st.workers| && st.workers[w].AtGate? && st.seqMu.None? && st.commitSeq == st.workers[w].batch.num
    case CommitOne(w) =>
      w < |st.workers| && st.workers[w].Committing? && st.workers[w].next < |st.workers[w].batch.events|
    case Finish(w) =>
      && w < |st.workers| && st.workers[w].Committing? && st.workers[w].next >= |st.workers[w].batch.events|
      && |st.free| < o.workers
  }

  /** `trySendBatchAndUnlock` up to the unlock. */
  function TrySend<E>(o: Options, st: State<E>, b: Batch<E>, late: bool): State<E> {
    var b1 := UpdateStatus(o, b, late);
    if b1.status == NotReady then
      st.(current := Some(b1))
    else
      var b2 := b1.(num := st.outSeq);
      st.(current := None, outSeq := st.outSeq + 1, senders := st.senders + [b2], sent := st.sent + [b2])
  }

  function Apply<E>(o: Options, st: State<E>, step: Step<E>): State<E>
    requires Enabled(o, st, step)
  {
    match step
    case Fetch => st.(current := Some(Reset(st.free[0])), free := st.free[1..])
    case Add(x, late) =>
      TrySend(o, st.(added := st.added + [x.event]), Append(st.current.value, x), late)
    case Tick(late) => TrySend(o, st, st.current.value, late)
    case Push(i) =>
      st.(full := st.full + [st.senders[i]], senders := st.senders[..i] + st.senders[i + 1..])
    case Take(w) =>
      st.(workers := st.workers[w := InOut(st.full[0])], full := st.full[1..])
    case OutDone(w) => st.(workers := st.workers[w := AtGate(st.workers[w].batch)])
    case Begin(w) =>
      st.(workers := st.workers[w := Committing(st.workers[w].batch, 0)],
          seqMu := Some(w), commitSeq := st.commitSeq + 1)
    case CommitOne(w) =>
      var x := st.workers[w];
      st.(workers := st.workers[w := x.(next := x.next + 1)],
          committed := st.committed + [x.batch.events[x.next].event])
    case Finish(w) =>
      var b := st.workers[w].batch;
      st.(workers := st.workers[w := Idle], free := st.free + [b], seqMu := None,
          panicked := st.panicked || b.status == NotReady)
  }

  /** The steps can be taken one after the other from `st`. */
  ghost predicate ValidFrom<E>(o: Options, st: State<E>, steps: seq<Step<E>>)
    decreases |steps|, 0
  {
    steps == [] ||
    (ValidFrom(o, st, steps[..|steps| - 1]) &&
     Enabled(o, ExecFrom(o, st, steps[..|steps| - 1]), steps[|steps| - 1]))
  }

  ghost function ExecFrom<E>(o: Options, st: State<E>, steps: seq<Step<E>>): State<E>
    requires ValidFrom(o, st, steps)
    decreases |steps|, 1
  {
    if steps == [] then st
    else Apply(o, ExecFrom(o, st, steps[..|steps| - 1]), steps[|steps| - 1])
  }

  // ---------------------------------------------------------------- invariant

  function SizeOf<E>(): Item<E> -> nat {
    (x: Item<E>) => x.size
  }

  function Events<E>(items: seq<Item<E>>): (r: seq<E>)
    ensures |r| == |items| && forall i | 0 <= i < |r| :: r[i] == items[i].event
  {
    seq(|items|, i requires 0 <= i < |items| => items[i].event)
  }

  /** All events of the batches, in order. */
  ghost function Flat<E>(bs: seq<Batch<E>>): seq<E> {
    if bs == [] then [] else Flat(bs[..|bs| - 1]) + Events(bs[|bs| - 1].events)
  }

  /** The batch that is being filled: below every limit. */
  ghost predicate Filling<E>(o: Options, b: Batch<E>) {
    && b.eventsSize == Sum(b.events, SizeOf())
    && (o.maxCount != 0 ==> |b.events| < o.maxCount)
    && (o.maxBytes != 0 ==> b.eventsSize < o.maxBytes)
  }

  /** A batch that was sent: it holds something, at most `maxCount` events, and would be
      below `maxBytes` without its last event. */
  ghost predicate Shaped<E>(o: Options, b: Batch<E>) {
    && b.status != NotReady
    && |b.events| > 0
    && (o.maxCount != 0 ==> |b.events| <= o.maxCount)
    && (o.maxBytes != 0 ==> Sum(b.events[..|b.events| - 1], SizeOf()) < o.maxBytes)
  }

  function Carries<E>(n: nat): Batch<E> -> nat {
    (b: Batch<E>) => if b.num == n then 1 else 0
  }

  function WorkerCarries<E>(n: nat): Worker<E> -> nat {
    (x: Worker<E>) => if (x.InOut? || x.AtGate?) && x.batch.num == n then 1 else 0
  }

  function IsBusy<E>(): Worker<E> -> nat {
    (x: Worker<E>) => if x.Idle? then 0 else 1
  }

  /** How many batches carry number `n` and wait for their commit. */
  ghost function Carriers<E>(st: State<E>, n: nat): nat {
    Sum(st.senders, Carries(n)) + Sum(st.full, Carries(n)) + Sum(st.workers, WorkerCarries(n))
  }

  ghost function Total<E>(st: State<E>): nat {
    |st.free| + (if st.current.Some? then 1 else 0) + |st.senders| + |st.full| + Sum(st.workers, IsBusy())
  }

  /** The batches that are back, or will be when the current commit is through. */
  function Done<E>(st: State<E>): int {
    if st.seqMu.Some? then st.commitSeq - 1 else st.commitSeq
  }

  /** A batch in flight is the one that was sent under its number. */
  ghost predicate Genuine<E>(sent: seq<Batch<E>>, b: Batch<E>) {
    b.num < |sent| && sent[b.num] == b
  }

  ghost predicate AllGenuine<E>(sent: seq<Batch<E>>, bs: seq<Batch<E>>) {
    forall i :: 0 <= i < |bs| ==> Genuine(sent, bs[i])
  }

  ghost predicate CountOK<E>(o: Options, st: State<E>) {
    && |st.workers| == o.workers
    && Total(st) == o.workers
    && (forall n: nat :: Carriers(st, n) == if st.commitSeq <= n < st.outSeq then 1 else 0)
  }

  ghost predicate WorkersOK<E>(sent: seq<Batch<E>>, workers: seq<Worker<E>>, seqMu: Option<nat>, commitSeq: nat) {
    && (forall w :: 0 <= w < |workers| ==>
          && (!workers[w].Idle? ==> Genuine(sent, workers[w].batch))
          && (workers[w].Committing? <==> seqMu == Some(w)))
    && (seqMu.Some? ==>
          && seqMu.value < |workers|
          && var x := workers[seqMu.value];
          x.Committing? && x.batch.num + 1 == commitSeq && x.next <= |x.batch.events|)
  }

  ghost predicate FlightOK<E>(o: Options, st: State<E>) {
    && |st.sent| == st.outSeq
    && st.commitSeq <= st.outSeq
    && (forall i :: 0 <= i < |st.sent| ==> Shaped(o, st.sent[i]))
    && AllGenuine(st.sent, st.senders)
    && AllGenuine(st.sent, st.full)
    && WorkersOK(st.sent, st.workers, st.seqMu, st.commitSeq)
  }

  /** What is being committed right now. */
  ghost function Partial<E>(workers: seq<Worker<E>>, seqMu: Option<nat>): seq<E> {
    if seqMu.Some? && seqMu.value < |workers| && workers[seqMu.value].Committing?
       && workers[seqMu.value].next <= |workers[seqMu.value].batch.events|
    then Events(workers[seqMu.value].batch.events[..workers[seqMu.value].next])
    else []
  }

  ghost predicate CommitOK<E>(st: State<E>) {
    && 0 <= Done(st) <= |st.sent|
    && st.committed == Flat(st.sent[..Done(st)]) + Partial(st.workers, st.seqMu)
  }

  ghost predicate OrderOK<E>(o: Options, st: State<E>) {
    && st.added == Flat(st.sent) + (if st.current.Some? then Events(st.current.value.events) else [])
    && (st.current.Some? ==> Filling(o, st.current.value))
    && CommitOK(st)
  }

  ghost predicate Inv<E>(o: Options, st: State<E>) {
    && !st.panicked
    && CountOK(o, st)
    && FlightOK(o, st)
    && OrderOK(o, st)
  }

  // ------------------------------------------------------------ preservation

  lemma InitInv<E>(o: Options)
    ensures Inv<E>(o, Init(o))
  {
    var st := Init<E>(o);
    SumZero(st.workers, IsBusy());
    forall n: nat
      ensures Carriers(st, n) == 0
    {
      SumZero(st.workers, WorkerCarries(n));
    }
  }

  lemma FlatSnoc<E>(bs: seq<Batch<E>>, b: Batch<E>)
    ensures Flat(bs + [b]) == Flat(bs) + Events(b.events)
  {
    assert (bs + [b])[..|bs|] == bs;
  }

  lemma EventsSnoc<E>(items: seq<Item<E>>, x: Item<E>)
    ensures Events(items + [x]) == Events(items) + [x.event]
  {
  }

  /** What holds of the batch about to be sent or put back: below the limits except perhaps
      for its last event. */
  ghost predicate Fillable<E>(o: Options, b: Batch<E>) {
    && b.eventsSize == Sum(b.events, SizeOf())
    && (o.maxCount != 0 ==> |b.events| <= o.maxCount)
    && (o.maxBytes != 0 && b.events != [] ==> Sum(b.events[..|b.events| - 1], SizeOf()) < o.maxBytes)
  }

  lemma FillingIsFillable<E>(o: Options, b: Batch<E>)
    requires Filling(o, b)
    ensures Fillable(o, b)
  {
  }

  lemma AppendFillable<E>(o: Options, b: Batch<E>, x: Item<E>)
    requires Filling(o, b)
    ensures Fillable(o, Append(b, x))
  {
    SumSnoc(b.events, x, SizeOf());
    assert (b.events + [x])[..|b.events|] == b.events;
  }

  /** The batch has reached a limit that is set. */
  ghost predicate AtLimit<E>(o: Options, items: seq<Item<E>>) {
    || (o.maxCount != 0 && |items| == o.maxCount)
    || (o.maxBytes != 0 && Sum(items, SizeOf()) >= o.maxBytes)
  }

  /** The status tells exactly whether the batch stays open or is in the shape to be sent: it is sent
      if and only if it has reached a limit, or holds something and is late. */
  lemma StatusDecides<E>(o: Options, b: Batch<E>, late: bool)
    requires ValidOptions(o) && Fillable(o, b)
    ensures var b1 := UpdateStatus(o, b, late);
            && b1.events == b.events
            && (b1.status != NotReady <==> AtLimit(o, b.events) || (late && b.events != []))
            && if b1.status == NotReady then Filling(o, b1) else Shaped(o, b1)
  {
  }

  lemma SendCounts<E>(o: Options, st: State<E>, b: Batch<E>)
    requires CountOK(o, st) && FlightOK(o, st) && st.current.Some? && b.num == st.outSeq
    ensures CountOK(o, st.(current := None, outSeq := st.outSeq + 1, senders := st.senders + [b]))
  {
    var st' := st.(current := None, outSeq := st.outSeq + 1, senders := st.senders + [b]);
    forall n: nat
      ensures Carriers(st', n) == if st'.commitSeq <= n < st'.outSeq then 1 else 0
    {
      assert Carriers(st, n) == if st.commitSeq <= n < st.outSeq then 1 else 0;
      SumSnoc(st.senders, b, Carries(n));
    }
  }

  lemma GenuineGrows<E>(sent: seq<Batch<E>>, b: Batch<E>, bs: seq<Batch<E>>)
    requires AllGenuine(sent, bs)
    ensures AllGenuine(sent + [b], bs)
  {
  }

  lemma GenuineRemove<E>(sent: seq<Batch<E>>, bs: seq<Batch<E>>, i: nat)
    requires AllGenuine(sent, bs) && i < |bs|
    ensures AllGenuine(sent, bs[..i] + bs[i + 1..])
  {
    var r := bs[..i] + bs[i + 1..];
    forall k | 0 <= k < |r|
      ensures Genuine(sent, r[k])
    {
      assert r[k] == bs[if k < i then k else k + 1];
    }
  }

  lemma SendFlight<E>(o: Options, st: State<E>, b: Batch<E>)
    requires FlightOK(o, st) && Shaped(o, b) && b.num == st.outSeq
    ensures FlightOK(o, st.(current := None, outSeq := st.outSeq + 1,
                                senders := st.senders + [b], sent := st.sent + [b]))
  {
    GenuineGrows(st.sent, b, st.senders);
    GenuineGrows(st.sent, b, st.full);
  }

  lemma CountFrame<E>(o: Options, st: State<E>, st': State<E>)
    requires CountOK(o, st)
    requires st'.senders == st.senders && st'.full == st.full && st'.workers == st.workers
    requires st'.commitSeq == st.commitSeq && st'.outSeq == st.outSeq
    requires Total(st') == Total(st)
    ensures CountOK(o, st')
  {
    assert forall n: nat :: Carriers(st', n) == Carriers(st, n);
  }

  lemma SendKeeps<E>(o: Options, st: State<E>, b: Batch<E>)
    requires !st.panicked && CountOK(o, st) && FlightOK(o, st) && CommitOK(st)
    requires st.current.Some? && Shaped(o, b) && b.num == st.outSeq
    requires st.added == Flat(st.sent) + Events(b.events)
    ensures Inv(o, st.(current := None, outSeq := st.outSeq + 1, senders := st.senders + [b], sent := st.sent + [b]))
  {
    var mid := st.(current := None, outSeq := st.outSeq + 1, senders := st.senders + [b]);
    var st' := mid.(sent := st.sent + [b]);
    SendCounts(o, st, b);
    CountFrame(o, mid, st');
    SendFlight(o, st, b);
    FlatSnoc(st.sent, b);
    assert st'.sent[..Done(st)] == st.sent[..Done(st)];
  }

  /** A batch in the shape that `updateStatus` wants, with the events added so far. */
  lemma TrySendKeeps<E>(o: Options, st: State<E>, b: Batch<E>, late: bool)
    requires ValidOptions(o) && !st.panicked && CountOK(o, st) && FlightOK(o, st) && CommitOK(st)
    requires st.current.Some? && Fillable(o, b)
    requires st.added == Flat(st.sent) + Events(b.events)
    ensures Inv(o, TrySend(o, st, b, late))
  {
    var b1 := UpdateStatus(o, b, late);
    StatusDecides(o, b, late);
    if b1.status == NotReady {
      CountFrame(o, st, st.(current := Some(b1)));
    } else {
      SendKeeps(o, st, b1.(num := st.outSeq));
    }
  }

  lemma FetchKeeps<E>(o: Options, st: State<E>)
    requires ValidOptions(o) && Inv(o, st) && Enabled(o, st, Fetch)
    ensures Inv(o, Apply(o, st, Fetch))
  {
    var st' := Apply(o, st, Fetch);
    CountFrame(o, st, st');
    assert Events(Reset(st.free[0]).events) == [];
  }

  lemma AddKeeps<E>(o: Options, st: State<E>, x: Item<E>, late: bool)
    requires ValidOptions(o) && Inv(o, st) && Enabled(o, st, Add(x, late))
    ensures Inv(o, Apply(o, st, Add(x, late)))
  {
    var b := st.current.value;
    var st0 := st.(added := st.added + [x.event]);
    AppendFillable(o, b, x);
    EventsSnoc(b.events, x);
    CountFrame(o, st, st0);
    TrySendKeeps(o, st0, Append(b, x), late);
  }

  lemma PushCounts<E>(o: Options, st: State<E>, i: nat)
    requires CountOK(o, st) && Enabled(o, st, Push(i))
    ensures CountOK(o, Apply(o, st, Push(i)))
  {
    var st' := Apply(o, st, Push(i));
    forall n: nat
      ensures Carriers(st', n) == Carriers(st, n)
    {
      SumRemove(st.senders, i, Carries(n));
      SumSnoc(st.full, st.senders[i], Carries(n));
    }
  }

  lemma PushKeeps<E>(o: Options, st: State<E>, i: nat)
    requires Inv(o, st) && Enabled(o, st, Push(i))
    ensures Inv(o, Apply(o, st, Push(i)))
  {
    PushCounts(o, st, i);
    GenuineRemove(st.sent, st.senders, i);
  }

  /** A worker's move as far as the counting goes. */
  lemma WorkerCounts<E>(o: Options, st: State<E>, w: nat, x: Worker<E>)
    requires w < |st.workers|
    ensures var st' := st.(workers := st.workers[w := x]);
            && (forall n: nat :: Carriers(st', n) + WorkerCarries(n)(st.workers[w])
                   == Carriers(st, n) + WorkerCarries(n)(x))
            && Total(st') + IsBusy()(st.workers[w]) == Total(st) + IsBusy()(x)
  {
    var st' := st.(workers := st.workers[w := x]);
    SumUpdate(st.workers, w, x, IsBusy());
    forall n: nat
      ensures Carriers(st', n) + WorkerCarries(n)(st.workers[w]) == Carriers(st, n) + WorkerCarries(n)(x)
    {
      SumUpdate(st.workers, w, x, WorkerCarries(n));
    }
  }

  lemma TakeCounts<E>(o: Options, st: State<E>, w: nat)
    requires CountOK(o, st) && Enabled(o, st, Take(w))
    ensures CountOK(o, Apply(o, st, Take(w)))
  {
    var st' := Apply(o, st, Take(w));
    WorkerCounts(o, st, w, InOut(st.full[0]));
    var mid := st.(workers := st'.workers);
    forall n: nat
      ensures Carriers(st', n) == Carriers(st, n)
    {
      SumHead(st.full, Carries(n));
      assert Carriers(mid, n) + WorkerCarries(n)(st.workers[w]) == Carriers(st, n) + WorkerCarries(n)(st'.workers[w]);
    }
    assert Total(mid) == Total(st) + 1;
  }

  lemma TakeKeeps<E>(o: Options, st: State<E>, w: nat)
    requires Inv(o, st) && Enabled(o, st, Take(w))
    ensures Inv(o, Apply(o, st, Take(w)))
  {
    TakeCounts(o, st, w);
  }

  lemma OutDoneCounts<E>(o: Options, st: State<E>, w: nat)
    requires CountOK(o, st) && Enabled(o, st, OutDone(w))
    ensures CountOK(o, Apply(o, st, OutDone(w)))
  {
    var x := AtGate(st.workers[w].batch);
    WorkerCounts(o, st, w, x);
    forall n: nat
      ensures Carriers(Apply(o, st, OutDone(w)), n) == Carriers(st, n)
    {
      assert WorkerCarries(n)(st.workers[w]) == WorkerCarries(n)(x);
    }
  }

  lemma OutDoneFlight<E>(o: Options, st: State<E>, w: nat)
    requires FlightOK(o, st) && Enabled(o, st, OutDone(w))
    ensures FlightOK(o, Apply(o, st, OutDone(w)))
    ensures st.seqMu != Some(w)
  {
  }

  lemma OutDoneKeeps<E>(o: Options, st: State<E>, w: nat)
    requires Inv(o, st) && Enabled(o, st, OutDone(w))
    ensures Inv(o, Apply(o, st, OutDone(w)))
  {
    OutDoneCounts(o, st, w);
    OutDoneFlight(o, st, w);
    assert Partial(Apply(o, st, OutDone(w)).workers, st.seqMu) == Partial(st.workers, st.seqMu);
  }

  lemma BeginCounts<E>(o: Options, st: State<E>, w: nat)
    requires CountOK(o, st) && Enabled(o, st, Begin(w)) && st.commitSeq < st.outSeq
    ensures CountOK(o, Apply(o, st, Begin(w)))
  {
    var st' := Apply(o, st, Begin(w));
    var mid := st.(workers := st'.workers);
    WorkerCounts(o, st, w, Committing(st.workers[w].batch, 0));
    forall n: nat
      ensures Carriers(st', n) == if st'.commitSeq <= n < st'.outSeq then 1 else 0
    {
      assert Carriers(st', n) == Carriers(mid, n);
      assert Carriers(st, n) == if st.commitSeq <= n < st.outSeq then 1 else 0;
    }
  }

  lemma BeginKeeps<E>(o: Options, st: State<E>, w: nat)
    requires Inv(o, st) && Enabled(o, st, Begin(w))
    ensures Inv(o, Apply(o, st, Begin(w)))
  {
    assert Genuine(st.sent, st.workers[w].batch);
    BeginCounts(o, st, w);
    assert Events(st.workers[w].batch.events[..0]) == [];
  }

  lemma CommitOneCounts<E>(o: Options, st: State<E>, w: nat)
    requires CountOK(o, st) && Enabled(o, st, CommitOne(w))
    ensures CountOK(o, Apply(o, st, CommitOne(w)))
  {
    var st' := Apply(o, st, CommitOne(w));
    var x := st.workers[w];
    WorkerCounts(o, st, w, x.(next := x.next + 1));
    assert forall n: nat :: Carriers(st', n) == Carriers(st.(workers := st'.workers), n);
  }

  lemma CommitOneKeeps<E>(o: Options, st: State<E>, w: nat)
    requires Inv(o, st) && Enabled(o, st, CommitOne(w))
    ensures Inv(o, Apply(o, st, CommitOne(w)))
  {
    var x := st.workers[w];
    CommitOneCounts(o, st, w);
    assert x.batch.events[..x.next + 1] == x.batch.events[..x.next] + [x.batch.events[x.next]];
    EventsSnoc(x.batch.events[..x.next], x.batch.events[x.next]);
  }

  lemma FinishCounts<E>(o: Options, st: State<E>, w: nat)
    requires CountOK(o, st) && Enabled(o, st, Finish(w))
    ensures CountOK(o, Apply(o, st, Finish(w)))
  {
    var st' := Apply(o, st, Finish(w));
    WorkerCounts(o, st, w, Idle);
    assert forall n: nat :: Carriers(st', n) == Carriers(st.(workers := st'.workers), n);
  }

  lemma FinishFlight<E>(o: Options, st: State<E>, w: nat)
    requires FlightOK(o, st) && Enabled(o, st, Finish(w))
    ensures FlightOK(o, Apply(o, st, Finish(w)))
    ensures st.workers[w].batch.status != NotReady
  {
    assert Genuine(st.sent, st.workers[w].batch) && Shaped(o, st.sent[st.workers[w].batch.num]);
  }

  lemma FinishCommits<E>(o: Options, st: State<E>, w: nat)
    requires FlightOK(o, st) && CommitOK(st) && Enabled(o, st, Finish(w))
    ensures CommitOK(Apply(o, st, Finish(w)))
  {
    var x := st.workers[w];
    assert st.seqMu == Some(w) && Genuine(st.sent, x.batch);
    assert x.batch.events[..x.next] == x.batch.events;
    assert st.sent[..st.commitSeq] == st.sent[..st.commitSeq - 1] + [x.batch];
    FlatSnoc(st.sent[..st.commitSeq - 1], x.batch);
  }

  lemma FinishKeeps<E>(o: Options, st: State<E>, w: nat)
    requires Inv(o, st) && Enabled(o, st, Finish(w))
    ensures Inv(o, Apply(o, st, Finish(w)))
  {
    FinishCounts(o, st, w);
    FinishFlight(o, st, w);
    FinishCommits(o, st, w);
  }

  lemma StepKeeps<E>(o: Options, st: State<E>, step: Step<E>)
    requires ValidOptions(o) && Inv(o, st) && Enabled(o, st, step)
    ensures Inv(o, Apply(o, st, step))
  {
    match step
    case Fetch => FetchKeeps(o, st);
    case Add(x, late) => AddKeeps(o, st, x, late);
    case Tick(late) =>
      FillingIsFillable(o, st.current.value);
      TrySendKeeps(o, st, st.current.value, late);
    case Push(i) => PushKeeps(o, st, i);
    case Take(w) => TakeKeeps(o, st, w);
    case OutDone(w) => OutDoneKeeps(o, st, w);
    case Begin(w) => BeginKeeps(o, st, w);
    case CommitOne(w) => CommitOneKeeps(o, st, w);
    case Finish(w) => FinishKeeps(o, st, w);
  }

  lemma {:induction false} RunKeeps<E>(o: Options, st: State<E>, steps: seq<Step<E>>)
    requires ValidOptions(o) && Inv(o, st) && ValidFrom(o, st, steps)
    ensures Inv(o, ExecFrom(o, st, steps))
  {
    if steps != [] {
      var l := |steps| - 1;
      RunKeeps(o, st, steps[..l]);
      StepKeeps(o, ExecFrom(o, st, steps[..l]), steps[l]);
    }
  }

  // ------------------------------------------------------------ main results

  lemma {:induction false} FlatPrefix<E>(bs: seq<Batch<E>>, k: nat)
    requires k <= |bs|
    ensures Flat(bs[..k]) <= Flat(bs)
  {
    if k < |bs| {
      FlatPrefix(bs[..|bs| - 1], k);
      assert bs[..|bs| - 1][..k] == bs[..k];
    } else {
      assert bs[..k] == bs;
    }
  }

  /** In every run, what is committed is a prefix of what was added: in order, each event
      once, none skipped. Every batch sent has the shape the limits ask for, and the
      "unreachable" panic stays unreachable. */
  lemma CommittedIsPrefix<E>(o: Options, steps: seq<Step<E>>)
    requires ValidOptions(o) && ValidFrom(o, Init(o), steps)
    ensures var st := ExecFrom(o, Init(o), steps);
            && st.committed <= st.added
            && (forall b :: b in st.sent ==> Shaped(o, b))
            && !st.panicked
  {
    InitInv<E>(o);
    RunKeeps(o, Init(o), steps);
    InvPrefix(o, ExecFrom(o, Init(o), steps));
  }

  // --------------------------------------------------------- why a batch is sent

  /** The step is the turn of a clock that has run out. */
  predicate IsLate<E>(step: Step<E>) {
    (step.Add? || step.Tick?) && step.late
  }

  /** The items that a step leaves in the current batch, before it is looked at. */
  function Pending<E>(st: State<E>, step: Step<E>): seq<Item<E>>
    requires st.current.Some?
  {
    st.current.value.events + if step.Add? then [step.item] else []
  }

  /** A batch is sent exactly by an `Add` or `Tick` that finds it at a limit, or finds something in
      it and is late. */
  lemma SendsIff<E>(o: Options, st: State<E>, step: Step<E>)
    requires ValidOptions(o) && Inv(o, st) && Enabled(o, st, step)
    ensures var st' := Apply(o, st, step);
            if (step.Add? || step.Tick?)
               && (AtLimit(o, Pending(st, step)) || (IsLate(step) && Pending(st, step) != []))
            then
              && |st'.sent| == |st.sent| + 1 && st'.sent[..|st.sent|] == st.sent
              && st'.sent[|st.sent|].events == Pending(st, step)
            else st'.sent == st.sent
  {
    if step.Add? {
      AppendFillable(o, st.current.value, step.item);
      StatusDecides(o, Append(st.current.value, step.item), step.late);
    } else if step.Tick? {
      FillingIsFillable(o, st.current.value);
      assert st.current.value.events + [] == st.current.value.events;
      StatusDecides(o, st.current.value, step.late);
    }
  }

  /** The number of the batch that a late step sends, if it sends one. */
  function LateSend<E>(o: Options, st: State<E>, step: Step<E>): set<nat>
    requires Enabled(o, st, step)
  {
    if IsLate(step) && |Apply(o, st, step).sent| > |st.sent| then {|st.sent|} else {}
  }

  ghost function LateSends<E>(o: Options, st: State<E>, steps: seq<Step<E>>): set<nat>
    requires ValidFrom(o, st, steps)
    decreases |steps|
  {
    if steps == [] then {}
    else
      var n := |steps| - 1;
      LateSends(o, st, steps[..n]) + LateSend(o, ExecFrom(o, st, steps[..n]), steps[n])
  }

  ghost predicate Explained<E>(o: Options, st: State<E>, late: set<nat>, i: nat) {
    i < |st.sent| ==> AtLimit(o, st.sent[i].events) || i in late
  }

  lemma StepExplains<E>(o: Options, st: State<E>, step: Step<E>, late: set<nat>, i: nat)
    requires ValidOptions(o) && Inv(o, st) && Enabled(o, st, step) && Explained(o, st, late, i)
    ensures Explained(o, Apply(o, st, step), late + LateSend(o, st, step), i)
  {
    SendsIff(o, st, step);
    if i < |st.sent| {
      assert Apply(o, st, step).sent[i] == st.sent[i];
    }
  }

  /** In every run, a batch that was not sent by a late step had reached a limit. */
  lemma {:induction false} SentForAReason<E>(o: Options, steps: seq<Step<E>>, i: nat)
    requires ValidOptions(o) && ValidFrom(o, Init(o), steps)
    ensures Explained(o, ExecFrom(o, Init(o), steps), LateSends(o, Init(o), steps), i)
    decreases |steps|
  {
    if steps != [] {
      var n := |steps| - 1;
      SentForAReason(o, steps[..n], i);
      InitInv<E>(o);
      RunKeeps(o, Init(o), steps[..n]);
      StepExplains(o, ExecFrom(o, Init(o), steps[..n]), steps[n], LateSends(o, Init(o), steps[..n]), i);
    }
  }

  lemma {:induction false} NoLateSends<E>(o: Options, st: State<E>, steps: seq<Step<E>>)
    requires ValidFrom(o, st, steps) && forall x :: x in steps ==> !IsLate(x)
    ensures LateSends(o, st, steps) == {}
    decreases |steps|
  {
    if steps != [] {
      var n := |steps| - 1;
      assert steps[n] in steps && forall x :: x in steps[..n] ==> x in steps;
      NoLateSends(o, st, steps[..n]);
    }
  }

  /** So a run without late steps sends no batch below its limits. */
  lemma NothingSentEarly<E>(o: Options, steps: seq<Step<E>>, i: nat)
    requires ValidOptions(o) && ValidFrom(o, Init(o), steps) && forall x :: x in steps ==> !IsLate(x)
    requires i < |ExecFrom(o, Init(o), steps).sent|
    ensures AtLimit(o, ExecFrom(o, Init(o), steps).sent[i].events)
  {
    SentForAReason(o, steps, i);
    NoLateSends(o, Init(o), steps);
  }

  lemma CommittedInSent<E>(o: Options, st: State<E>)
    requires FlightOK(o, st) && CommitOK(st)
    ensures st.committed <= Flat(st.sent)
  {
    var d := Done(st);
    if st.seqMu.Some? {
      var x := st.workers[st.seqMu.value];
      assert Genuine(st.sent, x.batch) && st.sent[d] == x.batch;
      assert st.sent[..d + 1] == st.sent[..d] + [x.batch];
      FlatSnoc(st.sent[..d], x.batch);
      FlatPrefix(st.sent, d + 1);
      assert Events(x.batch.events[..x.next]) <= Events(x.batch.events);
    } else {
      FlatPrefix(st.sent, d);
    }
  }

  lemma InvPrefix<E>(o: Options, st: State<E>)
    requires Inv(o, st)
    ensures st.committed <= st.added
  {
    CommittedInSent(o, st);
  }

  /** Neither channel send can block: a sender finds room in `fullBatches`, and the worker
      that finishes a commit finds room in `freeBatches`. */
  lemma SendsNeverBlock<E>(o: Options, st: State<E>)
    requires Inv(o, st)
    ensures st.senders != [] ==> |st.full| < o.workers
    ensures forall w :: 0 <= w < |st.workers| && st.workers[w].Committing? ==> |st.free| < o.workers
  {
    forall w | 0 <= w < |st.workers| && st.workers[w].Committing?
      ensures |st.free| < o.workers
    {
      SumAtLeast(st.workers, w, IsBusy());
    }
  }

  /** The worker that commits at the moment can go on. */
  lemma CommitterCanMove<E>(o: Options, st: State<E>)
    requires Inv(o, st) && st.seqMu.Some?
    ensures Enabled(o, st, CommitOne(st.seqMu.value)) || Enabled(o, st, Finish(st.seqMu.value))
  {
    SendsNeverBlock(o, st);
  }

  /** Where the batch is whose number is up. */
  datatype Where = WithSender(i: nat) | Queued(i: nat, idle: nat) | WithWorker(w: nat)

  /** By counting, the batch numbered `commitSeq` is with a sender that can send, in the
      channel while a worker is idle, or with a worker that can go on, if only after the one that
      commits at the moment and can go on itself. */
  lemma NextCommitCanMove<E>(o: Options, st: State<E>) returns (where: Where)
    requires Inv(o, st) && st.commitSeq < st.outSeq
    ensures match where
            case WithSender(i) => Enabled(o, st, Push(i)) && st.senders[i].num == st.commitSeq
            case Queued(i, w) => i < |st.full| && st.full[i].num == st.commitSeq && Enabled(o, st, Take(w))
            case WithWorker(w) =>
              && w < |st.workers| && !st.workers[w].Idle? && st.workers[w].batch.num == st.commitSeq
              && (|| Enabled(o, st, OutDone(w))
                  || Enabled(o, st, Begin(w))
                  || (&& st.workers[w].AtGate? && st.seqMu.Some?
                      && (Enabled(o, st, CommitOne(st.seqMu.value)) || Enabled(o, st, Finish(st.seqMu.value)))))
  {
    var n := st.commitSeq;
    assert Carriers(st, n) == 1;
    if Sum(st.senders, Carries(n)) > 0 {
      SendsNeverBlock(o, st);
      var i := SumWitness(st.senders, Carries(n));
      where := WithSender(i);
    } else if Sum(st.full, Carries(n)) > 0 {
      var i := SumWitness(st.full, Carries(n));
      assert Sum(st.workers, IsBusy()) < |st.workers|;
      var w := Pigeonhole(st.workers, IsBusy());
      where := Queued(i, w);
    } else {
      var w := SumWitness(st.workers, WorkerCarries(n));
      if st.seqMu.Some? {
        CommitterCanMove(o, st);
      }
      where := WithWorker(w);
    }
  }

  /** Work still to do: the moves of a batch and the commits of its events. */
  function BatchWork<E>(extra: nat): Batch<E> -> nat {
    (b: Batch<E>) => |b.events| + extra
  }

  function WorkerWork<E>(): Worker<E> -> nat {
    (x: Worker<E>) =>
      match x
      case Idle => 0
      case InOut(b) => |b.events| + 3
      case AtGate(b) => |b.events| + 2
      case Committing(b, k) => (if k <= |b.events| then |b.events| - k else 0) + 1
  }

  ghost function Work<E>(st: State<E>): nat {
    Sum(st.senders, BatchWork(5)) + Sum(st.full, BatchWork(4)) + Sum(st.workers, WorkerWork())
  }

  lemma InternalDecreases<E>(o: Options, st: State<E>, step: Step<E>)
    requires Enabled(o, st, step) && Internal(step)
    ensures Work(Apply(o, st, step)) < Work(st)
  {
    match step
    case Push(i) =>
      SumRemove(st.senders, i, BatchWork(5));
      SumSnoc(st.full, st.senders[i], BatchWork(4));
    case Take(w) =>
      SumHead(st.full, BatchWork(4));
      SumUpdate(st.workers, w, InOut(st.full[0]), WorkerWork());
    case OutDone(w) => SumUpdate(st.workers, w, AtGate(st.workers[w].batch), WorkerWork());
    case Begin(w) => SumUpdate(st.workers, w, Committing(st.workers[w].batch, 0), WorkerWork());
    case CommitOne(w) =>
      var x := st.workers[w];
      SumUpdate(st.workers, w, x.(next := x.next + 1), WorkerWork());
    case Finish(w) => SumUpdate(st.workers, w, Idle, WorkerWork());
  }

  /** While anything sent is not fully committed, some step that needs no new event and no
      clock is enabled. */
  lemma NotStuck<E>(o: Options, st: State<E>) returns (step: Step<E>)
    requires Inv(o, st) && Done(st) < st.outSeq
    ensures Internal(step) && Enabled(o, st, step)
  {
    SendsNeverBlock(o, st);
    if st.seqMu.Some? {
      var w := st.seqMu.value;
      step := if st.workers[w].next < |st.workers[w].batch.events| then CommitOne(w) else Finish(w);
    } else {
      var where := NextCommitCanMove(o, st);
      match where
      case WithSender(i) => step := Push(i);
      case Queued(_, w) => step := Take(w);
      case WithWorker(w) => step := if st.workers[w].InOut? then OutDone(w) else Begin(w);
    }
  }

  lemma InternalFrame<E>(o: Options, st: State<E>, step: Step<E>)
    requires Enabled(o, st, step) && Internal(step)
    ensures var st' := Apply(o, st, step);
            st'.sent == st.sent && st'.outSeq == st.outSeq && st'.added == st.added && st'.current == st.current
  {
  }

  /** The pipeline behind the batcher always drains: from every reachable state there is a
      way to commit everything that was sent, and since every such step lowers `Work`, no
      other order of these steps can go on for ever. */
  lemma {:induction false} Drains<E>(o: Options, st: State<E>) returns (steps: seq<Step<E>>)
    requires ValidOptions(o) && Inv(o, st)
    ensures forall x :: x in steps ==> Internal(x)
    ensures ValidFrom(o, st, steps)
    ensures var st' := ExecFrom(o, st, steps);
            && st'.sent == st.sent && st'.added == st.added && st'.current == st.current
            && st'.committed == Flat(st.sent)
    ensures |steps| <= Work(st)
    decreases Work(st)
  {
    if Done(st) >= st.outSeq {
      steps := [];
      assert st.sent[..Done(st)] == st.sent;
      assert st.seqMu.None?;
    } else {
      var step := NotStuck(o, st);
      InternalDecreases(o, st, step);
      InternalFrame(o, st, step);
      StepKeeps(o, st, step);
      var rest := Drains(o, Apply(o, st, step));
      steps := [step] + rest;
      ExecCons(o, st, step, rest);
    }
  }

  lemma {:induction false} ExecCons<E>(o: Options, st: State<E>, step: Step<E>, rest: seq<Step<E>>)
    requires Enabled(o, st, step) && ValidFrom(o, Apply(o, st, step), rest)
    ensures ValidFrom(o, st, [step] + rest)
    ensures ExecFrom(o, st, [step] + rest) == ExecFrom(o, Apply(o, st, step), rest)
    decreases |rest|
  {
    var all := [step] + rest;
    if rest == [] {
      assert all[..0] == [] && all[0] == step;
      assert ValidFrom(o, st, []) && ExecFrom(o, st, []) == st;
      assert all == [step];
    } else {
      var l := |rest| - 1;
      ExecCons(o, st, step, rest[..l]);
      assert all[..|all| - 1] == [step] + rest[..l];
      assert all[|all| - 1] == rest[l];
    }
  }
}
