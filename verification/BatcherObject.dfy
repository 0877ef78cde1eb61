/** The batcher as the object that callers, the heartbeat and the workers share. A bounded channel
    is a sequence of batches; an operation that would wait on one says so instead. */
module BatcherObject {
  import opened Basics
  import B = Batcher

  class Batch<E> {
    var events: seq<B.Item<E>>
    var eventsSize: nat
    var num: nat
    var status: B.Status

    ghost function Value(): B.Batch<E>
      reads this
    {
      B.Batch(events, eventsSize, num, status)
    }

    constructor ()
      ensures Value() == B.Batch([], 0, 0, B.NotReady)
    {
      events, eventsSize, num, status := [], 0, 0, B.NotReady;
    }

    method Reset()
      modifies this
      ensures Value() == B.Reset(old(Value()))
    {
      events := [];
      eventsSize := 0;
      status := B.NotReady;
    }

    method Append(x: B.Item<E>)
      modifies this
      ensures Value() == B.Append(old(Value()), x)
    {
      events := events + [x];
      eventsSize := eventsSize + x.size;
    }

    method UpdateStatus(o: B.Options, late: bool) returns (s: B.Status)
      modifies this
      ensures Value() == B.UpdateStatus(o, old(Value()), late) && s == status
    {
      var l := |events|;
      if (o.maxCount != 0 && l == o.maxCount) || (o.maxBytes != 0 && o.maxBytes <= eventsSize) {
        status := B.MaxSizeExceeded;
      } else if l > 0 && late {
        status := B.TimeoutExceeded;
      } else {
        status := B.NotReady;
      }
      return status;
    }
  }

  ghost function Values<E>(bs: seq<Batch<E>>): (r: seq<B.Batch<E>>)
    reads bs
    ensures |r| == |bs| && forall i :: 0 <= i < |bs| ==> r[i] == bs[i].Value()
  {
    seq(|bs|, i requires 0 <= i < |bs| reads bs => bs[i].Value())
  }

  class Batcher<E> {
    const opts: B.Options
    var batch: Batch?<E>
    var freeBatches: seq<Batch<E>>
    var fullBatches: seq<Batch<E>>
    var outSeq: nat
    var commitSeq: nat

    // Callers between the mutex and the channel, and what was sent, added and committed so far.
    ghost var senders: seq<Batch<E>>
    ghost var sent: seq<B.Batch<E>>
    ghost var added: seq<E>
    ghost var committed: seq<E>

    ghost function Current(): set<Batch<E>>
      reads this
    {
      if batch == null then {} else {batch}
    }

    /** A batch is free, being filled, or on its way, and only one of these. */
    ghost predicate Valid()
      reads this
    {
      && (batch != null ==> batch !in freeBatches && batch !in senders && batch !in fullBatches)
      && (forall i, j :: 0 <= i < j < |freeBatches| ==> freeBatches[i] != freeBatches[j])
      && (forall b :: b in freeBatches ==> b !in senders && b !in fullBatches)
    }

    /** The state of the step machine, seen from the side that fills batches. */
    ghost function Front(): B.State<E>
      reads this, Current(), freeBatches, senders, fullBatches
    {
      B.State(Values(freeBatches), if batch == null then None else Some(batch.Value()), Values(senders),
              Values(fullBatches), [], None, outSeq, commitSeq, false, sent, added, committed)
    }

    /** One batch for each worker. */
    constructor (opts: B.Options)
      ensures Valid() && this.opts == opts && (forall b :: b in freeBatches ==> fresh(b))
      ensures Front() == B.Init<E>(opts).(workers := [])
    {
      this.opts := opts;
      batch, fullBatches, outSeq, commitSeq := null, [], 0, 0;
      senders, sent, added, committed := [], [], [], [];
      freeBatches := [];
      new;
      var i := 0;
      while i < opts.workers
        invariant 0 <= i <= opts.workers && |freeBatches| == i && batch == null
        invariant forall k :: 0 <= k < i ==> fresh(freeBatches[k])
        invariant forall k, l :: 0 <= k < l < i ==> freeBatches[k] != freeBatches[l]
        invariant Values(freeBatches) == seq(i, _ => B.Batch([], 0, 0, B.NotReady))
        invariant fullBatches == [] && senders == [] && sent == [] && added == [] && committed == []
        invariant outSeq == 0 && commitSeq == 0
        modifies this
      {
        var b := new Batch<E>();
        freeBatches := freeBatches + [b];
        i := i + 1;
      }
    }

    /** Takes a free batch when there is no current one; without a free one it has to wait. */
    method GetBatch() returns (waits: bool)
      requires Valid()
      modifies this, freeBatches
      ensures Valid()
      ensures waits <==> old(batch) == null && old(freeBatches) == []
      ensures !waits ==> batch == if old(batch) == null then old(freeBatches)[0] else old(batch)
      ensures senders == old(senders) && added == old(added)
      ensures Front() == if waits || old(batch) != null then old(Front()) else B.Apply(opts, old(Front()), B.Fetch)
    {
      if batch == null {
        if freeBatches == [] {
          return true;
        }
        batch := freeBatches[0];
        freeBatches := freeBatches[1..];
        assert batch in old(freeBatches);
        batch.Reset();
        assert Values(freeBatches) == old(Values(freeBatches))[1..];
        assert Values(senders) == old(Values(senders));
        assert Values(fullBatches) == old(Values(fullBatches));
      }
      return false;
    }

    /** Gives the current batch its number and lets go of it once it is full or late. */
    method TrySendBatch(late: bool) returns (ready: Batch?<E>)
      requires Valid() && batch != null
      modifies this, batch
      ensures Valid()
      ensures Front() == B.TrySend(opts, old(Front()), old(batch.Value()), late)
      ensures ready == if batch == null then old(batch) else null
      ensures senders == if ready == null then old(senders) else old(senders) + [ready]
    {
      var s := batch.UpdateStatus(opts, late);
      assert Values(freeBatches) == old(Values(freeBatches));
      assert Values(senders) == old(Values(senders));
      assert Values(fullBatches) == old(Values(fullBatches));
      if s == B.NotReady {
        return null;
      }
      batch.num := outSeq;
      outSeq := outSeq + 1;
      ready := batch;
      sent := sent + [batch.Value()];
      senders := senders + [batch];
      batch := null;
      assert Values(freeBatches) == old(Values(freeBatches));
      assert Values(senders) == old(Values(senders)) + [ready.Value()];
      assert Values(fullBatches) == old(Values(fullBatches));
    }

    /** What `getBatch` makes of a state in which it need not wait. */
    static ghost function Fetched(o: B.Options, st: B.State<E>): B.State<E>
      requires st.current.Some? || st.free != []
    {
      if st.current.None? then B.Apply(o, st, B.Fetch) else st
    }

    method AppendEvent(x: B.Item<E>)
      requires Valid() && batch != null
      modifies this`added, batch
      ensures Valid() && batch == old(batch) && senders == old(senders)
      ensures Front() == old(Front()).(current := Some(B.Append(old(batch.Value()), x)),
                                        added := old(added) + [x.event])
      ensures batch.Value() == B.Append(old(batch.Value()), x)
    {
      batch.Append(x);
      added := added + [x.event];
      assert Values(freeBatches) == old(Values(freeBatches));
      assert Values(senders) == old(Values(senders));
      assert Values(fullBatches) == old(Values(fullBatches));
    }

    /** One event is added; the batch that is ready, if any, still has to go into the channel. */
    method Add(x: B.Item<E>, late: bool) returns (waits: bool, ready: Batch?<E>)
      requires Valid()
      modifies this, Current(), freeBatches
      ensures Valid()
      ensures waits <==> old(batch) == null && old(freeBatches) == []
      ensures waits ==> Front() == old(Front()) && ready == null
      ensures !waits ==>
                && Front() == B.Apply(opts, Fetched(opts, old(Front())), B.Add(x, late))
                && (ready != null <==> batch == null) && (ready != null ==> senders == old(senders) + [ready])
    {
      waits := GetBatch();
      if waits {
        return waits, null;
      }
      AppendEvent(x);
      ready := TrySendBatch(late);
    }

    /** The heartbeat's turn: only the clock can make a batch ready. */
    method Heartbeat(late: bool) returns (waits: bool, ready: Batch?<E>)
      requires Valid()
      modifies this, Current(), freeBatches
      ensures Valid()
      ensures waits <==> old(batch) == null && old(freeBatches) == []
      ensures waits ==> Front() == old(Front()) && ready == null
      ensures !waits ==>
                && Front() == B.Apply(opts, Fetched(opts, old(Front())), B.Tick(late))
                && (ready != null <==> batch == null) && (ready != null ==> senders == old(senders) + [ready])
    {
      waits := GetBatch();
      if waits {
        return waits, null;
      }
      ready := TrySendBatch(late);
    }

    /** The send into the channel of full batches; it waits while the channel is full. */
    method Send(b: Batch<E>, ghost i: nat) returns (waits: bool)
      requires Valid() && i < |senders| && senders[i] == b
      modifies this
      ensures Valid()
      ensures waits <==> old(|fullBatches|) >= opts.workers
      ensures Front() == if waits then old(Front()) else B.Apply(opts, old(Front()), B.Push(i))
    {
      if |fullBatches| >= opts.workers {
        return true;
      }
      fullBatches := fullBatches + [b];
      senders := senders[..i] + senders[i + 1..];
      assert Values(senders) == old(Values(senders))[..i] + old(Values(senders))[i + 1..];
      assert Values(fullBatches) == old(Values(fullBatches)) + [b.Value()];
      return false;
    }

    /** A worker receives the oldest full batch. */
    method Receive() returns (b: Batch?<E>)
      requires Valid()
      modifies this
      ensures Valid()
      ensures b == null <==> old(fullBatches) == []
      ensures b == null ==> Front() == old(Front())
      ensures b != null ==>
                && b == old(fullBatches)[0] && fullBatches == old(fullBatches)[1..]
                && Front() == old(Front()).(full := old(Front()).full[1..])
    {
      if fullBatches == [] {
        return null;
      }
      b := fullBatches[0];
      fullBatches := fullBatches[1..];
      assert Values(fullBatches) == old(Values(fullBatches))[1..];
    }

    /** A worker commits its batch when its number is up, event by event, and gives it back. */
    method CommitBatch(b: Batch<E>) returns (waits: bool, status: B.Status)
      requires Valid() && b != batch && b !in freeBatches && b !in senders && b !in fullBatches
      modifies this
      ensures Valid() && status == b.status
      ensures waits <==> old(commitSeq) != b.num
      ensures waits ==> Front() == old(Front())
      ensures !waits ==> Front() == Committed(old(Front()), b.Value())
    {
      status := b.status;
      if commitSeq != b.num {
        return true, status;
      }
      commitSeq := commitSeq + 1;
      var i := 0;
      while i < |b.events|
        invariant 0 <= i <= |b.events|
        invariant committed == old(committed) + B.Events(b.events[..i])
        modifies this`committed
      {
        committed := committed + [b.events[i].event];
        assert B.Events(b.events[..i]) + [b.events[i].event] == B.Events(b.events[..i + 1]);
        i := i + 1;
      }
      assert b.events[..i] == b.events;
      freeBatches := freeBatches + [b];
      assert Values(freeBatches) == old(Values(freeBatches)) + [b.Value()];
      return false, status;
    }
  }

  /** All of a batch is committed, and it is free again. */
  ghost function Committed<E>(st: B.State<E>, b: B.Batch<E>): B.State<E> {
    st.(commitSeq := st.commitSeq + 1, committed := st.committed + B.Events(b.events), free := st.free + [b])
  }

  // ------------------------------------------------------ the commit in single steps

  ghost function Steps<E>(w: nat, k: nat): seq<B.Step<E>> {
    if k == 0 then [B.Begin(w)] else Steps(w, k - 1) + [B.CommitOne(w)]
  }

  ghost predicate AtGate<E>(st: B.State<E>, w: nat) {
    w < |st.workers| && st.workers[w].AtGate? && st.seqMu.None? && st.commitSeq == st.workers[w].batch.num
  }

  /** The state after `k` events of the worker's batch. */
  ghost function Midway<E>(st: B.State<E>, w: nat, k: nat): B.State<E>
    requires AtGate(st, w) && k <= |st.workers[w].batch.events|
  {
    var b := st.workers[w].batch;
    st.(workers := st.workers[w := B.Committing(b, k)], seqMu := Some(w), commitSeq := st.commitSeq + 1,
        committed := st.committed + B.Events(b.events[..k]))
  }

  ghost predicate Reaches<E>(o: B.Options, st: B.State<E>, steps: seq<B.Step<E>>, st': B.State<E>) {
    B.ValidFrom(o, st, steps) && B.ExecFrom(o, st, steps) == st'
  }

  lemma ReachesSnoc<E>(o: B.Options, st: B.State<E>, steps: seq<B.Step<E>>, st': B.State<E>, step: B.Step<E>)
    requires Reaches(o, st, steps, st') && B.Enabled(o, st', step)
    ensures Reaches(o, st, steps + [step], B.Apply(o, st', step))
  {
    assert (steps + [step])[..|steps|] == steps;
  }

  lemma BeginIsMidway<E>(o: B.Options, st: B.State<E>, w: nat)
    requires AtGate(st, w)
    ensures B.Enabled(o, st, B.Begin(w)) && B.Apply(o, st, B.Begin(w)) == Midway(st, w, 0)
  {
    assert st.committed + B.Events(st.workers[w].batch.events[..0]) == st.committed;
  }

  lemma CommitOneIsMidway<E>(o: B.Options, st: B.State<E>, w: nat, k: nat)
    requires AtGate(st, w) && k < |st.workers[w].batch.events|
    ensures B.Enabled(o, Midway(st, w, k), B.CommitOne(w))
    ensures B.Apply(o, Midway(st, w, k), B.CommitOne(w)) == Midway(st, w, k + 1)
  {
    var events := st.workers[w].batch.events;
    assert B.Events(events[..k + 1]) == B.Events(events[..k]) + [events[k].event];
    assert st.committed + B.Events(events[..k]) + [events[k].event]
        == st.committed + (B.Events(events[..k]) + [events[k].event]);
  }

  lemma {:induction false} MidwayReached<E>(o: B.Options, st: B.State<E>, w: nat, k: nat)
    requires AtGate(st, w) && k <= |st.workers[w].batch.events|
    ensures Reaches(o, st, Steps(w, k), Midway(st, w, k))
  {
    if k == 0 {
      BeginIsMidway(o, st, w);
      assert Reaches(o, st, [], st);
      ReachesSnoc(o, st, [], st, B.Begin(w));
      assert Steps<E>(w, 0) == [] + [B.Begin(w)];
    } else {
      MidwayReached(o, st, w, k - 1);
      CommitOneIsMidway(o, st, w, k - 1);
      ReachesSnoc(o, st, Steps(w, k - 1), Midway(st, w, k - 1), B.CommitOne(w));
    }
  }

  lemma FinishMidway<E>(o: B.Options, st: B.State<E>, w: nat)
    requires AtGate(st, w) && |st.free| < o.workers
    ensures var b := st.workers[w].batch;
            var st' := Midway(st, w, |b.events|);
            B.Enabled(o, st', B.Finish(w)) && B.Apply(o, st', B.Finish(w)) == AfterCommit(st, w)
  {
    var b := st.workers[w].batch;
    assert b.events[..|b.events|] == b.events;
    assert st.workers[w := B.Committing(b, |b.events|)][w := B.Idle] == st.workers[w := B.Idle];
  }

  /** The batch is committed, and its worker is done with it. */
  ghost function AfterCommit<E>(st: B.State<E>, w: nat): B.State<E>
    requires AtGate(st, w)
  {
    var b := st.workers[w].batch;
    Committed(st, b).(workers := st.workers[w := B.Idle], panicked := st.panicked || b.status == B.NotReady)
  }

  /** The steps of a worker that nobody interrupts do what the loop of `commitBatch` does. */
  lemma CommitInSteps<E>(o: B.Options, st: B.State<E>, w: nat)
    requires AtGate(st, w) && |st.free| < o.workers
    ensures Reaches(o, st, Steps(w, |st.workers[w].batch.events|) + [B.Finish(w)], AfterCommit(st, w))
  {
    var n := |st.workers[w].batch.events|;
    MidwayReached(o, st, w, n);
    FinishMidway(o, st, w);
    ReachesSnoc(o, st, Steps(w, n), Midway(st, w, n), B.Finish(w));
  }
}
