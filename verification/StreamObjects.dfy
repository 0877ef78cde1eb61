/** Streams and the streamer as the objects that processors, inputs and outputs share. The queue
    of a stream is linked through its events, and every method is the body of one section under
    a mutex. A panic is returned, and then nothing is said about the state. */
module StreamObjects {
  import opened Basics
  import S = Streams

  class Event {
    var seqID: nat
    const timeout: bool
    var next: Event?

    constructor (timeout: bool, seqID: nat)
      ensures this.timeout == timeout && this.seqID == seqID
    {
      this.timeout, this.seqID, next := timeout, seqID, null;
    }
  }

  class Stream {
    const id: S.StreamId
    const streamer: Streamer
    var blockIndex: int
    var currentSeq: nat
    var commitSeq: nat
    var awaySeq: nat
    var isDetaching: bool
    var isAttached: bool
    var first: Event?
    var last: Event?

    // The events from `first` to `last`, and the numbers of the events that were dropped.
    ghost var queue: seq<Event>
    ghost var dropped: set<nat>

    /** Each event but the last links to the one behind it. Nothing is said about the link of the
        last one: an event comes from the pool with an old link. */
    ghost predicate Valid()
      reads this, queue
    {
      && (queue == [] <==> first == null) && (queue == [] <==> last == null)
      && (queue != [] ==> first == queue[0] && last == queue[|queue| - 1])
      && (forall i :: 0 <= i < |queue| - 1 ==> queue[i].next == queue[i + 1])
      && (forall i, j :: 0 <= i < j < |queue| ==> queue[i] != queue[j])
    }

    ghost function Abs(e: Event): S.Event
      reads e
    {
      S.Event(id, e.seqID, e.timeout)
    }

    ghost function Contents(): (r: seq<S.Event>)
      reads this, queue
      ensures |r| == |queue|
    {
      seq(|queue|, i requires 0 <= i < |queue| reads this, queue => Abs(queue[i]))
    }

    ghost function Value(): S.Stream
      reads this, queue
    {
      S.Stream(currentSeq, commitSeq, awaySeq, isDetaching, isAttached, Contents(), dropped)
    }

    constructor (id: S.StreamId, streamer: Streamer)
      ensures Valid() && Value() == S.NEW_STREAM && this.id == id && this.streamer == streamer && blockIndex == 0
    {
      this.id, this.streamer := id, streamer;
      blockIndex, currentSeq, commitSeq, awaySeq := 0, 0, 0, 0;
      isDetaching, isAttached, first, last := false, false, null, null;
      queue, dropped := [], {};
      new;
      assert Contents() == [];
    }

    method TryDetach()
      requires Valid()
      modifies this, streamer`charged
      ensures Valid() && Value() == S.TryDetach(old(Value())).stream
      ensures streamer.charged == old(streamer.charged) + if S.TryDetach(old(Value())).charge then [this] else []
      ensures queue == old(queue) && blockIndex == old(blockIndex)
    {
      if awaySeq != commitSeq {
        return;
      }
      isAttached := false;
      isDetaching := false;
      assert Contents() == old(Contents());
      if first != null {
        streamer.MakeCharged(this);
      }
    }

    method Leave() returns (panic: bool)
      requires Valid()
      modifies this, streamer`charged
      ensures panic == S.Leave(old(Value())).panic == (old(isDetaching) || !old(isAttached))
      ensures !panic ==> Valid() && Value() == S.Leave(old(Value())).stream
      ensures !panic ==>
                streamer.charged == old(streamer.charged) + if S.Leave(old(Value())).charge then [this] else []
      ensures queue == old(queue) && blockIndex == old(blockIndex)
    {
      if isDetaching || !isAttached {
        return true;
      }
      isDetaching := true;
      assert Contents() == old(Contents());
      TryDetach();
      return false;
    }

    method Commit(event: Event)
      requires Valid()
      modifies this, streamer`charged
      ensures Valid() && Value() == S.Commit(old(Value()), Abs(event)).stream
      ensures streamer.charged ==
              old(streamer.charged) + if S.Commit(old(Value()), Abs(event)).charge then [this] else []
      ensures queue == old(queue) && blockIndex == old(blockIndex)
    {
      if event.seqID < commitSeq {
        return;
      }
      commitSeq := event.seqID;
      assert Contents() == old(Contents());
      if isDetaching {
        TryDetach();
      }
    }

    method Attach() returns (panic: bool)
      requires Valid()
      modifies this
      ensures panic == S.Attach(old(Value())).panic == (old(isAttached) || old(isDetaching) || old(queue) == [])
      ensures !panic ==> Valid() && Value() == S.Attach(old(Value())).stream
    {
      if isAttached || isDetaching || first == null {
        return true;
      }
      isAttached := true;
      assert Contents() == old(Contents());
      return false;
    }

    /** Gives the event the next number and links it behind the last one. */
    method Put(event: Event) returns (seqID: nat)
      requires Valid() && event !in queue && !event.timeout
      modifies this, queue, event, streamer`charged
      ensures Valid() && queue == old(queue) + [event] && seqID == event.seqID
      ensures Value() == S.Put(id, old(Value())).stream
      ensures streamer.charged == old(streamer.charged) + if S.Put(id, old(Value())).charge then [this] else []
      ensures blockIndex == old(blockIndex)
    {
      currentSeq := currentSeq + 1;
      seqID := currentSeq;
      event.seqID := seqID;
      if first == null {
        last := event;
        first := event;
        queue := queue + [event];
        if !isAttached {
          streamer.MakeCharged(this);
        }
      } else {
        last.next := event;
        last := event;
        queue := queue + [event];
      }
      assert Contents() == old(Contents()) + [S.Event(id, seqID, false)];
    }

    /** Takes the first event out of a queue that is not empty. */
    method Get() returns (event: Event, panic: bool)
      requires Valid() && queue != []
      modifies this
      ensures event == old(queue[0]) && panic == old(isDetaching)
      ensures !panic ==> Valid() && queue == old(queue[1..]) && Value() == S.Get(old(Value())).stream
      ensures blockIndex == old(blockIndex)
    {
      event := first;
      if isDetaching {
        return event, true;
      }
      if first == last {
        assert |queue| == 1;
        first := null;
        last := null;
      } else {
        assert |queue| > 1 && queue[0].next == queue[1];
        first := first.next;
      }
      queue := queue[1..];
      awaySeq := event.seqID;
      assert Contents() == old(Contents())[1..];
      return event, false;
    }

    /** No event means that the processor left the stream. */
    method InstantGet() returns (event: Event?, panic: bool)
      requires Valid()
      modifies this, streamer`charged
      ensures panic == (!old(isAttached) || old(isDetaching))
      ensures old(queue) == [] ==>
                var f := S.Leave(old(Value()));
                && event == null && panic == f.panic
                && (!panic ==> Valid() && Value() == f.stream
                               && streamer.charged == old(streamer.charged) + if f.charge then [this] else [])
      ensures old(queue) != [] ==>
                var f := S.Get(old(Value()));
                && panic == f.panic
                && (!panic ==> event == old(queue[0]) && Valid() && Value() == f.stream
                               && queue == old(queue[1..]) && streamer.charged == old(streamer.charged))
    {
      if !isAttached {
        return null, true;
      }
      if first == null {
        panic := Leave();
        return null, panic;
      }
      event, panic := Get();
    }

    /** The first half of `blockGet`: an event at once, or the stream goes to the blocked list. */
    method AskNext() returns (event: Event?, panic: bool)
      requires Valid() && streamer.Valid() && streamer.Knows(this)
      modifies this, streamer`blocked
      ensures panic == (!old(isAttached) || (old(queue) != [] && old(isDetaching)))
      ensures !panic ==> Valid() && streamer.Valid()
      ensures !panic && old(queue) != [] ==>
                && event == old(queue[0]) && queue == old(queue[1..]) && Value() == S.Get(old(Value())).stream
                && streamer.blocked == old(streamer.blocked) && streamer.Blocks() == old(streamer.Blocks())
      ensures !panic && old(queue) == [] ==>
                && event == null && queue == old(queue) && Value() == old(Value())
                && streamer.Blocks() == S.MakeBlocked(old(streamer.Blocks()), id)
    {
      if !isAttached {
        return null, true;
      }
      if first == null {
        streamer.MakeBlocked(this);
        return null, false;
      }
      event, panic := Get();
    }

    /** The second half of `blockGet`, after the wait: the stream leaves the blocked list and takes
        the event, or waits again when there is none. */
    method WakeUp() returns (event: Event?, panic: bool)
      requires Valid() && streamer.Valid() && streamer.Knows(this)
      modifies this, streamer`blocked, streamer.Mover(this)`blockIndex
      ensures panic == (S.ResetBlockedPanics(old(streamer.Blocks()), id) || (old(queue) != [] && old(isDetaching)))
      ensures !panic && old(queue) != [] ==>
                && event == old(queue[0]) && Valid() && queue == old(queue[1..])
                && Value() == S.Get(old(Value())).stream
                && streamer.Blocks() == S.ResetBlocked(old(streamer.Blocks()), id)
      ensures !panic && old(queue) == [] ==>
                && event == null && Valid() && Value() == old(Value())
                && streamer.Blocks() == S.MakeBlocked(S.ResetBlocked(old(streamer.Blocks()), id), id)
    {
      panic := streamer.ResetBlocked(this);
      if panic {
        return null, true;
      }
      assert Contents() == old(Contents());
      if first == null {
        streamer.MakeBlocked(this);
        return null, false;
      }
      event, panic := Get();
    }

    /** The streamer's heartbeat; `elapsed` says that the stream has waited long enough. */
    method TryUnblock(elapsed: bool) returns (ok: bool, panic: bool)
      requires Valid()
      modifies this
      ensures !elapsed ==> !ok && !panic && Valid() && Value() == old(Value()) && queue == old(queue)
      ensures elapsed ==> panic == (old(queue) == [] && old(awaySeq) != old(commitSeq))
      ensures elapsed ==>
                var f := S.TryUnblock(id, old(Value()));
                panic == f.panic && (!panic ==> ok == (old(queue) == []) && Valid() && Value() == f.stream)
    {
      if !elapsed || first != null {
        return false, false;
      }
      if awaySeq != commitSeq {
        return false, true;
      }
      var event := new Event(true, commitSeq);
      last := event;
      first := event;
      queue := [event];
      assert Contents() == [S.Event(id, commitSeq, true)];
      return true, false;
    }
  }

  class Streamer {
    var streams: map<S.StreamId, Stream>
    var charged: seq<Stream>
    var blocked: seq<Stream>

    ghost predicate Valid()
      reads this, streams.Values
    {
      && (forall s :: s in streams ==> streams[s].id == s && streams[s].streamer == this)
      && (forall i :: 0 <= i < |blocked| ==> Knows(blocked[i]))
    }

    ghost predicate Knows(stream: Stream)
      reads this
    {
      stream.id in streams && streams[stream.id] == stream
    }

    ghost function Blocks(): S.BlockList
      reads this, streams.Values
    {
      S.BlockList(
        seq(|blocked|, i requires 0 <= i < |blocked| reads this => blocked[i].id),
        map s | s in streams :: streams[s].blockIndex)
    }

    constructor ()
      ensures streams == map[] && charged == [] && blocked == [] && Valid()
    {
      streams, charged, blocked := map[], [], [];
    }

    /** The stream of an id, created on demand. */
    method GetStream(id: S.StreamId) returns (stream: Stream)
      requires Valid()
      modifies this`streams
      ensures Valid() && Knows(stream) && stream.id == id
      ensures id in old(streams) ==> streams == old(streams)
      ensures id !in old(streams) ==>
                fresh(stream) && stream.Valid() &&
                stream.Value() == S.NEW_STREAM && streams == old(streams)[id := stream]
    {
      if id in streams {
        return streams[id];
      }
      stream := new Stream(id, this);
      streams := streams[id := stream];
    }

    method MakeCharged(stream: Stream)
      modifies this`charged
      ensures charged == old(charged) + [stream]
    {
      charged := charged + [stream];
    }

    /** Takes the stream that was charged last and attaches to it. */
    method JoinStream() returns (stream: Stream, panic: bool)
      requires charged != [] && charged[|charged| - 1].Valid()
      modifies this`charged, charged[|charged| - 1]
      ensures charged == old(charged)[..old(|charged|) - 1] && stream == old(charged)[old(|charged|) - 1]
      ensures var f := S.Attach(old(charged[|charged| - 1].Value()));
              panic == f.panic && (!panic ==> stream.Valid() && stream.Value() == f.stream)
    {
      var l := |charged|;
      stream := charged[l - 1];
      charged := charged[..l - 1];
      panic := stream.Attach();
    }

    method MakeBlocked(stream: Stream)
      requires Valid() && Knows(stream)
      modifies this`blocked, stream`blockIndex
      ensures Valid() && Blocks() == S.MakeBlocked(old(Blocks()), stream.id)
      ensures blocked == old(blocked) + [stream]
    {
      stream.blockIndex := |blocked|;
      blocked := blocked + [stream];
    }

    /** The stream that fills the gap of a removed one. */
    ghost function Mover(stream: Stream): Stream
      reads this
    {
      if blocked == [] then stream else blocked[|blocked| - 1]
    }

    /** Moves the last stream of the list into the gap. */
    method ResetBlocked(stream: Stream) returns (panic: bool)
      requires Valid() && Knows(stream)
      modifies this`blocked, stream`blockIndex, Mover(stream)`blockIndex
      ensures panic == S.ResetBlockedPanics(old(Blocks()), stream.id) == !(0 <= old(stream.blockIndex) < old(|blocked|))
      ensures !panic ==> Valid() && Blocks() == S.ResetBlocked(old(Blocks()), stream.id)
    {
      if stream.blockIndex == -1 {
        return true;
      }
      var lastIndex := |blocked| - 1;
      if lastIndex == -1 {
        return true;
      }
      var index := stream.blockIndex;
      if !(0 <= index < |blocked|) {
        return true;
      }
      var mover := blocked[lastIndex];
      blocked := blocked[index := mover];
      mover.blockIndex := index;
      blocked := blocked[..lastIndex];
      stream.blockIndex := -1;
      return false;
    }
  }

  /** The part of the pipeline that an event passes at its end. */
  class Pipeline {
    var notified: seq<Event>
    var returned: seq<Event>

    constructor ()
      ensures notified == [] && returned == []
    {
      notified, returned := [], [];
    }

    /** A timeout event leaves no trace. Any other is committed to its stream, after the input was
        told if that is wanted, and goes back to the pool unless an action holds it. `drop` records
        that it will not reach the output. */
    method Finalize(stream: Stream, event: Event, notifyInput: bool, backEvent: bool, ghost drop: bool)
      requires stream.Valid()
      modifies this, stream, stream.streamer`charged
      ensures stream.Valid() && stream.Value() == S.Finalize(old(stream.Value()), stream.Abs(event), drop).stream
      ensures stream.streamer.charged == old(stream.streamer.charged) +
              if S.Finalize(old(stream.Value()), stream.Abs(event), drop).charge then [stream] else []
      ensures notified == old(notified) + if notifyInput && !event.timeout then [event] else []
      ensures returned == old(returned) + if backEvent && !event.timeout then [event] else []
    {
      if event.timeout {
        return;
      }
      if notifyInput {
        notified := notified + [event];
      }
      if drop {
        stream.dropped := stream.dropped + {event.seqID};
      }
      assert stream.Contents() == old(stream.Contents());
      stream.Commit(event);
      if !backEvent {
        return;
      }
      returned := returned + [event];
    }
  }
}
