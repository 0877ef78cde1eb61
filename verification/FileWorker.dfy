/** The file worker: reads a job's file in chunks and hands every complete line to the
    pipeline, together with the offset just past it. */
module FileWorker {
  import opened Basics
  import opened Lines

  /** What the accumulator holds of the unfinished line `p`: all of it, or, once it is over
      the cap, enough of it to know that. */
  ghost predicate Accumulated(cap: nat, p: Bytes, acc: Bytes) {
    || acc == p
    || (cap != 0 && acc <= p && |acc| > cap)
  }

  class Job {
    var curOffset: int
    var tail: Bytes
    var shouldSkip: bool

    constructor (offset: int, skip: bool)
      ensures curOffset == offset && tail == [] && shouldSkip == skip
    {
      curOffset, tail, shouldSkip := offset, [], skip;
    }

    /** The job has read `c`, starting at `base`. */
    ghost predicate HasRead(cap: nat, skipFirst: bool, base: int, c: Bytes)
      reads this
    {
      && curOffset == base + |c|
      && Accumulated(cap, Rest(c), tail)
      && shouldSkip == (skipFirst && Lines.Lines(base, c) == [])
    }
  }

  /** Where the loop over one read stands: `d` is scanned, `ins` was handed over since `c`. */
  ghost predicate Progress(cap: nat, skipFirst: bool, base: int, c: Bytes, d: Bytes,
                           ins: seq<Line>, acc: Bytes, skip: bool)
  {
    && Wanted(cap, skipFirst, base, d) == Wanted(cap, skipFirst, base, c) + ins
    && Accumulated(cap, Rest(d), acc)
    && skip == (skipFirst && Lines.Lines(base, d) == [])
  }

  /** The length check sees through the accumulator. */
  lemma CheckIsExact(cap: nat, p: Bytes, acc: Bytes, line: Bytes)
    requires Accumulated(cap, p, acc)
    ensures (cap != 0 && |acc| + |line| > cap) <==> !Fits(cap, p + line)
    ensures Fits(cap, p + line) ==> acc == p
  {
  }

  lemma LineDone(cap: nat, skipFirst: bool, base: int, c: Bytes, d: Bytes, line: Bytes,
                 ins: seq<Line>, acc: Bytes, skip: bool, ins': seq<Line>)
    requires Progress(cap, skipFirst, base, c, d, ins, acc, skip) && IsLine(line)
    requires ins' == if (cap != 0 && |acc| + |line| > cap) || skip then ins
                     else ins + [Line(base + |d| + |line|, acc + line)]
    ensures Progress(cap, skipFirst, base, c, d + line, ins', [], false)
  {
    CheckIsExact(cap, Rest(d), acc, line);
    WantedGrows(cap, skipFirst, base, d, line);
    AppendLine(base, d, line);
    Assoc(Wanted(cap, skipFirst, base, c), ins, [Line(base + |d| + |line|, Rest(d) + line)]);
  }

  lemma ProgressGoesOn(cap: nat, skipFirst: bool, base: int, c: Bytes, d: Bytes, e: Bytes,
                       ins: seq<Line>, acc: Bytes, skip: bool, ins': seq<Line>, acc': Bytes, skip': bool)
    requires Progress(cap, skipFirst, base, c, d, ins, acc, skip)
    requires Progress(cap, skipFirst, base, d, e, ins', acc', skip')
    ensures Progress(cap, skipFirst, base, c, e, ins + ins', acc', skip')
  {
    Assoc(Wanted(cap, skipFirst, base, c), ins, ins');
  }

  method IndexByte(buf: Bytes, b: byte) returns (pos: int)
    ensures -1 <= pos < |buf|
    ensures pos == -1 ==> b !in buf
    ensures pos >= 0 ==> buf[pos] == b && b !in buf[..pos]
  {
    pos := 0;
    while pos < |buf|
      invariant 0 <= pos <= |buf|
      invariant b !in buf[..pos]
    {
      if buf[pos] == b {
        return;
      }
      pos := pos + 1;
    }
    pos := -1;
  }

  /** What `Read` may return before the end of the file. */
  ghost predicate Readable(size: nat, chunks: seq<Bytes>) {
    forall i :: 0 <= i < |chunks| ==> 0 < |chunks[i]| <= size
  }

  class Worker {
    const maxEventSize: nat
    const readBufferSize: nat

    constructor (maxEventSize: nat, readBufferSize: nat)
      ensures this.maxEventSize == maxEventSize && this.readBufferSize == readBufferSize
    {
      this.maxEventSize, this.readBufferSize := maxEventSize, readBufferSize;
    }

    /** The loop over one read. `c` is what the job had read before; the accumulator holds
        its unfinished line. */
    method ParseRead(job: Job, chunk: Bytes, lastOffset: int, scannedBefore: int, skipBefore: bool, accBefore: Bytes,
                     ghost skipFirst: bool, ghost base: int, ghost c: Bytes)
        returns (ins: seq<Line>, scanned: int, skipLine: bool, accumBuf: Bytes)
      requires |chunk| <= readBufferSize
      requires lastOffset + scannedBefore == base + |c|
      requires Accumulated(maxEventSize, Rest(c), accBefore)
      requires skipBefore == job.shouldSkip == (skipFirst && Lines.Lines(base, c) == [])
      requires maxEventSize != 0 ==> |accBefore| <= maxEventSize + readBufferSize
      modifies job`shouldSkip
      ensures Progress(maxEventSize, skipFirst, base, c, c + chunk, ins, accumBuf, skipLine)
      ensures lastOffset + scanned == base + |c| + |chunk|
      ensures skipLine == job.shouldSkip
      ensures maxEventSize != 0 ==> |accumBuf| <= maxEventSize + readBufferSize
    {
      var shouldCheckMax := maxEventSize != 0;
      ins, scanned, skipLine, accumBuf := [], scannedBefore, skipBefore, accBefore;
      var buf := chunk;
      ghost var d := c;
      while |buf| != 0
        invariant c + chunk == d + buf && |buf| <= readBufferSize
        invariant lastOffset + scanned == base + |d|
        invariant Progress(maxEventSize, skipFirst, base, c, d, ins, accumBuf, skipLine)
        invariant skipLine == job.shouldSkip
        invariant maxEventSize != 0 ==> |accumBuf| <= maxEventSize + readBufferSize
        decreases |buf|
      {
        var pos := IndexByte(buf, NL);
        if pos == -1 {
          scanned := scanned + |buf|;
          break;
        }
        var line := buf[..pos + 1];
        ghost var before, acc, skip := ins, accumBuf, skipLine;
        assert d + buf == (d + line) + buf[pos + 1..];
        assert IsLine(line);
        buf := buf[pos + 1..];
        scanned := scanned + pos + 1;
        if shouldCheckMax && |accumBuf| + |line| > maxEventSize {
          skipLine := true;
        }
        if skipLine {
          job.shouldSkip := false;
          skipLine := false;
        } else {
          var inBuf := line;
          if |accumBuf| != 0 {
            accumBuf := accumBuf + line;
            inBuf := accumBuf;
            assert maxEventSize != 0 ==> |accumBuf| <= maxEventSize;
          }
          assert inBuf == acc + line;
          ins := ins + [Line(lastOffset + scanned, inBuf)];
        }
        LineDone(maxEventSize, skipFirst, base, c, d, line, before, acc, skip, ins);
        accumBuf := [];
        d := d + line;
      }
      AppendPlain(base, d, buf);
      if shouldCheckMax && |accumBuf| > maxEventSize {
        return;
      }
      accumBuf := accumBuf + buf;
    }

    /** One job run: all reads up to the end of the file as it is then. What is handed over
        is exactly what the whole content read so far adds, however the reads cut it. */
    method Work(job: Job, chunks: seq<Bytes>, ghost skipFirst: bool, ghost base: int, ghost c: Bytes)
        returns (ins: seq<Line>)
      requires Readable(readBufferSize, chunks)
      requires job.HasRead(maxEventSize, skipFirst, base, c)
      requires maxEventSize != 0 ==> |job.tail| <= maxEventSize + readBufferSize
      modifies job
      ensures job.HasRead(maxEventSize, skipFirst, base, c + Join(chunks))
      ensures maxEventSize != 0 ==> |job.tail| <= maxEventSize + readBufferSize
      ensures Wanted(maxEventSize, skipFirst, base, c + Join(chunks)) == Wanted(maxEventSize, skipFirst, base, c) + ins
    {
      var skipLine, lastOffset := job.shouldSkip, job.curOffset;
      var readTotal, scanned := 0, 0;
      var accumBuf := job.tail;
      ins := [];
      var i := 0;
      assert c + Join(chunks[..0]) == c;
      while i < |chunks|
        invariant 0 <= i <= |chunks|
        invariant job.curOffset == lastOffset
        invariant readTotal == scanned == |Join(chunks[..i])|
        invariant Progress(maxEventSize, skipFirst, base, c, c + Join(chunks[..i]), ins, accumBuf, skipLine)
        invariant skipLine == job.shouldSkip
        invariant maxEventSize != 0 ==> |accumBuf| <= maxEventSize + readBufferSize
      {
        var more;
        ghost var d, acc, skip := c + Join(chunks[..i]), accumBuf, skipLine;
        more, scanned, skipLine, accumBuf :=
          ParseRead(job, chunks[i], lastOffset, scanned, skipLine, accumBuf, skipFirst, base, d);
        assert chunks[..i + 1] == chunks[..i] + [chunks[i]];
        JoinSnoc(chunks[..i], chunks[i]);
        Assoc(c, Join(chunks[..i]), chunks[i]);
        ProgressGoesOn(maxEventSize, skipFirst, base, c, d, d + chunks[i], ins, acc, skip, more, accumBuf, skipLine);
        readTotal := readTotal + |chunks[i]|;
        ins := ins + more;
        i := i + 1;
      }
      assert chunks[..i] == chunks;
      job.tail := accumBuf;
      job.curOffset := job.curOffset + readTotal;
    }

    /** Any number of job runs over a growing file. The input gets the complete lines within
        the cap, in order, each with the offset just past it: the same for every way the
        file was cut into runs and reads. */
    method WorkRuns(job: Job, runs: seq<seq<Bytes>>) returns (ins: seq<Line>)
      requires forall r :: 0 <= r < |runs| ==> Readable(readBufferSize, runs[r])
      requires job.tail == []
      modifies job
      ensures ins == Wanted(maxEventSize, old(job.shouldSkip), old(job.curOffset), JoinRuns(runs))
      ensures job.curOffset == old(job.curOffset) + |JoinRuns(runs)|
      ensures maxEventSize != 0 ==> |job.tail| <= maxEventSize + readBufferSize
    {
      ghost var skipFirst, base := job.shouldSkip, job.curOffset;
      ins := [];
      var r := 0;
      while r < |runs|
        invariant 0 <= r <= |runs|
        invariant job.HasRead(maxEventSize, skipFirst, base, JoinRuns(runs[..r]))
        invariant maxEventSize != 0 ==> |job.tail| <= maxEventSize + readBufferSize
        invariant ins == Wanted(maxEventSize, skipFirst, base, JoinRuns(runs[..r]))
      {
        var more := Work(job, runs[r], skipFirst, base, JoinRuns(runs[..r]));
        assert runs[..r + 1] == runs[..r] + [runs[r]];
        JoinRunsSnoc(runs[..r], runs[r]);
        ins := ins + more;
        r := r + 1;
      }
      assert runs[..r] == runs;
    }
  }
}
