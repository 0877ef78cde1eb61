/** The in-memory throttle limiter: a sliding array of buckets that stands for a map from
    bucket id to what was counted for that id. */
module Throttle {
  import opened Basics

  /** What a limit counts: events, their sizes, or something that the limiter does not know. */
  datatype Kind = ByCount | BySize | Unknown

  /** `minID` 0 means that the window was not placed yet. */
  datatype Limiter = Limiter(bucketCount: nat, limit: int, kind: Kind, buckets: seq<nat>, minID: int, maxID: int)

  function NewLimiter(bucketCount: nat, limit: int, kind: Kind): Limiter {
    Limiter(bucketCount, limit, kind, Zeros(bucketCount), 0, 0)
  }

  function Amount(kind: Kind, size: nat): nat {
    if kind == ByCount then 1 else size
  }

  function Zeros(n: nat): (r: seq<nat>)
    ensures |r| == n && forall i :: 0 <= i < n ==> r[i] == 0
  {
    seq(n, _ => 0)
  }

  type Interval = x: int | x > 0 witness 1

  /** Go's division truncates towards zero. */
  function TimeToBucketID(nanos: int, interval: Interval): int {
    if nanos >= 0 then nanos / interval else -((-nanos) / interval)
  }

  lemma QuotientBounds(n: nat, d: Interval)
    ensures d * (n / d) <= n < d * (n / d + 1)
  {
  }

  /** The interval of an id contains the time that has it. Before the epoch the intervals are closed at
      their upper end, and id 0 has two of them. */
  lemma BucketHasTime(nanos: int, interval: Interval)
    ensures var id := TimeToBucketID(nanos, interval);
            if nanos >= 0 then interval * id <= nanos < interval * (id + 1)
            else interval * (id - 1) < nanos <= interval * id
  {
    if nanos >= 0 {
      QuotientBounds(nanos, interval);
    } else {
      QuotientBounds(-nanos, interval);
      var q := (-nanos) / interval;
      assert interval * (-q) == -(interval * q) && interval * (-q - 1) == -(interval * (q + 1));
    }
  }

  /** A later time has no lower id. */
  lemma BucketsFollowTime(a: int, b: int, interval: Interval)
    requires a <= b
    ensures TimeToBucketID(a, interval) <= TimeToBucketID(b, interval)
  {
    BucketHasTime(a, interval);
    BucketHasTime(b, interval);
    var x, y := TimeToBucketID(a, interval), TimeToBucketID(b, interval);
    if x > y {
      Scaled(interval, y + 1, x);
      Scaled(interval, y, x - 1);
    }
  }

  lemma Scaled(d: Interval, x: int, y: int)
    requires x <= y
    ensures d * x <= d * y
  {
  }

  /** `n` new buckets behind, `n` old ones dropped in front. */
  function Slide(buckets: seq<nat>, n: nat): seq<nat> {
    (buckets + Zeros(n))[n..]
  }

  /** The window for the current id, and the bucket id for an event's id: ids outside the
      window go to the latest bucket. */
  function Rebuild(l: Limiter, nowID: int, tsID: int): (Limiter, int) {
    var l1 := if l.minID == 0 then l.(maxID := nowID, minID := nowID - l.bucketCount + 1) else l;
    var maxID := l1.minID + |l1.buckets| - 1;
    var l2 :=
      if nowID > maxID then
        var n := nowID - maxID;
        l1.(buckets := Slide(l1.buckets, n), minID := l1.minID + n, maxID := nowID)
      else l1;
    (l2, if tsID < l2.minID || tsID > l2.maxID then l2.maxID else tsID)
  }

  predicate InRange(l: Limiter, id: int) {
    0 <= id - l.minID < |l.buckets|
  }

  /** What a call did: the limiter, the bucket id it counted for, and the verdict. An index
      out of range is Go's panic, an unknown kind ends the program. */
  datatype Verdict = Verdict(limiter: Limiter, id: int, allowed: bool, panic: bool)

  function Charge(l: Limiter, id: int, size: nat): Verdict {
    if l.kind == Unknown || !InRange(l, id) then Verdict(l, id, false, true)
    else
      var i := id - l.minID;
      var v := l.buckets[i] + Amount(l.kind, size);
      Verdict(l.(buckets := l.buckets[i := v]), id, v <= l.limit, false)
  }

  function IsAllowed(l: Limiter, nowID: int, tsID: int, size: nat): Verdict {
    if l.limit < 0 then Verdict(l, 0, true, false)
    else
      var (l1, id) := Rebuild(l, nowID, tsID);
      Charge(l1, id, size)
  }

  /** A negative limit allows everything and counts nothing. */
  lemma NoLimitAllows(l: Limiter, nowID: int, tsID: int, size: nat)
    requires l.limit < 0
    ensures var v := IsAllowed(l, nowID, tsID, size);
            v.allowed && !v.panic && v.limiter == l
  {
  }

  // ---------------------------------------------------------------- the window

  /** The window after the first call. */
  predicate Placed(l: Limiter) {
    l.bucketCount >= 1 && |l.buckets| == l.bucketCount && l.minID >= 1 && l.maxID == l.minID + l.bucketCount - 1
  }

  /** The count that the limiter has for an id. */
  function At(l: Limiter, id: int): nat {
    if InRange(l, id) then l.buckets[id - l.minID] else 0
  }

  predicate Same(l: Limiter, l': Limiter) {
    l.bucketCount == l'.bucketCount && l.limit == l'.limit && l.kind == l'.kind
  }

  predicate Fresh(l: Limiter) {
    l.minID == 0 && l.buckets == Zeros(l.bucketCount)
  }

  /** The first call places the window; every call keeps its width, lets it only move up,
      picks a bucket inside it, keeps the counts of all ids that stay inside, and starts new
      ids at zero. */
  lemma RebuildKeeps(l: Limiter, nowID: int, tsID: int)
    requires l.bucketCount >= 1 && (Placed(l) || (Fresh(l) && nowID >= l.bucketCount))
    ensures var (l', id) := Rebuild(l, nowID, tsID);
            && Placed(l') && Same(l', l)
            && InRange(l', id)
            && id == (if l'.minID <= tsID <= l'.maxID then tsID else l'.maxID)
            && (Placed(l) ==> l'.minID >= l.minID && l'.maxID == if nowID > l.maxID then nowID else l.maxID)
            && (Fresh(l) ==> l'.maxID == nowID)
            && (forall x :: l'.minID <= x ==> At(l', x) == At(l, x))
  {
  }

  lemma RebuildAt(l: Limiter, nowID: int, tsID: int, x: int)
    requires l.bucketCount >= 1 && (Placed(l) || (Fresh(l) && nowID >= l.bucketCount))
    ensures var l' := Rebuild(l, nowID, tsID).0;
            && Placed(l') && Same(l', l) && InRange(l', Rebuild(l, nowID, tsID).1)
            && (Placed(l) ==> l'.minID >= l.minID)
            && (x >= l'.minID ==> At(l', x) == At(l, x))
  {
  }

  /** With a limit and a good window, a call ends the program exactly if the kind is not known. */
  lemma PanicsIff(l: Limiter, nowID: int, tsID: int, size: nat)
    requires l.bucketCount >= 1 && (Placed(l) || (Fresh(l) && nowID >= l.bucketCount)) && l.limit >= 0
    ensures IsAllowed(l, nowID, tsID, size).panic <==> l.kind == Unknown
  {
    RebuildKeeps(l, nowID, tsID);
  }

  /** A charge goes to one bucket. */
  lemma ChargeAt(l: Limiter, id: int, size: nat, x: int)
    requires Placed(l) && InRange(l, id) && l.kind != Unknown
    ensures var v := Charge(l, id, size);
            && !v.panic && Placed(v.limiter) && Same(v.limiter, l)
            && v.limiter.minID == l.minID && v.limiter.maxID == l.maxID && v.id == id
            && At(v.limiter, x) == At(l, x) + if x == id then Amount(l.kind, size) else 0
  {
  }

  // ------------------------------------------------------------------ whole runs

  datatype Call = Call(nowID: int, tsID: int, size: nat)

  datatype Entry = Entry(id: int, amount: nat, allowed: bool)

  /** The limiter and the log after a run of calls. */
  function Run(l: Limiter, calls: seq<Call>): (Limiter, seq<Entry>, bool) {
    if calls == [] then (l, [], false)
    else
      var (l1, log, bad) := Run(l, calls[..|calls| - 1]);
      var c := calls[|calls| - 1];
      var v := IsAllowed(l1, c.nowID, c.tsID, c.size);
      (v.limiter, log + [Logged(v, c.size)], bad || v.panic)
  }

  function CountsFor(id: int): Entry -> nat {
    (e: Entry) => if e.id == id then e.amount else 0
  }

  function AdmittedFor(id: int): Entry -> nat {
    (e: Entry) => if e.id == id && e.allowed then e.amount else 0
  }

  /** Everything ever counted for an id, and everything admitted. */
  function Counted(log: seq<Entry>, id: int): nat {
    Sum(log, CountsFor(id))
  }

  function Admitted(log: seq<Entry>, id: int): nat {
    Sum(log, AdmittedFor(id))
  }

  /** The array stands for the map of all counts: ids below the window are gone for good, ids
      above it have nothing counted. */
  ghost predicate Refines(l: Limiter, log: seq<Entry>) {
    && (forall id :: id >= l.minID ==> At(l, id) == Counted(log, id))
    && (forall i :: 0 <= i < |log| ==> log[i].id <= l.maxID)
  }

  ghost predicate Started(l0: Limiter, calls: seq<Call>) {
    && l0.bucketCount >= 1 && l0.limit >= 0 && l0.kind != Unknown && Fresh(l0)
    && (calls != [] ==> calls[0].nowID >= l0.bucketCount)
  }

  /** Either the window is placed and agrees with the log, or this is the first call. */
  ghost predicate Ready(l: Limiter, log: seq<Entry>, nowID: int) {
    (Placed(l) && Refines(l, log)) || (Fresh(l) && log == [] && nowID >= l.bucketCount)
  }

  /** Moving the window keeps the map. */
  lemma RebuildRefines(l: Limiter, log: seq<Entry>, nowID: int, tsID: int)
    requires l.bucketCount >= 1 && Ready(l, log, nowID)
    ensures var (l', id) := Rebuild(l, nowID, tsID);
            && Placed(l') && InRange(l', id) && Refines(l', log)
            && Same(l', l)
  {
    var (l', id) := Rebuild(l, nowID, tsID);
    RebuildKeeps(l, nowID, tsID);
    forall x | x >= l'.minID
      ensures At(l', x) == Counted(log, x)
    {
      if Placed(l) {
        assert At(l', x) == At(l, x) == Counted(log, x);
      }
    }
  }

  /** The entry that a verdict leaves in the log. */
  function Logged(v: Verdict, size: nat): Entry {
    Entry(v.id, Amount(v.limiter.kind, size), v.allowed)
  }

  /** What every call does: no panic, the array agrees with the longer log, and the event is let
      through exactly when everything counted for its id is within the limit. */
  ghost predicate Good(limit: int, log: seq<Entry>, v: Verdict, size: nat) {
    && !v.panic && Placed(v.limiter) && Refines(v.limiter, log + [Logged(v, size)])
    && (v.allowed <==> Counted(log + [Logged(v, size)], v.id) <= limit)
  }

  /** Adding to a bucket of the window adds to the map, and the verdict follows the map. */
  lemma ChargeRefines(l: Limiter, log: seq<Entry>, id: int, size: nat)
    requires l.kind != Unknown && Placed(l) && Refines(l, log) && InRange(l, id)
    ensures Good(l.limit, log, Charge(l, id, size), size) && Same(Charge(l, id, size).limiter, l)
  {
    var v := Charge(l, id, size);
    var e := Logged(v, size);
    forall x | x >= l.minID
      ensures At(v.limiter, x) == Counted(log + [e], x)
    {
      assert At(l, x) == Counted(log, x);
      SumSnoc(log, e, CountsFor(x));
    }
    assert At(v.limiter, id) == Counted(log + [e], id);
  }

  /** One call, seen through the map. */
  lemma CallRefines(l: Limiter, log: seq<Entry>, c: Call)
    requires l.limit >= 0 && l.bucketCount >= 1 && l.kind != Unknown
    requires Ready(l, log, c.nowID)
    ensures var v := IsAllowed(l, c.nowID, c.tsID, c.size);
            Good(l.limit, log, v, c.size) && Same(v.limiter, l)
  {
    RebuildRefines(l, log, c.nowID, c.tsID);
    var (l1, id) := Rebuild(l, c.nowID, c.tsID);
    ChargeRefines(l1, log, id, c.size);
  }

  /** The verdicts follow the counts. */
  ghost predicate Consistent(limit: int, log: seq<Entry>) {
    forall i :: 0 <= i < |log| ==> (log[i].allowed <==> Counted(log[..i + 1], log[i].id) <= limit)
  }

  lemma ConsistentSnoc(limit: int, log: seq<Entry>, e: Entry)
    requires Consistent(limit, log) && (e.allowed <==> Counted(log + [e], e.id) <= limit)
    ensures Consistent(limit, log + [e])
  {
    var log' := log + [e];
    forall i | 0 <= i < |log'|
      ensures log'[i].allowed <==> Counted(log'[..i + 1], log'[i].id) <= limit
    {
      if i < |log| {
        assert log'[..i + 1] == log[..i + 1];
      } else {
        assert log'[..i + 1] == log';
      }
    }
  }

  /** In every run the array agrees with the map, and an event is let through exactly when
      the amounts counted for its bucket id so far, its own included, are within the limit. */
  lemma {:induction false} RunRefines(l0: Limiter, calls: seq<Call>)
    requires Started(l0, calls)
    ensures var (l, log, bad) := Run(l0, calls);
            && !bad && |log| == |calls| && Same(l, l0)
            && (calls == [] ==> l == l0)
            && (calls != [] ==> Placed(l) && Refines(l, log))
            && Consistent(l0.limit, log)
    decreases |calls|
  {
    if calls != [] {
      var n := |calls| - 1;
      RunRefines(l0, calls[..n]);
      var (l1, log1, _) := Run(l0, calls[..n]);
      CallRefines(l1, log1, calls[n]);
      var v := IsAllowed(l1, calls[n].nowID, calls[n].tsID, calls[n].size);
      ConsistentSnoc(l0.limit, log1, Logged(v, calls[n].size));
    }
  }

  lemma {:induction false} CountedGrows(log: seq<Entry>, i: nat, id: int)
    requires i <= |log|
    ensures Counted(log[..i], id) <= Counted(log, id)
    decreases |log|
  {
    if i < |log| {
      CountedGrows(log[..|log| - 1], i, id);
      assert log[..|log| - 1][..i] == log[..i];
    } else {
      assert log[..i] == log;
    }
  }

  lemma {:induction false} AdmittedBelowCounted(log: seq<Entry>, id: int)
    ensures Admitted(log, id) <= Counted(log, id)
  {
    if log != [] {
      AdmittedBelowCounted(log[..|log| - 1], id);
    }
  }

  lemma {:induction false} AdmittedWithinLimit(limit: nat, log: seq<Entry>, id: int)
    requires Consistent(limit, log)
    ensures Admitted(log, id) <= limit
    decreases |log|
  {
    if log != [] {
      var n := |log| - 1;
      forall i | 0 <= i < n
        ensures log[..n][i].allowed <==> Counted(log[..n][..i + 1], log[..n][i].id) <= limit
      {
        assert log[..n][..i + 1] == log[..i + 1];
      }
      AdmittedWithinLimit(limit, log[..n], id);
      if log[n].id == id && log[n].allowed {
        assert log[..n + 1] == log;
        AdmittedBelowCounted(log, id);
      }
    }
  }

  lemma RefusedStaysRefused(limit: nat, log: seq<Entry>, i: nat, j: nat)
    requires Consistent(limit, log) && i < j < |log| && log[i].id == log[j].id && !log[i].allowed
    ensures !log[j].allowed
  {
    CountedGrows(log[..j + 1], i + 1, log[i].id);
    assert log[..j + 1][..i + 1] == log[..i + 1];
  }

  /** The limiter does its job: over a whole run no bucket id admits more than the limit, and
      once an event of a bucket id is refused, every later one of that id is refused too. */
  lemma LimitHolds(l0: Limiter, calls: seq<Call>, id: int)
    requires Started(l0, calls)
    ensures var log := Run(l0, calls).1;
            && Admitted(log, id) <= l0.limit
            && (forall i, j :: 0 <= i < j < |log| && log[i].id == log[j].id && !log[i].allowed ==> !log[j].allowed)
  {
    RunRefines(l0, calls);
    var log := Run(l0, calls).1;
    AdmittedWithinLimit(l0.limit, log, id);
    forall i, j | 0 <= i < j < |log| && log[i].id == log[j].id && !log[i].allowed
      ensures !log[j].allowed
    {
      RefusedStaysRefused(l0.limit, log, i, j);
    }
  }

  // ------------------------------------------------ in terms of the events themselves

  function OfID(id: int): Entry -> bool {
    (e: Entry) => e.id == id
  }

  function AdmittedOfID(id: int): Entry -> bool {
    (e: Entry) => e.id == id && e.allowed
  }

  /** The sizes of the calls whose entries are picked, added up. */
  function Sizes(calls: seq<Call>, log: seq<Entry>, pick: Entry -> bool): nat
    requires |log| == |calls|
  {
    if calls == [] then 0
    else
      var n := |calls| - 1;
      Sizes(calls[..n], log[..n], pick) + if pick(log[n]) then calls[n].size else 0
  }

  /** The number of the entries that are picked. */
  function Number(log: seq<Entry>, pick: Entry -> bool): nat {
    if log == [] then 0 else Number(log[..|log| - 1], pick) + if pick(log[|log| - 1]) then 1 else 0
  }

  ghost predicate InSizes(calls: seq<Call>, log: seq<Entry>) {
    |log| == |calls| && forall i :: 0 <= i < |log| ==> log[i].amount == calls[i].size
  }

  ghost predicate InOnes(log: seq<Entry>) {
    forall i :: 0 <= i < |log| ==> log[i].amount == 1
  }

  lemma CallCarries(l: Limiter, log: seq<Entry>, c: Call)
    requires l.limit >= 0 && l.bucketCount >= 1 && l.kind != Unknown && Ready(l, log, c.nowID)
    ensures Logged(IsAllowed(l, c.nowID, c.tsID, c.size), c.size).amount == if l.kind == ByCount then 1 else c.size
  {
    CallRefines(l, log, c);
  }

  /** What an entry carries: the size of its event, or one. */
  lemma {:induction false} LogCarries(l0: Limiter, calls: seq<Call>, i: nat)
    requires Started(l0, calls) && i < |calls|
    ensures var log := Run(l0, calls).1;
            |log| == |calls| && log[i].amount == if l0.kind == ByCount then 1 else calls[i].size
    decreases |calls|
  {
    var n := |calls| - 1;
    RunRefines(l0, calls[..n]);
    var (l1, log1, _) := Run(l0, calls[..n]);
    if i < n {
      LogCarries(l0, calls[..n], i);
    } else {
      CallCarries(l1, log1, calls[n]);
    }
  }

  lemma {:induction false} SizesAreCounted(calls: seq<Call>, log: seq<Entry>, id: int)
    requires InSizes(calls, log)
    ensures Counted(log, id) == Sizes(calls, log, OfID(id)) && Admitted(log, id) == Sizes(calls, log, AdmittedOfID(id))
    decreases |calls|
  {
    if calls != [] {
      SizesAreCounted(calls[..|calls| - 1], log[..|log| - 1], id);
    }
  }

  lemma {:induction false} OnesAreCounted(log: seq<Entry>, id: int)
    requires InOnes(log)
    ensures Counted(log, id) == Number(log, OfID(id)) && Admitted(log, id) == Number(log, AdmittedOfID(id))
  {
    if log != [] {
      OnesAreCounted(log[..|log| - 1], id);
    }
  }

  /** Each verdict says whether the picked events up to it are within the limit. */
  ghost predicate BySizes(limit: int, calls: seq<Call>, log: seq<Entry>) {
    && |log| == |calls|
    && forall i :: 0 <= i < |log| ==>
         (log[i].allowed <==> Sizes(calls[..i + 1], log[..i + 1], OfID(log[i].id)) <= limit)
  }

  ghost predicate ByNumbers(limit: int, log: seq<Entry>) {
    forall i :: 0 <= i < |log| ==> (log[i].allowed <==> Number(log[..i + 1], OfID(log[i].id)) <= limit)
  }

  lemma SizesDecide(limit: int, calls: seq<Call>, log: seq<Entry>)
    requires Consistent(limit, log) && InSizes(calls, log)
    ensures BySizes(limit, calls, log)
  {
    forall i | 0 <= i < |log|
      ensures log[i].allowed <==> Sizes(calls[..i + 1], log[..i + 1], OfID(log[i].id)) <= limit
    {
      SizesAreCounted(calls[..i + 1], log[..i + 1], log[i].id);
    }
  }

  lemma NumbersDecide(limit: int, log: seq<Entry>)
    requires Consistent(limit, log) && InOnes(log)
    ensures ByNumbers(limit, log)
  {
    forall i | 0 <= i < |log|
      ensures log[i].allowed <==> Number(log[..i + 1], OfID(log[i].id)) <= limit
    {
      OnesAreCounted(log[..i + 1], log[i].id);
    }
  }

  /** A size limit: the admitted events of a bucket id have together at most that size, and an event is
      admitted exactly when all events of its id so far, itself included, have. */
  lemma SizeLimitHolds(l0: Limiter, calls: seq<Call>, id: int)
    requires Started(l0, calls) && l0.kind == BySize
    ensures var log := Run(l0, calls).1;
            BySizes(l0.limit, calls, log) && Sizes(calls, log, AdmittedOfID(id)) <= l0.limit
  {
    var log := Run(l0, calls).1;
    RunRefines(l0, calls);
    forall i | 0 <= i < |log|
      ensures log[i].amount == calls[i].size
    {
      LogCarries(l0, calls, i);
    }
    LimitHolds(l0, calls, id);
    SizesAreCounted(calls, log, id);
    SizesDecide(l0.limit, calls, log);
  }

  /** A count limit: the same for the number of events. */
  lemma CountLimitHolds(l0: Limiter, calls: seq<Call>, id: int)
    requires Started(l0, calls) && l0.kind == ByCount
    ensures var log := Run(l0, calls).1;
            ByNumbers(l0.limit, log) && Number(log, AdmittedOfID(id)) <= l0.limit
  {
    var log := Run(l0, calls).1;
    RunRefines(l0, calls);
    forall i | 0 <= i < |log|
      ensures log[i].amount == 1
    {
      LogCarries(l0, calls, i);
    }
    LimitHolds(l0, calls, id);
    OnesAreCounted(log, id);
    NumbersDecide(l0.limit, log);
  }

  /** The newest time that a call has seen. */
  function Newest(calls: seq<Call>): int
    requires calls != []
  {
    var c := calls[|calls| - 1].nowID;
    if |calls| == 1 then c
    else
      var before := Newest(calls[..|calls| - 1]);
      if c > before then c else before
  }

  lemma OneCall(l: Limiter, c: Call)
    requires l.bucketCount >= 1 && l.limit >= 0 && (Placed(l) || (Fresh(l) && c.nowID >= l.bucketCount))
    ensures var v := IsAllowed(l, c.nowID, c.tsID, c.size);
            var newest := if Placed(l) && l.maxID > c.nowID then l.maxID else c.nowID;
            && v.limiter.maxID == newest
            && v.id == if newest - l.bucketCount < c.tsID <= newest then c.tsID else newest
  {
    RebuildKeeps(l, c.nowID, c.tsID);
  }

  /** The window ends at the newest time, and the last call is counted in the bucket of its own time if
      the window has it, else in the newest. */
  lemma {:induction false} LastCounted(l0: Limiter, calls: seq<Call>)
    requires Started(l0, calls) && calls != []
    ensures var (l, log, _) := Run(l0, calls);
            var (ts, newest) := (calls[|calls| - 1].tsID, Newest(calls));
            && Placed(l) && l.maxID == newest && |log| == |calls|
            && log[|log| - 1].id == if newest - l0.bucketCount < ts <= newest then ts else newest
    decreases |calls|
  {
    var n := |calls| - 1;
    RunRefines(l0, calls[..n]);
    RunRefines(l0, calls);
    if n > 0 {
      LastCounted(l0, calls[..n]);
    }
    OneCall(Run(l0, calls[..n]).0, calls[n]);
  }

  lemma {:induction false} LogLength(l0: Limiter, calls: seq<Call>)
    ensures |Run(l0, calls).1| == |calls|
  {
    if calls != [] {
      LogLength(l0, calls[..|calls| - 1]);
    }
  }

  lemma {:induction false} LogPrefix(l0: Limiter, calls: seq<Call>, k: nat)
    requires k <= |calls|
    ensures |Run(l0, calls).1| == |calls| && Run(l0, calls).1[..k] == Run(l0, calls[..k]).1
    decreases |calls|
  {
    if k == |calls| {
      assert calls[..k] == calls;
      LogLength(l0, calls);
    } else {
      var n := |calls| - 1;
      LogPrefix(l0, calls[..n], k);
      assert calls[..n][..k] == calls[..k];
    }
  }

  /** So every call of a run is counted in the bucket of its own time if the window had it then. */
  lemma CountedWhere(l0: Limiter, calls: seq<Call>, i: nat)
    requires Started(l0, calls) && i < |calls|
    ensures var log := Run(l0, calls).1;
            var (ts, newest) := (calls[i].tsID, Newest(calls[..i + 1]));
            i < |log| && log[i].id == if newest - l0.bucketCount < ts <= newest then ts else newest
  {
    LogPrefix(l0, calls, i + 1);
    LastCounted(l0, calls[..i + 1]);
    assert Run(l0, calls).1[i] == Run(l0, calls).1[..i + 1][i];
  }

  /** A window of any position, also one that begins at id 0. */
  predicate Wide(l: Limiter) {
    l.bucketCount >= 1 && |l.buckets| == l.bucketCount && l.maxID == l.minID + l.bucketCount - 1
  }

  /** The counts of all ids that are not below the new window are as before. */
  ghost predicate CountsKept(l: Limiter, l': Limiter) {
    forall x :: x >= l'.minID ==> At(l', x) == At(l, x)
  }

  /** A window that was moved up without sliding can agree with the old one only if it is empty. */
  lemma {:induction false} MovedUp(l: Limiter, l': Limiter, j: nat)
    requires Wide(l) && Wide(l') && l'.buckets == l.buckets && l'.minID > l.minID && CountsKept(l, l')
    requires j < |l.buckets|
    ensures l.buckets[j] == 0
    decreases |l.buckets| - j
  {
    var d := l'.minID - l.minID;
    assert At(l', l'.minID + j) == At(l, l'.minID + j);
    if j + d < |l.buckets| {
      MovedUp(l, l', j + d);
    }
  }

  /** ... and so can one that was moved down. */
  lemma {:induction false} MovedDown(l: Limiter, l': Limiter, j: nat)
    requires Wide(l) && Wide(l') && l'.buckets == l.buckets && l'.minID < l.minID && CountsKept(l, l')
    requires j < |l.buckets|
    ensures l.buckets[j] == 0
    decreases j
  {
    var d := l.minID - l'.minID;
    assert At(l', l'.minID + j) == At(l, l'.minID + j);
    if j >= d {
      MovedDown(l, l', j - d);
    }
  }

  /** A window that begins at id 0 is taken for one that was not placed, and moved as it is. */
  lemma OriginRebuild(l: Limiter, nowID: int, tsID: int)
    requires Wide(l) && l.minID == 0
    ensures var l' := Rebuild(l, nowID, tsID).0;
            Wide(l') && l'.buckets == l.buckets && l'.minID == nowID - l.bucketCount + 1
  {
  }

  lemma PlacedRebuild(l: Limiter, nowID: int, tsID: int)
    requires Wide(l) && l.minID != 0
    ensures CountsKept(l, Rebuild(l, nowID, tsID).0)
  {
  }

  /** Exactly when a call keeps the counts, for every window and every clock: when the window does
      not begin at id 0, or the current id is still its last one, or nothing was counted. */
  lemma CountsKeptIff(l: Limiter, nowID: int, tsID: int)
    requires Wide(l)
    ensures CountsKept(l, Rebuild(l, nowID, tsID).0)
            <==> l.minID != 0 || nowID == l.maxID || l.buckets == Zeros(l.bucketCount)
  {
    var l' := Rebuild(l, nowID, tsID).0;
    if l.minID != 0 {
      PlacedRebuild(l, nowID, tsID);
    } else {
      OriginRebuild(l, nowID, tsID);
      if CountsKept(l, l') && nowID != l.maxID {
        forall j | 0 <= j < |l.buckets|
          ensures l.buckets[j] == 0
        {
          if nowID > l.maxID {
            MovedUp(l, l', j);
          } else {
            MovedDown(l, l', j);
          }
        }
      }
    }
  }

  /** A clock that starts lower makes the verdicts wrong: a window that begins at id 0 looks unplaced, so
      the next call moves it without sliding the counts, and the only event of id 1 is refused. */
  lemma OriginWindowLeaks()
    ensures var l0 := NewLimiter(1, 1, ByCount);
            var log := Run(l0, [Call(0, 0, 5), Call(1, 1, 5)]).1;
            log == [Entry(0, 1, true), Entry(1, 1, false)]
  {
    var l0 := NewLimiter(1, 1, ByCount);
    var calls := [Call(0, 0, 5), Call(1, 1, 5)];
    assert calls[..1] == [Call(0, 0, 5)] && calls[..1][..0] == [];
    assert Zeros(1) == [0];
    assert IsAllowed(l0, 0, 0, 5) == Verdict(l0.(buckets := [1]), 0, true, false);
    assert Run(l0, calls[..1][..0]) == (l0, [], false);
    var first := Run(l0, calls[..1]);
    assert first == (l0.(buckets := [1]), [] + [Entry(0, 1, true)], false);
  }

  // ------------------------------------------------------------- the object

  class InMemoryLimiter {
    const bucketCount: nat
    var limit: int
    const kind: Kind
    const interval: Interval
    var buckets: seq<nat>
    var minID: int
    var maxID: int

    ghost function Value(): Limiter
      reads this
    {
      Limiter(bucketCount, limit, kind, buckets, minID, maxID)
    }

    constructor (interval: Interval, bucketCount: nat, limit: int, kind: Kind)
      ensures Value() == NewLimiter(bucketCount, limit, kind) && this.interval == interval
    {
      this.interval, this.bucketCount, this.limit, this.kind := interval, bucketCount, limit, kind;
      buckets, minID, maxID := Zeros(bucketCount), 0, 0;
    }

    method RebuildBuckets(now: int, ts: int) returns (id: int)
      modifies this
      ensures (Value(), id) ==
              Rebuild(old(Value()), TimeToBucketID(now, interval), TimeToBucketID(ts, interval))
    {
      var currentID := TimeToBucketID(now, interval);
      if minID == 0 {
        maxID := currentID;
        minID := maxID - bucketCount + 1;
      }
      var max := minID + |buckets| - 1;
      if currentID > max {
        var n := currentID - max;
        ghost var was := buckets;
        var i := 0;
        while i < n
          invariant 0 <= i <= n
          invariant buckets == was + Zeros(i)
          invariant minID + |was| - 1 == max && limit == old(limit)
        {
          buckets := buckets + [0];
          assert Zeros(i) + [0] == Zeros(i + 1);
          i := i + 1;
        }
        buckets := buckets[n..];
        minID := minID + n;
        maxID := currentID;
      }
      id := TimeToBucketID(ts, interval);
      if id < minID || id > maxID {
        id := maxID;
      }
    }

    method Allow(now: int, ts: int, size: nat) returns (allowed: bool, panic: bool)
      modifies this
      ensures var v :=
                IsAllowed(old(Value()), TimeToBucketID(now, interval), TimeToBucketID(ts, interval), size);
              Value() == v.limiter && allowed == v.allowed && panic == v.panic
    {
      if limit < 0 {
        return true, false;
      }
      var id := RebuildBuckets(now, ts);
      var index := id - minID;
      if kind == Unknown || !(0 <= index < |buckets|) {
        return false, true;
      }
      if kind == ByCount {
        buckets := buckets[index := buckets[index] + 1];
      } else {
        buckets := buckets[index := buckets[index] + size];
      }
      return buckets[index] <= limit, false;
    }
  }
}
