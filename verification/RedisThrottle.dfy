/** The limiter whose counts are shared through Redis: every instance counts its own increments
    and pushes them to one counter per bucket id. */
module RedisThrottle {
  import opened Basics
  import opened Throttle

  /** `inc` holds what was not pushed yet, `tot` the last known totals. */
  datatype Instance = Instance(inc: Limiter, tot: Limiter)

  /** What one `isAllowed` call does. Each of the two limiters reads the clock: `nowID` and `totID`. */
  datatype Answer = Answer(inst: Instance, entry: Entry, allowed: bool, panic: bool)

  function Ask(t: Instance, nowID: int, totID: int, tsID: int, size: nat): Answer {
    var v := IsAllowed(t.inc, nowID, tsID, size);
    var e := Logged(v, size);
    if v.panic || !v.allowed then Answer(t.(inc := v.limiter), e, false, v.panic)
    else
      var w := IsAllowed(t.tot, totID, tsID, size);
      Answer(Instance(v.limiter, w.limiter), e, w.allowed && !w.panic, w.panic)
  }

  // --------------------------------------------------------------------- sync

  function Get(counters: map<int, nat>, id: int): nat {
    if id in counters then counters[id] else 0
  }

  /** The indexes below `k` of the buckets that hold something. */
  function Collect(buckets: seq<nat>, k: nat): (r: seq<nat>)
    requires k <= |buckets|
    ensures forall i :: 0 <= i < |r| ==> r[i] < k && buckets[r[i]] != 0
    ensures forall j :: 0 <= j < k && buckets[j] != 0 ==> j in r
  {
    if k == 0 then []
    else Collect(buckets, k - 1) + if buckets[k - 1] == 0 then [] else [k - 1]
  }

  /** Writes the bucket that was at `idx` when the window ended at `maxID`. A window that moved
      on is allowed for, except that an index which becomes 0 is passed over. */
  function Write(l: Limiter, maxID: int, idx: nat, val: nat): Limiter {
    var cur := if l.maxID == maxID then idx as int else idx - (l.maxID - maxID);
    if (l.maxID == maxID || cur > 0) && 0 <= cur < |l.buckets| then l.(buckets := l.buckets[cur := val]) else l
  }

  /** The write is out of range, Go's panic. It takes a window that is behind `maxID`. */
  predicate WritePanics(l: Limiter, maxID: int, idx: nat) {
    if l.maxID == maxID then idx >= |l.buckets|
    else idx - (l.maxID - maxID) >= |l.buckets| && idx - (l.maxID - maxID) > 0
  }

  datatype Pair = Pair(inst: Instance, counters: map<int, nat>)

  /** One key: add the increment to the counter, then clear it and store the new total. */
  function PushOne(p: Pair, maxID: int, minID: int, idx: nat, failed: set<int>): Pair
    requires idx < |p.inst.inc.buckets|
  {
    var id := minID + idx;
    if id in failed then p
    else
      var val := Get(p.counters, id) + p.inst.inc.buckets[idx];
      Pair(
        Instance(Write(p.inst.inc, maxID, idx, 0), Write(p.inst.tot, maxID, idx, val)),
        p.counters[id := val])
  }

  function Push(p: Pair, maxID: int, minID: int, idxs: seq<nat>, failed: set<int>): (r: Pair)
    requires forall i :: 0 <= i < |idxs| ==> idxs[i] < |p.inst.inc.buckets|
    ensures |r.inst.inc.buckets| == |p.inst.inc.buckets|
  {
    if idxs == [] then p
    else
      var q := Push(p, maxID, minID, idxs[..|idxs| - 1], failed);
      PushOne(q, maxID, minID, idxs[|idxs| - 1], failed)
  }

  predicate PushOnePanics(p: Pair, maxID: int, minID: int, idx: nat, failed: set<int>) {
    minID + idx !in failed && (WritePanics(p.inst.inc, maxID, idx) || WritePanics(p.inst.tot, maxID, idx))
  }

  predicate PushPanics(p: Pair, maxID: int, minID: int, idxs: seq<nat>, failed: set<int>)
    requires forall i :: 0 <= i < |idxs| ==> idxs[i] < |p.inst.inc.buckets|
  {
    if idxs == [] then false
    else
      var n := |idxs| - 1;
      || PushPanics(p, maxID, minID, idxs[..n], failed)
      || PushOnePanics(Push(p, maxID, minID, idxs[..n], failed), maxID, minID, idxs[n], failed)
  }

  function SetLimit(t: Instance, limit: Option<int>): Instance {
    if limit.None? then t else Instance(t.inc.(limit := limit.value), t.tot.(limit := limit.value))
  }

  /** The ids of the three clock readings of a sync: its own, which both windows are given as the
      time of an event, and that of each window when it is rebuilt. */
  datatype Readings = Readings(ts: int, inc: int, tot: int)

  /** Both windows are moved to the current id. */
  function Moved(p: Pair, r: Readings): Pair {
    p.(inst := Instance(Rebuild(p.inst.inc, r.inc, r.ts).0, Rebuild(p.inst.tot, r.tot, r.ts).0))
  }

  /** The id that the sync takes for the end of the window. */
  function TakenMax(p: Pair, r: Readings): int {
    Rebuild(p.inst.inc, r.inc, r.ts).1
  }

  /** Everything that is not zero is pushed, and when there was anything the limit may be
      replaced. */
  function PushAll(p: Pair, maxID: int, failed: set<int>, limit: Option<int>): Pair {
    var idxs := Collect(p.inst.inc.buckets, |p.inst.inc.buckets|);
    var q := Push(p, maxID, p.inst.tot.minID, idxs, failed);
    if idxs == [] then q else q.(inst := SetLimit(q.inst, limit))
  }

  predicate SyncPanics(p: Pair, r: Readings, failed: set<int>) {
    var q := Moved(p, r);
    var idxs := Collect(q.inst.inc.buckets, |q.inst.inc.buckets|);
    PushPanics(q, TakenMax(p, r), q.inst.tot.minID, idxs, failed)
  }

  /** A whole sync with no event in between. */
  function Sync(p: Pair, r: Readings, failed: set<int>, limit: Option<int>): Pair {
    PushAll(Moved(p, r), TakenMax(p, r), failed, limit)
  }

  // ------------------------------------------------------- the write after a shift

  /** Where the write lands once the window moved on by `shift`: on the bucket of the same id and
      on no other, and it is made exactly when the window did not move or the new index is
      positive. The bucket is still in the window for index 0 too, so exactly that one is missed. */
  lemma WriteAfterShift(l0: Limiter, l: Limiter, idx: nat, val: nat)
    requires Placed(l0) && Placed(l) && l.bucketCount == l0.bucketCount && l.minID >= l0.minID
    requires idx < l0.bucketCount
    ensures var shift := l.minID - l0.minID;
            var id := l0.minID + idx;
            var l' := Write(l, l0.maxID, idx, val);
            && Placed(l') && l'.minID == l.minID && Same(l', l)
            && (InRange(l, id) <==> idx >= shift)
            && (forall x :: x != id ==> At(l', x) == At(l, x))
            && At(l', id) == if shift == 0 || idx > shift then val else At(l, id)
  {
  }

  lemma CallAdds(l: Limiter, nowID: int, tsID: int, size: nat, x: int)
    requires Placed(l) && l.kind != Unknown && l.limit >= 0
    ensures var v := IsAllowed(l, nowID, tsID, size);
            && !v.panic && Placed(v.limiter) && Same(v.limiter, l) && v.limiter.minID >= l.minID
            && (x >= v.limiter.minID ==> At(v.limiter, x) == At(l, x) + CountsFor(x)(Logged(v, size)))
  {
    RebuildAt(l, nowID, tsID, x);
    ChargeAt(Rebuild(l, nowID, tsID).0, Rebuild(l, nowID, tsID).1, size, x);
  }

  ghost predicate Adds(l0: Limiter, l: Limiter, x: int, d: nat) {
    && Placed(l) && Same(l, l0) && l.minID >= l0.minID
    && (x >= l.minID ==> At(l, x) == At(l0, x) + d)
  }

  /** A placed limiter adds what the calls count, on every id that stays in the window. */
  lemma {:induction false} RunAdds(l0: Limiter, calls: seq<Call>, x: int)
    requires Placed(l0) && l0.kind != Unknown && l0.limit >= 0
    ensures var (l, log, bad) := Run(l0, calls);
            !bad && Adds(l0, l, x, Counted(log, x))
    decreases |calls|
  {
    if calls != [] {
      var n := |calls| - 1;
      RunAdds(l0, calls[..n], x);
      var (l1, log1, _) := Run(l0, calls[..n]);
      var c := calls[n];
      CallAdds(l1, c.nowID, c.tsID, c.size, x);
      SumSnoc(log1, Logged(IsAllowed(l1, c.nowID, c.tsID, c.size), c.size), CountsFor(x));
    }
  }

  /** The calls between two windows added what the log says, on every id that stays. */
  ghost predicate Follows(l0: Limiter, l: Limiter, log: seq<Entry>) {
    forall x :: Adds(l0, l, x, Counted(log, x))
  }

  lemma RunFollows(l0: Limiter, calls: seq<Call>, l: Limiter, log: seq<Entry>)
    requires Placed(l0) && l0.kind != Unknown && l0.limit >= 0 && Run(l0, calls) == (l, log, false)
    ensures Follows(l0, l, log)
  {
    forall x
      ensures Adds(l0, l, x, Counted(log, x))
    {
      RunAdds(l0, calls, x);
    }
  }

  /** What the read finds at the index, once the window moved on by `shift` since the index was
      collected: the increment of the id that is `shift` higher. */
  lemma ReadAfterShift(l0: Limiter, idx: nat, l1: Limiter, log1: seq<Entry>)
    requires Placed(l0) && idx < l0.bucketCount && Follows(l0, l1, log1)
    ensures Placed(l1) && l1.bucketCount == l0.bucketCount && l1.minID >= l0.minID
    ensures var id := l0.minID + idx + (l1.minID - l0.minID);
            l1.buckets[idx] == At(l0, id) + Counted(log1, id)
  {
    assert Adds(l0, l1, l1.minID + idx, Counted(log1, l1.minID + idx));
  }

  /** The id is still in the window and its bucket is not cleared: the end of the window taken for
      the sync is not that of the window that gave the id, or the bucket has become the oldest. */
  predicate Uncleared(l2: Limiter, maxID: int, minID: int, idx: nat) {
    && l2.minID <= minID + idx
    && (minID + l2.bucketCount - 1 != maxID || (l2.maxID != maxID && l2.minID == minID + idx))
  }

  /** What is pushed under the id and what stays in its bucket are together what is due: the
      increment at the collection, and what was counted before and after the read. */
  ghost predicate Exact(
    l0: Limiter, l1: Limiter, l2: Limiter, maxID: int, minID: int, idx: nat, d1: nat, d2: nat)
    requires idx < |l1.buckets|
  {
    l1.buckets[idx] + At(Write(l2, maxID, idx, 0), minID + idx) == At(l0, minID + idx) + d1 + d2
  }

  lemma WriteClears(l2: Limiter, maxID: int, minID: int, idx: nat)
    requires Placed(l2) && idx < l2.bucketCount && maxID <= l2.maxID
    ensures At(Write(l2, maxID, idx, 0), minID + idx)
         == if Uncleared(l2, maxID, minID, idx) then At(l2, minID + idx) else 0
  {
  }

  /** Exactly when the counter and the bucket have together what was counted for the id:
      - an id that is still in the window and is not cleared must have had nothing pushed;
      - if the read found the bucket of the id, nothing may have been counted for it since;
      - a read that found another bucket must by chance have found the amount that is due. */
  ghost predicate ExactIff(l0: Limiter, l1: Limiter, l2: Limiter, maxID: int, minID: int, idx: nat,
                           log1: seq<Entry>, log2: seq<Entry>) {
    var id := minID + idx;
    var found := l1.minID + idx;
    var d1, d2 := Counted(log1, id), Counted(log2, id);
    var pushed := At(l0, found) + Counted(log1, found);
    && idx < |l1.buckets|
    && (Exact(l0, l1, l2, maxID, minID, idx, d1, d2) <==>
        if Uncleared(l2, maxID, minID, idx) then pushed == 0
        else if found == id then d2 == 0
        else pushed == At(l0, id) + d1 + d2)
  }

  lemma ExchangeFollows(l0: Limiter, l1: Limiter, l2: Limiter, maxID: int, minID: int, idx: nat,
                        log1: seq<Entry>, log2: seq<Entry>)
    requires Placed(l0) && idx < l0.bucketCount && maxID <= l0.maxID && minID >= l0.minID
    requires Follows(l0, l1, log1) && Follows(l1, l2, log2)
    ensures ExactIff(l0, l1, l2, maxID, minID, idx, log1, log2)
  {
    var id := minID + idx;
    ReadAfterShift(l0, idx, l1, log1);
    assert Adds(l0, l1, id, Counted(log1, id)) && Adds(l1, l2, id, Counted(log2, id));
    WriteClears(l2, maxID, minID, idx);
  }

  lemma FollowsSame(l0: Limiter, l: Limiter, log: seq<Entry>)
    requires Follows(l0, l, log)
    ensures Placed(l) && Same(l, l0)
  {
    assert Adds(l0, l, 0, Counted(log, 0));
  }

  /** The exchange of one key as it really runs. The index is collected in window `l0`; `maxID` is
      what the sync takes for the end of that window, and `minID` the start of the other window. Any
      events come, while the keys in front of it are exchanged; the bucket at the index is read and
      pushed under the id `minID + idx`; more events come during the request; the bucket is cleared. */
  lemma ExchangeConservesIff(l0: Limiter, maxID: int, minID: int, before: seq<Call>, after: seq<Call>, idx: nat,
                             l1: Limiter, log1: seq<Entry>, l2: Limiter, log2: seq<Entry>)
    requires Placed(l0) && l0.kind != Unknown && l0.limit >= 0
    requires maxID <= l0.maxID && minID >= l0.minID && idx < l0.bucketCount
    requires Run(l0, before) == (l1, log1, false) && Run(l1, after) == (l2, log2, false)
    ensures ExactIff(l0, l1, l2, maxID, minID, idx, log1, log2)
  {
    RunFollows(l0, before, l1, log1);
    FollowsSame(l0, l1, log1);
    RunFollows(l1, after, l2, log2);
    ExchangeFollows(l0, l1, l2, maxID, minID, idx, log1, log2);
  }

  lemma SteadyFollows(l0: Limiter, l1: Limiter, l2: Limiter, idx: nat, log1: seq<Entry>, log2: seq<Entry>)
    requires Placed(l0) && Placed(l2) && l2.bucketCount == l0.bucketCount && l2.minID >= l0.minID
    requires idx < l0.bucketCount && l0.buckets[idx] > 0 && l1.minID == l0.minID
    requires ExactIff(l0, l1, l2, l0.maxID, l0.minID, idx, log1, log2)
    ensures var id := l0.minID + idx;
            Exact(l0, l1, l2, l0.maxID, l0.minID, idx, Counted(log1, id), Counted(log2, id)) <==>
            Counted(log2, id) == 0 && (idx == 0 || l2.minID != id)
  {
    assert At(l0, l0.minID + idx) == l0.buckets[idx];
  }

  /** With one reading of the clock and a window that has not moved at the read, the exchange of a
      key that holds something is exact if and only if nothing is counted for its id during the
      request and the window does not move by just the index. */
  lemma SteadyExchangeIff(l0: Limiter, before: seq<Call>, after: seq<Call>, idx: nat,
                          l1: Limiter, log1: seq<Entry>, l2: Limiter, log2: seq<Entry>)
    requires Placed(l0) && l0.kind != Unknown && l0.limit >= 0
    requires idx < l0.bucketCount && l0.buckets[idx] > 0
    requires Run(l0, before) == (l1, log1, false) && Run(l1, after) == (l2, log2, false)
    requires l1.minID == l0.minID
    ensures var id := l0.minID + idx;
            && idx < |l1.buckets|
            && (Exact(l0, l1, l2, l0.maxID, l0.minID, idx, Counted(log1, id), Counted(log2, id)) <==>
                Counted(log2, id) == 0 && (idx == 0 || l2.minID != id))
  {
    ExchangeConservesIff(l0, l0.maxID, l0.minID, before, after, idx, l1, log1, l2, log2);
    RunFollows(l0, before, l1, log1);
    assert Adds(l0, l1, 0, Counted(log1, 0));
    RunFollows(l1, after, l2, log2);
    assert Adds(l1, l2, 0, Counted(log2, 0));
    SteadyFollows(l0, l1, l2, idx, log1, log2);
  }

  /** The wrong bucket: an event of the next interval comes after the keys were collected, and the
      one event of id 7 is pushed under id 6, for which four were counted and are still there. */
  lemma LaterBucketIsPushed()
    ensures var l0 := Limiter(2, 10, ByCount, [3, 4], 5, 6);
            var l1 := Run(l0, [Call(7, 7, 1)]).0;
            && l1 == Limiter(2, 10, ByCount, [4, 1], 6, 7)
            && At(l0, 6) == 4 && l1.buckets[1] == 1 == At(l1, 7) && At(Write(l1, 6, 1, 0), 6) == 4
  {
    var l0 := Limiter(2, 10, ByCount, [3, 4], 5, 6);
    var calls := [Call(7, 7, 1)];
    assert calls[..0] == [];
    assert Run(l0, calls[..0]) == (l0, [], false);
    assert Slide(l0.buckets, 1) == [4, 0];
    assert IsAllowed(l0, 7, 7, 1).limiter == Limiter(2, 10, ByCount, [4, 1], 6, 7);
  }

  /** The missed bucket: after one event of the next interval the old increment is still there
      and the next sync pushes it again. */
  lemma OldestBucketStays()
    ensures var l0 := Limiter(2, 10, ByCount, [0, 3], 5, 6);
            var (l, _, _) := Run(l0, [Call(7, 7, 1)]);
            At(l0, 6) == 3 && Write(l, 6, 1, 0) == l && At(l, 6) == 3
  {
    var l0 := Limiter(2, 10, ByCount, [0, 3], 5, 6);
    var calls := [Call(7, 7, 1)];
    assert calls[..0] == [];
    assert Run(l0, calls[..0]) == (l0, [], false);
    assert Slide(l0.buckets, 1) == [3, 0];
    assert IsAllowed(l0, 7, 7, 1).limiter == Limiter(2, 10, ByCount, [3, 1], 6, 7);
  }

  // ------------------------------------------------------------ pushing the increments

  /** Both windows stand at the same ids, as they do after both were moved at one moment. */
  ghost predicate Aligned(p: Pair, maxID: int, minID: int) {
    && Placed(p.inst.inc) && Placed(p.inst.tot) && p.inst.inc.bucketCount == p.inst.tot.bucketCount
    && p.inst.inc.maxID == p.inst.tot.maxID == maxID && p.inst.inc.minID == p.inst.tot.minID == minID
  }

  lemma PushOneAt(p: Pair, maxID: int, minID: int, idx: nat, failed: set<int>, x: int)
    requires Aligned(p, maxID, minID) && idx < p.inst.inc.bucketCount
    ensures var q := PushOne(p, maxID, minID, idx, failed);
            && Aligned(q, maxID, minID) && Same(q.inst.inc, p.inst.inc) && Same(q.inst.tot, p.inst.tot)
            && Get(q.counters, x) + At(q.inst.inc, x) == Get(p.counters, x) + At(p.inst.inc, x)
            && if x == minID + idx && x !in failed
               then At(q.inst.inc, x) == 0 && At(q.inst.tot, x) == Get(q.counters, x)
               else At(q.inst.inc, x) == At(p.inst.inc, x) && At(q.inst.tot, x) == At(p.inst.tot, x)
                    && Get(q.counters, x) == Get(p.counters, x)
  {
  }

  /** Pushing moves counts from the increments to the counters and loses none. A pushed id is
      left with no increment and with the counter as its total; every other id is untouched. */
  lemma {:induction false} PushConserves(
    p: Pair, maxID: int, minID: int, idxs: seq<nat>, failed: set<int>, x: int)
    requires Aligned(p, maxID, minID)
    requires forall i :: 0 <= i < |idxs| ==> idxs[i] < p.inst.inc.bucketCount
    ensures var q := Push(p, maxID, minID, idxs, failed);
            && Aligned(q, maxID, minID) && Same(q.inst.inc, p.inst.inc) && Same(q.inst.tot, p.inst.tot)
            && Get(q.counters, x) + At(q.inst.inc, x) == Get(p.counters, x) + At(p.inst.inc, x)
            && if x >= minID && x - minID in idxs && x !in failed
               then At(q.inst.inc, x) == 0 && At(q.inst.tot, x) == Get(q.counters, x)
               else At(q.inst.inc, x) == At(p.inst.inc, x) && At(q.inst.tot, x) == At(p.inst.tot, x)
                    && Get(q.counters, x) == Get(p.counters, x)
    decreases |idxs|
  {
    if idxs != [] {
      var n := |idxs| - 1;
      PushConserves(p, maxID, minID, idxs[..n], failed, x);
      PushOneAt(Push(p, maxID, minID, idxs[..n], failed), maxID, minID, idxs[n], failed, x);
      assert forall j :: j in idxs <==> j in idxs[..n] || j == idxs[n];
    }
  }

  /** Neither window is behind the id that the sync takes for the end. */
  ghost predicate NotBehind(p: Pair, maxID: int, n: nat) {
    && Placed(p.inst.inc) && Placed(p.inst.tot) && p.inst.inc.bucketCount == p.inst.tot.bucketCount == n
    && maxID <= p.inst.inc.maxID && maxID <= p.inst.tot.maxID
  }

  ghost predicate SameWindows(p: Pair, q: Pair) {
    && Same(q.inst.inc, p.inst.inc) && q.inst.inc.minID == p.inst.inc.minID && q.inst.inc.maxID == p.inst.inc.maxID
    && Same(q.inst.tot, p.inst.tot) && q.inst.tot.minID == p.inst.tot.minID && q.inst.tot.maxID == p.inst.tot.maxID
  }

  /** Then pushing keeps both windows, and no write is out of range. */
  lemma {:induction false} PushNeverPanics(p: Pair, maxID: int, minID: int, n: nat, idxs: seq<nat>, failed: set<int>)
    requires NotBehind(p, maxID, n) && forall i :: 0 <= i < |idxs| ==> idxs[i] < n
    ensures !PushPanics(p, maxID, minID, idxs, failed)
    ensures NotBehind(Push(p, maxID, minID, idxs, failed), maxID, n)
    ensures SameWindows(p, Push(p, maxID, minID, idxs, failed))
    decreases |idxs|
  {
    if idxs != [] {
      PushNeverPanics(p, maxID, minID, n, idxs[..|idxs| - 1], failed);
    }
  }

  // --------------------------------------------- when the clock turns during a sync

  /** The key at index `j` is pushed. */
  predicate Sent(idxs: seq<nat>, minID: int, failed: set<int>, j: int) {
    j >= 0 && j in idxs && minID + j !in failed
  }

  /** What pushing does, whatever ids it was given: every sent bucket is added to the counter of the
      id that is named for it, and the buckets `shift` below the sent ones are cleared. */
  ghost predicate Effect(p: Pair, q: Pair, minID: int, shift: nat, idxs: seq<nat>, failed: set<int>, j: nat)
    requires j < |p.inst.inc.buckets| == |q.inst.inc.buckets|
  {
    && q.inst.inc.buckets[j]
       == (if (shift == 0 || j > 0) && Sent(idxs, minID, failed, j + shift) then 0 else p.inst.inc.buckets[j])
    && Get(q.counters, minID + j)
       == Get(p.counters, minID + j) + if Sent(idxs, minID, failed, j) then p.inst.inc.buckets[j] else 0
  }

  lemma PushOneEffect(p: Pair, q: Pair, maxID: int, minID: int, shift: nat, idxs: seq<nat>, a: nat,
                      failed: set<int>, j: nat)
    requires Placed(p.inst.inc) && Placed(q.inst.inc) && q.inst.inc.bucketCount == p.inst.inc.bucketCount
    requires q.inst.inc.maxID == maxID + shift && a < p.inst.inc.bucketCount && j < p.inst.inc.bucketCount
    requires forall i :: i in idxs ==> i < a
    requires Effect(p, q, minID, shift, idxs, failed, j) && Effect(p, q, minID, shift, idxs, failed, a)
    ensures Effect(p, PushOne(q, maxID, minID, a, failed), minID, shift, idxs + [a], failed, j)
  {
    assert forall i: nat :: i in idxs + [a] <==> i in idxs || i == a;
    assert !Sent(idxs, minID, failed, a + shift);
  }

  lemma {:induction false} PushEffect(p: Pair, maxID: int, minID: int, n: nat, idxs: seq<nat>, failed: set<int>, j: nat)
    requires NotBehind(p, maxID, n) && j < n && Increasing(idxs)
    requires forall i :: 0 <= i < |idxs| ==> idxs[i] < n
    ensures Effect(p, Push(p, maxID, minID, idxs, failed), minID, p.inst.inc.maxID - maxID, idxs, failed, j)
    decreases |idxs|
  {
    if idxs != [] {
      var k := |idxs| - 1;
      var before := idxs[..k];
      assert idxs == before + [idxs[k]];
      PushEffect(p, maxID, minID, n, before, failed, j);
      PushEffect(p, maxID, minID, n, before, failed, idxs[k]);
      PushNeverPanics(p, maxID, minID, n, before, failed);
      var q := Push(p, maxID, minID, before, failed);
      PushOneEffect(p, q, maxID, minID, p.inst.inc.maxID - maxID, before, idxs[k], failed, j);
    }
  }

  lemma IncreasingSnoc(f: seq<nat>, a: nat)
    requires Increasing(f) && forall i :: 0 <= i < |f| ==> f[i] < a
    ensures Increasing(f + [a])
  {
  }

  lemma {:induction false} CollectIncreases(buckets: seq<nat>, k: nat)
    requires k <= |buckets|
    ensures Increasing(Collect(buckets, k))
  {
    if k > 0 {
      CollectIncreases(buckets, k - 1);
      var f := Collect(buckets, k - 1);
      if buckets[k - 1] == 0 {
        assert Collect(buckets, k) == f;
      } else {
        IncreasingSnoc(f, k - 1);
      }
    }
  }

  lemma {:induction false} LastSent(idxs: seq<nat>, minID: int, failed: set<int>, i: nat) returns (k: nat)
    requires Increasing(idxs) && i < |idxs| && minID + idxs[i] !in failed
    ensures Sent(idxs, minID, failed, k) && forall j :: Sent(idxs, minID, failed, j) ==> j <= k
    decreases |idxs|
  {
    var n := |idxs| - 1;
    if minID + idxs[n] !in failed {
      k := idxs[n];
    } else {
      k := LastSent(idxs[..n], minID, failed, i);
      forall j | Sent(idxs, minID, failed, j)
        ensures j <= k
      {
        assert Sent(idxs[..n], minID, failed, j);
      }
    }
  }

  /** If anything is sent, and the windows or the end taken for them differ, the counter of the
      highest id that is named gains what no bucket of that id loses. */
  lemma TurnBreaks(p: Pair, maxID: int, n: nat, idxs: seq<nat>, failed: set<int>, i: nat) returns (x: int)
    requires NotBehind(p, maxID, n) && Increasing(idxs) && p.inst.tot.minID >= p.inst.inc.minID
    requires forall j :: 0 <= j < |idxs| ==> idxs[j] < n && p.inst.inc.buckets[idxs[j]] > 0
    requires i < |idxs| && p.inst.tot.minID + idxs[i] !in failed
    requires p.inst.tot.minID != p.inst.inc.minID || p.inst.inc.maxID != maxID
    ensures var q := Push(p, maxID, p.inst.tot.minID, idxs, failed);
            Get(q.counters, x) + At(q.inst.inc, x) > Get(p.counters, x) + At(p.inst.inc, x)
  {
    var minID := p.inst.tot.minID;
    var k := LastSent(idxs, minID, failed, i);
    x := minID + k;
    PushNeverPanics(p, maxID, minID, n, idxs, failed);
    PushEffect(p, maxID, minID, n, idxs, failed, k);
    var at := x - p.inst.inc.minID;
    if at < n {
      PushEffect(p, maxID, minID, n, idxs, failed, at);
      assert !Sent(idxs, minID, failed, at + (p.inst.inc.maxID - maxID));
    }
  }

  lemma {:induction false} NothingIsPushed(p: Pair, maxID: int, minID: int, idxs: seq<nat>, failed: set<int>)
    requires forall i :: 0 <= i < |idxs| ==> idxs[i] < |p.inst.inc.buckets| && minID + idxs[i] in failed
    ensures Push(p, maxID, minID, idxs, failed) == p
    decreases |idxs|
  {
    if idxs != [] {
      NothingIsPushed(p, maxID, minID, idxs[..|idxs| - 1], failed);
    }
  }

  /** A limiter of this configuration whose window is not ahead of the clock. */
  ghost predicate WindowOK(l: Limiter, n: nat, clock: int) {
    && n >= 1 && clock >= n && l.bucketCount == n && l.kind != Unknown
    && (Fresh(l) || (Placed(l) && l.maxID <= clock))
  }

  ghost predicate InstanceOK(t: Instance, n: nat, clock: int) {
    WindowOK(t.inc, n, clock) && WindowOK(t.tot, n, clock)
  }

  lemma RebuildWindow(l: Limiter, n: nat, clock: int, nowID: int, tsID: int)
    requires WindowOK(l, n, clock) && nowID >= clock
    ensures var (l', id) := Rebuild(l, nowID, tsID);
            && Placed(l') && Same(l', l) && l'.maxID == nowID && InRange(l', id)
            && id == if nowID - n < tsID <= nowID then tsID else nowID
  {
    RebuildKeeps(l, nowID, tsID);
  }

  // ------------------------------------------------------- what a moving window drops

  function DroppedTo(l: Limiter, k: nat): seq<Entry>
    requires k <= |l.buckets|
  {
    if k == 0 then [] else DroppedTo(l, k - 1) + [Entry(l.minID + k - 1, l.buckets[k - 1], false)]
  }

  lemma {:induction false} DroppedToCounts(l: Limiter, k: nat, x: int)
    requires k <= |l.buckets|
    ensures Counted(DroppedTo(l, k), x) == if l.minID <= x < l.minID + k then At(l, x) else 0
  {
    if k > 0 {
      DroppedToCounts(l, k - 1, x);
      SumSnoc(DroppedTo(l, k - 1), Entry(l.minID + k - 1, l.buckets[k - 1], false), CountsFor(x));
    }
  }

  /** The buckets of `l` that fall out of a window which now starts at `minID`. */
  function Dropped(l: Limiter, minID: int): seq<Entry> {
    if l.minID == 0 || minID <= l.minID then []
    else DroppedTo(l, if minID - l.minID < |l.buckets| then minID - l.minID else |l.buckets|)
  }

  lemma RebuildDrops(l: Limiter, n: nat, clock: int, nowID: int, tsID: int, x: int)
    requires WindowOK(l, n, clock) && nowID >= clock
    ensures var l' := Rebuild(l, nowID, tsID).0;
            At(l', x) + Counted(Dropped(l, l'.minID), x) == At(l, x)
  {
    var l' := Rebuild(l, nowID, tsID).0;
    RebuildKeeps(l, nowID, tsID);
    if l.minID != 0 && l'.minID > l.minID {
      var k := if l'.minID - l.minID < |l.buckets| then l'.minID - l.minID else |l.buckets|;
      DroppedToCounts(l, k, x);
    }
    if x >= l'.minID {
      assert At(l', x) == At(l, x);
    }
  }

  // --------------------------------------------------------------- many instances

  /** `log` has every event ever counted, `lost` the increments that left a window before they
      were pushed. */
  datatype State = State(
    instances: seq<Instance>, counters: map<int, nat>, clock: int, log: seq<Entry>, lost: seq<Entry>)

  datatype Step =
    | Event(i: nat, nowID: int, totID: int, tsID: int, size: nat)
    | SyncStep(i: nat, readings: Readings, failed: set<int>, limit: Option<int>)

  /** The clock does not run backwards. */
  predicate InTurn(r: Readings, clock: int) {
    clock <= r.ts <= r.inc <= r.tot
  }

  predicate Enabled(s: State, st: Step) {
    && st.i < |s.instances|
    && match st
       case Event(_, nowID, totID, _, _) => s.clock <= nowID <= totID
       case SyncStep(_, r, _, _) => InTurn(r, s.clock)
  }

  function Apply(s: State, st: Step): State
    requires Enabled(s, st)
  {
    var t := s.instances[st.i];
    match st
    case Event(i, nowID, totID, tsID, size) =>
      var a := Ask(t, nowID, totID, tsID, size);
      if t.inc.limit < 0 then s.(instances := s.instances[i := a.inst], clock := totID)
      else
        s.(instances := s.instances[i := a.inst], clock := totID, log := s.log + [a.entry],
           lost := s.lost + Dropped(t.inc, a.inst.inc.minID))
    case SyncStep(i, r, failed, limit) =>
      var p := Sync(Pair(t, s.counters), r, failed, limit);
      s.(instances := s.instances[i := p.inst], counters := p.counters, clock := r.tot,
         lost := s.lost + Dropped(t.inc, p.inst.inc.minID))
  }

  ghost predicate ValidRun(s: State, steps: seq<Step>)
    decreases |steps|, 0
  {
    steps == [] || (
      var n := |steps| - 1;
      ValidRun(s, steps[..n]) && Enabled(Exec(s, steps[..n]), steps[n]))
  }

  ghost function Exec(s: State, steps: seq<Step>): State
    requires ValidRun(s, steps)
    decreases |steps|, 1
  {
    if steps == [] then s else Apply(Exec(s, steps[..|steps| - 1]), steps[|steps| - 1])
  }

  function Pending(x: int): Instance -> nat {
    (t: Instance) => At(t.inc, x)
  }

  /** What the counter of an id has, what the instances hold back and what was lost make up
      everything counted for it. */
  ghost predicate Balanced(s: State, x: int) {
    Get(s.counters, x) + Sum(s.instances, Pending(x)) + Counted(s.lost, x) == Counted(s.log, x)
  }

  ghost predicate AllOK(s: State, n: nat) {
    n >= 1 && s.clock >= n && forall i :: 0 <= i < |s.instances| ==> InstanceOK(s.instances[i], n, s.clock)
  }

  /** One limiter's share of a call. */
  lemma CallKeeps(l: Limiter, n: nat, clock: int, nowID: int, tsID: int, size: nat, x: int)
    requires WindowOK(l, n, clock) && nowID >= clock && l.limit >= 0
    ensures var v := IsAllowed(l, nowID, tsID, size);
            && !v.panic && WindowOK(v.limiter, n, nowID)
            && At(v.limiter, x) + Counted(Dropped(l, v.limiter.minID), x) == At(l, x) + CountsFor(x)(Logged(v, size))
  {
    RebuildWindow(l, n, clock, nowID, tsID);
    RebuildDrops(l, n, clock, nowID, tsID, x);
    ChargeAt(Rebuild(l, nowID, tsID).0, Rebuild(l, nowID, tsID).1, size, x);
  }

  lemma FreeKeeps(l: Limiter, n: nat, clock: int, nowID: int, tsID: int, size: nat)
    requires WindowOK(l, n, clock) && nowID >= clock
    ensures !IsAllowed(l, nowID, tsID, size).panic && WindowOK(IsAllowed(l, nowID, tsID, size).limiter, n, nowID)
  {
    if l.limit >= 0 {
      CallKeeps(l, n, clock, nowID, tsID, size, 0);
    }
  }

  /** One call keeps the windows, does not panic and accounts for its amount. */
  lemma AskKeeps(t: Instance, n: nat, clock: int, nowID: int, totID: int, tsID: int, size: nat, x: int)
    requires InstanceOK(t, n, clock) && clock <= nowID <= totID && t.inc.limit >= 0
    ensures var a := Ask(t, nowID, totID, tsID, size);
            && !a.panic && InstanceOK(a.inst, n, totID)
            && At(a.inst.inc, x) + Counted(Dropped(t.inc, a.inst.inc.minID), x)
               == At(t.inc, x) + CountsFor(x)(a.entry)
  {
    CallKeeps(t.inc, n, clock, nowID, tsID, size, x);
    FreeKeeps(t.tot, n, clock, totID, tsID, size);
    assert WindowOK(t.tot, n, totID);
  }

  /** Without a limit nothing is counted. */
  lemma AskFree(t: Instance, n: nat, clock: int, nowID: int, totID: int, tsID: int, size: nat)
    requires InstanceOK(t, n, clock) && clock <= nowID <= totID && t.inc.limit < 0
    ensures var a := Ask(t, nowID, totID, tsID, size);
            !a.panic && InstanceOK(a.inst, n, totID) && a.inst.inc == t.inc
  {
    FreeKeeps(t.tot, n, clock, totID, tsID, size);
  }

  /** All three readings of the sync fall into one interval, or the first is so old that the window
      no longer has it. */
  predicate OneInterval(r: Readings, n: nat) {
    r.tot == r.inc && (r.ts == r.inc || r.ts <= r.inc - n)
  }

  lemma MovedWindows(p: Pair, n: nat, clock: int, r: Readings)
    requires InstanceOK(p.inst, n, clock) && InTurn(r, clock)
    ensures var q := Moved(p, r);
            && NotBehind(q, TakenMax(p, r), n) && q.inst.inc.maxID == r.inc && q.inst.tot.maxID == r.tot
            && Same(q.inst.inc, p.inst.inc) && Same(q.inst.tot, p.inst.tot)
            && (OneInterval(r, n) <==> q.inst.tot.minID == q.inst.inc.minID && TakenMax(p, r) == r.inc)
            && (OneInterval(r, n) ==> Aligned(q, r.inc, r.inc - n + 1))
  {
    RebuildWindow(p.inst.inc, n, clock, r.inc, r.ts);
    RebuildWindow(p.inst.tot, n, clock, r.tot, r.ts);
  }

  lemma Collected(l: Limiter, x: int)
    requires Placed(l) && At(l, x) > 0
    ensures x - l.minID in Collect(l.buckets, |l.buckets|)
  {
  }

  ghost predicate Alike(t: Instance, t': Instance) {
    && t.inc.bucketCount == t'.inc.bucketCount && t.inc.kind == t'.inc.kind
    && t.tot.bucketCount == t'.tot.bucketCount && t.tot.kind == t'.tot.kind
  }

  /** For one id: nothing lost, and everything that did not fail is on the counter. */
  ghost predicate Published(p: Pair, q: Pair, failed: set<int>, x: int) {
    && Get(q.counters, x) + At(q.inst.inc, x) == Get(p.counters, x) + At(p.inst.inc, x)
    && (x !in failed ==> At(q.inst.inc, x) == 0)
    && (x !in failed && At(p.inst.inc, x) > 0 ==> At(q.inst.tot, x) == Get(q.counters, x))
  }

  lemma PushPublishes(p: Pair, maxID: int, minID: int, failed: set<int>, x: int)
    requires Aligned(p, maxID, minID)
    ensures var q := Push(p, maxID, minID, Collect(p.inst.inc.buckets, |p.inst.inc.buckets|), failed);
            Aligned(q, maxID, minID) && Alike(q.inst, p.inst) && Published(p, q, failed, x)
  {
    var idxs := Collect(p.inst.inc.buckets, |p.inst.inc.buckets|);
    PushConserves(p, maxID, minID, idxs, failed, x);
    if At(p.inst.inc, x) > 0 {
      Collected(p.inst.inc, x);
    }
  }

  lemma LimitKeeps(p: Pair, q: Pair, maxID: int, minID: int, failed: set<int>, limit: Option<int>, x: int)
    requires Aligned(q, maxID, minID) && Alike(q.inst, p.inst) && Published(p, q, failed, x)
    ensures var r := q.(inst := SetLimit(q.inst, limit));
            Aligned(r, maxID, minID) && Alike(r.inst, p.inst) && Published(p, r, failed, x)
  {
  }

  lemma PushAllAt(p: Pair, maxID: int, minID: int, failed: set<int>, limit: Option<int>, x: int)
    requires Aligned(p, maxID, minID)
    ensures var q := PushAll(p, maxID, failed, limit);
            Aligned(q, maxID, minID) && Alike(q.inst, p.inst) && Published(p, q, failed, x)
  {
    var idxs := Collect(p.inst.inc.buckets, |p.inst.inc.buckets|);
    PushPublishes(p, maxID, minID, failed, x);
    LimitKeeps(p, Push(p, maxID, minID, idxs, failed), maxID, minID, failed, limit, x);
  }

  /** For one id: nothing is lost but what had already left the window. */
  ghost predicate Conserved(p: Pair, q: Pair, x: int) {
    Get(q.counters, x) + At(q.inst.inc, x) + Counted(Dropped(p.inst.inc, q.inst.inc.minID), x)
    == Get(p.counters, x) + At(p.inst.inc, x)
  }

  ghost predicate AllConserved(p: Pair, q: Pair) {
    forall x :: Conserved(p, q, x)
  }

  lemma MovedConserves(p: Pair, q: Pair, n: nat, clock: int, r: Readings, x: int)
    requires InstanceOK(p.inst, n, clock) && InTurn(r, clock)
    requires q.inst.inc.minID == Moved(p, r).inst.inc.minID
    ensures Conserved(p, q, x) <==>
            Get(q.counters, x) + At(q.inst.inc, x) == Get(p.counters, x) + At(Moved(p, r).inst.inc, x)
  {
    RebuildDrops(p.inst.inc, n, clock, r.inc, r.ts, x);
  }

  /** A sync keeps both windows, whatever it reads, and never writes out of range. */
  lemma SyncKeeps(p: Pair, n: nat, clock: int, r: Readings, failed: set<int>, limit: Option<int>)
    requires InstanceOK(p.inst, n, clock) && InTurn(r, clock)
    ensures var q := Sync(p, r, failed, limit);
            InstanceOK(q.inst, n, r.tot) && q.inst.inc.minID == Moved(p, r).inst.inc.minID
    ensures !SyncPanics(p, r, failed)
  {
    var q := Moved(p, r);
    MovedWindows(p, n, clock, r);
    var idxs := Collect(q.inst.inc.buckets, |q.inst.inc.buckets|);
    PushNeverPanics(q, TakenMax(p, r), q.inst.tot.minID, n, idxs, failed);
  }

  /** With readings from one interval a sync conserves every id. */
  lemma OneIntervalConserves(
    p: Pair, n: nat, clock: int, r: Readings, failed: set<int>, limit: Option<int>, x: int)
    requires InstanceOK(p.inst, n, clock) && InTurn(r, clock) && OneInterval(r, n)
    ensures Conserved(p, Sync(p, r, failed, limit), x)
  {
    MovedWindows(p, n, clock, r);
    SyncKeeps(p, n, clock, r, failed, limit);
    PushAllAt(Moved(p, r), r.inc, r.inc - n + 1, failed, limit, x);
    MovedConserves(p, Sync(p, r, failed, limit), n, clock, r, x);
  }

  /** There is nothing to push, or every request fails. */
  ghost predicate NothingSent(p: Pair, failed: set<int>) {
    forall j :: 0 <= j < |p.inst.inc.buckets| && p.inst.inc.buckets[j] != 0 ==> p.inst.tot.minID + j in failed
  }

  /** A new limit changes no count. */
  lemma PushAllCounts(p: Pair, maxID: int, failed: set<int>, limit: Option<int>, x: int)
    ensures var idxs := Collect(p.inst.inc.buckets, |p.inst.inc.buckets|);
            var q, q' := Push(p, maxID, p.inst.tot.minID, idxs, failed), PushAll(p, maxID, failed, limit);
            Get(q'.counters, x) == Get(q.counters, x) && At(q'.inst.inc, x) == At(q.inst.inc, x)
  {
  }

  lemma NothingSentChanges(p: Pair, maxID: int, failed: set<int>, limit: Option<int>, x: int)
    requires NothingSent(p, failed)
    ensures var q := PushAll(p, maxID, failed, limit);
            && q.inst.inc.minID == p.inst.inc.minID
            && Get(q.counters, x) == Get(p.counters, x) && At(q.inst.inc, x) == At(p.inst.inc, x)
  {
    NothingIsPushed(p, maxID, p.inst.tot.minID, Collect(p.inst.inc.buckets, |p.inst.inc.buckets|), failed);
    PushAllCounts(p, maxID, failed, limit, x);
  }

  lemma NothingSentConserves(
    p: Pair, n: nat, clock: int, r: Readings, failed: set<int>, limit: Option<int>, x: int)
    requires InstanceOK(p.inst, n, clock) && InTurn(r, clock) && NothingSent(Moved(p, r), failed)
    ensures Conserved(p, Sync(p, r, failed, limit), x)
  {
    NothingSentChanges(Moved(p, r), TakenMax(p, r), failed, limit, x);
    MovedConserves(p, Sync(p, r, failed, limit), n, clock, r, x);
  }

  lemma SomeSent(p: Pair, failed: set<int>) returns (i: nat)
    requires !NothingSent(p, failed)
    ensures var idxs := Collect(p.inst.inc.buckets, |p.inst.inc.buckets|);
            i < |idxs| && p.inst.tot.minID + idxs[i] !in failed
  {
    var idxs := Collect(p.inst.inc.buckets, |p.inst.inc.buckets|);
    var j: nat :| j < |p.inst.inc.buckets| && p.inst.inc.buckets[j] != 0 && p.inst.tot.minID + j !in failed;
    assert j in idxs;
    i :| 0 <= i < |idxs| && idxs[i] == j;
  }

  lemma TurnBreaksAll(p: Pair, maxID: int, n: nat, failed: set<int>, limit: Option<int>) returns (x: int)
    requires NotBehind(p, maxID, n) && p.inst.tot.minID >= p.inst.inc.minID && !NothingSent(p, failed)
    requires p.inst.tot.minID != p.inst.inc.minID || p.inst.inc.maxID != maxID
    ensures var q := PushAll(p, maxID, failed, limit);
            Get(q.counters, x) + At(q.inst.inc, x) > Get(p.counters, x) + At(p.inst.inc, x)
  {
    var idxs := Collect(p.inst.inc.buckets, |p.inst.inc.buckets|);
    CollectIncreases(p.inst.inc.buckets, |p.inst.inc.buckets|);
    var i := SomeSent(p, failed);
    x := TurnBreaks(p, maxID, n, idxs, failed, i);
    PushAllCounts(p, maxID, failed, limit, x);
  }

  lemma TurnIsNotConserved(p: Pair, n: nat, clock: int, r: Readings, failed: set<int>, limit: Option<int>)
      returns (x: int)
    requires InstanceOK(p.inst, n, clock) && InTurn(r, clock)
    requires !OneInterval(r, n) && !NothingSent(Moved(p, r), failed)
    ensures !Conserved(p, Sync(p, r, failed, limit), x)
  {
    MovedWindows(p, n, clock, r);
    SyncKeeps(p, n, clock, r, failed, limit);
    x := TurnBreaksAll(Moved(p, r), TakenMax(p, r), n, failed, limit);
    MovedConserves(p, Sync(p, r, failed, limit), n, clock, r, x);
  }

  /** A sync conserves all ids exactly if the clock does not enter a new interval between its three
      readings, or nothing is sent. */
  lemma SyncConservesIff(p: Pair, n: nat, clock: int, r: Readings, failed: set<int>, limit: Option<int>)
    requires InstanceOK(p.inst, n, clock) && InTurn(r, clock)
    ensures AllConserved(p, Sync(p, r, failed, limit)) <==>
            OneInterval(r, n) || NothingSent(Moved(p, r), failed)
  {
    if OneInterval(r, n) || NothingSent(Moved(p, r), failed) {
      forall x
        ensures Conserved(p, Sync(p, r, failed, limit), x)
      {
        if OneInterval(r, n) {
          OneIntervalConserves(p, n, clock, r, failed, limit, x);
        } else {
          NothingSentConserves(p, n, clock, r, failed, limit, x);
        }
      }
    } else {
      var x := TurnIsNotConserved(p, n, clock, r, failed, limit);
      assert !Conserved(p, Sync(p, r, failed, limit), x);
    }
  }

  /** Such a sync, with no event in between: the interval of id 6 ends after the sync has read the
      clock. The four events of id 7 are pushed and stay to be pushed again. */
  lemma ClockTurnsInSync()
    ensures var l := Limiter(3, 10, ByCount, [0, 2, 4], 5, 7);
            var r := Readings(6, 7, 7);
            var q := Sync(Pair(Instance(l, l), map[]), r, {}, None);
            && Rebuild(l, 7, 6) == (l, 6)
            && q.counters == map[6 := 2, 7 := 4] && q.inst.inc.buckets == [0, 0, 4]
  {
    var l := Limiter(3, 10, ByCount, [0, 2, 4], 5, 7);
    var p := Pair(Instance(l, l), map[]);
    assert Collect(l.buckets, 2) == [1];
    var idxs := Collect(l.buckets, 3);
    assert idxs == [1, 2] && idxs[..1] == [1] && [1][..0] == [];
    assert Push(p, 6, 5, [], {}) == p;
    assert Push(p, 6, 5, [1], {}) == PushOne(p, 6, 5, 1, {});
  }

  /** After such a sync every increment whose request did not fail is on the counter: the instance
      holds nothing back for the id, and its total is the counter that all instances share. */
  lemma SyncPublishes(p: Pair, n: nat, clock: int, r: Readings, failed: set<int>, limit: Option<int>, x: int)
    requires InstanceOK(p.inst, n, clock) && InTurn(r, clock) && OneInterval(r, n) && x !in failed
    ensures var inc := Moved(p, r).inst.inc;
            var q := Sync(p, r, failed, limit);
            && At(q.inst.inc, x) == 0 && Get(q.counters, x) == Get(p.counters, x) + At(inc, x)
            && (At(inc, x) > 0 ==> At(q.inst.tot, x) == Get(q.counters, x))
  {
    MovedWindows(p, n, clock, r);
    PushAllAt(Moved(p, r), r.inc, r.inc - n + 1, failed, limit, x);
  }

  // ------------------------------------------------------------------ the shared limit

  /** The bucket id that a window of `n` buckets ending at `nowID` has for an event. */
  function BucketOf(n: nat, nowID: int, tsID: int): int {
    if nowID - n < tsID <= nowID then tsID else nowID
  }

  /** One limiter's verdict, in terms of what it had counted before. */
  lemma VerdictIs(l: Limiter, n: nat, clock: int, nowID: int, tsID: int, size: nat)
    requires WindowOK(l, n, clock) && nowID >= clock && l.limit >= 0
    ensures var v := IsAllowed(l, nowID, tsID, size);
            var weight := if l.kind == ByCount then 1 else size;
            && !v.panic && v.id == BucketOf(n, nowID, tsID) && Logged(v, size).amount == weight
            && (v.allowed <==> At(l, v.id) + weight <= l.limit)
  {
    RebuildWindow(l, n, clock, nowID, tsID);
    var (l1, id) := Rebuild(l, nowID, tsID);
    RebuildAt(l, nowID, tsID, id);
    ChargeAt(l1, id, size, id);
  }

  /** An event is allowed exactly if it fits both into what this instance counted since the last sync
      and into the last known totals. One that the increments refuse is not added to the totals. */
  lemma AskAllowsIff(t: Instance, n: nat, clock: int, nowID: int, totID: int, tsID: int, size: nat)
    requires InstanceOK(t, n, clock) && clock <= nowID <= totID && t.inc.limit >= 0 && t.tot.limit >= 0
    requires t.inc.kind == t.tot.kind
    ensures var a := Ask(t, nowID, totID, tsID, size);
            var weight := if t.inc.kind == ByCount then 1 else size;
            var fits := At(t.inc, BucketOf(n, nowID, tsID)) + weight <= t.inc.limit;
            && a.entry.id == BucketOf(n, nowID, tsID) && a.entry.amount == weight
            && (a.allowed <==> fits && At(t.tot, BucketOf(n, totID, tsID)) + weight <= t.tot.limit)
            && (!fits ==> a.inst.tot == t.tot)
  {
    VerdictIs(t.inc, n, clock, nowID, tsID, size);
    VerdictIs(t.tot, n, clock, totID, tsID, size);
  }

  /** A sync that pushes something replaces both limits, if there is a new one. */
  lemma SyncSetsLimit(p: Pair, r: Readings, failed: set<int>, limit: Option<int>, i: nat)
    requires i < |Moved(p, r).inst.inc.buckets| && Moved(p, r).inst.inc.buckets[i] != 0 && limit.Some?
    ensures var q := Sync(p, r, failed, limit);
            q.inst.inc.limit == limit.value && q.inst.tot.limit == limit.value
  {
    assert i in Collect(Moved(p, r).inst.inc.buckets, |Moved(p, r).inst.inc.buckets|);
  }

  /** One that has nothing to push, or finds no new limit, leaves both as they are. */
  lemma SyncKeepsLimit(p: Pair, n: nat, clock: int, r: Readings, failed: set<int>, limit: Option<int>)
    requires InstanceOK(p.inst, n, clock) && InTurn(r, clock)
    requires limit.None? || forall i :: 0 <= i < |Moved(p, r).inst.inc.buckets| ==> Moved(p, r).inst.inc.buckets[i] == 0
    ensures var q := Sync(p, r, failed, limit);
            q.inst.inc.limit == p.inst.inc.limit && q.inst.tot.limit == p.inst.tot.limit
  {
    var q := Moved(p, r);
    MovedWindows(p, n, clock, r);
    var idxs := Collect(q.inst.inc.buckets, |q.inst.inc.buckets|);
    PushNeverPanics(q, TakenMax(p, r), q.inst.tot.minID, n, idxs, failed);
    assert idxs != [] ==> q.inst.inc.buckets[idxs[0]] != 0;
  }

  lemma SyncKinds(p: Pair, n: nat, clock: int, r: Readings, failed: set<int>, limit: Option<int>)
    requires InstanceOK(p.inst, n, clock) && InTurn(r, clock) && OneInterval(r, n)
    ensures var q := Sync(p, r, failed, limit);
            q.inst.inc.kind == p.inst.inc.kind && q.inst.tot.kind == p.inst.tot.kind
  {
    MovedWindows(p, n, clock, r);
    PushAllAt(Moved(p, r), r.inc, r.inc - n + 1, failed, limit, 0);
  }

  /** What the sharing is for: right after a sync that pushed an id, an event of it is allowed exactly
      if it fits into the limit together with everything that the counter has, from all instances. */
  lemma SharedLimitHolds(p: Pair, n: nat, clock: int, r: Readings, failed: set<int>, limit: Option<int>,
                         nowID: int, tsID: int, size: nat)
    requires InstanceOK(p.inst, n, clock) && InTurn(r, clock) && OneInterval(r, n) && r.tot <= nowID
    requires p.inst.inc.kind == p.inst.tot.kind
    requires var x := BucketOf(n, nowID, tsID);
             x !in failed && At(Moved(p, r).inst.inc, x) > 0
    requires Sync(p, r, failed, limit).inst.inc.limit >= 0 && Sync(p, r, failed, limit).inst.tot.limit >= 0
    ensures var q := Sync(p, r, failed, limit);
            var weight := if q.inst.inc.kind == ByCount then 1 else size;
            Ask(q.inst, nowID, nowID, tsID, size).allowed
            <==> weight <= q.inst.inc.limit
                 && Get(q.counters, BucketOf(n, nowID, tsID)) + weight <= q.inst.tot.limit
  {
    SyncKeeps(p, n, clock, r, failed, limit);
    SyncPublishes(p, n, clock, r, failed, limit, BucketOf(n, nowID, tsID));
    SyncKinds(p, n, clock, r, failed, limit);
    AskAllowsIff(Sync(p, r, failed, limit).inst, n, r.tot, nowID, nowID, tsID, size);
  }

  lemma OthersKeep(s: State, s': State, n: nat, i: nat)
    requires AllOK(s, n) && i < |s.instances| && s'.clock >= s.clock
    requires |s'.instances| == |s.instances| && s'.instances == s.instances[i := s'.instances[i]]
    requires InstanceOK(s'.instances[i], n, s'.clock)
    ensures AllOK(s', n)
  {
    forall j | 0 <= j < |s'.instances|
      ensures InstanceOK(s'.instances[j], n, s'.clock)
    {
      if j != i {
        assert InstanceOK(s.instances[j], n, s.clock);
      }
    }
  }

  lemma EventBalances(s: State, st: Step, n: nat, x: int)
    requires AllOK(s, n) && Enabled(s, st) && st.Event?
    ensures AllOK(Apply(s, st), n) && (Balanced(s, x) ==> Balanced(Apply(s, st), x))
  {
    var t := s.instances[st.i];
    var a := Ask(t, st.nowID, st.totID, st.tsID, st.size);
    SumUpdate(s.instances, st.i, a.inst, Pending(x));
    if t.inc.limit < 0 {
      AskFree(t, n, s.clock, st.nowID, st.totID, st.tsID, st.size);
    } else {
      AskKeeps(t, n, s.clock, st.nowID, st.totID, st.tsID, st.size, x);
      SumSnoc(s.log, a.entry, CountsFor(x));
      SumConcat(s.lost, Dropped(t.inc, a.inst.inc.minID), CountsFor(x));
    }
    OthersKeep(s, Apply(s, st), n, st.i);
  }

  lemma SyncBalances(s: State, st: Step, n: nat, x: int)
    requires AllOK(s, n) && Enabled(s, st) && st.SyncStep?
    ensures AllOK(Apply(s, st), n)
    ensures Balanced(s, x) ==>
              var p := Pair(s.instances[st.i], s.counters);
              Balanced(Apply(s, st), x) <==> Conserved(p, Sync(p, st.readings, st.failed, st.limit), x)
  {
    var p := Pair(s.instances[st.i], s.counters);
    var q := Sync(p, st.readings, st.failed, st.limit);
    SyncKeeps(p, n, s.clock, st.readings, st.failed, st.limit);
    SumUpdate(s.instances, st.i, q.inst, Pending(x));
    SumConcat(s.lost, Dropped(p.inst.inc, q.inst.inc.minID), CountsFor(x));
    OthersKeep(s, Apply(s, st), n, st.i);
  }

  /** An event, or a sync that conserves. */
  ghost predicate Clean(s: State, st: Step)
    requires Enabled(s, st)
  {
    st.SyncStep? ==>
      var p := Pair(s.instances[st.i], s.counters);
      OneInterval(st.readings, p.inst.inc.bucketCount) || NothingSent(Moved(p, st.readings), st.failed)
  }

  ghost predicate AllBalanced(s: State) {
    forall x :: Balanced(s, x)
  }

  lemma SyncBalancesIff(s: State, st: Step, n: nat, p: Pair, q: Pair)
    requires AllOK(s, n) && Enabled(s, st) && st.SyncStep? && AllBalanced(s)
    requires p == Pair(s.instances[st.i], s.counters) && q == Sync(p, st.readings, st.failed, st.limit)
    ensures AllBalanced(Apply(s, st)) <==> AllConserved(p, q)
  {
    forall x
      ensures Balanced(Apply(s, st), x) <==> Conserved(p, q, x)
    {
      assert Balanced(s, x);
      SyncBalances(s, st, n, x);
    }
  }

  /** A step keeps every id balanced exactly if it is clean. */
  lemma StepBalancesIff(s: State, st: Step, n: nat)
    requires AllOK(s, n) && Enabled(s, st) && AllBalanced(s)
    ensures AllBalanced(Apply(s, st)) <==> Clean(s, st)
  {
    if st.Event? {
      forall x
        ensures Balanced(Apply(s, st), x)
      {
        assert Balanced(s, x);
        EventBalances(s, st, n, x);
      }
    } else {
      var p := Pair(s.instances[st.i], s.counters);
      SyncConservesIff(p, n, s.clock, st.readings, st.failed, st.limit);
      SyncBalancesIff(s, st, n, p, Sync(p, st.readings, st.failed, st.limit));
    }
  }

  ghost predicate Initial(s: State, n: nat) {
    && n >= 1 && s.clock >= n && s.counters == map[] && s.log == [] && s.lost == []
    && forall i :: 0 <= i < |s.instances| ==>
         var t := s.instances[i];
         && Fresh(t.inc) && t.inc.bucketCount == n && t.inc.kind != Unknown
         && Fresh(t.tot) && t.tot.bucketCount == n && t.tot.kind != Unknown
  }

  /** No instance holds anything back for an id. */
  ghost predicate Settled(ts: seq<Instance>, x: int) {
    forall i :: 0 <= i < |ts| ==> At(ts[i].inc, x) == 0
  }

  lemma {:induction false} NothingPending(ts: seq<Instance>, x: int)
    requires Settled(ts, x)
    ensures Sum(ts, Pending(x)) == 0
  {
    if ts != [] {
      NothingPending(ts[..|ts| - 1], x);
    }
  }

  lemma StartBalances(s: State, n: nat, x: int)
    requires Initial(s, n)
    ensures AllOK(s, n) && Balanced(s, x)
  {
    forall i | 0 <= i < |s.instances|
      ensures At(s.instances[i].inc, x) == 0
    {
      assert Fresh(s.instances[i].inc);
    }
    NothingPending(s.instances, x);
  }

  /** In every run the windows stay good, so no call and no sync panics. */
  lemma {:induction false} RunKeepsWindows(s0: State, steps: seq<Step>, n: nat)
    requires Initial(s0, n) && ValidRun(s0, steps)
    ensures AllOK(Exec(s0, steps), n)
    decreases |steps|
  {
    if steps == [] {
      StartBalances(s0, n, 0);
    } else {
      var k := |steps| - 1;
      var s := Exec(s0, steps[..k]);
      RunKeepsWindows(s0, steps[..k], n);
      if steps[k].Event? {
        EventBalances(s, steps[k], n, 0);
      } else {
        SyncBalances(s, steps[k], n, 0);
      }
    }
  }

  ghost predicate CleanRun(s: State, steps: seq<Step>)
    requires ValidRun(s, steps)
    decreases |steps|
  {
    steps == [] || (
      var n := |steps| - 1;
      CleanRun(s, steps[..n]) && Clean(Exec(s, steps[..n]), steps[n]))
  }

  /** In a run of any number of instances, with events and syncs in any order and with requests that
      fail, every id balances as long as the syncs are clean. */
  lemma {:induction false} RunBalances(s0: State, steps: seq<Step>, n: nat)
    requires Initial(s0, n) && ValidRun(s0, steps) && CleanRun(s0, steps)
    ensures AllBalanced(Exec(s0, steps))
    decreases |steps|
  {
    if steps == [] {
      forall x
        ensures Balanced(s0, x)
      {
        StartBalances(s0, n, x);
      }
    } else {
      var k := |steps| - 1;
      RunBalances(s0, steps[..k], n);
      RunKeepsWindows(s0, steps[..k], n);
      StepBalancesIff(Exec(s0, steps[..k]), steps[k], n);
    }
  }

  /** And the first sync that is not clean unbalances some id: a run keeps every id balanced after
      each of its steps exactly if all its syncs are clean. */
  lemma {:induction false} RunBalancesIff(s0: State, steps: seq<Step>, n: nat)
    requires Initial(s0, n) && ValidRun(s0, steps)
    ensures CleanRun(s0, steps) <==> AlwaysBalanced(s0, steps)
    decreases |steps|
  {
    if steps == [] {
      RunBalances(s0, steps, n);
    } else {
      var k := |steps| - 1;
      RunBalancesIff(s0, steps[..k], n);
      RunKeepsWindows(s0, steps[..k], n);
      if AlwaysBalanced(s0, steps[..k]) {
        RunBalances(s0, steps[..k], n);
        StepBalancesIff(Exec(s0, steps[..k]), steps[k], n);
      }
    }
  }

  ghost predicate AlwaysBalanced(s: State, steps: seq<Step>)
    requires ValidRun(s, steps)
    decreases |steps|
  {
    && AllBalanced(Exec(s, steps))
    && (steps != [] ==> AlwaysBalanced(s, steps[..|steps| - 1]))
  }

  /** So once no instance holds anything back for an id, the counter has exactly what all
      instances counted for it, if and only if no increment of it left a window unpushed. */
  lemma CounterIsExactIff(s0: State, steps: seq<Step>, n: nat, x: int)
    requires Initial(s0, n) && ValidRun(s0, steps) && CleanRun(s0, steps)
    requires Settled(Exec(s0, steps).instances, x)
    ensures var s := Exec(s0, steps);
            && Get(s.counters, x) <= Counted(s.log, x)
            && (Get(s.counters, x) == Counted(s.log, x) <==> Counted(s.lost, x) == 0)
  {
    RunBalances(s0, steps, n);
    assert Balanced(Exec(s0, steps), x);
    NothingPending(Exec(s0, steps).instances, x);
  }

  lemma {:induction false} PanicStays(p: Pair, maxID: int, minID: int, idxs: seq<nat>, k: nat, failed: set<int>)
    requires forall i :: 0 <= i < |idxs| ==> idxs[i] < |p.inst.inc.buckets|
    requires k <= |idxs| && PushPanics(p, maxID, minID, idxs[..k], failed)
    ensures PushPanics(p, maxID, minID, idxs, failed)
    decreases |idxs|
  {
    if k == |idxs| {
      assert idxs[..k] == idxs;
    } else {
      assert idxs[..|idxs| - 1][..k] == idxs[..k];
      PanicStays(p, maxID, minID, idxs[..|idxs| - 1], k, failed);
    }
  }

  // ------------------------------------------------------------------ the objects

  /** The shared store, as far as the limiter uses it. A request may fail. */
  class Redis {
    var counters: map<int, nat>

    constructor ()
      ensures counters == map[]
    {
      counters := map[];
    }

    method IncrBy(id: int, amount: nat, fails: bool) returns (val: nat, ok: bool)
      modifies this
      ensures ok == !fails
      ensures fails ==> counters == old(counters)
      ensures ok ==> val == Get(old(counters), id) + amount && counters == old(counters)[id := val]
    {
      if fails {
        return 0, false;
      }
      val := amount;
      if id in counters {
        val := val + counters[id];
      }
      counters := counters[id := val];
      ok := true;
    }
  }

  class RedisLimiter {
    const redis: Redis
    const incrementLimiter: InMemoryLimiter
    const totalLimiter: InMemoryLimiter

    ghost predicate Valid()
      reads this, redis, incrementLimiter, totalLimiter
    {
      && incrementLimiter != totalLimiter
      && incrementLimiter.interval == totalLimiter.interval
      && |incrementLimiter.buckets| == incrementLimiter.bucketCount
    }

    ghost function Value(): Pair
      reads this, redis, incrementLimiter, totalLimiter
    {
      Pair(Instance(incrementLimiter.Value(), totalLimiter.Value()), redis.counters)
    }

    constructor (redis: Redis, interval: Interval, bucketCount: nat, limit: int, kind: Kind)
      ensures Valid() && this.redis == redis && fresh(incrementLimiter) && fresh(totalLimiter)
      ensures incrementLimiter.interval == interval
      ensures Value().inst == Instance(NewLimiter(bucketCount, limit, kind), NewLimiter(bucketCount, limit, kind))
    {
      this.redis := redis;
      incrementLimiter := new InMemoryLimiter(interval, bucketCount, limit, kind);
      totalLimiter := new InMemoryLimiter(interval, bucketCount, limit, kind);
    }

    method Allow(now: int, totalNow: int, ts: int, size: nat) returns (allowed: bool, panic: bool)
      requires Valid()
      modifies incrementLimiter, totalLimiter
      ensures var interval := incrementLimiter.interval;
              var a := Ask(old(Value().inst), TimeToBucketID(now, interval), TimeToBucketID(totalNow, interval),
                           TimeToBucketID(ts, interval), size);
              Value().inst == a.inst && allowed == a.allowed && panic == a.panic
    {
      allowed, panic := incrementLimiter.Allow(now, ts, size);
      if !panic && allowed {
        allowed, panic := totalLimiter.Allow(totalNow, ts, size);
        allowed := allowed && !panic;
      }
    }

    /** The write to one of the two limiters. */
    method WriteBucket(l: InMemoryLimiter, maxID: int, bucketIdx: nat, val: nat) returns (panic: bool)
      modifies l
      ensures panic == WritePanics(old(l.Value()), maxID, bucketIdx)
      ensures l.Value() == Write(old(l.Value()), maxID, bucketIdx, val)
    {
      if l.maxID == maxID {
        if bucketIdx >= |l.buckets| {
          return true;
        }
        l.buckets := l.buckets[bucketIdx := val];
      } else {
        var shift := l.maxID - maxID;
        var currBucketIdx := bucketIdx - shift;
        if currBucketIdx > 0 {
          if currBucketIdx >= |l.buckets| {
            return true;
          }
          l.buckets := l.buckets[currBucketIdx := val];
        }
      }
      return false;
    }

    method UpdateLimiterValues(maxID: int, bucketIdx: nat, totalLimiterVal: nat) returns (panic: bool)
      requires Valid()
      modifies incrementLimiter, totalLimiter
      ensures Valid() && redis.counters == old(redis.counters)
      ensures panic == (WritePanics(old(incrementLimiter.Value()), maxID, bucketIdx)
                        || WritePanics(old(totalLimiter.Value()), maxID, bucketIdx))
      ensures !panic ==>
                && incrementLimiter.Value() == Write(old(incrementLimiter.Value()), maxID, bucketIdx, 0)
                && totalLimiter.Value() == Write(old(totalLimiter.Value()), maxID, bucketIdx, totalLimiterVal)
    {
      panic := WriteBucket(incrementLimiter, maxID, bucketIdx, 0);
      if panic {
        return;
      }
      panic := WriteBucket(totalLimiter, maxID, bucketIdx, totalLimiterVal);
    }

    /** The exchange of one key. */
    method PushKey(maxID: int, minID: int, bucketIdx: nat, failed: set<int>) returns (panic: bool)
      requires Valid() && bucketIdx < |incrementLimiter.buckets|
      modifies redis, incrementLimiter, totalLimiter
      ensures Valid() && panic == PushOnePanics(old(Value()), maxID, minID, bucketIdx, failed)
      ensures !panic ==> Value() == PushOne(old(Value()), maxID, minID, bucketIdx, failed)
    {
      var id := minID + bucketIdx;
      var val, ok := redis.IncrBy(id, incrementLimiter.buckets[bucketIdx], id in failed);
      if ok {
        panic := UpdateLimiterValues(maxID, bucketIdx, val);
      } else {
        panic := false;
      }
    }

    method SyncLocalGlobalLimiters(
      maxID: int, minID: int, keyIdxs: seq<nat>, bucketIds: seq<int>, failed: set<int>)
      returns (panic: bool)
      requires Valid() && |bucketIds| == |keyIdxs|
      requires forall i :: 0 <= i < |keyIdxs| ==> keyIdxs[i] < |incrementLimiter.buckets|
      requires forall i :: 0 <= i < |keyIdxs| ==> bucketIds[i] == minID + keyIdxs[i]
      modifies redis, incrementLimiter, totalLimiter
      ensures Valid() && panic == PushPanics(old(Value()), maxID, minID, keyIdxs, failed)
      ensures !panic ==> Value() == Push(old(Value()), maxID, minID, keyIdxs, failed)
    {
      var i := 0;
      assert keyIdxs[..0] == [];
      while i < |keyIdxs|
        invariant 0 <= i <= |keyIdxs| && Valid()
        invariant !PushPanics(old(Value()), maxID, minID, keyIdxs[..i], failed)
        invariant Value() == Push(old(Value()), maxID, minID, keyIdxs[..i], failed)
      {
        assert keyIdxs[..i + 1][..i] == keyIdxs[..i];
        panic := PushKey(maxID, bucketIds[i] - keyIdxs[i], keyIdxs[i], failed);
        if panic {
          PanicStays(old(Value()), maxID, minID, keyIdxs, i + 1, failed);
          return;
        }
        i := i + 1;
      }
      assert keyIdxs[..i] == keyIdxs;
      return false;
    }

    method UpdateKeyLimit(limit: Option<int>)
      requires Valid()
      modifies incrementLimiter, totalLimiter
      ensures Valid() && Value() == old(Value()).(inst := SetLimit(old(Value()).inst, limit))
    {
      if limit.Some? {
        totalLimiter.limit := limit.value;
        incrementLimiter.limit := limit.value;
      }
    }

    /** The indexes and the ids of the buckets that hold an increment. */
    method CollectKeys(minID: int, count: nat) returns (keyIdxs: seq<nat>, bucketIds: seq<int>)
      requires count == |incrementLimiter.buckets|
      ensures keyIdxs == Collect(incrementLimiter.buckets, count) && |bucketIds| == |keyIdxs|
      ensures forall i :: 0 <= i < |keyIdxs| ==> bucketIds[i] == minID + keyIdxs[i]
    {
      keyIdxs, bucketIds := [], [];
      var i := 0;
      while i < count
        invariant 0 <= i <= count && |bucketIds| == |keyIdxs|
        invariant keyIdxs == Collect(incrementLimiter.buckets, i)
        invariant forall j :: 0 <= j < |keyIdxs| ==> bucketIds[j] == minID + keyIdxs[j]
      {
        if incrementLimiter.buckets[i] != 0 {
          keyIdxs := keyIdxs + [i];
          bucketIds := bucketIds + [minID + i];
        }
        i := i + 1;
      }
    }

    ghost function IDs(n: int, now: int, totalNow: int): Readings
      reads this
    {
      var interval := incrementLimiter.interval;
      Readings(TimeToBucketID(n, interval), TimeToBucketID(now, interval), TimeToBucketID(totalNow, interval))
    }

    /** The three readings of the clock are `n`, `now` and `totalNow`. */
    method SyncAll(n: int, now: int, totalNow: int, failed: set<int>, limit: Option<int>) returns (panic: bool)
      requires Valid()
      modifies redis, incrementLimiter, totalLimiter
      ensures Valid()
      ensures panic == SyncPanics(old(Value()), IDs(n, now, totalNow), failed)
      ensures !panic ==> Value() == Sync(old(Value()), IDs(n, now, totalNow), failed, limit)
    {
      var maxID := incrementLimiter.RebuildBuckets(now, n);
      var _ := totalLimiter.RebuildBuckets(totalNow, n);
      assert Value() == Moved(old(Value()), IDs(n, now, totalNow));
      var minID := totalLimiter.minID;
      var count := incrementLimiter.bucketCount;
      var keyIdxs, bucketIds := CollectKeys(minID, count);
      if |bucketIds| == 0 {
        return false;
      }
      panic := SyncLocalGlobalLimiters(maxID, minID, keyIdxs, bucketIds, failed);
      if !panic {
        UpdateKeyLimit(limit);
      }
    }
  }
}
