/** The event pool as the object that the callers share: two counters and three arrays that
    every caller changes in place, one atomic operation at a time. */
module EventPoolObject {
  import opened Basics
  import opened EventPool

  class Pool {
    const cap: nat
    var getCounter: nat
    var backCounter: nat
    var inUse: int
    const events: array<Option<Event>>
    const free1: array<bool>
    const free2: array<bool>

    // The callers' progress, the events they hold, and whether one of them read nil.
    ghost var calls: seq<Call>
    ghost var out: set<Event>
    ghost var nilRead: bool

    ghost predicate Valid()
      reads this, events, free1, free2
    {
      && cap > 0
      && events.Length == cap && free1.Length == cap && free2.Length == cap
      && free1 != free2
      && Inv(cap, Abs())
    }

    ghost function Abs(): State
      reads this, events, free1, free2
    {
      State(getCounter, backCounter, events[..], free1[..], free2[..], inUse, calls, out, nilRead)
    }

    /** Call `i` is at the point `c`. */
    ghost predicate Stands(i: nat, c: Call)
      reads this
    {
      i < |calls| && calls[i] == c
    }

    constructor (capacity: nat)
      requires capacity > 0
      ensures Valid() && cap == capacity && Abs() == Init(capacity)
      ensures fresh(events) && fresh(free1) && fresh(free2)
    {
      cap := capacity;
      getCounter, backCounter, inUse := 0, capacity, 0;
      events := new Option<Event>[capacity](i => Some(i));
      free1 := new bool[capacity](_ => true);
      free2 := new bool[capacity](_ => true);
      calls, out, nilRead := [], {}, false;
      new;
      assert events[..] == Filled(capacity);
      assert free1[..] == seq(capacity, _ => true) && free2[..] == seq(capacity, _ => true);
      InitInv(capacity);
    }

    // --------------------------------------------------- operations of `get`

    method TakeGetTicket() returns (x: nat, ghost i: nat)
      requires Valid()
      modifies this
      ensures Valid() && Abs() == Apply(cap, old(Abs()), StartGet)
      ensures i == old(|calls|) && Stands(i, GetWait(x)) && x == old(getCounter) % cap
    {
      StartGetKeeps(cap, Abs());
      i := |calls|;
      calls := calls + [GetWait(getCounter % cap)];
      x := getCounter % cap;
      getCounter := getCounter + 1;
    }

    /** The guarded compare-and-swap on `free1`. */
    method TryTake(x: nat, ghost i: nat) returns (ok: bool)
      requires Valid() && Stands(i, GetWait(x))
      modifies this, free1
      ensures Valid() && ok == old(free1[x])
      ensures Abs() == if ok then Apply(cap, old(Abs()), Go(i)) else old(Abs())
    {
      ok := x < backCounter && free1[x];
      if ok {
        GoKeeps(cap, Abs(), i);
        free1[x] := false;
        calls := calls[i := GetWon(x)];
      }
    }

    method ReadSlot(x: nat, ghost i: nat) returns (e: Event)
      requires Valid() && Stands(i, GetWon(x))
      modifies this
      ensures Valid() && Abs() == Apply(cap, old(Abs()), Go(i))
      ensures events[x] == Some(e) && calls[i] == GetRead(x, e)
    {
      assert CallOK(cap, Abs(), calls[i]);
      GoKeeps(cap, Abs(), i);
      e := events[x].value;
      calls := calls[i := GetRead(x, e)];
    }

    method ClearSlot(x: nat, ghost i: nat, ghost e: Event)
      requires Valid() && Stands(i, GetRead(x, e))
      modifies this, events
      ensures Valid() && Abs() == Apply(cap, old(Abs()), Go(i))
    {
      GoKeeps(cap, Abs(), i);
      events[x] := None;
      calls := calls[i := GetCleared(x, e)];
    }

    method ReleaseTaken(x: nat, ghost i: nat, ghost e: Event)
      requires Valid() && Stands(i, GetCleared(x, e))
      modifies this, free2
      ensures Valid() && Abs() == Apply(cap, old(Abs()), Go(i))
    {
      GoKeeps(cap, Abs(), i);
      free2[x] := false;
      calls := calls[i := GetStored(x, e)];
    }

    method FinishGet(ghost x: nat, ghost i: nat, ghost e: Event)
      requires Valid() && Stands(i, GetStored(x, e))
      modifies this
      ensures Valid() && Abs() == Apply(cap, old(Abs()), Go(i))
    {
      GoKeeps(cap, Abs(), i);
      inUse := inUse + 1;
      calls, out := calls[i := GetDone(x)], out + {e};
    }

    // -------------------------------------------------- operations of `back`

    method TakeBackTicket(e: Event) returns (x: nat, ghost i: nat)
      requires Valid() && e in out
      modifies this
      ensures Valid() && Abs() == Apply(cap, old(Abs()), StartBack(e))
      ensures i == old(|calls|) && Stands(i, BackWait(x, e)) && x == old(backCounter) % cap
    {
      StartBackKeeps(cap, Abs(), e);
      i := |calls|;
      calls, out := calls + [BackWait(backCounter % cap, e)], out - {e};
      x := backCounter % cap;
      backCounter := backCounter + 1;
    }

    method TryFill(x: nat, ghost i: nat, ghost e: Event) returns (ok: bool)
      requires Valid() && Stands(i, BackWait(x, e))
      modifies this, free2
      ensures Valid() && ok == !old(free2[x])
      ensures Abs() == if ok then Apply(cap, old(Abs()), Go(i)) else old(Abs())
    {
      ok := !free2[x];
      if ok {
        GoKeeps(cap, Abs(), i);
        free2[x] := true;
        calls := calls[i := BackWon(x, e)];
      }
    }

    method StoreEvent(x: nat, e: Event, ghost i: nat)
      requires Valid() && Stands(i, BackWon(x, e))
      modifies this, events
      ensures Valid() && Abs() == Apply(cap, old(Abs()), Go(i))
    {
      GoKeeps(cap, Abs(), i);
      events[x] := Some(e);
      calls := calls[i := BackFilled(x, e)];
    }

    method ReleaseFilled(x: nat, ghost i: nat, ghost e: Event)
      requires Valid() && Stands(i, BackFilled(x, e))
      modifies this, free1
      ensures Valid() && Abs() == Apply(cap, old(Abs()), Go(i))
    {
      GoKeeps(cap, Abs(), i);
      free1[x] := true;
      calls := calls[i := BackStored(x)];
    }

    method FinishBack(ghost x: nat, ghost i: nat)
      requires Valid() && Stands(i, BackStored(x))
      modifies this
      ensures Valid() && Abs() == Apply(cap, old(Abs()), Go(i))
    {
      GoKeeps(cap, Abs(), i);
      inUse := inUse - 1;
      calls := calls[i := BackDone(x)];
    }

    // ----------------------------------------------------- a caller on its own

    ghost predicate Quiet()
      reads this
    {
      forall c :: c in calls ==> Finished(c)
    }

    /** What `get` does once it has won the slot. */
    method TakeSlot(x: nat, ghost i: nat) returns (e: Event)
      requires Valid() && Stands(i, GetWon(x))
      modifies this, events, free2
      ensures Valid() && calls == old(calls)[i := GetDone(x)]
      ensures e !in old(out) && out == old(out) + {e} && inUse == old(inUse) + 1
    {
      e := ReadSlot(x, i);
      ClearSlot(x, i, e);
      ReleaseTaken(x, i, e);
      assert e !in out by {
        assert Places(Abs(), e) == One(e < cap);
        SumAtLeast(calls, i, InHands(e));
      }
      FinishGet(x, i, e);
    }

    /** One turn of the retry loop of `get`: nothing while the slot is not full, else the event. */
    method AttemptGet(x: nat, ghost i: nat) returns (e: Option<Event>)
      requires Valid() && Stands(i, GetWait(x))
      modifies this, events, free1, free2
      ensures Valid() && (e.Some? <==> old(free1[x]))
      ensures e.None? ==> Abs() == old(Abs())
      ensures e.Some? ==>
                && calls == old(calls)[i := GetDone(x)]
                && e.value !in old(out) && out == old(out) + {e.value} && inUse == old(inUse) + 1
    {
      var ok := TryTake(x, i);
      if !ok {
        return None;
      }
      var event := TakeSlot(x, i);
      return Some(event);
    }

    /** `get` up to its first turn, whatever other calls are doing. It has its ticket, and the event
        it hands out was not out before; without one it goes on waiting at its slot. With no other
        call in progress it succeeds exactly when not all events are out. */
    method Get() returns (e: Option<Event>)
      requires Valid()
      modifies this, events, free1, free2
      ensures Valid() && getCounter == old(getCounter) + 1
      ensures e.None? ==> calls == old(calls) + [GetWait(old(getCounter) % cap)] && out == old(out)
      ensures e.Some? ==>
                && calls == old(calls) + [GetDone(old(getCounter) % cap)]
                && e.value !in old(out) && out == old(out) + {e.value} && inUse == old(inUse) + 1
      ensures old(Quiet()) ==> (e.Some? <==> old(|out|) < cap)
    {
      ghost var quiet := Quiet();
      if quiet {
        QuietState(cap, Abs());
      }
      var x, i := TakeGetTicket();
      e := AttemptGet(x, i);
    }

    /** What `back` does once it has won the slot. */
    method FillSlot(x: nat, e: Event, ghost i: nat)
      requires Valid() && Stands(i, BackWon(x, e))
      modifies this, events, free1
      ensures Valid() && calls == old(calls)[i := BackDone(x)]
      ensures out == old(out) && inUse == old(inUse) - 1
    {
      StoreEvent(x, e, i);
      ReleaseFilled(x, i, e);
      FinishBack(x, i);
    }

    /** One turn of the retry loop of `back`. */
    method AttemptBack(x: nat, e: Event, ghost i: nat) returns (ok: bool)
      requires Valid() && Stands(i, BackWait(x, e))
      modifies this, events, free1, free2
      ensures Valid() && out == old(out) && (ok <==> !old(free2[x]))
      ensures !ok ==> Abs() == old(Abs())
      ensures ok ==> calls == old(calls)[i := BackDone(x)] && inUse == old(inUse) - 1
    {
      ok := TryFill(x, i, e);
      if ok {
        FillSlot(x, e, i);
      }
    }

    /** `back` up to its first turn, for a caller that holds the event. With no other call in
        progress it succeeds at once. */
    method Back(e: Event) returns (ok: bool)
      requires Valid() && e in out
      modifies this, events, free1, free2
      ensures Valid() && out == old(out) - {e} && backCounter == old(backCounter) + 1
      ensures !ok ==> calls == old(calls) + [BackWait(old(backCounter) % cap, e)]
      ensures ok ==> calls == old(calls) + [BackDone(old(backCounter) % cap)] && inUse == old(inUse) - 1
      ensures old(Quiet()) ==> ok
    {
      ghost var quiet := Quiet();
      if quiet {
        QuietState(cap, Abs());
      }
      var x, i := TakeBackTicket(e);
      ok := AttemptBack(x, e, i);
    }
  }
}
