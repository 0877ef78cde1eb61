/** The event pool: a ring of slots that `get` and `back` visit round-robin, each with a
    ticket from its own counter. Two flag arrays, `free1` and `free2`, keep callers that
    meet at a slot apart.

    Every step below is one atomic operation of one caller. Waiting is retrying: a caller
    whose compare-and-swap cannot succeed simply has no step. */
module EventPool {
  import opened Basics

  type Event = nat

  /** A call of `get` or `back`, after its ticket was taken: the ticket picks the slot. */
  datatype Call =
    | GetWait(slot: nat)                   // before free1.CAS(true, false)
    | GetWon(slot: nat)                    // before event := events[x]
    | GetRead(slot: nat, event: Event)     // before events[x] = nil
    | GetCleared(slot: nat, event: Event)  // before free2.Store(false)
    | GetStored(slot: nat, event: Event)   // before inUseEvents.Inc and return
    | GetDone(slot: nat)
    | BackWait(slot: nat, event: Event)    // before free2.CAS(false, true)
    | BackWon(slot: nat, event: Event)     // before events[x] = event
    | BackFilled(slot: nat, event: Event)  // before free1.Store(true)
    | BackStored(slot: nat)                // before inUseEvents.Dec and return
    | BackDone(slot: nat)

  /** `out` are the events checked out of the pool; `nilRead` records that some `get` read
      an empty slot. `calls` lists every call made so far. */
  datatype State = State(
    getCounter: nat,
    backCounter: nat,
    events: seq<Option<Event>>,
    free1: seq<bool>,
    free2: seq<bool>,
    inUse: int,
    calls: seq<Call>,
    out: set<Event>,
    nilRead: bool)

  datatype Step =
    | StartGet
    | StartBack(event: Event)                // callers give back only events they hold
    | Go(i: nat)                             // call `i` takes its next atomic operation

  /** A ring with one event in every slot. */
  function Filled(n: nat): (r: seq<Option<Event>>)
    ensures |r| == n && forall i :: 0 <= i < n ==> r[i] == Some(i)
  {
    if n == 0 then [] else Filled(n - 1) + [Some(n - 1)]
  }

  function Init(cap: nat): State {
    State(0, cap,
          Filled(cap), seq(cap, _ => true), seq(cap, _ => true),
          0, [], {}, false)
  }

  predicate Shape(cap: nat, st: State) {
    cap > 0 && |st.events| == cap && |st.free1| == cap && |st.free2| == cap
  }

  predicate CanGo(cap: nat, st: State, c: Call)
    requires Shape(cap, st)
  {
    && c.slot < cap
    && match c
       case GetWait(x) => st.free1[x]
       case BackWait(x, _) => !st.free2[x]
       case GetDone(_) => false
       case BackDone(_) => false
       case _ => true
  }

  predicate Enabled(cap: nat, st: State, step: Step)
    requires Shape(cap, st)
  {
    match step
    case StartGet => true
    case StartBack(e) => e in st.out
    case Go(i) => i < |st.calls| && CanGo(cap, st, st.calls[i])
  }

  /** One atomic operation of call `c`, and where it leaves the call. */
  function Operate(cap: nat, st: State, c: Call): (r: (State, Call))
    requires Shape(cap, st) && CanGo(cap, st, c)
    ensures Shape(cap, r.0) && r.0.calls == st.calls
  {
    var x := c.slot;
    match c
    case GetWait(t) => (st.(free1 := st.free1[x := false]), GetWon(t))
    case GetWon(t) =>
      if st.events[x].None? then (st.(nilRead := true), GetDone(t)) else (st, GetRead(t, st.events[x].value))
    case GetRead(t, e) => (st.(events := st.events[x := None]), GetCleared(t, e))
    case GetCleared(t, e) => (st.(free2 := st.free2[x := false]), GetStored(t, e))
    case GetStored(t, e) => (st.(inUse := st.inUse + 1, out := st.out + {e}), GetDone(t))
    case BackWait(t, e) => (st.(free2 := st.free2[x := true]), BackWon(t, e))
    case BackWon(t, e) => (st.(events := st.events[x := Some(e)]), BackFilled(t, e))
    case BackFilled(t, e) => (st.(free1 := st.free1[x := true]), BackStored(t))
    case BackStored(t) => (st.(inUse := st.inUse - 1), BackDone(t))
  }

  function Apply(cap: nat, st: State, step: Step): (st': State)
    requires Shape(cap, st) && Enabled(cap, st, step)
    ensures Shape(cap, st')
  {
    match step
    case StartGet =>
      st.(getCounter := st.getCounter + 1, calls := st.calls + [GetWait(st.getCounter % cap)])
    case StartBack(e) =>
      st.(backCounter := st.backCounter + 1, out := st.out - {e},
          calls := st.calls + [BackWait(st.backCounter % cap, e)])
    case Go(i) =>
      var (st1, c) := Operate(cap, st, st.calls[i]);
      st1.(calls := st.calls[i := c])
  }

  ghost predicate ValidRun(cap: nat, steps: seq<Step>)
    requires cap > 0
    decreases |steps|, 0
  {
    steps == [] ||
    (ValidRun(cap, steps[..|steps| - 1]) &&
     Enabled(cap, Exec(cap, steps[..|steps| - 1]), steps[|steps| - 1]))
  }

  ghost function Exec(cap: nat, steps: seq<Step>): (st: State)
    requires cap > 0 && ValidRun(cap, steps)
    ensures Shape(cap, st)
    decreases |steps|, 1
  {
    if steps == [] then Init(cap)
    else Apply(cap, Exec(cap, steps[..|steps| - 1]), steps[|steps| - 1])
  }

  // ---------------------------------------------------------------- counting

  predicate IsGet(c: Call) {
    c.GetWait? || c.GetWon? || c.GetRead? || c.GetCleared? || c.GetStored? || c.GetDone?
  }

  /** Between winning its flag and releasing the other one, a caller works on the slot. */
  predicate Taking(c: Call) {
    c.GetWon? || c.GetRead? || c.GetCleared?
  }

  predicate Filling(c: Call) {
    c.BackWon? || c.BackFilled?
  }

  function One(b: bool): nat {
    if b then 1 else 0
  }

  function TakesAt(x: nat): Call -> nat {
    (c: Call) => One(c.slot == x && Taking(c))
  }

  function FillsAt(x: nat): Call -> nat {
    (c: Call) => One(c.slot == x && Filling(c))
  }

  function GetAt(x: nat): Call -> nat {
    (c: Call) => One(c.slot == x && IsGet(c))
  }

  function BackAt(x: nat): Call -> nat {
    (c: Call) => One(c.slot == x && !IsGet(c))
  }

  function GetWaitsAt(x: nat): Call -> nat {
    (c: Call) => One(c.slot == x && c.GetWait?)
  }

  function BackWaitsAt(x: nat): Call -> nat {
    (c: Call) => One(c.slot == x && c.BackWait?)
  }

  function InHands(e: Event): Call -> nat {
    (c: Call) =>
      One((c.GetCleared? || c.GetStored? || c.BackWait? || c.BackWon?) && c.event == e)
  }

  function Holds(e: Event): Option<Event> -> nat {
    (s: Option<Event>) => One(s == Some(e))
  }

  function Gets(): Call -> nat {
    (c: Call) => One(IsGet(c))
  }

  function DoneGets(): Call -> nat {
    (c: Call) => One(c.GetDone?)
  }

  function DoneBacks(): Call -> nat {
    (c: Call) => One(c.BackDone?)
  }

  /** How many of the tickets below `n` are for slot `x`. */
  function Tickets(cap: nat, n: nat, x: nat): nat
    requires cap > 0
  {
    if n == 0 then 0 else Tickets(cap, n - 1, x) + One((n - 1) % cap == x)
  }

  /** The number of places where event `e` is. */
  ghost function Places(st: State, e: Event): nat {
    Sum(st.events, Holds(e)) + Sum(st.calls, InHands(e)) + One(e in st.out)
  }

  // --------------------------------------------------------------- invariants

  /** A caller at work on its slot finds there what it expects. */
  predicate CallOK(cap: nat, st: State, c: Call)
    requires Shape(cap, st)
  {
    && c.slot < cap
    && match c
       case GetWon(x) => st.events[x].Some?
       case GetRead(x, e) => st.events[x] == Some(e)
       case GetCleared(x, _) => st.events[x].None?
       case BackWon(x, _) => st.events[x].None?
       case BackFilled(x, e) => st.events[x] == Some(e)
       case _ => true
  }

  ghost predicate CallsOK(cap: nat, st: State)
    requires Shape(cap, st)
  {
    forall i :: 0 <= i < |st.calls| ==> CallOK(cap, st, st.calls[i])
  }

  /** The flags of slot `x` tell whether somebody works on it, what it holds otherwise, and
      how the calls at the slot alternate. */
  ghost predicate FlagsOK(cap: nat, st: State, x: nat)
    requires Shape(cap, st) && x < cap
  {
    var takes, fills := Sum(st.calls, TakesAt(x)), Sum(st.calls, FillsAt(x));
    var gets, backs := Sum(st.calls, GetAt(x)), Sum(st.calls, BackAt(x));
    var getWaits, backWaits := Sum(st.calls, GetWaitsAt(x)), Sum(st.calls, BackWaitsAt(x));
    && (st.free1[x] ==> st.free2[x])
    && takes + fills == One(st.free1[x] != st.free2[x])
    && (st.free1[x] ==> st.events[x].Some?)
    && (!st.free2[x] ==> st.events[x].None?)
    && 1 + (backs - backWaits) - (gets - getWaits) == One(st.free1[x]) + fills
  }

  /** Every ticket is a call; the initial filling counts as a first round of `back`. */
  ghost predicate TicketsOK(cap: nat, st: State, x: nat)
    requires cap > 0
  {
    && Sum(st.calls, GetAt(x)) == Tickets(cap, st.getCounter, x)
    && Sum(st.calls, BackAt(x)) + 1 == Tickets(cap, st.backCounter, x)
  }

  ghost predicate SlotOK(cap: nat, st: State, x: nat)
    requires Shape(cap, st) && x < cap
  {
    FlagsOK(cap, st, x) && TicketsOK(cap, st, x)
  }

  ghost predicate CountsOK(cap: nat, st: State) {
    && st.backCounter >= cap
    && Sum(st.calls, Gets()) == st.getCounter
    && Sum(st.calls, DoneGets()) == |st.out| + (st.backCounter - cap)
    && st.inUse == Sum(st.calls, DoneGets()) - Sum(st.calls, DoneBacks())
  }

  ghost predicate Conserved(cap: nat, st: State) {
    forall e: Event :: Places(st, e) == One(e < cap)
  }

  ghost predicate Inv(cap: nat, st: State) {
    && Shape(cap, st)
    && !st.nilRead
    && CallsOK(cap, st)
    && (forall x :: 0 <= x < cap ==> SlotOK(cap, st, x))
    && CountsOK(cap, st)
    && Conserved(cap, st)
  }

  // ------------------------------------------------------------------ tickets

  lemma {:induction false} TicketsBelow(cap: nat, n: nat, x: nat)
    requires cap > 0 && x < cap && n <= cap
    ensures Tickets(cap, n, x) == One(x < n)
  {
    if n > 0 {
      TicketsBelow(cap, n - 1, x);
      ModSmall(cap, n - 1);
    }
  }

  lemma ModSmall(cap: nat, m: nat)
    requires m < cap
    ensures m % cap == m
  {
  }

  /** Every round of `cap` tickets has one for each slot. */
  lemma {:induction false} TicketsRound(cap: nat, n: nat, x: nat)
    requires cap > 0 && x < cap
    ensures Tickets(cap, n + cap, x) == Tickets(cap, n, x) + 1
  {
    if n == 0 {
      TicketsBelow(cap, cap, x);
    } else {
      TicketsRound(cap, n - 1, x);
      ModShift(cap, n - 1);
    }
  }

  lemma ModShift(cap: nat, m: nat)
    requires cap > 0
    ensures (m + cap) % cap == m % cap
  {
    assert m == cap * (m / cap) + m % cap;
    assert m + cap == cap * (m / cap + 1) + m % cap by { MulStep(cap, m / cap); }
    ModUnique(cap, m / cap + 1, m % cap, m + cap);
  }

  lemma MulStep(a: int, b: int)
    ensures a * (b + 1) == a * b + a
  {
  }

  lemma ModUnique(cap: nat, q: int, r: nat, m: int)
    requires cap > 0 && r < cap && m == cap * q + r
    ensures m % cap == r
  {
    var q', r' := m / cap, m % cap;
    assert m == cap * q' + r' && 0 <= r' < cap;
    assert cap * (q - q') == r' - r;
    if q - q' >= 1 {
      MulBound(cap, q - q');
    } else if q - q' <= -1 {
      MulBound(cap, q' - q);
    }
  }

  lemma MulBound(cap: nat, d: int)
    requires cap > 0 && d >= 1
    ensures cap * d >= cap
    ensures cap * (-d) == -(cap * d)
  {
  }

  lemma {:induction false} TicketsMonotone(cap: nat, m: nat, n: nat, x: nat)
    requires cap > 0 && m <= n
    ensures Tickets(cap, m, x) <= Tickets(cap, n, x)
    decreases n
  {
    if m < n {
      TicketsMonotone(cap, m, n - 1, x);
    }
  }

  /** Fewer than `cap` tickets in a row hold at most one for each slot. */
  lemma TicketsSpan(cap: nat, m: nat, n: nat, x: nat)
    requires cap > 0 && x < cap && m <= n <= m + cap
    ensures Tickets(cap, m, x) <= Tickets(cap, n, x) <= Tickets(cap, m, x) + 1
  {
    TicketsMonotone(cap, m, n, x);
    TicketsMonotone(cap, n, m + cap, x);
    TicketsRound(cap, m, x);
  }

  // ------------------------------------------------------------- preservation

  lemma {:induction false} InitHolds(n: nat, e: Event)
    ensures Sum(Filled(n), Holds(e)) == One(e < n)
  {
    if n > 0 {
      InitHolds(n - 1, e);
      SumSnoc(Filled(n - 1), Some(n - 1), Holds(e));
    }
  }

  lemma InitInv(cap: nat)
    requires cap > 0
    ensures Inv(cap, Init(cap))
  {
    var st := Init(cap);
    InitHolds(cap, 0);
    forall x | 0 <= x < cap
      ensures SlotOK(cap, st, x)
    {
      TicketsBelow(cap, cap, x);
    }
    forall e: Event
      ensures Places(st, e) == One(e < cap)
    {
      InitHolds(cap, e);
    }
  }

  /** One more call, of either kind. */
  lemma StartCounts(calls: seq<Call>, c: Call, x: nat)
    ensures Sum(calls + [c], TakesAt(x)) == Sum(calls, TakesAt(x)) + TakesAt(x)(c)
    ensures Sum(calls + [c], FillsAt(x)) == Sum(calls, FillsAt(x)) + FillsAt(x)(c)
    ensures Sum(calls + [c], GetAt(x)) == Sum(calls, GetAt(x)) + GetAt(x)(c)
    ensures Sum(calls + [c], BackAt(x)) == Sum(calls, BackAt(x)) + BackAt(x)(c)
    ensures Sum(calls + [c], GetWaitsAt(x)) == Sum(calls, GetWaitsAt(x)) + GetWaitsAt(x)(c)
    ensures Sum(calls + [c], BackWaitsAt(x)) == Sum(calls, BackWaitsAt(x)) + BackWaitsAt(x)(c)
  {
    SumSnoc(calls, c, TakesAt(x));
    SumSnoc(calls, c, FillsAt(x));
    SumSnoc(calls, c, GetAt(x));
    SumSnoc(calls, c, BackAt(x));
    SumSnoc(calls, c, GetWaitsAt(x));
    SumSnoc(calls, c, BackWaitsAt(x));
  }

  lemma StartFlags(cap: nat, st: State, st': State, c: Call, x: nat)
    requires Shape(cap, st) && x < cap && FlagsOK(cap, st, x)
    requires c.GetWait? || c.BackWait?
    requires st' == st.(getCounter := st'.getCounter, backCounter := st'.backCounter,
                        out := st'.out, calls := st.calls + [c])
    ensures FlagsOK(cap, st', x)
  {
    StartCounts(st.calls, c, x);
  }

  lemma StartTickets(cap: nat, st: State, st': State, c: Call, x: nat)
    requires cap > 0 && TicketsOK(cap, st, x) && st'.calls == st.calls + [c]
    requires if c.GetWait? then
               c.slot == st.getCounter % cap && st'.getCounter == st.getCounter + 1 && st'.backCounter == st.backCounter
             else
               c.BackWait? && c.slot == st.backCounter % cap
               && st'.backCounter == st.backCounter + 1 && st'.getCounter == st.getCounter
    ensures TicketsOK(cap, st', x)
  {
    StartCounts(st.calls, c, x);
  }

  lemma StartSlots(cap: nat, st: State, st': State, c: Call)
    requires Shape(cap, st) && Shape(cap, st') && (forall x :: 0 <= x < cap ==> SlotOK(cap, st, x))
    requires st' == st.(getCounter := st'.getCounter, backCounter := st'.backCounter,
                        out := st'.out, calls := st.calls + [c])
    requires if c.GetWait? then
               c.slot == st.getCounter % cap && st'.getCounter == st.getCounter + 1 && st'.backCounter == st.backCounter
             else
               c.BackWait? && c.slot == st.backCounter % cap
               && st'.backCounter == st.backCounter + 1 && st'.getCounter == st.getCounter
    ensures forall x :: 0 <= x < cap ==> SlotOK(cap, st', x)
  {
    forall x | 0 <= x < cap
      ensures SlotOK(cap, st', x)
    {
      assert SlotOK(cap, st, x);
      StartFlags(cap, st, st', c, x);
      StartTickets(cap, st, st', c, x);
    }
  }

  lemma StartTotals(calls: seq<Call>, c: Call)
    ensures Sum(calls + [c], Gets()) == Sum(calls, Gets()) + Gets()(c)
    ensures Sum(calls + [c], DoneGets()) == Sum(calls, DoneGets()) + DoneGets()(c)
    ensures Sum(calls + [c], DoneBacks()) == Sum(calls, DoneBacks()) + DoneBacks()(c)
    ensures forall e: Event :: Sum(calls + [c], InHands(e)) == Sum(calls, InHands(e)) + InHands(e)(c)
  {
    SumSnoc(calls, c, Gets());
    SumSnoc(calls, c, DoneGets());
    SumSnoc(calls, c, DoneBacks());
    forall e: Event
      ensures Sum(calls + [c], InHands(e)) == Sum(calls, InHands(e)) + InHands(e)(c)
    {
      SumSnoc(calls, c, InHands(e));
    }
  }

  lemma StartGetKeeps(cap: nat, st: State)
    requires Inv(cap, st)
    ensures Inv(cap, Apply(cap, st, StartGet))
  {
    var c := GetWait(st.getCounter % cap);
    var st' := Apply(cap, st, StartGet);
    StartSlots(cap, st, st', c);
    StartTotals(st.calls, c);
    assert forall e: Event :: Places(st', e) == Places(st, e);
  }

  lemma StartBackKeeps(cap: nat, st: State, e: Event)
    requires Inv(cap, st) && e in st.out
    ensures Inv(cap, Apply(cap, st, StartBack(e)))
  {
    var c := BackWait(st.backCounter % cap, e);
    var st' := Apply(cap, st, StartBack(e));
    StartSlots(cap, st, st', c);
    StartTotals(st.calls, c);
    assert forall d: Event :: Places(st', d) == Places(st, d);
  }

  /** A call moves on: what changes in each count. */
  lemma GoCounts(calls: seq<Call>, i: nat, c: Call, x: nat)
    requires i < |calls|
    ensures Sum(calls[i := c], TakesAt(x)) + TakesAt(x)(calls[i]) == Sum(calls, TakesAt(x)) + TakesAt(x)(c)
    ensures Sum(calls[i := c], FillsAt(x)) + FillsAt(x)(calls[i]) == Sum(calls, FillsAt(x)) + FillsAt(x)(c)
    ensures Sum(calls[i := c], GetAt(x)) + GetAt(x)(calls[i]) == Sum(calls, GetAt(x)) + GetAt(x)(c)
    ensures Sum(calls[i := c], BackAt(x)) + BackAt(x)(calls[i]) == Sum(calls, BackAt(x)) + BackAt(x)(c)
    ensures Sum(calls[i := c], GetWaitsAt(x)) + GetWaitsAt(x)(calls[i]) == Sum(calls, GetWaitsAt(x)) + GetWaitsAt(x)(c)
    ensures Sum(calls[i := c], BackWaitsAt(x)) + BackWaitsAt(x)(calls[i])
            == Sum(calls, BackWaitsAt(x)) + BackWaitsAt(x)(c)
  {
    SumUpdate(calls, i, c, TakesAt(x));
    SumUpdate(calls, i, c, FillsAt(x));
    SumUpdate(calls, i, c, GetAt(x));
    SumUpdate(calls, i, c, BackAt(x));
    SumUpdate(calls, i, c, GetWaitsAt(x));
    SumUpdate(calls, i, c, BackWaitsAt(x));
  }

  /** Two different calls that work on one slot would count twice. */
  lemma Exclusive(cap: nat, st: State, i: nat, j: nat)
    requires Inv(cap, st) && i < |st.calls| && j < |st.calls|
    requires Taking(st.calls[i]) || Filling(st.calls[i])
    requires Taking(st.calls[j]) || Filling(st.calls[j])
    requires st.calls[i].slot == st.calls[j].slot
    ensures i == j
  {
    var x := st.calls[i].slot;
    assert CallOK(cap, st, st.calls[i]) && SlotOK(cap, st, x);
    if i != j {
      TwoCount(st.calls, i, j, TakesAt(x), FillsAt(x));
    }
  }

  lemma TwoCount<T>(s: seq<T>, i: nat, j: nat, f: T -> nat, g: T -> nat)
    requires i < |s| && j < |s| && i != j
    requires f(s[i]) + g(s[i]) >= 1 && f(s[j]) + g(s[j]) >= 1
    ensures Sum(s, f) + Sum(s, g) >= 2
  {
    var r := s[..i] + s[i + 1..];
    var j' := if j < i then j else j - 1;
    assert r[j'] == s[j];
    SumRemove(s, i, f);
    SumRemove(s, i, g);
    SumAtLeast(r, j', f);
    SumAtLeast(r, j', g);
  }

  /** Another call keeps what it expects of its slot. */
  lemma OthersKeep(cap: nat, st: State, i: nat, j: nat)
    requires Inv(cap, st) && Enabled(cap, st, Go(i)) && j < |st.calls| && j != i
    ensures CallOK(cap, Apply(cap, st, Go(i)), st.calls[j])
  {
    var c, d := st.calls[i], st.calls[j];
    assert CallOK(cap, st, d);
    if (Taking(c) || Filling(c)) && (Taking(d) || Filling(d)) && c.slot == d.slot {
      Exclusive(cap, st, i, j);
    }
  }

  /** The tickets do not change while a call goes on. */
  lemma GoTickets(cap: nat, st: State, i: nat, x: nat)
    requires Shape(cap, st) && TicketsOK(cap, st, x) && Enabled(cap, st, Go(i))
    ensures TicketsOK(cap, Apply(cap, st, Go(i)), x)
  {
    var (_, c') := Operate(cap, st, st.calls[i]);
    GoCounts(st.calls, i, c', x);
  }

  lemma GoElsewhere(cap: nat, st: State, i: nat, x: nat)
    requires Shape(cap, st) && x < cap && FlagsOK(cap, st, x)
    requires Enabled(cap, st, Go(i)) && st.calls[i].slot != x
    ensures FlagsOK(cap, Apply(cap, st, Go(i)), x)
  {
    var (_, c') := Operate(cap, st, st.calls[i]);
    assert c'.slot == st.calls[i].slot;
    GoCounts(st.calls, i, c', x);
  }

  lemma GoGet(cap: nat, st: State, i: nat, x: nat)
    requires Shape(cap, st) && CallsOK(cap, st) && x < cap && FlagsOK(cap, st, x)
    requires Enabled(cap, st, Go(i)) && st.calls[i].slot == x && IsGet(st.calls[i])
    ensures FlagsOK(cap, Apply(cap, st, Go(i)), x)
  {
    var (_, c') := Operate(cap, st, st.calls[i]);
    assert CallOK(cap, st, st.calls[i]);
    GoCounts(st.calls, i, c', x);
    SumAtLeast(st.calls, i, TakesAt(x));
  }

  lemma GoBack(cap: nat, st: State, i: nat, x: nat)
    requires Shape(cap, st) && CallsOK(cap, st) && x < cap && FlagsOK(cap, st, x)
    requires Enabled(cap, st, Go(i)) && st.calls[i].slot == x && !IsGet(st.calls[i])
    ensures FlagsOK(cap, Apply(cap, st, Go(i)), x)
  {
    var (_, c') := Operate(cap, st, st.calls[i]);
    assert CallOK(cap, st, st.calls[i]);
    GoCounts(st.calls, i, c', x);
    SumAtLeast(st.calls, i, FillsAt(x));
  }

  lemma GoSlot(cap: nat, st: State, i: nat, x: nat)
    requires Inv(cap, st) && Enabled(cap, st, Go(i)) && x < cap
    ensures SlotOK(cap, Apply(cap, st, Go(i)), x)
  {
    assert SlotOK(cap, st, x);
    GoTickets(cap, st, i, x);
    if st.calls[i].slot != x {
      GoElsewhere(cap, st, i, x);
    } else if IsGet(st.calls[i]) {
      GoGet(cap, st, i, x);
    } else {
      GoBack(cap, st, i, x);
    }
  }

  /** The event moves between a slot and the caller's hands. */
  lemma SlotPlaces(cap: nat, st: State, i: nat, e: Event)
    requires Shape(cap, st) && CallsOK(cap, st) && Enabled(cap, st, Go(i))
    requires st.calls[i].GetRead? || st.calls[i].BackWon?
    ensures Places(Apply(cap, st, Go(i)), e) == Places(st, e)
  {
    var c := st.calls[i];
    assert CallOK(cap, st, c);
    SumUpdate(st.calls, i, Operate(cap, st, c).1, InHands(e));
    SumUpdate(st.events, c.slot, if c.GetRead? then None else Some(c.event), Holds(e));
  }

  /** The event leaves the pool. */
  lemma OutPlaces(cap: nat, st: State, i: nat, e: Event)
    requires Conserved(cap, st) && Shape(cap, st) && Enabled(cap, st, Go(i)) && st.calls[i].GetStored?
    ensures Places(Apply(cap, st, Go(i)), e) == Places(st, e)
  {
    var c := st.calls[i];
    SumUpdate(st.calls, i, GetDone(c.slot), InHands(e));
    if c.event == e {
      assert Places(st, e) == One(e < cap);
      SumAtLeast(st.calls, i, InHands(e));
    }
  }

  lemma GoPlaces(cap: nat, st: State, i: nat, e: Event)
    requires Inv(cap, st) && Enabled(cap, st, Go(i))
    ensures Places(Apply(cap, st, Go(i)), e) == Places(st, e)
  {
    var c := st.calls[i];
    if c.GetRead? || c.BackWon? {
      SlotPlaces(cap, st, i, e);
    } else if c.GetStored? {
      OutPlaces(cap, st, i, e);
    } else {
      assert CallOK(cap, st, c);
      SumUpdate(st.calls, i, Operate(cap, st, c).1, InHands(e));
    }
  }

  lemma GoTotals(cap: nat, st: State, i: nat)
    requires Inv(cap, st) && Enabled(cap, st, Go(i))
    ensures CountsOK(cap, Apply(cap, st, Go(i)))
  {
    var c := st.calls[i];
    var (_, c') := Operate(cap, st, c);
    assert CallOK(cap, st, c);
    SumUpdate(st.calls, i, c', Gets());
    SumUpdate(st.calls, i, c', DoneGets());
    SumUpdate(st.calls, i, c', DoneBacks());
    if c.GetStored? {
      assert Places(st, c.event) == One(c.event < cap);
      SumAtLeast(st.calls, i, InHands(c.event));
      assert c.event !in st.out;
    }
  }

  lemma GoKeeps(cap: nat, st: State, i: nat)
    requires Inv(cap, st) && Enabled(cap, st, Go(i))
    ensures Inv(cap, Apply(cap, st, Go(i)))
  {
    var st' := Apply(cap, st, Go(i));
    assert CallOK(cap, st, st.calls[i]) && SlotOK(cap, st, st.calls[i].slot);
    forall j | 0 <= j < |st'.calls|
      ensures CallOK(cap, st', st'.calls[j])
    {
      if j != i {
        OthersKeep(cap, st, i, j);
      }
    }
    forall x | 0 <= x < cap
      ensures SlotOK(cap, st', x)
    {
      GoSlot(cap, st, i, x);
    }
    GoTotals(cap, st, i);
    forall e: Event
      ensures Places(st', e) == One(e < cap)
    {
      GoPlaces(cap, st, i, e);
    }
  }

  lemma {:induction false} RunInv(cap: nat, steps: seq<Step>)
    requires cap > 0 && ValidRun(cap, steps)
    ensures Inv(cap, Exec(cap, steps))
  {
    if steps == [] {
      InitInv(cap);
    } else {
      var l := |steps| - 1;
      RunInv(cap, steps[..l]);
      var st := Exec(cap, steps[..l]);
      match steps[l]
      case StartGet => StartGetKeeps(cap, st);
      case StartBack(e) => StartBackKeeps(cap, st, e);
      case Go(i) => GoKeeps(cap, st, i);
    }
  }

  // ------------------------------------------------------------- main results

  /** Under every interleaving at most one caller works on a slot, no `get` yields nil, and
      every event is in exactly one place: a slot, one caller's hands, or checked out. */
  lemma SlotsAreExclusive(cap: nat, steps: seq<Step>)
    requires cap > 0 && ValidRun(cap, steps)
    ensures var st := Exec(cap, steps);
            && !st.nilRead
            && (forall i, j ::
                  (&& 0 <= i < |st.calls| && (Taking(st.calls[i]) || Filling(st.calls[i]))
                   && 0 <= j < |st.calls| && (Taking(st.calls[j]) || Filling(st.calls[j]))
                   && st.calls[i].slot == st.calls[j].slot) ==> i == j)
            && (forall e: Event :: Places(st, e) == if e < cap then 1 else 0)
  {
    RunInv(cap, steps);
    var st := Exec(cap, steps);
    forall i, j | 0 <= i < |st.calls| && 0 <= j < |st.calls|
        && (Taking(st.calls[i]) || Filling(st.calls[i])) && (Taking(st.calls[j]) || Filling(st.calls[j]))
        && st.calls[i].slot == st.calls[j].slot
      ensures i == j
    {
      Exclusive(cap, st, i, j);
    }
  }

  lemma {:induction false} SumLe<T>(s: seq<T>, f: T -> nat, g: T -> nat)
    requires forall x :: x in s ==> f(x) <= g(x)
    ensures Sum(s, f) <= Sum(s, g)
  {
    if s != [] {
      SumLe(s[..|s| - 1], f, g);
    }
  }

  /** No more events were given back than were handed out. */
  lemma BacksBelowGets(cap: nat, st: State)
    requires Inv(cap, st)
    ensures st.backCounter - cap <= st.getCounter
  {
    SumLe(st.calls, DoneGets(), Gets());
  }

  /** A `back` that waits at a full slot is never waiting for nothing: some `get` already
      holds a ticket for that slot and can take it now. */
  lemma BackWaitsForAGet(cap: nat, steps: seq<Step>, i: nat) returns (j: nat)
    requires cap > 0 && ValidRun(cap, steps)
    requires i < |Exec(cap, steps).calls| && Exec(cap, steps).calls[i].BackWait?
    requires Exec(cap, steps).calls[i].slot < cap && Exec(cap, steps).free1[Exec(cap, steps).calls[i].slot]
    ensures var st := Exec(cap, steps);
            && Enabled(cap, st, Go(j)) && st.calls[j].GetWait?
            && st.calls[j].slot == st.calls[i].slot
  {
    RunInv(cap, steps);
    j := WaitingGet(cap, Exec(cap, steps), i);
  }

  lemma WaitingGet(cap: nat, st: State, i: nat) returns (j: nat)
    requires Inv(cap, st)
    requires i < |st.calls| && st.calls[i].BackWait? && st.calls[i].slot < cap && st.free1[st.calls[i].slot]
    ensures Enabled(cap, st, Go(j)) && st.calls[j].GetWait?
    ensures st.calls[j].slot == st.calls[i].slot
  {
    var x := st.calls[i].slot;
    assert CallOK(cap, st, st.calls[i]) && SlotOK(cap, st, x);
    BacksBelowGets(cap, st);
    TicketsMonotone(cap, st.backCounter, st.getCounter + cap, x);
    TicketsRound(cap, st.getCounter, x);
    SumAtLeast(st.calls, i, BackWaitsAt(x));
    j := SumWitness(st.calls, GetWaitsAt(x));
  }

  predicate Finished(c: Call) {
    c.GetDone? || c.BackDone?
  }

  /** With no call in progress, exactly the slots of the tickets in between are empty. */
  lemma QuietSlot(cap: nat, st: State, x: nat)
    requires Inv(cap, st) && x < cap
    requires forall c :: c in st.calls ==> Finished(c)
    ensures st.free1[x] == st.free2[x]
    ensures One(st.free1[x]) == Tickets(cap, st.backCounter, x) - Tickets(cap, st.getCounter, x)
  {
    assert SlotOK(cap, st, x);
    SumZero(st.calls, TakesAt(x));
    SumZero(st.calls, FillsAt(x));
    SumZero(st.calls, GetWaitsAt(x));
    SumZero(st.calls, BackWaitsAt(x));
  }

  lemma QuietOut(cap: nat, st: State)
    requires Inv(cap, st)
    requires forall c :: c in st.calls ==> Finished(c)
    ensures |st.out| == st.getCounter - (st.backCounter - cap) <= cap
  {
    SumLe(st.calls, DoneGets(), Gets());
    SumLe(st.calls, Gets(), DoneGets());
    forall e | e in st.out
      ensures e < cap
    {
      assert Places(st, e) == One(e < cap);
    }
    SubsetSize(st.out, cap);
  }

  lemma {:induction false} SubsetSize(s: set<nat>, n: nat)
    requires forall e :: e in s ==> e < n
    ensures |s| <= n
    decreases n
  {
    if n == 0 {
      assert s == {};
    } else {
      SubsetSize(s - {n - 1}, n - 1);
      assert s - {n - 1} == if n - 1 in s then s - {n - 1} else s;
    }
  }

  /** With no call in progress, the next `get` finds its slot full exactly when fewer than
      `cap` events are out, and, if any event is out, the next `back` finds its slot empty. */
  lemma QuietPool(cap: nat, steps: seq<Step>)
    requires cap > 0 && ValidRun(cap, steps)
    requires forall c :: c in Exec(cap, steps).calls ==> Finished(c)
    ensures var st := Exec(cap, steps);
            && (st.free1[st.getCounter % cap] <==> |st.out| < cap)
            && (st.out != {} ==> !st.free2[st.backCounter % cap])
  {
    RunInv(cap, steps);
    QuietState(cap, Exec(cap, steps));
  }

  lemma QuietState(cap: nat, st: State)
    requires Inv(cap, st)
    requires forall c :: c in st.calls ==> Finished(c)
    ensures st.free1[st.getCounter % cap] <==> |st.out| < cap
    ensures st.out != {} ==> !st.free2[st.backCounter % cap]
  {
    QuietOut(cap, st);
    var x, y := st.getCounter % cap, st.backCounter % cap;
    QuietSlot(cap, st, x);
    QuietSlot(cap, st, y);
    var b := st.backCounter - cap;
    TicketsRound(cap, b, x);
    TicketsRound(cap, b, y);
    ModShift(cap, b);
    NextTicket(cap, b, st.getCounter);
  }

  /** From `b` up to, not including, `g`: is there a ticket for `g`'s slot, and for `b`'s? */
  lemma NextTicket(cap: nat, b: nat, g: nat)
    requires cap > 0 && b <= g <= b + cap
    ensures Tickets(cap, g, g % cap) == Tickets(cap, b, g % cap) + One(g == b + cap)
    ensures Tickets(cap, g, b % cap) == Tickets(cap, b, b % cap) + One(b < g)
  {
    ModRange(cap, g);
    ModRange(cap, b);
    NextGet(cap, b, g, g % cap);
    if b < g {
      NextBack(cap, b, g, b % cap);
    }
  }

  lemma ModRange(cap: nat, n: nat)
    requires cap > 0
    ensures 0 <= n % cap < cap
  {
  }

  lemma TicketStep(cap: nat, n: nat, x: nat)
    requires cap > 0 && n % cap == x
    ensures Tickets(cap, n + 1, x) == Tickets(cap, n, x) + 1
  {
  }

  lemma NextGet(cap: nat, b: nat, g: nat, x: nat)
    requires cap > 0 && b <= g <= b + cap && x == g % cap && x < cap
    ensures Tickets(cap, g, x) == Tickets(cap, b, x) + One(g == b + cap)
  {
    TicketsRound(cap, b, x);
    if g < b + cap {
      TicketsSpan(cap, b, g, x);
      TicketStep(cap, g, x);
      TicketsMonotone(cap, g + 1, b + cap, x);
    }
  }

  lemma NextBack(cap: nat, b: nat, g: nat, x: nat)
    requires cap > 0 && b < g <= b + cap && x == b % cap && x < cap
    ensures Tickets(cap, g, x) == Tickets(cap, b, x) + 1
  {
    TicketsSpan(cap, b, g, x);
    TicketStep(cap, b, x);
    TicketsMonotone(cap, b + 1, g, x);
  }

  // -------------------------------------------------------------- never stuck

  /** A call in the middle of its work can always go on. */
  lemma WorkerAt(cap: nat, st: State, x: nat) returns (i: nat)
    requires Inv(cap, st) && x < cap && st.free1[x] != st.free2[x]
    ensures Enabled(cap, st, Go(i)) && st.calls[i].slot == x
  {
    assert SlotOK(cap, st, x);
    if Sum(st.calls, TakesAt(x)) > 0 {
      i := SumWitness(st.calls, TakesAt(x));
    } else {
      i := SumWitness(st.calls, FillsAt(x));
    }
  }

  /** A pending `back` is never held up for good: it or another call at its own slot can go on. */
  lemma BackNeverStuck(cap: nat, st: State, i: nat) returns (j: nat)
    requires Inv(cap, st) && i < |st.calls| && st.calls[i].BackWait?
    ensures Enabled(cap, st, Go(j)) && st.calls[j].slot == st.calls[i].slot
  {
    var x := st.calls[i].slot;
    assert CallOK(cap, st, st.calls[i]) && SlotOK(cap, st, x);
    if !st.free2[x] {
      j := i;
    } else if st.free1[x] {
      j := WaitingGet(cap, st, i);
    } else {
      j := WorkerAt(cap, st, x);
    }
  }

  /** No call can go on. */
  ghost predicate Stuck(cap: nat, st: State)
    requires Shape(cap, st)
  {
    forall i :: 0 <= i < |st.calls| ==> !Enabled(cap, st, Go(i))
  }

  /** In a stuck state only waiting `get`s are left. */
  lemma StuckCalls(cap: nat, st: State, i: nat)
    requires Inv(cap, st) && Stuck(cap, st) && i < |st.calls|
    ensures Finished(st.calls[i]) || (st.calls[i].GetWait? && !st.free1[st.calls[i].slot])
  {
    assert !Enabled(cap, st, Go(i));
    if st.calls[i].BackWait? {
      var j := BackNeverStuck(cap, st, i);
      assert false;
    }
  }

  lemma StuckSlot(cap: nat, st: State, x: nat)
    requires Inv(cap, st) && Stuck(cap, st) && x < cap
    ensures st.free1[x] == st.free2[x]
    ensures One(st.free1[x]) == Tickets(cap, st.backCounter, x)
                                - (Tickets(cap, st.getCounter, x) - Sum(st.calls, GetWaitsAt(x)))
    ensures st.free1[x] ==> Sum(st.calls, GetWaitsAt(x)) == 0
  {
    assert SlotOK(cap, st, x);
    forall c | c in st.calls
      ensures TakesAt(x)(c) == 0 && FillsAt(x)(c) == 0 && BackWaitsAt(x)(c) == 0
      ensures st.free1[x] ==> GetWaitsAt(x)(c) == 0
    {
      var i :| 0 <= i < |st.calls| && st.calls[i] == c;
      StuckCalls(cap, st, i);
    }
    SumZero(st.calls, TakesAt(x));
    SumZero(st.calls, FillsAt(x));
    SumZero(st.calls, BackWaitsAt(x));
    if st.free1[x] {
      SumZero(st.calls, GetWaitsAt(x));
    }
  }

  /** If a `get` waits in a stuck state, every slot is empty: two tickets of the waiting
      one's slot lie in between, so at least one of every slot does. */
  lemma StuckIsEmpty(cap: nat, st: State, i: nat, y: nat)
    requires Inv(cap, st) && Stuck(cap, st) && y < cap
    requires i < |st.calls| && st.calls[i].GetWait?
    ensures !st.free1[y]
  {
    var x := st.calls[i].slot;
    var b, g := st.backCounter - cap, st.getCounter;
    StuckCalls(cap, st, i);
    StuckSlot(cap, st, x);
    StuckSlot(cap, st, y);
    SumAtLeast(st.calls, i, GetWaitsAt(x));
    TicketsRound(cap, b, x);
    TicketsRound(cap, b, y);
    BacksBelowGets(cap, st);
    if g <= b + cap {
      TicketsSpan(cap, b, g, x);
      assert false;
    }
    TicketsMonotone(cap, b + cap, g, y);
  }

  /** The pool blocks only when it is exhausted: if some call is unfinished and none can go
      on, then the unfinished calls are `get`s and every event is checked out. */
  lemma BlocksOnlyWhenExhausted(cap: nat, steps: seq<Step>)
    requires cap > 0 && ValidRun(cap, steps)
    requires Stuck(cap, Exec(cap, steps))
    requires exists c :: c in Exec(cap, steps).calls && !Finished(c)
    ensures var st := Exec(cap, steps);
            && (forall c :: c in st.calls ==> Finished(c) || c.GetWait?)
            && (forall e: Event :: e in st.out <==> e < cap)
  {
    RunInv(cap, steps);
    var st := Exec(cap, steps);
    forall c | c in st.calls
      ensures Finished(c) || c.GetWait?
    {
      var i :| 0 <= i < |st.calls| && st.calls[i] == c;
      StuckCalls(cap, st, i);
    }
    var c0 :| c0 in st.calls && !Finished(c0);
    var i :| 0 <= i < |st.calls| && st.calls[i] == c0;
    forall e: Event
      ensures e in st.out <==> e < cap
    {
      StuckEvent(cap, st, i, e);
    }
  }

  lemma StuckEvent(cap: nat, st: State, i: nat, e: Event)
    requires Inv(cap, st) && Stuck(cap, st)
    requires i < |st.calls| && st.calls[i].GetWait?
    ensures e in st.out <==> e < cap
  {
    assert Places(st, e) == One(e < cap);
    forall s | s in st.events
      ensures Holds(e)(s) == 0
    {
      var y :| 0 <= y < |st.events| && st.events[y] == s;
      StuckIsEmpty(cap, st, i, y);
      StuckSlot(cap, st, y);
      assert SlotOK(cap, st, y);
    }
    SumZero(st.events, Holds(e));
    forall c | c in st.calls
      ensures InHands(e)(c) == 0
    {
      var k :| 0 <= k < |st.calls| && st.calls[k] == c;
      StuckCalls(cap, st, k);
    }
    SumZero(st.calls, InHands(e));
  }
}
