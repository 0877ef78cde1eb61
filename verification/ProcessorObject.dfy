/** The processor's own state: which actions wait for the next event of the stream. */
module ProcessorObject {
  import opened Basics
  import S = Streams

  function Flag(): bool -> nat {
    (b: bool) => if b then 1 else 0
  }

  /** How the actions meet one event: whether each one's conditions match it, and what it would
      answer. */
  datatype Actions = Actions(matches: seq<bool>, answers: seq<ActionResult>)

  /** Action `k` gets to see the event: a busy one does in any case, and so does the one that a
      timeout is meant for. */
  predicate Sees(a: Actions, busy: seq<bool>, timeout: bool, k: nat)
    requires k < |busy| == |a.matches|
  {
    busy[k] || timeout || a.matches[k]
  }

  predicate Stops(a: Actions, busy: seq<bool>, timeout: bool, k: nat)
    requires k < |busy| == |a.matches| == |a.answers|
  {
    Sees(a, busy, timeout, k) && a.answers[k] != Pass
  }

  /** In the step machine: an action that is not matched is passed by only where that is open to it. */
  lemma SeesAsAllowed(cfg: S.Config, pr: S.Proc, a: Actions, k: nat)
    requires pr.pc.Acting? && pr.pc.index == k < |pr.busy| == |a.matches| == cfg.actions
    ensures Sees(a, pr.busy, pr.pc.event.timeout, k) <==> a.matches[k] || !S.Allowed(cfg, pr, S.NotMatched)
  {
  }

  /** What the end of an event's way through the actions tells the pipeline. */
  datatype End = NotFinalized | Finalized(backEvent: bool)

  /** How it goes on after the actions: the event is given to the output, the stream's next event is
      taken when it is convenient, or the processor waits for it because an action is busy. */
  datatype Onward = ToOutput | Done | WaitForNext

  lemma NoneBusy(busy: seq<bool>)
    requires Sum(busy, Flag()) == 0
    ensures forall k :: 0 <= k < |busy| ==> !busy[k]
  {
    forall k | 0 <= k < |busy|
      ensures !busy[k]
    {
      SumAtLeast(busy, k, Flag());
    }
  }

  class Processor {
    var busyActions: seq<bool>
    var busyActionsTotal: int

    /** The total counts the flags, so neither check on it can fail. */
    ghost predicate Valid()
      reads this
    {
      busyActionsTotal == Sum(busyActions, Flag())
    }

    ghost function Value(): S.Proc
      reads this
    {
      S.Proc(S.Idle, 0, busyActions, busyActionsTotal, false, None)
    }

    constructor ()
      ensures Valid() && busyActions == []
    {
      busyActions, busyActionsTotal := [], 0;
    }

    method AddActionPlugin()
      requires Valid()
      modifies this
      ensures Valid() && busyActions == old(busyActions) + [false] && busyActionsTotal == old(busyActionsTotal)
    {
      SumSnoc(busyActions, false, Flag());
      busyActions := busyActions + [false];
    }

    method TryMarkBusy(index: nat) returns (panic: bool)
      requires Valid() && index < |busyActions|
      modifies this
      ensures Valid() && !panic && Value() == S.MarkBusy(old(Value()), index)
    {
      if busyActions[index] {
        return false;
      }
      SumUpdate(busyActions, index, true, Flag());
      busyActions := busyActions[index := true];
      busyActionsTotal := busyActionsTotal + 1;
      SumBound(busyActions, Flag());
      return busyActionsTotal > |busyActions|;
    }

    method TryResetBusy(index: nat) returns (panic: bool)
      requires Valid() && index < |busyActions|
      modifies this
      ensures Valid() && !panic && Value() == S.ResetBusy(old(Value()), index)
    {
      if !busyActions[index] {
        return false;
      }
      SumUpdate(busyActions, index, false, Flag());
      busyActions := busyActions[index := false];
      busyActionsTotal := busyActionsTotal - 1;
      return busyActionsTotal < 0;
    }

    /** Sends an event through the actions from its own position on. It passes exactly when no
        action that sees it stops it; otherwise it ends at the first one that does and is
        finalized, and goes back to the pool unless that action holds it. Afterwards an action is
        busy if it collapsed or held the event; the others that saw it are not, and those that did
        not see it are as before. No panic is possible. */
    method DoActions(a: Actions, start: nat, timeout: bool)
      returns (isPassed: bool, lastAction: int, end: End, panic: bool)
      requires Valid() && |a.matches| == |a.answers| == |busyActions| && start <= |busyActions|
      modifies this
      ensures Valid() && !panic && |busyActions| == old(|busyActions|)
      ensures isPassed <==> forall k :: start <= k < |busyActions| ==> !Stops(a, old(busyActions), timeout, k)
      ensures isPassed ==> lastAction == |busyActions| - 1 && end == NotFinalized
      ensures !isPassed ==>
                && start <= lastAction < |busyActions| && Stops(a, old(busyActions), timeout, lastAction)
                && (forall k :: start <= k < lastAction ==> !Stops(a, old(busyActions), timeout, k))
                && end == Finalized(a.answers[lastAction] != Hold)
      ensures forall k :: 0 <= k < |busyActions| ==>
                busyActions[k] == (if start <= k <= lastAction && Sees(a, old(busyActions), timeout, k)
                                   then a.answers[k] == Collapse || a.answers[k] == Hold
                                   else old(busyActions)[k])
    {
      ghost var busy := busyActions;
      var index := start;
      while index < |busyActions|
        invariant start <= index <= |busyActions| == |busy| && Valid()
        invariant forall k :: start <= k < index ==> !Stops(a, busy, timeout, k)
        invariant forall k :: start <= k < index && Sees(a, busy, timeout, k) ==> a.answers[k] == Pass
        invariant forall k :: 0 <= k < |busy| ==>
                    busyActions[k] == (if start <= k < index && Sees(a, busy, timeout, k) then false else busy[k])
      {
        if !busyActions[index] && !timeout && !a.matches[index] {
          index := index + 1;
          continue;
        }
        assert Sees(a, busy, timeout, index);
        assert a.answers[index] != Pass ==> Stops(a, busy, timeout, index);
        match a.answers[index] {
          case Pass =>
            panic := TryResetBusy(index);
          case Discard =>
            panic := TryResetBusy(index);
            return false, index, Finalized(true), panic;
          case Collapse =>
            panic := TryMarkBusy(index);
            return false, index, Finalized(true), panic;
          case Hold =>
            panic := TryMarkBusy(index);
            return false, index, Finalized(false), panic;
        }
        index := index + 1;
      }
      return true, |busyActions| - 1, NotFinalized, false;
    }

    /** One turn of `processEvent` and what `processSequence` makes of it. */
    method ProcessEvent(a: Actions, start: nat, timeout: bool)
      returns (onward: Onward, lastAction: int, end: End, panic: bool)
      requires Valid() && |a.matches| == |a.answers| == |busyActions| && start <= |busyActions|
      modifies this
      ensures Valid() && !panic && |busyActions| == old(|busyActions|)
      ensures onward == ToOutput <==>
              forall k :: start <= k < |busyActions| ==> !Stops(a, old(busyActions), timeout, k)
      ensures onward == WaitForNext <==> onward != ToOutput && exists k :: 0 <= k < |busyActions| && busyActions[k]
      ensures onward == ToOutput ==> lastAction == |busyActions| - 1 && end == NotFinalized
      ensures onward != ToOutput ==>
                && start <= lastAction < |busyActions| && Stops(a, old(busyActions), timeout, lastAction)
                && (forall k :: start <= k < lastAction ==> !Stops(a, old(busyActions), timeout, k))
                && end == Finalized(a.answers[lastAction] != Hold)
      ensures forall k :: 0 <= k < |busyActions| ==>
                busyActions[k] == (if start <= k <= lastAction && Sees(a, old(busyActions), timeout, k)
                                   then a.answers[k] == Collapse || a.answers[k] == Hold
                                   else old(busyActions)[k])
    {
      var isPassed;
      isPassed, lastAction, end, panic := DoActions(a, start, timeout);
      if isPassed {
        return ToOutput, lastAction, end, panic;
      }
      if busyActionsTotal == 0 {
        NoneBusy(busyActions);
        return Done, lastAction, end, panic;
      }
      ghost var k := SumWitness(busyActions, Flag());
      assert busyActions[k];
      return WaitForNext, lastAction, end, panic;
    }

    /** Sends the event that action `index` held through the actions behind it. That action is no
        longer busy, and the ones in front of it are as before. */
    method Propagate(a: Actions, index: nat) returns (onward: Onward, lastAction: int, end: End, panic: bool)
      requires Valid() && |a.matches| == |a.answers| == |busyActions| && index < |busyActions|
      modifies this
      ensures Valid() && !panic && |busyActions| == old(|busyActions|)
      ensures onward == ToOutput <==>
              forall k :: index < k < |busyActions| ==> !Stops(a, old(busyActions), false, k)
      ensures onward == WaitForNext <==> onward != ToOutput && exists k :: 0 <= k < |busyActions| && busyActions[k]
      ensures !busyActions[index] && busyActions[..index] == old(busyActions)[..index]
      ensures onward == ToOutput ==> lastAction == |busyActions| - 1 && end == NotFinalized
      ensures onward != ToOutput ==>
                && index < lastAction < |busyActions| && Stops(a, old(busyActions), false, lastAction)
                && (forall k :: index < k < lastAction ==> !Stops(a, old(busyActions), false, k))
                && end == Finalized(a.answers[lastAction] != Hold)
      ensures forall k :: index < k < |busyActions| ==>
                busyActions[k] == (if k <= lastAction && Sees(a, old(busyActions), false, k)
                                   then a.answers[k] == Collapse || a.answers[k] == Hold
                                   else old(busyActions)[k])
    {
      ghost var before := busyActions;
      panic := TryResetBusy(index);
      ghost var after := busyActions;
      assert forall k :: index < k < |before| ==> (Stops(a, after, false, k) <==> Stops(a, before, false, k));
      assert forall k :: index < k < |before| ==> (Sees(a, after, false, k) <==> Sees(a, before, false, k));
      onward, lastAction, end, panic := ProcessEvent(a, index + 1, false);
    }
  }
}
