/** The holding action of the step machine is the plugin: its moves answer as join and the k8s action do. */
module Holder {
  import opened Basics
  import S = Streams
  import J = Join
  import M = Multiline

  // --------------------------------------------------------------------------- join

  /** What the step machine is told of an event that join sees. */
  function Said(c: J.Config, x: J.Input): S.Verdict {
    if J.Starts(c, x) then S.Begin else if J.Continues(c, x) then S.Continue else S.DoPass
  }

  /** The processor's fields and the plugin's say the same. */
  predicate Agree(pr: S.Proc, st: J.State) {
    && pr.joining == st.isJoining && pr.held.Some? == st.initial.Some?
    && (st.isJoining ==> st.initial.Some?)
  }

  /** Join answers the processor with `result`, after it gave the held event to `Propagate` if it
      flushes. */
  predicate Answers(cfg: S.Config, e: S.Event, pr: S.Proc, o: S.Outcome, result: ActionResult, flushes: bool) {
    if flushes then
      pr.held.Some? && o.proc.pc == S.Flushing(e, result, pr.held.value, cfg.holder + 1)
      && !o.proc.joining && o.proc.held.None?
    else o.proc.pc == S.Returned(e, cfg.holder, result)
  }

  /** For every state and every event: the machine's join flushes exactly when the plugin puts out a
      joined event, gives the same answer, and holds something afterwards exactly when the plugin does. */
  lemma HolderIsJoin(cfg: S.Config, pr: S.Proc, x: S.Stream, e: S.Event, c: J.Config, st: J.State, input: J.Input)
    requires cfg.kind == S.Join && cfg.holder < |pr.busy| && Agree(pr, st)
    requires e.timeout <==> input.Timeout?
    ensures var o := S.DoHolder(cfg, pr, x, e, Said(c, input));
            var j := J.Do(c, st, input);
            var flushes := j.out != [] && j.out[0].Joined?;
            && (input.Timeout? && !st.isJoining ==> o.panic && j.panic)
            && (!(input.Timeout? && !st.isJoining) ==>
                  && Answers(cfg, e, pr, o, j.result, flushes) && !j.panic
                  && (!flushes ==> Agree(o.proc, j.state)))
            && o.stream == x
  {
  }

  /** After the flush the processor is told the answer, and agrees with the plugin again. */
  lemma FlushedAgrees(cfg: S.Config, pr: S.Proc, e: S.Event, c: J.Config, st: J.State, input: J.Input)
    requires Agree(pr, st) && st.isJoining && (e.timeout <==> input.Timeout?)
    requires J.Do(c, st, input).out != [] && J.Do(c, st, input).out[0].Joined?
    ensures var j := J.Do(c, st, input);
            Agree(S.Finish(cfg, pr.(joining := false, held := None), e, j.result), j.state)
  {
  }

  // ------------------------------------------------------------------ the k8s action

  function Kind(r: M.Result): Option<ActionResult> {
    match r
    case Pass(_) => Some(Pass)
    case Collapse => Some(Collapse)
    case Discard => Some(Discard)
    case Panic => None
  }

  /** What the machine is told of an event that the k8s action sees. */
  function SaidByK8s(r: M.Result): S.Verdict {
    match r
    case Pass(_) => S.DoPass
    case Collapse => S.Continue
    case Discard => S.DoDiscard
    case Panic => S.DoPass
  }

  /** Unless the program ends, the machine's action answers as the k8s action does. */
  lemma HolderIsK8s(cfg: S.Config, pr: S.Proc, x: S.Stream, e: S.Event, c: M.Config, st: M.State, event: M.Event)
    requires cfg.kind == S.Multiline && cfg.holder < |pr.busy| && |st.buf| >= 1
    requires e.timeout <==> event.Timeout?
    ensures var r := M.Do(c, st, event).1;
            var o := S.DoHolder(cfg, pr, x, e, SaidByK8s(r));
            Kind(r).Some? ==>
              o.proc == pr.(pc := S.Returned(e, cfg.holder, Kind(r).value)) && o.stream == x && !o.panic
  {
  }
}
