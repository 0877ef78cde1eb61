/** The file input's jobs: added, queued for a worker, done, resumed and deleted.

    A job is one tracked file. It is done while nothing is known to be unread in it;
    otherwise it is on its way into the queue, in the queue, or with one worker. */
module Jobs {

  type SourceId = nat
  type WorkerId = nat

  datatype Job = Job(isDone: bool, isVirgin: bool)

  /** `sending` are jobs marked as not done whose send into the channel is under way.
      `deleting` are jobs that a maintenance run found done and is about to delete. */
  datatype State = State(
    jobs: map<SourceId, Job>,
    jobsDone: int,
    sending: set<SourceId>,
    queue: seq<SourceId>,
    held: map<WorkerId, SourceId>,
    deleting: set<SourceId>,
    fatal: bool,
    panicked: bool)

  const START := State(map[], 0, {}, [], map[], {}, false, false)

  datatype Step =
    | AddJob(id: SourceId)          // a file is seen for the first time
    | Resume(id: SourceId)          // tryResumeJobAndUnlock up to the unlock
    | Send(id: SourceId)            // jobsChan <- job
    | Take(w: WorkerId)             // a worker receives a job
    | DoneJob(w: WorkerId)          // the worker reached the end of the file
    | Delete(id: SourceId)          // the file is gone; check and delete in one step
    | DeleteCheck(id: SourceId)     // ... or the check and the unlock
    | DeleteFinish(id: SourceId)    // ... and the delete afterwards

  predicate Enabled(maxFiles: nat, st: State, step: Step) {
    match step
    case AddJob(_) => !st.fatal
    case Resume(id) => id in st.jobs
    case Send(id) => id in st.sending && |st.queue| < maxFiles
    case Take(w) => w !in st.held && st.queue != []
    case DoneJob(w) => w in st.held && st.held[w] in st.jobs
    case Delete(id) => id in st.jobs
    case DeleteCheck(id) => id in st.jobs && st.jobs[id].isDone
    case DeleteFinish(id) => id in st.deleting
  }

  function ResumeJob(st: State, id: SourceId): State
    requires id in st.jobs
  {
    if !st.jobs[id].isDone then st
    else
      st.(jobs := st.jobs[id := st.jobs[id].(isDone := false)],
          jobsDone := st.jobsDone - 1,
          sending := st.sending + {id},
          panicked := st.panicked || st.jobsDone - 1 < 0)
  }

  function Remove(st: State, id: SourceId): State {
    st.(jobs := st.jobs - {id}, jobsDone := st.jobsDone - 1, panicked := st.panicked || st.jobsDone - 1 < 0)
  }

  function Apply(maxFiles: nat, st: State, step: Step): State
    requires Enabled(maxFiles, st, step)
  {
    match step
    case AddJob(id) =>
      if id in st.jobs then st
      else
        var st1 := st.(jobs := st.jobs[id := Job(true, true)]);
        if |st1.jobs| > maxFiles then st1.(fatal := true)
        else ResumeJob(st1.(jobsDone := st.jobsDone + 1), id)
    case Resume(id) => ResumeJob(st, id)
    case Send(id) => st.(sending := st.sending - {id}, queue := st.queue + [id])
    case Take(w) =>
      var id := st.queue[0];
      st.(queue := st.queue[1..], held := st.held[w := id],
          panicked := st.panicked || id !in st.jobs || st.jobs[id].isDone)
    case DoneJob(w) =>
      var id := st.held[w];
      st.(jobs := st.jobs[id := Job(true, false)], jobsDone := st.jobsDone + 1, held := st.held - {w},
          panicked := st.panicked || st.jobs[id].isDone || st.jobsDone + 1 > |st.jobs|)
    case Delete(id) => if !st.jobs[id].isDone then st else Remove(st, id)
    case DeleteCheck(id) => st.(deleting := st.deleting + {id})
    case DeleteFinish(id) => Remove(st.(deleting := st.deleting - {id}), id)
  }

  /** Runs in which a delete is one step. */
  predicate Atomic(step: Step) {
    !step.DeleteCheck? && !step.DeleteFinish?
  }

  ghost predicate ValidRun(maxFiles: nat, steps: seq<Step>)
    decreases |steps|, 0
  {
    steps == [] ||
    (ValidRun(maxFiles, steps[..|steps| - 1]) &&
     Enabled(maxFiles, Exec(maxFiles, steps[..|steps| - 1]), steps[|steps| - 1]))
  }

  ghost function Exec(maxFiles: nat, steps: seq<Step>): State
    requires ValidRun(maxFiles, steps)
    decreases |steps|, 1
  {
    if steps == [] then START
    else Apply(maxFiles, Exec(maxFiles, steps[..|steps| - 1]), steps[|steps| - 1])
  }

  // ---------------------------------------------------------------- invariant

  ghost function DoneSet(st: State): set<SourceId> {
    set id | id in st.jobs && st.jobs[id].isDone
  }

  ghost predicate IsHeld(st: State, id: SourceId) {
    exists w :: w in st.held && st.held[w] == id
  }

  /** The job is on its way to a worker or with one. */
  ghost predicate Active(st: State, id: SourceId) {
    id in st.sending || id in st.queue || IsHeld(st, id)
  }

  /** ... in one place only. */
  ghost predicate OnePlace(st: State) {
    && (forall i, j :: 0 <= i < j < |st.queue| ==> st.queue[i] != st.queue[j])
    && (forall id :: id in st.queue ==> id !in st.sending)
    && (forall w :: w in st.held ==> st.held[w] !in st.sending && st.held[w] !in st.queue)
    && (forall w, u :: w in st.held && u in st.held && st.held[w] == st.held[u] ==> w == u)
  }

  ghost predicate ActiveOK(st: State) {
    forall id :: Active(st, id) <==> id in st.jobs && !st.jobs[id].isDone
  }

  ghost predicate Inv(maxFiles: nat, st: State) {
    && !st.panicked
    && (!st.fatal ==> |st.jobs| <= maxFiles)
    && (st.fatal ==> |st.jobs| == maxFiles + 1)
    && (!st.fatal ==> st.jobsDone == |DoneSet(st)|)
    && OnePlace(st)
    && (!st.fatal ==> ActiveOK(st))
  }

  lemma ResumeKeeps(maxFiles: nat, st: State, id: SourceId)
    requires Inv(maxFiles, st) && !st.fatal && id in st.jobs
    ensures Inv(maxFiles, ResumeJob(st, id))
  {
    if st.jobs[id].isDone {
      var st' := ResumeJob(st, id);
      assert id in DoneSet(st) && DoneSet(st') == DoneSet(st) - {id};
      assert !Active(st, id);
      assert st'.jobs.Keys == st.jobs.Keys;
      forall x
        ensures Active(st', x) <==> x in st'.jobs && !st'.jobs[x].isDone
      {
        assert IsHeld(st', x) <==> IsHeld(st, x);
        assert Active(st', x) <==> x == id || Active(st, x);
      }
    }
  }

  lemma OneMore(jobs: map<SourceId, Job>, id: SourceId, job: Job)
    requires id !in jobs
    ensures |jobs[id := job]| == |jobs| + 1
  {
    assert jobs[id := job].Keys == jobs.Keys + {id};
    assert |jobs[id := job]| == |jobs[id := job].Keys| && |jobs| == |jobs.Keys|;
  }

  ghost function WithNew(st: State, id: SourceId): State {
    st.(jobs := st.jobs[id := Job(true, true)], jobsDone := st.jobsDone + 1)
  }

  lemma NewIsDone(st: State, id: SourceId)
    requires id !in st.jobs
    ensures |DoneSet(WithNew(st, id))| == |DoneSet(st)| + 1
  {
    assert DoneSet(WithNew(st, id)) == DoneSet(st) + {id};
  }

  lemma NewIsNotActive(st: State, id: SourceId)
    requires id !in st.jobs && ActiveOK(st)
    ensures ActiveOK(WithNew(st, id))
  {
    var st' := WithNew(st, id);
    forall x
      ensures Active(st', x) <==> x in st'.jobs && !st'.jobs[x].isDone
    {
      assert IsHeld(st', x) <==> IsHeld(st, x);
      assert Active(st', x) <==> Active(st, x);
    }
  }

  /** A new job, done and with nobody. */
  lemma NewJobKeeps(maxFiles: nat, st: State, id: SourceId)
    requires Inv(maxFiles, st) && !st.fatal && id !in st.jobs && |st.jobs| < maxFiles
    ensures Inv(maxFiles, WithNew(st, id))
  {
    OneMore(st.jobs, id, Job(true, true));
    NewIsDone(st, id);
    NewIsNotActive(st, id);
    assert OnePlace(WithNew(st, id));
  }

  lemma AddKeeps(maxFiles: nat, st: State, id: SourceId)
    requires Inv(maxFiles, st) && !st.fatal
    ensures Inv(maxFiles, Apply(maxFiles, st, AddJob(id)))
  {
    if id !in st.jobs {
      OneMore(st.jobs, id, Job(true, true));
      if |st.jobs| < maxFiles {
        NewJobKeeps(maxFiles, st, id);
        ResumeKeeps(maxFiles, WithNew(st, id), id);
      } else {
        assert OnePlace(st.(jobs := st.jobs[id := Job(true, true)], fatal := true));
      }
    }
  }

  lemma SendKeeps(maxFiles: nat, st: State, id: SourceId)
    requires Inv(maxFiles, st) && !st.fatal && Enabled(maxFiles, st, Send(id))
    ensures Inv(maxFiles, Apply(maxFiles, st, Send(id)))
  {
    var st' := Apply(maxFiles, st, Send(id));
    assert DoneSet(st') == DoneSet(st);
    forall x
      ensures Active(st', x) <==> Active(st, x)
    {
      assert IsHeld(st', x) <==> IsHeld(st, x);
    }
  }

  lemma TakeKeeps(maxFiles: nat, st: State, w: WorkerId)
    requires Inv(maxFiles, st) && !st.fatal && Enabled(maxFiles, st, Take(w))
    ensures Inv(maxFiles, Apply(maxFiles, st, Take(w)))
  {
    var st' := Apply(maxFiles, st, Take(w));
    var id := st.queue[0];
    assert id in st.queue && Active(st, id);
    assert st.queue == [id] + st.queue[1..];
    assert DoneSet(st') == DoneSet(st);
    forall x
      ensures Active(st', x) <==> Active(st, x)
    {
      if IsHeld(st, x) {
        var u :| u in st.held && st.held[u] == x;
        assert u in st'.held && st'.held[u] == x;
      }
      assert st'.held[w] == id;
      assert IsHeld(st', x) <==> x == id || IsHeld(st, x);
    }
  }

  lemma DoneKeeps(maxFiles: nat, st: State, w: WorkerId)
    requires Inv(maxFiles, st) && !st.fatal && Enabled(maxFiles, st, DoneJob(w))
    ensures Inv(maxFiles, Apply(maxFiles, st, DoneJob(w)))
  {
    var st' := Apply(maxFiles, st, DoneJob(w));
    var id := st.held[w];
    assert IsHeld(st, id) && Active(st, id);
    assert DoneSet(st') == DoneSet(st) + {id};
    assert st'.jobs.Keys == st.jobs.Keys;
    DoneAtMostAll(st');
    forall x
      ensures Active(st', x) <==> x != id && Active(st, x)
    {
      if IsHeld(st, x) && x != id {
        var u :| u in st.held && st.held[u] == x;
        assert u in st'.held && st'.held[u] == x;
      }
      assert IsHeld(st', x) <==> x != id && IsHeld(st, x);
    }
  }

  lemma DoneAtMostAll(st: State)
    ensures |DoneSet(st)| <= |st.jobs|
  {
    assert DoneSet(st) <= st.jobs.Keys;
    SubsetBound(DoneSet(st), st.jobs.Keys);
    assert |st.jobs| == |st.jobs.Keys|;
  }

  lemma SubsetBound(a: set<SourceId>, b: set<SourceId>)
    requires a <= b
    ensures |a| <= |b|
  {
    assert b == a + (b - a);
  }

  lemma RemoveDone(maxFiles: nat, st: State, id: SourceId)
    requires Inv(maxFiles, st) && !st.fatal && id in st.jobs && st.jobs[id].isDone
    ensures Inv(maxFiles, Remove(st, id))
  {
    var st' := Remove(st, id);
    assert id in DoneSet(st) && DoneSet(st') == DoneSet(st) - {id};
    assert st'.jobs.Keys == st.jobs.Keys - {id};
    forall x
      ensures Active(st', x) <==> Active(st, x)
    {
      assert IsHeld(st', x) <==> IsHeld(st, x);
    }
  }

  lemma StepKeeps(maxFiles: nat, st: State, step: Step)
    requires Inv(maxFiles, st) && !st.fatal && Enabled(maxFiles, st, step) && Atomic(step)
    ensures Inv(maxFiles, Apply(maxFiles, st, step))
  {
    match step
    case AddJob(id) => AddKeeps(maxFiles, st, id);
    case Resume(id) => ResumeKeeps(maxFiles, st, id);
    case Send(id) => SendKeeps(maxFiles, st, id);
    case Take(w) => TakeKeeps(maxFiles, st, w);
    case DoneJob(w) => DoneKeeps(maxFiles, st, w);
    case Delete(id) => if st.jobs[id].isDone { RemoveDone(maxFiles, st, id); }
  }

  /** No step before the last one ended the program. */
  ghost predicate Alive(maxFiles: nat, steps: seq<Step>)
    requires ValidRun(maxFiles, steps)
  {
    forall k :: 0 <= k <= |steps| ==> ValidRun(maxFiles, steps[..k]) && !Exec(maxFiles, steps[..k]).fatal
  }

  lemma {:induction false} RunInv(maxFiles: nat, steps: seq<Step>)
    requires ValidRun(maxFiles, steps) && Alive(maxFiles, steps) && (forall x :: x in steps ==> Atomic(x))
    ensures Inv(maxFiles, Exec(maxFiles, steps))
  {
    if steps != [] {
      var l := |steps| - 1;
      var before := steps[..l];
      forall k | 0 <= k <= l
        ensures ValidRun(maxFiles, before[..k]) && !Exec(maxFiles, before[..k]).fatal
      {
        assert before[..k] == steps[..k];
      }
      RunInv(maxFiles, before);
      assert before[..l] == before;
      StepKeeps(maxFiles, Exec(maxFiles, before), steps[l]);
    } else {
      assert DoneSet(START) == {};
      assert forall id :: !IsHeld(START, id);
    }
  }

  // ------------------------------------------------------------- main results

  lemma {:induction false} DistinctSize(q: seq<SourceId>, s: set<SourceId>)
    requires forall i, j :: 0 <= i < j < |q| ==> q[i] != q[j]
    requires forall id :: id in q ==> id in s
    ensures |q| <= |s|
    decreases |q|
  {
    if q != [] {
      var l := |q| - 1;
      DistinctSize(q[..l], s - {q[l]});
      assert q[l] in q;
    }
  }

  /** While the program runs: the counter counts the done jobs, a job is on its way to a
      worker or with exactly one exactly when it is not done, the channel never holds more
      than `maxFiles` jobs, a pending send finds room, and no panic fires. */
  lemma JobsAreTracked(maxFiles: nat, steps: seq<Step>)
    requires ValidRun(maxFiles, steps) && Alive(maxFiles, steps) && (forall x :: x in steps ==> Atomic(x))
    ensures var st := Exec(maxFiles, steps);
            && !st.panicked
            && st.jobsDone == |DoneSet(st)|
            && (forall id :: id in st.jobs ==> (!st.jobs[id].isDone <==> Active(st, id)))
            && OnePlace(st)
            && |st.queue| <= maxFiles
            && (forall id :: id in st.sending ==> Enabled(maxFiles, st, Send(id)))
  {
    RunInv(maxFiles, steps);
    var st := Exec(maxFiles, steps);
    assert steps[..|steps|] == steps;
    assert |st.jobs.Keys| == |st.jobs|;
    forall id | id in st.queue
      ensures id in st.jobs
    {
      assert Active(st, id);
    }
    DistinctSize(st.queue, st.jobs.Keys);
    forall id | id in st.sending
      ensures Enabled(maxFiles, st, Send(id))
    {
      assert Active(st, id);
      DistinctSize(st.queue, st.jobs.Keys - {id});
    }
  }

  /** How a step changes whether there may be something to read for the job: yes once it is added or
      resumed, no once a worker that has it finishes. */
  predicate UnreadAfter(st: State, step: Step, id: SourceId, was: bool) {
    match step
    case AddJob(x) => (x == id && id !in st.jobs) || was
    case Resume(x) => x == id || was
    case DoneJob(w) => (w in st.held ==> st.held[w] != id) && was
    case _ => was
  }

  ghost predicate Unread(maxFiles: nat, steps: seq<Step>, id: SourceId)
    requires ValidRun(maxFiles, steps)
    decreases |steps|
  {
    steps != [] &&
    var n := |steps| - 1;
    UnreadAfter(Exec(maxFiles, steps[..n]), steps[n], id, Unread(maxFiles, steps[..n], id))
  }

  lemma UnreadStep(maxFiles: nat, st: State, step: Step, id: SourceId, was: bool)
    requires Enabled(maxFiles, st, step) && Atomic(step) && !Apply(maxFiles, st, step).fatal
    requires id in Apply(maxFiles, st, step).jobs && (id in st.jobs ==> (!st.jobs[id].isDone <==> was))
    ensures !Apply(maxFiles, st, step).jobs[id].isDone <==> UnreadAfter(st, step, id, was)
  {
  }

  lemma AliveBefore(maxFiles: nat, steps: seq<Step>)
    requires steps != [] && ValidRun(maxFiles, steps) && Alive(maxFiles, steps)
    ensures Alive(maxFiles, steps[..|steps| - 1])
  {
    var before := steps[..|steps| - 1];
    forall k | 0 <= k <= |before|
      ensures ValidRun(maxFiles, before[..k]) && !Exec(maxFiles, before[..k]).fatal
    {
      assert before[..k] == steps[..k];
    }
  }

  lemma {:induction false} DoneIsRead(maxFiles: nat, steps: seq<Step>, id: SourceId)
    requires ValidRun(maxFiles, steps) && Alive(maxFiles, steps) && (forall x :: x in steps ==> Atomic(x))
    requires id in Exec(maxFiles, steps).jobs
    ensures !Exec(maxFiles, steps).jobs[id].isDone <==> Unread(maxFiles, steps, id)
    decreases |steps|
  {
    if steps != [] {
      var n := |steps| - 1;
      var before := steps[..n];
      AliveBefore(maxFiles, steps);
      assert steps[..|steps|] == steps && steps[n] in steps && forall x :: x in before ==> x in steps;
      if id in Exec(maxFiles, before).jobs {
        DoneIsRead(maxFiles, before, id);
      }
      UnreadStep(maxFiles, Exec(maxFiles, before), steps[n], id, Unread(maxFiles, before, id));
    }
  }

  ghost predicate VirginOK(st: State, id: SourceId) {
    id in st.jobs && st.jobs[id].isVirgin ==> !st.jobs[id].isDone
  }

  lemma VirginStep(maxFiles: nat, st: State, step: Step, id: SourceId)
    requires Enabled(maxFiles, st, step) && !Apply(maxFiles, st, step).fatal && VirginOK(st, id)
    ensures VirginOK(Apply(maxFiles, st, step), id)
  {
  }

  /** A job that no worker has finished yet was never done. */
  lemma {:induction false} VirginIsUnread(maxFiles: nat, steps: seq<Step>, id: SourceId)
    requires ValidRun(maxFiles, steps) && Alive(maxFiles, steps)
    ensures VirginOK(Exec(maxFiles, steps), id)
    decreases |steps|
  {
    if steps != [] {
      var n := |steps| - 1;
      AliveBefore(maxFiles, steps);
      assert steps[..|steps|] == steps;
      VirginIsUnread(maxFiles, steps[..n], id);
      VirginStep(maxFiles, Exec(maxFiles, steps[..n]), steps[n], id);
    }
  }

  /** What the provider is for: a job is on its way to a worker or with one exactly as long as there may
      be something to read, from the moment it is added. */
  lemma UnreadIsActive(maxFiles: nat, steps: seq<Step>, id: SourceId)
    requires ValidRun(maxFiles, steps) && Alive(maxFiles, steps) && (forall x :: x in steps ==> Atomic(x))
    requires id in Exec(maxFiles, steps).jobs
    ensures Active(Exec(maxFiles, steps), id) <==> Unread(maxFiles, steps, id)
    ensures Exec(maxFiles, steps).jobs[id].isVirgin ==> Active(Exec(maxFiles, steps), id)
  {
    DoneIsRead(maxFiles, steps, id);
    JobsAreTracked(maxFiles, steps);
    VirginIsUnread(maxFiles, steps, id);
  }

  /** A delete forgets a job exactly if it is done, and touches no other. */
  lemma DeleteForgets(maxFiles: nat, st: State, id: SourceId)
    requires Inv(maxFiles, st) && !st.fatal && id in st.jobs
    ensures var st' := Apply(maxFiles, st, Delete(id));
            && (id !in st'.jobs <==> st.jobs[id].isDone)
            && (id !in st'.jobs ==> !Active(st', id))
            && forall x :: x in st.jobs && x != id ==> x in st'.jobs && st'.jobs[x] == st.jobs[x]
  {
    var st' := Apply(maxFiles, st, Delete(id));
    assert IsHeld(st', id) <==> IsHeld(st, id);
    assert Active(st', id) <==> Active(st, id);
  }

  /** The source checks that the job is done, unlocks it, and deletes it afterwards. The
      delayed delete is right exactly when the job is still there and done by then. */
  lemma DeleteFinishSafeIff(maxFiles: nat, st: State, id: SourceId)
    requires Inv(maxFiles, st) && !st.fatal && id in st.deleting
    ensures Inv(maxFiles, Apply(maxFiles, st, DeleteFinish(id))) <==> id in st.jobs && st.jobs[id].isDone
  {
    var mid := st.(deleting := st.deleting - {id});
    var st' := Apply(maxFiles, st, DeleteFinish(id));
    assert DoneSet(mid) == DoneSet(st);
    forall x
      ensures Active(mid, x) <==> Active(st, x)
    {
      assert IsHeld(mid, x) <==> IsHeld(st, x);
    }
    if id !in st.jobs {
      assert st'.jobs == st.jobs && DoneSet(st') == DoneSet(st);
    } else if st.jobs[id].isDone {
      RemoveDone(maxFiles, mid, id);
    } else {
      assert Active(st, id);
      assert IsHeld(st', id) <==> IsHeld(st, id);
      assert Active(st', id) && id !in st'.jobs;
    }
  }

  /** A resume in between makes the delayed delete fire the counter's panic. */
  lemma DeleteRacePanics() returns (steps: seq<Step>)
    ensures ValidRun(1, steps) && Exec(1, steps).panicked
  {
    var st := START;
    steps := [];
    steps, st := Next(1, steps, st, AddJob(7));
    assert st == State(map[7 := Job(false, true)], 0, {7}, [], map[], {}, false, false);
    steps, st := Next(1, steps, st, Send(7));
    assert st.queue == [7];
    steps, st := Next(1, steps, st, Take(0));
    steps, st := Next(1, steps, st, DoneJob(0));
    assert st.jobsDone == 1 && st.jobs[7].isDone;
    steps, st := Next(1, steps, st, DeleteCheck(7));
    steps, st := Next(1, steps, st, Resume(7));
    assert st.jobsDone == 0;
    steps, st := Next(1, steps, st, DeleteFinish(7));
  }

  lemma Next(maxFiles: nat, steps: seq<Step>, st: State, step: Step) returns (steps': seq<Step>, st': State)
    requires ValidRun(maxFiles, steps) && Exec(maxFiles, steps) == st && Enabled(maxFiles, st, step)
    ensures steps' == steps + [step] && ValidRun(maxFiles, steps') && Exec(maxFiles, steps') == st'
    ensures st' == Apply(maxFiles, st, step)
  {
    steps', st' := steps + [step], Apply(maxFiles, st, step);
    assert steps'[..|steps'| - 1] == steps;
  }

  // ------------------------------------------------------------- the provider

  /** The job provider as an object; `sending`, `held` and `deleting` are in the hands of
      the goroutines that call it. */
  class Provider {
    const maxFiles: nat
    var jobs: map<SourceId, Job>
    var jobsDone: int
    var jobsChan: seq<SourceId>
    var fatal: bool
    var panicked: bool
    ghost var sending: set<SourceId>
    ghost var held: map<WorkerId, SourceId>
    ghost var deleting: set<SourceId>

    ghost function Value(): State
      reads this
    {
      State(jobs, jobsDone, sending, jobsChan, held, deleting, fatal, panicked)
    }

    constructor (maxFiles: nat)
      ensures this.maxFiles == maxFiles && Value() == START
    {
      this.maxFiles := maxFiles;
      jobs, jobsDone, jobsChan, fatal, panicked := map[], 0, [], false, false;
      sending, held, deleting := {}, map[], {};
    }

    method TryResume(id: SourceId) returns (send: bool)
      requires id in jobs
      modifies this
      ensures Value() == ResumeJob(old(Value()), id)
      ensures send == old(jobs[id].isDone)
      ensures panicked == (old(panicked) || (send && jobsDone < 0))
    {
      if !jobs[id].isDone {
        return false;
      }
      jobs := jobs[id := jobs[id].(isDone := false)];
      jobsDone := jobsDone - 1;
      if jobsDone < 0 {
        panicked := true;
      }
      sending := sending + {id};
      return true;
    }

    method Add(id: SourceId) returns (send: bool)
      requires Enabled(maxFiles, Value(), AddJob(id))
      modifies this
      ensures Value() == Apply(maxFiles, old(Value()), AddJob(id))
      ensures send <==> id !in old(jobs) && !fatal
      ensures send ==> id in jobs && !jobs[id].isDone && id in sending
    {
      if id in jobs {
        return false;
      }
      jobs := jobs[id := Job(true, true)];
      if |jobs| > maxFiles {
        fatal := true;
        return false;
      }
      jobsDone := jobsDone + 1;
      send := TryResume(id);
    }

    method SendJob(id: SourceId)
      requires Enabled(maxFiles, Value(), Send(id))
      modifies this
      ensures Value() == Apply(maxFiles, old(Value()), Send(id))
    {
      jobsChan := jobsChan + [id];
      sending := sending - {id};
    }

    method Receive(ghost w: WorkerId) returns (id: SourceId)
      requires Enabled(maxFiles, Value(), Take(w))
      modifies this
      ensures Value() == Apply(maxFiles, old(Value()), Take(w)) && held[w] == id
      ensures panicked == (old(panicked) || id !in jobs || jobs[id].isDone)
    {
      id := jobsChan[0];
      jobsChan := jobsChan[1..];
      if id !in jobs || jobs[id].isDone {
        panicked := true;
      }
      held := held[w := id];
    }

    method Done(id: SourceId, ghost w: WorkerId)
      requires Enabled(maxFiles, Value(), DoneJob(w)) && held[w] == id
      modifies this
      ensures Value() == Apply(maxFiles, old(Value()), DoneJob(w))
      ensures panicked == (old(panicked) || old(jobs[id].isDone) || jobsDone > |jobs|)
    {
      if jobs[id].isDone {
        panicked := true;
      }
      jobs := jobs[id := Job(true, false)];
      jobsDone := jobsDone + 1;
      if jobsDone > |jobs| {
        panicked := true;
      }
      held := held - {w};
    }

    /** `deleteJobAndUnlock` with nobody in between; a job that is not done is a panic. */
    method DeleteJob(id: SourceId)
      requires id in jobs
      modifies this
      ensures Value() == if old(jobs[id].isDone) then Remove(old(Value()), id) else old(Value()).(panicked := true)
      ensures panicked == (old(panicked) || !old(jobs[id].isDone) || jobsDone < 0)
    {
      if !jobs[id].isDone {
        panicked := true;
        return;
      }
      jobs := jobs - {id};
      jobsDone := jobsDone - 1;
      if jobsDone < 0 {
        panicked := true;
      }
    }

    /** The maintenance of one job whose file is gone: it deletes only a job that is done, and so
        never comes to that panic. */
    method MaintainJob(id: SourceId) returns (deleted: bool)
      requires Enabled(maxFiles, Value(), Delete(id))
      modifies this
      ensures Value() == Apply(maxFiles, old(Value()), Delete(id)) && deleted == old(jobs[id].isDone)
    {
      if !jobs[id].isDone {
        return false;
      }
      DeleteJob(id);
      return true;
    }
  }
}
