/** When a job runs more often than its maximum: exactly when an update lowers the maximum to the runs already made,
    or below. */
module SchedulerMaxRuns {
  import opened Messages
  import opened CronRepository
  import opened SchedulerProtocol
  import opened SchedulerRuns
  import opened SchedulerReach
  import SchedulerLimit

  /** The maximum leaves a run. */
  predicate RunLeft(row: CronJob) {
    row.maxRuns.Some? ==> row.runCount < row.maxRuns.value
  }

  predicate RowWithin(s: State, id: string) {
    id in s.rows ==>
      && (s.rows[id].maxRuns.Some? ==> s.rows[id].runCount <= s.rows[id].maxRuns.value)
      && (s.rows[id].isActive ==> RunLeft(s.rows[id]))
  }

  predicate FireWithin(s: State, k: nat) {
    Unsettled(s, k) && s.fires[k].job.jobId in s.rows ==> RunLeft(s.rows[s.fires[k].job.jobId])
  }

  /** No job has run more often than its maximum, and a job that is active or in flight still has a run left. */
  ghost predicate Within(s: State) {
    (forall id :: RowWithin(s, id)) && (forall k :: FireWithin(s, k))
  }

  /** The step is no update that takes effect with a maximum not above the runs already made. */
  predicate LeavesRun(s: State, step: Step) {
    step.Update? && CanUpdate(s.rows, step.id) ==> RunLeft(ChangedRow(s.rows[step.id], step.change))
  }

  ghost predicate AllLeaveRun(c: Config, s: State, steps: seq<Step>)
    requires CanRun(c, s, steps)
    decreases |steps|
  {
    steps == [] || (LeavesRun(s, steps[0]) && AllLeaveRun(c, Apply(c, s, steps[0]), steps[1..]))
  }

  // ---- Every step keeps within the maximum ----

  /** A step that changes one row at most, and adds no fire. */
  lemma RowStepWithin(s: State, s': State, id: string)
    requires Within(s)
    requires forall i :: i in s'.rows && i != id ==> i in s.rows && s'.rows[i] == s.rows[i]
    requires forall k :: Unsettled(s', k) ==> Unsettled(s, k) && s'.fires[k].job == s.fires[k].job
    requires RowWithin(s', id)
    requires forall k :: Unsettled(s', k) && s'.fires[k].job.jobId == id && id in s'.rows ==> RunLeft(s'.rows[id])
    ensures Within(s')
  {
    forall i ensures RowWithin(s', i) {
      assert RowWithin(s, i);
    }
    forall k ensures FireWithin(s', k) {
      assert FireWithin(s, k);
    }
  }

  lemma UpdateWithin(c: Config, s: State, id: string, change: Change)
    requires Inv(c, s) && Within(s) && Enabled(c, s, Update(id, change)) && LeavesRun(s, Update(id, change))
    ensures Within(Apply(c, s, Update(id, change)))
  {
    var s' := Apply(c, s, Update(id, change));
    assert RowWithin(s, id);
    forall k | Unsettled(s', k) && s'.fires[k].job.jobId == id && id in s'.rows ensures RunLeft(s'.rows[id]) {
      assert SnapshotAgrees(s, k) && FireWithin(s, k);
    }
    RowStepWithin(s, s', id);
  }

  lemma CreateWithin(c: Config, s: State, job: CronJob)
    requires Inv(c, s) && Within(s) && Enabled(c, s, Create(job))
    ensures Within(Apply(c, s, Create(job)))
  {
    var s' := Apply(c, s, Create(job));
    assert RowWithin(s, job.jobId) && RowOk(c, s, job.jobId);
    forall k ensures Unsettled(s', k) ==> s'.fires[k].job.jobId != job.jobId {
      assert FireOk(s, k);
    }
    RowStepWithin(s, s', job.jobId);
  }

  lemma CancelWithin(c: Config, s: State, id: string)
    requires Within(s)
    ensures Within(Apply(c, s, Cancel(id)))
  {
    assert RowWithin(s, id);
    forall k | Unsettled(s, k) && s.fires[k].job.jobId == id && id in s.rows ensures RunLeft(s.rows[id]) {
      assert FireWithin(s, k);
    }
    RowStepWithin(s, Apply(c, s, Cancel(id)), id);
  }

  /** The last run leaves the job inactive, and no fire of it is in flight any more. */
  lemma SucceedWithin(c: Config, s: State, task: nat, now: int)
    requires Inv(c, s) && Within(s) && IsRunning(s, task)
    ensures Within(Apply(c, s, Succeed(task, now)))
  {
    var s', id := Apply(c, s, Succeed(task, now)), s.fires[task].job.jobId;
    assert Unsettled(s, task) && FireWithin(s, task) && SnapshotAgrees(s, task) && RowWithin(s, id);
    forall k | Unsettled(s', k) ensures s'.fires[k].job.jobId != id {
      assert SchedulerProtocol.Distinct(s, k, task);
    }
    RowStepWithin(s, s', id);
  }

  lemma FailWithin(c: Config, s: State, task: nat, now: int, error: string, notify: bool)
    requires Inv(c, s) && Within(s) && IsRunning(s, task)
    ensures Within(Apply(c, s, Fail(task, now, error, notify)))
  {
    var s', id := Apply(c, s, Fail(task, now, error, notify)), s.fires[task].job.jobId;
    assert Unsettled(s, task) && RowWithin(s, id);
    forall k | Unsettled(s', k) ensures s'.fires[k].job.jobId != id {
      assert SchedulerProtocol.Distinct(s, k, task);
    }
    RowStepWithin(s, s', id);
  }

  lemma ClaimWithin(c: Config, s: State, now: int, jobs: seq<CronJob>)
    requires Inv(c, s) && Within(s) && Enabled(c, s, Claim(now, jobs))
    ensures Within(Apply(c, s, Claim(now, jobs)))
  {
    var s' := Apply(c, s, Claim(now, jobs));
    AfterClaim(c, s, now, jobs);
    forall i ensures RowWithin(s', i) {
      assert RowWithin(s, i);
    }
    forall k: nat ensures FireWithin(s', k) {
      if s.nextTask <= k < s.nextTask + |jobs| {
        assert SelectedAt(s.rows, now, jobs, k - s.nextTask);
        assert RowWithin(s, jobs[k - s.nextTask].jobId);
      } else {
        assert FireWithin(s, k);
      }
    }
  }

  /** Steps that touch no maximum and no run count, and start no fire. */
  lemma OtherWithin(c: Config, s: State, step: Step)
    requires Within(s) && Enabled(c, s, step)
    requires step.Delete? || step.PollBegin? || step.Dispatch? || step.Notified? || step.DreamDone? || step.Restart?
    ensures Within(Apply(c, s, step))
  {
    var s' := Apply(c, s, step);
    forall i ensures RowWithin(s', i) {
      assert RowWithin(s, i);
    }
    forall k ensures FireWithin(s', k) {
      assert FireWithin(s, k);
    }
  }

  lemma StepWithin(c: Config, s: State, step: Step)
    requires Inv(c, s) && Within(s) && Enabled(c, s, step) && LeavesRun(s, step)
    ensures Within(Apply(c, s, step))
  {
    match step
    case Create(job) => CreateWithin(c, s, job);
    case Update(id, change) => UpdateWithin(c, s, id, change);
    case Cancel(id) => CancelWithin(c, s, id);
    case Claim(now, jobs) => ClaimWithin(c, s, now, jobs);
    case Succeed(task, now) => SucceedWithin(c, s, task, now);
    case Fail(task, now, error, notify) => FailWithin(c, s, task, now, error, notify);
    case _ => OtherWithin(c, s, step);
  }

  lemma {:induction false} RunWithin(c: Config, s: State, steps: seq<Step>)
    requires Inv(c, s) && Within(s) && CanRun(c, s, steps) && AllLeaveRun(c, s, steps)
    ensures Inv(c, Exec(c, s, steps)) && Within(Exec(c, s, steps))
    decreases |steps|
  {
    if steps != [] {
      StepKeepsInv(c, s, steps[0]);
      StepWithin(c, s, steps[0]);
      RunWithin(c, Apply(c, s, steps[0]), steps[1..]);
    }
  }

  /** As long as no update lowers a maximum to the runs made, no job ever runs more often than its maximum. */
  lemma MaximumIsKept(c: Config, steps: seq<Step>)
    requires CanRun(c, INITIAL, steps) && AllLeaveRun(c, INITIAL, steps)
    ensures Within(Exec(c, INITIAL, steps))
  {
    InitialInv(c);
    forall k ensures FireWithin(INITIAL, k) {
    }
    RunWithin(c, INITIAL, steps);
  }

  // ---- What a lowered maximum leads to ----

  ghost predicate Overrun(s: State, id: string) {
    id in s.rows && s.rows[id].maxRuns.Some? && s.rows[id].runCount > s.rows[id].maxRuns.value
  }

  /** The state with all jobs but one deleted. */
  function OnlyJob(s: State, id: string): State
    requires id in s.rows
  {
    s.(rows := map[id := s.rows[id]])
  }

  lemma {:induction false} DeleteOthers(c: Config, s: State, id: string) returns (steps: seq<Step>)
    requires id in s.rows
    ensures CanRun(c, s, steps) && Exec(c, s, steps) == OnlyJob(s, id)
    ensures NoUpdates(steps)
    decreases |s.rows|
  {
    if other :| other in s.rows && other != id {
      var fewer := Apply(c, s, Delete(other));
      assert fewer.rows.Keys == s.rows.Keys - {other};
      assert |fewer.rows| == |fewer.rows.Keys| && |s.rows| == |s.rows.Keys|;
      var rest := DeleteOthers(c, fewer, id);
      steps := [Delete(other)] + rest;
      assert steps[1..] == rest;
    } else {
      steps := [];
      assert s.rows == map[id := s.rows[id]];
    }
  }

  predicate NoUpdates(steps: seq<Step>) {
    forall k :: 0 <= k < |steps| ==> !steps[k].Update?
  }

  lemma NoUpdatesAppend(a: seq<Step>, b: seq<Step>)
    requires NoUpdates(a) && NoUpdates(b)
    ensures NoUpdates(a + b)
  {
  }

  lemma {:induction false} NoUpdatesLeaveRun(c: Config, s: State, steps: seq<Step>)
    requires CanRun(c, s, steps) && NoUpdates(steps)
    ensures AllLeaveRun(c, s, steps)
    decreases |steps|
  {
    if steps != [] {
      NoUpdatesLeaveRun(c, Apply(c, s, steps[0]), steps[1..]);
    }
  }

  /** An active job that is alone fires, and the fire succeeds. */
  lemma OneMoreRun(c: Config, s: State, id: string) returns (steps: seq<Step>)
    requires Lone(c, s, id) && !s.dreaming
    ensures CanRun(c, s, steps) && NoUpdates(steps)
    ensures var t := Exec(c, s, steps);
      id in t.rows && t.rows[id].runCount == s.rows[id].runCount + 1 && t.rows[id].maxRuns == s.rows[id].maxRuns
  {
    FireOnce(c, s, id);
    assert RowOk(c, s, id);
    RunThen(c, s, FireSteps(s, id), Succeed(s.nextTask, 0));
    NoUpdatesAppend(FireSteps(s, id), [Succeed(s.nextTask, 0)]);
    steps := FireSteps(s, id) + [Succeed(s.nextTask, 0)];
  }

  /** An active job gets one more run, whatever its maximum: after a restart, say, and once it is its turn. */
  lemma ActiveJobRunsOnce(c: Config, s: State, id: string) returns (steps: seq<Step>)
    requires Inv(c, s) && c.maxConcurrentFires > 0 && id in s.rows && s.rows[id].isActive
    ensures CanRun(c, s, steps) && NoUpdates(steps)
    ensures var t := Exec(c, s, steps);
      id in t.rows && t.rows[id].runCount == s.rows[id].runCount + 1 && t.rows[id].maxRuns == s.rows[id].maxRuns
  {
    var restarted := Apply(c, s, Restart(0));
    var alone := OnlyJob(restarted, id);
    RunOne(c, s, Restart(0));
    var deletes := DeleteOthers(c, restarted, id);
    RunAppend(c, s, [Restart(0)], deletes);
    NoUpdatesAppend([Restart(0)], deletes);
    RunKeepsInv(c, s, [Restart(0)] + deletes);
    var run := OneMoreRun(c, alone, id);
    RunAppend(c, s, [Restart(0)] + deletes, run);
    NoUpdatesAppend([Restart(0)] + deletes, run);
    steps := ([Restart(0)] + deletes) + run;
  }

  ghost predicate LeadsToOverrun(c: Config, s: State, id: string, steps: seq<Step>) {
    CanRun(c, s, steps) && NoUpdates(steps) && Overrun(Exec(c, s, steps), id)
  }

  /** From a state within the maxima, an update that takes effect can make its job run more often than its new maximum
      exactly when the new maximum is not above the runs already made. */
  lemma LoweredMaximumOverruns(c: Config, s: State, id: string, change: Change)
    requires Inv(c, s) && Within(s) && c.maxConcurrentFires > 0
    requires IsValidChange(change) && CanUpdate(s.rows, id) && change.maxRuns.Some?
    ensures (exists steps :: LeadsToOverrun(c, Apply(c, s, Update(id, change)), id, steps))
        <==> change.maxRuns.value <= s.rows[id].runCount
  {
    var updated := Apply(c, s, Update(id, change));
    StepKeepsInv(c, s, Update(id, change));
    if change.maxRuns.value <= s.rows[id].runCount {
      var steps := ActiveJobRunsOnce(c, updated, id);
      assert LeadsToOverrun(c, updated, id, steps);
    } else {
      StepWithin(c, s, Update(id, change));
      forall steps ensures !LeadsToOverrun(c, updated, id, steps) {
        NoOverrun(c, updated, id, steps);
      }
    }
  }

  lemma NoOverrun(c: Config, s: State, id: string, steps: seq<Step>)
    requires Inv(c, s) && Within(s)
    ensures !LeadsToOverrun(c, s, id, steps)
  {
    if CanRun(c, s, steps) && NoUpdates(steps) {
      NoUpdatesLeaveRun(c, s, steps);
      RunWithin(c, s, steps);
      assert RowWithin(Exec(c, s, steps), id);
    }
  }

  // ---- Which configurations overrun ----

  const JOB := "j"

  /** A job that fires every second, twice. */
  function TwiceJob(): CronJob {
    CronJob(JOB, JOB, "reminder", Interval, None, Some(1), None, Some(2), 0, true, 0, 1, None, None, 0, None)
  }

  function ToOneRun(): Change {
    Change("reminder", Interval, None, Some(1), None, Some(1), 2)
  }

  function CreatedState(): State {
    INITIAL.(rows := map[JOB := TwiceJob()], issued := {JOB})
  }

  lemma CreateTwice(c: Config)
    requires c.maxConcurrentFires > 0 && c.maxJobsPerChat > 0
    ensures Enabled(c, INITIAL, Create(TwiceJob())) && Apply(c, INITIAL, Create(TwiceJob())) == CreatedState()
    ensures Lone(c, CreatedState(), JOB)
  {
    assert ActiveJobs(INITIAL.rows, JOB) == {};
    InitialInv(c);
    StepKeepsInv(c, INITIAL, Create(TwiceJob()));
  }

  /** Once created the job fires and succeeds; it may run again. */
  lemma RunsTheFirstTime(c: Config) returns (steps: seq<Step>)
    requires Lone(c, CreatedState(), JOB)
    ensures CanRun(c, CreatedState(), steps)
    ensures var s := Exec(c, CreatedState(), steps);
      CanUpdate(s.rows, JOB) && s.rows[JOB].runCount == 1
  {
    var s := CreatedState();
    FireOnce(c, s, JOB);
    RunThen(c, s, FireSteps(s, JOB), Succeed(s.nextTask, 0));
    steps := FireSteps(s, JOB) + [Succeed(s.nextTask, 0)];
  }

  lemma RanOnce(c: Config) returns (steps: seq<Step>)
    requires c.maxConcurrentFires > 0 && c.maxJobsPerChat > 0
    ensures CanRun(c, INITIAL, steps)
    ensures var s := Exec(c, INITIAL, steps);
      Inv(c, s) && CanUpdate(s.rows, JOB) && s.rows[JOB].runCount == 1
  {
    CreateTwice(c);
    var run := RunsTheFirstTime(c);
    RunOne(c, INITIAL, Create(TwiceJob()));
    RunAppend(c, INITIAL, [Create(TwiceJob())], run);
    steps := [Create(TwiceJob())] + run;
    InitialInv(c);
    RunKeepsInv(c, INITIAL, steps);
  }

  /** It is created with a maximum of two and runs once, its maximum is lowered to one, and it runs again. */
  lemma SomeRunOverruns(c: Config) returns (steps: seq<Step>)
    requires c.maxConcurrentFires > 0 && c.maxJobsPerChat > 0
    ensures CanRun(c, INITIAL, steps) && Overrun(Exec(c, INITIAL, steps), JOB)
  {
    steps := RanOnce(c);
    var ran := Exec(c, INITIAL, steps);
    var lowered := Apply(c, ran, Update(JOB, ToOneRun()));
    StepKeepsInv(c, ran, Update(JOB, ToOneRun()));
    RunThen(c, INITIAL, steps, Update(JOB, ToOneRun()));
    var more := ActiveJobRunsOnce(c, lowered, JOB);
    RunAppend(c, INITIAL, steps + [Update(JOB, ToOneRun())], more);
    steps := (steps + [Update(JOB, ToOneRun())]) + more;
  }

  ghost predicate NothingRan(s: State) {
    s.fires == map[] && forall id :: id in s.rows ==> s.rows[id].runCount == 0
  }

  /** Without room for a fire nothing is ever claimed. */
  lemma {:induction false} NothingRuns(c: Config, s: State, steps: seq<Step>)
    requires c.maxConcurrentFires <= 0 && Inv(c, s) && NothingRan(s) && CanRun(c, s, steps)
    ensures NothingRan(Exec(c, s, steps))
    decreases |steps|
  {
    if steps != [] {
      var step := steps[0];
      StepKeepsInv(c, s, step);
      if step.Claim? {
        assert step.jobs == [];
        AfterClaim(c, s, step.now, step.jobs);
      }
      NothingRuns(c, Apply(c, s, step), steps[1..]);
    }
  }

  ghost predicate RunOverruns(c: Config, steps: seq<Step>, id: string) {
    CanRun(c, INITIAL, steps) && Overrun(Exec(c, INITIAL, steps), id)
  }

  /** Some run lets a job run more often than its maximum exactly when limit and quota allow a fire at all. */
  lemma MaximumCanBeOverrun(c: Config)
    ensures (exists steps, id :: RunOverruns(c, steps, id)) <==> c.maxConcurrentFires > 0 && c.maxJobsPerChat > 0
  {
    if steps, id :| RunOverruns(c, steps, id) {
      InitialInv(c);
      RunKeepsInv(c, INITIAL, steps);
      assert RowOk(c, Exec(c, INITIAL, steps), id);
      SchedulerLimit.ConfiguredRun(c, INITIAL, steps);
      if c.maxConcurrentFires <= 0 {
        NothingRuns(c, INITIAL, steps);
      }
    }
    if c.maxConcurrentFires > 0 && c.maxJobsPerChat > 0 {
      var steps := SomeRunOverruns(c);
      assert RunOverruns(c, steps, JOB);
    }
  }
}
