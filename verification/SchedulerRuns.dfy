/** What holds over whole runs of the scheduler: one fire per job in flight, limits on tasks and jobs,
    inactive jobs staying inactive, and a bound on the attempts a job can consume. */
module SchedulerRuns {
  import opened CronRepository
  import opened SchedulerProtocol

  ghost predicate CanRun(c: Config, s: State, steps: seq<Step>)
    decreases |steps|
  {
    steps == [] || (Enabled(c, s, steps[0]) && CanRun(c, Apply(c, s, steps[0]), steps[1..]))
  }

  ghost function Exec(c: Config, s: State, steps: seq<Step>): State
    requires CanRun(c, s, steps)
    decreases |steps|
  {
    if steps == [] then s else Exec(c, Apply(c, s, steps[0]), steps[1..])
  }

  lemma {:induction false} RunKeepsInv(c: Config, s: State, steps: seq<Step>)
    requires Inv(c, s) && CanRun(c, s, steps)
    ensures Inv(c, Exec(c, s, steps))
    decreases |steps|
  {
    if steps != [] {
      StepKeepsInv(c, s, steps[0]);
      RunKeepsInv(c, Apply(c, s, steps[0]), steps[1..]);
    }
  }

  /** Safety of every reachable state: no job has two unsettled fires, in-flight fires respect the limit,
      all tasks together exceed it by at most the dreaming task, no chat exceeds its quota, and no claimed
      row is left without a fire. */
  lemma ReachableIsSafe(c: Config, steps: seq<Step>)
    requires CanRun(c, INITIAL, steps)
    ensures var s := Exec(c, INITIAL, steps);
      && (forall k, l :: Unsettled(s, k) && Unsettled(s, l) && k != l ==> s.fires[k].job.jobId != s.fires[l].job.jobId)
      && |s.fires| <= AtLeastZero(c.maxConcurrentFires)
      && ActiveTasks(s) <= AtLeastZero(c.maxConcurrentFires) + 1
      && (forall session :: |ActiveJobs(s.rows, session)| <= AtLeastZero(c.maxJobsPerChat))
      && (forall id :: id in s.rows && s.rows[id].claimedAt.Some? ==>
            exists k :: Unsettled(s, k) && s.fires[k].job.jobId == id)
  {
    InitialInv(c);
    RunKeepsInv(c, INITIAL, steps);
    var s := Exec(c, INITIAL, steps);
    SubsetSize(Dispatched(s), s.fires.Keys);
    forall k, l | Unsettled(s, k) && Unsettled(s, l) && k != l ensures s.fires[k].job.jobId != s.fires[l].job.jobId {
      assert SchedulerProtocol.Distinct(s, k, l);
    }
    forall session ensures |ActiveJobs(s.rows, session)| <= AtLeastZero(c.maxJobsPerChat) {
      assert WithinQuota(c, s, session);
    }
    forall id | id in s.rows && s.rows[id].claimedAt.Some?
      ensures exists k :: Unsettled(s, k) && s.fires[k].job.jobId == id
    {
      assert ClaimBacked(s, id);
    }
  }

  // ---- Inactive jobs stay inactive ----

  /** The id was given out and its job is deleted or inactive. */
  predicate Retired(s: State, id: string) {
    id in s.issued && (id in s.rows ==> !s.rows[id].isActive)
  }

  lemma RetiredStep(c: Config, s: State, step: Step, id: string)
    requires Enabled(c, s, step) && Retired(s, id)
    ensures Retired(Apply(c, s, step), id)
    ensures step.Claim? ==> forall i :: 0 <= i < |step.jobs| ==> step.jobs[i].jobId != id
  {
    if step.Claim? {
      ClaimedFacts(s.rows, step.jobs, step.now);
      forall i | 0 <= i < |step.jobs| ensures step.jobs[i].jobId != id {
        assert SelectedAt(s.rows, step.now, step.jobs, i);
      }
    }
  }

  ghost predicate NeverClaimed(steps: seq<Step>, id: string) {
    forall k :: 0 <= k < |steps| && steps[k].Claim? ==>
      forall i :: 0 <= i < |steps[k].jobs| ==> steps[k].jobs[i].jobId != id
  }

  /** Whatever happens next, a retired job is never active and never claimed again. */
  lemma {:induction false} RetiredForever(c: Config, s: State, steps: seq<Step>, id: string)
    requires CanRun(c, s, steps) && Retired(s, id)
    ensures Retired(Exec(c, s, steps), id)
    ensures NeverClaimed(steps, id)
    decreases |steps|
  {
    if steps != [] {
      RetiredStep(c, s, steps[0], id);
      RetiredForever(c, Apply(c, s, steps[0]), steps[1..], id);
      assert forall k :: 1 <= k < |steps| ==> steps[k] == steps[1..][k - 1];
    }
  }

  // ---- The attempt bound ----

  /** A job that can only run finitely often. */
  predicate IsFinite(row: CronJob) {
    row.mode.Once? || row.maxRuns.Some?
  }

  /** The successes left. A maximum lowered below the runs already made still leaves one. */
  function RunsLeft(row: CronJob): nat
    requires IsFinite(row)
  {
    if row.mode.Once? || row.maxRuns.value <= row.runCount + 1 then 1 else row.maxRuns.value - row.runCount
  }

  /** The attempts left: every success still owed may be preceded by all but one allowed failures. */
  function AttemptsLeft(c: Config, row: CronJob): int
    requires IsFinite(row)
  {
    if row.isActive then RunsLeft(row) * FailureLimit(c) - row.failureCount else 0
  }

  /** The job a step settles, when its row is active at that point. */
  predicate SettlesActive(s: State, step: Step, id: string) {
    (step.Succeed? || step.Fail?) && step.task in s.fires && s.fires[step.task].job.jobId == id
    && id in s.rows && s.rows[id].isActive
  }

  lemma ActiveHasAttempts(c: Config, s: State, id: string)
    requires Inv(c, s) && id in s.rows && IsFinite(s.rows[id])
    ensures AttemptsLeft(c, s.rows[id]) >= 0
    ensures s.rows[id].isActive ==> AttemptsLeft(c, s.rows[id]) > 0
  {
    assert RowOk(c, s, id);
    MulAtLeast(RunsLeft(s.rows[id]), FailureLimit(c));
  }

  lemma MulAtLeast(n: nat, k: nat)
    requires n >= 1
    ensures n * k >= k
  {
    assert (n - 1) * k >= 0;
  }

  /** A recorded success ends the job or costs exactly the failures it makes up for and itself. */
  lemma SuccessCost(c: Config, s: State, task: nat, now: int)
    requires Inv(c, s) && IsRunning(s, task)
    requires var id := s.fires[task].job.jobId; id in s.rows && s.rows[id].isActive && IsFinite(s.rows[id])
    ensures var id := s.fires[task].job.jobId;
      var s' := Apply(c, s, Succeed(task, now));
      && id in s'.rows && IsFinite(s'.rows[id])
      && (RunsLeft(s.rows[id]) == 1 ==> !s'.rows[id].isActive)
      && (s'.rows[id].isActive ==>
            AttemptsLeft(c, s'.rows[id]) == AttemptsLeft(c, s.rows[id]) - (FailureLimit(c) - s.rows[id].failureCount))
  {
    var id := s.fires[task].job.jobId;
    assert Unsettled(s, task) && SnapshotAgrees(s, task) && RowOk(c, s, id);
    var left := RunsLeft(s.rows[id]);
    assert left * FailureLimit(c) == (left - 1) * FailureLimit(c) + FailureLimit(c);
  }

  /** A recorded failure ends the job or costs exactly one attempt. */
  lemma FailureCost(c: Config, s: State, task: nat, now: int, error: string, notify: bool)
    requires Inv(c, s) && IsRunning(s, task)
    requires var id := s.fires[task].job.jobId; id in s.rows && s.rows[id].isActive && IsFinite(s.rows[id])
    ensures var id := s.fires[task].job.jobId;
      var s' := Apply(c, s, Fail(task, now, error, notify));
      && id in s'.rows && IsFinite(s'.rows[id])
      && (s'.rows[id].isActive <==> s.rows[id].failureCount + 1 < FailureLimit(c))
      && (s'.rows[id].isActive ==> AttemptsLeft(c, s'.rows[id]) == AttemptsLeft(c, s.rows[id]) - 1)
  {
    var id := s.fires[task].job.jobId;
    assert Unsettled(s, task) && SnapshotAgrees(s, task) && RowOk(c, s, id);
  }

  /** Attempts left of a job that may be gone. */
  function AttemptsLeftAt(c: Config, s: State, id: string): int {
    if id in s.rows && IsFinite(s.rows[id]) then AttemptsLeft(c, s.rows[id]) else 0
  }

  ghost predicate FiniteAt(s: State, id: string) {
    id in s.issued && (id in s.rows ==> IsFinite(s.rows[id]))
  }

  /** A step other than an update of the job, or a settling of it, leaves the attempts alone or retires it. */
  lemma OtherStep(c: Config, s: State, step: Step, id: string)
    requires Inv(c, s) && Enabled(c, s, step) && FiniteAt(s, id)
    requires step.Update? ==> step.id != id
    requires !SettlesActive(s, step, id)
    ensures FiniteAt(Apply(c, s, step), id)
    ensures AttemptsLeftAt(c, Apply(c, s, step), id) == AttemptsLeftAt(c, s, id) || AttemptsLeftAt(c, Apply(c, s, step), id) == 0
  {
    assert RowOk(c, s, id);
    if step.Claim? {
      ClaimKeepsAttempts(c, s, step.now, step.jobs, id);
    }
  }

  lemma ClaimKeepsAttempts(c: Config, s: State, now: int, jobs: seq<CronJob>, id: string)
    requires Enabled(c, s, Claim(now, jobs))
    ensures FiniteAt(Apply(c, s, Claim(now, jobs)), id) <==> FiniteAt(s, id)
    ensures AttemptsLeftAt(c, Apply(c, s, Claim(now, jobs)), id) == AttemptsLeftAt(c, s, id)
  {
    ClaimedFacts(s.rows, jobs, now);
  }

  lemma AttemptStep(c: Config, s: State, step: Step, id: string)
    requires Inv(c, s) && Enabled(c, s, step) && FiniteAt(s, id)
    requires step.Update? ==> step.id != id
    ensures FiniteAt(Apply(c, s, step), id)
    ensures AttemptsLeftAt(c, Apply(c, s, step), id) + (if SettlesActive(s, step, id) then 1 else 0) <= AttemptsLeftAt(c, s, id)
  {
    if id in s.rows {
      ActiveHasAttempts(c, s, id);
      assert RowOk(c, s, id);
    }
    if !SettlesActive(s, step, id) {
      OtherStep(c, s, step, id);
    } else if step.Succeed? {
      SuccessCost(c, s, step.task, step.now);
    } else {
      FailureCost(c, s, step.task, step.now, step.error, step.notify);
    }
  }

  ghost predicate Unchanged(steps: seq<Step>, id: string) {
    forall k :: 0 <= k < |steps| ==> !(steps[k].Update? && steps[k].id == id)
  }

  /** How many fires of the job are settled while it is active. */
  ghost function Attempts(c: Config, s: State, steps: seq<Step>, id: string): nat
    requires CanRun(c, s, steps)
    decreases |steps|
  {
    if steps == [] then 0
    else (if SettlesActive(s, steps[0], id) then 1 else 0) + Attempts(c, Apply(c, s, steps[0]), steps[1..], id)
  }

  /** Between updates, the attempts made and the attempts left never exceed the attempts left before. */
  lemma {:induction false} AttemptBound(c: Config, s: State, steps: seq<Step>, id: string)
    requires Inv(c, s) && CanRun(c, s, steps) && FiniteAt(s, id) && Unchanged(steps, id)
    ensures Attempts(c, s, steps, id) + AttemptsLeftAt(c, Exec(c, s, steps), id) <= AttemptsLeftAt(c, s, id)
    ensures 0 <= AttemptsLeftAt(c, Exec(c, s, steps), id)
    decreases |steps|
  {
    if steps == [] {
      if id in s.rows {
        ActiveHasAttempts(c, s, id);
      }
    } else {
      StepKeepsInv(c, s, steps[0]);
      AttemptStep(c, s, steps[0], id);
      AttemptBound(c, Apply(c, s, steps[0]), steps[1..], id);
    }
  }

  /** A freshly created job with `maxRuns` m settles at most m times the failure limit while active, and a
      one-shot job at most the failure limit. */
  lemma CreatedJobBound(c: Config, s: State, job: CronJob, steps: seq<Step>)
    requires Inv(c, s) && Enabled(c, s, Create(job)) && IsFinite(job)
    requires var s' := Apply(c, s, Create(job)); CanRun(c, s', steps) && Unchanged(steps, job.jobId)
    ensures Attempts(c, Apply(c, s, Create(job)), steps, job.jobId)
         <= (if job.mode.Once? then 1 else job.maxRuns.value) * FailureLimit(c)
  {
    var s' := Apply(c, s, Create(job));
    StepKeepsInv(c, s, Create(job));
    assert RowOk(c, s, job.jobId);
    AttemptBound(c, s', steps, job.jobId);
    MulAtLeast(if job.mode.Once? then 1 else job.maxRuns.value, FailureLimit(c));
  }
}
