/** Runs put together from steps, and a lone job that makes every attempt it has left, which shows that the bound
    on attempts is reached. */
module SchedulerReach {
  import opened CronRepository
  import opened SchedulerProtocol
  import opened SchedulerRuns

  // ---- Putting runs together ----

  lemma {:induction false} RunAppend(c: Config, s: State, a: seq<Step>, b: seq<Step>)
    requires CanRun(c, s, a) && CanRun(c, Exec(c, s, a), b)
    ensures CanRun(c, s, a + b) && Exec(c, s, a + b) == Exec(c, Exec(c, s, a), b)
    decreases |a|
  {
    if a == [] {
      assert a + b == b;
    } else {
      assert (a + b)[0] == a[0] && (a + b)[1..] == a[1..] + b;
      RunAppend(c, Apply(c, s, a[0]), a[1..], b);
    }
  }

  lemma RunOne(c: Config, s: State, step: Step)
    requires Enabled(c, s, step)
    ensures CanRun(c, s, [step]) && Exec(c, s, [step]) == Apply(c, s, step)
  {
    assert [step][1..] == [];
    assert CanRun(c, Apply(c, s, step), []);
  }

  lemma RunThen(c: Config, s: State, steps: seq<Step>, step: Step)
    requires CanRun(c, s, steps) && Enabled(c, Exec(c, s, steps), step)
    ensures CanRun(c, s, steps + [step]) && Exec(c, s, steps + [step]) == Apply(c, Exec(c, s, steps), step)
  {
    RunOne(c, Exec(c, s, steps), step);
    RunAppend(c, s, steps, [step]);
  }

  // ---- Firing a lone job ----

  /** The only job waits to fire, and nothing is in flight. */
  ghost predicate Lone(c: Config, s: State, id: string) {
    && Inv(c, s) && s.poll.Idle? && s.fires == map[] && c.maxConcurrentFires > 0
    && s.rows.Keys == {id} && s.rows[id].isActive && s.rows[id].claimedAt.None?
  }

  /** The state once the job has been claimed and its fire dispatched. */
  ghost function FiredState(c: Config, s: State, id: string): State
    requires Lone(c, s, id)
  {
    var job := s.rows[id];
    DreamIfDue(c, s, job.nextFireAt).(
      rows := map[id := ClaimedRow(job, job.nextFireAt)], fires := map[s.nextTask := Fire(job, SchedulerProtocol.Running)],
      nextTask := s.nextTask + 1)
  }

  ghost function PolledState(c: Config, s: State, id: string): State
    requires Lone(c, s, id)
  {
    DreamIfDue(c, s, s.rows[id].nextFireAt).(poll := Claiming(c.maxConcurrentFires))
  }

  ghost function TakenState(c: Config, s: State, id: string): State
    requires Lone(c, s, id)
  {
    FiredState(c, s, id).(poll := Dispatching, fires := map[s.nextTask := Fire(s.rows[id], Taken)])
  }

  lemma PollOnce(c: Config, s: State, id: string)
    requires Lone(c, s, id) && !s.dreaming
    ensures var now := s.rows[id].nextFireAt;
      Enabled(c, s, PollBegin(now)) && Apply(c, s, PollBegin(now)) == PolledState(c, s, id)
  {
    assert Dispatched(s) == {};
  }

  lemma ClaimOnce(c: Config, s: State, id: string)
    requires Lone(c, s, id)
    ensures var now, job := s.rows[id].nextFireAt, s.rows[id];
      && Enabled(c, PolledState(c, s, id), Claim(now, [job]))
      && Apply(c, PolledState(c, s, id), Claim(now, [job])) == TakenState(c, s, id)
  {
    var now, job := s.rows[id].nextFireAt, s.rows[id];
    assert RowOk(c, s, id);
    assert JobIds([job]) == {id};
    assert SelectedAt(s.rows, now, [job], 0);
    ClaimedFacts(s.rows, [job], now);
    assert [job][..0] == [];
    assert AddFires(map[], s.nextTask, []) == map[];
    assert AddFires(map[], s.nextTask, [job]) == map[s.nextTask := Fire(job, Taken)];
    assert Claimed(s.rows, [job], now) == map[id := ClaimedRow(job, now)];
  }

  lemma DispatchOnce(c: Config, s: State, id: string)
    requires Lone(c, s, id)
    ensures Enabled(c, TakenState(c, s, id), Dispatch) && Apply(c, TakenState(c, s, id), Dispatch) == FiredState(c, s, id)
  {
    assert Apply(c, TakenState(c, s, id), Dispatch).fires == FiredState(c, s, id).fires;
  }

  /** A poll round that fires the job. */
  ghost function FireSteps(s: State, id: string): seq<Step>
    requires id in s.rows
  {
    [PollBegin(s.rows[id].nextFireAt), Claim(s.rows[id].nextFireAt, [s.rows[id]]), Dispatch]
  }

  lemma FireOnce(c: Config, s: State, id: string)
    requires Lone(c, s, id) && !s.dreaming
    ensures CanRun(c, s, FireSteps(s, id)) && Exec(c, s, FireSteps(s, id)) == FiredState(c, s, id)
    ensures Inv(c, FiredState(c, s, id))
  {
    var now, job := s.rows[id].nextFireAt, s.rows[id];
    PollOnce(c, s, id);
    ClaimOnce(c, s, id);
    DispatchOnce(c, s, id);
    RunOne(c, s, PollBegin(now));
    RunThen(c, s, [PollBegin(now)], Claim(now, [job]));
    RunThen(c, s, [PollBegin(now)] + [Claim(now, [job])], Dispatch);
    assert FireSteps(s, id) == ([PollBegin(now)] + [Claim(now, [job])]) + [Dispatch];
    RunKeepsInv(c, s, FireSteps(s, id));
  }

  // ---- The attempt bound is reached ----

  lemma {:induction false} AttemptsAppend(c: Config, s: State, a: seq<Step>, b: seq<Step>, id: string)
    requires CanRun(c, s, a) && CanRun(c, Exec(c, s, a), b)
    ensures CanRun(c, s, a + b)
    ensures Attempts(c, s, a + b, id) == Attempts(c, s, a, id) + Attempts(c, Exec(c, s, a), b, id)
    decreases |a|
  {
    RunAppend(c, s, a, b);
    if a == [] {
      assert a + b == b;
    } else {
      assert (a + b)[0] == a[0] && (a + b)[1..] == a[1..] + b;
      AttemptsAppend(c, Apply(c, s, a[0]), a[1..], b, id);
    }
  }

  predicate SettlesNothing(steps: seq<Step>) {
    forall k :: 0 <= k < |steps| ==> !steps[k].Succeed? && !steps[k].Fail?
  }

  lemma {:induction false} NoAttempts(c: Config, s: State, steps: seq<Step>, id: string)
    requires CanRun(c, s, steps) && SettlesNothing(steps)
    ensures Attempts(c, s, steps, id) == 0
    decreases |steps|
  {
    if steps != [] {
      NoAttempts(c, Apply(c, s, steps[0]), steps[1..], id);
    }
  }

  lemma UnchangedAppend(a: seq<Step>, b: seq<Step>, id: string)
    requires Unchanged(a, id) && Unchanged(b, id)
    ensures Unchanged(a + b, id)
  {
  }

  /** The job has what its mode needs to be scheduled again. */
  predicate Schedulable(job: CronJob) {
    (job.mode.Interval? ==> job.intervalSeconds.Some?)
    && (job.mode.Cron? ==> job.cronExpression.Some? && job.cronExpression.value != "")
  }

  ghost predicate Quiet(c: Config, s: State, id: string) {
    Lone(c, s, id) && IsFinite(s.rows[id]) && Schedulable(s.rows[id])
  }

  /** A failure as long as one is allowed, else a success. */
  function NextSettle(c: Config, s: State, id: string): Step
    requires id in s.rows
  {
    if s.rows[id].failureCount + 1 < FailureLimit(c) then Fail(s.nextTask, 0, "", false) else Succeed(s.nextTask, 0)
  }

  ghost function Settled(c: Config, s: State, id: string): State
    requires Lone(c, s, id)
  {
    Apply(c, FiredState(c, s, id), NextSettle(c, s, id))
  }

  lemma SettledShape(c: Config, s: State, id: string)
    requires Quiet(c, s, id) && !s.dreaming
    ensures var t := Settled(c, s, id);
      && Inv(c, t) && t.poll.Idle? && t.fires == map[] && t.rows.Keys == {id}
      && t.rows[id].claimedAt.None? && IsFinite(t.rows[id]) && Schedulable(t.rows[id])
  {
    FireOnce(c, s, id);
    assert RowOk(c, s, id);
    StepKeepsInv(c, FiredState(c, s, id), NextSettle(c, s, id));
  }

  /** One attempt costs one, and leaves the lone job quiet again, or done. */
  lemma AttemptOnce(c: Config, s: State, id: string)
    requires Quiet(c, s, id) && !s.dreaming
    ensures id in Settled(c, s, id).rows
    ensures AttemptsLeftAt(c, Settled(c, s, id), id) == AttemptsLeftAt(c, s, id) - 1
    ensures Settled(c, s, id).rows[id].isActive ==> Quiet(c, Settled(c, s, id), id)
  {
    SettledShape(c, s, id);
    AttemptCost(c, s, id);
  }

  lemma AttemptCost(c: Config, s: State, id: string)
    requires Quiet(c, s, id) && !s.dreaming
    ensures AttemptsLeftAt(c, Settled(c, s, id), id) == AttemptsLeftAt(c, s, id) - 1
  {
    var fired := FiredState(c, s, id);
    FireOnce(c, s, id);
    assert RowOk(c, s, id);
    assert AttemptsLeftAt(c, fired, id) == AttemptsLeftAt(c, s, id);
    if s.rows[id].failureCount + 1 < FailureLimit(c) {
      FailureCost(c, fired, s.nextTask, 0, "", false);
    } else {
      SuccessCost(c, fired, s.nextTask, 0);
      LastSuccess(c, fired, s.nextTask);
    }
  }

  /** A success of a schedulable job ends it exactly when it was the last run owed. */
  lemma LastSuccess(c: Config, s: State, task: nat)
    requires Inv(c, s) && IsRunning(s, task)
    requires var id := s.fires[task].job.jobId;
      id in s.rows && s.rows[id].isActive && IsFinite(s.rows[id]) && Schedulable(s.rows[id])
    ensures var id, s' := s.fires[task].job.jobId, Apply(c, s, Succeed(task, 0));
      id in s'.rows && (s'.rows[id].isActive <==> RunsLeft(s.rows[id]) > 1)
  {
    assert Unsettled(s, task) && SnapshotAgrees(s, task);
  }

  lemma AttemptSteps(c: Config, s: State, id: string, rest: seq<Step>) returns (steps: seq<Step>)
    requires Quiet(c, s, id) && !s.dreaming
    requires CanRun(c, Settled(c, s, id), rest) && Unchanged(rest, id)
    ensures CanRun(c, s, steps) && Unchanged(steps, id)
    ensures Attempts(c, s, steps, id) == 1 + Attempts(c, Settled(c, s, id), rest, id)
  {
    var fired, settle := FiredState(c, s, id), NextSettle(c, s, id);
    FireOnce(c, s, id);
    assert RowOk(c, s, id);
    var tail := [settle] + rest;
    assert tail[1..] == rest;
    assert SettlesActive(fired, settle, id);
    assert CanRun(c, fired, tail);
    NoAttempts(c, s, FireSteps(s, id), id);
    AttemptsAppend(c, s, FireSteps(s, id), tail, id);
    UnchangedAppend([settle], rest, id);
    UnchangedAppend(FireSteps(s, id), tail, id);
    steps := FireSteps(s, id) + tail;
  }

  /** The attempt bound is tight: some run of a lone job makes all the attempts it has left. */
  lemma {:induction false} AttemptBoundIsReached(c: Config, s: State, id: string) returns (steps: seq<Step>)
    requires Quiet(c, s, id)
    ensures CanRun(c, s, steps) && Unchanged(steps, id)
    ensures Attempts(c, s, steps, id) == AttemptsLeftAt(c, s, id)
    decreases AttemptsLeftAt(c, s, id), if s.dreaming then 1 else 0
  {
    assert RowOk(c, s, id);
    ActiveHasAttempts(c, s, id);
    if s.dreaming {
      var awake := Apply(c, s, DreamDone);
      StepKeepsInv(c, s, DreamDone);
      var rest := AttemptBoundIsReached(c, awake, id);
      steps := [DreamDone] + rest;
      assert steps[1..] == rest;
      UnchangedAppend([DreamDone], rest, id);
    } else {
      AttemptOnce(c, s, id);
      var rest: seq<Step> := [];
      if Settled(c, s, id).rows[id].isActive {
        rest := AttemptBoundIsReached(c, Settled(c, s, id), id);
      }
      steps := AttemptSteps(c, s, id, rest);
    }
  }

  /** So a created job with `maxRuns` m can settle exactly m times the failure limit while active, and a one-shot
      job exactly the failure limit, from the very first state on. */
  lemma CreatedJobReachesBound(c: Config, job: CronJob) returns (steps: seq<Step>)
    requires c.maxConcurrentFires > 0 && c.maxJobsPerChat > 0
    requires IsNewJob(job) && IsFinite(job) && Schedulable(job)
    ensures Enabled(c, INITIAL, Create(job)) && CanRun(c, Apply(c, INITIAL, Create(job)), steps) && Unchanged(steps, job.jobId)
    ensures Attempts(c, Apply(c, INITIAL, Create(job)), steps, job.jobId)
         == (if job.mode.Once? then 1 else job.maxRuns.value) * FailureLimit(c)
  {
    var s := Apply(c, INITIAL, Create(job));
    InitialInv(c);
    assert ActiveJobs(INITIAL.rows, job.sessionKey) == {};
    StepKeepsInv(c, INITIAL, Create(job));
    steps := AttemptBoundIsReached(c, s, job.jobId);
  }
}
