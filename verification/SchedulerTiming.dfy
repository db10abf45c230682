/** When a job fires again: what a settled fire leaves in its row, and that over any run no job is claimed before its
    time, so that claims of an interval job lie at least its interval apart. */
module SchedulerTiming {
  import opened Messages
  import opened CronRepository
  import opened SchedulerProtocol
  import opened SchedulerRuns

  // ---- What a settled fire leaves ----

  /** Whether a success of the job at `now` is followed by another run, and when. */
  predicate RunsAgainAt(c: Config, row: CronJob, now: int, next: int) {
    && (row.maxRuns.Some? ==> row.runCount + 1 < row.maxRuns.value)
    && ((row.mode.Interval? && row.intervalSeconds.Some? && next == now + row.intervalSeconds.value)
        || (row.mode.Cron? && row.cronExpression.Some? && row.cronExpression.value != ""
            && next == c.nextCron(row.cronExpression.value, now)))
  }

  /** A success counts one run, clears claim and failures, and keeps an active job exactly when it runs again: an interval
      job its interval after the success, a cron job at the next time of its expression. */
  lemma SuccessReschedules(c: Config, s: State, task: nat, now: int)
    requires Inv(c, s) && IsRunning(s, task) && s.fires[task].job.jobId in s.rows
    ensures var id, s' := s.fires[task].job.jobId, Apply(c, s, Succeed(task, now));
      var row, after := s.rows[id], s'.rows[id];
      && after == row.(runCount := row.runCount + 1, lastFiredAt := Some(now), claimedAt := None, failureCount := 0,
                       lastError := None, nextFireAt := after.nextFireAt, isActive := after.isActive)
      && (after.isActive <==> row.isActive && exists next :: RunsAgainAt(c, row, now, next))
      && (after.isActive ==> RunsAgainAt(c, row, now, after.nextFireAt))
      && s'.fires == s.fires - {task} && s'.rows == s.rows[id := after]
  {
    var row := s.rows[s.fires[task].job.jobId];
    assert Unsettled(s, task) && SnapshotAgrees(s, task);
    var next := ComputeNextFire(c, s.fires[task].job, now);
    assert next.Some? ==> RunsAgainAt(c, row, now, next.value);
  }

  /** A failure counts, clears the claim and keeps the error; an active job is tried again after the retry delay unless
      it has now failed as often as allowed. */
  lemma FailureDelays(c: Config, s: State, task: nat, now: int, error: string, notify: bool)
    requires Inv(c, s) && IsRunning(s, task) && s.fires[task].job.jobId in s.rows
    ensures var id, s' := s.fires[task].job.jobId, Apply(c, s, Fail(task, now, error, notify));
      var row, after := s.rows[id], s'.rows[id];
      && after == row.(claimedAt := None, failureCount := row.failureCount + 1, lastError := Some(error),
                       nextFireAt := now + c.failureRetrySeconds, isActive := after.isActive)
      && (after.isActive <==> row.isActive && row.failureCount + 1 < c.maxConsecutiveFailures)
      && s'.rows == s.rows[id := after]
      && (task in s'.fires <==> notify) && s'.fires - {task} == s.fires - {task}
  {
    assert Unsettled(s, task) && SnapshotAgrees(s, task);
  }

  /** A fire that was sending its error message is gone once it has, and nothing else changes; a dispatch turns every
      claimed job into a running fire. */
  lemma FireProgress(c: Config, s: State, step: Step)
    requires Enabled(c, s, step)
    ensures step.Notified? ==> Apply(c, s, step) == s.(fires := s.fires - {step.task})
    ensures step.Dispatch? ==>
      var s' := Apply(c, s, step);
      && s'.rows == s.rows && s'.fires.Keys == s.fires.Keys && s'.poll.Idle?
      && (forall k :: k in s.fires ==> s'.fires[k].job == s.fires[k].job)
      && (forall k :: k in s.fires ==>
            s'.fires[k].phase == if s.fires[k].phase.Taken? then SchedulerProtocol.Running else s.fires[k].phase)
  {
  }

  // ---- No job is claimed before its time ----

  predicate ClaimsJob(step: Step, id: string) {
    step.Claim? && exists i :: 0 <= i < |step.jobs| && step.jobs[i].jobId == id
  }

  /** The job's row, if it has one left, keeps its time; it is not claimed. */
  ghost predicate WaitsUntil(s: State, id: string, due: int) {
    id in s.issued
    && (id in s.rows ==> s.rows[id].claimedAt.None? && (s.rows[id].isActive ==> s.rows[id].nextFireAt == due))
    && forall k :: Unsettled(s, k) ==> s.fires[k].job.jobId != id
  }

  lemma WaitingStep(c: Config, s: State, step: Step, id: string, due: int)
    requires Inv(c, s) && Enabled(c, s, step) && WaitsUntil(s, id, due)
    requires step.Update? ==> step.id != id
    requires !ClaimsJob(step, id)
    ensures WaitsUntil(Apply(c, s, step), id, due)
  {
    if step.Claim? {
      AfterClaim(c, s, step.now, step.jobs);
      assert id !in JobIds(step.jobs);
    }
  }

  predicate LeavesAlone(steps: seq<Step>, id: string) {
    forall k :: 0 <= k < |steps| ==> !ClaimsJob(steps[k], id) && (steps[k].Update? ==> steps[k].id != id)
  }

  lemma {:induction false} WaitingRun(c: Config, s: State, steps: seq<Step>, id: string, due: int)
    requires Inv(c, s) && CanRun(c, s, steps) && WaitsUntil(s, id, due) && LeavesAlone(steps, id)
    ensures Inv(c, Exec(c, s, steps)) && WaitsUntil(Exec(c, s, steps), id, due)
    decreases |steps|
  {
    if steps != [] {
      StepKeepsInv(c, s, steps[0]);
      WaitingStep(c, s, steps[0], id, due);
      WaitingRun(c, Apply(c, s, steps[0]), steps[1..], id, due);
    }
  }

  lemma ClaimIsDue(c: Config, s: State, claim: Step, id: string, due: int)
    requires Enabled(c, s, claim) && ClaimsJob(claim, id) && WaitsUntil(s, id, due)
    ensures claim.now >= due
  {
    var i :| 0 <= i < |claim.jobs| && claim.jobs[i].jobId == id;
    assert SelectedAt(s.rows, claim.now, claim.jobs, i);
  }

  /** The time at which the settled job may run again. */
  predicate DueAfter(c: Config, row: CronJob, settle: Step, due: int) {
    match settle
    case Succeed(_, now) => RunsAgainAt(c, row, now, due)
    case Fail(_, now, _, _) => due == now + c.failureRetrySeconds
    case _ => false
  }

  lemma SettledWaits(c: Config, s: State, task: nat, settle: Step) returns (due: int)
    requires Inv(c, s) && IsRunning(s, task) && Enabled(c, s, settle)
    requires (settle.Succeed? || settle.Fail?) && settle.task == task
    ensures var id, s' := s.fires[task].job.jobId, Apply(c, s, settle);
      && WaitsUntil(s', id, due)
      && (id in s'.rows && s'.rows[id].isActive ==> id in s.rows && DueAfter(c, s.rows[id], settle, due))
  {
    var id, s' := s.fires[task].job.jobId, Apply(c, s, settle);
    due := if id in s'.rows then s'.rows[id].nextFireAt else 0;
    assert FireOk(s, task) && Unsettled(s, task);
    forall k | Unsettled(s', k) ensures s'.fires[k].job.jobId != id {
      assert SchedulerProtocol.Distinct(s, k, task);
    }
    if id in s.rows {
      if settle.Succeed? {
        SuccessReschedules(c, s, task, settle.now);
      } else {
        FailureDelays(c, s, task, settle.now, settle.error, settle.notify);
      }
    }
  }

  /** A retired job stays out of the table or inactive, so that nothing claims it. */
  lemma RetiredIsNotClaimed(c: Config, s: State, steps: seq<Step>, claim: Step, id: string)
    requires Inv(c, s) && Retired(s, id) && CanRun(c, s, steps) && Enabled(c, Exec(c, s, steps), claim)
    ensures !ClaimsJob(claim, id)
  {
    RetiredForever(c, s, steps, id);
    RetiredStep(c, Exec(c, s, steps), claim, id);
  }

  /** Over any run: once a fire has been settled, and as long as no update touches the job, its next claim comes no earlier
      than the interval after the success, the next time of the cron expression, or the retry delay after the
      failure. Restarts, cancellations and other jobs may come between. */
  lemma NextClaimIsDue(c: Config, s: State, task: nat, settle: Step, steps: seq<Step>, claim: Step) returns (due: int)
    requires Inv(c, s) && IsRunning(s, task) && Enabled(c, s, settle)
    requires (settle.Succeed? || settle.Fail?) && settle.task == task
    requires CanRun(c, Apply(c, s, settle), steps) && LeavesAlone(steps, s.fires[task].job.jobId)
    requires Enabled(c, Exec(c, Apply(c, s, settle), steps), claim) && ClaimsJob(claim, s.fires[task].job.jobId)
    ensures var id := s.fires[task].job.jobId;
      id in s.rows && DueAfter(c, s.rows[id], settle, due) && claim.now >= due
  {
    var id, t := s.fires[task].job.jobId, Apply(c, s, settle);
    assert FireOk(s, task);
    StepKeepsInv(c, s, settle);
    due := SettledWaits(c, s, task, settle);
    if id !in t.rows || !t.rows[id].isActive {
      RetiredIsNotClaimed(c, t, steps, claim, id);
    } else {
      WaitingRun(c, t, steps, id, due);
      ClaimIsDue(c, Exec(c, t, steps), claim, id, due);
    }
  }

  // ---- Claims of an interval job are an interval apart ----

  /** The step neither updates the job, nor fails a fire of it, nor restarts the scheduler; and a success comes no
      earlier than `since`. */
  predicate Regular(s: State, step: Step, id: string, since: int) {
    match step
    case Update(i, _) => i != id
    case Fail(task, _, _, _) => task in s.fires && s.fires[task].job.jobId != id
    case Succeed(_, now) => now >= since
    case Restart(_) => false
    case _ => true
  }

  ghost predicate AllRegular(c: Config, s: State, steps: seq<Step>, id: string, since: int)
    requires CanRun(c, s, steps)
    decreases |steps|
  {
    steps == [] || (Regular(s, steps[0], id, since) && AllRegular(c, Apply(c, s, steps[0]), steps[1..], id, since))
  }

  /** The job is claimed, or will not fire before its interval has passed, or not at all. */
  predicate Spaced(s: State, id: string, interval: int, since: int) {
    id in s.issued
    && (id in s.rows && s.rows[id].isActive ==>
          && s.rows[id].mode.Interval? && s.rows[id].intervalSeconds == Some(interval)
          && (s.rows[id].claimedAt.None? ==> s.rows[id].nextFireAt >= since + interval))
  }

  lemma SpacedStep(c: Config, s: State, step: Step, id: string, interval: int, since: int)
    requires Inv(c, s) && Enabled(c, s, step) && Regular(s, step, id, since) && Spaced(s, id, interval, since)
    ensures Spaced(Apply(c, s, step), id, interval, since)
  {
    match step
    case Claim(now, jobs) => AfterClaim(c, s, now, jobs);
    case Succeed(task, now) =>
      if s.fires[task].job.jobId in s.rows {
        SuccessReschedules(c, s, task, now);
      }
    case _ =>
  }

  lemma {:induction false} SpacedRun(c: Config, s: State, steps: seq<Step>, id: string, interval: int, since: int)
    requires Inv(c, s) && CanRun(c, s, steps) && AllRegular(c, s, steps, id, since) && Spaced(s, id, interval, since)
    ensures Spaced(Exec(c, s, steps), id, interval, since)
    decreases |steps|
  {
    if steps != [] {
      StepKeepsInv(c, s, steps[0]);
      SpacedStep(c, s, steps[0], id, interval, since);
      SpacedRun(c, Apply(c, s, steps[0]), steps[1..], id, interval, since);
    }
  }

  /** Over any run without update or failure of the job and without a restart, and with a clock that does not go back behind the
      first claim: two claims of an interval job lie at least its interval apart. */
  lemma ClaimsAreSpaced(c: Config, s: State, first: Step, steps: seq<Step>, second: Step, id: string)
    requires Inv(c, s) && Enabled(c, s, first) && ClaimsJob(first, id)
    requires id in s.rows && s.rows[id].mode.Interval? && s.rows[id].intervalSeconds.Some?
    requires CanRun(c, Apply(c, s, first), steps) && AllRegular(c, Apply(c, s, first), steps, id, first.now)
    requires Enabled(c, Exec(c, Apply(c, s, first), steps), second) && ClaimsJob(second, id)
    ensures second.now >= first.now + s.rows[id].intervalSeconds.value
  {
    var interval, t := s.rows[id].intervalSeconds.value, Apply(c, s, first);
    assert RowOk(c, s, id);
    AfterClaim(c, s, first.now, first.jobs);
    assert id in JobIds(first.jobs);
    StepKeepsInv(c, s, first);
    SpacedRun(c, t, steps, id, interval, first.now);
    var i :| 0 <= i < |second.jobs| && second.jobs[i].jobId == id;
    assert SelectedAt(Exec(c, t, steps).rows, second.now, second.jobs, i);
  }

  // ---- Due jobs are claimed ----

  /** A claim with slots to spare takes every due job, and only due ones. */
  lemma DueIsClaimed(c: Config, s: State, now: int, jobs: seq<CronJob>, id: string)
    requires Enabled(c, s, Claim(now, jobs)) && |jobs| < s.poll.available
    requires Inv(c, s)
    ensures ClaimsJob(Claim(now, jobs), id) <==> id in s.rows && IsDue(s.rows[id], now)
  {
    if id in s.rows && IsDue(s.rows[id], now) {
      assert PassedOver(s.rows, now, s.poll.available, jobs, id);
      var job :| job in jobs && job.jobId == id;
      var i :| 0 <= i < |jobs| && jobs[i] == job;
    }
    if i :| 0 <= i < |jobs| && jobs[i].jobId == id {
      assert SelectedAt(s.rows, now, jobs, i) && RowOk(c, s, id);
    }
  }

  // ---- Dreaming ----

  ghost predicate StartsDreaming(c: Config, s: State, step: Step) {
    Enabled(c, s, step) && !s.dreaming && Apply(c, s, step).dreaming
  }

  /** Dreaming starts with a poll, when it is enabled and due, does not run yet and a slot is free; its next time is
      then its interval later. Enabled but never scheduled, it is scheduled an interval ahead. */
  lemma DreamingMeaning(c: Config, s: State, step: Step)
    requires Enabled(c, s, step)
    ensures StartsDreaming(c, s, step) <==>
      && step.PollBegin? && Available(c, s) > 0 && c.dreamingEnabled && !s.dreaming
      && s.dreamNextAt.Some? && s.dreamNextAt.value <= step.now
    ensures StartsDreaming(c, s, step) ==> Apply(c, s, step).dreamNextAt == Some(step.now + c.dreamingInterval)
    ensures step.PollBegin? && Available(c, s) > 0 && c.dreamingEnabled && !s.dreaming && s.dreamNextAt.None? ==>
      Apply(c, s, step).dreamNextAt == Some(step.now + c.dreamingInterval)
    ensures step.Restart? && c.dreamingEnabled ==> Apply(c, s, step).dreamNextAt == Some(step.now + c.dreamingInitialDelay)
  {
  }

  predicate NoRestart(steps: seq<Step>) {
    forall k :: 0 <= k < |steps| ==> !steps[k].Restart?
  }

  /** No run of dreaming starts among the steps. */
  ghost predicate NeverDreams(c: Config, s: State, steps: seq<Step>)
    requires CanRun(c, s, steps)
    decreases |steps|
  {
    steps == [] || (!StartsDreaming(c, s, steps[0]) && NeverDreams(c, Apply(c, s, steps[0]), steps[1..]))
  }

  lemma {:induction false} DreamTimeKept(c: Config, s: State, steps: seq<Step>, due: int)
    requires CanRun(c, s, steps) && NoRestart(steps) && NeverDreams(c, s, steps) && s.dreamNextAt == Some(due)
    ensures Exec(c, s, steps).dreamNextAt == Some(due)
    decreases |steps|
  {
    if steps != [] {
      DreamTimeKept(c, Apply(c, s, steps[0]), steps[1..], due);
    }
  }

  /** Over any run without a restart, two successive starts of dreaming lie at least its interval apart. */
  lemma DreamsAreSpaced(c: Config, s: State, first: Step, steps: seq<Step>, second: Step)
    requires StartsDreaming(c, s, first)
    requires CanRun(c, Apply(c, s, first), steps) && NoRestart(steps) && NeverDreams(c, Apply(c, s, first), steps)
    requires StartsDreaming(c, Exec(c, Apply(c, s, first), steps), second)
    ensures second.PollBegin? && first.PollBegin? && second.now >= first.now + c.dreamingInterval
  {
    DreamTimeKept(c, Apply(c, s, first), steps, first.now + c.dreamingInterval);
  }
}
