/** The scheduler service: validation of create and update requests, and the methods that carry out the
    steps of the claim protocol on the repository and the service's own task bookkeeping. */
module SchedulerService {
  import opened Messages
  import opened CronRepository
  import opened SchedulerProtocol

  datatype Error =
    | EmptyPrompt | PromptTooLong | BadMaxRuns | FireAtRequired | FireAtPast | BadInterval
    | CronRequired | BadCron | CronPast | CronTooFrequent
    | NotFound | Inactive | CurrentlyRunning | OverQuota

  datatype Result<+T> = Ok(value: T) | Err(error: Error)

  datatype CreateRequest = CreateRequest(
    sessionKey: string, prompt: string, mode: Mode, fireAt: Option<int>, intervalSeconds: Option<int>,
    cronExpression: Option<string>, maxRuns: Option<int>)

  /** Absent values keep what the job has. */
  datatype UpdateRequest = UpdateRequest(
    prompt: Option<string>, mode: Option<Mode>, fireAt: Option<int>, intervalSeconds: Option<int>,
    cronExpression: Option<string>, maxRuns: Option<int>)

  // ---- Validation ----

  function PromptError(c: Config, prompt: string): Option<Error> {
    if forall i :: 0 <= i < |prompt| ==> c.isSpace(prompt[i]) then Some(EmptyPrompt)
    else if |prompt| > c.maxPromptChars then Some(PromptTooLong)
    else None
  }

  function MaxRunsError(maxRuns: Option<int>): Option<Error> {
    if maxRuns.Some? && maxRuns.value <= 0 then Some(BadMaxRuns) else None
  }

  /** The first firing time of a schedule, or why it is refused. */
  function FirstFire(c: Config, mode: Mode, fireAt: Option<int>, interval: Option<int>, cron: Option<string>, now: int): Result<int> {
    match mode
    case Once =>
      if fireAt.None? then Err(FireAtRequired)
      else if fireAt.value <= now then Err(FireAtPast)
      else Ok(fireAt.value)
    case Interval =>
      if interval.None? || interval.value < c.minIntervalSeconds then Err(BadInterval) else Ok(now + interval.value)
    case Cron =>
      if cron.None? || cron.value == "" then Err(CronRequired)
      else if !c.cronValid(cron.value) then Err(BadCron)
      else
        var next := c.nextCron(cron.value, now);
        if next <= now then Err(CronPast)
        else if c.nextCron(cron.value, next) - next < c.minIntervalSeconds then Err(CronTooFrequent)
        else Ok(next)
  }

  function PlanCreate(c: Config, id: string, r: CreateRequest, now: int): Result<CronJob> {
    var promptError, maxRunsError := PromptError(c, r.prompt), MaxRunsError(r.maxRuns);
    var first := FirstFire(c, r.mode, r.fireAt, r.intervalSeconds, r.cronExpression, now);
    if promptError.Some? then Err(promptError.value)
    else if maxRunsError.Some? then Err(maxRunsError.value)
    else if first.Err? then Err(first.error)
    else Ok(CronJob(
      id, r.sessionKey, r.prompt, r.mode,
      if r.mode.Once? then Some(first.value) else None,
      if r.mode.Interval? then r.intervalSeconds else None,
      if r.mode.Cron? then r.cronExpression else None,
      r.maxRuns, 0, true, now, first.value, None, None, 0, None))
  }

  function OrElse<T>(a: Option<T>, b: Option<T>): Option<T> {
    if a.Some? then a else b
  }

  function PlanUpdate(c: Config, existing: CronJob, r: UpdateRequest, now: int): Result<Change> {
    var prompt := if r.prompt.Some? then r.prompt.value else existing.prompt;
    var mode := if r.mode.Some? then r.mode.value else existing.mode;
    var fireAt := OrElse(r.fireAt, existing.fireAt);
    var interval := OrElse(r.intervalSeconds, existing.intervalSeconds);
    var cron := OrElse(r.cronExpression, existing.cronExpression);
    var promptError, maxRunsError := PromptError(c, prompt), MaxRunsError(r.maxRuns);
    var first := FirstFire(c, mode, fireAt, interval, cron, now);
    if promptError.Some? then Err(promptError.value)
    else if maxRunsError.Some? then Err(maxRunsError.value)
    else if first.Err? then Err(first.error)
    else
      var maxRuns := OrElse(r.maxRuns, existing.maxRuns);
      match mode
      case Once => Ok(Change(prompt, Once, Some(first.value), None, None, None, first.value))
      case Interval =>
        var next := if r.intervalSeconds.Some? || r.mode.Some? then first.value else existing.nextFireAt;
        Ok(Change(prompt, Interval, None, interval, None, maxRuns, next))
      case Cron => Ok(Change(prompt, Cron, None, None, cron, maxRuns, first.value))
  }

  /** A schedule a job may have, from `now` on; a first firing time lies in the future. */
  predicate IsSchedule(c: Config, mode: Mode, fireAt: Option<int>, interval: Option<int>, cron: Option<string>, now: int) {
    match mode
    case Once => fireAt.Some? && now < fireAt.value
    case Interval => interval.Some? && c.minIntervalSeconds <= interval.value
    case Cron =>
      && cron.Some? && cron.value != "" && c.cronValid(cron.value) && now < c.nextCron(cron.value, now)
      && c.minIntervalSeconds <= c.nextCron(cron.value, c.nextCron(cron.value, now)) - c.nextCron(cron.value, now)
  }

  predicate IsPrompt(c: Config, prompt: string) {
    |prompt| <= c.maxPromptChars && exists i :: 0 <= i < |prompt| && !c.isSpace(prompt[i])
  }

  predicate IsFirstFire(c: Config, mode: Mode, fireAt: Option<int>, interval: Option<int>, cron: Option<string>, now: int, first: int) {
    match mode
    case Once => fireAt == Some(first)
    case Interval => interval.Some? && first == now + interval.value
    case Cron => cron.Some? && first == c.nextCron(cron.value, now)
  }

  /** A request is accepted exactly when prompt, maximum and schedule are valid; the job is then the requested one, keeps of
      the schedule what its mode needs, and fires first when the schedule says. */
  lemma CreateMeaning(c: Config, id: string, r: CreateRequest, now: int)
    ensures PlanCreate(c, id, r, now).Ok? <==>
      && IsPrompt(c, r.prompt) && (r.maxRuns.Some? ==> r.maxRuns.value > 0)
      && IsSchedule(c, r.mode, r.fireAt, r.intervalSeconds, r.cronExpression, now)
    ensures PlanCreate(c, id, r, now).Ok? ==>
      var job := PlanCreate(c, id, r, now).value;
      && IsNewJob(job) && job.jobId == id && job.sessionKey == r.sessionKey && job.prompt == r.prompt && job.mode == r.mode
      && job.maxRuns == r.maxRuns && job.createdAt == now
      && job.fireAt == (if r.mode.Once? then r.fireAt else None)
      && job.intervalSeconds == (if r.mode.Interval? then r.intervalSeconds else None)
      && job.cronExpression == (if r.mode.Cron? then r.cronExpression else None)
      && IsFirstFire(c, r.mode, r.fireAt, r.intervalSeconds, r.cronExpression, now, job.nextFireAt)
  {
  }

  /** The request's value if it has one, else the job's. */
  predicate IsNewOrOld<T(==)>(value: Option<T>, requested: Option<T>, kept: Option<T>) {
    if requested.Some? then value == requested else value == kept
  }

  /** An update is accepted exactly when what results is valid. Prompt, mode, maximum and schedule are the requested ones or
      else the old ones; one-shot jobs lose the maximum; an interval job whose interval and mode were not asked
      for keeps its next time; run count, owner and claim stay, failures are forgotten. */
  lemma UpdateMeaning(c: Config, existing: CronJob, r: UpdateRequest, now: int)
    ensures var mode := if r.mode.Some? then r.mode.value else existing.mode;
      PlanUpdate(c, existing, r, now).Ok? <==>
        && IsPrompt(c, if r.prompt.Some? then r.prompt.value else existing.prompt)
        && (r.maxRuns.Some? ==> r.maxRuns.value > 0)
        && IsSchedule(c, mode, if r.fireAt.Some? then r.fireAt else existing.fireAt,
                      if r.intervalSeconds.Some? then r.intervalSeconds else existing.intervalSeconds,
                      if r.cronExpression.Some? then r.cronExpression else existing.cronExpression, now)
    ensures PlanUpdate(c, existing, r, now).Ok? ==>
      var row := ChangedRow(existing, PlanUpdate(c, existing, r, now).value);
      && IsNewOrOld(Some(row.prompt), r.prompt, Some(existing.prompt)) && IsNewOrOld(Some(row.mode), r.mode, Some(existing.mode))
      && (if row.mode.Once? then row.maxRuns.None? else IsNewOrOld(row.maxRuns, r.maxRuns, existing.maxRuns))
      && (if row.mode.Once? then IsNewOrOld(row.fireAt, r.fireAt, existing.fireAt) else row.fireAt.None?)
      && (if row.mode.Interval? then IsNewOrOld(row.intervalSeconds, r.intervalSeconds, existing.intervalSeconds)
          else row.intervalSeconds.None?)
      && (if row.mode.Cron? then IsNewOrOld(row.cronExpression, r.cronExpression, existing.cronExpression)
          else row.cronExpression.None?)
      && (if row.mode.Interval? && r.intervalSeconds.None? && r.mode.None? then row.nextFireAt == existing.nextFireAt
          else IsFirstFire(c, row.mode, row.fireAt, row.intervalSeconds, row.cronExpression, now, row.nextFireAt))
      && row.failureCount == 0 && row.lastError.None?
      && row.jobId == existing.jobId && row.sessionKey == existing.sessionKey && row.runCount == existing.runCount
      && row.isActive == existing.isActive && row.claimedAt == existing.claimedAt
      && row.createdAt == existing.createdAt && row.lastFiredAt == existing.lastFiredAt
  {
  }

  /** The configuration demands a minimum interval of at least one second (nahida_bot/core/config.py:101).
      An accepted job is fresh, fires in the future, and keeps for later exactly what its mode needs: after a
      success that is not its last it gets a next firing time. */
  lemma AcceptedJob(c: Config, id: string, r: CreateRequest, now: int, later: int)
    requires c.minIntervalSeconds > 0
    requires PlanCreate(c, id, r, now).Ok?
    ensures var job := PlanCreate(c, id, r, now).value;
      && IsNewJob(job) && job.jobId == id && job.nextFireAt > now
      && (ComputeNextFire(c, job, later).Some? <==> !job.mode.Once? && (job.maxRuns.None? || job.maxRuns.value > 1))
  {
  }

  /** An accepted update keeps the job schedulable in the same sense; it may lower the maximum below the runs
      already made, and turning a job into a one-shot forgets the maximum. */
  lemma AcceptedUpdate(c: Config, existing: CronJob, r: UpdateRequest, now: int, later: int)
    requires existing.maxRuns.Some? ==> existing.maxRuns.value > 0
    requires PlanUpdate(c, existing, r, now).Ok?
    ensures var change := PlanUpdate(c, existing, r, now).value;
      && IsValidChange(change)
      && (change.mode.Once? ==> change.maxRuns.None? && change.nextFireAt > now)
      && (ComputeNextFire(c, ChangedRow(existing, change), later).Some? <==>
            !change.mode.Once? && (change.maxRuns.None? || existing.runCount + 1 < change.maxRuns.value))
  {
  }

  // ---- The service ----

  class Service {
    const config: Config
    const repo: Repository
    var fires: map<nat, Fire>
    var nextTask: nat
    var poll: Poll
    var dreaming: bool
    var dreamNextAt: Option<int>
    ghost var issued: set<string>

    ghost function View(): State
      reads this, repo
    {
      State(repo.rows, fires, nextTask, poll, dreaming, dreamNextAt, issued)
    }

    ghost predicate Valid()
      reads this, repo
    {
      Inv(config, View())
    }

    constructor (config: Config, repo: Repository)
      requires repo.rows == map[]
      ensures this.config == config && this.repo == repo
      ensures View() == INITIAL && Valid()
    {
      this.config, this.repo := config, repo;
      fires, nextTask, poll := map[], 0, Idle;
      dreaming, dreamNextAt, issued := false, None, {};
      new;
      InitialInv(config);
    }

    /** A new process: every fire of the old one is gone, and its claims are released. */
    method Start(now: int)
      requires Valid()
      modifies this, repo
      ensures Valid() && View() == Apply(config, old(View()), Restart(now))
    {
      StepKeepsInv(config, View(), Restart(now));
      var released := repo.ReleaseStaleClaims();
      fires, poll, dreaming := map[], Idle, false;
      if config.dreamingEnabled {
        dreamNextAt := Some(now + config.dreamingInitialDelay);
      }
    }

    method CreateJob(id: string, request: CreateRequest, now: int) returns (r: Result<CronJob>)
      requires Valid() && id !in issued
      modifies this, repo
      ensures Valid()
      ensures var plan := PlanCreate(config, id, request, now);
        if plan.Err? then r == plan && View() == old(View())
        else
          && View() == Apply(config, old(View()), Create(plan.value))
          && (if |ActiveJobs(old(repo.rows), request.sessionKey)| < config.maxJobsPerChat then r == plan
              else r == Err(OverQuota) && repo.rows == old(repo.rows))
    {
      r := PlanCreate(config, id, request, now);
      if r.Ok? {
        var job := r.value;
        assert RowOk(config, View(), id);
        StepKeepsInv(config, View(), Create(job));
        var outcome := repo.InsertJobWithQuota(job, config.maxJobsPerChat);
        issued := issued + {id};
        if outcome.QuotaExceeded? {
          r := Err(OverQuota);
        }
      }
    }

    /** The first part of an update: read the row and plan the change. */
    method PlanJobUpdate(id: string, request: UpdateRequest, now: int) returns (r: Result<Change>)
      requires Valid()
      ensures r.Ok? ==>
        && CanUpdate(repo.rows, id) && r == PlanUpdate(config, repo.rows[id], request, now) && IsValidChange(r.value)
      ensures r == Err(NotFound) <==> id !in repo.rows
      ensures r == Err(Inactive) <==> id in repo.rows && !repo.rows[id].isActive
      ensures r == Err(CurrentlyRunning) <==> id in repo.rows && repo.rows[id].isActive && repo.rows[id].claimedAt.Some?
    {
      var existing := repo.GetJob(id);
      if existing.None? {
        return Err(NotFound);
      }
      if !existing.value.isActive {
        return Err(Inactive);
      }
      if existing.value.claimedAt.Some? {
        return Err(CurrentlyRunning);
      }
      r := PlanUpdate(config, existing.value, request, now);
      if r.Ok? {
        assert RowOk(config, View(), id);
        AcceptedUpdate(config, existing.value, request, now, now);
      }
    }

    /** The second part: the guarded write, of a plan that may be out of date by now. */
    method WriteUpdate(id: string, change: Change) returns (ok: bool)
      requires Valid() && IsValidChange(change)
      modifies this, repo
      ensures Valid() && View() == Apply(config, old(View()), Update(id, change))
      ensures ok <==> CanUpdate(old(repo.rows), id)
    {
      StepKeepsInv(config, View(), Update(id, change));
      ok := repo.UpdateJob(id, change);
    }

    /** Both parts, when nothing comes between them. */
    method UpdateJob(id: string, request: UpdateRequest, now: int) returns (r: Result<Change>)
      requires Valid()
      modifies this, repo
      ensures Valid()
      ensures r.Ok? ==>
        && CanUpdate(old(repo.rows), id)
        && r == PlanUpdate(config, old(repo.rows)[id], request, now) && IsValidChange(r.value)
        && View() == Apply(config, old(View()), Update(id, r.value))
      ensures r.Err? ==> View() == old(View())
      ensures r == Err(NotFound) <==> id !in old(repo.rows)
      ensures r == Err(Inactive) <==> id in old(repo.rows) && !old(repo.rows)[id].isActive
      ensures r == Err(CurrentlyRunning) <==>
        id in old(repo.rows) && old(repo.rows)[id].isActive && old(repo.rows)[id].claimedAt.Some?
    {
      r := PlanJobUpdate(id, request, now);
      if r.Ok? {
        var ok := WriteUpdate(id, r.value);
      }
    }

    method CancelJob(id: string) returns (ok: bool)
      requires Valid()
      modifies this, repo
      ensures Valid() && View() == Apply(config, old(View()), Cancel(id))
      ensures ok <==> id in old(repo.rows) && old(repo.rows)[id].isActive
    {
      StepKeepsInv(config, View(), Cancel(id));
      ok := repo.CancelJob(id);
    }

    method DeleteJob(id: string) returns (ok: bool)
      requires Valid()
      modifies this, repo
      ensures Valid() && View() == Apply(config, old(View()), Delete(id))
      ensures ok <==> id in old(repo.rows)
    {
      StepKeepsInv(config, View(), Delete(id));
      ok := repo.DeleteJob(id);
    }

    // ---- One round of the poll loop, split where it can be interrupted ----

    /** Measure the free slots and, when there are any, start dreaming if it is due. */
    method BeginPoll(now: int)
      requires Valid() && poll.Idle?
      modifies this
      ensures Valid() && View() == Apply(config, old(View()), PollBegin(now))
    {
      StepKeepsInv(config, View(), PollBegin(now));
      var dispatched := set k | k in fires && !fires[k].phase.Taken?;
      assert dispatched == Dispatched(View());
      var available := config.maxConcurrentFires - (|dispatched| + if dreaming then 1 else 0);
      if available > 0 {
        if config.dreamingEnabled && !dreaming {
          if dreamNextAt.None? {
            dreamNextAt := Some(now + config.dreamingInterval);
          } else if now >= dreamNextAt.value {
            dreaming, dreamNextAt := true, Some(now + config.dreamingInterval);
          }
        }
        poll := Claiming(available);
      }
    }

    /** Claim as many due jobs as there were free slots. */
    method ClaimDue(now: int)
      requires Valid() && poll.Claiming?
      modifies this, repo
      ensures Valid()
      ensures exists jobs ::
        Enabled(config, old(View()), Claim(now, jobs)) && View() == Apply(config, old(View()), Claim(now, jobs))
    {
      forall id | id in repo.rows ensures repo.rows[id].jobId == id {
        assert RowOk(config, View(), id);
      }
      ghost var before := View();
      var jobs := repo.ClaimDueJobs(now, poll.available);
      StepKeepsInv(config, before, Claim(now, jobs));
      fires := AddFires(fires, nextTask, jobs);
      nextTask, poll := nextTask + |jobs|, Dispatching;
      assert View() == Apply(config, before, Claim(now, jobs));
    }

    /** Start a task for every claimed job. */
    method DispatchClaimed()
      requires Valid() && poll.Dispatching?
      modifies this
      ensures Valid() && View() == Apply(config, old(View()), Dispatch)
    {
      StepKeepsInv(config, View(), Dispatch);
      fires := map k | k in fires :: if fires[k].phase.Taken? then fires[k].(phase := SchedulerProtocol.Running) else fires[k];
      poll := Idle;
    }

    // ---- The end of a fire ----

    method FireSucceeded(task: nat, now: int)
      requires Valid() && IsRunning(View(), task)
      modifies this, repo
      ensures Valid() && View() == Apply(config, old(View()), Succeed(task, now))
    {
      StepKeepsInv(config, View(), Succeed(task, now));
      var job := fires[task].job;
      var next := ComputeNextFire(config, job, now);
      repo.CompleteFire(job.jobId, next, now);
      fires := fires - {task};
    }

    /** Record a failure; unless the fire was cancelled, its task goes on to send an error message. */
    method FireFailed(task: nat, now: int, error: string, notify: bool)
      requires Valid() && IsRunning(View(), task)
      modifies this, repo
      ensures Valid() && View() == Apply(config, old(View()), Fail(task, now, error, notify))
    {
      StepKeepsInv(config, View(), Fail(task, now, error, notify));
      var job := fires[task].job;
      var deactivate := job.failureCount + 1 >= config.maxConsecutiveFailures;
      repo.MarkFailed(job.jobId, now + config.failureRetrySeconds, error, deactivate);
      fires := if notify then fires[task := Fire(job, Notifying)] else fires - {task};
    }

    method ErrorSent(task: nat)
      requires Valid() && Enabled(config, View(), Notified(task))
      modifies this
      ensures Valid() && View() == Apply(config, old(View()), Notified(task))
    {
      StepKeepsInv(config, View(), Notified(task));
      fires := fires - {task};
    }

    method DreamEnded()
      requires Valid() && dreaming
      modifies this
      ensures Valid() && View() == Apply(config, old(View()), DreamDone)
    {
      StepKeepsInv(config, View(), DreamDone);
      dreaming := false;
    }
  }
}
