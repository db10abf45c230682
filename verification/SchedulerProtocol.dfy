/** The claim protocol of the scheduler as a state machine over the job table and the fires in flight. A
    fire decides from the snapshot of its row taken at claim time, while the row may be cancelled, deleted
    or left alone; the service's steps interleave in any order. */
module SchedulerProtocol {
  import opened Messages
  import opened CronRepository

  /** `nextCron` gives the next firing time of a cron expression, `cronValid` tells whether it is one, and
      `isSpace` classifies the characters that count as blank. */
  datatype Config = Config(
    maxConcurrentFires: int, maxJobsPerChat: int, maxConsecutiveFailures: int, failureRetrySeconds: int,
    minIntervalSeconds: int, maxPromptChars: int,
    dreamingEnabled: bool, dreamingInterval: int, dreamingInitialDelay: int,
    cronValid: string -> bool, nextCron: (string, int) -> int, isSpace: char -> bool)

  /** A fire is taken by the claim, runs once dispatched, and after a failure was recorded may still be
      sending an error message. */
  datatype Phase = Taken | Running | Notifying

  datatype Fire = Fire(job: CronJob, phase: Phase)

  datatype Poll = Idle | Claiming(available: nat) | Dispatching

  /** `issued` holds every id ever given to a job; ids are never reused. */
  datatype State = State(
    rows: Table, fires: map<nat, Fire>, nextTask: nat, poll: Poll,
    dreaming: bool, dreamNextAt: Option<int>, issued: set<string>)

  datatype Step =
    | Create(job: CronJob)
    | Update(id: string, change: Change)
    | Cancel(id: string)
    | Delete(id: string)
    | PollBegin(now: int)
    | Claim(now: int, jobs: seq<CronJob>)
    | Dispatch
    | Succeed(task: nat, now: int)
    | Fail(task: nat, now: int, error: string, notify: bool)
    | Notified(task: nat)
    | DreamDone
    | Restart(now: int)

  // ---- Decisions taken from a snapshot ----

  /** The next firing time after a success, `None` when the job is done. */
  function ComputeNextFire(c: Config, job: CronJob, now: int): Option<int> {
    if job.mode.Once? then None
    else if job.maxRuns.Some? && job.runCount + 1 >= job.maxRuns.value then None
    else if job.mode.Interval? then
      if job.intervalSeconds.None? then None else Some(now + job.intervalSeconds.value)
    else if job.cronExpression.None? || job.cronExpression.value == "" then None
    else Some(c.nextCron(job.cronExpression.value, now))
  }

  predicate GivesUp(c: Config, job: CronJob) {
    job.failureCount + 1 >= c.maxConsecutiveFailures
  }

  // ---- Steps ----

  predicate IsNewJob(job: CronJob) {
    job.isActive && job.runCount == 0 && job.failureCount == 0 && job.claimedAt.None?
    && (job.maxRuns.Some? ==> job.maxRuns.value > 0)
  }

  predicate IsValidChange(change: Change) {
    change.maxRuns.Some? ==> change.maxRuns.value > 0
  }

  function Dispatched(s: State): set<nat> {
    set k | k in s.fires && !s.fires[k].phase.Taken?
  }

  /** The service's set of active tasks: dispatched fires and the dreaming task. */
  function ActiveTasks(s: State): nat {
    |Dispatched(s)| + if s.dreaming then 1 else 0
  }

  function Available(c: Config, s: State): int {
    c.maxConcurrentFires - ActiveTasks(s)
  }

  function DreamIfDue(c: Config, s: State, now: int): State {
    if !c.dreamingEnabled || s.dreaming then s
    else if s.dreamNextAt.None? then s.(dreamNextAt := Some(now + c.dreamingInterval))
    else if now < s.dreamNextAt.value then s
    else s.(dreaming := true, dreamNextAt := Some(now + c.dreamingInterval))
  }

  /** The claimed jobs become fires under the task numbers from `next` on. */
  function AddFires(fires: map<nat, Fire>, next: nat, jobs: seq<CronJob>): map<nat, Fire> {
    if jobs == [] then fires
    else
      var n := |jobs| - 1;
      AddFires(fires, next, jobs[..n])[next + n := Fire(jobs[n], Taken)]
  }

  predicate IsRunning(s: State, task: nat) {
    task in s.fires && s.fires[task].phase.Running?
  }

  ghost predicate Enabled(c: Config, s: State, step: Step) {
    match step
    case Create(job) => IsNewJob(job) && job.jobId !in s.issued
    case Update(_, change) => IsValidChange(change)
    case PollBegin(_) => s.poll.Idle?
    case Claim(now, jobs) => s.poll.Claiming? && IsSelection(s.rows, now, s.poll.available, jobs)
    case Dispatch => s.poll.Dispatching?
    case Succeed(task, _) => IsRunning(s, task)
    case Fail(task, _, _, _) => IsRunning(s, task)
    case Notified(task) => task in s.fires && s.fires[task].phase.Notifying?
    case DreamDone => s.dreaming
    case _ => true
  }

  ghost function Apply(c: Config, s: State, step: Step): State
    requires Enabled(c, s, step)
  {
    match step
    case Create(job) =>
      var t := s.(issued := s.issued + {job.jobId});
      if InsertResult(s.rows, job, c.maxJobsPerChat).Inserted? then t.(rows := s.rows[job.jobId := job]) else t
    case Update(id, change) => s.(rows := Updated(s.rows, id, change))
    case Cancel(id) => s.(rows := Cancelled(s.rows, id))
    case Delete(id) => s.(rows := Deleted(s.rows, id))
    case PollBegin(now) =>
      if Available(c, s) <= 0 then s else DreamIfDue(c, s, now).(poll := Claiming(Available(c, s)))
    case Claim(now, jobs) =>
      s.(rows := Claimed(s.rows, jobs, now), fires := AddFires(s.fires, s.nextTask, jobs), nextTask := s.nextTask + |jobs|, poll := Dispatching)
    case Dispatch =>
      s.(fires := map k | k in s.fires :: if s.fires[k].phase.Taken? then s.fires[k].(phase := Running) else s.fires[k], poll := Idle)
    case Succeed(task, now) =>
      var job := s.fires[task].job;
      s.(rows := Completed(s.rows, job.jobId, ComputeNextFire(c, job, now), now), fires := s.fires - {task})
    case Fail(task, now, error, notify) =>
      var job := s.fires[task].job;
      s.(rows := MarkedFailed(s.rows, job.jobId, now + c.failureRetrySeconds, error, GivesUp(c, job)),
         fires := if notify then s.fires[task := Fire(job, Notifying)] else s.fires - {task})
    case Notified(task) => s.(fires := s.fires - {task})
    case DreamDone => s.(dreaming := false)
    case Restart(now) =>
      s.(rows := Released(s.rows), fires := map[], poll := Idle, dreaming := false,
         dreamNextAt := if c.dreamingEnabled then Some(now + c.dreamingInitialDelay) else s.dreamNextAt)
  }

  // ---- The invariant ----

  /** The fields a fire decides from. */
  predicate Agrees(job: CronJob, row: CronJob) {
    job.runCount == row.runCount && job.failureCount == row.failureCount && job.maxRuns == row.maxRuns
    && job.mode == row.mode && job.intervalSeconds == row.intervalSeconds && job.cronExpression == row.cronExpression
  }

  predicate Unsettled(s: State, k: nat) {
    k in s.fires && !s.fires[k].phase.Notifying?
  }

  /** The snapshot of an unsettled fire agrees with its row, as long as the row exists, and the row stays
      claimed as long as it is active. */
  predicate SnapshotAgrees(s: State, k: nat) {
    Unsettled(s, k) && s.fires[k].job.jobId in s.rows ==>
      var row := s.rows[s.fires[k].job.jobId];
      Agrees(s.fires[k].job, row) && (row.isActive ==> row.claimedAt.Some?)
  }

  predicate Distinct(s: State, k: nat, l: nat) {
    Unsettled(s, k) && Unsettled(s, l) && k != l ==> s.fires[k].job.jobId != s.fires[l].job.jobId
  }

  /** A claimed row is active and has a fire in flight. */
  ghost predicate ClaimBacked(s: State, id: string) {
    id in s.rows && s.rows[id].claimedAt.Some? ==>
      s.rows[id].isActive && exists k :: Unsettled(s, k) && s.fires[k].job.jobId == id
  }

  function FailureLimit(c: Config): nat {
    if c.maxConsecutiveFailures < 1 then 1 else c.maxConsecutiveFailures
  }

  predicate RowOk(c: Config, s: State, id: string) {
    id in s.rows ==>
      && s.rows[id].jobId == id && id in s.issued
      && (s.rows[id].maxRuns.Some? ==> s.rows[id].maxRuns.value > 0)
      && (s.rows[id].isActive ==> s.rows[id].failureCount < FailureLimit(c))
  }

  predicate FireOk(s: State, k: nat) {
    k in s.fires ==>
      && k < s.nextTask && s.fires[k].job.jobId in s.issued
      && (s.fires[k].phase.Taken? ==> s.poll.Dispatching?)
  }

  function AtLeastZero(n: int): nat {
    if n < 0 then 0 else n
  }

  predicate WithinLimits(c: Config, s: State) {
    |s.fires| + (if s.poll.Claiming? then s.poll.available else 0) <= AtLeastZero(c.maxConcurrentFires)
  }

  predicate WithinQuota(c: Config, s: State, session: string) {
    |ActiveJobs(s.rows, session)| <= AtLeastZero(c.maxJobsPerChat)
  }

  ghost predicate Inv(c: Config, s: State) {
    && (forall k :: SnapshotAgrees(s, k))
    && (forall k, l :: Distinct(s, k, l))
    && (forall id :: ClaimBacked(s, id))
    && (forall id :: RowOk(c, s, id))
    && (forall k :: FireOk(s, k))
    && WithinLimits(c, s)
    && (forall session :: WithinQuota(c, s, session))
  }

  const INITIAL := State(map[], map[], 0, Idle, false, None, {})

  lemma InitialInv(c: Config)
    ensures Inv(c, INITIAL)
  {
    forall session ensures WithinQuota(c, INITIAL, session) {
      assert ActiveJobs(INITIAL.rows, session) == {};
    }
  }

  // ---- Every step keeps the invariant ----

  lemma SubsetSize<T>(a: set<T>, b: set<T>)
    requires a <= b
    ensures |a| <= |b|
  {
    if a != {} {
      var x :| x in a;
      SubsetSize(a - {x}, b - {x});
    }
  }

  /** Steps that activate no row respect the quota. */
  lemma QuotaKept(c: Config, s: State, s': State)
    requires forall session :: WithinQuota(c, s, session)
    requires forall id :: id in s'.rows && s'.rows[id].isActive ==>
      id in s.rows && s.rows[id].isActive && s.rows[id].sessionKey == s'.rows[id].sessionKey
    ensures forall session :: WithinQuota(c, s', session)
  {
    forall session ensures WithinQuota(c, s', session) {
      assert WithinQuota(c, s, session);
      SubsetSize(ActiveJobs(s'.rows, session), ActiveJobs(s.rows, session));
    }
  }

  lemma InsertKeepsQuota(c: Config, t: Table, job: CronJob, session: string)
    requires |ActiveJobs(t, session)| <= AtLeastZero(c.maxJobsPerChat)
    requires InsertResult(t, job, c.maxJobsPerChat).Inserted?
    ensures |ActiveJobs(t[job.jobId := job], session)| <= AtLeastZero(c.maxJobsPerChat)
  {
    var before, after := ActiveJobs(t, session), ActiveJobs(t[job.jobId := job], session);
    if session == job.sessionKey {
      SubsetSize(after, before + {job.jobId});
    } else {
      SubsetSize(after, before);
    }
  }

  lemma CreateKeepsInv(c: Config, s: State, job: CronJob)
    requires Inv(c, s) && Enabled(c, s, Create(job))
    ensures Inv(c, Apply(c, s, Create(job)))
  {
    var s', id := Apply(c, s, Create(job)), job.jobId;
    assert RowOk(c, s, id);
    forall k ensures SnapshotAgrees(s', k) && FireOk(s', k) {
      assert SnapshotAgrees(s, k) && FireOk(s, k);
    }
    forall k, l ensures Distinct(s', k, l) {
      assert Distinct(s, k, l);
    }
    forall i ensures ClaimBacked(s', i) && RowOk(c, s', i) {
      assert ClaimBacked(s, i) && RowOk(c, s, i);
      assert forall k :: Unsettled(s', k) == Unsettled(s, k);
    }
    forall session ensures WithinQuota(c, s', session) {
      assert WithinQuota(c, s, session);
      if InsertResult(s.rows, job, c.maxJobsPerChat).Inserted? {
        InsertKeepsQuota(c, s.rows, job, session);
      }
    }
  }

  /** A step that touches one row only, and leaves fires and poll alone. */
  lemma RowStepKeepsInv(c: Config, s: State, s': State, id: string)
    requires Inv(c, s)
    requires s' == s.(rows := s'.rows) && id in s.rows && id in s'.rows && s'.rows == s.rows[id := s'.rows[id]]
    requires RowOk(c, s', id) && s'.rows[id].sessionKey == s.rows[id].sessionKey
    requires s'.rows[id].isActive ==> s.rows[id].isActive
    requires s'.rows[id].claimedAt.None?
    requires s'.rows[id].isActive ==> s.rows[id].claimedAt.None?
    requires !s'.rows[id].isActive ==> Agrees(s.rows[id], s'.rows[id])
    ensures Inv(c, s')
  {
    forall k ensures SnapshotAgrees(s', k) && FireOk(s', k) {
      assert SnapshotAgrees(s, k) && FireOk(s, k);
    }
    forall k, l ensures Distinct(s', k, l) {
      assert Distinct(s, k, l);
    }
    forall i ensures ClaimBacked(s', i) && RowOk(c, s', i) {
      assert ClaimBacked(s, i) && RowOk(c, s, i);
      assert forall k :: Unsettled(s', k) == Unsettled(s, k);
    }
    QuotaKept(c, s, s');
  }

  lemma UpdateKeepsInv(c: Config, s: State, id: string, change: Change)
    requires Inv(c, s) && IsValidChange(change)
    ensures Inv(c, Apply(c, s, Update(id, change)))
  {
    if CanUpdate(s.rows, id) {
      assert RowOk(c, s, id);
      var s' := Apply(c, s, Update(id, change));
      RowStepKeepsInv(c, s, s', id);
    }
  }

  lemma CancelKeepsInv(c: Config, s: State, id: string)
    requires Inv(c, s)
    ensures Inv(c, Apply(c, s, Cancel(id)))
  {
    if id in s.rows && s.rows[id].isActive {
      assert RowOk(c, s, id);
      var s' := Apply(c, s, Cancel(id));
      RowStepKeepsInv(c, s, s', id);
    }
  }

  lemma DeleteKeepsInv(c: Config, s: State, id: string)
    requires Inv(c, s)
    ensures Inv(c, Apply(c, s, Delete(id)))
  {
    var s' := Apply(c, s, Delete(id));
    forall k ensures SnapshotAgrees(s', k) && FireOk(s', k) {
      assert SnapshotAgrees(s, k) && FireOk(s, k);
    }
    forall k, l ensures Distinct(s', k, l) {
      assert Distinct(s, k, l);
    }
    forall i ensures ClaimBacked(s', i) && RowOk(c, s', i) {
      assert ClaimBacked(s, i) && RowOk(c, s, i);
      assert forall k :: Unsettled(s', k) == Unsettled(s, k);
    }
    QuotaKept(c, s, s');
  }

  // ---- Settling a fire ----

  /** After a settled fire its row is unclaimed and its task is gone or only notifying. */
  lemma SettleKeepsInv(c: Config, s: State, s': State, task: nat)
    requires Inv(c, s) && IsRunning(s, task)
    requires s' == s.(rows := s'.rows, fires := s'.fires)
    requires s'.fires == s.fires - {task} || s'.fires == s.fires[task := Fire(s.fires[task].job, Notifying)]
    requires var id := s.fires[task].job.jobId;
      if id in s.rows then
        && id in s'.rows && s'.rows == s.rows[id := s'.rows[id]]
        && s'.rows[id].claimedAt.None? && RowOk(c, s', id) && s'.rows[id].sessionKey == s.rows[id].sessionKey
        && (s'.rows[id].isActive ==> s.rows[id].isActive)
      else s'.rows == s.rows
    ensures Inv(c, s')
  {
    var id := s.fires[task].job.jobId;
    assert Unsettled(s, task);
    forall k ensures SnapshotAgrees(s', k) && FireOk(s', k) {
      assert SnapshotAgrees(s, k) && FireOk(s, k) && Distinct(s, k, task);
    }
    forall k, l ensures Distinct(s', k, l) {
      assert Distinct(s, k, l);
    }
    forall i ensures ClaimBacked(s', i) && RowOk(c, s', i) {
      assert ClaimBacked(s, i) && RowOk(c, s, i);
      if i in s'.rows && s'.rows[i].claimedAt.Some? {
        var k :| Unsettled(s, k) && s.fires[k].job.jobId == i;
        assert Unsettled(s', k) && s'.fires[k].job.jobId == i;
      }
    }
    QuotaKept(c, s, s');
    SubsetSize(s'.fires.Keys, s.fires.Keys);
  }

  lemma SucceedKeepsInv(c: Config, s: State, task: nat, now: int)
    requires Inv(c, s) && IsRunning(s, task)
    ensures Inv(c, Apply(c, s, Succeed(task, now)))
  {
    var s' := Apply(c, s, Succeed(task, now));
    assert RowOk(c, s, s.fires[task].job.jobId);
    SettleKeepsInv(c, s, s', task);
  }

  lemma FailKeepsInv(c: Config, s: State, task: nat, now: int, error: string, notify: bool)
    requires Inv(c, s) && IsRunning(s, task)
    ensures Inv(c, Apply(c, s, Fail(task, now, error, notify)))
  {
    var s' := Apply(c, s, Fail(task, now, error, notify));
    var id := s.fires[task].job.jobId;
    assert RowOk(c, s, id) && SnapshotAgrees(s, task) && Unsettled(s, task);
    SettleKeepsInv(c, s, s', task);
  }

  lemma NotifiedKeepsInv(c: Config, s: State, task: nat)
    requires Inv(c, s) && Enabled(c, s, Notified(task))
    ensures Inv(c, Apply(c, s, Notified(task)))
  {
    var s' := Apply(c, s, Notified(task));
    forall k ensures SnapshotAgrees(s', k) && FireOk(s', k) {
      assert SnapshotAgrees(s, k) && FireOk(s, k);
    }
    forall k, l ensures Distinct(s', k, l) {
      assert Distinct(s, k, l);
    }
    forall i ensures ClaimBacked(s', i) && RowOk(c, s', i) {
      assert ClaimBacked(s, i) && RowOk(c, s, i);
      assert forall k :: Unsettled(s', k) == Unsettled(s, k);
    }
    QuotaKept(c, s, s');
    SubsetSize(s'.fires.Keys, s.fires.Keys);
  }

  // ---- Polling ----

  lemma PollBeginKeepsInv(c: Config, s: State, now: int)
    requires Inv(c, s) && s.poll.Idle?
    ensures Inv(c, Apply(c, s, PollBegin(now)))
  {
    var s' := Apply(c, s, PollBegin(now));
    forall k ensures SnapshotAgrees(s', k) && FireOk(s', k) {
      assert SnapshotAgrees(s, k) && FireOk(s, k);
    }
    forall k, l ensures Distinct(s', k, l) {
      assert Distinct(s, k, l);
    }
    forall i ensures ClaimBacked(s', i) && RowOk(c, s', i) {
      assert ClaimBacked(s, i) && RowOk(c, s, i);
      assert forall k :: Unsettled(s', k) == Unsettled(s, k);
    }
    QuotaKept(c, s, s');
    forall k | k in s.fires ensures k in Dispatched(s) {
      assert FireOk(s, k);
    }
    assert Dispatched(s) == s.fires.Keys;
  }

  lemma {:induction false} ClaimedFacts(t: Table, jobs: seq<CronJob>, now: int)
    ensures Claimed(t, jobs, now).Keys == t.Keys
    ensures forall id :: id in t ==>
      Claimed(t, jobs, now)[id] == if id in JobIds(jobs) then ClaimedRow(t[id], now) else t[id]
    decreases |jobs|
  {
    if jobs != [] {
      var n := |jobs| - 1;
      ClaimedFacts(t, jobs[..n], now);
      assert jobs == jobs[..n] + [jobs[n]];
      JobIdsAppend(jobs[..n], jobs[n]);
    }
  }

  lemma {:induction false} AddFiresFacts(fires: map<nat, Fire>, next: nat, jobs: seq<CronJob>)
    requires forall k :: k in fires ==> k < next
    ensures var r := AddFires(fires, next, jobs);
      && (forall k: nat :: k in r <==> k in fires || next <= k < next + |jobs|)
      && (forall k :: k in fires ==> k in r && r[k] == fires[k])
      && (forall k :: next <= k < next + |jobs| ==> k in r && r[k] == Fire(jobs[k - next], Taken))
      && |r| == |fires| + |jobs|
    decreases |jobs|
  {
    if jobs != [] {
      AddFiresFacts(fires, next, jobs[..|jobs| - 1]);
    }
  }

  lemma ClaimKeepsInv(c: Config, s: State, now: int, jobs: seq<CronJob>)
    requires Inv(c, s) && Enabled(c, s, Claim(now, jobs))
    ensures Inv(c, Apply(c, s, Claim(now, jobs)))
  {
    var s' := Apply(c, s, Claim(now, jobs));
    forall k | k in s.fires ensures k < s.nextTask {
      assert FireOk(s, k);
    }
    ClaimedFacts(s.rows, jobs, now);
    AddFiresFacts(s.fires, s.nextTask, jobs);
    forall k ensures SnapshotAgrees(s', k) && FireOk(s', k) {
      ClaimedSnapshot(c, s, now, jobs, k);
      ClaimedFire(c, s, now, jobs, k);
    }
    forall k, l ensures Distinct(s', k, l) {
      ClaimedDistinct(c, s, now, jobs, k, l);
    }
    forall i ensures ClaimBacked(s', i) && RowOk(c, s', i) {
      assert RowOk(c, s, i);
      ClaimedBacked(c, s, now, jobs, i);
    }
    QuotaKept(c, s, s');
  }

  /** The table and the fires after a claim. */
  lemma AfterClaim(c: Config, s: State, now: int, jobs: seq<CronJob>)
    requires Inv(c, s) && Enabled(c, s, Claim(now, jobs))
    ensures var s' := Apply(c, s, Claim(now, jobs));
      && s'.rows.Keys == s.rows.Keys
      && (forall id :: id in s.rows ==> s'.rows[id] == if id in JobIds(jobs) then ClaimedRow(s.rows[id], now) else s.rows[id])
      && (forall k: nat :: k in s'.fires <==> k in s.fires || s.nextTask <= k < s.nextTask + |jobs|)
      && (forall k :: k in s.fires ==> s'.fires[k] == s.fires[k] && k < s.nextTask)
      && (forall k :: s.nextTask <= k < s.nextTask + |jobs| ==> s'.fires[k] == Fire(jobs[k - s.nextTask], Taken))
  {
    forall k | k in s.fires ensures k < s.nextTask {
      assert FireOk(s, k);
    }
    ClaimedFacts(s.rows, jobs, now);
    AddFiresFacts(s.fires, s.nextTask, jobs);
  }

  lemma ClaimedSnapshot(c: Config, s: State, now: int, jobs: seq<CronJob>, k: nat)
    requires Inv(c, s) && Enabled(c, s, Claim(now, jobs))
    ensures SnapshotAgrees(Apply(c, s, Claim(now, jobs)), k)
  {
    AfterClaim(c, s, now, jobs);
    if s.nextTask <= k < s.nextTask + |jobs| {
      var job := jobs[k - s.nextTask];
      assert SelectedAt(s.rows, now, jobs, k - s.nextTask);
      assert job.jobId in JobIds(jobs);
    } else {
      assert SnapshotAgrees(s, k);
    }
  }

  lemma ClaimedFire(c: Config, s: State, now: int, jobs: seq<CronJob>, k: nat)
    requires Inv(c, s) && Enabled(c, s, Claim(now, jobs))
    ensures FireOk(Apply(c, s, Claim(now, jobs)), k)
  {
    AfterClaim(c, s, now, jobs);
    if s.nextTask <= k < s.nextTask + |jobs| {
      assert SelectedAt(s.rows, now, jobs, k - s.nextTask);
      assert RowOk(c, s, jobs[k - s.nextTask].jobId);
    } else {
      assert FireOk(s, k);
    }
  }

  /** A due row has no fire in flight, so the claim brings no second one. */
  lemma DueHasNoFire(c: Config, s: State, now: int, jobs: seq<CronJob>, i: nat, k: nat)
    requires Inv(c, s) && Enabled(c, s, Claim(now, jobs)) && i < |jobs|
    ensures Unsettled(s, k) ==> s.fires[k].job.jobId != jobs[i].jobId
  {
    assert SelectedAt(s.rows, now, jobs, i) && SnapshotAgrees(s, k);
  }

  lemma ClaimedDistinct(c: Config, s: State, now: int, jobs: seq<CronJob>, k: nat, l: nat)
    requires Inv(c, s) && Enabled(c, s, Claim(now, jobs))
    ensures Distinct(Apply(c, s, Claim(now, jobs)), k, l)
  {
    AfterClaim(c, s, now, jobs);
    assert Distinct(s, k, l);
    if s.nextTask <= k < s.nextTask + |jobs| {
      DueHasNoFire(c, s, now, jobs, k - s.nextTask, l);
    }
    if s.nextTask <= l < s.nextTask + |jobs| {
      DueHasNoFire(c, s, now, jobs, l - s.nextTask, k);
    }
  }

  lemma ClaimedBacked(c: Config, s: State, now: int, jobs: seq<CronJob>, id: string)
    requires Inv(c, s) && Enabled(c, s, Claim(now, jobs))
    ensures ClaimBacked(Apply(c, s, Claim(now, jobs)), id)
  {
    var s' := Apply(c, s, Claim(now, jobs));
    AfterClaim(c, s, now, jobs);
    assert ClaimBacked(s, id);
    if id in s.rows {
      if id in JobIds(jobs) {
        var j :| 0 <= j < |jobs| && jobs[j].jobId == id;
        assert SelectedAt(s.rows, now, jobs, j);
        assert Unsettled(s', s.nextTask + j);
      } else if s.rows[id].claimedAt.Some? {
        var k :| Unsettled(s, k) && s.fires[k].job.jobId == id;
        assert Unsettled(s', k);
      }
    }
  }

  lemma DispatchKeepsInv(c: Config, s: State)
    requires Inv(c, s) && s.poll.Dispatching?
    ensures Inv(c, Apply(c, s, Dispatch))
  {
    var s' := Apply(c, s, Dispatch);
    assert s'.fires.Keys == s.fires.Keys;
    forall k ensures SnapshotAgrees(s', k) && FireOk(s', k) {
      assert SnapshotAgrees(s, k) && FireOk(s, k);
    }
    forall k, l ensures Distinct(s', k, l) {
      assert Distinct(s, k, l);
    }
    forall i ensures ClaimBacked(s', i) && RowOk(c, s', i) {
      assert ClaimBacked(s, i) && RowOk(c, s, i);
      assert forall k :: Unsettled(s', k) == Unsettled(s, k);
    }
    QuotaKept(c, s, s');
    assert |s'.fires| == |s'.fires.Keys| && |s.fires| == |s.fires.Keys|;
  }

  lemma RestartKeepsInv(c: Config, s: State, now: int)
    requires Inv(c, s)
    ensures Inv(c, Apply(c, s, Restart(now)))
  {
    var s' := Apply(c, s, Restart(now));
    forall i ensures ClaimBacked(s', i) && RowOk(c, s', i) {
      assert RowOk(c, s, i);
    }
    QuotaKept(c, s, s');
  }

  lemma DreamDoneKeepsInv(c: Config, s: State)
    requires Inv(c, s) && s.dreaming
    ensures Inv(c, Apply(c, s, DreamDone))
  {
    var s' := Apply(c, s, DreamDone);
    forall k ensures SnapshotAgrees(s', k) && FireOk(s', k) {
      assert SnapshotAgrees(s, k) && FireOk(s, k);
    }
    forall k, l ensures Distinct(s', k, l) {
      assert Distinct(s, k, l);
    }
    forall i ensures ClaimBacked(s', i) && RowOk(c, s', i) {
      assert ClaimBacked(s, i) && RowOk(c, s, i);
      assert forall k :: Unsettled(s', k) == Unsettled(s, k);
    }
    QuotaKept(c, s, s');
  }

  lemma StepKeepsInv(c: Config, s: State, step: Step)
    requires Inv(c, s) && Enabled(c, s, step)
    ensures Inv(c, Apply(c, s, step))
  {
    match step
    case Create(job) => CreateKeepsInv(c, s, job);
    case Update(id, change) => UpdateKeepsInv(c, s, id, change);
    case Cancel(id) => CancelKeepsInv(c, s, id);
    case Delete(id) => DeleteKeepsInv(c, s, id);
    case PollBegin(now) => PollBeginKeepsInv(c, s, now);
    case Claim(now, jobs) => ClaimKeepsInv(c, s, now, jobs);
    case Dispatch => DispatchKeepsInv(c, s);
    case Succeed(task, now) => SucceedKeepsInv(c, s, task, now);
    case Fail(task, now, error, notify) => FailKeepsInv(c, s, task, now, error, notify);
    case Notified(task) => NotifiedKeepsInv(c, s, task);
    case DreamDone => DreamDoneKeepsInv(c, s);
    case Restart(now) => RestartKeepsInv(c, s, now);
  }
}
