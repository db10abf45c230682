/** When the scheduler's tasks exceed their limit: exactly when the dreaming task runs beside as many fires as are
    allowed, which some run brings about exactly when dreaming is enabled and a job can run at all. */
module SchedulerLimit {
  import opened Messages
  import opened CronRepository
  import opened SchedulerProtocol
  import opened SchedulerRuns
  import opened SchedulerReach

  /** Dreaming is dispatched only when it is enabled and a slot is free, and only jobs within a quota exist. */
  ghost predicate Configured(c: Config, s: State) {
    && (s.dreaming ==> c.dreamingEnabled && c.maxConcurrentFires > 0)
    && (s.rows != map[] || s.fires != map[] ==> c.maxJobsPerChat > 0)
  }

  lemma ConfiguredStep(c: Config, s: State, step: Step)
    requires Configured(c, s) && Enabled(c, s, step)
    ensures Configured(c, Apply(c, s, step))
  {
    if step.Claim? {
      if step.jobs == [] {
        assert AddFires(s.fires, s.nextTask, []) == s.fires;
        assert Claimed(s.rows, [], step.now) == s.rows;
      } else {
        assert SelectedAt(s.rows, step.now, step.jobs, 0);
      }
    }
  }

  lemma {:induction false} ConfiguredRun(c: Config, s: State, steps: seq<Step>)
    requires Configured(c, s) && CanRun(c, s, steps)
    ensures Configured(c, Exec(c, s, steps))
    decreases |steps|
  {
    if steps != [] {
      ConfiguredStep(c, s, steps[0]);
      ConfiguredRun(c, Apply(c, s, steps[0]), steps[1..]);
    }
  }

  ghost predicate Exceeds(c: Config, s: State) {
    ActiveTasks(s) > AtLeastZero(c.maxConcurrentFires)
  }

  /** In a reachable state the limit is exceeded exactly when dreaming runs beside a full set of fires. */
  lemma ExceededByDreaming(c: Config, steps: seq<Step>)
    requires CanRun(c, INITIAL, steps)
    ensures var s := Exec(c, INITIAL, steps);
      Exceeds(c, s) <==> c.dreamingEnabled && s.dreaming && |Dispatched(s)| == c.maxConcurrentFires
  {
    var s := Exec(c, INITIAL, steps);
    InitialInv(c);
    RunKeepsInv(c, INITIAL, steps);
    ConfiguredRun(c, INITIAL, steps);
    SubsetSize(Dispatched(s), s.fires.Keys);
  }

  // ---- A run that exceeds the limit ----

  /** Dreaming is dispatched after the free slots were counted, so all slots can fill up beside it. */
  lemma LimitPlusOneIsReached(c: Config, s: State, now: int, jobs: seq<CronJob>)
    requires Inv(c, s) && s.poll.Idle?
    requires c.dreamingEnabled && !s.dreaming && s.dreamNextAt.Some? && s.dreamNextAt.value <= now
    requires 0 < Available(c, s) == |jobs| && IsSelection(s.rows, now, |jobs|, jobs)
    ensures var steps := [PollBegin(now), Claim(now, jobs), Dispatch];
      CanRun(c, s, steps) && ActiveTasks(Exec(c, s, steps)) == c.maxConcurrentFires + 1
  {
    var s1 := Apply(c, s, PollBegin(now));
    var s2 := Apply(c, s1, Claim(now, jobs));
    var s3 := Apply(c, s2, Dispatch);
    RunOne(c, s, PollBegin(now));
    RunThen(c, s, [PollBegin(now)], Claim(now, jobs));
    RunThen(c, s, [PollBegin(now)] + [Claim(now, jobs)], Dispatch);
    assert [PollBegin(now), Claim(now, jobs), Dispatch] == ([PollBegin(now)] + [Claim(now, jobs)]) + [Dispatch];
    forall k | k in s.fires ensures k < s.nextTask && k in Dispatched(s) {
      assert FireOk(s, k);
    }
    assert Dispatched(s) == s.fires.Keys;
    AddFiresFacts(s.fires, s.nextTask, jobs);
    assert Dispatched(s3) == s3.fires.Keys == s2.fires.Keys;
  }

  function Name(k: nat): string {
    seq(k, _ => 'x')
  }

  /** A one-shot job in a chat of its own. */
  function Job(k: nat): CronJob {
    CronJob(Name(k), Name(k), "reminder", Once, Some(1), None, None, None, 0, true, 0, 1, None, None, 0, None)
  }

  function Jobs(n: nat): (jobs: seq<CronJob>)
    ensures |jobs| == n && forall k :: 0 <= k < n ==> jobs[k] == Job(k)
  {
    if n == 0 then [] else Jobs(n - 1) + [Job(n - 1)]
  }

  function JobTable(n: nat): (t: Table)
    ensures forall id :: id in t <==> |id| < n && id == Name(|id|)
    ensures forall id :: id in t ==> t[id] == Job(|id|)
  {
    if n == 0 then map[] else JobTable(n - 1)[Name(n - 1) := Job(n - 1)]
  }

  function Names(n: nat): (names: set<string>)
    ensures forall id :: id in names <==> |id| < n && id == Name(|id|)
  {
    if n == 0 then {} else Names(n - 1) + {Name(n - 1)}
  }

  /** The scheduler started, with `n` jobs created. */
  function FilledState(c: Config, n: nat): State {
    INITIAL.(rows := JobTable(n), issued := Names(n), dreamNextAt := Some(c.dreamingInitialDelay))
  }

  function FillSteps(n: nat): seq<Step> {
    if n == 0 then [Restart(0)] else FillSteps(n - 1) + [Create(Job(n - 1))]
  }

  lemma {:induction false} Fill(c: Config, n: nat)
    requires c.dreamingEnabled && c.maxJobsPerChat > 0
    ensures CanRun(c, INITIAL, FillSteps(n)) && Exec(c, INITIAL, FillSteps(n)) == FilledState(c, n)
  {
    if n == 0 {
      assert Released(map[]) == map[];
      RunOne(c, INITIAL, Restart(0));
    } else {
      Fill(c, n - 1);
      var s, job := FilledState(c, n - 1), Job(n - 1);
      assert |Name(n - 1)| == n - 1;
      assert ActiveJobs(s.rows, job.sessionKey) == {};
      assert Apply(c, s, Create(job)) == FilledState(c, n);
      RunThen(c, INITIAL, FillSteps(n - 1), Create(job));
    }
  }

  lemma AllSelected(n: nat, now: int)
    requires n > 0 && now >= 1
    ensures IsSelection(JobTable(n), now, n, Jobs(n))
  {
    var t, jobs := JobTable(n), Jobs(n);
    forall i | 0 <= i < n ensures SelectedAt(t, now, jobs, i) {
      assert |Name(i)| == i;
      assert Name(i) in t;
    }
    forall i, j | 0 <= i < j < n ensures jobs[i].jobId != jobs[j].jobId {
      assert |Name(i)| == i && |Name(j)| == j;
    }
    forall id | id in t ensures PassedOver(t, now, n, jobs, id) {
      assert jobs[|id|] in jobs && jobs[|id|].jobId == id;
    }
  }

  lemma SomeRunExceeds(c: Config) returns (steps: seq<Step>)
    requires c.dreamingEnabled && c.maxConcurrentFires > 0 && c.maxJobsPerChat > 0
    ensures CanRun(c, INITIAL, steps) && Exceeds(c, Exec(c, INITIAL, steps))
  {
    var n, s := c.maxConcurrentFires, FilledState(c, c.maxConcurrentFires);
    var now := if c.dreamingInitialDelay > 1 then c.dreamingInitialDelay else 1;
    Fill(c, n);
    InitialInv(c);
    RunKeepsInv(c, INITIAL, FillSteps(n));
    AllSelected(n, now);
    assert Dispatched(s) == {};
    LimitPlusOneIsReached(c, s, now, Jobs(n));
    steps := [PollBegin(now), Claim(now, Jobs(n)), Dispatch];
    RunAppend(c, INITIAL, FillSteps(n), steps);
    steps := FillSteps(n) + steps;
  }

  ghost predicate RunExceeds(c: Config, steps: seq<Step>) {
    CanRun(c, INITIAL, steps) && Exceeds(c, Exec(c, INITIAL, steps))
  }

  /** Some run exceeds the limit exactly when dreaming is enabled and limit and quota allow a fire at all. */
  lemma LimitCanBeExceeded(c: Config)
    ensures (exists steps :: RunExceeds(c, steps))
        <==> c.dreamingEnabled && c.maxConcurrentFires > 0 && c.maxJobsPerChat > 0
  {
    if steps :| RunExceeds(c, steps) {
      var s := Exec(c, INITIAL, steps);
      ExceededByDreaming(c, steps);
      ConfiguredRun(c, INITIAL, steps);
      assert s.fires == map[] ==> Dispatched(s) == {};
    }
    if c.dreamingEnabled && c.maxConcurrentFires > 0 && c.maxJobsPerChat > 0 {
      var steps := SomeRunExceeds(c);
      assert RunExceeds(c, steps);
    }
  }
}
