/** The table of scheduled jobs. Every repository method is one atomic transition, since all writers hold
    the write lock. Times are integers. */
module CronRepository {
  import opened Messages

  datatype Mode = Once | Interval | Cron

  datatype CronJob = CronJob(
    jobId: string, sessionKey: string, prompt: string, mode: Mode,
    fireAt: Option<int>, intervalSeconds: Option<int>, cronExpression: Option<string>,
    maxRuns: Option<int>, runCount: nat, isActive: bool, createdAt: int, nextFireAt: int,
    lastFiredAt: Option<int>, claimedAt: Option<int>, failureCount: nat, lastError: Option<string>)

  type Table = map<string, CronJob>

  /** The new values of an update. */
  datatype Change = Change(
    prompt: string, mode: Mode, fireAt: Option<int>, intervalSeconds: Option<int>,
    cronExpression: Option<string>, maxRuns: Option<int>, nextFireAt: int)

  // ---- Row transitions ----

  function ClaimedRow(row: CronJob, now: int): CronJob {
    row.(claimedAt := Some(now))
  }

  function CompletedRow(row: CronJob, next: Option<int>, firedAt: int): CronJob {
    row.(runCount := row.runCount + 1, lastFiredAt := Some(firedAt), claimedAt := None, failureCount := 0,
         lastError := None, nextFireAt := if next.Some? then next.value else firedAt,
         isActive := row.isActive && next.Some?)
  }

  function FailedRow(row: CronJob, retryAt: int, error: string, deactivate: bool): CronJob {
    row.(claimedAt := None, failureCount := row.failureCount + 1, lastError := Some(error), nextFireAt := retryAt,
         isActive := row.isActive && !deactivate)
  }

  function ChangedRow(row: CronJob, c: Change): CronJob {
    row.(prompt := c.prompt, mode := c.mode, fireAt := c.fireAt, intervalSeconds := c.intervalSeconds,
         cronExpression := c.cronExpression, maxRuns := c.maxRuns, nextFireAt := c.nextFireAt,
         failureCount := 0, lastError := None)
  }

  // ---- Table transitions ----

  function Completed(t: Table, id: string, next: Option<int>, firedAt: int): Table {
    if id in t then t[id := CompletedRow(t[id], next, firedAt)] else t
  }

  function MarkedFailed(t: Table, id: string, retryAt: int, error: string, deactivate: bool): Table {
    if id in t then t[id := FailedRow(t[id], retryAt, error, deactivate)] else t
  }

  function Cancelled(t: Table, id: string): Table {
    if id in t && t[id].isActive then t[id := t[id].(isActive := false, claimedAt := None)] else t
  }

  predicate CanUpdate(t: Table, id: string) {
    id in t && t[id].isActive && t[id].claimedAt.None?
  }

  function Updated(t: Table, id: string, c: Change): Table {
    if CanUpdate(t, id) then t[id := ChangedRow(t[id], c)] else t
  }

  function Deleted(t: Table, id: string): Table {
    t - {id}
  }

  function Released(t: Table): Table {
    map id | id in t :: t[id].(claimedAt := None)
  }

  function ActiveJobs(t: Table, session: string): set<string> {
    set id | id in t && t[id].sessionKey == session && t[id].isActive
  }

  predicate IsDue(row: CronJob, now: int) {
    row.isActive && row.claimedAt.None? && row.nextFireAt <= now
  }

  function Claimed(t: Table, jobs: seq<CronJob>, now: int): Table
    decreases |jobs|
  {
    if jobs == [] then t
    else
      var n := |jobs| - 1;
      var before := Claimed(t, jobs[..n], now);
      if jobs[n].jobId in before then before[jobs[n].jobId := ClaimedRow(before[jobs[n].jobId], now)] else before
  }

  predicate SelectedAt(t: Table, now: int, jobs: seq<CronJob>, i: nat)
    requires i < |jobs|
  {
    jobs[i].jobId in t && t[jobs[i].jobId] == jobs[i] && IsDue(jobs[i], now)
  }

  function JobIds(jobs: seq<CronJob>): set<string> {
    set j | j in jobs :: j.jobId
  }

  lemma JobIdsAppend(jobs: seq<CronJob>, job: CronJob)
    ensures JobIds(jobs + [job]) == JobIds(jobs) + {job.jobId}
  {
  }

  /** A due job that was passed over fires no earlier than any selected one, and the limit was reached. */
  predicate PassedOver(t: Table, now: int, limit: int, jobs: seq<CronJob>, id: string)
    requires id in t
  {
    IsDue(t[id], now) && id !in JobIds(jobs) ==>
      |jobs| == limit && forall i :: 0 <= i < |jobs| ==> jobs[i].nextFireAt <= t[id].nextFireAt
  }

  /** The due rows in firing order, at most `limit` of them, as they were before the claim. */
  ghost predicate IsSelection(t: Table, now: int, limit: int, jobs: seq<CronJob>) {
    && |jobs| <= (if limit < 0 then 0 else limit)
    && (forall i :: 0 <= i < |jobs| ==> SelectedAt(t, now, jobs, i))
    && (forall i, j :: 0 <= i < j < |jobs| ==> jobs[i].jobId != jobs[j].jobId && jobs[i].nextFireAt <= jobs[j].nextFireAt)
    && (limit > 0 ==> forall id :: id in t ==> PassedOver(t, now, limit, jobs, id))
  }

  datatype InsertOutcome = Inserted | QuotaExceeded | DuplicateId

  function InsertResult(t: Table, job: CronJob, maxPerChat: int): InsertOutcome {
    if |ActiveJobs(t, job.sessionKey)| >= maxPerChat then QuotaExceeded
    else if job.jobId in t then DuplicateId
    else Inserted
  }

  /** Rows are stored under their own id. */
  ghost predicate Keyed(t: Table) {
    forall id :: id in t ==> t[id].jobId == id
  }

  // ---- The repository ----

  class Repository {
    var rows: Table

    constructor ()
      ensures rows == map[]
    {
      rows := map[];
    }

    /** The earliest of a non-empty set of rows. */
    method Earliest(ids: set<string>) returns (first: string)
      requires ids != {} && ids <= rows.Keys
      ensures first in ids && forall id :: id in ids ==> rows[first].nextFireAt <= rows[id].nextFireAt
    {
      first :| first in ids;
      var rest := ids - {first};
      while rest != {}
        invariant rest <= ids && first in ids
        invariant forall id :: id in ids - rest ==> rows[first].nextFireAt <= rows[id].nextFireAt
        decreases rest
      {
        var id :| id in rest;
        if rows[id].nextFireAt < rows[first].nextFireAt {
          first := id;
        }
        rest := rest - {id};
      }
    }

    /** The query of the claim: due rows ordered by firing time, up to the limit. */
    method SelectDue(now: int, limit: nat) returns (jobs: seq<CronJob>)
      requires Keyed(rows)
      ensures IsSelection(rows, now, limit, jobs)
    {
      jobs := [];
      var due := set id | id in rows && IsDue(rows[id], now);
      ghost var all := due;
      while due != {} && |jobs| < limit
        invariant due <= all && |jobs| <= limit
        invariant forall i :: 0 <= i < |jobs| ==> SelectedAt(rows, now, jobs, i) && jobs[i].jobId !in due
        invariant forall i, j :: 0 <= i < j < |jobs| ==> jobs[i].jobId != jobs[j].jobId && jobs[i].nextFireAt <= jobs[j].nextFireAt
        invariant all <= due + JobIds(jobs)
        invariant forall id, i :: id in due && 0 <= i < |jobs| ==> jobs[i].nextFireAt <= rows[id].nextFireAt
        decreases due
      {
        var id := Earliest(due);
        ghost var before := jobs;
        JobIdsAppend(jobs, rows[id]);
        jobs := jobs + [rows[id]];
        due := due - {id};
        assert forall i :: 0 <= i < |before| ==> SelectedAt(rows, now, before, i);
        assert jobs[|before|].jobId == id;
      }
    }

    /** The selection, and then the guarded claim of each selected row. */
    method ClaimDueJobs(now: int, limit: int) returns (claimed: seq<CronJob>)
      requires Keyed(rows)
      modifies this
      ensures IsSelection(old(rows), now, limit, claimed)
      ensures rows == Claimed(old(rows), claimed, now)
    {
      claimed := [];
      if limit <= 0 {
        return;
      }
      var selected := SelectDue(now, limit);
      ghost var before := rows;
      forall k | 0 <= k < |selected| ensures selected[k].jobId in rows && rows[selected[k].jobId] == selected[k] {
        assert SelectedAt(before, now, selected, k);
      }
      for i := 0 to |selected|
        invariant claimed == selected[..i]
        invariant rows == Claimed(before, selected[..i], now)
        invariant forall k :: i <= k < |selected| ==> selected[k].jobId in rows && rows[selected[k].jobId] == selected[k]
      {
        var row := selected[i];
        assert SelectedAt(before, now, selected, i);
        assert selected[..i + 1][..i] == selected[..i];
        if row.jobId in rows && rows[row.jobId].isActive && rows[row.jobId].claimedAt.None?
           && rows[row.jobId].nextFireAt == row.nextFireAt {
          rows := rows[row.jobId := ClaimedRow(rows[row.jobId], now)];
          claimed := claimed + [row];
        }
      }
      assert selected[..|selected|] == selected;
    }

    method GetJob(id: string) returns (job: Option<CronJob>)
      ensures job == if id in rows then Some(rows[id]) else None
    {
      job := if id in rows then Some(rows[id]) else None;
    }

    method CompleteFire(id: string, next: Option<int>, firedAt: int)
      modifies this
      ensures rows == Completed(old(rows), id, next, firedAt)
    {
      if id in rows {
        rows := rows[id := CompletedRow(rows[id], next, firedAt)];
      }
    }

    method MarkFailed(id: string, retryAt: int, error: string, deactivate: bool)
      modifies this
      ensures rows == MarkedFailed(old(rows), id, retryAt, error, deactivate)
    {
      if id in rows {
        rows := rows[id := FailedRow(rows[id], retryAt, error, deactivate)];
      }
    }

    method CancelJob(id: string) returns (ok: bool)
      modifies this
      ensures rows == Cancelled(old(rows), id)
      ensures ok <==> id in old(rows) && old(rows)[id].isActive
    {
      ok := id in rows && rows[id].isActive;
      if ok {
        rows := rows[id := rows[id].(isActive := false, claimedAt := None)];
      }
    }

    method UpdateJob(id: string, change: Change) returns (ok: bool)
      modifies this
      ensures rows == Updated(old(rows), id, change)
      ensures ok <==> CanUpdate(old(rows), id)
    {
      ok := id in rows && rows[id].isActive && rows[id].claimedAt.None?;
      if ok {
        rows := rows[id := ChangedRow(rows[id], change)];
      }
    }

    method DeleteJob(id: string) returns (ok: bool)
      modifies this
      ensures rows == Deleted(old(rows), id)
      ensures ok <==> id in old(rows)
    {
      ok := id in rows;
      rows := rows - {id};
    }

    method ReleaseStaleClaims() returns (released: nat)
      modifies this
      ensures rows == Released(old(rows))
      ensures released == |set id | id in old(rows) && old(rows)[id].claimedAt.Some?|
    {
      var stale := set id | id in rows && rows[id].claimedAt.Some?;
      released := |stale|;
      rows := map id | id in rows :: rows[id].(claimedAt := None);
    }

    /** Counts and inserts in one transaction; refuses when the chat's quota is used up, and fails on a
        primary key that is taken. */
    method InsertJobWithQuota(job: CronJob, maxPerChat: int) returns (outcome: InsertOutcome)
      modifies this
      ensures outcome == InsertResult(old(rows), job, maxPerChat)
      ensures rows == if outcome.Inserted? then old(rows)[job.jobId := job] else old(rows)
    {
      var count := |ActiveJobs(rows, job.sessionKey)|;
      if count >= maxPerChat {
        return QuotaExceeded;
      }
      if job.jobId in rows {
        return DuplicateId;
      }
      rows := rows[job.jobId := job];
      return Inserted;
    }
  }
}
