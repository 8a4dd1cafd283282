/** The job array of the file backend; each operation reads it, changes it and
    writes it back at once (jobStore.js 150-206, 332-412). */
module JobStore {
  import opened Basics

  /** A drawn id, and how often "-retry" has been put behind it. */
  datatype JobId = JobId(root: nat, retries: nat)

  datatype Kind = REVOKE_TRIAL | RETRY_EVENT | AUTHORIZE_PENDING | OTHER

  datatype Job = Job(id: JobId, kind: Kind, runAt: nat, attempts: nat)

  function Without(jobs: seq<Job>, id: JobId): seq<Job> {
    if jobs == [] then []
    else Without(jobs[..|jobs| - 1], id) + if jobs[|jobs| - 1].id == id then [] else [jobs[|jobs| - 1]]
  }

  function Due(jobs: seq<Job>, now: nat): seq<Job> {
    if jobs == [] then []
    else Due(jobs[..|jobs| - 1], now) + if jobs[|jobs| - 1].runAt <= now then [jobs[|jobs| - 1]] else []
  }

  /** Removal takes every job with the id, and no other. */
  lemma {:induction false} WithoutKeeps(jobs: seq<Job>, id: JobId, j: Job)
    ensures j in Without(jobs, id) <==> j in jobs && j.id != id
  {
    if jobs != [] {
      WithoutKeeps(jobs[..|jobs| - 1], id, j);
      assert jobs == jobs[..|jobs| - 1] + [jobs[|jobs| - 1]];
    }
  }

  lemma {:induction false} DueIs(jobs: seq<Job>, now: nat, j: Job)
    ensures j in Due(jobs, now) <==> j in jobs && j.runAt <= now
  {
    if jobs != [] {
      DueIs(jobs[..|jobs| - 1], now, j);
      assert jobs == jobs[..|jobs| - 1] + [jobs[|jobs| - 1]];
    }
  }

  function IndexOf(jobs: seq<Job>, id: JobId): (idx: Option<nat>)
    ensures idx.Some? ==> idx.value < |jobs| && jobs[idx.value].id == id
    ensures idx.None? ==> forall i | 0 <= i < |jobs| :: jobs[i].id != id
  {
    if jobs == [] then None
    else if jobs[0].id == id then Some(0)
    else
      var idx := IndexOf(jobs[1..], id);
      if idx.Some? then Some(idx.value + 1) else None
  }

  /** One more attempt on the first job with the id. */
  function Incremented(jobs: seq<Job>, id: JobId): seq<Job> {
    var idx := IndexOf(jobs, id);
    if idx.Some? then jobs[idx.value := jobs[idx.value].(attempts := jobs[idx.value].attempts + 1)] else jobs
  }

  /** The attempts then counted; 0 when there is no such job. */
  function CountedAttempts(jobs: seq<Job>, id: JobId): nat {
    var idx := IndexOf(jobs, id);
    if idx.Some? then jobs[idx.value].attempts + 1 else 0
  }

  function Rescheduled(jobs: seq<Job>, id: JobId, runAt: nat): seq<Job> {
    var idx := IndexOf(jobs, id);
    if idx.Some? then jobs[idx.value := jobs[idx.value].(runAt := runAt)] else jobs
  }

  /** Both filters take the jobs one by one, in their order. */
  lemma FiltersSnoc(jobs: seq<Job>, j: Job, id: JobId, now: nat)
    ensures Without(jobs + [j], id) == Without(jobs, id) + if j.id == id then [] else [j]
    ensures Due(jobs + [j], now) == Due(jobs, now) + if j.runAt <= now then [j] else []
  {
    assert (jobs + [j])[..|jobs|] == jobs;
  }

  /** The job at this place is the first with the id. */
  ghost predicate First(jobs: seq<Job>, id: JobId, i: nat) {
    i < |jobs| && jobs[i].id == id && forall k | 0 <= k < i :: jobs[k].id != id
  }

  lemma {:induction false} IndexIsFirst(jobs: seq<Job>, id: JobId)
    ensures match IndexOf(jobs, id) case Some(i) => First(jobs, id, i) case None => forall i: nat :: !First(jobs, id, i)
  {
    if jobs != [] {
      IndexIsFirst(jobs[1..], id);
      var idx := IndexOf(jobs[1..], id);
      if jobs[0].id != id && idx.Some? {
        assert forall k | 1 <= k < idx.value + 1 :: jobs[k] == jobs[1..][k - 1];
      }
    }
  }

  /** Counting and putting off change one job, the first with the id, and of it the
      attempts or the time only. */
  lemma ChangedAt(jobs: seq<Job>, id: JobId, i: nat, runAt: nat)
    requires First(jobs, id, i)
    ensures Incremented(jobs, id) == jobs[i := Job(id, jobs[i].kind, jobs[i].runAt, jobs[i].attempts + 1)]
    ensures CountedAttempts(jobs, id) == jobs[i].attempts + 1
    ensures Rescheduled(jobs, id, runAt) == jobs[i := Job(id, jobs[i].kind, runAt, jobs[i].attempts)]
  {
    IndexIsFirst(jobs, id);
    assert IndexOf(jobs, id) == Some(i);
  }

  class JobStore {
    var jobs: seq<Job>

    constructor ()
      ensures jobs == []
    {
      jobs := [];
    }

    method AddJob(job: Job)
      modifies this
      ensures jobs == old(jobs) + [job]
    {
      jobs := jobs + [job];
    }

    method RemoveJobById(id: JobId)
      modifies this
      ensures jobs == Without(old(jobs), id)
    {
      var left: seq<Job> := [];
      for i := 0 to |jobs|
        invariant left == Without(jobs[..i], id)
      {
        assert jobs[..i + 1][..i] == jobs[..i];
        if jobs[i].id != id {
          left := left + [jobs[i]];
        }
      }
      assert jobs[..|jobs|] == jobs;
      jobs := left;
    }

    method GetDueJobs(now: nat) returns (due: seq<Job>)
      ensures due == Due(jobs, now)
    {
      due := [];
      for i := 0 to |jobs|
        invariant due == Due(jobs[..i], now)
      {
        assert jobs[..i + 1][..i] == jobs[..i];
        if jobs[i].runAt <= now {
          due := due + [jobs[i]];
        }
      }
      assert jobs[..|jobs|] == jobs;
    }

    method IncrementJobAttempts(id: JobId) returns (attempts: nat)
      modifies this
      ensures jobs == Incremented(old(jobs), id) && attempts == CountedAttempts(old(jobs), id)
    {
      var idx := IndexOf(jobs, id);
      if idx.None? {
        return 0;
      }
      jobs := jobs[idx.value := jobs[idx.value].(attempts := jobs[idx.value].attempts + 1)];
      return jobs[idx.value].attempts;
    }

    method RescheduleJob(id: JobId, nextRunAt: nat)
      modifies this
      ensures jobs == Rescheduled(old(jobs), id, nextRunAt)
    {
      var idx := IndexOf(jobs, id);
      if idx.Some? {
        jobs := jobs[idx.value := jobs[idx.value].(runAt := nextRunAt)];
      }
    }
  }
}
