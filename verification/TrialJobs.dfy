/**
 Trial authorizations and the jobs that revoke them: any number of ticks of the
 job runner, overlapping and each working from the due jobs it read at its start
 (stateMachine.js 110-151, jobRunner.js 19-133).
 */
module TrialJobs {
  import opened Basics
  import opened JobStore

  const RETRY_DELAY_MS: nat := 30000
  const BACKOFF_BASE_MS: nat := 30000
  const JITTER_CAP_MS: nat := 5000

  type TickId = nat

  /** Where a tick stands with the first job left of its snapshot. */
  datatype Pc =
    | Idle              // about to ask for the job's lock
    | Running           // the action is under way
    | Failing           // the revoke failed, not yet counted
    | Counted(n: nat)   // the attempts counted
    | Removing          // done with, about to be removed
    | Throwing          // an exception was caught
    | Replaced          // the "-retry" job has been added

  datatype Tick = Tick(due: seq<Job>, pc: Pc)

  /** Per trial (by the id drawn for its revoke job): when it was requested, when
      its revoke is due, when access was granted, when a revoke first succeeded,
      how many failed ones were counted. */
  datatype State = State(
    now: nat, jobs: seq<Job>, kinds: map<nat, Kind>, ticks: map<TickId, Tick>,
    requestedAt: map<nat, nat>, dueAt: map<nat, nat>, issuedAt: map<nat, nat>, revokedAt: map<nat, nat>,
    failures: map<nat, nat>)

  datatype Action =
    | Pass(ms: nat)
    | Request(trial: nat, ttl: nat)               // addJob, before the access is asked for
    | Issue(trial: nat)                           // the router grants the access
    | AddOther(root: nat, kind: Kind, wait: nat)  // a job of another kind
    | StartTick(k: TickId)
    | Skip(k: TickId)                             // the lock is not free
    | Begin(k: TickId)
    | Succeed(k: TickId)
    | Fail(k: TickId)
    | Finish(k: TickId)                           // a job of another kind is through
    | Throw(k: TickId)
    | Count(k: TickId)
    | Settle(k: TickId, jitter: nat)
    | Remove(k: TickId)
    | AddRetry(k: TickId)
    | RemoveOld(k: TickId)
    | Restart                                     // the process dies; the file stays

  predicate At(s: State, k: TickId, pc: Pc) { k in s.ticks && s.ticks[k].due != [] && s.ticks[k].pc == pc }

  function Current(s: State, k: TickId): Job
    requires k in s.ticks && s.ticks[k].due != []
  {
    s.ticks[k].due[0]
  }

  function Backoff(attempts: nat): nat
    requires attempts > 0
  {
    if attempts == 1 then BACKOFF_BASE_MS else 2 * Backoff(attempts - 1)
  }

  function Doubled(ms: nat, times: nat): nat { if times == 0 then ms else 2 * Doubled(ms, times - 1) }

  /** Thirty seconds, doubled for every attempt but the first. */
  lemma {:induction false} BackoffDoubles(attempts: nat)
    requires attempts > 0
    ensures Backoff(attempts) == Doubled(30000, attempts - 1)
  {
    if attempts > 1 {
      BackoffDoubles(attempts - 1);
    }
  }

  /** No lock is taken for granted: any tick may get any lock at any time. */
  predicate Enabled(max: nat, s: State, a: Action) {
    match a
    case Pass(_) => true
    case Request(trial, _) => trial !in s.kinds
    case Issue(trial) => trial in s.dueAt && trial !in s.issuedAt
    case AddOther(root, kind, _) => root !in s.kinds && kind != REVOKE_TRIAL
    case StartTick(k) => k !in s.ticks
    case Skip(k) => At(s, k, Idle)
    case Begin(k) => At(s, k, Idle)
    case Succeed(k) => At(s, k, Running) && Current(s, k).kind == REVOKE_TRIAL
    case Fail(k) => At(s, k, Running) && Current(s, k).kind == REVOKE_TRIAL
    case Finish(k) => At(s, k, Running) && Current(s, k).kind != REVOKE_TRIAL
    case Throw(k) => At(s, k, Running) || At(s, k, Failing) || At(s, k, Removing)
    case Count(k) => At(s, k, Failing)
    case Settle(k, jitter) =>
      && k in s.ticks && s.ticks[k].due != [] && s.ticks[k].pc.Counted?
      && (0 < s.ticks[k].pc.n < max ==> jitter < Min(JITTER_CAP_MS, Backoff(s.ticks[k].pc.n)))
    case Remove(k) => At(s, k, Removing)
    case AddRetry(k) => At(s, k, Throwing)
    case RemoveOld(k) => At(s, k, Replaced)
    case Restart => true
  }

  function Goto(s: State, k: TickId, pc: Pc): State
    requires k in s.ticks
  {
    s.(ticks := s.ticks[k := s.ticks[k].(pc := pc)])
  }

  /** On to the next job of the snapshot. */
  function Advance(s: State, k: TickId): State
    requires k in s.ticks && s.ticks[k].due != []
  {
    s.(ticks := s.ticks[k := Tick(s.ticks[k].due[1..], Idle)])
  }

  function RetryOf(j: Job, now: nat): Job {
    j.(id := JobId(j.id.root, j.id.retries + 1), runAt := now + RETRY_DELAY_MS)
  }

  /** When a failed revoke runs again. A count of 0 (the job is gone by then)
      gives half the base, and moves nothing. */
  function NextRun(n: nat, jitter: nat, now: nat): nat {
    now + (if n == 0 then BACKOFF_BASE_MS / 2 else Backoff(n)) + jitter
  }

  function Next(max: nat, s: State, a: Action): State
    requires Enabled(max, s, a)
  {
    match a
    case Pass(ms) => s.(now := s.now + ms)
    case Request(trial, ttl) =>
      s.(jobs := s.jobs + [Job(JobId(trial, 0), REVOKE_TRIAL, s.now + ttl, 0)],
         kinds := s.kinds[trial := REVOKE_TRIAL],
         requestedAt := s.requestedAt[trial := s.now], dueAt := s.dueAt[trial := s.now + ttl],
         failures := s.failures[trial := 0])
    case Issue(trial) => s.(issuedAt := s.issuedAt[trial := s.now])
    case AddOther(root, kind, wait) =>
      s.(jobs := s.jobs + [Job(JobId(root, 0), kind, s.now + wait, 0)], kinds := s.kinds[root := kind])
    case StartTick(k) => s.(ticks := s.ticks[k := Tick(Due(s.jobs, s.now), Idle)])
    case Skip(k) => Advance(s, k)
    case Begin(k) => Goto(s, k, Running)
    case Succeed(k) =>
      var d := Current(s, k).id.root;
      Goto(s.(revokedAt := if d in s.revokedAt then s.revokedAt else s.revokedAt[d := s.now]), k, Removing)
    case Fail(k) => Goto(s, k, Failing)
    case Finish(k) => Goto(s, k, Removing)
    case Throw(k) => Goto(s, k, Throwing)
    case Count(k) =>
      var id := Current(s, k).id;
      var had := if id.root in s.failures then s.failures[id.root] else 0;
      var n := CountedAttempts(s.jobs, id);
      Goto(s.(jobs := Incremented(s.jobs, id),
              failures := if n > 0 then s.failures[id.root := had + 1] else s.failures), k, Counted(n))
    case Settle(k, jitter) =>
      var id, n := Current(s, k).id, s.ticks[k].pc.n;
      Advance(s.(jobs := if n >= max then Without(s.jobs, id)
                         else Rescheduled(s.jobs, id, NextRun(n, jitter, s.now))), k)
    case Remove(k) => Advance(s.(jobs := Without(s.jobs, Current(s, k).id)), k)
    case AddRetry(k) => Goto(s.(jobs := s.jobs + [RetryOf(Current(s, k), s.now)]), k, Replaced)
    case RemoveOld(k) => Advance(s.(jobs := Without(s.jobs, Current(s, k).id)), k)
    case Restart => s.(ticks := map[])
  }

  ghost predicate Run(max: nat, s: State, acts: seq<Action>, t: State)
    decreases |acts|
  {
    if acts == [] then s == t
    else Enabled(max, s, acts[0]) && Run(max, Next(max, s, acts[0]), acts[1..], t)
  }

  ghost predicate Init(s: State) {
    && s.jobs == [] && s.kinds == map[] && s.ticks == map[]
    && s.requestedAt == map[] && s.dueAt == map[] && s.issuedAt == map[] && s.revokedAt == map[] && s.failures == map[]
  }

  // ---------------------------------------------------------------- invariant

  /** A live job of the trial, retried at least so often. */
  ghost predicate Live(jobs: seq<Job>, trial: nat, retries: nat) {
    exists j :: j in jobs && j.kind == REVOKE_TRIAL && j.id.root == trial && j.id.retries >= retries
  }

  ghost predicate Covered(max: nat, s: State, trial: nat, retries: nat) {
    || trial in s.revokedAt
    || (trial in s.failures && s.failures[trial] >= max)
    || Live(s.jobs, trial, retries)
  }

  /** What holds of a job in the file or in a snapshot. */
  ghost predicate JobOk(s: State, j: Job) {
    && j.id.root in s.kinds && s.kinds[j.id.root] == j.kind
    && (j.kind == REVOKE_TRIAL ==>
          && j.id.root in s.dueAt && s.dueAt[j.id.root] <= j.runAt
          && j.id.root in s.failures && j.attempts <= s.failures[j.id.root])
  }

  /** Why the tick may do what it does next. */
  ghost predicate PcOk(max: nat, s: State, j: Job, pc: Pc) {
    match pc
    case Removing => j.kind == REVOKE_TRIAL ==> j.id.root in s.revokedAt
    case Failing => j.kind == REVOKE_TRIAL
    case Counted(n) => j.kind == REVOKE_TRIAL && j.id.root in s.failures && n <= s.failures[j.id.root]
    case Replaced => j.kind == REVOKE_TRIAL ==> Covered(max, s, j.id.root, j.id.retries + 1)
    case _ => true
  }

  ghost predicate TickOk(max: nat, s: State, tick: Tick) {
    && (forall i {:trigger JobOk(s, tick.due[i])} | 0 <= i < |tick.due| ::
          JobOk(s, tick.due[i]) && tick.due[i].runAt <= s.now)
    && (tick.due != [] ==> PcOk(max, s, tick.due[0], tick.pc))
  }

  ghost predicate JobsOk(s: State, jobs: seq<Job>) { forall j {:trigger JobOk(s, j)} | j in jobs :: JobOk(s, j) }

  ghost predicate RevokedWhenDue(s: State) {
    forall d | d in s.revokedAt :: d in s.dueAt && s.dueAt[d] <= s.revokedAt[d] <= s.now
  }

  ghost predicate Inv(max: nat, s: State) {
    && JobsOk(s, s.jobs)
    && (forall k {:trigger TickOk(max, s, s.ticks[k])} | k in s.ticks :: TickOk(max, s, s.ticks[k]))
    && (forall d {:trigger Covered(max, s, d, 0)} | d in s.dueAt :: Covered(max, s, d, 0))
    && (forall d | d in s.issuedAt :: d in s.dueAt)
    && RevokedWhenDue(s)
    && s.dueAt.Keys <= s.kinds.Keys && s.failures.Keys <= s.dueAt.Keys
  }

  // ------------------------------------------------- what every step leaves be

  ghost predicate Grows(s: State, t: State) {
    && s.now <= t.now
    && (forall r | r in s.kinds :: r in t.kinds && t.kinds[r] == s.kinds[r])
    && (forall d | d in s.dueAt :: d in t.dueAt && t.dueAt[d] == s.dueAt[d])
    && (forall d | d in s.revokedAt :: d in t.revokedAt && t.revokedAt[d] == s.revokedAt[d])
    && (forall d | d in s.failures :: d in t.failures && s.failures[d] <= t.failures[d])
  }

  ghost predicate StaysCovered(max: nat, s: State, t: State, d: nat, r: nat) {
    Covered(max, s, d, r) ==> Covered(max, t, d, r)
  }

  ghost predicate KeepsCover(max: nat, s: State, t: State) { forall d: nat, r: nat :: StaysCovered(max, s, t, d, r) }

  lemma JobOkStable(s: State, t: State, j: Job)
    requires Grows(s, t) && JobOk(s, j)
    ensures JobOk(t, j)
  {
  }

  lemma JobsOkStable(s: State, t: State, jobs: seq<Job>)
    requires Grows(s, t) && JobsOk(s, jobs)
    ensures JobsOk(t, jobs)
  {
    forall j | j in jobs ensures JobOk(t, j) {
      JobOkStable(s, t, j);
    }
  }

  lemma TickOkStable(max: nat, s: State, t: State, tick: Tick)
    requires Grows(s, t) && KeepsCover(max, s, t) && TickOk(max, s, tick)
    ensures TickOk(max, t, tick)
  {
    forall i | 0 <= i < |tick.due| ensures JobOk(t, tick.due[i]) && tick.due[i].runAt <= t.now {
      JobOkStable(s, t, tick.due[i]);
    }
    if tick.due != [] {
      var j := tick.due[0];
      assert StaysCovered(max, s, t, j.id.root, j.id.retries + 1);
    }
  }

  /** A step that keeps every cover and puts one tick somewhere sound. */
  lemma StepKeepsInv(max: nat, s: State, t: State, k: TickId)
    requires Inv(max, s) && Grows(s, t) && KeepsCover(max, s, t)
    requires k in s.ticks && k in t.ticks && t.ticks == s.ticks[k := t.ticks[k]]
    requires TickOk(max, t, t.ticks[k])
    requires JobsOk(t, t.jobs) && RevokedWhenDue(t)
    requires t.dueAt == s.dueAt && t.issuedAt == s.issuedAt && t.kinds == s.kinds
    requires t.failures.Keys <= s.dueAt.Keys
    ensures Inv(max, t)
  {
    forall q | q in t.ticks ensures TickOk(max, t, t.ticks[q]) {
      if q != k {
        TickOkStable(max, s, t, s.ticks[q]);
      }
    }
    forall d | d in t.dueAt ensures Covered(max, t, d, 0) {
      assert StaysCovered(max, s, t, d, 0);
    }
  }

  lemma LiveWithJob(jobs: seq<Job>, j: Job, d: nat, r: nat)
    requires j in jobs && j.kind == REVOKE_TRIAL && j.id.root == d && j.id.retries >= r
    ensures Live(jobs, d, r)
  {
  }

  lemma MoreJobsKeepCover(max: nat, s: State, t: State)
    requires Grows(s, t) && forall j | j in s.jobs :: j in t.jobs
    ensures KeepsCover(max, s, t)
  {
    forall d: nat, r: nat ensures StaysCovered(max, s, t, d, r) {
      if Live(s.jobs, d, r) {
        var j :| j in s.jobs && j.kind == REVOKE_TRIAL && j.id.root == d && j.id.retries >= r;
        LiveWithJob(t.jobs, j, d, r);
      }
    }
  }

  /** Changing a job in place, its id and kind left alone. */
  lemma ChangedJobKeepsCover(max: nat, s: State, t: State, idx: nat)
    requires Grows(s, t) && idx < |s.jobs| && |t.jobs| == |s.jobs|
    requires forall i | 0 <= i < |s.jobs| && i != idx :: t.jobs[i] == s.jobs[i]
    requires t.jobs[idx].id == s.jobs[idx].id && t.jobs[idx].kind == s.jobs[idx].kind
    ensures KeepsCover(max, s, t)
  {
    forall d: nat, r: nat ensures StaysCovered(max, s, t, d, r) {
      if Live(s.jobs, d, r) {
        var j :| j in s.jobs && j.kind == REVOKE_TRIAL && j.id.root == d && j.id.retries >= r;
        var i :| 0 <= i < |s.jobs| && s.jobs[i] == j;
        LiveWithJob(t.jobs, t.jobs[i], d, r);
      }
    }
  }

  /** The id's jobs go: nothing is uncovered if its trial is covered otherwise,
      that is, by a job retried more often. */
  lemma RemovalKeepsCover(max: nat, s: State, t: State, id: JobId)
    requires Grows(s, t) && t.jobs == Without(s.jobs, id)
    requires (exists j :: j in s.jobs && j.id == id && j.kind == REVOKE_TRIAL) ==>
               Covered(max, s, id.root, id.retries + 1)
    ensures KeepsCover(max, s, t)
  {
    forall d: nat, r: nat ensures StaysCovered(max, s, t, d, r) {
      if Live(s.jobs, d, r) {
        var j :| j in s.jobs && j.kind == REVOKE_TRIAL && j.id.root == d && j.id.retries >= r;
        WithoutKeeps(s.jobs, id, j);
        if j.id != id {
          LiveWithJob(t.jobs, j, d, r);
        } else if Live(s.jobs, d, id.retries + 1) {
          var other :| other in s.jobs && other.kind == REVOKE_TRIAL && other.id.root == d
              && other.id.retries >= id.retries + 1;
          WithoutKeeps(s.jobs, id, other);
          LiveWithJob(t.jobs, other, d, r);
        }
      }
    }
  }

  // --------------------------------------------------------- step by step

  /** Steps outside the ticks that only add jobs or move the clock. */
  lemma OutsideKeepsInv(max: nat, s: State, a: Action)
    requires Inv(max, s) && Enabled(max, s, a) && (a.Pass? || a.Issue? || a.AddOther? || a.Restart?)
    ensures Inv(max, Next(max, s, a))
  {
    var t := Next(max, s, a);
    MoreJobsKeepCover(max, s, t);
    forall k | k in t.ticks ensures TickOk(max, t, t.ticks[k]) {
      TickOkStable(max, s, t, s.ticks[k]);
    }
    forall d | d in t.dueAt ensures Covered(max, t, d, 0) {
      assert StaysCovered(max, s, t, d, 0);
    }
    forall j | j in t.jobs ensures JobOk(t, j) {
      if j in s.jobs {
        JobOkStable(s, t, j);
      }
    }
  }

  lemma RequestKeepsInv(max: nat, s: State, trial: nat, ttl: nat)
    requires Inv(max, s) && Enabled(max, s, Request(trial, ttl))
    ensures Inv(max, Next(max, s, Request(trial, ttl)))
  {
    var t := Next(max, s, Request(trial, ttl));
    assert trial !in s.dueAt && trial !in s.failures;
    MoreJobsKeepCover(max, s, t);
    forall k | k in t.ticks ensures TickOk(max, t, t.ticks[k]) {
      TickOkStable(max, s, t, s.ticks[k]);
    }
    forall j | j in t.jobs ensures JobOk(t, j) {
      if j in s.jobs {
        JobOkStable(s, t, j);
      }
    }
    forall d | d in t.dueAt ensures Covered(max, t, d, 0) {
      if d == trial {
        LiveWithJob(t.jobs, t.jobs[|s.jobs|], trial, 0);
      } else {
        assert StaysCovered(max, s, t, d, 0);
      }
    }
  }

  lemma StartKeepsInv(max: nat, s: State, k: TickId)
    requires Inv(max, s) && Enabled(max, s, StartTick(k))
    ensures Inv(max, Next(max, s, StartTick(k)))
  {
    var t := Next(max, s, StartTick(k));
    MoreJobsKeepCover(max, s, t);
    forall q | q in t.ticks ensures TickOk(max, t, t.ticks[q]) {
      if q != k {
        TickOkStable(max, s, t, s.ticks[q]);
      } else {
        var due := Due(s.jobs, s.now);
        forall i | 0 <= i < |due| ensures JobOk(t, due[i]) && due[i].runAt <= t.now {
          DueIs(s.jobs, s.now, due[i]);
          JobOkStable(s, t, due[i]);
        }
      }
    }
    forall d | d in t.dueAt ensures Covered(max, t, d, 0) {
      assert StaysCovered(max, s, t, d, 0);
    }
    forall j | j in t.jobs ensures JobOk(t, j) {
      JobOkStable(s, t, j);
    }
  }

  /** The facts about the job a tick is at. */
  lemma CurrentOk(max: nat, s: State, k: TickId)
    requires Inv(max, s) && k in s.ticks && s.ticks[k].due != []
    ensures JobOk(s, Current(s, k)) && PcOk(max, s, Current(s, k), s.ticks[k].pc) && Current(s, k).runAt <= s.now
  {
    assert TickOk(max, s, s.ticks[k]);
  }

  /** The rest of a snapshot, or the same one at another place, stays sound. */
  lemma TickMovesOn(max: nat, s: State, t: State, tick: Tick, after: Tick)
    requires Grows(s, t) && KeepsCover(max, s, t) && TickOk(max, s, tick) && tick.due != []
    requires after == Tick(tick.due[1..], Idle) || (after.due == tick.due && PcOk(max, t, tick.due[0], after.pc))
    ensures TickOk(max, t, after)
  {
    forall i | 0 <= i < |tick.due| ensures JobOk(t, tick.due[i]) && tick.due[i].runAt <= t.now {
      JobOkStable(s, t, tick.due[i]);
    }
  }

  /** A tick's step keeps the invariant if it keeps every cover, leaves the job
      file sound, and takes the tick somewhere sound or on to its next job. */
  lemma TickStep(max: nat, s: State, t: State, k: TickId)
    requires Inv(max, s) && Grows(s, t) && KeepsCover(max, s, t)
    requires k in s.ticks && s.ticks[k].due != [] && k in t.ticks && t.ticks == s.ticks[k := t.ticks[k]]
    requires || t.ticks[k] == Tick(s.ticks[k].due[1..], Idle)
             || (t.ticks[k].due == s.ticks[k].due && PcOk(max, t, Current(s, k), t.ticks[k].pc))
    requires JobsOk(t, t.jobs) && RevokedWhenDue(t)
    requires t.dueAt == s.dueAt && t.issuedAt == s.issuedAt && t.kinds == s.kinds
    requires t.failures.Keys <= s.dueAt.Keys
    ensures Inv(max, t)
  {
    TickMovesOn(max, s, t, s.ticks[k], t.ticks[k]);
    StepKeepsInv(max, s, t, k);
  }

  lemma SucceedKeepsInv(max: nat, s: State, k: TickId)
    requires Inv(max, s) && Enabled(max, s, Succeed(k))
    ensures Inv(max, Next(max, s, Succeed(k)))
  {
    var t := Next(max, s, Succeed(k));
    CurrentOk(max, s, k);
    MoreJobsKeepCover(max, s, t);
    JobsOkStable(s, t, s.jobs);
    TickStep(max, s, t, k);
  }

  lemma GotoKeepsInv(max: nat, s: State, k: TickId, pc: Pc)
    requires Inv(max, s) && k in s.ticks && s.ticks[k].due != [] && PcOk(max, s, Current(s, k), pc)
    ensures Inv(max, Goto(s, k, pc))
  {
    var t := Goto(s, k, pc);
    MoreJobsKeepCover(max, s, t);
    JobsOkStable(s, t, s.jobs);
    assert TickOk(max, s, s.ticks[k]) && TickOk(max, s, t.ticks[k]);
    TickOkStable(max, s, t, t.ticks[k]);
    StepKeepsInv(max, s, t, k);
  }

  lemma AdvanceKeepsInv(max: nat, s: State, k: TickId)
    requires Inv(max, s) && k in s.ticks && s.ticks[k].due != []
    ensures Inv(max, Advance(s, k))
  {
    var t := Advance(s, k);
    MoreJobsKeepCover(max, s, t);
    JobsOkStable(s, t, s.jobs);
    TickStep(max, s, t, k);
  }

  /** A job changed in place stays sound if its id and kind stay, it runs no
      earlier than it is due, and its attempts are among the failures counted. */
  lemma ChangedJobsOk(max: nat, s: State, t: State, idx: nat)
    requires JobsOk(s, s.jobs) && Grows(s, t) && idx < |s.jobs| == |t.jobs| && t.jobs == s.jobs[idx := t.jobs[idx]]
    requires t.jobs[idx].id == s.jobs[idx].id && t.jobs[idx].kind == s.jobs[idx].kind
    requires JobOk(s, s.jobs[idx]) && t.jobs[idx].kind == REVOKE_TRIAL ==>
               && s.dueAt[t.jobs[idx].id.root] <= t.jobs[idx].runAt
               && t.jobs[idx].attempts <= t.failures[t.jobs[idx].id.root]
    ensures KeepsCover(max, s, t) && JobsOk(t, t.jobs)
  {
    assert s.jobs[idx] in s.jobs && JobOk(s, s.jobs[idx]);
    ChangedJobKeepsCover(max, s, t, idx);
    forall j | j in t.jobs ensures JobOk(t, j) {
      if j in s.jobs {
        JobOkStable(s, t, j);
      }
    }
  }

  lemma CountedJobsOk(max: nat, s: State, t: State, id: JobId)
    requires JobsOk(s, s.jobs) && Grows(s, t) && t.jobs == Incremented(s.jobs, id)
    requires id.root in s.failures && CountedAttempts(s.jobs, id) > 0 ==> t.failures[id.root] == s.failures[id.root] + 1
    ensures KeepsCover(max, s, t) && JobsOk(t, t.jobs)
    ensures id.root in s.failures && id.root in s.kinds && s.kinds[id.root] == REVOKE_TRIAL ==>
              CountedAttempts(s.jobs, id) <= t.failures[id.root]
  {
    var idx := IndexOf(s.jobs, id);
    if idx.Some? {
      assert JobOk(s, s.jobs[idx.value]);
      ChangedJobsOk(max, s, t, idx.value);
    } else {
      MoreJobsKeepCover(max, s, t);
      JobsOkStable(s, t, s.jobs);
    }
  }

  lemma CountKeepsInv(max: nat, s: State, k: TickId)
    requires Inv(max, s) && Enabled(max, s, Count(k))
    ensures Inv(max, Next(max, s, Count(k)))
  {
    var t := Next(max, s, Count(k));
    CurrentOk(max, s, k);
    CountedJobsOk(max, s, t, Current(s, k).id);
    TickStep(max, s, t, k);
  }

  lemma WithoutJobsOk(max: nat, s: State, t: State, id: JobId)
    requires JobsOk(s, s.jobs) && Grows(s, t) && t.jobs == Without(s.jobs, id)
    requires id.root in s.kinds && s.kinds[id.root] == REVOKE_TRIAL ==> Covered(max, s, id.root, id.retries + 1)
    ensures KeepsCover(max, s, t) && JobsOk(t, t.jobs)
  {
    if j :| j in s.jobs && j.id == id && j.kind == REVOKE_TRIAL {
      assert JobOk(s, j);
    }
    RemovalKeepsCover(max, s, t, id);
    forall j | j in t.jobs ensures JobOk(t, j) {
      WithoutKeeps(s.jobs, id, j);
      JobOkStable(s, t, j);
    }
  }

  lemma RescheduledJobsOk(max: nat, s: State, t: State, id: JobId, runAt: nat)
    requires JobsOk(s, s.jobs) && Grows(s, t) && t.jobs == Rescheduled(s.jobs, id, runAt)
    requires id.root in s.dueAt ==> s.dueAt[id.root] <= runAt
    ensures KeepsCover(max, s, t) && JobsOk(t, t.jobs)
  {
    var idx := IndexOf(s.jobs, id);
    if idx.Some? {
      assert JobOk(s, s.jobs[idx.value]);
      ChangedJobsOk(max, s, t, idx.value);
    } else {
      MoreJobsKeepCover(max, s, t);
      JobsOkStable(s, t, s.jobs);
    }
  }

  lemma SettleKeepsInv(max: nat, s: State, k: TickId, jitter: nat)
    requires Inv(max, s) && Enabled(max, s, Settle(k, jitter))
    ensures Inv(max, Next(max, s, Settle(k, jitter)))
  {
    var t := Next(max, s, Settle(k, jitter));
    CurrentOk(max, s, k);
    var id, n := Current(s, k).id, s.ticks[k].pc.n;
    if n >= max {
      WithoutJobsOk(max, s, t, id);
    } else {
      RescheduledJobsOk(max, s, t, id, NextRun(n, jitter, s.now));
    }
    TickStep(max, s, t, k);
  }

  lemma RemoveKeepsInv(max: nat, s: State, a: Action)
    requires Inv(max, s) && Enabled(max, s, a) && (a.Remove? || a.RemoveOld?)
    ensures Inv(max, Next(max, s, a))
  {
    var t := Next(max, s, a);
    CurrentOk(max, s, a.k);
    WithoutJobsOk(max, s, t, Current(s, a.k).id);
    TickStep(max, s, t, a.k);
  }

  lemma AddRetryKeepsInv(max: nat, s: State, k: TickId)
    requires Inv(max, s) && Enabled(max, s, AddRetry(k))
    ensures Inv(max, Next(max, s, AddRetry(k)))
  {
    var t := Next(max, s, AddRetry(k));
    CurrentOk(max, s, k);
    MoreJobsKeepCover(max, s, t);
    var j, retry := Current(s, k), RetryOf(Current(s, k), s.now);
    forall x | x in t.jobs ensures JobOk(t, x) {
      JobOkStable(s, t, if x in s.jobs then x else j);
    }
    if j.kind == REVOKE_TRIAL {
      assert t.jobs[|s.jobs|] == retry;
      LiveWithJob(t.jobs, retry, j.id.root, j.id.retries + 1);
    }
    TickStep(max, s, t, k);
  }

  lemma NextKeepsInv(max: nat, s: State, a: Action)
    requires Inv(max, s) && Enabled(max, s, a)
    ensures Inv(max, Next(max, s, a))
  {
    match a
    case Request(trial, ttl) => RequestKeepsInv(max, s, trial, ttl);
    case StartTick(k) => StartKeepsInv(max, s, k);
    case Succeed(k) => SucceedKeepsInv(max, s, k);
    case Count(k) => CountKeepsInv(max, s, k);
    case Settle(k, jitter) => SettleKeepsInv(max, s, k, jitter);
    case Remove(_) => RemoveKeepsInv(max, s, a);
    case RemoveOld(_) => RemoveKeepsInv(max, s, a);
    case AddRetry(k) => AddRetryKeepsInv(max, s, k);
    case Skip(k) => AdvanceKeepsInv(max, s, k);
    case Begin(k) => GotoKeepsInv(max, s, k, Running);
    case Fail(k) => GotoKeepsInv(max, s, k, Failing);
    case Finish(k) => GotoKeepsInv(max, s, k, Removing);
    case Throw(k) => GotoKeepsInv(max, s, k, Throwing);
    case _ => OutsideKeepsInv(max, s, a);
  }

  lemma {:induction false} RunKeepsInv(max: nat, s: State, acts: seq<Action>, t: State)
    requires Inv(max, s) && Run(max, s, acts, t)
    ensures Inv(max, t)
    decreases |acts|
  {
    if acts != [] {
      NextKeepsInv(max, s, acts[0]);
      RunKeepsInv(max, Next(max, s, acts[0]), acts[1..], t);
    }
  }

  // ----------------------------------------------------------------- theorems

  /** At every point of every run, with ticks overlapping and exceptions anywhere:
      each trial granted has a live revoke job, unless a revoke of it succeeded
      or its failed ones have reached the maximum. */
  lemma NoTrialWithoutRevoke(max: nat, s: State, acts: seq<Action>, t: State, trial: nat)
    requires Init(s) && Run(max, s, acts, t) && trial in t.issuedAt
    ensures || (exists j :: j in t.jobs && j.kind == REVOKE_TRIAL && j.id.root == trial)
            || trial in t.revokedAt
            || (trial in t.failures && t.failures[trial] >= max)
  {
    RunKeepsInv(max, s, acts, t);
    assert Covered(max, t, trial, 0);
  }

  /** No revoke succeeds before it is due; so one that ends a trial granted
      before then comes after the grant. */
  lemma RevokeComesAfter(max: nat, s: State, acts: seq<Action>, t: State, trial: nat)
    requires Init(s) && Run(max, s, acts, t) && trial in t.issuedAt && trial in t.revokedAt
    ensures trial in t.dueAt && t.dueAt[trial] <= t.revokedAt[trial]
    ensures t.issuedAt[trial] < t.dueAt[trial] ==> t.issuedAt[trial] < t.revokedAt[trial]
  {
    RunKeepsInv(max, s, acts, t);
  }

  /** A failure is counted for the trial exactly when it is counted on a job of the
      file; a restart loses the ticks and keeps the file. */
  lemma CountedTogether(max: nat, s: State, a: Action)
    requires Enabled(max, s, a) && (a.Count? || a.Restart?)
    ensures var t := Next(max, s, a);
            if a.Restart? then t == s.(ticks := map[])
            else t.failures == s.failures <==> t.jobs == s.jobs
  {
    if a.Count? {
      var t, id := Next(max, s, a), Current(s, a.k).id;
      var idx := IndexOf(s.jobs, id);
      if idx.Some? {
        assert t.jobs[idx.value] != s.jobs[idx.value];
        assert id.root in t.failures && (id.root in s.failures ==> t.failures[id.root] != s.failures[id.root]);
      }
    }
  }

  // ----------------------------------------------------- runs, written down

  datatype Log = Log(first: State, acts: seq<Action>, last: State)

  ghost predicate IsLog(max: nat, l: Log) { Run(max, l.first, l.acts, l.last) }

  /** `l` carried on by the action. */
  lemma CarryOn(max: nat, l: Log, a: Action) returns (m: Log)
    requires IsLog(max, l) && Enabled(max, l.last, a)
    ensures IsLog(max, m) && m.first == l.first && m.last == Next(max, l.last, a)
  {
    m := Log(l.first, l.acts + [a], Next(max, l.last, a));
    RunSnoc(max, l.first, l.acts, l.last, a);
  }

  lemma {:induction false} RunSnoc(max: nat, s: State, acts: seq<Action>, t: State, a: Action)
    requires Run(max, s, acts, t) && Enabled(max, t, a)
    ensures Run(max, s, acts + [a], Next(max, t, a))
    decreases |acts|
  {
    if acts == [] {
      assert Run(max, Next(max, s, a), [], Next(max, s, a));
    } else {
      assert (acts + [a])[1..] == acts[1..] + [a];
      RunSnoc(max, Next(max, s, acts[0]), acts[1..], t, a);
    }
  }

  function Empty(): State { State(0, [], map[], map[], map[], map[], map[], map[], map[]) }

  /** The trial's revoke was due a ttl after the request, and its access granted
      so much later. */
  predicate Granted(s: State, trial: nat, ttl: nat, took: nat) {
    && trial in s.requestedAt && trial in s.dueAt && trial in s.issuedAt
    && s.dueAt[trial] == s.requestedAt[trial] + ttl && s.issuedAt[trial] == s.requestedAt[trial] + took
  }

  lemma TickStartsOnTrial(max: nat, ttl: nat) returns (l: Log)
    ensures IsLog(max, l) && l.first == Empty()
    ensures var job := Job(JobId(7, 0), REVOKE_TRIAL, ttl, 0);
            && l.last.now == ttl && l.last.jobs == [job] && l.last.issuedAt == map[] && l.last.revokedAt == map[]
            && l.last.requestedAt == map[7 := 0] && l.last.dueAt == map[7 := ttl]
            && l.last.ticks == map[1 := Tick([job], Idle)]
  {
    l := Log(Empty(), [], Empty());
    l := CarryOn(max, l, Request(7, ttl));
    l := CarryOn(max, l, Pass(ttl));
    l := CarryOn(max, l, StartTick(1));
    SingleJob(Job(JobId(7, 0), REVOKE_TRIAL, ttl, 0), ttl);
  }

  lemma RevokedBeforeGranted(max: nat, ttl: nat) returns (l: Log)
    ensures IsLog(max, l) && l.first == Empty()
    ensures l.last.now == ttl && l.last.jobs == [] && l.last.issuedAt == map[] && l.last.requestedAt == map[7 := 0]
    ensures l.last.dueAt == map[7 := ttl] && l.last.revokedAt == map[7 := ttl]
  {
    l := TickStartsOnTrial(max, ttl);
    SingleJob(Job(JobId(7, 0), REVOKE_TRIAL, ttl, 0), ttl);
    l := CarryOn(max, l, Begin(1));
    l := CarryOn(max, l, Succeed(1));
    l := CarryOn(max, l, Remove(1));
  }

  /** A grant that takes as long as the trial, or longer, can outlive its revoke:
      nothing is left to end it. */
  lemma LateGrantIsNeverRevoked(max: nat, ttl: nat, took: nat) returns (acts: seq<Action>, t: State)
    requires ttl <= took
    ensures Init(Empty()) && Run(max, Empty(), acts, t) && Granted(t, 7, ttl, took)
    ensures 7 in t.revokedAt && t.revokedAt[7] <= t.issuedAt[7] && t.jobs == []
  {
    var l := RevokedBeforeGranted(max, ttl);
    l := CarryOn(max, l, Pass(took - ttl));
    l := CarryOn(max, l, Issue(7));
    acts, t := l.acts, l.last;
  }

  ghost predicate RevokedInTime(max: nat, ttl: nat, took: nat, s: State, acts: seq<Action>, t: State, trial: nat) {
    Init(s) && Run(max, s, acts, t) && Granted(t, trial, ttl, took) && trial in t.revokedAt ==>
      t.issuedAt[trial] < t.revokedAt[trial]
  }

  /** In every run a revoke that succeeds comes after the grant, exactly when the
      grant takes less time than the trial. */
  lemma RevokeFollowsGrantIff(max: nat, ttl: nat, took: nat)
    ensures (forall s, acts, t, trial: nat :: RevokedInTime(max, ttl, took, s, acts, t, trial)) <==> took < ttl
  {
    if took < ttl {
      forall s, acts, t, trial: nat ensures RevokedInTime(max, ttl, took, s, acts, t, trial) {
        if Init(s) && Run(max, s, acts, t) && Granted(t, trial, ttl, took) && trial in t.revokedAt {
          RevokeComesAfter(max, s, acts, t, trial);
        }
      }
    } else {
      var acts, t := LateGrantIsNeverRevoked(max, ttl, took);
      assert !RevokedInTime(max, ttl, took, Empty(), acts, t, 7);
    }
  }

  lemma SingleJob(job: Job, now: nat)
    requires job.runAt <= now
    ensures [] + [job] == [job] && Due([job], now) == [job] && Without([job], job.id) == []
  {
    assert [job][..0] == [];
  }

  // -------------------------------------------------------------- the runner

  /** What comes of one job of a tick: no lock, or the action's result. */
  datatype Outcome = Locked | Ok | NotOk | Threw

  /** The job file once a job of a snapshot has been through, `now` being when its
      action returned. */
  function AfterJob(max: nat, jobs: seq<Job>, job: Job, outcome: Outcome, now: nat, jitter: nat): seq<Job> {
    match outcome
    case Locked => jobs
    case Threw => Without(jobs + [RetryOf(job, now)], job.id)
    case Ok => Without(jobs, job.id)
    case NotOk =>
      if job.kind != REVOKE_TRIAL then Without(jobs, job.id)
      else
        var n := CountedAttempts(jobs, job.id);
        if n >= max then Without(Incremented(jobs, job.id), job.id)
        else Rescheduled(Incremented(jobs, job.id), job.id, NextRun(n, jitter, now))
  }

  function ClockAfter(now: nat, took: nat -> nat, n: nat): nat {
    if n == 0 then now else ClockAfter(now, took, n - 1) + took(n - 1)
  }

  /** and once the first `n` jobs of it have, one after another. */
  function AfterJobs(max: nat, jobs: seq<Job>, due: seq<Job>, outcome: nat -> Outcome, took: nat -> nat,
                     jitter: nat -> nat, now: nat, n: nat): seq<Job>
    requires n <= |due|
  {
    if n == 0 then jobs
    else
      AfterJob(max, AfterJobs(max, jobs, due, outcome, took, jitter, now, n - 1), due[n - 1], outcome(n - 1),
               ClockAfter(now, took, n), jitter(n - 1))
  }

  /** The jobs of a tick are handled one by one, each on the file the one before it
      left, at the time its own action returned. */
  lemma OneJobMore(max: nat, jobs: seq<Job>, due: seq<Job>, outcome: nat -> Outcome, took: nat -> nat,
                   jitter: nat -> nat, now: nat, n: nat)
    requires n < |due|
    ensures AfterJobs(max, jobs, due, outcome, took, jitter, now, 0) == jobs && ClockAfter(now, took, 0) == now
    ensures ClockAfter(now, took, n + 1) == ClockAfter(now, took, n) + took(n)
    ensures AfterJobs(max, jobs, due, outcome, took, jitter, now, n + 1) ==
            AfterJob(max, AfterJobs(max, jobs, due, outcome, took, jitter, now, n), due[n], outcome(n),
                     ClockAfter(now, took, n + 1), jitter(n))
  {
  }

  lemma InUpdated(jobs: seq<Job>, i: nat, changed: Job, j: Job)
    requires i < |jobs| && j.id != jobs[i].id && changed.id == jobs[i].id
    ensures j in jobs[i := changed] <==> j in jobs
  {
    if j in jobs {
      var k :| 0 <= k < |jobs| && jobs[k] == j;
      assert jobs[i := changed][k] == j;
    }
  }

  lemma IncrementedKeeps(jobs: seq<Job>, id: JobId, j: Job)
    requires j.id != id
    ensures j in Incremented(jobs, id) <==> j in jobs
  {
    var idx := IndexOf(jobs, id);
    if idx.Some? {
      InUpdated(jobs, idx.value, jobs[idx.value].(attempts := jobs[idx.value].attempts + 1), j);
    }
  }

  lemma RescheduledKeeps(jobs: seq<Job>, id: JobId, runAt: nat, j: Job)
    requires j.id != id
    ensures j in Rescheduled(jobs, id, runAt) <==> j in jobs
  {
    var idx := IndexOf(jobs, id);
    if idx.Some? {
      InUpdated(jobs, idx.value, jobs[idx.value].(runAt := runAt), j);
    }
  }

  /** A job that has been through leaves every job of another id in the file, and
      adds none but its own retry, after an exception. It is itself still there
      only if it was locked, or a revoke below the maximum of attempts. */
  lemma OtherJobsStay(max: nat, jobs: seq<Job>, job: Job, outcome: Outcome, now: nat, jitter: nat, j: Job)
    ensures var after := AfterJob(max, jobs, job, outcome, now, jitter);
            && (j.id != job.id ==> (j in after <==> j in jobs || (outcome == Threw && j == RetryOf(job, now))))
            && (j.id == job.id && j in after ==>
                  || outcome == Locked
                  || (outcome == NotOk && job.kind == REVOKE_TRIAL && CountedAttempts(jobs, job.id) < max))
  {
    WithoutKeeps(jobs, job.id, j);
    WithoutKeeps(jobs + [RetryOf(job, now)], job.id, j);
    WithoutKeeps(Incremented(jobs, job.id), job.id, j);
    if j.id != job.id {
      IncrementedKeeps(jobs, job.id, j);
      RescheduledKeeps(Incremented(jobs, job.id), job.id, NextRun(CountedAttempts(jobs, job.id), jitter, now), j);
    }
  }

  /** A job that threw comes back half a minute later, under its own id with "-retry"
      behind it, with its kind and its attempts. */
  lemma {:induction false} RetryIs(max: nat, jobs: seq<Job>, job: Job, now: nat, jitter: nat)
    requires forall i | 0 <= i < |jobs| :: jobs[i].id.root != job.id.root
    ensures AfterJob(max, jobs + [job], job, Threw, now, jitter) ==
            jobs + [Job(JobId(job.id.root, job.id.retries + 1), job.kind, now + 30000, job.attempts)]
  {
    var retry := RetryOf(job, now);
    OthersStay(jobs, job.id);
    FiltersSnoc(jobs, job, job.id, now);
    FiltersSnoc(jobs + [job], retry, job.id, now);
    assert jobs + [] == jobs;
  }

  lemma {:induction false} OthersStay(jobs: seq<Job>, id: JobId)
    requires forall i | 0 <= i < |jobs| :: jobs[i].id.root != id.root
    ensures Without(jobs, id) == jobs
  {
    if jobs != [] {
      OthersStay(jobs[..|jobs| - 1], id);
      assert jobs == jobs[..|jobs| - 1] + [jobs[|jobs| - 1]];
    }
  }

  /** A revoke that failed: counted, and dropped at the maximum; below it put off by
      the backoff of the attempts it now has, and the jitter. */
  lemma FailureIs(max: nat, jobs: seq<Job>, i: nat, now: nat, jitter: nat, j: Job)
    requires i < |jobs| && First(jobs, jobs[i].id, i) && jobs[i].kind == REVOKE_TRIAL
    ensures var after, job := AfterJob(max, jobs, jobs[i], NotOk, now, jitter), jobs[i];
            if job.attempts + 1 >= max then j in after <==> j in jobs && j.id != job.id
            else
              var later := now + Doubled(30000, job.attempts) + jitter;
              after == jobs[i := Job(job.id, REVOKE_TRIAL, later, job.attempts + 1)]
  {
    var job := jobs[i];
    var counted := Incremented(jobs, job.id);
    ChangedAt(jobs, job.id, i, 0);
    BackoffDoubles(job.attempts + 1);
    if job.attempts + 1 >= max {
      WithoutKeeps(counted, job.id, j);
      if j.id != job.id {
        IncrementedKeeps(jobs, job.id, j);
      }
    } else {
      assert First(counted, job.id, i);
      var later := NextRun(job.attempts + 1, jitter, now);
      ChangedAt(counted, job.id, i, later);
      var moved := Job(job.id, REVOKE_TRIAL, later, job.attempts + 1);
      assert jobs[i := counted[i]][i := moved] == jobs[i := moved];
    }
  }

  lemma BackoffIsLong(n: nat)
    requires n > 0
    ensures Backoff(n) >= BACKOFF_BASE_MS
  {
  }

  /** The tick's snapshot once it is through with the first job. */
  ghost predicate MovedOn(s: State, t: State, k: TickId)
    requires k in s.ticks && s.ticks[k].due != []
  {
    t.now == s.now && t.ticks == s.ticks[k := Tick(s.ticks[k].due[1..], Idle)]
  }

  lemma TickStarts(max: nat, l: Log, k: TickId) returns (m: Log)
    requires IsLog(max, l) && k !in l.last.ticks
    ensures IsLog(max, m) && m.first == l.first && m.last.jobs == l.last.jobs && m.last.now == l.last.now
    ensures m.last.ticks == l.last.ticks[k := Tick(Due(l.last.jobs, l.last.now), Idle)]
  {
    m := CarryOn(max, l, StartTick(k));
  }

  lemma TickBegins(max: nat, l: Log, k: TickId, took: nat, locked: bool) returns (m: Log)
    requires IsLog(max, l) && At(l.last, k, Idle)
    ensures IsLog(max, m) && m.first == l.first
    ensures m.last.jobs == l.last.jobs && m.last.now == l.last.now + took
    ensures var due := l.last.ticks[k].due;
            m.last.ticks == l.last.ticks[k := if locked then Tick(due[1..], Idle) else Tick(due, Running)]
  {
    m := CarryOn(max, l, Pass(took));
    m := CarryOn(max, m, if locked then Skip(k) else Begin(k));
  }

  lemma TickThrows(max: nat, l: Log, k: TickId) returns (m: Log)
    requires IsLog(max, l) && At(l.last, k, Running)
    ensures IsLog(max, m) && m.first == l.first && MovedOn(l.last, m.last, k)
    ensures var s := l.last;
            m.last.jobs == Without(s.jobs + [RetryOf(Current(s, k), s.now)], Current(s, k).id)
  {
    m := CarryOn(max, l, Throw(k));
    m := CarryOn(max, m, AddRetry(k));
    m := CarryOn(max, m, RemoveOld(k));
  }

  lemma ActionSucceeds(max: nat, l: Log, k: TickId) returns (m: Log)
    requires IsLog(max, l) && At(l.last, k, Running)
    ensures IsLog(max, m) && m.first == l.first && m.last.jobs == l.last.jobs && m.last.now == l.last.now
    ensures m.last.ticks == l.last.ticks[k := Tick(l.last.ticks[k].due, Removing)]
  {
    if Current(l.last, k).kind == REVOKE_TRIAL {
      m := CarryOn(max, l, Succeed(k));
    } else {
      m := CarryOn(max, l, Finish(k));
    }
  }

  lemma TickFinishes(max: nat, l: Log, k: TickId) returns (m: Log)
    requires IsLog(max, l) && At(l.last, k, Running)
    ensures IsLog(max, m) && m.first == l.first && MovedOn(l.last, m.last, k)
    ensures m.last.jobs == Without(l.last.jobs, Current(l.last, k).id)
  {
    m := ActionSucceeds(max, l, k);
    m := CarryOn(max, m, Remove(k));
  }

  lemma TickFails(max: nat, l: Log, k: TickId, jitter: nat) returns (m: Log)
    requires IsLog(max, l) && At(l.last, k, Running) && Current(l.last, k).kind == REVOKE_TRIAL
    requires jitter < JITTER_CAP_MS
    ensures IsLog(max, m) && m.first == l.first && MovedOn(l.last, m.last, k)
    ensures var s, id := l.last, Current(l.last, k).id;
            var counted, n := Incremented(s.jobs, id), CountedAttempts(s.jobs, id);
            m.last.jobs == if n >= max then Without(counted, id)
                           else Rescheduled(counted, id, NextRun(n, jitter, s.now))
  {
    m := CarryOn(max, l, Fail(k));
    m := CarryOn(max, m, Count(k));
    var n := CountedAttempts(l.last.jobs, Current(l.last, k).id);
    if n > 0 {
      BackoffIsLong(n);
    }
    m := CarryOn(max, m, Settle(k, jitter));
  }

  /** What comes of an event before its action, and of the action. */
  datatype Reception = Rejected | Accepted(took: nat, granted: bool, ok: bool)

  lemma TrialAsked(max: nat, l: Log, trial: nat, ttl: nat, r: Reception) returns (m: Log)
    requires IsLog(max, l) && r.Accepted?
    requires trial !in l.last.kinds && trial !in l.last.dueAt && trial !in l.last.issuedAt
    ensures IsLog(max, m) && m.first == l.first
    ensures m.last.jobs == l.last.jobs + [Job(JobId(trial, 0), REVOKE_TRIAL, l.last.now + ttl, 0)]
    ensures m.last.now == l.last.now + r.took && m.last.ticks == l.last.ticks
    ensures m.last.kinds == l.last.kinds[trial := REVOKE_TRIAL] && (trial in m.last.issuedAt <==> r.granted)
  {
    m := CarryOn(max, l, Request(trial, ttl));
    m := CarryOn(max, m, Pass(r.took));
    if r.granted {
      m := CarryOn(max, m, Issue(trial));
    }
  }

  lemma TrialRequested(max: nat, l: Log, trial: nat, retry: nat, ttl: nat, r: Reception) returns (m: Log)
    requires IsLog(max, l) && r.Accepted? && trial != retry
    requires trial !in l.last.kinds && retry !in l.last.kinds
    requires trial !in l.last.dueAt && trial !in l.last.issuedAt
    ensures IsLog(max, m) && m.first == l.first
    ensures var s := l.last;
            var revoke := Job(JobId(trial, 0), REVOKE_TRIAL, s.now + ttl, 0);
            var again := Job(JobId(retry, 0), RETRY_EVENT, s.now + r.took + RETRY_DELAY_MS, 0);
            && m.last.jobs == s.jobs + [revoke] + (if r.ok then [] else [again])
            && m.last.now == s.now + r.took && m.last.ticks == s.ticks
            && (trial in m.last.issuedAt <==> r.granted)
  {
    m := TrialAsked(max, l, trial, ttl, r);
    if !r.ok {
      m := CarryOn(max, m, AddOther(retry, RETRY_EVENT, RETRY_DELAY_MS));
    }
  }

  /** The process that takes events in and runs the due jobs. */
  class JobEngine {
    const max: nat
    const store: JobStore
    var now: nat
    ghost var log: Log      // everything the runner has done so far

    ghost predicate Valid()
      reads this, store
    {
      IsLog(max, log) && log.last.jobs == store.jobs && log.last.now == now
    }

    constructor (max: nat, store: JobStore, now: nat, ghost model: State)
      requires model.jobs == store.jobs && model.now == now
      ensures Valid() && this.max == max && this.store == store && log == Log(model, [], model)
    {
      this.max, this.store, this.now, this.log := max, store, now, Log(model, [], model);
    }

    /** TRIAL_REQUESTED: the revoke job is in the file before access is asked for,
        whatever then comes of the request. */
    method ProcessTrialRequested(trial: nat, retry: nat, ttl: nat, r: Reception) returns (ok: bool)
      requires Valid() && trial != retry && trial !in log.last.kinds && retry !in log.last.kinds
      requires trial !in log.last.dueAt && trial !in log.last.issuedAt
      modifies this`now, this`log, store
      ensures Valid() && log.first == old(log).first
      ensures r.Rejected? ==> !ok && store.jobs == old(store.jobs) && log == old(log)
      ensures r.Accepted? ==>
                && ok == r.ok
                && now == old(now) + r.took
                && store.jobs == old(store.jobs) + [Job(JobId(trial, 0), REVOKE_TRIAL, old(now) + ttl, 0)]
                                 + (if r.ok then [] else [Job(JobId(retry, 0), RETRY_EVENT, now + 30000, 0)])
                && (trial in log.last.issuedAt <==> r.granted)
    {
      if r.Rejected? {
        return false;
      }
      log := TrialRequested(max, log, trial, retry, ttl, r);
      var revoke := Job(JobId(trial, 0), REVOKE_TRIAL, now + ttl, 0);
      store.AddJob(revoke);
      assert store.jobs[|old(store.jobs)|] == revoke;
      now := now + r.took;
      if r.ok {
        assert store.jobs + [] == store.jobs;
        return true;
      }
      store.AddJob(Job(JobId(retry, 0), RETRY_EVENT, now + RETRY_DELAY_MS, 0));
      assert store.jobs[|old(store.jobs)|] == revoke;
      return false;
    }

    /** One tick that runs by itself, each job taking its time: the job file is
        what its due jobs leave of it one after another, and getting there is a
        run of the state machine. */
    method RunDueJobs(k: TickId, outcome: nat -> Outcome, took: nat -> nat, jitter: nat -> nat)
      requires Valid() && k !in log.last.ticks && forall i :: jitter(i) < JITTER_CAP_MS
      modifies this`now, this`log, store
      ensures Valid() && log.first == old(log).first
      ensures Run(max, log.first, log.acts, log.last)
      ensures log.last.ticks == old(log).last.ticks[k := Tick([], Idle)]
      ensures var due := Due(old(store.jobs), old(now));
              && store.jobs == AfterJobs(max, old(store.jobs), due, outcome, took, jitter, old(now), |due|)
              && now == ClockAfter(old(now), took, |due|)
    {
      log := TickStarts(max, log, k);
      var due := store.GetDueJobs(now);
      RunAll(k, due, outcome, took, jitter);
    }

    method RunAll(k: TickId, due: seq<Job>, outcome: nat -> Outcome, took: nat -> nat, jitter: nat -> nat)
      requires Valid() && k in log.last.ticks && log.last.ticks[k] == Tick(due, Idle)
      requires forall i :: jitter(i) < JITTER_CAP_MS
      modifies this`now, this`log, store
      ensures Valid() && log.first == old(log).first
      ensures log.last.ticks == old(log).last.ticks[k := Tick([], Idle)]
      ensures store.jobs == AfterJobs(max, old(store.jobs), due, outcome, took, jitter, old(now), |due|)
      ensures now == ClockAfter(old(now), took, |due|)
    {
      for i := 0 to |due|
        invariant Valid() && log.first == old(log).first
        invariant log.last.ticks == old(log).last.ticks[k := Tick(due[i..], Idle)]
        invariant store.jobs == AfterJobs(max, old(store.jobs), due, outcome, took, jitter, old(now), i)
        invariant now == ClockAfter(old(now), took, i)
      {
        assert due[i..][0] == due[i] && due[i..][1..] == due[i + 1..];
        RunNext(k, due[i], outcome(i), took(i), jitter(i));
      }
    }

    method RunNext(k: TickId, job: Job, outcome: Outcome, took: nat, jitter: nat)
      requires Valid() && At(log.last, k, Idle) && Current(log.last, k) == job && jitter < JITTER_CAP_MS
      modifies this`now, this`log, store
      ensures Valid() && log.first == old(log).first
      ensures log.last.ticks == old(log).last.ticks[k := Tick(old(log).last.ticks[k].due[1..], Idle)]
      ensures now == old(now) + took
      ensures store.jobs == AfterJob(max, old(store.jobs), job, outcome, now, jitter)
    {
      now := now + took;
      log := TickBegins(max, log, k, took, outcome == Locked);
      if outcome != Locked {
        RunJob(k, job, outcome, jitter);
      }
    }

    /** The branches for one job, up to its removal or rescheduling. */
    method RunJob(k: TickId, job: Job, outcome: Outcome, jitter: nat)
      requires Valid() && At(log.last, k, Running) && Current(log.last, k) == job && outcome != Locked
      requires jitter < JITTER_CAP_MS
      modifies this`log, store
      ensures Valid() && log.first == old(log).first && MovedOn(old(log).last, log.last, k)
      ensures store.jobs == AfterJob(max, old(store.jobs), job, outcome, now, jitter)
    {
      if outcome == Threw {
        log := TickThrows(max, log, k);
        store.AddJob(job.(id := JobId(job.id.root, job.id.retries + 1), runAt := now + RETRY_DELAY_MS));
        store.RemoveJobById(job.id);
      } else if job.kind == REVOKE_TRIAL && outcome == NotOk {
        RunFailed(k, job, jitter);
      } else {
        log := TickFinishes(max, log, k);
        store.RemoveJobById(job.id);
      }
    }

    /** A revoke that failed is counted; at the maximum its job is dropped, below
        it put off by the backoff, doubled with each attempt, and a jitter. */
    method RunFailed(k: TickId, job: Job, jitter: nat)
      requires Valid() && At(log.last, k, Running) && Current(log.last, k) == job && job.kind == REVOKE_TRIAL
      requires jitter < JITTER_CAP_MS
      modifies this`log, store
      ensures Valid() && log.first == old(log).first && MovedOn(old(log).last, log.last, k)
      ensures var counted, n := Incremented(old(store.jobs), job.id), CountedAttempts(old(store.jobs), job.id);
              store.jobs == if n >= max then Without(counted, job.id)
                            else Rescheduled(counted, job.id, NextRun(n, jitter, now))
    {
      log := TickFails(max, log, k, jitter);
      var attempts := store.IncrementJobAttempts(job.id);
      if attempts >= max {
        store.RemoveJobById(job.id);
      } else {
        store.RescheduleJob(job.id, NextRun(attempts, jitter, now));
      }
    }
  }
}
