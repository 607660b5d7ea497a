/** The repository over one session: its methods change the rows in place and are held to JobQueue's functions. */
module JobRepositoryModule {
  import opened Base
  import opened JobQueue
  import opened JobProperties
  import opened JobLaws

  /** The detached copy of a claimed row handed to a worker. */
  datatype JobLease = JobLease(id: JobId, row: Job)

  class AnalysisJobRepository {
    var jobs: JobDb

    constructor (rows: JobDb)
      ensures jobs == rows
    {
      jobs := rows;
    }

    /** SELECT ... WHERE account_id = ? AND idempotency_key = ?: at most one row, by the unique index. */
    method Lookup(account: AccountId, key: JobKey) returns (r: Option<JobId>)
      requires UniqueKeys(jobs)
      ensures r == FindKey(jobs, account, key)
    {
      var pool := jobs.Keys;
      while pool != {}
        invariant pool <= jobs.Keys
        invariant forall i :: i in jobs && i !in pool ==> !HasKey(jobs[i], account, key)
        decreases |pool|
      {
        var i :| i in pool;
        if HasKey(jobs[i], account, key) { return Some(i); }
        pool := pool - {i};
      }
      return None;
    }

    method Enqueue(dir: Directory, a: EnqueueArgs, newId: JobId, now: Time) returns (r: Result<JobId, JobError>)
      requires Inv(jobs) && newId !in jobs
      modifies this
      ensures Inv(jobs)
      ensures jobs == Apply(old(jobs), EnqueueStep(dir, old(jobs), a, newId, now))
      ensures JobQueue.Enqueue(dir, old(jobs), old(jobs), a, newId, now)
           == (if r.Ok? then Ok((jobs, r.value)) else Err(r.error))
    {
      StepKeepsInv(jobs, EnqueueStep(dir, jobs, a, newId, now));
      if !ValidEnqueue(a) { return Err(InvalidArgument); }
      var scope := ScopeError(dir, jobs, a.account, a.request);
      if scope.Some? { return Err(scope.value); }
      var existing := Lookup(a.account, a.key);
      if existing.Some? {
        if jobs[existing.value].request != a.request { return Err(DifferentRequest); }
        return Ok(existing.value);
      }
      if a.maxQueued.Some? && |OpenIds(jobs, a.account)| >= a.maxQueued.value { return Err(Backpressure); }
      jobs := jobs[newId := NewJob(a, now)];
      return Ok(newId);
    }

    /** SELECT ... ORDER BY priority DESC, available_at, created_at LIMIT 1. */
    method SelectCandidate(a: ClaimArgs) returns (best: Option<JobId>)
      ensures best.None? ==> forall o :: o in jobs ==> !Candidate(jobs, a, o)
      ensures best.Some? ==> Candidate(jobs, a, best.value)
      ensures best.Some? ==> forall o :: o in jobs && Candidate(jobs, a, o) ==> NotAfter(jobs[best.value], jobs[o])
    {
      best := None;
      var pool := jobs.Keys;
      while pool != {}
        invariant pool <= jobs.Keys
        invariant best.None? ==> forall o :: o in jobs && o !in pool ==> !Candidate(jobs, a, o)
        invariant best.Some? ==> Candidate(jobs, a, best.value)
        invariant best.Some? ==> forall o :: o in jobs && o !in pool && Candidate(jobs, a, o)
                                   ==> NotAfter(jobs[best.value], jobs[o])
        decreases |pool|
      {
        var i :| i in pool;
        pool := pool - {i};
        if Candidate(jobs, a, i) && (best.None? || !NotAfter(jobs[best.value], jobs[i])) {
          best := Some(i);
        }
      }
    }

    /** UPDATE ... WHERE id = ? AND still claimable; the row count tells whether it won. */
    method ClaimCas(a: ClaimArgs, id: JobId) returns (updated: bool)
      modifies this
      ensures updated <==> id in old(jobs) && Claimable(old(jobs), a.now, id)
      ensures jobs == if updated
                      then old(jobs)[id := ClaimRow(old(jobs)[id], a.worker, a.now + a.leaseSeconds)]
                      else old(jobs)
    {
      updated := id in jobs && Claimable(jobs, a.now, id);
      if updated {
        jobs := jobs[id := ClaimRow(jobs[id], a.worker, a.now + a.leaseSeconds)];
      }
    }

    /**
     Nothing is claimed only when the arguments are invalid, a cap is reached or no row is a candidate;
     otherwise the claimed row is one of the best candidates and nothing else changes.
     */
    method ClaimNext(a: ClaimArgs) returns (lease: Option<JobLease>)
      requires Inv(jobs)
      modifies this
      ensures Inv(jobs)
      ensures lease.None? ==> jobs == old(jobs)
      ensures lease.None? ==> !ValidClaim(a) || CapReached(jobs, a) || forall o :: o in jobs ==> !Candidate(jobs, a, o)
      ensures lease.Some? ==>
                var id := lease.value.id;
                && ClaimChoice(old(jobs), a, id)
                && jobs == Apply(old(jobs), ClaimStep(a, id))
                && lease.value.row == jobs[id]
                && HoldsLease(jobs[id], Token(jobs[id].account, id, a.worker, jobs[id].version), a.now)
    {
      if !ValidClaim(a) || CapReached(jobs, a) { return None; }
      var candidate := SelectCandidate(a);
      if candidate.None? { return None; }
      var updated := ClaimCas(a, candidate.value);
      StepKeepsInv(old(jobs), ClaimStep(a, candidate.value));
      return Some(JobLease(candidate.value, jobs[candidate.value]));
    }

    /** The compare-and-set under a parent lock that start, heartbeat, complete and fail share. */
    method LeaseWrite(t: Token, now: Time, w: Write, hash: Option<Hash>) returns (r: Result<Job, JobError>)
      modifies this
      ensures LeaseCas(old(jobs), t, now, w, hash) == (if r.Ok? then Ok(jobs) else Err(r.error))
      ensures r.Ok? ==> t.id in jobs && r.value == jobs[t.id]
      ensures r.Err? ==> jobs == old(jobs)
    {
      if t.id !in jobs || jobs[t.id].account != t.account { return Err(OutOfScope); }
      var job := jobs[t.id];
      if ParentRefuses(jobs, t.account, job) { return Err(ParentClosed); }
      if !HoldsLease(job, t, now) || !Allowed(job.status, w) { return Err(Stale); }
      if hash.Some? && hash.value != job.request.inputHash { return Err(Stale); }
      jobs := jobs[t.id := Written(job, w).(version := t.version + 1)];
      return Ok(jobs[t.id]);
    }

    method Start(t: Token, now: Time) returns (r: Result<Job, JobError>)
      modifies this
      ensures jobs == Apply(old(jobs), StartStep(t, now))
      ensures LeaseCas(old(jobs), t, now, JobQueue.Start, None) == (if r.Ok? then Ok(jobs) else Err(r.error))
      ensures r.Ok? ==> t.id in jobs && r.value == jobs[t.id] && jobs[t.id].status == Running
      ensures r.Err? ==> jobs == old(jobs)
    {
      r := LeaseWrite(t, now, JobQueue.Start, None);
    }

    method Heartbeat(t: Token, now: Time, seconds: nat) returns (r: Result<Job, JobError>)
      modifies this
      ensures jobs == Apply(old(jobs), HeartbeatStep(t, now, seconds))
      ensures HeartbeatLease(old(jobs), t, now, seconds) == (if r.Ok? then Ok(jobs) else Err(r.error))
      ensures r.Ok? ==> t.id in jobs && jobs[t.id].expires == Some(now + seconds) && jobs[t.id].version == t.version + 1
      ensures r.Err? ==> jobs == old(jobs)
    {
      if !(1 <= seconds <= 3600) { return Err(InvalidArgument); }
      r := LeaseWrite(t, now, Extend(now + seconds), None);
    }

    method Complete(t: Token, now: Time, hash: Hash, progress: Option<Progress>) returns (r: Result<Job, JobError>)
      modifies this
      ensures jobs == Apply(old(jobs), CompleteStep(t, now, hash, progress))
      ensures CompleteLease(old(jobs), t, now, hash, progress) == (if r.Ok? then Ok(jobs) else Err(r.error))
      ensures r.Ok? ==> t.id in jobs && jobs[t.id].status == Completed && jobs[t.id].owner.None?
      ensures r.Err? ==> jobs == old(jobs)
    {
      if t.id !in jobs || jobs[t.id].account != t.account { return Err(OutOfScope); }
      var p := if progress.Some? then progress.value else jobs[t.id].progress;
      if !ValidProgress(p) { return Err(InvalidArgument); }
      r := LeaseWrite(t, now, Finish(p), Some(hash));
    }

    /** A job given back stays out of reach of claims until the delay has passed; one out of attempts is dead. */
    method Fail(t: Token, now: Time, delay: nat) returns (r: Result<Job, JobError>)
      modifies this
      ensures jobs == Apply(old(jobs), FailStep(t, now, delay))
      ensures FailLease(old(jobs), t, now, delay) == (if r.Ok? then Ok(jobs) else Err(r.error))
      ensures r.Ok? ==> t.id in jobs
                        && jobs[t.id].status == (if jobs[t.id].attempts < jobs[t.id].maxAttempts then Retry else Dead)
      ensures r.Ok? ==> forall later :: later < now + delay && jobs[t.id].status == Retry ==> !Claimable(jobs, later, t.id)
      ensures r.Err? ==> jobs == old(jobs)
    {
      if delay > 86400 { return Err(InvalidArgument); }
      if t.id !in jobs || jobs[t.id].account != t.account { return Err(OutOfScope); }
      r := LeaseWrite(t, now, FailWrite(jobs, t.id, now, delay), None);
    }

    /** UPDATE ... WHERE parent_id = ? AND status IN (pending, retry), row by row. */
    method Cascade(id: JobId, account: AccountId)
      requires id in jobs && jobs[id].account == account && Open(jobs[id].status)
      modifies this
      ensures jobs.Keys == old(jobs).Keys
      ensures forall i :: i in jobs ==> jobs[i] == CascadedRow(old(jobs), id, account, i)
    {
      ghost var before := jobs;
      jobs := jobs[id := CancelRow(jobs[id])];
      var pool := jobs.Keys - {id};
      while pool != {}
        invariant pool <= jobs.Keys - {id} && jobs.Keys == before.Keys
        invariant forall i :: i in jobs ==> jobs[i] == if i in pool then before[i] else CascadedRow(before, id, account, i)
        decreases |pool|
      {
        var i :| i in pool;
        if CascadesTo(jobs, id, account, i) {
          jobs := jobs[i := jobs[i].(status := Cancelled, version := jobs[i].version + 1)];
        }
        pool := pool - {i};
      }
    }

    method Cancel(account: AccountId, id: JobId, version: nat) returns (r: Result<Job, JobError>)
      modifies this
      ensures jobs == Apply(old(jobs), CancelStep(account, id, version))
      ensures r.Ok? <==> JobQueue.Cancel(old(jobs), account, id, version).Ok?
      ensures r.Ok? ==> id in jobs && r.value == jobs[id] && jobs[id].status == Cancelled
    {
      if id !in jobs || jobs[id].account != account { return Err(OutOfScope); }
      if jobs[id].version != version || !Open(jobs[id].status) { return Err(Stale); }
      Cascade(id, account);
      return Ok(jobs[id]);
    }

    /** SELECT ... ORDER BY lease_expires_at, created_at: the next expired row among `pool`. */
    method NextExpired(now: Time, account: Option<AccountId>, rows: JobDb, pool: set<JobId>) returns (first: Option<JobId>)
      requires pool <= rows.Keys
      ensures first.None? ==> forall o :: o in pool ==> !Recoverable(rows, now, account, o)
      ensures first.Some? ==> First(rows, now, account, pool, first.value)
    {
      first := None;
      var rest := pool;
      while rest != {}
        invariant rest <= pool
        invariant first.None? ==> forall o :: o in pool && o !in rest ==> !Recoverable(rows, now, account, o)
        invariant first.Some? ==> first.value in pool && Recoverable(rows, now, account, first.value)
        invariant first.Some? ==> forall o :: o in pool && o !in rest && Recoverable(rows, now, account, o)
                                    ==> ExpiresNotAfter(rows[first.value], rows[o])
        decreases |rest|
      {
        var i :| i in rest;
        rest := rest - {i};
        if Recoverable(rows, now, account, i) && (first.None? || !ExpiresNotAfter(rows[first.value], rows[i])) {
          first := Some(i);
        }
      }
    }

    lemma RecoverOneMore(before: JobDb, now: Time, chosen: set<JobId>, i: JobId)
      requires i in before && i !in chosen
      ensures Recovered(before, now, chosen)[i := RecoverRow(before, before[i], now)]
           == Recovered(before, now, chosen + {i})
    {
    }

    /** The rows taken so far are expired and none left out ranks strictly before one of them. */
    static ghost predicate PassSoFar(before: JobDb, now: Time, account: Option<AccountId>, chosen: set<JobId>) {
      && (forall i :: i in chosen ==> Recoverable(before, now, account, i))
      && (forall i, o :: i in chosen && o in before && Recoverable(before, now, account, o) && o !in chosen
            ==> ExpiresNotAfter(before[i], before[o]))
    }

    static predicate First(before: JobDb, now: Time, account: Option<AccountId>, pool: set<JobId>, i: JobId)
      requires pool <= before.Keys
    {
      && i in pool && Recoverable(before, now, account, i)
      && forall o :: o in pool && Recoverable(before, now, account, o) ==> ExpiresNotAfter(before[i], before[o])
    }

    lemma PassExtends(before: JobDb, now: Time, account: Option<AccountId>, chosen: set<JobId>, i: JobId)
      requires PassSoFar(before, now, account, chosen)
      requires First(before, now, account, before.Keys - chosen, i)
      ensures PassSoFar(before, now, account, chosen + {i})
    {
    }

    /** UPDATE ... WHERE id = ? AND version = ? AND still expired; returns the row count. */
    method RecoverCas(before: JobDb, i: JobId, now: Time) returns (updated: nat)
      requires i in before && i in jobs
      modifies this
      ensures updated == if old(jobs)[i].version == before[i].version && Expired(old(jobs)[i], now) then 1 else 0
      ensures jobs == if updated == 1 then old(jobs)[i := RecoverRow(before, before[i], now)] else old(jobs)
    {
      if jobs[i].version != before[i].version || !Expired(jobs[i], now) { return 0; }
      jobs := jobs[i := RecoverRow(before, before[i], now)];
      return 1;
    }

    /** Every row of the selected batch is given back; the count is the number of rows changed. */
    method RecoverExpiredLeases(now: Time, limit: nat, account: Option<AccountId>)
      returns (recovered: nat, ghost chosen: set<JobId>)
      requires Inv(jobs) && 1 <= limit <= 1000
      modifies this
      ensures Inv(jobs)
      ensures RecoverChoice(old(jobs), now, limit, account, chosen)
      ensures jobs == Recovered(old(jobs), now, chosen)
      ensures recovered == |chosen|
      ensures forall i :: i in old(jobs) && old(jobs)[i].request.parent.Some? ==> old(jobs)[i].request.parent.value in old(jobs)
      ensures forall i :: i in old(jobs) && i in chosen ==> GivenBack(old(jobs), jobs, i, now)
      ensures forall i :: i in old(jobs) && i !in chosen ==> jobs[i] == old(jobs)[i]
    {
      var before := jobs;
      var pool := jobs.Keys;
      recovered := 0;
      chosen := {};
      while recovered < limit
        invariant recovered == |chosen| && recovered <= limit
        invariant chosen <= before.Keys && pool == before.Keys - chosen
        invariant jobs == Recovered(before, now, chosen)
        invariant PassSoFar(before, now, account, chosen)
      {
        var next := NextExpired(now, account, before, pool);
        if next.None? { break; }
        var i := next.value;
        RecoverOneMore(before, now, chosen, i);
        PassExtends(before, now, account, chosen, i);
        var updated := RecoverCas(before, i, now);
        recovered := recovered + updated;
        pool := pool - {i};
        chosen := chosen + {i};
      }
      RecoveredKeepsInv(before, now, limit, account, chosen);
      forall i | i in before
        ensures before[i].request.parent.Some? ==> before[i].request.parent.value in before
        ensures if i in chosen then GivenBack(before, jobs, i, now) else jobs[i] == before[i]
      {
        RecoveredJobReturns(before, now, limit, account, chosen, i);
      }
    }
  }
}
