/** What each operation on a job means to its workers: when the job is ready again, and how long a lease is good. */
module JobLaws {
  import opened Base
  import opened JobQueue
  import opened JobProperties

  // ---------------------------------------------------------------- enqueue

  /** A job that was not there before holds what it was enqueued with, and is ready exactly from its time on. */
  lemma NewJobIsReady(db: JobDb, step: Step, id: JobId)
    requires Inv(db) && id !in db && id in Apply(db, step)
    ensures step.EnqueueStep?
    ensures var (job, a) := (Apply(db, step)[id], step.args);
            && job.account == a.account && job.key == a.key && job.request == a.request && job.createdAt == step.now
            && job.maxAttempts == a.maxAttempts && job.progress == a.progress && job.attempts == 0 && job.version == 1
    ensures forall t :: Claimable(Apply(db, step), t, id) <==> step.args.availableAt <= t
    ensures forall other :: other in db ==> other in Apply(db, step) && Apply(db, step)[other] == db[other]
  {
    EnqueueAdds(db, step, id);
  }

  predicate TakesWork(db: JobDb, id: JobId)
    requires id in db
  {
    db[id].status in {Pending, Retry, Claimed, Running}
  }

  /** The contact, the conversation and the parent a request names are the account's, and the parent still takes work. */
  predicate OwnWork(dir: Directory, db: JobDb, account: AccountId, r: Request) {
    && account in dir.accounts
    && (r.contact.Some? ==> r.contact.value in dir.contacts && dir.contacts[r.contact.value] == account)
    && (r.conversation.Some? ==>
          && r.conversation.value in dir.conversations && dir.conversations[r.conversation.value].account == account
          && (r.contact.None? || dir.conversations[r.conversation.value].contact == r.contact))
    && (r.parent.Some? ==> r.parent.value in db && db[r.parent.value].account == account && TakesWork(db, r.parent.value))
  }

  /** Counts that add up, an attempt at least, and nothing larger than its column. */
  predicate WellFormed(a: EnqueueArgs) {
    && a.request.priority < 0x8000_0000 && a.request.budgetTokens <= 1_000_000_000_000 && 1 <= a.maxAttempts <= 1000
    && a.progress.total < 0x8000_0000 && a.progress.completed + a.progress.failed <= a.progress.total
    && (a.maxQueued.Some? ==> 1 <= a.maxQueued.value <= 1_000_000)
  }

  /** A request is queued exactly when it is well formed, the account's own work, under a free key, and there is a place. */
  lemma QueuedIff(dir: Directory, db: JobDb, a: EnqueueArgs, newId: JobId, now: Time)
    requires Inv(db) && newId !in db
    ensures newId in Apply(db, EnqueueStep(dir, db, a, newId, now)) <==>
              && WellFormed(a) && OwnWork(dir, db, a.account, a.request)
              && (forall j :: j in db ==> !(db[j].account == a.account && db[j].key == a.key))
              && (a.maxQueued.Some? ==>
                    |set j | j in db && db[j].account == a.account && db[j].status in {Pending, Retry, Claimed, Running}|
                    < a.maxQueued.value)
  {
    assert OpenIds(db, a.account)
        == set j | j in db && db[j].account == a.account && db[j].status in {Pending, Retry, Claimed, Running};
    assert ScopeError(dir, db, a.account, a.request).None? <==> OwnWork(dir, db, a.account, a.request);
    assert (forall j :: j in db ==> !(db[j].account == a.account && db[j].key == a.key))
           <==> FindKey(db, a.account, a.key).None? by {
      forall j | j in db ensures HasKey(db[j], a.account, a.key) <==> db[j].account == a.account && db[j].key == a.key {}
    }
  }

  // ---------------------------------------------------------------- claim

  predicate Affordable(cost: nat, limit: Option<nat>) {
    limit == None || cost == 0 || cost <= limit.value
  }

  /** A claim takes a job that is due, with an attempt left and an open parent, within the claimer's account and budgets. */
  lemma ClaimTakesDueWork(db: JobDb, c: ClaimArgs, id: JobId)
    requires Inv(db) && Apply(db, ClaimStep(c, id)) != db
    ensures id in db
    ensures var x := db[id];
            && x.status in {Pending, Retry} && x.availableAt <= c.now && x.attempts < x.maxAttempts
            && (x.request.parent.Some? ==> x.request.parent.value in db && TakesWork(db, x.request.parent.value))
            && (c.account == None || c.account == Some(x.account))
            && Affordable(x.request.budgetTokens, c.budgetTokens) && Affordable(x.request.budgetCost, c.budgetCost)
    ensures Apply(db, ClaimStep(c, id)) == db[id := db[id].(status := Claimed, owner := Some(c.worker),
              expires := Some(c.now + c.leaseSeconds), attempts := db[id].attempts + 1, version := db[id].version + 1)]
  {
    assert RowOk(db, id);
  }

  /** The leased jobs of an account. */
  function LeasedOf(db: JobDb, account: AccountId): set<JobId> {
    set j | j in db && db[j].account == account && db[j].status in {Claimed, Running}
  }

  /** Due, with an open parent, in the claimer's account and budgets, and its account has a place left. */
  predicate IsWork(db: JobDb, c: ClaimArgs, o: JobId)
    requires o in db
  {
    && db[o].status in {Pending, Retry} && db[o].availableAt <= c.now
    && (db[o].request.parent.Some? ==> db[o].request.parent.value in db && TakesWork(db, db[o].request.parent.value))
    && (c.account == None || c.account == Some(db[o].account))
    && Affordable(db[o].request.budgetTokens, c.budgetTokens) && Affordable(db[o].request.budgetCost, c.budgetCost)
    && (c.accountCap == None || |LeasedOf(db, db[o].account)| < c.accountCap.value)
  }

  lemma WorkIsCandidate(db: JobDb, c: ClaimArgs, o: JobId)
    requires Inv(db) && o in db
    ensures IsWork(db, c, o) <==> Candidate(db, c, o)
  {
    assert RowOk(db, o);
    assert ActiveOf(db, db[o].account) == LeasedOf(db, db[o].account);
  }

  /** Nothing that could have been claimed instead has a higher priority, or came earlier with the same one. */
  lemma NothingIsPassedOver(db: JobDb, c: ClaimArgs, id: JobId, o: JobId)
    requires Inv(db) && Apply(db, ClaimStep(c, id)) != db && o in db && IsWork(db, c, o)
    ensures id in db
    ensures var (x, y) := (db[id], db[o]);
            && y.request.priority <= x.request.priority
            && (y.request.priority == x.request.priority ==> x.availableAt <= y.availableAt)
            && (y.request.priority == x.request.priority && y.availableAt == x.availableAt ==> x.createdAt <= y.createdAt)
  {
    WorkIsCandidate(db, c, o);
  }

  /** A set of candidates that is not empty has one that none of the others ranks before. */
  lemma {:induction false} BestExists(db: JobDb, pool: set<JobId>) returns (best: JobId)
    requires pool != {} && pool <= db.Keys
    ensures best in pool && forall o :: o in pool ==> NotAfter(db[best], db[o])
    decreases |pool|
  {
    var i :| i in pool;
    best := i;
    if pool != {i} {
      var rest := BestExists(db, pool - {i});
      if !NotAfter(db[i], db[rest]) { best := rest; }
    }
  }

  predicate HasRoom(db: JobDb, c: ClaimArgs) {
    c.globalCap.Some? ==> |set j | j in db && db[j].status in {Claimed, Running}| < c.globalCap.value
  }

  /** A claimer with valid arguments finds work exactly when there is room under the cap and some job is work for it. */
  lemma WorkIsFoundIff(db: JobDb, c: ClaimArgs)
    requires Inv(db)
    ensures (exists id :: ClaimChoice(db, c, id)) <==>
              ValidClaim(c) && HasRoom(db, c) && (exists o :: o in db && IsWork(db, c, o))
  {
    assert ActiveIds(db) == set j | j in db && db[j].status in {Claimed, Running};
    forall o | o in db ensures IsWork(db, c, o) <==> Candidate(db, c, o) { WorkIsCandidate(db, c, o); }
    var pool := set o | o in db && Candidate(db, c, o);
    assert forall id :: ClaimChoice(db, c, id) ==> id in pool;
    assert forall o :: o in db && IsWork(db, c, o) ==> o in pool;
    if ValidClaim(c) && HasRoom(db, c) && pool != {} {
      var best := BestExists(db, pool);
      assert c.account.Some? ==> db[best].account == c.account.value;
      assert !CapReached(db, c) && ClaimChoice(db, c, best);
    }
  }

  /** Nobody claims for more than an hour, or without a lease at all. */
  lemma LeasesAreShort(db: JobDb, c: ClaimArgs, id: JobId)
    requires Apply(db, ClaimStep(c, id)) != db
    ensures 1 <= c.leaseSeconds <= 3600
    ensures (c.globalCap.Some? ==> 1 <= c.globalCap.value) && (c.accountCap.Some? ==> 1 <= c.accountCap.value)
  {
  }

  /** The token of a claim is good for its start exactly until the lease has run. */
  lemma ClaimIsGoodUntil(db: JobDb, c: ClaimArgs, id: JobId, s: Time)
    requires Inv(db) && ClaimChoice(db, c, id)
    ensures var t := Token(db[id].account, id, c.worker, db[id].version + 1);
            LeaseCas(Apply(db, ClaimStep(c, id)), t, s, Start, None).Ok? <==> s < c.now + c.leaseSeconds
  {
    assert RowOk(db, id);
    if db[id].request.parent.Some? { assert db[id].request.parent.value != id; }
  }

  // ---------------------------------------------------------------- lease operations

  /** A heartbeat makes the lease good exactly until its own time plus the seconds asked for. */
  lemma HeartbeatIsGoodUntil(db: JobDb, t: Token, now: Time, seconds: nat, s: Time)
    requires Inv(db) && HeartbeatLease(db, t, now, seconds).Ok?
    ensures var after := HeartbeatLease(db, t, now, seconds).value;
            && t.id in after && after[t.id] == db[t.id].(expires := Some(now + seconds), version := db[t.id].version + 1)
            && (HeartbeatLease(after, t.(version := t.version + 1), s, 1).Ok? <==> s < now + seconds)
  {
    assert RowOk(db, t.id);
  }

  /** Only the holder of a running lease acts, under the version of the row, while no parent is closed. */
  predicate Holds(db: JobDb, t: Token, now: Time) {
    && t.id in db && db[t.id].account == t.account && db[t.id].owner == Some(t.worker) && db[t.id].version == t.version
    && db[t.id].expires.Some? && now < db[t.id].expires.value
    && (db[t.id].request.parent.Some? ==>
          && db[t.id].request.parent.value in db && db[db[t.id].request.parent.value].account == t.account
          && TakesWork(db, db[t.id].request.parent.value))
  }

  /** A lease is extended exactly for its holder, and by no more than an hour. */
  lemma HeartbeatsIff(db: JobDb, t: Token, now: Time, seconds: nat)
    requires Inv(db)
    ensures HeartbeatLease(db, t, now, seconds).Ok? <==> Holds(db, t, now) && 1 <= seconds <= 3600
  {
    if t.id in db { assert RowOk(db, t.id); }
  }

  /** Completing goes through exactly for the holder who names the input the job was made for, with counts that add up. */
  lemma CompletesIff(db: JobDb, t: Token, now: Time, hash: Hash, progress: Option<Progress>)
    requires Inv(db)
    ensures CompleteLease(db, t, now, hash, progress).Ok? <==>
              && Holds(db, t, now) && db[t.id].request.inputHash == hash
              && var p := if progress == None then db[t.id].progress else progress.value;
                 p.total < 0x8000_0000 && p.completed + p.failed <= p.total
    ensures CompleteLease(db, t, now, hash, progress).Ok? ==>
              CompleteLease(db, t, now, hash, progress).value == db[t.id := db[t.id].(status := Completed, owner := None,
                expires := None, version := db[t.id].version + 1,
                progress := if progress == None then db[t.id].progress else progress.value)]
  {
    if t.id in db { assert RowOk(db, t.id); }
  }

  /** A start goes through exactly for the holder of a claimed job, and only marks it running. */
  lemma StartsIff(db: JobDb, t: Token, now: Time)
    requires Inv(db)
    ensures LeaseCas(db, t, now, Start, None).Ok? <==> Holds(db, t, now) && db[t.id].status == Claimed
    ensures LeaseCas(db, t, now, Start, None).Ok? ==>
              LeaseCas(db, t, now, Start, None).value
              == db[t.id := db[t.id].(status := Running, version := db[t.id].version + 1)]
  {
    if t.id in db { assert RowOk(db, t.id); }
  }

  /** A failed job with an attempt left is ready again exactly when its delay is over; one without is dead. */
  lemma FailedJobReturns(db: JobDb, t: Token, now: Time, delay: nat)
    requires Inv(db)
    ensures FailLease(db, t, now, delay).Ok? <==> Holds(db, t, now) && delay <= 86400
    ensures FailLease(db, t, now, delay).Ok? ==>
              var after := FailLease(db, t, now, delay).value;
              && after.Keys == db.Keys && after[t.id].owner == None && after[t.id].expires == None
              && (db[t.id].attempts == db[t.id].maxAttempts <==> after[t.id].status == Dead)
              && (db[t.id].attempts < db[t.id].maxAttempts ==> forall s :: Claimable(after, s, t.id) <==> now + delay <= s)
  {
    if t.id in db {
      assert RowOk(db, t.id);
      if Holds(db, t, now) { assert FailLease(db, t, now, delay).Ok? || delay > 86400; }
    }
  }

  // ---------------------------------------------------------------- cancel

  /** The job's own queued children, one level down. */
  predicate IsQueuedChild(db: JobDb, id: JobId, o: JobId)
    requires id in db && o in db
  {
    o != id && db[o].request.parent == Some(id) && db[o].account == db[id].account && db[o].status in {Pending, Retry}
  }

  /** An open job is cancelled, with its queued children, exactly for its account and under the version last seen. */
  lemma CancelsIff(db: JobDb, account: AccountId, id: JobId, version: nat)
    requires Inv(db)
    ensures Cancel(db, account, id, version).Ok? <==>
              id in db && db[id].account == account && db[id].version == version && TakesWork(db, id)
    ensures Cancel(db, account, id, version).Ok? ==>
              var after := Cancel(db, account, id, version).value;
              && after.Keys == db.Keys
              && after[id] == db[id].(status := Cancelled, owner := None, expires := None, version := version + 1)
              && forall o :: o in db && o != id ==>
                   after[o] == if IsQueuedChild(db, id, o)
                               then db[o].(status := Cancelled, version := db[o].version + 1) else db[o]
  {
  }

  // ---------------------------------------------------------------- lease recovery

  /**
   A recovered job is cancelled exactly when its parent is, dead when its attempts are spent, and otherwise ready
   at once, unless its parent is closed.
   */
  ghost predicate GivenBack(before: JobDb, after: JobDb, id: JobId, now: Time)
    requires id in before && id in after
    requires before[id].request.parent.Some? ==> before[id].request.parent.value in before
    requires before[id].request.parent.Some? ==> before[id].request.parent.value in after
  {
    var x, y := before[id], after[id];
    && y.owner == None && y.expires == None && y.attempts == x.attempts && y.version == x.version + 1
    && (y.status == Cancelled <==> x.request.parent.Some? && before[x.request.parent.value].status == Cancelled)
    && (y.status != Cancelled ==> (y.status == Dead <==> x.attempts == x.maxAttempts))
    && (y.status != Cancelled && y.status != Dead && (x.request.parent.Some? ==> TakesWork(after, x.request.parent.value))
        ==> forall t :: Claimable(after, t, id) <==> now <= t)
  }

  lemma RecoveredJobReturns(db: JobDb, now: Time, limit: nat, scope: Option<AccountId>, chosen: set<JobId>, id: JobId)
    requires Inv(db) && RecoverChoice(db, now, limit, scope, chosen) && id in db
    ensures db[id].request.parent.Some? ==> db[id].request.parent.value in db
    ensures if id in chosen then GivenBack(db, Recovered(db, now, chosen), id, now)
            else Recovered(db, now, chosen)[id] == db[id]
  {
    if id in chosen { assert RowOk(db, id) && Recoverable(db, now, scope, id); }
    else { assert RowOk(db, id); }
  }

  /** An auto-reply job has no parent: given up by a dead worker with an attempt left, it is ready at once. */
  lemma OrphanReturns(db: JobDb, now: Time, limit: nat, scope: Option<AccountId>, chosen: set<JobId>, id: JobId, t: Time)
    requires Inv(db) && RecoverChoice(db, now, limit, scope, chosen)
    requires id in chosen && db[id].request.parent == None && db[id].attempts < db[id].maxAttempts && now <= t
    ensures Claimable(Recovered(db, now, chosen), t, id)
  {
    RecoveredJobReturns(db, now, limit, scope, chosen, id);
  }

  /** A pass that is not cut off by its limit takes exactly the leased jobs whose lease has run out. */
  lemma RecoversAllExpired(db: JobDb, now: Time, limit: nat, scope: Option<AccountId>, chosen: set<JobId>, id: JobId)
    requires Inv(db) && RecoverChoice(db, now, limit, scope, chosen) && |chosen| < limit && id in db
    ensures id in chosen <==>
              && db[id].status in {Claimed, Running} && db[id].expires.Some? && db[id].expires.value <= now
              && (scope == None || scope == Some(db[id].account))
  {
    assert RowOk(db, id);
    assert id in chosen ==> Recoverable(db, now, scope, id);
  }

  /** One that is cut off leaves no lease that ran out before one it takes. */
  lemma RecoversEarliestFirst(db: JobDb, now: Time, limit: nat, scope: Option<AccountId>, chosen: set<JobId>, i: JobId,
                              o: JobId)
    requires Inv(db) && RecoverChoice(db, now, limit, scope, chosen) && i in chosen && o in db && o !in chosen
    requires db[o].status in {Claimed, Running} && db[o].expires.value <= now && (scope == None || scope == Some(db[o].account))
    ensures db[i].expires.Some? && db[i].expires.value <= db[o].expires.value
  {
    assert RowOk(db, o) && Recoverable(db, now, scope, o) && Recoverable(db, now, scope, i);
  }
}
