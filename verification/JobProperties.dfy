/** What every run of the job queue keeps, whoever the workers are and whatever clocks they read. */
module JobProperties {
  import opened Base
  import opened JobQueue

  // ---------------------------------------------------------------- the invariant

  ghost predicate RowOk(db: JobDb, id: JobId)
    requires id in db
  {
    var job := db[id];
    && 1 <= job.version
    && 1 <= job.maxAttempts
    && job.attempts <= job.maxAttempts
    && (Queued(job.status) ==> job.attempts < job.maxAttempts)
    && (Active(job.status) <==> job.owner.Some?)
    && (Active(job.status) <==> job.expires.Some?)
    && (job.request.parent.Some? ==>
          job.request.parent.value != id && job.request.parent.value in db
          && db[job.request.parent.value].account == job.account)
  }

  ghost predicate UniqueKeys(db: JobDb) {
    forall i, j :: i in db && j in db && HasKey(db[i], db[j].account, db[j].key) ==> i == j
  }

  ghost predicate Inv(db: JobDb) {
    && (forall id :: id in db ==> RowOk(db, id))
    && UniqueKeys(db)
  }

  // ---------------------------------------------------------------- what one step does to one row

  datatype Kind = ByEnqueue | ByClaim | ByStart | ByHeartbeat | ByComplete | ByFail | ByCancel | ByRecover

  function KindOf(step: Step): Kind {
    match step
    case EnqueueStep(_, _, _, _, _) => ByEnqueue
    case ClaimStep(_, _) => ByClaim
    case StartStep(_, _) => ByStart
    case HeartbeatStep(_, _, _) => ByHeartbeat
    case CompleteStep(_, _, _, _) => ByComplete
    case FailStep(_, _, _) => ByFail
    case CancelStep(_, _, _) => ByCancel
    case RecoverStep(_, _, _, _) => ByRecover
  }

  predicate SameIdentity(x: Job, y: Job) {
    && x.account == y.account && x.key == y.key && x.request == y.request
    && x.maxAttempts == y.maxAttempts && x.createdAt == y.createdAt
  }

  /** The status moves each kind of step may make. Only a claim spends an attempt. */
  predicate StatusMove(k: Kind, x: Job, y: Job) {
    match k
    case ByEnqueue => false
    case ByClaim => Queued(x.status) && y.status == Claimed && x.attempts < x.maxAttempts
    case ByStart => x.status == Claimed && y.status == Running
    case ByHeartbeat => Active(x.status) && y.status == x.status
    case ByComplete => Active(x.status) && y.status == Completed
    case ByFail => Active(x.status) && y.status == (if x.attempts < x.maxAttempts then Retry else Dead)
    case ByCancel => Open(x.status) && y.status == Cancelled
    case ByRecover =>
      && Active(x.status)
      && (y.status == Cancelled || y.status == (if x.attempts < x.maxAttempts then Retry else Dead))
  }

  predicate Moved(k: Kind, x: Job, y: Job) {
    && SameIdentity(x, y)
    && y.version == x.version + 1
    && y.attempts == x.attempts + (if k.ByClaim? then 1 else 0)
    && StatusMove(k, x, y)
    && (Active(y.status) <==> y.owner.Some?)
    && (Active(y.status) <==> y.expires.Some?)
  }

  predicate KeptOrMoved(k: Kind, before: JobDb, after: JobDb, id: JobId)
    requires id in before
  {
    id in after && (after[id] == before[id] || Moved(k, before[id], after[id]))
  }

  function KindOfWrite(w: Write): Kind {
    match w
    case Start => ByStart
    case Extend(_) => ByHeartbeat
    case Finish(_) => ByComplete
    case GiveBack(_) => ByFail
    case GiveUp => ByFail
  }

  lemma LeaseMoves(db: JobDb, t: Token, now: Time, w: Write, hash: Option<Hash>, id: JobId)
    requires Inv(db) && id in db
    requires t.id in db ==> (w.GiveBack? ==> db[t.id].attempts < db[t.id].maxAttempts)
    requires t.id in db ==> (w.GiveUp? ==> db[t.id].attempts == db[t.id].maxAttempts)
    ensures KeptOrMoved(KindOfWrite(w), db, Committed(db, LeaseCas(db, t, now, w, hash)), id)
  {
  }

  lemma CancelMoves(db: JobDb, account: AccountId, job: JobId, version: nat, id: JobId)
    requires Inv(db) && id in db
    ensures KeptOrMoved(ByCancel, db, Committed(db, Cancel(db, account, job, version)), id)
  {
  }

  lemma RecoverMoves(db: JobDb, now: Time, limit: nat, scope: Option<AccountId>, chosen: set<JobId>, id: JobId)
    requires Inv(db) && id in db && RecoverChoice(db, now, limit, scope, chosen)
    ensures KeptOrMoved(ByRecover, db, Recovered(db, now, chosen), id)
  {
  }

  lemma ClaimMoves(db: JobDb, claim: ClaimArgs, job: JobId, id: JobId)
    requires Inv(db) && id in db && ClaimChoice(db, claim, job)
    ensures KeptOrMoved(ByClaim, db, Apply(db, ClaimStep(claim, job)), id)
  {
  }

  /** Every step leaves a row alone or makes one of the moves above, raising the version by exactly one. */
  lemma StepMoves(db: JobDb, step: Step, id: JobId)
    requires Inv(db) && id in db
    ensures KeptOrMoved(KindOf(step), db, Apply(db, step), id)
  {
    match step
    case EnqueueStep(_, _, _, _, _) =>
    case ClaimStep(claim, job) =>
      if ClaimChoice(db, claim, job) { ClaimMoves(db, claim, job, id); }
    case StartStep(t, now) => LeaseMoves(db, t, now, Start, None, id);
    case HeartbeatStep(t, now, seconds) => LeaseMoves(db, t, now, Extend(now + seconds), None, id);
    case CompleteStep(t, now, hash, progress) =>
      if t.id in db {
        LeaseMoves(db, t, now, Finish(if progress.Some? then progress.value else db[t.id].progress), Some(hash), id);
      }
    case FailStep(t, now, delay) =>
      if t.id in db {
        assert RowOk(db, t.id);
        LeaseMoves(db, t, now, FailWrite(db, t.id, now, delay), None, id);
      }
    case CancelStep(account, job, version) => CancelMoves(db, account, job, version, id);
    case RecoverStep(now, limit, scope, chosen) =>
      if RecoverChoice(db, now, limit, scope, chosen) { RecoverMoves(db, now, limit, scope, chosen, id); }
  }

  lemma EnqueueAdds(db: JobDb, step: Step, id: JobId)
    requires id !in db && id in Apply(db, step)
    ensures step.EnqueueStep? && ValidEnqueue(step.args) && Apply(db, step) == db[id := NewJob(step.args, step.now)]
    ensures ScopeError(step.dir, db, step.args.account, step.args.request).None?
    ensures FindKey(db, step.args.account, step.args.key).None?
  {
  }

  lemma StepKeepsInv(db: JobDb, step: Step)
    requires Inv(db)
    ensures Inv(Apply(db, step))
  {
    var after := Apply(db, step);
    forall id | id in db
      ensures id in after && SameIdentity(db[id], after[id]) && RowOk(after, id)
    {
      assert RowOk(db, id);
      StepMoves(db, step, id);
      var parent := db[id].request.parent;
      if parent.Some? { StepMoves(db, step, parent.value); }
    }
    forall id | id in after && id !in db
      ensures RowOk(after, id)
      ensures forall j :: j in after && HasKey(after[j], after[id].account, after[id].key) ==> j == id
    {
      EnqueueAdds(db, step, id);
    }
  }

  /** The batch a recovery pass writes, stated on the rows themselves. */
  lemma RecoveredKeepsInv(db: JobDb, now: Time, limit: nat, scope: Option<AccountId>, chosen: set<JobId>)
    requires Inv(db) && RecoverChoice(db, now, limit, scope, chosen)
    ensures Inv(Recovered(db, now, chosen))
  {
  }

  lemma RunKeepsInv(db: JobDb, steps: seq<Step>)
    requires Inv(db)
    ensures Inv(Run(db, steps))
    decreases |steps|
  {
    if steps != [] {
      StepKeepsInv(db, steps[0]);
      RunKeepsInv(Apply(db, steps[0]), steps[1..]);
    }
  }

  /** Starting from an empty table nothing else needs to be assumed. */
  lemma RunFromEmpty(steps: seq<Step>)
    ensures Inv(Run(map[], steps))
  {
    RunKeepsInv(map[], steps);
  }

  // ---------------------------------------------------------------- versions and lease fencing

  lemma {:induction false} VersionsGrow(db: JobDb, steps: seq<Step>, id: JobId)
    requires Inv(db) && id in db
    ensures id in Run(db, steps)
    ensures SameIdentity(db[id], Run(db, steps)[id])
    ensures db[id].version <= Run(db, steps)[id].version
    ensures Run(db, steps)[id].version == db[id].version ==> Run(db, steps)[id] == db[id]
    decreases |steps|
  {
    if steps != [] {
      StepMoves(db, steps[0], id);
      StepKeepsInv(db, steps[0]);
      VersionsGrow(Apply(db, steps[0]), steps[1..], id);
    }
  }

  predicate LeaseStep(step: Step, t: Token) {
    || (step.StartStep? && step.token == t)
    || (step.HeartbeatStep? && step.token == t)
    || (step.CompleteStep? && step.token == t)
    || (step.FailStep? && step.token == t)
  }

  /** A token whose version the row has left behind is refused by every lease operation, now and after any run. */
  lemma Fencing(db: JobDb, steps: seq<Step>, t: Token, step: Step)
    requires Inv(db) && t.id in db && t.version < db[t.id].version
    requires LeaseStep(step, t)
    ensures Apply(Run(db, steps), step) == Run(db, steps)
  {
    VersionsGrow(db, steps, t.id);
  }

  /** Any step that touches the row, a heartbeat by the holder included, fences off every token seen before it. */
  lemma TouchedMeansFenced(db: JobDb, touch: Step, later: seq<Step>, t: Token, step: Step)
    requires Inv(db) && t.id in db && t.version <= db[t.id].version
    requires Apply(db, touch)[t.id] != db[t.id]
    requires LeaseStep(step, t)
    ensures Apply(Run(Apply(db, touch), later), step) == Run(Apply(db, touch), later)
  {
    StepMoves(db, touch, t.id);
    StepKeepsInv(db, touch);
    Fencing(Apply(db, touch), later, t, step);
  }

  /** completed, dead and cancelled rows never change again. */
  lemma {:induction false} TerminalIsFrozen(db: JobDb, steps: seq<Step>, id: JobId)
    requires Inv(db) && id in db && !Open(db[id].status)
    ensures id in Run(db, steps) && Run(db, steps)[id] == db[id]
    decreases |steps|
  {
    if steps != [] {
      StepMoves(db, steps[0], id);
      StepKeepsInv(db, steps[0]);
      TerminalIsFrozen(Apply(db, steps[0]), steps[1..], id);
    }
  }

  /** How many completions of job `id` succeed in a run. */
  ghost function Completions(db: JobDb, steps: seq<Step>, id: JobId): nat
    decreases |steps|
  {
    if steps == [] then 0
    else
      var after := Apply(db, steps[0]);
      (if steps[0].CompleteStep? && id in db && id in after && after[id] != db[id] then 1 else 0)
      + Completions(after, steps[1..], id)
  }

  lemma {:induction false} AtMostOneCompletion(db: JobDb, steps: seq<Step>, id: JobId)
    requires Inv(db)
    ensures Completions(db, steps, id) <= 1
    ensures id in db && !Open(db[id].status) ==> Completions(db, steps, id) == 0
    ensures Completions(db, steps, id) == 1 ==> id in Run(db, steps) && Run(db, steps)[id].status == Completed
    decreases |steps|
  {
    if steps != [] {
      var after := Apply(db, steps[0]);
      StepKeepsInv(db, steps[0]);
      if id in db { StepMoves(db, steps[0], id); }
      AtMostOneCompletion(after, steps[1..], id);
      if id in after && !Open(after[id].status) { TerminalIsFrozen(after, steps[1..], id); }
    }
  }

  // ---------------------------------------------------------------- bounded life

  function Rank(s: Status): nat {
    match s
    case Pending => 1
    case Retry => 1
    case Running => 2
    case Claimed => 3
    case _ => 0
  }

  function Remaining(job: Job): int {
    3 * (job.maxAttempts - job.attempts) + Rank(job.status)
  }

  /** Successful steps on job `id` other than heartbeats and the insert itself. */
  ghost function Efforts(db: JobDb, steps: seq<Step>, id: JobId): nat
    decreases |steps|
  {
    if steps == [] then 0
    else
      var after := Apply(db, steps[0]);
      (if !steps[0].HeartbeatStep? && id in db && id in after && after[id] != db[id] then 1 else 0)
      + Efforts(after, steps[1..], id)
  }

  lemma {:induction false} BoundedLife(db: JobDb, steps: seq<Step>, id: JobId)
    requires Inv(db) && id in db
    ensures id in Run(db, steps)
    ensures 0 <= Remaining(Run(db, steps)[id])
    ensures Efforts(db, steps, id) + Remaining(Run(db, steps)[id]) <= Remaining(db[id])
    decreases |steps|
  {
    assert RowOk(db, id);
    if steps != [] {
      StepMoves(db, steps[0], id);
      StepKeepsInv(db, steps[0]);
      BoundedLife(Apply(db, steps[0]), steps[1..], id);
    }
  }

  /** From its insert on, a job takes at most 3 * max_attempts + 1 steps that are not heartbeats. */
  lemma {:induction false} BoundedLifeFromInsert(db: JobDb, steps: seq<Step>, id: JobId)
    requires Inv(db) && id !in db && id in Run(db, steps)
    ensures Efforts(db, steps, id) <= 3 * Run(db, steps)[id].maxAttempts + 1
    decreases |steps|
  {
    var after := Apply(db, steps[0]);
    StepKeepsInv(db, steps[0]);
    if id in after {
      EnqueueAdds(db, steps[0], id);
      BoundedLife(after, steps[1..], id);
      VersionsGrow(after, steps[1..], id);
    } else {
      BoundedLifeFromInsert(after, steps[1..], id);
    }
  }

  // ---------------------------------------------------------------- parent fencing

  ghost predicate ChildOf(db: JobDb, id: JobId, parent: JobId) {
    id in db && db[id].request.parent == Some(parent)
  }

  /** Under a terminal parent a child can only be cancelled or recovered, and no child is added. */
  lemma TerminalParentStep(db: JobDb, step: Step, parent: JobId, id: JobId)
    requires Inv(db) && parent in db && !Open(db[parent].status)
    requires ChildOf(Apply(db, step), id, parent)
    ensures ChildOf(db, id, parent)
    ensures Apply(db, step)[id] != db[id] ==> step.CancelStep? || step.RecoverStep?
    ensures db[parent].status == Cancelled && Apply(db, step)[id] != db[id] ==> Apply(db, step)[id].status == Cancelled
  {
  }

  /** How often claim, start, heartbeat, complete or fail change the row of job `id` in a run. */
  ghost function LeaseTouches(db: JobDb, steps: seq<Step>, id: JobId): nat
    decreases |steps|
  {
    if steps == [] then 0
    else
      var (after, step) := (Apply(db, steps[0]), steps[0]);
      var touched := id in db && id in after && after[id] != db[id] && !step.CancelStep? && !step.RecoverStep?;
      (if touched then 1 else 0) + LeaseTouches(after, steps[1..], id)
  }

  /**
   Once a parent is terminal its children are fenced for good: over any run they are the same rows,
   each untouched by claim, start, heartbeat, complete and fail, and under a cancelled parent a row
   that has changed at all has changed to cancelled.
   */
  lemma {:induction false} ParentFencing(db: JobDb, steps: seq<Step>, parent: JobId, id: JobId)
    requires Inv(db) && parent in db && !Open(db[parent].status)
    requires ChildOf(Run(db, steps), id, parent)
    ensures ChildOf(db, id, parent) && LeaseTouches(db, steps, id) == 0
    ensures Run(db, steps)[id].attempts == db[id].attempts
    ensures Active(Run(db, steps)[id].status) ==> Run(db, steps)[id] == db[id]
    ensures Run(db, steps)[id].status == Completed ==> db[id].status == Completed
    ensures db[parent].status == Cancelled ==>
              Run(db, steps)[id] == db[id] || Run(db, steps)[id].status == Cancelled
    decreases |steps|
  {
    if steps != [] {
      var after := Apply(db, steps[0]);
      StepKeepsInv(db, steps[0]);
      StepMoves(db, steps[0], parent);
      ParentFencing(after, steps[1..], parent, id);
      TerminalParentStep(db, steps[0], parent, id);
      StepMoves(db, steps[0], id);
      if !Open(after[id].status) { TerminalIsFrozen(after, steps[1..], id); }
    }
  }

  /** A direct cancel leaves no direct child queued; leased children keep their lease until it is refused. */
  lemma CancelCascades(db: JobDb, account: AccountId, id: JobId, version: nat, child: JobId)
    requires Inv(db) && Cancel(db, account, id, version).Ok?
    requires ChildOf(db, child, id)
    ensures var after := Cancel(db, account, id, version).value;
            && !Queued(after[child].status)
            && after[id].status == Cancelled
            && (!Queued(db[child].status) ==> after[child] == db[child])
  {
  }

  /** The cascade stops there: a grandchild keeps its row. */
  lemma CancelStopsAtChildren(db: JobDb, account: AccountId, id: JobId, version: nat, other: JobId)
    requires Cancel(db, account, id, version).Ok?
    requires other in db && other != id && !ChildOf(db, other, id)
    ensures Cancel(db, account, id, version).value[other] == db[other]
  {
  }

  /** Job i is a descendant of `root`, with n jobs in between. */
  predicate Below(db: JobDb, i: JobId, root: JobId, n: nat)
    decreases n
  {
    && i in db && db[i].request.parent.Some?
    && if n == 0 then db[i].request.parent.value == root else Below(db, db[i].request.parent.value, root, n - 1)
  }

  ghost predicate QueuedBelow(db: JobDb, root: JobId) {
    exists i, n :: Below(db, i, root, n) && Queued(db[i].status)
  }

  /** A queued descendant that is not a direct child. */
  ghost predicate QueuedDeeper(db: JobDb, root: JobId) {
    exists i, n :: Below(db, i, root, n) && Queued(db[i].status) && i != root && !ChildOf(db, i, root)
  }

  lemma {:induction false} SameDescent(db: JobDb, after: JobDb, i: JobId, root: JobId, n: nat)
    requires after.Keys == db.Keys && forall j :: j in db ==> after[j].request == db[j].request
    ensures Below(after, i, root, n) <==> Below(db, i, root, n)
    decreases n
  {
    if n > 0 && i in db && db[i].request.parent.Some? { SameDescent(db, after, db[i].request.parent.value, root, n - 1); }
  }

  /** After a cancel no descendant is left queued exactly when none was queued below the direct children. */
  lemma CancelReachesAllIff(db: JobDb, account: AccountId, id: JobId, version: nat)
    requires Inv(db) && Cancel(db, account, id, version).Ok?
    ensures QueuedBelow(Cancel(db, account, id, version).value, id) <==> QueuedDeeper(db, id)
  {
    var after := Cancel(db, account, id, version).value;
    forall i, n ensures Below(after, i, id, n) <==> Below(db, i, id, n) { SameDescent(db, after, i, id, n); }
    if QueuedBelow(after, id) {
      var i, n :| Below(after, i, id, n) && Queued(after[i].status);
      if ChildOf(db, i, id) { CancelCascades(db, account, id, version, i); }
      assert Below(db, i, id, n) && i != id && !ChildOf(db, i, id);
    }
    if QueuedDeeper(db, id) {
      var i, n :| Below(db, i, id, n) && Queued(db[i].status) && i != id && !ChildOf(db, i, id);
      CancelStopsAtChildren(db, account, id, version, i);
      assert Below(after, i, id, n);
    }
  }

  function Posting(name: string, parent: Option<JobId>): EnqueueArgs {
    EnqueueArgs(0, JobKey.Named(name), Request("analysis", None, None, parent, 0, 0, 0, Digest(0)), 0, 3,
                Progress(0, 0, 0), None)
  }

  const SITE := Directory({0}, map[], map[])

  function FamilyOf(n: nat): JobDb
    requires n <= 3
  {
    if n == 0 then map[]
    else if n == 1 then map[0 := NewJob(Posting("job", None), 0)]
    else if n == 2 then FamilyOf(1)[1 := NewJob(Posting("child", Some(0)), 0)]
    else FamilyOf(2)[2 := NewJob(Posting("grandchild", Some(1)), 0)]
  }

  function PostFamily(): seq<Step> {
    [EnqueueStep(SITE, map[], Posting("job", None), 0, 0), EnqueueStep(SITE, map[], Posting("child", Some(0)), 1, 0),
     EnqueueStep(SITE, map[], Posting("grandchild", Some(1)), 2, 0)]
  }

  lemma FamilyIsPosted()
    ensures Run(map[], PostFamily()) == FamilyOf(3)
  {
    var steps := PostFamily();
    assert Apply(map[], steps[0]) == FamilyOf(1);
    assert Apply(FamilyOf(1), steps[1]) == FamilyOf(2);
    assert Apply(FamilyOf(2), steps[2]) == FamilyOf(3);
    assert steps[1..][0] == steps[1] && steps[1..][1..] == steps[2..];
    assert steps[2..][0] == steps[2] && steps[2..][1..] == [];
  }

  /** Three jobs in a line are enqueued and the first is cancelled: the grandchild is still queued. */
  lemma CancelLeavesGrandchild()
    ensures var posted := Run(map[], PostFamily());
            Cancel(posted, 0, 0, 1).Ok? && QueuedBelow(Cancel(posted, 0, 0, 1).value, 0)
  {
    FamilyIsPosted();
    RunKeepsInv(map[], PostFamily());
    var posted := FamilyOf(3);
    assert Below(posted, 1, 0, 0);
    assert Below(posted, 2, 0, 1) && Queued(posted[2].status) && !ChildOf(posted, 2, 0);
    CancelReachesAllIff(posted, 0, 0, 1);
  }

  // ---------------------------------------------------------------- the token of the claim

  /** What a claim hands to its worker. */
  function ClaimToken(db: JobDb, claim: ClaimArgs, id: JobId): Token
    requires id in db
  {
    Token(db[id].account, id, claim.worker, db[id].version + 1)
  }

  /**
   After any run the token of a claim can still fail the job exactly when nothing, start included, has touched
   the row since, the lease has not run out, and the parent is open.
   */
  lemma FailAfterClaimIff(db: JobDb, claim: ClaimArgs, id: JobId, later: seq<Step>, now: Time, delay: nat)
    requires Inv(db) && ClaimChoice(db, claim, id)
    ensures var claimed := Apply(db, ClaimStep(claim, id)); var after := Run(claimed, later);
            var t := ClaimToken(db, claim, id);
            && id in claimed && id in after
            && (FailLease(after, t, now, delay).Ok? <==>
                  delay <= 86400 && after[id] == claimed[id] && now < claim.now + claim.leaseSeconds
                  && !ParentRefuses(after, t.account, after[id]))
  {
    var claimed := Apply(db, ClaimStep(claim, id));
    StepKeepsInv(db, ClaimStep(claim, id));
    VersionsGrow(claimed, later, id);
  }

  // ---------------------------------------------------------------- admission caps

  ghost predicate WithinCaps(db: JobDb, global: nat, perAccount: nat) {
    && |ActiveIds(db)| <= global
    && forall a: AccountId :: |ActiveOf(db, a)| <= perAccount
  }

  ghost predicate ClaimsUseCaps(step: Step, global: nat, perAccount: nat) {
    step.ClaimStep? ==> step.claim.globalCap == Some(global) && step.claim.accountCap == Some(perAccount)
  }

  /** Only a claim adds to the active rows, and it adds the one row it takes. */
  lemma ActiveGrowth(db: JobDb, step: Step, id: JobId)
    requires Inv(db) && id in Apply(db, step) && Active(Apply(db, step)[id].status)
    ensures id in db && Apply(db, step)[id].account == db[id].account
    ensures Active(db[id].status) || (step.ClaimStep? && step.id == id && ClaimChoice(db, step.claim, id))
  {
  }

  lemma StepKeepsCaps(db: JobDb, step: Step, global: nat, perAccount: nat)
    requires Inv(db) && WithinCaps(db, global, perAccount) && ClaimsUseCaps(step, global, perAccount)
    ensures WithinCaps(Apply(db, step), global, perAccount)
  {
    var after := Apply(db, step);
    forall id | id in ActiveIds(after)
      ensures id in ActiveIds(db) || (step.ClaimStep? && step.id == id && ClaimChoice(db, step.claim, id))
    {
      ActiveGrowth(db, step, id);
    }
    if step.ClaimStep? && ClaimChoice(db, step.claim, step.id) {
      GrowsByOne(ActiveIds(db), ActiveIds(after), step.id);
    } else {
      SubsetSize(ActiveIds(after), ActiveIds(db));
    }
    forall a: AccountId
      ensures |ActiveOf(after, a)| <= perAccount
    {
      forall id | id in ActiveOf(after, a)
        ensures id in ActiveOf(db, a) || (step.ClaimStep? && step.id == id && db[id].account == a)
      {
        ActiveGrowth(db, step, id);
      }
      if step.ClaimStep? && ClaimChoice(db, step.claim, step.id) && db[step.id].account == a {
        GrowsByOne(ActiveOf(db, a), ActiveOf(after, a), step.id);
      } else {
        SubsetSize(ActiveOf(after, a), ActiveOf(db, a));
      }
    }
  }

  /** If every claimer passes the same caps, claimed plus running jobs never exceed them in any run. */
  lemma {:induction false} RunKeepsCaps(db: JobDb, steps: seq<Step>, global: nat, perAccount: nat)
    requires Inv(db) && WithinCaps(db, global, perAccount)
    requires forall s :: s in steps ==> ClaimsUseCaps(s, global, perAccount)
    ensures WithinCaps(Run(db, steps), global, perAccount)
    decreases |steps|
  {
    if steps != [] {
      StepKeepsInv(db, steps[0]);
      StepKeepsCaps(db, steps[0], global, perAccount);
      RunKeepsCaps(Apply(db, steps[0]), steps[1..], global, perAccount);
    }
  }

  // ---------------------------------------------------------------- idempotent enqueue

  lemma KeyFound(db: JobDb, id: JobId)
    requires Inv(db) && id in db
    ensures FindKey(db, db[id].account, db[id].key) == Some(id)
  {
  }

  /** The session has not seen the row that has its key by now, and the account's queue is full. */
  ghost predicate MissedAtLimit(dir: Directory, seen: JobDb, db: JobDb, a: EnqueueArgs) {
    && ValidEnqueue(a) && ScopeError(dir, db, a.account, a.request).None?
    && FindKey(seen, a.account, a.key).None? && FindKey(db, a.account, a.key).Some?
    && a.maxQueued.Some? && |OpenIds(db, a.account)| >= a.maxQueued.value
  }

  /** Rows are never lost, and never change what they were inserted with. */
  predicate KeepsIdentities(seen: JobDb, db: JobDb) {
    forall id :: id in seen ==> id in db && SameIdentity(seen[id], db[id])
  }

  lemma StaleLookupIff(dir: Directory, seen: JobDb, db: JobDb, a: EnqueueArgs, newId: JobId, now: Time)
    requires Inv(db) && KeepsIdentities(seen, db)
    ensures Enqueue(dir, seen, db, a, newId, now) == Enqueue(dir, db, db, a, newId, now)
            <==> !MissedAtLimit(dir, seen, db, a)
    ensures MissedAtLimit(dir, seen, db, a) ==> Enqueue(dir, seen, db, a, newId, now) == Err(Backpressure)
  {
    var existing := FindKey(seen, a.account, a.key);
    if existing.Some? { KeyFound(db, existing.value); }
  }

  /**
   A session that looked the key up before other transactions committed answers as one that looks now
   would: the unique index turns its lost race into the winner's row. The one visible difference is the
   backpressure limit, which is counted before the insert is refused.
   */
  lemma StaleEnqueueIsHarmless(dir: Directory, old_: JobDb, steps: seq<Step>, a: EnqueueArgs, newId: JobId, now: Time)
    requires Inv(old_)
    ensures var db := Run(old_, steps);
            var raced := Enqueue(dir, old_, db, a, newId, now);
            && (raced == Enqueue(dir, db, db, a, newId, now) <==> !MissedAtLimit(dir, old_, db, a))
            && (MissedAtLimit(dir, old_, db, a) ==> raced == Err(Backpressure))
  {
    var db := Run(old_, steps);
    RunKeepsInv(old_, steps);
    forall id | id in old_ ensures id in db && SameIdentity(old_[id], db[id])
    {
      VersionsGrow(old_, steps, id);
    }
    StaleLookupIff(dir, old_, db, a, newId, now);
  }

  /** Enqueueing again, however much later, returns the row of the first call and inserts nothing. */
  lemma EnqueueIsIdempotent(dir: Directory, db: JobDb, a: EnqueueArgs, newId: JobId, now: Time, steps: seq<Step>,
                            laterId: JobId, later: Time)
    requires Inv(db) && newId !in db
    requires var first := Enqueue(dir, db, db, a, newId, now);
             first.Ok? && ScopeError(dir, Run(first.value.0, steps), a.account, a.request).None?
    ensures var first := Enqueue(dir, db, db, a, newId, now).value;
            var then_ := Run(first.0, steps);
            Enqueue(dir, then_, then_, a, laterId, later) == Ok((then_, first.1))
  {
    var first := Enqueue(dir, db, db, a, newId, now).value;
    assert Apply(db, EnqueueStep(dir, db, a, newId, now)) == first.0;
    StepKeepsInv(db, EnqueueStep(dir, db, a, newId, now));
    RunKeepsInv(first.0, steps);
    VersionsGrow(first.0, steps, first.1);
    KeyFound(Run(first.0, steps), first.1);
  }
}
