/**
 The leased analysis-job queue. A database is a map from job ids to rows; every operation is one
 committed transaction, given here as a function of the rows it finds, and carried out in place by
 the methods of AnalysisJobRepository.
 */
module JobQueue {
  import opened Base

  // ---------------------------------------------------------------- rows

  datatype Status = Pending | Claimed | Running | Retry | Completed | Failed | Dead | Cancelled

  /** The statuses that still accept work: pending, retry, claimed, running. */
  predicate Open(s: Status) {
    s.Pending? || s.Retry? || s.Claimed? || s.Running?
  }

  predicate Queued(s: Status) {
    s.Pending? || s.Retry?
  }

  /** Leased to a worker. */
  predicate Active(s: Status) {
    s.Claimed? || s.Running?
  }

  /** Job keys carry structure: an auto reply is named by account, inbound message and policy mode. */
  datatype JobKey = AutoReply(account: AccountId, inbound: WaId, mode: string) | Named(text: string)

  datatype Progress = Progress(total: nat, completed: nat, failed: nat)

  predicate ValidProgress(p: Progress) {
    p.total <= 2_147_483_647 && p.completed + p.failed <= p.total
  }

  /** The immutable part of a job that idempotent enqueue compares. */
  datatype Request = Request(jobType: string, contact: Option<ContactId>, conversation: Option<ConversationId>,
                             parent: Option<JobId>, priority: nat, budgetTokens: nat, budgetCost: nat,
                             inputHash: Hash)

  datatype Job = Job(account: AccountId, key: JobKey, request: Request, maxAttempts: nat, createdAt: Time,
                     status: Status, availableAt: Time, attempts: nat, version: nat,
                     owner: Option<WorkerId>, expires: Option<Time>, progress: Progress)

  type JobDb = map<JobId, Job>

  datatype ConversationScope = ConversationScope(account: AccountId, contact: Option<ContactId>)

  /** The tables a job may refer to. */
  datatype Directory = Directory(accounts: set<AccountId>, contacts: map<ContactId, AccountId>,
                                 conversations: map<ConversationId, ConversationScope>)

  datatype JobError = InvalidArgument | OutOfScope | ParentClosed | DifferentRequest | Backpressure | Stale

  // ---------------------------------------------------------------- enqueue

  datatype EnqueueArgs = EnqueueArgs(account: AccountId, key: JobKey, request: Request, availableAt: Time,
                                     maxAttempts: nat, progress: Progress, maxQueued: Option<nat>)

  predicate ValidEnqueue(a: EnqueueArgs) {
    && a.request.priority <= 2_147_483_647
    && 1 <= a.maxAttempts <= 1000
    && a.request.budgetTokens <= 1_000_000_000_000
    && ValidProgress(a.progress)
    && (a.maxQueued.Some? ==> 1 <= a.maxQueued.value <= 1_000_000)
  }

  /** The checks of _validate_scope in the order they are made. */
  function ScopeError(dir: Directory, db: JobDb, account: AccountId, r: Request): Option<JobError> {
    if account !in dir.accounts then Some(OutOfScope)
    else if r.contact.Some? && !(r.contact.value in dir.contacts && dir.contacts[r.contact.value] == account)
    then Some(OutOfScope)
    else if r.conversation.Some? && !(
              && r.conversation.value in dir.conversations
              && dir.conversations[r.conversation.value].account == account
              && (r.contact.Some? ==> dir.conversations[r.conversation.value].contact == r.contact))
    then Some(OutOfScope)
    else if r.parent.Some? && !(r.parent.value in db && db[r.parent.value].account == account)
    then Some(OutOfScope)
    else if r.parent.Some? && !Open(db[r.parent.value].status) then Some(ParentClosed)
    else None
  }

  predicate HasKey(job: Job, account: AccountId, key: JobKey) {
    job.account == account && job.key == key
  }

  ghost function FindKey(db: JobDb, account: AccountId, key: JobKey): (r: Option<JobId>)
    ensures r.Some? ==> r.value in db && HasKey(db[r.value], account, key)
    ensures r.None? ==> forall id :: id in db ==> !HasKey(db[id], account, key)
  {
    if exists id :: id in db && HasKey(db[id], account, key)
    then var id :| id in db && HasKey(db[id], account, key); Some(id)
    else None
  }

  function OpenIds(db: JobDb, account: AccountId): set<JobId> {
    set id | id in db && db[id].account == account && Open(db[id].status)
  }

  function NewJob(a: EnqueueArgs, now: Time): Job {
    Job(a.account, a.key, a.request, a.maxAttempts, now, Pending, a.availableAt, 0, 1, None, None, a.progress)
  }

  /**
   Enqueue looks the key up in what the session sees (`seen`, possibly out of date) and inserts into
   the committed rows `db`, where the unique index on (account, key) may refuse the insert; it then
   reads the winning row again.
   */
  ghost function Enqueue(dir: Directory, seen: JobDb, db: JobDb, a: EnqueueArgs, newId: JobId, now: Time)
    : (r: Result<(JobDb, JobId), JobError>)
  {
    if !ValidEnqueue(a) then Err(InvalidArgument)
    else
      var scope := ScopeError(dir, db, a.account, a.request);
      if scope.Some? then Err(scope.value)
      else
        var existing := FindKey(seen, a.account, a.key);
        if existing.Some? then
          if seen[existing.value].request == a.request then Ok((db, existing.value)) else Err(DifferentRequest)
        else if a.maxQueued.Some? && |OpenIds(db, a.account)| >= a.maxQueued.value then Err(Backpressure)
        else
          var winner := FindKey(db, a.account, a.key);
          if winner.None? then Ok((db[newId := NewJob(a, now)], newId))
          else if db[winner.value].request == a.request then Ok((db, winner.value))
          else Err(DifferentRequest)
  }

  // ---------------------------------------------------------------- claim

  datatype ClaimArgs = ClaimArgs(worker: WorkerId, leaseSeconds: nat, account: Option<AccountId>, now: Time,
                                 globalCap: Option<nat>, accountCap: Option<nat>,
                                 budgetTokens: Option<nat>, budgetCost: Option<nat>)

  predicate ValidClaim(a: ClaimArgs) {
    && 1 <= a.leaseSeconds <= 3600
    && (a.globalCap.Some? ==> 1 <= a.globalCap.value <= 1_000_000)
    && (a.accountCap.Some? ==> 1 <= a.accountCap.value <= 1_000_000)
    && (a.budgetTokens.Some? ==> a.budgetTokens.value <= 1_000_000_000_000)
  }

  function ActiveIds(db: JobDb): set<JobId> {
    set id | id in db && Active(db[id].status)
  }

  function ActiveOf(db: JobDb, account: AccountId): set<JobId> {
    set id | id in db && Active(db[id].status) && db[id].account == account
  }

  /** The EXISTS test on the parent row shared by the candidate query and the claiming update. */
  predicate ParentOpen(db: JobDb, job: Job) {
    job.request.parent.None? || (job.request.parent.value in db && Open(db[job.request.parent.value].status))
  }

  predicate Claimable(db: JobDb, now: Time, id: JobId)
    requires id in db
  {
    var job := db[id];
    && Queued(job.status)
    && job.availableAt <= now
    && job.attempts < job.maxAttempts
    && ParentOpen(db, job)
  }

  predicate WithinBudget(cost: nat, limit: Option<nat>) {
    limit.None? || cost == 0 || cost <= limit.value
  }

  predicate Candidate(db: JobDb, a: ClaimArgs, id: JobId) {
    && id in db
    && Claimable(db, a.now, id)
    && (a.account.Some? ==> db[id].account == a.account.value)
    && WithinBudget(db[id].request.budgetTokens, a.budgetTokens)
    && WithinBudget(db[id].request.budgetCost, a.budgetCost)
    && (a.accountCap.Some? ==> |ActiveOf(db, db[id].account)| < a.accountCap.value)
  }

  /** ORDER BY priority DESC, available_at ASC, created_at ASC: x may stand before y. */
  predicate NotAfter(x: Job, y: Job) {
    || x.request.priority > y.request.priority
    || (x.request.priority == y.request.priority && x.availableAt < y.availableAt)
    || (x.request.priority == y.request.priority && x.availableAt == y.availableAt && x.createdAt <= y.createdAt)
  }

  predicate CapReached(db: JobDb, a: ClaimArgs) {
    || (a.globalCap.Some? && |ActiveIds(db)| >= a.globalCap.value)
    || (a.account.Some? && a.accountCap.Some? && |ActiveOf(db, a.account.value)| >= a.accountCap.value)
  }

  /** `id` is a row the claim may take: admitted by the caps, and no candidate ranks strictly before it. */
  ghost predicate ClaimChoice(db: JobDb, a: ClaimArgs, id: JobId) {
    && ValidClaim(a)
    && !CapReached(db, a)
    && Candidate(db, a, id)
    && forall o :: o in db && Candidate(db, a, o) ==> NotAfter(db[id], db[o])
  }

  function ClaimRow(job: Job, worker: WorkerId, expires: Time): Job {
    job.(status := Claimed, owner := Some(worker), expires := Some(expires),
         attempts := job.attempts + 1, version := job.version + 1)
  }

  // ---------------------------------------------------------------- lease compare-and-set

  /** What a lease holder writes besides the version. */
  datatype Write = Start | Extend(expires: Time) | Finish(progress: Progress) | GiveBack(availableAt: Time) | GiveUp

  function Written(job: Job, w: Write): Job {
    match w
    case Start => job.(status := Running)
    case Extend(e) => job.(expires := Some(e))
    case Finish(p) => job.(status := Completed, owner := None, expires := None, progress := p)
    case GiveBack(t) => job.(status := Retry, owner := None, expires := None, availableAt := t)
    case GiveUp => job.(status := Dead, owner := None, expires := None)
  }

  /** start is allowed on claimed rows only, every other lease operation on claimed and running rows. */
  predicate Allowed(s: Status, w: Write) {
    if w.Start? then s.Claimed? else Active(s)
  }

  datatype Token = Token(account: AccountId, id: JobId, worker: WorkerId, version: nat)

  /** The parent row is missing, foreign, or no longer open. */
  predicate ParentRefuses(db: JobDb, account: AccountId, job: Job) {
    job.request.parent.Some? && !(
      && job.request.parent.value in db
      && db[job.request.parent.value].account == account
      && Open(db[job.request.parent.value].status))
  }

  predicate HoldsLease(job: Job, t: Token, now: Time) {
    && job.owner == Some(t.worker)
    && job.version == t.version
    && job.expires.Some? && job.expires.value > now
  }

  function LeaseCas(db: JobDb, t: Token, now: Time, w: Write, hash: Option<Hash>): (r: Result<JobDb, JobError>) {
    if t.id !in db || db[t.id].account != t.account then Err(OutOfScope)
    else if ParentRefuses(db, t.account, db[t.id]) then Err(ParentClosed)
    else if HoldsLease(db[t.id], t, now) && Allowed(db[t.id].status, w)
            && (hash.Some? ==> hash.value == db[t.id].request.inputHash)
    then Ok(db[t.id := Written(db[t.id], w).(version := t.version + 1)])
    else Err(Stale)
  }

  /** fail() decides between retry and dead from the row as it stands. */
  function FailWrite(db: JobDb, id: JobId, now: Time, delay: nat): Write
    requires id in db
  {
    if db[id].attempts < db[id].maxAttempts then GiveBack(now + delay) else GiveUp
  }

  function FailLease(db: JobDb, t: Token, now: Time, delay: nat): Result<JobDb, JobError> {
    if delay > 86400 then Err(InvalidArgument)
    else if t.id !in db || db[t.id].account != t.account then Err(OutOfScope)
    else LeaseCas(db, t, now, FailWrite(db, t.id, now, delay), None)
  }

  function CompleteLease(db: JobDb, t: Token, now: Time, hash: Hash, progress: Option<Progress>)
    : Result<JobDb, JobError>
  {
    if t.id !in db || db[t.id].account != t.account then Err(OutOfScope)
    else
      var p := if progress.Some? then progress.value else db[t.id].progress;
      if !ValidProgress(p) then Err(InvalidArgument)
      else LeaseCas(db, t, now, Finish(p), Some(hash))
  }

  function HeartbeatLease(db: JobDb, t: Token, now: Time, seconds: nat): Result<JobDb, JobError> {
    if !(1 <= seconds <= 3600) then Err(InvalidArgument)
    else LeaseCas(db, t, now, Extend(now + seconds), None)
  }

  // ---------------------------------------------------------------- cancel and recovery

  function CancelRow(job: Job): Job {
    job.(status := Cancelled, owner := None, expires := None, version := job.version + 1)
  }

  predicate CascadesTo(db: JobDb, parent: JobId, account: AccountId, id: JobId)
    requires id in db
  {
    db[id].request.parent == Some(parent) && db[id].account == account && Queued(db[id].status)
  }

  /** The row of job i when job `id` is cancelled. */
  function CascadedRow(db: JobDb, id: JobId, account: AccountId, i: JobId): Job
    requires id in db && i in db
  {
    if i == id then CancelRow(db[i])
    else if CascadesTo(db, id, account, i) then db[i].(status := Cancelled, version := db[i].version + 1)
    else db[i]
  }

  /** The direct children still queued are cancelled with the job; their lease columns are already empty. */
  function Cancel(db: JobDb, account: AccountId, id: JobId, version: nat): Result<JobDb, JobError> {
    if id !in db || db[id].account != account then Err(OutOfScope)
    else if db[id].version != version || !Open(db[id].status) then Err(Stale)
    else Ok(map i | i in db :: CascadedRow(db, id, account, i))
  }

  predicate Expired(job: Job, now: Time) {
    Active(job.status) && job.expires.Some? && job.expires.value <= now
  }

  predicate Recoverable(db: JobDb, now: Time, account: Option<AccountId>, id: JobId) {
    id in db && Expired(db[id], now) && (account.Some? ==> db[id].account == account.value)
  }

  /** ORDER BY lease_expires_at, created_at. */
  predicate ExpiresNotAfter(x: Job, y: Job)
    requires x.expires.Some? && y.expires.Some?
  {
    x.expires.value < y.expires.value || (x.expires.value == y.expires.value && x.createdAt <= y.createdAt)
  }

  /** Parent statuses are read once, before the first row is written. */
  predicate ParentCancelled(db: JobDb, job: Job) {
    job.request.parent.Some? && job.request.parent.value in db && db[job.request.parent.value].status.Cancelled?
  }

  function RecoverRow(before: JobDb, job: Job, now: Time): Job {
    job.(status := if ParentCancelled(before, job) then Cancelled
                   else if job.attempts < job.maxAttempts then Retry else Dead,
         availableAt := now, owner := None, expires := None, version := job.version + 1)
  }

  function Recovered(db: JobDb, now: Time, chosen: set<JobId>): JobDb {
    map i | i in db :: if i in chosen then RecoverRow(db, db[i], now) else db[i]
  }

  /** The rows a recovery pass takes: expired ones, at most `limit`, none left out that ranks strictly first. */
  ghost predicate RecoverChoice(db: JobDb, now: Time, limit: nat, account: Option<AccountId>, chosen: set<JobId>) {
    && 1 <= limit <= 1000
    && (forall i :: i in chosen ==> Recoverable(db, now, account, i))
    && |chosen| <= limit
    && (|chosen| < limit ==> forall o :: o in db && Recoverable(db, now, account, o) ==> o in chosen)
    && (forall i, o :: i in chosen && o in db && Recoverable(db, now, account, o) && o !in chosen
          ==> ExpiresNotAfter(db[i], db[o]))
  }

  // ---------------------------------------------------------------- steps and runs

  /** One committed transaction by anybody. A transaction that fails leaves the rows as they were. */
  datatype Step =
    | EnqueueStep(dir: Directory, seen: JobDb, args: EnqueueArgs, newId: JobId, now: Time)
    | ClaimStep(claim: ClaimArgs, id: JobId)
    | StartStep(token: Token, now: Time)
    | HeartbeatStep(token: Token, now: Time, seconds: nat)
    | CompleteStep(token: Token, now: Time, hash: Hash, progress: Option<Progress>)
    | FailStep(token: Token, now: Time, delay: nat)
    | CancelStep(account: AccountId, id: JobId, version: nat)
    | RecoverStep(now: Time, limit: nat, scope: Option<AccountId>, chosen: set<JobId>)

  function Committed(db: JobDb, r: Result<JobDb, JobError>): JobDb {
    if r.Ok? then r.value else db
  }

  ghost function Apply(db: JobDb, step: Step): JobDb {
    match step
    case EnqueueStep(dir, seen, args, newId, now) =>
      if newId in db then db
      else
        var r := Enqueue(dir, seen, db, args, newId, now);
        if r.Ok? then r.value.0 else db
    case ClaimStep(claim, id) =>
      if ClaimChoice(db, claim, id)
      then db[id := ClaimRow(db[id], claim.worker, claim.now + claim.leaseSeconds)] else db
    case StartStep(t, now) => Committed(db, LeaseCas(db, t, now, Start, None))
    case HeartbeatStep(t, now, seconds) => Committed(db, HeartbeatLease(db, t, now, seconds))
    case CompleteStep(t, now, hash, progress) => Committed(db, CompleteLease(db, t, now, hash, progress))
    case FailStep(t, now, delay) => Committed(db, FailLease(db, t, now, delay))
    case CancelStep(account, id, version) => Committed(db, Cancel(db, account, id, version))
    case RecoverStep(now, limit, scope, chosen) =>
      if RecoverChoice(db, now, limit, scope, chosen) then Recovered(db, now, chosen) else db
  }

  ghost function Run(db: JobDb, steps: seq<Step>): JobDb
    decreases |steps|
  {
    if steps == [] then db else Run(Apply(db, steps[0]), steps[1..])
  }
}
