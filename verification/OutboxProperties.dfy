/** What every run of the outbox keeps between a row and its message. */
module OutboxProperties {
  import opened Base
  import opened Messages
  import opened Outbox

  // ---------------------------------------------------------------- the coupling invariant

  ghost predicate Coupled(db: OutboxDb, id: OutboxId)
    requires id in db.rows
  {
    var row := db.rows[id];
    && row.message in db.messages
    && var m := db.messages[row.message];
    && m.account == row.account
    && (row.status == Leased <==> row.owner.Some?)
    && (row.status == Leased <==> row.expires.Some?)
    && (row.status == Completed <==> m.waId.Some?)
    && (row.status == Waiting || row.status == Leased ==> m.status == InQueue)
    && (row.status == Dead ==> m.status == NotSent)
  }

  predicate Clash(x: Row, y: Row) {
    x.key == y.key || x.message == y.message
  }

  /** The unique indexes on idempotency_key and message_id. */
  ghost predicate Distinct(db: OutboxDb) {
    forall i, j :: i in db.rows && j in db.rows && Clash(db.rows[i], db.rows[j]) ==> i == j
  }

  ghost predicate Inv(db: OutboxDb) {
    && (forall id :: id in db.rows ==> Coupled(db, id))
    && Distinct(db)
    && UniqueWaIds(db.messages)
  }

  lemma ClaimKeepsDistinct(db: OutboxDb, now: Time, worker: WorkerId, lease: nat, chosen: set<OutboxId>)
    requires Distinct(db)
    ensures Distinct(db.(rows := ClaimedRows(db.rows, now, worker, lease, chosen)))
  {
    var rows := ClaimedRows(db.rows, now, worker, lease, chosen);
    forall i, j | i in rows && j in rows && Clash(rows[i], rows[j]) ensures i == j
    {
      assert Clash(db.rows[i], db.rows[j]);
    }
  }

  lemma ClaimKeepsInv(db: OutboxDb, now: Time, worker: WorkerId, batch: nat, lease: nat, chosen: set<OutboxId>)
    requires Inv(db) && BatchChoice(db.rows, now, batch, chosen)
    ensures Inv(db.(rows := ClaimedRows(db.rows, now, worker, lease, chosen)))
  {
    var after := db.(rows := ClaimedRows(db.rows, now, worker, lease, chosen));
    ClaimKeepsDistinct(db, now, worker, lease, chosen);
    forall id | id in after.rows ensures Coupled(after, id) { assert Coupled(db, id); }
  }

  lemma SentKeepsInv(db: OutboxDb, id: OutboxId, worker: WorkerId, wa: WaId, now: Time)
    requires Inv(db) && FinalizeSent(db, id, worker, wa, now).Ok?
    ensures Inv(FinalizeSent(db, id, worker, wa, now).value)
  {
  }

  lemma FailureKeepsInv(db: OutboxDb, id: OutboxId, worker: WorkerId, code: string, retryable: bool,
                        maxAttempts: nat, now: Time)
    requires Inv(db)
    ensures Inv(FinalizeFailure(db, id, worker, code, retryable, maxAttempts, now))
  {
  }

  lemma CancelKeepsInv(db: OutboxDb, id: OutboxId)
    requires Inv(db) && CancelSchedule(db, id).Ok?
    ensures Inv(CancelSchedule(db, id).value)
  {
  }

  /** Writers of messages that carry a platform id only touch completed pairs or nobody's. */
  lemma MessageKeepsInv(db: OutboxDb, message: MessageId, contents: Message)
    requires Inv(db) && contents.waId.Some?
    requires if message in db.messages
             then db.messages[message].waId == contents.waId && db.messages[message].account == contents.account
             else !WaIdTaken(db.messages, contents.account, contents.waId.value, message)
    ensures Inv(db.(messages := db.messages[message := contents]))
  {
  }

  lemma EnqueueKeepsInv(db: OutboxDb, step: Step)
    requires Inv(db) && step.EnqueueStep?
    ensures Inv(Apply(db, step))
  {
    var after := Apply(db, step);
    forall i | i in after.rows ensures Coupled(after, i) { if i in db.rows { assert Coupled(db, i); } }
  }

  lemma StepKeepsInv(db: OutboxDb, step: Step)
    requires Inv(db)
    ensures Inv(Apply(db, step))
  {
    match step
    case EnqueueStep(_, _, _, _, _, _) => EnqueueKeepsInv(db, step);
    case ClaimStep(now, worker, batch, lease, chosen) =>
      if BatchChoice(db.rows, now, batch, chosen) { ClaimKeepsInv(db, now, worker, batch, lease, chosen); }
    case SentStep(id, worker, wa, now) =>
      if FinalizeSent(db, id, worker, wa, now).Ok? { SentKeepsInv(db, id, worker, wa, now); }
    case FailureStep(id, worker, code, retryable, maxAttempts, now) =>
      FailureKeepsInv(db, id, worker, code, retryable, maxAttempts, now);
    case CancelStep(id) => if CancelSchedule(db, id).Ok? { CancelKeepsInv(db, id); }
    case ReceiptStep(message, receipt, at, error) =>
      if message in db.messages && db.messages[message].waId.Some? {
        MergeIsJoin(db.messages[message], receipt, at, error);
        MessageKeepsInv(db, message, MergeReceipt(db.messages[message], receipt, at, error));
      }
    case UpsertStep(message, contents) =>
      if UpsertAllowed(db.messages, message, contents) { MessageKeepsInv(db, message, contents); }
    case ConversationStep(_, _) => assert forall i :: i in db.rows ==> Coupled(db, i);
  }

  /** The coupling holds in every state of every run, starting from an empty outbox or any coupled one. */
  lemma RunKeepsInv(db: OutboxDb, steps: seq<Step>)
    requires Inv(db)
    ensures Inv(Run(db, steps))
    decreases |steps|
  {
    if steps != [] {
      StepKeepsInv(db, steps[0]);
      RunKeepsInv(Apply(db, steps[0]), steps[1..]);
    }
  }

  // ---------------------------------------------------------------- absorption and ownership

  predicate SameIdentity(x: Row, y: Row) {
    x.message == y.message && x.account == y.account && x.key == y.key
  }

  ghost predicate RowMove(id: OutboxId, x: Row, step: Step, y: Row) {
    && SameIdentity(x, y)
    && (x.status == Completed ==> y == x)
    && (x.status == Dead ==> y.status == Dead)
    && (y.owner.Some? ==> (y.owner == x.owner && y.attempts == x.attempts) || Taken(id, x, step, y))
    && (y.attempts == x.attempts || y.owner.Some?)
  }

  predicate Taken(id: OutboxId, x: Row, step: Step, y: Row) {
    step.ClaimStep? && id in step.chosen && y.owner == Some(step.worker) && y.attempts == x.attempts + 1
  }

  lemma ClaimRowMoves(db: OutboxDb, step: Step, id: OutboxId)
    requires Inv(db) && id in db.rows && step.ClaimStep?
    ensures RowMove(id, db.rows[id], step, Apply(db, step).rows[id])
  {
  }

  lemma FinalRowMoves(db: OutboxDb, step: Step, id: OutboxId)
    requires Inv(db) && id in db.rows && (step.SentStep? || step.FailureStep? || step.CancelStep?)
    ensures id in Apply(db, step).rows && RowMove(id, db.rows[id], step, Apply(db, step).rows[id])
  {
    assert Coupled(db, id);
  }

  /** What one step may do to one row. Only a claim spends an attempt or gives the row an owner. */
  lemma RowMoves(db: OutboxDb, step: Step, id: OutboxId)
    requires Inv(db) && id in db.rows
    ensures id in Apply(db, step).rows && RowMove(id, db.rows[id], step, Apply(db, step).rows[id])
  {
    if step.ClaimStep? {
      ClaimRowMoves(db, step, id);
    } else if step.SentStep? || step.FailureStep? || step.CancelStep? {
      FinalRowMoves(db, step, id);
    }
  }

  /** completed and dead are final, and a row is never re-pointed. */
  lemma {:induction false} TerminalRowsStay(db: OutboxDb, steps: seq<Step>, id: OutboxId)
    requires Inv(db) && id in db.rows
    ensures id in Run(db, steps).rows && SameIdentity(db.rows[id], Run(db, steps).rows[id])
    ensures db.rows[id].status == Completed ==> Run(db, steps).rows[id] == db.rows[id]
    ensures db.rows[id].status == Dead ==> Run(db, steps).rows[id].status == Dead
    decreases |steps|
  {
    if steps != [] {
      RowMoves(db, steps[0], id);
      StepKeepsInv(db, steps[0]);
      TerminalRowsStay(Apply(db, steps[0]), steps[1..], id);
    }
  }

  /** The pass picks the row for this worker. */
  predicate ClaimsFor(step: Step, worker: WorkerId, id: OutboxId) {
    step.ClaimStep? && step.worker == worker && id in step.chosen
  }

  /** A claim pass takes an expired row away from the worker that held it, unless it picks the row for that worker again. */
  lemma ReapTakesAway(db: OutboxDb, step: Step, id: OutboxId, worker: WorkerId)
    requires Inv(db) && id in db.rows
    requires step.ClaimStep? && BatchChoice(db.rows, step.now, step.batch, step.chosen)
    requires LeaseOver(db.rows[id], step.now)
    ensures Owns(Apply(db, step).rows, id, worker) <==> ClaimsFor(step, worker, id)
  {
  }

  /** A worker that has lost a row and is not given it again stays without it. */
  lemma {:induction false} LostStaysLost(db: OutboxDb, steps: seq<Step>, id: OutboxId, worker: WorkerId)
    requires Inv(db) && id in db.rows && !Owns(db.rows, id, worker)
    requires forall s :: s in steps ==> !ClaimsFor(s, worker, id)
    ensures !Owns(Run(db, steps).rows, id, worker)
    decreases |steps|
  {
    if steps != [] {
      assert steps[0] in steps && Coupled(db, id);
      RowMoves(db, steps[0], id);
      StepKeepsInv(db, steps[0]);
      LostStaysLost(Apply(db, steps[0]), steps[1..], id, worker);
    }
  }

  /** The reaped worker's late finalisation, success or failure, changes nothing. */
  lemma LateFinalisation(db: OutboxDb, reap: Step, steps: seq<Step>, id: OutboxId, worker: WorkerId, wa: WaId,
                         code: string, retryable: bool, maxAttempts: nat, now: Time)
    requires Inv(db) && id in db.rows
    requires reap.ClaimStep? && BatchChoice(db.rows, reap.now, reap.batch, reap.chosen)
    requires LeaseOver(db.rows[id], reap.now)
    requires forall s :: s in [reap] + steps ==> !ClaimsFor(s, worker, id)
    ensures var late := Run(Apply(db, reap), steps);
            && FinalizeSent(late, id, worker, wa, now) == Ok(late)
            && FinalizeFailure(late, id, worker, code, retryable, maxAttempts, now) == late
  {
    assert reap in [reap] + steps && forall s :: s in steps ==> s in [reap] + steps;
    ReapTakesAway(db, reap, id, worker);
    RowMoves(db, reap, id);
    StepKeepsInv(db, reap);
    LostStaysLost(Apply(db, reap), steps, id, worker);
  }

  // ---------------------------------------------------------------- the attempt budget

  ghost predicate WithinBudget(db: OutboxDb, maxAttempts: nat) {
    forall i :: i in db.rows ==> RowWithin(db.rows[i], maxAttempts)
  }

  /** A waiting row has an attempt left. */
  predicate RowWithin(row: Row, maxAttempts: nat) {
    row.attempts <= maxAttempts && (row.status == Waiting ==> row.attempts < maxAttempts)
  }

  /** The reaping of a claim pass, which does not look at attempts, meets no row that has spent them all. */
  ghost predicate ReapsNoneSpent(db: OutboxDb, step: Step, maxAttempts: nat) {
    step.ClaimStep? && BatchChoice(db.rows, step.now, step.batch, step.chosen) ==>
      forall i :: i in db.rows && LeaseOver(db.rows[i], step.now) ==> db.rows[i].attempts < maxAttempts
  }

  /** A claim pass keeps the budget exactly when it reaps no row that has spent it. */
  lemma ClaimKeepsBudgetIff(db: OutboxDb, step: Step, maxAttempts: nat)
    requires Inv(db) && WithinBudget(db, maxAttempts) && step.ClaimStep?
    ensures WithinBudget(Apply(db, step), maxAttempts) <==> ReapsNoneSpent(db, step, maxAttempts)
  {
    if BatchChoice(db.rows, step.now, step.batch, step.chosen) {
      var after := Apply(db, step).rows;
      forall i | i in db.rows
        ensures i in after
        ensures RowWithin(after[i], maxAttempts) <==> (LeaseOver(db.rows[i], step.now) ==> db.rows[i].attempts < maxAttempts)
      {
        assert RowWithin(db.rows[i], maxAttempts) && Coupled(db, i);
        if i in step.chosen { assert DueAt(db.rows, step.now, i); }
      }
    }
  }

  lemma OtherStepsKeepBudget(db: OutboxDb, step: Step, maxAttempts: nat)
    requires Inv(db) && WithinBudget(db, maxAttempts) && 1 <= maxAttempts && !step.ClaimStep?
    requires step.FailureStep? ==> step.maxAttempts == maxAttempts
    ensures WithinBudget(Apply(db, step), maxAttempts)
  {
    forall i | i in Apply(db, step).rows ensures RowWithin(Apply(db, step).rows[i], maxAttempts)
    {
      if i in db.rows { assert RowWithin(db.rows[i], maxAttempts); }
    }
  }

  ghost predicate AlwaysWithin(db: OutboxDb, steps: seq<Step>, maxAttempts: nat)
    decreases |steps|
  {
    WithinBudget(db, maxAttempts) && (steps == [] || AlwaysWithin(Apply(db, steps[0]), steps[1..], maxAttempts))
  }

  ghost predicate NeverReapsSpent(db: OutboxDb, steps: seq<Step>, maxAttempts: nat)
    decreases |steps|
  {
    steps == []
    || (ReapsNoneSpent(db, steps[0], maxAttempts) && NeverReapsSpent(Apply(db, steps[0]), steps[1..], maxAttempts))
  }

  /** Attempts stay within max_attempts over a whole run exactly when no lease runs out on a row's last attempt. */
  lemma {:induction false} BudgetHoldsIff(db: OutboxDb, steps: seq<Step>, maxAttempts: nat)
    requires Inv(db) && WithinBudget(db, maxAttempts) && 1 <= maxAttempts
    requires forall s :: s in steps && s.FailureStep? ==> s.maxAttempts == maxAttempts
    ensures AlwaysWithin(db, steps, maxAttempts) <==> NeverReapsSpent(db, steps, maxAttempts)
    decreases |steps|
  {
    if steps != [] {
      assert steps[0] in steps;
      StepKeepsInv(db, steps[0]);
      if steps[0].ClaimStep? { ClaimKeepsBudgetIff(db, steps[0], maxAttempts); }
      else { OtherStepsKeepBudget(db, steps[0], maxAttempts); }
      if WithinBudget(Apply(db, steps[0]), maxAttempts) { BudgetHoldsIff(Apply(db, steps[0]), steps[1..], maxAttempts); }
    }
  }

  // ---------------------------------------------------------------- a run that spends without bound

  const CHAT := Conversation(0, None, "chat", false, "", None)
  const BLANK := OutboxDb(map[], map[], map[0 := CHAT])
  const ENQUEUE := EnqueueStep(0, "hello", 0, Client("k"), 0, 0)

  /** When the n-th lease of `lease` seconds runs out. */
  function Elapsed(lease: nat, n: nat): nat {
    if n == 0 then 0 else Elapsed(lease, n - 1) + lease
  }

  /** One row, enqueued once and claimed again each time its lease runs out. */
  function Reclaims(lease: nat, n: nat): seq<Step> {
    if n == 0 then [ENQUEUE] else Reclaims(lease, n - 1) + [ClaimStep(Elapsed(lease, n - 1), 0, 1, lease, {0})]
  }

  function ClaimedTimes(lease: nat, n: nat): OutboxDb {
    var row := NewRow(0, 0, Client("k"), 0);
    BLANK.(messages := map[0 := NewMessage(CHAT, 0, "hello")],
           rows := map[0 := if n == 0 then row
                            else row.(status := Leased, attempts := n, owner := Some(0), expires := Some(Elapsed(lease, n)))])
  }

  lemma ClaimedOnceMore(lease: nat, n: nat)
    requires n > 0
    ensures Apply(ClaimedTimes(lease, n - 1), ClaimStep(Elapsed(lease, n - 1), 0, 1, lease, {0})) == ClaimedTimes(lease, n)
  {
    var rows := ClaimedTimes(lease, n - 1).rows;
    assert DueAt(rows, Elapsed(lease, n - 1), 0);
    assert BatchChoice(rows, Elapsed(lease, n - 1), 1, {0});
  }

  lemma {:induction false} RunSnoc(db: OutboxDb, steps: seq<Step>, last: Step)
    ensures Run(db, steps + [last]) == Apply(Run(db, steps), last)
    decreases |steps|
  {
    if steps == [] {
      assert [last][1..] == [];
    } else {
      assert (steps + [last])[1..] == steps[1..] + [last];
      RunSnoc(Apply(db, steps[0]), steps[1..], last);
    }
  }

  /**
   For every lease length the dispatcher allows and every n: enqueue one row, let it be claimed and its lease
   run out n times, and it has spent n attempts, whatever max_attempts is.
   */
  lemma {:induction false} ExpiryIgnoresBudget(lease: nat, n: nat)
    requires 10 <= lease <= 600
    ensures Inv(BLANK) && Run(BLANK, Reclaims(lease, n)) == ClaimedTimes(lease, n)
    ensures Run(BLANK, Reclaims(lease, n)).rows[0].attempts == n
    decreases n
  {
    if n == 0 {
      assert Run(BLANK, [ENQUEUE]) == Apply(BLANK, ENQUEUE) by { assert [ENQUEUE][1..] == []; }
    } else {
      ExpiryIgnoresBudget(lease, n - 1);
      ClaimedOnceMore(lease, n);
      RunSnoc(BLANK, Reclaims(lease, n - 1), ClaimStep(Elapsed(lease, n - 1), 0, 1, lease, {0}));
    }
  }
}
