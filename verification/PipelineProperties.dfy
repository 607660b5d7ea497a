/** Exactly one reply per job, from the queue to the platform, over every interleaving and every crash. */
module PipelineProperties {
  import opened Base
  import opened Messages
  import opened Pipeline
  import Q = JobQueue
  import QP = JobProperties
  import O = Outbox
  import OP = OutboxProperties
  import R = ReceiptStore
  import K = KeyedSend

  predicate IsReply(rows: O.Rows, job: JobId, row: OutboxId) {
    row in rows && rows[row].key == O.ReplyTo(job)
  }

  ghost predicate HasReply(rows: O.Rows, job: JobId) {
    exists row :: IsReply(rows, job, row)
  }

  predicate IsCompleted(jobs: Q.JobDb, job: JobId) {
    job in jobs && jobs[job].status.Completed?
  }

  // ---------------------------------------------------------------- database half of the invariant

  /** A reply row exists exactly for the completed jobs. */
  ghost predicate ReplyIffCompleted(jobs: Q.JobDb, rows: O.Rows) {
    forall job: JobId :: HasReply(rows, job) <==> IsCompleted(jobs, job)
  }

  ghost predicate DbInv(jobs: Q.JobDb, outbox: O.OutboxDb) {
    QP.Inv(jobs) && OP.Inv(outbox) && ReplyIffCompleted(jobs, outbox.rows)
  }

  /** Only a completing step makes a job completed, and none makes it anything else again. */
  lemma CompletedOnlyByComplete(jobs: Q.JobDb, step: Q.Step, job: JobId)
    requires QP.Inv(jobs)
    ensures IsCompleted(jobs, job) ==> IsCompleted(Q.Apply(jobs, step), job)
    ensures !step.CompleteStep? && IsCompleted(Q.Apply(jobs, step), job) ==> IsCompleted(jobs, job)
  {
  }

  lemma JobsKeepDbInv(jobs: Q.JobDb, outbox: O.OutboxDb, step: Q.Step)
    requires DbInv(jobs, outbox) && !step.CompleteStep?
    ensures DbInv(Q.Apply(jobs, step), outbox)
  {
    QP.StepKeepsInv(jobs, step);
    forall job: JobId
      ensures IsCompleted(Q.Apply(jobs, step), job) <==> IsCompleted(jobs, job)
    {
      CompletedOnlyByComplete(jobs, step, job);
    }
  }

  /** A row a step inserts carries the key the step was given. */
  lemma InsertedRow(db: O.OutboxDb, step: O.Step, row: OutboxId)
    requires OP.Inv(db) && row !in db.rows && row in O.Apply(db, step).rows
    ensures step.EnqueueStep? && O.Apply(db, step).rows[row].key == step.key
  {
  }

  lemma SameReplies(db: O.OutboxDb, step: O.Step, job: JobId)
    requires OP.Inv(db) && !(step.EnqueueStep? && step.key == O.ReplyTo(job))
    ensures forall row :: IsReply(db.rows, job, row) <==> IsReply(O.Apply(db, step).rows, job, row)
  {
    forall row ensures IsReply(db.rows, job, row) <==> IsReply(O.Apply(db, step).rows, job, row)
    {
      if row in db.rows { OP.RowMoves(db, step, row); }
      else if row in O.Apply(db, step).rows { InsertedRow(db, step, row); }
    }
  }

  lemma OutboxKeepsDbInv(jobs: Q.JobDb, outbox: O.OutboxDb, step: O.Step)
    requires DbInv(jobs, outbox) && !(step.EnqueueStep? && step.key.ReplyTo?)
    ensures DbInv(jobs, O.Apply(outbox, step))
  {
    OP.StepKeepsInv(outbox, step);
    var after := O.Apply(outbox, step).rows;
    forall job: JobId ensures HasReply(after, job) <==> HasReply(outbox.rows, job)
    {
      SameReplies(outbox, step, job);
    }
  }

  ghost predicate ReplyPossible(w: World, lease: Lease, newMessage: MessageId, newRow: OutboxId) {
    && lease.conversation.Some? && lease.conversation.value in w.outbox.conversations
    && newMessage !in w.outbox.messages && newRow !in w.outbox.rows
  }

  /** The joint transaction commits only for a job without a reply, and then adds exactly one row. */
  lemma ReplyAddsOne(w: World, lease: Lease, version: nat, hash: Hash, text: string, now: Time,
                     newMessage: MessageId, newRow: OutboxId)
    requires DbInv(w.jobs, w.outbox) && ReplyPossible(w, lease, newMessage, newRow)
    requires ReplyTx(w, lease, version, hash, text, now, newMessage, newRow).Some?
    ensures var after := ReplyTx(w, lease, version, hash, text, now, newMessage, newRow).value;
            && !HasReply(w.outbox.rows, lease.token.id)
            && after.jobs == Q.Apply(w.jobs, Q.CompleteStep(Current(lease, version), now, hash, None))
            && after.outbox == O.Apply(w.outbox, O.EnqueueStep(lease.conversation.value, text, now,
                                                               O.ReplyTo(lease.token.id), newMessage, newRow))
            && after.outbox == O.Inserted(w.outbox, lease.conversation.value, text, now,
                                          O.ReplyTo(lease.token.id), newMessage, newRow)
            && IsCompleted(after.jobs, lease.token.id)
            && (forall other :: other != lease.token.id ==> (IsCompleted(after.jobs, other) <==> IsCompleted(w.jobs, other)))
            && after == w.(jobs := after.jobs, outbox := after.outbox)
  {
    var job := lease.token.id;
    assert QP.RowOk(w.jobs, job);
    assert HasReply(w.outbox.rows, job) ==> IsCompleted(w.jobs, job);
    var found := O.FindRow(w.outbox.rows, O.ReplyTo(job));
    assert found.Some? ==> IsReply(w.outbox.rows, job, found.value);
  }

  lemma ReplyKeepsDbInv(w: World, lease: Lease, version: nat, hash: Hash, text: string, now: Time,
                        newMessage: MessageId, newRow: OutboxId)
    requires DbInv(w.jobs, w.outbox) && ReplyPossible(w, lease, newMessage, newRow)
    requires ReplyTx(w, lease, version, hash, text, now, newMessage, newRow).Some?
    ensures var after := ReplyTx(w, lease, version, hash, text, now, newMessage, newRow).value;
            DbInv(after.jobs, after.outbox)
  {
    var after := ReplyTx(w, lease, version, hash, text, now, newMessage, newRow).value;
    var done := Q.CompleteStep(Current(lease, version), now, hash, None);
    var queued := O.EnqueueStep(lease.conversation.value, text, now, O.ReplyTo(lease.token.id), newMessage, newRow);
    ReplyAddsOne(w, lease, version, hash, text, now, newMessage, newRow);
    QP.StepKeepsInv(w.jobs, done);
    OP.StepKeepsInv(w.outbox, queued);
    forall job: JobId
      ensures HasReply(after.outbox.rows, job) <==> IsCompleted(after.jobs, job)
    {
      if job == lease.token.id {
        assert IsReply(after.outbox.rows, job, newRow);
      } else {
        SameReplies(w.outbox, queued, job);
        assert HasReply(after.outbox.rows, job) <==> HasReply(w.outbox.rows, job);
      }
    }
  }

  /** The job transaction a worker step commits, if any. */
  function JobTransaction(w: World, step: Step): Option<Q.Step> {
    match step
    case StartJob(p, now) =>
      if WorkerAt(w, p).Leased? then Some(Q.StartStep(WorkerAt(w, p).lease.token, now)) else None
    case DeclineJob(p) =>
      var s := WorkerAt(w, p);
      if s.Started? || s.Answered? then Some(Q.CancelStep(s.lease.token.account, s.lease.token.id, s.version)) else None
    case FailJob(p, now, delay) =>
      if WorkerAt(w, p).Failing? then Some(Q.FailStep(WorkerAt(w, p).lease.token, now, delay)) else None
    case _ => None
  }

  lemma StartCommits(w: World, p: nat, now: Time)
    requires WorkerAt(w, p).Leased?
    ensures var step := StartJob(p, now);
            Apply(w, step).jobs == Q.Apply(w.jobs, JobTransaction(w, step).value) && Apply(w, step).outbox == w.outbox
  {
  }

  lemma DeclineCommits(w: World, p: nat)
    requires WorkerAt(w, p).Started? || WorkerAt(w, p).Answered?
    ensures var step := DeclineJob(p);
            Apply(w, step).jobs == Q.Apply(w.jobs, JobTransaction(w, step).value) && Apply(w, step).outbox == w.outbox
  {
  }

  lemma FailCommits(w: World, p: nat, now: Time, delay: nat)
    requires WorkerAt(w, p).Failing?
    ensures var step := FailJob(p, now, delay);
            Apply(w, step).jobs == Q.Apply(w.jobs, JobTransaction(w, step).value) && Apply(w, step).outbox == w.outbox
  {
  }

  lemma TransactionKeepsDbInv(w: World, step: Step, after: World)
    requires DbInv(w.jobs, w.outbox) && JobTransaction(w, step).Some?
    requires after.jobs == Q.Apply(w.jobs, JobTransaction(w, step).value) && after.outbox == w.outbox
    ensures DbInv(after.jobs, after.outbox)
  {
    JobsKeepDbInv(w.jobs, w.outbox, JobTransaction(w, step).value);
  }

  lemma CourierKeepsDbInv(w: World, step: Step)
    requires DbInv(w.jobs, w.outbox)
    requires step.Receive? || step.Lose?
    ensures DbInv(w.jobs, Apply(w, step).outbox) && Apply(w, step).jobs == w.jobs
  {
    var s := CourierAt(w, step.courier);
    if step.Receive? && s.Waiting? && Answer(w, step.courier).Some? {
      OutboxKeepsDbInv(w.jobs, w.outbox, O.SentStep(s.row, step.courier, Answer(w, step.courier).value, step.now));
    } else if step.Lose? && s.Waiting? {
      OutboxKeepsDbInv(w.jobs, w.outbox,
        O.FailureStep(s.row, step.courier, step.code, step.retryable, step.maxAttempts, step.now));
    }
  }

  lemma StepKeepsDbInv(w: World, step: Step)
    requires DbInv(w.jobs, w.outbox)
    ensures DbInv(Apply(w, step).jobs, Apply(w, step).outbox)
  {
    match step
    case OtherJobStep(s) => if !s.CompleteStep? { JobsKeepDbInv(w.jobs, w.outbox, s); }
    case OtherOutboxStep(s) =>
      if !(s.SentStep? || (s.EnqueueStep? && s.key.ReplyTo?)) { OutboxKeepsDbInv(w.jobs, w.outbox, s); }
    case ClaimJob(p, claim, id) => JobsKeepDbInv(w.jobs, w.outbox, Q.ClaimStep(claim, id));
    case StartJob(p, now) =>
      if WorkerAt(w, p).Leased? { StartCommits(w, p, now); TransactionKeepsDbInv(w, step, Apply(w, step)); }
    case DeclineJob(p) =>
      if WorkerAt(w, p).Started? || WorkerAt(w, p).Answered? {
        DeclineCommits(w, p);
        TransactionKeepsDbInv(w, step, Apply(w, step));
      }
    case FailJob(p, now, delay) =>
      if WorkerAt(w, p).Failing? { FailCommits(w, p, now, delay); TransactionKeepsDbInv(w, step, Apply(w, step)); }
    case Receive(_, _) => CourierKeepsDbInv(w, step);
    case Lose(_, _, _, _, _) => CourierKeepsDbInv(w, step);
    case Reply(p, now, newMessage, newRow) =>
      if WorkerAt(w, p).Answered? && ReplyPossible(w, WorkerAt(w, p).lease, newMessage, newRow) {
        var s := WorkerAt(w, p);
        if ReplyTx(w, s.lease, s.version, s.hash, s.text, now, newMessage, newRow).Some? {
          ReplyKeepsDbInv(w, s.lease, s.version, s.hash, s.text, now, newMessage, newRow);
        }
      }
    case _ =>
  }

  // ---------------------------------------------------------------- bridge half of the invariant

  /** The bridge has started or finished an operation under key k. */
  ghost predicate KeyUsed(b: K.Bridge, k: R.Key) {
    (exists op :: op in b.ops && b.ops[op].key == Some(k)) || K.ObtainedFor(b.obtained, k) != []
  }

  ghost predicate ReplyAt(rows: O.Rows, job: JobId, account: AccountId) {
    exists row :: IsReply(rows, job, row) && rows[row].account == account
  }

  /** Reply keys are used only by the bridge of the account that owns the reply row. */
  ghost predicate Provenance(rows: O.Rows, bridges: map<AccountId, K.Bridge>) {
    forall a, job: JobId :: a in bridges && KeyUsed(bridges[a], O.ReplyTo(job)) ==> ReplyAt(rows, job, a)
  }

  ghost predicate CourierOk(rows: O.Rows, bridges: map<AccountId, K.Bridge>, s: Courier) {
    s.Waiting? ==>
      && s.row in rows && rows[s.row].account == s.account
      && s.account in bridges && s.call in bridges[s.account].calls
      && bridges[s.account].calls[s.call].key == Some(rows[s.row].key)
  }

  ghost predicate CouriersOk(rows: O.Rows, bridges: map<AccountId, K.Bridge>, couriers: map<WorkerId, Courier>) {
    forall c :: c in couriers ==> CourierOk(rows, bridges, couriers[c])
  }

  /** A completed row's message carries the id its bridge remembers for the row's key. */
  ghost predicate RowAgrees(outbox: O.OutboxDb, bridges: map<AccountId, K.Bridge>, row: OutboxId)
    requires row in outbox.rows
  {
    var r := outbox.rows[row];
    && r.message in outbox.messages
    && r.account in bridges
    && (r.key !in bridges[r.account].forgotten ==>
          R.Lookup(bridges[r.account].store.entries, r.key) == outbox.messages[r.message].waId)
  }

  ghost predicate Agreed(outbox: O.OutboxDb, bridges: map<AccountId, K.Bridge>) {
    forall row :: row in outbox.rows && outbox.rows[row].status == O.Completed ==> RowAgrees(outbox, bridges, row)
  }

  ghost predicate BridgesOk(bridges: map<AccountId, K.Bridge>) {
    forall a :: a in bridges ==> K.Inv(bridges[a]) && K.Sourced(bridges[a])
  }

  ghost predicate BridgeInv(w: World) {
    && BridgesOk(w.bridges)
    && Provenance(w.outbox.rows, w.bridges)
    && CouriersOk(w.outbox.rows, w.bridges, w.couriers)
    && Agreed(w.outbox, w.bridges)
  }

  ghost predicate Inv(w: World) {
    DbInv(w.jobs, w.outbox) && BridgeInv(w)
  }

  // ---------------------------------------------------------------- outbox steps and the bridge half

  lemma WaIdStays(db: O.OutboxDb, step: O.Step, m: MessageId)
    requires OP.Inv(db) && m in db.messages && db.messages[m].waId.Some?
    ensures m in O.Apply(db, step).messages && O.Apply(db, step).messages[m].waId == db.messages[m].waId
  {
    if step.SentStep? && step.id in db.rows { assert OP.Coupled(db, step.id); }
    if step.ReceiptStep? && step.message in db.messages {
      MergeIsJoin(db.messages[step.message], step.receipt, step.at, step.error);
    }
  }

  /** Only the step that records a send completes a row, and only the row it names. */
  lemma CompletedOnlyBySent(db: O.OutboxDb, step: O.Step, row: OutboxId)
    requires OP.Inv(db) && row in O.Apply(db, step).rows && O.Apply(db, step).rows[row].status == O.Completed
    ensures (row in db.rows && db.rows[row] == O.Apply(db, step).rows[row])
            || (step.SentStep? && step.id == row && O.Owns(db.rows, row, step.worker)
                && O.FinalizeSent(db, row, step.worker, step.wa, step.now).Ok?)
  {
  }

  lemma OutboxKeepsAgreed(db: O.OutboxDb, bridges: map<AccountId, K.Bridge>, step: O.Step)
    requires OP.Inv(db) && Agreed(db, bridges) && !step.SentStep?
    ensures Agreed(O.Apply(db, step), bridges)
  {
    var after := O.Apply(db, step);
    forall row | row in after.rows && after.rows[row].status == O.Completed ensures RowAgrees(after, bridges, row)
    {
      CompletedOnlyBySent(db, step, row);
      assert RowAgrees(db, bridges, row) && OP.Coupled(db, row);
      WaIdStays(db, step, db.rows[row].message);
    }
  }

  /** Recording the bridge's answer keeps rows and bridges agreed: the answer is what the bridge remembers. */
  lemma SentKeepsAgreed(db: O.OutboxDb, bridges: map<AccountId, K.Bridge>, step: O.Step)
    requires OP.Inv(db) && Agreed(db, bridges) && step.SentStep? && step.id in db.rows
    requires var r := db.rows[step.id];
             r.account in bridges && (r.key !in bridges[r.account].forgotten ==>
               R.Lookup(bridges[r.account].store.entries, r.key) == Some(step.wa))
    ensures Agreed(O.Apply(db, step), bridges)
  {
  }

  lemma OutboxKeepsOrigins(db: O.OutboxDb, bridges: map<AccountId, K.Bridge>, couriers: map<WorkerId, Courier>,
                           step: O.Step)
    requires OP.Inv(db) && Provenance(db.rows, bridges) && CouriersOk(db.rows, bridges, couriers)
    ensures Provenance(O.Apply(db, step).rows, bridges)
    ensures CouriersOk(O.Apply(db, step).rows, bridges, couriers)
  {
    var after := O.Apply(db, step).rows;
    forall row | row in db.rows ensures row in after && OP.SameIdentity(db.rows[row], after[row])
    {
      OP.RowMoves(db, step, row);
    }
    forall a, job: JobId | a in bridges && KeyUsed(bridges[a], O.ReplyTo(job)) ensures ReplyAt(after, job, a)
    {
      assert ReplyAt(db.rows, job, a);
      var row :| IsReply(db.rows, job, row) && db.rows[row].account == a;
      assert IsReply(after, job, row) && after[row].account == a;
    }
    forall c | c in couriers ensures CourierOk(after, bridges, couriers[c])
    {
      assert CourierOk(db.rows, bridges, couriers[c]);
    }
  }

  // ---------------------------------------------------------------- bridge steps

  /** A key comes into use only by a send under it. */
  lemma UsedOnlyBySend(b: K.Bridge, step: K.Step, k: R.Key)
    requires KeyUsed(K.Apply(b, step), k)
    ensures KeyUsed(b, k) || (step.SendStep? && step.key == Some(k))
  {
  }

  lemma CallsStay(b: K.Bridge, step: K.Step, call: K.CallId)
    requires call in b.calls
    ensures call in K.Apply(b, step).calls && K.Apply(b, step).calls[call] == b.calls[call]
  {
  }

  ghost predicate SendAllowed(rows: O.Rows, account: AccountId, step: K.Step) {
    step.SendStep? && step.key.Some? && step.key.value.ReplyTo? ==> ReplyAt(rows, step.key.value.job, account)
  }

  lemma BridgeKeepsProvenance(w: World, a: AccountId, step: K.Step)
    requires Inv(w) && a in w.bridges && SendAllowed(w.outbox.rows, a, step)
    ensures Provenance(w.outbox.rows, w.bridges[a := K.Apply(w.bridges[a], step)])
  {
    var bridges := w.bridges[a := K.Apply(w.bridges[a], step)];
    forall x, job: JobId | x in bridges && KeyUsed(bridges[x], O.ReplyTo(job)) ensures ReplyAt(w.outbox.rows, job, x)
    {
      if x == a { UsedOnlyBySend(w.bridges[a], step, O.ReplyTo(job)); }
    }
  }

  lemma BridgeKeepsCouriers(w: World, a: AccountId, step: K.Step)
    requires Inv(w) && a in w.bridges
    ensures CouriersOk(w.outbox.rows, w.bridges[a := K.Apply(w.bridges[a], step)], w.couriers)
  {
    var bridges := w.bridges[a := K.Apply(w.bridges[a], step)];
    forall c | c in w.couriers ensures CourierOk(w.outbox.rows, bridges, w.couriers[c])
    {
      assert CourierOk(w.outbox.rows, w.bridges, w.couriers[c]);
      if w.couriers[c].Waiting? && w.couriers[c].account == a { CallsStay(w.bridges[a], step, w.couriers[c].call); }
    }
  }

  lemma BridgeKeepsAgreed(w: World, a: AccountId, step: K.Step)
    requires Inv(w) && a in w.bridges
    ensures Agreed(w.outbox, w.bridges[a := K.Apply(w.bridges[a], step)])
  {
    var bridges := w.bridges[a := K.Apply(w.bridges[a], step)];
    K.StepKeepsInv(w.bridges[a], step);
    forall row | row in w.outbox.rows && w.outbox.rows[row].status == O.Completed ensures RowAgrees(w.outbox, bridges, row)
    {
      assert RowAgrees(w.outbox, w.bridges, row) && OP.Coupled(w.outbox, row);
      var r := w.outbox.rows[row];
      if r.account == a && r.key !in bridges[a].forgotten {
        K.RememberedStays(w.bridges[a], step, r.key);
      }
    }
  }

  lemma BridgeKeepsInv(w: World, a: AccountId, step: K.Step)
    requires Inv(w) && a in w.bridges && SendAllowed(w.outbox.rows, a, step)
    ensures Inv(w.(bridges := w.bridges[a := K.Apply(w.bridges[a], step)]))
  {
    K.StepKeepsInv(w.bridges[a], step);
    K.StepKeepsSourced(w.bridges[a], step);
    BridgeKeepsProvenance(w, a, step);
    BridgeKeepsCouriers(w, a, step);
    BridgeKeepsAgreed(w, a, step);
  }

  // ---------------------------------------------------------------- every step keeps the invariant

  lemma CommittedOutbox(w: World, after: World, step: O.Step)
    requires Inv(w) && !step.SentStep?
    requires after.outbox == O.Apply(w.outbox, step) && after.bridges == w.bridges
    requires forall c :: c in after.couriers && after.couriers[c].Waiting? ==>
               c in w.couriers && after.couriers[c] == w.couriers[c]
    ensures BridgeInv(after)
  {
    OutboxKeepsOrigins(w.outbox, w.bridges, w.couriers, step);
    OutboxKeepsAgreed(w.outbox, w.bridges, step);
  }

  /** The bridge's answer, if it is still remembered, is what the bridge remembers for the row's key. */
  lemma AnswerIsRemembered(w: World, c: WorkerId)
    requires Inv(w) && CourierAt(w, c).Waiting? && Answer(w, c).Some?
    ensures CourierOk(w.outbox.rows, w.bridges, CourierAt(w, c))
    ensures var row := w.outbox.rows[CourierAt(w, c).row];
            row.key !in w.bridges[row.account].forgotten ==>
              R.Lookup(w.bridges[row.account].store.entries, row.key) == Answer(w, c)
  {
  }

  lemma ReceiveCommits(w: World, c: WorkerId, now: Time)
    requires CourierAt(w, c).Waiting? && Answer(w, c).Some?
    ensures Apply(w, Receive(c, now))
         == w.(outbox := O.Apply(w.outbox, O.SentStep(CourierAt(w, c).row, c, Answer(w, c).value, now)),
               couriers := w.couriers[c := Free])
  {
  }

  lemma ReceiveKeepsBridgeInv(w: World, c: WorkerId, now: Time)
    requires Inv(w) && CourierAt(w, c).Waiting? && Answer(w, c).Some?
    ensures BridgeInv(Apply(w, Receive(c, now)))
  {
    var step := O.SentStep(CourierAt(w, c).row, c, Answer(w, c).value, now);
    AnswerIsRemembered(w, c);
    OutboxKeepsOrigins(w.outbox, w.bridges, w.couriers, step);
    SentKeepsAgreed(w.outbox, w.bridges, step);
    ReceiveCommits(w, c, now);
  }

  lemma LoseKeepsBridgeInv(w: World, step: Step)
    requires Inv(w) && step.Lose?
    ensures BridgeInv(Apply(w, step))
  {
    var s := CourierAt(w, step.courier);
    if s.Waiting? {
      CommittedOutbox(w, Apply(w, step),
        O.FailureStep(s.row, step.courier, step.code, step.retryable, step.maxAttempts, step.now));
    }
  }

  lemma ReplyKeepsBridgeInv(w: World, step: Step)
    requires Inv(w) && step.Reply?
    ensures BridgeInv(Apply(w, step))
  {
    var s := WorkerAt(w, step.worker);
    if s.Answered? && ReplyPossible(w, s.lease, step.newMessage, step.newRow)
       && ReplyTx(w, s.lease, s.version, s.hash, s.text, step.now, step.newMessage, step.newRow).Some? {
      ReplyAddsOne(w, s.lease, s.version, s.hash, s.text, step.now, step.newMessage, step.newRow);
      CommittedOutbox(w, Apply(w, step), O.EnqueueStep(s.lease.conversation.value, s.text, step.now,
                                                       O.ReplyTo(s.lease.token.id), step.newMessage, step.newRow));
    }
  }

  ghost predicate Deliverable(w: World, step: Step) {
    && step.Deliver? && O.Prepare(w.outbox, step.row, step.courier).Send? && CourierAt(w, step.courier).Free?
    && var send := O.Prepare(w.outbox, step.row, step.courier);
       send.account in w.bridges && step.call !in w.bridges[send.account].calls && step.op !in w.bridges[send.account].ops
  }

  lemma DeliverSends(w: World, step: Step)
    requires Deliverable(w, step)
    ensures var send := O.Prepare(w.outbox, step.row, step.courier);
            Apply(w, step) == w.(bridges := w.bridges[send.account :=
                                   K.Apply(w.bridges[send.account], K.SendStep(step.call, step.op, Some(send.key)))],
                                 couriers := w.couriers[step.courier := Waiting(step.row, send.account, step.call)])
  {
  }

  lemma DeliverKeepsBridgeInv(w: World, step: Step)
    requires Inv(w) && Deliverable(w, step)
    ensures BridgeInv(Apply(w, step))
  {
    var send := O.Prepare(w.outbox, step.row, step.courier);
    assert OP.Coupled(w.outbox, step.row);
    var sending := K.SendStep(step.call, step.op, Some(send.key));
    if send.key.ReplyTo? { assert IsReply(w.outbox.rows, send.key.job, step.row); }
    BridgeKeepsInv(w, send.account, sending);
    DeliverSends(w, step);
    NewCourierIsOk(w, step);
  }

  lemma CallIsRegistered(b: K.Bridge, call: K.CallId, op: K.OpId, key: Option<R.Key>)
    requires call !in b.calls && op !in b.ops
    ensures var after := K.Apply(b, K.SendStep(call, op, key));
            call in after.calls && after.calls[call].key == key
  {
  }

  lemma OwnCourierIsOk(w: World, step: Step)
    requires Inv(w) && Deliverable(w, step)
    ensures CourierOk(w.outbox.rows, Apply(w, step).bridges, Apply(w, step).couriers[step.courier])
  {
    var send := O.Prepare(w.outbox, step.row, step.courier);
    assert OP.Coupled(w.outbox, step.row);
    DeliverSends(w, step);
    CallIsRegistered(w.bridges[send.account], step.call, step.op, Some(send.key));
  }

  /** The call just made is registered at the bridge under the row's key. */
  lemma NewCourierIsOk(w: World, step: Step)
    requires Inv(w) && Deliverable(w, step)
    ensures CouriersOk(w.outbox.rows, Apply(w, step).bridges, Apply(w, step).couriers)
  {
    var send := O.Prepare(w.outbox, step.row, step.courier);
    DeliverSends(w, step);
    OwnCourierIsOk(w, step);
    BridgeKeepsCouriers(w, send.account, K.SendStep(step.call, step.op, Some(send.key)));
  }

  predicate JobSide(step: Step) {
    step.OtherJobStep? || step.ClaimJob? || step.StartJob? || step.DeclineJob? || step.Think? || step.FailJob?
    || step.CrashWorker?
  }

  lemma JobSideLeavesMessaging(w: World, step: Step)
    requires JobSide(step)
    ensures Apply(w, step).outbox == w.outbox && Apply(w, step).bridges == w.bridges
            && Apply(w, step).couriers == w.couriers
  {
  }

  lemma JobSideKeepsBridgeInv(w: World, after: World)
    requires BridgeInv(w) && after.outbox == w.outbox && after.bridges == w.bridges && after.couriers == w.couriers
    ensures BridgeInv(after)
  {
  }

  lemma StepKeepsBridgeInv(w: World, step: Step)
    requires Inv(w)
    ensures BridgeInv(Apply(w, step))
  {
    if JobSide(step) {
      JobSideLeavesMessaging(w, step);
      JobSideKeepsBridgeInv(w, Apply(w, step));
    } else if Apply(w, step) != w {
      match step
      case OtherOutboxStep(s) => CommittedOutbox(w, Apply(w, step), s);
      case OtherBridgeStep(a, s) => BridgeKeepsInv(w, a, s);
      case Reply(_, _, _, _) => ReplyKeepsBridgeInv(w, step);
      case Deliver(_, _, _, _) => DeliverKeepsBridgeInv(w, step);
      case Receive(c, now) => ReceiveKeepsBridgeInv(w, c, now);
      case Lose(_, _, _, _, _) => LoseKeepsBridgeInv(w, step);
      case CrashCourier(_) =>
    }
  }

  lemma StepKeepsInv(w: World, step: Step)
    requires Inv(w)
    ensures Inv(Apply(w, step))
  {
    StepKeepsDbInv(w, step);
    StepKeepsBridgeInv(w, step);
  }

  lemma {:induction false} RunKeepsInv(w: World, steps: seq<Step>)
    requires Inv(w)
    ensures Inv(Run(w, steps))
    decreases |steps|
  {
    if steps != [] {
      StepKeepsInv(w, steps[0]);
      RunKeepsInv(Apply(w, steps[0]), steps[1..]);
    }
  }

  lemma StartIsOk(conversations: map<ConversationId, O.Conversation>, accounts: set<AccountId>, limit: nat)
    requires 1 <= limit
    ensures Inv(Start(conversations, accounts, limit))
  {
  }

  // ---------------------------------------------------------------- the theorem

  /** A completed row's message carries the one id the platform gave for the row's key, while the bridge knows the key. */
  ghost predicate CarriesYieldedId(w: World, row: OutboxId)
    requires row in w.outbox.rows
  {
    var r := w.outbox.rows[row];
    && r.account in w.bridges && r.message in w.outbox.messages && w.outbox.messages[r.message].waId.Some?
    && (r.key !in w.bridges[r.account].forgotten ==>
          K.ObtainedFor(w.bridges[r.account].obtained, r.key) == [w.outbox.messages[r.message].waId.value])
  }

  lemma CompletedMeansSent(w: World, row: OutboxId)
    requires Inv(w) && row in w.outbox.rows && w.outbox.rows[row].status == O.Completed
    ensures CarriesYieldedId(w, row)
  {
    var r := w.outbox.rows[row];
    assert RowAgrees(w.outbox, w.bridges, row) && OP.Coupled(w.outbox, row);
    if r.key !in w.bridges[r.account].forgotten { assert K.SourcedKey(w.bridges[r.account], r.key); }
  }

  lemma RepliesAreUnique(w: World, job: JobId, r: OutboxId, q: OutboxId)
    requires OP.Inv(w.outbox) && IsReply(w.outbox.rows, job, r) && IsReply(w.outbox.rows, job, q)
    ensures r == q
  {
    assert OP.Clash(w.outbox.rows[r], w.outbox.rows[q]);
  }

  /** The platform gave an id for a reply key only to the bridge of the account that owns the reply row. */
  lemma YieldedForTheRow(w: World, job: JobId, a: AccountId)
    requires Inv(w) && a in w.bridges && K.ObtainedFor(w.bridges[a].obtained, O.ReplyTo(job)) != []
    ensures IsCompleted(w.jobs, job) && ReplyAt(w.outbox.rows, job, a)
  {
    assert KeyUsed(w.bridges[a], O.ReplyTo(job));
    assert ReplyAt(w.outbox.rows, job, a);
    assert HasReply(w.outbox.rows, job);
  }

  /**
   Over every interleaving of workers, dispatchers, bridges and everybody else, with any number of crashes,
   bridge restarts, lease expiries and lost replies, for every job:
   a reply row exists if and only if the job is completed, and there is at most one such row, hence one message;
   the platform yields at most one id for it, only through the account the row belongs to;
   and when the row is completed the platform has yielded exactly the id its message carries.
   The counts of ids hold while the bridge has not forgotten the key: trimmed it, or died before it could save the id.
   */
  lemma ExactlyOneReply(conversations: map<ConversationId, O.Conversation>, accounts: set<AccountId>, limit: nat,
                        steps: seq<Step>, job: JobId)
    requires 1 <= limit
    ensures var w := Run(Start(conversations, accounts, limit), steps); var key := O.ReplyTo(job);
            && (HasReply(w.outbox.rows, job) <==> IsCompleted(w.jobs, job))
            && (forall r, q :: IsReply(w.outbox.rows, job, r) && IsReply(w.outbox.rows, job, q) ==> r == q)
            && (forall a :: a in w.bridges && K.ObtainedFor(w.bridges[a].obtained, key) != [] ==>
                  IsCompleted(w.jobs, job) && ReplyAt(w.outbox.rows, job, a))
            && (forall a :: a in w.bridges && key !in w.bridges[a].forgotten ==>
                  |K.ObtainedFor(w.bridges[a].obtained, key)| <= 1)
            && (forall r :: IsReply(w.outbox.rows, job, r) && w.outbox.rows[r].status == O.Completed ==>
                  CarriesYieldedId(w, r))
  {
    StartIsOk(conversations, accounts, limit);
    RunKeepsInv(Start(conversations, accounts, limit), steps);
    var w, key := Run(Start(conversations, accounts, limit), steps), O.ReplyTo(job);
    forall r, q | IsReply(w.outbox.rows, job, r) && IsReply(w.outbox.rows, job, q) ensures r == q
    {
      RepliesAreUnique(w, job, r, q);
    }
    forall a | a in w.bridges && K.ObtainedFor(w.bridges[a].obtained, key) != []
      ensures IsCompleted(w.jobs, job) && ReplyAt(w.outbox.rows, job, a)
    {
      YieldedForTheRow(w, job, a);
    }
    forall a | a in w.bridges && key !in w.bridges[a].forgotten ensures K.KeyOk(w.bridges[a], key) {}
    forall r | IsReply(w.outbox.rows, job, r) && w.outbox.rows[r].status == O.Completed ensures CarriesYieldedId(w, r)
    {
      CompletedMeansSent(w, r);
    }
  }

  /** Both jobs answer the same inbound message of the same account in the same mode. */
  predicate AnswersSame(x: Q.Job, y: Q.Job) {
    x.key.AutoReply? && Q.HasKey(x, y.account, y.key)
  }

  /** The ids the bridge of this account was given for the reply of a job, as long as it has not forgotten the key. */
  function KnownIds(w: World, a: AccountId, job: JobId): seq<WaId>
    requires a in w.bridges
  {
    if O.ReplyTo(job) in w.bridges[a].forgotten then [] else K.ObtainedFor(w.bridges[a].obtained, O.ReplyTo(job))
  }

  /**
   Over every such run an inbound message is answered at most once per mode: whichever jobs carry its account and
   key, their reply rows are one row, and the ids known for them to any bridges are one id of one bridge.
   */
  lemma OneReplyPerInbound(conversations: map<ConversationId, O.Conversation>, accounts: set<AccountId>, limit: nat,
                           steps: seq<Step>, i: JobId, j: JobId)
    requires 1 <= limit
    requires var jobs := Run(Start(conversations, accounts, limit), steps).jobs;
             i in jobs && j in jobs && AnswersSame(jobs[i], jobs[j])
    ensures var w := Run(Start(conversations, accounts, limit), steps);
            && (forall r, q :: IsReply(w.outbox.rows, i, r) && IsReply(w.outbox.rows, j, q) ==> r == q)
            && (forall a :: a in w.bridges ==> |KnownIds(w, a, i)| <= 1)
            && (forall a, b :: a in w.bridges && b in w.bridges && KnownIds(w, a, i) != [] && KnownIds(w, b, j) != [] ==>
                  a == b && KnownIds(w, a, i) == KnownIds(w, b, j))
  {
    var w := Run(Start(conversations, accounts, limit), steps);
    StartIsOk(conversations, accounts, limit);
    RunKeepsInv(Start(conversations, accounts, limit), steps);
    assert i == j;
    ExactlyOneReply(conversations, accounts, limit, steps, i);
    forall a, b | a in w.bridges && b in w.bridges && KnownIds(w, a, i) != [] && KnownIds(w, b, i) != [] ensures a == b
    {
      OneBridge(w, i, a, b);
    }
  }

  /** Two bridges that were given ids for one reply are the bridge of the account of its row. */
  lemma OneBridge(w: World, job: JobId, a: AccountId, b: AccountId)
    requires Inv(w) && a in w.bridges && b in w.bridges
    requires K.ObtainedFor(w.bridges[a].obtained, O.ReplyTo(job)) != []
    requires K.ObtainedFor(w.bridges[b].obtained, O.ReplyTo(job)) != []
    ensures a == b
  {
    YieldedForTheRow(w, job, a);
    YieldedForTheRow(w, job, b);
    var r :| IsReply(w.outbox.rows, job, r) && w.outbox.rows[r].account == a;
    var q :| IsReply(w.outbox.rows, job, q) && w.outbox.rows[q].account == b;
    RepliesAreUnique(w, job, r, q);
  }

  // ---------------------------------------------------------------- a retry after a lost reply

  /** The outbox transaction a step commits, if any. */
  function OutboxTransaction(w: World, step: Step): Option<O.Step> {
    match step
    case OtherOutboxStep(s) => if s.SentStep? || (s.EnqueueStep? && s.key.ReplyTo?) then None else Some(s)
    case Reply(p, now, newMessage, newRow) =>
      var s := WorkerAt(w, p);
      if s.Answered? && s.lease.conversation.Some?
      then Some(O.EnqueueStep(s.lease.conversation.value, s.text, now, O.ReplyTo(s.lease.token.id), newMessage, newRow))
      else None
    case Receive(c, now) =>
      if CourierAt(w, c).Waiting? && Answer(w, c).Some?
      then Some(O.SentStep(CourierAt(w, c).row, c, Answer(w, c).value, now)) else None
    case Lose(c, code, retryable, maxAttempts, now) =>
      if CourierAt(w, c).Waiting? then Some(O.FailureStep(CourierAt(w, c).row, c, code, retryable, maxAttempts, now))
      else None
    case _ => None
  }

  /** The segment of a bridge a step runs, if any. */
  function BridgeSegment(w: World, step: Step): Option<(AccountId, K.Step)> {
    match step
    case OtherBridgeStep(a, s) => Some((a, s))
    case Deliver(c, row, call, op) =>
      var send := O.Prepare(w.outbox, row, c);
      if send.Send? then Some((send.account, K.SendStep(call, op, Some(send.key)))) else None
    case _ => None
  }

  lemma ReplyByTransaction(w: World, step: Step)
    requires DbInv(w.jobs, w.outbox) && step.Reply?
    ensures var after := Apply(w, step).outbox; var s := OutboxTransaction(w, step);
            after == w.outbox || (s.Some? && after == O.Apply(w.outbox, s.value))
  {
    var s := WorkerAt(w, step.worker);
    if && s.Answered? && ReplyPossible(w, s.lease, step.newMessage, step.newRow)
       && ReplyTx(w, s.lease, s.version, s.hash, s.text, step.now, step.newMessage, step.newRow).Some? {
      ReplyAddsOne(w, s.lease, s.version, s.hash, s.text, step.now, step.newMessage, step.newRow);
    }
  }

  lemma OutboxByTransaction(w: World, step: Step)
    requires DbInv(w.jobs, w.outbox)
    ensures var after := Apply(w, step).outbox; var s := OutboxTransaction(w, step);
            after == w.outbox || (s.Some? && after == O.Apply(w.outbox, s.value))
  {
    if JobSide(step) { JobSideLeavesMessaging(w, step); }
    else if step.Reply? { ReplyByTransaction(w, step); }
    else if step.Receive? && CourierAt(w, step.courier).Waiting? && Answer(w, step.courier).Some? {
      ReceiveCommits(w, step.courier, step.now);
    }
  }

  lemma BridgesBySegment(w: World, step: Step)
    ensures var after := Apply(w, step).bridges; var s := BridgeSegment(w, step);
            after == w.bridges
            || (s.Some? && s.value.0 in w.bridges && after == w.bridges[s.value.0 := K.Apply(w.bridges[s.value.0], s.value.1)])
  {
  }

  /**
   What every step leaves standing: rows keep their identity, messages their platform id, bridges what they
   obtained and answered.
   */
  ghost predicate Carried(w: World, after: World) {
    && (forall r :: r in w.outbox.rows ==> r in after.outbox.rows && OP.SameIdentity(w.outbox.rows[r], after.outbox.rows[r]))
    && (forall m :: m in w.outbox.messages && w.outbox.messages[m].waId.Some? ==>
          m in after.outbox.messages && SameWaId(w.outbox.messages[m], after.outbox.messages[m]))
    && (forall a :: a in w.bridges ==> a in after.bridges && KeptBy(w.bridges[a], after.bridges[a]))
  }

  ghost predicate KeptBy(b: K.Bridge, after: K.Bridge) {
    && (forall k: R.Key :: K.ObtainedFor(b.obtained, k) <= K.ObtainedFor(after.obtained, k))
    && (forall c :: c in b.calls ==> c in after.calls && after.calls[c] == b.calls[c])
  }

  lemma OutboxCarries(db: O.OutboxDb, step: O.Step)
    requires OP.Inv(db)
    ensures var after := O.Apply(db, step);
            && (forall r :: r in db.rows ==> r in after.rows && OP.SameIdentity(db.rows[r], after.rows[r]))
            && (forall m :: m in db.messages && db.messages[m].waId.Some? ==>
                  m in after.messages && SameWaId(db.messages[m], after.messages[m]))
  {
    forall r | r in db.rows ensures r in O.Apply(db, step).rows && OP.SameIdentity(db.rows[r], O.Apply(db, step).rows[r])
    {
      OP.RowMoves(db, step, r);
    }
    forall m | m in db.messages && db.messages[m].waId.Some?
      ensures m in O.Apply(db, step).messages && SameWaId(db.messages[m], O.Apply(db, step).messages[m])
    {
      WaIdStays(db, step, m);
    }
  }

  lemma StepCarries(w: World, step: Step)
    requires Inv(w)
    ensures Carried(w, Apply(w, step))
  {
    var (s, t) := (OutboxTransaction(w, step), BridgeSegment(w, step));
    OutboxByTransaction(w, step);
    BridgesBySegment(w, step);
    if s.Some? { OutboxCarries(w.outbox, s.value); }
    forall a | a in w.bridges ensures a in Apply(w, step).bridges && KeptBy(w.bridges[a], Apply(w, step).bridges[a])
    {
      if t.Some? && t.value.0 == a {
        forall k: R.Key { K.ObtainedGrow(w.bridges[a], t.value.1, k); }
        forall c | c in w.bridges[a].calls
          ensures c in Apply(w, step).bridges[a].calls && Apply(w, step).bridges[a].calls[c] == w.bridges[a].calls[c]
        {
          CallsStay(w.bridges[a], t.value.1, c);
        }
      }
    }
  }

  lemma CarriedOn(w: World, mid: World, after: World)
    requires Carried(w, mid) && Carried(mid, after)
    ensures Carried(w, after)
  {
    forall a | a in w.bridges ensures KeptBy(w.bridges[a], after.bridges[a])
    {
      assert KeptBy(w.bridges[a], mid.bridges[a]) && KeptBy(mid.bridges[a], after.bridges[a]);
    }
  }

  lemma {:induction false} RunCarries(w: World, steps: seq<Step>)
    requires Inv(w)
    ensures Carried(w, Run(w, steps))
    decreases |steps|
  {
    if steps != [] {
      StepCarries(w, steps[0]);
      StepKeepsInv(w, steps[0]);
      RunCarries(Apply(w, steps[0]), steps[1..]);
      CarriedOn(w, Apply(w, steps[0]), Run(w, steps));
    }
  }

  /** Delivered again after a lost reply, a row gets the id of the first send at once, and nothing is sent. */
  lemma RedeliveryAnswersAtOnce(w: World, step: Step)
    requires Inv(w) && Deliverable(w, step)
    requires var send := O.Prepare(w.outbox, step.row, step.courier); var b := w.bridges[send.account];
             send.key !in b.forgotten && K.ObtainedFor(b.obtained, send.key) != []
    ensures var send := O.Prepare(w.outbox, step.row, step.courier); var after := Apply(w, step);
            && Answer(after, step.courier) == Some(K.ObtainedFor(w.bridges[send.account].obtained, send.key)[0])
            && after.bridges[send.account].obtained == w.bridges[send.account].obtained
            && after.bridges[send.account].ops == w.bridges[send.account].ops
  {
    var send := O.Prepare(w.outbox, step.row, step.courier);
    DeliverSends(w, step);
    assert K.KeyOk(w.bridges[send.account], send.key);
  }

  /** Receiving the id completes an unfinished row with it exactly when the row is still owned and the id still free. */
  lemma ReceiveCompletesIff(w: World, c: WorkerId, now: Time)
    requires Inv(w) && CourierAt(w, c).Waiting? && Answer(w, c).Some?
    requires CourierAt(w, c).row in w.outbox.rows && w.outbox.rows[CourierAt(w, c).row].status != O.Completed
    ensures var (row, id) := (CourierAt(w, c).row, Answer(w, c).value);
            var r := w.outbox.rows[row]; var after := Apply(w, Receive(c, now)).outbox;
            && row in after.rows && after.rows[row].message == r.message && r.message in after.messages
            && ((after.rows[row].status == O.Completed && after.messages[r.message].waId == Some(id))
                <==> (O.Owns(w.outbox.rows, row, c) && !O.WaIdTaken(w.outbox.messages, r.account, id, r.message)))
            && (after.rows[row].status == O.Completed ==> after.messages[r.message].waId == Some(id))
  {
    var row := CourierAt(w, c).row;
    assert OP.Coupled(w.outbox, row);
    ReceiveCommits(w, c, now);
  }

  /** The id the platform first gave for the row a delivery step is about. */
  function FirstId(w: World, step: Step): WaId
    requires step.Deliver? && O.Prepare(w.outbox, step.row, step.courier).Send?
    requires var send := O.Prepare(w.outbox, step.row, step.courier);
             send.account in w.bridges && K.ObtainedFor(w.bridges[send.account].obtained, send.key) != []
  {
    var send := O.Prepare(w.outbox, step.row, step.courier);
    K.ObtainedFor(w.bridges[send.account].obtained, send.key)[0]
  }

  /**
   The whole retry: whatever happens between delivery and reply, a courier that is still waiting completes the
   row with the id of the first send exactly when it still owns the row and no other message has taken the id.
   */
  lemma RetryCompletesIff(w: World, step: Step, between: seq<Step>, now: Time)
    requires Inv(w) && Deliverable(w, step)
    requires var send := O.Prepare(w.outbox, step.row, step.courier); var b := w.bridges[send.account];
             send.key !in b.forgotten && K.ObtainedFor(b.obtained, send.key) != []
    requires var later := Run(Apply(w, step), between);
             && CourierAt(later, step.courier) == CourierAt(Apply(w, step), step.courier)
             && (step.row in later.outbox.rows ==> later.outbox.rows[step.row].status != O.Completed)
    ensures var later := Run(Apply(w, step), between); var id := FirstId(w, step);
            && step.row in later.outbox.rows
            && var r := later.outbox.rows[step.row]; var after := Apply(later, Receive(step.courier, now)).outbox;
            && step.row in after.rows && r.message in after.messages
            && ((after.rows[step.row].status == O.Completed && after.messages[r.message].waId == Some(id))
                <==> (O.Owns(later.outbox.rows, step.row, step.courier)
                      && !O.WaIdTaken(later.outbox.messages, r.account, id, r.message)))
  {
    var (mid, later) := (Apply(w, step), Run(Apply(w, step), between));
    RedeliveryAnswersAtOnce(w, step);
    StepKeepsInv(w, step);
    RunKeepsInv(mid, between);
    RunCarries(mid, between);
    StepCarries(w, step);
    DeliverSends(w, step);
    AnswerStands(w, step, later);
    ReceiveCompletesIff(later, step.courier, now);
  }

  lemma AnswerStands(w: World, step: Step, later: World)
    requires Inv(w) && Deliverable(w, step) && Carried(Apply(w, step), later)
    requires var send := O.Prepare(w.outbox, step.row, step.courier); var b := w.bridges[send.account];
             send.key !in b.forgotten && K.ObtainedFor(b.obtained, send.key) != []
    requires CourierAt(later, step.courier) == CourierAt(Apply(w, step), step.courier)
    ensures Answer(later, step.courier) == Some(FirstId(w, step))
    ensures CourierAt(later, step.courier).Waiting? && CourierAt(later, step.courier).row == step.row
  {
    var send := O.Prepare(w.outbox, step.row, step.courier);
    DeliverSends(w, step);
    RedeliveryAnswersAtOnce(w, step);
    assert K.KeyOk(w.bridges[send.account], send.key);
    assert Apply(w, step).bridges[send.account].calls[step.call].answer == K.Known(FirstId(w, step));
    assert KeptBy(Apply(w, step).bridges[send.account], later.bridges[send.account]);
  }

  lemma TakenStays(w: World, later: World, account: AccountId, id: WaId, m: MessageId)
    requires Carried(w, later) && O.WaIdTaken(w.outbox.messages, account, id, m)
    ensures O.WaIdTaken(later.outbox.messages, account, id, m)
  {
    var other :| other in w.outbox.messages && other != m && Named(w.outbox.messages[other], account, id);
    assert SameWaId(w.outbox.messages[other], later.outbox.messages[other]);
  }

  lemma TakenExcludes(messages: MessageDb, account: AccountId, id: WaId, m: MessageId)
    requires UniqueWaIds(messages) && O.WaIdTaken(messages, account, id, m)
    ensures m in messages ==> !Named(messages[m], account, id)
  {
    var other :| other in messages && other != m && Named(messages[other], account, id);
    assert m in messages && Named(messages[m], account, id) ==> SameWaId(messages[other], messages[m]);
  }

  /**
   If another message of the account has taken the id, as a message.upsert that arrives before the retry does,
   the row is never completed, by anybody, in any run on which the bridge has not forgotten the key.
   */
  lemma TakenNeverCompletes(w: World, steps: seq<Step>, row: OutboxId)
    requires Inv(w) && row in w.outbox.rows && w.outbox.rows[row].account in w.bridges
    requires var r := w.outbox.rows[row]; var b := w.bridges[r.account];
             && K.ObtainedFor(b.obtained, r.key) != []
             && O.WaIdTaken(w.outbox.messages, r.account, K.ObtainedFor(b.obtained, r.key)[0], r.message)
    requires var r := w.outbox.rows[row]; var later := Run(w, steps);
             r.account in later.bridges ==> r.key !in later.bridges[r.account].forgotten
    ensures row in Run(w, steps).outbox.rows && Run(w, steps).outbox.rows[row].status != O.Completed
  {
    var (r, later) := (w.outbox.rows[row], Run(w, steps));
    var id := K.ObtainedFor(w.bridges[r.account].obtained, r.key)[0];
    RunKeepsInv(w, steps);
    RunCarries(w, steps);
    assert KeptBy(w.bridges[r.account], later.bridges[r.account]);
    TakenStays(w, later, r.account, id, r.message);
    assert OP.Coupled(later.outbox, row);
    TakenExcludes(later.outbox.messages, r.account, id, r.message);
    if later.outbox.rows[row].status == O.Completed { CompletedMeansSent(later, row); }
  }

  // ---------------------------------------------------------------- failures after start are lost

  /**
   Once start has committed, the failure a worker reports with the version from its claim is refused for
   ever, so the job leaves running only by other hands: completion, cancellation or lease recovery.
   */
  lemma FailureAfterStartIsLost(jobs: Q.JobDb, t: Q.Token, started: Time, later: seq<Q.Step>, now: Time, delay: nat)
    requires QP.Inv(jobs) && Q.LeaseCas(jobs, t, started, Q.Start, None).Ok?
    ensures var after := Q.Run(Q.Apply(jobs, Q.StartStep(t, started)), later);
            Q.Committed(after, Q.FailLease(after, t, now, delay)) == after
  {
    QP.TouchedMeansFenced(jobs, Q.StartStep(t, started), later, t, Q.FailStep(t, now, delay));
  }
}
