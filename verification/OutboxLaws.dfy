/** What an outbox row sends and when: the text it was queued with, to its conversation, behind its waits. */
module OutboxLaws {
  import opened Base
  import opened Messages
  import opened Outbox
  import opened OutboxProperties

  // ---------------------------------------------------------------- what is sent

  /** The row's message still says what it said, in the same conversation. */
  predicate SaysTheSame(db: OutboxDb, after: OutboxDb, row: OutboxId) {
    && row in db.rows && row in after.rows && after.rows[row].message == db.rows[row].message
    && db.rows[row].message in db.messages && db.rows[row].message in after.messages
    && var x, y := db.messages[db.rows[row].message], after.messages[db.rows[row].message];
       x.content == y.content && x.conversation == y.conversation && x.account == y.account && x.outbound == y.outbound
  }

  lemma SettlingKeepsText(db: OutboxDb, step: Step, row: OutboxId)
    requires Inv(db) && row in db.rows && (step.SentStep? || step.FailureStep? || step.CancelStep?)
    ensures SaysTheSame(db, Apply(db, step), row)
  {
    assert Coupled(db, row);
    if step.id in db.rows { assert Coupled(db, step.id) && (Clash(db.rows[row], db.rows[step.id]) ==> row == step.id); }
  }

  /** Until its row is completed nothing rewrites a queued message. */
  lemma StepKeepsText(db: OutboxDb, step: Step, row: OutboxId)
    requires Inv(db) && row in db.rows && db.rows[row].status != Completed
    ensures SaysTheSame(db, Apply(db, step), row)
  {
    assert Coupled(db, row);
    RowMoves(db, step, row);
    if step.SentStep? || step.FailureStep? || step.CancelStep? { SettlingKeepsText(db, step, row); }
  }

  lemma {:induction false} RunKeepsText(db: OutboxDb, steps: seq<Step>, row: OutboxId)
    requires Inv(db) && row in db.rows
    requires row in Run(db, steps).rows && Run(db, steps).rows[row].status != Completed
    ensures SaysTheSame(db, Run(db, steps), row)
    decreases |steps|
  {
    assert Coupled(db, row);
    if steps != [] {
      TerminalRowsStay(db, steps, row);
      StepKeepsText(db, steps[0], row);
      StepKeepsInv(db, steps[0]);
      RunKeepsText(Apply(db, steps[0]), steps[1..], row);
    }
  }

  /** The enqueue inserts its row, which carries the text to the conversation's account and chat. */
  lemma NewRowSays(db: OutboxDb, step: Step)
    requires Inv(db) && step.EnqueueStep? && step.newRow !in db.rows && step.newRow in Apply(db, step).rows
    ensures step.conversation in db.conversations && Apply(db, step).conversations == db.conversations
    ensures step.newMessage !in db.messages && step.newMessage in Apply(db, step).messages
    ensures var (after, c) := (Apply(db, step), db.conversations[step.conversation]);
            var (row, m) := (after.rows[step.newRow], after.messages[step.newMessage]);
            && row.key == step.key && row.account == c.account && row.attempts == 0 && row.message == step.newMessage
            && m.content == step.text && m.conversation == step.conversation && m.account == c.account
            && m.contact == c.contact && m.outbound && m.kind == Text && m.waId == None
            && (forall t :: DueAt(after.rows, t, step.newRow) <==> step.availableAt <= t)
  {
  }

  /** A key that is known names its first message for ever: it is queued again only for the same conversation, and not twice. */
  lemma KnownKeyIsReused(db: OutboxDb, conversation: ConversationId, text: string, availableAt: Time, row: OutboxId,
                         newMessage: MessageId, newRow: OutboxId)
    requires Inv(db) && conversation in db.conversations && row in db.rows
    ensures var r := Enqueue(db, conversation, text, availableAt, db.rows[row].key, newMessage, newRow);
            && (r.Ok? <==> text != "" && db.rows[row].message in db.messages
                           && db.messages[db.rows[row].message].conversation == conversation)
            && (r.Ok? ==> r.value == Enqueued(db, db.rows[row].message, row, false))
  {
    var found := FindRow(db.rows, db.rows[row].key);
    assert Coupled(db, row) && Clash(db.rows[row], db.rows[found.value]);
  }

  /** A new key is taken with any text that is not empty. */
  lemma NewKeyIsTaken(db: OutboxDb, step: Step)
    requires step.EnqueueStep? && step.conversation in db.conversations
    requires step.newMessage !in db.messages && step.newRow !in db.rows
    requires forall row :: row in db.rows ==> db.rows[row].key != step.key
    ensures step.newRow in Apply(db, step).rows <==> step.text != ""
  {
  }

  /** A row is sent exactly by its owner, while its conversation has not been deleted. */
  lemma SendsIff(db: OutboxDb, row: OutboxId, worker: WorkerId)
    requires Inv(db)
    ensures Prepare(db, row, worker).Send? <==>
              && row in db.rows && db.rows[row].status == Leased && db.rows[row].owner == Some(worker)
              && db.rows[row].message in db.messages
              && var c := db.messages[db.rows[row].message].conversation;
                 c in db.conversations && !db.conversations[c].deleted
  {
  }

  /**
   Over every run after a message was queued, whatever a dispatcher sends for its row is that text, under that
   key, to the chat of that conversation, through that conversation's account.
   */
  lemma SendsWhatWasQueued(db: OutboxDb, step: Step, steps: seq<Step>, worker: WorkerId)
    requires Inv(db) && step.EnqueueStep? && step.newRow !in db.rows && step.newRow in Apply(db, step).rows
    requires Prepare(Run(Apply(db, step), steps), step.newRow, worker).Send?
    ensures var later := Run(Apply(db, step), steps); var send := Prepare(later, step.newRow, worker);
            && step.conversation in db.conversations && step.conversation in later.conversations
            && send.text == step.text && send.key == step.key
            && send.chat == later.conversations[step.conversation].chat
            && send.account == db.conversations[step.conversation].account
  {
    NewRowSays(db, step);
    StepKeepsInv(db, step);
    TerminalRowsStay(Apply(db, step), steps, step.newRow);
    RunKeepsText(Apply(db, step), steps, step.newRow);
  }

  /** A schedule cancelled in time is never sent by anybody afterwards. */
  lemma CancelledIsNeverSent(db: OutboxDb, id: OutboxId, steps: seq<Step>, worker: WorkerId)
    requires Inv(db) && CancelSchedule(db, id).Ok?
    ensures Prepare(Run(CancelSchedule(db, id).value, steps), id, worker) == Skip
    ensures id in db.rows && db.rows[id].key.Schedule? && db.rows[id].status != Completed
  {
    CancelKeepsInv(db, id);
    TerminalRowsStay(CancelSchedule(db, id).value, steps, id);
  }

  // ---------------------------------------------------------------- when it is sent

  /** Waiting, or leased to somebody whose lease has run out, and at its time. */
  predicate DueBy(row: Row, now: Time) {
    && row.availableAt <= now
    && (row.status == Waiting || (row.status == Leased && row.expires.Some? && row.expires.value <= now))
  }

  /** What a pass does to a row: due rows it picks are leased to it, other leases that have run out are dropped. */
  lemma PassWrites(db: OutboxDb, step: Step, id: OutboxId)
    requires Inv(db) && step.ClaimStep? && BatchChoice(db.rows, step.now, step.batch, step.chosen) && id in db.rows
    ensures id in Apply(db, step).rows
    ensures id in step.chosen ==>
              && DueBy(db.rows[id], step.now)
              && Apply(db, step).rows[id] == db.rows[id].(status := Leased, owner := Some(step.worker),
                   expires := Some(step.now + step.lease), attempts := db.rows[id].attempts + 1)
    ensures id !in step.chosen ==>
              Apply(db, step).rows[id]
              == if db.rows[id].expires.Some? && db.rows[id].expires.value <= step.now
                 then db.rows[id].(status := Waiting, owner := None, expires := None) else db.rows[id]
  {
    assert Coupled(db, id);
    assert id in step.chosen ==> DueAt(db.rows, step.now, id);
  }

  /** A row that is due is left out only by a full batch of rows that were due no later. */
  lemma LeftOutOnlyByEarlier(db: OutboxDb, step: Step, id: OutboxId, picked: OutboxId)
    requires Inv(db) && step.ClaimStep? && BatchChoice(db.rows, step.now, step.batch, step.chosen)
    requires id in db.rows && DueBy(db.rows[id], step.now) && id !in step.chosen
    ensures |step.chosen| == step.batch
    ensures picked in step.chosen ==>
              && picked in db.rows && db.rows[picked].availableAt <= db.rows[id].availableAt
              && (db.rows[picked].availableAt == db.rows[id].availableAt ==> picked < id)
  {
    assert Coupled(db, id) && DueAt(db.rows, step.now, id);
  }

  /** The wait starts at two seconds and doubles with every attempt until it is 256. */
  lemma WaitDoubles(attempts: nat)
    ensures RetryDelay(0) == 2 && RetryDelay(1) == 2
    ensures attempts >= 1 ==> RetryDelay(attempts + 1) == if attempts < 8 then 2 * RetryDelay(attempts) else 256
  {
  }

  predicate FailureNoted(m: Message, row: Row, code: string, last: bool) {
    m.status == (if last then NotSent else InQueue) && m.errorCode == Some(code) && m.retries == row.attempts
  }

  /** A failed delivery gives the row back behind its wait, or buries it with its message. */
  lemma FailedRowReturns(db: OutboxDb, id: OutboxId, worker: WorkerId, code: string, retryable: bool, maxAttempts: nat,
                         now: Time)
    requires Inv(db) && Owns(db.rows, id, worker)
    ensures var after := FinalizeFailure(db, id, worker, code, retryable, maxAttempts, now);
            var row, last := after.rows[id], !retryable || maxAttempts <= db.rows[id].attempts;
            && SaysTheSame(db, after, id) && FailureNoted(after.messages[row.message], row, code, last)
            && row.lastError == Some(code) && row.attempts == db.rows[id].attempts
            && (if last then row.status == Dead
                else forall t :: DueAt(after.rows, t, id) <==> now + RetryDelay(row.attempts) <= t)
            && (forall o :: o in db.rows && o != id ==> o in after.rows && after.rows[o] == db.rows[o])
            && after.conversations == db.conversations
  {
    assert Coupled(db, id);
  }

  predicate ShownLast(db: OutboxDb, after: OutboxDb, m: Message, now: Time) {
    m.conversation in db.conversations ==>
      && m.conversation in after.conversations
      && after.conversations[m.conversation]
         == db.conversations[m.conversation].(preview := m.content, lastAt := Some(now))
  }

  /** A recorded send completes the row, names and dates the message, and shows it as the last of its conversation. */
  lemma SentRowIsDone(db: OutboxDb, id: OutboxId, worker: WorkerId, wa: WaId, now: Time)
    requires Inv(db) && Owns(db.rows, id, worker) && FinalizeSent(db, id, worker, wa, now).Ok?
    ensures var after := FinalizeSent(db, id, worker, wa, now).value; var message := db.rows[id].message;
            && SaysTheSame(db, after, id) && after.rows[id].status == Completed && after.rows[id].lastError == None
            && after.messages[message] == db.messages[message].(waId := Some(wa), status := Sent, sentAt := Some(now),
                                                                occurredAt := Some(now), errorCode := None)
            && ShownLast(db, after, db.messages[message], now)
            && (forall o :: o in db.rows && o != id ==> o in after.rows && after.rows[o] == db.rows[o])
  {
    assert Coupled(db, id);
  }
}
