/**
 The transactional outbox: one durable outbound message per idempotency key, claimed in batches under a
 lease, sent through the bridge outside any transaction, and finalised by whoever still owns the row.
 */
module Outbox {
  import opened Base
  import opened Messages

  datatype RowStatus = Waiting | Leased | Completed | Dead

  /** Keys carry their writer: the auto-reply worker, the scheduler, or any other client. */
  datatype OutboxKey = ReplyTo(job: JobId) | Schedule(text: string) | Client(text: string)

  datatype Row = Row(message: MessageId, account: AccountId, key: OutboxKey, status: RowStatus, attempts: nat,
                     availableAt: Time, owner: Option<WorkerId>, expires: Option<Time>, lastError: Option<string>)

  type Rows = map<OutboxId, Row>

  datatype Conversation = Conversation(account: AccountId, contact: Option<ContactId>, chat: string, deleted: bool,
                                       preview: string, lastAt: Option<Time>)

  datatype OutboxDb = OutboxDb(rows: Rows, messages: MessageDb, conversations: map<ConversationId, Conversation>)

  datatype OutboxError = EmptyText | MissingMessage | ForeignKey | DuplicateWaId | NoSuchSchedule | AlreadySent

  // ---------------------------------------------------------------- enqueue

  ghost function FindRow(rows: Rows, key: OutboxKey): (r: Option<OutboxId>)
    ensures r.Some? ==> r.value in rows && rows[r.value].key == key
    ensures r.None? ==> forall id :: id in rows ==> rows[id].key != key
  {
    if exists id :: id in rows && rows[id].key == key
    then var id :| id in rows && rows[id].key == key; Some(id)
    else None
  }

  datatype Enqueued = Enqueued(db: OutboxDb, message: MessageId, row: OutboxId, created: bool)

  function NewMessage(c: Conversation, id: ConversationId, text: string): Message {
    Message(c.account, id, c.contact, true, Text, None, text, InQueue, None, 0, None, None, None, None)
  }

  function NewRow(account: AccountId, message: MessageId, key: OutboxKey, availableAt: Time): Row {
    Row(message, account, key, Waiting, 0, availableAt, None, None, None)
  }

  function Inserted(db: OutboxDb, conversation: ConversationId, text: string, availableAt: Time, key: OutboxKey,
                    newMessage: MessageId, newRow: OutboxId): OutboxDb
    requires conversation in db.conversations
  {
    var c := db.conversations[conversation];
    db.(messages := db.messages[newMessage := NewMessage(c, conversation, text)],
        rows := db.rows[newRow := NewRow(c.account, newMessage, key, availableAt)])
  }

  /** `text` is the stripped text. Reusing a key returns the original pair, never a second message. */
  ghost function Enqueue(db: OutboxDb, conversation: ConversationId, text: string, availableAt: Time, key: OutboxKey,
                         newMessage: MessageId, newRow: OutboxId): Result<Enqueued, OutboxError>
    requires conversation in db.conversations
  {
    if text == "" then Err(EmptyText)
    else
      var existing := FindRow(db.rows, key);
      if existing.Some? then
        var message := db.rows[existing.value].message;
        if message !in db.messages then Err(MissingMessage)
        else if db.messages[message].conversation != conversation then Err(ForeignKey)
        else Ok(Enqueued(db, message, existing.value, false))
      else
        Ok(Enqueued(Inserted(db, conversation, text, availableAt, key, newMessage, newRow), newMessage, newRow, true))
  }

  // ---------------------------------------------------------------- claim

  predicate LeaseOver(row: Row, now: Time) {
    row.status == Leased && row.expires.Some? && row.expires.value <= now
  }

  function ReapRow(row: Row, now: Time): Row {
    if LeaseOver(row, now) then row.(status := Waiting, owner := None, expires := None) else row
  }

  predicate Due(row: Row, now: Time) {
    && row.status == Waiting
    && row.availableAt <= now
    && (row.expires.None? || row.expires.value <= now)
  }

  /** ORDER BY available_at, id */
  predicate Before(rows: Rows, i: OutboxId, j: OutboxId)
    requires i in rows && j in rows
  {
    rows[i].availableAt < rows[j].availableAt || (rows[i].availableAt == rows[j].availableAt && i < j)
  }

  predicate DueAt(rows: Rows, now: Time, i: OutboxId)
    requires i in rows
  {
    Due(ReapRow(rows[i], now), now)
  }

  /** The first `batch` rows that are due once expired leases have been reaped. */
  ghost predicate BatchChoice(rows: Rows, now: Time, batch: nat, chosen: set<OutboxId>) {
    && (forall i :: i in chosen ==> i in rows && DueAt(rows, now, i))
    && |chosen| <= batch
    && (|chosen| < batch ==> forall o :: o in rows && DueAt(rows, now, o) ==> o in chosen)
    && (forall i, o :: i in chosen && o in rows && DueAt(rows, now, o) && o !in chosen ==> Before(rows, i, o))
  }

  function LeaseRow(row: Row, worker: WorkerId, until: Time): Row {
    row.(status := Leased, attempts := row.attempts + 1, owner := Some(worker), expires := Some(until))
  }

  function ClaimedRows(rows: Rows, now: Time, worker: WorkerId, lease: nat, chosen: set<OutboxId>): Rows {
    map i | i in rows ::
      if i in chosen then LeaseRow(ReapRow(rows[i], now), worker, now + lease) else ReapRow(rows[i], now)
  }

  // ---------------------------------------------------------------- deliver

  predicate Owns(rows: Rows, id: OutboxId, worker: WorkerId) {
    id in rows && rows[id].status == Leased && rows[id].owner == Some(worker)
  }

  datatype Delivery = Skip | BadReference | Send(account: AccountId, chat: string, text: string, key: OutboxKey)

  /** What the first session of _deliver finds. */
  function Prepare(db: OutboxDb, id: OutboxId, worker: WorkerId): Delivery {
    if !Owns(db.rows, id, worker) then Skip
    else
      var row := db.rows[id];
      if row.message !in db.messages then BadReference
      else
        var m := db.messages[row.message];
        if m.conversation !in db.conversations || db.conversations[m.conversation].deleted then BadReference
        else Send(m.account, db.conversations[m.conversation].chat, m.content, row.key)
  }

  function Settled(row: Row, status: RowStatus, error: Option<string>): Row {
    row.(status := status, owner := None, expires := None, lastError := error)
  }

  /** Another message of the account already carries the platform id. */
  ghost predicate WaIdTaken(messages: MessageDb, account: AccountId, wa: WaId, except: MessageId) {
    exists i :: i in messages && i != except && Named(messages[i], account, wa)
  }

  function SentMessage(m: Message, wa: WaId, now: Time): Message {
    m.(waId := Some(wa), status := Sent, sentAt := Some(now), occurredAt := Some(now), errorCode := None)
  }

  ghost function FinalizeSent(db: OutboxDb, id: OutboxId, worker: WorkerId, wa: WaId, now: Time)
    : Result<OutboxDb, OutboxError>
  {
    if !Owns(db.rows, id, worker) then Ok(db)
    else
      var row := db.rows[id];
      if row.message !in db.messages then
        Ok(db.(rows := db.rows[id := Settled(row, Dead, Some("message missing after send"))]))
      else
        var m := db.messages[row.message];
        if WaIdTaken(db.messages, m.account, wa, row.message) then Err(DuplicateWaId)
        else
          Ok(db.(messages := db.messages[row.message := SentMessage(m, wa, now)],
                 rows := db.rows[id := Settled(row, Completed, None)],
                 conversations :=
                   if m.conversation in db.conversations
                   then db.conversations[m.conversation :=
                          db.conversations[m.conversation].(preview := m.content, lastAt := Some(now))]
                   else db.conversations))
  }

  function RetryDelay(attempts: nat): nat {
    var exponent := if attempts < 1 then 1 else if attempts > 8 then 8 else attempts;
    [1, 2, 4, 8, 16, 32, 64, 128, 256][exponent]
  }

  function FailureRow(row: Row, code: string, retryable: bool, maxAttempts: nat, now: Time): Row {
    Settled(row, if !retryable || row.attempts >= maxAttempts then Dead else Waiting, Some(code))
      .(availableAt := now + RetryDelay(row.attempts))
  }

  function FailureMessage(m: Message, row: Row, code: string, retryable: bool, maxAttempts: nat): Message {
    m.(retries := row.attempts, errorCode := Some(code),
       status := if !retryable || row.attempts >= maxAttempts then NotSent else InQueue)
  }

  function FinalizeFailure(db: OutboxDb, id: OutboxId, worker: WorkerId, code: string, retryable: bool,
                           maxAttempts: nat, now: Time): OutboxDb
  {
    if !Owns(db.rows, id, worker) then db
    else
      var row := db.rows[id];
      db.(rows := db.rows[id := FailureRow(row, code, retryable, maxAttempts, now)],
          messages := if row.message in db.messages
                      then db.messages[row.message :=
                             FailureMessage(db.messages[row.message], row, code, retryable, maxAttempts)]
                      else db.messages)
  }

  /** The operator's cancel_schedule, the one other writer of outbox rows. */
  function CancelSchedule(db: OutboxDb, id: OutboxId): Result<OutboxDb, OutboxError> {
    if id !in db.rows || !db.rows[id].key.Schedule? then Err(NoSuchSchedule)
    else if db.rows[id].status == Completed then Err(AlreadySent)
    else
      var row := db.rows[id];
      Ok(db.(rows := db.rows[id := Settled(row, Dead, Some("schedule_cancelled"))],
             messages := if row.message in db.messages
                         then db.messages[row.message := db.messages[row.message]
                                .(status := NotSent, errorCode := Some("schedule_cancelled"))]
                         else db.messages))
  }

  // ---------------------------------------------------------------- steps and runs

  /**
   One committed transaction. Besides the dispatcher and the writers of rows there are the writers of
   messages: the event service merges receipts into messages that carry a platform id, rewrites such
   messages on message.upsert, or inserts new ones.
   */
  datatype Step =
    | EnqueueStep(conversation: ConversationId, text: string, availableAt: Time, key: OutboxKey,
                  newMessage: MessageId, newRow: OutboxId)
    | ClaimStep(now: Time, worker: WorkerId, batch: nat, lease: nat, chosen: set<OutboxId>)
    | SentStep(id: OutboxId, worker: WorkerId, wa: WaId, now: Time)
    | FailureStep(id: OutboxId, worker: WorkerId, code: string, retryable: bool, maxAttempts: nat, now: Time)
    | CancelStep(id: OutboxId)
    | ReceiptStep(message: MessageId, receipt: ReceiptType, at: Time, error: Option<string>)
    | UpsertStep(message: MessageId, contents: Message)
    | ConversationStep(conversation: ConversationId, state: Conversation)

  ghost function Apply(db: OutboxDb, step: Step): OutboxDb {
    match step
    case EnqueueStep(conversation, text, availableAt, key, newMessage, newRow) =>
      if conversation !in db.conversations || newMessage in db.messages || newRow in db.rows then db
      else
        var r := Enqueue(db, conversation, text, availableAt, key, newMessage, newRow);
        if r.Ok? then r.value.db else db
    case ClaimStep(now, worker, batch, lease, chosen) =>
      if BatchChoice(db.rows, now, batch, chosen)
      then db.(rows := ClaimedRows(db.rows, now, worker, lease, chosen)) else db
    case SentStep(id, worker, wa, now) =>
      var r := FinalizeSent(db, id, worker, wa, now);
      if r.Ok? then r.value else db
    case FailureStep(id, worker, code, retryable, maxAttempts, now) =>
      FinalizeFailure(db, id, worker, code, retryable, maxAttempts, now)
    case CancelStep(id) =>
      var r := CancelSchedule(db, id);
      if r.Ok? then r.value else db
    case ReceiptStep(message, receipt, at, error) =>
      if message in db.messages && db.messages[message].waId.Some?
      then db.(messages := db.messages[message := MergeReceipt(db.messages[message], receipt, at, error)]) else db
    case UpsertStep(message, contents) =>
      if UpsertAllowed(db.messages, message, contents)
      then db.(messages := db.messages[message := contents]) else db
    case ConversationStep(conversation, state) =>
      if conversation in db.conversations && db.conversations[conversation].account == state.account
      then db.(conversations := db.conversations[conversation := state]) else db
  }

  /** message.upsert finds its row by platform id and keeps account, id and status, or inserts a row with a free id. */
  ghost predicate UpsertAllowed(messages: MessageDb, message: MessageId, contents: Message) {
    && contents.waId.Some?
    && if message in messages
       then messages[message].waId == contents.waId && messages[message].account == contents.account
            && messages[message].status == contents.status
       else !WaIdTaken(messages, contents.account, contents.waId.value, message)
  }

  ghost function Run(db: OutboxDb, steps: seq<Step>): OutboxDb
    decreases |steps|
  {
    if steps == [] then db else Run(Apply(db, steps[0]), steps[1..])
  }
}
