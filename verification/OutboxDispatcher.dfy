/** The dispatcher over its tables, rows changed in place and held to Outbox's functions. */
module OutboxDispatcherModule {
  import opened Base
  import opened Messages
  import opened Outbox
  import opened OutboxProperties
  import opened OutboxLaws

  /** What the foreign bridge call came back with. */
  datatype SendOutcome =
    | SentAs(wa: WaId)
    | NoMessageId
    | BridgeError(code: string, retryable: bool)
    | Crashed(reason: string)

  class OutboxDispatcher {
    var rows: Rows
    var messages: MessageDb
    var conversations: map<ConversationId, Conversation>
    const workerId: WorkerId
    const batchSize: nat
    const leaseSeconds: nat
    const maxAttempts: nat

    ghost function Db(): OutboxDb
      reads this
    {
      OutboxDb(rows, messages, conversations)
    }

    static function Clamp(low: nat, value: int, high: nat): (r: nat)
      requires low <= high
      ensures low <= r <= high && (low <= value <= high ==> r == value)
      ensures (value < low ==> r == low) && (value > high ==> r == high)
    {
      if value < low then low else if value > high then high else value
    }

    constructor (db: OutboxDb, worker: WorkerId, batch: int, lease: int, attempts: int)
      ensures Db() == db && workerId == worker
      ensures batchSize == Clamp(1, batch, 100) && leaseSeconds == Clamp(10, lease, 600)
      ensures maxAttempts == Clamp(1, attempts, 20)
    {
      rows, messages, conversations := db.rows, db.messages, db.conversations;
      workerId := worker;
      batchSize := Clamp(1, batch, 100);
      leaseSeconds := Clamp(10, lease, 600);
      maxAttempts := Clamp(1, attempts, 20);
    }

    method Lookup(key: OutboxKey) returns (r: Option<OutboxId>)
      requires Distinct(Db())
      ensures r == FindRow(rows, key)
    {
      var pool := rows.Keys;
      while pool != {}
        invariant pool <= rows.Keys
        invariant forall i :: i in rows && i !in pool ==> rows[i].key != key
        decreases |pool|
      {
        var i :| i in pool;
        if rows[i].key == key {
          assert forall j :: j in rows && rows[j].key == key ==> Clash(rows[i], rows[j]);
          return Some(i);
        }
        pool := pool - {i};
      }
      return None;
    }

    /** The row will send this text to this conversation, and is due exactly from this time on. */
    ghost predicate Says(row: OutboxId, text: string, conversation: ConversationId, from: Time)
      reads this
    {
      && row in rows && rows[row].message in messages && conversation in conversations
      && messages[rows[row].message].content == text && messages[rows[row].message].conversation == conversation
      && messages[rows[row].message].account == rows[row].account == conversations[conversation].account
      && messages[rows[row].message].outbound && rows[row].attempts == 0
      && forall t :: DueAt(rows, t, row) <==> from <= t
    }

    method EnqueueOutboxMessage(conversation: ConversationId, text: string, availableAt: Time, key: OutboxKey,
                                newMessage: MessageId, newRow: OutboxId) returns (r: Result<OutboxId, OutboxError>)
      requires Inv(Db()) && conversation in conversations
      requires newMessage !in messages && newRow !in rows
      modifies this
      ensures Inv(Db())
      ensures Db() == Apply(old(Db()), EnqueueStep(conversation, text, availableAt, key, newMessage, newRow))
      ensures r.Ok? <==> Outbox.Enqueue(old(Db()), conversation, text, availableAt, key, newMessage, newRow).Ok?
      ensures r.Ok? ==> r.value in rows && rows[r.value].key == key
      ensures r.Ok? ==> messages[rows[r.value].message].conversation == conversation
      ensures r.Ok? && FindRow(old(rows), key).None? ==> |rows| == |old(rows)| + 1 && |messages| == |old(messages)| + 1
      ensures r.Ok? && FindRow(old(rows), key).Some? ==> Db() == old(Db())
      ensures r.Ok? && FindRow(old(rows), key).None? ==> Says(r.value, text, conversation, availableAt)
    {
      StepKeepsInv(Db(), EnqueueStep(conversation, text, availableAt, key, newMessage, newRow));
      if text == "" { return Err(EmptyText); }
      var existing := Lookup(key);
      if existing.Some? {
        var message := rows[existing.value].message;
        if message !in messages { return Err(MissingMessage); }
        if messages[message].conversation != conversation { return Err(ForeignKey); }
        return Ok(existing.value);
      }
      var c := conversations[conversation];
      messages := messages[newMessage := NewMessage(c, conversation, text)];
      rows := rows[newRow := NewRow(c.account, newMessage, key, availableAt)];
      return Ok(newRow);
    }

    /** The first of the due rows in `pool`, by availability and then id. */
    static predicate FirstDue(table: Rows, now: Time, pool: set<OutboxId>, i: OutboxId)
      requires pool <= table.Keys
    {
      && i in pool && DueAt(table, now, i)
      && forall o :: o in pool && DueAt(table, now, o) && o != i ==> Before(table, i, o)
    }

    static method NextDue(table: Rows, now: Time, pool: set<OutboxId>) returns (first: Option<OutboxId>)
      requires pool <= table.Keys
      ensures first.None? ==> forall o :: o in pool ==> !DueAt(table, now, o)
      ensures first.Some? ==> FirstDue(table, now, pool, first.value)
    {
      first := None;
      var rest := pool;
      while rest != {}
        invariant rest <= pool
        invariant first.None? ==> forall o :: o in pool && o !in rest ==> !DueAt(table, now, o)
        invariant first.Some? ==> first.value !in rest && FirstDue(table, now, pool - rest, first.value)
        decreases |rest|
      {
        var i :| i in rest;
        rest := rest - {i};
        if DueAt(table, now, i) && (first.None? || Before(table, i, first.value)) {
          first := Some(i);
        }
      }
      assert pool - rest == pool;
    }

    /** Expired leases go back to the queue before anything is claimed. */
    method ReapExpired(now: Time)
      modifies this`rows
      ensures rows == map i | i in old(rows) :: ReapRow(old(rows)[i], now)
    {
      var pool := rows.Keys;
      while pool != {}
        invariant pool <= rows.Keys && rows.Keys == old(rows).Keys
        invariant forall i :: i in rows ==> rows[i] == if i in pool then old(rows)[i] else ReapRow(old(rows)[i], now)
        decreases |pool|
      {
        var i :| i in pool;
        if LeaseOver(rows[i], now) {
          rows := rows[i := rows[i].(status := Waiting, owner := None, expires := None)];
        }
        pool := pool - {i};
      }
    }

    /** The choice made so far from the reaped rows: due, and ahead of everything due that is left. */
    static ghost predicate PickedSoFar(rows: Rows, now: Time, chosen: set<OutboxId>) {
      && (forall i :: i in chosen ==> i in rows && DueAt(rows, now, i))
      && (forall i, o :: i in chosen && o in rows && DueAt(rows, now, o) && o !in chosen ==> Before(rows, i, o))
    }

    static lemma PickOneMore(table: Rows, now: Time, chosen: set<OutboxId>, i: OutboxId)
      requires PickedSoFar(table, now, chosen) && FirstDue(table, now, table.Keys - chosen, i)
      ensures PickedSoFar(table, now, chosen + {i})
    {
    }

    static function LeasedOver(table: Rows, chosen: set<OutboxId>, worker: WorkerId, until: Time): Rows {
      map i | i in table :: if i in chosen then LeaseRow(table[i], worker, until) else table[i]
    }

    static lemma PickedIsChoice(before: Rows, now: Time, batch: nat, chosen: set<OutboxId>)
      requires var reaped := map j | j in before :: ReapRow(before[j], now);
               && PickedSoFar(reaped, now, chosen) && |chosen| <= batch
               && (|chosen| < batch ==> forall o :: o in reaped && DueAt(reaped, now, o) ==> o in chosen)
      ensures BatchChoice(before, now, batch, chosen)
    {
    }

    static function Elements(ids: seq<OutboxId>): set<OutboxId> {
      set i | i in ids
    }

    /** SELECT ... ORDER BY available_at, id LIMIT batch_size */
    method SelectDue(table: Rows, now: Time) returns (ids: seq<OutboxId>)
      ensures forall i, j :: 0 <= i < j < |ids| ==> ids[i] != ids[j]
      ensures var chosen := Elements(ids); |chosen| == |ids| && PickedSoFar(table, now, chosen)
      ensures |ids| <= batchSize
      ensures |ids| < batchSize ==> forall o :: o in table && DueAt(table, now, o) ==> o in ids
    {
      ids := [];
      ghost var chosen := {};
      var pool := table.Keys;
      while |ids| < batchSize
        invariant |ids| == |chosen| <= batchSize && chosen <= table.Keys && pool == table.Keys - chosen
        invariant forall i :: i in ids <==> i in chosen
        invariant forall i, j :: 0 <= i < j < |ids| ==> ids[i] != ids[j]
        invariant PickedSoFar(table, now, chosen)
      {
        var next := NextDue(table, now, pool);
        if next.None? { break; }
        PickOneMore(table, now, chosen, next.value);
        pool := pool - {next.value};
        ids, chosen := ids + [next.value], chosen + {next.value};
      }
      assert chosen == Elements(ids);
    }

    static lemma LeasedIsClaimed(before: Rows, now: Time, chosen: set<OutboxId>, worker: WorkerId, lease: nat)
      ensures LeasedOver(map i | i in before :: ReapRow(before[i], now), chosen, worker, now + lease)
           == ClaimedRows(before, now, worker, lease, chosen)
    {
    }

    static lemma LeaseNext(table: Rows, ids: seq<OutboxId>, n: nat, worker: WorkerId, until: Time)
      requires n < |ids| && ids[n] in table && ids[n] !in ids[..n]
      ensures LeasedOver(table, Elements(ids[..n]), worker, until)[ids[n] := LeaseRow(table[ids[n]], worker, until)]
           == LeasedOver(table, Elements(ids[..n + 1]), worker, until)
    {
    }

    method LeaseAll(ids: seq<OutboxId>, until: Time)
      requires forall i, j :: 0 <= i < j < |ids| ==> ids[i] != ids[j]
      requires forall i :: i in ids ==> i in rows
      modifies this`rows
      ensures rows == LeasedOver(old(rows), Elements(ids), workerId, until)
    {
      var n := 0;
      while n < |ids|
        invariant n <= |ids|
        invariant rows == LeasedOver(old(rows), Elements(ids[..n]), workerId, until)
      {
        LeaseNext(old(rows), ids, n, workerId, until);
        rows := rows[ids[n] := LeaseRow(rows[ids[n]], workerId, until)];
        n := n + 1;
      }
      assert ids[..n] == ids;
    }

    /** Claims exactly the first batchSize due rows, each leased to this worker, and no row twice. */
    method ClaimBatch(now: Time) returns (claimed: seq<OutboxId>)
      modifies this`rows
      ensures forall i, j :: 0 <= i < j < |claimed| ==> claimed[i] != claimed[j]
      ensures BatchChoice(old(rows), now, batchSize, Elements(claimed))
      ensures rows == ClaimedRows(old(rows), now, workerId, leaseSeconds, Elements(claimed))
    {
      ReapExpired(now);
      claimed := SelectDue(rows, now);
      assert forall i :: i in claimed ==> i in Elements(claimed);
      PickedIsChoice(old(rows), now, batchSize, Elements(claimed));
      LeasedIsClaimed(old(rows), now, Elements(claimed), workerId, leaseSeconds);
      LeaseAll(claimed, now + leaseSeconds);
    }

    method FinalizeFailure(id: OutboxId, code: string, retryable: bool, now: Time)
      modifies this
      ensures Db() == Outbox.FinalizeFailure(old(Db()), id, workerId, code, retryable, maxAttempts, now)
      ensures !Owns(old(rows), id, workerId) ==> Db() == old(Db())
      ensures Owns(old(rows), id, workerId) ==> id in rows && rows[id].owner.None?
      ensures Owns(old(rows), id, workerId) ==>
                (rows[id].status == Dead <==> !retryable || rows[id].attempts >= maxAttempts)
      ensures Owns(old(rows), id, workerId) && rows[id].status == Waiting ==> !DueAt(rows, now + 1, id)
    {
      if !Owns(rows, id, workerId) { return; }
      var row := rows[id];
      if row.message in messages {
        messages := messages[row.message := FailureMessage(messages[row.message], row, code, retryable, maxAttempts)];
      }
      rows := rows[id := FailureRow(row, code, retryable, maxAttempts, now)];
    }

    /** Another message already named by the platform id; the unique index then refuses the update. */
    method IsTaken(account: AccountId, wa: WaId, except: MessageId) returns (taken: bool)
      ensures taken <==> WaIdTaken(messages, account, wa, except)
    {
      var pool := messages.Keys;
      while pool != {}
        invariant pool <= messages.Keys
        invariant forall i :: i in messages && i !in pool && i != except ==> !Named(messages[i], account, wa)
        decreases |pool|
      {
        var i :| i in pool;
        if i != except && Named(messages[i], account, wa) { return true; }
        pool := pool - {i};
      }
      return false;
    }

    method FinalizeSent(id: OutboxId, wa: WaId, now: Time) returns (r: Result<(), OutboxError>)
      modifies this
      ensures Outbox.FinalizeSent(old(Db()), id, workerId, wa, now) == (if r.Ok? then Ok(Db()) else Err(r.error))
      ensures r.Err? ==> Db() == old(Db())
    {
      if !Owns(rows, id, workerId) { return Ok(()); }
      var row := rows[id];
      if row.message !in messages {
        rows := rows[id := Settled(row, Dead, Some("message missing after send"))];
        return Ok(());
      }
      var m := messages[row.message];
      var taken := IsTaken(m.account, wa, row.message);
      if taken { return Err(DuplicateWaId); }
      messages := messages[row.message := SentMessage(m, wa, now)];
      rows := rows[id := Settled(row, Completed, None)];
      if m.conversation in conversations {
        var c := conversations[m.conversation];
        conversations := conversations[m.conversation := c.(preview := m.content, lastAt := Some(now))];
      }
      return Ok(());
    }

    /** The message and its conversation exist, and the conversation has not been deleted. */
    static predicate Reachable(db: OutboxDb, message: MessageId) {
      && message in db.messages && db.messages[message].conversation in db.conversations
      && !db.conversations[db.messages[message].conversation].deleted
    }

    /**
     _deliver with nothing interleaved: a row this worker does not own is left alone, and an owned one is
     settled by the outcome unless the platform id is already taken.
     */
    method Deliver(id: OutboxId, outcome: SendOutcome, now: Time) returns (asked: Delivery, r: Result<(), OutboxError>)
      requires Inv(Db())
      modifies this
      ensures Inv(Db())
      ensures asked.Skip? <==> !Owns(old(rows), id, workerId)
      ensures asked.Send? <==> Owns(old(rows), id, workerId) && Reachable(old(Db()), old(rows)[id].message)
      ensures asked.Send? ==>
                var m := old(messages)[old(rows)[id].message];
                && asked.text == m.content && asked.chat == old(conversations)[m.conversation].chat
                && asked.account == m.account && asked.key == old(rows)[id].key
      ensures !Owns(old(rows), id, workerId) ==> r.Ok? && Db() == old(Db())
      ensures r.Err? ==> Db() == old(Db())
      ensures r.Err? <==> (outcome.SentAs? && asked.Send?
                           && WaIdTaken(old(messages), old(messages)[old(rows)[id].message].account, outcome.wa,
                                        old(rows)[id].message))
      ensures r.Ok? && Owns(old(rows), id, workerId) ==>
                && id in rows && !Owns(rows, id, workerId)
                && (rows[id].status == Completed <==> outcome.SentAs? && asked.Send?)
                && (rows[id].status == Completed ==>
                      messages[rows[id].message].waId == Some(outcome.wa)
                      && messages[rows[id].message].content == asked.text)
      ensures Owns(old(rows), id, workerId) && !(asked.Send? && outcome.SentAs?) ==>
                && id in rows && rows[id].attempts == old(rows)[id].attempts
                && (rows[id].status == Dead <==> || asked.BadReference? || maxAttempts <= rows[id].attempts
                                                 || (outcome.BridgeError? && !outcome.retryable))
                && (asked.Send? && outcome.BridgeError? ==> rows[id].lastError == Some(outcome.code))
                && (rows[id].status != Dead ==>
                      forall t :: DueAt(rows, t, id) <==> now + RetryDelay(rows[id].attempts) <= t)
      ensures forall o :: o in old(rows) && o != id ==> o in rows && rows[o] == old(rows)[o]
    {
      var before := Db();
      assert id in rows ==> Coupled(before, id);
      r := Ok(());
      asked := Prepare(OutboxDb(rows, messages, conversations), id, workerId);
      if asked.Skip? { return; }
      if asked.BadReference? {
        FailureKeepsInv(before, id, workerId, "invalid_outbox_reference", false, maxAttempts, now);
        FailedRowReturns(before, id, workerId, "invalid_outbox_reference", false, maxAttempts, now);
        FinalizeFailure(id, "invalid_outbox_reference", false, now);
        return;
      }
      match outcome
      case NoMessageId =>
        FailureKeepsInv(before, id, workerId, "missing_message_id", true, maxAttempts, now);
        FailedRowReturns(before, id, workerId, "missing_message_id", true, maxAttempts, now);
        FinalizeFailure(id, "missing_message_id", true, now);
      case BridgeError(code, retryable) =>
        FailureKeepsInv(before, id, workerId, code, retryable, maxAttempts, now);
        FailedRowReturns(before, id, workerId, code, retryable, maxAttempts, now);
        FinalizeFailure(id, code, retryable, now);
      case Crashed(reason) =>
        FailureKeepsInv(before, id, workerId, "outbox_delivery_error", true, maxAttempts, now);
        FailedRowReturns(before, id, workerId, "outbox_delivery_error", true, maxAttempts, now);
        FinalizeFailure(id, "outbox_delivery_error", true, now);
      case SentAs(wa) =>
        r := FinalizeSent(id, wa, now);
        if r.Ok? { SentKeepsInv(before, id, workerId, wa, now); }
    }
  }
}
