/**
 The auto-reply pipeline end to end: any number of workers turn analysis jobs into outbox rows, any number
 of dispatchers turn rows into bridge sends, and every process may crash between its transactions.
 */
module Pipeline {
  import opened Base
  import Q = JobQueue
  import O = Outbox
  import K = KeyedSend

  // ---------------------------------------------------------------- processes

  datatype Lease = Lease(token: Q.Token, conversation: Option<ConversationId>)

  /** Where a worker process stands between two transactions of _process. */
  datatype Worker =
    | Idle
    | Leased(lease: Lease)
    | Started(lease: Lease, version: nat, hash: Hash)
    | Answered(lease: Lease, version: nat, hash: Hash, text: string)
    | Failing(lease: Lease)

  /** A dispatcher is either free or waiting for the bridge to answer for a row. */
  datatype Courier = Free | Waiting(row: OutboxId, account: AccountId, call: K.CallId)

  datatype World = World(jobs: Q.JobDb, outbox: O.OutboxDb, bridges: map<AccountId, K.Bridge>,
                         workers: map<nat, Worker>, couriers: map<WorkerId, Courier>)

  datatype Step =
    | OtherJobStep(jobStep: Q.Step)
    | OtherOutboxStep(outboxStep: O.Step)
    | OtherBridgeStep(account: AccountId, bridgeStep: K.Step)
    | ClaimJob(worker: nat, claim: Q.ClaimArgs, id: JobId)
    | StartJob(worker: nat, now: Time)
    | DeclineJob(worker: nat)
    | Think(worker: nat, text: string)
    | Reply(worker: nat, now: Time, newMessage: MessageId, newRow: OutboxId)
    | FailJob(worker: nat, now: Time, delay: nat)
    | CrashWorker(worker: nat)
    | Deliver(courier: WorkerId, row: OutboxId, call: K.CallId, op: K.OpId)
    | Receive(courier: WorkerId, now: Time)
    | Lose(courier: WorkerId, code: string, retryable: bool, maxAttempts: nat, now: Time)
    | CrashCourier(courier: WorkerId)

  function WorkerAt(w: World, p: nat): Worker {
    if p in w.workers then w.workers[p] else Idle
  }

  function CourierAt(w: World, c: WorkerId): Courier {
    if c in w.couriers then w.couriers[c] else Free
  }

  function Become(w: World, p: nat, s: Worker): World {
    w.(workers := w.workers[p := s])
  }

  function Current(lease: Lease, version: nat): Q.Token {
    lease.token.(version := version)
  }

  /** Phase three: enqueue and complete in one transaction; if either fails, both are rolled back. */
  ghost function ReplyTx(w: World, lease: Lease, version: nat, hash: Hash, text: string, now: Time,
                         newMessage: MessageId, newRow: OutboxId): Option<World>
    requires lease.conversation.Some? && lease.conversation.value in w.outbox.conversations
  {
    var queued := O.Enqueue(w.outbox, lease.conversation.value, text, now, O.ReplyTo(lease.token.id), newMessage, newRow);
    if queued.Err? then None
    else
      var done := Q.CompleteLease(w.jobs, Current(lease, version), now, hash, None);
      if done.Err? then None
      else Some(w.(jobs := done.value, outbox := queued.value.db))
  }

  ghost function Apply(w: World, step: Step): World {
    match step
    case OtherJobStep(s) => if s.CompleteStep? then w else w.(jobs := Q.Apply(w.jobs, s))
    case OtherOutboxStep(s) =>
      // nobody else finalises a send or writes a key of the auto-reply worker
      if s.SentStep? || (s.EnqueueStep? && s.key.ReplyTo?) then w else w.(outbox := O.Apply(w.outbox, s))
    case OtherBridgeStep(a, s) =>
      if a !in w.bridges || (s.SendStep? && s.key.Some? && s.key.value.ReplyTo?) then w
      else w.(bridges := w.bridges[a := K.Apply(w.bridges[a], s)])
    case ClaimJob(p, claim, id) =>
      if WorkerAt(w, p).Idle? && Q.ClaimChoice(w.jobs, claim, id) then
        var jobs := Q.Apply(w.jobs, Q.ClaimStep(claim, id));
        var token := Q.Token(w.jobs[id].account, id, claim.worker, w.jobs[id].version + 1);
        Become(w.(jobs := jobs), p, Leased(Lease(token, w.jobs[id].request.conversation)))
      else w
    case StartJob(p, now) =>
      if WorkerAt(w, p).Leased? then
        var lease := WorkerAt(w, p).lease;
        var r := Q.LeaseCas(w.jobs, lease.token, now, Q.Start, None);
        if r.Err? then Become(w, p, Failing(lease))
        else Become(w.(jobs := r.value), p,
                    Started(lease, r.value[lease.token.id].version, r.value[lease.token.id].request.inputHash))
      else w
    case DeclineJob(p) =>
      // policy, a missing row or a human reply: the worker cancels with the version it got from start
      if WorkerAt(w, p).Started? || WorkerAt(w, p).Answered? then
        var s := WorkerAt(w, p);
        var r := Q.Cancel(w.jobs, s.lease.token.account, s.lease.token.id, s.version);
        if r.Ok? then Become(w.(jobs := r.value), p, Idle) else Become(w, p, Failing(s.lease))
      else w
    case Think(p, text) =>
      // an empty text stands for a provider error as well
      if WorkerAt(w, p).Started? then
        var s := WorkerAt(w, p);
        Become(w, p, if text == "" then Failing(s.lease) else Answered(s.lease, s.version, s.hash, text))
      else w
    case Reply(p, now, newMessage, newRow) =>
      if && WorkerAt(w, p).Answered? && WorkerAt(w, p).lease.conversation.Some?
         && WorkerAt(w, p).lease.conversation.value in w.outbox.conversations
         && newMessage !in w.outbox.messages && newRow !in w.outbox.rows
      then
        var s := WorkerAt(w, p);
        var r := ReplyTx(w, s.lease, s.version, s.hash, s.text, now, newMessage, newRow);
        if r.Some? then Become(r.value, p, Idle) else Become(w, p, Failing(s.lease))
      else w
    case FailJob(p, now, delay) =>
      if WorkerAt(w, p).Failing? then
        Become(w.(jobs := Q.Committed(w.jobs, Q.FailLease(w.jobs, WorkerAt(w, p).lease.token, now, delay))), p, Idle)
      else w
    case CrashWorker(p) => Become(w, p, Idle)
    case Deliver(c, row, call, op) =>
      if CourierAt(w, c).Free? && O.Prepare(w.outbox, row, c).Send? then
        var send := O.Prepare(w.outbox, row, c);
        if send.account in w.bridges && call !in w.bridges[send.account].calls && op !in w.bridges[send.account].ops then
          w.(bridges := w.bridges[send.account :=
               K.Apply(w.bridges[send.account], K.SendStep(call, op, Some(send.key)))],
             couriers := w.couriers[c := Waiting(row, send.account, call)])
        else w
      else w
    case Receive(c, now) =>
      if CourierAt(w, c).Waiting? && Answer(w, c).Some? then
        var r := O.FinalizeSent(w.outbox, CourierAt(w, c).row, c, Answer(w, c).value, now);
        w.(outbox := if r.Ok? then r.value else w.outbox, couriers := w.couriers[c := Free])
      else w
    case Lose(c, code, retryable, maxAttempts, now) =>
      if CourierAt(w, c).Waiting? then
        w.(outbox := O.FinalizeFailure(w.outbox, CourierAt(w, c).row, c, code, retryable, maxAttempts, now),
           couriers := w.couriers[c := Free])
      else w
    case CrashCourier(c) => w.(couriers := w.couriers[c := Free])
  }

  /** The bridge's answer to a waiting dispatcher, once there is one. */
  function Answer(w: World, c: WorkerId): Option<WaId> {
    match CourierAt(w, c)
    case Free => None
    case Waiting(_, account, call) =>
      if account in w.bridges && call in w.bridges[account].calls then K.Result(w.bridges[account], call) else None
  }

  ghost function Run(w: World, steps: seq<Step>): World
    decreases |steps|
  {
    if steps == [] then w else Run(Apply(w, steps[0]), steps[1..])
  }

  function Start(conversations: map<ConversationId, O.Conversation>, accounts: set<AccountId>, limit: nat): World {
    World(map[], O.OutboxDb(map[], map[], conversations), map a | a in accounts :: K.Fresh([], limit), map[], map[])
  }
}
