/**
 The event service: one transaction per delivered envelope, deduplicated by (account, event id) and content,
 applied to contacts, conversations, messages, accounts and, for inbound messages, the job queue.
 */
module Events {
  import opened Base
  import opened Messages
  import Q = JobQueue

  type EventId = nat
  type Jid = string

  // ---------------------------------------------------------------- envelopes

  datatype AccountEvent = Qr | Connecting | Connected | Disconnected | LoggedOut | AccountError

  datatype MessageItem = MessageItem(wa: WaId, jid: Jid, fromMe: bool, group: bool, kind: MessageKind, at: Time,
                                     text: string, pushName: Option<string>)

  datatype Payload =
    | AccountChange(event: AccountEvent, phone: Option<string>, code: Option<string>)
    | Upsert(item: MessageItem)
    | History(items: seq<MessageItem>)
    | Receipt(wa: WaId, receipt: ReceiptType, at: Time, error: Option<string>)

  datatype Envelope = Envelope(id: EventId, account: AccountId, sequence: nat, occurredAt: Time, payload: Payload)

  // ---------------------------------------------------------------- rows

  datatype AccountStatus = New | QrPending | IsConnecting | Online | Offline | InError | IsLoggedOut

  datatype Account = Account(status: AccountStatus, lastSequence: nat, enabled: bool, mode: string,
                             phone: Option<string>, lastSeen: Option<Time>, errorCode: Option<string>)

  datatype Contact = Contact(id: ContactId, name: Option<string>)

  datatype Thread = Thread(id: ConversationId, contact: Option<ContactId>, group: bool, title: string, unread: nat,
                           lastAt: Option<Time>, preview: string, aiMode: string)

  /**
   Contacts and conversations are stored under their unique (account, jid). `events` keeps the envelope
   itself in place of its injective hash. New rows are named by a counter.
   */
  datatype Server = Server(events: map<(AccountId, EventId), Envelope>, accounts: map<AccountId, Account>,
                           contacts: map<(AccountId, Jid), Contact>, threads: map<(AccountId, Jid), Thread>,
                           messages: MessageDb, overrides: map<ContactId, bool>, jobs: Q.JobDb, nextId: nat)

  datatype EventError = IdentityConflict | AccountNotFound | MessageNotFound | JobRefused(reason: Q.JobError)

  // ---------------------------------------------------------------- message.upsert

  /** Message traffic leaves these tables alone and only ever takes new names. */
  predicate SameTables(s: Server, r: Server) {
    r.accounts == s.accounts && r.events == s.events && r.jobs == s.jobs && r.overrides == s.overrides
    && s.nextId <= r.nextId
  }

  function Truthy(name: Option<string>): bool {
    name.Some? && name.value != ""
  }

  function InsertContact(s: Server, account: AccountId, item: MessageItem): (Server, Option<ContactId>) {
    (s.(contacts := s.contacts[(account, item.jid) := Contact(s.nextId, item.pushName)], nextId := s.nextId + 1),
     Some(s.nextId))
  }

  function UpdateContact(s: Server, account: AccountId, item: MessageItem, rename: bool): (Server, Option<ContactId>)
    requires (account, item.jid) in s.contacts
  {
    var c := s.contacts[(account, item.jid)];
    (if rename && Truthy(item.pushName) then
       s.(contacts := s.contacts[(account, item.jid) := c.(name := item.pushName)])
     else s,
     Some(c.id))
  }

  /** A direct chat has a contact, made on first sight and renamed by later live messages. */
  function TouchContact(s: Server, account: AccountId, item: MessageItem, rename: bool): (r: (Server, Option<ContactId>))
    ensures SameTables(s, r.0) && r.0.messages == s.messages && r.0.threads == s.threads
  {
    if item.group then (s, None)
    else if (account, item.jid) !in s.contacts then InsertContact(s, account, item)
    else UpdateContact(s, account, item, rename)
  }

  function InsertThread(s: Server, account: AccountId, item: MessageItem, contact: Option<ContactId>): Server {
    var title := if Truthy(item.pushName) then item.pushName.value else item.jid;
    s.(threads := s.threads[(account, item.jid) := Thread(s.nextId, contact, item.group, title, 0, None, "", "off")],
       nextId := s.nextId + 1)
  }

  function UpdateThread(s: Server, account: AccountId, item: MessageItem, contact: Option<ContactId>): Server
    requires (account, item.jid) in s.threads
  {
    var key := (account, item.jid);
    s.(threads := s.threads[key := s.threads[key].(contact := contact)])
  }

  function TouchThread(s: Server, account: AccountId, item: MessageItem, contact: Option<ContactId>): (r: Server)
    ensures SameTables(s, r) && r.messages == s.messages && (account, item.jid) in r.threads
  {
    if (account, item.jid) !in s.threads then InsertThread(s, account, item, contact)
    else UpdateThread(s, account, item, contact)
  }

  function NewMessage(account: AccountId, item: MessageItem, thread: ConversationId, contact: Option<ContactId>): Message {
    Message(account, thread, contact, item.fromMe, item.kind, Some(item.wa), item.text,
            if item.fromMe then Sent else Received, None, 0, None, None, None, Some(item.at))
  }

  /** An existing row is rewritten in place; its status, and so what receipts have settled, is kept. */
  function Rewritten(m: Message, item: MessageItem, thread: ConversationId, contact: Option<ContactId>): Message {
    m.(conversation := thread, contact := contact, outbound := item.fromMe, kind := item.kind, content := item.text,
       occurredAt := Some(item.at))
  }

  function KindName(k: MessageKind): string {
    match k
    case Text => "[text]" case Image => "[image]" case Audio => "[audio]"
    case Video => "[video]" case Document => "[document]" case System => "[system]"
  }

  /** Unread grows on new live inbound messages only; the preview never goes back in time. */
  function TouchPreview(t: Thread, item: MessageItem, isNew: bool, historical: bool): Thread {
    var counted := t.(unread := t.unread + (if isNew && !item.fromMe && !historical then 1 else 0));
    if t.lastAt.Some? && item.at < t.lastAt.value then counted
    else counted.(lastAt := Some(item.at), preview := if item.text != "" then item.text else KindName(item.kind),
                  title := if Truthy(item.pushName) then item.pushName.value else t.title)
  }

  /** The row write of _upsert_message, given the row the lookup by platform id found. */
  function PutMessage(s: Server, account: AccountId, item: MessageItem, contact: Option<ContactId>,
                      found: Option<MessageId>, historical: bool): (r: Server)
    requires (account, item.jid) in s.threads && (found.Some? ==> found.value in s.messages)
    ensures SameTables(s, r) && (account, item.jid) in r.threads
  {
    var thread := s.threads[(account, item.jid)];
    var touched := s.(threads := s.threads[(account, item.jid) := TouchPreview(thread, item, found.None?, historical)]);
    if found.None? then
      touched.(messages := s.messages[s.nextId := NewMessage(account, item, thread.id, contact)], nextId := s.nextId + 1)
    else touched.(messages := s.messages[found.value := Rewritten(s.messages[found.value], item, thread.id, contact)])
  }

  ghost function UpsertMessage(s: Server, account: AccountId, item: MessageItem, historical: bool): (r: Server)
    ensures SameTables(s, r) && (account, item.jid) in r.threads
  {
    var (s1, contact) := TouchContact(s, account, item, !historical);
    var s2 := TouchThread(s1, account, item, contact);
    PutMessage(s2, account, item, contact, FindMessage(s2.messages, account, item.wa), historical)
  }

  ghost function UpsertAll(s: Server, account: AccountId, items: seq<MessageItem>): Server {
    if items == [] then s
    else UpsertMessage(UpsertAll(s, account, items[..|items| - 1]), account, items[|items| - 1], true)
  }

  // ---------------------------------------------------------------- the auto-reply job

  function AutoReplyAllowed(a: Account, t: Thread, contactEnabled: Option<bool>): bool {
    a.enabled && a.status == Online && a.mode == "auto" && t.aiMode == "auto" && contactEnabled != Some(false)
  }

  function Override(s: Server, t: Thread): Option<bool> {
    if t.contact.Some? && t.contact.value in s.overrides then Some(s.overrides[t.contact.value]) else None
  }

  /** One job per account, inbound message and mode. */
  function ReplyRequest(account: AccountId, a: Account, t: Thread, message: MessageId, m: Message, wa: WaId, now: Time)
    : Q.EnqueueArgs
  {
    Q.EnqueueArgs(account, Q.AutoReply(account, wa, a.mode),
      Q.Request("auto_reply", t.contact, Some(t.id), None, 10, 0, 0, ReplyDigest(message, account, m.content, a.mode)),
      now, 6, Q.Progress(0, 0, 0), Some(100))
  }

  function ReplyScope(account: AccountId, t: Thread): Q.Directory {
    Q.Directory({account}, if t.contact.Some? then map[t.contact.value := account] else map[],
                map[t.id := Q.ConversationScope(account, t.contact)])
  }

  predicate WantsReply(s: Server, account: AccountId, t: Thread, m: Message)
    requires account in s.accounts
  {
    !m.outbound && !m.kind.System? && AutoReplyAllowed(s.accounts[account], t, Override(s, t))
  }

  /** `seen` is the job table as the session found it; the insert meets the committed one. */
  ghost function EnqueueReplySeeing(seen: Q.JobDb, s: Server, account: AccountId, item: MessageItem, now: Time)
    : (r: Result<Server, EventError>)
    requires account in s.accounts && (account, item.jid) in s.threads
    ensures if r.Ok? then r.value == s.(jobs := r.value.jobs, nextId := r.value.nextId) else r.error.JobRefused?
  {
    var found := FindMessage(s.messages, account, item.wa);
    var t := s.threads[(account, item.jid)];
    if found.None? || !WantsReply(s, account, t, s.messages[found.value]) then Ok(s)
    else
      var args := ReplyRequest(account, s.accounts[account], t, found.value, s.messages[found.value], item.wa, now);
      var r := Q.Enqueue(ReplyScope(account, t), seen, s.jobs, args, s.nextId, now);
      if r.Err? then Err(JobRefused(r.error)) else Ok(s.(jobs := r.value.0, nextId := s.nextId + 1))
  }

  ghost function EnqueueReply(s: Server, account: AccountId, item: MessageItem, now: Time): (r: Result<Server, EventError>)
    requires account in s.accounts && (account, item.jid) in s.threads
    ensures if r.Ok? then r.value == s.(jobs := r.value.jobs, nextId := r.value.nextId) else r.error.JobRefused?
  {
    EnqueueReplySeeing(s.jobs, s, account, item, now)
  }

  // ---------------------------------------------------------------- receipts and account status

  ghost function ApplyReceipt(s: Server, account: AccountId, p: Payload): Result<Server, EventError>
    requires p.Receipt?
  {
    var found := FindMessage(s.messages, account, p.wa);
    if found.None? then Err(MessageNotFound)
    else Ok(s.(messages := s.messages[found.value := MergeReceipt(s.messages[found.value], p.receipt, p.at, p.error)]))
  }

  function StatusOf(e: AccountEvent): AccountStatus {
    match e
    case Qr => QrPending
    case Connecting => IsConnecting
    case Connected => Online
    case Disconnected => Offline
    case LoggedOut => IsLoggedOut
    case AccountError => InError
  }

  function ChangeAccount(a: Account, env: Envelope): Account
    requires env.payload.AccountChange?
  {
    if env.sequence <= a.lastSequence then a
    else
      var moved := a.(status := StatusOf(env.payload.event), lastSequence := env.sequence);
      match env.payload.event
      case Connected => moved.(phone := env.payload.phone, lastSeen := Some(env.occurredAt), errorCode := None)
      case AccountError => moved.(errorCode := env.payload.code)
      case _ => moved
  }

  // ---------------------------------------------------------------- process

  /** What an envelope does once it has been accepted as new. */
  ghost function Effect(s: Server, env: Envelope): Result<Server, EventError>
    requires env.account in s.accounts
  {
    match env.payload
    case Upsert(item) => EnqueueReply(UpsertMessage(s, env.account, item, false), env.account, item, env.occurredAt)
    case History(items) => Ok(UpsertAll(s, env.account, items))
    case Receipt(_, _, _, _) => ApplyReceipt(s, env.account, env.payload)
    case AccountChange(_, _, _) =>
      Ok(s.(accounts := s.accounts[env.account := ChangeAccount(s.accounts[env.account], env)]))
  }

  function Identity(env: Envelope): (AccountId, EventId) {
    (env.account, env.id)
  }

  datatype Answer = Accepted(duplicate: bool) | Refused(error: EventError) | Aborted

  /** One delivery attempt handled by process and committed, or rolled back with an error. */
  ghost function Process(s: Server, env: Envelope): (r: (Server, Answer))
    ensures r.1 == Refused(MessageNotFound) ==> env.payload.Receipt?
    ensures r.1 == Refused(IdentityConflict) ==> Identity(env) in s.events
  {
    var key := Identity(env);
    if key in s.events then
      if s.events[key] == env then (s, Accepted(true)) else (s, Refused(IdentityConflict))
    else if env.account !in s.accounts then (s, Refused(AccountNotFound))
    else
      var r := Effect(s.(events := s.events[key := env]), env);
      if r.Err? then (s, Refused(r.error)) else (r.value, Accepted(false))
  }

  /** A delivery attempt may also die before its commit. */
  datatype Attempt = Attempt(env: Envelope, dies: bool)

  ghost function Deliver(s: Server, a: Attempt): (Server, Answer) {
    if a.dies then (s, Aborted) else Process(s, a.env)
  }

  ghost function Run(s: Server, trace: seq<Attempt>): Server
    decreases |trace|
  {
    if trace == [] then s else Run(Deliver(s, trace[0]).0, trace[1..])
  }
}
