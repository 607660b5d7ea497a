/** What a delivered event leaves in the tables: the message it carries, its conversation, and the reply it asks for. */
module EventLaws {
  import opened Base
  import opened Messages
  import opened Events
  import opened EventProperties
  import Q = JobQueue
  import QP = JobProperties

  // ---------------------------------------------------------------- the stored message

  /** The message says what the item says, in the conversation and from the contact of the item's chat. */
  ghost predicate Says(s: Server, m: MessageId, account: AccountId, item: MessageItem) {
    && m in s.messages && (account, item.jid) in s.threads
    && var (x, t) := (s.messages[m], s.threads[(account, item.jid)]);
       && x.account == account && x.waId == Some(item.wa) && x.content == item.text && x.kind == item.kind
       && x.outbound == item.fromMe && x.occurredAt == Some(item.at)
       && x.conversation == t.id && x.contact == t.contact
       && (item.group ==> t.contact == None)
       && (!item.group ==> (account, item.jid) in s.contacts && t.contact == Some(s.contacts[(account, item.jid)].id))
  }

  /** What was known about the message before, if anything, decides its id and its status. */
  predicate KeepsItsPlace(s: Server, r: Server, m: MessageId, known: Option<MessageId>, fromMe: bool)
    requires m in r.messages && (known.Some? ==> known.value in s.messages)
  {
    if known.Some? then m == known.value && r.messages[m].status == s.messages[m].status
    else m !in s.messages && r.messages[m].status == (if fromMe then Sent else Received)
  }

  predicate HasName(item: MessageItem) {
    item.pushName.Some? && item.pushName.value != ""
  }

  /** A direct chat's contact is named on first sight and renamed by live messages with a name; groups have none. */
  ghost predicate ContactFollows(s: Server, r: Server, account: AccountId, item: MessageItem, live: bool) {
    var key := (account, item.jid);
    && (item.group ==> r.contacts == s.contacts)
    && (!item.group ==> key in r.contacts)
    && (!item.group && key !in s.contacts ==> r.contacts[key].name == item.pushName)
    && (!item.group && key in s.contacts ==>
          && r.contacts[key].id == s.contacts[key].id
          && r.contacts[key].name == if live && HasName(item) then item.pushName else s.contacts[key].name)
    && (forall o :: o in s.contacts && o != key ==> o in r.contacts && r.contacts[o] == s.contacts[o])
  }

  lemma TouchedContact(s: Server, account: AccountId, item: MessageItem, rename: bool)
    ensures var (r, contact) := TouchContact(s, account, item, rename);
            && ContactFollows(s, r, account, item, rename) && r.messages == s.messages && r.threads == s.threads
            && contact == if item.group then None else Some(r.contacts[(account, item.jid)].id)
  {
  }

  /** The conversation of the chat as it was, or a new one, now of this contact. */
  ghost predicate ThreadFollows(s: Server, r: Server, account: AccountId, item: MessageItem, contact: Option<ContactId>) {
    var key := (account, item.jid);
    && key in r.threads && r.threads[key].contact == contact
    && (key in s.threads ==> r.threads[key] == s.threads[key].(contact := contact))
    && (key !in s.threads ==>
          && r.threads[key].unread == 0 && r.threads[key].lastAt == None && r.threads[key].aiMode == "off"
          && r.threads[key].group == item.group
          && r.threads[key].title == (if HasName(item) then item.pushName.value else item.jid))
    && (forall o :: o in s.threads && o != key ==> o in r.threads && r.threads[o] == s.threads[o])
  }

  lemma InsertedThread(s: Server, account: AccountId, item: MessageItem, contact: Option<ContactId>)
    requires (account, item.jid) !in s.threads
    ensures ThreadFollows(s, InsertThread(s, account, item, contact), account, item, contact)
  {
  }

  lemma UpdatedThread(s: Server, account: AccountId, item: MessageItem, contact: Option<ContactId>)
    requires (account, item.jid) in s.threads
    ensures ThreadFollows(s, UpdateThread(s, account, item, contact), account, item, contact)
  {
  }

  lemma TouchedThread(s: Server, account: AccountId, item: MessageItem, contact: Option<ContactId>)
    ensures var r := TouchThread(s, account, item, contact);
            ThreadFollows(s, r, account, item, contact) && r.contacts == s.contacts && r.messages == s.messages
  {
    if (account, item.jid) in s.threads { UpdatedThread(s, account, item, contact); }
    else { InsertedThread(s, account, item, contact); }
  }

  /** Unread counts new live messages from the other side, and the preview is that of the latest message. */
  predicate PreviewFollows(t: Thread, u: Thread, item: MessageItem, isNew: bool, historical: bool) {
    && u.id == t.id && u.contact == t.contact && u.group == t.group && u.aiMode == t.aiMode
    && u.unread == t.unread + (if isNew && !item.fromMe && !historical then 1 else 0)
    && if t.lastAt.Some? && item.at < t.lastAt.value
       then u.lastAt == t.lastAt && u.preview == t.preview && u.title == t.title
       else && u.lastAt == Some(item.at) && Shows(item, u.preview)
            && u.title == (if HasName(item) then item.pushName.value else t.title)
  }

  /** A message without text is shown by its kind. */
  predicate Shows(item: MessageItem, preview: string) {
    if item.text != "" then preview == item.text
    else && (item.kind == Text <==> preview == "[text]") && (item.kind == Image <==> preview == "[image]")
         && (item.kind == Audio <==> preview == "[audio]") && (item.kind == Video <==> preview == "[video]")
         && (item.kind == Document <==> preview == "[document]") && (item.kind == System <==> preview == "[system]")
  }

  lemma TouchedPreview(t: Thread, item: MessageItem, isNew: bool, historical: bool)
    ensures PreviewFollows(t, TouchPreview(t, item, isNew, historical), item, isNew, historical)
  {
  }

  predicate SaysIn(x: Message, account: AccountId, item: MessageItem, t: Thread) {
    && x.account == account && x.waId == Some(item.wa) && x.content == item.text && x.kind == item.kind
    && x.outbound == item.fromMe && x.occurredAt == Some(item.at) && x.conversation == t.id
  }

  lemma PutRow(s: Server, account: AccountId, item: MessageItem, contact: Option<ContactId>, historical: bool)
    requires SInv(s) && (account, item.jid) in s.threads
    ensures var (known, key) := (FindMessage(s.messages, account, item.wa), (account, item.jid));
            var r := PutMessage(s, account, item, contact, known, historical);
            var id := if known.Some? then known.value else s.nextId;
            && id in r.messages && SaysIn(r.messages[id], account, item, s.threads[key]) && r.messages[id].contact == contact
            && KeepsItsPlace(s, r, id, known, item.fromMe)
            && (forall o :: o in s.messages && o != id ==> o in r.messages && r.messages[o] == s.messages[o])
  {
  }

  lemma PutThread(s: Server, account: AccountId, item: MessageItem, contact: Option<ContactId>, historical: bool)
    requires SInv(s) && (account, item.jid) in s.threads
    ensures var (known, key) := (FindMessage(s.messages, account, item.wa), (account, item.jid));
            var r := PutMessage(s, account, item, contact, known, historical);
            && r.threads.Keys == s.threads.Keys && r.contacts == s.contacts
            && PreviewFollows(s.threads[key], r.threads[key], item, known.None?, historical)
            && (forall o :: o in s.threads && o != key ==> r.threads[o] == s.threads[o])
  {
    TouchedPreview(s.threads[(account, item.jid)], item, FindMessage(s.messages, account, item.wa).None?, historical);
  }

  lemma OnlyOneNamed(messages: MessageDb, m: MessageId, account: AccountId, wa: WaId)
    requires UniqueWaIds(messages) && m in messages && Named(messages[m], account, wa)
    ensures FindMessage(messages, account, wa) == Some(m)
  {
    var found := FindMessage(messages, account, wa);
    assert SameWaId(messages[found.value], messages[m]);
  }

  /** An upsert leaves exactly one message under the item's name, which says what the item says; the others stay. */
  lemma StoresTheItem(s: Server, account: AccountId, item: MessageItem, historical: bool)
    requires SInv(s)
    ensures var (r, known) := (UpsertMessage(s, account, item, historical), FindMessage(s.messages, account, item.wa));
            var found := FindMessage(r.messages, account, item.wa);
            && found.Some? && Says(r, found.value, account, item)
            && KeepsItsPlace(s, r, found.value, known, item.fromMe)
            && (forall o :: o in s.messages && o != found.value ==> o in r.messages && r.messages[o] == s.messages[o])
  {
    UpsertKeeps(s, account, item, historical);
    var (s1, contact) := TouchContact(s, account, item, !historical);
    TouchedContact(s, account, item, !historical);
    var s2 := TouchThread(s1, account, item, contact);
    TouchedThread(s1, account, item, contact);
    var known := FindMessage(s2.messages, account, item.wa);
    var r := PutMessage(s2, account, item, contact, known, historical);
    PutRow(s2, account, item, contact, historical);
    PutThread(s2, account, item, contact, historical);
    OnlyOneNamed(r.messages, if known.Some? then known.value else s2.nextId, account, item.wa);
  }

  /** An accepted message.upsert ends with its message stored as it was delivered. */
  lemma AcceptedMessageIsStored(s: Server, env: Envelope)
    requires SInv(s) && env.payload.Upsert? && Process(s, env).1 == Accepted(false)
    ensures var r := Process(s, env).0; var found := FindMessage(r.messages, env.account, env.payload.item.wa);
            found.Some? && Says(r, found.value, env.account, env.payload.item)
  {
    var start := s.(events := s.events[Identity(env) := env]);
    StoresTheItem(start, env.account, env.payload.item, false);
  }

  // ---------------------------------------------------------------- the message after a whole run

  datatype Facts = Facts(text: string, kind: MessageKind, fromMe: bool, at: Option<Time>)

  function FactsOf(m: Message): Facts {
    Facts(m.content, m.kind, m.outbound, m.occurredAt)
  }

  function ItemTells(x: Facts, item: MessageItem, wa: WaId): Facts {
    if item.wa == wa then Facts(item.text, item.kind, item.fromMe, Some(item.at)) else x
  }

  function ItemsTell(x: Facts, items: seq<MessageItem>, wa: WaId): Facts {
    if items == [] then x else ItemTells(ItemsTell(x, items[..|items| - 1], wa), items[|items| - 1], wa)
  }

  /** What an accepted envelope says about the message with this name. */
  function Tells(x: Facts, env: Envelope, account: AccountId, wa: WaId): Facts {
    if env.account != account then x
    else match env.payload
      case Upsert(item) => ItemTells(x, item, wa)
      case History(items) => ItemsTell(x, items, wa)
      case _ => x
  }

  function TellAll(x: Facts, envs: seq<Envelope>, account: AccountId, wa: WaId): Facts
    decreases |envs|
  {
    if envs == [] then x else TellAll(Tells(x, envs[0], account, wa), envs[1..], account, wa)
  }

  lemma UpsertTells(s: Server, owner: AccountId, item: MessageItem, historical: bool, m: MessageId, account: AccountId,
                    wa: WaId)
    requires SInv(s) && IsMessage(s, m, account, wa)
    ensures var r := UpsertMessage(s, owner, item, historical);
            && IsMessage(r, m, account, wa)
            && FactsOf(r.messages[m]) == (if owner == account then ItemTells(FactsOf(s.messages[m]), item, wa)
                                          else FactsOf(s.messages[m]))
  {
    StoresTheItem(s, owner, item, historical);
    var known := FindMessage(s.messages, owner, item.wa);
    if owner == account && item.wa == wa { assert SameWaId(s.messages[m], s.messages[known.value]); }
  }

  lemma {:induction false} HistoryTells(s: Server, owner: AccountId, items: seq<MessageItem>, m: MessageId, account: AccountId,
                                        wa: WaId)
    requires SInv(s) && IsMessage(s, m, account, wa)
    ensures var r := UpsertAll(s, owner, items);
            && IsMessage(r, m, account, wa)
            && FactsOf(r.messages[m]) == (if owner == account then ItemsTell(FactsOf(s.messages[m]), items, wa)
                                          else FactsOf(s.messages[m]))
  {
    if items != [] {
      var (front, last) := (items[..|items| - 1], items[|items| - 1]);
      HistoryTells(s, owner, front, m, account, wa);
      UpsertAllKeeps(s, owner, front);
      UpsertTells(UpsertAll(s, owner, front), owner, last, true, m, account, wa);
    }
  }

  lemma ReceiptTellsNothing(s: Server, env: Envelope, m: MessageId, account: AccountId, wa: WaId)
    requires SInv(s) && env.payload.Receipt? && ApplyReceipt(s, env.account, env.payload).Ok?
    requires IsMessage(s, m, account, wa)
    ensures var r := ApplyReceipt(s, env.account, env.payload).value;
            IsMessage(r, m, account, wa) && FactsOf(r.messages[m]) == FactsOf(s.messages[m])
  {
  }

  lemma EffectTells(s: Server, env: Envelope, m: MessageId, account: AccountId, wa: WaId)
    requires SInv(s) && env.account in s.accounts && Effect(s, env).Ok? && IsMessage(s, m, account, wa)
    ensures var r := Effect(s, env).value;
            IsMessage(r, m, account, wa) && FactsOf(r.messages[m]) == Tells(FactsOf(s.messages[m]), env, account, wa)
  {
    match env.payload
    case Upsert(item) => UpsertTells(s, env.account, item, false, m, account, wa);
    case History(items) => HistoryTells(s, env.account, items, m, account, wa);
    case Receipt(_, _, _, _) => ReceiptTellsNothing(s, env, m, account, wa);
    case AccountChange(_, _, _) =>
  }

  lemma DeliverTells(s: Server, a: Attempt, m: MessageId, account: AccountId, wa: WaId)
    requires SInv(s) && IsMessage(s, m, account, wa)
    ensures var (after, answer) := Deliver(s, a);
            && IsMessage(after, m, account, wa)
            && FactsOf(after.messages[m]) == (if answer == Accepted(false)
                                              then Tells(FactsOf(s.messages[m]), a.env, account, wa)
                                              else FactsOf(s.messages[m]))
  {
    DeliverRecords(s, a);
    if Deliver(s, a).1 == Accepted(false) {
      EffectTells(s.(events := s.events[Identity(a.env) := a.env]), a.env, m, account, wa);
    }
  }

  /**
   Over every trace, with duplicates, refusals and aborted attempts, a stored message says what the last accepted
   upsert or history item under its name said.
   */
  lemma {:induction false} LastItemIsTold(s: Server, trace: seq<Attempt>, m: MessageId, account: AccountId, wa: WaId)
    requires SInv(s) && IsMessage(s, m, account, wa)
    ensures IsMessage(Run(s, trace), m, account, wa)
    ensures FactsOf(Run(s, trace).messages[m]) == TellAll(FactsOf(s.messages[m]), Firsts(s, trace), account, wa)
    decreases |trace|
  {
    if trace != [] {
      var (after, answer) := Deliver(s, trace[0]);
      DeliverTells(s, trace[0], m, account, wa);
      DeliverKeepsInv(s, trace[0]);
      LastItemIsTold(after, trace[1..], m, account, wa);
      if answer == Accepted(false) { assert Firsts(s, trace)[1..] == Firsts(after, trace[1..]); }
    }
  }

  // ---------------------------------------------------------------- conversations and contacts

  function UnreadOf(s: Server, key: (AccountId, Jid)): nat {
    if key in s.threads then s.threads[key].unread else 0
  }

  function LastOf(s: Server, key: (AccountId, Jid)): Option<Time> {
    if key in s.threads then s.threads[key].lastAt else None
  }

  /**
   An upsert counts a message from the other side as unread when it is new and live, shows it unless a later one
   is shown, and touches no other conversation or contact.
   */
  lemma ConversationFollows(s: Server, account: AccountId, item: MessageItem, historical: bool)
    requires SInv(s)
    ensures var (r, key) := (UpsertMessage(s, account, item, historical), (account, item.jid));
            var isNew := FindMessage(s.messages, account, item.wa).None?;
            && ContactFollows(s, r, account, item, !historical)
            && r.threads[key].unread == UnreadOf(s, key) + (if isNew && !item.fromMe && !historical then 1 else 0)
            && (if LastOf(s, key).Some? && item.at < LastOf(s, key).value
                then key in s.threads && r.threads[key].lastAt == s.threads[key].lastAt
                     && r.threads[key].preview == s.threads[key].preview
                else r.threads[key].lastAt == Some(item.at) && Shows(item, r.threads[key].preview))
            && r.threads[key].aiMode == (if key in s.threads then s.threads[key].aiMode else "off")
            && (forall o :: o in s.threads && o != key ==> o in r.threads && r.threads[o] == s.threads[o])
  {
    var (s1, contact) := TouchContact(s, account, item, !historical);
    TouchedContact(s, account, item, !historical);
    var s2 := TouchThread(s1, account, item, contact);
    TouchedThread(s1, account, item, contact);
    assert SInv(s2);
    PutThread(s2, account, item, contact, historical);
    assert UpsertMessage(s, account, item, historical)
        == PutMessage(s2, account, item, contact, FindMessage(s2.messages, account, item.wa), historical);
  }

  // ---------------------------------------------------------------- the reply a message asks for

  /** A person's message in a chat, and by an account, whose policies all allow an answer. */
  predicate AsksForReply(s: Server, account: AccountId, item: MessageItem)
    requires account in s.accounts && (account, item.jid) in s.threads
  {
    var (a, t) := (s.accounts[account], s.threads[(account, item.jid)]);
    && !item.fromMe && item.kind != System
    && a.enabled && a.status == Online && a.mode == "auto" && t.aiMode == "auto"
    && (t.contact.Some? && t.contact.value in s.overrides ==> s.overrides[t.contact.value])
  }

  /** A job answers the message, and one that was not there before is ready at once, with six attempts. */
  ghost predicate ReplyIsQueued(before: Q.JobDb, s: Server, account: AccountId, item: MessageItem, m: MessageId, now: Time) {
    && (account, item.jid) in s.threads
    && exists j :: j in s.jobs && AnswersFor(s.jobs[j], account, item, m, s.threads[(account, item.jid)])
                   && (j !in before ==> s.jobs[j].maxAttempts == 6 && forall t :: Q.Claimable(s.jobs, t, j) <==> now <= t)
  }

  /** It is for the message's conversation and contact, over its very text, with priority 10. */
  predicate AnswersFor(job: Q.Job, account: AccountId, item: MessageItem, m: MessageId, t: Thread) {
    && job.account == account && job.key == Q.AutoReply(account, item.wa, "auto")
    && job.request.conversation == Some(t.id) && job.request.contact == t.contact && job.request.parent == None
    && job.request.jobType == "auto_reply" && job.request.priority == 10
    && job.request.budgetTokens == 0 && job.request.budgetCost == 0
    && job.request.inputHash == ReplyDigest(m, account, item.text, "auto")
  }

  /** An accepted message has its reply queued if the policies ask for one; otherwise the queue is as it was. */
  lemma RepliesWhenAsked(s: Server, env: Envelope)
    requires SInv(s) && env.payload.Upsert? && Process(s, env).1 == Accepted(false)
    ensures var (r, item) := (Process(s, env).0, env.payload.item);
            && env.account in r.accounts && (env.account, item.jid) in r.threads
            && var found := FindMessage(r.messages, env.account, item.wa);
               && found.Some?
               && (if AsksForReply(r, env.account, item)
                   then ReplyIsQueued(s.jobs, r, env.account, item, found.value, env.occurredAt)
                   else r.jobs == s.jobs)
  {
    var (account, item) := (env.account, env.payload.item);
    var start := s.(events := s.events[Identity(env) := env]);
    StoresTheItem(start, account, item, false);
    UpsertKeeps(start, account, item, false);
    var stored := UpsertMessage(start, account, item, false);
    ReplyIsForTheMessage(stored, account, item, env.occurredAt);
  }

  lemma ReplyIsForTheMessage(s: Server, account: AccountId, item: MessageItem, now: Time)
    requires SInv(s) && account in s.accounts && (account, item.jid) in s.threads
    requires FindMessage(s.messages, account, item.wa).Some?
    requires Says(s, FindMessage(s.messages, account, item.wa).value, account, item)
    requires EnqueueReply(s, account, item, now).Ok?
    ensures var r := EnqueueReply(s, account, item, now).value;
            if AsksForReply(s, account, item)
            then ReplyIsQueued(s.jobs, r, account, item, FindMessage(s.messages, account, item.wa).value, now) else r == s
  {
    var (m, t) := (FindMessage(s.messages, account, item.wa).value, s.threads[(account, item.jid)]);
    if AsksForReply(s, account, item) {
      var args := ReplyRequest(account, s.accounts[account], t, m, s.messages[m], item.wa, now);
      var queued := Q.Enqueue(ReplyScope(account, t), s.jobs, s.jobs, args, s.nextId, now).value;
      assert queued.1 in queued.0 && AnswersFor(queued.0[queued.1], account, item, m, t);
      assert queued.1 !in s.jobs ==> queued.0[queued.1] == Q.NewJob(args, now);
    }
  }

  // ---------------------------------------------------------------- receipts and account status

  /** A receipt that is not outranked dates its own stage and no other, and a failure dates none. */
  lemma ReceiptDates(m: Message, t: ReceiptType, at: Time, error: Option<string>)
    ensures var r := MergeReceipt(m, t, at, error);
            && r == m.(status := r.status, errorCode := r.errorCode, sentAt := r.sentAt, deliveredAt := r.deliveredAt,
                       readAt := r.readAt)
            && r.sentAt == (if t == WasSent && m.status !in {Delivered, Read} then Some(at) else m.sentAt)
            && r.deliveredAt == (if t == WasDelivered && m.status != Read then Some(at) else m.deliveredAt)
            && r.readAt == (if t == WasRead then Some(at) else m.readAt)
            && (t == HasFailed && m.status !in {Sent, Delivered, Read} ==> r.errorCode == error)
            && (t == HasFailed && m.status in {Sent, Delivered, Read} ==> r == m)
  {
  }

  /** An account event that is not stale sets the status it stands for; only these fields ever change. */
  lemma AccountFollows(a: Account, env: Envelope)
    requires env.payload.AccountChange?
    ensures var (r, e) := (ChangeAccount(a, env), env.payload.event);
            && r.enabled == a.enabled && r.mode == a.mode
            && (env.sequence <= a.lastSequence ==> r == a)
            && (a.lastSequence < env.sequence ==>
                  && r.lastSequence == env.sequence
                  && (e == Qr <==> r.status == QrPending) && (e == Connecting <==> r.status == IsConnecting)
                  && (e == Connected <==> r.status == Online) && (e == Disconnected <==> r.status == Offline)
                  && (e == LoggedOut <==> r.status == IsLoggedOut) && (e == AccountError <==> r.status == InError)
                  && r.phone == (if e == Connected then env.payload.phone else a.phone)
                  && r.lastSeen == (if e == Connected then Some(env.occurredAt) else a.lastSeen)
                  && r.errorCode == (if e == Connected then None
                                     else if e == AccountError then env.payload.code else a.errorCode))
  {
  }
}
