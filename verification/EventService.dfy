/** The event service over its tables, rows changed in place and held to the functions of Events. */
module EventServiceModule {
  import opened Base
  import opened Messages
  import opened Events
  import opened EventProperties
  import L = EventLaws
  import Q = JobQueue
  import R = JobRepositoryModule
  import QP = JobProperties

  class WhatsAppEventService {
    var events: map<(AccountId, EventId), Envelope>
    var accounts: map<AccountId, Account>
    var contacts: map<(AccountId, Jid), Contact>
    var threads: map<(AccountId, Jid), Thread>
    var messages: MessageDb
    var overrides: map<ContactId, bool>
    const repository: R.AnalysisJobRepository
    var nextId: nat

    ghost function Tables(): Server
      reads this, repository
    {
      Server(events, accounts, contacts, threads, messages, overrides, repository.jobs, nextId)
    }

    constructor (s: Server)
      ensures Tables() == s && fresh(repository)
    {
      events, accounts, contacts, threads := s.events, s.accounts, s.contacts, s.threads;
      messages, overrides, nextId := s.messages, s.overrides, s.nextId;
      repository := new R.AnalysisJobRepository(s.jobs);
    }

    /** At most one row by the unique index on (account_id, wa_message_id). */
    method MessageNamed(account: AccountId, wa: WaId) returns (r: Option<MessageId>)
      requires UniqueWaIds(messages)
      ensures r == FindMessage(messages, account, wa)
    {
      var pool := messages.Keys;
      while pool != {}
        invariant pool <= messages.Keys
        invariant forall i :: i in messages && i !in pool ==> !Named(messages[i], account, wa)
        decreases |pool|
      {
        var i :| i in pool;
        if Named(messages[i], account, wa) {
          assert forall j :: j in messages && Named(messages[j], account, wa) ==> SameWaId(messages[i], messages[j]);
          return Some(i);
        }
        pool := pool - {i};
      }
      return None;
    }

    method ContactOf(account: AccountId, item: MessageItem, rename: bool) returns (contact: Option<ContactId>)
      modifies this
      ensures (Tables(), contact) == TouchContact(old(Tables()), account, item, rename)
    {
      var key := (account, item.jid);
      if item.group { return None; }
      if key !in contacts {
        contact := Some(nextId);
        contacts := contacts[key := Contact(nextId, item.pushName)];
        nextId := nextId + 1;
        return;
      }
      if rename && Truthy(item.pushName) {
        contacts := contacts[key := contacts[key].(name := item.pushName)];
      }
      contact := Some(contacts[key].id);
    }

    method ThreadOf(account: AccountId, item: MessageItem, contact: Option<ContactId>)
      modifies this
      ensures Tables() == TouchThread(old(Tables()), account, item, contact)
    {
      var key := (account, item.jid);
      if key in threads {
        threads := threads[key := threads[key].(contact := contact)];
        return;
      }
      var title := item.jid;
      if Truthy(item.pushName) { title := item.pushName.value; }
      threads := threads[key := Thread(nextId, contact, item.group, title, 0, None, "", "off")];
      nextId := nextId + 1;
    }

    method StoreRow(account: AccountId, item: MessageItem, contact: Option<ContactId>, historical: bool)
      requires UniqueWaIds(messages) && (account, item.jid) in threads
      modifies this
      ensures Tables() == PutMessage(old(Tables()), account, item, contact,
                                     FindMessage(old(messages), account, item.wa), historical)
    {
      var found := MessageNamed(account, item.wa);
      var key := (account, item.jid);
      var thread := threads[key];
      threads := threads[key := TouchPreview(thread, item, found.None?, historical)];
      if found.Some? {
        messages := messages[found.value := Rewritten(messages[found.value], item, thread.id, contact)];
      } else {
        messages := messages[nextId := NewMessage(account, item, thread.id, contact)];
        nextId := nextId + 1;
      }
    }

    method StoreMessage(account: AccountId, item: MessageItem, historical: bool)
      requires SInv(Tables())
      modifies this
      ensures Tables() == UpsertMessage(old(Tables()), account, item, historical)
      ensures SInv(Tables())
      ensures exists m :: L.Says(Tables(), m, account, item)
                          && L.KeepsItsPlace(old(Tables()), Tables(), m, FindMessage(old(messages), account, item.wa),
                                             item.fromMe)
    {
      L.StoresTheItem(Tables(), account, item, historical);
      UpsertKeeps(Tables(), account, item, historical);
      var contact := ContactOf(account, item, !historical);
      ThreadOf(account, item, contact);
      assert UniqueWaIds(Tables().messages);
      StoreRow(account, item, contact, historical);
    }

    static lemma UpsertNext(s: Server, account: AccountId, items: seq<MessageItem>, i: nat)
      requires i < |items|
      ensures UpsertAll(s, account, items[..i + 1])
           == UpsertMessage(UpsertAll(s, account, items[..i]), account, items[i], true)
    {
      assert items[..i + 1][..i] == items[..i] && items[..i + 1][i] == items[i];
    }

    /** history.messages.upsert: the items one after the other. */
    method StoreHistory(account: AccountId, items: seq<MessageItem>)
      requires SInv(Tables())
      modifies this
      ensures Tables() == UpsertAll(old(Tables()), account, items)
      ensures SInv(Tables())
    {
      ghost var start := Tables();
      var i := 0;
      assert items[..0] == [];
      while i < |items|
        invariant 0 <= i <= |items|
        invariant Tables() == UpsertAll(start, account, items[..i]) && SInv(Tables())
      {
        UpsertNext(start, account, items, i);
        StoreMessage(account, items[i], true);
        i := i + 1;
      }
      assert items[..i] == items;
    }

    method EnqueueForInbound(account: AccountId, item: MessageItem, now: Time) returns (error: Option<EventError>)
      requires SInv(Tables()) && account in accounts && (account, item.jid) in threads
      modifies this, repository
      ensures EnqueueReply(old(Tables()), account, item, now)
           == (if error.None? then Ok(Tables()) else Err(error.value))
      ensures error.None? ==> SInv(Tables())
    {
      ghost var before := Tables();
      error := EnqueueOrReport(account, item, now);
      if error.None? { EnqueueReplyKeeps(before, account, item, now); }
    }

    method EnqueueOrReport(account: AccountId, item: MessageItem, now: Time) returns (error: Option<EventError>)
      requires UniqueWaIds(messages) && QP.Inv(repository.jobs) && nextId !in repository.jobs
      requires account in accounts && (account, item.jid) in threads
      modifies this, repository
      ensures EnqueueReply(old(Tables()), account, item, now)
           == (if error.None? then Ok(Tables()) else Err(error.value))
    {
      var found := MessageNamed(account, item.wa);
      if found.None? { return None; }
      var wants := Decide(account, threads[(account, item.jid)], found.value);
      if !wants { return None; }
      error := EnqueueFor(account, threads[(account, item.jid)], found.value, item.wa, now);
    }

    /** enqueue_for_inbound_message up to its decision. */
    method Decide(account: AccountId, t: Thread, message: MessageId) returns (wants: bool)
      requires account in accounts && message in messages
      ensures wants <==> WantsReply(Tables(), account, t, messages[message])
    {
      if messages[message].outbound || messages[message].kind.System? { return false; }
      var contactEnabled: Option<bool> := None;
      if t.contact.Some? && t.contact.value in overrides { contactEnabled := Some(overrides[t.contact.value]); }
      return AutoReplyAllowed(accounts[account], t, contactEnabled);
    }

    method EnqueueFor(account: AccountId, t: Thread, message: MessageId, wa: WaId, now: Time)
      returns (error: Option<EventError>)
      requires account in accounts && message in messages && QP.Inv(repository.jobs) && nextId !in repository.jobs
      modifies this, repository
      ensures var args := ReplyRequest(account, old(accounts)[account], t, message, old(messages)[message], wa, now);
              var r := Q.Enqueue(ReplyScope(account, t), old(repository.jobs), old(repository.jobs), args, old(nextId), now);
              && (error == if r.Ok? then None else Some(JobRefused(r.error)))
              && (r.Ok? ==> Tables() == old(Tables()).(jobs := r.value.0, nextId := old(nextId) + 1))
    {
      var args := ReplyRequest(account, accounts[account], t, message, messages[message], wa, now);
      var r := repository.Enqueue(ReplyScope(account, t), args, nextId, now);
      if r.Err? { return Some(JobRefused(r.error)); }
      nextId := nextId + 1;
      return None;
    }

    method StoreReceipt(account: AccountId, p: Payload) returns (error: Option<EventError>)
      requires SInv(Tables()) && p.Receipt?
      modifies this
      ensures ApplyReceipt(old(Tables()), account, p) == (if error.None? then Ok(Tables()) else Err(error.value))
      ensures error.Some? ==> Tables() == old(Tables())
    {
      var found := MessageNamed(account, p.wa);
      if found.None? { return Some(MessageNotFound); }
      messages := messages[found.value := MergeReceipt(messages[found.value], p.receipt, p.at, p.error)];
      return None;
    }

    method StoreAccountChange(env: Envelope)
      requires env.payload.AccountChange? && env.account in accounts
      modifies this
      ensures env.sequence <= old(accounts)[env.account].lastSequence ==> Tables() == old(Tables())
      ensures old(accounts)[env.account].lastSequence < env.sequence ==>
                env.account in accounts && accounts[env.account].lastSequence == env.sequence
                && accounts[env.account].status == StatusOf(env.payload.event)
      ensures forall a :: a in accounts && a != env.account ==> a in old(accounts) && accounts[a] == old(accounts)[a]
      ensures var before := old(Tables());
              Tables() == before.(accounts := before.accounts[env.account := ChangeAccount(before.accounts[env.account], env)])
    {
      var a := accounts[env.account];
      if env.sequence <= a.lastSequence { return; }
      a := a.(status := StatusOf(env.payload.event), lastSequence := env.sequence);
      if env.payload.event.Connected? {
        a := a.(phone := env.payload.phone, lastSeen := Some(env.occurredAt), errorCode := None);
      } else if env.payload.event.AccountError? {
        a := a.(errorCode := env.payload.code);
      }
      accounts := accounts[env.account := a];
    }

    /** The message is stored as delivered, and its reply is queued if the policies ask for one. */
    static ghost predicate Answered(before: Server, after: Server, env: Envelope)
      requires env.payload.Upsert?
    {
      var (account, item) := (env.account, env.payload.item);
      && account in after.accounts && (account, item.jid) in after.threads
      && exists m :: L.Says(after, m, account, item)
                     && if L.AsksForReply(after, account, item)
                        then L.ReplyIsQueued(before.jobs, after, account, item, m, env.occurredAt)
                        else after.jobs == before.jobs
    }

    /** The body of `process`: after an error the tables are whatever had been written when it was raised. */
    method Handle(env: Envelope) returns (answer: Answer)
      requires SInv(Tables())
      modifies this, repository
      ensures answer == Process(old(Tables()), env).1
      ensures answer.Accepted? ==> Tables() == Process(old(Tables()), env).0 && SInv(Tables())
      ensures answer == Accepted(false) && env.payload.Upsert? ==> Answered(old(Tables()), Tables(), env)
    {
      var key := Identity(env);
      if key in events {
        if events[key] != env { return Refused(IdentityConflict); }
        return Accepted(true);
      }
      if env.account !in accounts { return Refused(AccountNotFound); }
      ghost var before := Tables();
      events := events[key := env];
      ghost var s := Tables();
      if Effect(s, env).Ok? { EffectKeeps(s, env); }
      var error: Option<EventError> := None;
      match env.payload {
        case Upsert(item) =>
          StoreMessage(env.account, item, false);
          error := EnqueueForInbound(env.account, item, env.occurredAt);
        case History(items) => StoreHistory(env.account, items);
        case Receipt(_, _, _, _) => error := StoreReceipt(env.account, env.payload);
        case AccountChange(_, _, _) => StoreAccountChange(env);
      }
      if error.Some? { return Refused(error.value); }
      if env.payload.Upsert? {
        L.AcceptedMessageIsStored(before, env);
        L.RepliesWhenAsked(before, env);
      }
      return Accepted(false);
    }

    /** The endpoint's transaction: commit what `Handle` did, or roll every table back. */
    method Receive(a: Attempt) returns (answer: Answer)
      requires SInv(Tables())
      modifies this, repository
      ensures (Tables(), answer) == Deliver(old(Tables()), a)
      ensures SInv(Tables())
    {
      if a.dies { return Aborted; }
      var jobs := repository.jobs;
      var (es, acs, cs, ts) := (events, accounts, contacts, threads);
      var (ms, os, n) := (messages, overrides, nextId);
      answer := Handle(a.env);
      if answer.Refused? {
        repository.jobs := jobs;
        events, accounts, contacts, threads := es, acs, cs, ts;
        messages, overrides, nextId := ms, os, n;
      }
    }
  }
}
