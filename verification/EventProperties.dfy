/** Effectively-once delivery, and the convergence of receipts and account status. */
module EventProperties {
  import opened Base
  import opened Messages
  import opened Events
  import Q = JobQueue
  import QP = JobProperties

  // ---------------------------------------------------------------- effectively once

  /** The envelopes whose attempt was accepted as new, in order. */
  ghost function Firsts(s: Server, trace: seq<Attempt>): seq<Envelope>
    decreases |trace|
  {
    if trace == [] then []
    else
      var (after, answer) := Deliver(s, trace[0]);
      if answer == Accepted(false) then [trace[0].env] + Firsts(after, trace[1..]) else Firsts(after, trace[1..])
  }

  /** Processing each envelope once, without any table of seen events being consulted. */
  ghost function Once(s: Server, env: Envelope): Server {
    if env.account !in s.accounts then s
    else
      var r := Effect(s.(events := s.events[Identity(env) := env]), env);
      if r.Ok? then r.value else s
  }

  ghost function Fold(s: Server, envs: seq<Envelope>): Server
    decreases |envs|
  {
    if envs == [] then s else Fold(Once(s, envs[0]), envs[1..])
  }

  lemma {:induction false} UpsertAllFrame(s: Server, account: AccountId, items: seq<MessageItem>)
    ensures var r := UpsertAll(s, account, items);
            r.accounts == s.accounts && r.events == s.events && r.jobs == s.jobs && r.overrides == s.overrides
  {
    if items != [] { UpsertAllFrame(s, account, items[..|items| - 1]); }
  }

  /** An effect records exactly its own envelope, and neither adds nor drops accounts. */
  lemma EffectFrame(s: Server, env: Envelope)
    requires env.account in s.accounts && Effect(s, env).Ok?
    ensures Effect(s, env).value.events == s.events && Effect(s, env).value.accounts.Keys == s.accounts.Keys
  {
    if env.payload.History? { UpsertAllFrame(s, env.account, env.payload.items); }
  }

  lemma DeliverRecords(s: Server, a: Attempt)
    ensures var (after, answer) := Deliver(s, a);
            && after.accounts.Keys == s.accounts.Keys
            && after.events == (if answer == Accepted(false) then s.events[Identity(a.env) := a.env] else s.events)
            && (answer == Accepted(false) ==> Identity(a.env) !in s.events && after == Once(s, a.env))
            && (answer != Accepted(false) ==> after == s)
  {
    if !a.dies && Identity(a.env) !in s.events && a.env.account in s.accounts {
      var recorded := s.(events := s.events[Identity(a.env) := a.env]);
      if Effect(recorded, a.env).Ok? { EffectFrame(recorded, a.env); }
    }
  }

  /**
   Whatever duplicates, reorderings, refusals and aborted attempts a trace contains, the server ends in the
   state of processing once each envelope that was first accepted.
   */
  lemma {:induction false} EffectivelyOnce(s: Server, trace: seq<Attempt>)
    ensures Run(s, trace) == Fold(s, Firsts(s, trace))
    decreases |trace|
  {
    if trace != [] {
      var (after, answer) := Deliver(s, trace[0]);
      DeliverRecords(s, trace[0]);
      EffectivelyOnce(after, trace[1..]);
      if answer == Accepted(false) {
        assert Firsts(s, trace)[1..] == Firsts(after, trace[1..]);
      }
    }
  }

  /** Recorded identities stay recorded, and nothing already recorded is accepted as new. */
  lemma {:induction false} FirstsAreNew(s: Server, trace: seq<Attempt>)
    ensures forall e :: e in Firsts(s, trace) ==> Identity(e) !in s.events
    ensures forall i, j :: 0 <= i < j < |Firsts(s, trace)| ==>
              Identity(Firsts(s, trace)[i]) != Identity(Firsts(s, trace)[j])
    ensures forall k :: k in s.events ==> k in Run(s, trace).events && Run(s, trace).events[k] == s.events[k]
    ensures forall e :: e in Firsts(s, trace) ==>
              Identity(e) in Run(s, trace).events && Run(s, trace).events[Identity(e)] == e
    ensures Run(s, trace).accounts.Keys == s.accounts.Keys
    decreases |trace|
  {
    if trace != [] {
      var (after, answer) := Deliver(s, trace[0]);
      DeliverRecords(s, trace[0]);
      FirstsAreNew(after, trace[1..]);
      var rest := Firsts(after, trace[1..]);
      if answer == Accepted(false) {
        assert Firsts(s, trace) == [trace[0].env] + rest;
        assert forall j :: 0 <= j < |rest| ==> rest[j] in rest;
      } else {
        assert Firsts(s, trace) == rest;
      }
    }
  }

  /** Delivered again after any further traffic, an accepted envelope is a duplicate and changes nothing. */
  lemma RedeliveryIsDuplicate(s: Server, before: Attempt, trace: seq<Attempt>)
    requires Deliver(s, before).1.Accepted?
    ensures var later := Run(Deliver(s, before).0, trace);
            Process(later, before.env) == (later, Accepted(true))
  {
    DeliverRecords(s, before);
    FirstsAreNew(Deliver(s, before).0, trace);
  }

  /** An envelope that reuses an accepted identity with other contents is refused and changes nothing. */
  lemma ConflictIsRefused(s: Server, before: Attempt, trace: seq<Attempt>, other: Envelope)
    requires Deliver(s, before).1.Accepted?
    requires Identity(other) == Identity(before.env) && other != before.env
    ensures var later := Run(Deliver(s, before).0, trace);
            Process(later, other) == (later, Refused(IdentityConflict))
  {
    DeliverRecords(s, before);
    FirstsAreNew(Deliver(s, before).0, trace);
  }

  // ---------------------------------------------------------------- the server invariant

  /** Platform ids are unique per account, the job table is sound, and names beyond the counter are free. */
  ghost predicate SInv(s: Server) {
    && UniqueWaIds(s.messages)
    && QP.Inv(s.jobs)
    && (forall m :: m in s.messages ==> m < s.nextId)
    && (forall j :: j in s.jobs ==> j < s.nextId)
  }

  predicate IsMessage(s: Server, m: MessageId, account: AccountId, wa: WaId) {
    m in s.messages && Named(s.messages[m], account, wa)
  }

  predicate KeepsRow(s: Server, r: Server, m: MessageId)
    requires m in s.messages
  {
    && m in r.messages && r.messages[m].status == s.messages[m].status
    && r.messages[m].waId == s.messages[m].waId && r.messages[m].account == s.messages[m].account
  }

  ghost predicate KeepsMessages(s: Server, r: Server) {
    forall m :: m in s.messages ==> KeepsRow(s, r, m)
  }

  /** Rewriting or adding one message keeps names unique, and leaves the names and statuses of the others alone. */
  lemma UpsertKeeps(s: Server, account: AccountId, item: MessageItem, historical: bool)
    requires SInv(s)
    ensures SInv(UpsertMessage(s, account, item, historical))
    ensures KeepsMessages(s, UpsertMessage(s, account, item, historical))
  {
    var (s1, contact) := TouchContact(s, account, item, !historical);
    var s2 := TouchThread(s1, account, item, contact);
    assert s2.messages == s.messages && s.nextId <= s2.nextId;
    PutKeeps(s2, account, item, contact, FindMessage(s2.messages, account, item.wa), historical);
  }

  lemma PutKeeps(s: Server, account: AccountId, item: MessageItem, contact: Option<ContactId>,
                 found: Option<MessageId>, historical: bool)
    requires SInv(s) && (account, item.jid) in s.threads
    requires found == FindMessage(s.messages, account, item.wa)
    ensures SInv(PutMessage(s, account, item, contact, found, historical))
    ensures KeepsMessages(s, PutMessage(s, account, item, contact, found, historical))
  {
  }

  lemma {:induction false} UpsertAllKeeps(s: Server, account: AccountId, items: seq<MessageItem>)
    requires SInv(s)
    ensures SInv(UpsertAll(s, account, items))
    ensures KeepsMessages(s, UpsertAll(s, account, items))
  {
    if items != [] {
      var front := items[..|items| - 1];
      UpsertAllKeeps(s, account, front);
      UpsertKeeps(UpsertAll(s, account, front), account, items[|items| - 1], true);
    }
  }

  lemma EnqueuedKeeps(s: Server, scope: Q.Directory, args: Q.EnqueueArgs, now: Time)
    requires SInv(s) && Q.Enqueue(scope, s.jobs, s.jobs, args, s.nextId, now).Ok?
    ensures SInv(s.(jobs := Q.Enqueue(scope, s.jobs, s.jobs, args, s.nextId, now).value.0, nextId := s.nextId + 1))
  {
    QP.StepKeepsInv(s.jobs, Q.EnqueueStep(scope, s.jobs, args, s.nextId, now));
  }

  lemma EnqueueReplyKeeps(s: Server, account: AccountId, item: MessageItem, now: Time)
    requires SInv(s) && account in s.accounts && (account, item.jid) in s.threads
    requires EnqueueReply(s, account, item, now).Ok?
    ensures SInv(EnqueueReply(s, account, item, now).value)
    ensures EnqueueReply(s, account, item, now).value.messages == s.messages
    ensures EnqueueReply(s, account, item, now).value.accounts == s.accounts
  {
    var found := FindMessage(s.messages, account, item.wa);
    var t := s.threads[(account, item.jid)];
    if found.Some? && WantsReply(s, account, t, s.messages[found.value]) {
      var args := ReplyRequest(account, s.accounts[account], t, found.value, s.messages[found.value], item.wa, now);
      EnqueuedKeeps(s, ReplyScope(account, t), args, now);
    }
  }

  /** The status a receipt event gives to the message it names. */
  function Settle(x: MessageStatus, env: Envelope, account: AccountId, wa: WaId): MessageStatus {
    if env.account == account && env.payload.Receipt? && env.payload.wa == wa
    then Join(x, Target(env.payload.receipt)) else x
  }

  lemma ReceiptEffect(s: Server, env: Envelope, m: MessageId, account: AccountId, wa: WaId)
    requires SInv(s) && env.payload.Receipt? && ApplyReceipt(s, env.account, env.payload).Ok?
    requires IsMessage(s, m, account, wa)
    ensures var r := ApplyReceipt(s, env.account, env.payload).value;
            && SInv(r) && IsMessage(r, m, account, wa) && r.accounts == s.accounts
            && r.messages[m].status == Settle(s.messages[m].status, env, account, wa)
  {
  }

  lemma UpsertEffect(s: Server, env: Envelope)
    requires SInv(s) && env.account in s.accounts && env.payload.Upsert? && Effect(s, env).Ok?
    ensures SInv(Effect(s, env).value) && KeepsMessages(s, Effect(s, env).value)
  {
    UpsertKeeps(s, env.account, env.payload.item, false);
    EnqueueReplyKeeps(UpsertMessage(s, env.account, env.payload.item, false), env.account, env.payload.item, env.occurredAt);
  }

  /** Every effect but a receipt's keeps the names and statuses of existing messages; all keep the invariant. */
  lemma EffectKeeps(s: Server, env: Envelope)
    requires SInv(s) && env.account in s.accounts && Effect(s, env).Ok?
    ensures SInv(Effect(s, env).value)
    ensures !env.payload.Receipt? ==> KeepsMessages(s, Effect(s, env).value)
  {
    match env.payload
    case Upsert(_) => UpsertEffect(s, env);
    case History(items) => UpsertAllKeeps(s, env.account, items);
    case Receipt(wa, _, _, _) =>
      var found := FindMessage(s.messages, env.account, wa);
      ReceiptEffect(s, env, found.value, env.account, wa);
    case AccountChange(_, _, _) =>
  }

  lemma OnceKeepsInv(s: Server, env: Envelope)
    requires SInv(s)
    ensures SInv(Once(s, env))
  {
    if env.account in s.accounts {
      var start := s.(events := s.events[Identity(env) := env]);
      if Effect(start, env).Ok? { EffectKeeps(start, env); }
    }
  }

  /** One event's effect on an existing message: only a receipt for it moves its status, by a join. */
  lemma OnceOnMessage(s: Server, env: Envelope, m: MessageId, account: AccountId, wa: WaId)
    requires SInv(s) && account in s.accounts && IsMessage(s, m, account, wa)
    ensures IsMessage(Once(s, env), m, account, wa) && account in Once(s, env).accounts
    ensures Once(s, env).messages[m].status == Settle(s.messages[m].status, env, account, wa)
  {
    if env.account in s.accounts {
      var start := s.(events := s.events[Identity(env) := env]);
      if Effect(start, env).Ok? {
        EffectFrame(start, env);
        if env.payload.Receipt? {
          ReceiptEffect(start, env, m, account, wa);
        } else {
          EffectKeeps(start, env);
          assert KeepsRow(start, Effect(start, env).value, m);
        }
      }
    }
  }

  // ---------------------------------------------------------------- receipt confluence

  function Settled(x: MessageStatus, envs: seq<Envelope>, account: AccountId, wa: WaId): MessageStatus
    decreases |envs|
  {
    if envs == [] then x else Settled(Settle(x, envs[0], account, wa), envs[1..], account, wa)
  }

  lemma {:induction false} FoldSettles(s: Server, envs: seq<Envelope>, m: MessageId, account: AccountId, wa: WaId)
    requires SInv(s) && account in s.accounts && IsMessage(s, m, account, wa)
    ensures IsMessage(Fold(s, envs), m, account, wa)
    ensures Fold(s, envs).messages[m].status == Settled(s.messages[m].status, envs, account, wa)
    decreases |envs|
  {
    if envs != [] {
      OnceOnMessage(s, envs[0], m, account, wa);
      OnceKeepsInv(s, envs[0]);
      FoldSettles(Once(s, envs[0]), envs[1..], m, account, wa);
    }
  }

  predicate IsReceiptFor(env: Envelope, account: AccountId, wa: WaId) {
    env.account == account && env.payload.Receipt? && env.payload.wa == wa
  }

  /** The fold is the join: an upper bound of where it began and of every receipt, and one of them. */
  lemma {:induction false} SettledIsJoin(x: MessageStatus, envs: seq<Envelope>, account: AccountId, wa: WaId)
    ensures var r := Settled(x, envs, account, wa);
            && Level(x) <= Level(r)
            && (forall e :: e in envs && IsReceiptFor(e, account, wa) ==> Level(Target(e.payload.receipt)) <= Level(r))
            && (r == x || exists e :: e in envs && IsReceiptFor(e, account, wa) && r == Target(e.payload.receipt))
    decreases |envs|
  {
    if envs != [] {
      var y := Settle(x, envs[0], account, wa);
      SettledIsJoin(y, envs[1..], account, wa);
      var r := Settled(x, envs, account, wa);
      assert forall e :: e in envs <==> e == envs[0] || e in envs[1..];
      if r != x && r != y {
        var e :| e in envs[1..] && IsReceiptFor(e, account, wa) && r == Target(e.payload.receipt);
        assert e in envs;
      } else if r == y && y != x {
        assert envs[0] in envs && IsReceiptFor(envs[0], account, wa);
      }
    }
  }

  /** Hence the final status depends on which receipts came, not on their order or number. */
  lemma ReceiptConfluence(x: MessageStatus, xs: seq<Envelope>, ys: seq<Envelope>, account: AccountId, wa: WaId)
    requires forall e :: IsReceiptFor(e, account, wa) ==> (e in xs <==> e in ys)
    ensures Settled(x, xs, account, wa) == Settled(x, ys, account, wa)
  {
    SettledIsJoin(x, xs, account, wa);
    SettledIsJoin(x, ys, account, wa);
  }

  /** The same for whole traces: duplicates, aborted attempts and any other traffic in between do not matter. */
  lemma TracesSettleAlike(s: Server, t1: seq<Attempt>, t2: seq<Attempt>, m: MessageId, account: AccountId, wa: WaId)
    requires SInv(s) && account in s.accounts && IsMessage(s, m, account, wa)
    requires forall e :: IsReceiptFor(e, account, wa) ==> (e in Firsts(s, t1) <==> e in Firsts(s, t2))
    ensures IsMessage(Run(s, t1), m, account, wa) && IsMessage(Run(s, t2), m, account, wa)
    ensures Run(s, t1).messages[m].status == Run(s, t2).messages[m].status
  {
    EffectivelyOnce(s, t1);
    EffectivelyOnce(s, t2);
    FoldSettles(s, Firsts(s, t1), m, account, wa);
    FoldSettles(s, Firsts(s, t2), m, account, wa);
    ReceiptConfluence(s.messages[m].status, Firsts(s, t1), Firsts(s, t2), account, wa);
  }

  // ---------------------------------------------------------------- account status convergence

  predicate IsChangeOf(env: Envelope, account: AccountId) {
    env.account == account && env.payload.AccountChange?
  }

  function Changed(a: Account, env: Envelope, account: AccountId): Account {
    if IsChangeOf(env, account) then ChangeAccount(a, env) else a
  }

  function ChangedAll(a: Account, envs: seq<Envelope>, account: AccountId): Account
    decreases |envs|
  {
    if envs == [] then a else ChangedAll(Changed(a, envs[0], account), envs[1..], account)
  }

  lemma OnceOnAccount(s: Server, env: Envelope, account: AccountId)
    requires account in s.accounts
    ensures account in Once(s, env).accounts
    ensures Once(s, env).accounts[account] == Changed(s.accounts[account], env, account)
  {
    var start := s.(events := s.events[Identity(env) := env]);
    if env.account in s.accounts && Effect(start, env).Ok? { EffectOnAccounts(start, env); }
  }

  lemma EffectOnAccounts(s: Server, env: Envelope)
    requires env.account in s.accounts && Effect(s, env).Ok?
    ensures Effect(s, env).value.accounts ==
              if env.payload.AccountChange? then s.accounts[env.account := ChangeAccount(s.accounts[env.account], env)]
              else s.accounts
  {
    if env.payload.History? { UpsertAllFrame(s, env.account, env.payload.items); }
  }

  lemma {:induction false} FoldChanges(s: Server, envs: seq<Envelope>, account: AccountId)
    requires account in s.accounts
    ensures account in Fold(s, envs).accounts
    ensures Fold(s, envs).accounts[account] == ChangedAll(s.accounts[account], envs, account)
    decreases |envs|
  {
    if envs != [] {
      OnceOnAccount(s, envs[0], account);
      FoldChanges(Once(s, envs[0]), envs[1..], account);
    }
  }

  predicate SetBy(r: Account, env: Envelope, account: AccountId) {
    IsChangeOf(env, account) && env.sequence == r.lastSequence && StatusOf(env.payload.event) == r.status
  }

  /** The greatest sequence wins, whatever the order; sequences at or below the stored one never act. */
  lemma {:induction false} LatestWins(a: Account, envs: seq<Envelope>, account: AccountId)
    ensures var r := ChangedAll(a, envs, account);
            && a.lastSequence <= r.lastSequence
            && (forall e :: e in envs && IsChangeOf(e, account) ==> e.sequence <= r.lastSequence)
            && if r.lastSequence == a.lastSequence then r.status == a.status
               else exists e :: e in envs && SetBy(r, e, account)
    decreases |envs|
  {
    if envs != [] {
      var b := Changed(a, envs[0], account);
      LatestWins(b, envs[1..], account);
      var r := ChangedAll(a, envs, account);
      assert forall e :: e in envs <==> e == envs[0] || e in envs[1..];
      if b.lastSequence < r.lastSequence {
        var e :| e in envs[1..] && SetBy(r, e, account);
        assert e in envs;
      } else if a.lastSequence < b.lastSequence {
        assert envs[0] in envs && SetBy(r, envs[0], account);
      }
    }
  }

  predicate SameMoment(e: Envelope, f: Envelope, account: AccountId) {
    IsChangeOf(e, account) && IsChangeOf(f, account) && e.sequence == f.sequence
  }

  /** The final status and sequence depend on which account events came, not on their order or number. */
  lemma StatusConverges(a: Account, xs: seq<Envelope>, ys: seq<Envelope>, account: AccountId)
    requires forall e :: IsChangeOf(e, account) ==> (e in xs <==> e in ys)
    requires forall e, f :: e in xs && f in xs && SameMoment(e, f, account) ==> e == f
    ensures ChangedAll(a, xs, account).lastSequence == ChangedAll(a, ys, account).lastSequence
    ensures ChangedAll(a, xs, account).status == ChangedAll(a, ys, account).status
  {
    LatestWins(a, xs, account);
    LatestWins(a, ys, account);
    var x, y := ChangedAll(a, xs, account), ChangedAll(a, ys, account);
    if x.lastSequence != a.lastSequence {
      var e :| e in xs && SetBy(x, e, account);
      assert e in ys;
    }
    if y.lastSequence != a.lastSequence {
      var f :| f in ys && SetBy(y, f, account);
      assert f in xs;
    }
  }

  /** Two traces that accept the same account events, with distinct sequences, leave the same status and sequence. */
  lemma TracesAgreeOnStatus(s: Server, t1: seq<Attempt>, t2: seq<Attempt>, account: AccountId)
    requires account in s.accounts
    requires forall e :: IsChangeOf(e, account) ==> (e in Firsts(s, t1) <==> e in Firsts(s, t2))
    requires forall e, f :: e in Firsts(s, t1) && f in Firsts(s, t1) && SameMoment(e, f, account) ==> e == f
    ensures account in Run(s, t1).accounts && account in Run(s, t2).accounts
    ensures Run(s, t1).accounts[account].status == Run(s, t2).accounts[account].status
    ensures Run(s, t1).accounts[account].lastSequence == Run(s, t2).accounts[account].lastSequence
    ensures s.accounts[account].lastSequence <= Run(s, t1).accounts[account].lastSequence
  {
    EffectivelyOnce(s, t1);
    EffectivelyOnce(s, t2);
    FoldChanges(s, Firsts(s, t1), account);
    FoldChanges(s, Firsts(s, t2), account);
    LatestWins(s.accounts[account], Firsts(s, t1), account);
    StatusConverges(s.accounts[account], Firsts(s, t1), Firsts(s, t2), account);
  }

  // ---------------------------------------------------------------- one job per inbound message

  lemma DeliverKeepsInv(s: Server, a: Attempt)
    requires SInv(s)
    ensures SInv(Deliver(s, a).0)
  {
    DeliverRecords(s, a);
    OnceKeepsInv(s, a.env);
  }

  lemma {:induction false} RunKeepsInv(s: Server, trace: seq<Attempt>)
    requires SInv(s)
    ensures SInv(Run(s, trace))
    decreases |trace|
  {
    if trace != [] {
      DeliverKeepsInv(s, trace[0]);
      RunKeepsInv(Deliver(s, trace[0]).0, trace[1..]);
    }
  }

  /** However often and however reordered a message is delivered, it has at most one auto-reply job per mode. */
  lemma OneReplyJobPerMessage(s: Server, trace: seq<Attempt>, i: JobId, j: JobId)
    requires SInv(s)
    requires i in Run(s, trace).jobs && j in Run(s, trace).jobs
    requires var x, y := Run(s, trace).jobs[i], Run(s, trace).jobs[j];
             x.key.AutoReply? && x.account == y.account && x.key == y.key
    ensures i == j
  {
    RunKeepsInv(s, trace);
    var jobs := Run(s, trace).jobs;
    assert Q.HasKey(jobs[i], jobs[j].account, jobs[j].key);
  }
}
