/**
 The endpoint with a session that has read the tables before other transactions committed: it decides between
 insert and update by what it saw, and an insert that a unique index refuses rolls it back and starts it over.
 */
module EventRaces {
  import opened Base
  import opened Messages
  import opened Events
  import opened EventProperties
  import Q = JobQueue
  import QP = JobProperties

  // ---------------------------------------------------------------- what a session saw

  /** The rows a session can find: committed when it read, or inserted by itself. */
  datatype View = View(contacts: set<(AccountId, Jid)>, threads: set<(AccountId, Jid)>, messages: MessageDb)

  function Reads(seen: Server): View {
    View(seen.contacts.Keys, seen.threads.Keys, seen.messages)
  }

  predicate SameName(x: Message, y: Message) {
    x.account == y.account && x.waId == y.waId
  }

  predicate KeepsNames(before: MessageDb, after: MessageDb) {
    forall m :: m in before ==> m in after && SameName(before[m], after[m])
  }

  /** Recorded events stay, and new ones are of known accounts. */
  predicate KeepsEvents(before: map<(AccountId, EventId), Envelope>, after: map<(AccountId, EventId), Envelope>,
                        accounts: set<AccountId>)
  {
    && (forall k :: k in before ==> k in after && after[k] == before[k])
    && (forall k :: k in after && k !in before ==> k.0 in accounts)
  }

  predicate Within(v: View, s: Server) {
    v.contacts <= s.contacts.Keys && v.threads <= s.threads.Keys && KeepsNames(v.messages, s.messages)
  }

  /** Keys are never lost, and nothing that a unique index names is renamed. */
  predicate Grown(seen: Server, now: Server) {
    && now.accounts.Keys == seen.accounts.Keys && KeepsEvents(seen.events, now.events, now.accounts.Keys)
    && Within(Reads(seen), now) && QP.KeepsIdentities(seen.jobs, now.jobs)
  }

  // ---------------------------------------------------------------- the racing session

  function StageContact(v: View, s: Server, account: AccountId, item: MessageItem, rename: bool)
    : (r: (Server, Option<ContactId>))
    requires Within(v, s)
    ensures SameTables(s, r.0) && r.0.messages == s.messages && r.0.threads == s.threads
  {
    if item.group then (s, None)
    else if (account, item.jid) !in v.contacts then InsertContact(s, account, item)
    else UpdateContact(s, account, item, rename)
  }

  function StageThread(v: View, s: Server, account: AccountId, item: MessageItem, contact: Option<ContactId>): (r: Server)
    requires v.threads <= s.threads.Keys
    ensures SameTables(s, r) && r.messages == s.messages && (account, item.jid) in r.threads
  {
    if (account, item.jid) !in v.threads then InsertThread(s, account, item, contact)
    else UpdateThread(s, account, item, contact)
  }

  /** The session is about to insert a row under a key that somebody else has committed. */
  ghost predicate Collides(v: View, s: Server, account: AccountId, item: MessageItem) {
    || (!item.group && (account, item.jid) !in v.contacts && (account, item.jid) in s.contacts)
    || ((account, item.jid) !in v.threads && (account, item.jid) in s.threads)
    || (FindMessage(v.messages, account, item.wa).None? && FindMessage(s.messages, account, item.wa).Some?)
  }

  /** The session finds what it has written itself. */
  function Widened(v: View, account: AccountId, item: MessageItem, messages: MessageDb): View {
    var key := {(account, item.jid)};
    View(if item.group then v.contacts else v.contacts + key, v.threads + key, messages)
  }

  /** _upsert_message as that session carries it out; None when an insert is refused. */
  ghost function StageMessage(v: View, s: Server, account: AccountId, item: MessageItem, historical: bool)
    : (r: Option<(View, Server)>)
    requires Within(v, s)
    ensures r.Some? ==> SameTables(s, r.value.1) && (account, item.jid) in r.value.1.threads
  {
    if Collides(v, s, account, item) then None
    else
      var (s1, contact) := StageContact(v, s, account, item, !historical);
      var s2 := StageThread(v, s1, account, item, contact);
      var found := FindMessage(v.messages, account, item.wa);
      var s3 := PutMessage(s2, account, item, contact, found, historical);
      Some((Widened(v, account, item, if found.Some? then v.messages else v.messages[s2.nextId := s3.messages[s2.nextId]]),
            s3))
  }

  /** What the view finds under a name is what the tables hold under it. */
  lemma FoundAgrees(v: MessageDb, messages: MessageDb, account: AccountId, wa: WaId)
    requires KeepsNames(v, messages) && UniqueWaIds(messages)
    ensures FindMessage(v, account, wa).Some? ==> FindMessage(messages, account, wa) == FindMessage(v, account, wa)
  {
    var found := FindMessage(v, account, wa);
    if found.Some? {
      assert SameWaId(messages[found.value], v[found.value]);
      assert Named(messages[found.value], account, wa);
    }
  }

  lemma PutStaysWithin(v: MessageDb, s: Server, account: AccountId, item: MessageItem, contact: Option<ContactId>,
                       found: Option<MessageId>, historical: bool)
    requires SInv(s) && (account, item.jid) in s.threads && found == FindMessage(s.messages, account, item.wa)
    requires KeepsNames(v, s.messages)
    ensures var r := PutMessage(s, account, item, contact, found, historical);
            s.threads.Keys <= r.threads.Keys && s.contacts == r.contacts
            && KeepsNames(if found.Some? then v else v[s.nextId := r.messages[s.nextId]], r.messages)
  {
  }

  lemma ContactAgrees(v: View, s: Server, account: AccountId, item: MessageItem, rename: bool)
    requires Within(v, s) && !Collides(v, s, account, item)
    ensures StageContact(v, s, account, item, rename) == TouchContact(s, account, item, rename)
    ensures var after := TouchContact(s, account, item, rename).0.contacts.Keys;
            v.contacts <= after && (!item.group ==> (account, item.jid) in after)
  {
  }

  lemma ThreadAgrees(v: View, s: Server, account: AccountId, item: MessageItem, contact: Option<ContactId>)
    requires v.threads <= s.threads.Keys && ((account, item.jid) in s.threads ==> (account, item.jid) in v.threads)
    ensures StageThread(v, s, account, item, contact) == TouchThread(s, account, item, contact)
    ensures v.threads + {(account, item.jid)} <= TouchThread(s, account, item, contact).threads.Keys
    ensures TouchThread(s, account, item, contact).contacts == s.contacts
  {
  }

  /** Without a collision the view and the tables agree on every key the item touches, and so do the writes. */
  lemma StageAgrees(v: View, s: Server, account: AccountId, item: MessageItem, historical: bool)
    requires Within(v, s) && SInv(s)
    ensures var r := StageMessage(v, s, account, item, historical);
            r.Some? ==> r.value.1 == UpsertMessage(s, account, item, historical) && Within(r.value.0, r.value.1)
  {
    if !Collides(v, s, account, item) {
      var (s1, contact) := TouchContact(s, account, item, !historical);
      ContactAgrees(v, s, account, item, !historical);
      var s2 := TouchThread(s1, account, item, contact);
      ThreadAgrees(v, s1, account, item, contact);
      FoundAgrees(v.messages, s2.messages, account, item.wa);
      var found := FindMessage(v.messages, account, item.wa);
      PutStaysWithin(v.messages, s2, account, item, contact, found, historical);
      var s3 := PutMessage(s2, account, item, contact, found, historical);
      assert s3 == UpsertMessage(s, account, item, historical);
    }
  }

  /** The items of a history batch in one session, whose view stays within the tables (StageAllAgrees). */
  ghost function StageAll(v: View, s: Server, account: AccountId, items: seq<MessageItem>): Option<(View, Server)> {
    if items == [] then Some((v, s))
    else
      var front := StageAll(v, s, account, items[..|items| - 1]);
      if front.None? || !Within(front.value.0, front.value.1) then None
      else StageMessage(front.value.0, front.value.1, account, items[|items| - 1], true)
  }

  lemma {:induction false} StageAllAgrees(v: View, s: Server, account: AccountId, items: seq<MessageItem>)
    requires Within(v, s) && SInv(s)
    ensures var r := StageAll(v, s, account, items);
            r.Some? ==> r.value.1 == UpsertAll(s, account, items) && Within(r.value.0, r.value.1)
  {
    if items != [] {
      var front, last := items[..|items| - 1], items[|items| - 1];
      StageAllAgrees(v, s, account, front);
      UpsertAllKeeps(s, account, front);
      var r := StageAll(v, s, account, front);
      if r.Some? { StageAgrees(r.value.0, r.value.1, account, last, true); }
    }
  }

  /** The tables once the event row of the envelope has been inserted. */
  function Begun(s: Server, env: Envelope): Server {
    s.(events := s.events[Identity(env) := env])
  }

  /** What the session does with an envelope it takes for new; None when an insert is refused. */
  ghost function StagedEffect(seen: Server, s: Server, env: Envelope): Option<Result<Server, EventError>>
    requires env.account in s.accounts && Within(Reads(seen), s)
  {
    match env.payload
    case Upsert(item) =>
      var r := StageMessage(Reads(seen), s, env.account, item, false);
      if r.None? then None else Some(EnqueueReplySeeing(seen.jobs, r.value.1, env.account, item, env.occurredAt))
    case History(items) =>
      var r := StageAll(Reads(seen), s, env.account, items);
      if r.None? then None else Some(Ok(r.value.1))
    case Receipt(wa, receipt, at, error) =>
      var found := FindMessage(seen.messages, env.account, wa);
      Some(if found.None? then Err(MessageNotFound)
           else Ok(s.(messages := s.messages[found.value := MergeReceipt(s.messages[found.value], receipt, at, error)])))
    case AccountChange(_, _, _) =>
      Some(Ok(s.(accounts := s.accounts[env.account := ChangeAccount(s.accounts[env.account], env)])))
  }

  /** Commit what was done, or roll back and refuse. */
  function Closed(s: Server, r: Result<Server, EventError>): (Server, Answer) {
    if r.Err? then (s, Refused(r.error)) else (r.value, Accepted(false))
  }

  /**
   The endpoint: a refused insert, of the event itself or of a row the event touches, rolls everything back, and
   the envelope is processed again in a new session.
   */
  ghost function Receive(seen: Server, s: Server, env: Envelope): (Server, Answer)
    requires Grown(seen, s)
  {
    var key := Identity(env);
    if key in seen.events then
      if seen.events[key] == env then (s, Accepted(true)) else (s, Refused(IdentityConflict))
    else if env.account !in seen.accounts then (s, Refused(AccountNotFound))
    else if key in s.events then Process(s, env)
    else
      var r := StagedEffect(seen, Begun(s, env), env);
      if r.None? then Process(s, env) else Closed(s, r.value)
  }

  // ---------------------------------------------------------------- what a session can miss

  predicate IsNew(now: Server, env: Envelope) {
    Identity(env) !in now.events && env.account in now.accounts
  }

  /** The message a receipt is for has been stored since the session read. */
  ghost predicate MissedMessage(seen: Server, now: Server, env: Envelope) {
    && IsNew(now, env) && env.payload.Receipt?
    && FindMessage(seen.messages, env.account, env.payload.wa).None?
    && FindMessage(now.messages, env.account, env.payload.wa).Some?
  }

  /** An upsert of a message the session saw wants a reply whose job has been queued since, and the queue is full. */
  ghost predicate MissedJob(seen: Server, now: Server, env: Envelope) {
    && IsNew(now, env) && env.payload.Upsert? && !Collides(Reads(seen), now, env.account, env.payload.item)
    && MissedAtLimit(seen.jobs, UpsertMessage(Begun(now, env), env.account, env.payload.item, false), env)
  }

  ghost predicate MissedAtLimit(seen: Q.JobDb, s: Server, env: Envelope)
    requires env.payload.Upsert? && env.account in s.accounts && (env.account, env.payload.item.jid) in s.threads
  {
    var account, item := env.account, env.payload.item;
    var found, t := FindMessage(s.messages, account, item.wa), s.threads[(account, item.jid)];
    var key := Q.AutoReply(account, item.wa, s.accounts[account].mode);
    && found.Some? && WantsReply(s, account, t, s.messages[found.value])
    && Q.FindKey(seen, account, key).None? && Q.FindKey(s.jobs, account, key).Some?
    && |Q.OpenIds(s.jobs, account)| >= 100
  }

  lemma ReceiptAgreesIff(seen: Server, now: Server, env: Envelope)
    requires Grown(seen, now) && SInv(now) && IsNew(now, env) && env.payload.Receipt?
    ensures Receive(seen, now, env) == Process(now, env) <==> !MissedMessage(seen, now, env)
    ensures MissedMessage(seen, now, env) ==> Receive(seen, now, env) == (now, Refused(MessageNotFound))
  {
    FoundAgrees(seen.messages, now.messages, env.account, env.payload.wa);
  }

  lemma EnqueueAgreesIff(seen: Q.JobDb, s: Server, env: Envelope)
    requires QP.Inv(s.jobs) && QP.KeepsIdentities(seen, s.jobs)
    requires env.payload.Upsert? && env.account in s.accounts && (env.account, env.payload.item.jid) in s.threads
    ensures var (item, at) := (env.payload.item, env.occurredAt);
            EnqueueReplySeeing(seen, s, env.account, item, at) == EnqueueReply(s, env.account, item, at)
            <==> !MissedAtLimit(seen, s, env)
    ensures MissedAtLimit(seen, s, env) ==>
              EnqueueReplySeeing(seen, s, env.account, env.payload.item, env.occurredAt) == Err(JobRefused(Q.Backpressure))
  {
    var account, item, now := env.account, env.payload.item, env.occurredAt;
    var found, t := FindMessage(s.messages, account, item.wa), s.threads[(account, item.jid)];
    if found.Some? && WantsReply(s, account, t, s.messages[found.value]) {
      var args := ReplyRequest(account, s.accounts[account], t, found.value, s.messages[found.value], item.wa, now);
      QP.StaleLookupIff(ReplyScope(account, t), seen, s.jobs, args, s.nextId, now);
    }
  }

  /** Both sessions make the same writes up to the reply, unless an insert is refused. */
  lemma UpsertStages(seen: Server, now: Server, env: Envelope)
    requires Grown(seen, now) && SInv(now) && IsNew(now, env) && env.payload.Upsert?
    ensures var s := UpsertMessage(Begun(now, env), env.account, env.payload.item, false);
            && s.jobs == now.jobs && s.accounts == now.accounts
            && StagedEffect(seen, Begun(now, env), env)
               == (if Collides(Reads(seen), now, env.account, env.payload.item) then None
                   else Some(EnqueueReplySeeing(seen.jobs, s, env.account, env.payload.item, env.occurredAt)))
  {
    StageAgrees(Reads(seen), Begun(now, env), env.account, env.payload.item, false);
  }

  lemma NewIsClosed(seen: Server, now: Server, env: Envelope)
    requires Grown(seen, now) && SInv(now) && IsNew(now, env)
    ensures Process(now, env) == Closed(now, Effect(Begun(now, env), env))
    ensures var r := StagedEffect(seen, Begun(now, env), env);
            Receive(seen, now, env) == if r.None? then Process(now, env) else Closed(now, r.value)
  {
  }

  lemma UpsertAgreesIff(seen: Server, now: Server, env: Envelope)
    requires Grown(seen, now) && SInv(now) && IsNew(now, env) && env.payload.Upsert?
    ensures Receive(seen, now, env) == Process(now, env) <==> !MissedJob(seen, now, env)
    ensures MissedJob(seen, now, env) ==> Receive(seen, now, env) == (now, Refused(JobRefused(Q.Backpressure)))
  {
    NewIsClosed(seen, now, env);
    UpsertStages(seen, now, env);
    if !Collides(Reads(seen), now, env.account, env.payload.item) {
      var s := UpsertMessage(Begun(now, env), env.account, env.payload.item, false);
      EnqueueAgreesIff(seen.jobs, s, env);
      ClosedAlikeIff(now, EnqueueReplySeeing(seen.jobs, s, env.account, env.payload.item, env.occurredAt),
                     EnqueueReply(s, env.account, env.payload.item, env.occurredAt));
    }
  }

  lemma ClosedAlikeIff(s: Server, x: Result<Server, EventError>, y: Result<Server, EventError>)
    ensures Closed(s, x) == Closed(s, y) <==> x == y
  {
  }

  /**
   A session that read any of the tables too early answers and acts exactly as one that reads them now, save in two
   cases: it refuses a receipt whose message it has not seen, or a reply whose job it has not seen while the queue is full.
   */
  lemma StaleSessionIff(seen: Server, now: Server, env: Envelope)
    requires Grown(seen, now) && SInv(now)
    ensures Receive(seen, now, env) == Process(now, env)
            <==> !MissedMessage(seen, now, env) && !MissedJob(seen, now, env)
    ensures MissedMessage(seen, now, env) ==> Receive(seen, now, env) == (now, Refused(MessageNotFound))
    ensures MissedJob(seen, now, env) ==> Receive(seen, now, env) == (now, Refused(JobRefused(Q.Backpressure)))
  {
    if IsNew(now, env) {
      match env.payload
      case Upsert(_) => UpsertAgreesIff(seen, now, env);
      case History(items) => StageAllAgrees(Reads(seen), Begun(now, env), env.account, items);
      case Receipt(_, _, _, _) => ReceiptAgreesIff(seen, now, env);
      case AccountChange(_, _, _) =>
    }
  }

  // ---------------------------------------------------------------- keys only ever grow

  lemma GrownOn(s: Server, mid: Server, now: Server)
    requires Grown(s, mid) && Grown(mid, now)
    ensures Grown(s, now)
  {
  }

  /** Message traffic keeps every key, and touches neither events nor jobs. */
  predicate KeysKept(s: Server, r: Server) {
    SameTables(s, r) && Within(Reads(s), r)
  }

  lemma UpsertKeepsNames(s: Server, account: AccountId, item: MessageItem, historical: bool)
    requires SInv(s)
    ensures KeepsNames(s.messages, UpsertMessage(s, account, item, historical).messages)
  {
    UpsertKeeps(s, account, item, historical);
    var r := UpsertMessage(s, account, item, historical);
    forall m | m in s.messages ensures m in r.messages && SameName(s.messages[m], r.messages[m])
    {
      assert KeepsRow(s, r, m);
    }
  }

  lemma TouchKeepsKeys(s: Server, account: AccountId, item: MessageItem, rename: bool)
    ensures var (s1, contact) := TouchContact(s, account, item, rename); var s2 := TouchThread(s1, account, item, contact);
            s.contacts.Keys <= s2.contacts.Keys && s.threads.Keys <= s2.threads.Keys
  {
    var (s1, contact) := TouchContact(s, account, item, rename);
    ThreadAgrees(View({}, s1.threads.Keys, map[]), s1, account, item, contact);
  }

  lemma UpsertKeepsKeys(s: Server, account: AccountId, item: MessageItem, historical: bool)
    requires SInv(s)
    ensures KeysKept(s, UpsertMessage(s, account, item, historical))
  {
    UpsertKeepsNames(s, account, item, historical);
    TouchKeepsKeys(s, account, item, !historical);
    var (s1, contact) := TouchContact(s, account, item, !historical);
    var s2 := TouchThread(s1, account, item, contact);
    PutKeepsKeys(s2, account, item, contact, FindMessage(s2.messages, account, item.wa), historical);
  }

  lemma PutKeepsKeys(s: Server, account: AccountId, item: MessageItem, contact: Option<ContactId>,
                     found: Option<MessageId>, historical: bool)
    requires (account, item.jid) in s.threads && (found.Some? ==> found.value in s.messages)
    ensures var r := PutMessage(s, account, item, contact, found, historical);
            r.contacts == s.contacts && r.threads.Keys == s.threads.Keys
  {
  }

  lemma {:induction false} UpsertAllKeepsKeys(s: Server, account: AccountId, items: seq<MessageItem>)
    requires SInv(s)
    ensures KeysKept(s, UpsertAll(s, account, items))
  {
    if items != [] {
      var front := items[..|items| - 1];
      UpsertAllKeepsKeys(s, account, front);
      UpsertAllKeeps(s, account, front);
      UpsertKeepsKeys(UpsertAll(s, account, front), account, items[|items| - 1], true);
    }
  }

  lemma ReplyKeepsKeys(s: Server, account: AccountId, item: MessageItem, now: Time)
    requires SInv(s) && account in s.accounts && (account, item.jid) in s.threads
    ensures var r := EnqueueReply(s, account, item, now);
            r.Ok? ==> QP.KeepsIdentities(s.jobs, r.value.jobs)
  {
  }

  lemma UpsertGrows(s: Server, env: Envelope)
    requires SInv(s) && env.account in s.accounts && env.payload.Upsert? && Effect(s, env).Ok?
    ensures Grown(s, Effect(s, env).value)
  {
    var item := env.payload.item;
    UpsertKeepsKeys(s, env.account, item, false);
    UpsertKeeps(s, env.account, item, false);
    ReplyKeepsKeys(UpsertMessage(s, env.account, item, false), env.account, item, env.occurredAt);
  }

  lemma HistoryGrows(s: Server, env: Envelope)
    requires SInv(s) && env.account in s.accounts && env.payload.History?
    ensures Grown(s, Effect(s, env).value)
  {
    UpsertAllKeepsKeys(s, env.account, env.payload.items);
  }

  lemma ReceiptGrows(s: Server, env: Envelope)
    requires env.account in s.accounts && env.payload.Receipt? && Effect(s, env).Ok?
    ensures Grown(s, Effect(s, env).value)
  {
  }

  lemma EffectGrows(s: Server, env: Envelope)
    requires SInv(s) && env.account in s.accounts && Effect(s, env).Ok?
    ensures Grown(s, Effect(s, env).value)
  {
    match env.payload
    case Upsert(_) => UpsertGrows(s, env);
    case History(_) => HistoryGrows(s, env);
    case Receipt(_, _, _, _) => ReceiptGrows(s, env);
    case AccountChange(_, _, _) =>
  }

  lemma BegunGrows(s: Server, env: Envelope)
    requires IsNew(s, env)
    ensures Grown(s, Begun(s, env))
  {
  }

  predicate Accepts(s: Server, a: Attempt) {
    !a.dies && IsNew(s, a.env)
  }

  lemma DeliverEffects(s: Server, a: Attempt)
    ensures Deliver(s, a).0 == if Accepts(s, a) then Closed(s, Effect(Begun(s, a.env), a.env)).0 else s
  {
  }

  lemma DeliverGrows(s: Server, a: Attempt)
    requires SInv(s)
    ensures Grown(s, Deliver(s, a).0)
  {
    DeliverEffects(s, a);
    if Accepts(s, a) {
      var start := Begun(s, a.env);
      BegunGrows(s, a.env);
      if Effect(start, a.env).Ok? {
        EffectGrows(start, a.env);
        GrownOn(s, start, Effect(start, a.env).value);
      }
    }
  }

  lemma {:induction false} RunGrows(s: Server, trace: seq<Attempt>)
    requires SInv(s)
    ensures Grown(s, Run(s, trace))
    decreases |trace|
  {
    if trace != [] {
      DeliverGrows(s, trace[0]);
      DeliverKeepsInv(s, trace[0]);
      RunGrows(Deliver(s, trace[0]).0, trace[1..]);
      GrownOn(s, Deliver(s, trace[0]).0, Run(s, trace));
    }
  }

  /** How many deliveries had committed when the session read each of the tables it decides by. */
  datatype Moments = Moments(event: nat, contact: nat, thread: nat, message: nat, job: nat)

  predicate Past(at: Moments, n: nat) {
    at.event <= n && at.contact <= n && at.thread <= n && at.message <= n && at.job <= n
  }

  ghost function SeenAlong(s: Server, trace: seq<Attempt>, at: Moments): Server
    requires Past(at, |trace|)
  {
    Run(s, trace).(events := Run(s, trace[..at.event]).events, contacts := Run(s, trace[..at.contact]).contacts,
                   threads := Run(s, trace[..at.thread]).threads, messages := Run(s, trace[..at.message]).messages,
                   jobs := Run(s, trace[..at.job]).jobs)
  }

  lemma {:induction false} RunConcat(s: Server, xs: seq<Attempt>, ys: seq<Attempt>)
    ensures Run(s, xs + ys) == Run(Run(s, xs), ys)
    decreases |xs|
  {
    if xs == [] {
      assert xs + ys == ys;
    } else {
      assert (xs + ys)[0] == xs[0] && (xs + ys)[1..] == xs[1..] + ys;
      RunConcat(Deliver(s, xs[0]).0, xs[1..], ys);
    }
  }

  lemma PrefixGrows(s: Server, trace: seq<Attempt>, i: nat)
    requires SInv(s) && i <= |trace|
    ensures Grown(Run(s, trace[..i]), Run(s, trace))
  {
    RunKeepsInv(s, trace[..i]);
    RunGrows(Run(s, trace[..i]), trace[i..]);
    assert trace == trace[..i] + trace[i..];
    RunConcat(s, trace[..i], trace[i..]);
  }

  lemma MixedGrows(now: Server, e: Server, c: Server, t: Server, m: Server, j: Server)
    requires Grown(e, now) && Grown(c, now) && Grown(t, now) && Grown(m, now) && Grown(j, now)
    ensures Grown(now.(events := e.events, contacts := c.contacts, threads := t.threads, messages := m.messages,
                       jobs := j.jobs), now)
  {
  }

  lemma SeenAlongGrows(s: Server, trace: seq<Attempt>, at: Moments)
    requires SInv(s) && Past(at, |trace|)
    ensures Grown(SeenAlong(s, trace, at), Run(s, trace)) && SInv(Run(s, trace))
  {
    RunKeepsInv(s, trace);
    PrefixGrows(s, trace, at.event);
    PrefixGrows(s, trace, at.contact);
    PrefixGrows(s, trace, at.thread);
    PrefixGrows(s, trace, at.message);
    PrefixGrows(s, trace, at.job);
    MixedGrows(Run(s, trace), Run(s, trace[..at.event]), Run(s, trace[..at.contact]), Run(s, trace[..at.thread]),
               Run(s, trace[..at.message]), Run(s, trace[..at.job]));
  }

  /**
   Over every run: whichever earlier moments a session read the tables at, losing the race on any unique index is
   invisible, exactly save for the receipt and the reply it refuses because of a message or a job it has not seen.
   */
  lemma LostRaceIsHarmlessIff(s: Server, trace: seq<Attempt>, at: Moments, env: Envelope)
    requires SInv(s) && Past(at, |trace|)
    ensures Grown(SeenAlong(s, trace, at), Run(s, trace)) && SInv(Run(s, trace))
    ensures var (seen, now) := (SeenAlong(s, trace, at), Run(s, trace));
            && (Receive(seen, now, env) == Process(now, env)
                <==> !MissedMessage(seen, now, env) && !MissedJob(seen, now, env))
            && (MissedMessage(seen, now, env) ==> Receive(seen, now, env) == (now, Refused(MessageNotFound)))
            && (MissedJob(seen, now, env) ==> Receive(seen, now, env) == (now, Refused(JobRefused(Q.Backpressure))))
  {
    SeenAlongGrows(s, trace, at);
    StaleSessionIff(SeenAlong(s, trace, at), Run(s, trace), env);
  }

  // ---------------------------------------------------------------- two races that are lost

  lemma RunOne(s: Server, a: Attempt)
    requires SInv(s)
    ensures Run(s, [a]) == Deliver(s, a).0 && Grown(s, Run(s, [a])) && SInv(Run(s, [a]))
  {
    assert [a][1..] == [];
    DeliverGrows(s, a);
    DeliverKeepsInv(s, a);
  }

  lemma UpsertStores(s: Server, account: AccountId, item: MessageItem)
    requires SInv(s)
    ensures var r := UpsertMessage(s, account, item, false); var found := FindMessage(r.messages, account, item.wa);
            found.Some? && r.messages[found.value].outbound == item.fromMe && r.messages[found.value].kind == item.kind
  {
    UpsertKeeps(s, account, item, false);
    var (s1, contact) := TouchContact(s, account, item, true);
    var s2 := TouchThread(s1, account, item, contact);
    var found := FindMessage(s2.messages, account, item.wa);
    var r := PutMessage(s2, account, item, contact, found, false);
    var id := if found.Some? then found.value else s2.nextId;
    assert id in r.messages && Named(r.messages[id], account, item.wa);
    assert forall m :: m in r.messages && Named(r.messages[m], account, item.wa) ==> SameWaId(r.messages[m], r.messages[id]);
  }

  lemma OwnMessageIsStored(s: Server, env: Envelope)
    requires SInv(s) && IsNew(s, env) && env.payload.Upsert? && env.payload.item.fromMe
    ensures var now := Deliver(s, Attempt(env, false)).0;
            && now == UpsertMessage(Begun(s, env), env.account, env.payload.item, false)
            && FindMessage(now.messages, env.account, env.payload.item.wa).Some?
  {
    UpsertStores(Begun(s, env), env.account, env.payload.item);
    DeliverEffects(s, Attempt(env, false));
  }

  lemma ReceiptIsApplied(now: Server, env: Envelope)
    requires IsNew(now, env) && env.payload.Receipt?
    requires FindMessage(now.messages, env.account, env.payload.wa).Some?
    ensures Process(now, env).1 == Accepted(false)
  {
  }

  /** The message is stored while a session that has not seen it handles its first receipt: the receipt is refused. */
  lemma StaleReceiptIsRefused(s: Server, upsert: Envelope, receipt: Envelope)
    requires SInv(s) && IsNew(s, upsert) && IsNew(s, receipt) && upsert.id != receipt.id
    requires upsert.payload.Upsert? && upsert.payload.item.fromMe && receipt.payload.Receipt?
    requires receipt.account == upsert.account && receipt.payload.wa == upsert.payload.item.wa
    requires FindMessage(s.messages, receipt.account, receipt.payload.wa).None?
    ensures var now := Run(s, [Attempt(upsert, false)]);
            && Grown(s, now) && SInv(now)
            && Process(now, receipt).1 == Accepted(false)
            && Receive(s, now, receipt) == (now, Refused(MessageNotFound))
  {
    RunOne(s, Attempt(upsert, false));
    OwnMessageIsStored(s, upsert);
    DeliverRecords(s, Attempt(upsert, false));
    var now := Run(s, [Attempt(upsert, false)]);
    ReceiptIsApplied(now, receipt);
    ReceiptAgreesIff(s, now, receipt);
  }

  /** A group chat and an account in which every inbound message of a person is answered, the message being known. */
  ghost predicate AnswersHere(s: Server, account: AccountId, item: MessageItem) {
    && account in s.accounts && item.group && !item.fromMe && !item.kind.System? && (account, item.jid) in s.threads
    && FindMessage(s.messages, account, item.wa).Some?
    && AutoReplyAllowed(s.accounts[account], s.threads[(account, item.jid)], None)
  }

  lemma StillAnswers(s: Server, account: AccountId, item: MessageItem)
    requires SInv(s) && AnswersHere(s, account, item)
    ensures var r := UpsertMessage(s, account, item, false); var found := FindMessage(r.messages, account, item.wa);
            && AnswersHere(r, account, item) && r.jobs == s.jobs && r.accounts == s.accounts
            && found.Some? && WantsReply(r, account, r.threads[(account, item.jid)], r.messages[found.value])
  {
    UpsertStores(s, account, item);
  }

  ghost predicate LastPlace(jobs: Q.JobDb, account: AccountId, wa: WaId) {
    Q.FindKey(jobs, account, Q.AutoReply(account, wa, "auto")).None? && |Q.OpenIds(jobs, account)| == 99
  }

  ghost predicate PlaceTaken(jobs: Q.JobDb, account: AccountId, wa: WaId) {
    Q.FindKey(jobs, account, Q.AutoReply(account, wa, "auto")).Some? && |Q.OpenIds(jobs, account)| == 100
  }

  lemma TakesLastPlace(s: Server, account: AccountId, item: MessageItem, now: Time)
    requires SInv(s) && AnswersHere(s, account, item) && LastPlace(s.jobs, account, item.wa)
    requires var found := FindMessage(s.messages, account, item.wa);
             WantsReply(s, account, s.threads[(account, item.jid)], s.messages[found.value])
    ensures var r := EnqueueReply(s, account, item, now);
            r.Ok? && PlaceTaken(r.value.jobs, account, item.wa)
  {
    var t, found := s.threads[(account, item.jid)], FindMessage(s.messages, account, item.wa);
    var args := ReplyRequest(account, s.accounts[account], t, found.value, s.messages[found.value], item.wa, now);
    JobTakesPlace(s.jobs, ReplyScope(account, t), args, item.wa, s.nextId, now);
  }

  lemma JobTakesPlace(jobs: Q.JobDb, dir: Q.Directory, args: Q.EnqueueArgs, wa: WaId, newId: JobId, now: Time)
    requires newId !in jobs && LastPlace(jobs, args.account, wa) && args.key == Q.AutoReply(args.account, wa, "auto")
    requires Q.ValidEnqueue(args) && Q.ScopeError(dir, jobs, args.account, args.request).None? && args.maxQueued == Some(100)
    ensures var r := Q.Enqueue(dir, jobs, jobs, args, newId, now);
            r.Ok? && PlaceTaken(r.value.0, args.account, wa)
  {
    var after := jobs[newId := Q.NewJob(args, now)];
    assert Q.Enqueue(dir, jobs, jobs, args, newId, now) == Ok((after, newId));
    assert Q.OpenIds(after, args.account) == Q.OpenIds(jobs, args.account) + {newId};
    assert Q.HasKey(after[newId], args.account, args.key);
  }

  lemma FirstReply(s: Server, env: Envelope)
    requires SInv(s) && IsNew(s, env) && env.payload.Upsert?
    requires AnswersHere(s, env.account, env.payload.item) && LastPlace(s.jobs, env.account, env.payload.item.wa)
    ensures var now := Deliver(s, Attempt(env, false)).0;
            AnswersHere(now, env.account, env.payload.item) && PlaceTaken(now.jobs, env.account, env.payload.item.wa)
  {
    var item := env.payload.item;
    DeliverEffects(s, Attempt(env, false));
    StillAnswers(Begun(s, env), env.account, item);
    UpsertKeeps(Begun(s, env), env.account, item, false);
    TakesLastPlace(UpsertMessage(Begun(s, env), env.account, item, false), env.account, item, env.occurredAt);
  }

  lemma SecondReplyMisses(seen: Server, now: Server, env: Envelope)
    requires SInv(now) && IsNew(now, env) && env.payload.Upsert?
    requires AnswersHere(seen, env.account, env.payload.item) && LastPlace(seen.jobs, env.account, env.payload.item.wa)
    requires AnswersHere(now, env.account, env.payload.item) && PlaceTaken(now.jobs, env.account, env.payload.item.wa)
    ensures MissedJob(seen, now, env)
  {
    StillAnswers(Begun(now, env), env.account, env.payload.item);
  }

  /** The queue has one place left, and two upserts of a message the sessions know compete for it. */
  lemma StaleReplyIsRefused(s: Server, first: Envelope, second: Envelope)
    requires SInv(s) && IsNew(s, first) && IsNew(s, second) && first.id != second.id && first.account == second.account
    requires first.payload.Upsert? && second.payload == first.payload
    requires AnswersHere(s, first.account, first.payload.item) && LastPlace(s.jobs, first.account, first.payload.item.wa)
    ensures var now := Run(s, [Attempt(first, false)]);
            && Grown(s, now) && SInv(now)
            && Receive(s, now, second) == (now, Refused(JobRefused(Q.Backpressure)))
            && Process(now, second) != Receive(s, now, second)
  {
    var now := Run(s, [Attempt(first, false)]);
    RunOne(s, Attempt(first, false));
    DeliverRecords(s, Attempt(first, false));
    FirstReply(s, first);
    SecondReplyMisses(s, now, second);
    UpsertAgreesIff(s, now, second);
  }
}
