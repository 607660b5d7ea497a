/**
 The spool of one account, its sink and the server together: the sink posts what it holds, the server commits or
 refuses, and the reply, if it arrives, decides what becomes of the file.
 */
module Delivery {
  import opened Base
  import S = Spool
  import SP = SpoolProperties
  import F = FileSpoolModule
  import E = Events
  import EP = EventProperties
  import M = Messages
  import SL = SpoolLaws

  /** The envelope a spooled event carries. */
  type Body = S.Event -> E.Envelope

  /** The status a delivery attempt is answered with; a job the queue refuses is an error the endpoint does not expect. */
  function ResponseTo(answer: E.Answer): F.Response {
    match answer
    case Accepted(_) => F.Ok200(true)
    case Refused(IdentityConflict) => F.Status409
    case Refused(MessageNotFound) => F.Status409
    case Refused(AccountNotFound) => F.Other(404)
    case Refused(JobRefused(_)) => F.Other(500)
    case Aborted => F.NetworkError("network_error")
  }

  /** What the sink does with the event it holds. */
  function Settle(r: F.Response, delay: nat, now: Time): S.Step {
    if r == F.Ok200(true) then S.Accepted
    else if F.Buries(r) then S.Refused(F.Complaint(r), now)
    else S.Retained(F.Complaint(r), delay, now)
  }

  /** `appended` is the history of events whose append became durable. */
  datatype Link = Link(sys: S.System, server: E.Server, appended: set<S.Event>)

  datatype Step =
    | OfSpool(spoolStep: S.Step)
    | Post(dies: bool, heard: bool, delay: nat, now: Time)
    | OtherDelivery(attempt: E.Attempt)

  predicate Settles(step: S.Step) {
    step.Accepted? || step.Refused? || step.Retained?
  }

  function Landed(s: S.System): set<S.Event> {
    if s.todo != [] && s.todo[0].WritePending? then {s.todo[0].record.event} else {}
  }

  /** The server's answer to the held event, and what the sink makes of it; a reply that is lost is a network error. */
  ghost function Posted(body: Body, l: Link, step: Step): (E.Server, S.Step)
    requires step.Post? && l.sys.sink.Holding?
  {
    var (server, answer) := E.Deliver(l.server, E.Attempt(body(l.sys.sink.claim.record.event), step.dies));
    (server, Settle(if step.heard then ResponseTo(answer) else ResponseTo(E.Aborted), step.delay, step.now))
  }

  ghost function Apply(body: Body, l: Link, step: Step): Link {
    match step
    case OfSpool(s) =>
      if Settles(s) then l
      else l.(sys := S.Apply(l.sys, s), appended := if s.FileStep? then l.appended + Landed(l.sys) else l.appended)
    case Post(_, _, _, _) =>
      if l.sys.todo == [] && l.sys.sink.Holding? then
        var (server, settle) := Posted(body, l, step);
        l.(server := server, sys := S.Apply(l.sys, settle))
      else l
    case OtherDelivery(a) => l.(server := E.Deliver(l.server, a).0)
  }

  ghost function Run(body: Body, l: Link, steps: seq<Step>): Link
    decreases |steps|
  {
    if steps == [] then l else Run(body, Apply(body, l, steps[0]), steps[1..])
  }

  // ---------------------------------------------------------------- nothing is lost

  predicate Recorded(server: E.Server, env: E.Envelope) {
    E.Identity(env) in server.events && server.events[E.Identity(env)] == env
  }

  predicate Unacknowledged(s: S.System, e: S.Event) {
    e.key in s.live && s.live[e.key] == e
  }

  ghost predicate Inv(body: Body, l: Link) {
    SP.Inv(l.sys) && forall e :: e in l.appended ==> Unacknowledged(l.sys, e) || Recorded(l.server, body(e))
  }

  lemma RecordedStays(server: E.Server, a: E.Attempt, env: E.Envelope)
    requires Recorded(server, env)
    ensures Recorded(E.Deliver(server, a).0, env)
  {
    EP.DeliverRecords(server, a);
  }

  /** An accepted delivery, new or duplicate, is on record. */
  lemma AcceptedIsRecorded(server: E.Server, a: E.Attempt)
    requires E.Deliver(server, a).1.Accepted?
    ensures Recorded(E.Deliver(server, a).0, a.env)
  {
    EP.DeliverRecords(server, a);
  }

  lemma SpoolStepKeepsInv(body: Body, l: Link, step: S.Step)
    requires Inv(body, l) && !Settles(step)
    ensures Inv(body, Apply(body, l, OfSpool(step)))
  {
    SP.StepKeepsInv(l.sys, step);
    if step.FileStep? && l.sys.todo != [] {
      assert SP.OpSafe(l.sys.disk, l.sys.live, l.sys.todo[0]);
    }
  }

  /** The sink settles the held event as accepted only when the server has it on record. */
  lemma HeldIsRecorded(body: Body, l: Link, step: Step)
    requires step.Post? && l.sys.sink.Holding? && Posted(body, l, step).1.Accepted?
    ensures Recorded(Posted(body, l, step).0, body(l.sys.sink.claim.record.event))
  {
    AcceptedIsRecorded(l.server, E.Attempt(body(l.sys.sink.claim.record.event), step.dies));
  }

  lemma PostKeepsEvent(body: Body, l: Link, step: Step, e: S.Event)
    requires Inv(body, l) && step.Post? && l.sys.todo == [] && l.sys.sink.Holding? && e in l.appended
    ensures var (server, settle) := Posted(body, l, step);
            Unacknowledged(S.Apply(l.sys, settle), e) || Recorded(server, body(e))
  {
    var (c, settle) := (l.sys.sink.claim, Posted(body, l, step).1);
    if Recorded(l.server, body(e)) {
      RecordedStays(l.server, E.Attempt(body(c.record.event), step.dies), body(e));
    } else if settle.Accepted? && e.key == c.key {
      assert l.sys.disk.inflight == map[c.key := c.record];
      assert S.Find(l.sys.disk, e.key).value == c.record;
      HeldIsRecorded(body, l, step);
    }
  }

  lemma PostKeepsInv(body: Body, l: Link, step: Step)
    requires Inv(body, l) && step.Post? && l.sys.todo == [] && l.sys.sink.Holding?
    ensures Inv(body, Apply(body, l, step))
  {
    SP.StepKeepsInv(l.sys, Posted(body, l, step).1);
    forall e | e in l.appended
      ensures Unacknowledged(Apply(body, l, step).sys, e) || Recorded(Apply(body, l, step).server, body(e))
    {
      PostKeepsEvent(body, l, step, e);
    }
  }

  lemma StepKeepsInv(body: Body, l: Link, step: Step)
    requires Inv(body, l)
    ensures Inv(body, Apply(body, l, step))
  {
    match step
    case OfSpool(s) => if !Settles(s) { SpoolStepKeepsInv(body, l, s); }
    case Post(_, _, _, _) => if l.sys.todo == [] && l.sys.sink.Holding? { PostKeepsInv(body, l, step); }
    case OtherDelivery(a) =>
      forall e | e in l.appended && Recorded(l.server, body(e)) ensures Recorded(E.Deliver(l.server, a).0, body(e))
      {
        RecordedStays(l.server, a, body(e));
      }
  }

  lemma {:induction false} RunKeepsInv(body: Body, l: Link, steps: seq<Step>)
    requires Inv(body, l)
    ensures Inv(body, Run(body, l, steps))
    decreases |steps|
  {
    if steps != [] {
      StepKeepsInv(body, l, steps[0]);
      RunKeepsInv(body, Apply(body, l, steps[0]), steps[1..]);
    }
  }

  /**
   At least once, from end to end: through crashes, lost replies and refusals every event whose append became
   durable is in exactly one directory of the spool with its content, or on the server's record.
   */
  lemma NothingIsLost(body: Body, server: E.Server, steps: seq<Step>, e: S.Event)
    requires e in Run(body, Link(S.EMPTY, server, {}), steps).appended
    ensures var l := Run(body, Link(S.EMPTY, server, {}), steps);
            || (SP.InExactlyOne(l.sys.disk, e.key) && S.Find(l.sys.disk, e.key).value.event == e)
            || Recorded(l.server, body(e))
  {
    RunKeepsInv(body, Link(S.EMPTY, server, {}), steps);
    var l := Run(body, Link(S.EMPTY, server, {}), steps);
    if Unacknowledged(l.sys, e) { assert SP.Conserved(l.sys.disk, l.sys.live); }
  }

  // ---------------------------------------------------------------- a receipt that comes too early

  /** The server knows the account, has not seen the receipt, and stores no message with its platform id. */
  ghost predicate TooEarly(server: E.Server, env: E.Envelope) {
    && env.payload.Receipt? && env.account in server.accounts && E.Identity(env) !in server.events
    && M.FindMessage(server.messages, env.account, env.payload.wa).None?
  }

  lemma EarlyReceiptIsRefused(server: E.Server, env: E.Envelope)
    requires TooEarly(server, env)
    ensures E.Deliver(server, E.Attempt(env, false)) == (server, E.Refused(E.MessageNotFound))
  {
  }

  /** The server has accepted other contents under this identity. */
  predicate Reused(server: E.Server, env: E.Envelope) {
    E.Identity(env) in server.events && server.events[E.Identity(env)] != env
  }

  predicate IsNew(server: E.Server, env: E.Envelope) {
    E.Identity(env) !in server.events && env.account in server.accounts
  }

  lemma NewReceiptIsBuriedIff(server: E.Server, env: E.Envelope)
    requires IsNew(server, env) && env.payload.Receipt?
    ensures F.Buries(ResponseTo(E.Process(server, env).1)) <==> TooEarly(server, env)
  {
  }

  /** The sink is told to bury exactly these two kinds of envelope: job refusals and missing accounts are retried. */
  lemma BuriedAnswerIff(server: E.Server, env: E.Envelope)
    ensures F.Buries(ResponseTo(E.Process(server, env).1)) <==> TooEarly(server, env) || Reused(server, env)
  {
    if IsNew(server, env) && env.payload.Receipt? { NewReceiptIsBuriedIff(server, env); }
  }

  predicate IsDead(s: S.System, k: S.EventKey) {
    k in s.disk.dead && k !in s.disk.pending && k !in s.disk.inflight
  }

  /** Two file operations finish whatever the sink decided, and the event is dead exactly when it was refused. */
  lemma DecisionLands(s: S.System, settle: S.Step)
    requires SP.Inv(s) && s.todo == [] && s.sink.Holding? && Settles(settle)
    ensures IsDead(S.Apply(S.Apply(S.Apply(s, settle), S.FileStep), S.FileStep), s.sink.claim.key) <==> settle.Refused?
  {
    var c := s.sink.claim;
    var s1 := S.Apply(s, settle);
    assert s.disk.inflight == map[c.key := c.record];
    SP.StepKeepsInv(s, settle);
    SP.StepKeepsInv(s1, S.FileStep);
    var s2 := S.Apply(s1, S.FileStep);
    match settle
    case Accepted => assert s2.todo == [];
    case Refused(_, _) => assert s2.todo == [S.ToDead(c.key)] && c.key in s2.disk.inflight;
    case Retained(_, _, _) => assert s2.todo == [S.ToPending(c.key)] && c.key in s2.disk.inflight;
  }

  lemma {:induction false} RunConcat(body: Body, l: Link, xs: seq<Step>, ys: seq<Step>)
    ensures Run(body, l, xs + ys) == Run(body, Run(body, l, xs), ys)
    decreases |xs|
  {
    if xs == [] {
      assert xs + ys == ys;
    } else {
      assert (xs + ys)[0] == xs[0] && (xs + ys)[1..] == xs[1..] + ys;
      RunConcat(body, Apply(body, l, xs[0]), xs[1..], ys);
    }
  }

  lemma RunTwo(body: Body, l: Link, a: Step, b: Step)
    ensures Run(body, l, [a, b]) == Apply(body, Apply(body, l, a), b)
  {
    assert [a, b][1..] == [b] && [b][1..] == [];
    var l1 := Apply(body, l, a);
    assert Run(body, l1, [b]) == Run(body, Apply(body, l1, b), []);
  }

  lemma ChainThree(body: Body, l: Link, xs: seq<Step>, ys: seq<Step>, zs: seq<Step>)
    ensures Run(body, l, xs + ys) == Run(body, Run(body, l, xs), ys)
    ensures Run(body, l, xs + ys + zs) == Run(body, Run(body, Run(body, l, xs), ys), zs)
  {
    RunConcat(body, l, xs, ys);
    RunConcat(body, l, xs + ys, zs);
  }

  lemma RunThree(body: Body, l: Link, a: Step, b: Step, c: Step)
    ensures Run(body, l, [a, b, c]) == Apply(body, Apply(body, Apply(body, l, a), b), c)
  {
    assert [a, b, c][1..] == [b, c] && [b, c][1..] == [c] && [c][1..] == [];
    var l1 := Apply(body, l, a);
    var l2 := Apply(body, l1, b);
    assert Run(body, l2, [c]) == Run(body, Apply(body, l2, c), []);
    assert Run(body, l1, [b, c]) == Run(body, l2, [c]);
  }

  /**
   The held event is in dead after its post and the next two file operations exactly when the server's answer was
   heard and the envelope came too early for its message or reuses an accepted identity; nothing else is buried,
   and what is buried has changed nothing on the server.
   */
  lemma BuriedIff(body: Body, l: Link, dies: bool, heard: bool, delay: nat, now: Time)
    requires Inv(body, l) && l.sys.todo == [] && l.sys.sink.Holding?
    ensures var c := l.sys.sink.claim; var env := body(c.record.event);
            var after := Run(body, l, [Post(dies, heard, delay, now), OfSpool(S.FileStep), OfSpool(S.FileStep)]);
            && (IsDead(after.sys, c.key) <==> heard && !dies && (TooEarly(l.server, env) || Reused(l.server, env)))
            && (IsDead(after.sys, c.key) ==> after.server == l.server)
  {
    var post := Post(dies, heard, delay, now);
    var settle := Posted(body, l, post).1;
    BuriedAnswerIff(l.server, body(l.sys.sink.claim.record.event));
    DecisionLands(l.sys, settle);
    RunThree(body, l, post, OfSpool(S.FileStep), OfSpool(S.FileStep));
  }

  /** The answer of the server that was heard, if any, neither takes the event nor refuses it for good. */
  ghost predicate Keeps(server: E.Server, env: E.Envelope, dies: bool, heard: bool) {
    var answer := E.Deliver(server, E.Attempt(env, dies)).1;
    !heard || dies || !(answer.Accepted? || answer == E.Refused(E.IdentityConflict) || answer == E.Refused(E.MessageNotFound))
  }

  /** Such an event is pending again after its post, with one attempt more, and is offered again when the delay is over. */
  lemma KeptIsOfferedAgain(body: Body, l: Link, dies: bool, heard: bool, delay: nat, now: Time)
    requires Inv(body, l) && l.sys.todo == [] && l.sys.sink.Holding?
    requires Keeps(l.server, body(l.sys.sink.claim.record.event), dies, heard)
    ensures var k := l.sys.sink.claim.key;
            var after := Run(body, l, [Post(dies, heard, delay, now), OfSpool(S.FileStep), OfSpool(S.FileStep)]).sys.disk;
            && k in l.sys.disk.inflight && k in after.pending
            && after.pending[k].event == l.sys.disk.inflight[k].event
            && after.pending[k].attempt == l.sys.disk.inflight[k].attempt + 1
            && forall t :: S.Available(after.pending[k], t) <==> now + delay <= t
  {
    var post := Post(dies, heard, delay, now);
    var settle := Posted(body, l, post).1;
    SL.RetainedIsOfferedAgain(l.sys, settle.error, delay, now);
    RunThree(body, l, post, OfSpool(S.FileStep), OfSpool(S.FileStep));
  }

  /** The spool has no file of this key. */
  predicate IsGone(s: S.System, k: S.EventKey) {
    k !in s.disk.pending && k !in s.disk.inflight && k !in s.disk.dead
  }

  lemma AcceptedIsGone(s: S.System)
    requires SP.Inv(s) && s.todo == [] && s.sink.Holding?
    ensures IsGone(S.Apply(S.Apply(S.Apply(s, S.Accepted), S.FileStep), S.FileStep), s.sink.claim.key)
  {
    assert s.disk.inflight == map[s.sink.claim.key := s.sink.claim.record];
    assert S.Apply(S.Apply(s, S.Accepted), S.FileStep).todo == [];
  }

  /** The held event leaves the spool with its post exactly when the server took it and that was heard. */
  lemma DeliveredIff(body: Body, l: Link, dies: bool, heard: bool, delay: nat, now: Time)
    requires Inv(body, l) && l.sys.todo == [] && l.sys.sink.Holding?
    ensures var k := l.sys.sink.claim.key; var env := body(l.sys.sink.claim.record.event);
            var after := Run(body, l, [Post(dies, heard, delay, now), OfSpool(S.FileStep), OfSpool(S.FileStep)]);
            && (IsGone(after.sys, k) <==> heard && !dies && E.Process(l.server, env).1.Accepted?)
            && (IsGone(after.sys, k) ==> Recorded(after.server, env))
  {
    var post := Post(dies, heard, delay, now);
    var env := body(l.sys.sink.claim.record.event);
    RunThree(body, l, post, OfSpool(S.FileStep), OfSpool(S.FileStep));
    if heard && !dies && E.Process(l.server, env).1.Accepted? {
      AcceptedIsGone(l.sys);
      HeldIsRecorded(body, l, post);
    } else if Keeps(l.server, env, dies, heard) {
      KeptIsOfferedAgain(body, l, dies, heard, delay, now);
    } else {
      SL.RefusedIsDead(l.sys, Posted(body, l, post).1.error, now);
    }
  }

  /** No file operation of any script takes anything out of dead. */
  lemma DeadStaysDead(s: S.System, step: S.Step, k: S.EventKey)
    requires SP.Inv(s) && k in s.disk.dead
    ensures k in S.Apply(s, step).disk.dead && S.Apply(s, step).disk.dead[k] == s.disk.dead[k]
  {
    if step.FileStep? && s.todo != [] { assert SP.OpSafe(s.disk, s.live, s.todo[0]); }
  }

  /** What has been buried is never posted again, not even once the message it belongs to is stored. */
  lemma {:induction false} BuriedForGood(body: Body, l: Link, steps: seq<Step>, k: S.EventKey)
    requires Inv(body, l) && k in l.sys.disk.dead
    ensures IsDead(Run(body, l, steps).sys, k)
    decreases |steps|
  {
    if steps != [] {
      var step := steps[0];
      StepKeepsInv(body, l, step);
      if step.OfSpool? {
        DeadStaysDead(l.sys, step.spoolStep, k);
      } else if step.Post? && l.sys.todo == [] && l.sys.sink.Holding? {
        DeadStaysDead(l.sys, Posted(body, l, step).1, k);
      }
      BuriedForGood(body, Apply(body, l, step), steps[1..], k);
    }
  }

  // ---------------------------------------------------------------- a run that buries a receipt

  function AfterAppend(e: S.Event): S.System {
    var r := S.Record(e, 1, 0, Some(0), None, None);
    S.System(S.Disk(map[e.key := r], map[], map[], 0, 1), [], S.Idle, map[e.key := e], [], [])
  }

  function AfterClaim(e: S.Event): S.System {
    var r := S.Record(e, 1, 0, Some(0), None, None);
    S.System(S.Disk(map[], map[e.key := r], map[], 0, 1), [], S.Holding(S.Claim(e.key, r)), map[e.key := e], [], [])
  }

  const HEARD_POST := [Post(false, true, 0, 0), OfSpool(S.FileStep), OfSpool(S.FileStep)]

  /** The event is appended and claimed, each file operation landing before the next call. */
  function AppendAndClaim(e: S.Event): seq<Step> {
    [OfSpool(S.Append(e, 0)), OfSpool(S.FileStep), OfSpool(S.FileStep)]
    + [OfSpool(S.ClaimNext(Some(e.key), 0)), OfSpool(S.FileStep)]
  }

  lemma AppendFromEmpty(body: Body, server: E.Server, e: S.Event)
    requires 1 <= e.sequence
    ensures Run(body, Link(S.EMPTY, server, {}), [OfSpool(S.Append(e, 0)), OfSpool(S.FileStep), OfSpool(S.FileStep)])
            == Link(AfterAppend(e), server, {e})
  {
    var l := Link(S.EMPTY, server, {});
    RunThree(body, l, OfSpool(S.Append(e, 0)), OfSpool(S.FileStep), OfSpool(S.FileStep));
    var r := S.NewRecord(S.EMPTY.disk, e, 0);
    var l1 := Apply(body, l, OfSpool(S.Append(e, 0)));
    assert l1.sys.todo == [S.WriteOrder(1), S.WritePending(e.key, r)];
    var l2 := Apply(body, l1, OfSpool(S.FileStep));
    assert l2.sys.todo == [S.WritePending(e.key, r)] && l2.appended == {};
    var l3 := Apply(body, l2, OfSpool(S.FileStep));
    assert l3.sys.disk == AfterAppend(e).disk;
  }

  lemma ClaimFromAppended(body: Body, server: E.Server, e: S.Event)
    ensures Apply(body, Apply(body, Link(AfterAppend(e), server, {e}), OfSpool(S.ClaimNext(Some(e.key), 0))),
                  OfSpool(S.FileStep)) == Link(AfterClaim(e), server, {e})
  {
    var l := Link(AfterAppend(e), server, {e});
    assert S.IsLeast(l.sys.disk.pending, e.key);
    var l1 := Apply(body, l, OfSpool(S.ClaimNext(Some(e.key), 0)));
    assert l1.sys.todo == [S.ToInflight(e.key)];
    assert l.sys.disk.pending - {e.key} == map[];
    assert Apply(body, l1, OfSpool(S.FileStep)).sys.disk == AfterClaim(e).disk;
  }

  lemma ClaimedFromEmpty(body: Body, server: E.Server, e: S.Event)
    requires 1 <= e.sequence
    ensures Run(body, Link(S.EMPTY, server, {}), AppendAndClaim(e)) == Link(AfterClaim(e), server, {e})
  {
    var (append, claim) := (AppendAndClaim(e)[..3], AppendAndClaim(e)[3..]);
    assert append == [OfSpool(S.Append(e, 0)), OfSpool(S.FileStep), OfSpool(S.FileStep)];
    assert claim == [OfSpool(S.ClaimNext(Some(e.key), 0)), OfSpool(S.FileStep)];
    AppendFromEmpty(body, server, e);
    ClaimFromAppended(body, server, e);
    RunConcat(body, Link(S.EMPTY, server, {}), append, claim);
    RunTwo(body, Link(AfterAppend(e), server, {e}), claim[0], claim[1]);
  }

  /**
   A run that loses a receipt: appended to the empty spool, claimed and posted before its message is stored, it
   is in dead from then on, whatever follows: not even the arrival of the message brings it back.
   */
  lemma EarlyReceiptIsLost(body: Body, server: E.Server, e: S.Event, later: seq<Step>)
    requires 1 <= e.sequence && TooEarly(server, body(e))
    ensures IsDead(Run(body, Link(S.EMPTY, server, {}), AppendAndClaim(e) + HEARD_POST + later).sys, e.key)
  {
    var (l0, l2) := (Link(S.EMPTY, server, {}), Link(AfterClaim(e), server, {e}));
    ClaimedFromEmpty(body, server, e);
    RunKeepsInv(body, l0, AppendAndClaim(e));
    BuriedIff(body, l2, false, true, 0, 0);
    RunKeepsInv(body, l2, HEARD_POST);
    BuriedForGood(body, Run(body, l2, HEARD_POST), later, e.key);
    ChainThree(body, l0, AppendAndClaim(e), HEARD_POST, later);
  }
}
