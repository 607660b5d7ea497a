/** What the contact is sent for a job: the text the provider answered to the worker that held the job. */
module PipelineReplies {
  import opened Base
  import opened Messages
  import opened Pipeline
  import opened PipelineProperties
  import Q = JobQueue
  import QP = JobProperties
  import JL = JobLaws
  import O = Outbox
  import OP = OutboxProperties
  import OL = OutboxLaws

  // ---------------------------------------------------------------- leases name their job

  /** What a worker carries from one transaction to the next is what the job asks for. */
  ghost predicate LeaseFits(jobs: Q.JobDb, s: Worker) {
    && (!s.Idle? ==> s.lease.token.id in jobs && jobs[s.lease.token.id].request.conversation == s.lease.conversation)
    && (s.Started? || s.Answered? ==> s.hash == jobs[s.lease.token.id].request.inputHash)
    && (s.Answered? ==> s.text != "")
  }

  ghost predicate LeasesFit(w: World) {
    forall p :: p in w.workers ==> LeaseFits(w.jobs, w.workers[p])
  }

  /** Jobs are never dropped and never change what they ask for. */
  lemma JobsKeepRequests(w: World, step: Step, job: JobId)
    requires Inv(w) && job in w.jobs
    ensures job in Apply(w, step).jobs && Apply(w, step).jobs[job].request == w.jobs[job].request
  {
    if JobTransaction(w, step).Some? {
      TransactionKeepsRequests(w, step, job);
    } else if step.OtherJobStep? {
      QP.StepMoves(w.jobs, step.jobStep, job);
    } else if step.ClaimJob? {
      QP.StepMoves(w.jobs, Q.ClaimStep(step.claim, step.id), job);
    } else if step.Reply? {
      ReplyKeepsRequests(w, step, job);
    } else {
      OthersLeaveJobs(w, step);
    }
  }

  lemma TransactionKeepsRequests(w: World, step: Step, job: JobId)
    requires Inv(w) && job in w.jobs && JobTransaction(w, step).Some?
    ensures job in Apply(w, step).jobs && Apply(w, step).jobs[job].request == w.jobs[job].request
  {
    if step.StartJob? { StartCommits(w, step.worker, step.now); }
    else if step.DeclineJob? { DeclineCommits(w, step.worker); }
    else { FailCommits(w, step.worker, step.now, step.delay); }
    QP.StepMoves(w.jobs, JobTransaction(w, step).value, job);
  }

  lemma OthersLeaveJobs(w: World, step: Step)
    requires JobTransaction(w, step).None? && !step.OtherJobStep? && !step.ClaimJob? && !step.Reply?
    ensures Apply(w, step).jobs == w.jobs
  {
  }

  lemma ReplyKeepsRequests(w: World, step: Step, job: JobId)
    requires Inv(w) && job in w.jobs && step.Reply?
    ensures job in Apply(w, step).jobs && Apply(w, step).jobs[job].request == w.jobs[job].request
  {
    var s := WorkerAt(w, step.worker);
    if s.Answered? && ReplyPossible(w, s.lease, step.newMessage, step.newRow)
       && ReplyTx(w, s.lease, s.version, s.hash, s.text, step.now, step.newMessage, step.newRow).Some? {
      ReplyAddsOne(w, s.lease, s.version, s.hash, s.text, step.now, step.newMessage, step.newRow);
      QP.StepMoves(w.jobs, Q.CompleteStep(Current(s.lease, s.version), step.now, s.hash, None), job);
    }
  }

  /** A step gives a worker no lease it did not have, except by a claim. */
  lemma LeaseOnlyByClaim(w: World, step: Step, p: nat)
    ensures var (before, after) := (WorkerAt(w, p), WorkerAt(Apply(w, step), p));
            || after.Idle? || (!before.Idle? && after.lease == before.lease)
            || (step.ClaimJob? && step.id in w.jobs && after.lease.token.id == step.id
                && after.lease.conversation == w.jobs[step.id].request.conversation)
  {
  }

  /** The hash is read from the row when the start commits, and an answer has a text. */
  lemma HashOnlyByStart(w: World, step: Step, p: nat)
    requires WorkerAt(Apply(w, step), p).Started? || WorkerAt(Apply(w, step), p).Answered?
    ensures var (before, after) := (WorkerAt(w, p), WorkerAt(Apply(w, step), p));
            || ((before.Started? || before.Answered?) && after.lease == before.lease && after.hash == before.hash
                && (after.Answered? ==> after.text != "" || before == after))
            || (after.Started? && after.lease.token.id in Apply(w, step).jobs
                && after.hash == Apply(w, step).jobs[after.lease.token.id].request.inputHash)
  {
  }

  lemma StepKeepsLease(w: World, step: Step, p: nat)
    requires Inv(w) && LeasesFit(w)
    ensures LeaseFits(Apply(w, step).jobs, WorkerAt(Apply(w, step), p))
  {
    assert LeaseFits(w.jobs, WorkerAt(w, p));
    LeaseOnlyByClaim(w, step, p);
    var after := WorkerAt(Apply(w, step), p);
    if !after.Idle? { JobsKeepRequests(w, step, after.lease.token.id); }
    if after.Started? || after.Answered? { HashOnlyByStart(w, step, p); }
  }

  lemma StepKeepsLeases(w: World, step: Step)
    requires Inv(w) && LeasesFit(w)
    ensures LeasesFit(Apply(w, step))
  {
    forall p | p in Apply(w, step).workers ensures LeaseFits(Apply(w, step).jobs, Apply(w, step).workers[p])
    {
      StepKeepsLease(w, step, p);
    }
  }

  // ---------------------------------------------------------------- where a text came from

  /** At step k the provider answered worker p, who had started the job of this lease. */
  ghost predicate ThoughtAt(start: World, steps: seq<Step>, k: nat, p: nat, s: Worker)
    requires s.Answered?
  {
    && k < |steps| && steps[k] == Think(p, s.text)
    && WorkerAt(Run(start, steps[..k]), p) == Started(s.lease, s.version, s.hash)
  }

  ghost predicate Thoughts(start: World, steps: seq<Step>) {
    forall p :: WorkerAt(Run(start, steps), p).Answered? ==>
      exists k :: ThoughtAt(start, steps, k, p, WorkerAt(Run(start, steps), p))
  }

  /** At step k the provider answered this text for the job, and at step i the worker it answered queued the reply. */
  ghost predicate AnsweredAt(start: World, steps: seq<Step>, k: nat, i: nat, job: JobId, text: string,
                             conversation: ConversationId)
  {
    && k < i < |steps| && steps[i].Reply?
    && var s := WorkerAt(Run(start, steps[..i]), steps[i].worker);
       s.Answered? && s.lease.token.id == job && s.text == text && s.lease.conversation == Some(conversation)
       && ThoughtAt(start, steps[..i], k, steps[i].worker, s)
  }

  ghost predicate ToldBy(start: World, steps: seq<Step>, job: JobId, row: OutboxId) {
    var db := Run(start, steps).outbox;
    && row in db.rows && db.rows[row].message in db.messages
    && exists k, i :: AnsweredAt(start, steps, k, i, job, db.messages[db.rows[row].message].content,
                                 db.messages[db.rows[row].message].conversation)
  }

  /** Every reply that is not completed yet says what a worker was answered. */
  ghost predicate Told(start: World, steps: seq<Step>) {
    forall job: JobId, row :: IsOpenReply(Run(start, steps).outbox.rows, job, row) ==> ToldBy(start, steps, job, row)
  }

  predicate IsOpenReply(rows: O.Rows, job: JobId, row: OutboxId) {
    IsReply(rows, job, row) && rows[row].status != O.Completed
  }

  // ---------------------------------------------------------------- one more step

  lemma {:induction false} RunSnoc(w: World, steps: seq<Step>, last: Step)
    ensures Run(w, steps + [last]) == Apply(Run(w, steps), last)
    decreases |steps|
  {
    if steps == [] {
      assert [last][1..] == [];
    } else {
      assert (steps + [last])[0] == steps[0] && (steps + [last])[1..] == steps[1..] + [last];
      RunSnoc(Apply(w, steps[0]), steps[1..], last);
    }
  }

  lemma ThoughtStays(start: World, steps: seq<Step>, last: Step, k: nat, p: nat, s: Worker)
    requires s.Answered? && ThoughtAt(start, steps, k, p, s)
    ensures ThoughtAt(start, steps + [last], k, p, s)
  {
    assert (steps + [last])[..k] == steps[..k];
  }

  lemma AnswerIsThought(w: World, step: Step, p: nat)
    requires WorkerAt(Apply(w, step), p).Answered? && WorkerAt(w, p) != WorkerAt(Apply(w, step), p)
    ensures var s := WorkerAt(Apply(w, step), p);
            step == Think(p, s.text) && WorkerAt(w, p) == Started(s.lease, s.version, s.hash)
  {
  }

  lemma StepKeepsThoughts(start: World, steps: seq<Step>, last: Step)
    requires Thoughts(start, steps)
    ensures Thoughts(start, steps + [last])
  {
    var w := Run(start, steps);
    RunSnoc(start, steps, last);
    forall p | WorkerAt(Apply(w, last), p).Answered?
      ensures exists k :: ThoughtAt(start, steps + [last], k, p, WorkerAt(Apply(w, last), p))
    {
      if WorkerAt(w, p) == WorkerAt(Apply(w, last), p) {
        var k :| ThoughtAt(start, steps, k, p, WorkerAt(w, p));
        ThoughtStays(start, steps, last, k, p, WorkerAt(w, p));
      } else {
        AnswerIsThought(w, last, p);
        assert (steps + [last])[..|steps|] == steps;
        assert ThoughtAt(start, steps + [last], |steps|, p, WorkerAt(Apply(w, last), p));
      }
    }
  }

  lemma AnsweredStays(start: World, steps: seq<Step>, last: Step, k: nat, i: nat, job: JobId, text: string,
                      conversation: ConversationId)
    requires AnsweredAt(start, steps, k, i, job, text, conversation)
    ensures AnsweredAt(start, steps + [last], k, i, job, text, conversation)
  {
    assert (steps + [last])[..i] == steps[..i];
  }

  /** A row that was there before keeps its text, so its teller stays. */
  lemma OldReplyIsTold(start: World, steps: seq<Step>, last: Step, job: JobId, row: OutboxId)
    requires Inv(Run(start, steps)) && Told(start, steps) && row in Run(start, steps).outbox.rows
    requires IsOpenReply(Apply(Run(start, steps), last).outbox.rows, job, row)
    ensures ToldBy(start, steps + [last], job, row)
  {
    var (w, s) := (Run(start, steps), OutboxTransaction(Run(start, steps), last));
    RunSnoc(start, steps, last);
    OutboxByTransaction(w, last);
    if s.Some? {
      OP.RowMoves(w.outbox, s.value, row);
      if w.outbox.rows[row].status != O.Completed { OL.StepKeepsText(w.outbox, s.value, row); }
    }
    assert IsOpenReply(w.outbox.rows, job, row) && ToldBy(start, steps, job, row);
    var m := w.outbox.messages[w.outbox.rows[row].message];
    var k, i :| AnsweredAt(start, steps, k, i, job, m.content, m.conversation);
    AnsweredStays(start, steps, last, k, i, job, m.content, m.conversation);
  }

  /** A new reply row is a worker's, who queues what it was answered. */
  lemma NewReplyIsQueued(w: World, step: Step, job: JobId, row: OutboxId)
    requires Inv(w) && row !in w.outbox.rows && IsReply(Apply(w, step).outbox.rows, job, row)
    ensures step.Reply? && WorkerAt(w, step.worker).Answered?
    ensures var (s, after) := (WorkerAt(w, step.worker), Apply(w, step).outbox);
            && s.lease.token.id == job && s.lease.conversation.Some? && after.rows[row].message in after.messages
            && after.messages[after.rows[row].message].content == s.text
            && after.messages[after.rows[row].message].conversation == s.lease.conversation.value
  {
    var s := OutboxTransaction(w, step);
    OutboxByTransaction(w, step);
    InsertedRow(w.outbox, s.value, row);
    assert s.value.EnqueueStep? && s.value.key == O.ReplyTo(job);
    assert row == s.value.newRow;
    OL.NewRowSays(w.outbox, s.value);
  }

  lemma NewReplyIsTold(start: World, steps: seq<Step>, last: Step, job: JobId, row: OutboxId)
    requires Inv(Run(start, steps)) && Thoughts(start, steps) && row !in Run(start, steps).outbox.rows
    requires IsReply(Apply(Run(start, steps), last).outbox.rows, job, row)
    ensures ToldBy(start, steps + [last], job, row)
  {
    var w := Run(start, steps);
    RunSnoc(start, steps, last);
    NewReplyIsQueued(w, last, job, row);
    var worker := WorkerAt(w, last.worker);
    var k :| ThoughtAt(start, steps, k, last.worker, worker);
    assert (steps + [last])[..|steps|] == steps;
    assert AnsweredAt(start, steps + [last], k, |steps|, job, worker.text, worker.lease.conversation.value);
  }

  lemma StepKeepsTold(start: World, steps: seq<Step>, last: Step)
    requires Inv(Run(start, steps)) && Thoughts(start, steps) && Told(start, steps)
    ensures Told(start, steps + [last])
  {
    RunSnoc(start, steps, last);
    var after := Apply(Run(start, steps), last).outbox.rows;
    forall job: JobId, row | IsOpenReply(after, job, row)
      ensures ToldBy(start, steps + [last], job, row)
    {
      if row in Run(start, steps).outbox.rows { OldReplyIsTold(start, steps, last, job, row); }
      else { NewReplyIsTold(start, steps, last, job, row); }
    }
  }

  lemma {:induction false} RunKeepsTold(start: World, steps: seq<Step>)
    requires Inv(start) && start.workers == map[] && start.outbox.rows == map[]
    ensures var w := Run(start, steps); Inv(w) && LeasesFit(w)
    ensures Thoughts(start, steps) && Told(start, steps)
    decreases |steps|
  {
    RunKeepsInv(start, steps);
    if steps != [] {
      var (front, last) := (steps[..|steps| - 1], steps[|steps| - 1]);
      assert steps == front + [last];
      RunKeepsTold(start, front);
      RunSnoc(start, front, last);
      StepKeepsLeases(Run(start, front), last);
      StepKeepsThoughts(start, front, last);
      StepKeepsTold(start, front, last);
    }
  }

  // ---------------------------------------------------------------- the law

  /**
   Over every interleaving and every crash, what a dispatcher sends for a job goes to the chat of the job's
   conversation and is a text that the provider answered to a worker that had started this job, and that worker queued.
   */
  lemma SendsTheAnswer(conversations: map<ConversationId, O.Conversation>, accounts: set<AccountId>, limit: nat,
                       steps: seq<Step>, job: JobId, row: OutboxId, courier: WorkerId)
    requires 1 <= limit
    requires var w := Run(Start(conversations, accounts, limit), steps);
             IsReply(w.outbox.rows, job, row) && O.Prepare(w.outbox, row, courier).Send?
    ensures var w := Run(Start(conversations, accounts, limit), steps); var send := O.Prepare(w.outbox, row, courier);
            && job in w.jobs && w.jobs[job].request.conversation.Some?
            && var c := w.jobs[job].request.conversation.value;
               && c in w.outbox.conversations && send.chat == w.outbox.conversations[c].chat
               && send.key == O.ReplyTo(job)
               && exists k, i :: AnsweredAt(Start(conversations, accounts, limit), steps, k, i, job, send.text, c)
  {
    var start := Start(conversations, accounts, limit);
    StartIsOk(conversations, accounts, limit);
    RunKeepsTold(start, steps);
    var w := Run(start, steps);
    assert IsOpenReply(w.outbox.rows, job, row) && ToldBy(start, steps, job, row);
    var m := w.outbox.messages[w.outbox.rows[row].message];
    var k, i :| AnsweredAt(start, steps, k, i, job, m.content, m.conversation);
    AnswerIsForTheJob(start, steps, k, i, job, m.content, m.conversation);
  }

  lemma AnswerIsForTheJob(start: World, steps: seq<Step>, k: nat, i: nat, job: JobId, text: string,
                          conversation: ConversationId)
    requires Inv(start) && start.workers == map[] && start.outbox.rows == map[]
    requires AnsweredAt(start, steps, k, i, job, text, conversation)
    ensures job in Run(start, steps).jobs && Run(start, steps).jobs[job].request.conversation == Some(conversation)
  {
    var s := WorkerAt(Run(start, steps[..i]), steps[i].worker);
    RunKeepsTold(start, steps[..i]);
    assert LeaseFits(Run(start, steps[..i]).jobs, s);
    RequestsStay(start, steps, i, job);
  }

  lemma {:induction false} RequestsStay(start: World, steps: seq<Step>, i: nat, job: JobId)
    requires Inv(start) && i <= |steps| && job in Run(start, steps[..i]).jobs
    ensures job in Run(start, steps).jobs
    ensures Run(start, steps).jobs[job].request == Run(start, steps[..i]).jobs[job].request
    decreases |steps|
  {
    if i == |steps| {
      assert steps[..i] == steps;
    } else {
      var (front, last) := (steps[..|steps| - 1], steps[|steps| - 1]);
      assert steps == front + [last] && front[..i] == steps[..i];
      RequestsStay(start, front, i, job);
      RunKeepsInv(start, front);
      RunSnoc(start, front, last);
      JobsKeepRequests(Run(start, front), last, job);
    }
  }

  // ---------------------------------------------------------------- an answered job gets its reply

  /** The counts a row completes with make sense. */
  predicate CountsFit(p: Q.Progress) {
    p.total < 0x8000_0000 && p.completed + p.failed <= p.total
  }

  /** An answer becomes the reply exactly when the worker still holds the job as it started it. */
  lemma AnswerGoesOutIff(w: World, p: nat, now: Time, newMessage: MessageId, newRow: OutboxId)
    requires Inv(w) && LeasesFit(w) && WorkerAt(w, p).Answered?
    requires ReplyPossible(w, WorkerAt(w, p).lease, newMessage, newRow)
    ensures var s := WorkerAt(w, p); var after := Apply(w, Reply(p, now, newMessage, newRow));
            && s.lease.token.id in w.jobs
            && (newRow in after.outbox.rows <==>
                  && JL.Holds(w.jobs, s.lease.token.(version := s.version), now)
                  && CountsFit(w.jobs[s.lease.token.id].progress))
            && (newRow in after.outbox.rows ==>
                  && after.outbox.rows[newRow].key == O.ReplyTo(s.lease.token.id)
                  && IsCompleted(after.jobs, s.lease.token.id))
  {
    var s := WorkerAt(w, p);
    var job := s.lease.token.id;
    assert p in w.workers && LeaseFits(w.jobs, w.workers[p]);
    JL.CompletesIff(w.jobs, s.lease.token.(version := s.version), now, s.hash, None);
    assert IsCompleted(w.jobs, job) <==> HasReply(w.outbox.rows, job);
    if ReplyTx(w, s.lease, s.version, s.hash, s.text, now, newMessage, newRow).Some? {
      ReplyAddsOne(w, s.lease, s.version, s.hash, s.text, now, newMessage, newRow);
    } else if JL.Holds(w.jobs, s.lease.token.(version := s.version), now) {
      NoReplyYet(w.outbox, job);
    }
  }

  lemma NoReplyYet(db: O.OutboxDb, job: JobId)
    requires !HasReply(db.rows, job)
    ensures O.FindRow(db.rows, O.ReplyTo(job)).None?
  {
    if O.FindRow(db.rows, O.ReplyTo(job)).Some? { assert IsReply(db.rows, job, O.FindRow(db.rows, O.ReplyTo(job)).value); }
  }

  /** A claim gives the worker a lease it holds until the time is over. */
  lemma ClaimHolds(w: World, p: nat, claim: Q.ClaimArgs, id: JobId, at: Time)
    requires Inv(w) && WorkerAt(w, p).Idle? && Q.ClaimChoice(w.jobs, claim, id) && at < claim.now + claim.leaseSeconds
    ensures var after := Apply(w, ClaimJob(p, claim, id)); var s := WorkerAt(after, p);
            && s.Leased? && s.lease.token.id == id && s.lease.conversation == w.jobs[id].request.conversation
            && id in after.jobs && after.jobs[id].status == Q.Claimed && after.jobs[id].request == w.jobs[id].request
            && after.jobs[id].progress == w.jobs[id].progress && after.outbox == w.outbox
            && after.jobs[id].expires == Some(claim.now + claim.leaseSeconds) && JL.Holds(after.jobs, s.lease.token, at)
  {
    assert QP.RowOk(w.jobs, id);
  }

  lemma StartHolds(w: World, p: nat, startAt: Time, at: Time)
    requires Inv(w) && WorkerAt(w, p).Leased? && JL.Holds(w.jobs, WorkerAt(w, p).lease.token, startAt)
    requires var id := WorkerAt(w, p).lease.token.id; w.jobs[id].status == Q.Claimed && at < w.jobs[id].expires.value
    ensures var id := WorkerAt(w, p).lease.token.id; var after := Apply(w, StartJob(p, startAt)); var s := WorkerAt(after, p);
            && s.Started? && s.lease == WorkerAt(w, p).lease && after.outbox == w.outbox
            && id in after.jobs && after.jobs[id].progress == w.jobs[id].progress
            && JL.Holds(after.jobs, s.lease.token.(version := s.version), at)
  {
    var id := WorkerAt(w, p).lease.token.id;
    JL.StartsIff(w.jobs, WorkerAt(w, p).lease.token, startAt);
    assert QP.RowOk(w.jobs, id);
  }

  lemma ThinkAnswers(w: World, p: nat, text: string)
    requires WorkerAt(w, p).Started? && text != ""
    ensures var s := WorkerAt(w, p); var after := Apply(w, Think(p, text));
            WorkerAt(after, p) == Answered(s.lease, s.version, s.hash, text) && after.jobs == w.jobs && after.outbox == w.outbox
  {
  }

  lemma RunFour(w: World, a: Step, b: Step, c: Step, d: Step)
    ensures Run(w, [a, b, c, d]) == Apply(Apply(Apply(Apply(w, a), b), c), d)
  {
    RunSnoc(w, [], a);
    RunSnoc(w, [a], b);
    RunSnoc(w, [a, b], c);
    RunSnoc(w, [a, b, c], d);
    assert [] + [a] == [a] && [a] + [b] == [a, b] && [a, b] + [c] == [a, b, c] && [a, b, c] + [d] == [a, b, c, d];
  }

  /** A claimed job that is started and answered while its lease lasts, and that nobody disturbs, gets that reply. */
  lemma UndisturbedJobIsAnswered(w: World, p: nat, claim: Q.ClaimArgs, id: JobId, startAt: Time, text: string, now: Time,
                                 newMessage: MessageId, newRow: OutboxId)
    requires Inv(w) && LeasesFit(w) && WorkerAt(w, p).Idle? && Q.ClaimChoice(w.jobs, claim, id) && text != ""
    requires startAt < claim.now + claim.leaseSeconds && now < claim.now + claim.leaseSeconds
    requires CountsFit(w.jobs[id].progress) && w.jobs[id].request.conversation.Some?
    requires w.jobs[id].request.conversation.value in w.outbox.conversations
    requires newMessage !in w.outbox.messages && newRow !in w.outbox.rows
    ensures var after := Run(w, [ClaimJob(p, claim, id), StartJob(p, startAt), Think(p, text),
                                 Reply(p, now, newMessage, newRow)]);
            && IsCompleted(after.jobs, id) && IsReply(after.outbox.rows, id, newRow)
            && after.outbox.rows[newRow].message in after.outbox.messages
            && var m := after.outbox.messages[after.outbox.rows[newRow].message];
               m.content == text && Some(m.conversation) == w.jobs[id].request.conversation
  {
    var w1 := Apply(w, ClaimJob(p, claim, id));
    var w2 := Apply(w1, StartJob(p, startAt));
    var w3 := Apply(w2, Think(p, text));
    var reply := Reply(p, now, newMessage, newRow);
    RunFour(w, ClaimJob(p, claim, id), StartJob(p, startAt), Think(p, text), reply);
    StepsKeepLeases(w, ClaimJob(p, claim, id), StartJob(p, startAt), Think(p, text));
    ClaimHolds(w, p, claim, id, startAt);
    StartHolds(w1, p, startAt, now);
    ThinkAnswers(w2, p, text);
    AnswerGoesOutIff(w3, p, now, newMessage, newRow);
    NewReplyIsQueued(w3, reply, id, newRow);
  }

  lemma StepsKeepLeases(w: World, a: Step, b: Step, c: Step)
    requires Inv(w) && LeasesFit(w)
    ensures Inv(Apply(w, a)) && Inv(Apply(Apply(w, a), b))
    ensures Inv(Apply(Apply(Apply(w, a), b), c)) && LeasesFit(Apply(Apply(Apply(w, a), b), c))
  {
    StepKeepsInv(w, a);
    StepKeepsLeases(w, a);
    StepKeepsInv(Apply(w, a), b);
    StepKeepsLeases(Apply(w, a), b);
    StepKeepsInv(Apply(Apply(w, a), b), c);
    StepKeepsLeases(Apply(Apply(w, a), b), c);
  }
}
