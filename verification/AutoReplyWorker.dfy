/** One worker process with nothing interleaved: run_once over a repository and the outbox tables. */
module AutoReplyWorkerModule {
  import opened Base
  import opened JobQueue
  import opened JobProperties
  import opened JobRepositoryModule
  import opened OutboxDispatcherModule
  import O = Outbox
  import OP = OutboxProperties

  datatype Outcome = Replied | Declined | Raised

  /** What the policy checks, the provider and the clock turn out to be during one pass. */
  datatype Circumstances = Circumstances(startAt: Time, policyAllows: bool, text: string, humanReplied: bool,
                                         replyAt: Time, failAt: Time, delay: nat)

  /** Failing with the token of the claim: without effect after a start, and never a way into running. */
  lemma FailAfterAttempt(jobs: JobDb, t: Token, startAt: Time, failAt: Time, delay: nat)
    requires Inv(jobs) && t.id in jobs && jobs[t.id].status == Claimed
    ensures var after := Apply(Apply(jobs, StartStep(t, startAt)), FailStep(t, failAt, delay));
            && t.id in after
            && (after[t.id].status == Running <==> LeaseCas(jobs, t, startAt, Start, None).Ok?)
  {
  }

  lemma OneRowPerKey(db: O.OutboxDb, row: OutboxId)
    requires OP.Inv(db) && row in db.rows
    ensures forall other :: other in db.rows && db.rows[other].key == db.rows[row].key ==> other == row
  {
    assert forall other :: other in db.rows && db.rows[other].key == db.rows[row].key ==>
                             OP.Clash(db.rows[other], db.rows[row]);
  }

  class AutoReplyWorker {
    const repo: AnalysisJobRepository
    const outbox: OutboxDispatcher
    const workerId: WorkerId
    const leaseSeconds: nat
    const maxActive: nat
    var processed: nat
    var failed: nat
    var recoveredLeases: nat
    var lastRecovery: Option<int>

    constructor (repo: AnalysisJobRepository, outbox: OutboxDispatcher, worker: WorkerId, lease: nat, active: nat)
      ensures this.repo == repo && this.outbox == outbox && workerId == worker
      ensures leaseSeconds == lease && maxActive == active
      ensures processed == 0 && failed == 0 && recoveredLeases == 0 && lastRecovery.None?
    {
      this.repo, this.outbox, workerId := repo, outbox, worker;
      leaseSeconds, maxActive := lease, active;
      processed, failed, recoveredLeases, lastRecovery := 0, 0, 0, None;
    }

    ghost predicate Valid()
      reads this, repo, outbox
    {
      Inv(repo.jobs) && OP.Inv(outbox.Db())
    }

    function TokenOf(lease: JobLease): Token {
      Token(lease.row.account, lease.id, workerId, lease.row.version)
    }

    /** The worker's own start of the job it has just claimed still goes through. */
    ghost predicate Starts(jobs: JobDb, lease: JobLease, c: Circumstances) {
      LeaseCas(jobs, TokenOf(lease), c.startAt, Start, None).Ok?
    }

    ghost function Started(jobs: JobDb, lease: JobLease, c: Circumstances): JobDb {
      Apply(jobs, StartStep(TokenOf(lease), c.startAt))
    }

    /** The token after the start. */
    ghost function Present(jobs: JobDb, lease: JobLease): Token
      requires lease.id in jobs
    {
      TokenOf(lease).(version := jobs[lease.id].version)
    }

    ghost function Answering(lease: JobLease, c: Circumstances, newMessage: MessageId, newRow: OutboxId): O.Step
      requires lease.row.request.conversation.Some?
    {
      O.EnqueueStep(lease.row.request.conversation.value, c.text, c.replyAt, O.ReplyTo(lease.id), newMessage, newRow)
    }

    /** At most one recovery pass per half minute. */
    method RecoverIfDue(now: Time) returns (ghost chosen: set<JobId>)
      requires Inv(repo.jobs)
      modifies repo, this`recoveredLeases, this`lastRecovery
      ensures Inv(repo.jobs) && lastRecovery == Some(now / 30)
      ensures old(lastRecovery) == Some(now / 30) ==>
                chosen == {} && repo.jobs == old(repo.jobs) && recoveredLeases == old(recoveredLeases)
      ensures old(lastRecovery) != Some(now / 30) ==>
                && RecoverChoice(old(repo.jobs), now, 100, None, chosen)
                && repo.jobs == Recovered(old(repo.jobs), now, chosen)
                && recoveredLeases == old(recoveredLeases) + |chosen|
    {
      chosen := {};
      if lastRecovery == Some(now / 30) { return; }
      lastRecovery := Some(now / 30);
      var recovered;
      recovered, chosen := repo.RecoverExpiredLeases(now, 100, None);
      recoveredLeases := recoveredLeases + recovered;
    }

    /** Whatever row answers this job says this, in this conversation, and may go out from this time on. */
    ghost predicate Answers(job: JobId, text: string, conversation: ConversationId, from: Time)
      reads this, outbox
    {
      forall row :: row in outbox.rows && outbox.rows[row].key == O.ReplyTo(job) ==>
                      outbox.Says(row, text, conversation, from)
    }

    /** Phase three commits both tables or neither, and a reply that is new says the text. */
    method ReplyTogether(lease: JobLease, conversation: ConversationId, version: nat, hash: Hash, text: string,
                         now: Time, newMessage: MessageId, newRow: OutboxId) returns (committed: bool)
      requires Valid() && conversation in outbox.conversations && text != ""
      requires newMessage !in outbox.messages && newRow !in outbox.rows
      modifies repo, outbox
      ensures Valid() && outbox.conversations == old(outbox.conversations)
      ensures !committed ==> repo.jobs == old(repo.jobs) && outbox.Db() == old(outbox.Db())
      ensures committed ==>
                && lease.id in repo.jobs && repo.jobs[lease.id].status == Completed
                && repo.jobs == Apply(old(repo.jobs), CompleteStep(TokenOf(lease).(version := version), now, hash, None))
                && O.FindRow(outbox.rows, O.ReplyTo(lease.id)).Some?
                && outbox.Db() == O.Apply(old(outbox.Db()),
                     O.EnqueueStep(conversation, text, now, O.ReplyTo(lease.id), newMessage, newRow))
      ensures committed && O.FindRow(old(outbox.rows), O.ReplyTo(lease.id)).None? ==>
                Answers(lease.id, text, conversation, now)
      ensures committed && O.FindRow(old(outbox.rows), O.ReplyTo(lease.id)).Some? ==> outbox.Db() == old(outbox.Db())
      ensures committed <==>
                && CompleteLease(old(repo.jobs), TokenOf(lease).(version := version), now, hash, None).Ok?
                && O.Enqueue(old(outbox.Db()), conversation, text, now, O.ReplyTo(lease.id), newMessage, newRow).Ok?
    {
      var rows, messages := outbox.rows, outbox.messages;
      var t := TokenOf(lease).(version := version);
      StepKeepsInv(repo.jobs, CompleteStep(t, now, hash, None));
      var queued := outbox.EnqueueOutboxMessage(conversation, text, now, O.ReplyTo(lease.id), newMessage, newRow);
      if queued.Err? {
        outbox.rows, outbox.messages := rows, messages;
        return false;
      }
      var done := repo.Complete(t, now, hash, None);
      if done.Err? {
        outbox.rows, outbox.messages := rows, messages;
        return false;
      }
      OneRowPerKey(outbox.Db(), queued.value);
      return true;
    }

    /** The job has a conversation that still exists, and the policy lets the worker answer in it. */
    predicate Permitted(lease: JobLease, c: Circumstances)
      reads outbox
    {
      c.policyAllows && lease.row.request.conversation.Some? && lease.row.request.conversation.value in outbox.conversations
    }

    /** With nothing interleaved, the lease lasts until the reply is there, and the key is free or of this conversation. */
    ghost predicate Commits(jobs: JobDb, db: O.OutboxDb, lease: JobLease, c: Circumstances, newMessage: MessageId,
                            newRow: OutboxId)
      requires lease.row.request.conversation.Some? && lease.row.request.conversation.value in db.conversations
      requires Starts(jobs, lease, c)
    {
      var started := Started(jobs, lease, c);
      && CompleteLease(started, Present(started, lease), c.replyAt, started[lease.id].request.inputHash, None).Ok?
      && O.Enqueue(db, lease.row.request.conversation.value, c.text, c.replyAt, O.ReplyTo(lease.id), newMessage, newRow).Ok?
    }

    /**
     _process: the provider's text is committed as the reply, or the job is cancelled because the policy or a human
     answer stands against one, or an exception leaves the outbox alone and at most the start committed.
     */
    method Process(lease: JobLease, c: Circumstances, newMessage: MessageId, newRow: OutboxId) returns (r: Outcome)
      requires Valid() && newMessage !in outbox.messages && newRow !in outbox.rows
      modifies repo, outbox
      ensures Valid()
      ensures !r.Replied? ==> outbox.Db() == old(outbox.Db())
      ensures r.Replied? ==>
                && lease.id in repo.jobs && repo.jobs[lease.id].status == Completed
                && O.FindRow(outbox.rows, O.ReplyTo(lease.id)).Some?
      ensures r.Replied? ==> Permitted(lease, c) && c.text != "" && !c.humanReplied
      ensures r.Replied? && O.FindRow(old(outbox.rows), O.ReplyTo(lease.id)).None? ==>
                Answers(lease.id, c.text, lease.row.request.conversation.value, c.replyAt)
      ensures r.Declined? ==> lease.id in repo.jobs && repo.jobs[lease.id].status == Cancelled
      ensures r.Declined? ==> !Permitted(lease, c) || (c.text != "" && c.humanReplied)
      ensures r.Raised? ==> repo.jobs == Started(old(repo.jobs), lease, c)
      ensures r.Declined? ==>
                repo.jobs == Apply(Started(old(repo.jobs), lease, c),
                                   CancelStep(lease.row.account, lease.id, lease.row.version + 1))
      ensures r.Replied? ==>
                && lease.id in Started(old(repo.jobs), lease, c)
                && var jobs := Started(old(repo.jobs), lease, c);
                   repo.jobs == Apply(jobs, CompleteStep(Present(jobs, lease), c.replyAt,
                                                         jobs[lease.id].request.inputHash, None))
      ensures r.Replied? ==> outbox.Db() == O.Apply(old(outbox.Db()), Answering(lease, c, newMessage, newRow))
      ensures !Starts(old(repo.jobs), lease, c) ==> r.Raised?
      ensures Starts(old(repo.jobs), lease, c) && old(Permitted(lease, c)) && c.text == "" ==> r.Raised?
      ensures Starts(old(repo.jobs), lease, c) && (!old(Permitted(lease, c)) || (c.text != "" && c.humanReplied)) ==>
                r.Declined?
      ensures Starts(old(repo.jobs), lease, c) && old(Permitted(lease, c)) && c.text != "" && !c.humanReplied ==>
                (r.Replied? <==> Commits(old(repo.jobs), old(outbox.Db()), lease, c, newMessage, newRow))
      ensures LeaseCas(old(repo.jobs), TokenOf(lease), c.startAt, Start, None).Ok? && r.Raised? ==>
                lease.id in repo.jobs && repo.jobs[lease.id].status == Running
    {
      var started := repo.Start(TokenOf(lease), c.startAt);
      StepKeepsInv(old(repo.jobs), StartStep(TokenOf(lease), c.startAt));
      if started.Err? { return Raised; }
      var version, hash := started.value.version, started.value.request.inputHash;
      StepKeepsInv(repo.jobs, CancelStep(lease.row.account, lease.id, version));
      var conversation := lease.row.request.conversation;
      if !c.policyAllows || conversation.None? || conversation.value !in outbox.conversations {
        var cancelled := repo.Cancel(lease.row.account, lease.id, version);
        return if cancelled.Ok? then Declined else Raised;
      }
      if c.text == "" { return Raised; }
      if c.humanReplied {
        var cancelled := repo.Cancel(lease.row.account, lease.id, version);
        return if cancelled.Ok? then Declined else Raised;
      }
      var committed := ReplyTogether(lease, conversation.value, version, hash, c.text, c.replyAt, newMessage, newRow);
      return if committed then Replied else Raised;
    }

    method Fail(lease: JobLease, now: Time, delay: nat)
      requires Valid()
      modifies repo
      ensures Valid() && repo.jobs == Apply(old(repo.jobs), FailStep(TokenOf(lease), now, delay))
    {
      StepKeepsInv(repo.jobs, FailStep(TokenOf(lease), now, delay));
      var r := repo.Fail(TokenOf(lease), now, delay);
    }

    function Claiming(now: Time): ClaimArgs {
      ClaimArgs(workerId, leaseSeconds, None, now, Some(maxActive), Some(maxActive), None, None)
    }

    /**
     Processing and, after an exception, failing one claimed job. A failed job that had been started stays
     running, since the failure is reported with the version of the claim.
     */
    method Attempt(lease: JobLease, c: Circumstances, newMessage: MessageId, newRow: OutboxId) returns (outcome: Outcome)
      requires Valid() && newMessage !in outbox.messages && newRow !in outbox.rows
      requires lease.id in repo.jobs && repo.jobs[lease.id] == lease.row && lease.row.status == Claimed
      modifies this`processed, this`failed, repo, outbox
      ensures Valid() && lease.id in repo.jobs
      ensures outcome.Replied? ==> repo.jobs[lease.id].status == Completed && O.FindRow(outbox.rows, O.ReplyTo(lease.id)).Some?
      ensures outcome.Replied? ==> lease.row.request.conversation.Some?
      ensures outcome.Replied? && O.FindRow(old(outbox.rows), O.ReplyTo(lease.id)).None? ==>
                Answers(lease.id, c.text, lease.row.request.conversation.value, c.replyAt)
      ensures outcome.Declined? ==> repo.jobs[lease.id].status == Cancelled
      ensures outcome.Replied? <==>
                && Starts(old(repo.jobs), lease, c) && old(Permitted(lease, c)) && c.text != "" && !c.humanReplied
                && Commits(old(repo.jobs), old(outbox.Db()), lease, c, newMessage, newRow)
      ensures outcome.Declined? <==>
                Starts(old(repo.jobs), lease, c) && (!old(Permitted(lease, c)) || (c.text != "" && c.humanReplied))
      ensures outcome.Raised? ==>
                repo.jobs == Apply(Started(old(repo.jobs), lease, c), FailStep(TokenOf(lease), c.failAt, c.delay))
      ensures outcome.Raised? ==> (repo.jobs[lease.id].status == Running <==> Starts(old(repo.jobs), lease, c))
      ensures !outcome.Replied? ==> outbox.Db() == old(outbox.Db())
      ensures processed == old(processed) + (if outcome.Raised? then 0 else 1)
      ensures failed == old(failed) + (if outcome.Raised? then 1 else 0)
    {
      FailAfterAttempt(repo.jobs, TokenOf(lease), c.startAt, c.failAt, c.delay);
      outcome := Process(lease, c, newMessage, newRow);
      if outcome.Raised? {
        failed := failed + 1;
        Fail(lease, c.failAt, c.delay);
      } else {
        processed := processed + 1;
      }
    }

    /**
     run_once counts every claimed job exactly once, as processed or as failed. `before` is the table the claim
     was made on.
     */
    method RunOnce(now: Time, c: Circumstances, newMessage: MessageId, newRow: OutboxId)
      returns (worked: bool, outcome: Outcome, ghost before: JobDb, ghost lease: Option<JobLease>)
      requires Valid() && newMessage !in outbox.messages && newRow !in outbox.rows
      modifies this, repo, outbox
      ensures Valid()
      ensures old(lastRecovery) == Some(now / 30) ==> before == old(repo.jobs)
      ensures old(lastRecovery) != Some(now / 30) ==>
                exists chosen :: RecoverChoice(old(repo.jobs), now, 100, None, chosen)
                                 && before == Recovered(old(repo.jobs), now, chosen)
      ensures worked <==> lease.Some?
      ensures !worked ==> repo.jobs == before && outbox.Db() == old(outbox.Db())
      ensures !worked ==> (!ValidClaim(Claiming(now)) || CapReached(before, Claiming(now))
                           || forall o :: o in before ==> !Candidate(before, Claiming(now), o))
      ensures lease.Some? ==> ClaimChoice(before, Claiming(now), lease.value.id) && lease.value.id in repo.jobs
      ensures lease.Some? && outcome.Replied? ==>
                repo.jobs[lease.value.id].status == Completed && O.FindRow(outbox.rows, O.ReplyTo(lease.value.id)).Some?
      ensures lease.Some? && outcome.Replied? ==> lease.value.row.request.conversation.Some?
      ensures lease.Some? && outcome.Replied? && O.FindRow(old(outbox.rows), O.ReplyTo(lease.value.id)).None? ==>
                Answers(lease.value.id, c.text, lease.value.row.request.conversation.value, c.replyAt)
      ensures lease.Some? && outcome.Declined? ==> repo.jobs[lease.value.id].status == Cancelled
      ensures lease.Some? && outcome.Raised? ==>
                (repo.jobs[lease.value.id].status == Running
                 <==> Starts(Apply(before, ClaimStep(Claiming(now), lease.value.id)), lease.value, c))
      ensures lease.Some? ==>
                && lease.value.id in before && lease.value.row.request == before[lease.value.id].request
                && lease.value.row.owner == Some(workerId) && lease.value.row.expires == Some(now + leaseSeconds)
                && |ActiveIds(before)| < maxActive
      ensures lease.Some? ==>
                var jobs := Apply(before, ClaimStep(Claiming(now), lease.value.id));
                && (outcome.Replied? <==>
                      && Starts(jobs, lease.value, c) && old(Permitted(lease.value, c)) && c.text != "" && !c.humanReplied
                      && Commits(jobs, old(outbox.Db()), lease.value, c, newMessage, newRow))
                && (outcome.Declined? <==>
                      && Starts(jobs, lease.value, c)
                      && (!old(Permitted(lease.value, c)) || (c.text != "" && c.humanReplied)))
      ensures !worked || !outcome.Replied? ==> outbox.Db() == old(outbox.Db())
      ensures processed == old(processed) + (if worked && !outcome.Raised? then 1 else 0)
      ensures failed == old(failed) + (if worked && outcome.Raised? then 1 else 0)
    {
      ghost var _ := RecoverIfDue(now);
      before := repo.jobs;
      outcome := Raised;
      var claim := repo.ClaimNext(Claiming(now));
      lease := claim;
      if claim.None? { return false, outcome, before, lease; }
      outcome := Attempt(claim.value, c, newMessage, newRow);
      worked := true;
    }
  }
}
