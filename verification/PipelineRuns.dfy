/**
 Two runs of the pipeline that end badly: a sent message whose row can never be completed because its own echo
 took the platform id first, and a failed job that stays running because its failure was reported too late.
 */
module PipelineRuns {
  import opened Base
  import opened Messages
  import opened Pipeline
  import P = PipelineProperties
  import Q = JobQueue
  import QP = JobProperties
  import O = Outbox
  import K = KeyedSend
  import R = ReceiptStore

  lemma {:induction false} RunConcat(w: World, xs: seq<Step>, ys: seq<Step>)
    ensures Run(w, xs + ys) == Run(Run(w, xs), ys)
    decreases |xs|
  {
    if xs == [] {
      assert xs + ys == ys;
    } else {
      assert (xs + ys)[0] == xs[0] && (xs + ys)[1..] == xs[1..] + ys;
      RunConcat(Apply(w, xs[0]), xs[1..], ys);
    }
  }

  lemma RunThree(w: World, a: Step, b: Step, c: Step)
    ensures Run(w, [a, b, c]) == Apply(Apply(Apply(w, a), b), c)
  {
    assert [a, b, c][1..] == [b, c] && [b, c][1..] == [c] && [c][1..] == [];
    var w1 := Apply(w, a);
    var w2 := Apply(w1, b);
    assert Run(w2, [c]) == Run(Apply(w2, c), []);
    assert Run(w1, [b, c]) == Run(w2, [c]);
  }

  // ---------------------------------------------------------------- the echo comes first

  const CHAT := O.Conversation(0, None, "chat", false, "", None)
  const KEY := O.Client("k")
  const QUEUED := Message(0, 0, None, true, Text, None, "hello", InQueue, None, 0, None, None, None, None)
  const ECHO := Message(0, 0, None, true, Text, Some(9), "hello", Sent, None, 0, None, None, None, Some(1))
  const ROW := O.Row(0, 0, KEY, O.Leased, 1, 0, Some(7), Some(45), None)

  /** A message is queued, claimed by dispatcher 7, ... */
  const QUEUE_AND_CLAIM := [OtherOutboxStep(O.EnqueueStep(0, "hello", 0, KEY, 0, 0)),
                            OtherOutboxStep(O.ClaimStep(0, 7, 1, 45, {0})),
                            OtherBridgeStep(0, K.OnlineStep(true))]

  /** ... sent, given id 9 by the platform, and stored under that id by the event service before the reply is recorded. */
  const SEND_AND_ECHO := [Deliver(7, 0, 0, 0), OtherBridgeStep(0, K.ResolveStep(0, Some(9))),
                          OtherOutboxStep(O.UpsertStep(1, ECHO))]

  const CLAIMED := World(map[], O.OutboxDb(map[0 := ROW], map[0 := QUEUED], map[0 := CHAT]),
                         map[0 := K.Fresh([], 100).(online := true)], map[], map[])

  const SENT := K.Bridge(true, R.Store([R.Entry(KEY, 9)], []), 100, map[KEY := 0],
                         map[0 := K.Op(Some(KEY), K.Flushing(9))], map[0 := K.Call(Some(KEY), K.Join(0))],
                         [K.Yield(Some(KEY), 9)], {})

  const ECHOED := World(map[], O.OutboxDb(map[0 := ROW], map[0 := QUEUED, 1 := ECHO], map[0 := CHAT]), map[0 := SENT],
                        map[], map[7 := Waiting(0, 0, 0)])

  lemma QueuesAndClaims()
    ensures Run(Start(map[0 := CHAT], {0}, 100), QUEUE_AND_CLAIM) == CLAIMED
  {
    var w := Start(map[0 := CHAT], {0}, 100);
    assert w.bridges == map[0 := K.Fresh([], 100)];
    var w1 := Apply(w, QUEUE_AND_CLAIM[0]);
    var waiting := O.Row(0, 0, KEY, O.Waiting, 0, 0, None, None, None);
    assert w1.outbox == O.OutboxDb(map[0 := waiting], map[0 := QUEUED], map[0 := CHAT]);
    assert O.BatchChoice(w1.outbox.rows, 0, 1, {0});
    var w2 := Apply(w1, QUEUE_AND_CLAIM[1]);
    assert w2.outbox.rows == map[0 := ROW];
    assert Apply(w2, QUEUE_AND_CLAIM[2]).bridges == CLAIMED.bridges;
    RunThree(w, QUEUE_AND_CLAIM[0], QUEUE_AND_CLAIM[1], QUEUE_AND_CLAIM[2]);
  }

  const SENDING := SENT.(store := R.Store([], []), ops := map[0 := K.Op(Some(KEY), K.Sending)], obtained := [])

  lemma Resolves()
    ensures K.Apply(SENDING, K.ResolveStep(0, Some(9))) == SENT
  {
    var entries := R.Remember([], R.Entry(KEY, 9), 100);
    assert R.Delete([], KEY) + [R.Entry(KEY, 9)] == [R.Entry(KEY, 9)] == entries;
    assert K.Dropped([], entries) == {};
  }

  lemma Sends()
    ensures Apply(CLAIMED, SEND_AND_ECHO[0]) == CLAIMED.(bridges := map[0 := SENDING], couriers := ECHOED.couriers)
  {
    assert O.Prepare(CLAIMED.outbox, 0, 7) == O.Send(0, "chat", "hello", KEY);
    assert K.Apply(CLAIMED.bridges[0], K.SendStep(0, 0, Some(KEY))) == SENDING;
  }

  lemma SendsAndEchoes()
    ensures Run(CLAIMED, SEND_AND_ECHO) == ECHOED
  {
    Sends();
    Resolves();
    var w1 := Apply(CLAIMED, SEND_AND_ECHO[0]);
    var w2 := Apply(w1, SEND_AND_ECHO[1]);
    assert w2.bridges == map[0 := SENT];
    assert Apply(w2, SEND_AND_ECHO[2]).outbox == ECHOED.outbox;
    RunThree(CLAIMED, SEND_AND_ECHO[0], SEND_AND_ECHO[1], SEND_AND_ECHO[2]);
  }

  /**
   From an empty outbox, six steps: the row is leased, its message was sent once, as 9, and another message has the
   id. From there nobody ever completes the row while the bridge knows its key, whatever comes later.
   */
  lemma EchoedIsNeverCompleted(later: seq<Step>)
    ensures var w := Run(Start(map[0 := CHAT], {0}, 100), QUEUE_AND_CLAIM + SEND_AND_ECHO);
            && P.Inv(w) && O.Owns(w.outbox.rows, 0, 7) && w.outbox.rows[0] == ROW
            && 0 in w.bridges && KEY !in w.bridges[0].forgotten && K.ObtainedFor(w.bridges[0].obtained, KEY) == [9]
            && O.WaIdTaken(w.outbox.messages, 0, 9, ROW.message)
            && var after := Run(w, later);
               0 in after.outbox.rows && (after.outbox.rows[0].status != O.Completed
                                          || (0 in after.bridges && KEY in after.bridges[0].forgotten))
  {
    EchoIsReached();
    EchoTakesTheId();
    if !(0 in Run(ECHOED, later).bridges && KEY in Run(ECHOED, later).bridges[0].forgotten) {
      P.TakenNeverCompletes(ECHOED, later, 0);
    } else {
      P.RunCarries(ECHOED, later);
    }
  }

  lemma EchoIsReached()
    ensures Run(Start(map[0 := CHAT], {0}, 100), QUEUE_AND_CLAIM + SEND_AND_ECHO) == ECHOED && P.Inv(ECHOED)
  {
    QueuesAndClaims();
    SendsAndEchoes();
    RunConcat(Start(map[0 := CHAT], {0}, 100), QUEUE_AND_CLAIM, SEND_AND_ECHO);
    P.StartIsOk(map[0 := CHAT], {0}, 100);
    P.RunKeepsInv(Start(map[0 := CHAT], {0}, 100), QUEUE_AND_CLAIM + SEND_AND_ECHO);
  }

  lemma EchoTakesTheId()
    ensures K.ObtainedFor(SENT.obtained, KEY) == [9]
    ensures O.WaIdTaken(ECHOED.outbox.messages, 0, 9, ROW.message)
  {
    assert SENT.obtained == [] + [K.Yield(Some(KEY), 9)];
    K.ObtainedSnoc([], KEY, 9);
    assert 1 in ECHOED.outbox.messages && Named(ECHOED.outbox.messages[1], 0, 9);
  }

  // ---------------------------------------------------------------- the failure comes too late

  const SCOPE := Q.Directory({0}, map[], map[])
  const ARGS := Q.EnqueueArgs(0, Q.AutoReply(0, 9, "auto"),
                              Q.Request("auto_reply", None, None, None, 10, 0, 0, Digest(0)), 0, 6,
                              Q.Progress(0, 0, 0), None)
  const CLAIM := Q.ClaimArgs(1, 300, None, 0, None, None, None, None)
  const TOKEN := Q.Token(0, 0, 1, 2)
  const RUNNING := Q.Job(0, ARGS.key, ARGS.request, 6, 0, Q.Running, 0, 1, 3, Some(1), Some(300), ARGS.progress)

  /** A job is queued, claimed and started by worker 0; the provider fails, and the worker reports it. */
  const BEGIN := [OtherJobStep(Q.EnqueueStep(SCOPE, map[], ARGS, 0, 0)), ClaimJob(0, CLAIM, 0), StartJob(0, 0)]
  const REPORT := [Think(0, ""), FailJob(0, 1, 60)]

  const BEGUN := World(map[0 := RUNNING], O.OutboxDb(map[], map[], map[]), map[],
                       map[0 := Started(Lease(TOKEN, None), 3, ARGS.request.inputHash)], map[])

  lemma Begins()
    ensures Run(Start(map[], {}, 1), BEGIN) == BEGUN
  {
    var w := Start(map[], {}, 1);
    var w1 := Apply(w, BEGIN[0]);
    assert w1.jobs == map[0 := Q.NewJob(ARGS, 0)];
    assert Q.ClaimChoice(w1.jobs, CLAIM, 0);
    var w2 := Apply(w1, BEGIN[1]);
    assert w2.workers == map[0 := Leased(Lease(TOKEN, None))];
    var w3 := Apply(w2, BEGIN[2]);
    assert w3.jobs == map[0 := RUNNING];
    RunThree(w, BEGIN[0], BEGIN[1], BEGIN[2]);
  }

  lemma Reports()
    ensures Run(BEGUN, REPORT) == BEGUN.(workers := map[0 := Idle])
  {
    var w1 := Apply(BEGUN, REPORT[0]);
    assert w1.workers == map[0 := Failing(Lease(TOKEN, None))];
    assert Q.FailLease(w1.jobs, TOKEN, 1, 60) == Err(Q.Stale);
    assert REPORT[1..] == [REPORT[1]] && [REPORT[1]][1..] == [];
    assert Run(w1, [REPORT[1]]) == Run(Apply(w1, REPORT[1]), []);
  }

  /**
   From the empty table, five steps: the worker has reported the failure and is free, and the job is still running
   under its lease. Reported again with that token, after any further operations on the table, it is refused again.
   */
  lemma FailedJobKeepsRunning(later: seq<Q.Step>, now: Time, delay: nat)
    ensures var w := Run(Start(map[], {}, 1), BEGIN + REPORT);
            && WorkerAt(w, 0).Idle? && w.jobs == map[0 := RUNNING]
            && Q.Committed(Q.Run(w.jobs, later), Q.FailLease(Q.Run(w.jobs, later), TOKEN, now, delay)) == Q.Run(w.jobs, later)
  {
    Begins();
    Reports();
    RunConcat(Start(map[], {}, 1), BEGIN, REPORT);
    StartsClaimed();
    P.FailureAfterStartIsLost(map[0 := CLAIMED_JOB], TOKEN, 0, later, now, delay);
  }

  const CLAIMED_JOB := RUNNING.(status := Q.Claimed, version := 2)

  lemma StartsClaimed()
    ensures QP.Inv(map[0 := CLAIMED_JOB]) && Q.LeaseCas(map[0 := CLAIMED_JOB], TOKEN, 0, Q.Start, None).Ok?
    ensures Q.Apply(map[0 := CLAIMED_JOB], Q.StartStep(TOKEN, 0)) == map[0 := RUNNING]
  {
    assert QP.RowOk(map[0 := CLAIMED_JOB], 0);
  }
}
