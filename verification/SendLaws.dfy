/** What the callers of a keyed send get, when a send is started, and what a crash can cost. */
module SendLaws {
  import opened Base
  import opened ReceiptStore
  import opened KeyedSend
  import Outbox

  // ---------------------------------------------------------------- starting a send

  /** A call starts a send of its own exactly when the session is online and its key is neither remembered nor under way. */
  lemma StartsSendingIff(b: Bridge, online: bool, call: CallId, op: OpId, key: Option<Key>)
    requires call !in b.calls && op !in b.ops
    ensures var after := Apply(Apply(b, OnlineStep(online)), SendStep(call, op, key));
            && call in after.calls && after.store == b.store && after.obtained == b.obtained
            && ((op in after.ops && after.ops[op] == Op(key, Sending)) <==>
                  online && (key.Some? ==> key.value !in Keys(b.store.entries) && key.value !in b.inFlight))
            && (key.Some? && key.value in Keys(b.store.entries) ==>
                  after.ops == b.ops && Entry(key.value, after.calls[call].answer.id) in b.store.entries)
            && (key.Some? && key.value !in Keys(b.store.entries) && key.value in b.inFlight ==>
                  after.ops == b.ops && after.calls[call].answer == Join(b.inFlight[key.value]))
            && (key.Some? && key.value !in Keys(b.store.entries) && key.value !in b.inFlight ==>
                  key.value in after.inFlight && after.inFlight[key.value] == op)
  {
  }

  // ---------------------------------------------------------------- how a send ends

  /** The call waits for this operation. */
  predicate WaitsFor(b: Bridge, call: CallId, op: OpId) {
    call in b.calls && b.calls[call].answer == Join(op)
  }

  /** A failed send answers nobody and frees its key: the next call under it sends again. */
  lemma FailureFreesTheKey(b: Bridge, op: OpId, k: Key, call: CallId, again: OpId, caller: CallId)
    requires Inv(b) && k !in b.forgotten && op in b.ops && b.ops[op] == Op(Some(k), Sending) && WaitsFor(b, caller, op)
    requires call !in b.calls && again !in b.ops && b.online
    ensures var failed := Apply(Apply(b, ResolveStep(op, None)), ForgetStep(op));
            && KeyedSend.Result(failed, caller) == None && k !in failed.inFlight && failed.store == b.store
            && failed.obtained == b.obtained
            && var after := Apply(failed, SendStep(call, again, Some(k)));
               again in after.ops && after.ops[again] == Op(Some(k), Sending)
  {
    assert KeyOk(b, k) && OpOk(b, k, op);
  }

  /** A send that goes through answers its callers with the platform's id, once the file and the event are written. */
  lemma SuccessIsReported(b: Bridge, op: OpId, k: Key, id: WaId, caller: CallId)
    requires Inv(b) && op in b.ops && b.ops[op] == Op(Some(k), Sending) && WaitsFor(b, caller, op)
    ensures var yielded := Apply(b, ResolveStep(op, Some(id))); var flushed := Apply(yielded, Step.FlushStep(op, true));
            var done := Apply(flushed, EmitStep(op, true));
            && KeyedSend.Result(b, caller) == None && KeyedSend.Result(yielded, caller) == None
            && KeyedSend.Result(flushed, caller) == None
            && KeyedSend.Result(done, caller) == Some(id) && done.obtained == b.obtained + [Yield(Some(k), id)]
            && Entry(k, id) in done.store.file && done.store.file == done.store.entries
  {
    RememberFacts(b.store.entries, Entry(k, id), b.limit);
    assert Lookup(Apply(b, ResolveStep(op, Some(id))).store.entries, k) == Some(id);
  }

  /** If writing the file or the event fails, the callers get an error, but the id is remembered for the next call. */
  lemma LateFailureIsRemembered(b: Bridge, op: OpId, k: Key, id: WaId, flushes: bool, caller: CallId, call: CallId, again: OpId)
    requires Inv(b) && op in b.ops && b.ops[op] == Op(Some(k), Sending) && WaitsFor(b, caller, op)
    requires call !in b.calls && again !in b.ops
    ensures var failed := Run(b, [ResolveStep(op, Some(id)), Step.FlushStep(op, flushes), EmitStep(op, false)]);
            && caller in failed.calls && KeyedSend.Result(failed, caller) == None
            && var after := Apply(failed, SendStep(call, again, Some(k)));
               call in after.calls && KeyedSend.Result(after, call) == Some(id) && after.ops == failed.ops
  {
    RememberFacts(b.store.entries, Entry(k, id), b.limit);
    RunThree(b, ResolveStep(op, Some(id)), Step.FlushStep(op, flushes), EmitStep(op, false));
    var s := [ResolveStep(op, Some(id)), Step.FlushStep(op, flushes), EmitStep(op, false)];
    AnsweredFrom(Run(b, s), call, again, k, id);
  }

  lemma RunThree(b: Bridge, x: Step, y: Step, z: Step)
    ensures Run(b, [x, y, z]) == Apply(Apply(Apply(b, x), y), z)
  {
    assert [x, y, z][1..] == [y, z] && [y, z][1..] == [z] && [z][1..] == [];
    var (b1, b2) := (Apply(b, x), Apply(Apply(b, x), y));
    assert Run(b2, [z]) == Run(Apply(b2, z), []);
    assert Run(b1, [y, z]) == Run(b2, [z]);
  }

  /** What the store remembers is the answer of the next call, which starts nothing. */
  lemma AnsweredFrom(b: Bridge, call: CallId, again: OpId, k: Key, id: WaId)
    requires call !in b.calls && again !in b.ops && Lookup(b.store.entries, k) == Some(id)
    ensures var after := Apply(b, SendStep(call, again, Some(k)));
            call in after.calls && KeyedSend.Result(after, call) == Some(id) && after.ops == b.ops
  {
  }

  // ---------------------------------------------------------------- what is durable

  /** An id reported to a caller that waited for it is in the file. */
  ghost predicate Durable(b: Bridge) {
    forall op :: op in b.ops ==> OpDurable(b, op)
  }

  predicate OpDurable(b: Bridge, op: OpId)
    requires op in b.ops
  {
    b.ops[op].key.Some? && b.ops[op].key.value !in b.forgotten && (b.ops[op].phase.Emitting? || b.ops[op].phase.Done?) ==>
      Lookup(b.store.file, b.ops[op].key.value) == Some(b.ops[op].phase.id)
  }

  lemma FlushKeepsOpDurable(b: Bridge, flushed: OpId, op: OpId)
    requires Inv(b) && Durable(b) && op in b.ops
    ensures OpDurable(Apply(b, Step.FlushStep(flushed, true)), op)
  {
    assert OpDurable(b, op);
    if b.ops[op].key.Some? && b.ops[op].key.value !in b.forgotten {
      assert KeyOk(b, b.ops[op].key.value) && OpOk(b, b.ops[op].key.value, op);
    }
  }

  lemma ResolveKeepsOpDurable(b: Bridge, resolved: OpId, result: Option<WaId>, op: OpId)
    requires Durable(b) && op in b.ops
    ensures OpDurable(Apply(b, ResolveStep(resolved, result)), op)
  {
    assert OpDurable(b, op);
  }

  lemma OtherKeepsOpDurable(b: Bridge, step: Step, op: OpId)
    requires Durable(b) && op in b.ops && !step.ResolveStep? && !(step.FlushStep? && step.ok)
    ensures OpDurable(Apply(b, step), op)
  {
    assert OpDurable(b, op);
  }

  lemma StepKeepsDurable(b: Bridge, step: Step)
    requires Inv(b) && Durable(b)
    ensures Durable(Apply(b, step))
  {
    var after := Apply(b, step);
    forall op | op in after.ops ensures OpDurable(after, op)
    {
      if op in b.ops {
        if step.FlushStep? && step.ok { FlushKeepsOpDurable(b, step.op, op); }
        else if step.ResolveStep? { ResolveKeepsOpDurable(b, step.op, step.result, op); }
        else { OtherKeepsOpDurable(b, step, op); }
      }
    }
  }

  lemma {:induction false} RunKeepsDurable(b: Bridge, steps: seq<Step>)
    requires Inv(b) && Durable(b)
    ensures Inv(Run(b, steps)) && Durable(Run(b, steps))
    decreases |steps|
  {
    if steps != [] {
      StepKeepsInv(b, steps[0]);
      StepKeepsDurable(b, steps[0]);
      RunKeepsDurable(Apply(b, steps[0]), steps[1..]);
    }
  }

  /**
   Over every interleaving, failure and crash: an id that a caller got from the send it waited for is in the receipt
   file, as long as the key has not been forgotten.
   */
  lemma ReportedMeansWritten(file: seq<Entry>, limit: nat, steps: seq<Step>, call: CallId, k: Key)
    requires DistinctKeys(file) && |file| <= limit && 1 <= limit
    requires var b := Run(Fresh(file, limit), steps);
             && call in b.calls && b.calls[call].key == Some(k) && b.calls[call].answer.Join? && k !in b.forgotten
             && KeyedSend.Result(b, call).Some?
    ensures var b := Run(Fresh(file, limit), steps); Lookup(b.store.file, k) == KeyedSend.Result(b, call)
  {
    FreshIsOk(file, limit);
    RunKeepsDurable(Fresh(file, limit), steps);
    var b := Run(Fresh(file, limit), steps);
    assert OpDurable(b, b.calls[call].answer.op);
  }

  /** A key that is remembered is sent again after a crash exactly when the file does not hold it. */
  lemma SentAgainAfterCrashIff(b: Bridge, k: Key, call: CallId, op: OpId)
    requires Inv(b) && k !in b.forgotten && k in Keys(b.store.entries) && call !in b.calls && op !in b.ops
    ensures var after := Apply(Apply(Apply(b, Step.RestartStep), OnlineStep(true)), SendStep(call, op, Some(k)));
            && ((op in after.ops && after.ops[op] == Op(Some(k), Sending)) <==> k !in Keys(b.store.file))
            && after.obtained == b.obtained
  {
    RestartRestores(b.store.file, b.limit);
  }

  const KEY := Outbox.Client("k")
  const SEND_WITHOUT_FILE := [OnlineStep(true), SendStep(0, 0, Some(KEY)), ResolveStep(0, Some(9)), Step.FlushStep(0, false)]

  const UNWRITTEN := Bridge(true, Store([Entry(KEY, 9)], []), 100, map[KEY := 0], map[0 := Op(Some(KEY), Broken)],
                            map[0 := Call(Some(KEY), Join(0))], [Yield(Some(KEY), 9)], {})

  /** Such a key is reached when the file cannot be written: the message is out, and the crash makes the retry send it again. */
  lemma LostReceiptSendsAgain()
    ensures Run(Fresh([], 100), SEND_WITHOUT_FILE) == UNWRITTEN
    ensures var after := Run(UNWRITTEN, [Step.RestartStep, OnlineStep(true), SendStep(1, 1, Some(KEY))]);
            1 in after.ops && after.ops[1] == Op(Some(KEY), Sending) && ObtainedFor(after.obtained, KEY) == [9]
  {
    WithoutFile();
    RunThree(UNWRITTEN, Step.RestartStep, OnlineStep(true), SendStep(1, 1, Some(KEY)));
    FreshIsOk([], 100);
    RunKeepsInv(Fresh([], 100), SEND_WITHOUT_FILE);
    SentAgainAfterCrashIff(UNWRITTEN, KEY, 1, 1);
    assert UNWRITTEN.obtained == [] + [Yield(Some(KEY), 9)];
    ObtainedSnoc([], KEY, 9);
  }

  lemma WithoutFile()
    ensures Run(Fresh([], 100), SEND_WITHOUT_FILE) == UNWRITTEN
  {
    var s := SEND_WITHOUT_FILE;
    assert s[1..] == [s[1], s[2], s[3]] && s[1..][1..] == [s[2], s[3]] && [s[2], s[3]][1..] == [s[3]] && [s[3]][1..] == [];
    var w1 := Apply(Fresh([], 100), s[0]);
    var w2 := Apply(w1, s[1]);
    var w3 := Apply(w2, s[2]);
    assert Delete([], KEY) + [Entry(KEY, 9)] == [Entry(KEY, 9)];
    assert w3.store.entries == [Entry(KEY, 9)] && Dropped([], w3.store.entries) == {};
    assert Apply(w3, s[3]) == UNWRITTEN;
    assert Run(w3, [s[3]]) == Run(Apply(w3, s[3]), []);
    assert Run(w2, [s[2], s[3]]) == Run(w3, [s[3]]);
    assert Run(w1, [s[1], s[2], s[3]]) == Run(w2, [s[2], s[3]]);
  }
}
