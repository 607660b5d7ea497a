/**
 AccountSession.send, cut at its awaits: concurrent and retried calls share an operation in flight or the
 remembered receipt, while sends, file flushes and event emits may fail and the process may die and restart.
 */
module KeyedSend {
  import opened Base
  import opened ReceiptStore

  type OpId = nat
  type CallId = nat

  /** Where #sendNow is suspended, or how its promise settled. */
  datatype Phase = Sending | Flushing(id: WaId) | Emitting(id: WaId) | Done(id: WaId) | Broken

  datatype Op = Op(key: Option<Key>, phase: Phase)

  datatype Answer = Known(id: WaId) | Join(op: OpId)

  datatype Call = Call(key: Option<Key>, answer: Answer)

  /** sendMessage returned a usable id. */
  datatype Yield = Yield(key: Option<Key>, id: WaId)

  /**
   `obtained` and `forgotten` are the history: ids obtained from the platform; and keys dropped by the trim, lost
   in a crash before their receipt was flushed, or left in doubt by a crash while the platform had not answered.
   */
  datatype Bridge = Bridge(online: bool, store: Store, limit: nat, inFlight: map<Key, OpId>, ops: map<OpId, Op>,
                           calls: map<CallId, Call>, obtained: seq<Yield>, forgotten: set<Key>)

  function Fresh(file: seq<Entry>, limit: nat): Bridge {
    Bridge(false, Store(file, file), limit, map[], map[], map[], [], {})
  }

  // ---------------------------------------------------------------- segments

  /** send up to its first await. */
  function Send(b: Bridge, call: CallId, op: OpId, key: Option<Key>): Bridge {
    if key.Some? && Lookup(b.store.entries, key.value).Some? then
      b.(calls := b.calls[call := Call(key, Known(Lookup(b.store.entries, key.value).value))])
    else if key.Some? && key.value in b.inFlight then
      b.(calls := b.calls[call := Call(key, Join(b.inFlight[key.value]))])
    else
      b.(ops := b.ops[op := Op(key, if b.online then Sending else Broken)],
         inFlight := if key.Some? then b.inFlight[key.value := op] else b.inFlight,
         calls := b.calls[call := Call(key, Join(op))])
  }

  function Dropped(before: seq<Entry>, after: seq<Entry>): set<Key> {
    Keys(before) - Keys(after)
  }

  /** sendMessage settles; None stands for an error or a blank id. A keyed id is put before anything else happens. */
  function Resolve(b: Bridge, op: OpId, result: Option<WaId>): Bridge
    requires op in b.ops
  {
    var key := b.ops[op].key;
    if result.None? then b.(ops := b.ops[op := Op(key, Broken)])
    else
      var yielded := b.(obtained := b.obtained + [Yield(key, result.value)]);
      if key.None? then yielded.(ops := b.ops[op := Op(key, Emitting(result.value))])
      else
        var entries := Remember(b.store.entries, Entry(key.value, result.value), b.limit);
        yielded.(ops := b.ops[op := Op(key, Flushing(result.value))],
                 store := b.store.(entries := entries),
                 forgotten := b.forgotten + Dropped(b.store.entries, entries))
  }

  /** Keys of operations the platform has not answered yet. */
  function InDoubt(b: Bridge): set<Key> {
    set op | op in b.ops && b.ops[op].phase.Sending? && b.ops[op].key.Some? :: b.ops[op].key.value
  }

  /** The process dies and a new one reads the receipt file: what had not settled never will. */
  function Restart(b: Bridge): Bridge {
    var entries := Load([], b.store.file, b.limit);
    b.(online := false, store := b.store.(entries := entries), inFlight := map[],
       ops := map op | op in b.ops :: if b.ops[op].phase.Done? then b.ops[op] else Op(b.ops[op].key, Broken),
       forgotten := b.forgotten + Dropped(b.store.entries, entries) + InDoubt(b))
  }

  datatype Step =
    | SendStep(call: CallId, op: OpId, key: Option<Key>)
    | ResolveStep(op: OpId, result: Option<WaId>)
    | FlushStep(op: OpId, ok: bool)
    | EmitStep(op: OpId, ok: bool)
    | ForgetStep(op: OpId)
    | ReloadStep
    | RestartStep
    | OnlineStep(online: bool)

  function Apply(b: Bridge, step: Step): Bridge {
    match step
    case SendStep(call, op, key) =>
      if call in b.calls || op in b.ops then b else Send(b, call, op, key)
    case ResolveStep(op, result) =>
      if op in b.ops && b.ops[op].phase.Sending? then Resolve(b, op, result) else b
    case FlushStep(op, ok) =>
      if op in b.ops && b.ops[op].phase.Flushing? then
        if ok then b.(store := b.store.(file := b.store.entries),
                      ops := b.ops[op := Op(b.ops[op].key, Emitting(b.ops[op].phase.id))])
        else b.(ops := b.ops[op := Op(b.ops[op].key, Broken)])
      else b
    case EmitStep(op, ok) =>
      if op in b.ops && b.ops[op].phase.Emitting?
      then b.(ops := b.ops[op := Op(b.ops[op].key, if ok then Done(b.ops[op].phase.id) else Broken)])
      else b
    case ForgetStep(op) =>
      // the finally block of the call that started the operation
      if op in b.ops && (b.ops[op].phase.Done? || b.ops[op].phase.Broken?) && b.ops[op].key.Some?
         && b.ops[op].key.value in b.inFlight && b.inFlight[b.ops[op].key.value] == op
      then b.(inFlight := b.inFlight - {b.ops[op].key.value})
      else b
    case ReloadStep =>
      // connect runs start() on the living store
      var entries := Load(b.store.entries, b.store.file, b.limit);
      b.(store := b.store.(entries := entries), forgotten := b.forgotten + Dropped(b.store.entries, entries))
    case RestartStep => Restart(b)
    case OnlineStep(online) => b.(online := online)
  }

  function Run(b: Bridge, steps: seq<Step>): Bridge
    decreases |steps|
  {
    if steps == [] then b else Run(Apply(b, steps[0]), steps[1..])
  }

  /** The id a caller got, if it got one. */
  function Result(b: Bridge, call: CallId): Option<WaId>
    requires call in b.calls
  {
    match b.calls[call].answer
    case Known(id) => Some(id)
    case Join(op) => if op in b.ops && b.ops[op].phase.Done? then Some(b.ops[op].phase.id) else None
  }

  function ObtainedFor(ys: seq<Yield>, k: Key): seq<WaId> {
    if ys == [] then []
    else
      var last := ys[|ys| - 1];
      ObtainedFor(ys[..|ys| - 1], k) + (if last.key == Some(k) then [last.id] else [])
  }

  // ---------------------------------------------------------------- the invariant

  /** An operation on key k agrees with what the store remembers for k. */
  predicate OpOk(b: Bridge, k: Key, op: OpId)
    requires op in b.ops
  {
    && (b.ops[op].phase.Sending? ==>
          Lookup(b.store.entries, k).None? && k in b.inFlight && b.inFlight[k] == op)
    && (b.ops[op].phase.Flushing? || b.ops[op].phase.Emitting? || b.ops[op].phase.Done? ==>
          Lookup(b.store.entries, k) == Some(b.ops[op].phase.id))
  }

  ghost predicate KeyOk(b: Bridge, k: Key) {
    && (ObtainedFor(b.obtained, k) == [] || (Lookup(b.store.entries, k).Some?
          && ObtainedFor(b.obtained, k) == [Lookup(b.store.entries, k).value]))
    && (forall op :: op in b.ops && b.ops[op].key == Some(k) ==> OpOk(b, k, op))
    && (forall c :: c in b.calls && b.calls[c].key == Some(k) && b.calls[c].answer.Known? ==>
          Lookup(b.store.entries, k) == Some(b.calls[c].answer.id))
    && (k in Keys(b.store.file) ==> Lookup(b.store.entries, k) == Lookup(b.store.file, k))
  }

  ghost predicate Shape(b: Bridge) {
    && 1 <= b.limit
    && DistinctKeys(b.store.entries) && |b.store.entries| <= b.limit
    && DistinctKeys(b.store.file) && |b.store.file| <= b.limit
    && (forall k :: k in b.inFlight ==> b.inFlight[k] in b.ops && b.ops[b.inFlight[k]].key == Some(k))
    && (forall c :: c in b.calls && b.calls[c].answer.Join? ==>
          b.calls[c].answer.op in b.ops && b.ops[b.calls[c].answer.op].key == b.calls[c].key)
  }

  ghost predicate Inv(b: Bridge) {
    Shape(b) && forall k: Key :: k !in b.forgotten ==> KeyOk(b, k)
  }

  // ---------------------------------------------------------------- lookups through put and start

  lemma {:induction false} LookupDelete(es: seq<Entry>, k: Key, other: Key)
    requires k != other
    ensures Lookup(Delete(es, k), other) == Lookup(es, other)
  {
    if es != [] {
      LookupDelete(es[1..], k, other);
      if es[0].key != k { assert Delete(es, k)[1..] == Delete(es[1..], k); }
    }
  }

  lemma LookupConcat(xs: seq<Entry>, ys: seq<Entry>, k: Key)
    ensures Lookup(xs + ys, k) == if Lookup(xs, k).Some? then Lookup(xs, k) else Lookup(ys, k)
  {
    if xs == [] {
      assert xs + ys == ys;
    } else {
      assert (xs + ys)[1..] == xs[1..] + ys;
      LookupConcat(xs[1..], ys, k);
    }
  }

  lemma LookupTrimmed(es: seq<Entry>, n: nat, k: Key)
    requires DistinctKeys(es)
    ensures Lookup(LastN(es, n), k) == Lookup(es, k) || Lookup(LastN(es, n), k).None?
  {
  }

  /** A put of another key leaves k's id alone or drops k. */
  lemma LookupRemember(es: seq<Entry>, e: Entry, n: nat, k: Key)
    requires DistinctKeys(es) && 1 <= n && k != e.key
    ensures Lookup(Remember(es, e, n), k) == Lookup(es, k) || Lookup(Remember(es, e, n), k).None?
  {
    DeleteDistinct(es, e.key);
    DeleteMembers(es, e.key);
    SnocDistinct(Delete(es, e.key), e);
    LookupTrimmed(Delete(es, e.key) + [e], n, k);
    LookupDelete(es, e.key, k);
    LookupConcat(Delete(es, e.key), [e], k);
  }

  lemma {:induction false} SetFacts(es: seq<Entry>, e: Entry)
    requires DistinctKeys(es)
    ensures DistinctKeys(Set(es, e)) && Keys(Set(es, e)) == Keys(es) + {e.key}
    ensures forall k: Key :: Lookup(Set(es, e), k) == if k == e.key then Some(e.id) else Lookup(es, k)
  {
    if es == [] {
    } else {
      HeadTail(es);
      HeadTail(Set(es, e));
      if es[0].key == e.key {
        assert Set(es, e)[1..] == es[1..];
      } else {
        SetFacts(es[1..], e);
        assert Set(es, e)[1..] == Set(es[1..], e);
      }
    }
  }

  lemma {:induction false} SetAllFacts(es: seq<Entry>, items: seq<Entry>, k: Key)
    requires DistinctKeys(es) && DistinctKeys(items)
    ensures DistinctKeys(SetAll(es, items))
    ensures Lookup(SetAll(es, items), k) == if k in Keys(items) then Lookup(items, k) else Lookup(es, k)
    decreases |items|
  {
    if items != [] {
      HeadTail(items);
      SetFacts(es, items[0]);
      SetAllFacts(Set(es, items[0]), items[1..], k);
    }
  }

  /** start on the living store leaves k's id alone or drops k, provided the file does not contradict it. */
  lemma LookupLoad(es: seq<Entry>, file: seq<Entry>, n: nat, k: Key)
    requires DistinctKeys(es) && DistinctKeys(file)
    requires k in Keys(file) ==> Lookup(es, k) == Lookup(file, k)
    ensures DistinctKeys(Load(es, file, n))
    ensures Lookup(Load(es, file, n), k) == Lookup(es, k) || Lookup(Load(es, file, n), k).None?
  {
    SetAllFacts(es, file, k);
    LookupTrimmed(SetAll(es, file), n, k);
    SuffixFacts(SetAll(es, file), |SetAll(es, file)| - |Load(es, file, n)|);
  }

  // ---------------------------------------------------------------- preservation

  /** Nothing about key k differs except, perhaps, that the file has caught up with memory. */
  ghost predicate SameForKey(b: Bridge, after: Bridge, k: Key) {
    && Lookup(after.store.entries, k) == Lookup(b.store.entries, k)
    && ObtainedFor(after.obtained, k) == ObtainedFor(b.obtained, k)
    && (forall o :: o in after.ops && after.ops[o].key == Some(k) ==> o in b.ops && b.ops[o] == after.ops[o])
    && (forall c :: c in after.calls && after.calls[c].key == Some(k) ==> c in b.calls && b.calls[c] == after.calls[c])
    && (k in b.inFlight ==> k in after.inFlight && after.inFlight[k] == b.inFlight[k])
    && (after.store.file == b.store.file || after.store.file == b.store.entries)
  }

  lemma FrameKey(b: Bridge, after: Bridge, k: Key)
    requires KeyOk(b, k) && SameForKey(b, after, k)
    ensures KeyOk(after, k)
  {
  }

  lemma ResolveKeepsOtherKey(b: Bridge, op: OpId, result: Option<WaId>, k: Key)
    requires Shape(b) && KeyOk(b, k) && op in b.ops && b.ops[op].key != Some(k)
    requires k !in Resolve(b, op, result).forgotten
    ensures KeyOk(Resolve(b, op, result), k)
  {
    var after := Resolve(b, op, result);
    var key := b.ops[op].key;
    if result.Some? {
      assert after.obtained[..|after.obtained| - 1] == b.obtained;
      if key.Some? { LookupRemember(b.store.entries, Entry(key.value, result.value), b.limit, k); }
    }
    FrameKey(b, after, k);
  }

  lemma SendingIsUnknown(b: Bridge, op: OpId, k: Key)
    requires KeyOk(b, k) && op in b.ops && b.ops[op].phase.Sending? && b.ops[op].key == Some(k)
    ensures Lookup(b.store.entries, k).None? && ObtainedFor(b.obtained, k) == []
  {
    assert OpOk(b, k, op);
  }

  lemma ObtainedSnoc(ys: seq<Yield>, k: Key, id: WaId)
    ensures ObtainedFor(ys + [Yield(Some(k), id)], k) == ObtainedFor(ys, k) + [id]
  {
    assert (ys + [Yield(Some(k), id)])[..|ys|] == ys;
  }

  /** The answer to the one operation in flight on k: it is remembered, and it is the first id obtained for k. */
  lemma YieldIsRemembered(b: Bridge, op: OpId, id: WaId, k: Key)
    requires Shape(b) && KeyOk(b, k) && op in b.ops && b.ops[op].phase.Sending? && b.ops[op].key == Some(k)
    ensures Lookup(b.store.entries, k).None?
    ensures Lookup(Resolve(b, op, Some(id)).store.entries, k) == Some(id)
    ensures ObtainedFor(Resolve(b, op, Some(id)).obtained, k) == [id]
  {
    SendingIsUnknown(b, op, k);
    ObtainedSnoc(b.obtained, k, id);
    RememberFacts(b.store.entries, Entry(k, id), b.limit);
  }

  lemma YieldKeepsOp(b: Bridge, op: OpId, id: WaId, k: Key, o: OpId)
    requires Shape(b) && KeyOk(b, k) && op in b.ops && b.ops[op].phase.Sending? && b.ops[op].key == Some(k)
    requires o in b.ops && b.ops[o].key == Some(k)
    ensures OpOk(Resolve(b, op, Some(id)), k, o)
  {
    YieldIsRemembered(b, op, id, k);
    assert OpOk(b, k, o) && OpOk(b, k, op);
  }

  lemma ResolveKeepsOwnKey(b: Bridge, op: OpId, result: Option<WaId>, k: Key)
    requires Shape(b) && KeyOk(b, k) && op in b.ops && b.ops[op].phase.Sending? && b.ops[op].key == Some(k)
    ensures KeyOk(Resolve(b, op, result), k)
  {
    var after := Resolve(b, op, result);
    if result.Some? {
      YieldIsRemembered(b, op, result.value, k);
      forall o | o in after.ops && after.ops[o].key == Some(k) ensures OpOk(after, k, o)
      {
        YieldKeepsOp(b, op, result.value, k, o);
      }
      assert after.calls == b.calls && after.store.file == b.store.file;
    } else {
      forall o | o in after.ops && after.ops[o].key == Some(k) ensures OpOk(after, k, o) { assert OpOk(b, k, o); }
      KeyFromOps(b, after, k);
    }
  }

  /** A segment that leaves memory alone only has to keep the operations and the calls right. */
  lemma KeyFromOps(b: Bridge, after: Bridge, k: Key)
    requires KeyOk(b, k)
    requires after.store.entries == b.store.entries && after.obtained == b.obtained
    requires after.store.file == b.store.file || after.store.file == b.store.entries
    requires forall o :: o in after.ops && after.ops[o].key == Some(k) ==> OpOk(after, k, o)
    requires forall c :: c in after.calls && after.calls[c].key == Some(k) && after.calls[c].answer.Known? ==>
               (c in b.calls && b.calls[c] == after.calls[c])
               || Lookup(b.store.entries, k) == Some(after.calls[c].answer.id)
    ensures KeyOk(after, k)
  {
  }

  lemma SendKeepsOp(b: Bridge, call: CallId, op: OpId, key: Option<Key>, k: Key, o: OpId)
    requires op !in b.ops && o in b.ops && b.ops[o].key == Some(k) && OpOk(b, k, o)
    ensures OpOk(Send(b, call, op, key), k, o)
  {
  }

  lemma SendKeepsKey(b: Bridge, call: CallId, op: OpId, key: Option<Key>, k: Key)
    requires Shape(b) && KeyOk(b, k) && call !in b.calls && op !in b.ops
    ensures KeyOk(Send(b, call, op, key), k)
  {
    var after := Send(b, call, op, key);
    forall o | o in after.ops && after.ops[o].key == Some(k) ensures OpOk(after, k, o)
    {
      if o != op { SendKeepsOp(b, call, op, key, k, o); }
    }
    assert after.store == b.store && after.obtained == b.obtained;
    KeyFromOps(b, after, k);
  }

  lemma SettleKeepsOp(b: Bridge, step: Step, k: Key, o: OpId)
    requires (step.FlushStep? || step.EmitStep? || step.ForgetStep?)
    requires o in b.ops && b.ops[o].key == Some(k) && OpOk(b, k, o)
    requires step.op in b.ops && b.ops[step.op].key == Some(k) ==> OpOk(b, k, step.op)
    ensures OpOk(Apply(b, step), k, o)
  {
  }

  lemma SettleKeepsKey(b: Bridge, step: Step, k: Key)
    requires Shape(b) && KeyOk(b, k) && (step.FlushStep? || step.EmitStep? || step.ForgetStep?)
    ensures KeyOk(Apply(b, step), k)
  {
    var after := Apply(b, step);
    forall o | o in after.ops && after.ops[o].key == Some(k) ensures OpOk(after, k, o)
    {
      assert o in b.ops && b.ops[o].key == Some(k);
      SettleKeepsOp(b, step, k, o);
    }
    KeyFromOps(b, after, k);
  }

  lemma ReloadKeepsKey(b: Bridge, k: Key)
    requires Shape(b) && KeyOk(b, k) && k !in Apply(b, ReloadStep).forgotten
    ensures KeyOk(Apply(b, ReloadStep), k)
  {
    LookupLoad(b.store.entries, b.store.file, b.limit, k);
    FrameKey(b, Apply(b, ReloadStep), k);
  }

  /** A key that survives a crash is one the file already agreed on. */
  lemma LookupRestart(b: Bridge, k: Key)
    requires Shape(b) && KeyOk(b, k) && k !in Restart(b).forgotten
    ensures Lookup(Restart(b).store.entries, k) == Lookup(b.store.entries, k)
  {
    var entries := Restart(b).store.entries;
    SetAllFacts([], b.store.file, k);
    LookupTrimmed(SetAll([], b.store.file), b.limit, k);
    assert k in Keys(b.store.entries) ==> k in Keys(entries);
  }

  lemma RestartKeepsKey(b: Bridge, k: Key)
    requires Shape(b) && KeyOk(b, k) && k !in Restart(b).forgotten
    ensures KeyOk(Restart(b), k)
  {
    LookupRestart(b, k);
    var after := Restart(b);
    forall o | o in after.ops && after.ops[o].key == Some(k) ensures OpOk(after, k, o) { assert OpOk(b, k, o); }
  }

  lemma StepKeepsKey(b: Bridge, step: Step, k: Key)
    requires Shape(b) && (k !in b.forgotten ==> KeyOk(b, k)) && k !in Apply(b, step).forgotten
    ensures KeyOk(Apply(b, step), k)
  {
    match step
    case SendStep(call, op, key) => if call !in b.calls && op !in b.ops { SendKeepsKey(b, call, op, key, k); }
    case ResolveStep(op, result) =>
      if op in b.ops && b.ops[op].phase.Sending? {
        if b.ops[op].key == Some(k) { ResolveKeepsOwnKey(b, op, result, k); }
        else { ResolveKeepsOtherKey(b, op, result, k); }
      }
    case ReloadStep => ReloadKeepsKey(b, k);
    case RestartStep => RestartKeepsKey(b, k);
    case OnlineStep(_) => FrameKey(b, Apply(b, step), k);
    case _ => SettleKeepsKey(b, step, k);
  }

  lemma {:induction false} SetAllDistinct(es: seq<Entry>, items: seq<Entry>)
    requires DistinctKeys(es)
    ensures DistinctKeys(SetAll(es, items))
    decreases |items|
  {
    if items != [] {
      SetFacts(es, items[0]);
      SetAllDistinct(Set(es, items[0]), items[1..]);
    }
  }

  lemma ResolveKeepsShape(b: Bridge, op: OpId, result: Option<WaId>)
    requires Shape(b) && op in b.ops && b.ops[op].phase.Sending?
    ensures Shape(Resolve(b, op, result))
  {
    if b.ops[op].key.Some? && result.Some? {
      RememberFacts(b.store.entries, Entry(b.ops[op].key.value, result.value), b.limit);
    }
  }

  lemma RestartKeepsShape(b: Bridge)
    requires Shape(b)
    ensures Shape(Restart(b))
  {
    var all := SetAll([], b.store.file);
    SetAllDistinct([], b.store.file);
    SuffixFacts(all, |all| - |LastN(all, b.limit)|);
  }

  lemma SendKeepsShape(b: Bridge, call: CallId, op: OpId, key: Option<Key>)
    requires Shape(b) && call !in b.calls && op !in b.ops
    ensures Shape(Send(b, call, op, key))
  {
  }

  lemma SettleKeepsShape(b: Bridge, step: Step)
    requires Shape(b) && (step.FlushStep? || step.EmitStep? || step.ForgetStep? || step.OnlineStep?)
    ensures Shape(Apply(b, step))
  {
  }

  lemma StepKeepsShape(b: Bridge, step: Step)
    requires Shape(b)
    ensures Shape(Apply(b, step))
  {
    match step
    case ResolveStep(op, result) =>
      if op in b.ops && b.ops[op].phase.Sending? { ResolveKeepsShape(b, op, result); }
    case ReloadStep =>
      var all := SetAll(b.store.entries, b.store.file);
      SetAllDistinct(b.store.entries, b.store.file);
      SuffixFacts(all, |all| - |LastN(all, b.limit)|);
    case RestartStep => RestartKeepsShape(b);
    case SendStep(call, op, key) => if call !in b.calls && op !in b.ops { SendKeepsShape(b, call, op, key); }
    case _ => SettleKeepsShape(b, step);
  }

  lemma StepKeepsInv(b: Bridge, step: Step)
    requires Inv(b)
    ensures Inv(Apply(b, step)) && b.forgotten <= Apply(b, step).forgotten
  {
    StepKeepsShape(b, step);
    forall k: Key | k !in Apply(b, step).forgotten
      ensures KeyOk(Apply(b, step), k)
    {
      StepKeepsKey(b, step, k);
    }
  }

  lemma RunKeepsInv(b: Bridge, steps: seq<Step>)
    requires Inv(b)
    ensures Inv(Run(b, steps)) && b.forgotten <= Run(b, steps).forgotten
    decreases |steps|
  {
    if steps != [] {
      StepKeepsInv(b, steps[0]);
      RunKeepsInv(Apply(b, steps[0]), steps[1..]);
    }
  }

  /** The platform answers an operation on key k. */
  predicate YieldsFor(b: Bridge, step: Step, k: Key) {
    && step.ResolveStep? && step.result.Some? && step.op in b.ops
    && b.ops[step.op].phase.Sending? && b.ops[step.op].key == Some(k)
  }

  lemma OtherResolveLookup(b: Bridge, op: OpId, result: Option<WaId>, k: Key)
    requires Shape(b) && op in b.ops && (result.None? || b.ops[op].key != Some(k))
    ensures var entries := Resolve(b, op, result).store.entries;
            Lookup(entries, k) == Lookup(b.store.entries, k) || Lookup(entries, k).None?
  {
    if result.Some? && b.ops[op].key.Some? {
      LookupRemember(b.store.entries, Entry(b.ops[op].key.value, result.value), b.limit, k);
    }
  }

  /** Every other step leaves what is remembered for k alone or drops it. */
  lemma LookupMoves(b: Bridge, step: Step, k: Key)
    requires Shape(b) && KeyOk(b, k) && k !in Apply(b, step).forgotten && !YieldsFor(b, step, k)
    ensures var entries := Apply(b, step).store.entries;
            Lookup(entries, k) == Lookup(b.store.entries, k) || Lookup(entries, k).None?
  {
    match step
    case ResolveStep(op, result) =>
      if op in b.ops && b.ops[op].phase.Sending? { OtherResolveLookup(b, op, result, k); }
    case ReloadStep => LookupLoad(b.store.entries, b.store.file, b.limit, k);
    case RestartStep => LookupRestart(b, k);
    case _ =>
  }

  /** What drops out of the store is forgotten. */
  lemma DroppedIsForgotten(b: Bridge, step: Step, k: Key)
    requires Lookup(b.store.entries, k).Some? && Lookup(Apply(b, step).store.entries, k).None?
    ensures k in Apply(b, step).forgotten
  {
  }

  /** What is remembered for a key stays until the key is forgotten. */
  lemma RememberedStays(b: Bridge, step: Step, k: Key)
    requires Inv(b) && k !in Apply(b, step).forgotten && Lookup(b.store.entries, k).Some?
    ensures Lookup(Apply(b, step).store.entries, k) == Lookup(b.store.entries, k)
  {
    StepKeepsInv(b, step);
    assert KeyOk(b, k);
    if step.ResolveStep? && step.op in b.ops && b.ops[step.op].key == Some(k) { assert OpOk(b, k, step.op); }
    LookupMoves(b, step, k);
    if Lookup(Apply(b, step).store.entries, k).None? { DroppedIsForgotten(b, step, k); }
  }

  /** Only an answer of the platform brings a key into the store. */
  lemma RememberedOnlyByYield(b: Bridge, step: Step, k: Key)
    requires Inv(b) && k !in Apply(b, step).forgotten
    requires Lookup(b.store.entries, k).None? && Lookup(Apply(b, step).store.entries, k).Some?
    ensures YieldsFor(b, step, k) && Apply(b, step).obtained == b.obtained + [Yield(Some(k), step.result.value)]
  {
    StepKeepsInv(b, step);
    assert KeyOk(b, k);
    if !YieldsFor(b, step, k) { LookupMoves(b, step, k); }
  }

  /** What the store remembers for k was obtained from the platform, once. */
  ghost predicate SourcedKey(b: Bridge, k: Key) {
    Lookup(b.store.entries, k).Some? ==> ObtainedFor(b.obtained, k) == [Lookup(b.store.entries, k).value]
  }

  ghost predicate Sourced(b: Bridge) {
    forall k: Key :: k !in b.forgotten ==> SourcedKey(b, k)
  }

  lemma StepKeepsSourced(b: Bridge, step: Step)
    requires Inv(b) && Sourced(b)
    ensures Sourced(Apply(b, step))
  {
    var after := Apply(b, step);
    StepKeepsInv(b, step);
    forall k: Key | k !in after.forgotten && Lookup(after.store.entries, k).Some? ensures SourcedKey(after, k)
    {
      assert KeyOk(after, k) && SourcedKey(b, k);
      if Lookup(b.store.entries, k).Some? {
        ObtainedGrow(b, step, k);
      } else {
        RememberedOnlyByYield(b, step, k);
        assert after.obtained[..|after.obtained| - 1] == b.obtained;
      }
    }
  }

  lemma ObtainedGrow(b: Bridge, step: Step, k: Key)
    ensures ObtainedFor(b.obtained, k) <= ObtainedFor(Apply(b, step).obtained, k)
  {
    var after := Apply(b, step);
    if after.obtained != b.obtained { assert after.obtained[..|after.obtained| - 1] == b.obtained; }
  }

  /** Whatever a caller is told about an untrimmed key is what the store remembers. */
  lemma ResultIsRemembered(b: Bridge, call: CallId, k: Key)
    requires Inv(b) && k !in b.forgotten && call in b.calls && b.calls[call].key == Some(k) && Result(b, call).Some?
    ensures Lookup(b.store.entries, k) == Result(b, call)
  {
  }

  lemma FreshIsOk(file: seq<Entry>, limit: nat)
    requires DistinctKeys(file) && |file| <= limit && 1 <= limit
    ensures Inv(Fresh(file, limit)) && Load([], file, limit) == file
  {
    RestartRestores(file, limit);
  }

  // ---------------------------------------------------------------- the theorems

  /**
   For a key that has not been forgotten, over every interleaving of calls, failures, reloads, crashes and
   reconnects: the platform yields an id at most once, and all callers that succeed get one and the same
   id, the yielded one if there was a yield.
   */
  lemma SentAtMostOnce(file: seq<Entry>, limit: nat, steps: seq<Step>, k: Key)
    requires DistinctKeys(file) && |file| <= limit && 1 <= limit
    requires k !in Run(Fresh(file, limit), steps).forgotten
    ensures var b := Run(Fresh(file, limit), steps);
            && |ObtainedFor(b.obtained, k)| <= 1
            && (forall c :: c in b.calls && b.calls[c].key == Some(k) && Result(b, c).Some? ==>
                  && Result(b, c) == Lookup(b.store.entries, k)
                  && (ObtainedFor(b.obtained, k) != [] ==> Result(b, c) == Some(ObtainedFor(b.obtained, k)[0])))
  {
    FreshIsOk(file, limit);
    RunKeepsInv(Fresh(file, limit), steps);
    var b := Run(Fresh(file, limit), steps);
    assert KeyOk(b, k);
    forall c | c in b.calls && b.calls[c].key == Some(k) && Result(b, c).Some?
      ensures Result(b, c) == Lookup(b.store.entries, k)
    {
      ResultIsRemembered(b, c, k);
    }
  }

  /** A send under k is answered with the given id in its first segment and starts nothing. */
  predicate AnswersAtOnce(b: Bridge, k: Key, call: CallId, op: OpId, id: WaId)
    requires call !in b.calls && op !in b.ops
  {
    var retried := Apply(b, SendStep(call, op, Some(k)));
    Result(retried, call) == Some(id) && retried.obtained == b.obtained && retried.ops == b.ops
  }

  /** After a yield, whatever became of the flush, the emit or the reply, a retry is answered with the same id at once. */
  lemma RetryGetsTheSameId(b: Bridge, steps: seq<Step>, k: Key, call: CallId, op: OpId)
    requires Inv(b) && ObtainedFor(b.obtained, k) != [] && k !in Run(b, steps).forgotten
    requires call !in Run(b, steps).calls && op !in Run(b, steps).ops
    ensures AnswersAtOnce(Run(b, steps), k, call, op, ObtainedFor(b.obtained, k)[0])
  {
    RunKeepsInv(b, steps);
    ObtainedStay(b, steps, k);
    assert KeyOk(Run(b, steps), k) && KeyOk(b, k);
  }

  lemma {:induction false} ObtainedStay(b: Bridge, steps: seq<Step>, k: Key)
    ensures ObtainedFor(b.obtained, k) <= ObtainedFor(Run(b, steps).obtained, k)
    decreases |steps|
  {
    if steps != [] {
      ObtainedGrow(b, steps[0], k);
      ObtainedStay(Apply(b, steps[0]), steps[1..], k);
    }
  }

  // ---------------------------------------------------------------- crashes

  /** A key whose put has been flushed survives the death of the process: it is neither trimmed nor in doubt. */
  lemma FlushedSurvivesRestart(b: Bridge, k: Key)
    requires Inv(b) && k in Keys(b.store.file) && k !in b.forgotten
    ensures k !in Restart(b).forgotten && Lookup(Restart(b).store.entries, k) == Lookup(b.store.file, k)
  {
    assert KeyOk(b, k);
    RestartRestores(b.store.file, b.limit);
    forall op | op in b.ops && b.ops[op].key == Some(k) ensures !b.ops[op].phase.Sending? { assert OpOk(b, k, op); }
  }

  lemma RestartKeepsInv(b: Bridge)
    requires Inv(b)
    ensures Inv(Restart(b))
  {
    StepKeepsInv(b, Step.RestartStep);
    assert Apply(b, Step.RestartStep) == Restart(b);
  }

  /** So after the restart, whatever else happens, a retry is answered with the flushed id and sends nothing, until a trim. */
  lemma NotSentAgainAfterRestart(b: Bridge, steps: seq<Step>, k: Key, call: CallId, op: OpId)
    requires Inv(b) && k in Keys(b.store.file) && k !in b.forgotten
    requires k !in Run(Restart(b), steps).forgotten
    requires call !in Run(Restart(b), steps).calls && op !in Run(Restart(b), steps).ops
    ensures Lookup(b.store.file, k).Some?
    ensures AnswersAtOnce(Run(Restart(b), steps), k, call, op, Lookup(b.store.file, k).value)
  {
    FlushedSurvivesRestart(b, k);
    RestartKeepsInv(b);
    RememberedRuns(Restart(b), steps, k);
    assert Lookup(b.store.file, k).Some?;
  }

  lemma {:induction false} RememberedRuns(b: Bridge, steps: seq<Step>, k: Key)
    requires Inv(b) && k !in Run(b, steps).forgotten && Lookup(b.store.entries, k).Some?
    ensures Lookup(Run(b, steps).store.entries, k) == Lookup(b.store.entries, k)
    decreases |steps|
  {
    if steps != [] {
      StepKeepsInv(b, steps[0]);
      RunKeepsInv(Apply(b, steps[0]), steps[1..]);
      RememberedStays(b, steps[0], k);
      RememberedRuns(Apply(b, steps[0]), steps[1..], k);
    }
  }
}
