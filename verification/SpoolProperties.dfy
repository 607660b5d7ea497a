/** Conservation, order and counters of the spool, through crashes at any point between file operations. */
module SpoolProperties {
  import opened Base
  import opened Spool

  // ---------------------------------------------------------------- the invariant

  predicate Disjoint(d: Disk) {
    d.pending.Keys !! d.inflight.Keys && d.pending.Keys !! d.dead.Keys && d.inflight.Keys !! d.dead.Keys
  }

  predicate KeysMatch(d: Disk) {
    && (forall k :: k in d.pending ==> d.pending[k].event.key == k)
    && (forall k :: k in d.inflight ==> d.inflight[k].event.key == k)
  }

  /** Every live event is in one of the directories, with its content. */
  predicate Conserved(d: Disk, live: map<EventKey, Event>) {
    forall k :: k in live ==> Find(d, k).Some? && Find(d, k).value.event == live[k]
  }

  /** What must be true of the directories when an operation lands. */
  predicate OpSafe(d: Disk, live: map<EventKey, Event>, op: FileOp) {
    match op
    case WriteSequence(n) => n == d.sequence + 1
    case WriteOrder(n) => true
    case WritePending(k, r) => Find(d, k).None? && r.event.key == k
    case WriteInflight(k, r) => k in d.inflight && r.event == d.inflight[k].event
    case ToInflight(k) => k in d.pending
    case ToPending(k) => k in d.inflight
    case ToDead(k) => k in d.inflight
    case RemoveInflight(k) => k in d.inflight && k !in live
  }

  function LiveAfter(live: map<EventKey, Event>, op: FileOp): map<EventKey, Event> {
    if op.WritePending? then live[op.key := op.record.event] else live
  }

  /** The rest of the script is safe if each operation is when its turn comes. */
  predicate Safe(d: Disk, live: map<EventKey, Event>, todo: seq<FileOp>)
    decreases |todo|
  {
    todo == [] || (OpSafe(d, live, todo[0]) && Safe(Do(d, todo[0]), LiveAfter(live, todo[0]), todo[1..]))
  }

  predicate IssuedBelow(issued: seq<nat>, sequence: nat) {
    && (forall i :: 0 <= i < |issued| ==> issued[i] <= sequence)
    && (forall i, j :: 0 <= i < j < |issued| ==> issued[i] < issued[j])
  }

  /** Once the script has run, exactly the claim the sink holds is inflight. */
  predicate SinkMatches(s: System) {
    DoAll(s.disk, s.todo).inflight ==
      match s.sink
      case Idle => map[]
      case Holding(c) => map[c.key := c.record]
  }

  ghost predicate Inv(s: System) {
    && Disjoint(s.disk) && KeysMatch(s.disk) && Conserved(s.disk, s.live)
    && Safe(s.disk, s.live, s.todo)
    && IssuedBelow(s.issued, s.disk.sequence)
    && SinkMatches(s)
  }

  // ---------------------------------------------------------------- preservation

  lemma LandingKeepsInv(s: System)
    requires Inv(s) && s.todo != []
    ensures Inv(Apply(s, FileStep))
  {
    var op, d := s.todo[0], s.disk;
    assert OpSafe(d, s.live, op);
    var after := Do(d, op);
    forall k | k in LiveAfter(s.live, op)
      ensures Find(after, k).Some? && Find(after, k).value.event == LiveAfter(s.live, op)[k]
    {
      if k in s.live { assert Find(d, k).Some?; }
    }
  }

  lemma {:induction false} RecoverIsSafe(d: Disk, live: map<EventKey, Event>, keys: seq<EventKey>)
    requires Lists(d.inflight, keys)
    ensures Safe(d, live, RecoverScript(keys))
    ensures DoAll(d, RecoverScript(keys)).inflight == map[]
    decreases |keys|
  {
    if keys == [] {
      assert d.inflight.Keys == {};
    } else {
      var after := Do(d, ToPending(keys[0]));
      ListsTail(d.inflight, keys);
      RecoverIsSafe(after, live, keys[1..]);
      assert RecoverScript(keys)[1..] == RecoverScript(keys[1..]);
    }
  }

  /** Recovery loses nothing: afterwards pending holds what pending and inflight held. */
  lemma {:induction false} RecoverMovesAll(d: Disk, keys: seq<EventKey>)
    requires Lists(d.inflight, keys) && d.pending.Keys !! d.inflight.Keys
    ensures DoAll(d, RecoverScript(keys)) == d.(pending := d.pending + d.inflight, inflight := map[])
    decreases |keys|
  {
    if keys == [] {
      assert d.inflight.Keys == {} && d.pending + d.inflight == d.pending;
    } else {
      var after := Do(d, ToPending(keys[0]));
      ListsTail(d.inflight, keys);
      assert keys[0] in keys;
      MoveOne(d.inflight, d.pending, keys[0]);
      RecoverMovesAll(after, keys[1..]);
      assert RecoverScript(keys)[1..] == RecoverScript(keys[1..]);
    }
  }

  lemma MoveOne(from: Directory, to: Directory, k: EventKey)
    requires k in from && from.Keys !! to.Keys
    ensures to[k := from[k]] + (from - {k}) == to + from
    ensures to[k := from[k]].Keys !! (from - {k}).Keys
  {
  }

  lemma ListsTail(dir: Directory, keys: seq<EventKey>)
    requires Lists(dir, keys) && keys != []
    ensures Lists(dir - {keys[0]}, keys[1..])
  {
  }

  lemma TwoOps(d: Disk, live: map<EventKey, Event>, first: FileOp, second: FileOp)
    ensures Safe(d, live, [first, second]) <==>
            OpSafe(d, live, first) && OpSafe(Do(d, first), LiveAfter(live, first), second)
    ensures DoAll(d, [first, second]) == Do(Do(d, first), second)
  {
    assert [first, second][1..] == [second];
    OneOp(Do(d, first), LiveAfter(live, first), second);
  }

  lemma OneOp(d: Disk, live: map<EventKey, Event>, op: FileOp)
    ensures Safe(d, live, [op]) <==> OpSafe(d, live, op)
    ensures DoAll(d, [op]) == Do(d, op)
  {
  }

  lemma SettlingKeepsInv(s: System, step: Step)
    requires Inv(s) && s.todo == [] && s.sink.Holding? && (step.Accepted? || step.Refused? || step.Retained?)
    ensures Inv(Apply(s, step))
  {
    var c := s.sink.claim;
    assert s.disk.inflight == map[c.key := c.record];
    match step
    case Accepted => OneOp(s.disk, s.live - {c.key}, RemoveInflight(c.key));
    case Refused(error, now) =>
      TwoOps(s.disk, s.live, WriteInflight(c.key, Buried(c, error, now)), ToDead(c.key));
    case Retained(error, delay, now) =>
      TwoOps(s.disk, s.live, WriteInflight(c.key, Released(c, error, delay, now)), ToPending(c.key));
  }

  lemma BeginKeepsInv(s: System, step: Step)
    requires Inv(s) && s.todo == [] && (step.NextSequence? || step.Append? || step.ClaimNext?)
    ensures Inv(Apply(s, step))
  {
    match step
    case NextSequence => OneOp(s.disk, s.live, WriteSequence(s.disk.sequence + 1));
    case Append(e, now) =>
      TwoOps(s.disk, s.live, WriteOrder(s.disk.order + 1), WritePending(e.key, NewRecord(s.disk, e, now)));
    case ClaimNext(least, now) =>
      if least.Some? { OneOp(s.disk, s.live, ToInflight(least.value)); }
  }

  lemma StepKeepsInv(s: System, step: Step)
    requires Inv(s)
    ensures Inv(Apply(s, step))
  {
    match step
    case FileStep => if s.todo != [] { LandingKeepsInv(s); }
    case Crash(keys) => if Lists(s.disk.inflight, keys) { RecoverIsSafe(s.disk, s.live, keys); }
    case Accepted => if s.todo == [] && s.sink.Holding? { SettlingKeepsInv(s, step); }
    case Refused(_, _) => if s.todo == [] && s.sink.Holding? { SettlingKeepsInv(s, step); }
    case Retained(_, _, _) => if s.todo == [] && s.sink.Holding? { SettlingKeepsInv(s, step); }
    case _ => if s.todo == [] { BeginKeepsInv(s, step); }
  }

  lemma {:induction false} RunKeepsInv(s: System, steps: seq<Step>)
    requires Inv(s)
    ensures Inv(Run(s, steps))
    decreases |steps|
  {
    if steps != [] {
      StepKeepsInv(s, steps[0]);
      RunKeepsInv(Apply(s, steps[0]), steps[1..]);
    }
  }

  // ---------------------------------------------------------------- conservation

  predicate InExactlyOne(d: Disk, k: EventKey) {
    || (k in d.pending && k !in d.inflight && k !in d.dead)
    || (k !in d.pending && k in d.inflight && k !in d.dead)
    || (k !in d.pending && k !in d.inflight && k in d.dead)
  }

  /**
   In every state of every run, crashes between any two file operations and during recovery included, each
   event appended and not acknowledged lies in exactly one directory with its content, no key is ever in two,
   and the durable sequence numbers are strictly increasing.
   */
  lemma SpoolConserves(steps: seq<Step>, k: EventKey)
    ensures var s := Run(EMPTY, steps);
            && (k in s.live ==> InExactlyOne(s.disk, k) && Find(s.disk, k).value.event == s.live[k])
            && (k in s.disk.pending ==> k !in s.disk.inflight && k !in s.disk.dead)
            && (k in s.disk.inflight ==> k !in s.disk.dead)
            && (forall i, j :: 0 <= i < j < |s.issued| ==> s.issued[i] < s.issued[j])
            && (forall i :: 0 <= i < |s.issued| ==> s.issued[i] <= s.disk.sequence)
  {
    assert Inv(EMPTY);
    RunKeepsInv(EMPTY, steps);
  }

  // ---------------------------------------------------------------- delivery order

  predicate Before(x: Outcome, y: Outcome) {
    x.sequence < y.sequence || x == y
  }

  /** First outcomes come in strictly increasing sequence; a later one can only repeat an event after a crash. */
  predicate Ordered(outcomes: seq<Outcome>) {
    forall i, j :: 0 <= i < j < |outcomes| ==> Before(outcomes[i], outcomes[j])
  }

  function Waiting(d: Disk): set<EventKey> {
    d.pending.Keys + d.inflight.Keys
  }

  function SequenceOf(d: Disk, k: EventKey): nat
    requires k in Waiting(d)
  {
    if k in d.pending then d.pending[k].event.sequence else d.inflight[k].event.sequence
  }

  /**
   The event's sequence is above everything decided so far, but for a decision on the same event, and above what
   is held, and no waiting event shares it. It need not be above what merely waits: the claim sorts that out.
   */
  predicate Ahead(s: System, e: Event) {
    && (forall o :: o in s.outcomes ==> Before(o, Outcome(e.key, e.sequence)))
    && (s.sink.Holding? ==> s.sink.claim.record.event.sequence < e.sequence)
    && (forall k :: k in Waiting(s.disk) ==> SequenceOf(s.disk, k) != e.sequence)
  }

  predicate HeldIsFirst(d: Disk, c: Claim) {
    forall k :: k in d.pending && k != c.key ==> c.record.event.sequence < d.pending[k].event.sequence
  }

  ghost predicate OrderInv(s: System) {
    && Ordered(s.outcomes)
    && (forall k, o :: k in Waiting(s.disk) && o in s.outcomes ==> Before(o, Outcome(k, SequenceOf(s.disk, k))))
    && (forall i, j :: i in Waiting(s.disk) && j in Waiting(s.disk) && i != j
          ==> SequenceOf(s.disk, i) != SequenceOf(s.disk, j))
    && (s.sink.Holding? ==> HeldIsFirst(s.disk, s.sink.claim))
    && (forall op :: op in s.todo && op.WritePending? ==> Ahead(s, op.record.event))
    && (forall i :: 0 <= i < |s.todo| - 1 ==> !s.todo[i].WritePending?)
    && (s.sink.Holding? ==> forall op :: op in s.todo ==>
          op.WriteSequence? || op.WriteOrder? || op.WritePending? || op == ToInflight(s.sink.claim.key))
  }

  predicate AppendsAhead(s: System, step: Step) {
    step.Append? && s.todo == [] && AppendAnswer(s.disk, step.event).Appended? ==> Ahead(s, step.event)
  }

  lemma TailOf(todo: seq<FileOp>)
    requires todo != []
    ensures forall op :: op in todo[1..] ==> op in todo
    ensures todo[0] in todo
  {
  }

  /** Landing an operation moves waiting events about, or adds the one that is appended. */
  lemma WaitingAfter(s: System)
    requires Inv(s) && s.todo != []
    ensures var op, d := s.todo[0], Do(s.disk, s.todo[0]);
            forall k :: k in Waiting(d) ==>
              || (k in Waiting(s.disk) && SequenceOf(d, k) == SequenceOf(s.disk, k))
              || (op.WritePending? && op.key == k && SequenceOf(d, k) == op.record.event.sequence)
  {
  }

  lemma LandingKeepsOrder(s: System)
    requires Inv(s) && OrderInv(s) && s.todo != []
    ensures OrderInv(Apply(s, FileStep))
  {
    var op, after := s.todo[0], Apply(s, FileStep);
    TailOf(s.todo);
    WaitingAfter(s);
    if op.WritePending? { assert Ahead(s, op.record.event); }
  }

  lemma OrderedSnoc(outcomes: seq<Outcome>, last: Outcome)
    requires Ordered(outcomes) && forall o :: o in outcomes ==> Before(o, last)
    ensures Ordered(outcomes + [last])
  {
  }

  lemma SettlingKeepsOrder(s: System, step: Step)
    requires Inv(s) && OrderInv(s) && s.todo == [] && s.sink.Holding?
    requires step.Accepted? || step.Refused? || step.Retained?
    ensures OrderInv(Apply(s, step))
  {
    var c := s.sink.claim;
    assert s.disk.inflight == map[c.key := c.record];
    assert c.key in Waiting(s.disk) && SequenceOf(s.disk, c.key) == c.record.event.sequence;
    OrderedSnoc(s.outcomes, Outcome(c.key, c.record.event.sequence));
  }

  lemma BeginKeepsOrder(s: System, step: Step)
    requires Inv(s) && OrderInv(s) && s.todo == [] && AppendsAhead(s, step)
    requires step.NextSequence? || step.Append? || step.ClaimNext?
    ensures OrderInv(Apply(s, step))
  {
    if step.ClaimNext? && Apply(s, step) != s {
      var k := step.least.value;
      forall o | o in s.disk.pending && o != k
        ensures s.disk.pending[k].event.sequence < s.disk.pending[o].event.sequence
      {
        assert Precedes(s.disk.pending, k, o);
        assert SequenceOf(s.disk, k) != SequenceOf(s.disk, o);
      }
    }
  }

  lemma {:induction false} RecoverOps(keys: seq<EventKey>)
    ensures forall op :: op in RecoverScript(keys) ==> op.ToPending?
    decreases |keys|
  {
    if keys != [] { RecoverOps(keys[1..]); }
  }

  lemma StepKeepsOrder(s: System, step: Step)
    requires Inv(s) && OrderInv(s) && AppendsAhead(s, step)
    ensures OrderInv(Apply(s, step))
  {
    match step
    case FileStep => if s.todo != [] { LandingKeepsOrder(s); }
    case Crash(keys) =>
      RecoverOps(keys);
      if Lists(s.disk.inflight, keys) {
        assert forall i :: 0 <= i < |RecoverScript(keys)| ==> RecoverScript(keys)[i] in RecoverScript(keys);
      }
    case Accepted => if s.todo == [] && s.sink.Holding? { SettlingKeepsOrder(s, step); }
    case Refused(_, _) => if s.todo == [] && s.sink.Holding? { SettlingKeepsOrder(s, step); }
    case Retained(_, _, _) => if s.todo == [] && s.sink.Holding? { SettlingKeepsOrder(s, step); }
    case _ => if s.todo == [] { BeginKeepsOrder(s, step); }
  }

  /** Every append of the run is ahead, in the sense above, when it is made. */
  ghost predicate AllAhead(s: System, steps: seq<Step>)
    decreases |steps|
  {
    steps == [] || (AppendsAhead(s, steps[0]) && AllAhead(Apply(s, steps[0]), steps[1..]))
  }

  lemma {:induction false} RunKeepsOrder(s: System, steps: seq<Step>)
    requires Inv(s) && OrderInv(s) && AllAhead(s, steps)
    ensures OrderInv(Run(s, steps))
    decreases |steps|
  {
    if steps != [] {
      StepKeepsOrder(s, steps[0]);
      StepKeepsInv(s, steps[0]);
      RunKeepsOrder(Apply(s, steps[0]), steps[1..]);
    }
  }

  /** Retries, backoff and crashes never reorder delivery, provided no append comes behind a decision. */
  lemma DeliveryInOrder(steps: seq<Step>)
    requires AllAhead(EMPTY, steps)
    ensures Ordered(Run(EMPTY, steps).outcomes)
  {
    RunKeepsOrder(EMPTY, steps);
  }

  // Appending in sequence order, as a single emitter does, is one way to stay ahead.

  ghost predicate Bounded(s: System, last: nat) {
    && (forall o :: o in s.outcomes ==> o.sequence <= last)
    && (forall k :: k in Waiting(s.disk) ==> SequenceOf(s.disk, k) <= last)
    && (s.sink.Holding? ==> s.sink.claim.record.event.sequence <= last)
    && (forall op :: op in s.todo && op.WritePending? ==> op.record.event.sequence <= last)
  }

  ghost predicate InSequence(s: System, steps: seq<Step>, last: nat)
    decreases |steps|
  {
    steps == [] || (
      var appends := steps[0].Append? && s.todo == [] && AppendAnswer(s.disk, steps[0].event).Appended?;
      && (appends ==> last < steps[0].event.sequence)
      && InSequence(Apply(s, steps[0]), steps[1..], if appends then steps[0].event.sequence else last))
  }

  lemma LandingKeepsBound(s: System, last: nat)
    requires Inv(s) && Bounded(s, last) && s.todo != []
    ensures Bounded(Apply(s, FileStep), last)
  {
    TailOf(s.todo);
    WaitingAfter(s);
  }

  lemma StepKeepsBound(s: System, step: Step, last: nat)
    requires Inv(s) && Bounded(s, last)
    requires AppendsWithin(s, step, last)
    ensures Bounded(Apply(s, step), last)
  {
    match step
    case FileStep => if s.todo != [] { LandingKeepsBound(s, last); }
    case Crash(keys) => RecoverOps(keys);
    case ClaimNext(least, now) =>
      if Apply(s, step) != s { assert SequenceOf(s.disk, least.value) <= last; }
    case _ =>
  }

  predicate AppendsWithin(s: System, step: Step, last: nat) {
    step.Append? && s.todo == [] && AppendAnswer(s.disk, step.event).Appended? ==> step.event.sequence <= last
  }

  lemma {:induction false} SequentialAppendsAreAhead(s: System, steps: seq<Step>, last: nat)
    requires Inv(s) && Bounded(s, last) && InSequence(s, steps, last)
    ensures AllAhead(s, steps)
    decreases |steps|
  {
    if steps != [] {
      var appends := steps[0].Append? && s.todo == [] && AppendAnswer(s.disk, steps[0].event).Appended?;
      var next := if appends then steps[0].event.sequence else last;
      StepKeepsInv(s, steps[0]);
      StepKeepsBound(s, steps[0], next);
      SequentialAppendsAreAhead(Apply(s, steps[0]), steps[1..], next);
    }
  }

  /** Appends in strictly increasing sequence are delivered in strictly increasing sequence. */
  lemma InSequenceDelivery(steps: seq<Step>)
    requires InSequence(EMPTY, steps, 0)
    ensures Ordered(Run(EMPTY, steps).outcomes)
  {
    SequentialAppendsAreAhead(EMPTY, steps, 0);
    DeliveryInOrder(steps);
  }
}
