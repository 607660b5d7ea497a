/**
 The bridge's crash-safe event spool: one file per event in one of three directories, moved by atomic
 renames, and two counter files. Operations are serialised, so each is a script of file operations fixed by
 the directories it finds; a crash cuts a script anywhere.
 */
module Spool {
  import opened Base

  type EventKey = nat

  datatype Event = Event(key: EventKey, sequence: nat, payload: nat)

  datatype Record = Record(event: Event, order: nat, attempt: nat, availableAt: Option<Time>, error: Option<string>,
                           deadAt: Option<Time>)

  type Directory = map<EventKey, Record>

  datatype Disk = Disk(pending: Directory, inflight: Directory, dead: Directory, sequence: nat, order: nat)

  // ---------------------------------------------------------------- file operations

  datatype FileOp =
    | WriteSequence(n: nat)
    | WriteOrder(n: nat)
    | WritePending(key: EventKey, record: Record)
    | WriteInflight(key: EventKey, record: Record)
    | ToInflight(key: EventKey)
    | ToPending(key: EventKey)
    | ToDead(key: EventKey)
    | RemoveInflight(key: EventKey)

  /** A rename of a missing file fails and changes nothing; a rename onto a file replaces it. */
  function Do(d: Disk, op: FileOp): Disk {
    match op
    case WriteSequence(n) => d.(sequence := n)
    case WriteOrder(n) => d.(order := n)
    case WritePending(k, r) => d.(pending := d.pending[k := r])
    case WriteInflight(k, r) => d.(inflight := d.inflight[k := r])
    case ToInflight(k) =>
      if k in d.pending then d.(pending := d.pending - {k}, inflight := d.inflight[k := d.pending[k]]) else d
    case ToPending(k) =>
      if k in d.inflight then d.(inflight := d.inflight - {k}, pending := d.pending[k := d.inflight[k]]) else d
    case ToDead(k) =>
      if k in d.inflight then d.(inflight := d.inflight - {k}, dead := d.dead[k := d.inflight[k]]) else d
    case RemoveInflight(k) => d.(inflight := d.inflight - {k})
  }

  function DoAll(d: Disk, ops: seq<FileOp>): Disk
    decreases |ops|
  {
    if ops == [] then d else DoAll(Do(d, ops[0]), ops[1..])
  }

  // ---------------------------------------------------------------- scripts

  function Find(d: Disk, k: EventKey): Option<Record> {
    if k in d.pending then Some(d.pending[k])
    else if k in d.inflight then Some(d.inflight[k])
    else if k in d.dead then Some(d.dead[k])
    else None
  }

  datatype AppendResult = Appended | AlreadyThere | IdentityConflict | InvalidEvent

  function AppendAnswer(d: Disk, e: Event): AppendResult {
    if e.sequence < 1 then InvalidEvent
    else if Find(d, e.key).Some? then
      if Find(d, e.key).value.event == e then AlreadyThere else IdentityConflict
    else Appended
  }

  function NewRecord(d: Disk, e: Event, now: Time): Record {
    Record(e, d.order + 1, 0, Some(now), None, None)
  }

  function AppendScript(d: Disk, e: Event, now: Time): seq<FileOp> {
    if AppendAnswer(d, e).Appended?
    then [WriteOrder(d.order + 1), WritePending(e.key, NewRecord(d, e, now))]
    else []
  }

  /** The order in which claim sorts its candidates. */
  predicate Precedes(d: Directory, i: EventKey, j: EventKey)
    requires i in d && j in d
  {
    var x, y := d[i], d[j];
    || x.event.sequence < y.event.sequence
    || (x.event.sequence == y.event.sequence && x.order < y.order)
    || (x.event.sequence == y.event.sequence && x.order == y.order && i <= j)
  }

  predicate IsLeast(d: Directory, k: EventKey) {
    k in d && forall o :: o in d ==> Precedes(d, k, o)
  }

  predicate Available(r: Record, now: Time) {
    r.availableAt.None? || r.availableAt.value <= now
  }

  /** `least` is the least candidate, if there is one; nothing is claimed while that one is in backoff. */
  ghost predicate LeastOf(d: Directory, least: Option<EventKey>) {
    if least.Some? then IsLeast(d, least.value) else d == map[]
  }

  function ClaimScript(d: Disk, least: Option<EventKey>, now: Time): seq<FileOp> {
    if least.Some? && least.value in d.pending && Available(d.pending[least.value], now)
    then [ToInflight(least.value)] else []
  }

  datatype Claim = Claim(key: EventKey, record: Record)

  function Released(c: Claim, error: string, delay: nat, now: Time): Record {
    c.record.(attempt := c.record.attempt + 1, availableAt := Some(now + delay), error := Some(error), deadAt := None)
  }

  function ReleaseScript(c: Claim, error: string, delay: nat, now: Time): seq<FileOp> {
    [WriteInflight(c.key, Released(c, error, delay, now)), ToPending(c.key)]
  }

  function Buried(c: Claim, error: string, now: Time): Record {
    c.record.(attempt := c.record.attempt + 1, availableAt := None, error := Some(error), deadAt := Some(now))
  }

  function DeadScript(c: Claim, error: string, now: Time): seq<FileOp> {
    [WriteInflight(c.key, Buried(c, error, now)), ToDead(c.key)]
  }

  function CompleteScript(c: Claim): seq<FileOp> {
    [RemoveInflight(c.key)]
  }

  function NextScript(d: Disk): seq<FileOp> {
    [WriteSequence(d.sequence + 1)]
  }

  /** recoverInflight renames every inflight file back, whatever the order of the listing. */
  function RecoverScript(keys: seq<EventKey>): seq<FileOp> {
    if keys == [] then [] else [ToPending(keys[0])] + RecoverScript(keys[1..])
  }

  ghost predicate Lists(d: Directory, keys: seq<EventKey>) {
    && (forall k :: k in keys <==> k in d)
    && (forall i, j :: 0 <= i < j < |keys| ==> keys[i] != keys[j])
  }

  // ---------------------------------------------------------------- the system and its steps

  datatype Sink = Idle | Holding(claim: Claim)

  datatype Outcome = Outcome(key: EventKey, sequence: nat)

  /**
   `todo` is the rest of the script in progress. History: `live` are the events durably appended and not
   acknowledged by a 200, `outcomes` the acknowledgements and dead-letters decided so far, `issued` the
   sequence numbers that became durable.
   */
  datatype System = System(disk: Disk, todo: seq<FileOp>, sink: Sink, live: map<EventKey, Event>,
                           outcomes: seq<Outcome>, issued: seq<nat>)

  datatype Step =
    | NextSequence
    | Append(event: Event, now: Time)
    | ClaimNext(least: Option<EventKey>, now: Time)
    | Accepted
    | Refused(error: string, now: Time)
    | Retained(error: string, delay: nat, now: Time)
    | FileStep
    | Crash(keys: seq<EventKey>)

  /** What a file operation adds to the history when it lands. */
  function Land(s: System, op: FileOp): System {
    match op
    case WritePending(k, r) => s.(disk := Do(s.disk, op), live := s.live[k := r.event])
    case WriteSequence(n) => s.(disk := Do(s.disk, op), issued := s.issued + [n])
    case _ => s.(disk := Do(s.disk, op))
  }

  function Decided(s: System): System
    requires s.sink.Holding?
  {
    s.(outcomes := s.outcomes + [Outcome(s.sink.claim.key, s.sink.claim.record.event.sequence)])
  }

  ghost function Apply(s: System, step: Step): System {
    match step
    case NextSequence => if s.todo == [] then s.(todo := NextScript(s.disk)) else s
    case Append(e, now) => if s.todo == [] then s.(todo := AppendScript(s.disk, e, now)) else s
    case ClaimNext(least, now) =>
      if s.todo == [] && s.sink.Idle? && LeastOf(s.disk.pending, least) && ClaimScript(s.disk, least, now) != []
      then s.(todo := ClaimScript(s.disk, least, now), sink := Holding(Claim(least.value, s.disk.pending[least.value])))
      else s
    case Accepted =>
      if s.todo == [] && s.sink.Holding?
      then Decided(s).(todo := CompleteScript(s.sink.claim), live := s.live - {s.sink.claim.key}, sink := Idle)
      else s
    case Refused(error, now) =>
      if s.todo == [] && s.sink.Holding? then Decided(s).(todo := DeadScript(s.sink.claim, error, now), sink := Idle) else s
    case Retained(error, delay, now) =>
      if s.todo == [] && s.sink.Holding?
      then s.(todo := ReleaseScript(s.sink.claim, error, delay, now), sink := Idle) else s
    case FileStep => if s.todo == [] then s else Land(s, s.todo[0]).(todo := s.todo[1..])
    case Crash(keys) =>
      // the process dies wherever it is and initialize starts over
      if Lists(s.disk.inflight, keys) then s.(todo := RecoverScript(keys), sink := Idle) else s
  }

  ghost function Run(s: System, steps: seq<Step>): System
    decreases |steps|
  {
    if steps == [] then s else Run(Apply(s, steps[0]), steps[1..])
  }

  const EMPTY := System(Disk(map[], map[], map[], 0, 0), [], Idle, map[], [], [])
}
