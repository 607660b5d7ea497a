/** The spool and the sink that drains it, files moved in place; scripts run to the end. */
module FileSpoolModule {
  import opened Base
  import opened Spool
  import opened SpoolProperties

  class FileSpool {
    var pending: Directory
    var inflight: Directory
    var dead: Directory
    var sequence: nat
    var order: nat

    ghost function Contents(): Disk
      reads this
    {
      Disk(pending, inflight, dead, sequence, order)
    }

    constructor (d: Disk)
      ensures Contents() == d
    {
      pending, inflight, dead, sequence, order := d.pending, d.inflight, d.dead, d.sequence, d.order;
    }

    /** Recovery: every inflight file of the listing goes back to pending; none is lost and none stays. */
    method Initialize(names: seq<EventKey>)
      requires Lists(inflight, names) && pending.Keys !! inflight.Keys
      modifies this`pending, this`inflight
      ensures Contents() == DoAll(old(Contents()), RecoverScript(names))
      ensures inflight == map[] && pending == old(pending) + old(inflight)
    {
      RecoverMovesAll(Contents(), names);
      var n := 0;
      while n < |names|
        invariant n <= |names|
        invariant dead == old(dead) && sequence == old(sequence) && order == old(order)
        invariant DoAll(Contents(), RecoverScript(names[n..])) == DoAll(old(Contents()), RecoverScript(names))
      {
        var k := names[n];
        assert names[n..][1..] == names[n + 1..];
        assert RecoverScript(names[n..])[1..] == RecoverScript(names[n + 1..]);
        if k in inflight {
          pending, inflight := pending[k := inflight[k]], inflight - {k};
        }
        n := n + 1;
      }
      assert names[n..] == [];
    }

    method NextSequence() returns (next: nat)
      modifies this`sequence
      ensures Contents() == DoAll(old(Contents()), NextScript(old(Contents())))
      ensures next == sequence && next > old(sequence)
    {
      OneOp(Contents(), map[], WriteSequence(sequence + 1));
      sequence := sequence + 1;
      return sequence;
    }

    method Append(e: Event, now: Time) returns (answer: AppendResult)
      modifies this`pending, this`order
      ensures answer == AppendAnswer(old(Contents()), e)
      ensures Contents() == DoAll(old(Contents()), AppendScript(old(Contents()), e, now))
      ensures answer.Appended? || answer.AlreadyThere? ==>
                Find(Contents(), e.key).Some? && Find(Contents(), e.key).value.event == e
    {
      ghost var before := Contents();
      if e.sequence < 1 { return InvalidEvent; }
      var existing := if e.key in pending then Some(pending[e.key])
                      else if e.key in inflight then Some(inflight[e.key])
                      else if e.key in dead then Some(dead[e.key])
                      else None;
      if existing.Some? {
        return if existing.value.event == e then AlreadyThere else IdentityConflict;
      }
      TwoOps(before, map[], WriteOrder(order + 1), WritePending(e.key, NewRecord(before, e, now)));
      order := order + 1;
      pending := pending[e.key := Record(e, order, 0, Some(now), None, None)];
      return Appended;
    }

    /** The candidates sorted: the least by sequence, enqueue order and key. */
    method Least() returns (least: Option<EventKey>)
      ensures LeastOf(pending, least)
    {
      least := None;
      var names := pending.Keys;
      while names != {}
        invariant names <= pending.Keys
        invariant least.None? ==> names == pending.Keys
        invariant least.Some? ==> least.value in pending
        invariant least.Some? ==> forall o :: o in pending && o !in names ==> Precedes(pending, least.value, o)
        decreases |names|
      {
        var k :| k in names;
        names := names - {k};
        if least.None? || !Precedes(pending, least.value, k) { least := Some(k); }
      }
      assert least.None? ==> pending.Keys == {};
    }

    /** A later event never overtakes the least one: while that one is in backoff nothing is claimed. */
    method ClaimNext(now: Time) returns (claim: Option<Claim>, ghost least: Option<EventKey>)
      modifies this`pending, this`inflight
      ensures LeastOf(old(pending), least)
      ensures Contents() == DoAll(old(Contents()), ClaimScript(old(Contents()), least, now))
      ensures claim.Some? ==>
                && Some(claim.value.key) == least && claim.value.key in old(pending)
                && claim.value.record == old(pending)[claim.value.key] && Available(claim.value.record, now)
                && pending == old(pending) - {claim.value.key}
                && inflight == old(inflight)[claim.value.key := claim.value.record]
      ensures claim.None? ==> Contents() == old(Contents())
      ensures claim.None? && old(pending) != map[] ==>
                least.Some? && !Available(old(pending)[least.value], now)
    {
      var first := Least();
      least := first;
      if first.None? || !Available(pending[first.value], now) { return None, least; }
      OneOp(Contents(), map[], ToInflight(first.value));
      var k := first.value;
      claim := Some(Claim.Claim(k, pending[k]));
      pending, inflight := pending - {k}, inflight[k := pending[k]];
    }

    method Complete(claim: Claim)
      modifies this`inflight
      ensures Contents() == DoAll(old(Contents()), CompleteScript(claim))
      ensures inflight == old(inflight) - {claim.key}
    {
      OneOp(Contents(), map[], RemoveInflight(claim.key));
      inflight := inflight - {claim.key};
    }

    method Release(claim: Claim, error: string, delay: nat, now: Time)
      modifies this`pending, this`inflight
      ensures Contents() == DoAll(old(Contents()), ReleaseScript(claim, error, delay, now))
      ensures inflight == old(inflight) - {claim.key}
      ensures pending == old(pending)[claim.key := Released(claim, error, delay, now)]
      ensures forall t :: t < now + delay ==> !Available(pending[claim.key], t)
    {
      var record := claim.record.(attempt := claim.record.attempt + 1, availableAt := Some(now + delay),
                                  error := Some(error), deadAt := None);
      TwoOps(Contents(), map[], WriteInflight(claim.key, record), ToPending(claim.key));
      inflight := inflight[claim.key := record];
      pending, inflight := pending[claim.key := inflight[claim.key]], inflight - {claim.key};
    }

    method DeadLetter(claim: Claim, error: string, now: Time)
      modifies this`dead, this`inflight
      ensures Contents() == DoAll(old(Contents()), DeadScript(claim, error, now))
      ensures inflight == old(inflight) - {claim.key}
      ensures dead == old(dead)[claim.key := Buried(claim, error, now)]
    {
      var record := claim.record.(attempt := claim.record.attempt + 1, availableAt := None,
                                  error := Some(error), deadAt := Some(now));
      TwoOps(Contents(), map[], WriteInflight(claim.key, record), ToDead(claim.key));
      inflight := inflight[claim.key := record];
      dead, inflight := dead[claim.key := inflight[claim.key]], inflight - {claim.key};
    }
  }

  /** What the server's side of one POST amounts to. */
  datatype Response = NetworkError(reason: string) | Ok200(accepted: bool) | Status409 | Status422 | Other(code: nat)

  /** The server turned the event down for good, as the sink sees it. */
  predicate Buries(r: Response) {
    r.Status409? || r.Status422?
  }

  function Complaint(r: Response): string {
    match r
    case NetworkError(reason) => reason
    case Ok200(_) => "unaccepted_200_response"
    case Status409 => "HTTP 409 event_conflict"
    case Status422 => "HTTP 422"
    case Other(_) => "HTTP error"
  }

  class EventSink {
    const spool: FileSpool

    constructor (spool: FileSpool)
      ensures this.spool == spool
    {
      this.spool := spool;
    }

    /**
     One flush. Only an accepted 200 removes the event; every 409 and 422 buries it; anything else puts it
     back behind a backoff. Events other than the least pending one are not touched.
     */
    method FlushOne(response: Response, backoff: nat, now: Time) returns (drained: bool, ghost least: Option<EventKey>)
      requires spool.inflight == map[] && spool.pending.Keys !! spool.dead.Keys
      modifies spool
      ensures LeastOf(old(spool.pending), least)
      ensures spool.inflight == map[] && spool.sequence == old(spool.sequence) && spool.order == old(spool.order)
      ensures spool.pending.Keys !! spool.dead.Keys
      ensures drained <==> least.Some? && Available(old(spool.pending)[least.value], now) && response == Ok200(true)
      ensures forall k :: k in old(spool.pending) && Some(k) != least ==>
                k in spool.pending && spool.pending[k] == old(spool.pending)[k]
      ensures least.None? || !Available(old(spool.pending)[least.value], now) ==> spool.Contents() == old(spool.Contents())
      ensures drained ==> spool.pending == old(spool.pending) - {least.value} && spool.dead == old(spool.dead)
      ensures least.Some? ==>
                (least.value in spool.dead <==> Available(old(spool.pending)[least.value], now) && Buries(response))
      ensures least.Some? && Available(old(spool.pending)[least.value], now) && Buries(response) ==>
                var claim := Claim.Claim(least.value, old(spool.pending)[least.value]);
                spool.pending == old(spool.pending) - {least.value}
                && spool.dead == old(spool.dead)[least.value := Buried(claim, Complaint(response), now)]
      ensures least.Some? && Available(old(spool.pending)[least.value], now) && !drained && !Buries(response) ==>
                var claim := Claim.Claim(least.value, old(spool.pending)[least.value]);
                spool.pending == old(spool.pending)[least.value := Released(claim, Complaint(response), backoff, now)]
                && spool.dead == old(spool.dead)
                && forall t :: t < now + backoff ==> !Available(spool.pending[least.value], t)
    {
      var claimed;
      claimed, least := spool.ClaimNext(now);
      if claimed.None? { return false, least; }
      drained := Settle(claimed.value, response, backoff, now);
    }

    /** What the response makes of the claimed file. */
    method Settle(claim: Claim, response: Response, backoff: nat, now: Time) returns (drained: bool)
      modifies spool`pending, spool`inflight, spool`dead
      ensures drained <==> response == Ok200(true)
      ensures spool.inflight == old(spool.inflight) - {claim.key}
      ensures spool.pending == if drained || Buries(response) then old(spool.pending)
                               else old(spool.pending)[claim.key := Released(claim, Complaint(response), backoff, now)]
      ensures spool.dead == if Buries(response) then old(spool.dead)[claim.key := Buried(claim, Complaint(response), now)]
                            else old(spool.dead)
    {
      match response
      case NetworkError(reason) => spool.Release(claim, reason, backoff, now); drained := false;
      case Ok200(accepted) =>
        if accepted { spool.Complete(claim); } else { spool.Release(claim, Complaint(response), backoff, now); }
        drained := accepted;
      case Status422 => spool.DeadLetter(claim, "HTTP 422", now); drained := false;
      case Status409 => spool.DeadLetter(claim, "HTTP 409 event_conflict", now); drained := false;
      case Other(_) => spool.Release(claim, Complaint(response), backoff, now); drained := false;
    }
  }
}
