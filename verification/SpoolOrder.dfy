/** Exactly which appends keep delivery in order, and a run with two emitters that does not. */
module SpoolOrder {
  import opened Base
  import opened Spool
  import opened SpoolProperties

  // ---------------------------------------------------------------- runs put together

  lemma {:induction false} RunConcat(s: System, a: seq<Step>, b: seq<Step>)
    ensures Run(s, a + b) == Run(Run(s, a), b)
    decreases |a|
  {
    if a == [] {
      assert a + b == b;
    } else {
      assert (a + b)[1..] == a[1..] + b;
      RunConcat(Apply(s, a[0]), a[1..], b);
    }
  }

  lemma RunTwo(s: System, a: Step, b: Step)
    ensures Run(s, [a, b]) == Apply(Apply(s, a), b)
  {
    assert [a, b][1..] == [b] && [b][1..] == [];
    assert Run(Apply(s, a), [b]) == Run(Apply(Apply(s, a), b), []);
  }

  predicate NoAppends(steps: seq<Step>) {
    forall step :: step in steps ==> !step.Append?
  }

  lemma {:induction false} NoAppendsAllAhead(s: System, steps: seq<Step>)
    requires NoAppends(steps)
    ensures AllAhead(s, steps)
    decreases |steps|
  {
    if steps != [] {
      assert steps[0] in steps;
      NoAppendsAllAhead(Apply(s, steps[0]), steps[1..]);
    }
  }

  // ---------------------------------------------------------------- draining the spool

  predicate Resting(s: System) {
    s.todo == [] && s.sink.Idle?
  }

  function OutcomeOf(d: Directory, k: EventKey): Outcome
    requires k in d
  {
    Outcome(k, d[k].event.sequence)
  }

  lemma {:induction false} LeastExists(d: Directory) returns (k: EventKey)
    requires d != map[]
    ensures IsLeast(d, k)
    decreases |d|
  {
    k :| k in d;
    var rest := d - {k};
    assert d.Keys == rest.Keys + {k};
    if rest != map[] {
      var l := LeastExists(rest);
      assert forall o :: o in rest ==> Precedes(rest, l, o);
      if Precedes(d, l, k) { k := l; }
    }
  }

  /** The held event is acknowledged and its file removed. */
  lemma AcceptHeld(s: System)
    requires Inv(s) && s.todo == [] && s.sink.Holding?
    ensures var after := Run(s, [Accepted, FileStep]);
            && Inv(after) && Resting(after) && after.disk.pending == s.disk.pending && after.disk.dead == s.disk.dead
            && after.outcomes == s.outcomes + [Outcome(s.sink.claim.key, s.sink.claim.record.event.sequence)]
  {
    RunKeepsInv(s, [Accepted, FileStep]);
    RunTwo(s, Accepted, FileStep);
  }

  function ClaimAndAccept(d: Directory, least: EventKey): seq<Step>
    requires least in d
  {
    var r := d[least];
    [ClaimNext(Some(least), if r.availableAt.Some? then r.availableAt.value else 0), FileStep, Accepted, FileStep]
  }

  lemma ClaimLeast(s: System, least: EventKey)
    requires Inv(s) && Resting(s) && IsLeast(s.disk.pending, least)
    ensures var claim := ClaimAndAccept(s.disk.pending, least)[0]; var after := Run(s, [claim, FileStep]);
            && Inv(after) && after.todo == [] && after.sink == Holding(Claim(least, s.disk.pending[least]))
            && after.disk.pending == s.disk.pending - {least} && after.disk.dead == s.disk.dead
            && after.outcomes == s.outcomes
  {
    var claim := ClaimAndAccept(s.disk.pending, least)[0];
    RunTwo(s, claim, FileStep);
    RunKeepsInv(s, [claim, FileStep]);
    assert Apply(s, claim).todo == [ToInflight(least)];
  }

  /** With enough time gone by, the least pending event is claimed and acknowledged. */
  lemma AcceptLeast(s: System, least: EventKey)
    requires Inv(s) && Resting(s) && IsLeast(s.disk.pending, least)
    ensures var after := Run(s, ClaimAndAccept(s.disk.pending, least));
            && Inv(after) && Resting(after) && after.disk.pending == s.disk.pending - {least}
            && after.disk.dead == s.disk.dead
            && after.outcomes == s.outcomes + [OutcomeOf(s.disk.pending, least)]
  {
    var steps := ClaimAndAccept(s.disk.pending, least);
    ClaimLeast(s, least);
    AcceptHeld(Run(s, [steps[0], FileStep]));
    assert steps == [steps[0], FileStep] + [Accepted, FileStep];
    RunConcat(s, [steps[0], FileStep], [Accepted, FileStep]);
  }

  /** Event k of an earlier `pending` has been decided in `after`, or waits there still. */
  predicate DecidedOrWaits(before: System, after: System, k: EventKey)
    requires k in before.disk.pending && |before.outcomes| <= |after.outcomes|
  {
    || OutcomeOf(before.disk.pending, k) in after.outcomes[|before.outcomes|..]
    || (k in after.disk.pending && after.disk.pending[k] == before.disk.pending[k])
  }

  predicate DrainedTo(s: System, after: System, k: EventKey)
    requires k in s.disk.pending
  {
    && Resting(after) && s.outcomes <= after.outcomes
    && OutcomeOf(s.disk.pending, k) in after.outcomes[|s.outcomes|..]
    && forall q :: q in s.disk.pending ==> DecidedOrWaits(s, after, q)
  }

  /** Without any append the sink can go on until a given pending event has been decided. */
  lemma {:induction false} Drain(s: System, k: EventKey) returns (steps: seq<Step>)
    requires Inv(s) && Resting(s) && k in s.disk.pending
    ensures NoAppends(steps) && Inv(Run(s, steps)) && DrainedTo(s, Run(s, steps), k)
    decreases |s.disk.pending|
  {
    var least := LeastExists(s.disk.pending);
    var first := ClaimAndAccept(s.disk.pending, least);
    var mid := Run(s, first);
    AcceptLeast(s, least);
    assert mid.outcomes[|s.outcomes|..] == [OutcomeOf(s.disk.pending, least)];
    if least == k {
      return first;
    }
    var rest := Drain(mid, k);
    RunConcat(s, first, rest);
    steps := first + rest;
    var after := Run(s, steps);
    LaterOutcomes(s, mid, after, k, least);
  }

  lemma LaterOutcomes(s: System, mid: System, after: System, k: EventKey, least: EventKey)
    requires least in s.disk.pending && mid.disk.pending == s.disk.pending - {least} && k in mid.disk.pending
    requires mid.outcomes == s.outcomes + [OutcomeOf(s.disk.pending, least)]
    requires DrainedTo(mid, after, k)
    ensures DrainedTo(s, after, k)
  {
    var (m, n) := (|s.outcomes|, |mid.outcomes|);
    assert after.outcomes[m] == mid.outcomes[m];
    assert after.outcomes[m..] == [OutcomeOf(s.disk.pending, least)] + after.outcomes[n..];
    forall q | q in s.disk.pending ensures DecidedOrWaits(s, after, q)
    {
      if q != least { assert DecidedOrWaits(mid, after, q); }
    }
  }

  // ---------------------------------------------------------------- the exact condition

  lemma NotOrdered(outcomes: seq<Outcome>, n: nat, o: Outcome, x: Outcome)
    requires n <= |outcomes| && o in outcomes[..n] && x in outcomes[n..] && !Before(o, x)
    ensures !Ordered(outcomes)
  {
    var i :| 0 <= i < n && outcomes[i] == o;
    var j :| 0 <= j < |outcomes| - n && outcomes[n..][j] == x;
    assert outcomes[n + j] == x;
  }

  lemma SameSequence(outcomes: seq<Outcome>, o: Outcome, x: Outcome)
    requires o in outcomes && x in outcomes && o != x && o.sequence == x.sequence
    ensures !Ordered(outcomes)
  {
    var i :| 0 <= i < |outcomes| && outcomes[i] == o;
    var j :| 0 <= j < |outcomes| && outcomes[j] == x;
    if i < j { assert !Before(outcomes[i], outcomes[j]); } else { assert !Before(outcomes[j], outcomes[i]); }
  }

  /** Delivery is in order in every continuation whose own appends are ahead. */
  ghost predicate StaysOrdered(s: System) {
    forall steps :: AllAhead(s, steps) ==> Ordered(Run(s, steps).outcomes)
  }

  /** The append lands: the event is pending, and everything else is as it was. */
  lemma AppendLands(s: System, e: Event, now: Time)
    requires Inv(s) && s.todo == [] && AppendAnswer(s.disk, e).Appended?
    ensures var landed := Run(s, [Append(e, now), FileStep, FileStep]);
            && Inv(landed) && landed.todo == [] && landed.sink == s.sink && landed.outcomes == s.outcomes
            && landed.disk.pending == s.disk.pending[e.key := NewRecord(s.disk, e, now)]
            && landed.disk.inflight == s.disk.inflight && landed.disk.dead == s.disk.dead
  {
    var steps := [Append(e, now), FileStep, FileStep];
    RunKeepsInv(s, steps);
    assert steps == [Append(e, now)] + [FileStep, FileStep];
    RunConcat(s, [Append(e, now)], [FileStep, FileStep]);
    assert [Append(e, now)][1..] == [];
    RunTwo(Apply(s, Append(e, now)), FileStep, FileStep);
  }

  /** The sink finishes what it holds, if anything. */
  lemma Release(s: System) returns (steps: seq<Step>)
    requires Inv(s) && s.todo == []
    ensures NoAppends(steps)
    ensures var after := Run(s, steps);
            && Inv(after) && Resting(after) && after.disk.pending == s.disk.pending
            && after.outcomes == s.outcomes + (if s.sink.Idle? then []
                                               else [Outcome(s.sink.claim.key, s.sink.claim.record.event.sequence)])
  {
    if s.sink.Idle? { return []; }
    AcceptHeld(s);
    return [Accepted, FileStep];
  }

  /** An event that is not ahead when it is appended can be decided out of order. */
  lemma BehindCanBreak(s: System, e: Event, now: Time) returns (steps: seq<Step>)
    requires Inv(s) && s.todo == [] && AppendAnswer(s.disk, e).Appended? && !Ahead(s, e)
    ensures NoAppends(steps) && !Ordered(Run(s, [Append(e, now)] + steps).outcomes)
  {
    var landed := Run(s, [Append(e, now), FileStep, FileStep]);
    AppendLands(s, e, now);
    var finish := Release(landed);
    var resting := Run(landed, finish);
    var drain := Drain(resting, e.key);
    var after := Run(resting, drain);
    var more := Tie(s, e, now, resting, after);
    steps := [FileStep, FileStep] + finish + drain + more;
    Glue(s, e, now, finish, drain, more);
    BehindIsUnordered(s, e, resting, after, Run(after, more));
  }

  lemma Glue(s: System, e: Event, now: Time, finish: seq<Step>, drain: seq<Step>, more: seq<Step>)
    ensures Run(s, [Append(e, now)] + ([FileStep, FileStep] + finish + drain + more))
         == Run(Run(Run(Run(s, [Append(e, now), FileStep, FileStep]), finish), drain), more)
  {
    var first := [Append(e, now), FileStep, FileStep];
    assert [Append(e, now)] + ([FileStep, FileStep] + finish + drain + more) == ((first + finish) + drain) + more;
    RunConcat(s, (first + finish) + drain, more);
    RunConcat(s, first + finish, drain);
    RunConcat(s, first, finish);
  }

  /** A waiting event that shares the sequence, and is still pending, is decided as well. */
  predicate SharesWith(s: System, e: Event, k: EventKey) {
    k in s.disk.pending && k != e.key && s.disk.pending[k].event.sequence == e.sequence
  }

  lemma Tie(s: System, e: Event, now: Time, resting: System, after: System) returns (more: seq<Step>)
    requires Inv(after) && e.key in resting.disk.pending && DrainedTo(resting, after, e.key)
    ensures NoAppends(more) && after.outcomes <= Run(after, more).outcomes
    ensures forall k :: SharesWith(after, e, k) ==>
              exists q :: SharesWith(after, e, q) && OutcomeOf(after.disk.pending, q) in Run(after, more).outcomes
  {
    if k :| SharesWith(after, e, k) {
      more := Drain(after, k);
      var end := Run(after, more);
      assert forall x :: x in end.outcomes[|after.outcomes|..] ==> x in end.outcomes;
    } else {
      more := [];
    }
  }

  lemma BehindIsUnordered(s: System, e: Event, resting: System, after: System, end: System)
    requires Inv(s) && s.todo == [] && AppendAnswer(s.disk, e).Appended? && !Ahead(s, e)
    requires e.key in resting.disk.pending && resting.disk.pending[e.key].event == e
    requires forall k :: k in s.disk.pending ==> k in resting.disk.pending && resting.disk.pending[k] == s.disk.pending[k]
    requires resting.outcomes == s.outcomes + (if s.sink.Idle? then []
                                               else [Outcome(s.sink.claim.key, s.sink.claim.record.event.sequence)])
    requires DrainedTo(resting, after, e.key) && after.outcomes <= end.outcomes
    requires forall k :: SharesWith(after, e, k) ==>
               exists q :: SharesWith(after, e, q) && OutcomeOf(after.disk.pending, q) in end.outcomes
    ensures !Ordered(end.outcomes)
  {
    var (n, x) := (|resting.outcomes|, Outcome(e.key, e.sequence));
    assert end.outcomes[..n] == resting.outcomes;
    assert x in end.outcomes[n..] by {
      var j :| 0 <= j < |after.outcomes[n..]| && after.outcomes[n..][j] == x;
      assert end.outcomes[n..][j] == x;
    }
    if o :| o in s.outcomes && !Before(o, x) {
      NotOrdered(end.outcomes, n, o, x);
    } else if s.sink.Holding? && s.sink.claim.record.event.sequence >= e.sequence {
      var c := s.sink.claim;
      assert s.disk.inflight == map[c.key := c.record];
      assert Outcome(c.key, c.record.event.sequence) == resting.outcomes[n - 1];
      NotOrdered(end.outcomes, n, Outcome(c.key, c.record.event.sequence), x);
    } else {
      var k :| k in Waiting(s.disk) && SequenceOf(s.disk, k) == e.sequence;
      assert s.disk.inflight == if s.sink.Idle? then map[] else map[s.sink.claim.key := s.sink.claim.record];
      assert k in s.disk.pending && k != e.key;
      assert DecidedOrWaits(resting, after, k);
      if OutcomeOf(resting.disk.pending, k) in after.outcomes[n..] {
        MembersOf(after.outcomes, end.outcomes, n, OutcomeOf(resting.disk.pending, k));
        SameSequence(end.outcomes, OutcomeOf(resting.disk.pending, k), x);
      } else {
        assert SharesWith(after, e, k);
        var q :| SharesWith(after, e, q) && OutcomeOf(after.disk.pending, q) in end.outcomes;
        SameSequence(end.outcomes, OutcomeOf(after.disk.pending, q), x);
      }
    }
  }

  lemma MembersOf(xs: seq<Outcome>, ys: seq<Outcome>, n: nat, o: Outcome)
    requires n <= |xs| && xs <= ys && o in xs[n..]
    ensures o in ys
  {
  }

  /**
   An append keeps delivery in order, whatever the sink holds and whatever waits, in every continuation that
   appends nothing late itself, exactly when the event is ahead of everything decided and held.
   */
  lemma AppendStaysOrderedIff(s: System, e: Event, now: Time)
    requires Inv(s) && OrderInv(s) && s.todo == [] && AppendAnswer(s.disk, e).Appended?
    ensures StaysOrdered(Apply(s, Append(e, now))) <==> Ahead(s, e)
  {
    var appended := Apply(s, Append(e, now));
    if Ahead(s, e) {
      StepKeepsInv(s, Append(e, now));
      StepKeepsOrder(s, Append(e, now));
      forall steps | AllAhead(appended, steps) ensures Ordered(Run(appended, steps).outcomes)
      {
        RunKeepsOrder(appended, steps);
      }
    } else {
      var steps := BehindCanBreak(s, e, now);
      NoAppendsAllAhead(appended, steps);
      assert ([Append(e, now)] + steps)[1..] == steps;
    }
  }

  // ---------------------------------------------------------------- two emitters

  const FIRST := Event(1, 1, 0)
  const SECOND := Event(2, 2, 0)

  /** Two emitters take the numbers 1 and 2; the second appends, and is delivered, before the first appends. */
  const TAKE_NUMBERS := [NextSequence, FileStep, NextSequence, FileStep]

  function AppendAndDeliver(e: Event): seq<Step> {
    [Append(e, 0), FileStep, FileStep] + [ClaimNext(Some(e.key), 0), FileStep, Accepted, FileStep]
  }

  lemma NumbersTaken()
    ensures Run(EMPTY, TAKE_NUMBERS) == EMPTY.(disk := EMPTY.disk.(sequence := 2), issued := [1, 2])
  {
    assert TAKE_NUMBERS == [NextSequence, FileStep] + [NextSequence, FileStep];
    RunConcat(EMPTY, [NextSequence, FileStep], [NextSequence, FileStep]);
    RunTwo(EMPTY, NextSequence, FileStep);
    RunTwo(Run(EMPTY, [NextSequence, FileStep]), NextSequence, FileStep);
  }

  lemma DeliveredAlone(s: System, e: Event)
    requires Inv(s) && Resting(s) && s.disk.pending == map[] && AppendAnswer(s.disk, e).Appended?
    ensures var after := Run(s, AppendAndDeliver(e));
            && Inv(after) && Resting(after) && after.disk.pending == map[] && after.disk.dead == s.disk.dead
            && after.outcomes == s.outcomes + [Outcome(e.key, e.sequence)]
  {
    var landed := Run(s, [Append(e, 0), FileStep, FileStep]);
    AppendLands(s, e, 0);
    AcceptLeast(landed, e.key);
    RunConcat(s, [Append(e, 0), FileStep, FileStep], ClaimAndAccept(landed.disk.pending, e.key));
  }

  lemma LateAppendBreaksOrder()
    ensures Run(EMPTY, TAKE_NUMBERS + AppendAndDeliver(SECOND) + AppendAndDeliver(FIRST)).outcomes
         == [Outcome(2, 2), Outcome(1, 1)]
    ensures !Ordered([Outcome(2, 2), Outcome(1, 1)])
  {
    NumbersTaken();
    var s := Run(EMPTY, TAKE_NUMBERS);
    RunKeepsInv(EMPTY, TAKE_NUMBERS);
    DeliveredAlone(s, SECOND);
    var t := Run(s, AppendAndDeliver(SECOND));
    DeliveredAlone(t, FIRST);
    RunConcat(EMPTY, TAKE_NUMBERS, AppendAndDeliver(SECOND));
    RunConcat(EMPTY, TAKE_NUMBERS + AppendAndDeliver(SECOND), AppendAndDeliver(FIRST));
    assert !Before(Outcome(2, 2), Outcome(1, 1));
    assert !Before([Outcome(2, 2), Outcome(1, 1)][0], [Outcome(2, 2), Outcome(1, 1)][1]);
  }
}
