/** What becomes of one event in the spool: when it is offered again, how its attempts count, and how it is buried. */
module SpoolLaws {
  import opened Base
  import opened Spool
  import opened SpoolProperties

  // ---------------------------------------------------------------- append

  /** An event is known by its key, wherever it is; the same again is no news and other contents are a conflict. */
  lemma AppendAnswers(d: Disk, e: Event)
    requires Disjoint(d) && KeysMatch(d)
    ensures AppendAnswer(d, e).InvalidEvent? <==> e.sequence == 0
    ensures e.sequence >= 1 ==>
              && (AppendAnswer(d, e).Appended? <==> e.key !in d.pending && e.key !in d.inflight && e.key !in d.dead)
              && (AppendAnswer(d, e).AlreadyThere? <==>
                    || (e.key in d.pending && d.pending[e.key].event == e)
                    || (e.key in d.inflight && d.inflight[e.key].event == e)
                    || (e.key in d.dead && d.dead[e.key].event == e))
  {
  }

  /** Once its two file operations have landed a new event is pending at once, last in the order, without attempts. */
  lemma AppendedIsOffered(s: System, e: Event, now: Time)
    requires Inv(s) && s.todo == [] && AppendAnswer(s.disk, e).Appended?
    ensures var after := Apply(Apply(Apply(s, Append(e, now)), FileStep), FileStep);
            && after.todo == [] && after.disk.order == s.disk.order + 1
            && after.disk.pending == s.disk.pending[e.key := after.disk.pending[e.key]]
            && after.disk.inflight == s.disk.inflight && after.disk.dead == s.disk.dead
            && var r := after.disk.pending[e.key];
               && r.event == e && r.order == after.disk.order && r.attempt == 0 && r.error == None && r.deadAt == None
               && forall t :: Available(r, t) <==> now <= t
  {
    var s1 := Apply(s, Append(e, now));
    assert s1.todo == [WriteOrder(s.disk.order + 1), WritePending(e.key, NewRecord(s.disk, e, now))];
    var s2 := Apply(s1, FileStep);
    assert s2.todo == [WritePending(e.key, NewRecord(s.disk, e, now))];
  }

  // ---------------------------------------------------------------- claim

  /** The sink takes the event with the least sequence, then the first appended, and only once it is available. */
  lemma ClaimTakesTheFirst(s: System, least: Option<EventKey>, now: Time, other: EventKey)
    requires Inv(s) && s.sink.Idle? && Apply(s, ClaimNext(least, now)).sink.Holding? && other in s.disk.pending
    ensures var c := Apply(s, ClaimNext(least, now)).sink.claim;
            && c.key in s.disk.pending && c.record == s.disk.pending[c.key]
            && (c.record.availableAt.Some? ==> c.record.availableAt.value <= now)
            && c.record.event.sequence <= s.disk.pending[other].event.sequence
            && (c.record.event.sequence == s.disk.pending[other].event.sequence ==>
                  c.record.order <= s.disk.pending[other].order)
  {
  }

  /** With nothing else going on it takes one unless there is none or the first is behind its backoff. */
  lemma ClaimsIff(s: System, least: EventKey, now: Time)
    requires s.todo == [] && s.sink.Idle? && IsLeast(s.disk.pending, least)
    ensures Apply(s, ClaimNext(Some(least), now)).sink.Holding? <==>
              s.disk.pending[least].availableAt.None? || s.disk.pending[least].availableAt.value <= now
  {
  }

  // ---------------------------------------------------------------- release and dead letter

  lemma TwoLand(s: System, a: FileOp, b: FileOp)
    requires s.todo == [a, b] && !a.WritePending? && !a.WriteSequence? && !b.WritePending? && !b.WriteSequence?
    ensures Apply(Apply(s, FileStep), FileStep) == s.(disk := Do(Do(s.disk, a), b), todo := [])
  {
    var s1 := Apply(s, FileStep);
    assert s1 == s.(disk := Do(s.disk, a), todo := [b]);
    assert [b][1..] == [];
  }

  /** What a failed delivery leaves in the file: the event, one attempt more, and why. */
  predicate OnceMore(r: Record, before: Record, error: string) {
    r.event == before.event && r.order == before.order && r.attempt == before.attempt + 1 && r.error == Some(error)
  }

  /** A retained event is pending again with one attempt more, and is offered again exactly when its delay is over. */
  lemma RetainedIsOfferedAgain(s: System, error: string, delay: nat, now: Time)
    requires Inv(s) && s.todo == [] && s.sink.Holding?
    ensures var k := s.sink.claim.key; var after := Apply(Apply(Apply(s, Retained(error, delay, now)), FileStep), FileStep);
            && k in s.disk.inflight && k in after.disk.pending && after.disk.inflight == map[]
            && after.disk.pending == s.disk.pending[k := after.disk.pending[k]] && after.disk.dead == s.disk.dead
            && OnceMore(after.disk.pending[k], s.disk.inflight[k], error) && after.disk.pending[k].deadAt == None
            && forall t :: Available(after.disk.pending[k], t) <==> now + delay <= t
  {
    var c := s.sink.claim;
    assert s.disk.inflight == map[c.key := c.record];
    var s1 := Apply(s, Retained(error, delay, now));
    TwoLand(s1, WriteInflight(c.key, Released(c, error, delay, now)), ToPending(c.key));
    assert Do(s1.disk, WriteInflight(c.key, Released(c, error, delay, now))).inflight - {c.key} == map[];
  }

  /** A refused event is dead with one attempt more, its reason and its date, and is not offered again. */
  lemma RefusedIsDead(s: System, error: string, now: Time)
    requires Inv(s) && s.todo == [] && s.sink.Holding?
    ensures var k := s.sink.claim.key; var after := Apply(Apply(Apply(s, Refused(error, now)), FileStep), FileStep);
            && k in s.disk.inflight && k in after.disk.dead && after.disk.inflight == map[]
            && after.disk.pending == s.disk.pending && after.disk.dead == s.disk.dead[k := after.disk.dead[k]]
            && OnceMore(after.disk.dead[k], s.disk.inflight[k], error)
            && after.disk.dead[k].deadAt == Some(now) && after.disk.dead[k].availableAt == None
  {
    var c := s.sink.claim;
    assert s.disk.inflight == map[c.key := c.record];
    var s1 := Apply(s, Refused(error, now));
    TwoLand(s1, WriteInflight(c.key, Buried(c, error, now)), ToDead(c.key));
    assert Do(s1.disk, WriteInflight(c.key, Buried(c, error, now))).inflight - {c.key} == map[];
  }

  /** Wherever a crash cuts it, a held event comes back as it was before the delivery or with the failure noted. */
  lemma CrashBringsBack(s: System, error: string, delay: nat, now: Time, cut: nat, keys: seq<EventKey>)
    requires Inv(s) && s.todo == [] && s.sink.Holding? && cut <= 1
    requires Lists(s.disk.inflight, keys)
    ensures var k := s.sink.claim.key; var s1 := Apply(s, Retained(error, delay, now));
            var dead := Apply(if cut == 0 then s1 else Apply(s1, FileStep), Crash(keys));
            var pending := DoAll(dead.disk, dead.todo).pending;
            && k in s.disk.inflight && k in pending && dead.sink == Idle
            && (cut == 0 ==> pending[k] == s.disk.inflight[k])
            && (cut == 1 ==> OnceMore(pending[k], s.disk.inflight[k], error))
  {
    var c := s.sink.claim;
    var s1 := Apply(s, Retained(error, delay, now));
    assert s.disk.inflight == map[c.key := c.record];
    var s2 := Apply(s1, FileStep);
    assert s2.disk.inflight == map[c.key := Released(c, error, delay, now)];
    StepKeepsInv(s, Retained(error, delay, now));
    StepKeepsInv(s1, FileStep);
    RecoverMovesAll(s1.disk, keys);
    RecoverMovesAll(s2.disk, keys);
  }
}
