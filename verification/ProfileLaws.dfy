/** What a snapshot shows of the claims, and what proposals and decisions write into them. */
module ProfileLaws {
  import opened Base
  import opened Profile
  import opened ProfileProperties

  // ---------------------------------------------------------------- what is published

  /** Accepted, not restricted, and valid at this time. */
  predicate Publishable(c: Claim, at: Time) {
    && c.status == Accepted && c.sensitivity != Restricted
    && (c.validFrom.Some? ==> c.validFrom.value <= at) && (c.validUntil.Some? ==> at < c.validUntil.value)
  }

  /** The snapshot takes its value for each key from a publishable claim. */
  predicate ShowsOnly(claims: Claims, s: Snapshot) {
    && s.content.Keys == s.sources.Keys
    && forall k :: k in s.sources ==>
         && Ref(k, s.sources[k]) in claims && Publishable(claims[Ref(k, s.sources[k])], s.builtAt)
         && s.content[k] == claims[Ref(k, s.sources[k])].value
  }

  /** Every publishable claim is the one shown for its key, or gives way to a locked one or a later one of its kind. */
  predicate ShowsAll(claims: Claims, s: Snapshot)
    requires ShowsOnly(claims, s)
  {
    forall r :: r in claims && Publishable(claims[r], s.builtAt) ==>
      && r.key in s.sources
      && (claims[r].locked ==> claims[Ref(r.key, s.sources[r.key])].locked)
      && (claims[r].locked == claims[Ref(r.key, s.sources[r.key])].locked ==> r.version <= s.sources[r.key])
  }

  ghost predicate Shows(claims: Claims, s: Snapshot) {
    ShowsOnly(claims, s) && ShowsAll(claims, s)
  }

  lemma SelectionShows(claims: Claims, now: Time, r: Ref)
    requires r in claims && Publishable(claims[r], now)
    ensures r.key in Selection(claims, now)
    ensures var best := Ref(r.key, Selection(claims, now)[r.key]);
            && best in claims && (claims[r].locked ==> claims[best].locked)
            && (claims[r].locked == claims[best].locked ==> r.version <= best.version)
  {
    assert r.key in SelectedKeys(claims, now);
    assert r.version in EligibleOf(claims, r.key, now);
    assert claims[r].locked ==> r.version in LockedOf(claims, r.key, now);
  }

  lemma BuiltShowsOnly(claims: Claims, a: RebuildArgs, revision: nat)
    ensures ShowsOnly(claims, Built(claims, a, revision))
  {
  }

  lemma BuiltShows(claims: Claims, a: RebuildArgs, revision: nat)
    ensures Shows(claims, Built(claims, a, revision))
  {
    BuiltShowsOnly(claims, a, revision);
    var s := Built(claims, a, revision);
    forall r | r in claims && Publishable(claims[r], s.builtAt)
      ensures r.key in s.sources && (claims[r].locked ==> claims[Ref(r.key, s.sources[r.key])].locked)
      ensures claims[r].locked == claims[Ref(r.key, s.sources[r.key])].locked ==> r.version <= s.sources[r.key]
    {
      SelectionShows(claims, a.now, r);
    }
  }

  /** As current, under the revision it read: what the claims it read show at its time. */
  ghost predicate RebuiltAs(contact: Profile, seen: Profile, db: Profile, p: Profile, v: nat, now: Time) {
    && v !in db.snapshots && v in p.snapshots && Shows(seen.claims, p.snapshots[v]) && p.snapshots[v].isCurrent
    && p.snapshots[v].builtAt == now && p.snapshots[v].revision == contact.revision == db.revision
    && p.claims == db.claims && p.revision == db.revision
  }

  lemma RebuildShows(contact: Profile, shown: Profile, seen: Profile, db: Profile, a: RebuildArgs, p: Profile, v: nat)
    requires RebuildCommit(contact, shown, seen, db, a) == Ok((p, v))
    ensures RebuiltAs(contact, seen, db, p, v, a.now)
  {
    BuiltShows(seen.claims, a, contact.revision);
  }

  /** Some committed state is what the snapshot shows. */
  ghost predicate ShownIn(h: History, s: Snapshot) {
    exists n :: 0 <= n < |h| && Shows(h[n].claims, s)
  }

  ghost predicate AllShown(h: History) {
    forall v :: v in Last(h).snapshots ==> ShownIn(h, Last(h).snapshots[v])
  }

  lemma ShownStays(h: History, p: Profile, s: Snapshot, after: Snapshot)
    requires ShownIn(h, s) && after == s.(isCurrent := after.isCurrent)
    ensures ShownIn(h + [p], after)
  {
    var n :| 0 <= n < |h| && Shows(h[n].claims, s);
    assert (h + [p])[n] == h[n] && Shows(h[n].claims, after);
  }

  lemma PublishingKeepsShown(h: History, p: Profile, v: nat, k: nat)
    requires AllShown(h) && Publishes(Last(h), p, v) && k < |h| && Shows(h[k].claims, p.snapshots[v])
    ensures AllShown(h + [p])
  {
    forall w | w in p.snapshots ensures ShownIn(h + [p], p.snapshots[w])
    {
      if w == v { assert (h + [p])[k] == h[k]; }
      else { ShownStays(h, p, Last(h).snapshots[w], p.snapshots[w]); }
    }
  }

  lemma SameSnapshotsKeepShown(h: History, p: Profile)
    requires AllShown(h) && p.snapshots == Last(h).snapshots
    ensures AllShown(h + [p])
  {
    forall v | v in p.snapshots ensures ShownIn(h + [p], p.snapshots[v])
    {
      ShownStays(h, p, p.snapshots[v], p.snapshots[v]);
    }
  }

  lemma StepKeepsShown(h: History, step: Step)
    requires Sound(h) && AllShown(h)
    ensures AllShown(Apply(h, step))
  {
    if InOrder(h, step) {
      if step.Rebuild? && RebuildCommit(h[step.i], h[step.j], h[step.k], Last(h), step.rebuild).Ok? {
        var (p, v) := RebuildCommit(h[step.i], h[step.j], h[step.k], Last(h), step.rebuild).value;
        RebuildMoves(h[step.i], h[step.j], h[step.k], Last(h), step.rebuild);
        BuiltShows(h[step.k].claims, step.rebuild, h[step.i].revision);
        PublishingKeepsShown(h, p, v, step.k);
      } else {
        CommitMoves(h, step);
        SameSnapshotsKeepShown(h, Commit(h, step));
      }
    }
  }

  lemma {:induction false} RunKeepsShown(h: History, steps: seq<Step>)
    requires Sound(h) && AllShown(h)
    ensures Sound(Run(h, steps)) && AllShown(Run(h, steps))
    decreases |steps|
  {
    if steps != [] {
      StepKeepsSound(h, steps[0]);
      StepKeepsShown(h, steps[0]);
      RunKeepsShown(Apply(h, steps[0]), steps[1..]);
    }
  }

  /** Each value shown is that of a claim that is not restricted, was valid then, and had been accepted. */
  predicate Allowed(claims: Claims, s: Snapshot) {
    && s.content.Keys == s.sources.Keys
    && forall k :: k in s.sources ==> Ref(k, s.sources[k]) in claims && AllowedBy(claims[Ref(k, s.sources[k])], s, k)
  }

  predicate AllowedBy(c: Claim, s: Snapshot, k: string) {
    && k in s.content && c.value == s.content[k] && c.sensitivity != Restricted && c.status in {Accepted, Superseded}
    && (c.validFrom.Some? ==> c.validFrom.value <= s.builtAt) && (c.validUntil.Some? ==> s.builtAt < c.validUntil.value)
  }

  lemma ShownIsAllowed(old_: Claims, now_: Claims, s: Snapshot)
    requires Shows(old_, s) && RowsGrow(old_, now_)
    ensures Allowed(now_, s)
  {
    forall k | k in s.sources ensures Ref(k, s.sources[k]) in now_ && AllowedBy(now_[Ref(k, s.sources[k])], s, k)
    {
      assert SameButStatus(old_[Ref(k, s.sources[k])], now_[Ref(k, s.sources[k])]);
    }
  }

  /**
   Over every history: the claims behind every snapshot ever published still stand in the table and allowed what it
   shows, and each snapshot shows all there was to show in some committed state.
   */
  lemma SnapshotsShowWhatTheyMay(steps: seq<Step>, v: nat)
    requires v in Last(Run([EMPTY], steps)).snapshots
    ensures var p := Last(Run([EMPTY], steps));
            ShownIn(Run([EMPTY], steps), p.snapshots[v]) && Allowed(p.claims, p.snapshots[v])
  {
    RunKeepsShown([EMPTY], steps);
    var h := Run([EMPTY], steps);
    assert ShownIn(h, Last(h).snapshots[v]);
    var n :| 0 <= n < |h| && Shows(h[n].claims, Last(h).snapshots[v]);
    assert RowsGrow(h[n].claims, h[|h| - 1].claims);
    ShownIsAllowed(h[n].claims, Last(h).claims, Last(h).snapshots[v]);
  }

  /** A rebuild goes through exactly when the snapshot and the revision are the ones its caller expects. */
  lemma RebuildsIff(db: Profile, a: RebuildArgs)
    requires Inv(db)
    ensures RebuildCommit(db, db, db, db, a).Ok? <==>
              && (a.expectedCurrent.None? ==> db.snapshots == map[])
              && (a.expectedCurrent.Some? ==> IsCurrent(db, a.expectedCurrent.value))
              && (a.expectedRevision.Some? ==> a.expectedRevision.value == db.revision)
  {
    CurrentIsLast(db);
  }

  /** However late it commits, what it publishes is of the revision that its caller expects and that stands. */
  lemma RebuildsTheExpected(contact: Profile, shown: Profile, seen: Profile, db: Profile, a: RebuildArgs)
    requires RebuildCommit(contact, shown, seen, db, a).Ok?
    ensures var (p, v) := RebuildCommit(contact, shown, seen, db, a).value;
            && v in p.snapshots && p.snapshots[v].revision == db.revision == contact.revision
            && (a.expectedRevision.Some? ==> a.expectedRevision.value == db.revision)
            && (a.expectedCurrent.Some? ==> IsCurrent(db, a.expectedCurrent.value) && !IsCurrent(p, a.expectedCurrent.value))
            && (a.expectedCurrent.None? ==> forall w :: !IsCurrent(db, w))
  {
  }

  // ---------------------------------------------------------------- proposals

  /** A proposal that is new to its key waits there for a decision; nothing else is written. */
  lemma ProposalWaits(contact: Profile, seen: Profile, db: Profile, a: UpsertArgs)
    requires UpsertCommit(contact, seen, db, a).Ok?
    ensures var (p, ref) := UpsertCommit(contact, seen, db, a).value;
            && ref.key == a.key
            && (p != db ==> ref !in db.claims && ref in p.claims && db.revision == contact.revision)
            && (p != db ==> var c := p.claims[ref];
                  c.value == a.value && c.status == Proposed && !c.locked && c.sensitivity == a.sensitivity
                  && c.source == a.source && c.analyzer == a.analyzer && c.createdBy == a.createdBy
                  && c.validFrom == None && c.validUntil == None
                  && p == db.(claims := db.claims[ref := c], revision := db.revision + 1))
  {
  }

  /** So no proposal ever changes what a rebuild would publish. */
  lemma ProposalIsNotPublished(contact: Profile, seen: Profile, db: Profile, a: UpsertArgs, now: Time, k: string)
    ensures var p := Committed(db, UpsertCommit(contact, seen, db, a));
            EligibleOf(p.claims, k, now) == EligibleOf(db.claims, k, now)
            && LockedOf(p.claims, k, now) == LockedOf(db.claims, k, now)
  {
    UpsertLeavesLocks(contact, seen, db, a, k, now);
  }

  /** A value that the analyzer has proposed, or that is accepted or locked, is not proposed again. */
  lemma ProposalIsReused(contact: Profile, seen: Profile, db: Profile, a: UpsertArgs, r: Ref)
    requires r in seen.claims && r.key == a.key && seen.claims[r].value == a.value
    requires seen.claims[r].analyzer == a.analyzer || seen.claims[r].status == Accepted || seen.claims[r].locked
    ensures UpsertCommit(contact, seen, db, a).Ok?
    ensures var (p, ref) := UpsertCommit(contact, seen, db, a).value;
            p == db && ref.key == a.key && ref in seen.claims && seen.claims[ref].value == a.value && r.version <= ref.version
  {
    assert r.version in ReusableOf(seen.claims, a);
    var best := Max(ReusableOf(seen.claims, a));
    assert Ref(a.key, best) in seen.claims;
  }

  /** A value that is new, or was last proposed by another analyzer and not taken up, is proposed anew or conflicts. */
  lemma ProposalIsMade(contact: Profile, db: Profile, a: UpsertArgs)
    requires Chained(db.claims)
    requires forall r :: r in db.claims && r.key == a.key && db.claims[r].value == a.value ==>
               db.claims[r].analyzer != a.analyzer && db.claims[r].status != Accepted && !db.claims[r].locked
    ensures UpsertCommit(contact, db, db, a).Ok? <==> contact.revision == db.revision
    ensures contact.revision == db.revision ==>
              UpsertCommit(contact, db, db, a).value.1 == Ref(a.key, |VersionsOf(db.claims, a.key)| + 1)
  {
    assert forall v :: v in ReusableOf(db.claims, a) ==> Ref(a.key, v) in db.claims;
    assert Ref(a.key, NextVersion(db.claims, a.key)) !in db.claims by { NextIsFree(db.claims, a.key); }
    SameVersions(db.claims, db.claims, a.key);
  }

  /** Whoever wins a race for the next version, the answer is a version that carries the proposed value. */
  lemma ProposalAnswersItsValue(contact: Profile, seen: Profile, db: Profile, a: UpsertArgs)
    requires RowsGrow(seen.claims, db.claims) && UpsertCommit(contact, seen, db, a).Ok?
    ensures var (p, ref) := UpsertCommit(contact, seen, db, a).value;
            ref.key == a.key && ref in p.claims && p.claims[ref].value == a.value
  {
    if ReusableOf(seen.claims, a) != {} {
      var r := Ref(a.key, Max(ReusableOf(seen.claims, a)));
      assert r in seen.claims && SameButStatus(seen.claims[r], db.claims[r]);
    }
  }

  lemma NextIsFree(claims: Claims, key: string)
    ensures Ref(key, NextVersion(claims, key)) !in claims
  {
    assert forall r :: r in claims && r.key == key ==> r.version in VersionsOf(claims, key);
  }

  // ---------------------------------------------------------------- decisions

  /** A decision succeeds a claim: what it does not decide is carried over, sensitivity and validity always. */
  lemma DecisionSucceeds(contact: Profile, seen: Profile, db: Profile, a: TransitionArgs)
    requires TransitionCommit(contact, seen, db, a).Ok?
    ensures a.ref in seen.claims && a.ref in db.claims
    ensures var (p, next) := TransitionCommit(contact, seen, db, a).value; var old_ := seen.claims[a.ref];
            && next == Ref(a.ref.key, a.ref.version + 1) && next !in db.claims && next in p.claims
            && p == db.(claims := db.claims[a.ref := db.claims[a.ref].(status := Superseded)][next := p.claims[next]],
                        revision := db.revision + 1)
            && (a.actor == Worker ==> !old_.locked)
            && var c := p.claims[next];
               && c.sensitivity == old_.sensitivity && c.validFrom == old_.validFrom && c.validUntil == old_.validUntil
               && c.analyzer == old_.analyzer && c.createdBy == a.actor
               && (if a.value.Some? then c.value == a.value.value else c.value == old_.value)
               && (if a.status.Some? then c.status == a.status.value else c.status == old_.status)
               && (if a.lock.Some? then c.locked == a.lock.value else c.locked == old_.locked)
               && (if a.value.Some? && a.actor != Worker then c.source == Manual else c.source == old_.source)
  {
  }

  /** Deciding goes through exactly for the last version as it was read, unless a worker meets a lock. */
  lemma DecidesIff(contact: Profile, db: Profile, a: TransitionArgs)
    requires Chained(db.claims)
    ensures TransitionCommit(contact, db, db, a).Ok? <==>
              && a.ref in db.claims && a.expected == a.ref.version == |VersionsOf(db.claims, a.ref.key)|
              && db.claims[a.ref].status != Superseded && (a.actor == Worker ==> !db.claims[a.ref].locked)
              && contact.revision == db.revision
  {
    assert Ref(a.ref.key, a.ref.version + 1) in db.claims <==> a.ref.version + 1 <= |VersionsOf(db.claims, a.ref.key)|;
  }
}
