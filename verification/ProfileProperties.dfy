/** What every history of profile operations keeps, and when the cached snapshot can be trusted. */
module ProfileProperties {
  import opened Base
  import opened Profile

  // ---------------------------------------------------------------- one state

  /** Claim versions of every key are exactly 1..n. */
  ghost predicate Chained(claims: Claims) {
    forall r :: r in claims <==> 1 <= r.version <= |VersionsOf(claims, r.key)|
  }

  /** Snapshot versions are exactly 1..n, and the n-th is the only current one. */
  ghost predicate LastIsCurrent(snapshots: map<nat, Snapshot>) {
    && (forall v: nat :: v in snapshots <==> 1 <= v <= |snapshots|)
    && (forall v: nat :: v in snapshots ==> (snapshots[v].isCurrent <==> v == |snapshots|))
  }

  /** A cached selection stands for the claims of its revision. */
  ghost predicate Faithful(p: Profile, s: Snapshot) {
    && s.sources == Selection(p.claims, s.builtAt)
    && Resolves(p.claims, s.sources) && s.content == Values(p.claims, s.sources)
  }

  ghost predicate Coherent(p: Profile) {
    forall v :: IsCurrent(p, v) && p.snapshots[v].revision == p.revision ==> Faithful(p, p.snapshots[v])
  }

  predicate NotAhead(p: Profile) {
    forall v :: v in p.snapshots ==> p.snapshots[v].revision <= p.revision
  }

  ghost predicate Inv(p: Profile) {
    Chained(p.claims) && LastIsCurrent(p.snapshots)
  }

  lemma CurrentIsLast(p: Profile)
    requires LastIsCurrent(p.snapshots)
    ensures Current(p) == (if p.snapshots == map[] then None else Some(|p.snapshots|))
    ensures forall v :: IsCurrent(p, v) <==> v == |p.snapshots| && v > 0
  {
    if p.snapshots != map[] {
      assert |p.snapshots| in p.snapshots;
      assert IsCurrent(p, |p.snapshots|);
    }
  }

  // ---------------------------------------------------------------- each operation

  predicate SameButStatus(c: Claim, d: Claim) {
    d == c.(status := d.status) && (d.status == c.status || d.status.Superseded?)
  }

  /** Rows are only added, and only ever superseded; a row that is not its key's last is not touched at all. */
  predicate RowsGrow(old_: Claims, now_: Claims) {
    forall r :: r in old_ ==>
      && r in now_ && SameButStatus(old_[r], now_[r])
      && (r.version < |VersionsOf(old_, r.key)| ==> now_[r] == old_[r])
  }

  lemma VersionsAfter(claims: Claims, ref: Ref, c: Claim, key: string)
    ensures VersionsOf(claims[ref := c], key) == VersionsOf(claims, key) + (if key == ref.key then {ref.version} else {})
  {
  }

  lemma NextIsNew(claims: Claims, next: Ref, c: Claim)
    requires Chained(claims) && next.version == |VersionsOf(claims, next.key)| + 1
    ensures next !in claims && next.version !in VersionsOf(claims, next.key)
    ensures RowsGrow(claims, claims[next := c]) && |claims[next := c]| == |claims| + 1
  {
  }

  /** The version after the last may be added. */
  lemma NextKeepsChain(claims: Claims, next: Ref, c: Claim)
    requires Chained(claims) && next.version == |VersionsOf(claims, next.key)| + 1
    ensures Chained(claims[next := c])
  {
    NextIsNew(claims, next, c);
    var now_ := claims[next := c];
    forall r ensures r in now_ <==> 1 <= r.version <= |VersionsOf(now_, r.key)|
    {
      VersionsAfter(claims, next, c, r.key);
      if r.key == next.key {
        assert |VersionsOf(now_, r.key)| == next.version;
        assert r == next <==> r.version == next.version;
      }
    }
  }

  lemma SupersedeKeepsChain(claims: Claims, ref: Ref)
    requires Chained(claims) && ref in claims && ref.version == |VersionsOf(claims, ref.key)|
    ensures var now_ := claims[ref := claims[ref].(status := Superseded)];
            Chained(now_) && RowsGrow(claims, now_) && |now_| == |claims|
            && |VersionsOf(now_, ref.key)| == ref.version
  {
    var now_ := claims[ref := claims[ref].(status := Superseded)];
    assert ref.version in VersionsOf(claims, ref.key);
    forall key ensures VersionsOf(now_, key) == VersionsOf(claims, key)
    {
      VersionsAfter(claims, ref, claims[ref].(status := Superseded), key);
    }
    assert now_.Keys == claims.Keys;
  }

  lemma RowsGrowOn(a: Claims, b: Claims, c: Claims)
    requires RowsGrow(a, b) && RowsGrow(b, c)
    ensures RowsGrow(a, c)
  {
    forall r | r in a
      ensures r in c && SameButStatus(a[r], c[r]) && (r.version < |VersionsOf(a, r.key)| ==> c[r] == a[r])
    {
      assert r in b && SameButStatus(a[r], b[r]) && SameButStatus(b[r], c[r]);
      var (va, vb) := (VersionsOf(a, r.key), VersionsOf(b, r.key));
      assert va <= vb by { forall v: nat | v in va ensures v in vb { assert Ref(r.key, v) in a; } }
      SubsetSize(va, vb);
    }
  }

  predicate CountsOne(db: Profile, p: Profile) {
    |p.claims| == |db.claims| + 1 && p.revision == db.revision + 1 && p.snapshots == db.snapshots && p.edits == db.edits
  }

  ghost predicate AddsOneClaim(db: Profile, p: Profile) {
    CountsOne(db, p) && Chained(p.claims) && RowsGrow(db.claims, p.claims)
  }

  lemma AddsNext(db: Profile, next: Ref, c: Claim)
    requires Chained(db.claims) && next.version == |VersionsOf(db.claims, next.key)| + 1
    ensures AddsOneClaim(db, db.(claims := db.claims[next := c], revision := db.revision + 1))
  {
    NextIsNew(db.claims, next, c);
    NextKeepsChain(db.claims, next, c);
  }

  /** If the version that comes next was not taken meanwhile, no version was. */
  lemma SameVersions(seen: Claims, db: Claims, key: string)
    requires Chained(seen) && Chained(db) && RowsGrow(seen, db)
    requires Ref(key, NextVersion(seen, key)) !in db
    ensures NextVersion(seen, key) == |VersionsOf(db, key)| + 1
  {
  }

  lemma UpsertMoves(contact: Profile, seen: Profile, db: Profile, a: UpsertArgs)
    requires Chained(seen.claims) && Chained(db.claims) && RowsGrow(seen.claims, db.claims)
    requires UpsertCommit(contact, seen, db, a).Ok?
    ensures var p := UpsertCommit(contact, seen, db, a).value.0;
            p == db || AddsOneClaim(db, p)
  {
    var next := Ref(a.key, NextVersion(seen.claims, a.key));
    if next !in db.claims {
      SameVersions(seen.claims, db.claims, a.key);
      AddsNext(db, next, ProposedClaim(a));
    }
  }

  lemma SuccessorKeepsChain(claims: Claims, ref: Ref, c: Claim)
    requires Chained(claims) && ref in claims && ref.version == |VersionsOf(claims, ref.key)|
    ensures var now_ := claims[ref := claims[ref].(status := Superseded)][Ref(ref.key, ref.version + 1) := c];
            Chained(now_) && RowsGrow(claims, now_) && |now_| == |claims| + 1
  {
    var next := Ref(ref.key, ref.version + 1);
    var retired := claims[ref := claims[ref].(status := Superseded)];
    SupersedeKeepsChain(claims, ref);
    NextIsNew(retired, next, c);
    NextKeepsChain(retired, next, c);
    RowsGrowOn(claims, retired, retired[next := c]);
  }

  /** Only the last version of a key can be moved on, and it gets exactly one successor. */
  lemma TransitionMoves(contact: Profile, seen: Profile, db: Profile, a: TransitionArgs)
    requires Chained(db.claims) && TransitionCommit(contact, seen, db, a).Ok?
    ensures AddsOneClaim(db, TransitionCommit(contact, seen, db, a).value.0)
    ensures a.ref in db.claims && a.ref.version == |VersionsOf(db.claims, a.ref.key)|
  {
    assert Ref(a.ref.key, a.ref.version + 1) !in db.claims;
    SuccessorKeepsChain(db.claims, a.ref, Replacement(seen.claims[a.ref], a));
  }

  /** What publishing version `v` does to the snapshot table. */
  predicate Publishes(db: Profile, p: Profile, v: nat) {
    && v !in db.snapshots && v in p.snapshots && p.snapshots.Keys == db.snapshots.Keys + {v}
    && (forall w :: w in db.snapshots ==> p.snapshots[w] == db.snapshots[w].(isCurrent := false))
    && p == db.(snapshots := p.snapshots)
  }

  lemma AppendedIsCurrent(snapshots: map<nat, Snapshot>, s: Snapshot)
    requires LastIsCurrent(snapshots) && s.isCurrent
    ensures var n := |snapshots|;
            var retired := if n == 0 then snapshots
                           else assert n in snapshots; snapshots[n := snapshots[n].(isCurrent := false)];
            LastIsCurrent(retired[n + 1 := s]) && |retired[n + 1 := s]| == n + 1
  {
  }

  lemma PublishedRows(db: Profile, previous: Option<nat>, v: nat, s: Snapshot)
    requires (previous.Some? ==> previous.value in db.snapshots) && v !in db.snapshots
    ensures var p := Published(db, previous, v, s);
            && p.snapshots.Keys == db.snapshots.Keys + {v} && p.snapshots[v] == s
            && forall w :: w in db.snapshots ==>
                 p.snapshots[w] == (if Some(w) == previous then db.snapshots[w].(isCurrent := false) else db.snapshots[w])
  {
  }

  lemma PublishedPublishes(db: Profile, v: nat, s: Snapshot)
    requires LastIsCurrent(db.snapshots) && v == |db.snapshots| + 1 && s.isCurrent
    ensures Publishes(db, Published(db, Current(db), v, s), v)
    ensures Published(db, Current(db), v, s).snapshots[v] == s
  {
    CurrentIsLast(db);
    assert v !in db.snapshots;
    PublishedRows(db, Current(db), v, s);
    assert forall w :: w in db.snapshots && Some(w) != Current(db) ==> !db.snapshots[w].isCurrent;
  }

  lemma PublishedKeepsInv(db: Profile, v: nat, s: Snapshot)
    requires Inv(db) && v == |db.snapshots| + 1 && s.isCurrent
    ensures Inv(Published(db, Current(db), v, s))
  {
    CurrentIsLast(db);
    AppendedIsCurrent(db.snapshots, s);
  }

  predicate Rebuilt(db: Profile, p: Profile, v: nat, s: Snapshot) {
    Publishes(db, p, v) && p.snapshots[v] == s
  }

  /** A rebuild that passes its comparisons retires the current snapshot and publishes the version after the last. */
  lemma CheckedAgainstLast(contact: Profile, shown: Profile, db: Profile, a: RebuildArgs)
    requires LastIsCurrent(db.snapshots) && RebuildCheck(contact, shown, db, a).Ok?
    ensures RebuildCheck(contact, shown, db, a).value == (Current(db), |db.snapshots| + 1)
    ensures contact.revision == db.revision
  {
  }

  lemma RebuildMoves(contact: Profile, shown: Profile, seen: Profile, db: Profile, a: RebuildArgs)
    requires Inv(db) && RebuildCommit(contact, shown, seen, db, a).Ok?
    ensures var r := RebuildCommit(contact, shown, seen, db, a).value;
            Inv(r.0) && Rebuilt(db, r.0, r.1, Built(seen.claims, a, contact.revision))
    ensures contact.revision == db.revision
  {
    var s := Built(seen.claims, a, contact.revision);
    CheckedAgainstLast(contact, shown, db, a);
    PublishedPublishes(db, |db.snapshots| + 1, s);
    PublishedKeepsInv(db, |db.snapshots| + 1, s);
  }

  // ---------------------------------------------------------------- histories

  predicate Grows(h: History) {
    forall n, m :: 0 <= n <= m < |h| ==> RowsGrow(h[n].claims, h[m].claims)
  }

  ghost predicate Sound(h: History) {
    (forall n :: 0 <= n < |h| ==> Inv(h[n])) && Grows(h)
  }

  lemma CommitMoves(h: History, step: Step)
    requires Sound(h) && InOrder(h, step)
    ensures Inv(Commit(h, step)) && RowsGrow(Last(h).claims, Commit(h, step).claims)
    ensures !step.Rebuild? ==> Commit(h, step).snapshots == Last(h).snapshots
    ensures (step.Rebuild? || step.Edit?) ==> Commit(h, step).claims == Last(h).claims
    ensures step.Rebuild? ==> Commit(h, step) == Last(h).(snapshots := Commit(h, step).snapshots)
    ensures (step.Upsert? || step.Transition?) ==> Commit(h, step) == Last(h) || AddsOneClaim(Last(h), Commit(h, step))
  {
    var db := Last(h);
    match step
    case Upsert(i, j, a) => if UpsertCommit(h[i], h[j], db, a).Ok? { UpsertMoves(h[i], h[j], db, a); }
    case Transition(i, j, a) => if TransitionCommit(h[i], h[j], db, a).Ok? { TransitionMoves(h[i], h[j], db, a); }
    case Rebuild(i, j, k, a) => if RebuildCommit(h[i], h[j], h[k], db, a).Ok? { RebuildMoves(h[i], h[j], h[k], db, a); }
    case Edit(i) =>
  }

  lemma GrowsBy(h: History, p: Profile)
    requires Grows(h) && RowsGrow(Last(h).claims, p.claims)
    ensures Grows(h + [p])
  {
    forall n | 0 <= n < |h| ensures RowsGrow(h[n].claims, p.claims)
    {
      RowsGrowOn(h[n].claims, Last(h).claims, p.claims);
    }
    assert RowsGrow(p.claims, p.claims);
  }

  lemma StepKeepsSound(h: History, step: Step)
    requires Sound(h)
    ensures Sound(Apply(h, step))
  {
    if InOrder(h, step) {
      var p := Commit(h, step);
      CommitMoves(h, step);
      GrowsBy(h, p);
      var longer := h + [p];
      forall n | 0 <= n < |longer| ensures Inv(longer[n])
      {
        if n < |h| { assert longer[n] == h[n]; }
      }
    }
  }

  /** Claim chains, the single current snapshot and the immutability of rows hold after every run. */
  lemma {:induction false} RunKeepsSound(h: History, steps: seq<Step>)
    requires Sound(h)
    ensures Sound(Run(h, steps)) && h <= Run(h, steps)
    decreases |steps|
  {
    if steps != [] {
      StepKeepsSound(h, steps[0]);
      RunKeepsSound(Apply(h, steps[0]), steps[1..]);
    }
  }

  // ---------------------------------------------------------------- coherence

  /** Revisions never go down, and one revision never stands for two claim tables. */
  predicate Mono(h: History) {
    forall n, m :: 0 <= n <= m < |h| ==> RevisionMoves(h[n], h[m])
  }

  predicate RevisionMoves(x: Profile, y: Profile) {
    x.revision <= y.revision && (x.revision == y.revision ==> x.claims == y.claims)
  }

  ghost predicate Trusted(h: History) {
    Sound(h) && Mono(h) && forall n :: 0 <= n < |h| ==> NotAhead(h[n]) && Coherent(h[n])
  }

  /** A settings edit that does not write back a revision lower than the one in place. */
  predicate LowersNothing(h: History, step: Step) {
    step.Edit? && step.i < |h| ==> Last(h).revision <= h[step.i].revision + 1
  }

  ghost predicate LowersNothingRun(h: History, steps: seq<Step>)
    decreases |steps|
  {
    steps == [] || (LowersNothing(h, steps[0]) && LowersNothingRun(Apply(h, steps[0]), steps[1..]))
  }

  lemma PublishingIsCoherent(db: Profile, p: Profile, v: nat, s: Snapshot)
    requires NotAhead(db) && Rebuilt(db, p, v, s) && s.revision == db.revision && Faithful(db, s)
    ensures NotAhead(p) && Coherent(p)
  {
  }

  lemma BuiltIsFaithful(seen: Profile, db: Profile, a: RebuildArgs)
    requires seen.claims == db.claims
    ensures Faithful(db, Built(seen.claims, a, db.revision))
  {
  }

  lemma RebuildKeepsCoherence(h: History, step: Step)
    requires Trusted(h) && InOrder(h, step) && step.Rebuild?
    ensures NotAhead(Commit(h, step)) && Coherent(Commit(h, step))
  {
    var (i, j, k, a, db) := (step.i, step.j, step.k, step.rebuild, Last(h));
    var r := RebuildCommit(h[i], h[j], h[k], db, a);
    assert NotAhead(db) && Coherent(db);
    if r.Ok? {
      RebuildMoves(h[i], h[j], h[k], db, a);
      assert RevisionMoves(h[i], h[k]) && RevisionMoves(h[k], db);
      BuiltIsFaithful(h[k], db, a);
      PublishingIsCoherent(db, r.value.0, r.value.1, Built(h[k].claims, a, h[i].revision));
    }
  }

  lemma MonoBy(h: History, p: Profile)
    requires Mono(h) && RevisionMoves(Last(h), p)
    ensures Mono(h + [p])
  {
  }

  lemma StepKeepsTrust(h: History, step: Step)
    requires Trusted(h) && LowersNothing(h, step)
    ensures Trusted(Apply(h, step))
  {
    if InOrder(h, step) {
      var (p, db) := (Commit(h, step), Last(h));
      StepKeepsSound(h, step);
      CommitMoves(h, step);
      assert NotAhead(db) && Coherent(db);
      assert RevisionMoves(db, p);
      MonoBy(h, p);
      if step.Rebuild? { RebuildKeepsCoherence(h, step); }
    }
  }

  /**
   Whatever workers, operators and rebuilds interleave, a current snapshot whose source revision is the
   contact's revision is the selection over the present claims at the time it was built.
   */
  lemma {:induction false} RunKeepsTrust(h: History, steps: seq<Step>)
    requires Trusted(h) && LowersNothingRun(h, steps)
    ensures Trusted(Run(h, steps))
    decreases |steps|
  {
    if steps != [] {
      StepKeepsTrust(h, steps[0]);
      RunKeepsTrust(Apply(h, steps[0]), steps[1..]);
    }
  }

  lemma SnapshotCoherence(steps: seq<Step>)
    requires LowersNothingRun([EMPTY], steps)
    ensures var p := Last(Run([EMPTY], steps));
            && Inv(p) && Coherent(p)
  {
    RunKeepsTrust([EMPTY], steps);
  }

  /** A settings edit keeps revisions trustworthy exactly when it does not write a lower revision back. */
  lemma EditKeepsMonoIff(h: History, i: nat)
    requires Mono(h) && i < |h|
    ensures Mono(Apply(h, Edit(i))) <==> Last(h).revision <= h[i].revision + 1
  {
    var longer := Apply(h, Edit(i));
    assert longer == h + [EditCommit(h[i], Last(h))];
    if Last(h).revision <= h[i].revision + 1 {
      MonoBy(h, EditCommit(h[i], Last(h)));
    } else {
      assert !RevisionMoves(longer[|h| - 1], longer[|h|]);
    }
  }

  /** Some state of the history had the snapshot's revision, and the snapshot is the selection over its claims. */
  ghost predicate BuiltIn(h: History, s: Snapshot) {
    exists n :: 0 <= n < |h| && h[n].revision == s.revision && Faithful(h[n], s)
  }

  ghost predicate Grounded(h: History) {
    forall v :: v in Last(h).snapshots ==> BuiltIn(h, Last(h).snapshots[v])
  }

  lemma BuiltInStays(h: History, p: Profile, s: Snapshot, now_: Snapshot)
    requires BuiltIn(h, s) && now_ == s.(isCurrent := now_.isCurrent)
    ensures BuiltIn(h + [p], now_)
  {
    var n :| 0 <= n < |h| && h[n].revision == s.revision && Faithful(h[n], s);
    assert (h + [p])[n] == h[n] && Faithful(h[n], now_);
  }

  /** What a rebuild that commits has read is still so when it commits. */
  lemma RebuildReadsPresent(h: History, step: Step)
    requires Trusted(h) && InOrder(h, step) && step.Rebuild?
    requires RebuildCommit(h[step.i], h[step.j], h[step.k], Last(h), step.rebuild).Ok?
    ensures h[step.k].claims == Last(h).claims && h[step.i].revision == Last(h).revision
  {
    RebuildMoves(h[step.i], h[step.j], h[step.k], Last(h), step.rebuild);
    assert RevisionMoves(h[step.i], h[step.k]) && RevisionMoves(h[step.k], Last(h));
  }

  lemma PublishingKeepsGrounded(h: History, p: Profile, v: nat, s: Snapshot)
    requires Grounded(h) && Publishes(Last(h), p, v) && p.snapshots[v] == s
    requires s.revision == Last(h).revision && Faithful(Last(h), s)
    ensures Grounded(h + [p])
  {
    forall w | w in p.snapshots ensures BuiltIn(h + [p], p.snapshots[w])
    {
      if w == v {
        assert (h + [p])[|h| - 1] == Last(h);
      } else {
        BuiltInStays(h, p, Last(h).snapshots[w], p.snapshots[w]);
      }
    }
  }

  lemma SameSnapshotsKeepGrounded(h: History, p: Profile)
    requires Grounded(h) && p.snapshots == Last(h).snapshots
    ensures Grounded(h + [p])
  {
    forall v | v in p.snapshots ensures BuiltIn(h + [p], p.snapshots[v])
    {
      BuiltInStays(h, p, p.snapshots[v], p.snapshots[v]);
    }
  }

  lemma RebuildKeepsGrounded(h: History, step: Step)
    requires Trusted(h) && Grounded(h) && InOrder(h, step) && step.Rebuild?
    ensures Grounded(h + [Commit(h, step)])
  {
    var (i, j, k, a, db) := (step.i, step.j, step.k, step.rebuild, Last(h));
    var r := RebuildCommit(h[i], h[j], h[k], db, a);
    if r.Ok? {
      RebuildMoves(h[i], h[j], h[k], db, a);
      RebuildReadsPresent(h, step);
      BuiltIsFaithful(h[k], db, a);
      PublishingKeepsGrounded(h, r.value.0, r.value.1, Built(h[k].claims, a, h[i].revision));
    } else {
      SameSnapshotsKeepGrounded(h, db);
    }
  }

  lemma StepKeepsGrounded(h: History, step: Step)
    requires Trusted(h) && Grounded(h)
    ensures Grounded(Apply(h, step))
  {
    if InOrder(h, step) {
      if step.Rebuild? {
        RebuildKeepsGrounded(h, step);
      } else {
        CommitMoves(h, step);
        SameSnapshotsKeepGrounded(h, Commit(h, step));
      }
    }
  }

  /** Every published snapshot was the selection over the claims of a committed state of its revision. */
  lemma {:induction false} RunKeepsGrounded(h: History, steps: seq<Step>)
    requires Trusted(h) && Grounded(h) && LowersNothingRun(h, steps)
    ensures Grounded(Run(h, steps))
    decreases |steps|
  {
    if steps != [] {
      StepKeepsTrust(h, steps[0]);
      StepKeepsGrounded(h, steps[0]);
      RunKeepsGrounded(Apply(h, steps[0]), steps[1..]);
    }
  }

  /** Between the states of this revision and now, the claims have not changed what the current snapshot selects. */
  ghost predicate SelectsAsBefore(h: History, revision: nat) {
    forall v, n :: IsCurrent(Last(h), v) && Last(h).snapshots[v].revision == revision
                   && 0 <= n < |h| && h[n].revision == revision
      ==> Selection(h[n].claims, Last(h).snapshots[v].builtAt) == Selection(Last(h).claims, Last(h).snapshots[v].builtAt)
  }

  /** Rows keep their values, so a snapshot stays faithful exactly while the selection does. */
  lemma FaithfulWhileSelected(x: Profile, y: Profile, s: Snapshot)
    requires Faithful(x, s) && RowsGrow(x.claims, y.claims)
    ensures Faithful(y, s) <==> Selection(x.claims, s.builtAt) == Selection(y.claims, s.builtAt)
  {
    if Selection(x.claims, s.builtAt) == Selection(y.claims, s.builtAt) {
      forall k | k in s.sources
        ensures Ref(k, s.sources[k]) in y.claims && y.claims[Ref(k, s.sources[k])].value == x.claims[Ref(k, s.sources[k])].value
      {
        assert SameButStatus(x.claims[Ref(k, s.sources[k])], y.claims[Ref(k, s.sources[k])]);
      }
      assert Values(y.claims, s.sources) == Values(x.claims, s.sources);
    }
  }

  lemma CurrentIsFaithfulIff(h: History, v: nat, n: nat)
    requires Trusted(h) && Grounded(h) && IsCurrent(Last(h), v) && n < |h| && h[n].revision == Last(h).snapshots[v].revision
    ensures var s := Last(h).snapshots[v];
            Faithful(Last(h), s) <==> Selection(h[n].claims, s.builtAt) == Selection(Last(h).claims, s.builtAt)
  {
    var s := Last(h).snapshots[v];
    assert BuiltIn(h, s);
    var m :| 0 <= m < |h| && h[m].revision == s.revision && Faithful(h[m], s);
    if n <= m { assert RevisionMoves(h[n], h[m]); } else { assert RevisionMoves(h[m], h[n]); }
    assert h[m].claims == h[n].claims && RowsGrow(h[m].claims, Last(h).claims);
    FaithfulWhileSelected(h[m], Last(h), s);
  }

  /**
   A settings edit leaves the cache coherent exactly when it does not lower the revision, or lowers it to one
   since which the claims have not changed what the current snapshot, if it was built then, selects.
   */
  lemma EditKeepsCoherenceIff(h: History, i: nat)
    requires Trusted(h) && Grounded(h) && i < |h|
    ensures Coherent(Last(Apply(h, Edit(i)))) <==>
              (h[i].revision + 1 < Last(h).revision ==> SelectsAsBefore(h, h[i].revision + 1))
  {
    var (db, p, r) := (Last(h), EditCommit(h[i], Last(h)), h[i].revision + 1);
    assert Last(Apply(h, Edit(i))) == p;
    assert NotAhead(db) && Coherent(db);
    forall v | IsCurrent(db, v)
      ensures IsCurrent(p, v) && (Faithful(p, db.snapshots[v]) <==> Faithful(db, db.snapshots[v]))
    {
    }
    assert forall v :: IsCurrent(p, v) ==> IsCurrent(db, v);
    forall v, n | IsCurrent(db, v) && db.snapshots[v].revision == r && 0 <= n < |h| && h[n].revision == r
      ensures Faithful(db, db.snapshots[v])
              <==> Selection(h[n].claims, db.snapshots[v].builtAt) == Selection(db.claims, db.snapshots[v].builtAt)
    {
      CurrentIsFaithfulIff(h, v, n);
    }
    forall v | IsCurrent(db, v) && db.snapshots[v].revision == r ensures exists n :: 0 <= n < |h| && h[n].revision == r
    {
      assert BuiltIn(h, db.snapshots[v]);
    }
  }

  const PROPOSE := Upsert(0, 0, UpsertArgs("mood", "cheerful", ModelInference, "v1", Normal, Worker))
  const REBUILD := Rebuild(1, 1, 1, RebuildArgs(None, None, 0))
  const ACCEPT := Transition(2, 2, TransitionArgs(Ref("mood", 1), 1, Some(Accepted), None, None, Person("operator")))
  const LATE_EDIT := Edit(0)

  const PROPOSED := ProposedClaim(PROPOSE.upsert)
  const AFTER_PROPOSE := Profile(1, map[Ref("mood", 1) := PROPOSED], map[], 0)
  const AFTER_REBUILD := AFTER_PROPOSE.(snapshots := map[1 := Snapshot(map[], map[], true, 1, 0)])
  const AFTER_ACCEPT := AFTER_REBUILD.(revision := 2,
    claims := AFTER_REBUILD.claims[Ref("mood", 1) := PROPOSED.(status := Superseded)]
                                  [Ref("mood", 2) := Replacement(PROPOSED, ACCEPT.transition)])

  lemma ProposeIsFirst()
    ensures Apply([EMPTY], PROPOSE) == [EMPTY, AFTER_PROPOSE]
  {
  }

  lemma RebuildIsSecond()
    ensures Apply([EMPTY, AFTER_PROPOSE], REBUILD) == [EMPTY, AFTER_PROPOSE, AFTER_REBUILD]
  {
    var p := AFTER_PROPOSE;
    assert SelectedKeys(p.claims, 0) == {};
    assert Built(p.claims, REBUILD.rebuild, 1) == Snapshot(map[], map[], true, 1, 0);
    assert RebuildCommit(p, p, p, p, REBUILD.rebuild) == Ok((AFTER_REBUILD, 1));
  }

  lemma AcceptThenEdit()
    ensures Apply([EMPTY, AFTER_PROPOSE, AFTER_REBUILD], ACCEPT) == [EMPTY, AFTER_PROPOSE, AFTER_REBUILD, AFTER_ACCEPT]
    ensures Last(Apply([EMPTY, AFTER_PROPOSE, AFTER_REBUILD, AFTER_ACCEPT], LATE_EDIT)) == EditCommit(EMPTY, AFTER_ACCEPT)
  {
  }

  lemma RunFirst(h: History, step: Step, rest: seq<Step>)
    ensures Run(h, [step] + rest) == Run(Apply(h, step), rest)
  {
  }

  lemma LateEditRun()
    ensures Last(Run([EMPTY], [PROPOSE, REBUILD, ACCEPT, LATE_EDIT])) == EditCommit(EMPTY, AFTER_ACCEPT)
  {
    ProposeIsFirst();
    RebuildIsSecond();
    AcceptThenEdit();
    RunFirst([EMPTY], PROPOSE, [REBUILD, ACCEPT, LATE_EDIT]);
    RunFirst([EMPTY, AFTER_PROPOSE], REBUILD, [ACCEPT, LATE_EDIT]);
    RunFirst([EMPTY, AFTER_PROPOSE, AFTER_REBUILD], ACCEPT, [LATE_EDIT]);
    RunFirst([EMPTY, AFTER_PROPOSE, AFTER_REBUILD, AFTER_ACCEPT], LATE_EDIT, []);
    assert [PROPOSE] + [REBUILD, ACCEPT, LATE_EDIT] == [PROPOSE, REBUILD, ACCEPT, LATE_EDIT];
    assert [REBUILD] + [ACCEPT, LATE_EDIT] == [REBUILD, ACCEPT, LATE_EDIT];
    assert [ACCEPT] + [LATE_EDIT] == [ACCEPT, LATE_EDIT];
    assert [LATE_EDIT] + [] == [LATE_EDIT];
  }

  /**
   The snapshot is built at revision 1, a claim is accepted at revision 2, and an edit that had read
   revision 0 writes 1 back: the snapshot claims to be up to date and lacks the accepted claim.
   */
  lemma LateEditBreaksCoherence()
    ensures !Coherent(Last(Run([EMPTY], [PROPOSE, REBUILD, ACCEPT, LATE_EDIT])))
  {
    LateEditRun();
    var p := EditCommit(EMPTY, AFTER_ACCEPT);
    var ref := Ref("mood", 2);
    assert ref in p.claims && Eligible(p.claims[ref], 0);
    assert ref.key in Selection(p.claims, 0);
    assert IsCurrent(p, 1) && !Faithful(p, p.snapshots[1]);
  }

  // ---------------------------------------------------------------- counting revisions

  predicate Counted(p: Profile) {
    p.revision == |p.claims| + p.edits
  }

  predicate Prompt(h: History, step: Step) {
    step.Edit? && step.i < |h| ==> h[step.i].revision == Last(h).revision
  }

  predicate CountsAlike(db: Profile, p: Profile) {
    CountsOne(db, p) || (p.claims == db.claims && p.revision == db.revision && p.edits == db.edits)
  }

  lemma CommitCounts(h: History, step: Step)
    requires Sound(h) && InOrder(h, step) && !step.Edit?
    ensures CountsAlike(Last(h), Commit(h, step))
  {
    CommitMoves(h, step);
  }

  lemma CountingGoesOn(db: Profile, p: Profile)
    requires CountsAlike(db, p) && Counted(db)
    ensures Counted(p)
  {
  }

  /** The revision goes on counting claims and edits exactly when no edit writes over a revision it did not read. */
  lemma StepKeepsCountIff(h: History, step: Step)
    requires Sound(h) && Counted(Last(h))
    ensures Counted(Last(Apply(h, step))) <==> Prompt(h, step)
  {
    if InOrder(h, step) && !step.Edit? {
      CommitCounts(h, step);
      CountingGoesOn(Last(h), Commit(h, step));
      assert Last(Apply(h, step)) == Commit(h, step);
    }
  }

  lemma {:induction false} RunKeepsCount(h: History, steps: seq<Step>)
    requires Sound(h) && Counted(Last(h)) && forall s :: s in steps ==> !s.Edit?
    ensures Counted(Last(Run(h, steps))) && Last(Run(h, steps)).edits == Last(h).edits
    decreases |steps|
  {
    if steps != [] {
      assert steps[0] in steps;
      StepKeepsSound(h, steps[0]);
      StepKeepsCountIff(h, steps[0]);
      if InOrder(h, steps[0]) {
        CommitCounts(h, steps[0]);
      }
      RunKeepsCount(Apply(h, steps[0]), steps[1..]);
    }
  }

  /** Claims only: the revision is the number of claim rows, and each key's versions are 1..n. */
  lemma RevisionCountsClaims(steps: seq<Step>)
    requires forall s :: s in steps ==> !s.Edit?
    ensures var p := Last(Run([EMPTY], steps));
            p.revision == |p.claims| && Chained(p.claims)
  {
    RunKeepsCount([EMPTY], steps);
    RunKeepsSound([EMPTY], steps);
  }

  /** A claim that has a successor never changes again, and no claim ever changes but to be superseded. */
  lemma SuccessorsFreeze(h: History, steps: seq<Step>)
    requires Sound(h)
    ensures RowsGrow(Last(h).claims, Last(Run(h, steps)).claims)
  {
    RunKeepsSound(h, steps);
    var r := Run(h, steps);
    assert r[|h| - 1] == Last(h);
    assert RowsGrow(r[|h| - 1].claims, r[|r| - 1].claims);
  }

  // ---------------------------------------------------------------- manual locks

  /** What workers do: they never ask for a manual lock. */
  predicate ByWorker(step: Step) {
    step.Transition? ==> step.transition.actor == Worker && step.transition.lock != Some(true)
  }

  lemma WorkerTransitionLeavesLocks(contact: Profile, seen: Profile, db: Profile, a: TransitionArgs, key: string, now: Time)
    requires RowsGrow(seen.claims, db.claims) && a.actor == Worker && a.lock != Some(true)
    requires TransitionCommit(contact, seen, db, a).Ok?
    ensures LockedOf(TransitionCommit(contact, seen, db, a).value.0.claims, key, now) == LockedOf(db.claims, key, now)
  {
  }

  lemma UpsertLeavesLocks(contact: Profile, seen: Profile, db: Profile, a: UpsertArgs, key: string, now: Time)
    ensures LockedOf(Committed(db, UpsertCommit(contact, seen, db, a)).claims, key, now) == LockedOf(db.claims, key, now)
  {
  }

  lemma WorkersLeaveLocks(h: History, step: Step, key: string, now: Time)
    requires Sound(h) && ByWorker(step)
    ensures LockedOf(Last(Apply(h, step)).claims, key, now) == LockedOf(Last(h).claims, key, now)
  {
    if InOrder(h, step) {
      CommitMoves(h, step);
      if step.Upsert? {
        UpsertLeavesLocks(h[step.i], h[step.j], Last(h), step.upsert, key, now);
      } else if step.Transition? {
        WorkerStepLeavesLocks(h, step, key, now);
      }
    }
  }

  lemma WorkerStepLeavesLocks(h: History, step: Step, key: string, now: Time)
    requires Grows(h) && InOrder(h, step) && step.Transition? && ByWorker(step)
    ensures LockedOf(Commit(h, step).claims, key, now) == LockedOf(Last(h).claims, key, now)
  {
    var (i, j, a) := (step.i, step.j, step.transition);
    assert RowsGrow(h[j].claims, Last(h).claims);
    if TransitionCommit(h[i], h[j], Last(h), a).Ok? {
      WorkerTransitionLeavesLocks(h[i], h[j], Last(h), a, key, now);
    }
  }

  lemma {:induction false} WorkerRunsLeaveLocks(h: History, steps: seq<Step>, key: string, now: Time)
    requires Sound(h) && forall s :: s in steps ==> ByWorker(s)
    ensures LockedOf(Last(Run(h, steps)).claims, key, now) == LockedOf(Last(h).claims, key, now)
    decreases |steps|
  {
    if steps != [] {
      assert steps[0] in steps;
      StepKeepsSound(h, steps[0]);
      WorkersLeaveLocks(h, steps[0], key, now);
      WorkerRunsLeaveLocks(Apply(h, steps[0]), steps[1..], key, now);
    }
  }

  lemma LockedIsEligible(claims: Claims, key: string, now: Time)
    requires LockedOf(claims, key, now) != {}
    ensures EligibleOf(claims, key, now) != {}
  {
  }

  /** No run of worker steps changes the claim selected for a key that an operator has locked. */
  lemma LockedSelectionStands(h: History, steps: seq<Step>, key: string, now: Time)
    requires Sound(h) && forall s :: s in steps ==> ByWorker(s)
    requires LockedOf(Last(h).claims, key, now) != {}
    ensures var (x, y) := (Last(h).claims, Last(Run(h, steps)).claims);
            && EligibleOf(x, key, now) != {} && EligibleOf(y, key, now) != {}
            && Best(y, key, now) == Best(x, key, now)
            && y[Ref(key, Best(y, key, now))] == x[Ref(key, Best(x, key, now))]
  {
    var (x, y) := (Last(h).claims, Last(Run(h, steps)).claims);
    WorkerRunsLeaveLocks(h, steps, key, now);
    LockedIsEligible(x, key, now);
    LockedIsEligible(y, key, now);
    SuccessorsFreeze(h, steps);
    assert SameButStatus(x[Ref(key, Best(x, key, now))], y[Ref(key, Best(x, key, now))]);
  }

  // ---------------------------------------------------------------- repeated calls

  lemma VisibleMeansReused(h: History, m: nat, ref: Ref, step: Step)
    requires Grows(h) && step.Upsert? && InOrder(h, step)
    requires m <= step.j && ref in h[m].claims && ref.key == step.upsert.key
    requires h[m].claims[ref].value == step.upsert.value && h[m].claims[ref].analyzer == step.upsert.analyzer
    ensures Commit(h, step) == Last(h)
  {
    assert RowsGrow(h[m].claims, h[step.j].claims);
    assert SameButStatus(h[m].claims[ref], h[step.j].claims[ref]);
    assert ref.version in ReusableOf(h[step.j].claims, step.upsert);
  }

  /** Once a row with this value and analyzer is visible, proposing it again changes nothing. */
  lemma UpsertIsIdempotent(h: History, steps: seq<Step>, ref: Ref, step: Step)
    requires Sound(h) && step.Upsert? && InOrder(Run(h, steps), step)
    requires |h| - 1 <= step.j && ref in Last(h).claims && ref.key == step.upsert.key
    requires Last(h).claims[ref].value == step.upsert.value && Last(h).claims[ref].analyzer == step.upsert.analyzer
    ensures Commit(Run(h, steps), step) == Last(Run(h, steps))
  {
    RunKeepsSound(h, steps);
    assert Run(h, steps)[|h| - 1] == Last(h);
    VisibleMeansReused(Run(h, steps), |h| - 1, ref, step);
  }

  predicate SnapshotsGrow(x: Profile, y: Profile) {
    forall v :: v in x.snapshots ==>
                  v in y.snapshots && y.snapshots[v] == x.snapshots[v].(isCurrent := y.snapshots[v].isCurrent)
  }

  lemma StepKeepsSnapshots(h: History, step: Step)
    requires Sound(h)
    ensures SnapshotsGrow(Last(h), Last(Apply(h, step)))
  {
    if InOrder(h, step) {
      var db := Last(h);
      CommitMoves(h, step);
      if step.Rebuild? && RebuildCommit(h[step.i], h[step.j], h[step.k], db, step.rebuild).Ok? {
        RebuildMoves(h[step.i], h[step.j], h[step.k], db, step.rebuild);
      }
    }
  }

  lemma SnapshotsGrowOn(x: Profile, y: Profile, z: Profile)
    requires SnapshotsGrow(x, y) && SnapshotsGrow(y, z)
    ensures SnapshotsGrow(x, z)
  {
  }

  /** Published snapshots are never rewritten or removed; they only cease to be current. */
  lemma {:induction false} SnapshotsStay(h: History, steps: seq<Step>)
    requires Sound(h)
    ensures SnapshotsGrow(Last(h), Last(Run(h, steps)))
    decreases |steps|
  {
    if steps != [] {
      var after := Apply(h, steps[0]);
      StepKeepsSound(h, steps[0]);
      StepKeepsSnapshots(h, steps[0]);
      SnapshotsStay(after, steps[1..]);
      SnapshotsGrowOn(Last(h), Last(after), Last(Run(h, steps)));
    }
  }

  /** Of all rebuilds that expect the same current version, whenever they read, one succeeds. */
  lemma OneRebuildWins(h: History, steps: seq<Step>, first: Step, second: Step)
    requires Sound(h) && first.Rebuild? && InOrder(h, first)
    requires RebuildCommit(h[first.i], h[first.j], h[first.k], Last(h), first.rebuild).Ok?
    requires second.Rebuild? && second.rebuild.expectedCurrent == first.rebuild.expectedCurrent
    requires InOrder(Run(Apply(h, first), steps), second)
    ensures var r := Run(Apply(h, first), steps);
            RebuildCommit(r[second.i], r[second.j], r[second.k], Last(r), second.rebuild) == Err(Conflict)
  {
    StepKeepsSound(h, first);
    SnapshotsStay(Apply(h, first), steps);
    RebuildMoves(h[first.i], h[first.j], h[first.k], Last(h), first.rebuild);
  }
}
