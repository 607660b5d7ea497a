/**
 Profile claims and the cached snapshot of one contact. Every operation reads committed states first and then
 commits; between its reads and its commit other operations may commit, so the reads are parameters.
 */
module Profile {
  import opened Base

  datatype ClaimStatus = Proposed | Accepted | Rejected | Superseded | Lapsed

  datatype Sensitivity = Normal | Private | Restricted

  datatype Source = ExplicitFact | ObservedPattern | ModelInference | Manual

  datatype Actor = Worker | Person(name: string)

  datatype Claim = Claim(value: string, source: Source, status: ClaimStatus, sensitivity: Sensitivity, locked: bool,
                         analyzer: string, validFrom: Option<Time>, validUntil: Option<Time>, createdBy: Actor)

  /** The unique key (claim_key, version) of a claim row; neither part is ever rewritten. */
  datatype Ref = Ref(key: string, version: nat)

  type Claims = map<Ref, Claim>

  /** `builtAt` is the clock value of the selection; snapshots are stored under their unique version. */
  datatype Snapshot = Snapshot(content: map<string, string>, sources: map<string, nat>, isCurrent: bool,
                               revision: nat, builtAt: Time)

  /** `edits` counts the settings edits committed so far; the program does not store it. */
  datatype Profile = Profile(revision: nat, claims: Claims, snapshots: map<nat, Snapshot>, edits: nat)

  datatype ProfileError = ScopeViolation | Conflict

  // ---------------------------------------------------------------- versions

  ghost function Max(s: set<nat>): (m: nat)
    requires s != {}
    ensures m in s && forall x :: x in s ==> x <= m
  {
    var x :| x in s;
    if s == {x} then x
    else
      var rest := s - {x};
      assert s == rest + {x};
      var m := Max(rest);
      assert forall y :: y in s ==> y == x || y in rest;
      if m >= x then m else x
  }

  function VersionsOf(claims: Claims, key: string): set<nat> {
    set r | r in claims && r.key == key :: r.version
  }

  ghost function NextVersion(claims: Claims, key: string): nat {
    if VersionsOf(claims, key) == {} then 1 else Max(VersionsOf(claims, key)) + 1
  }

  // ---------------------------------------------------------------- selection

  predicate Eligible(c: Claim, now: Time) {
    && c.status.Accepted? && !c.sensitivity.Restricted?
    && (c.validFrom.None? || c.validFrom.value <= now)
    && (c.validUntil.None? || now < c.validUntil.value)
  }

  function EligibleOf(claims: Claims, key: string, now: Time): set<nat> {
    set r | r in claims && r.key == key && Eligible(claims[r], now) :: r.version
  }

  function LockedOf(claims: Claims, key: string, now: Time): set<nat> {
    set r | r in claims && r.key == key && Eligible(claims[r], now) && claims[r].locked :: r.version
  }

  /** The highest locked eligible version, or else the highest eligible one. */
  ghost function Best(claims: Claims, key: string, now: Time): (v: nat)
    requires EligibleOf(claims, key, now) != {}
    ensures Ref(key, v) in claims && Eligible(claims[Ref(key, v)], now)
    ensures LockedOf(claims, key, now) != {} ==> claims[Ref(key, v)].locked
  {
    if LockedOf(claims, key, now) != {} then Max(LockedOf(claims, key, now)) else Max(EligibleOf(claims, key, now))
  }

  function SelectedKeys(claims: Claims, now: Time): set<string> {
    set r | r in claims && Eligible(claims[r], now) :: r.key
  }

  ghost function Selection(claims: Claims, now: Time): map<string, nat> {
    map k | k in SelectedKeys(claims, now) ::
      assert EligibleOf(claims, k, now) != {} by { EligibleWitness(claims, k, now); }
      Best(claims, k, now)
  }

  lemma EligibleWitness(claims: Claims, key: string, now: Time)
    requires key in SelectedKeys(claims, now)
    ensures EligibleOf(claims, key, now) != {}
  {
    var r :| r in claims && Eligible(claims[r], now) && r.key == key;
    assert r.version in EligibleOf(claims, key, now);
  }

  predicate Resolves(claims: Claims, sources: map<string, nat>) {
    forall k :: k in sources ==> Ref(k, sources[k]) in claims
  }

  function Values(claims: Claims, sources: map<string, nat>): map<string, string>
    requires Resolves(claims, sources)
  {
    map k | k in sources :: claims[Ref(k, sources[k])].value
  }

  // ---------------------------------------------------------------- upsert_proposed_claim

  datatype UpsertArgs = UpsertArgs(key: string, value: string, source: Source, analyzer: string,
                                   sensitivity: Sensitivity, createdBy: Actor)

  predicate Reusable(c: Claim, a: UpsertArgs) {
    c.value == a.value && (c.analyzer == a.analyzer || c.status.Accepted? || c.locked)
  }

  function ReusableOf(claims: Claims, a: UpsertArgs): set<nat> {
    set r | r in claims && r.key == a.key && Reusable(claims[r], a) :: r.version
  }

  function ProposedClaim(a: UpsertArgs): Claim {
    Claim(a.value, a.source, Proposed, a.sensitivity, false, a.analyzer, None, None, a.createdBy)
  }

  type Outcome<T> = Result<(Profile, T), ProfileError>

  /** `contact` and `seen` are the committed states in which the revision and the claims were read. */
  ghost function UpsertCommit(contact: Profile, seen: Profile, db: Profile, a: UpsertArgs): Outcome<Ref> {
    if ReusableOf(seen.claims, a) != {} then Ok((db, Ref(a.key, Max(ReusableOf(seen.claims, a)))))
    else
      var ref := Ref(a.key, NextVersion(seen.claims, a.key));
      if ref in db.claims then
        if db.claims[ref].value == a.value then Ok((db, ref)) else Err(Conflict)
      else if db.revision != contact.revision then Err(Conflict)
      else Ok((db.(claims := db.claims[ref := ProposedClaim(a)], revision := contact.revision + 1), ref))
  }

  // ---------------------------------------------------------------- transition_claim

  datatype TransitionArgs = TransitionArgs(ref: Ref, expected: nat, status: Option<ClaimStatus>, value: Option<string>,
                                           lock: Option<bool>, actor: Actor)

  function Or<T>(o: Option<T>, default: T): T {
    if o.Some? then o.value else default
  }

  function Replacement(c: Claim, a: TransitionArgs): Claim {
    Claim(Or(a.value, c.value), if a.actor != Worker && a.value.Some? then Manual else c.source, Or(a.status, c.status),
          c.sensitivity, Or(a.lock, c.locked), c.analyzer, c.validFrom, c.validUntil, a.actor)
  }

  function TransitionCommit(contact: Profile, seen: Profile, db: Profile, a: TransitionArgs): Outcome<Ref> {
    if a.ref !in seen.claims then Err(ScopeViolation)
    else
      var before := seen.claims[a.ref];
      if a.ref.version != a.expected || before.status.Superseded? then Err(Conflict)
      else if a.actor == Worker && before.locked then Err(Conflict)
      else
        var next := Ref(a.ref.key, a.expected + 1);
        if a.ref !in db.claims || db.claims[a.ref].status != before.status then Err(Conflict)
        else if next in db.claims || db.revision != contact.revision then Err(Conflict)
        else
          var superseded := db.claims[a.ref].(status := Superseded);
          Ok((db.(claims := db.claims[a.ref := superseded][next := Replacement(before, a)],
                  revision := contact.revision + 1), next))
  }

  // ---------------------------------------------------------------- rebuild_snapshot

  predicate IsCurrent(p: Profile, v: nat) {
    v in p.snapshots && p.snapshots[v].isCurrent
  }

  /** SELECT ... WHERE is_current: at most one row, by the partial unique index. */
  ghost function Current(p: Profile): (r: Option<nat>)
    ensures r.Some? ==> IsCurrent(p, r.value)
    ensures r.None? ==> forall v :: !IsCurrent(p, v)
  {
    if exists v :: IsCurrent(p, v) then var v :| IsCurrent(p, v); Some(v) else None
  }

  datatype RebuildArgs = RebuildArgs(expectedCurrent: Option<nat>, expectedRevision: Option<nat>, now: Time)

  ghost function Built(claims: Claims, a: RebuildArgs, revision: nat): Snapshot {
    var sources := Selection(claims, a.now);
    Snapshot(Values(claims, sources), sources, true, revision, a.now)
  }

  /** Publishing retires the snapshot that was current. */
  function Published(p: Profile, previous: Option<nat>, version: nat, s: Snapshot): Profile
    requires previous.Some? ==> previous.value in p.snapshots
  {
    var retired := if previous.None? then p.snapshots
                   else p.snapshots[previous.value := p.snapshots[previous.value].(isCurrent := false)];
    p.(snapshots := retired[version := s])
  }

  /** The retired row must still be current, and the unique indexes on version and on is_current must admit the new one. */
  ghost predicate Fits(db: Profile, previous: Option<nat>, version: nat) {
    && (previous.Some? ==> IsCurrent(db, previous.value))
    && version !in db.snapshots && (previous.None? ==> Current(db).None?)
  }

  /** The comparisons of a rebuild: the snapshot it retires and the version it publishes. */
  ghost function RebuildCheck(contact: Profile, shown: Profile, db: Profile, a: RebuildArgs)
    : (r: Result<(Option<nat>, nat), ProfileError>)
    ensures r.Ok? && r.value.0.Some? ==> r.value.0.value in db.snapshots
  {
    var revision := Or(a.expectedRevision, contact.revision);
    if contact.revision != revision then Err(Conflict)
    else
      var current := Current(shown);
      if current != a.expectedCurrent then Err(Conflict)
      else
        var version := Or(current, 0) + 1;
        if db.revision != revision || !Fits(db, current, version) then Err(Conflict) else Ok((current, version))
  }

  /** `contact`, `shown` and `seen`: where the revision, the current snapshot and the claims were read. */
  ghost function RebuildCommit(contact: Profile, shown: Profile, seen: Profile, db: Profile, a: RebuildArgs): Outcome<nat> {
    var check := RebuildCheck(contact, shown, db, a);
    if check.Err? then Err(check.error)
    else
      var (previous, version) := check.value;
      Ok((Published(db, previous, version, Built(seen.claims, a, contact.revision)), version))
  }

  // ---------------------------------------------------------------- update_contact_settings

  /** Editing a contact's settings writes back the revision it read, plus one, with no comparison. */
  function EditCommit(contact: Profile, db: Profile): Profile {
    db.(revision := contact.revision + 1, edits := db.edits + 1)
  }

  // ---------------------------------------------------------------- runs

  /** The committed states so far, oldest first. Steps name the states they read by position, in program order. */
  type History = h: seq<Profile> | h != [] witness [Profile(0, map[], map[], 0)]

  datatype Step =
    | Upsert(i: nat, j: nat, upsert: UpsertArgs)
    | Transition(i: nat, j: nat, transition: TransitionArgs)
    | Rebuild(i: nat, j: nat, k: nat, rebuild: RebuildArgs)
    | Edit(i: nat)

  predicate InOrder(h: History, step: Step) {
    match step
    case Upsert(i, j, _) => i <= j < |h|
    case Transition(i, j, _) => i <= j < |h|
    case Rebuild(i, j, k, _) => i <= j <= k < |h|
    case Edit(i) => i < |h|
  }

  function Last(h: History): Profile {
    h[|h| - 1]
  }

  function Committed<T>(db: Profile, r: Outcome<T>): Profile {
    if r.Ok? then r.value.0 else db
  }

  ghost function Commit(h: History, step: Step): Profile
    requires InOrder(h, step)
  {
    var db := Last(h);
    match step
    case Upsert(i, j, a) => Committed(db, UpsertCommit(h[i], h[j], db, a))
    case Transition(i, j, a) => Committed(db, TransitionCommit(h[i], h[j], db, a))
    case Rebuild(i, j, k, a) => Committed(db, RebuildCommit(h[i], h[j], h[k], db, a))
    case Edit(i) => EditCommit(h[i], db)
  }

  ghost function Apply(h: History, step: Step): History {
    if InOrder(h, step) then h + [Commit(h, step)] else h
  }

  ghost function Run(h: History, steps: seq<Step>): History
    decreases |steps|
  {
    if steps == [] then h else Run(Apply(h, steps[0]), steps[1..])
  }

  const EMPTY := Profile(0, map[], map[], 0)
}
