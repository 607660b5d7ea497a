/** The profile repository over one contact's rows, written in place and held to Profile's commits. */
module ProfileRepositoryModule {
  import opened Base
  import opened Profile
  import opened ProfileProperties
  import L = ProfileLaws

  /** ORDER BY manual_lock DESC, version DESC, or version DESC alone, among the rows of one key. */
  predicate Precedes(claims: Claims, lockedFirst: bool, r: Ref, s: Ref)
    requires r in claims && s in claims
  {
    if lockedFirst && claims[r].locked != claims[s].locked then claims[r].locked else r.version > s.version
  }

  predicate Leads(claims: Claims, lockedFirst: bool, first: Ref, pool: set<Ref>)
    requires first in claims && pool <= claims.Keys
  {
    forall r :: r in pool && r.key == first.key && r != first ==> Precedes(claims, lockedFirst, first, r)
  }

  method FirstOf(claims: Claims, lockedFirst: bool, pool: set<Ref>) returns (first: Ref)
    requires pool != {} && pool <= claims.Keys
    ensures first in pool && Leads(claims, lockedFirst, first, pool)
  {
    first :| first in pool;
    var rest := pool - {first};
    while rest != {}
      invariant rest <= pool && first in pool && first !in rest
      invariant Leads(claims, lockedFirst, first, pool - rest)
      decreases |rest|
    {
      var r :| r in rest;
      rest := rest - {r};
      if r.key == first.key && Precedes(claims, lockedFirst, r, first) { first := r; }
    }
    assert pool - rest == pool;
  }

  ghost function Members(rows: seq<Ref>): set<Ref> {
    set r | r in rows
  }

  /** The rows of a query result: the given ones, each once, and in order within a key. */
  ghost predicate Ordered(claims: Claims, lockedFirst: bool, rows: seq<Ref>)
    requires Members(rows) <= claims.Keys
  {
    forall i, j :: 0 <= i < j < |rows| && rows[i].key == rows[j].key ==>
      rows[i] in rows && rows[j] in rows && rows[i] != rows[j] && Precedes(claims, lockedFirst, rows[i], rows[j])
  }

  /** Every row already listed comes before what is left of its key. */
  ghost predicate AllLead(claims: Claims, lockedFirst: bool, rows: seq<Ref>, rest: set<Ref>)
    requires Members(rows) <= claims.Keys && rest <= claims.Keys
  {
    forall r :: r in Members(rows) ==> Leads(claims, lockedFirst, r, rest)
  }

  lemma Append(claims: Claims, lockedFirst: bool, rows: seq<Ref>, first: Ref, rest: set<Ref>)
    requires Members(rows) <= claims.Keys && rest <= claims.Keys && Members(rows) !! rest
    requires Ordered(claims, lockedFirst, rows) && AllLead(claims, lockedFirst, rows, rest)
    requires first in rest && Leads(claims, lockedFirst, first, rest)
    ensures Members(rows + [first]) == Members(rows) + {first}
    ensures Ordered(claims, lockedFirst, rows + [first])
    ensures AllLead(claims, lockedFirst, rows + [first], rest - {first})
  {
    var longer := rows + [first];
    assert forall r :: r in Members(longer) <==> r in Members(rows) || r == first;
    forall i, j | 0 <= i < j < |longer| && longer[i].key == longer[j].key
      ensures longer[i] != longer[j] && Precedes(claims, lockedFirst, longer[i], longer[j])
    {
      assert rows[i] in Members(rows);
      if j < |rows| { assert longer[j] == rows[j]; }
    }
  }

  method Query(claims: Claims, lockedFirst: bool, pool: set<Ref>) returns (rows: seq<Ref>)
    requires pool <= claims.Keys
    ensures Members(rows) == pool && Ordered(claims, lockedFirst, rows)
  {
    rows := [];
    var rest := pool;
    while rest != {}
      invariant rest <= pool && Members(rows) == pool - rest
      invariant Ordered(claims, lockedFirst, rows)
      invariant AllLead(claims, lockedFirst, rows, rest)
      decreases |rest|
    {
      var first := FirstOf(claims, lockedFirst, rest);
      Append(claims, lockedFirst, rows, first, rest);
      rows := rows + [first];
      rest := rest - {first};
    }
  }

  /** setdefault over the rows in turn: the first row of each key is kept. */
  ghost function FirstRows(rows: seq<Ref>): map<string, nat> {
    if rows == [] then map[]
    else
      var (front, row) := (FirstRows(rows[..|rows| - 1]), rows[|rows| - 1]);
      if row.key in front then front else front[row.key := row.version]
  }

  /** Row j is the first with its key. */
  predicate FirstWithKey(rows: seq<Ref>, k: string, j: nat) {
    j < |rows| && rows[j].key == k && forall l :: 0 <= l < j ==> rows[l].key != k
  }

  lemma {:induction false} FirstRowsFirst(rows: seq<Ref>, j: nat)
    requires j < |rows|
    ensures rows[j].key in FirstRows(rows)
    ensures FirstWithKey(rows, rows[j].key, j) ==> FirstRows(rows)[rows[j].key] == rows[j].version
  {
    var front := rows[..|rows| - 1];
    if j < |front| {
      FirstRowsFirst(front, j);
      assert front[j] == rows[j];
      assert FirstWithKey(rows, rows[j].key, j) ==> FirstWithKey(front, rows[j].key, j);
    } else if rows[j].key in FirstRows(front) {
      FirstRowsFrom(front, rows[j].key);
    }
  }

  lemma {:induction false} FirstRowsFrom(rows: seq<Ref>, k: string)
    requires k in FirstRows(rows)
    ensures exists j :: 0 <= j < |rows| && rows[j].key == k
    ensures Ref(k, FirstRows(rows)[k]) in rows
  {
    var front := rows[..|rows| - 1];
    if k in FirstRows(front) {
      FirstRowsFrom(front, k);
      var j :| 0 <= j < |front| && front[j].key == k;
      assert rows[j].key == k;
    } else {
      assert rows[|rows| - 1].key == k;
    }
  }

  /** The selected row comes before every other eligible row of its key. */
  lemma BestPrecedes(seen: Claims, now: Time, r: Ref)
    requires r in seen && Eligible(seen[r], now)
    ensures EligibleOf(seen, r.key, now) != {}
    ensures var b := Ref(r.key, Best(seen, r.key, now));
            r == b || (Precedes(seen, true, b, r) && !Precedes(seen, true, r, b))
  {
    assert r.version in EligibleOf(seen, r.key, now);
    if seen[r].locked { assert r.version in LockedOf(seen, r.key, now); }
  }

  lemma BestComesFirst(seen: Claims, now: Time, rows: seq<Ref>, k: string) returns (j: nat)
    requires Members(rows) == (set x | x in seen && Eligible(seen[x], now)) && Ordered(seen, true, rows)
    requires EligibleOf(seen, k, now) != {}
    ensures FirstWithKey(rows, k, j) && rows[j] == Ref(k, Best(seen, k, now))
  {
    var b := Ref(k, Best(seen, k, now));
    assert b in Members(rows);
    j :| 0 <= j < |rows| && rows[j] == b;
    forall l | 0 <= l < j ensures rows[l].key != k
    {
      assert rows[l] in Members(rows);
      BestPrecedes(seen, now, rows[l]);
    }
  }

  /** Keeping the first row of each key, locked and newest first, is the selection. */
  lemma FirstRowsAreSelection(seen: Claims, now: Time, rows: seq<Ref>)
    requires Members(rows) == (set x | x in seen && Eligible(seen[x], now)) && Ordered(seen, true, rows)
    ensures FirstRows(rows) == Selection(seen, now)
  {
    forall k ensures k in FirstRows(rows) <==> k in SelectedKeys(seen, now)
    {
      if k in FirstRows(rows) {
        FirstRowsFrom(rows, k);
        assert Ref(k, FirstRows(rows)[k]) in Members(rows);
      }
      if k in SelectedKeys(seen, now) {
        EligibleWitness(seen, k, now);
        var j := BestComesFirst(seen, now, rows, k);
        FirstRowsFirst(rows, j);
      }
    }
    forall k | k in SelectedKeys(seen, now) ensures FirstRows(rows)[k] == Selection(seen, now)[k]
    {
      EligibleWitness(seen, k, now);
      var j := BestComesFirst(seen, now, rows, k);
      FirstRowsFirst(rows, j);
    }
  }

  class ProfileRepository {
    var revision: nat
    var claims: Claims
    var snapshots: map<nat, Snapshot>
    ghost var edits: nat

    ghost function Tables(): Profile
      reads this
    {
      Profile(revision, claims, snapshots, edits)
    }

    constructor (p: Profile)
      ensures Tables() == p
    {
      revision, claims, snapshots, edits := p.revision, p.claims, p.snapshots, p.edits;
    }

    /** Newest first, the first row with the same value that may stand for the proposal. */
    static method FindReusable(rows: seq<Ref>, seen: Claims, a: UpsertArgs) returns (r: Option<Ref>)
      requires Members(rows) == (set x | x in seen && x.key == a.key) && Ordered(seen, false, rows)
      ensures r.None? ==> ReusableOf(seen, a) == {}
      ensures r.Some? ==> ReusableOf(seen, a) != {} && r.value == Ref(a.key, Max(ReusableOf(seen, a)))
    {
      var i := 0;
      while i < |rows|
        invariant 0 <= i <= |rows|
        invariant forall k :: 0 <= k < i ==> rows[k] in seen && !Reusable(seen[rows[k]], a)
      {
        assert rows[i] in Members(rows);
        if Reusable(seen[rows[i]], a) {
          assert rows[i].version in ReusableOf(seen, a);
          forall v | v in ReusableOf(seen, a) ensures v <= rows[i].version
          {
            assert Ref(a.key, v) in Members(rows);
            var k :| 0 <= k < |rows| && rows[k] == Ref(a.key, v);
          }
          return Some(rows[i]);
        }
        i := i + 1;
      }
      assert forall v: nat :: v in ReusableOf(seen, a) ==> Ref(a.key, v) in Members(rows);
      return None;
    }

    static method NextOf(rows: seq<Ref>, seen: Claims, key: string) returns (v: nat)
      requires Members(rows) == (set x | x in seen && x.key == key) && Ordered(seen, false, rows)
      ensures v == NextVersion(seen, key)
    {
      assert forall k :: 0 <= k < |rows| ==> rows[k] in Members(rows);
      if rows == [] {
        assert forall x: nat :: x in VersionsOf(seen, key) ==> Ref(key, x) in Members(rows);
        return 1;
      }
      assert rows[0].version in VersionsOf(seen, key);
      forall x | x in VersionsOf(seen, key) ensures x <= rows[0].version
      {
        assert Ref(key, x) in Members(rows);
        var k :| 0 <= k < |rows| && rows[k] == Ref(key, x);
      }
      return rows[0].version + 1;
    }

    method UpsertProposedClaim(contact: Profile, seen: Profile, a: UpsertArgs) returns (r: Result<Ref, ProfileError>)
      modifies this
      ensures UpsertCommit(contact, seen, old(Tables()), a) == (if r.Ok? then Ok((Tables(), r.value)) else Err(r.error))
      ensures r.Err? ==> Tables() == old(Tables())
    {
      var pool := set x | x in seen.claims && x.key == a.key;
      var rows := Query(seen.claims, false, pool);
      var found := FindReusable(rows, seen.claims, a);
      if found.Some? { return Ok(found.value); }
      var version := NextOf(rows, seen.claims, a.key);
      var ref := Ref(a.key, version);
      if ref in claims {
        if claims[ref].value == a.value { return Ok(ref); }
        return Err(Conflict);
      }
      if revision != contact.revision { return Err(Conflict); }
      claims := claims[ref := ProposedClaim(a)];
      revision := contact.revision + 1;
      return Ok(ref);
    }

    method TransitionClaim(contact: Profile, seen: Profile, a: TransitionArgs) returns (r: Result<Ref, ProfileError>)
      modifies this
      ensures TransitionCommit(contact, seen, old(Tables()), a) == (if r.Ok? then Ok((Tables(), r.value)) else Err(r.error))
      ensures r.Err? ==> Tables() == old(Tables())
    {
      if a.ref !in seen.claims { return Err(ScopeViolation); }
      var before := seen.claims[a.ref];
      if a.ref.version != a.expected || before.status.Superseded? { return Err(Conflict); }
      if a.actor == Worker && before.locked { return Err(Conflict); }
      var next := Ref(a.ref.key, a.expected + 1);
      if a.ref !in claims || claims[a.ref].status != before.status { return Err(Conflict); }
      if next in claims || revision != contact.revision { return Err(Conflict); }
      claims := claims[a.ref := claims[a.ref].(status := Superseded)];
      claims := claims[next := Replacement(before, a)];
      revision := contact.revision + 1;
      return Ok(next);
    }

    static method CurrentOf(p: Profile) returns (r: Option<nat>)
      requires Inv(p)
      ensures r == Current(p)
    {
      CurrentIsLast(p);
      var pool := p.snapshots.Keys;
      while pool != {}
        invariant pool <= p.snapshots.Keys
        invariant forall v :: v in p.snapshots && v !in pool ==> !IsCurrent(p, v)
        decreases |pool|
      {
        var v :| v in pool;
        if p.snapshots[v].isCurrent {
          assert IsCurrent(p, v);
          return Some(v);
        }
        pool := pool - {v};
      }
      return None;
    }

    /** selected.setdefault over the ordered rows: the first row of each key is kept. */
    static method Select(seen: Claims, now: Time) returns (sources: map<string, nat>, content: map<string, string>)
      ensures sources == Selection(seen, now)
      ensures Resolves(seen, sources) && content == Values(seen, sources)
    {
      var pool := set x | x in seen && Eligible(seen[x], now);
      var rows := Query(seen, true, pool);
      sources, content := map[], map[];
      var i := 0;
      assert rows[..0] == [];
      while i < |rows|
        invariant 0 <= i <= |rows|
        invariant sources == FirstRows(rows[..i])
        invariant Resolves(seen, sources) && content == Values(seen, sources)
      {
        var row := rows[i];
        assert row in Members(rows);
        assert rows[..i + 1][..i] == rows[..i];
        if row.key !in sources {
          sources := sources[row.key := row.version];
          content := content[row.key := seen[row].value];
        }
        i := i + 1;
      }
      assert rows[..i] == rows;
      FirstRowsAreSelection(seen, now, rows);
    }

    /** What rebuild_snapshot writes once its reads are done. */
    method Publish(current: Option<nat>, version: nat, s: Snapshot) returns (ok: bool)
      requires LastIsCurrent(snapshots) && version == Or(current, 0) + 1
      modifies this
      ensures ok <==> Fits(old(Tables()), current, version)
      ensures !ok ==> Tables() == old(Tables())
      ensures ok ==> Tables() == Published(old(Tables()), current, version, s)
    {
      if current.Some? {
        if current.value !in snapshots || !snapshots[current.value].isCurrent { return false; }
      }
      CurrentIsLast(Tables());
      assert snapshots != map[] ==> 1 in snapshots;
      if version in snapshots { return false; }
      if current.Some? {
        snapshots := snapshots[current.value := snapshots[current.value].(isCurrent := false)];
      }
      snapshots := snapshots[version := s];
      return true;
    }

    method RebuildOrConflict(contact: Profile, shown: Profile, seen: Profile, a: RebuildArgs)
      returns (r: Result<nat, ProfileError>)
      requires Inv(shown) && Inv(Tables())
      modifies this
      ensures RebuildCommit(contact, shown, seen, old(Tables()), a)
           == (if r.Ok? then Ok((Tables(), r.value)) else Err(r.error))
      ensures r.Err? ==> Tables() == old(Tables())
    {
      var expected := Or(a.expectedRevision, contact.revision);
      if contact.revision != expected { return Err(Conflict); }
      var current := CurrentOf(shown);
      if current != a.expectedCurrent { return Err(Conflict); }
      var sources, content := Select(seen.claims, a.now);
      var version := Or(current, 0) + 1;
      if revision != expected { return Err(Conflict); }
      var ok := Publish(current, version, Snapshot(content, sources, true, expected, a.now));
      if ok { return Ok(version); }
      return Err(Conflict);
    }

    /** The snapshot published is current and shows what the claims that were read allow. */
    method RebuildSnapshot(contact: Profile, shown: Profile, seen: Profile, a: RebuildArgs)
      returns (r: Result<nat, ProfileError>)
      requires Inv(shown) && Inv(Tables())
      modifies this
      ensures RebuildCommit(contact, shown, seen, old(Tables()), a)
           == (if r.Ok? then Ok((Tables(), r.value)) else Err(r.error))
      ensures r.Err? ==> Tables() == old(Tables())
      ensures r.Ok? ==> L.RebuiltAs(contact, seen, old(Tables()), Tables(), r.value, a.now)
    {
      r := RebuildOrConflict(contact, shown, seen, a);
      if r.Ok? { L.RebuildShows(contact, shown, seen, old(Tables()), a, Tables(), r.value); }
    }
  }
}
