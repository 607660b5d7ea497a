/**
 The bridge's memory of keyed sends: an insertion-ordered map kept to a bounded number of entries, and a
 file that is replaced as a whole.
 */
module ReceiptStore {
  import opened Base
  import opened Outbox

  type Key = OutboxKey

  datatype Entry = Entry(key: Key, id: WaId)

  // ---------------------------------------------------------------- the ordered map

  function Keys(es: seq<Entry>): set<Key> {
    set e | e in es :: e.key
  }

  predicate DistinctKeys(es: seq<Entry>) {
    forall i, j :: 0 <= i < j < |es| ==> es[i].key != es[j].key
  }

  function Lookup(es: seq<Entry>, k: Key): (r: Option<WaId>)
    ensures r.Some? <==> k in Keys(es)
    ensures r.Some? ==> Entry(k, r.value) in es
  {
    if es == [] then None
    else if es[0].key == k then assert es[0] in es; Some(es[0].id)
    else
      var r := Lookup(es[1..], k);
      assert Keys(es) == {es[0].key} + Keys(es[1..]);
      r
  }

  /** Map.delete */
  function Delete(es: seq<Entry>, k: Key): seq<Entry> {
    if es == [] then []
    else if es[0].key == k then Delete(es[1..], k)
    else [es[0]] + Delete(es[1..], k)
  }

  /** Map.set: a key already present keeps its place. */
  function Set(es: seq<Entry>, e: Entry): seq<Entry> {
    if es == [] then [e]
    else if es[0].key == e.key then [e] + es[1..]
    else [es[0]] + Set(es[1..], e)
  }

  function LastN(es: seq<Entry>, n: nat): seq<Entry> {
    if |es| <= n then es else es[|es| - n..]
  }

  /** put: delete, set, then drop from the front what exceeds the bound. */
  function Remember(es: seq<Entry>, e: Entry, n: nat): seq<Entry> {
    LastN(Delete(es, e.key) + [e], n)
  }

  function SetAll(es: seq<Entry>, items: seq<Entry>): seq<Entry>
    decreases |items|
  {
    if items == [] then es else SetAll(Set(es, items[0]), items[1..])
  }

  /** start: the file's items are set one by one into the map as it stands, and the map is trimmed. */
  function Load(es: seq<Entry>, file: seq<Entry>, n: nat): seq<Entry> {
    LastN(SetAll(es, file), n)
  }

  lemma HeadTail(es: seq<Entry>)
    requires es != []
    ensures forall e :: e in es <==> e == es[0] || e in es[1..]
    ensures Keys(es) == {es[0].key} + Keys(es[1..])
    ensures DistinctKeys(es) <==> es[0].key !in Keys(es[1..]) && DistinctKeys(es[1..])
  {
  }

  lemma {:induction false} DeleteMembers(es: seq<Entry>, k: Key)
    ensures forall e :: e in Delete(es, k) <==> e in es && e.key != k
    ensures Keys(Delete(es, k)) == Keys(es) - {k}
  {
    if es != [] {
      HeadTail(es);
      DeleteMembers(es[1..], k);
    }
  }

  lemma {:induction false} DeleteDistinct(es: seq<Entry>, k: Key)
    requires DistinctKeys(es)
    ensures DistinctKeys(Delete(es, k))
    ensures |Delete(es, k)| == |es| - (if k in Keys(es) then 1 else 0)
    ensures k !in Keys(es) ==> Delete(es, k) == es
  {
    if es != [] {
      HeadTail(es);
      DeleteDistinct(es[1..], k);
      DeleteMembers(es[1..], k);
      if es[0].key != k {
        assert Delete(es, k)[1..] == Delete(es[1..], k);
        HeadTail(Delete(es, k));
      }
    }
  }

  lemma SuffixFacts(es: seq<Entry>, from: nat)
    requires from <= |es|
    ensures DistinctKeys(es) ==> DistinctKeys(es[from..])
    ensures forall e :: e in es[from..] ==> e in es
  {
  }

  lemma SnocDistinct(es: seq<Entry>, e: Entry)
    requires DistinctKeys(es) && e.key !in Keys(es)
    ensures DistinctKeys(es + [e])
  {
  }

  lemma DeleteSplits(xs: seq<Entry>, ys: seq<Entry>, k: Key)
    ensures Delete(xs + ys, k) == Delete(xs, k) + Delete(ys, k)
  {
    if xs == [] {
      assert xs + ys == ys;
    } else {
      assert (xs + ys)[0] == xs[0] && (xs + ys)[1..] == xs[1..] + ys;
      DeleteSplits(xs[1..], ys, k);
    }
  }

  lemma LookupDistinct(es: seq<Entry>, e: Entry)
    requires DistinctKeys(es) && e in es
    ensures Lookup(es, e.key) == Some(e.id)
  {
  }

  // ---------------------------------------------------------------- refinement of the put history

  /** The distinct keys of a put history, ordered by their most recent put: no bound, no trimming. */
  function Latest(h: seq<Entry>): seq<Entry> {
    if h == [] then []
    else
      var last := h[|h| - 1];
      Delete(Latest(h[..|h| - 1]), last.key) + [last]
  }

  function PutAll(h: seq<Entry>, n: nat): seq<Entry> {
    if h == [] then [] else Remember(PutAll(h[..|h| - 1], n), h[|h| - 1], n)
  }

  lemma {:induction false} LatestDistinct(h: seq<Entry>)
    ensures DistinctKeys(Latest(h))
  {
    if h != [] {
      var g, e := h[..|h| - 1], h[|h| - 1];
      LatestDistinct(g);
      DeleteDistinct(Latest(g), e.key);
      DeleteMembers(Latest(g), e.key);
      SnocDistinct(Delete(Latest(g), e.key), e);
    }
  }

  lemma SplitKeys(xs: seq<Entry>, ys: seq<Entry>)
    requires DistinctKeys(xs + ys)
    ensures DistinctKeys(xs) && DistinctKeys(ys) && Keys(xs) !! Keys(ys)
  {
    var zs := xs + ys;
    assert forall i :: 0 <= i < |xs| ==> zs[i] == xs[i];
    assert forall i :: 0 <= i < |ys| ==> zs[|xs| + i] == ys[i];
  }

  lemma LastOfLonger(xs: seq<Entry>, ys: seq<Entry>, n: nat)
    requires n <= |ys|
    ensures LastN(xs + ys, n) == LastN(ys, n)
  {
  }

  lemma TrimmingCommutes(es: seq<Entry>, e: Entry, n: nat)
    requires DistinctKeys(es) && 1 <= n
    ensures Remember(LastN(es, n), e, n) == Remember(es, e, n)
  {
    if |es| > n {
      var dropped, kept := es[..|es| - n], LastN(es, n);
      assert es == dropped + kept;
      SplitKeys(dropped, kept);
      DeleteSplits(dropped, kept, e.key);
      DeleteDistinct(dropped, e.key);
      DeleteDistinct(kept, e.key);
      assert Delete(es, e.key) + [e] == Delete(dropped, e.key) + (Delete(kept, e.key) + [e]);
      LastOfLonger(Delete(dropped, e.key), Delete(kept, e.key) + [e], n);
    }
  }

  /** Trimming after every put holds exactly the last n distinct keys by most recent put, in that order. */
  lemma {:induction false} StoreIsLastKeys(h: seq<Entry>, n: nat)
    requires 1 <= n
    ensures PutAll(h, n) == LastN(Latest(h), n)
  {
    if h != [] {
      var g, e := h[..|h| - 1], h[|h| - 1];
      StoreIsLastKeys(g, n);
      LatestDistinct(g);
      TrimmingCommutes(Latest(g), e, n);
    }
  }

  /** The keys put after position i. */
  function LaterKeys(h: seq<Entry>, i: nat): set<Key>
    requires i < |h|
  {
    Keys(h[i + 1..])
  }

  /** In the unbounded order, exactly the keys put later stand behind the last put of a key. */
  lemma {:induction false} LatestSplits(h: seq<Entry>, i: nat) returns (front: seq<Entry>, back: seq<Entry>)
    requires i < |h| && h[i].key !in LaterKeys(h, i)
    ensures Latest(h) == front + [h[i]] + back
    ensures Keys(back) == LaterKeys(h, i)
    decreases |h|
  {
    var g, e := h[..|h| - 1], h[|h| - 1];
    if i == |g| {
      front, back := Delete(Latest(g), e.key), [];
      assert h[i + 1..] == [];
    } else {
      assert h[i + 1..] == g[i + 1..] + [e];
      assert LaterKeys(h, i) == LaterKeys(g, i) + {e.key};
      var f, b := LatestSplits(g, i);
      DeleteSplits(f + [h[i]], b, e.key);
      DeleteSplits(f, [h[i]], e.key);
      DeleteMembers(b, e.key);
      assert e in h[i + 1..];
      assert Delete([h[i]], e.key) == [h[i]];
      front, back := Delete(f, e.key), Delete(b, e.key) + [e];
      assert Latest(h) == front + [h[i]] + back;
    }
  }

  lemma DistinctSize(es: seq<Entry>)
    requires DistinctKeys(es)
    ensures |Keys(es)| == |es|
  {
    if es != [] {
      DistinctSize(es[1..]);
      assert Keys(es) == {es[0].key} + Keys(es[1..]);
      assert es[0].key !in Keys(es[1..]);
    }
  }

  lemma LookupAbsent(es: seq<Entry>, k: Key)
    requires forall e :: e in es ==> e.key != k
    ensures Lookup(es, k) == None
  {
  }

  /** A receipt is remembered, with the id of its last put, exactly while fewer than n other keys have followed. */
  lemma RememberedIff(h: seq<Entry>, i: nat, n: nat)
    requires 1 <= n && i < |h| && h[i].key !in LaterKeys(h, i)
    ensures Lookup(PutAll(h, n), h[i].key) == if |LaterKeys(h, i)| < n then Some(h[i].id) else None
  {
    StoreIsLastKeys(h, n);
    LatestDistinct(h);
    var all := Latest(h);
    var front, back := LatestSplits(h, i);
    SplitKeys(front + [h[i]], back);
    DistinctSize(back);
    var kept := LastN(all, n);
    SuffixFacts(all, |all| - |kept|);
    if |back| < n {
      assert all[|front|] == h[i];
      assert kept[|kept| - 1 - |back|] == h[i];
      LookupDistinct(kept, h[i]);
    } else {
      assert kept == back[|back| - n..];
      SuffixFacts(back, |back| - n);
      LookupAbsent(kept, h[i].key);
    }
  }

  // ---------------------------------------------------------------- restart

  lemma SetNew(es: seq<Entry>, e: Entry)
    requires e.key !in Keys(es)
    ensures Set(es, e) == es + [e]
  {
  }

  lemma SetSame(es: seq<Entry>, e: Entry)
    requires e in es && DistinctKeys(es)
    ensures Set(es, e) == es
  {
  }

  lemma {:induction false} SetAllNew(es: seq<Entry>, items: seq<Entry>)
    requires DistinctKeys(es + items)
    ensures SetAll(es, items) == es + items
    decreases |items|
  {
    if items == [] {
      assert es + items == es;
    } else {
      assert (es + items)[|es|] == items[0];
      assert items[0].key !in Keys(es) by {
        assert forall j :: 0 <= j < |es| ==> (es + items)[j] == es[j];
      }
      SetNew(es, items[0]);
      assert (es + [items[0]]) + items[1..] == es + items;
      SetAllNew(es + [items[0]], items[1..]);
    }
  }

  lemma {:induction false} SetAllSame(es: seq<Entry>, items: seq<Entry>)
    requires DistinctKeys(es) && forall e :: e in items ==> e in es
    ensures SetAll(es, items) == es
    decreases |items|
  {
    if items != [] {
      SetSame(es, items[0]);
      SetAllSame(es, items[1..]);
    }
  }

  /** A fresh process that reads the file gets back the map that was written, order included. */
  lemma RestartRestores(file: seq<Entry>, n: nat)
    requires DistinctKeys(file) && |file| <= n
    ensures Load([], file, n) == file
  {
    assert [] + file == file;
    SetAllNew([], file);
  }

  /** start on a running store whose file is current, as every reconnect does, changes nothing. */
  lemma ReloadIsNoOp(es: seq<Entry>, n: nat)
    requires DistinctKeys(es) && |es| <= n
    ensures Load(es, es, n) == es
  {
    SetAllSame(es, es);
  }

  // ---------------------------------------------------------------- durability

  datatype Store = Store(entries: seq<Entry>, file: seq<Entry>)

  /** Puts in the order they were made, and how many of them the last successful flush covered. */
  datatype Journal = Journal(puts: seq<Entry>, flushed: nat)

  datatype StoreStep = PutStep(entry: Entry) | FlushStep | FlushFails | RestartStep

  function ApplyStore(s: Store, step: StoreStep, n: nat): Store {
    match step
    case PutStep(e) => s.(entries := Remember(s.entries, e, n))
    case FlushStep => s.(file := s.entries)
    case FlushFails => s
    case RestartStep => s.(entries := Load([], s.file, n))
  }

  function Record(j: Journal, step: StoreStep): Journal
    requires j.flushed <= |j.puts|
  {
    match step
    case PutStep(e) => j.(puts := j.puts + [e])
    case FlushStep => j.(flushed := |j.puts|)
    case FlushFails => j
    case RestartStep => j.(puts := j.puts[..j.flushed])
  }

  ghost predicate Represents(s: Store, j: Journal, n: nat) {
    && j.flushed <= |j.puts|
    && s.entries == PutAll(j.puts, n)
    && s.file == PutAll(j.puts[..j.flushed], n)
  }

  lemma PutAllBounded(h: seq<Entry>, n: nat)
    requires 1 <= n
    ensures |PutAll(h, n)| <= n && DistinctKeys(PutAll(h, n))
  {
    StoreIsLastKeys(h, n);
    LatestDistinct(h);
    SuffixFacts(Latest(h), |Latest(h)| - |LastN(Latest(h), n)|);
  }

  /** The newest entry always survives its own trim. */
  lemma RememberFacts(es: seq<Entry>, e: Entry, n: nat)
    requires DistinctKeys(es) && 1 <= n
    ensures DistinctKeys(Remember(es, e, n)) && |Remember(es, e, n)| <= n
    ensures Lookup(Remember(es, e, n), e.key) == Some(e.id)
  {
    DeleteDistinct(es, e.key);
    DeleteMembers(es, e.key);
    SnocDistinct(Delete(es, e.key), e);
    var full := Delete(es, e.key) + [e];
    var kept := LastN(full, n);
    SuffixFacts(full, |full| - |kept|);
    assert kept[|kept| - 1] == e;
    LookupDistinct(kept, e);
  }

  lemma StepKeepsJournal(s: Store, j: Journal, step: StoreStep, n: nat)
    requires 1 <= n && Represents(s, j, n)
    ensures Represents(ApplyStore(s, step, n), Record(j, step), n)
  {
    match step
    case PutStep(e) =>
      var puts := j.puts + [e];
      assert puts[..|puts| - 1] == j.puts && puts[..j.flushed] == j.puts[..j.flushed];
    case FlushStep => assert j.puts[..|j.puts|] == j.puts;
    case FlushFails =>
    case RestartStep =>
      PutAllBounded(j.puts[..j.flushed], n);
      RestartRestores(s.file, n);
      assert j.puts[..j.flushed][..j.flushed] == j.puts[..j.flushed];
  }

  function RunStore(s: Store, steps: seq<StoreStep>, n: nat): Store
    decreases |steps|
  {
    if steps == [] then s else RunStore(ApplyStore(s, steps[0], n), steps[1..], n)
  }

  function RecordAll(j: Journal, steps: seq<StoreStep>): (r: Journal)
    requires j.flushed <= |j.puts|
    ensures r.flushed <= |r.puts| && j.flushed <= r.flushed
    ensures j.puts[..j.flushed] <= r.puts
    decreases |steps|
  {
    if steps == [] then j else RecordAll(Record(j, steps[0]), steps[1..])
  }

  lemma {:induction false} RunKeepsJournal(s: Store, j: Journal, steps: seq<StoreStep>, n: nat)
    requires 1 <= n && Represents(s, j, n)
    ensures Represents(RunStore(s, steps, n), RecordAll(j, steps), n)
    decreases |steps|
  {
    if steps != [] {
      StepKeepsJournal(s, j, steps[0], n);
      RunKeepsJournal(ApplyStore(s, steps[0], n), Record(j, steps[0]), steps[1..], n);
    }
  }

  /**
   A put that a flush has covered is found, in memory and in the file a restart would read, after any
   further puts, flushes, failed flushes and restarts, until n other keys have been put after it.
   */
  lemma ResolvedPutSurvives(s: Store, j: Journal, steps: seq<StoreStep>, i: nat, n: nat)
    requires 1 <= n && Represents(s, j, n) && i < j.flushed
    requires var after := RecordAll(j, steps);
             && i < |after.puts| && i < after.flushed
             && after.puts[i].key !in LaterKeys(after.puts, i) && |LaterKeys(after.puts, i)| < n
    ensures RecordAll(j, steps).puts[i] == j.puts[i]
    ensures Lookup(RunStore(s, steps, n).entries, j.puts[i].key) == Some(j.puts[i].id)
    ensures Lookup(RunStore(s, steps + [RestartStep], n).entries, j.puts[i].key) == Some(j.puts[i].id)
  {
    var after := RecordAll(j, steps);
    assert j.puts[..j.flushed][i] == j.puts[i];
    RunKeepsJournal(s, j, steps, n);
    RememberedIff(after.puts, i, n);
    RunAppends(s, steps, RestartStep, n);
    StepKeepsJournal(RunStore(s, steps, n), after, RestartStep, n);
    var kept := after.puts[..after.flushed];
    assert kept[i + 1..] <= after.puts[i + 1..];
    assert LaterKeys(kept, i) <= LaterKeys(after.puts, i);
    SubsetSize(LaterKeys(kept, i), LaterKeys(after.puts, i));
    RememberedIff(kept, i, n);
  }

  lemma RunAppends(s: Store, steps: seq<StoreStep>, last: StoreStep, n: nat)
    ensures RunStore(s, steps + [last], n) == ApplyStore(RunStore(s, steps, n), last, n)
    decreases |steps|
  {
    if steps == [] {
      assert [last][1..] == [];
    } else {
      assert (steps + [last])[1..] == steps[1..] + [last];
      RunAppends(ApplyStore(s, steps[0], n), steps[1..], last, n);
    }
  }

  // ---------------------------------------------------------------- the store itself

  class SendReceiptStore {
    var entries: seq<Entry>
    var file: seq<Entry>
    const maxEntries: nat

    ghost predicate Valid()
      reads this
    {
      DistinctKeys(entries) && |entries| <= maxEntries && 100 <= maxEntries <= 50_000
    }

    constructor (onDisk: seq<Entry>, limit: nat)
      ensures Valid() && entries == [] && file == onDisk
      ensures maxEntries == if limit < 100 then 100 else if limit > 50_000 then 50_000 else limit
    {
      entries := [];
      file := onDisk;
      maxEntries := if limit < 100 then 100 else if limit > 50_000 then 50_000 else limit;
    }

    method Trim()
      requires 100 <= maxEntries
      modifies this`entries
      ensures entries == LastN(old(entries), maxEntries)
    {
      while |entries| > maxEntries
        invariant |entries| <= |old(entries)|
        invariant entries == old(entries)[|old(entries)| - |entries|..]
        invariant |old(entries)| >= maxEntries ==> |entries| >= maxEntries
        invariant |old(entries)| < maxEntries ==> entries == old(entries)
      {
        entries := entries[1..];
      }
    }

    method Start()
      requires 100 <= maxEntries
      modifies this`entries
      ensures entries == Load(old(entries), file, maxEntries)
    {
      var n := 0;
      while n < |file|
        invariant n <= |file|
        invariant SetAll(entries, file[n..]) == SetAll(old(entries), file)
      {
        assert file[n..][1..] == file[n + 1..];
        entries := Set(entries, file[n]);
        n := n + 1;
      }
      Trim();
    }

    method Get(k: Key) returns (r: Option<WaId>)
      ensures r == Lookup(entries, k)
    {
      return Lookup(entries, k);
    }

    /** The synchronous part of put; the newest key always survives the trim. */
    method Put(k: Key, id: WaId)
      requires Valid()
      modifies this`entries
      ensures Valid() && entries == Remember(old(entries), Entry(k, id), maxEntries)
      ensures Lookup(entries, k) == Some(id)
    {
      RememberFacts(entries, Entry(k, id), maxEntries);
      entries := Delete(entries, k);
      entries := entries + [Entry(k, id)];
      Trim();
    }

    method Flush()
      modifies this`file
      ensures file == entries
    {
      file := entries;
    }
  }
}
