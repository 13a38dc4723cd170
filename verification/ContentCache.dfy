/** The explorer's bounded file cache (`frontend/lib/files/contentCache.ts`): a map in insertion order and a
    running byte count. */
module ContentCache {
  import opened Wrappers

  datatype SavedFile = SavedFile(path: string, content: Option<string>)

  datatype Entry = Entry(key: string, file: SavedFile)

  const MAX_BYTES := 2 * 1024 * 1024
  const MAX_FILES := 64

  function EntrySize(key: string, file: SavedFile): (r: nat) {
    (|key| + (if file.content.Some? then |file.content.value| else 0)) * 2
  }

  function Size(es: seq<Entry>): (r: nat) {
    if es == [] then 0 else EntrySize(es[0].key, es[0].file) + Size(es[1..])
  }

  predicate Distinct(es: seq<Entry>) {
    forall i, j :: 0 <= i < j < |es| ==> es[i].key != es[j].key
  }

  predicate Within(es: seq<Entry>) {
    Distinct(es) && |es| <= MAX_FILES && Size(es) <= MAX_BYTES
  }

  function Lookup(es: seq<Entry>, key: string): (r: Option<SavedFile>)
    ensures r.Some? <==> exists i :: 0 <= i < |es| && es[i].key == key
    ensures r.Some? ==> Entry(key, r.value) in es
  {
    if es == [] then None else if es[0].key == key then Some(es[0].file) else Lookup(es[1..], key)
  }

  /** The entries without a key. */
  function Without(es: seq<Entry>, key: string): seq<Entry>
  {
    if es == [] then []
    else if es[0].key == key then Without(es[1..], key)
    else [es[0]] + Without(es[1..], key)
  }

  predicate Fits(es: seq<Entry>, size: nat) {
    |es| < MAX_FILES && Size(es) + size <= MAX_BYTES
  }

  /** The oldest entries go until one of `size` fits. */
  function Evicted(es: seq<Entry>, size: nat): seq<Entry> {
    if es == [] || Fits(es, size) then es else Evicted(es[1..], size)
  }

  function Stored(es: seq<Entry>, key: string, file: SavedFile): seq<Entry> {
    var size := EntrySize(key, file);
    if size > MAX_BYTES then Without(es, key) else Evicted(Without(es, key), size) + [Entry(key, file)]
  }

  ghost predicate Keyed(order: seq<string>, files: map<string, SavedFile>) {
    forall key :: key in order <==> key in files
  }

  ghost function EntriesOf(order: seq<string>, files: map<string, SavedFile>): (es: seq<Entry>)
    requires Keyed(order, files)
    ensures |es| == |order| && forall i :: 0 <= i < |es| ==> es[i] == Entry(order[i], files[order[i]])
  {
    seq(|order|, i requires 0 <= i < |order| => Entry(order[i], files[order[i]]))
  }

  /** The module's state: the map, the order in which its keys were set, and the counter. */
  class FileCache {
    var order: seq<string>
    var files: map<string, SavedFile>
    var cachedBytes: int

    ghost predicate Valid()
      reads this
    {
      && Keyed(order, files)
      && Within(Entries())
      && cachedBytes == Size(Entries())
    }

    ghost function Entries(): seq<Entry>
      requires Keyed(order, files)
      reads this
    {
      EntriesOf(order, files)
    }

    constructor ()
      ensures Valid() && Entries() == []
    {
      order, files, cachedBytes := [], map[], 0;
    }

    method ClearFileContentCache()
      modifies this
      ensures Valid() && Entries() == []
    {
      order, files, cachedBytes := [], map[], 0;
    }

    method GetCachedFile(key: string) returns (r: Option<SavedFile>)
      requires Valid()
      ensures r == Lookup(Entries(), key)
    {
      KeyedLookup(order, files, key);
      r := if key in files then Some(files[key]) else None;
    }

    method CacheFile(key: string, file: SavedFile)
      requires Valid()
      modifies this
      ensures Valid() && Entries() == Stored(old(Entries()), key, file)
      ensures |files| <= 64 && cachedBytes <= 2_097_152 && cachedBytes == 2 * Units(Entries())
      ensures key in files <==> 2 * UnitsOf(Entry(key, file)) <= 2_097_152
      ensures key in files ==> files[key] == file && order[|order| - 1] == key
    {
      Forget(key);
      var size := EntrySize(key, file);
      if size > MAX_BYTES {
        KeptWithin(order, files);
        KeyedLookup(order, files, key);
        WithoutIsWithin(old(Entries()), key);
        return;
      }
      MakeRoom(size);
      KeysAsMany(order, files);
      assert key !in files by {
        EvictedIsPart(Without(old(Entries()), key), size);
        WithoutIsWithin(old(Entries()), key);
        KeyedLookup(order, files, key);
      }
      AddLast(order, files, key, file);
      order, files := order + [key], files[key := file];
      cachedBytes := cachedBytes + size;
      KeptWithin(order, files);
    }

    /** The previous value of the key goes. */
    method Forget(key: string)
      requires Valid()
      modifies this
      ensures Valid() && Entries() == Without(old(Entries()), key)
    {
      KeyedLookup(order, files, key);
      if key in files {
        var i: nat :| i < |order| && order[i] == key;
        DropAt(order, files, i);
        cachedBytes := cachedBytes - EntrySize(key, files[key]);
        order, files := order[..i] + order[i + 1..], files - {key};
      } else {
        WithoutAbsent(Entries(), key);
      }
    }

    /** The eviction loop never reads from an empty map. */
    method MakeRoom(size: nat)
      requires Valid() && size <= MAX_BYTES
      modifies this
      ensures Valid() && Entries() == Evicted(old(Entries()), size) && Fits(Entries(), size)
    {
      KeysAsMany(order, files);
      while |files| >= MAX_FILES || cachedBytes + size > MAX_BYTES
        invariant Valid() && |files| == |order|
        invariant Evicted(old(Entries()), size) == Evicted(Entries(), size)
        decreases |order|
      {
        DropFirst(order, files, size);
        var oldest := order[0];
        cachedBytes := cachedBytes - EntrySize(oldest, files[oldest]);
        order, files := order[1..], files - {oldest};
      }
    }
  }

  /** Characters of two bytes: those of the key and of the content. */
  function UnitsOf(e: Entry): nat {
    |e.key| + match e.file.content case Some(text) => |text| case None => 0
  }

  function Units(es: seq<Entry>): nat {
    if es == [] then 0 else UnitsOf(es[0]) + Units(es[1..])
  }

  lemma {:induction false} SizeIsTwoBytesAUnit(es: seq<Entry>)
    ensures Size(es) == 2 * Units(es)
  {
    if es != [] { SizeIsTwoBytesAUnit(es[1..]); }
  }

  lemma KeptWithin(order: seq<string>, files: map<string, SavedFile>)
    requires Keyed(order, files) && Within(EntriesOf(order, files))
    ensures |files| <= 64 && Size(EntriesOf(order, files)) == 2 * Units(EntriesOf(order, files)) <= 2_097_152
  {
    KeysAsMany(order, files);
    SizeIsTwoBytesAUnit(EntriesOf(order, files));
  }

  lemma KeyedLookup(order: seq<string>, files: map<string, SavedFile>, key: string)
    requires Keyed(order, files) && Distinct(EntriesOf(order, files))
    ensures Lookup(EntriesOf(order, files), key) == if key in files then Some(files[key]) else None
  {
    var es := EntriesOf(order, files);
    LookupIs(es, key);
    if key in files {
      var i :| 0 <= i < |order| && order[i] == key;
      assert es[i].key == key;
    }
  }

  /** Deleting the key at a position of the map. */
  lemma DropAt(order: seq<string>, files: map<string, SavedFile>, i: nat)
    requires Keyed(order, files) && i < |order| && Distinct(EntriesOf(order, files))
    ensures var o, f, es := order[..i] + order[i + 1..], files - {order[i]}, EntriesOf(order, files);
            && Keyed(o, f) && Distinct(EntriesOf(o, f))
            && EntriesOf(o, f) == es[..i] + es[i + 1..]
            && EntriesOf(o, f) == Without(es, order[i])
            && Size(EntriesOf(o, f)) == Size(es) - EntrySize(order[i], files[order[i]])
  {
    var o, f, es := order[..i] + order[i + 1..], files - {order[i]}, EntriesOf(order, files);
    assert forall j :: 0 <= j < |order| ==> order[j] == es[j].key;
    KeyedAfterDrop(order, files, i);
    assert EntriesOf(o, f) == es[..i] + es[i + 1..];
    WithoutAt(es, i);
  }

  lemma KeyedAfterDrop(order: seq<string>, files: map<string, SavedFile>, i: nat)
    requires Keyed(order, files) && i < |order|
    requires forall j, k :: 0 <= j < k < |order| ==> order[j] != order[k]
    ensures Keyed(order[..i] + order[i + 1..], files - {order[i]})
  {
    var o := order[..i] + order[i + 1..];
    forall key
      ensures key in o <==> key in order && key != order[i]
    {
      DroppedKey(order, i, key);
    }
  }

  lemma DroppedKey(order: seq<string>, i: nat, key: string)
    requires i < |order|
    requires forall j, k :: 0 <= j < k < |order| ==> order[j] != order[k]
    ensures key in order[..i] + order[i + 1..] <==> key in order && key != order[i]
  {
    var a, b := order[..i], order[i + 1..];
    assert order == a + [order[i]] + b;
    assert forall j :: 0 <= j < |a| ==> a[j] == order[j];
    assert forall j :: 0 <= j < |b| ==> b[j] == order[i + 1 + j];
  }

  /** One turn of the eviction loop. */
  lemma DropFirst(order: seq<string>, files: map<string, SavedFile>, size: nat)
    requires Keyed(order, files) && Within(EntriesOf(order, files)) && size <= MAX_BYTES
    requires !Fits(EntriesOf(order, files), size)
    ensures order != []
    ensures var o, f, es := order[1..], files - {order[0]}, EntriesOf(order, files);
            && Keyed(o, f) && Within(EntriesOf(o, f)) && |f| == |o|
            && Size(EntriesOf(o, f)) == Size(es) - EntrySize(order[0], files[order[0]])
            && Evicted(es, size) == Evicted(EntriesOf(o, f), size)
  {
    DropAt(order, files, 0);
    var o, f, es := order[1..], files - {order[0]}, EntriesOf(order, files);
    assert o == order[..0] + order[0 + 1..];
    assert EntriesOf(o, f) == es[1..];
    KeysAsMany(o, f);
  }

  lemma AddLast(order: seq<string>, files: map<string, SavedFile>, key: string, file: SavedFile)
    requires Keyed(order, files) && key !in files && Distinct(EntriesOf(order, files))
    ensures var o, f, es := order + [key], files[key := file], EntriesOf(order, files);
            && Keyed(o, f) && EntriesOf(o, f) == es + [Entry(key, file)] && Distinct(EntriesOf(o, f))
            && Size(EntriesOf(o, f)) == Size(es) + EntrySize(key, file)
  {
    var es := EntriesOf(order, files);
    SizeAppend(es, [Entry(key, file)]);
    assert forall i :: 0 <= i < |es| ==> es[i].key == order[i] && order[i] in order;
    assert EntriesOf(order + [key], files[key := file]) == es + [Entry(key, file)];
  }

  lemma {:induction false} SizeAppend(a: seq<Entry>, b: seq<Entry>)
    ensures Size(a + b) == Size(a) + Size(b)
  {
    if a == [] {
      assert a + b == b;
    } else {
      assert (a + b)[1..] == a[1..] + b;
      SizeAppend(a[1..], b);
    }
  }

  lemma {:induction false} LookupIs(es: seq<Entry>, key: string)
    requires Distinct(es)
    ensures forall i :: 0 <= i < |es| && es[i].key == key ==> Lookup(es, key) == Some(es[i].file)
  {
    if es != [] {
      LookupIs(es[1..], key);
      forall i | 0 <= i < |es| && es[i].key == key
        ensures Lookup(es, key) == Some(es[i].file)
      {
        if i > 0 { assert es[1..][i - 1] == es[i]; }
      }
    }
  }

  lemma {:induction false} WithoutAbsent(es: seq<Entry>, key: string)
    requires forall i :: 0 <= i < |es| ==> es[i].key != key
    ensures Without(es, key) == es
  {
    if es != [] { WithoutAbsent(es[1..], key); }
  }

  /** Taking one entry out of distinct ones. */
  lemma WithoutAt(es: seq<Entry>, i: nat)
    requires Distinct(es) && i < |es|
    ensures var r := es[..i] + es[i + 1..];
            Without(es, es[i].key) == r && Distinct(r) && Size(r) == Size(es) - EntrySize(es[i].key, es[i].file)
  {
    WithoutIs(es, i);
    SizeIs(es, i);
  }

  lemma {:induction false} WithoutIs(es: seq<Entry>, i: nat)
    requires Distinct(es) && i < |es|
    ensures Without(es, es[i].key) == es[..i] + es[i + 1..]
  {
    var key, tail := es[i].key, es[1..];
    if i == 0 {
      WithoutAbsent(tail, key);
    } else {
      assert es[0].key != key;
      WithoutIs(tail, i - 1);
      assert tail[..i - 1] + tail[i..] == es[1..i] + es[i + 1..];
      assert es[..i] == [es[0]] + es[1..i];
    }
  }

  lemma SizeIs(es: seq<Entry>, i: nat)
    requires i < |es|
    ensures Size(es[..i] + es[i + 1..]) == Size(es) - EntrySize(es[i].key, es[i].file)
  {
    var a, e, b := es[..i], es[i], es[i + 1..];
    assert es == a + ([e] + b);
    assert ([e] + b)[1..] == b;
    SizeAppend(a, [e] + b);
    SizeAppend(a, b);
  }

  lemma KeysAsMany(order: seq<string>, files: map<string, SavedFile>)
    requires Keyed(order, files) && Distinct(EntriesOf(order, files))
    ensures |files| == |order|
  {
    var es := EntriesOf(order, files);
    assert forall i :: 0 <= i < |order| ==> es[i].key == order[i];
    CountDistinct(order);
    assert files.Keys == set key | key in order;
  }

  lemma {:induction false} CountDistinct(order: seq<string>)
    requires forall i, j :: 0 <= i < j < |order| ==> order[i] != order[j]
    ensures |set key | key in order| == |order|
  {
    if order != [] {
      CountDistinct(order[1..]);
      assert (set key | key in order) == {order[0]} + set key | key in order[1..];
    }
  }

  // ----- What the cache is worth ------------------------------------------------------------------------------

  /** Eviction drops the shortest run of oldest entries that makes room. */
  lemma {:induction false} EvictsNoMoreThanItMust(es: seq<Entry>, size: nat) returns (n: nat)
    requires size <= MAX_BYTES
    ensures n <= |es| && Evicted(es, size) == es[n..] && |es[n..]| < 64 && Size(es[n..]) + size <= 2_097_152
    ensures forall k :: 0 <= k < n ==> |es[k..]| >= 64 || Size(es[k..]) + size > 2_097_152
  {
    if es == [] || Fits(es, size) {
      n := 0;
    } else {
      var m := EvictsNoMoreThanItMust(es[1..], size);
      n := m + 1;
      forall k | 0 <= k < n
        ensures |es[k..]| >= 64 || Size(es[k..]) + size > 2_097_152
      {
        if k > 0 { assert es[k..] == es[1..][k - 1..]; }
        else { assert es[0..] == es; }
      }
      assert es[n..] == es[1..][m..];
    }
  }

  lemma EvictedIsPart(es: seq<Entry>, size: nat)
    requires size <= MAX_BYTES
    ensures forall e :: e in Evicted(es, size) ==> e in es
  {
    var n := EvictsNoMoreThanItMust(es, size);
  }

  datatype Op = Clear | Store(key: string, file: SavedFile)

  function Run(ops: seq<Op>): seq<Entry> {
    if ops == [] then []
    else match ops[|ops| - 1]
      case Clear => []
      case Store(key, file) => Stored(Run(ops[..|ops| - 1]), key, file)
  }

  /** The latest value given for a key since the last clear. */
  function Latest(ops: seq<Op>, key: string): Option<SavedFile> {
    if ops == [] || ops[|ops| - 1] == Clear then None
    else if ops[|ops| - 1].key == key then Some(ops[|ops| - 1].file)
    else Latest(ops[..|ops| - 1], key)
  }

  lemma WithoutIsWithin(es: seq<Entry>, key: string)
    requires Distinct(es)
    ensures Distinct(Without(es, key)) && Size(Without(es, key)) <= Size(es) && |Without(es, key)| <= |es|
    ensures forall e :: e in Without(es, key) ==> e in es && e.key != key
  {
    if i :| 0 <= i < |es| && es[i].key == key {
      WithoutAt(es, i);
      DroppedEntry(es, i);
    } else {
      WithoutAbsent(es, key);
    }
  }

  lemma DroppedEntry(es: seq<Entry>, i: nat)
    requires Distinct(es) && i < |es|
    ensures forall e :: e in es[..i] + es[i + 1..] ==> e in es && e.key != es[i].key
  {
    var a, b := es[..i], es[i + 1..];
    assert forall j :: 0 <= j < |a| ==> a[j] == es[j];
    assert forall j :: 0 <= j < |b| ==> b[j] == es[i + 1 + j];
  }

  lemma StoredIsWithin(es: seq<Entry>, key: string, file: SavedFile)
    requires Within(es)
    ensures Within(Stored(es, key, file))
    ensures EntrySize(key, file) <= MAX_BYTES ==> Lookup(Stored(es, key, file), key) == Some(file)
    ensures forall e :: e in Stored(es, key, file) ==> e == Entry(key, file) || (e in es && e.key != key)
  {
    var size, kept := EntrySize(key, file), Without(es, key);
    WithoutIsWithin(es, key);
    if size <= MAX_BYTES {
      var n := EvictsNoMoreThanItMust(kept, size);
      var rest := kept[n..];
      SizeAppend(rest, [Entry(key, file)]);
      var r := rest + [Entry(key, file)];
      forall i, j | 0 <= i < j < |r|
        ensures r[i].key != r[j].key
      {
        assert r[i] == kept[n + i] && kept[n + i] in kept;
        if j < |rest| { assert r[j] == kept[n + j]; }
      }
      LookupIs(r, key);
      assert r[|rest|].key == key;
    }
  }

  /** Over any operations: both limits hold, and a lookup finds nothing or the latest value since the last clear. */
  lemma {:induction false} LookupsAreLatest(ops: seq<Op>)
    ensures Within(Run(ops))
    ensures forall key :: Lookup(Run(ops), key).Some? ==> Lookup(Run(ops), key) == Latest(ops, key)
  {
    if ops != [] {
      var before, last := ops[..|ops| - 1], ops[|ops| - 1];
      LookupsAreLatest(before);
      if last.Store? {
        var was, now := Run(before), Run(ops);
        StoredIsWithin(was, last.key, last.file);
        forall key | Lookup(now, key).Some?
          ensures Lookup(now, key) == Latest(ops, key)
        {
          var file := Lookup(now, key).value;
          LookupIs(was, key);
          assert Entry(key, file) in now;
        }
      }
    }
  }

  /** What was just stored is found unless it is too large alone. */
  lemma JustStoredIsFound(ops: seq<Op>, key: string, file: SavedFile)
    ensures var r := Lookup(Run(ops + [Store(key, file)]), key);
            r == if EntrySize(key, file) <= MAX_BYTES then Some(file) else None
  {
    LookupsAreLatest(ops);
    assert (ops + [Store(key, file)])[..|ops|] == ops;
    StoredIsWithin(Run(ops), key, file);
    WithoutIsWithin(Run(ops), key);
  }

  /** The values given since the last clear, each key once and where it was given last; those too large alone left out. */
  function Recent(ops: seq<Op>): seq<Entry> {
    if ops == [] || ops[|ops| - 1] == Clear then []
    else
      var last := ops[|ops| - 1];
      Others(Recent(ops[..|ops| - 1]), last.key)
      + if 2 * UnitsOf(Entry(last.key, last.file)) <= 2_097_152 then [Entry(last.key, last.file)] else []
  }

  /** The entries under other keys. */
  function Others(es: seq<Entry>, key: string): seq<Entry> {
    if es == [] then []
    else Others(es[..|es| - 1], key) + if es[|es| - 1].key != key then [es[|es| - 1]] else []
  }

  lemma {:induction false} WithoutAppend(a: seq<Entry>, b: seq<Entry>, key: string)
    ensures Without(a + b, key) == Without(a, key) + Without(b, key)
  {
    if a == [] {
      assert a + b == b;
    } else {
      assert (a + b)[1..] == a[1..] + b;
      WithoutAppend(a[1..], b, key);
    }
  }

  lemma {:induction false} OthersAreWithout(es: seq<Entry>, key: string)
    ensures Others(es, key) == Without(es, key)
  {
    if es != [] {
      var init, last := es[..|es| - 1], es[|es| - 1];
      OthersAreWithout(init, key);
      WithoutAppend(init, [last], key);
      assert init + [last] == es && [last][1..] == [];
    }
  }

  lemma SuffixWithout(es: seq<Entry>, n: nat, key: string) returns (m: nat)
    requires n <= |es|
    ensures m <= |Without(es, key)| && Without(es[n..], key) == Without(es, key)[m..]
  {
    WithoutAppend(es[..n], es[n..], key);
    assert es[..n] + es[n..] == es;
    m := |Without(es[..n], key)|;
  }

  /** Over any operations the cache holds the most recent values: what is missing of them is older than all that is there. */
  lemma {:induction false} OldestGoFirst(ops: seq<Op>) returns (n: nat)
    ensures n <= |Recent(ops)| && Run(ops) == Recent(ops)[n..]
  {
    if ops == [] || ops[|ops| - 1] == Clear {
      n := 0;
    } else {
      var init, last := ops[..|ops| - 1], ops[|ops| - 1];
      var k := OldestGoFirst(init);
      OthersAreWithout(Recent(init), last.key);
      n := StoredIsASuffix(Recent(init), k, last.key, last.file);
    }
  }

  lemma StoredIsASuffix(recent: seq<Entry>, k: nat, key: string, file: SavedFile) returns (n: nat)
    requires k <= |recent|
    ensures var now := Without(recent, key) + if EntrySize(key, file) <= MAX_BYTES then [Entry(key, file)] else [];
            n <= |now| && Stored(recent[k..], key, file) == now[n..]
  {
    var m := SuffixWithout(recent, k, key);
    var all, kept := Without(recent, key), Without(recent[k..], key);
    n := m;
    if EntrySize(key, file) <= MAX_BYTES {
      var j := EvictsNoMoreThanItMust(kept, EntrySize(key, file));
      n := m + j;
      assert kept[j..] == all[n..];
      assert (all + [Entry(key, file)])[n..] == all[n..] + [Entry(key, file)];
    }
  }
}
