/** `manifest`, `pack` and `restore` of `agent/archive.py`: what is packed comes back, whatever was there before. */
module Restore {
  import opened Wrappers
  import opened Paths
  import opened Archive

  datatype Item = Item(name: string, regular: bool, encrypted: bool, declared: nat, data: Bytes)

  /** `size` is the length of the compressed archive. */
  datatype Zip = Zip(items: seq<Item>, size: nat)

  // ----- manifest --------------------------------------------------------------------------------------------

  predicate Admits(entries: Manifest, total: int, item: Item) {
    && SafePath(item.name) && item.name !in entries && item.regular && !item.encrypted
    && item.declared <= MAX_BYTES - total && total + |item.data| <= MAX_BYTES
  }

  ghost function Scan(items: seq<Item>): Result<Manifest, ()> {
    if items == [] then Ok(map[])
    else With(Scan(items[..|items| - 1]), items[|items| - 1])
  }

  ghost function With(before: Result<Manifest, ()>, item: Item): Result<Manifest, ()> {
    if before.Ok? && Admits(before.value, TotalSize(before.value), item)
    then Ok(before.value[item.name := item.data]) else Err(())
  }

  lemma WithAdds(before: Result<Manifest, ()>, item: Item)
    requires With(before, item).Ok?
    ensures before.Ok? && item.name !in before.value && With(before, item).value == before.value[item.name := item.data]
  {
  }

  /** A directory on the way to the file is itself a file of the archive. */
  predicate Conflicts(entries: Manifest, name: string) {
    exists k :: 0 < k < |Split(name)| && Join(Split(name)[..k]) in entries
  }

  ghost function ManifestOf(z: Zip): Result<Manifest, ()> {
    var scanned := Scan(z.items);
    if z.size <= MAX_ARCHIVE && |z.items| <= MAX_FILES && scanned.Ok?
       && forall n :: n in scanned.value ==> !Conflicts(scanned.value, n)
    then scanned else Err(())
  }

  lemma {:induction false} ScanStops(items: seq<Item>, k: nat)
    requires k <= |items| && Scan(items[..k]).Err?
    ensures Scan(items).Err?
    decreases |items|
  {
    if k == |items| {
      assert items[..k] == items;
    } else {
      assert items[..|items| - 1][..k] == items[..k];
      ScanStops(items[..|items| - 1], k);
    }
  }

  /** `manifest`. */
  method CheckManifest(z: Zip) returns (r: Result<Manifest, ()>)
    ensures r == ManifestOf(z)
  {
    if z.size > MAX_ARCHIVE || |z.items| > MAX_FILES { return Err(()); }
    r := ScanItems(z.items);
    if r.Ok? && exists n :: n in r.value && Conflicts(r.value, n) { r := Err(()); }
  }

  method ScanItems(items: seq<Item>) returns (r: Result<Manifest, ()>)
    ensures r == Scan(items)
  {
    var entries: Manifest, total := map[], 0;
    for i := 0 to |items|
      invariant Scan(items[..i]) == Ok(entries) && total == TotalSize(entries)
    {
      var item := items[i];
      assert items[..i + 1][..i] == items[..i];
      if !Admits(entries, total, item) {
        ScanStops(items, i + 1);
        return Err(());
      }
      TotalSizeAdd(entries, item.name, item.data);
      total := total + |item.data|;
      entries := entries[item.name := item.data];
    }
    assert items[..|items|] == items;
    r := Ok(entries);
  }

  /** What an accepted manifest is. */
  ghost predicate Sound(m: Manifest) {
    && (forall n :: n in m ==> SafePath(n) && !Conflicts(m, n))
    && TotalSize(m) <= MAX_BYTES && |m| <= MAX_FILES
  }

  lemma {:induction false} ScanIsSafe(items: seq<Item>)
    requires Scan(items).Ok?
    ensures var m := Scan(items).value;
            (forall n :: n in m ==> SafePath(n)) && TotalSize(m) <= MAX_BYTES && |m| == |items|
  {
    if items != [] {
      var before, last := items[..|items| - 1], items[|items| - 1];
      ScanIsSafe(before);
      TotalSizeAdd(Scan(before).value, last.name, last.data);
      assert Scan(items).value.Keys == Scan(before).value.Keys + {last.name};
    }
  }

  lemma ManifestIsSound(z: Zip)
    requires ManifestOf(z).Ok?
    ensures Sound(ManifestOf(z).value)
  {
    ScanIsSafe(z.items);
  }

  function SizeOf(items: seq<Item>): (n: nat) {
    if items == [] then 0 else SizeOf(items[..|items| - 1]) + |items[|items| - 1].data|
  }

  /** The item by itself can be part of an archive. */
  predicate Ordinary(item: Item) {
    SafePath(item.name) && item.regular && !item.encrypted
  }

  predicate Distinct(items: seq<Item>) {
    forall i, j :: 0 <= i < j < |items| ==> items[i].name != items[j].name
  }

  /** One after the other the items declare and hold no more than is left. */
  predicate Fitting(items: seq<Item>) {
    forall i :: 0 <= i < |items| ==>
      && SizeOf(items[..i]) + items[i].declared <= 33_554_432
      && SizeOf(items[..i]) + |items[i].data| <= 33_554_432
  }

  predicate WellMade(items: seq<Item>) {
    (forall i :: 0 <= i < |items| ==> Ordinary(items[i])) && Distinct(items) && Fitting(items)
  }

  /** Name by name what the items hold. */
  predicate Names(items: seq<Item>, m: Manifest) {
    && (forall i :: 0 <= i < |items| ==> items[i].name in m && m[items[i].name] == items[i].data)
    && (forall n :: n in m ==> exists i :: 0 <= i < |items| && items[i].name == n)
  }

  lemma {:induction false} ScanMeans(items: seq<Item>)
    ensures Scan(items).Ok? <==> WellMade(items)
    ensures Scan(items).Ok? ==> Names(items, Scan(items).value) && TotalSize(Scan(items).value) == SizeOf(items)
  {
    if items != [] {
      var before, last := items[..|items| - 1], items[|items| - 1];
      ScanMeans(before);
      WellMadeBefore(items);
      if Scan(before).Ok? {
        NewName(before, last, Scan(before).value);
        if Scan(items).Ok? {
          TotalSizeAdd(Scan(before).value, last.name, last.data);
          NamesAfter(items, Scan(before).value);
        }
      }
    }
  }

  lemma DistinctBefore(items: seq<Item>)
    requires items != []
    ensures var before, last := items[..|items| - 1], items[|items| - 1];
            Distinct(items) <==> Distinct(before) && forall i :: 0 <= i < |before| ==> before[i].name != last.name
  {
  }

  lemma FittingBefore(items: seq<Item>)
    requires items != []
    ensures var before, last := items[..|items| - 1], items[|items| - 1];
            Fitting(items) <==>
              Fitting(before) && SizeOf(before) + last.declared <= 33_554_432 && SizeOf(before) + |last.data| <= 33_554_432
  {
    var before := items[..|items| - 1];
    assert forall i :: 0 <= i < |before| ==> before[i] == items[i] && before[..i] == items[..i];
    assert items[..|before|] == before;
  }

  lemma WellMadeBefore(items: seq<Item>)
    requires items != []
    ensures var before, last := items[..|items| - 1], items[|items| - 1];
            WellMade(items) <==>
              && WellMade(before) && Ordinary(last) && (forall i :: 0 <= i < |before| ==> before[i].name != last.name)
              && SizeOf(before) + last.declared <= 33_554_432 && SizeOf(before) + |last.data| <= 33_554_432
  {
    var before := items[..|items| - 1];
    DistinctBefore(items);
    FittingBefore(items);
    assert forall i :: 0 <= i < |before| ==> before[i] == items[i];
  }

  lemma NewName(before: seq<Item>, last: Item, m: Manifest)
    requires Names(before, m)
    ensures last.name in m <==> exists i :: 0 <= i < |before| && before[i].name == last.name
  {
  }

  lemma NamesAfter(items: seq<Item>, m: Manifest)
    requires items != [] && Names(items[..|items| - 1], m)
    requires forall i :: 0 <= i < |items| - 1 ==> items[i].name != items[|items| - 1].name
    ensures Names(items, m[items[|items| - 1].name := items[|items| - 1].data])
  {
    var before, last := items[..|items| - 1], items[|items| - 1];
    var after := m[last.name := last.data];
    forall n | n in after
      ensures exists i :: 0 <= i < |items| && items[i].name == n
    {
      if n == last.name {
        assert items[|items| - 1].name == n;
      } else {
        var i :| 0 <= i < |before| && before[i].name == n;
        assert items[i].name == n;
      }
    }
  }

  /** A directory on the way to `name` has the name `other`. */
  predicate RunsThrough(name: string, other: string) {
    exists k :: 0 < k < |Split(name)| && Join(Split(name)[..k]) == other
  }

  /** What `manifest` accepts, and what it returns: an archive of at most 10 MiB with at most 250 ordinary, distinct items
      that hold 32 MiB together, none of whose names runs through another; and each name with its data. */
  lemma ManifestMeans(z: Zip)
    ensures ManifestOf(z).Ok? <==>
      && z.size <= 10_485_760 && |z.items| <= 250 && WellMade(z.items)
      && forall i, j :: 0 <= i < |z.items| && 0 <= j < |z.items| ==> !RunsThrough(z.items[i].name, z.items[j].name)
    ensures ManifestOf(z).Ok? ==> Names(z.items, ManifestOf(z).value)
  {
    ScanMeans(z.items);
    if Scan(z.items).Ok? {
      ConflictsMean(z.items, Scan(z.items).value);
      AcceptedExactly(z, Scan(z.items).value);
    }
  }

  lemma AcceptedExactly(z: Zip, m: Manifest)
    requires Scan(z.items) == Ok(m)
    ensures ManifestOf(z) == if z.size <= 10_485_760 && |z.items| <= 250 && (forall n :: n in m ==> !Conflicts(m, n)) then Ok(m)
                             else Err(())
  {
  }

  lemma ConflictsMean(items: seq<Item>, m: Manifest)
    requires Names(items, m)
    ensures (forall n :: n in m ==> !Conflicts(m, n)) <==>
      forall i, j :: 0 <= i < |items| && 0 <= j < |items| ==> !RunsThrough(items[i].name, items[j].name)
  {
    forall i | 0 <= i < |items|
      ensures Conflicts(m, items[i].name) <==> exists j :: 0 <= j < |items| && RunsThrough(items[i].name, items[j].name)
    {
      ConflictMeans(items, m, items[i].name);
    }
  }

  lemma ConflictMeans(items: seq<Item>, m: Manifest, name: string)
    requires Names(items, m)
    ensures Conflicts(m, name) <==> exists j :: 0 <= j < |items| && RunsThrough(name, items[j].name)
  {
    if Conflicts(m, name) {
      var k :| 0 < k < |Split(name)| && Join(Split(name)[..k]) in m;
      var j :| 0 <= j < |items| && items[j].name == Join(Split(name)[..k]);
      assert RunsThrough(name, items[j].name);
    }
  }

  // ----- restore -----------------------------------------------------------------------------------------------

  /** Clearing keeps a real `node_modules` directory at the top and nothing else. */
  predicate Survives(root: Files, p: seq<string>) {
    p == [] || (p[0] == "node_modules" && ["node_modules"] in root && root[["node_modules"]] == Dir)
  }

  function Cleared(root: Files): Files {
    map p | p in root && Survives(root, p) :: root[p]
  }

  predicate Directories(fs: Files, p: seq<string>) {
    forall k :: 0 < k < |p| && p[..k] in fs ==> fs[p[..k]] == Dir
  }

  /** One member is extracted, its directories made if they are missing. A name without parts is the root. */
  function Extract(fs: Files, p: seq<string>, data: Bytes): Option<Files> {
    if p == [] || !Directories(fs, p) || (p in fs && !fs[p].File?) then None
    else Some((fs + map q | q in Above(p) :: Dir)[p := File(data)])
  }

  /** The directories above a path, the root not included. */
  function Above(p: seq<string>): set<seq<string>> {
    set k | 0 < k < |p| :: p[..k]
  }

  function ExtractAll(fs: Files, items: seq<Item>): Option<Files> {
    if items == [] then Some(fs)
    else
      var before, last := ExtractAll(fs, items[..|items| - 1]), items[|items| - 1];
      if before.None? then None else Extract(before.value, Parts(last.name), last.data)
  }

  ghost function Restored(root: Files, z: Zip): Result<Files, ()> {
    if ManifestOf(z).Err? then Err(())
    else
      var r := ExtractAll(Cleared(root), z.items);
      if r.Some? then Ok(r.value) else Err(())
  }

  lemma {:induction false} ExtractStops(fs: Files, items: seq<Item>, k: nat)
    requires k <= |items| && ExtractAll(fs, items[..k]).None?
    ensures ExtractAll(fs, items).None?
    decreases |items|
  {
    if k == |items| {
      assert items[..k] == items;
    } else {
      assert items[..|items| - 1][..k] == items[..k];
      ExtractStops(fs, items[..|items| - 1], k);
    }
  }

  function TopNames(fs: Files): set<string> {
    set p | p in fs && p != [] :: p[0]
  }

  /** Everything under one name at the top. */
  function WithoutTop(fs: Files, name: string): Files {
    map p | p in fs && (p == [] || p[0] != name) :: fs[p]
  }

  /** What is left while the names in `todo` have not been looked at. */
  function Left(root: Files, todo: set<string>): Files {
    map p | p in root && (p == [] || p[0] in todo || Survives(root, p)) :: root[p]
  }

  lemma LeftAfter(root: Files, todo: set<string>, name: string)
    requires name in todo
    ensures Left(root, todo - {name}) ==
            if name == "node_modules" && ["node_modules"] in root && root[["node_modules"]] == Dir then Left(root, todo)
            else WithoutTop(Left(root, todo), name)
  {
  }

  lemma LeftEnds(root: Files)
    requires IsFileSystem(root)
    ensures Left(root, TopNames(root)) == root && Left(root, {}) == Cleared(root)
  {
  }

  method Clear(root: Files) returns (fs: Files)
    requires IsFileSystem(root)
    ensures fs == Cleared(root)
    ensures forall p :: p in fs <==>
      && p in root
      && (p == [] || (p[0] == "node_modules" && ["node_modules"] in root && root[["node_modules"]] == Dir))
    ensures forall p :: p in fs ==> fs[p] == root[p]
  {
    fs := root;
    var todo := TopNames(root);
    LeftEnds(root);
    while todo != {}
      invariant fs == Left(root, todo)
      decreases todo
    {
      var name :| name in todo;
      LeftAfter(root, todo, name);
      todo := todo - {name};
      if !(name == "node_modules" && ["node_modules"] in root && root[["node_modules"]] == Dir) {
        fs := WithoutTop(fs, name);
      }
    }
  }

  /** `restore`; an error after clearing leaves a workspace that the caller throws away. */
  method RestoreInto(root: Files, z: Zip) returns (r: Result<Files, ()>)
    requires IsFileSystem(root)
    ensures r == Restored(root, z)
  {
    var checked := CheckManifest(z);
    if checked.Err? { return Err(()); }
    var base := Clear(root);
    var fs := ExtractMembers(base, z.items);
    r := if fs.Some? then Ok(fs.value) else Err(());
  }

  method ExtractMembers(base: Files, items: seq<Item>) returns (r: Option<Files>)
    ensures r == ExtractAll(base, items)
  {
    var fs := base;
    for i := 0 to |items|
      invariant ExtractAll(base, items[..i]) == Some(fs)
    {
      assert items[..i + 1][..i] == items[..i];
      var next := Extract(fs, Parts(items[i].name), items[i].data);
      if next.None? {
        ExtractStops(base, items, i + 1);
        return None;
      }
      fs := next.value;
    }
    assert items[..|items|] == items;
    r := Some(fs);
  }

  // ----- What was restored ----------------------------------------------------------------------------------

  /** Files by the names that lead to them. */
  type Layout = map<seq<string>, Bytes>

  /** A file of the layout, or a directory above one. */
  ghost predicate Leads(p: seq<string>, t: Layout) {
    p != [] && exists q :: q in t && p <= q
  }

  /** The base with the layout's files, their directories, and nothing more. */
  ghost predicate Laid(fs: Files, base: Files, t: Layout) {
    && (forall p :: p in fs <==> p in base || Leads(p, t))
    && (forall p :: p in base ==> fs[p] == base[p])
    && (forall p :: p in fs && p !in base ==> fs[p] == if p in t then File(t[p]) else Dir)
  }

  ghost predicate OnlyModules(base: Files) {
    [] in base && base[[]] == Dir && forall p :: p in base && p != [] ==> p[0] == "node_modules"
  }

  /** No file lies at the root, under `node_modules` or below another. */
  ghost predicate Layable(t: Layout) {
    && (forall q :: q in t ==> q != [] && q[0] != "node_modules")
    && (forall p, q :: p in t && q in t && p <= q ==> p == q)
  }

  lemma AboveMeans(p: seq<string>, q: seq<string>)
    ensures q in Above(p) <==> q != [] && q <= p && q != p
  {
    if q != [] && q <= p && q != p {
      assert q == p[..|q|];
    }
  }

  lemma LeadsAfter(t: Layout, p: seq<string>, d: Bytes, q: seq<string>)
    ensures Leads(q, t[p := d]) <==> Leads(q, t) || (q != [] && q <= p)
  {
    if Leads(q, t) {
      var o :| o in t && q <= o;
      assert o in t[p := d];
    }
    if q != [] && q <= p { assert p in t[p := d]; }
  }

  lemma NoneAboveOrBelow(t: Layout, p: seq<string>, d: Bytes)
    requires p !in t && Layable(t[p := d])
    ensures p != [] && p[0] != "node_modules" && !Leads(p, t)
    ensures forall q :: q in Above(p) ==> q !in t && q[0] == p[0]
  {
    var w := t[p := d];
    assert p in w && forall o :: o in t ==> o in w;
    forall q | q in Above(p)
      ensures q !in t && q[0] == p[0]
    {
      AboveMeans(p, q);
    }
  }

  lemma LaidAt(fs: Files, base: Files, t: Layout, p: seq<string>, d: Bytes, r: Files, q: seq<string>)
    requires OnlyModules(base) && Laid(fs, base, t) && p !in t && Layable(t[p := d])
    requires r == (fs + map a | a in Above(p) :: Dir)[p := File(d)]
    ensures q in r <==> q in base || Leads(q, t[p := d])
    ensures q in base ==> q in r && r[q] == base[q]
    ensures q in r && q !in base ==> r[q] == if q in t[p := d] then File(t[p := d][q]) else Dir
  {
    LeadsAfter(t, p, d, q);
    AboveMeans(p, q);
    NoneAboveOrBelow(t, p, d);
  }

  /** A new file and the directories above it do not touch what is laid already. */
  lemma ExtractLays(fs: Files, base: Files, t: Layout, p: seq<string>, d: Bytes)
    requires OnlyModules(base) && Laid(fs, base, t) && p !in t && Layable(t[p := d])
    ensures var r := Extract(fs, p, d); r.Some? && Laid(r.value, base, t[p := d])
  {
    NoneAboveOrBelow(t, p, d);
    forall k | 0 < k < |p| && p[..k] in fs
      ensures fs[p[..k]] == Dir
    {
      assert p[..k] in Above(p);
    }
    var r := (fs + map a | a in Above(p) :: Dir)[p := File(d)];
    assert Extract(fs, p, d) == Some(r);
    forall q
      ensures q in r <==> q in base || Leads(q, t[p := d])
      ensures q in base ==> q in r && r[q] == base[q]
      ensures q in r && q !in base ==> r[q] == if q in t[p := d] then File(t[p := d][q]) else Dir
    {
      LaidAt(fs, base, t, p, d, r, q);
    }
  }

  /** A manifest's layout. */
  ghost function PathsOf(m: Manifest): Layout {
    map p | p in (set n | n in m :: Split(n)) && Join(p) in m :: m[Join(p)]
  }

  lemma PathOf(m: Manifest, p: seq<string>)
    ensures p in PathsOf(m) <==> Join(p) in m && Split(Join(p)) == p
  {
    forall n | n in m && Split(n) == p
      ensures n == Join(p)
    {
      JoinSplit(n);
    }
  }

  lemma PathsOfAddAt(m: Manifest, n: string, d: Bytes, p: seq<string>)
    ensures p in PathsOf(m[n := d]) <==> p in PathsOf(m) || p == Split(n)
    ensures p in PathsOf(m[n := d]) ==> PathsOf(m[n := d])[p] == if p == Split(n) then d else PathsOf(m)[p]
    ensures n !in m && p == Split(n) ==> p !in PathsOf(m)
  {
    JoinSplit(n);
    PathOf(m, p);
    PathOf(m[n := d], p);
  }

  lemma PathsOfAdd(m: Manifest, n: string, d: Bytes)
    ensures PathsOf(m[n := d]) == PathsOf(m)[Split(n) := d]
    ensures n !in m ==> Split(n) !in PathsOf(m)
  {
    var was, now, at := PathsOf(m), PathsOf(m[n := d]), Split(n);
    PathsOfAddAt(m, n, d, at);
    forall p
      ensures p in now <==> p in was || p == at
      ensures p in now ==> now[p] == if p == at then d else was[p]
    {
      PathsOfAddAt(m, n, d, p);
    }
  }

  lemma SafeParts(n: string)
    requires SafePath(n) && n != "."
    ensures Parts(n) == Split(n) && AllPlain(Split(n)) && AllowedParts(Split(n)) && Split(n)[0] != "node_modules"
  {
    SafePathMeans(n);
    PlainNameIsFixed(n);
    assert Excluded("node_modules");
  }

  ghost predicate NoConflicts(m: Manifest) {
    forall n :: n in m ==> SafePath(n) && n != "." && !Conflicts(m, n)
  }

  /** Where a safe name leads. */
  ghost predicate SafeFile(q: seq<string>) {
    q != [] && AllPlain(q) && AllowedParts(q) && SafePath(Join(q)) && q[0] != "node_modules"
  }

  lemma PathIsSafe(m: Manifest, q: seq<string>)
    requires NoConflicts(m) && q in PathsOf(m)
    ensures SafeFile(q) && !Conflicts(m, Join(q)) && Split(Join(q)) == q
  {
    PathOf(m, q);
    SafeParts(Join(q));
  }

  lemma AboveConflicts(m: Manifest, p: seq<string>, q: seq<string>)
    requires p != [] && p <= q && Join(p) in m && Split(Join(q)) == q
    ensures p == q || Conflicts(m, Join(q))
  {
    assert p == q[..|p|];
  }

  lemma ManifestIsLayable(m: Manifest)
    requires NoConflicts(m)
    ensures Layable(PathsOf(m)) && forall q :: q in PathsOf(m) ==> SafeFile(q)
  {
    forall q | q in PathsOf(m)
      ensures SafeFile(q)
    {
      PathIsSafe(m, q);
    }
    forall p, q | p in PathsOf(m) && q in PathsOf(m) && p <= q
      ensures p == q
    {
      PathOf(m, p);
      PathIsSafe(m, p);
      PathIsSafe(m, q);
      AboveConflicts(m, p, q);
    }
  }

  lemma LayableBefore(t: Layout, p: seq<string>, d: Bytes)
    requires p !in t && Layable(t[p := d])
    ensures Layable(t)
  {
    assert forall q :: q in t ==> q in t[p := d];
  }

  lemma ScanBefore(items: seq<Item>)
    requires items != [] && Scan(items).Ok?
    ensures var before, last := Scan(items[..|items| - 1]), items[|items| - 1];
            && before.Ok? && last.name !in before.value && Scan(items).value == before.value[last.name := last.data]
  {
    WithAdds(Scan(items[..|items| - 1]), items[|items| - 1]);
  }

  /** Extracting the members of an archive one by one lays out its manifest. */
  lemma {:induction false} ScanLays(base: Files, items: seq<Item>, m: Manifest)
    requires OnlyModules(base) && Scan(items) == Ok(m) && Layable(PathsOf(m))
    requires forall n :: n in m ==> Parts(n) == Split(n)
    ensures var r := ExtractAll(base, items); r.Some? && Laid(r.value, base, PathsOf(m))
  {
    if items == [] {
      assert PathsOf(m) == map[];
    } else {
      var before, last := items[..|items| - 1], items[|items| - 1];
      ScanBefore(items);
      var was := Scan(before).value;
      var p := Split(last.name);
      PathsOfAdd(was, last.name, last.data);
      LayableBefore(PathsOf(was), p, last.data);
      assert last.name in m && forall n :: n in was ==> n in m;
      ScanLays(base, before, was);
      ExtractLays(ExtractAll(base, before).value, base, PathsOf(was), p, last.data);
    }
  }

  lemma ClearedIsOnlyModules(root: Files)
    requires IsFileSystem(root)
    ensures OnlyModules(Cleared(root))
  {
  }

  /** What the walk sees of a laid-out base is the layout and the directories above it. */
  lemma SeenIsLaid(fs: Files, base: Files, t: Layout, p: seq<string>)
    requires OnlyModules(base) && Laid(fs, base, t) && (forall q :: q in t ==> SafeFile(q)) && p in fs && Seen(fs, p)
    ensures Acceptable(fs, p) && (fs[p].File? <==> p in t) && (p in t ==> fs[p] == File(t[p]))
  {
    NotUnderModules(p);
    var q :| q in t && p <= q;
    PrefixIsSafePath(q, p);
  }

  lemma PrefixIsSafePath(q: seq<string>, p: seq<string>)
    requires SafeFile(q) && p != [] && p <= q
    ensures SafePath(Join(p))
  {
    AncestorsAreSafe(q, |p|);
    assert p == q[..|p|];
  }

  lemma NotUnderModules(p: seq<string>)
    requires p != [] && AllowedParts(p)
    ensures p[0] != "node_modules"
  {
    assert Excluded("node_modules");
  }

  lemma LaidIsSeen(fs: Files, base: Files, t: Layout, p: seq<string>)
    requires OnlyModules(base) && Laid(fs, base, t) && p in t && SafeFile(p)
    ensures p in fs && Seen(fs, p) && fs[p] == File(t[p])
  {
    assert Leads(p, t);
  }

  ghost predicate ShowsLayout(fs: Files, t: Layout) {
    && (forall p :: p in fs && Seen(fs, p) && fs[p].File? ==> p in t)
    && (forall p :: p in t ==> p in fs && Seen(fs, p) && fs[p] == File(t[p]))
  }

  lemma NameIsASource(fs: Files, m: Manifest, n: string)
    requires ShowsLayout(fs, PathsOf(m)) && n in m
    ensures n in SourceFiles(fs) && SourceFiles(fs)[n] == m[n]
  {
    JoinSplit(n);
    PathOf(m, Split(n));
    assert Split(n) in fs && Join(Split(n)) in SourceNames(fs);
  }

  lemma SourceIsAName(fs: Files, m: Manifest, n: string)
    requires ShowsLayout(fs, PathsOf(m)) && n in SourceFiles(fs)
    ensures n in m
  {
    var p :| p in fs && Seen(fs, p) && fs[p].File? && n == Join(p);
    PathOf(m, p);
  }

  lemma SameManifest(a: Manifest, b: Manifest)
    requires forall n :: n in a <==> n in b
    requires forall n :: n in b ==> a[n] == b[n]
    ensures a == b
  {
  }

  /** A file system whose visible files are the layout of a manifest has that manifest. */
  lemma SourcesOfLayout(fs: Files, m: Manifest)
    requires ShowsLayout(fs, PathsOf(m))
    ensures SourceFiles(fs) == m
  {
    forall n
      ensures n in SourceFiles(fs) <==> n in m
      ensures n in m ==> SourceFiles(fs)[n] == m[n]
    {
      if n in m { NameIsASource(fs, m, n); }
      if n in SourceFiles(fs) { SourceIsAName(fs, m, n); }
    }
    SameManifest(SourceFiles(fs), m);
  }

  lemma LaidWorkspaceIs(fs: Files, base: Files, m: Manifest)
    requires NoConflicts(m) && OnlyModules(base) && Laid(fs, base, PathsOf(m))
    requires TotalSize(m) <= MAX_BYTES && |m| <= MAX_FILES
    ensures WorkspaceFiles(fs) == Ok(m)
  {
    ManifestIsLayable(m);
    forall p | p in fs && Seen(fs, p)
      ensures Acceptable(fs, p) && (fs[p].File? ==> p in PathsOf(m))
    {
      SeenIsLaid(fs, base, PathsOf(m), p);
    }
    forall p | p in PathsOf(m)
      ensures p in fs && Seen(fs, p) && fs[p] == File(PathsOf(m)[p])
    {
      LaidIsSeen(fs, base, PathsOf(m), p);
    }
    SourcesOfLayout(fs, m);
    assert AllAcceptable(fs, fs.Keys);
    WalkEnds(fs);
  }

  /** Extraction succeeds and lays the manifest out over what clearing kept. */
  lemma RestoreLays(root: Files, z: Zip)
    requires IsFileSystem(root) && ManifestOf(z).Ok? && "." !in ManifestOf(z).value
    ensures NoConflicts(ManifestOf(z).value) && OnlyModules(Cleared(root)) && Restored(root, z).Ok?
    ensures Laid(Restored(root, z).value, Cleared(root), PathsOf(ManifestOf(z).value))
  {
    var m := ManifestOf(z).value;
    ManifestHasNoConflicts(z);
    ClearedIsOnlyModules(root);
    ManifestIsLayable(m);
    PartsAreSplit(m);
    ScanLays(Cleared(root), z.items, m);
    RestoredIs(root, z);
  }

  lemma ManifestHasNoConflicts(z: Zip)
    requires ManifestOf(z).Ok? && "." !in ManifestOf(z).value
    ensures NoConflicts(ManifestOf(z).value) && Scan(z.items) == ManifestOf(z)
  {
    ManifestIsSound(z);
  }

  lemma PartsAreSplit(m: Manifest)
    requires NoConflicts(m)
    ensures forall n :: n in m ==> Parts(n) == Split(n)
  {
    forall n | n in m ensures Parts(n) == Split(n) { SafeParts(n); }
  }

  lemma RestoredIs(root: Files, z: Zip)
    requires ManifestOf(z).Ok? && ExtractAll(Cleared(root), z.items).Some?
    ensures Restored(root, z) == Ok(ExtractAll(Cleared(root), z.items).value)
  {
  }

  /** An archive that `manifest` accepts restores, onto any root, to a workspace with exactly its files, unless it
      names the root itself: `safe_path` lets `"."` through. */
  lemma RestoredWorkspaceIsTheManifest(root: Files, z: Zip)
    requires IsFileSystem(root) && ManifestOf(z).Ok?
    ensures Restored(root, z).Ok? <==> "." !in ManifestOf(z).value
    ensures "." !in ManifestOf(z).value ==> WorkspaceFiles(Restored(root, z).value) == ManifestOf(z)
  {
    if "." in ManifestOf(z).value {
      RootIsNoFile(Cleared(root), z.items);
    } else {
      ManifestIsSound(z);
      RestoreLays(root, z);
      LaidWorkspaceIs(Restored(root, z).value, Cleared(root), ManifestOf(z).value);
    }
  }

  /** What was there before and stays. */
  predicate Stays(root: Files, p: seq<string>) {
    p in root && (p == [] || (p[0] == "node_modules" && ["node_modules"] in root && root[["node_modules"]] == Dir))
  }

  lemma LeadsMeans(m: Manifest, p: seq<string>)
    ensures Leads(p, PathsOf(m)) <==> p != [] && exists n :: n in m && p <= Split(n)
  {
    if exists n :: n in m && p <= Split(n) {
      var n :| n in m && p <= Split(n);
      JoinSplit(n);
      PathOf(m, Split(n));
    }
    if Leads(p, PathsOf(m)) {
      var q :| q in PathsOf(m) && p <= q;
      PathOf(m, q);
    }
  }

  /** What a restore leaves, node by node: the files of the archive, the directories above them, and what was below a real
      `node_modules` directory, unchanged. */
  lemma RestoredIsExactly(root: Files, z: Zip, p: seq<string>)
    requires IsFileSystem(root) && Restored(root, z).Ok?
    ensures ManifestOf(z).Ok?
    ensures var m, fs := ManifestOf(z).value, Restored(root, z).value;
            && (p in fs <==> Stays(root, p) || (p != [] && exists n :: n in m && p <= Split(n)))
            && (p in fs ==> fs[p] == if Stays(root, p) then root[p]
                                     else if Join(p) in m && Split(Join(p)) == p then File(m[Join(p)]) else Dir)
  {
    var m := ManifestOf(z).value;
    RestoredWorkspaceIsTheManifest(root, z);
    RestoreLays(root, z);
    LaidMeans(Restored(root, z).value, root, m, p);
  }

  lemma LaidMeans(fs: Files, root: Files, m: Manifest, p: seq<string>)
    requires Laid(fs, Cleared(root), PathsOf(m))
    ensures p in fs <==> Stays(root, p) || (p != [] && exists n :: n in m && p <= Split(n))
    ensures p in fs ==> fs[p] == if Stays(root, p) then root[p]
                                 else if Join(p) in m && Split(Join(p)) == p then File(m[Join(p)]) else Dir
  {
    LeadsMeans(m, p);
    PathOf(m, p);
    assert p in Cleared(root) <==> Stays(root, p);
  }

  lemma {:induction false} RootIsNoFile(base: Files, items: seq<Item>)
    requires Scan(items).Ok? && "." in Scan(items).value
    ensures ExtractAll(base, items).None?
  {
    var before, last := items[..|items| - 1], items[|items| - 1];
    if last.name == "." {
      DotHasNoParts();
    } else {
      RootIsNoFile(base, before);
    }
  }

  /** The result is again a file system. */
  lemma RestoredIsAFileSystem(root: Files, z: Zip)
    requires IsFileSystem(root) && Restored(root, z).Ok?
    ensures IsFileSystem(Restored(root, z).value)
  {
    RestoredWorkspaceIsTheManifest(root, z);
    RestoreLays(root, z);
    var t, base, fs := PathsOf(ManifestOf(z).value), Cleared(root), Restored(root, z).value;
    ManifestIsLayable(ManifestOf(z).value);
    forall p | p in fs && p != []
      ensures Plain(p[|p| - 1]) && p[..|p| - 1] in fs && fs[p[..|p| - 1]] == Dir
    {
      if p in base { ParentSurvives(root, p); } else { ParentIsLaid(fs, base, t, p); }
    }
  }

  lemma ParentSurvives(root: Files, p: seq<string>)
    requires IsFileSystem(root) && p in Cleared(root) && p != []
    ensures Plain(p[|p| - 1])
    ensures var q := p[..|p| - 1]; q in Cleared(root) && Cleared(root)[q] == Dir
  {
  }

  lemma ParentIsLaid(fs: Files, base: Files, t: Layout, p: seq<string>)
    requires OnlyModules(base) && Layable(t) && (forall q :: q in t ==> SafeFile(q))
    requires Laid(fs, base, t) && p in fs && p !in base && p != []
    ensures var q := p[..|p| - 1]; Plain(p[|p| - 1]) && q in fs && fs[q] == Dir
  {
    var o :| o in t && p <= o;
    assert SafeFile(o) && Plain(o[|p| - 1]);
    if |p| > 1 { AboveIsLaid(fs, base, t, p[..|p| - 1], o); }
  }

  lemma AboveIsLaid(fs: Files, base: Files, t: Layout, q: seq<string>, o: seq<string>)
    requires OnlyModules(base) && Layable(t) && Laid(fs, base, t) && o in t && q != [] && q <= o && q != o
    ensures q in fs && fs[q] == Dir
  {
    assert Leads(q, t) && q[0] == o[0];
  }

  // ----- pack ------------------------------------------------------------------------------------------------

  /** `pack`: the workspace is walked, zipped from what `z` captured, and walked again. */
  ghost predicate Packs(before: Files, z: Zip, after: Files) {
    && WorkspaceFiles(before).Ok? && ManifestOf(z) == WorkspaceFiles(before) && WorkspaceFiles(after) == WorkspaceFiles(before)
  }

  method Pack(before: Files, z: Zip, after: Files) returns (ok: bool)
    requires IsFileSystem(before) && IsFileSystem(after)
    ensures ok <==> Packs(before, z, after)
    ensures ok <==> WorkspaceFiles(before).Ok? && ManifestOf(z) == WorkspaceFiles(before) && WorkspaceFiles(after) == WorkspaceFiles(before)
  {
    var files := CollectWorkspaceFiles(before);
    if files.Err? || z.size > MAX_ARCHIVE { return false; }
    var entries := CheckManifest(z);
    if entries != files { return false; }
    var again := CollectWorkspaceFiles(after);
    ok := again == files;
  }

  /** A file of a workspace is never called `"."`. */
  lemma SourcesHaveNames(fs: Files)
    requires IsFileSystem(fs)
    ensures "." !in SourceFiles(fs)
  {
    if "." in SourceFiles(fs) {
      var p :| p in fs && Seen(fs, p) && fs[p].File? && "." == Join(p);
      NamesArePlain(fs, p);
      SafeJoin(p);
    }
  }

  /** What was packed comes back on any root, whatever it held; a checkpoint of it then has the same content. */
  lemma PackedWorkspaceComesBack(before: Files, z: Zip, after: Files, root: Files)
    requires IsFileSystem(before) && IsFileSystem(root) && Packs(before, z, after)
    ensures Restored(root, z).Ok? && IsFileSystem(Restored(root, z).value)
    ensures WorkspaceFiles(Restored(root, z).value) == WorkspaceFiles(before)
    ensures forall z2, after2 :: Packs(Restored(root, z).value, z2, after2) ==> ManifestOf(z2) == ManifestOf(z)
  {
    SourcesHaveNames(before);
    RestoredWorkspaceIsTheManifest(root, z);
    RestoredIsAFileSystem(root, z);
  }

  /** An archive with one empty file called `"."` is accepted and cannot be restored. */
  lemma DotIsAcceptedButNotRestored(root: Files)
    requires IsFileSystem(root)
    ensures var z := Zip([Item(".", true, false, 0, [])], 100);
            ManifestOf(z) == Ok(map["." := []]) && Restored(root, z).Err?
  {
    var item := Item(".", true, false, 0, []);
    var z := Zip([item], 100);
    DotIsAdmitted(item);
    assert Scan([item]) == With(Scan([]), item) by { assert [item][..0] == []; }
    DotHasNoParts();
    assert ManifestOf(z) == Ok(map["." := []]);
    RestoredWorkspaceIsTheManifest(root, z);
  }

  lemma DotIsAdmitted(item: Item)
    requires item == Item(".", true, false, 0, [])
    ensures With(Ok(map[]), item) == Ok(map["." := []])
  {
    DotIsSafe();
  }
}
