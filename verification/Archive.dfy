/** Project archives (`agent/archive.py`) over an abstract file system. A digest stands for the bytes it was
    taken of, so that a `files` map is a map from names to contents. */
module Archive {
  import opened Wrappers
  import opened Paths

  type Bytes = seq<bv8>

  /** Everything but a directory or a regular file: links, sockets, devices. */
  datatype Node = Dir | File(data: Bytes) | Link | Special

  /** Nodes by the names that lead to them from the root, which is `[]`. */
  type Files = map<seq<string>, Node>

  const MAX_FILES := 250
  const MAX_BYTES := 32 * 1024 * 1024
  const MAX_ARCHIVE := 10 * 1024 * 1024
  const EXCLUDED: set<string> := {".git", ".env", ".venv", "node_modules", "dist", ".next", ".cache", "__pycache__"}

  predicate Plain(name: string) {
    name != "" && name != "." && name != ".." && NoSlash(name)
  }

  /** Every node but the root lies in a directory under a name a directory can hold. */
  predicate IsFileSystem(fs: Files) {
    && [] in fs && fs[[]] == Dir
    && forall p :: p in fs && p != [] ==> Plain(p[|p| - 1]) && p[..|p| - 1] in fs && fs[p[..|p| - 1]] == Dir
  }

  // ----- Paths -------------------------------------------------------------------------------------------------

  predicate Excluded(part: string) {
    part in EXCLUDED || (|part| >= 5 && part[..5] == ".env.")
  }

  predicate AllowedParts(parts: seq<string>) {
    forall i :: 0 <= i < |parts| ==> !Excluded(parts[i])
  }

  predicate SafeChars(name: string) {
    forall i :: 0 <= i < |name| ==> name[i] != '\\' && name[i] != ':' && name[i] >= ' '
  }

  /** `safe_path` accepts the name. */
  predicate SafePath(name: string) {
    && name != "" && |name| <= 512 && !IsAbsolute(name) && ".." !in Parts(name)
    && SafeChars(name) && Str(name) == name && AllowedParts(Parts(name))
  }

  predicate AllPlain(parts: seq<string>) {
    forall i :: 0 <= i < |parts| ==> Plain(parts[i])
  }

  /** What a safe path is, `"."` aside: plain parts that are not excluded. */
  lemma SafePathMeans(name: string)
    requires name != "."
    ensures SafePath(name) <==> AllPlain(Split(name)) && AllowedParts(Split(name)) && |name| <= 512 && SafeChars(name)
  {
    if SafePath(name) { SafeIsPlain(name); }
    if AllPlain(Split(name)) { PlainNameIsFixed(name); }
  }

  /** The same written out: at most 512 characters, none of them a backslash, a colon or a control character, and every
      part between slashes a plain name that is neither excluded nor an environment file. */
  lemma SafeNames(name: string)
    requires name != "."
    ensures SafePath(name) <==>
      && |name| <= 512 && (forall i :: 0 <= i < |name| ==> name[i] != '\\' && name[i] != ':' && name[i] as int >= 32)
      && forall i :: 0 <= i < |Split(name)| ==>
           var part := Split(name)[i];
           && part != "" && part != "." && part != ".."
           && part != ".git" && part != ".env" && part != ".venv" && part != "node_modules" && part != "dist"
           && part != ".next" && part != ".cache" && part != "__pycache__" && !(".env." <= part)
  {
    SafePathMeans(name);
    JoinSplit(name);
    forall i | 0 <= i < |Split(name)|
      ensures NoSlash(Split(name)[i])
      ensures Excluded(Split(name)[i]) <==>
        var part := Split(name)[i];
        part in {".git", ".env", ".venv", "node_modules", "dist", ".next", ".cache", "__pycache__"} || ".env." <= part
    {
    }
    SafeCharsMean(name);
  }

  lemma SafeCharsMean(name: string)
    ensures SafeChars(name) <==> forall i :: 0 <= i < |name| ==> name[i] != '\\' && name[i] != ':' && name[i] as int >= 32
  {
    assert ' ' as int == 32;
  }

  lemma DotIsSafe()
    ensures SafePath(".")
  {
    DotHasNoParts();
  }

  lemma SafeIsPlain(name: string)
    requires Str(name) == name && name != "." && ".." !in Parts(name) && AllowedParts(Parts(name))
    ensures AllPlain(Split(name)) && AllowedParts(Split(name))
  {
    StrFixed(name);
    SafePartsArePlain(name);
  }

  lemma SafePartsArePlain(name: string)
    requires Parts(name) == Split(name) && ".." !in Parts(name)
    ensures AllPlain(Split(name))
  {
    var parts := Split(name);
    JoinSplit(name);
    PartsMean(name);
    forall i | 0 <= i < |parts|
      ensures Plain(parts[i])
    {
      assert NoSlash(parts[i]) && parts[i] in Parts(name);
    }
  }

  lemma PlainNameIsFixed(name: string)
    requires AllPlain(Split(name))
    ensures Parts(name) == Split(name) && ".." !in Parts(name) && name != "" && !IsAbsolute(name) && Str(name) == name
  {
    var parts := Split(name);
    assert forall i :: 0 <= i < |parts| ==> Plain(parts[i]);
    KeptAll(parts);
    assert Plain(parts[0]);
    FirstPart(name);
    StrFixed(name);
  }

  lemma FirstPart(name: string)
    ensures name == "" || IsAbsolute(name) ==> Split(name)[0] == ""
  {
  }

  /** A path in the file system under its name in the archive. */
  lemma SafeJoin(p: seq<string>)
    requires p != [] && AllPlain(p)
    ensures Split(Join(p)) == p && Join(p) != "."
    ensures SafePath(Join(p)) <==> AllowedParts(p) && |Join(p)| <= 512 && SafeChars(Join(p))
  {
    SplitJoin(p);
    SplitJoin(["."]);
    assert Join(["."]) == "." && !Plain(".") && Plain(p[0]) && Join(p) != ".";
    SafePathMeans(Join(p));
  }

  lemma JoinIsPrefix(p: seq<string>, k: nat)
    requires 0 < k <= |p|
    ensures Join(p[..k]) <= Join(p)
  {
    if k < |p| {
      JoinAppend(p[..k], p[k..]);
      assert p == p[..k] + p[k..];
    } else {
      assert p[..k] == p;
    }
  }

  /** The directories above a safe path are safe too. */
  lemma AncestorsAreSafe(p: seq<string>, k: nat)
    requires 0 < k <= |p| && AllPlain(p) && SafePath(Join(p))
    ensures SafePath(Join(p[..k]))
  {
    JoinIsPrefix(p, k);
    SafeJoin(p);
    SafeJoin(p[..k]);
    PrefixIsSafe(Join(p[..k]), Join(p));
  }

  lemma PrefixIsSafe(a: string, name: string)
    requires a <= name && SafeChars(name)
    ensures SafeChars(a)
  {
  }

  // ----- The workspace ----------------------------------------------------------------------------------------

  type Manifest = map<string, Bytes>

  ghost function TotalSize(m: Manifest): nat {
    if m == map[] then 0
    else
      var name :| name in m;
      |m[name]| + TotalSize(m - {name})
  }

  /** What the walk looks at: everything allowed but the root. */
  predicate Seen(fs: Files, p: seq<string>) {
    p in fs && p != [] && AllowedParts(p)
  }

  predicate Acceptable(fs: Files, p: seq<string>)
    requires p in fs
  {
    SafePath(Join(p)) && (fs[p].Dir? || fs[p].File?)
  }

  ghost function SourceFiles(fs: Files): Manifest {
    map n | n in SourceNames(fs) && Split(n) in fs && fs[Split(n)].File? :: fs[Split(n)].data
  }

  ghost function SourceNames(fs: Files): set<string> {
    set p | p in fs && Seen(fs, p) && fs[p].File? :: Join(p)
  }

  /** `workspace_files`. Which of several violations is reported is not part of this model. */
  ghost function WorkspaceFiles(fs: Files): Result<Manifest, ()> {
    if (forall p :: p in fs && Seen(fs, p) ==> Acceptable(fs, p))
       && TotalSize(SourceFiles(fs)) <= MAX_BYTES && |SourceFiles(fs)| <= MAX_FILES
    then Ok(SourceFiles(fs)) else Err(())
  }

  lemma {:induction false} TotalSizeAdd(m: Manifest, name: string, data: Bytes)
    requires name !in m
    ensures TotalSize(m[name := data]) == TotalSize(m) + |data|
    decreases |m|
  {
    var w := m[name := data];
    assert name in w;
    var first :| first in w && TotalSize(w) == |w[first]| + TotalSize(w - {first});
    if first == name {
      assert w - {first} == m;
    } else {
      var less := m - {first};
      assert w - {first} == less[name := data];
      TotalSizeAdd(less, name, data);
      assert less[first := m[first]] == m;
      TotalSizeAdd(less, first, m[first]);
    }
  }

  lemma {:induction false} TotalSizeMonotone(a: Manifest, b: Manifest)
    requires forall n :: n in a ==> n in b && a[n] == b[n]
    ensures TotalSize(a) <= TotalSize(b) && |a| <= |b|
    decreases |a|
  {
    if a != map[] {
      var n :| n in a;
      var a', b' := a - {n}, b - {n};
      TotalSizeMonotone(a', b');
      assert a'[n := a[n]] == a && b'[n := b[n]] == b;
      TotalSizeAdd(a', n, a[n]);
      TotalSizeAdd(b', n, b[n]);
    }
  }

  /** The sources whose paths the walk has passed. */
  ghost function Passed(sources: Manifest, todo: set<seq<string>>): Manifest {
    map n | n in sources && Split(n) !in todo :: sources[n]
  }

  lemma {:induction false} NamesArePlain(fs: Files, p: seq<string>)
    requires IsFileSystem(fs) && p in fs
    ensures AllPlain(p)
  {
    if p != [] {
      var q := p[..|p| - 1];
      NamesArePlain(fs, q);
      assert forall i :: 0 <= i < |q| ==> p[i] == q[i];
    }
  }

  lemma SourceAt(fs: Files, p: seq<string>)
    requires IsFileSystem(fs) && p in fs
    ensures Seen(fs, p) && fs[p].File? ==> Split(Join(p)) == p && Join(p) in SourceFiles(fs) && SourceFiles(fs)[Join(p)] == fs[p].data
    ensures forall n :: n in SourceFiles(fs) && Split(n) == p ==> n == Join(p) && Seen(fs, p) && fs[p].File?
  {
    NamesArePlain(fs, p);
    if Seen(fs, p) && fs[p].File? {
      SplitJoin(p);
      assert Join(p) in SourceNames(fs);
    }
    forall n | n in SourceFiles(fs) && Split(n) == p
      ensures n == Join(p) && Seen(fs, p) && fs[p].File?
    {
      var q :| q in fs && Seen(fs, q) && fs[q].File? && n == Join(q);
      NamesArePlain(fs, q);
      SplitJoin(q);
    }
  }

  lemma OneMore(sources: Manifest, was: Manifest, n: string)
    requires n in sources && n !in was && forall k :: k in was ==> k in sources && was[k] == sources[k]
    ensures var now := was[n := sources[n]];
            && TotalSize(now) == TotalSize(was) + |sources[n]| && |now| == |was| + 1
            && TotalSize(now) <= TotalSize(sources) && |now| <= |sources|
  {
    var now := was[n := sources[n]];
    TotalSizeAdd(was, n, sources[n]);
    TotalSizeMonotone(now, sources);
    OneMoreKey(was, n, sources[n]);
  }

  lemma OneMoreKey(was: Manifest, n: string, data: Bytes)
    requires n !in was
    ensures |was[n := data]| == |was| + 1
  {
    assert was[n := data].Keys == was.Keys + {n};
  }

  lemma PassSource(sources: Manifest, todo: set<seq<string>>, n: string, p: seq<string>)
    requires n in sources && p == Split(n) && p in todo
    ensures n !in Passed(sources, todo)
    ensures Passed(sources, todo - {p}) == Passed(sources, todo)[n := sources[n]]
  {
    forall k | k in sources && Split(k) == p
      ensures k == n
    {
      JoinSplit(k);
      JoinSplit(n);
    }
  }

  lemma PassOther(sources: Manifest, todo: set<seq<string>>, p: seq<string>)
    requires forall n :: n in sources ==> Split(n) != p
    ensures Passed(sources, todo - {p}) == Passed(sources, todo)
  {
  }

  /** One path passed: a source is one more file, anything else changes nothing. */
  lemma PassOne(fs: Files, todo: set<seq<string>>, p: seq<string>)
    requires IsFileSystem(fs) && p in fs && p in todo
    ensures var sources := SourceFiles(fs);
            var was, now := Passed(sources, todo), Passed(sources, todo - {p});
            && TotalSize(now) <= TotalSize(sources) && |now| <= |sources|
            && (if Seen(fs, p) && fs[p].File?
                then now == was[Join(p) := fs[p].data]
                     && TotalSize(now) == TotalSize(was) + |fs[p].data| && |now| == |was| + 1
                else now == was)
  {
    SourceAt(fs, p);
    if Seen(fs, p) && fs[p].File? {
      PassSource(SourceFiles(fs), todo, Join(p), p);
      OneMore(SourceFiles(fs), Passed(SourceFiles(fs), todo), Join(p));
    } else {
      PassOther(SourceFiles(fs), todo, p);
      TotalSizeMonotone(Passed(SourceFiles(fs), todo), SourceFiles(fs));
    }
  }

  ghost predicate AllAcceptable(fs: Files, paths: set<seq<string>>) {
    forall p :: p in fs && p in paths && Seen(fs, p) ==> Acceptable(fs, p)
  }

  lemma WalkEnds(fs: Files)
    ensures WorkspaceFiles(fs) ==
            if AllAcceptable(fs, fs.Keys) && TotalSize(SourceFiles(fs)) <= MAX_BYTES && |SourceFiles(fs)| <= MAX_FILES
            then Ok(SourceFiles(fs)) else Err(())
  {
  }

  /** Where the walk stands when it still has `todo` to look at. */
  ghost predicate Walked(fs: Files, todo: set<seq<string>>, files: Manifest, total: nat) {
    && todo <= fs.Keys && AllAcceptable(fs, fs.Keys - todo) && files == Passed(SourceFiles(fs), todo)
    && total == TotalSize(files) && total <= MAX_BYTES && |files| <= MAX_FILES
  }

  lemma AcceptOne(fs: Files, todo: set<seq<string>>, p: seq<string>)
    requires AllAcceptable(fs, fs.Keys - todo) && p in todo && p in fs
    requires Seen(fs, p) ==> Acceptable(fs, p)
    ensures AllAcceptable(fs, fs.Keys - (todo - {p}))
  {
    forall q | q in fs && q in fs.Keys - (todo - {p}) && Seen(fs, q)
      ensures Acceptable(fs, q)
    {
      assert q == p || q in fs.Keys - todo;
    }
  }

  lemma WalkRejects(fs: Files, p: seq<string>)
    requires p in fs && Seen(fs, p) && !Acceptable(fs, p)
    ensures WorkspaceFiles(fs).Err?
  {
  }

  lemma WalkSkips(fs: Files, todo: set<seq<string>>, p: seq<string>, files: Manifest, total: nat)
    requires IsFileSystem(fs) && Walked(fs, todo, files, total) && p in todo
    requires (Seen(fs, p) ==> Acceptable(fs, p)) && !(Seen(fs, p) && fs[p].File?)
    ensures Walked(fs, todo - {p}, files, total)
  {
    PassOne(fs, todo, p);
    AcceptOne(fs, todo, p);
  }

  lemma WalkAdds(fs: Files, todo: set<seq<string>>, p: seq<string>, files: Manifest, total: nat)
    requires IsFileSystem(fs) && Walked(fs, todo, files, total) && p in todo
    requires Seen(fs, p) && fs[p].File? && Acceptable(fs, p)
    ensures if total + |fs[p].data| > MAX_BYTES || |files| >= MAX_FILES then WorkspaceFiles(fs).Err?
            else Walked(fs, todo - {p}, files[Join(p) := fs[p].data], total + |fs[p].data|)
  {
    PassOne(fs, todo, p);
    AcceptOne(fs, todo, p);
    WalkEnds(fs);
  }

  /** Nothing above the path, nor itself, is excluded. */
  predicate Visible(fs: Files, p: seq<string>) {
    p in fs && p != [] && forall i :: 0 <= i < |p| ==> p[i] !in EXCLUDED && !(".env." <= p[i])
  }

  lemma VisibleIsSeen(fs: Files, p: seq<string>)
    ensures Visible(fs, p) <==> Seen(fs, p)
  {
  }

  /** What the walk returns: the visible regular files under their names and nothing else, if there are at most 250 of
      them with 32 MiB, every visible node has a safe name, and none is a link or a device. */
  lemma WorkspaceFilesMeans(fs: Files)
    requires IsFileSystem(fs)
    ensures WorkspaceFiles(fs)
            == if (forall p :: p in fs ==> Clean(fs, p)) && TotalSize(SourceFiles(fs)) <= 33_554_432 && |SourceFiles(fs)| <= 250
               then Ok(SourceFiles(fs)) else Err(())
  {
    WalkEnds(fs);
    forall p | p in fs
      ensures Clean(fs, p) <==> (Seen(fs, p) ==> Acceptable(fs, p))
    {
      VisibleIsSeen(fs, p);
    }
    assert AllAcceptable(fs, fs.Keys) <==> forall p :: p in fs ==> Clean(fs, p);
  }

  /** Invisible, or a directory or regular file with a safe name. */
  predicate Clean(fs: Files, p: seq<string>)
    requires p in fs
  {
    Visible(fs, p) ==> SafePath(Join(p)) && !fs[p].Link? && !fs[p].Special?
  }

  /** And which files those are: each visible one under its own name, with its bytes. */
  lemma SourceFilesMean(fs: Files, n: string)
    requires IsFileSystem(fs)
    ensures n in SourceFiles(fs) <==> Visible(fs, Split(n)) && fs[Split(n)].File?
    ensures n in SourceFiles(fs) ==> fs[Split(n)] == File(SourceFiles(fs)[n])
  {
    VisibleIsSeen(fs, Split(n));
    JoinSplit(n);
    if Split(n) in fs { SourceAt(fs, Split(n)); }
  }

  /** The walk, in any order. */
  method CollectWorkspaceFiles(fs: Files) returns (r: Result<Manifest, ()>)
    requires IsFileSystem(fs)
    ensures r == WorkspaceFiles(fs)
  {
    var files: Manifest, total: nat := map[], 0;
    var todo := fs.Keys;
    NonePassed(fs);
    while todo != {}
      invariant Walked(fs, todo, files, total)
      decreases todo
    {
      var p :| p in todo;
      if Seen(fs, p) && !Acceptable(fs, p) {
        WalkRejects(fs, p);
        return Err(());
      }
      ghost var before := todo;
      todo := todo - {p};
      if !Seen(fs, p) || !fs[p].File? {
        WalkSkips(fs, before, p, files, total);
      } else {
        WalkAdds(fs, before, p, files, total);
        total := total + |fs[p].data|;
        if total > MAX_BYTES || |files| >= MAX_FILES { return Err(()); }
        files := files[Join(p) := fs[p].data];
      }
    }
    WalkEnds(fs);
    NothingLeft(SourceFiles(fs));
    r := Ok(files);
  }

  lemma NothingLeft(sources: Manifest)
    ensures Passed(sources, {}) == sources
  {
  }

  lemma NonePassed(fs: Files)
    requires IsFileSystem(fs)
    ensures Passed(SourceFiles(fs), fs.Keys) == map[] && TotalSize(map[]) == 0
  {
  }
}
