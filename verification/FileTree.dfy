/** The file explorer's tree (`frontend/lib/files/tree.ts`). It shows the files it was given exactly when none
    of them is an ancestor of another, the rule that `manifest` checks (`agent/archive.py`). */
module FileTree {
  import opened Paths
  import Restore

  datatype Node = Node(name: string, path: string, isDirectory: bool, children: seq<Node>)

  /** `find` by name; the length when there is none. */
  function IndexOf(level: seq<Node>, name: string): (i: nat)
    ensures i <= |level|
    ensures i < |level| ==> level[i].name == name
    ensures forall j :: 0 <= j < i ==> level[j].name != name
  {
    if level == [] || level[0].name == name then 0 else 1 + IndexOf(level[1..], name)
  }

  /** One path's walk below the parts already `walked`. A file in the way is not entered: the walk stays on its level. */
  function Insert(level: seq<Node>, parts: seq<string>, walked: seq<string>): seq<Node>
    decreases |parts|
  {
    if parts == [] then level
    else
      var here := walked + [parts[0]];
      var i := IndexOf(level, parts[0]);
      if i == |level| then level + [Node(parts[0], Join(here), |parts| > 1, Insert([], parts[1..], here))]
      else if |parts| == 1 then level
      else if level[i].isDirectory then level[i := level[i].(children := Insert(level[i].children, parts[1..], here))]
      else Insert(level, parts[1..], here)
  }

  function Tree(files: seq<string>): seq<Node> {
    if files == [] then [] else Insert(Tree(files[..|files| - 1]), Split(files[|files| - 1]), [])
  }

  /** `buildFileTree`. */
  method BuildFileTree(files: seq<string>) returns (root: seq<Node>)
    ensures root == Tree(files)
    ensures Shows(root, files) <==> NoFileIsAnAncestor(files)
  {
    root := [];
    for i := 0 to |files|
      invariant root == Tree(files[..i])
    {
      assert files[..i + 1][..i] == files[..i];
      root := Insert(root, Split(files[i]), []);
    }
    assert files[..|files|] == files;
    ShowsExactlyWhenNoFileIsAnAncestor(files);
  }

  // ----- Nothing moves ----------------------------------------------------------------------------------------

  /** Every node stays where it was, at most one is added to a level, and at its end. */
  ghost predicate Grows(before: seq<Node>, after: seq<Node>)
    decreases before
  {
    && |before| <= |after| <= |before| + 1
    && forall i :: 0 <= i < |before| ==> Same(before[i], after[i])
  }

  ghost predicate Same(a: Node, b: Node)
    decreases a
  {
    a.name == b.name && a.path == b.path && a.isDirectory == b.isDirectory && Grows(a.children, b.children)
  }

  lemma {:induction false} GrowsFromItself(level: seq<Node>)
    ensures Grows(level, level)
    decreases level
  {
    forall i | 0 <= i < |level|
      ensures Same(level[i], level[i])
    {
      GrowsFromItself(level[i].children);
    }
  }

  /** Siblings stand in the order in which the list first names them. */
  lemma {:induction false} InsertMovesNothing(level: seq<Node>, parts: seq<string>, walked: seq<string>)
    ensures Grows(level, Insert(level, parts, walked))
    decreases |parts|
  {
    GrowsFromItself(level);
    if parts != [] {
      var here, i := walked + [parts[0]], IndexOf(level, parts[0]);
      forall j | 0 <= j < |level| ensures Same(level[j], level[j]) { GrowsFromItself(level[j].children); }
      if i < |level| && |parts| > 1 {
        if level[i].isDirectory { InsertMovesNothing(level[i].children, parts[1..], here); }
        else { InsertMovesNothing(level, parts[1..], here); }
      }
    }
  }

  // ----- What the tree shows --------------------------------------------------------------------------------

  /** Sibling names are distinct, every path is the join of the names from the root, files have no children. */
  ghost predicate WellFormed(level: seq<Node>, walked: seq<string>)
    decreases level
  {
    && (forall i, j :: 0 <= i < j < |level| ==> level[i].name != level[j].name)
    && (forall i :: 0 <= i < |level| ==> ValidNode(level[i], walked))
  }

  ghost predicate ValidNode(n: Node, walked: seq<string>)
    decreases n
  {
    && NoSlash(n.name)
    && n.path == Join(walked + [n.name])
    && (if n.isDirectory then n.children != [] && WellFormed(n.children, walked + [n.name]) else n.children == [])
  }

  /** The files under a node, as the names below it. */
  ghost function Below(n: Node): set<seq<string>>
    decreases n
  {
    if n.isDirectory then Leaves(n.children) else {[]}
  }

  ghost function Leaves(level: seq<Node>): set<seq<string>>
    decreases level
  {
    set i, q | 0 <= i < |level| && q in Below(level[i]) :: [level[i].name] + q
  }

  ghost function PathsBelow(n: Node): set<string>
    decreases n
  {
    if n.isDirectory then LeafPaths(n.children) else {n.path}
  }

  ghost function LeafPaths(level: seq<Node>): set<string>
    decreases level
  {
    set i, p | 0 <= i < |level| && p in PathsBelow(level[i]) :: p
  }

  ghost predicate Shows(root: seq<Node>, files: seq<string>) {
    WellFormed(root, []) && LeafPaths(root) == set f | f in files
  }

  predicate IsAncestor(a: seq<string>, b: seq<string>) {
    |a| < |b| && b[..|a|] == a
  }

  predicate NoFileIsAnAncestor(files: seq<string>) {
    forall f, g :: f in files && g in files ==> !IsAncestor(Split(f), Split(g))
  }

  /** A path fits beside others. */
  ghost predicate Apart(parts: seq<string>, leaves: set<seq<string>>) {
    forall q :: q in leaves ==> !IsAncestor(parts, q) && !IsAncestor(q, parts)
  }

  lemma {:induction false} SomeLeaf(level: seq<Node>, walked: seq<string>)
    requires WellFormed(level, walked) && level != []
    ensures exists q :: q in Leaves(level)
    decreases level
  {
    var n := level[0];
    assert ValidNode(n, walked);
    if n.isDirectory {
      SomeLeaf(n.children, walked + [n.name]);
      var q :| q in Leaves(n.children);
      assert [n.name] + q in Leaves(level);
    } else {
      assert [n.name] + [] in Leaves(level);
    }
  }

  lemma AncestorBelow(name: string, a: seq<string>, b: seq<string>)
    ensures IsAncestor([name] + a, [name] + b) <==> IsAncestor(a, b)
  {
    var x, y := [name] + a, [name] + b;
    assert x[1..] == a && y[1..] == b;
    if IsAncestor(x, y) { assert b[..|a|] == y[..|x|][1..]; }
    if IsAncestor(a, b) { assert y[..|x|] == [name] + b[..|a|]; }
  }

  /** What stands below the directory in the way is apart from the rest of the path. */
  lemma ApartBelow(level: seq<Node>, parts: seq<string>, i: nat)
    requires i < |level| && parts != [] && level[i].name == parts[0]
    requires Apart(parts, Leaves(level))
    ensures Apart(parts[1..], Below(level[i]))
  {
    forall q | q in Below(level[i])
      ensures !IsAncestor(parts[1..], q) && !IsAncestor(q, parts[1..])
    {
      var l := [parts[0]] + q;
      assert l in Leaves(level);
      assert parts == [parts[0]] + parts[1..];
      AncestorBelow(parts[0], q, parts[1..]);
      AncestorBelow(parts[0], parts[1..], q);
    }
  }

  /** Replacing one node changes the leaves below it and no others. */
  lemma LeavesOfUpdate(level: seq<Node>, i: nat, n: Node, rest: seq<string>)
    requires i < |level| && n.name == level[i].name && Below(n) == Below(level[i]) + {rest}
    ensures Leaves(level[i := n]) == Leaves(level) + {[n.name] + rest}
  {
    var a, b := Leaves(level[i := n]), Leaves(level) + {[n.name] + rest};
    forall l ensures l in a <==> l in b {
      LeafOfUpdate(level, i, n, rest, l);
    }
    SameMembers(a, b);
  }

  lemma SameMembers(a: set<seq<string>>, b: set<seq<string>>)
    requires forall l :: l in a <==> l in b
    ensures a == b
  {
  }

  lemma LeafOfUpdate(level: seq<Node>, i: nat, n: Node, rest: seq<string>, l: seq<string>)
    requires i < |level| && n.name == level[i].name && Below(n) == Below(level[i]) + {rest}
    ensures l in Leaves(level[i := n]) <==> l in Leaves(level) || l == [n.name] + rest
  {
    var now := level[i := n];
    assert rest in Below(now[i]);
    if l in Leaves(now) {
      var j, q :| 0 <= j < |now| && q in Below(now[j]) && l == [now[j].name] + q;
      LeafMoves(level, i, n, rest, j, q);
    }
    if l in Leaves(level) {
      var j, q :| 0 <= j < |level| && q in Below(level[j]) && l == [level[j].name] + q;
      assert q in Below(now[j]) && now[j].name == level[j].name;
    }
  }

  lemma LeafMoves(level: seq<Node>, i: nat, n: Node, rest: seq<string>, j: nat, q: seq<string>)
    requires i < |level| && n.name == level[i].name && Below(n) == Below(level[i]) + {rest}
    requires j < |level| && q in Below(level[i := n][j])
    ensures [level[i := n][j].name] + q in Leaves(level) || [level[i := n][j].name] + q == [n.name] + rest
  {
    if j != i { assert level[i := n][j] == level[j]; }
  }

  lemma LeavesOfAppend(level: seq<Node>, n: Node, rest: seq<string>)
    requires Below(n) == {rest}
    ensures Leaves(level + [n]) == Leaves(level) + {[n.name] + rest}
  {
    var now := level + [n];
    forall l | l in Leaves(now)
      ensures l in Leaves(level) || l == [n.name] + rest
    {
      var j, q :| 0 <= j < |now| && q in Below(now[j]) && l == [now[j].name] + q;
      assert j < |level| ==> now[j] == level[j];
    }
    forall l | l in Leaves(level)
      ensures l in Leaves(now)
    {
      var j, q :| 0 <= j < |level| && q in Below(level[j]) && l == [level[j].name] + q;
      assert now[j] == level[j];
    }
    assert now[|level|] == n && rest in Below(n);
  }

  lemma NamesStayDistinct(level: seq<Node>, walked: seq<string>, i: nat, n: Node)
    requires WellFormed(level, walked) && i <= |level| && ValidNode(n, walked)
    requires if i < |level| then n.name == level[i].name else forall j :: 0 <= j < |level| ==> level[j].name != n.name
    ensures WellFormed(if i < |level| then level[i := n] else level + [n], walked)
  {
  }

  /** A path apart from the leaves becomes one more leaf. */
  lemma {:induction false} InsertAddsALeaf(level: seq<Node>, parts: seq<string>, walked: seq<string>)
    requires WellFormed(level, walked) && parts != [] && NoSlashes(parts) && Apart(parts, Leaves(level))
    ensures var r := Insert(level, parts, walked);
            WellFormed(r, walked) && r != [] && Leaves(r) == Leaves(level) + {parts}
    decreases |parts|
  {
    var i := IndexOf(level, parts[0]);
    assert parts == [parts[0]] + parts[1..];
    if i == |level| {
      InsertsALeaf(parts, walked);
      var here := walked + [parts[0]];
      var n := Node(parts[0], Join(here), |parts| > 1, Insert([], parts[1..], here));
      LeavesOfAppend(level, n, parts[1..]);
      NamesStayDistinct(level, walked, i, n);
    } else {
      assert ValidNode(level[i], walked);
      ApartBelow(level, parts, i);
      if level[i].isDirectory {
        InsertsBelow(level, parts, walked, i);
      } else {
        assert [] in Below(level[i]);
        assert parts[1..] == [] by { assert parts[1..][..0] == []; }
        assert [parts[0]] + [] in Leaves(level);
      }
    }
  }

  lemma {:induction false} InsertsBelow(level: seq<Node>, parts: seq<string>, walked: seq<string>, i: nat)
    requires WellFormed(level, walked) && parts != [] && NoSlashes(parts)
    requires i == IndexOf(level, parts[0]) && i < |level| && level[i].isDirectory && ValidNode(level[i], walked)
    requires Apart(parts[1..], Leaves(level[i].children))
    ensures var r := Insert(level, parts, walked);
            WellFormed(r, walked) && r != [] && Leaves(r) == Leaves(level) + {[parts[0]] + parts[1..]}
    decreases |parts|, 0
  {
    var here, rest := walked + [parts[0]], parts[1..];
    var children := level[i].children;
    SomeLeaf(children, here);
    var q :| q in Leaves(children);
    LeafNotEmpty(children, q);
    assert !IsAncestor(rest, q);
    assert |parts| > 1 by { assert q[..0] == []; }
    InsertAddsALeaf(children, rest, here);
    var n := level[i].(children := Insert(children, rest, here));
    LeavesOfUpdate(level, i, n, rest);
    NamesStayDistinct(level, walked, i, n);
  }

  lemma LeafNotEmpty(level: seq<Node>, q: seq<string>)
    requires q in Leaves(level)
    ensures q != []
  {
  }

  /** The node for a path of which nothing is there yet. */
  lemma {:induction false} InsertsALeaf(parts: seq<string>, walked: seq<string>)
    requires parts != [] && NoSlashes(parts)
    ensures var here := walked + [parts[0]];
            var n := Node(parts[0], Join(here), |parts| > 1, Insert([], parts[1..], here));
            ValidNode(n, walked) && Below(n) == {parts[1..]}
    decreases |parts|, 0
  {
    var here := walked + [parts[0]];
    if |parts| > 1 {
      InsertAddsALeaf([], parts[1..], here);
      assert Leaves([]) == {};
    }
  }

  /** A leaf's path is the join of the names that lead to it. */
  lemma {:induction false} LeafHasItsPath(level: seq<Node>, walked: seq<string>, q: seq<string>)
    requires WellFormed(level, walked) && q in Leaves(level)
    ensures Join(walked + q) in LeafPaths(level)
    decreases level
  {
    var i, r :| 0 <= i < |level| && r in Below(level[i]) && q == [level[i].name] + r;
    var n := level[i];
    assert ValidNode(n, walked);
    assert walked + q == (walked + [n.name]) + r;
    if n.isDirectory {
      LeafHasItsPath(n.children, walked + [n.name], r);
    } else {
      assert walked + q == walked + [n.name];
    }
    assert Join(walked + q) in PathsBelow(n);
  }

  lemma {:induction false} LeafOf(level: seq<Node>, walked: seq<string>, p: string) returns (q: seq<string>)
    requires WellFormed(level, walked) && p in LeafPaths(level)
    ensures q in Leaves(level) && p == Join(walked + q)
    decreases level
  {
    var i :| 0 <= i < |level| && p in PathsBelow(level[i]);
    var n := level[i];
    assert ValidNode(n, walked);
    var r: seq<string> := [];
    if n.isDirectory {
      r := LeafOf(n.children, walked + [n.name], p);
    } else {
      assert (walked + [n.name]) + [] == walked + [n.name];
    }
    assert r in Below(n);
    q := [n.name] + r;
    assert walked + q == (walked + [n.name]) + r;
  }

  lemma {:induction false} LeavesHaveNoSlash(level: seq<Node>, walked: seq<string>)
    requires WellFormed(level, walked)
    ensures forall q :: q in Leaves(level) ==> q != [] && NoSlashes(q)
    decreases level
  {
    forall q | q in Leaves(level)
      ensures q != [] && NoSlashes(q)
    {
      var i, r :| 0 <= i < |level| && r in Below(level[i]) && q == [level[i].name] + r;
      assert ValidNode(level[i], walked);
      if level[i].isDirectory { LeavesHaveNoSlash(level[i].children, walked + [level[i].name]); }
      else { assert r == []; }
      assert NoSlashes(r) && NoSlash(level[i].name);
      forall k | 0 <= k < |q|
        ensures NoSlash(q[k])
      {
        assert q[k] == if k == 0 then level[i].name else r[k - 1];
      }
    }
  }

  /** In a well-formed tree no leaf can lie below another. */
  lemma {:induction false} LeavesAreApart(level: seq<Node>, walked: seq<string>, a: seq<string>, b: seq<string>)
    requires WellFormed(level, walked) && a in Leaves(level) && b in Leaves(level)
    ensures !IsAncestor(a, b)
    decreases level
  {
    var i, q :| 0 <= i < |level| && q in Below(level[i]) && a == [level[i].name] + q;
    var j, r :| 0 <= j < |level| && r in Below(level[j]) && b == [level[j].name] + r;
    assert ValidNode(level[i], walked);
    if IsAncestor(a, b) {
      assert b[..|a|][0] == b[0];
      assert i == j;
      AncestorBelow(level[i].name, q, r);
      if level[i].isDirectory { LeavesAreApart(level[i].children, walked + [level[i].name], q, r); }
    }
  }

  ghost function SplitAll(files: seq<string>): set<seq<string>> {
    set f | f in files :: Split(f)
  }

  lemma {:induction false} TreeHasTheFiles(files: seq<string>)
    requires NoFileIsAnAncestor(files)
    ensures WellFormed(Tree(files), [])
    ensures Leaves(Tree(files)) == SplitAll(files)
  {
    if files == [] {
      assert Leaves([]) == {};
    } else {
      var init, last := files[..|files| - 1], files[|files| - 1];
      assert files == init + [last];
      assert last in files && forall f :: f in init ==> f in files;
      TreeHasTheFiles(init);
      assert Apart(Split(last), SplitAll(init));
      JoinSplit(last);
      InsertAddsALeaf(Tree(init), Split(last), []);
      SplitAllOneMore(init, last);
    }
  }

  lemma SplitAllOneMore(init: seq<string>, last: string)
    ensures SplitAll(init + [last]) == SplitAll(init) + {Split(last)}
  {
  }

  /** The tree shows the files, each at its place and nothing else, if and only if no file is an ancestor. */
  lemma ShowsExactlyWhenNoFileIsAnAncestor(files: seq<string>)
    ensures Shows(Tree(files), files) <==> NoFileIsAnAncestor(files)
  {
    if NoFileIsAnAncestor(files) {
      TreeHasTheFiles(files);
      LeavesToPaths(Tree(files), files);
    }
    if Shows(Tree(files), files) {
      forall f, g | f in files && g in files
        ensures !IsAncestor(Split(f), Split(g))
      {
        FileIsALeaf(Tree(files), f);
        FileIsALeaf(Tree(files), g);
        LeavesAreApart(Tree(files), [], Split(f), Split(g));
      }
    }
  }

  lemma LeavesToPaths(t: seq<Node>, files: seq<string>)
    requires WellFormed(t, []) && Leaves(t) == SplitAll(files)
    ensures LeafPaths(t) == set f | f in files
  {
    forall f | f in files
      ensures f in LeafPaths(t)
    {
      JoinSplit(f);
      LeafHasItsPath(t, [], Split(f));
      assert [] + Split(f) == Split(f);
    }
    forall p | p in LeafPaths(t)
      ensures p in files
    {
      var q := LeafOf(t, [], p);
      assert [] + q == q;
      var f :| f in files && Split(f) == q;
      JoinSplit(f);
    }
  }

  /** The files of any archive that `manifest` accepts make a tree that shows them. */
  lemma CheckpointsMakeATree(z: Restore.Zip, files: seq<string>)
    requires Restore.ManifestOf(z).Ok? && forall f :: f in files ==> f in Restore.ManifestOf(z).value
    ensures Shows(Tree(files), files)
  {
    var m := Restore.ManifestOf(z).value;
    forall f, g | f in files && g in files
      ensures !IsAncestor(Split(f), Split(g))
    {
      AncestorConflicts(m, f, g);
    }
    ShowsExactlyWhenNoFileIsAnAncestor(files);
  }

  lemma AncestorConflicts(m: map<string, seq<bv8>>, f: string, g: string)
    requires f in m
    ensures IsAncestor(Split(f), Split(g)) ==> Restore.Conflicts(m, g)
  {
    JoinSplit(f);
    if IsAncestor(Split(f), Split(g)) {
      assert Join(Split(g)[..|Split(f)|]) in m;
    }
  }

  lemma FileIsALeaf(t: seq<Node>, f: string)
    requires WellFormed(t, []) && f in LeafPaths(t)
    ensures Split(f) in Leaves(t)
  {
    LeavesHaveNoSlash(t, []);
    var q := LeafOf(t, [], f);
    assert [] + q == q;
    SplitJoin(q);
  }

  /** A file listed before one under it leaves that one at the wrong place; listed after it, it is lost. */
  lemma AncestorsAreMisplaced()
    ensures Tree(["a", "a/b"]) == [Node("a", "a", false, []), Node("b", "a/b", false, [])]
    ensures Tree(["a/b", "a"]) == [Node("a", "a", true, [Node("b", "a/b", false, [])])]
  {
    SplitJoin(["a"]);
    SplitJoin(["a", "b"]);
    assert ["a", "b"][1..] == ["b"];
    TreeOfTwo("a", "a/b");
    TreeOfTwo("a/b", "a");
    MisplacedSteps();
  }

  lemma TreeOfTwo(f: string, g: string)
    ensures Tree([f, g]) == Insert(Insert([], Split(f), []), Split(g), [])
  {
    assert [f, g][..1] == [f] && [f][..0] == [];
    assert Tree([f]) == Insert([], Split(f), []);
  }

  lemma MisplacedSteps()
    ensures Insert(Insert([], ["a"], []), ["a", "b"], []) == [Node("a", "a", false, []), Node("b", "a/b", false, [])]
    ensures Insert(Insert([], ["a", "b"], []), ["a"], []) == [Node("a", "a", true, [Node("b", "a/b", false, [])])]
  {
    var a := Node("a", "a", false, []);
    assert ["a", "b"][1..] == ["b"] && ["a"] + ["b"] == ["a", "b"] && [] + ["a"] == ["a"];
    assert Join(["a", "b"]) == "a/b";
    AddsALastPart([], "a", []);
    AddsALastPart([], "b", ["a"]);
    AddsALastPart([a], "b", ["a"]);
    var d := Node("a", "a", true, [Node("b", "a/b", false, [])]);
    assert Insert([], ["a", "b"][1..], [] + ["a"]) == d.children && Join([] + ["a"]) == "a";
    assert Insert([], ["a", "b"], []) == [] + [Node("a", "a", true, d.children)];
    assert IndexOf([d], "a") == 0;
  }

  lemma AddsALastPart(level: seq<Node>, name: string, walked: seq<string>)
    requires forall i :: 0 <= i < |level| ==> level[i].name != name
    ensures Insert(level, [name], walked) == level + [Node(name, Join(walked + [name]), false, [])]
  {
    assert [name][1..] == [];
  }
}
