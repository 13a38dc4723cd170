/** Slash-separated paths as `PurePosixPath` and `String.split("/")` read them. */
module Paths {

  predicate NoSlash(part: string) {
    forall i :: 0 <= i < |part| ==> part[i] != '/'
  }

  predicate NoSlashes(parts: seq<string>) {
    forall i :: 0 <= i < |parts| ==> NoSlash(parts[i])
  }

  function Join(parts: seq<string>): string {
    if parts == [] then ""
    else if |parts| == 1 then parts[0]
    else parts[0] + "/" + Join(parts[1..])
  }

  function Split(s: string): (parts: seq<string>)
    ensures parts != []
  {
    if s == "" then [""]
    else
      var rest := Split(s[1..]);
      if s[0] == '/' then [""] + rest else [[s[0]] + rest[0]] + rest[1..]
  }

  lemma JoinSplit(s: string)
    ensures Join(Split(s)) == s && NoSlashes(Split(s))
  {
    JoinOfSplit(s);
    SplitHasNoSlash(s);
  }

  lemma {:induction false} JoinOfSplit(s: string)
    ensures Join(Split(s)) == s
  {
    if s != "" {
      var rest := Split(s[1..]);
      JoinOfSplit(s[1..]);
      if s[0] == '/' {
        assert ([""] + rest)[1..] == rest;
      } else {
        assert Split(s)[1..] == rest[1..];
      }
    }
  }

  lemma {:induction false} SplitHasNoSlash(s: string)
    ensures NoSlashes(Split(s))
  {
    if s != "" {
      var rest := Split(s[1..]);
      SplitHasNoSlash(s[1..]);
      assert NoSlash(rest[0]);
    }
  }

  /** Splitting is the inverse of joining, so that a path has one list of parts. */
  lemma {:induction false} SplitJoin(parts: seq<string>)
    requires parts != [] && NoSlashes(parts)
    ensures Split(Join(parts)) == parts
    decreases |Join(parts)|, |parts|
  {
    var s := Join(parts);
    if parts[0] == "" {
      if |parts| > 1 {
        assert s == "/" + Join(parts[1..]);
        assert s[1..] == Join(parts[1..]);
        SplitJoin(parts[1..]);
        assert [""] + parts[1..] == parts;
      } else {
        assert parts == [""];
      }
    } else {
      assert NoSlash(parts[0]);
      var tail := [parts[0][1..]] + parts[1..];
      assert NoSlash(parts[0][1..]);
      assert tail[1..] == parts[1..];
      assert s[1..] == Join(tail);
      SplitJoin(tail);
      assert s[0] == parts[0][0] && s[0] != '/';
      assert [s[0]] + tail[0] == parts[0];
      assert [parts[0]] + parts[1..] == parts;
    }
  }

  lemma {:induction false} JoinAppend(a: seq<string>, b: seq<string>)
    requires a != [] && b != []
    ensures Join(a + b) == Join(a) + "/" + Join(b)
  {
    if |a| == 1 {
      assert (a + b)[1..] == b;
    } else {
      assert (a + b)[1..] == a[1..] + b;
      JoinAppend(a[1..], b);
    }
  }

  /** Joining adds no character but the slash, splitting none at all. */
  lemma {:induction false} JoinHas(parts: seq<string>, c: char)
    requires c != '/' && c in Join(parts)
    ensures exists i :: 0 <= i < |parts| && c in parts[i]
  {
    if |parts| > 1 && c !in parts[0] {
      assert c in Join(parts[1..]);
      JoinHas(parts[1..], c);
      var i :| 0 <= i < |parts[1..]| && c in parts[1..][i];
      assert c in parts[i + 1];
    } else {
      assert c in parts[0];
    }
  }

  lemma {:induction false} SplitHas(s: string, c: char, i: nat)
    requires i < |Split(s)| && c in Split(s)[i]
    ensures c in s
  {
    if s != "" {
      var rest := Split(s[1..]);
      if s[0] == '/' {
        SplitHas(s[1..], c, i - 1);
      } else if i > 0 {
        SplitHas(s[1..], c, i);
      } else if c != s[0] {
        assert Split(s)[0] == [s[0]] + rest[0];
        SplitHas(s[1..], c, 0);
      }
    }
  }

  // ----- PurePosixPath -------------------------------------------------------------------------------------

  predicate IsAbsolute(name: string) {
    name != "" && name[0] == '/'
  }

  function Kept(parts: seq<string>): seq<string> {
    if parts == [] then []
    else (if parts[0] == "" || parts[0] == "." then [] else [parts[0]]) + Kept(parts[1..])
  }

  lemma {:induction false} KeptMeans(parts: seq<string>)
    ensures var r := Kept(parts);
            && |r| <= |parts| && (|r| == |parts| ==> r == parts)
            && forall p :: p in r <==> p in parts && p != "" && p != "."
  {
    if parts != [] {
      KeptMeans(parts[1..]);
    }
  }

  /** What is kept stays in order. */
  lemma {:induction false} KeptAppend(a: seq<string>, b: seq<string>)
    ensures Kept(a + b) == Kept(a) + Kept(b)
  {
    if a == [] {
      assert a + b == b;
    } else {
      assert (a + b)[1..] == a[1..] + b;
      KeptAppend(a[1..], b);
    }
  }

  /** The parts of a path, without the root of an absolute one. */
  function Parts(name: string): seq<string> {
    Kept(Split(name))
  }

  /** `str` of a relative path. */
  function Str(name: string): string {
    if Parts(name) == [] then "." else Join(Parts(name))
  }

  lemma PartsMean(name: string)
    ensures NoSlashes(Parts(name)) && forall p :: p in Parts(name) ==> p != "" && p != "."
  {
    JoinSplit(name);
    KeptMeans(Split(name));
    forall i | 0 <= i < |Parts(name)|
      ensures NoSlash(Parts(name)[i])
    {
      assert Parts(name)[i] in Split(name);
    }
  }

  /** A path that `str` leaves alone is `"."` or a list of plain parts. */
  lemma StrFixed(name: string)
    ensures Str(name) == name <==> name == "." || Parts(name) == Split(name)
  {
    PartsMean(name);
    JoinSplit(name);
    if Parts(name) == [] {
    } else if Str(name) == name {
      SplitJoin(Parts(name));
    }
    if name == "." {
      DotHasNoParts();
    }
  }

  lemma DotHasNoParts()
    ensures Parts(".") == [] && Split(".") == ["."]
  {
    SplitJoin(["."]);
    assert Join(["."]) == ".";
    assert Kept(["."][1..]) == [];
  }

  /** Normalising keeps the parts. */
  lemma StrKeepsParts(name: string)
    ensures Parts(Str(name)) == Parts(name) && Str(name) != "" && !IsAbsolute(Str(name))
  {
    var p := Parts(name);
    PartsMean(name);
    DotHasNoParts();
    if p != [] {
      SplitJoin(p);
      assert forall i :: 0 <= i < |p| ==> p[i] in p;
      KeptAll(p);
      assert p[0] != "" && NoSlash(p[0]) && p[0] <= Join(p);
    }
  }

  /** Normalising adds no character but slashes, and a single dot for nothing. */
  lemma StrHas(name: string, c: char)
    requires c in Str(name) && c != '/' && c != '.'
    ensures c in name
  {
    var p := Parts(name);
    if p != [] {
      JoinHas(p, c);
      var i :| 0 <= i < |p| && c in p[i];
      KeptMeans(Split(name));
      assert p[i] in Split(name);
      var k :| 0 <= k < |Split(name)| && Split(name)[k] == p[i];
      SplitHas(name, c, k);
    }
  }

  lemma {:induction false} KeptAll(parts: seq<string>)
    requires forall i :: 0 <= i < |parts| ==> parts[i] != "" && parts[i] != "."
    ensures Kept(parts) == parts
  {
    if parts != [] {
      KeptAll(parts[1..]);
    }
  }
}
