/** Slash-relative deployment paths: their ancestor directories, and the check
    that no deployed artifact is a directory of another. */
module Paths {
  import opened Ordering

  datatype Artifact = Artifact(path: string, content: seq<int>)

  function LastSlash(p: string): (i: int)
    ensures -1 <= i < |p|
    ensures i >= 0 ==> p[i] == '/'
    ensures forall k | i < k < |p| :: p[k] != '/'
  {
    if p == "" then -1 else if p[|p| - 1] == '/' then |p| - 1 else LastSlash(p[..|p| - 1])
  }

  const Root: string := "."

  /** The directory that holds a clean relative path. */
  function Dir(p: string): (d: string)
    ensures d != Root ==> |d| < |p|
  {
    if LastSlash(p) < 0 then Root else p[..LastSlash(p)]
  }

  /** A clean relative path never starts at the root or with a dot component. */
  predicate Relative(p: string) {
    p != "" && p != Root && p[0] != '/' && !(|p| > 1 && p[0] == '.' && p[1] == '/')
  }

  /** Its ancestor directories below the root, outermost first. */
  function Ancestors(p: string): seq<string>
    decreases |p|
  {
    if Dir(p) == Root then [] else Ancestors(Dir(p)) + [Dir(p)]
  }

  /** a is a proper ancestor directory of p: p goes on below it. */
  predicate AncestorOf(a: string, p: string) {
    |a| < |p| && p[..|a|] == a && p[|a|] == '/'
  }

  lemma {:induction false} AncestorsAreAncestors(p: string, a: string)
    requires a in Ancestors(p)
    ensures AncestorOf(a, p)
    decreases |p|
  {
    var d := Dir(p);
    assert p[..|d|] == d && p[|d|] == '/';
    if a != d {
      AncestorsAreAncestors(d, a);
      assert p[..|a|] == d[..|a|] && p[|a|] == d[|a|];
    }
  }

  lemma {:induction false} AncestorsAreListed(p: string, a: string)
    requires Relative(p) && AncestorOf(a, p)
    ensures a in Ancestors(p)
    decreases |p|
  {
    var i := LastSlash(p);
    assert i >= |a|;
    var d := p[..i];
    assert d != Root by { assert i > 0 && d[0] == p[0] && p[i] == '/'; }
    if a != d {
      assert i > |a|;
      assert d[..|a|] == p[..|a|] && d[|a|] == p[|a|];
      assert d[0] == p[0] && (|d| > 1 ==> d[1] == p[1]);
      AncestorsAreListed(d, a);
    }
  }

  /** The walk up from a path names exactly its proper ancestors. */
  lemma AncestorsMean(p: string)
    requires Relative(p)
    ensures forall a :: a in Ancestors(p) <==> AncestorOf(a, p)
  {
    forall a ensures a in Ancestors(p) <==> AncestorOf(a, p) {
      if a in Ancestors(p) { AncestorsAreAncestors(p, a); }
      if AncestorOf(a, p) { AncestorsAreListed(p, a); }
    }
  }

  // ---- Path conflicts ----

  /** What one pass in list order can see: an ancestor listed before. */
  predicate ConflictInOrder(paths: seq<string>, j: nat) {
    j < |paths| && exists i :: 0 <= i < j && AncestorOf(paths[i], paths[j])
  }

  /** Walks up from a path, stopping at the first ancestor already seen. */
  method MeetsAncestor(p: string, seen: set<string>) returns (met: bool)
    requires Relative(p)
    ensures met <==> exists a :: a in seen && AncestorOf(a, p)
  {
    AncestorsMean(p);
    var parent := Dir(p);
    ghost var above: set<string> := {};
    AllAbove(p, parent);
    while parent != Root
      invariant forall a :: a in Ancestors(p) <==> a in above || (parent != Root && (a == parent || a in Ancestors(parent)))
      invariant above !! seen
      decreases if parent == Root then 0 else 1 + |parent|
    {
      if parent in seen {
        assert parent in Ancestors(p);
        return true;
      }
      above := above + {parent};
      AllAbove(parent, Dir(parent));
      parent := Dir(parent);
    }
    return false;
  }

  method PathConflict(paths: seq<string>) returns (conflict: bool)
    requires forall i | 0 <= i < |paths| :: Relative(paths[i])
    ensures conflict <==> exists j: nat :: ConflictInOrder(paths, j)
  {
    hide AncestorOf;
    var seen: set<string> := {};
    for j := 0 to |paths|
      invariant forall p :: p in seen <==> p in paths[..j]
      invariant forall k: nat | k < j :: !ConflictInOrder(paths, k)
    {
      var met := MeetsAncestor(paths[j], seen);
      if met {
        var a :| a in seen && AncestorOf(a, paths[j]);
        var i :| 0 <= i < j && paths[i] == a;
        assert ConflictInOrder(paths, j);
        return true;
      }
      assert !ConflictInOrder(paths, j) by {
        assert forall i | 0 <= i < j :: paths[i] in paths[..j];
      }
      seen := seen + {paths[j]};
      assert paths[..j + 1] == paths[..j] + [paths[j]];
    }
    return false;
  }

  lemma AllAbove(p: string, parent: string)
    requires parent == Dir(p)
    ensures forall a :: a in Ancestors(p) <==> parent != Root && (a == parent || a in Ancestors(parent))
  {
  }

  /** Sorted lists show every conflict to the single pass, because an ancestor
      sorts before its descendants. */
  lemma SortedShowsConflicts(paths: seq<string>, i: nat, j: nat)
    requires Sorted(paths) && i < |paths| && j < |paths| && AncestorOf(paths[i], paths[j])
    ensures ConflictInOrder(paths, j)
  {
    ProperPrefixIsLess(paths[i], paths[j]);
    LessIrreflexive(paths[i]);
    if j < i { LessTransitive(paths[i], paths[j], paths[i]); }
  }

  /** Unsorted, the single pass would miss one. */
  lemma UnsortedHidesConflicts()
    ensures var paths := ["a/b", "a"];
            AncestorOf(paths[1], paths[0]) && forall j: nat :: !ConflictInOrder(paths, j)
  {
  }

  // ---- Validation ----

  predicate DistinctPaths(input: seq<Artifact>) {
    forall i, j | 0 <= i < j < |input| :: input[i].path != input[j].path
  }

  predicate AllManaged(managed: set<string>, input: seq<Artifact>) {
    forall i | 0 <= i < |input| :: input[i].path in managed
  }

  function PathsOf(input: seq<Artifact>): seq<string> {
    seq(|input|, i requires 0 <= i < |input| => input[i].path)
  }

  predicate NoneHoldsAnother(input: seq<Artifact>) {
    forall i, j | 0 <= i < |input| && 0 <= j < |input| :: !AncestorOf(input[i].path, input[j].path)
  }

  /** Rejects duplicates and unmanaged paths, and sorts what passes. */
  method ValidateArtifacts(managed: set<string>, input: seq<Artifact>) returns (ok: bool, sorted: seq<Artifact>)
    ensures ok <==> DistinctPaths(input) && AllManaged(managed, input)
    ensures ok ==> Sorted(PathsOf(sorted)) && forall a :: a in sorted <==> a in input
  {
    hide Sorted;
    sorted := [];
    var byPath: map<string, Artifact> := map[];
    for i := 0 to |input|
      invariant DistinctPaths(input[..i]) && AllManaged(managed, input[..i])
      invariant forall a :: a in input[..i] <==> a.path in byPath && byPath[a.path] == a
      invariant forall p | p in byPath :: byPath[p].path == p
    {
      var a := input[i];
      assert input[..i + 1] == input[..i] + [a];
      if a.path in byPath {
        assert byPath[a.path] in input[..i];
        return false, [];
      }
      if a.path !in managed {
        return false, [];
      }
      byPath := byPath[a.path := a];
    }
    assert input[..|input|] == input;
    sorted := SortByPath(byPath);
    ok := true;
  }

  method SortByPath(byPath: map<string, Artifact>) returns (sorted: seq<Artifact>)
    requires forall p | p in byPath :: byPath[p].path == p
    ensures Sorted(PathsOf(sorted)) && forall a :: a in sorted <==> a.path in byPath && byPath[a.path] == a
  {
    hide Sorted;
    var names := SortedSeq(byPath.Keys);
    assert forall i | 0 <= i < |names| :: names[i] in names;
    sorted := seq(|names|, i requires 0 <= i < |names| && names[i] in byPath => byPath[names[i]]);
    assert PathsOf(sorted) == names;
    forall a ensures a in sorted <==> a.path in byPath && byPath[a.path] == a {
      if a.path in byPath && byPath[a.path] == a {
        assert a.path in names;
        var k :| 0 <= k < |names| && names[k] == a.path;
        assert sorted[k] == a;
      }
    }
  }

  /** The whole validation accepts exactly the managed lists of distinct paths
      none of which is a directory of another, in whatever order they come. */
  method PrepareDeployment(managed: set<string>, input: seq<Artifact>) returns (ok: bool, sorted: seq<Artifact>)
    requires forall i | 0 <= i < |input| :: Relative(input[i].path)
    ensures ok <==> DistinctPaths(input) && AllManaged(managed, input) && NoneHoldsAnother(input)
    ensures ok ==> Sorted(PathsOf(sorted)) && forall a :: a in sorted <==> a in input
    ensures ok ==> PathsOf(sorted) == SortedSeq(Elements(PathsOf(input)))
  {
    ok, sorted := ValidateArtifacts(managed, input);
    if !ok {
      return;
    }
    assert forall i | 0 <= i < |sorted| :: sorted[i] in input;
    SamePaths(sorted, input);
    var conflict := PathConflict(PathsOf(sorted));
    if conflict {
      var j: nat :| ConflictInOrder(PathsOf(sorted), j);
      var i :| 0 <= i < j && AncestorOf(PathsOf(sorted)[i], PathsOf(sorted)[j]);
      ConflictInInput(input, sorted[i], sorted[j]);
      return false, [];
    }
    forall i, j | 0 <= i < |input| && 0 <= j < |input| ensures !AncestorOf(input[i].path, input[j].path) {
      assert input[i] in sorted && input[j] in sorted;
      var k :| 0 <= k < |sorted| && sorted[k] == input[i];
      var l :| 0 <= l < |sorted| && sorted[l] == input[j];
      if AncestorOf(input[i].path, input[j].path) { SortedShowsConflicts(PathsOf(sorted), k, l); }
    }
  }

  /** The same artifacts in order have the one sorted listing of their paths. */
  lemma SamePaths(sorted: seq<Artifact>, input: seq<Artifact>)
    requires Sorted(PathsOf(sorted)) && forall a :: a in sorted <==> a in input
    ensures PathsOf(sorted) == SortedSeq(Elements(PathsOf(input)))
  {
    hide Sorted;
    forall p ensures p in PathsOf(sorted) <==> p in PathsOf(input) {
      if p in PathsOf(sorted) {
        var i :| 0 <= i < |sorted| && PathsOf(sorted)[i] == p;
        assert sorted[i] in input;
        var k :| 0 <= k < |input| && input[k] == sorted[i];
        assert PathsOf(input)[k] == p;
      }
      if p in PathsOf(input) {
        var i :| 0 <= i < |input| && PathsOf(input)[i] == p;
        assert input[i] in sorted;
        var k :| 0 <= k < |sorted| && sorted[k] == input[i];
        assert PathsOf(sorted)[k] == p;
      }
    }
    SortedUnique(PathsOf(sorted), SortedSeq(Elements(PathsOf(input))));
  }

  lemma ConflictInInput(input: seq<Artifact>, a: Artifact, b: Artifact)
    requires a in input && b in input && AncestorOf(a.path, b.path)
    ensures !NoneHoldsAnother(input)
  {
    var i :| 0 <= i < |input| && input[i] == a;
    var j :| 0 <= j < |input| && input[j] == b;
    assert AncestorOf(input[i].path, input[j].path);
  }
}
