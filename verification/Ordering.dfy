/** Byte order on text, as Go's string comparison orders it, and the one sorted
    listing of a finite set of names. */
module Ordering {

  /** Strictly before, in lexicographic order. */
  predicate Less(a: string, b: string) {
    b != [] && (a == [] || a[0] < b[0] || (a[0] == b[0] && Less(a[1..], b[1..])))
  }

  lemma {:induction false} LessIrreflexive(a: string)
    ensures !Less(a, a)
  {
    if a != [] { LessIrreflexive(a[1..]); }
  }

  lemma {:induction false} LessTransitive(a: string, b: string, c: string)
    requires Less(a, b) && Less(b, c)
    ensures Less(a, c)
  {
    if a != [] && a[0] == b[0] == c[0] { LessTransitive(a[1..], b[1..], c[1..]); }
  }

  lemma {:induction false} LessTotal(a: string, b: string)
    ensures a == b || Less(a, b) || Less(b, a)
  {
    if a != [] && b != [] && a[0] == b[0] {
      LessTotal(a[1..], b[1..]);
      assert a == [a[0]] + a[1..] && b == [b[0]] + b[1..];
    }
  }

  lemma {:induction false} ProperPrefixIsLess(a: string, b: string)
    requires |a| < |b| && b[..|a|] == a
    ensures Less(a, b)
  {
    if a != [] {
      assert b[0] == a[0] && b[1..][..|a| - 1] == a[1..];
      ProperPrefixIsLess(a[1..], b[1..]);
    }
  }

  predicate Sorted(s: seq<string>) {
    forall i, j | 0 <= i < j < |s| :: Less(s[i], s[j])
  }

  ghost predicate Lists(s: seq<string>, names: set<string>) {
    Sorted(s) && forall x :: x in s <==> x in names
  }

  predicate IsLeast(least: string, names: set<string>) {
    least in names && forall x | x in names :: x == least || Less(least, x)
  }

  lemma {:induction false} LeastExists(names: set<string>)
    requires names != {}
    ensures exists least :: IsLeast(least, names)
    decreases |names|
  {
    var x :| x in names;
    var rest := names - {x};
    if rest == {} {
      assert names == {x};
      assert IsLeast(x, names);
    } else {
      LeastExists(rest);
      var m :| IsLeast(m, rest);
      LessTotal(x, m);
      if Less(x, m) {
        forall y | y in rest ensures Less(x, y) {
          if y != m { LessTransitive(x, m, y); }
        }
        assert IsLeast(x, names);
      } else {
        assert IsLeast(m, names);
      }
    }
  }

  lemma LeastUnique(a: string, b: string, names: set<string>)
    requires IsLeast(a, names) && IsLeast(b, names)
    ensures a == b
  {
    if a != b {
      LessTransitive(a, b, a);
      LessIrreflexive(a);
    }
  }

  function Least(names: set<string>): (least: string)
    requires names != {}
    ensures IsLeast(least, names)
  {
    LeastExists(names);
    assert forall a, b | IsLeast(a, names) && IsLeast(b, names) :: a == b by {
      forall a, b | IsLeast(a, names) && IsLeast(b, names) ensures a == b { LeastUnique(a, b, names); }
    }
    var least :| least in names && IsLeast(least, names);
    least
  }

  /** Names in sorted order (slices.Sorted over a map's keys). */
  function SortedSeq(names: set<string>): (s: seq<string>)
    ensures Lists(s, names)
    ensures |s| == |names|
  {
    if names == {} then []
    else
      var least := Least(names);
      [least] + SortedSeq(names - {least})
  }

  lemma HeadNotInTail(s: seq<string>)
    requires s != [] && Sorted(s)
    ensures s[0] !in s[1..]
  {
    LessIrreflexive(s[0]);
  }

  /** A set of names has exactly one sorted listing. */
  lemma {:induction false} SortedUnique(s: seq<string>, t: seq<string>)
    requires Sorted(s) && Sorted(t)
    requires forall x :: x in s <==> x in t
    ensures s == t
  {
    assert s == [] <==> t == [] by {
      if s != [] { assert s[0] in t; }
      if t != [] { assert t[0] in s; }
    }
    if s == [] {
    } else {
      assert s[0] in s && s[0] in t;
      assert t[0] in t && t[0] in s;
      var i :| 0 <= i < |t| && t[i] == s[0];
      var j :| 0 <= j < |s| && s[j] == t[0];
      if i > 0 && j > 0 {
        LessTransitive(s[0], s[j], t[i]);
        LessIrreflexive(s[0]);
      }
      assert s[0] == t[0];
      HeadNotInTail(s);
      HeadNotInTail(t);
      assert s == [s[0]] + s[1..] && t == [t[0]] + t[1..];
      assert forall x :: x in s[1..] <==> x in s && x != s[0];
      assert forall x :: x in t[1..] <==> x in t && x != t[0];
      SortedUnique(s[1..], t[1..]);
    }
  }

  // ---- Names as sets ----

  predicate Distinct(names: seq<string>) {
    forall i, j | 0 <= i < j < |names| :: names[i] != names[j]
  }

  function Elements(s: seq<string>): set<string> {
    set x | x in s
  }

  lemma SortedIsDistinct(names: seq<string>)
    requires Sorted(names)
    ensures Distinct(names)
  {
    forall i, j | 0 <= i < j < |names| ensures names[i] != names[j] { LessIrreflexive(names[i]); }
  }
}
