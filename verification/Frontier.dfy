/** The frontier of a set of candidates in a prerequisite graph: those no
    candidate already depends on, directly or transitively. */
module Frontier {
  import opened Ordering

  /** Prerequisites by name; a name without an entry has none. Cycles and names
      outside the graph are allowed. */
  type Graph = map<string, seq<string>>

  function Needs(g: Graph, id: string): seq<string> {
    if id in g then g[id] else []
  }

  ghost predicate ReachesIn(g: Graph, a: string, b: string, n: nat)
    decreases n
  {
    n > 0 && if n == 1 then b in Needs(g, a) else exists c :: c in Needs(g, a) && ReachesIn(g, c, b, n - 1)
  }

  /** b is a direct or transitive prerequisite of a. */
  ghost predicate Reaches(g: Graph, a: string, b: string) {
    exists n: nat :: ReachesIn(g, a, b, n)
  }

  lemma {:induction false} ReachesOn(g: Graph, a: string, b: string, c: string, m: nat, n: nat)
    requires ReachesIn(g, a, b, m) && ReachesIn(g, b, c, n)
    ensures ReachesIn(g, a, c, m + n)
    decreases m
  {
    if m > 1 {
      var d :| d in Needs(g, a) && ReachesIn(g, d, b, m - 1);
      ReachesOn(g, d, b, c, m - 1, n);
    }
  }

  lemma ReachesTransitive(g: Graph, a: string, b: string, c: string)
    requires Reaches(g, a, b) && Reaches(g, b, c)
    ensures Reaches(g, a, c)
  {
    var m: nat :| ReachesIn(g, a, b, m);
    var n: nat :| ReachesIn(g, b, c, n);
    ReachesOn(g, a, b, c, m, n);
  }

  lemma NeedsReach(g: Graph, a: string, b: string)
    requires b in Needs(g, a)
    ensures Reaches(g, a, b)
  {
    assert ReachesIn(g, a, b, 1);
  }

  /** One step, and possibly more. */
  lemma ReachesUnfold(g: Graph, a: string, b: string)
    ensures Reaches(g, a, b) <==> b in Needs(g, a) || exists c :: c in Needs(g, a) && Reaches(g, c, b)
  {
    if Reaches(g, a, b) {
      var n: nat :| ReachesIn(g, a, b, n);
      if n > 1 {
        var c :| c in Needs(g, a) && ReachesIn(g, c, b, n - 1);
        assert Reaches(g, c, b);
      }
    }
    if b in Needs(g, a) { NeedsReach(g, a, b); }
    forall c | c in Needs(g, a) && Reaches(g, c, b) ensures Reaches(g, a, b) {
      NeedsReach(g, a, c);
      ReachesTransitive(g, a, c, b);
    }
  }

  /** What is closed under prerequisites holds everything it can reach. */
  lemma {:induction false} ClosedHoldsReachable(g: Graph, closed: set<string>, a: string, b: string, n: nat)
    requires forall x | x in Needs(g, a) :: x in closed
    requires forall y, x | y in closed && x in Needs(g, y) :: x in closed
    requires ReachesIn(g, a, b, n)
    ensures b in closed
    decreases n
  {
    if n > 1 {
      var c :| c in Needs(g, a) && ReachesIn(g, c, b, n - 1);
      ClosedHoldsReachable(g, closed, c, b, n - 1);
    }
  }

  function Mentioned(g: Graph): set<string> {
    set id, x | id in g && x in g[id] :: x
  }

  /** The two sets the walk fills: `seen` anew for each candidate, `implied`
      across all of them. */
  class Walk {
    const g: Graph
    var seen: set<string>
    var implied: set<string>

    constructor (g: Graph)
      ensures this.g == g && seen == {} && implied == {}
    {
      this.g := g;
      seen, implied := {}, {};
    }

    /** Depth first; terminates on any graph because a name is entered once. */
    method Descend(id: string)
      requires seen <= Mentioned(g)
      modifies this
      ensures old(seen) <= seen <= Mentioned(g)
      ensures forall x | x in Needs(g, id) :: x in seen
      ensures forall y, x | y in seen && y !in old(seen) && x in Needs(g, y) :: x in seen
      ensures forall x | x in seen && x !in old(seen) :: Reaches(g, id, x)
      ensures implied == old(implied) + (seen - old(seen))
      decreases Mentioned(g) - seen
    {
      var needs := Needs(g, id);
      for i := 0 to |needs|
        invariant old(seen) <= seen <= Mentioned(g)
        invariant forall k | 0 <= k < i :: needs[k] in seen
        invariant forall y, x | y in seen && y !in old(seen) && x in Needs(g, y) :: x in seen
        invariant forall x | x in seen && x !in old(seen) :: Reaches(g, id, x)
        invariant implied == old(implied) + (seen - old(seen))
      {
        var need := needs[i];
        if need !in seen {
          assert id in g && need in g[id] && need in Mentioned(g);
          NeedsReach(g, id, need);
          ghost var before := seen;
          seen, implied := seen + {need}, implied + {need};
          Descend(need);
          forall x | x in seen && x !in before ensures Reaches(g, id, x) {
            if x != need { ReachesTransitive(g, id, need, x); }
          }
        }
      }
    }

    method From(candidate: string)
      modifies this
      ensures implied == old(implied) + seen
      ensures forall x :: x in seen <==> Reaches(g, candidate, x)
    {
      seen := {};
      Descend(candidate);
      forall x | Reaches(g, candidate, x) ensures x in seen {
        var n: nat :| ReachesIn(g, candidate, x, n);
        ClosedHoldsReachable(g, seen, candidate, x, n);
      }
    }
  }

  ghost predicate Implied(g: Graph, candidates: set<string>, x: string) {
    exists c :: c in candidates && Reaches(g, c, x)
  }

  ghost function Unimplied(g: Graph, candidates: set<string>): set<string> {
    set x | x in candidates && !Implied(g, candidates, x)
  }

  /** Exactly the candidates no candidate reaches, sorted, whatever the order
      the candidates come in and even when the graph has cycles. */
  method FrontierOf(candidates: seq<string>, g: Graph) returns (out: seq<string>)
    ensures out == SortedSeq(Unimplied(g, Elements(candidates)))
  {
    var walk := new Walk(g);
    for i := 0 to |candidates|
      invariant fresh(walk) && walk.g == g
      invariant forall x :: x in walk.implied <==> Implied(g, Elements(candidates[..i]), x)
    {
      ghost var before := walk.implied;
      walk.From(candidates[i]);
      assert candidates[..i + 1] == candidates[..i] + [candidates[i]];
      forall x ensures x in walk.implied <==> Implied(g, Elements(candidates[..i + 1]), x) {
        if Implied(g, Elements(candidates[..i]), x) {
          var c :| c in Elements(candidates[..i]) && Reaches(g, c, x);
          assert c in Elements(candidates[..i + 1]);
        }
        if Reaches(g, candidates[i], x) {
          assert candidates[i] in Elements(candidates[..i + 1]);
        }
      }
    }
    assert candidates[..|candidates|] == candidates;
    var kept: set<string> := {};
    for i := 0 to |candidates|
      invariant kept == set x | x in candidates[..i] && x !in walk.implied
    {
      assert candidates[..i + 1] == candidates[..i] + [candidates[i]];
      if candidates[i] !in walk.implied {
        kept := kept + {candidates[i]};
      }
    }
    assert kept == Unimplied(g, Elements(candidates));
    out := SortedSeq(kept);
  }

  // ---- When the graph has a topological order ----

  /** Every prerequisite of a listed name is listed before it. */
  ghost predicate Ranked(g: Graph, order: seq<string>) {
    && Distinct(order) && (forall id | id in g :: id in order)
    && forall i, x | 0 <= i < |order| && x in Needs(g, order[i]) :: x in order[..i]
  }

  lemma {:induction false} ReachesDown(g: Graph, order: seq<string>, i: nat, b: string, n: nat)
    requires Ranked(g, order) && i < |order| && ReachesIn(g, order[i], b, n)
    ensures b in order[..i]
    decreases n
  {
    if n > 1 {
      var c :| c in Needs(g, order[i]) && ReachesIn(g, c, b, n - 1);
      assert c in order[..i];
      var j :| 0 <= j < i && order[j] == c;
      ReachesDown(g, order, j, b, n - 1);
    }
  }

  lemma NotBefore(order: seq<string>, i: nat)
    requires forall j, k | 0 <= j < k < |order| :: order[j] != order[k]
    requires i < |order|
    ensures order[i] !in order[..i]
  {
  }

  /** A ranked graph has no cycle. */
  lemma RankedIsAcyclic(g: Graph, order: seq<string>, a: string)
    requires Ranked(g, order)
    ensures !Reaches(g, a, a)
  {
    if Reaches(g, a, a) {
      var n: nat :| ReachesIn(g, a, a, n);
      assert a in g;
      var i :| 0 <= i < |order| && order[i] == a;
      NotBefore(order, i);
      ReachesDown(g, order, i, a, n);
    }
  }

  /** The frontier loses nothing: every candidate is on it or reached from it. */
  lemma {:induction false} FrontierCovers(g: Graph, order: seq<string>, candidates: set<string>, i: nat)
    requires Ranked(g, order) && i < |order| && order[i] in candidates
    requires forall c | c in candidates :: c in order
    ensures order[i] in Unimplied(g, candidates) || exists f :: f in Unimplied(g, candidates) && Reaches(g, f, order[i])
    decreases |order| - i
  {
    var x := order[i];
    if Implied(g, candidates, x) {
      var c :| c in candidates && Reaches(g, c, x);
      var j :| 0 <= j < |order| && order[j] == c;
      var n: nat :| ReachesIn(g, c, x, n);
      ReachesDown(g, order, j, x, n);
      var k :| 0 <= k < j && order[..j][k] == x;
      assert k == i < j;
      FrontierCovers(g, order, candidates, j);
      if c !in Unimplied(g, candidates) {
        var f :| f in Unimplied(g, candidates) && Reaches(g, f, c);
        ReachesTransitive(g, f, c, x);
      }
    }
  }

  lemma {:induction false} SameNeedsIn(g: Graph, h: Graph, a: string, b: string, n: nat)
    requires forall id :: Needs(g, id) == Needs(h, id)
    ensures ReachesIn(g, a, b, n) == ReachesIn(h, a, b, n)
    decreases n
  {
    if n > 1 {
      forall c | c in Needs(g, a) ensures ReachesIn(g, c, b, n - 1) == ReachesIn(h, c, b, n - 1) { SameNeedsIn(g, h, c, b, n - 1); }
    }
  }

  lemma SameNeeds(g: Graph, h: Graph)
    requires forall id :: Needs(g, id) == Needs(h, id)
    ensures forall a, b :: Reaches(g, a, b) == Reaches(h, a, b)
  {
    forall a, b, n: nat ensures ReachesIn(g, a, b, n) == ReachesIn(h, a, b, n) { SameNeedsIn(g, h, a, b, n); }
  }

  /** Adding a name no prerequisite mentions changes nothing for the others. */
  lemma {:induction false} OthersReachIn(g: Graph, order: seq<string>, id: string, needs: seq<string>, i: nat, b: string, n: nat)
    requires Ranked(g, order) && id !in order && i < |order|
    ensures ReachesIn(g[id := needs], order[i], b, n) == ReachesIn(g, order[i], b, n)
    decreases n
  {
    var h := g[id := needs];
    assert Needs(h, order[i]) == Needs(g, order[i]);
    if n > 1 {
      forall c | c in Needs(g, order[i]) ensures ReachesIn(h, c, b, n - 1) == ReachesIn(g, c, b, n - 1) {
        assert c in order[..i];
        var j :| 0 <= j < i && order[j] == c;
        OthersReachIn(g, order, id, needs, j, b, n - 1);
      }
    }
  }

  lemma OthersReach(g: Graph, order: seq<string>, id: string, needs: seq<string>)
    requires Ranked(g, order) && id !in order
    ensures forall a, b | a in order :: Reaches(g[id := needs], a, b) == Reaches(g, a, b)
  {
    forall a, b | a in order ensures Reaches(g[id := needs], a, b) == Reaches(g, a, b) {
      var i :| 0 <= i < |order| && order[i] == a;
      var h := g[id := needs];
      forall n: nat ensures ReachesIn(h, a, b, n) == ReachesIn(g, a, b, n) {
        OthersReachIn(g, order, id, needs, i, b, n);
      }
      assert Reaches(h, a, b) == Reaches(g, a, b);
    }
  }
}
