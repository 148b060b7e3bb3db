/** The order inferred for work delegated without a plan: an uncovered unit
    follows the units settled when it was first admitted, reduced to their
    frontier. */
module ExecutionOrder {
  import opened Ordering
  import opened Record
  import opened Replay
  import opened Protocol
  import opened Licensing
  import opened Runs
  import opened Slots
  import opened Lifecycle
  import opened ReplayState
  import opened Frontier
  import Ledger
  import Budgeting

  type Inferred = map<UnitKey, seq<string>>

  function SettledNames(p: Projection, session: string): set<string> {
    set k | k in p.units && k.session == session && p.units[k].state == StateSettled :: k.unit
  }

  function InferredNames(inferred: Inferred, session: string): set<string> {
    set k | k in inferred && k.session == session :: k.unit
  }

  /** A unit's prerequisites: as declared when committed, else as inferred. */
  function PrerequisitesOf(p: Projection, session: string, inferred: Inferred, id: string): seq<string> {
    var key := UnitKey(session, id);
    if p.Unit(session, id).committed then p.Unit(session, id).prerequisites else if key in inferred then inferred[key] else []
  }

  function PrerequisiteGraph(p: Projection, session: string, inferred: Inferred): Graph {
    map id | id in KnownNames(p, session) + InferredNames(inferred, session) :: PrerequisitesOf(p, session, inferred, id)
  }

  ghost predicate FirstSight(p: Projection, q: Projection, e: Entry) {
    e.kind.KindAdmitted? && !p.Known(e.session, e.unit) && q.Known(e.session, e.unit)
  }

  ghost function InferredNext(p: Projection, q: Projection, inferred: Inferred, e: Entry): Inferred {
    if FirstSight(p, q, e) then
      var g := PrerequisiteGraph(q, e.session, inferred);
      inferred[UnitKey(e.session, e.unit) := SortedSeq(Unimplied(g, SettledNames(p, e.session)))]
    else inferred
  }

  /** What is inferred from a recorded prefix. */
  ghost function InferredOrder(history: seq<Entry>): Inferred {
    if history == [] then map[]
    else
      var n := |history| - 1;
      InferredNext(Project(history[..n]), Project(history), InferredOrder(history[..n]), history[n])
  }

  /** The settled units' names, in whatever order the map yields them. */
  method SettledUnits(units: map<UnitKey, Unit>, session: string) returns (settled: seq<string>)
    ensures forall p: Projection | p.units == units :: Elements(settled) == SettledNames(p, session)
  {
    settled := [];
    var unseen := units.Keys;
    while unseen != {}
      invariant unseen <= units.Keys
      invariant Elements(settled) == set k | k in units && k !in unseen && k.session == session && units[k].state == StateSettled :: k.unit
      decreases |unseen|
    {
      var k :| k in unseen;
      ghost var before := Elements(settled);
      unseen := unseen - {k};
      if k.session == session && units[k].state == StateSettled {
        settled := settled + [k.unit];
        assert Elements(settled) == before + {k.unit};
      }
    }
  }

  /** One pass over the recorded order, the projection and the inferred
      structure growing together. */
  method ProjectWithExecutionOrder(policy: Policy, entries: seq<Entry>) returns (p: Projection, inferred: Inferred)
    requires policy.Positive() && LicensedHistory(policy, entries)
    ensures p == Project(entries) && inferred == InferredOrder(entries)
  {
    hide Fold, LicensedHistory, PrerequisiteGraph, SettledNames, Elements, Unimplied;
    var state := new ProjectionState();
    inferred := map[];
    Starts(entries);
    for i := 0 to |entries|
      invariant fresh(state)
      invariant state.Value() == Project(entries[..i]) && inferred == InferredOrder(entries[..i])
    {
      var e := entries[i];
      ghost var before := state.Value();
      var known := UnitKey(e.session, e.unit) in state.units;
      var settled: seq<string> := [];
      if e.kind.KindAdmitted? && !known {
        settled := SettledUnits(state.units, e.session);
      }
      PrefixSession(policy, entries, i, e.session);
      state.Fold(e);
      assert entries[..i + 1][..i] == entries[..i];
      assert state.Value() == Project(entries[..i + 1]);
      if e.kind.KindAdmitted? && !known && UnitKey(e.session, e.unit) in state.units {
        var out := FrontierOf(settled, PrerequisiteGraph(state.Value(), e.session, inferred));
        inferred := inferred[UnitKey(e.session, e.unit) := out];
      }
    }
    assert entries[..|entries|] == entries;
    p := state.Value();
  }

  lemma Starts(entries: seq<Entry>)
    ensures Project(entries[..0]) == Empty && InferredOrder(entries[..0]) == map[]
  {
  }

  lemma PrefixSession(policy: Policy, entries: seq<Entry>, n: nat, session: string)
    requires policy.Positive() && LicensedHistory(policy, entries) && n <= |entries|
    ensures Budgeting.Sound(Project(entries[..n]).Budgets(session))
  {
    hide LicensedHistory, Project;
    LicensedPrefix(policy, entries, n);
    Ledger.SafeSession(policy, entries[..n], session);
  }

  // ---- A session without commitments ----

  predicate NoPlans(history: seq<Entry>, session: string) {
    forall i | 0 <= i < |history| :: !(history[i].kind.KindPlanned? && history[i].session == session)
  }

  /** The unit is first seen at entry i. */
  ghost predicate FirstSeen(history: seq<Entry>, i: nat, session: string, unit: string) {
    i < |history| && !Project(history[..i]).Known(session, unit) && Project(history[..i + 1]).Known(session, unit)
  }

  ghost predicate SettledAt(history: seq<Entry>, j: nat, session: string, unit: string) {
    j <= |history| && unit in SettledNames(Project(history[..j]), session)
  }

  ghost function GraphAt(history: seq<Entry>, n: nat, session: string): Graph
    requires n <= |history|
  {
    PrerequisiteGraph(Project(history[..n]), session, InferredOrder(history[..n]))
  }

  /** Everything settled at the unit's first admission is an ancestor. */
  ghost predicate FollowsSettled(history: seq<Entry>, g: Graph, i: nat, session: string, unit: string) {
    forall x | SettledAt(history, i, session, x) :: Reaches(g, unit, x)
  }

  ghost predicate HadSettled(history: seq<Entry>, i: nat, session: string, unit: string) {
    exists j: nat :: j <= i && SettledAt(history, j, session, unit)
  }

  /** Nothing else is: every ancestor had settled by then. */
  ghost predicate FollowsOnlySettled(history: seq<Entry>, g: Graph, i: nat, session: string, unit: string) {
    forall x | Reaches(g, unit, x) :: HadSettled(history, i, session, x)
  }

  ghost predicate Uncovered(p: Projection, session: string) {
    forall id | p.Known(session, id) :: !p.Unit(session, id).committed
  }

  ghost predicate Lists(p: Projection, session: string, order: seq<string>) {
    forall id :: id in order <==> p.Known(session, id)
  }

  ghost predicate SeenBefore(history: seq<Entry>, n: nat, session: string, unit: string) {
    exists i: nat :: i < n && FirstSeen(history, i, session, unit)
  }

  ghost predicate Ordered(history: seq<Entry>, n: nat, session: string, order: seq<string>)
    requires n <= |history|
  {
    var p, g := Project(history[..n]), GraphAt(history, n, session);
    && Lists(p, session, order) && Uncovered(p, session) && Ranked(g, order)
    && (forall id | id in order :: SeenBefore(history, n, session, id))
    && Ancestry(history, n, g, session, order)
  }

  ghost predicate Ancestry(history: seq<Entry>, n: nat, g: Graph, session: string, order: seq<string>) {
    forall i: nat, unit | i < n && FirstSeen(history, i, session, unit) ::
      unit in order && FollowsSettled(history, g, i, session, unit) && FollowsOnlySettled(history, g, i, session, unit)
  }

  /** Without commitments, only an admission makes a unit known, uncovered. */
  lemma KnownStep(policy: Policy, p: Projection, e: Entry, session: string)
    requires Shape(p) && Licensed(policy, p, e) && Valid(e) && !(e.kind.KindPlanned? && e.session == session)
    requires Uncovered(p, session)
    ensures Uncovered(Fold(p, e), session)
    ensures forall id :: Fold(p, e).Known(session, id)
                         <==> p.Known(session, id) || (e.kind.KindAdmitted? && e.session == session && e.unit == id)
  {
    hide Fold, Licensed, Shape, Valid, MovedSession, MovedExecutions, MovedUnits, Budgeted, FoldExecution;
    Lanes(e);
    if LifecycleKind(e) {
      FoldLife(p, e);
      MovedKnown(policy, p, e, session);
    } else if BudgetKind(e.kind) {
      FoldBudget(p, e);
      SameUncovered(p, Fold(p, e), session);
    } else if ExecutionKind(e.kind) {
      FoldExec(p, e);
      SameUncovered(p, Fold(p, e), session);
    } else {
      FoldAct(p, e);
      SameUncovered(p, Fold(p, e), session);
    }
  }

  lemma MovedKnown(policy: Policy, p: Projection, e: Entry, session: string)
    requires Shape(p) && Licensed(policy, p, e) && LifecycleKind(e) && !(e.kind.KindPlanned? && e.session == session)
    requires Uncovered(p, session)
    ensures var units := MovedUnits(p, e);
            && (forall id :: UnitKey(session, id) in units
                  <==> p.Known(session, id) || (e.kind.KindAdmitted? && e.session == session && e.unit == id))
            && (forall id | UnitKey(session, id) in units :: !units[UnitKey(session, id)].committed)
  {
    hide Licensed, Shape, Prevails;
    if e.kind.KindAdmitted? { AdmissionAccepted(policy, p, e); }
  }

  lemma SameUncovered(p: Projection, q: Projection, session: string)
    requires q.units == p.units
    ensures Uncovered(p, session) ==> Uncovered(q, session)
    ensures forall id :: q.Known(session, id) == p.Known(session, id)
  {
    if Uncovered(p, session) {
      forall id | q.Known(session, id) ensures !q.Unit(session, id).committed { assert !p.Unit(session, id).committed; }
    }
  }

  lemma KnownAndInferred(p: Projection, session: string, inferred: Inferred)
    ensures forall id :: id in PrerequisiteGraph(p, session, inferred) <==> p.Known(session, id) || UnitKey(session, id) in inferred
  {
    forall id ensures id in PrerequisiteGraph(p, session, inferred) <==> p.Known(session, id) || UnitKey(session, id) in inferred {
      var key := UnitKey(session, id);
      assert key in p.units ==> key.unit in KnownNames(p, session);
      assert key in inferred ==> key.unit in InferredNames(inferred, session);
      assert forall k: UnitKey | k.session == session && k.unit == id :: k == key;
    }
  }

  function InferredFor(inferred: Inferred, session: string, id: string): seq<string> {
    if UnitKey(session, id) in inferred then inferred[UnitKey(session, id)] else []
  }

  /** Without commitments the graph is what was inferred. */
  lemma UncoveredNeeds(p: Projection, session: string, inferred: Inferred)
    requires Uncovered(p, session)
    ensures forall id :: Needs(PrerequisiteGraph(p, session, inferred), id) == InferredFor(inferred, session, id)
  {
    KnownAndInferred(p, session, inferred);
    forall id ensures Needs(PrerequisiteGraph(p, session, inferred), id) == InferredFor(inferred, session, id) {
      assert !p.Unit(session, id).committed by {
        if p.Known(session, id) { assert !p.Unit(session, id).committed; }
      }
    }
  }

  lemma GraphsEqual(g: Graph, h: Graph)
    requires g.Keys == h.Keys && forall id :: Needs(g, id) == Needs(h, id)
    ensures g == h
  {
    forall id | id in g ensures g[id] == h[id] { assert Needs(g, id) == Needs(h, id); }
  }

  /** The graph of a session only depends on its known units and what is
      inferred for them. */
  lemma SameGraph(p: Projection, q: Projection, session: string, inferred: Inferred, inferred': Inferred)
    requires Uncovered(p, session) && Uncovered(q, session)
    requires forall id :: q.Known(session, id) == p.Known(session, id)
    requires forall id :: UnitKey(session, id) in inferred <==> UnitKey(session, id) in inferred'
    requires forall id :: InferredFor(inferred', session, id) == InferredFor(inferred, session, id)
    ensures PrerequisiteGraph(q, session, inferred') == PrerequisiteGraph(p, session, inferred)
  {
    hide PrerequisiteGraph, Uncovered, InferredFor, Needs;
    var g, h := PrerequisiteGraph(p, session, inferred), PrerequisiteGraph(q, session, inferred');
    KnownAndInferred(p, session, inferred);
    KnownAndInferred(q, session, inferred');
    UncoveredNeeds(p, session, inferred);
    UncoveredNeeds(q, session, inferred');
    GraphsEqual(g, h);
  }

  /** A first admission adds one node whose prerequisites are its frontier. */
  lemma NewNode(p: Projection, q: Projection, e: Entry, inferred: Inferred)
    requires Uncovered(p, e.session) && Uncovered(q, e.session) && FirstSight(p, q, e)
    requires forall id :: q.Known(e.session, id) <==> p.Known(e.session, id) || id == e.unit
    requires UnitKey(e.session, e.unit) !in inferred
    ensures var g := PrerequisiteGraph(p, e.session, inferred);
            PrerequisiteGraph(q, e.session, InferredNext(p, q, inferred, e))
              == g[e.unit := SortedSeq(Unimplied(g, SettledNames(p, e.session)))]
  {
    hide SettledNames, PrerequisiteGraph, Uncovered, Needs, Reaches, SortedSeq;
    var session := e.session;
    var g, gq, settled := PrerequisiteGraph(p, session, inferred), PrerequisiteGraph(q, session, inferred), SettledNames(p, session);
    UncoveredNeeds(p, session, inferred);
    UncoveredNeeds(q, session, inferred);
    SameNeeds(g, gq);
    SameFrontier(g, gq, settled);
    var out := SortedSeq(Unimplied(g, settled));
    NodeAdded(p, q, e, inferred, out);
  }

  lemma SameFrontier(g: Graph, h: Graph, candidates: set<string>)
    requires forall a, b :: Reaches(g, a, b) == Reaches(h, a, b)
    ensures Unimplied(g, candidates) == Unimplied(h, candidates)
  {
    hide Reaches;
    forall x ensures Implied(g, candidates, x) == Implied(h, candidates, x) {
      if Implied(g, candidates, x) { var c :| c in candidates && Reaches(g, c, x); assert Reaches(h, c, x); }
      if Implied(h, candidates, x) { var c :| c in candidates && Reaches(h, c, x); assert Reaches(g, c, x); }
    }
  }

  lemma NodeAdded(p: Projection, q: Projection, e: Entry, inferred: Inferred, out: seq<string>)
    requires Uncovered(p, e.session) && Uncovered(q, e.session)
    requires forall id :: q.Known(e.session, id) <==> p.Known(e.session, id) || id == e.unit
    ensures PrerequisiteGraph(q, e.session, inferred[UnitKey(e.session, e.unit) := out])
         == PrerequisiteGraph(p, e.session, inferred)[e.unit := out]
  {
    hide PrerequisiteGraph, Uncovered;
    var session, next := e.session, inferred[UnitKey(e.session, e.unit) := out];
    KnownAndInferred(p, session, inferred);
    KnownAndInferred(q, session, next);
    UncoveredNeeds(p, session, inferred);
    UncoveredNeeds(q, session, next);
    var g, h := PrerequisiteGraph(p, session, inferred)[e.unit := out], PrerequisiteGraph(q, session, next);
    forall id ensures Needs(g, id) == Needs(h, id) {
      if id != e.unit { assert Needs(PrerequisiteGraph(p, session, inferred), id) == InferredFor(inferred, session, id); }
    }
    GraphsEqual(g, h);
  }

  // ---- One entry at a time ----

  /** An entry that shows the session no new unit leaves its graph as it was. */
  lemma OrderedStays(policy: Policy, history: seq<Entry>, n: nat, session: string, order: seq<string>)
    requires n < |history| && Ordered(history, n, session, order)
    requires var p, q := Project(history[..n]), Project(history[..n + 1]);
            Uncovered(q, session) && forall id :: q.Known(session, id) == p.Known(session, id)
    ensures Ordered(history, n + 1, session, order)
  {
    hide Project, Ranked, FollowsSettled, FollowsOnlySettled, Uncovered, PrerequisiteGraph;
    var p, q := Project(history[..n]), Project(history[..n + 1]);
    var inferred, inferred' := InferredOrder(history[..n]), InferredOrder(history[..n + 1]);
    InferredStep(history, n);
    forall id ensures UnitKey(session, id) in inferred <==> UnitKey(session, id) in inferred'
              ensures InferredFor(inferred', session, id) == InferredFor(inferred, session, id) {
      OtherInference(p, q, inferred, history[n], session, id);
    }
    SameGraph(p, q, session, inferred, inferred');
    forall i: nat, unit | i < n + 1 && FirstSeen(history, i, session, unit)
      ensures i < n
    {
      assert i != n;
    }
    SeenStays(history, n, session, order);
  }

  lemma SeenStays(history: seq<Entry>, n: nat, session: string, order: seq<string>)
    requires forall id | id in order :: SeenBefore(history, n, session, id)
    ensures forall id | id in order :: SeenBefore(history, n + 1, session, id)
  {
    hide FirstSeen;
    forall id | id in order ensures SeenBefore(history, n + 1, session, id) {
      var i: nat :| i < n && FirstSeen(history, i, session, id);
    }
  }

  lemma InferredStep(history: seq<Entry>, n: nat)
    requires n < |history|
    ensures InferredOrder(history[..n + 1])
         == InferredNext(Project(history[..n]), Project(history[..n + 1]), InferredOrder(history[..n]), history[n])
  {
    assert history[..n + 1][..n] == history[..n];
  }

  lemma OtherInference(p: Projection, q: Projection, inferred: Inferred, e: Entry, session: string, id: string)
    requires q.Known(session, id) == p.Known(session, id)
    ensures var next := InferredNext(p, q, inferred, e);
            && (UnitKey(session, id) in next <==> UnitKey(session, id) in inferred)
            && InferredFor(next, session, id) == InferredFor(inferred, session, id)
  {
    hide PrerequisiteGraph, Unimplied, SettledNames;
  }

  /** A first admission extends the order: the new unit follows all that had
      settled, and nothing else. */
  lemma OrderedGrows(policy: Policy, history: seq<Entry>, n: nat, session: string, order: seq<string>)
    requires n < |history| && Ordered(history, n, session, order)
    requires var p, q, e := Project(history[..n]), Project(history[..n + 1]), history[n];
            && e.session == session && FirstSight(p, q, e) && Uncovered(q, session)
            && (forall id :: q.Known(session, id) <==> p.Known(session, id) || id == e.unit)
            && UnitKey(session, e.unit) !in InferredOrder(history[..n])
    ensures Ordered(history, n + 1, session, order + [history[n].unit])
  {
    hide Project, FollowsSettled, FollowsOnlySettled, Uncovered, PrerequisiteGraph, Ranked, FirstSeen, SettledNames, Ancestry, SeenBefore,
         Reaches, Unimplied, SortedSeq;
    var p, q, e := Project(history[..n]), Project(history[..n + 1]), history[n];
    var g, h := GraphAt(history, n, session), GraphAt(history, n + 1, session);
    var settled := SettledNames(p, session);
    var out := SortedSeq(Unimplied(g, settled));
    InferredStep(history, n);
    NewNode(p, q, e, InferredOrder(history[..n]));
    assert h == g[e.unit := out];
    SettledListed(p, session, order);
    RankedGrows(g, order, e.unit, settled, out);
    OthersReach(g, order, e.unit, out);
    NewIsSeen(history, n, session, order);
    NewAncestors(g, order, e.unit, settled, out);
    AncestorsHadSettled(history, n, session, order, g, h, settled, out);
    AncestryGrows(history, n, session, order, g, h);
  }

  lemma AncestryGrows(history: seq<Entry>, n: nat, session: string, order: seq<string>, g: Graph, h: Graph)
    requires n < |history| && Ancestry(history, n, g, session, order)
    requires forall a, b | a in order :: Reaches(h, a, b) == Reaches(g, a, b)
    requires forall id :: Project(history[..n + 1]).Known(session, id) <==> Project(history[..n]).Known(session, id) || id == history[n].unit
    requires FollowsSettled(history, h, n, session, history[n].unit)
    requires FollowsOnlySettled(history, h, n, session, history[n].unit)
    ensures Ancestry(history, n + 1, h, session, order + [history[n].unit])
  {
    hide Project, Reaches, FirstSeen, FollowsSettled, FollowsOnlySettled;
    forall i: nat, unit | i < n + 1 && FirstSeen(history, i, session, unit)
      ensures unit in order + [history[n].unit]
      ensures FollowsSettled(history, h, i, session, unit) && FollowsOnlySettled(history, h, i, session, unit)
    {
      if i < n {
        SameAncestors(history, g, h, i, session, unit);
      } else {
        OnlyNewSeen(history, n, session, unit);
      }
    }
  }

  lemma SettledListed(p: Projection, session: string, order: seq<string>)
    requires Lists(p, session, order)
    ensures forall x | x in SettledNames(p, session) :: x in order
  {
    forall x | x in SettledNames(p, session) ensures x in order {
      assert p.Known(session, x);
    }
  }

  lemma RankedGrows(g: Graph, order: seq<string>, id: string, settled: set<string>, out: seq<string>)
    requires Ranked(g, order) && id !in order && out == SortedSeq(Unimplied(g, settled))
    requires forall x | x in settled :: x in order
    ensures Ranked(g[id := out], order + [id])
  {
    hide SortedSeq, Unimplied, Reaches;
    var h, more := g[id := out], order + [id];
    OutIsSettled(g, settled, out);
    assert more[..|order|] == order;
    forall i, x | 0 <= i < |more| && x in Needs(h, more[i]) ensures x in more[..i] {
      if i < |order| {
        assert more[i] == order[i] && more[..i] == order[..i];
        assert x in Needs(g, order[i]);
      } else {
        assert x in out;
      }
    }
  }

  lemma OutIsSettled(g: Graph, settled: set<string>, out: seq<string>)
    requires out == SortedSeq(Unimplied(g, settled))
    ensures forall x | x in out :: x in settled
  {
    hide Reaches;
    assert Ordering.Lists(out, Unimplied(g, settled));
  }

  /** The new node's ancestors are the settled units and their ancestors. */
  lemma NewAncestors(g: Graph, order: seq<string>, id: string, settled: set<string>, out: seq<string>)
    requires Ranked(g, order) && id !in order && out == SortedSeq(Unimplied(g, settled))
    requires forall x | x in settled :: x in order
    ensures var h := g[id := out];
            && (forall x | x in settled :: Reaches(h, id, x))
            && (forall x | Reaches(h, id, x) :: x in settled || exists c :: c in settled && Reaches(g, c, x))
  {
    hide Reaches;
    var h := g[id := out];
    OthersReach(g, order, id, out);
    assert forall x :: x in out <==> x in Unimplied(g, settled);
    forall x | x in settled ensures Reaches(h, id, x) {
      var i :| 0 <= i < |order| && order[i] == x;
      FrontierCovers(g, order, settled, i);
      ReachesUnfold(h, id, x);
      if x !in Unimplied(g, settled) {
        var f :| f in Unimplied(g, settled) && Reaches(g, f, x);
        assert f in Needs(h, id) && Reaches(h, f, x);
      }
    }
    forall x | Reaches(h, id, x) ensures x in settled || exists c :: c in settled && Reaches(g, c, x) {
      ReachesUnfold(h, id, x);
      if x !in out {
        var c :| c in Needs(h, id) && Reaches(h, c, x);
        assert c in settled && c in order && Reaches(g, c, x);
      }
    }
  }

  lemma NewIsSeen(history: seq<Entry>, n: nat, session: string, order: seq<string>)
    requires n < |history| && history[n].session == session
    requires FirstSight(Project(history[..n]), Project(history[..n + 1]), history[n])
    requires forall id | id in order :: SeenBefore(history, n, session, id)
    ensures forall id | id in order + [history[n].unit] :: SeenBefore(history, n + 1, session, id)
  {
    hide Project;
    SeenStays(history, n, session, order);
    assert FirstSeen(history, n, session, history[n].unit);
  }

  lemma OnlyNewSeen(history: seq<Entry>, n: nat, session: string, unit: string)
    requires n < |history| && FirstSeen(history, n, session, unit)
    requires forall id :: Project(history[..n + 1]).Known(session, id) <==> Project(history[..n]).Known(session, id) || id == history[n].unit
    ensures unit == history[n].unit
  {
    hide Project;
  }

  lemma SameAncestors(history: seq<Entry>, g: Graph, h: Graph, i: nat, session: string, unit: string)
    requires forall b :: Reaches(h, unit, b) == Reaches(g, unit, b)
    requires FollowsSettled(history, g, i, session, unit) && FollowsOnlySettled(history, g, i, session, unit)
    ensures FollowsSettled(history, h, i, session, unit) && FollowsOnlySettled(history, h, i, session, unit)
  {
    hide Reaches, SettledAt, HadSettled;
  }

  lemma AncestorsHadSettled(history: seq<Entry>, n: nat, session: string, order: seq<string>, g: Graph, h: Graph,
                            settled: set<string>, out: seq<string>)
    requires n < |history| && Ordered(history, n, session, order) && g == GraphAt(history, n, session)
    requires settled == SettledNames(Project(history[..n]), session)
    requires forall x | x in settled :: x in order
    requires forall x | x in settled :: Reaches(h, history[n].unit, x)
    requires forall x | Reaches(h, history[n].unit, x) :: x in settled || exists c :: c in settled && Reaches(g, c, x)
    ensures FollowsSettled(history, h, n, session, history[n].unit)
    ensures FollowsOnlySettled(history, h, n, session, history[n].unit)
  {
    hide Project, Reaches, SettledNames, FirstSeen, Ranked, Uncovered, PrerequisiteGraph;
    forall x | Reaches(h, history[n].unit, x) ensures HadSettled(history, n, session, x) {
      if x in settled {
        assert SettledAt(history, n, session, x);
      } else {
        var c :| c in settled && Reaches(g, c, x);
        var i: nat :| i < n && FirstSeen(history, i, session, c);
        assert FollowsOnlySettled(history, g, i, session, c);
        var j: nat :| j <= i && SettledAt(history, j, session, x);
      }
    }
  }

  // ---- Over every run ----

  ghost predicate InferredKnown(history: seq<Entry>, n: nat)
    requires n <= |history|
  {
    forall k | k in InferredOrder(history[..n]) :: k in Project(history[..n]).units
  }

  lemma InferredStaysKnown(policy: Policy, history: seq<Entry>, n: nat)
    requires n < |history| && InferredKnown(history, n)
    requires Project(history[..n + 1]) == Fold(Project(history[..n]), history[n])
    requires Shape(Project(history[..n])) && Licensed(policy, Project(history[..n]), history[n])
    ensures InferredKnown(history, n + 1)
  {
    hide Project, Fold, Licensed, Shape, PrerequisiteGraph, Unimplied, SettledNames, SortedSeq, Evolves;
    InferredStep(history, n);
    var next := InferredOrder(history[..n + 1]);
    forall k: UnitKey | k in next ensures k in Project(history[..n + 1]).units {
      if k in Project(history[..n]).units {
        EntryEvolves(policy, Project(history[..n]), history[n], k);
      }
    }
  }

  lemma {:induction false} OrderExists(policy: Policy, history: seq<Entry>, n: nat, session: string) returns (order: seq<string>)
    requires LicensedHistory(policy, history) && NoPlans(history, session) && n <= |history|
    ensures Ordered(history, n, session, order) && InferredKnown(history, n)
  {
    hide Fold, Licensed, Valid, Shape, LicensedHistory, PrerequisiteGraph, Ranked, Ancestry, SeenBefore, InferredNext;
    if n == 0 {
      order := [];
      NothingOrdered(history, session);
    } else {
      var m := n - 1;
      order := OrderExists(policy, history, m, session);
      PrefixStep(policy, history, m);
      var p, q, e := Project(history[..m]), Project(history[..n]), history[m];
      KnownStep(policy, p, e, session);
      InferredStaysKnown(policy, history, m);
      if e.session == session && FirstSight(p, q, e) {
        OrderedGrows(policy, history, m, session, order);
        order := order + [e.unit];
      } else {
        OrderedStays(policy, history, m, session, order);
      }
    }
  }

  lemma NothingOrdered(history: seq<Entry>, session: string)
    ensures Ordered(history, 0, session, []) && InferredKnown(history, 0)
  {
    assert history[..0] == [];
  }

  /** In a session that never committed a plan, over every run: no unit is its
      own inferred ancestor; a unit follows everything that was settled when it
      was first admitted; and it follows nothing that had not settled by then. */
  lemma InferredOrderIsSound(policy: Policy, commands: seq<Command>, session: string, unit: string, i: nat)
    requires var history := Execute(policy, commands); NoPlans(history, session) && FirstSeen(history, i, session, unit)
    ensures var history := Execute(policy, commands);
            var g := PrerequisiteGraph(Project(history), session, InferredOrder(history));
            && !Reaches(g, unit, unit)
            && (forall x | SettledAt(history, i, session, x) :: Reaches(g, unit, x))
            && (forall x | Reaches(g, unit, x) :: exists j: nat :: j <= i && SettledAt(history, j, session, x))
  {
    hide Execute, Project, Reaches, SettledAt, FirstSeen, LicensedHistory, PrerequisiteGraph, Ranked;
    var history := Execute(policy, commands);
    RunIsLicensed(policy, commands);
    var order := OrderExists(policy, history, |history|, session);
    assert history[..|history|] == history;
    SeenInRange(history, i, session, unit);
    var g := GraphAt(history, |history|, session);
    RankedIsAcyclic(g, order, unit);
    assert FollowsSettled(history, g, i, session, unit) && FollowsOnlySettled(history, g, i, session, unit);
    forall x | Reaches(g, unit, x) ensures exists j: nat :: j <= i && SettledAt(history, j, session, x) {
      assert HadSettled(history, i, session, x);
    }
  }

  lemma SeenInRange(history: seq<Entry>, i: nat, session: string, unit: string)
    requires FirstSeen(history, i, session, unit)
    ensures i < |history|
  {
  }

  // ---- Any session, over every run ----

  /** A unit first seen is committed by its declaration, or uncovered by its
      admission. */
  lemma SeenBy(policy: Policy, p: Projection, e: Entry, k: UnitKey)
    requires Shape(p) && Valid(e) && Licensed(policy, p, e) && k !in p.units && k in Fold(p, e).units
    ensures k == UnitKey(e.session, e.unit) && (e.kind.KindAdmitted? || e.kind.KindPlanned?)
    ensures Fold(p, e).units[k].committed <==> e.kind.KindPlanned?
  {
    hide Fold, Licensed, Shape, Valid, MovedSession, MovedExecutions, Budgeted, FoldExecution, Prevails, LifecycleKind, BudgetKind, ExecutionKind;
    Lanes(e);
    if LifecycleKind(e) {
      FoldLife(p, e);
    } else if BudgetKind(e.kind) {
      FoldBudget(p, e);
    } else if ExecutionKind(e.kind) {
      FoldExec(p, e);
    } else {
      FoldAct(p, e);
    }
  }

  ghost predicate UncoveredInferred(history: seq<Entry>, n: nat)
    requires n <= |history|
  {
    var p := Project(history[..n]);
    forall k :: k in InferredOrder(history[..n]) <==> k in p.units && !p.units[k].committed
  }

  lemma UncoveredStep(policy: Policy, p: Projection, e: Entry, inferred: Inferred)
    requires Shape(p) && Valid(e) && Licensed(policy, p, e)
    requires forall k :: k in inferred <==> k in p.units && !p.units[k].committed
    ensures var q := Fold(p, e); var next := InferredNext(p, q, inferred, e);
            && (forall k :: k in next <==> k in q.units && !q.units[k].committed)
            && (forall k | k in inferred :: k in next && next[k] == inferred[k])
  {
    hide Fold, Licensed, Shape, Valid, PrerequisiteGraph, Unimplied, SettledNames, SortedSeq, Evolves;
    var q := Fold(p, e);
    var next := InferredNext(p, q, inferred, e);
    forall k ensures k in next <==> k in q.units && !q.units[k].committed {
      if k in p.units {
        EntryEvolves(policy, p, e, k);
        assert q.units[k].committed == p.units[k].committed by { KeepsCover(p.units[k], q.units[k]); }
      } else if k in q.units {
        SeenBy(policy, p, e, k);
      }
    }
  }

  lemma KeepsCover(u: Unit, v: Unit)
    requires Evolves(u, v)
    ensures v.committed == u.committed
  {
  }

  lemma {:induction false} InferredForUncovered(policy: Policy, history: seq<Entry>, n: nat)
    requires LicensedHistory(policy, history) && n <= |history|
    ensures UncoveredInferred(history, n)
  {
    hide Fold, Licensed, Valid, Shape, LicensedHistory, InferredNext;
    if n == 0 {
      Starts(history);
    } else {
      InferredForUncovered(policy, history, n - 1);
      PrefixStep(policy, history, n - 1);
      InferredStep(history, n - 1);
      UncoveredStep(policy, Project(history[..n - 1]), history[n - 1], InferredOrder(history[..n - 1]));
    }
  }

  /** What was inferred once stays. */
  lemma {:induction false} InferredStands(policy: Policy, history: seq<Entry>, i: nat, n: nat, k: UnitKey)
    requires LicensedHistory(policy, history) && i <= n <= |history| && k in InferredOrder(history[..i])
    ensures k in InferredOrder(history[..n]) && InferredOrder(history[..n])[k] == InferredOrder(history[..i])[k]
    decreases n
  {
    hide Fold, Licensed, Valid, Shape, LicensedHistory, InferredNext;
    if i < n {
      InferredStands(policy, history, i, n - 1, k);
      InferredForUncovered(policy, history, n - 1);
      PrefixStep(policy, history, n - 1);
      InferredStep(history, n - 1);
      UncoveredStep(policy, Project(history[..n - 1]), history[n - 1], InferredOrder(history[..n - 1]));
    }
  }

  /** Where a unit stands waiting when entry i has been recorded: for what its
      commitment declares, else for what was inferred for it before. */
  ghost predicate WaitsFor(history: seq<Entry>, i: nat, session: string, id: string, needs: seq<string>)
    requires i < |history|
  {
    var u, inferred := Project(history[..i + 1]).Unit(session, id), InferredOrder(history[..i]);
    needs == if u.committed then u.prerequisites else if UnitKey(session, id) in inferred then inferred[UnitKey(session, id)] else []
  }

  /** In any session, over every run: an order is inferred exactly for the uncovered
      units. It is the sorted list of the units settled when the unit was first
      admitted that no other settled unit waits for, directly or not, by what is
      declared for committed units and inferred for the others. */
  lemma InferredIsFrontier(policy: Policy, commands: seq<Command>, session: string, unit: string, i: nat)
    requires FirstSeen(Execute(policy, commands), i, session, unit)
    ensures var history := Execute(policy, commands); var key, inferred := UnitKey(session, unit), InferredOrder(history);
            && Project(history).Known(session, unit)
            && (key in inferred <==> !Project(history).Unit(session, unit).committed)
            && (key in inferred ==>
                  var g := PrerequisiteGraph(Project(history[..i + 1]), session, InferredOrder(history[..i]));
                  && (forall id :: WaitsFor(history, i, session, id, Needs(g, id)))
                  && Sorted(inferred[key])
                  && forall x :: x in inferred[key] <==> SettledAt(history, i, session, x) && !exists y :: SettledAt(history, i, session, y) && Reaches(g, y, x))
  {
    hide Execute, Project, Reaches, LicensedHistory, PrerequisiteGraph, SettledNames, InferredNext, Evolves;
    var history, key := Execute(policy, commands), UnitKey(session, unit);
    RunIsLicensed(policy, commands);
    assert history[..|history|] == history;
    InferredForUncovered(policy, history, |history|);
    InferredForUncovered(policy, history, i);
    InferredForUncovered(policy, history, i + 1);
    LicensedEvolves(policy, history, i + 1, key);
    KeepsCover(Project(history[..i + 1]).units[key], Project(history).units[key]);
    if key in InferredOrder(history) {
      InferredStep(history, i);
      InferredStands(policy, history, i + 1, |history|, key);
      FirstInferred(Project(history[..i]), Project(history[..i + 1]), InferredOrder(history[..i]), history[i], key);
      GraphWaits(history, i, session);
    }
  }

  /** The list inferred at the entry that first shows the unit. */
  lemma FirstInferred(p: Projection, q: Projection, inferred: Inferred, e: Entry, key: UnitKey)
    requires key !in inferred && key in InferredNext(p, q, inferred, e)
    ensures InferredNext(p, q, inferred, e)[key]
         == SortedSeq(Unimplied(PrerequisiteGraph(q, key.session, inferred), SettledNames(p, key.session)))
  {
    hide PrerequisiteGraph, Unimplied, SettledNames;
  }

  lemma GraphWaits(history: seq<Entry>, i: nat, session: string)
    requires i < |history|
    ensures var g := PrerequisiteGraph(Project(history[..i + 1]), session, InferredOrder(history[..i]));
            forall id :: WaitsFor(history, i, session, id, Needs(g, id))
  {
    hide Project, InferredOrder;
    KnownAndInferred(Project(history[..i + 1]), session, InferredOrder(history[..i]));
  }
}
