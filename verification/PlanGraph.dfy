/** The prerequisite graph of a plan, and the check that it has no cycle. */
module PlanGraph {
  import opened Decimal
  import opened Ordering

  datatype PlanUnit = PlanUnit(unit: string, contract: string, prerequisites: seq<string>)

  type Plan = map<string, PlanUnit>

  predicate DistinctIds(units: seq<PlanUnit>) {
    forall i, j | 0 <= i < j < |units| :: units[i].unit != units[j].unit
  }

  /** A list of declarations read as a plan: a later declaration of the same
      identity replaces an earlier one. */
  function PlanOf(units: seq<PlanUnit>): (m: Plan)
    ensures forall id | id in m :: m[id].unit == id
    ensures forall i | 0 <= i < |units| :: units[i].unit in m
  {
    if units == [] then map[]
    else
      var n := |units| - 1;
      PlanOf(units[..n])[units[n].unit := units[n]]
  }

  lemma {:induction false} PlanOfMember(units: seq<PlanUnit>, id: string) returns (i: nat)
    requires id in PlanOf(units)
    ensures i < |units| && units[i] == PlanOf(units)[id]
    ensures forall j | i < j < |units| :: units[j].unit != id
  {
    var n := |units| - 1;
    if units[n].unit == id {
      i := n;
    } else {
      i := PlanOfMember(units[..n], id);
      forall j | i < j < |units| ensures units[j].unit != id {
        if j < n { assert units[..n][j].unit != id; }
      }
    }
  }

  lemma PlanOfDistinct(units: seq<PlanUnit>)
    requires DistinctIds(units)
    ensures forall i | 0 <= i < |units| :: PlanOf(units)[units[i].unit] == units[i]
  {
    forall i | 0 <= i < |units| ensures PlanOf(units)[units[i].unit] == units[i] {
      var j := PlanOfMember(units, units[i].unit);
    }
  }

  // ---- Cycles ----

  /** Unit a waits for unit b, both in the plan. */
  predicate Waits(m: Plan, a: string, b: string) {
    a in m && b in m && b in m[a].prerequisites
  }

  predicate Chain(m: Plan, path: seq<string>) {
    forall i, j | 0 <= i && j == i + 1 < |path| :: Waits(m, path[i], path[j])
  }

  ghost predicate Closed(m: Plan, path: seq<string>) {
    |path| >= 2 && Chain(m, path) && path[0] == path[|path| - 1]
  }

  ghost predicate Cyclic(m: Plan) {
    exists path :: Closed(m, path)
  }

  /** Every unit comes after the units it waits for. */
  ghost predicate Topological(m: Plan, order: seq<string>) {
    forall k, b | 0 <= k < |order| && Waits(m, order[k], b) :: b in order[..k]
  }

  lemma {:induction false} ChainDescends(m: Plan, order: seq<string>, path: seq<string>, k: nat) returns (j: nat)
    requires Topological(m, order) && Chain(m, path) && |path| >= 2
    requires k < |order| && order[k] == path[0]
    ensures j < k && order[j] == path[|path| - 1]
    decreases |path|
  {
    assert Waits(m, path[0], path[1]);
    j :| 0 <= j < k && order[j] == path[1];
    if |path| > 2 {
      ChainSlice(m, path, 1);
      j := ChainDescends(m, order, path[1..], j);
    }
  }

  lemma TopologicalIsAcyclic(m: Plan, order: seq<string>)
    requires Topological(m, order) && Distinct(order)
    requires forall id | id in m :: id in order
    ensures !Cyclic(m)
  {
    forall path | Closed(m, path) ensures false {
      assert Waits(m, path[0], path[1]);
      var k :| 0 <= k < |order| && order[k] == path[0];
      var j := ChainDescends(m, order, path, k);
    }
  }

  ghost predicate WaitsInside(m: Plan, rest: set<string>, a: string) {
    exists b :: b in rest && Waits(m, a, b)
  }

  ghost predicate Stuck(m: Plan, rest: set<string>) {
    forall a {:trigger WaitsInside(m, rest, a)} | a in rest :: WaitsInside(m, rest, a)
  }

  lemma DistinctFits(s: seq<string>, names: set<string>)
    requires Distinct(s) && forall x | x in s :: x in names
    ensures |s| <= |names|
  {
    var seen := set x | x in s;
    DistinctCount(s);
    assert seen <= names;
    SubsetSize(seen, names);
  }

  lemma {:induction false} DistinctCount(s: seq<string>)
    requires Distinct(s)
    ensures |set x | x in s| == |s|
  {
    if s != [] {
      var n := |s| - 1;
      DistinctCount(s[..n]);
      assert s == s[..n] + [s[n]];
      assert (set x | x in s) == (set x | x in s[..n]) + {s[n]};
    }
  }

  lemma {:induction false} SubsetSize(a: set<string>, b: set<string>)
    requires a <= b
    ensures |a| <= |b|
    decreases a
  {
    if a != {} {
      var x :| x in a;
      SubsetSize(a - {x}, b - {x});
    }
  }

  lemma ChainSlice(m: Plan, path: seq<string>, k: nat)
    requires Chain(m, path) && k <= |path|
    ensures Chain(m, path[k..])
  {
    forall i, j | 0 <= i && j == i + 1 < |path[k..]| ensures Waits(m, path[k..][i], path[k..][j]) {
      assert Waits(m, path[k + i], path[k + j]);
    }
  }

  lemma ChainExtend(m: Plan, path: seq<string>, b: string)
    requires path != [] && Chain(m, path) && Waits(m, path[|path| - 1], b)
    ensures Chain(m, path + [b])
  {
    var longer := path + [b];
    forall i, j | 0 <= i && j == i + 1 < |longer| ensures Waits(m, longer[i], longer[j]) {
      if j < |path| { assert Waits(m, path[i], path[j]); }
    }
  }

  /** Following prerequisites inside a finite stuck set must come back to a unit
      already passed. */
  lemma {:induction false} StuckIsCyclic(m: Plan, rest: set<string>, path: seq<string>)
    requires Stuck(m, rest) && path != [] && Chain(m, path) && Distinct(path)
    requires forall x | x in path :: x in rest
    ensures Cyclic(m)
    decreases |rest| - |path|
  {
    var last := path[|path| - 1];
    assert last in path && WaitsInside(m, rest, last);
    var b :| b in rest && Waits(m, last, b);
    var longer := path + [b];
    ChainExtend(m, path, b);
    if b in path {
      var k :| 0 <= k < |path| && path[k] == b;
      ChainSlice(m, longer, k);
      assert Closed(m, longer[k..]);
    } else {
      DistinctFits(longer, rest);
      StuckIsCyclic(m, rest, longer);
    }
  }

  // ---- Counting prerequisites ----

  function Occurrences(s: seq<string>, x: string): nat {
    if s == [] then 0 else Occurrences(s[..|s| - 1], x) + if s[|s| - 1] == x then 1 else 0
  }

  lemma {:induction false} OccurrencesMember(s: seq<string>, x: string)
    ensures Occurrences(s, x) > 0 <==> x in s
  {
    if s != [] {
      OccurrencesMember(s[..|s| - 1], x);
      assert s == s[..|s| - 1] + [s[|s| - 1]];
    }
  }

  lemma {:induction false} OccurrencesDrop(s: seq<string>, x: string)
    requires s != []
    ensures Occurrences(s, x) == Occurrences(s[1..], x) + if s[0] == x then 1 else 0
  {
    var n := |s| - 1;
    if n > 0 {
      OccurrencesDrop(s[..n], x);
      assert s[..n][1..] == s[1..][..n - 1];
      assert s[1..][n - 1] == s[n];
    }
  }

  /** In-plan prerequisites not yet settled, repeats counted. */
  function Open(prerequisites: seq<string>, plan: set<string>, settled: set<string>): nat {
    if prerequisites == [] then 0
    else
      var n := |prerequisites| - 1;
      Open(prerequisites[..n], plan, settled)
      + if prerequisites[n] in plan && prerequisites[n] !in settled then 1 else 0
  }

  lemma {:induction false} OpenSettles(prerequisites: seq<string>, plan: set<string>, settled: set<string>, id: string)
    requires id in plan && id !in settled
    ensures Open(prerequisites, plan, settled) == Open(prerequisites, plan, settled + {id}) + Occurrences(prerequisites, id)
  {
    if prerequisites != [] { OpenSettles(prerequisites[..|prerequisites| - 1], plan, settled, id); }
  }

  lemma {:induction false} OpenHasWitness(prerequisites: seq<string>, plan: set<string>, settled: set<string>)
    requires Open(prerequisites, plan, settled) > 0
    ensures exists b :: b in prerequisites && b in plan && b !in settled
  {
    var n := |prerequisites| - 1;
    if prerequisites[n] in plan && prerequisites[n] !in settled {
    } else {
      OpenHasWitness(prerequisites[..n], plan, settled);
      var b :| b in prerequisites[..n] && b in plan && b !in settled;
    }
  }

  lemma {:induction false} OpenNone(prerequisites: seq<string>, plan: set<string>, settled: set<string>, b: string)
    requires Open(prerequisites, plan, settled) == 0
    requires b in prerequisites && b in plan
    ensures b in settled
  {
    var n := |prerequisites| - 1;
    if prerequisites[n] != b { OpenNone(prerequisites[..n], plan, settled, b); }
  }

  // ---- The check as the runtime runs it ----

  function Dependents(d: map<string, seq<string>>, id: string): seq<string> {
    if id in d then d[id] else []
  }

  /** What linking leaves behind: every unit's count of in-plan prerequisites,
      and the reverse edges, one for each of them. */
  ghost predicate Linked(m: Plan, pending: map<string, int>, dependents: map<string, seq<string>>) {
    && pending.Keys == m.Keys
    && (forall u | u in m :: pending[u] == Open(m[u].prerequisites, m.Keys, {}))
    && LinkedEdges(m, dependents)
  }

  ghost predicate LinkedEdges(m: Plan, dependents: map<string, seq<string>>) {
    && (forall n, u | n in m && u in m :: Occurrences(Dependents(dependents, n), u) == Occurrences(m[u].prerequisites, n))
    && (forall n, u | n in m && u in Dependents(dependents, n) :: u in m)
  }

  /** Kahn's algorithm, with the ready units taken from the end of a worklist
      seeded in whatever order the map yields. It consumes its own copy of the
      pending counts. */
  method Acyclic(counts: map<string, int>, dependents: map<string, seq<string>>, ghost m: Plan) returns (ok: bool)
    requires Linked(m, counts, dependents)
    ensures ok <==> !Cyclic(m)
  {
    hide *;
    var pending := counts;
    var ready := ReadyUnits(pending);
    StartProgress(m, pending, dependents, ready);
    ghost var order: seq<string> := [];
    var settled := 0;
    while ready != []
      invariant Progress(m, pending, order, ready, [])
      invariant settled == |order| && Topological(m, order)
      decreases |m| - |order|
    {
      var unit := ready[|ready| - 1];
      ghost var before, was := order, ready;
      ready, settled := ready[..|ready| - 1], settled + 1;
      order := order + [unit];
      assert was == ready + [unit];
      PopProgress(m, pending, dependents, before, ready, unit);
      PopTopological(m, pending, before, ready, unit);
      var waiting := Dependents(dependents, unit);
      var i := 0;
      while i < |waiting|
        invariant 0 <= i <= |waiting|
        invariant Progress(m, pending, order, ready, waiting[i..])
      {
        var next := waiting[i];
        DropProgress(m, pending, order, ready, waiting[i..]);
        assert waiting[i..][1..] == waiting[i + 1..];
        pending := pending[next := pending[next] - 1];
        if pending[next] == 0 {
          ready := ready + [next];
        }
        i := i + 1;
      }
      assert waiting[i..] == [];
      ProgressBound(m, pending, order, ready, []);
    }
    ok := settled == |pending|;
    Verdict(m, pending, order);
  }

  /** The units no prerequisite holds back, in the order the map yields them. */
  method ReadyUnits(pending: map<string, int>) returns (ready: seq<string>)
    ensures Distinct(ready) && forall x :: x in ready <==> x in pending && pending[x] == 0
  {
    ready := [];
    var unseen := pending.Keys;
    while unseen != {}
      invariant unseen <= pending.Keys
      invariant Distinct(ready) && forall x :: x in ready <==> x in pending && x !in unseen && pending[x] == 0
      decreases |unseen|
    {
      var unit :| unit in unseen;
      unseen := unseen - {unit};
      if pending[unit] == 0 {
        ready := ready + [unit];
      }
    }
  }

  /** The worklist's state while the dependents still to be told of the last
      settled unit are `untold`: counts are exact, and the worklist holds just
      the unsettled units with nothing left to wait for. */
  ghost predicate Progress(m: Plan, pending: map<string, int>, order: seq<string>, ready: seq<string>, untold: seq<string>) {
    && pending.Keys == m.Keys
    && Distinct(order) && Distinct(ready)
    && (forall x | x in order :: x in m && pending[x] == 0)
    && (forall x :: x in ready <==> x in m && x !in order && pending[x] == 0)
    && (forall x | x in untold :: x in m)
    && (forall u | u in m :: pending[u] == Open(m[u].prerequisites, m.Keys, Elements(order)) + Occurrences(untold, u))
  }

  lemma StartProgress(m: Plan, pending: map<string, int>, dependents: map<string, seq<string>>, ready: seq<string>)
    requires Linked(m, pending, dependents)
    requires Distinct(ready) && forall x :: x in ready <==> x in pending && pending[x] == 0
    ensures Progress(m, pending, [], ready, []) && Topological(m, []) && LinkedEdges(m, dependents)
  {
    assert Elements([]) == {};
  }

  lemma ProgressBound(m: Plan, pending: map<string, int>, order: seq<string>, ready: seq<string>, untold: seq<string>)
    requires Progress(m, pending, order, ready, untold)
    ensures |order| <= |m|
  {
    DistinctFits(order, m.Keys);
  }

  lemma PopProgress(m: Plan, pending: map<string, int>, dependents: map<string, seq<string>>,
                    order: seq<string>, ready: seq<string>, unit: string)
    requires Progress(m, pending, order, ready + [unit], []) && LinkedEdges(m, dependents)
    ensures Progress(m, pending, order + [unit], ready, Dependents(dependents, unit))
  {
    var was := ready + [unit];
    assert unit in was;
    assert forall x :: x in was <==> x in ready || x == unit;
    assert unit !in ready by {
      assert forall i | 0 <= i < |ready| :: was[i] == ready[i] && was[i] != was[|ready|];
    }
    assert Distinct(ready) by {
      forall i, j | 0 <= i < j < |ready| ensures ready[i] != ready[j] { assert was[i] != was[j]; }
    }
    assert Elements(order + [unit]) == Elements(order) + {unit};
    forall u | u in m
      ensures pending[u] == Open(m[u].prerequisites, m.Keys, Elements(order + [unit])) + Occurrences(Dependents(dependents, unit), u)
    {
      OpenSettles(m[u].prerequisites, m.Keys, Elements(order), unit);
    }
  }

  lemma PopTopological(m: Plan, pending: map<string, int>, order: seq<string>, ready: seq<string>, unit: string)
    requires Topological(m, order) && Progress(m, pending, order, ready + [unit], [])
    ensures Topological(m, order + [unit])
  {
    var next := order + [unit];
    assert unit in ready + [unit];
    forall k, b | 0 <= k < |next| && Waits(m, next[k], b)
      ensures b in next[..k]
    {
      if k < |order| {
        assert Waits(m, order[k], b);
        assert next[..k] == order[..k];
      } else {
        OpenNone(m[unit].prerequisites, m.Keys, Elements(order), b);
        assert next[..k] == order;
      }
    }
  }

  /** Telling one dependent: its count drops, and it joins the worklist exactly
      when nothing is left to wait for. */
  lemma DropProgress(m: Plan, pending: map<string, int>, order: seq<string>, ready: seq<string>, untold: seq<string>)
    requires Progress(m, pending, order, ready, untold) && untold != []
    ensures untold[0] in pending
    ensures var next := untold[0];
            var pending' := pending[next := pending[next] - 1];
            Progress(m, pending', order, if pending'[next] == 0 then ready + [next] else ready, untold[1..])
  {
    var next := untold[0];
    OccurrencesMember(untold, next);
    assert next !in order && next !in ready;
    forall u | u in m
      ensures Occurrences(untold, u) == Occurrences(untold[1..], u) + if u == next then 1 else 0
    {
      OccurrencesDrop(untold, u);
    }
  }

  lemma UnsettledIsStuck(m: Plan, pending: map<string, int>, order: seq<string>, a: string)
    requires Progress(m, pending, order, [], []) && a in m && a !in order
    ensures WaitsInside(m, m.Keys - Elements(order), a)
  {
    assert a !in [];
    OpenHasWitness(m[a].prerequisites, m.Keys, Elements(order));
    var b :| b in m[a].prerequisites && b in m.Keys && b !in Elements(order);
    assert b in m.Keys - Elements(order) && Waits(m, a, b);
  }

  lemma Verdict(m: Plan, pending: map<string, int>, order: seq<string>)
    requires Progress(m, pending, order, [], []) && Topological(m, order)
    ensures |order| == |pending| <==> !Cyclic(m)
  {
    var settled := Elements(order);
    var rest := m.Keys - settled;
    assert |order| == |settled| && settled <= m.Keys && |pending| == |m.Keys| by {
      DistinctCount(order);
      assert pending.Keys == m.Keys;
    }
    assert |m.Keys| == |settled| + |rest| by { assert m.Keys == settled + rest; }
    if rest == {} {
      TopologicalIsAcyclic(m, order);
    } else {
      var start :| start in rest;
      assert Stuck(m, rest) by {
        forall a | a in rest ensures WaitsInside(m, rest, a) { UnsettledIsStuck(m, pending, order, a); }
      }
      StuckFromOne(m, rest, start);
    }
  }

  lemma StuckFromOne(m: Plan, rest: set<string>, start: string)
    requires Stuck(m, rest) && start in rest
    ensures Cyclic(m)
  {
    StuckIsCyclic(m, rest, [start]);
  }

  // ---- From declarations to the graph ----

  datatype PlanFault =
    | MissingIdentity | DuplicateIdentity | UnknownPrerequisite | PrerequisiteCycle
    | StaleBase | AddedAndWithdrawn | NotPlanned | AlreadyAdmitted | UnsettledPrerequisite | QARoundRefused

  /** The first declaration with no identity or contract, or a repeated identity. */
  function IdentityFault(units: seq<PlanUnit>): Option<PlanFault> {
    if units == [] then None
    else
      var n := |units| - 1;
      match IdentityFault(units[..n])
      case Some(fault) => Some(fault)
      case None =>
        if units[n].unit == "" || units[n].contract == "" then Some(MissingIdentity)
        else if units[n].unit in PlanOf(units[..n]) then Some(DuplicateIdentity)
        else None
  }

  lemma {:induction false} IdentityFaultNone(units: seq<PlanUnit>)
    ensures IdentityFault(units).None? <==>
            DistinctIds(units) && forall i | 0 <= i < |units| :: units[i].unit != "" && units[i].contract != ""
  {
    if units != [] {
      var n := |units| - 1;
      IdentityFaultNone(units[..n]);
      if DistinctIds(units[..n]) {
        PlanOfDistinct(units[..n]);
        if units[n].unit in PlanOf(units[..n]) {
          var i := PlanOfMember(units[..n], units[n].unit);
          assert units[..n][i].unit == units[n].unit;
        }
      }
    }
  }

  predicate Resolved(need: string, plan: set<string>, known: set<string>) {
    need in plan || need in known
  }

  predicate AllResolved(units: seq<PlanUnit>, plan: set<string>, known: set<string>) {
    forall i, j | 0 <= i < |units| && 0 <= j < |units[i].prerequisites| :: Resolved(units[i].prerequisites[j], plan, known)
  }

  /** Why a declared plan is refused, if it is: identities first, then unknown
      prerequisites, then cycles. `known` names the session's recorded units. */
  ghost function PlanFaultOf(units: seq<PlanUnit>, known: set<string>): Option<PlanFault> {
    if IdentityFault(units).Some? then IdentityFault(units)
    else if !AllResolved(units, PlanOf(units).Keys, known) then Some(UnknownPrerequisite)
    else if Cyclic(PlanOf(units)) then Some(PrerequisiteCycle)
    else None
  }

  method IndexPendingUnits(units: seq<PlanUnit>) returns (fault: Option<PlanFault>, pending: map<string, int>)
    ensures fault == IdentityFault(units)
    ensures fault.None? ==> pending.Keys == PlanOf(units).Keys && forall id | id in pending :: pending[id] == 0
  {
    pending, fault := map[], None;
    for i := 0 to |units|
      invariant IdentityFault(units[..i]) == None
      invariant pending.Keys == PlanOf(units[..i]).Keys && forall id | id in pending :: pending[id] == 0
    {
      assert units[..i + 1][..i] == units[..i];
      if units[i].unit == "" || units[i].contract == "" {
        fault := Some(MissingIdentity);
        FirstFaultStands(units, i + 1);
        return;
      }
      if units[i].unit in pending {
        fault := Some(DuplicateIdentity);
        FirstFaultStands(units, i + 1);
        return;
      }
      pending := pending[units[i].unit := 0];
    }
    assert units[..|units|] == units;
  }

  lemma {:induction false} FirstFaultStands(units: seq<PlanUnit>, n: nat)
    requires n <= |units| && IdentityFault(units[..n]).Some?
    ensures IdentityFault(units) == IdentityFault(units[..n])
  {
    if n < |units| {
      var k := |units| - 1;
      assert units[..k][..n] == units[..n];
      FirstFaultStands(units[..k], n);
    } else {
      assert units[..n] == units;
    }
  }

  /** Counts and reverse edges after the first `done` prerequisites of unit `i`
      and all those of the units before it. */
  ghost predicate PartlyLinked(units: seq<PlanUnit>, m: Plan, i: nat, done: nat,
                               pending: map<string, int>, dependents: map<string, seq<string>>)
  {
    && LinkShape(units, m, pending, dependents)
    && (forall k | 0 <= k < |units| :: UnitLinked(units[k].unit, Counted(units[k].prerequisites, k, i, done), m, pending, dependents))
  }

  ghost predicate LinkShape(units: seq<PlanUnit>, m: Plan, pending: map<string, int>, dependents: map<string, seq<string>>) {
    && pending.Keys == m.Keys
    && (forall k | 0 <= k < |units| :: units[k].unit in m)
    && (forall n, u | n in m && u in Dependents(dependents, n) :: u in m)
  }

  /** One unit's count and reverse edges, over the prerequisites counted so far. */
  ghost predicate UnitLinked(unit: string, counted: seq<string>, m: Plan,
                             pending: map<string, int>, dependents: map<string, seq<string>>)
  {
    && unit in pending && pending[unit] == Open(counted, m.Keys, {})
    && forall n | n in m :: Occurrences(Dependents(dependents, n), unit) == Occurrences(counted, n)
  }

  function Counted(prerequisites: seq<string>, k: nat, i: nat, done: nat): seq<string> {
    if k < i then prerequisites
    else if k == i && done <= |prerequisites| then prerequisites[..done]
    else []
  }

  method LinkPrerequisites(units: seq<PlanUnit>, known: set<string>, zero: map<string, int>)
    returns (fault: Option<PlanFault>, pending: map<string, int>, dependents: map<string, seq<string>>)
    requires DistinctIds(units)
    requires zero.Keys == PlanOf(units).Keys && forall id | id in zero :: zero[id] == 0
    ensures fault.None? <==> AllResolved(units, PlanOf(units).Keys, known)
    ensures fault.Some? ==> fault == Some(UnknownPrerequisite)
    ensures fault.None? ==> Linked(PlanOf(units), pending, dependents)
  {
    hide PartlyLinked, ResolvedTo, AllResolved, Linked, PlanOf, DistinctIds;
    ghost var m := PlanOf(units);
    pending, dependents, fault := zero, map[], None;
    StartLinked(units, m, known, zero);
    var i := 0;
    while i < |units|
      invariant 0 <= i <= |units|
      invariant ResolvedTo(units, i, 0, m.Keys, known)
      invariant PartlyLinked(units, m, i, 0, pending, dependents)
    {
      var u := units[i];
      var j := 0;
      while j < |u.prerequisites|
        invariant 0 <= j <= |u.prerequisites|
        invariant ResolvedTo(units, i, j, m.Keys, known)
        invariant PartlyLinked(units, m, i, j, pending, dependents)
      {
        var need := u.prerequisites[j];
        ghost var was, edges := pending, dependents;
        LinkedKeys(units, m, i, j, pending, dependents);
        ResolvedStep(units, i, j, m.Keys, known);
        if need !in pending {
          if need !in known {
            fault := Some(UnknownPrerequisite);
            return;
          }
        } else {
          pending := pending[u.unit := pending[u.unit] + 1];
          dependents := dependents[need := Dependents(dependents, need) + [u.unit]];
        }
        LinkStep(units, m, i, j, was, edges, pending, dependents);
        j := j + 1;
      }
      LinkedNext(units, m, i, pending, dependents);
      ResolvedNext(units, i, m.Keys, known);
      i := i + 1;
    }
    FullyLinked(units, m, pending, dependents);
    ResolvedEnd(units, m.Keys, known);
  }

  /** Every prerequisite counted so far names planned or recorded work. */
  ghost predicate ResolvedTo(units: seq<PlanUnit>, i: nat, done: nat, plan: set<string>, known: set<string>) {
    forall k, j | 0 <= k < |units| && 0 <= j < |Counted(units[k].prerequisites, k, i, done)| ::
      Resolved(units[k].prerequisites[j], plan, known)
  }

  lemma StartLinked(units: seq<PlanUnit>, m: Plan, known: set<string>, zero: map<string, int>)
    requires m == PlanOf(units) && zero.Keys == m.Keys && forall id | id in zero :: zero[id] == 0
    ensures PartlyLinked(units, m, 0, 0, zero, map[]) && ResolvedTo(units, 0, 0, m.Keys, known)
  {
  }

  lemma LinkedKeys(units: seq<PlanUnit>, m: Plan, i: nat, j: nat, pending: map<string, int>, dependents: map<string, seq<string>>)
    requires i < |units| && PartlyLinked(units, m, i, j, pending, dependents)
    ensures pending.Keys == m.Keys && units[i].unit in pending
  {
  }

  lemma ResolvedStep(units: seq<PlanUnit>, i: nat, j: nat, plan: set<string>, known: set<string>)
    requires i < |units| && j < |units[i].prerequisites|
    requires ResolvedTo(units, i, j, plan, known)
    ensures Resolved(units[i].prerequisites[j], plan, known) ==> ResolvedTo(units, i, j + 1, plan, known)
    ensures !Resolved(units[i].prerequisites[j], plan, known) ==> !AllResolved(units, plan, known)
  {
  }

  lemma ResolvedNext(units: seq<PlanUnit>, i: nat, plan: set<string>, known: set<string>)
    requires i < |units| && ResolvedTo(units, i, |units[i].prerequisites|, plan, known)
    ensures ResolvedTo(units, i + 1, 0, plan, known)
  {
  }

  lemma ResolvedEnd(units: seq<PlanUnit>, plan: set<string>, known: set<string>)
    requires ResolvedTo(units, |units|, 0, plan, known)
    ensures AllResolved(units, plan, known)
  {
    forall i, j | 0 <= i < |units| && 0 <= j < |units[i].prerequisites|
      ensures Resolved(units[i].prerequisites[j], plan, known)
    {
      assert Counted(units[i].prerequisites, i, |units|, 0) == units[i].prerequisites;
    }
  }

  lemma LinkStep(units: seq<PlanUnit>, m: Plan, i: nat, j: nat,
                 pending: map<string, int>, dependents: map<string, seq<string>>,
                 pending': map<string, int>, dependents': map<string, seq<string>>)
    requires DistinctIds(units)
    requires i < |units| && j < |units[i].prerequisites|
    requires PartlyLinked(units, m, i, j, pending, dependents)
    requires LinkEffect(units[i].unit, units[i].prerequisites[j], m, pending, dependents, pending', dependents')
    ensures PartlyLinked(units, m, i, j + 1, pending', dependents')
  {
    hide UnitLinked, LinkEffect, LinkShape;
    var unit, need := units[i].unit, units[i].prerequisites[j];
    LinkKeepsShape(units, m, unit, need, pending, dependents, pending', dependents');
    forall k | 0 <= k < |units|
      ensures UnitLinked(units[k].unit, Counted(units[k].prerequisites, k, i, j + 1), m, pending', dependents')
    {
      assert UnitLinked(units[k].unit, Counted(units[k].prerequisites, k, i, j), m, pending, dependents);
      if k == i {
        LinkOwn(unit, units[i].prerequisites[..j], need, m, pending, dependents, pending', dependents');
        assert units[i].prerequisites[..j + 1] == units[i].prerequisites[..j] + [need];
      } else {
        LinkOther(units[k].unit, Counted(units[k].prerequisites, k, i, j), unit, need, m, pending, dependents, pending', dependents');
      }
    }
  }

  predicate LinkEffect(unit: string, need: string, m: Plan, pending: map<string, int>, dependents: map<string, seq<string>>,
                       pending': map<string, int>, dependents': map<string, seq<string>>)
  {
    unit in pending
    && if need !in m then pending' == pending && dependents' == dependents
       else pending' == pending[unit := pending[unit] + 1]
            && dependents' == dependents[need := Dependents(dependents, need) + [unit]]
  }

  lemma LinkKeepsShape(units: seq<PlanUnit>, m: Plan, unit: string, need: string,
                       pending: map<string, int>, dependents: map<string, seq<string>>,
                       pending': map<string, int>, dependents': map<string, seq<string>>)
    requires LinkShape(units, m, pending, dependents)
    requires LinkEffect(unit, need, m, pending, dependents, pending', dependents')
    ensures LinkShape(units, m, pending', dependents')
  {
  }

  lemma LinkOwn(unit: string, counted: seq<string>, need: string, m: Plan,
                pending: map<string, int>, dependents: map<string, seq<string>>,
                pending': map<string, int>, dependents': map<string, seq<string>>)
    requires UnitLinked(unit, counted, m, pending, dependents)
    requires LinkEffect(unit, need, m, pending, dependents, pending', dependents')
    ensures UnitLinked(unit, counted + [need], m, pending', dependents')
  {
    OpenMore(counted, need, m.Keys);
    OccurrencesMore(Dependents(dependents, need), unit);
  }

  lemma OpenMore(counted: seq<string>, need: string, plan: set<string>)
    ensures Open(counted + [need], plan, {}) == Open(counted, plan, {}) + if need in plan then 1 else 0
    ensures forall x :: Occurrences(counted + [need], x) == Occurrences(counted, x) + if x == need then 1 else 0
  {
    assert (counted + [need])[..|counted|] == counted;
    forall x ensures Occurrences(counted + [need], x) == Occurrences(counted, x) + if x == need then 1 else 0 {
      OccurrencesMore(counted, need);
    }
  }

  lemma OccurrencesMore(s: seq<string>, y: string)
    ensures forall x :: Occurrences(s + [y], x) == Occurrences(s, x) + if x == y then 1 else 0
  {
    assert (s + [y])[..|s|] == s;
  }

  lemma LinkOther(other: string, counted: seq<string>, unit: string, need: string, m: Plan,
                  pending: map<string, int>, dependents: map<string, seq<string>>,
                  pending': map<string, int>, dependents': map<string, seq<string>>)
    requires other != unit && UnitLinked(other, counted, m, pending, dependents)
    requires LinkEffect(unit, need, m, pending, dependents, pending', dependents')
    ensures UnitLinked(other, counted, m, pending', dependents')
  {
    var edges := Dependents(dependents, need) + [unit];
    assert edges[..|edges| - 1] == Dependents(dependents, need);
  }

  lemma LinkedNext(units: seq<PlanUnit>, m: Plan, i: nat, pending: map<string, int>, dependents: map<string, seq<string>>)
    requires i < |units| && PartlyLinked(units, m, i, |units[i].prerequisites|, pending, dependents)
    ensures PartlyLinked(units, m, i + 1, 0, pending, dependents)
  {
    assert forall k | 0 <= k < |units| ::
      Counted(units[k].prerequisites, k, i + 1, 0) == Counted(units[k].prerequisites, k, i, |units[i].prerequisites|);
  }

  lemma FullyLinked(units: seq<PlanUnit>, m: Plan, pending: map<string, int>, dependents: map<string, seq<string>>)
    requires DistinctIds(units) && m == PlanOf(units)
    requires PartlyLinked(units, m, |units|, 0, pending, dependents)
    ensures Linked(m, pending, dependents)
  {
    PlanOfDistinct(units);
    forall u | u in m
      ensures pending[u] == Open(m[u].prerequisites, m.Keys, {})
      ensures forall n | n in m :: Occurrences(Dependents(dependents, n), u) == Occurrences(m[u].prerequisites, n)
    {
      var k := PlanOfMember(units, u);
      assert UnitLinked(units[k].unit, Counted(units[k].prerequisites, k, |units|, 0), m, pending, dependents);
    }
  }

  /** The declaration check as a whole: whatever order the maps are visited in,
      the verdict is the one the graph itself determines. */
  method ValidPlan(units: seq<PlanUnit>, known: set<string>) returns (fault: Option<PlanFault>)
    ensures fault == PlanFaultOf(units, known)
  {
    var pending;
    fault, pending := IndexPendingUnits(units);
    IdentityFaultNone(units);
    if fault.Some? {
      return;
    }
    var dependents;
    fault, pending, dependents := LinkPrerequisites(units, known, pending);
    if fault.Some? {
      return;
    }
    var ok := Acyclic(pending, dependents, PlanOf(units));
    if !ok {
      fault := Some(PrerequisiteCycle);
    }
  }

  // ---- Revision of a standing plan ----

  function Kept(current: seq<PlanUnit>, withdrawals: seq<string>): seq<PlanUnit> {
    if current == [] then []
    else
      var n := |current| - 1;
      Kept(current[..n], withdrawals) + if current[n].unit in withdrawals then [] else [current[n]]
  }

  predicate Declares(units: seq<PlanUnit>, id: string) {
    exists i :: 0 <= i < |units| && units[i].unit == id
  }

  /** A declaration replaces the unit of the same identity where it stands, or
      joins at the end. */
  function Insert(units: seq<PlanUnit>, u: PlanUnit): seq<PlanUnit> {
    if Declares(units, u.unit) then seq(|units|, i requires 0 <= i < |units| => if units[i].unit == u.unit then u else units[i])
    else units + [u]
  }

  function InsertAll(units: seq<PlanUnit>, adds: seq<PlanUnit>): seq<PlanUnit> {
    if adds == [] then units else Insert(InsertAll(units, adds[..|adds| - 1]), adds[|adds| - 1])
  }

  /** The plan a revision declares, as a whole: withdrawals remove, additions
      insert or replace. */
  function Revised(current: seq<PlanUnit>, adds: seq<PlanUnit>, withdrawals: seq<string>): seq<PlanUnit> {
    InsertAll(Kept(current, withdrawals), adds)
  }

  /** A list of distinct identities determines its plan. */
  lemma PlanIs(units: seq<PlanUnit>, m: Plan)
    requires DistinctIds(units)
    requires forall i | 0 <= i < |units| :: units[i].unit in m && m[units[i].unit] == units[i]
    requires forall id | id in m :: Declares(units, id)
    ensures PlanOf(units) == m
  {
    hide PlanOf;
    PlanOfDistinct(units);
    forall id ensures id in PlanOf(units) <==> id in m ensures id in m ==> PlanOf(units)[id] == m[id] {
      if id in PlanOf(units) { var i := PlanOfMember(units, id); }
      if id in m {
        var i :| 0 <= i < |units| && units[i].unit == id;
        assert m[units[i].unit] == units[i];
      }
    }
  }

  lemma {:induction false} KeptMembers(current: seq<PlanUnit>, withdrawals: seq<string>)
    requires DistinctIds(current)
    ensures DistinctIds(Kept(current, withdrawals))
    ensures forall i | 0 <= i < |Kept(current, withdrawals)| ::
      Kept(current, withdrawals)[i] in current && Kept(current, withdrawals)[i].unit !in withdrawals
    ensures forall u | u in current && u.unit !in withdrawals :: u in Kept(current, withdrawals)
  {
    if current != [] {
      var n := |current| - 1;
      var rest, kept := Kept(current[..n], withdrawals), Kept(current, withdrawals);
      KeptMembers(current[..n], withdrawals);
      assert current == current[..n] + [current[n]];
      assert forall u | u in current[..n] :: u.unit != current[n].unit;
      assert forall i | 0 <= i < |rest| :: rest[i].unit != current[n].unit;
    }
  }

  lemma KeptPlan(current: seq<PlanUnit>, withdrawals: seq<string>)
    requires DistinctIds(current)
    ensures DistinctIds(Kept(current, withdrawals))
    ensures PlanOf(Kept(current, withdrawals)) == PlanOf(current) - Elements(withdrawals)
  {
    var kept, m := Kept(current, withdrawals), PlanOf(current) - Elements(withdrawals);
    KeptMembers(current, withdrawals);
    PlanOfDistinct(current);
    forall id | id in m ensures Declares(kept, id) {
      var i := PlanOfMember(current, id);
      assert current[i] in kept;
    }
    PlanIs(kept, m);
  }

  lemma InsertPlan(units: seq<PlanUnit>, u: PlanUnit)
    requires DistinctIds(units)
    ensures DistinctIds(Insert(units, u))
    ensures PlanOf(Insert(units, u)) == PlanOf(units)[u.unit := u]
  {
    var r, m := Insert(units, u), PlanOf(units)[u.unit := u];
    PlanOfDistinct(units);
    assert forall i | 0 <= i < |units| :: r[i].unit == units[i].unit;
    assert Declares(r, u.unit) by {
      if Declares(units, u.unit) {
        var i :| 0 <= i < |units| && units[i].unit == u.unit;
        assert r[i].unit == u.unit;
      } else {
        assert r[|units|].unit == u.unit;
      }
    }
    forall id | id in m ensures Declares(r, id) {
      if id != u.unit {
        var i := PlanOfMember(units, id);
        assert r[i].unit == id;
      }
    }
    PlanIs(r, m);
  }

  lemma {:induction false} InsertAllPlan(units: seq<PlanUnit>, adds: seq<PlanUnit>)
    requires DistinctIds(units)
    ensures DistinctIds(InsertAll(units, adds))
    ensures PlanOf(InsertAll(units, adds)) == PlanOf(units) + PlanOf(adds)
  {
    hide Insert, DistinctIds, PlanOf;
    PlanOfLast(adds);
    if adds == [] {
      assert PlanOf(units) + map[] == PlanOf(units);
    } else {
      var n := |adds| - 1;
      InsertAllPlan(units, adds[..n]);
      InsertPlan(InsertAll(units, adds[..n]), adds[n]);
      OverlayLast(PlanOf(units), PlanOf(adds[..n]), adds[n].unit, adds[n]);
    }
  }

  lemma PlanOfLast(units: seq<PlanUnit>)
    ensures units == [] ==> PlanOf(units) == map[]
    ensures units != [] ==> PlanOf(units) == PlanOf(units[..|units| - 1])[units[|units| - 1].unit := units[|units| - 1]]
  {
  }

  lemma OverlayLast(a: Plan, b: Plan, id: string, u: PlanUnit)
    ensures a + b[id := u] == (a + b)[id := u]
  {
  }

  /** A revision applies as a whole: what it withdraws is gone, what it declares
      stands as last declared, and everything else is as it was. */
  lemma RevisedPlan(current: seq<PlanUnit>, adds: seq<PlanUnit>, withdrawals: seq<string>)
    requires DistinctIds(current)
    ensures DistinctIds(Revised(current, adds, withdrawals))
    ensures PlanOf(Revised(current, adds, withdrawals)) == (PlanOf(current) - Elements(withdrawals)) + PlanOf(adds)
  {
    KeptPlan(current, withdrawals);
    InsertAllPlan(Kept(current, withdrawals), adds);
    assert PlanOf(Kept(current, withdrawals)) == PlanOf(current) - Elements(withdrawals);
  }

  function Listed(order: seq<string>, byId: Plan): seq<PlanUnit> {
    seq(|order|, i requires 0 <= i < |order| => if order[i] in byId then byId[order[i]] else PlanUnit("", "", []))
  }

  ghost predicate Indexed(order: seq<string>, byId: Plan) {
    && Distinct(order) && (forall id :: id in order <==> id in byId)
    && (forall id | id in byId :: byId[id].unit == id)
  }

  lemma InsertListed(order: seq<string>, byId: Plan, u: PlanUnit)
    requires Indexed(order, byId)
    ensures u.unit in byId ==> Insert(Listed(order, byId), u) == Listed(order, byId[u.unit := u]) && Indexed(order, byId[u.unit := u])
    ensures u.unit !in byId ==>
      && Insert(Listed(order, byId), u) == Listed(order, byId) + [u] == Listed(order + [u.unit], byId[u.unit := u])
      && Indexed(order + [u.unit], byId[u.unit := u])
  {
    var units := Listed(order, byId);
    assert forall i | 0 <= i < |order| :: order[i] in order && units[i].unit == order[i];
    assert Declares(units, u.unit) <==> u.unit in byId by {
      if u.unit in byId {
        var i :| 0 <= i < |order| && order[i] == u.unit;
        assert units[i].unit == u.unit;
      }
    }
  }

  lemma EmptyListing()
    ensures Indexed([], map[]) && Listed([], map[]) == []
  {
  }

  lemma KeptSoFar(current: seq<PlanUnit>, i: nat, byId: Plan)
    requires DistinctIds(current) && i < |current|
    requires forall id | id in byId :: Declares(current[..i], id)
    ensures current[i].unit !in byId
    ensures forall id | id in byId :: Declares(current[..i + 1], id)
    ensures Declares(current[..i + 1], current[i].unit)
  {
    forall id | id in byId ensures Declares(current[..i + 1], id) && id != current[i].unit {
      var j :| 0 <= j < i && current[..i][j].unit == id;
      assert current[..i + 1][j].unit == id;
    }
    assert current[..i + 1][i].unit == current[i].unit;
  }

  /** The revision as the runtime builds it: an identity index and the order the
      identities first appear in. */
  method ReviseUnits(current: seq<PlanUnit>, adds: seq<PlanUnit>, withdrawals: seq<string>) returns (result: seq<PlanUnit>)
    requires DistinctIds(current)
    ensures result == Revised(current, adds, withdrawals)
  {
    hide Insert, Indexed, Listed;
    var byId: Plan := map[];
    var order: seq<string> := [];
    EmptyListing();
    for i := 0 to |current|
      invariant Indexed(order, byId) && Listed(order, byId) == Kept(current[..i], withdrawals)
      invariant forall id | id in byId :: Declares(current[..i], id)
    {
      assert current[..i + 1][..i] == current[..i];
      KeptSoFar(current, i, byId);
      if current[i].unit !in withdrawals {
        InsertListed(order, byId, current[i]);
        byId, order := byId[current[i].unit := current[i]], order + [current[i].unit];
      }
    }
    assert current[..|current|] == current;
    var kept := Kept(current, withdrawals);
    for i := 0 to |adds|
      invariant Indexed(order, byId) && Listed(order, byId) == InsertAll(kept, adds[..i])
    {
      assert adds[..i + 1][..i] == adds[..i];
      InsertListed(order, byId, adds[i]);
      if adds[i].unit !in byId {
        order := order + [adds[i].unit];
      }
      byId := byId[adds[i].unit := adds[i]];
    }
    assert adds[..|adds|] == adds;
    result := Listed(order, byId);
  }
}
