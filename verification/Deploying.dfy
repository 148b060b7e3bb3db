/** A whole deployment: validate, inspect, then one transaction. */
module Deploying {
  import opened Decimal
  import opened Ordering
  import opened Paths
  import opened FileSystem
  import opened Deployment

  // ---- Inspection ----

  datatype Inspection = Unreadable | Unchanged | ToWrite(pending: Pending)

  /** The pending write agrees with the tree it was inspected in. */
  ghost predicate Inspected(tree: Tree, a: Artifact, p: Pending) {
    && p.path == a.path && p.content == a.content
    && tree.At(a.path) == (if p.present then Some(p.original) else None) && tree.At(a.path) != Some(a.content)
    && a.path !in tree.dirs && OutermostFirst(tree, p.missing)
    && forall d :: d in p.missing <==> d in Ancestors(a.path) && d !in tree.dirs
  }

  /** The ancestors still to be created, outermost first; a file among them is
      an error. */
  method InspectPath(disk: Disk, path: string) returns (ok: bool, missing: seq<string>)
    requires disk.Valid()
    modifies disk`clock
    ensures disk.Valid() && disk.clock >= old(disk.clock)
    ensures ok ==> NoFileAbove(disk.tree, path) && MissingOf(disk.tree, Ancestors(path), missing)
    ensures !ok ==> disk.Faulted(old(disk.clock), disk.clock) || !NoFileAbove(disk.tree, path)
  {
    hide MissingOf;
    var components := Ancestors(path);
    missing := [];
    NoneMissingYet(disk.tree);
    assert components[..0] == [];
    for i := 0 to |components|
      invariant disk.Valid() && disk.clock >= old(disk.clock)
      invariant MissingOf(disk.tree, components[..i], missing)
      invariant forall k | 0 <= k < i :: components[k] !in disk.tree.files
    {
      var d := components[i];
      var fails := disk.Fails();
      if fails || d in disk.tree.files {
        return false, [];
      }
      MissingSoFar(disk.tree, path, i, missing);
      if d !in disk.tree.dirs {
        missing := missing + [d];
      }
    }
    assert components[..|components|] == components;
    ok := true;
  }

  /** Exactly the ancestors that are not there, each after the one it lies in. */
  ghost predicate MissingOf(tree: Tree, components: seq<string>, missing: seq<string>) {
    (forall d :: d in missing <==> d in components && d !in tree.dirs) && OutermostFirst(tree, missing)
  }

  lemma MissingSoFar(tree: Tree, path: string, i: nat, missing: seq<string>)
    requires Root in tree.dirs && i < |Ancestors(path)| && MissingOf(tree, Ancestors(path)[..i], missing)
    ensures var d := Ancestors(path)[i];
            MissingOf(tree, Ancestors(path)[..i + 1], if d in tree.dirs then missing else missing + [d])
  {
    hide OutermostFirst;
    var components := Ancestors(path);
    AncestorsInOrder(path, i);
    if i > 0 { assert components[..i][i - 1] == components[i - 1]; }
    assert components[..i + 1] == components[..i] + [components[i]];
    OneMoreMissing(tree, missing, components[i]);
  }

  lemma NoneMissingYet(tree: Tree)
    ensures MissingOf(tree, [], [])
  {
  }

  lemma OneMoreMissing(tree: Tree, missing: seq<string>, d: string)
    requires OutermostFirst(tree, missing) && (Dir(d) in tree.dirs || Dir(d) in missing)
    ensures OutermostFirst(tree, missing + [d])
  {
    var more := missing + [d];
    assert more[..|missing|] == missing;
    forall j | 0 <= j < |more| ensures Dir(more[j]) in tree.dirs || Dir(more[j]) in more[..j] {
      if j < |missing| { assert more[..j] == missing[..j]; }
    }
  }

  /** A destination a file can be written at, once its ancestors are there. */
  predicate Free(tree: Tree, path: string) {
    NoFileAbove(tree, path) && path !in tree.dirs
  }

  method InspectArtifact(disk: Disk, a: Artifact) returns (r: Inspection)
    requires disk.Valid()
    modifies disk`clock
    ensures disk.Valid() && disk.clock >= old(disk.clock)
    ensures r.Unchanged? ==> disk.tree.At(a.path) == Some(a.content)
    ensures r.ToWrite? ==> Inspected(disk.tree, a, r.pending) && NoFileAbove(disk.tree, a.path)
    ensures r.Unreadable? ==> disk.Faulted(old(disk.clock), disk.clock) || !Free(disk.tree, a.path)
    ensures !r.Unreadable? ==> Free(disk.tree, a.path)
  {
    var ok, missing := InspectPath(disk, a.path);
    if !ok {
      return Unreadable;
    }
    var fails := disk.Fails();
    if fails || a.path in disk.tree.dirs {
      return Unreadable;
    }
    if a.path !in disk.tree.files {
      return ToWrite(Pending(a.path, false, [], a.content, missing));
    }
    fails := disk.Fails();
    if fails {
      return Unreadable;
    }
    var current := disk.tree.files[a.path];
    if current == a.content {
      return Unchanged;
    }
    return ToWrite(Pending(a.path, true, current, a.content, missing));
  }

  type Observed = map<string, Option<Bytes>>

  /** Every destination still holds what was observed there. */
  predicate AsObserved(tree: Tree, artifacts: seq<Artifact>, observed: Observed) {
    forall i | 0 <= i < |artifacts| && artifacts[i].path in observed :: observed[artifacts[i].path] == tree.At(artifacts[i].path)
  }

  ghost predicate PlanFor(tree: Tree, artifacts: seq<Artifact>, plan: seq<Pending>, matching: seq<string>) {
    && (forall k | 0 <= k < |plan| :: PlannedFrom(tree, artifacts, plan[k]))
    && (forall i, j | 0 <= i < j < |plan| :: plan[i].path != plan[j].path)
    && (forall a | a in artifacts :: Placed(tree, a, plan, matching))
    && (forall p | p in matching :: p in tree.files && Artifact(p, tree.files[p]) in artifacts)
  }

  ghost predicate PlannedFrom(tree: Tree, artifacts: seq<Artifact>, p: Pending) {
    Inspected(tree, Artifact(p.path, p.content), p) && NoFileAbove(tree, p.path) && Artifact(p.path, p.content) in artifacts
  }

  /** An artifact is already in place, or planned. */
  predicate Placed(tree: Tree, a: Artifact, plan: seq<Pending>, matching: seq<string>) {
    if tree.At(a.path) == Some(a.content) then a.path in matching else InPlan(plan, a)
  }

  predicate InPlan(plan: seq<Pending>, a: Artifact) {
    exists k :: 0 <= k < |plan| && plan[k].path == a.path && plan[k].content == a.content
  }

  method InspectDeployments(disk: Disk, artifacts: seq<Artifact>, observed: Observed)
    returns (ok: bool, plan: seq<Pending>, matching: seq<string>)
    requires disk.Valid() && DistinctPaths(artifacts)
    modifies disk`clock
    ensures disk.Valid() && disk.clock >= old(disk.clock)
    ensures ok ==> AsObserved(disk.tree, artifacts, observed) && PlanFor(disk.tree, artifacts, plan, matching)
    ensures ok ==> forall a | a in artifacts :: Free(disk.tree, a.path)
    ensures ok && Ordering.Sorted(PathsOf(artifacts)) ==> Ordering.Sorted(PlanPaths(plan)) && Ordering.Sorted(matching)
    ensures !ok ==> disk.Faulted(old(disk.clock), disk.clock) || !AsObserved(disk.tree, artifacts, observed)
                    || exists a :: a in artifacts && !Free(disk.tree, a.path)
  {
    hide Inspected, NoFileAbove, PlanFor, Free, ListedInOrder;
    NothingListed(artifacts);
    NothingPlanned(disk.tree);
    plan, matching := [], [];
    for i := 0 to |artifacts|
      invariant disk.Valid() && disk.clock >= old(disk.clock)
      invariant AsObserved(disk.tree, artifacts[..i], observed) && PlanFor(disk.tree, artifacts[..i], plan, matching)
      invariant forall a | a in artifacts[..i] :: Free(disk.tree, a.path)
      invariant ListedInOrder(artifacts, i, PlanPaths(plan)) && ListedInOrder(artifacts, i, matching)
    {
      var a := artifacts[i];
      assert artifacts[..i + 1] == artifacts[..i] + [a];
      var r := InspectArtifact(disk, a);
      if r.Unreadable? {
        return false, [], [];
      }
      if a.path in observed && observed[a.path] != disk.tree.At(a.path) {
        return false, [], [];
      }
      assert forall b | b in artifacts[..i] :: b.path != a.path;
      if r.Unchanged? {
        PlanKeeps(disk.tree, artifacts[..i], a, plan, matching);
        ListedNext(artifacts, i, PlanPaths(plan), matching);
        matching := matching + [a.path];
      } else {
        PlanAdds(disk.tree, artifacts[..i], a, plan, matching, r.pending);
        ListedNext(artifacts, i, matching, PlanPaths(plan));
        PlanPathsNext(plan, r.pending);
        InspectedAs(disk.tree, a, r.pending);
        plan := plan + [r.pending];
      }
    }
    assert artifacts[..|artifacts|] == artifacts;
    ListedSorted(artifacts, PlanPaths(plan));
    ListedSorted(artifacts, matching);
    ok := true;
  }

  /** Paths of the artifacts before index i, in the order of the artifacts. */
  ghost predicate ListedInOrder(artifacts: seq<Artifact>, i: nat, paths: seq<string>) {
    && i <= |artifacts|
    && (forall p | p in paths :: p in PathsOf(artifacts)[..i])
    && (Ordering.Sorted(PathsOf(artifacts)) ==> Ordering.Sorted(paths))
  }

  lemma NothingListed(artifacts: seq<Artifact>)
    ensures ListedInOrder(artifacts, 0, []) && PlanPaths([]) == []
  {
  }

  lemma ListedSorted(artifacts: seq<Artifact>, paths: seq<string>)
    requires ListedInOrder(artifacts, |artifacts|, paths)
    ensures Ordering.Sorted(PathsOf(artifacts)) ==> Ordering.Sorted(paths)
  {
  }

  lemma ListedNext(artifacts: seq<Artifact>, i: nat, without: seq<string>, paths: seq<string>)
    requires i < |artifacts| && ListedInOrder(artifacts, i, without) && ListedInOrder(artifacts, i, paths)
    ensures ListedInOrder(artifacts, i + 1, without) && ListedInOrder(artifacts, i + 1, paths + [artifacts[i].path])
  {
    hide Less;
    var all, p := PathsOf(artifacts), artifacts[i].path;
    assert all[..i + 1] == all[..i] + [p];
    if Ordering.Sorted(all) {
      forall x | x in paths ensures Less(x, p) {
        var k :| 0 <= k < i && all[..i][k] == x;
        assert Less(all[k], all[i]);
      }
    }
  }

  lemma PlanPathsNext(plan: seq<Pending>, p: Pending)
    ensures PlanPaths(plan + [p]) == PlanPaths(plan) + [p.path]
  {
  }

  lemma NothingPlanned(tree: Tree)
    ensures PlanFor(tree, [], [], [])
  {
  }

  lemma PlanKeeps(tree: Tree, earlier: seq<Artifact>, a: Artifact, plan: seq<Pending>, matching: seq<string>)
    requires PlanFor(tree, earlier, plan, matching) && tree.At(a.path) == Some(a.content)
    ensures PlanFor(tree, earlier + [a], plan, matching + [a.path])
  {
    hide NoFileAbove, InPlan, Inspected;
    var more := earlier + [a];
    assert forall b :: b in more <==> b in earlier || b == a;
    assert Artifact(a.path, a.content) == a;
    forall k | 0 <= k < |plan| ensures PlannedFrom(tree, more, plan[k]) { assert PlannedFrom(tree, earlier, plan[k]); }
    forall b | b in more ensures Placed(tree, b, plan, matching + [a.path]) {
      if b in earlier { assert Placed(tree, b, plan, matching); }
    }
  }

  lemma PlanAdds(tree: Tree, earlier: seq<Artifact>, a: Artifact, plan: seq<Pending>, matching: seq<string>, p: Pending)
    requires PlanFor(tree, earlier, plan, matching) && Inspected(tree, a, p) && NoFileAbove(tree, a.path)
    requires forall b | b in earlier :: b.path != a.path
    ensures PlanFor(tree, earlier + [a], plan + [p], matching)
  {
    hide NoFileAbove, InPlan, Inspected;
    var more, longer := earlier + [a], plan + [p];
    assert forall b :: b in more <==> b in earlier || b == a;
    assert Artifact(a.path, a.content) == a;
    InspectedAs(tree, a, p);
    InPlanGrows(plan, ToWrite(p));
    forall k | 0 <= k < |longer| ensures PlannedFrom(tree, more, longer[k]) ensures k < |plan| ==> longer[k].path != p.path {
      if k < |plan| {
        assert longer[k] == plan[k] && PlannedFrom(tree, earlier, plan[k]);
      }
    }
    forall b | b in more ensures Placed(tree, b, longer, matching) {
      if b in earlier { assert Placed(tree, b, plan, matching); }
    }
  }

  lemma InspectedAs(tree: Tree, a: Artifact, p: Pending)
    requires Inspected(tree, a, p)
    ensures p.path == a.path && p.content == a.content && tree.At(a.path) != Some(a.content)
  {
  }

  lemma InPlanGrows(plan: seq<Pending>, r: Inspection)
    ensures r.ToWrite? ==> InPlan(plan + [r.pending], Artifact(r.pending.path, r.pending.content))
    ensures r.ToWrite? ==> forall a :: InPlan(plan, a) ==> InPlan(plan + [r.pending], a)
  {
    if r.ToWrite? {
      var more := plan + [r.pending];
      assert more[|plan|] == r.pending;
      forall a | InPlan(plan, a) ensures InPlan(more, a) {
        var k :| 0 <= k < |plan| && plan[k].path == a.path && plan[k].content == a.content;
        assert more[k] == plan[k];
      }
    }
  }

  lemma PlanIsPlanned(tree: Tree, artifacts: seq<Artifact>, plan: seq<Pending>, matching: seq<string>)
    requires PlanFor(tree, artifacts, plan, matching)
    ensures Planned(tree, plan)
  {
    forall i | 0 <= i < |plan| ensures tree.At(plan[i].path) == if plan[i].present then Some(plan[i].original) else None {
      assert PlannedFrom(tree, artifacts, plan[i]);
    }
    forall i, d | 0 <= i < |plan| && d in plan[i].missing ensures d != Root && d !in tree.dirs && d !in tree.files {
      assert PlannedFrom(tree, artifacts, plan[i]);
      AncestorsBelowRoot(plan[i].path, d);
    }
  }

  /** Only a fault, or a cancellation, can stop a plan whose destinations are
      free and none of which is a directory of another. */
  lemma PlanIsFeasible(tree: Tree, input: seq<Artifact>, plan: seq<Pending>, matching: seq<string>)
    requires PlanFor(tree, input, plan, matching) && NoneHoldsAnother(input) && tree.WellFormed()
    ensures AllFeasible(tree, plan)
  {
    hide NoneHoldsAnother, PlanFor;
    PlannedEach(tree, input, plan, matching);
    forall i | 0 <= i < |plan| ensures Feasible(tree, plan, i) {
      var path := plan[i].path;
      assert PlannedFrom(tree, input, plan[i]);
      if Dir(path) != Root { assert Dir(path) in Ancestors(path); }
      forall k | 0 <= k < |plan| && path in plan[k].missing ensures false {
        assert PlannedFrom(tree, input, plan[k]);
        AncestorsAreAncestors(plan[k].path, path);
        NoneHolds(input, Artifact(path, plan[i].content), Artifact(plan[k].path, plan[k].content));
      }
    }
  }

  lemma PlannedEach(tree: Tree, input: seq<Artifact>, plan: seq<Pending>, matching: seq<string>)
    requires PlanFor(tree, input, plan, matching)
    ensures forall k | 0 <= k < |plan| :: PlannedFrom(tree, input, plan[k])
  {
    hide PlannedFrom;
  }

  lemma NoneHolds(input: seq<Artifact>, a: Artifact, b: Artifact)
    requires NoneHoldsAnother(input) && a in input && b in input
    ensures !AncestorOf(a.path, b.path)
  {
    var i :| 0 <= i < |input| && input[i] == a;
    var j :| 0 <= j < |input| && input[j] == b;
  }

  // ---- One deployment ----

  /** The paths whose artifacts are still to be written, in order. */
  function ToWritePaths(before: Tree, input: seq<Artifact>): seq<string> {
    SortedSeq(set a | a in input && before.At(a.path) != Some(a.content) :: a.path)
  }

  /** The paths whose artifacts are in place already, in order. */
  function MatchingPaths(before: Tree, input: seq<Artifact>): seq<string> {
    SortedSeq(set a | a in input && before.At(a.path) == Some(a.content) :: a.path)
  }

  /** Writes go in path order up to the first check that finds the deployment
      cancelled; what was written and what was not is reported in that order. */
  ghost predicate InOrder(before: Tree, input: seq<Artifact>, cancelled: nat -> bool, r: Outcome) {
    var pending := ToWritePaths(before, input);
    var k := FirstCancelled(cancelled, 0, |pending|);
    && (r.Deployed? ==> k == |pending| && r.changed == pending && r.matching == MatchingPaths(before, input))
    && (r.Stopped? ==> k < |pending| && r.changed == pending[..k] && r.notApplied == pending[k..] && r.matching == MatchingPaths(before, input))
  }

  lemma PlanInOrder(before: Tree, input: seq<Artifact>, plan: seq<Pending>, matching: seq<string>)
    requires PlanFor(before, input, plan, matching) && DistinctPaths(input)
    requires Ordering.Sorted(PlanPaths(plan)) && Ordering.Sorted(matching)
    ensures PlanPaths(plan) == ToWritePaths(before, input) && matching == MatchingPaths(before, input)
  {
    hide Ordering.Sorted, DistinctPaths, InPlan;
    forall p ensures p in PlanPaths(plan) <==> p in ToWritePaths(before, input) ensures p in matching <==> p in MatchingPaths(before, input) {
      PendingPath(before, input, plan, matching, p);
    }
    SortedUnique(PlanPaths(plan), ToWritePaths(before, input));
    SortedUnique(matching, MatchingPaths(before, input));
  }

  lemma PendingPath(before: Tree, input: seq<Artifact>, plan: seq<Pending>, matching: seq<string>, p: string)
    requires PlanFor(before, input, plan, matching) && DistinctPaths(input)
    ensures p in PlanPaths(plan) <==> exists a :: a in input && a.path == p && before.At(p) != Some(a.content)
    ensures p in matching <==> exists a :: a in input && a.path == p && before.At(p) == Some(a.content)
  {
    if p in PlanPaths(plan) {
      var k :| 0 <= k < |plan| && PlanPaths(plan)[k] == p;
      assert PlannedFrom(before, input, plan[k]);
      assert Artifact(plan[k].path, plan[k].content) in input;
    }
    if a :| a in input && a.path == p && before.At(p) != Some(a.content) {
      PlannedWhenDifferent(before, input, plan, matching, a);
      var k :| 0 <= k < |plan| && plan[k].path == a.path && plan[k].content == a.content;
      assert PlanPaths(plan)[k] == p;
    }
    if p in matching { assert Artifact(p, before.files[p]) in input; }
    if a :| a in input && a.path == p && before.At(p) == Some(a.content) { PlannedWhenDifferent(before, input, plan, matching, a); }
  }

  lemma StoppedInOrder(before: Tree, now: Tree, input: seq<Artifact>, plan: seq<Pending>, matching: seq<string>,
                       files: seq<Staged>, order: seq<string>, cancelled: nat -> bool, clean: bool)
    requires Underway(before, now, plan, files, order) && |files| == |plan|
    requires FirstCancelled(cancelled, 0, |plan|) < |plan| && InstalledUpTo(files, FirstCancelled(cancelled, 0, |plan|))
    requires PlanPaths(plan) == ToWritePaths(before, input) && matching == MatchingPaths(before, input)
    ensures InOrder(before, input, cancelled, Stopped(PathsWhere(files, true), matching, PathsWhere(files, false), clean))
  {
    hide Underway, PathsWhere, ToWritePaths, MatchingPaths, FirstCancelled;
    var k := FirstCancelled(cancelled, 0, |plan|);
    FilesFollow(before, now, plan, files, order);
    PathsUpTo(plan, files, k);
    assert PathsWhere(files, true) == PlanPaths(plan)[..k] && PathsWhere(files, false) == PlanPaths(plan)[k..];
  }

  lemma DeployedInOrder(before: Tree, input: seq<Artifact>, plan: seq<Pending>, matching: seq<string>, cancelled: nat -> bool, clean: bool)
    requires FirstCancelled(cancelled, 0, |plan|) == |plan|
    requires PlanPaths(plan) == ToWritePaths(before, input) && matching == MatchingPaths(before, input)
    ensures InOrder(before, input, cancelled, Deployed(PlanPaths(plan), matching, clean))
  {
    hide ToWritePaths, MatchingPaths, FirstCancelled;
  }

  lemma NothingInOrder(before: Tree, input: seq<Artifact>, cancelled: nat -> bool)
    ensures InOrder(before, input, cancelled, Refused) && InOrder(before, input, cancelled, Failed(true)) && InOrder(before, input, cancelled, Failed(false))
  {
  }

  /** What a deployment demands of its artifacts and of the tree it finds. */
  ghost predicate Deployable(tree: Tree, managed: set<string>, input: seq<Artifact>, observed: Observed) {
    && DistinctPaths(input) && AllManaged(managed, input) && NoneHoldsAnother(input)
    && AsObserved(tree, input, observed) && forall a | a in input :: Free(tree, a.path)
  }

  datatype Outcome =
    | Refused
    | Failed(undone: bool)
    | Stopped(changed: seq<string>, matching: seq<string>, notApplied: seq<string>, clean: bool)
    | Deployed(changed: seq<string>, matching: seq<string>, clean: bool)

  predicate Names(input: seq<Artifact>, path: string) {
    exists i :: 0 <= i < |input| && input[i].path == path
  }

  /** Every path no artifact names is as it was. */
  ghost predicate OthersUntouched(before: Tree, now: Tree, input: seq<Artifact>) {
    forall p | !Names(input, p) :: now.At(p) == before.At(p)
  }

  predicate NeedsDirectory(input: seq<Artifact>, d: string) {
    exists i :: 0 <= i < |input| && d in Ancestors(input[i].path)
  }

  /** Every artifact holds its content, nothing else changed, and only missing
      ancestors were created. */
  ghost predicate InPlace(before: Tree, now: Tree, input: seq<Artifact>) {
    && (forall a | a in input :: now.At(a.path) == Some(a.content))
    && OthersUntouched(before, now, input)
    && (forall d :: d in now.dirs <==> d in before.dirs || NeedsDirectory(input, d))
  }

  /** What was pending is split into applied, holding the new bytes, and not
      applied, holding what it had. */
  ghost predicate Split(before: Tree, now: Tree, input: seq<Artifact>, changed: seq<string>, notApplied: seq<string>) {
    && (forall a | a in input :: SplitOne(before, now, a, changed, notApplied))
    && OthersUntouched(before, now, input)
  }

  predicate SplitOne(before: Tree, now: Tree, a: Artifact, changed: seq<string>, notApplied: seq<string>) {
    && ((a.path in changed || a.path in notApplied) <==> before.At(a.path) != Some(a.content))
    && !(a.path in changed && a.path in notApplied)
    && now.At(a.path) == if a.path in changed then Some(a.content) else before.At(a.path)
  }

  ghost predicate Reported(before: Tree, input: seq<Artifact>, changed: seq<string>, matching: seq<string>) {
    forall a | a in input ::
      if before.At(a.path) == Some(a.content) then a.path in matching && a.path !in changed else a.path in changed
  }

  function PlanPaths(plan: seq<Pending>): seq<string> {
    seq(|plan|, i requires 0 <= i < |plan| => plan[i].path)
  }

  lemma ForeignToPlan(tree: Tree, input: seq<Artifact>, plan: seq<Pending>, matching: seq<string>, p: string)
    requires PlanFor(tree, input, plan, matching) && !Names(input, p)
    ensures Foreign(plan, p)
  {
    forall k | 0 <= k < |plan| ensures plan[k].path != p {
      assert PlannedFrom(tree, input, plan[k]);
      var i :| 0 <= i < |input| && input[i] == Artifact(plan[k].path, plan[k].content);
    }
  }

  /** An artifact is planned exactly when its content differs. */
  lemma PlannedWhenDifferent(tree: Tree, input: seq<Artifact>, plan: seq<Pending>, matching: seq<string>, a: Artifact)
    requires PlanFor(tree, input, plan, matching) && DistinctPaths(input) && a in input
    ensures tree.At(a.path) == Some(a.content) ==> Foreign(plan, a.path) && a.path in matching
    ensures tree.At(a.path) != Some(a.content) ==> InPlan(plan, a)
  {
    assert Placed(tree, a, plan, matching);
    if tree.At(a.path) == Some(a.content) {
      forall k | 0 <= k < |plan| ensures plan[k].path != a.path {
        assert PlannedFrom(tree, input, plan[k]);
        SameArtifact(input, a, Artifact(plan[k].path, plan[k].content));
      }
    }
  }

  lemma SameArtifact(input: seq<Artifact>, a: Artifact, b: Artifact)
    requires DistinctPaths(input) && a in input && b in input
    ensures a.path == b.path ==> a == b
  {
    var i :| 0 <= i < |input| && input[i] == a;
    var j :| 0 <= j < |input| && input[j] == b;
  }

  lemma FilesOf(before: Tree, now: Tree, plan: seq<Pending>, files: seq<Staged>, order: seq<string>)
    requires Underway(before, now, plan, files, order)
    ensures Follows(plan, files)
    ensures forall k | 0 <= k < |plan| ::
      now.At(plan[k].path) == if k < |files| && files[k].installed then Some(plan[k].content) else before.At(plan[k].path)
    ensures forall p | Foreign(plan, p) :: now.At(p) == before.At(p)
  {
    forall k | 0 <= k < |plan|
      ensures now.At(plan[k].path) == if k < |files| && files[k].installed then Some(plan[k].content) else before.At(plan[k].path)
    {
      assert Holds(now.files, plan[k].path, if k < |files| && files[k].installed then Some(plan[k].content) else before.At(plan[k].path));
    }
    forall p | Foreign(plan, p) ensures now.At(p) == before.At(p) { assert Holds(now.files, p, before.At(p)); }
  }

  lemma OthersStay(before: Tree, now: Tree, input: seq<Artifact>, plan: seq<Pending>, matching: seq<string>)
    requires PlanFor(before, input, plan, matching)
    requires forall p | Foreign(plan, p) :: now.At(p) == before.At(p)
    ensures OthersUntouched(before, now, input)
  {
    hide PlanFor, Foreign, Names;
    forall p | !Names(input, p) ensures now.At(p) == before.At(p) { ForeignToPlan(before, input, plan, matching, p); }
  }

  lemma ConfinedOthers(before: Tree, now: Tree, input: seq<Artifact>, plan: seq<Pending>, matching: seq<string>, files: seq<Staged>)
    requires PlanFor(before, input, plan, matching) && Confined(before, now, plan, files)
    ensures OthersUntouched(before, now, input)
  {
    hide PlanFor, Foreign, TempsApart;
    forall p | Foreign(plan, p) ensures now.At(p) == before.At(p) { assert Holds(now.files, p, before.At(p)); }
    OthersStay(before, now, input, plan, matching);
  }

  lemma AllInstalled(before: Tree, now: Tree, input: seq<Artifact>, plan: seq<Pending>, matching: seq<string>,
                     files: seq<Staged>, order: seq<string>)
    requires PlanFor(before, input, plan, matching) && DistinctPaths(input)
    requires Underway(before, now, plan, files, order) && |files| == |plan| && Elements(order) == AllMissing(plan)
    requires forall i | 0 <= i < |files| :: files[i].installed
    ensures InPlace(before, now, input)
  {
    hide PlanFor, Foreign, Names, NeedsDirectory, Underway;
    FilesOf(before, now, plan, files, order);
    OthersStay(before, now, input, plan, matching);
    forall a | a in input ensures now.At(a.path) == Some(a.content) {
      PlannedWhenDifferent(before, input, plan, matching, a);
      if before.At(a.path) != Some(a.content) {
        var k :| 0 <= k < |plan| && plan[k].path == a.path && plan[k].content == a.content;
      }
    }
    DirsNow(before, now, plan, files, order);
    UnderwayIsFormed(before, now, plan, files, order);
    DirectoriesMade(before, input, plan, matching);
  }

  lemma UnderwayIsFormed(before: Tree, now: Tree, plan: seq<Pending>, files: seq<Staged>, order: seq<string>)
    requires Underway(before, now, plan, files, order)
    ensures before.WellFormed()
  {
  }

  lemma DirectoriesMade(before: Tree, input: seq<Artifact>, plan: seq<Pending>, matching: seq<string>)
    requires PlanFor(before, input, plan, matching) && DistinctPaths(input) && before.WellFormed()
    ensures forall d :: d in before.dirs || d in AllMissing(plan) <==> d in before.dirs || NeedsDirectory(input, d)
  {
    forall d | d !in before.dirs ensures d in AllMissing(plan) <==> NeedsDirectory(input, d) {
      if d in AllMissing(plan) {
        var k :| 0 <= k < |plan| && d in plan[k].missing;
        assert PlannedFrom(before, input, plan[k]);
        var i :| 0 <= i < |input| && input[i] == Artifact(plan[k].path, plan[k].content);
        assert d in Ancestors(input[i].path);
      }
      if NeedsDirectory(input, d) {
        var i :| 0 <= i < |input| && d in Ancestors(input[i].path);
        PlannedWhenDifferent(before, input, plan, matching, input[i]);
        if before.At(input[i].path) == Some(input[i].content) {
          assert before.WellFormed();
          RootIsNoFile(before, input[i].path);
          AncestorsPresent(before, input[i].path);
          assert false;
        } else {
          var k :| 0 <= k < |plan| && plan[k].path == input[i].path && plan[k].content == input[i].content;
          assert PlannedFrom(before, input, plan[k]);
          assert d in plan[k].missing;
        }
      }
    }
  }

  lemma {:induction false} WhereMembers(plan: seq<Pending>, files: seq<Staged>, installed: bool)
    requires Follows(plan, files)
    ensures forall p :: p in PathsWhere(files, installed) <==> exists k :: 0 <= k < |files| && files[k].path == p && files[k].installed == installed
    decreases |files|
  {
    if files != [] {
      var n := |files| - 1;
      WhereMembers(plan, files[..n], installed);
      forall p ensures p in PathsWhere(files, installed) <==> exists k :: 0 <= k < |files| && files[k].path == p && files[k].installed == installed {
        if p in PathsWhere(files[..n], installed) {
          var k :| 0 <= k < n && files[..n][k].path == p && files[..n][k].installed == installed;
          assert files[k].path == p;
        }
        if k :| 0 <= k < |files| && files[k].path == p && files[k].installed == installed {
          if k < n { assert files[..n][k].path == p; }
        }
      }
    }
  }

  lemma CancelledSplit(before: Tree, now: Tree, input: seq<Artifact>, plan: seq<Pending>, matching: seq<string>,
                       files: seq<Staged>, order: seq<string>)
    requires PlanFor(before, input, plan, matching) && DistinctPaths(input)
    requires Underway(before, now, plan, files, order) && |files| == |plan|
    ensures Split(before, now, input, PathsWhere(files, true), PathsWhere(files, false))
  {
    hide PlanFor, Names, Underway, PathsWhere;
    FilesOf(before, now, plan, files, order);
    OthersStay(before, now, input, plan, matching);
    WhereMembers(plan, files, true);
    WhereMembers(plan, files, false);
    PlanDistinct(before, input, plan, matching);
    forall a | a in input ensures SplitOne(before, now, a, PathsWhere(files, true), PathsWhere(files, false)) {
      PlannedWhenDifferent(before, input, plan, matching, a);
      if before.At(a.path) != Some(a.content) {
        var k :| 0 <= k < |plan| && plan[k].path == a.path && plan[k].content == a.content;
        assert files[k].path == a.path;
      }
    }
  }

  lemma PlanDistinct(tree: Tree, input: seq<Artifact>, plan: seq<Pending>, matching: seq<string>)
    requires PlanFor(tree, input, plan, matching)
    ensures forall i, j | 0 <= i < j < |plan| :: plan[i].path != plan[j].path
  {
  }

  lemma ChangedReported(tree: Tree, input: seq<Artifact>, plan: seq<Pending>, matching: seq<string>)
    requires PlanFor(tree, input, plan, matching) && DistinctPaths(input)
    ensures Reported(tree, input, PlanPaths(plan), matching)
  {
    hide PlanFor;
    forall a | a in input
      ensures if tree.At(a.path) == Some(a.content) then a.path in matching && a.path !in PlanPaths(plan) else a.path in PlanPaths(plan)
    {
      PlannedWhenDifferent(tree, input, plan, matching, a);
      if tree.At(a.path) != Some(a.content) {
        var k :| 0 <= k < |plan| && plan[k].path == a.path && plan[k].content == a.content;
        assert PlanPaths(plan)[k] == a.path;
      }
    }
  }

  /** A deployable set is deployed unless a fault or a cancellation comes in
      between; any other is refused.

      All or nothing, whatever fails and wherever. A failed deployment is undone
      completely unless undoing itself fails, which takes a fault after
      `undoing`; one that succeeds leaves every artifact in place and nothing
      else changed; one cancelled between artifacts splits the pending paths
      into new bytes and original ones. */
  method DeployObserved(disk: Disk, managed: set<string>, input: seq<Artifact>, observed: Observed, cancelled: nat -> bool)
    returns (r: Outcome, ghost undoing: nat)
    requires disk.Valid()
    requires forall i | 0 <= i < |input| :: Relative(input[i].path)
    modifies disk
    ensures disk.Valid()
    ensures !Deployable(old(disk.tree), managed, input, observed) ==> r.Refused?
    ensures old(disk.clock) <= undoing <= disk.clock
    ensures r.Refused? ==> !Deployable(old(disk.tree), managed, input, observed) || disk.Faulted(old(disk.clock), disk.clock)
    ensures r.Failed? ==> disk.Faulted(old(disk.clock), undoing)
    ensures InOrder(old(disk.tree), input, cancelled, r)
    ensures r.Refused? ==> disk.tree == old(disk.tree)
    ensures r.Failed? ==> r.undone || disk.Faulted(undoing, disk.clock)
    ensures r.Failed? && r.undone ==> disk.tree == old(disk.tree)
    ensures r.Failed? ==> OthersUntouched(old(disk.tree), disk.tree, input) && old(disk.tree).dirs <= disk.tree.dirs
    ensures r.Deployed? ==> InPlace(old(disk.tree), disk.tree, input) && Reported(old(disk.tree), input, r.changed, r.matching)
    ensures r.Stopped? ==> Split(old(disk.tree), disk.tree, input, r.changed, r.notApplied)
    ensures r.Deployed? || r.Stopped? ==> if r.clean then disk.tree.temps == old(disk.tree).temps else disk.Faulted(undoing, disk.clock)
    ensures r.Stopped? ==> old(disk.tree).dirs <= disk.tree.dirs && (NoneEmpty(old(disk.tree), disk.tree) || disk.Faulted(undoing, disk.clock))
  {
    hide Underway, PlanFor, InPlace, Split, Reported, OthersUntouched, DistinctPaths, AllManaged, NoneHoldsAnother, Planned, Owned,
         AllMissing, Ordering.Sorted, Free, AllFeasible, Feasible, AsObserved, Lists, ListedInOrder, InstalledUpTo, ToWritePaths, MatchingPaths,
         InOrder, FirstCancelled, PathsWhere;
    ghost var start := disk.clock;
    NothingInOrder(disk.tree, input, cancelled);
    undoing := disk.clock;
    var ok, artifacts := PrepareDeployment(managed, input);
    if !ok {
      return Refused, undoing;
    }
    SortedPathsApart(artifacts);
    ObservedAlike(disk.tree, input, artifacts, observed);
    var matching, plan;
    ok, plan, matching := InspectDeployments(disk, artifacts, observed);
    if !ok {
      return Refused, undoing;
    }
    ghost var before := disk.tree;
    PlanForAlike(before, artifacts, input, plan, matching);
    PlanIsPlanned(before, artifacts, plan, matching);
    PlanIsFeasible(before, input, plan, matching);
    ChangedReported(before, input, plan, matching);
    PlanInOrder(before, input, plan, matching);
    if plan == [] {
      NothingToDeploy(before, input, plan, matching);
      assert PlanPaths(plan) == [];
      DeployedInOrder(before, input, plan, matching, cancelled, true);
      return Deployed([], matching, true), undoing;
    }
    ghost var moment := disk.clock;
    r, undoing := Transact(disk, input, plan, matching, cancelled);
    disk.FaultedLater(start, moment, undoing);
    disk.FaultedLater(start, moment, disk.clock);
  }

  lemma NothingToDeploy(before: Tree, input: seq<Artifact>, plan: seq<Pending>, matching: seq<string>)
    requires PlanFor(before, input, plan, matching) && DistinctPaths(input) && before.WellFormed() && plan == []
    ensures InPlace(before, before, input)
  {
    hide PlanFor, DistinctPaths;
    NoneMissing(plan);
    DirectoriesMade(before, input, plan, matching);
    forall a | a in input ensures before.At(a.path) == Some(a.content) { PlannedWhenDifferent(before, input, plan, matching, a); }
  }

  /** The transaction of a plan that has something to write. */
  method Transact(disk: Disk, ghost input: seq<Artifact>, plan: seq<Pending>, matching: seq<string>, cancelled: nat -> bool)
    returns (r: Outcome, ghost undoing: nat)
    requires disk.Valid() && PlanFor(disk.tree, input, plan, matching) && DistinctPaths(input)
    requires Planned(disk.tree, plan) && AllFeasible(disk.tree, plan)
    requires PlanPaths(plan) == ToWritePaths(disk.tree, input) && matching == MatchingPaths(disk.tree, input)
    requires Reported(disk.tree, input, PlanPaths(plan), matching)
    modifies disk
    ensures disk.Valid() && !r.Refused? && old(disk.clock) <= undoing <= disk.clock
    ensures r.Failed? ==> disk.Faulted(old(disk.clock), undoing)
    ensures InOrder(old(disk.tree), input, cancelled, r)
    ensures r.Failed? ==> r.undone || disk.Faulted(undoing, disk.clock)
    ensures r.Failed? && r.undone ==> disk.tree == old(disk.tree)
    ensures r.Failed? ==> OthersUntouched(old(disk.tree), disk.tree, input) && old(disk.tree).dirs <= disk.tree.dirs
    ensures r.Deployed? ==> InPlace(old(disk.tree), disk.tree, input) && Reported(old(disk.tree), input, r.changed, r.matching)
    ensures r.Stopped? ==> Split(old(disk.tree), disk.tree, input, r.changed, r.notApplied)
    ensures r.Deployed? || r.Stopped? ==> if r.clean then disk.tree.temps == old(disk.tree).temps else disk.Faulted(undoing, disk.clock)
    ensures r.Stopped? ==> old(disk.tree).dirs <= disk.tree.dirs && (NoneEmpty(old(disk.tree), disk.tree) || disk.Faulted(undoing, disk.clock))
  {
    hide Underway, PlanFor, InPlace, Split, Reported, OthersUntouched, DistinctPaths, Planned, Owned,
         AllMissing, Ordering.Sorted, AllFeasible, Feasible, InstalledUpTo, ToWritePaths, MatchingPaths, InOrder, FirstCancelled, PathsWhere, NoneEmpty;
    ghost var before, start, moment := disk.tree, disk.clock, disk.clock;
    undoing := disk.clock;
    NothingInOrder(before, input, cancelled);
    var tx := new Transaction(disk, plan);
    var ok := tx.Stage(plan);
    if !ok {
      undoing := disk.clock;
      disk.FaultedLater(start, moment, undoing);
      ok := tx.Rollback();
      ConfinedOthers(before, disk.tree, input, plan, matching, tx.files);
      return Failed(ok), undoing;
    }
    moment := disk.clock;
    var end := tx.Commit(cancelled);
    undoing := disk.clock;
    disk.FaultedLater(start, moment, undoing);
    match end {
      case CancelledBetween =>
        CancelledSplit(before, disk.tree, input, plan, matching, tx.files, tx.createdOrder);
        ghost var stopped := disk.tree;
        StoppedInOrder(before, disk.tree, input, plan, matching, tx.files, tx.createdOrder, cancelled, true);
        StoppedInOrder(before, disk.tree, input, plan, matching, tx.files, tx.createdOrder, cancelled, false);
        var changed, notApplied, clean := tx.StopCancelled();
        SplitByFiles(before, stopped, disk.tree, input, changed, notApplied);
        return Stopped(changed, matching, notApplied, clean), undoing;
      case Broken =>
        ok := tx.Rollback();
        ConfinedOthers(before, disk.tree, input, plan, matching, tx.files);
        return Failed(ok), undoing;
      case Committed =>
        AllInstalled(before, disk.tree, input, plan, matching, tx.files, tx.createdOrder);
        ghost var committed := disk.tree;
        StartsUndoing(before, disk.tree, plan, tx.files, tx.createdOrder);
        var clean := tx.CleanupTemps();
        InPlaceByFiles(before, committed, disk.tree, input);
        DeployedInOrder(before, input, plan, matching, cancelled, clean);
        return Deployed(PlanPaths(plan), matching, clean), undoing;
    }
  }

  lemma SortedPathsApart(artifacts: seq<Artifact>)
    requires Ordering.Sorted(PathsOf(artifacts))
    ensures DistinctPaths(artifacts)
  {
    SortedIsDistinct(PathsOf(artifacts));
    forall i, j | 0 <= i < j < |artifacts| ensures artifacts[i].path != artifacts[j].path {
      assert PathsOf(artifacts)[i] != PathsOf(artifacts)[j];
    }
  }

  lemma ObservedAlike(tree: Tree, input: seq<Artifact>, artifacts: seq<Artifact>, observed: Observed)
    requires forall a :: a in artifacts <==> a in input
    ensures AsObserved(tree, artifacts, observed) <==> AsObserved(tree, input, observed)
  {
    if AsObserved(tree, artifacts, observed) {
      forall i | 0 <= i < |input| && input[i].path in observed ensures observed[input[i].path] == tree.At(input[i].path) {
        assert input[i] in artifacts;
        var j :| 0 <= j < |artifacts| && artifacts[j] == input[i];
      }
    }
    if AsObserved(tree, input, observed) {
      forall i | 0 <= i < |artifacts| && artifacts[i].path in observed ensures observed[artifacts[i].path] == tree.At(artifacts[i].path) {
        assert artifacts[i] in input;
        var j :| 0 <= j < |input| && input[j] == artifacts[i];
      }
    }
  }

  lemma PlanForAlike(tree: Tree, artifacts: seq<Artifact>, input: seq<Artifact>, plan: seq<Pending>, matching: seq<string>)
    requires PlanFor(tree, artifacts, plan, matching) && forall a :: a in artifacts <==> a in input
    ensures PlanFor(tree, input, plan, matching)
  {
    hide NoFileAbove, InPlan, Inspected;
    forall k | 0 <= k < |plan| ensures PlannedFrom(tree, input, plan[k]) { assert PlannedFrom(tree, artifacts, plan[k]); }
    forall a | a in input ensures Placed(tree, a, plan, matching) { assert a in artifacts; }
  }

  lemma NoneMissing(plan: seq<Pending>)
    requires plan == []
    ensures AllMissing(plan) == {} == Elements([])
  {
  }

  lemma SplitByFiles(before: Tree, now: Tree, later: Tree, input: seq<Artifact>, changed: seq<string>, notApplied: seq<string>)
    requires Split(before, now, input, changed, notApplied) && later.files == now.files
    ensures Split(before, later, input, changed, notApplied)
  {
    forall a | a in input ensures SplitOne(before, later, a, changed, notApplied) { assert SplitOne(before, now, a, changed, notApplied); }
    forall p | !Names(input, p) ensures later.At(p) == before.At(p) { assert now.At(p) == before.At(p); }
  }

  lemma InPlaceByFiles(before: Tree, now: Tree, later: Tree, input: seq<Artifact>)
    requires InPlace(before, now, input) && later.files == now.files && later.dirs == now.dirs
    ensures InPlace(before, later, input)
  {
    hide NeedsDirectory;
    forall a | a in input ensures later.At(a.path) == Some(a.content) { assert now.At(a.path) == Some(a.content); }
    forall p | !Names(input, p) ensures later.At(p) == before.At(p) { assert now.At(p) == before.At(p); }
  }
}
