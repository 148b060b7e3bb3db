/** The deployment transaction: stage beside the destinations, rename into
    place, and undo in reverse when anything fails. */
module Deployment {
  import opened Decimal
  import opened Ordering
  import opened Paths
  import opened FileSystem

  /** One artifact awaiting install, with what inspection saw. */
  datatype Pending = Pending(path: string, present: bool, original: Bytes, content: Bytes, missing: seq<string>)

  /** One artifact written to temporaries, awaiting its rename. */
  datatype Staged = Staged(path: string, present: bool, original: Bytes, staged: Option<nat>, backup: Option<nat>, installed: bool)

  // ---- What holds all along ----

  /** The plan matches the tree it was inspected in. */
  ghost predicate Planned(before: Tree, plan: seq<Pending>) {
    && (forall i, j | 0 <= i < j < |plan| :: plan[i].path != plan[j].path)
    && (forall i | 0 <= i < |plan| :: before.At(plan[i].path) == if plan[i].present then Some(plan[i].original) else None)
    && (forall i, d | 0 <= i < |plan| && d in plan[i].missing :: d != Root && d !in before.dirs && d !in before.files)
  }

  /** Each directory follows the one it lies in, unless that is there already. */
  ghost predicate OutermostFirst(before: Tree, missing: seq<string>) {
    forall j | 0 <= j < |missing| :: Dir(missing[j]) in before.dirs || Dir(missing[j]) in missing[..j]
  }

  /** Nothing but a fault stands in the way of one artifact. */
  ghost predicate Feasible(before: Tree, plan: seq<Pending>, i: nat)
    requires i < |plan|
  {
    && OutermostFirst(before, plan[i].missing)
    && (Dir(plan[i].path) in before.dirs || Dir(plan[i].path) in plan[i].missing)
    && plan[i].path !in before.dirs && plan[i].path !in AllMissing(plan)
  }

  ghost predicate AllFeasible(before: Tree, plan: seq<Pending>) {
    forall i | 0 <= i < |plan| :: Feasible(before, plan, i)
  }

  ghost predicate Follows(plan: seq<Pending>, files: seq<Staged>) {
    && |files| <= |plan|
    && forall i | 0 <= i < |files| ::
         files[i].path == plan[i].path && files[i].present == plan[i].present && files[i].original == plan[i].original
  }

  /** Created directories are new, each under an older one. */
  ghost predicate DirsAre(before: Tree, dirs: set<string>, order: seq<string>) {
    && dirs == before.dirs + Elements(order)
    && (forall i, j | 0 <= i < j < |order| :: order[i] != order[j])
    && forall k | 0 <= k < |order| ::
         order[k] != Root && order[k] !in before.dirs && (Dir(order[k]) in before.dirs || Dir(order[k]) in order[..k])
  }

  predicate Holds(files: map<string, Bytes>, path: string, content: Option<Bytes>) {
    if content.Some? then path in files && files[path] == content.value else path !in files
  }

  ghost predicate Foreign(plan: seq<Pending>, path: string) {
    forall i | 0 <= i < |plan| :: plan[i].path != path
  }

  /** Installed artifacts below index n hold their content; every other path is
      as it was. */
  ghost predicate FilesAre(before: Tree, now: map<string, Bytes>, plan: seq<Pending>, files: seq<Staged>, n: int) {
    && (forall i | 0 <= i < |plan| ::
          Holds(now, plan[i].path, if i < n && i < |files| && files[i].installed then Some(plan[i].content) else before.At(plan[i].path)))
    && (forall p | Foreign(plan, p) :: Holds(now, p, before.At(p)))
  }

  predicate Owned(files: seq<Staged>, t: nat) {
    exists i :: 0 <= i < |files| && (files[i].staged == Some(t) || files[i].backup == Some(t))
  }

  /** Temporaries are the ones there were, and our own. */
  ghost predicate TempsApart(before: Tree, now: map<nat, Temp>, files: seq<Staged>) {
    && (forall t | t in before.temps :: t in now && now[t] == before.temps[t] && !Owned(files, t))
    && (forall t | t in now :: t in before.temps || Owned(files, t))
  }

  ghost predicate TempsDistinct(files: seq<Staged>) {
    && (forall i, j | 0 <= i < |files| && 0 <= j < |files| && files[i].staged.Some? :: files[j].backup != files[i].staged)
    && (forall i, j | 0 <= i < j < |files| && files[i].staged.Some? :: files[j].staged != files[i].staged)
    && (forall i, j | 0 <= i < j < |files| && files[i].backup.Some? :: files[j].backup != files[i].backup)
  }

  predicate HasTemp(now: map<nat, Temp>, t: Option<nat>, content: Bytes) {
    t.Some? && t.value in now && now[t.value].content == content
  }

  /** What is staged waits with its content, and what was replaced can be put
      back, for every artifact below index n. */
  ghost predicate TempsServe(now: map<nat, Temp>, plan: seq<Pending>, files: seq<Staged>, n: int)
    requires |files| <= |plan|
  {
    && (forall i | 0 <= i < n && i < |files| && !files[i].installed && files[i].staged.Some? :: HasTemp(now, files[i].staged, plan[i].content))
    && (forall i | 0 <= i < n && i < |files| && files[i].backup.Some? :: HasTemp(now, files[i].backup, plan[i].original))
    && (forall i | 0 <= i < n && i < |files| && files[i].installed :: files[i].present ==> files[i].backup.Some?)
  }

  ghost predicate Underway(before: Tree, now: Tree, plan: seq<Pending>, files: seq<Staged>, order: seq<string>) {
    && before.WellFormed() && Planned(before, plan) && Follows(plan, files)
    && DirsAre(before, now.dirs, order)
    && FilesAre(before, now.files, plan, files, |files|)
    && TempsApart(before, now.temps, files) && TempsDistinct(files) && TempsServe(now.temps, plan, files, |files|)
  }

  /** Whatever happens, nothing outside the plan is touched. */
  ghost predicate Confined(before: Tree, now: Tree, plan: seq<Pending>, files: seq<Staged>) {
    && (forall p | Foreign(plan, p) :: Holds(now.files, p, before.At(p)))
    && before.dirs <= now.dirs
    && TempsApart(before, now.temps, files)
  }

  // ---- Steps ----

  lemma DirMade(before: Tree, dirs: set<string>, order: seq<string>, d: string)
    requires DirsAre(before, dirs, order) && d !in dirs && Dir(d) in dirs && d != Root
    ensures DirsAre(before, dirs + {d}, order + [d])
  {
    var more := order + [d];
    assert forall k | 0 <= k < |order| :: more[k] == order[k] && more[..k] == order[..k];
    assert more[..|order|] == order;
    assert Elements(more) == Elements(order) + {d};
  }

  lemma Appended(before: Tree, now: Tree, plan: seq<Pending>, files: seq<Staged>, order: seq<string>)
    requires Underway(before, now, plan, files, order) && |files| < |plan|
    ensures var p := plan[|files|];
            Underway(before, now, plan, files + [Staged(p.path, p.present, p.original, None, None, false)], order)
  {
    hide Owned, FilesAre, DirsAre, Planned;
    var p := plan[|files|];
    var more := files + [Staged(p.path, p.present, p.original, None, None, false)];
    SameOwned(files, more);
    FilesAppended(before, now.files, plan, files, more);
  }

  lemma FilesAppended(before: Tree, now: map<string, Bytes>, plan: seq<Pending>, files: seq<Staged>, more: seq<Staged>)
    requires FilesAre(before, now, plan, files, |files|) && |more| == |files| + 1 && more[..|files|] == files && !more[|files|].installed
    ensures FilesAre(before, now, plan, more, |more|)
  {
    assert forall i | 0 <= i < |files| :: more[i] == files[i];
  }

  lemma SameOwned(files: seq<Staged>, more: seq<Staged>)
    requires |files| < |more| && more[..|files|] == files
    requires forall i | |files| <= i < |more| :: more[i].staged.None? && more[i].backup.None?
    ensures forall t: nat :: Owned(more, t) == Owned(files, t)
  {
    forall t: nat ensures Owned(more, t) == Owned(files, t) {
      if Owned(files, t) {
        var i :| 0 <= i < |files| && (files[i].staged == Some(t) || files[i].backup == Some(t));
        assert more[i] == files[i];
      }
      if Owned(more, t) {
        var i :| 0 <= i < |more| && (more[i].staged == Some(t) || more[i].backup == Some(t));
        assert more[i] == files[i];
      }
    }
  }

  /** The artifact at index i with one temporary more. */
  function WithTemp(files: seq<Staged>, i: nat, t: nat, backup: bool): seq<Staged>
    requires i < |files|
  {
    files[i := if backup then files[i].(backup := Some(t)) else files[i].(staged := Some(t))]
  }

  lemma TempStaged(before: Tree, now: Tree, plan: seq<Pending>, files: seq<Staged>, order: seq<string>, i: nat, t: nat, dir: string, backup: bool)
    requires Underway(before, now, plan, files, order) && i < |files| && t !in now.temps && !Owned(files, t)
    requires if backup then files[i].backup.None? else files[i].staged.None? && !files[i].installed
    ensures var content := if backup then plan[i].original else plan[i].content;
            var now' := now.(temps := now.temps[t := Temp(dir, content)]);
            Underway(before, now', plan, WithTemp(files, i, t, backup), order)
  {
    hide FilesAre, DirsAre, TempsApart, TempsDistinct, Owned, Planned;
    var content := if backup then plan[i].original else plan[i].content;
    var files' := WithTemp(files, i, t, backup);
    SameFiles(before, now.files, plan, files, files');
    ApartStaged(before, now.temps, files, i, t, Temp(dir, content), backup);
    DistinctStaged(files, i, t, backup);
  }

  lemma SameFiles(before: Tree, now: map<string, Bytes>, plan: seq<Pending>, files: seq<Staged>, files': seq<Staged>)
    requires FilesAre(before, now, plan, files, |files|) && |files'| == |files|
    requires forall i | 0 <= i < |files| :: files'[i].installed == files[i].installed
    ensures FilesAre(before, now, plan, files', |files'|)
  {
  }

  lemma ApartStaged(before: Tree, now: map<nat, Temp>, files: seq<Staged>, i: nat, t: nat, temp: Temp, backup: bool)
    requires TempsApart(before, now, files) && i < |files| && t !in now && !Owned(files, t)
    requires if backup then files[i].backup.None? else files[i].staged.None?
    ensures TempsApart(before, now[t := temp], WithTemp(files, i, t, backup))
  {
    hide Owned;
    OneMoreOwned(files, WithTemp(files, i, t, backup), i, t);
  }

  lemma DistinctStaged(files: seq<Staged>, i: nat, t: nat, backup: bool)
    requires TempsDistinct(files) && i < |files| && !Owned(files, t)
    requires if backup then files[i].backup.None? else files[i].staged.None?
    ensures TempsDistinct(WithTemp(files, i, t, backup))
  {
    forall j | 0 <= j < |files| ensures files[j].staged != Some(t) && files[j].backup != Some(t) {
      assert !(files[j].staged == Some(t) || files[j].backup == Some(t));
    }
  }

  lemma OneMoreOwned(files: seq<Staged>, files': seq<Staged>, i: nat, t: nat)
    requires i < |files|
    requires (files' == files[i := files[i].(backup := Some(t))] && files[i].backup.None?)
          || (files' == files[i := files[i].(staged := Some(t))] && files[i].staged.None?)
    ensures forall u: nat :: Owned(files', u) <==> Owned(files, u) || u == t
    ensures !Owned(files, t) ==> forall j | 0 <= j < |files| :: files[j].staged != Some(t) && files[j].backup != Some(t)
  {
    forall u: nat ensures Owned(files', u) <==> Owned(files, u) || u == t {
      if Owned(files, u) {
        var j :| 0 <= j < |files| && (files[j].staged == Some(u) || files[j].backup == Some(u));
        assert files'[j].staged == Some(u) || files'[j].backup == Some(u);
      }
      if u == t { assert files'[i].staged == Some(u) || files'[i].backup == Some(u); }
      if Owned(files', u) {
        var j :| 0 <= j < |files'| && (files'[j].staged == Some(u) || files'[j].backup == Some(u));
        assert u == t || files[j].staged == Some(u) || files[j].backup == Some(u);
      }
    }
  }

  /** The rename that installs the artifact at index i. */
  lemma Installs(before: Tree, now: Tree, plan: seq<Pending>, files: seq<Staged>, order: seq<string>, i: nat)
    requires Underway(before, now, plan, files, order) && i < |files| && !files[i].installed
    requires files[i].staged.Some? && (files[i].present ==> files[i].backup.Some?)
    ensures var t := files[i].staged.value;
            var now' := now.(files := now.files[files[i].path := now.temps[t].content], temps := now.temps - {t});
            Underway(before, now', plan, files[i := files[i].(installed := true)], order)
  {
    hide FilesAre, DirsAre, TempsApart, TempsDistinct, TempsServe, Owned, Planned;
    var t := files[i].staged.value;
    StagedIsReady(now.temps, plan, files, i);
    var now' := now.(files := now.files[files[i].path := now.temps[t].content], temps := now.temps - {t});
    InstalledFiles(before, now.files, now'.files, plan, files, files[i := files[i].(installed := true)], i);
    InstalledTemps(before, now.temps, plan, files, i);
  }

  lemma StagedIsReady(now: map<nat, Temp>, plan: seq<Pending>, files: seq<Staged>, i: nat)
    requires |files| <= |plan| && TempsServe(now, plan, files, |files|) && i < |files| && !files[i].installed && files[i].staged.Some?
    ensures files[i].staged.value in now && now[files[i].staged.value].content == plan[i].content
  {
    assert HasTemp(now, files[i].staged, plan[i].content);
  }

  lemma InstalledTemps(before: Tree, now: map<nat, Temp>, plan: seq<Pending>, files: seq<Staged>, i: nat)
    requires Follows(plan, files) && i < |files| && files[i].staged.Some? && (files[i].present ==> files[i].backup.Some?)
    requires TempsApart(before, now, files) && TempsDistinct(files) && TempsServe(now, plan, files, |files|)
    ensures var files' := files[i := files[i].(installed := true)]; var now' := now - {files[i].staged.value};
            TempsApart(before, now', files') && TempsDistinct(files') && TempsServe(now', plan, files', |files'|)
  {
    hide Owned;
    var t := files[i].staged.value;
    SameNames(files, files[i := files[i].(installed := true)], i);
    OwnedAt(files, i);
  }

  lemma OwnedAt(files: seq<Staged>, i: nat)
    requires i < |files|
    ensures files[i].staged.Some? ==> Owned(files, files[i].staged.value)
    ensures files[i].backup.Some? ==> Owned(files, files[i].backup.value)
  {
  }

  lemma SameNames(files: seq<Staged>, files': seq<Staged>, i: nat)
    requires i < |files| == |files'| && files' == files[i := files[i].(installed := files'[i].installed)]
    ensures forall t: nat :: Owned(files', t) == Owned(files, t)
  {
    forall t: nat ensures Owned(files', t) == Owned(files, t) {
      if Owned(files, t) {
        var j :| 0 <= j < |files| && (files[j].staged == Some(t) || files[j].backup == Some(t));
        assert files'[j].staged == Some(t) || files'[j].backup == Some(t);
      }
      if Owned(files', t) {
        var j :| 0 <= j < |files'| && (files'[j].staged == Some(t) || files'[j].backup == Some(t));
        assert files[j].staged == Some(t) || files[j].backup == Some(t);
      }
    }
  }

  lemma InstalledFiles(before: Tree, now: map<string, Bytes>, now': map<string, Bytes>, plan: seq<Pending>,
                       files: seq<Staged>, files': seq<Staged>, i: nat)
    requires Planned(before, plan) && Follows(plan, files) && i < |files|
    requires FilesAre(before, now, plan, files, |files|) && files' == files[i := files[i].(installed := true)]
    requires now' == now[plan[i].path := plan[i].content]
    ensures FilesAre(before, now', plan, files', |files'|)
  {
    forall j | 0 <= j < |plan|
      ensures Holds(now', plan[j].path, if j < |files'| && files'[j].installed then Some(plan[j].content) else before.At(plan[j].path))
    {
      if j < i { assert plan[j].path != plan[i].path; }
      if j > i { assert plan[i].path != plan[j].path; }
    }
  }

  // ---- Undoing ----

  /** While restoring from the last artifact down to index n. */
  ghost predicate Restoring(before: Tree, now: Tree, plan: seq<Pending>, files: seq<Staged>, order: seq<string>, n: int) {
    && before.WellFormed() && Planned(before, plan) && Follows(plan, files)
    && DirsAre(before, now.dirs, order)
    && FilesAre(before, now.files, plan, files, n)
    && TempsDistinct(files) && TempsServe(now.temps, plan, files, n)
  }

  /** The state after the artifact at index i is back as it was. */
  lemma RestoredOne(before: Tree, now: Tree, now': Tree, plan: seq<Pending>, files: seq<Staged>, order: seq<string>, i: nat)
    requires i < |files| && Restoring(before, now, plan, files, order, i + 1)
    requires now'.dirs == now.dirs
    requires if !files[i].installed then now'.files == now.files && now'.temps == now.temps
             else if files[i].present then now'.files == now.files[files[i].path := files[i].original]
                                           && files[i].backup.Some? && now'.temps == now.temps - {files[i].backup.value}
             else now'.files == now.files - {files[i].path} && now'.temps == now.temps
    ensures Restoring(before, now', plan, files, order, i)
  {
    hide DirsAre;
    RestoredFiles(before, now.files, now'.files, plan, files, i);
  }

  lemma RestoredFiles(before: Tree, now: map<string, Bytes>, now': map<string, Bytes>, plan: seq<Pending>, files: seq<Staged>, i: nat)
    requires i < |files| && Planned(before, plan) && Follows(plan, files) && FilesAre(before, now, plan, files, i + 1)
    requires if !files[i].installed then now' == now
             else if files[i].present then now' == now[files[i].path := files[i].original]
             else now' == now - {files[i].path}
    ensures FilesAre(before, now', plan, files, i)
  {
    var path := plan[i].path;
    assert before.At(path) == if plan[i].present then Some(plan[i].original) else None;
    forall j | 0 <= j < |plan|
      ensures Holds(now', plan[j].path, if j < i && j < |files| && files[j].installed then Some(plan[j].content) else before.At(plan[j].path))
    {
      if j < i { assert plan[j].path != plan[i].path; }
      if j > i { assert plan[i].path != plan[j].path; }
    }
  }

  /** With every artifact restored, the files are what they were. */
  lemma FilesRestored(before: Tree, now: map<string, Bytes>, plan: seq<Pending>, files: seq<Staged>)
    requires FilesAre(before, now, plan, files, 0)
    ensures now == before.files
  {
    forall p ensures Holds(now, p, before.At(p)) {
      if !Foreign(plan, p) { var i :| 0 <= i < |plan| && plan[i].path == p; }
    }
    assert forall p :: p in now <==> p in before.files by {
      forall p ensures p in now <==> p in before.files { assert Holds(now, p, before.At(p)); }
    }
    forall p | p in now ensures now[p] == before.files[p] { assert Holds(now, p, before.At(p)); }
  }

  /** With no temporary of our own left, the temporaries are what they were. */
  lemma TempsCleaned(before: Tree, now: map<nat, Temp>, files: seq<Staged>)
    requires TempsApart(before, now, files)
    requires forall j | 0 <= j < |files| :: Gone(now, files[j].staged) && Gone(now, files[j].backup)
    ensures now == before.temps
  {
    forall t | t in now ensures t in before.temps {
      forall j | 0 <= j < |files| ensures files[j].staged != Some(t) && files[j].backup != Some(t) {
        assert Gone(now, files[j].staged) && Gone(now, files[j].backup);
      }
    }
  }

  predicate Gone(now: map<nat, Temp>, t: Option<nat>) {
    t.None? || t.value !in now
  }

  /** Created directories are empty when their turn to be removed comes, last
      created first. */
  lemma LastCreatedIsEmpty(before: Tree, now: Tree, order: seq<string>, k: nat)
    requires before.WellFormed() && DirsAre(before, before.dirs + Elements(order), order) && k < |order|
    requires now == before.(dirs := before.dirs + Elements(order[..k + 1]))
    ensures !now.Occupied(order[k])
  {
    assert forall c | c in now.dirs && c !in before.dirs :: c in order[..k + 1];
    forall c | c in now.dirs && c != Root ensures Dir(c) != order[k] {
      if c !in before.dirs {
        var j :| 0 <= j <= k && order[..k + 1][j] == c;
        assert order[j] == c;
        if Dir(c) in order[..j] {
          var l :| 0 <= l < j && order[..j][l] == Dir(c);
          assert order[l] == Dir(c);
        }
      }
    }
  }

  class Transaction {
    const disk: Disk
    ghost const before: Tree
    ghost const plan: seq<Pending>
    var files: seq<Staged>
    var created: set<string>
    var createdOrder: seq<string>

    ghost predicate Valid()
      reads this, disk
    {
      disk.Valid() && created == Elements(createdOrder) && Underway(before, disk.tree, plan, files, createdOrder)
      && forall t: nat | Owned(files, t) :: t < disk.named
    }

    constructor (disk: Disk, ghost plan: seq<Pending>)
      requires disk.Valid() && Planned(disk.tree, plan)
      ensures Valid() && this.disk == disk && before == disk.tree && this.plan == plan && files == [] && createdOrder == []
    {
      this.disk, this.before, this.plan := disk, disk.tree, plan;
      files, created, createdOrder := [], {}, [];
      new;
      assert disk.tree.dirs + Elements([]) == disk.tree.dirs;
    }

    // ---- Staging ----

    method CreateMissingDirectories(directories: seq<string>) returns (ok: bool)
      requires Valid()
      requires forall d | d in directories :: d != Root && d !in before.dirs && d !in before.files
      requires forall i | 0 <= i < |files| :: !files[i].installed
      modifies this`created, this`createdOrder, disk
      ensures Valid() && disk.named == old(disk.named)
      ensures old(created) <= created <= old(created) + Elements(directories)
      ensures ok ==> Elements(directories) <= created
      ensures disk.clock >= old(disk.clock)
      ensures OutermostFirst(before, directories) ==> ok || disk.Faulted(old(disk.clock), disk.clock)
    {
      hide FilesAre, TempsApart, TempsDistinct, TempsServe, Owned, Planned;
      for i := 0 to |directories|
        invariant Valid() && disk.named == old(disk.named) && disk.clock >= old(disk.clock)
        invariant old(created) <= created <= old(created) + Elements(directories)
        invariant Elements(directories[..i]) <= created
      {
        var d := directories[i];
        assert directories[..i + 1] == directories[..i] + [d];
        if d in created {
          continue;
        }
        NotYetThere(before, disk.tree, plan, files, createdOrder, d);
        ghost var dirs := disk.tree.dirs;
        var made := disk.Mkdir(d);
        if made == NotMade {
          DirsNow(before, disk.tree, plan, files, createdOrder);
          return false;
        }
        DirMade(before, dirs, createdOrder, d);
        created := created + {d};
        createdOrder := createdOrder + [d];
      }
      assert directories[..|directories|] == directories;
      return true;
    }

    /** Content and backup go to temporaries beside the destination, which is
        not touched. */
    method StageOne(i: nat, p: Pending) returns (ok: bool)
      requires Valid() && i < |files| && p == plan[i] && NothingInstalled(files)
      requires files[i].staged.None? && files[i].backup.None?
      modifies this, disk
      ensures Valid() && NothingInstalled(files) && |files| == |old(files)| && files[..i] == old(files)[..i]
      ensures old(created) <= created <= old(created) + Elements(p.missing)
      ensures ok ==> Elements(p.missing) <= created && files[i].staged.Some? && (p.present ==> files[i].backup.Some?)
      ensures disk.clock >= old(disk.clock)
      ensures Feasible(before, plan, i) ==> ok || disk.Faulted(old(disk.clock), disk.clock)
    {
      hide Underway, Owned, OutermostFirst;
      MissingFit(before, disk.tree, plan, files, createdOrder, i);
      ok := CreateMissingDirectories(p.missing);
      if !ok {
        return;
      }
      DirsNow(before, disk.tree, plan, files, createdOrder);
      FilesFollow(before, disk.tree, plan, files, createdOrder);
      ok := StageContent(i, p.content, false);
      if !ok || !p.present {
        return;
      }
      ok := StageContent(i, p.original, true);
    }

    method StageContent(i: nat, content: Bytes, backup: bool) returns (ok: bool)
      requires Valid() && i < |files| && NothingInstalled(files)
      requires content == if backup then plan[i].original else plan[i].content
      requires if backup then files[i].backup.None? else files[i].staged.None?
      modifies this`files, disk
      ensures Valid() && NothingInstalled(files)
      ensures files == if ok then WithTemp(old(files), i, old(disk.named), backup) else old(files)
      ensures disk.clock >= old(disk.clock) && disk.tree.dirs == old(disk.tree.dirs)
      ensures ok || disk.Faulted(old(disk.clock), disk.clock) || Dir(old(files)[i].path) !in disk.tree.dirs
    {
      hide Underway, Owned;
      TempFresh(before, disk.tree, plan, files, createdOrder, disk.named);
      ghost var was := disk.tree;
      var t := disk.StageTemp(Dir(files[i].path), content);
      if t.None? {
        return false;
      }
      TempStaged(before, was, plan, files, createdOrder, i, t.value, Dir(files[i].path), backup);
      OneMoreOwned(files, WithTemp(files, i, t.value, backup), i, t.value);
      files := WithTemp(files, i, t.value, backup);
      return true;
    }

    method Stage(pending: seq<Pending>) returns (ok: bool)
      requires Valid() && files == [] && created == {} && pending == plan
      modifies this, disk
      ensures Valid() && NothingInstalled(files)
      ensures created <= AllMissing(plan)
      ensures ok ==> AllStaged(plan, files) && created == AllMissing(plan)
      ensures disk.clock >= old(disk.clock)
      ensures AllFeasible(before, plan) ==> ok || disk.Faulted(old(disk.clock), disk.clock)
    {
      hide Underway, Owned, Feasible;
      for i := 0 to |pending|
        invariant Valid() && NothingInstalled(files) && AllStaged(plan[..i], files) && disk.clock >= old(disk.clock)
        invariant created == AllMissing(plan[..i])
      {
        var p := pending[i];
        Appended(before, disk.tree, plan, files, createdOrder);
        ghost var known := files;
        files := files + [Staged(p.path, p.present, p.original, None, None, false)];
        SameOwned(known, files);
        MissingGrows(plan, i);
        ok := StageOne(i, p);
        if !ok {
          return;
        }
        assert files[..i] == known;
      }
      assert plan[..|plan|] == plan;
      return true;
    }

    // ---- Committing ----

    /** Renames in order; cancelled between artifacts, or broken by a change or
        a failure. `cancelled` is what each check of the context finds. */
    method Commit(cancelled: nat -> bool) returns (end: CommitEnd)
      requires Valid() && AllStaged(plan, files) && NothingInstalled(files)
      modifies this`files, disk
      ensures Valid() && AllStaged(plan, files)
      ensures end == Committed ==> forall i | 0 <= i < |files| :: files[i].installed
      ensures var k := FirstCancelled(cancelled, 0, |plan|);
              && (end == Committed ==> k == |plan|)
              && (end == CancelledBetween ==> k < |plan| && InstalledUpTo(files, k))
      ensures disk.clock >= old(disk.clock)
      ensures end == Broken && AllFeasible(before, plan) && created == AllMissing(plan) ==> disk.Faulted(old(disk.clock), disk.clock)
    {
      hide Underway, Owned, Feasible;
      for i := 0 to |files|
        invariant Valid() && AllStaged(plan, files) && |files| == |old(files)| && disk.clock >= old(disk.clock)
        invariant InstalledUpTo(files, i)
        invariant FirstCancelled(cancelled, 0, |files|) == FirstCancelled(cancelled, i, |files|)
      {
        if cancelled(i) {
          return CancelledBetween;
        }
        AsInspected(before, disk.tree, plan, files, createdOrder, i);
        var same := UnchangedSinceInspection(files[i]);
        if !same {
          return Broken;
        }
        var ok := Install(i);
        if !ok {
          return Broken;
        }
      }
      for k := |createdOrder| downto 0
        invariant Valid() && AllStaged(plan, files) && disk.clock >= old(disk.clock) && forall i | 0 <= i < |files| :: files[i].installed
      {
        var synced := disk.Sync(createdOrder[k]);
        if !synced {
          return Broken;
        }
      }
      return Committed;
    }

    method UnchangedSinceInspection(f: Staged) returns (same: bool)
      requires Valid()
      modifies disk`clock
      ensures Valid() && disk.tree == old(disk.tree)
      ensures disk.clock >= old(disk.clock)
      ensures same ==> disk.tree.At(f.path) == if f.present then Some(f.original) else None
      ensures !same ==> disk.Faulted(old(disk.clock), disk.clock) || disk.tree.At(f.path) != if f.present then Some(f.original) else None
    {
      var fails := disk.Fails();
      if fails {
        return false;
      }
      return disk.tree.At(f.path) == if f.present then Some(f.original) else None;
    }

    /** Installed as soon as it is renamed, even if the sync then fails. */
    method Install(i: nat) returns (ok: bool)
      requires Valid() && i < |files| && !files[i].installed && AllStaged(plan, files)
      modifies this`files, disk
      ensures Valid() && AllStaged(plan, files)
      ensures files == old(files) || files == old(files)[i := old(files)[i].(installed := true)]
      ensures ok ==> files == old(files)[i := old(files)[i].(installed := true)]
      ensures disk.clock >= old(disk.clock)
      ensures i < |plan| && Feasible(before, plan, i) && created == AllMissing(plan) ==> ok || disk.Faulted(old(disk.clock), disk.clock)
    {
      hide Underway, Owned, OutermostFirst;
      ghost var was := disk.tree;
      DirsNow(before, was, plan, files, createdOrder);
      StagedStays(before, was, plan, files, createdOrder, i);
      FilesFollow(before, was, plan, files, createdOrder);
      ok := disk.Rename(files[i].staged.value, files[i].path);
      if !ok {
        return;
      }
      Installs(before, was, plan, files, createdOrder, i);
      SameNames(files, files[i := files[i].(installed := true)], i);
      files := files[i := files[i].(installed := true)];
      ok := disk.Sync(Dir(files[i].path));
    }

    // ---- Rolling back ----

    /** What undoing may leave behind however it fails. */
    ghost predicate Undoing()
      reads this, disk
    {
      && disk.Valid() && before.WellFormed() && Follows(plan, files) && created == Elements(createdOrder)
      && Confined(before, disk.tree, plan, files)
      && DirsAre(before, before.dirs + Elements(createdOrder), createdOrder)
    }

    /** One artifact back as it was: the backup over the destination, or the new
        file gone. A rename that fails is tried again once the destination is
        cleared. */
    method Restore(i: nat) returns (ok: bool)
      requires Undoing() && i < |files|
      modifies disk`tree, disk`clock
      ensures Undoing()
      ensures ok && old(Restoring(before, disk.tree, plan, files, createdOrder, i + 1))
              ==> Restoring(before, disk.tree, plan, files, createdOrder, i)
      ensures disk.tree.dirs == old(disk.tree.dirs) && disk.clock >= old(disk.clock)
      ensures old(Restoring(before, disk.tree, plan, files, createdOrder, i + 1)) ==> ok || disk.Faulted(old(disk.clock), disk.clock)
    {
      hide Restoring, DirsAre, TempsApart, Owned;
      ghost var was := disk.tree;
      if !files[i].installed {
        if Restoring(before, was, plan, files, createdOrder, i + 1) { RestoredOne(before, was, disk.tree, plan, files, createdOrder, i); }
        return true;
      }
      NotForeign(plan, files, i);
      if files[i].present {
        if Restoring(before, was, plan, files, createdOrder, i + 1) { BackupIsReady(before, was, plan, files, createdOrder, i); }
        ok := RestoreBackup(files[i]);
        BackupOwned(before, was, plan, files, i);
      } else {
        ok := disk.RemoveFile(files[i].path);
      }
      if !ok {
        return;
      }
      if Restoring(before, was, plan, files, createdOrder, i + 1) { RestoredOne(before, was, disk.tree, plan, files, createdOrder, i); }
      ok := disk.Sync(Dir(files[i].path));
    }

    method RestoreBackup(f: Staged) returns (ok: bool)
      requires disk.Valid()
      modifies disk`tree, disk`clock
      ensures disk.Valid() && disk.tree.dirs == old(disk.tree.dirs) && disk.clock >= old(disk.clock)
      ensures ok || disk.Faulted(old(disk.clock), disk.clock) || f.backup.None? || f.backup.value !in disk.tree.temps
              || f.path in disk.tree.dirs || Dir(f.path) !in disk.tree.dirs
      ensures ok ==> f.backup.Some? && f.backup.value in old(disk.tree.temps)
                     && disk.tree.files == old(disk.tree.files)[f.path := old(disk.tree.temps)[f.backup.value].content]
                     && disk.tree.temps == old(disk.tree.temps) - {f.backup.value}
      ensures !ok ==> (disk.tree.files == old(disk.tree.files) || disk.tree.files == old(disk.tree.files) - {f.path})
                      && disk.tree.temps == old(disk.tree.temps)
    {
      if f.backup.None? {
        return false;
      }
      ok := disk.Rename(f.backup.value, f.path);
      if ok {
        return;
      }
      ok := disk.RemoveFile(f.path);
      if !ok {
        return;
      }
      ok := disk.Rename(f.backup.value, f.path);
    }

    method CleanupTemps() returns (ok: bool)
      requires Undoing()
      modifies disk`tree, disk`clock
      ensures Undoing()
      ensures disk.tree == old(disk.tree).(temps := disk.tree.temps)
      ensures ok ==> disk.tree.temps == before.temps
      ensures disk.clock >= old(disk.clock) && (ok || disk.Faulted(old(disk.clock), disk.clock))
    {
      hide DirsAre, Owned;
      ok := true;
      for i := 0 to |files|
        invariant Undoing() && disk.tree == old(disk.tree).(temps := disk.tree.temps)
        invariant disk.clock >= old(disk.clock) && (ok || disk.Faulted(old(disk.clock), disk.clock))
        invariant ok ==> forall j | 0 <= j < i :: Gone(disk.tree.temps, files[j].staged) && Gone(disk.tree.temps, files[j].backup)
      {
        OwnedAt(files, i);
        var first := Discard(files[i].staged);
        var second := Discard(files[i].backup);
        ok := ok && first && second;
      }
      if ok { TempsCleaned(before, disk.tree.temps, files); }
    }

    method Discard(t: Option<nat>) returns (ok: bool)
      requires Undoing() && (t.Some? ==> Owned(files, t.value))
      modifies disk`tree, disk`clock
      ensures Undoing()
      ensures disk.tree == old(disk.tree).(temps := disk.tree.temps)
      ensures forall u | u in disk.tree.temps :: u in old(disk.tree).temps
      ensures ok ==> Gone(disk.tree.temps, t)
      ensures disk.clock >= old(disk.clock) && (ok || disk.Faulted(old(disk.clock), disk.clock))
    {
      hide DirsAre;
      if t.None? {
        return true;
      }
      ok := disk.RemoveTemp(t.value);
    }

    /** Backups restored, new files removed, temporaries discarded, and created
        directories removed last first: with no failure along the way, the tree
        is exactly what it was before the transaction. */
    method Rollback() returns (ok: bool)
      requires Valid()
      modifies disk
      ensures disk.Valid() && Confined(before, disk.tree, plan, files)
      ensures ok ==> disk.tree == before
      ensures disk.clock >= old(disk.clock) && (ok || disk.Faulted(old(disk.clock), disk.clock))
    {
      hide Restoring, Underway, DirsAre, Owned, FilesAre, TempsApart;
      StartsUndoing(before, disk.tree, plan, files, createdOrder);
      ok := true;
      for i := |files| downto 0
        invariant Undoing() && disk.clock >= old(disk.clock) && (ok || disk.Faulted(old(disk.clock), disk.clock))
        invariant ok ==> Restoring(before, disk.tree, plan, files, createdOrder, i)
      {
        var restored := Restore(i);
        ok := ok && restored;
      }
      if ok { RestoredParts(before, disk.tree, plan, files, createdOrder); }
      var cleaned := CleanupTemps();
      ok := ok && cleaned;
      for k := |createdOrder| downto 0
        invariant Undoing() && disk.clock >= old(disk.clock) && (ok || disk.Faulted(old(disk.clock), disk.clock))
        invariant ok ==> disk.tree == before.(dirs := before.dirs + Elements(createdOrder[..k]))
      {
        CreatedApart(before, createdOrder, k);
        var removed := disk.RemoveDir(createdOrder[k]);
        if !removed {
          ok := false;
          continue;
        }
        var synced := disk.Sync(Dir(createdOrder[k]));
        ok := ok && synced;
      }
      assert before.dirs + Elements(createdOrder[..0]) == before.dirs;
    }

    // ---- Cancelled between artifacts ----

    /** Installed files stay, the others keep what they had; temporaries go, and
        so do the created directories left empty. */
    method StopCancelled() returns (changed: seq<string>, notApplied: seq<string>, clean: bool)
      requires Valid()
      modifies disk
      ensures disk.Valid() && disk.tree.files == old(disk.tree.files)
      ensures changed == PathsWhere(files, true) && notApplied == PathsWhere(files, false)
      ensures before.dirs <= disk.tree.dirs <= before.dirs + created
      ensures clean ==> disk.tree.temps == before.temps
      ensures disk.clock >= old(disk.clock) && (clean || disk.Faulted(old(disk.clock), disk.clock))
      ensures disk.Faulted(old(disk.clock), disk.clock) || NoneEmpty(before, disk.tree)
    {
      hide Restoring, Underway, Owned, FilesAre, TempsApart, DirsAre;
      StartsUndoing(before, disk.tree, plan, files, createdOrder);
      changed, notApplied := [], [];
      for i := 0 to |files|
        invariant changed == PathsWhere(files[..i], true) && notApplied == PathsWhere(files[..i], false)
      {
        assert files[..i + 1][..i] == files[..i];
        if files[i].installed {
          changed := changed + [files[i].path];
        } else {
          notApplied := notApplied + [files[i].path];
        }
      }
      assert files[..|files|] == files;
      DirsNow(before, disk.tree, plan, files, createdOrder);
      clean := CleanupTemps();
      if !clean {
        return;
      }
      RemoveEmptied();
    }

    method RemoveEmptied()
      requires Undoing() && disk.tree.dirs == before.dirs + created
      modifies disk`tree, disk`clock
      ensures disk.Valid() && disk.tree == old(disk.tree).(dirs := disk.tree.dirs)
      ensures before.dirs <= disk.tree.dirs <= old(disk.tree).dirs
      ensures disk.clock >= old(disk.clock)
      ensures disk.Faulted(old(disk.clock), disk.clock) || NoneEmpty(before, disk.tree)
    {
      hide Owned, FilesAre, TempsApart, DirsAre, NoneEmptyFrom;
      ghost var whole, start := disk.tree, disk.clock;
      NoneLeftToEmpty(whole, createdOrder);
      for k := |createdOrder| downto 0
        invariant Undoing() && disk.tree == whole.(dirs := disk.tree.dirs)
        invariant before.dirs <= disk.tree.dirs <= whole.dirs && disk.clock >= start
        invariant disk.Faulted(start, disk.clock) || NoneEmptyFrom(disk.tree, createdOrder, k)
      {
        ghost var was, moment := disk.tree, disk.clock;
        CreatedApart(before, createdOrder, k);
        var _ := disk.RemoveDir(createdOrder[k]);
        disk.FaultedLater(start, moment, disk.clock);
        if NoneEmptyFrom(was, createdOrder, k + 1) && !disk.Faulted(moment, disk.clock) {
          StillOccupied(before, was, disk.tree, createdOrder, k);
        }
      }
      if NoneEmptyFrom(disk.tree, createdOrder, 0) { NoneEmptyAtAll(before, disk.tree, createdOrder); }
    }
  }

  /** No directory created at index k or later is left empty. */
  ghost predicate NoneEmptyFrom(now: Tree, order: seq<string>, k: nat) {
    forall j | k <= j < |order| && order[j] in now.dirs :: now.Occupied(order[j])
  }

  lemma NoneLeftToEmpty(now: Tree, order: seq<string>)
    ensures NoneEmptyFrom(now, order, |order|)
  {
  }

  lemma NoneEmptyAtAll(before: Tree, now: Tree, order: seq<string>)
    requires NoneEmptyFrom(now, order, 0) && now.dirs <= before.dirs + Elements(order)
    ensures NoneEmpty(before, now)
  {
    forall d | d in now.dirs && d !in before.dirs ensures now.Occupied(d) {
      var j :| 0 <= j < |order| && order[j] == d;
    }
  }

  lemma AsInspected(before: Tree, now: Tree, plan: seq<Pending>, files: seq<Staged>, order: seq<string>, i: nat)
    requires Underway(before, now, plan, files, order) && i < |files| && !files[i].installed
    ensures now.At(files[i].path) == if files[i].present then Some(files[i].original) else None
  {
    assert Holds(now.files, plan[i].path, before.At(plan[i].path));
  }

  lemma StagedStays(before: Tree, now: Tree, plan: seq<Pending>, files: seq<Staged>, order: seq<string>, i: nat)
    requires Underway(before, now, plan, files, order) && i < |files| && !files[i].installed && files[i].staged.Some?
    ensures files[i].staged.value in now.temps
    ensures forall d | d in plan[i].missing :: d in AllMissing(plan)
  {
    StagedIsReady(now.temps, plan, files, i);
  }

  lemma DirsNow(before: Tree, now: Tree, plan: seq<Pending>, files: seq<Staged>, order: seq<string>)
    requires Underway(before, now, plan, files, order)
    ensures now.dirs == before.dirs + Elements(order)
  {
  }

  /** Removing an earlier directory empties no later one. */
  lemma StillOccupied(before: Tree, was: Tree, now: Tree, order: seq<string>, k: nat)
    requires before.WellFormed() && DirsAre(before, before.dirs + Elements(order), order) && k < |order|
    requires NoneEmptyFrom(was, order, k + 1)
    requires now == was.(dirs := was.dirs - {order[k]}) || (now == was && was.Occupied(order[k]))
    ensures NoneEmptyFrom(now, order, k)
  {
    forall j | k <= j < |order| && order[j] in now.dirs ensures now.Occupied(order[j]) {
      if j > k {
        assert was.Occupied(order[j]);
        assert Dir(order[k]) != order[j] by {
          if Dir(order[k]) in order[..k] {
            var l :| 0 <= l < k && order[..k][l] == Dir(order[k]);
            assert order[l] == Dir(order[k]);
          }
        }
      }
    }
  }

  function PathsWhere(files: seq<Staged>, installed: bool): seq<string> {
    if files == [] then []
    else
      var n := |files| - 1;
      PathsWhere(files[..n], installed) + if files[n].installed == installed then [files[n].path] else []
  }

  /** No directory the transaction created is left empty. */
  ghost predicate NoneEmpty(before: Tree, now: Tree) {
    forall d | d in now.dirs && d !in before.dirs :: now.Occupied(d)
  }

  /** Exactly the artifacts before index k are installed. */
  ghost predicate InstalledUpTo(files: seq<Staged>, k: nat) {
    k <= |files| && forall i | 0 <= i < |files| :: files[i].installed <==> i < k
  }

  lemma {:induction false} PathsUpTo(plan: seq<Pending>, files: seq<Staged>, k: nat)
    requires InstalledUpTo(files, k)
    ensures |PathsWhere(files, true)| == k && forall i | 0 <= i < k :: PathsWhere(files, true)[i] == files[i].path
    ensures |PathsWhere(files, false)| == |files| - k && forall i | k <= i < |files| :: PathsWhere(files, false)[i - k] == files[i].path
    decreases |files|
  {
    if files != [] {
      var n := |files| - 1;
      PathsUpTo(plan, files[..n], if k <= n then k else n);
    }
  }

  datatype CommitEnd = Committed | CancelledBetween | Broken

  lemma FilesFollow(before: Tree, now: Tree, plan: seq<Pending>, files: seq<Staged>, order: seq<string>)
    requires Underway(before, now, plan, files, order)
    ensures Follows(plan, files)
  {
  }

  lemma NotForeign(plan: seq<Pending>, files: seq<Staged>, i: nat)
    requires Follows(plan, files) && i < |files|
    ensures !Foreign(plan, files[i].path)
  {
  }

  lemma BackupIsReady(before: Tree, now: Tree, plan: seq<Pending>, files: seq<Staged>, order: seq<string>, i: nat)
    requires i < |files| && Restoring(before, now, plan, files, order, i + 1)
    ensures files[i].backup.Some? ==> HasTemp(now.temps, files[i].backup, files[i].original)
    ensures files[i].installed ==> files[i].path in now.files && (files[i].present ==> files[i].backup.Some?)
  {
    assert Holds(now.files, plan[i].path, if files[i].installed then Some(plan[i].content) else before.At(plan[i].path));
  }

  /** Giving up a temporary of our own leaves the others' apart. */
  lemma BackupOwned(before: Tree, now: Tree, plan: seq<Pending>, files: seq<Staged>, i: nat)
    requires TempsApart(before, now.temps, files) && i < |files|
    ensures files[i].backup.Some? ==> TempsApart(before, now.temps - {files[i].backup.value}, files)
  {
    OwnedAt(files, i);
  }

  lemma StartsUndoing(before: Tree, now: Tree, plan: seq<Pending>, files: seq<Staged>, order: seq<string>)
    requires Underway(before, now, plan, files, order)
    ensures Confined(before, now, plan, files) && Restoring(before, now, plan, files, order, |files|)
    ensures before.WellFormed() && Follows(plan, files) && DirsAre(before, before.dirs + Elements(order), order)
  {
  }

  lemma RestoredParts(before: Tree, now: Tree, plan: seq<Pending>, files: seq<Staged>, order: seq<string>)
    requires Restoring(before, now, plan, files, order, 0)
    ensures now.files == before.files && now.dirs == before.dirs + Elements(order[..|order|])
  {
    FilesRestored(before, now.files, plan, files);
    assert order[..|order|] == order;
  }

  lemma CreatedApart(before: Tree, order: seq<string>, k: nat)
    requires before.WellFormed() && DirsAre(before, before.dirs + Elements(order), order) && k < |order|
    ensures order[k] != Root && order[k] !in before.dirs
    ensures before.dirs + Elements(order[..k + 1]) - {order[k]} == before.dirs + Elements(order[..k])
    ensures !before.(dirs := before.dirs + Elements(order[..k + 1])).Occupied(order[k])
  {
    LastCreatedIsEmpty(before, before.(dirs := before.dirs + Elements(order[..k + 1])), order, k);
    assert order[..k + 1] == order[..k] + [order[k]];
    assert Elements(order[..k + 1]) == Elements(order[..k]) + {order[k]};
  }

  ghost predicate NothingInstalled(files: seq<Staged>) {
    forall i | 0 <= i < |files| :: !files[i].installed
  }

  /** Every artifact has its content staged, and its backup when it replaces. */
  ghost predicate AllStaged(plan: seq<Pending>, files: seq<Staged>) {
    |files| == |plan| && forall i | 0 <= i < |files| :: files[i].staged.Some? && (plan[i].present ==> files[i].backup.Some?)
  }

  ghost function AllMissing(plan: seq<Pending>): set<string> {
    set i, d | 0 <= i < |plan| && d in plan[i].missing :: d
  }

  lemma MissingGrows(plan: seq<Pending>, i: nat)
    requires i < |plan|
    ensures AllMissing(plan[..i + 1]) == AllMissing(plan[..i]) + Elements(plan[i].missing)
    ensures AllMissing(plan[..i + 1]) <= AllMissing(plan)
    ensures AllMissing(plan[..i]) <= AllMissing(plan)
  {
    assert forall k | 0 <= k < i :: plan[..i + 1][k] == plan[..i][k] == plan[k];
    assert plan[..i + 1][i] == plan[i];
  }

  lemma MissingFit(before: Tree, now: Tree, plan: seq<Pending>, files: seq<Staged>, order: seq<string>, i: nat)
    requires Underway(before, now, plan, files, order) && i < |files|
    ensures forall d | d in plan[i].missing :: d != Root && d !in before.dirs && d !in before.files
  {
  }

  lemma TempFresh(before: Tree, now: Tree, plan: seq<Pending>, files: seq<Staged>, order: seq<string>, named: nat)
    requires Underway(before, now, plan, files, order)
    requires forall t | t in now.temps :: t < named
    requires forall t: nat | Owned(files, t) :: t < named
    ensures named !in now.temps && !Owned(files, named)
    ensures forall i | 0 <= i < |files| :: i < |plan| && files[i].path == plan[i].path && files[i].present == plan[i].present
  {
  }

  lemma NotYetThere(before: Tree, now: Tree, plan: seq<Pending>, files: seq<Staged>, order: seq<string>, d: string)
    requires Underway(before, now, plan, files, order) && d !in before.dirs && d !in before.files && d !in Elements(order)
    requires forall i | 0 <= i < |files| :: !files[i].installed
    ensures d !in now.dirs && d !in now.files
  {
    if Foreign(plan, d) {
      assert Holds(now.files, d, before.At(d));
    } else {
      var i :| 0 <= i < |plan| && plan[i].path == d;
      assert Holds(now.files, plan[i].path, before.At(plan[i].path));
    }
  }
}
