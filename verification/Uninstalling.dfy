/** Removal driven by the manifest: unedited files go, files taken over come
    back, everything else stays. */
module Uninstalling {
  import opened Decimal
  import opened Ordering
  import opened Paths
  import opened FileSystem
  import opened Deploying
  import opened Ownership

  datatype Action = Keep | Preserve | Remove

  /** Still owned by others, taken over, or created by the installation. */
  function ActionFor(e: OwnershipEntry, selected: set<Target>): Action {
    if !(e.targets <= selected) then Keep else if e.preExisting then Preserve else Remove
  }

  /** Skills are shared: they stay while any unselected owner remains. */
  function SharedKept(m: Manifest, selected: set<Target>): set<Target> {
    if Skills in selected && exists p, t :: p in m && t in m[p].targets && t != Skills && t !in selected then selected - {Skills} else selected
  }

  /** What one removal works on. */
  datatype Job = Job(hash: Bytes -> string, before: Tree, manifest: Manifest, backups: map<string, Bytes>, selected: set<Target>)

  predicate Unedited(j: Job, p: string) {
    p in j.manifest && p in j.before.files && j.manifest[p].installed == j.hash(j.before.files[p])
  }

  predicate Removes(j: Job, p: string) {
    p in j.manifest && ActionFor(j.manifest[p], j.selected) == Remove && Unedited(j, p)
  }

  predicate Restores(j: Job, p: string) {
    && p in j.manifest && ActionFor(j.manifest[p], j.selected) == Preserve
    && j.manifest[p].backup != "" && j.manifest[p].backup in j.backups && Unedited(j, p)
  }

  function Backup(j: Job, p: string): Option<Bytes> {
    if p in j.manifest && j.manifest[p].backup in j.backups then Some(j.backups[j.manifest[p].backup]) else None
  }

  /** A file to remove that has become a directory. */
  predicate Blocked(j: Job, p: string) {
    p in j.manifest && ActionFor(j.manifest[p], j.selected) == Remove && p in j.before.dirs
  }

  /** A file to restore whose backup no longer holds the bytes recorded at
      takeover. */
  predicate Corrupt(j: Job, p: string) {
    Restores(j, p) && j.hash(j.backups[j.manifest[p].backup]) != j.manifest[p].prior
  }

  predicate AnyRemoved(j: Job, names: seq<string>) {
    exists p :: p in names && Removes(j, p)
  }

  predicate AnyBlocked(j: Job, names: seq<string>) {
    exists p :: p in names && Blocked(j, p)
  }

  predicate AnyCorrupt(j: Job, names: seq<string>) {
    exists p :: p in names && Corrupt(j, p)
  }

  /** Entries that stay listed: still owned by others, or kept for an edit. */
  predicate StaysListed(j: Job, p: string) {
    && p in j.manifest
    && match ActionFor(j.manifest[p], j.selected)
       case Keep => true
       case Preserve => false
       case Remove => p in j.before.files && !Unedited(j, p)
  }

  function Remaining(j: Job, p: string): OwnershipEntry
    requires p in j.manifest
  {
    var e := j.manifest[p];
    if ActionFor(e, j.selected) == Keep then e.(targets := e.targets - j.selected) else e
  }

  /** What removal leaves at a path. */
  function Expected(j: Job, p: string): Option<Bytes> {
    if Removes(j, p) then None else if Restores(j, p) then Backup(j, p) else j.before.At(p)
  }

  // ---- The plan ----

  /** The entries a walk comes to, in path order. */
  function Reached(m: Manifest, cancelled: nat -> bool): seq<string> {
    var names := SortedSeq(m.Keys);
    names[..FirstCancelled(cancelled, 0, |names|)]
  }

  /** The restores of a walk, in path order. */
  function RestoreNames(j: Job, names: seq<string>): seq<string> {
    if names == [] then []
    else
      var n := |names| - 1;
      RestoreNames(j, names[..n]) + if Restores(j, names[n]) then [names[n]] else []
  }

  /** The restores that come before the first corrupt one. */
  function BeforeCorrupt(j: Job, names: seq<string>): set<string> {
    var restores := RestoreNames(j, names);
    set i | 0 <= i < |restores| && (forall k | 0 <= k <= i :: !Corrupt(j, restores[k])) :: restores[i]
  }

  lemma {:induction false} RestoreNamesMembers(j: Job, names: seq<string>)
    ensures forall p :: p in RestoreNames(j, names) <==> p in names && Restores(j, p)
  {
    if names != [] {
      var n := |names| - 1;
      RestoreNamesMembers(j, names[..n]);
      assert names == names[..n] + [names[n]];
    }
  }

  /** Where a removal ends: complete, or failing to move files aside, to put a
      taken-over file back, or to save the manifest; `put` holds the paths
      already restored. */
  datatype Ending = Complete | NotStaged | NotRestored(put: set<string>) | NotSaved

  /** Where a removal that meets no fault ends, decided before it begins. */
  function EndingOf(j: Job, names: seq<string>): Ending {
    if AnyBlocked(j, names) then NotStaged
    else if AnyCorrupt(j, names) then NotRestored(BeforeCorrupt(j, names))
    else Complete
  }

  /** What an ending leaves when nothing strikes on the way to it, nor while it
      undoes. */
  ghost predicate Left(j: Job, names: seq<string>, now: Tree, ending: Ending) {
    match ending
    case NotStaged => forall p :: now.At(p) == j.before.At(p)
    case NotRestored(put) =>
      && (forall p | p in put :: p in names && Restores(j, p))
      && (forall p :: now.At(p) == if p in put then Backup(j, p) else j.before.At(p))
    case _ => forall p :: now.At(p) == if p in names then Expected(j, p) else j.before.At(p)
  }

  // ---- What is never touched ----

  /** Only unedited recorded files were touched. */
  ghost predicate OnlyUnedited(j: Job, now: Tree, touched: set<string>) {
    && (forall p | p in touched :: Unedited(j, p))
    && (forall p | p !in touched :: now.At(p) == j.before.At(p))
  }

  /** Every file the user edited, or that the installation does not own, keeps
      its bytes. */
  ghost predicate EditedStand(hash: Bytes -> string, before: Tree, now: Tree, m: Manifest) {
    forall p | p in before.files && !IsInstalled(hash, m, p, before.files[p]) :: now.At(p) == before.At(p)
  }

  lemma Touched(j: Job, now: Tree, touched: set<string>)
    requires OnlyUnedited(j, now, touched)
    ensures NothingLost(j.hash, j.before, now, j.manifest, j.backups) && EditedStand(j.hash, j.before, now, j.manifest)
  {
    forall p | p in j.before.files && now.At(p) != Some(j.before.files[p])
      ensures IsInstalled(j.hash, j.manifest, p, j.before.files[p])
    {
      assert j.before.At(p) == Some(j.before.files[p]);
    }
  }

  // ---- One entry ----

  /** A file under a temporary name. */
  function MovedAside(tree: Tree, path: string, temp: nat): Tree
    requires path in tree.files
  {
    tree.(files := tree.files - {path}, temps := tree.temps[temp := Temp(Root, tree.files[path])])
  }

  predicate Same(tree: Tree, hash: Bytes -> string, e: OwnershipEntry) {
    e.path in tree.files && e.installed == hash(tree.files[e.path])
  }

  /** Moves an unedited file aside; an edited one is kept, a missing one only
      forgotten. */
  method StageRemoval(inst: Installation, e: OwnershipEntry) returns (ok: bool, edited: bool, t: Option<nat>)
    requires inst.Valid()
    modifies inst.disk
    ensures inst.Valid() && old(inst.disk.clock) <= inst.disk.clock <= old(inst.disk.clock) + 3
    ensures t.Some? ==> ok && inst.disk.clock == old(inst.disk.clock) + 3 && t.value !in old(inst.disk.tree.temps)
                        && Same(old(inst.disk.tree), inst.hash, e) && inst.disk.tree == MovedAside(old(inst.disk.tree), e.path, t.value)
    ensures t.None? ==> inst.disk.tree == old(inst.disk.tree)
    ensures ok ==> (t.Some? <==> Same(old(inst.disk.tree), inst.hash, e)) && e.path !in inst.disk.tree.dirs
    ensures edited ==> t.None? && e.path in inst.disk.tree.files
    ensures ok && !edited ==> e.path !in inst.disk.tree.files
    ensures !ok ==> inst.disk.Faulted(old(inst.disk.clock), inst.disk.clock) || e.path in inst.disk.tree.dirs
  {
    var state := inst.ManagedFileState(e.path, e);
    if state.None? || state == Some(NotRegular) {
      return false, false, None;
    }
    match state.value {
      case MissingFile => return true, false, None;
      case ChangedFile => return true, true, None;
      case NotRegular => return false, false, None;
      case SameFile =>
        t := inst.disk.SetAside(e.path);
        return t.Some?, false, t;
    }
  }

  method RestorablePreExisting(inst: Installation, e: OwnershipEntry) returns (yes: bool)
    requires inst.Valid()
    modifies inst.disk`clock
    ensures inst.Valid() && old(inst.disk.clock) <= inst.disk.clock <= old(inst.disk.clock) + 3
    ensures yes ==> e.backup != "" && e.backup in inst.backups && Same(inst.disk.tree, inst.hash, e)
    ensures e.backup != "" && e.backup in inst.backups && Same(inst.disk.tree, inst.hash, e)
            ==> yes || inst.disk.Faulted(old(inst.disk.clock), inst.disk.clock)
  {
    if e.backup == "" || e.backup !in inst.backups {
      return false;
    }
    var fails := inst.disk.Fails();
    if fails {
      return false;
    }
    var state := inst.ManagedFileState(e.path, e);
    if state.None? {
      return false;
    }
    match state.value {
      case SameFile => return true;
      case MissingFile => return false;
      case ChangedFile => return false;
      case NotRegular => return false;
    }
  }

  method RestoreEntry(inst: Installation, e: OwnershipEntry) returns (ok: bool)
    requires inst.Valid() && e.backup in inst.backups
    modifies inst.disk
    ensures inst.Valid() && inst.disk.clock >= old(inst.disk.clock)
    ensures inst.disk.tree.files == old(inst.disk.tree.files)
         || inst.disk.tree.files == old(inst.disk.tree.files)[e.path := inst.backups[e.backup]]
    ensures ok ==> inst.disk.tree.At(e.path) == Some(inst.backups[e.backup])
    ensures TempsKept(old(inst.disk.tree), inst.disk.tree)
    ensures e.path in old(inst.disk.tree.files) ==> inst.disk.tree.dirs == old(inst.disk.tree.dirs)
    ensures inst.hash(inst.backups[e.backup]) != e.prior ==> !ok && inst.disk.tree.files == old(inst.disk.tree.files)
    ensures inst.hash(inst.backups[e.backup]) == e.prior && Same(old(inst.disk.tree), inst.hash, e)
            ==> ok || inst.disk.Faulted(old(inst.disk.clock), inst.disk.clock)
  {
    var d := inst.ClassifyRestoreEntry(e);
    match d {
      case Unrestorable => return false;
      case Conflict => return false;
      case Already => return true;
      case Eligible(content) => ok := inst.ApplyRestorePlan(e.path, content);
    }
  }

  // ---- Files moved aside ----

  datatype Aside = Aside(path: string, temp: nat)

  function AsidePaths(staged: seq<Aside>): set<string> {
    set s | s in staged :: s.path
  }

  /** What is aside is still there, in a tree with the directories of before. */
  ghost predicate Held(before: Tree, now: Tree, staged: seq<Aside>) {
    && now.dirs == before.dirs
    && (forall k | 0 <= k < |staged| :: HeldAt(before, now, staged[k]))
    && (forall k, l | 0 <= k < l < |staged| :: staged[k].temp != staged[l].temp)
  }

  predicate HeldAt(before: Tree, now: Tree, a: Aside) {
    a.path in before.files && a.temp in now.temps && now.temps[a.temp].content == before.files[a.path]
  }

  lemma HeldOn(before: Tree, was: Tree, now: Tree, staged: seq<Aside>, aside: seq<Aside>, p: string)
    requires Held(before, was, staged) && was.At(p) == before.At(p)
    requires |aside| <= 1 && Moved(was, now, p, aside)
    ensures Held(before, now, staged + aside)
  {
    var all := staged + aside;
    forall k | 0 <= k < |all| ensures HeldAt(before, now, all[k]) {
      if k < |staged| { assert HeldAt(before, was, staged[k]); }
    }
    forall k, l | 0 <= k < l < |all| ensures all[k].temp != all[l].temp {
      assert HeldAt(before, was, staged[k]);
    }
  }

  lemma HeldThrough(before: Tree, was: Tree, now: Tree, staged: seq<Aside>)
    requires Held(before, was, staged) && TempsKept(was, now) && now.dirs == was.dirs
    ensures Held(before, now, staged)
  {
    forall k | 0 <= k < |staged| ensures HeldAt(before, now, staged[k]) { assert HeldAt(before, was, staged[k]); }
  }

  /** At most one file moved aside, and nothing else changed. */
  ghost predicate Moved(was: Tree, now: Tree, p: string, aside: seq<Aside>) {
    if aside == [] then now == was
    else p in was.files && aside[0].path == p && aside[0].temp !in was.temps && now == MovedAside(was, p, aside[0].temp)
  }

  /** Puts what was moved aside back, and discards what it could not. Every file
      is back unless a fault strikes while undoing; directories stay. */
  method PutBack(inst: Installation, staged: seq<Aside>, ghost before: Tree)
    requires inst.Valid() && before.WellFormed() && Held(before, inst.disk.tree, staged)
    modifies inst.disk
    ensures inst.Valid() && inst.disk.clock >= old(inst.disk.clock)
    ensures forall p | p !in AsidePaths(staged) :: inst.disk.tree.At(p) == old(inst.disk.tree.At(p))
    ensures inst.disk.Faulted(old(inst.disk.clock), inst.disk.clock)
         || forall p | p in AsidePaths(staged) :: inst.disk.tree.At(p) == before.At(p)
    ensures inst.disk.tree.dirs == before.dirs
  {
    ghost var start := inst.disk.clock;
    for i := 0 to |staged|
      invariant inst.Valid() && inst.disk.clock >= start
      invariant forall p | p !in AsidePaths(staged) :: inst.disk.tree.At(p) == old(inst.disk.tree.At(p))
      invariant inst.disk.tree.dirs == before.dirs
      invariant forall k | i <= k < |staged| :: HeldAt(before, inst.disk.tree, staged[k])
      invariant inst.disk.Faulted(start, inst.disk.clock)
             || forall k | 0 <= k < i :: inst.disk.tree.At(staged[k].path) == before.At(staged[k].path)
    {
      assert staged[i].path in AsidePaths(staged);
      assert HeldAt(before, inst.disk.tree, staged[i]);
      ghost var moment, was := inst.disk.clock, inst.disk.tree;
      var _ := inst.disk.Rename(staged[i].temp, staged[i].path);
      inst.disk.FaultedLater(start, moment, inst.disk.clock);
      forall k | i < k < |staged| ensures HeldAt(before, inst.disk.tree, staged[k]) { assert HeldAt(before, was, staged[k]); }
    }
    ghost var moment := inst.disk.clock;
    DropTemps(inst, staged);
    inst.disk.FaultedLater(start, moment, inst.disk.clock);
  }

  method DropTemps(inst: Installation, staged: seq<Aside>)
    requires inst.Valid()
    modifies inst.disk
    ensures inst.Valid() && inst.disk.clock >= old(inst.disk.clock)
    ensures inst.disk.tree == old(inst.disk.tree).(temps := inst.disk.tree.temps)
  {
    for i := 0 to |staged|
      invariant inst.Valid() && inst.disk.clock >= old(inst.disk.clock)
      invariant inst.disk.tree == old(inst.disk.tree).(temps := inst.disk.tree.temps)
    {
      var _ := inst.disk.RemoveTemp(staged[i].temp);
    }
  }

  /** The removals become final, and directories left empty go with them. */
  method Discard(inst: Installation, staged: seq<Aside>)
    requires inst.Valid()
    modifies inst.disk
    ensures inst.Valid() && inst.disk.clock >= old(inst.disk.clock)
    ensures inst.disk.tree.files == old(inst.disk.tree.files)
  {
    for i := 0 to |staged|
      invariant inst.Valid() && inst.disk.clock >= old(inst.disk.clock)
      invariant inst.disk.tree.files == old(inst.disk.tree.files)
    {
      var _ := inst.disk.RemoveTemp(staged[i].temp);
      inst.disk.PruneEmptyDirs(staged[i].path);
    }
  }

  // ---- Staging ----

  /** The installation is the one the job describes. */
  ghost predicate Fits(inst: Installation, j: Job)
    reads inst
  {
    j.hash == inst.hash && j.manifest == inst.manifest && j.backups == inst.backups && Keyed(j.manifest) && j.before.WellFormed()
  }

  function Gone(j: Job, names: seq<string>): set<string> {
    set p | p in names && Removes(j, p)
  }

  /** The removals among the names are carried out, and nothing else. */
  ghost predicate Staged(j: Job, now: Tree, names: seq<string>) {
    forall p :: now.At(p) == if p in names && Removes(j, p) then None else j.before.At(p)
  }

  /** Restores put off: real ones, apart, and all of them unless a fault struck. */
  ghost predicate PutOff(j: Job, names: seq<string>, restores: seq<OwnershipEntry>, faulted: bool) {
    && (forall k | 0 <= k < |restores| :: IsPutOff(j, names, restores[k]))
    && (forall k, l | 0 <= k < l < |restores| :: restores[k].path != restores[l].path)
    && (faulted || PathsOfEntries(restores) == RestoreNames(j, names))
  }

  predicate IsPutOff(j: Job, names: seq<string>, e: OwnershipEntry) {
    e.path in names && Restores(j, e.path) && j.manifest[e.path] == e
  }

  function PathsOfEntries(restores: seq<OwnershipEntry>): seq<string> {
    seq(|restores|, i requires 0 <= i < |restores| => restores[i].path)
  }

  /** The working manifest: handled entries stay listed or go, others untouched. */
  ghost predicate Trimmed(j: Job, m: Manifest, handled: seq<string>) {
    && (forall p | p in handled :: (p in m <==> StaysListed(j, p)) && (p in m ==> p in j.manifest && m[p] == Remaining(j, p)))
    && (forall p | p !in handled :: (p in m <==> p in j.manifest) && (p in m ==> m[p] == j.manifest[p]))
  }

  /** How far staging has come: everything up to index i handled. */
  ghost predicate Progress(j: Job, now: Tree, names: seq<string>, i: nat, m: Manifest, staged: seq<Aside>,
                           restores: seq<OwnershipEntry>, faulted: bool) {
    && i <= |names| && Distinct(names)
    && Staged(j, now, names[..i]) && Held(j.before, now, staged) && AsidePaths(staged) == Gone(j, names[..i])
    && PutOff(j, names[..i], restores, faulted) && Trimmed(j, m, names[..i])
    && (forall p | p in names :: p in j.manifest)
    && forall p | p in names[..i] :: !Blocked(j, p)
  }

  /** One planned entry, carried out or put off; the working manifest follows. */
  method ApplyItem(inst: Installation, p: string, m: Manifest, selected: set<Target>)
    returns (ok: bool, next: Manifest, aside: seq<Aside>, restore: bool)
    requires inst.Valid() && p in inst.manifest && p in m && m[p] == inst.manifest[p] && m[p].path == p
    modifies inst.disk
    ensures inst.Valid() && old(inst.disk.clock) <= inst.disk.clock <= old(inst.disk.clock) + 3
    ensures |aside| <= 1 && Moved(old(inst.disk.tree), inst.disk.tree, p, aside)
    ensures aside != [] ==> inst.disk.clock == old(inst.disk.clock) + 3
    ensures var c := Job(inst.hash, old(inst.disk.tree), inst.manifest, inst.backups, selected);
            && (ok ==> !Blocked(c, p) && (aside != [] <==> Removes(c, p)))
            && (!ok ==> aside == [] && !restore && next == m)
            && (!ok ==> inst.disk.Faulted(old(inst.disk.clock), inst.disk.clock) || Blocked(c, p))
            && (restore ==> Restores(c, p))
            && (Restores(c, p) ==> restore || inst.disk.Faulted(old(inst.disk.clock), inst.disk.clock))
    ensures forall q | q != p :: (q in next <==> q in m) && (q in m ==> next[q] == m[q])
    ensures var c := Job(inst.hash, old(inst.disk.tree), inst.manifest, inst.backups, selected);
            ok ==> (p in next <==> StaysListed(c, p)) && (p in next ==> next[p] == Remaining(c, p))
  {
    var e := m[p];
    next, aside, restore := m, [], false;
    match ActionFor(e, selected) {
      case Keep =>
        next := m[p := e.(targets := e.targets - selected)];
        ok := true;
      case Preserve =>
        restore := RestorablePreExisting(inst, e);
        next := m - {p};
        ok := true;
      case Remove =>
        var edited, t;
        ok, edited, t := StageRemoval(inst, e);
        if t.Some? { aside := [Aside(p, t.value)]; }
        if ok && !edited { next := m - {p}; }
    }
  }

  /** The next entry of the walk. */
  method StageNext(inst: Installation, ghost j: Job, ghost start: nat, selected: set<Target>, names: seq<string>, i: nat, m: Manifest,
                   staged: seq<Aside>, restores: seq<OwnershipEntry>)
    returns (ok: bool, next: Manifest, staged': seq<Aside>, restores': seq<OwnershipEntry>)
    requires inst.Valid() && Fits(inst, j) && j.selected == selected && start <= inst.disk.clock && i < |names|
    requires Progress(j, inst.disk.tree, names, i, m, staged, restores, inst.disk.Faulted(start, inst.disk.clock))
    modifies inst.disk
    ensures inst.Valid() && old(inst.disk.clock) <= inst.disk.clock <= old(inst.disk.clock) + 3
    ensures ok ==> Progress(j, inst.disk.tree, names, i + 1, next, staged', restores', inst.disk.Faulted(start, inst.disk.clock))
    ensures ok && Removes(j, names[i]) ==> inst.disk.clock == old(inst.disk.clock) + 3
    ensures !ok ==> Progress(j, inst.disk.tree, names, i, next, staged', restores', true)
    ensures !ok ==> inst.disk.Faulted(start, inst.disk.clock) || Blocked(j, names[i])
  {
    hide Digest, Removes, Restores, Blocked, Progress, Moved, StaysListed, Remaining;
    ghost var was, moment := inst.disk.tree, inst.disk.clock;
    ghost var faulted := inst.disk.Faulted(start, moment);
    ItemAhead(j, was, names, i, m, staged, restores, faulted);
    var aside, restore;
    ok, next, aside, restore := ApplyItem(inst, names[i], m, selected);
    inst.disk.FaultedLater(start, moment, inst.disk.clock);
    staged', restores' := staged + aside, restores + if restore then [inst.manifest[names[i]]] else [];
    if ok {
      ItemDone(j, was, inst.disk.tree, names, i, m, next, staged, aside, restores, restore, faulted, inst.disk.Faulted(start, inst.disk.clock));
    } else {
      NothingDone(j, was, inst.disk.tree, names, i, m, staged, restores, faulted, aside);
    }
  }

  lemma ItemAhead(j: Job, now: Tree, names: seq<string>, i: nat, m: Manifest, staged: seq<Aside>, restores: seq<OwnershipEntry>, faulted: bool)
    requires Keyed(j.manifest) && i < |names| && Progress(j, now, names, i, m, staged, restores, faulted)
    ensures var p := names[i]; var c := j.(before := now);
            && p in m && p in j.manifest && m[p] == j.manifest[p] && m[p].path == p
            && now.At(p) == j.before.At(p)
            && Removes(c, p) == Removes(j, p) && Restores(c, p) == Restores(j, p) && Blocked(c, p) == Blocked(j, p)
            && StaysListed(c, p) == StaysListed(j, p) && Remaining(c, p) == Remaining(j, p)
  {
    hide PutOff, HeldAt;
    assert names[i] in names && names[i] !in names[..i];
  }

  lemma NothingDone(j: Job, was: Tree, now: Tree, names: seq<string>, i: nat, m: Manifest, staged: seq<Aside>,
                    restores: seq<OwnershipEntry>, faulted: bool, aside: seq<Aside>)
    requires Progress(j, was, names, i, m, staged, restores, faulted) && i < |names| && Moved(was, now, names[i], aside) && aside == []
    ensures Progress(j, now, names, i, m, staged + aside, restores + [], true)
  {
    hide Staged, Held, Trimmed, Restores, Removes, Blocked;
    assert staged + aside == staged && restores + [] == restores;
  }

  lemma ItemDone(j: Job, was: Tree, now: Tree, names: seq<string>, i: nat, m: Manifest, next: Manifest, staged: seq<Aside>, aside: seq<Aside>,
                 restores: seq<OwnershipEntry>, restore: bool, faulted: bool, later: bool)
    requires Keyed(j.manifest) && i < |names| && Progress(j, was, names, i, m, staged, restores, faulted)
    requires |aside| <= 1 && Moved(was, now, names[i], aside) && (aside != [] <==> Removes(j, names[i])) && !Blocked(j, names[i])
    requires restore ==> Restores(j, names[i])
    requires (Restores(j, names[i]) ==> restore || later) && (faulted ==> later)
    requires forall q | q != names[i] :: (q in next <==> q in m) && (q in m ==> next[q] == m[q])
    requires (names[i] in next <==> StaysListed(j, names[i])) && (names[i] in next ==> next[names[i]] == Remaining(j, names[i]))
    requires names[i] in j.manifest && j.manifest[names[i]].path == names[i]
    ensures Progress(j, now, names, i + 1, next, staged + aside,
                     restores + (if restore then [j.manifest[names[i]]] else []), later)
  {
    hide Staged, Held, PutOff, Trimmed, Removes, Restores, Blocked, Moved, StaysListed, Remaining;
    var p := names[i];
    assert names[..i + 1] == names[..i] + [p] && p !in names[..i];
    StagedNext(j, was, now, names[..i], p, aside);
    HeldOn(j.before, was, now, staged, aside, p);
    GoneNext(j, names[..i], p, staged, aside);
    PutOffNext(j, names[..i], p, restores, restore, faulted, later);
    TrimmedNext(j, m, next, names[..i], p);
  }

  lemma StagedNext(j: Job, was: Tree, now: Tree, names: seq<string>, p: string, aside: seq<Aside>)
    requires Staged(j, was, names) && p !in names && Moved(was, now, p, aside) && (aside != [] <==> Removes(j, p))
    ensures Staged(j, now, names + [p]) && was.At(p) == j.before.At(p) && (aside != [] ==> aside[0].path == p)
  {
    hide Removes;
    forall q ensures now.At(q) == if q in names + [p] && Removes(j, q) then None else j.before.At(q) {
      assert was.At(q) == if q in names && Removes(j, q) then None else j.before.At(q);
    }
  }

  lemma GoneNext(j: Job, names: seq<string>, p: string, staged: seq<Aside>, aside: seq<Aside>)
    requires AsidePaths(staged) == Gone(j, names) && |aside| <= 1
    requires (aside != [] <==> Removes(j, p)) && (aside != [] ==> aside[0].path == p)
    ensures AsidePaths(staged + aside) == Gone(j, names + [p])
  {
    hide Removes;
    assert AsidePaths(staged + aside) == AsidePaths(staged) + if aside != [] then {p} else {} by {
      if aside != [] { assert aside == [aside[0]]; } else { assert staged + aside == staged; }
    }
  }

  lemma PutOffNext(j: Job, names: seq<string>, p: string, restores: seq<OwnershipEntry>, restore: bool, faulted: bool, later: bool)
    requires PutOff(j, names, restores, faulted) && p !in names && p in j.manifest && j.manifest[p].path == p
    requires (restore ==> Restores(j, p)) && (Restores(j, p) ==> restore || later) && (faulted ==> later)
    ensures PutOff(j, names + [p], restores + (if restore then [j.manifest[p]] else []), later)
  {
    hide Restores;
    var more := restores + if restore then [j.manifest[p]] else [];
    forall k | 0 <= k < |more| ensures IsPutOff(j, names + [p], more[k]) ensures k < |restores| ==> more[k].path != p {
      if k < |restores| { assert IsPutOff(j, names, restores[k]); }
    }
    if !later {
      assert (names + [p])[..|names|] == names;
      assert PathsOfEntries(more) == PathsOfEntries(restores) + if restore then [p] else [];
    }
  }

  lemma TrimmedNext(j: Job, m: Manifest, next: Manifest, handled: seq<string>, p: string)
    requires Trimmed(j, m, handled) && p !in handled && p in j.manifest
    requires forall q | q != p :: (q in next <==> q in m) && (q in m ==> next[q] == m[q])
    requires (p in next <==> StaysListed(j, p)) && (p in next ==> next[p] == Remaining(j, p))
    ensures Trimmed(j, next, handled + [p])
  {
    hide StaysListed, Remaining;
  }
  lemma NothingStaged(j: Job, names: seq<string>, faulted: bool)
    requires Keyed(j.manifest) && Distinct(names) && forall p | p in names :: p in j.manifest
    ensures Progress(j, j.before, names, 0, j.manifest, [], [], faulted)
  {
    assert names[..0] == [];
  }

  lemma RemovedNext(j: Job, names: seq<string>, p: string)
    ensures AnyRemoved(j, names + [p]) <==> AnyRemoved(j, names) || Removes(j, p)
  {
    hide Removes;
    if Removes(j, p) { assert p in names + [p]; }
    if q :| q in names && Removes(j, q) { assert q in names + [p]; }
  }

  /** How long staging may have taken: at most three operations an entry, and
      three for a removal. */
  ghost predicate Timed(j: Job, names: seq<string>, start: nat, now: nat) {
    start <= now <= start + 3 * |names| && (AnyRemoved(j, names) ==> now >= start + 3)
  }

  lemma TimedNext(j: Job, names: seq<string>, p: string, start: nat, was: nat, now: nat)
    requires Timed(j, names, start, was) && was <= now <= was + 3 && (Removes(j, p) ==> now == was + 3)
    ensures Timed(j, names + [p], start, now)
  {
    hide Removes, AnyRemoved;
    RemovedNext(j, names, p);
  }

  /** Walks the plan in path order, until done, cancelled or failed. */
  method StagePlan(inst: Installation, ghost j: Job, selected: set<Target>, cancelled: nat -> bool)
    returns (ok: bool, m: Manifest, staged: seq<Aside>, restores: seq<OwnershipEntry>, notApplied: seq<string>, ghost handled: seq<string>)
    requires inst.Valid() && Fits(inst, j) && j.before == inst.disk.tree && j.selected == selected
    modifies inst.disk
    ensures inst.Valid() && old(inst.disk.clock) <= inst.disk.clock <= old(inst.disk.clock) + 3 * |inst.manifest|
    ensures Progress(j, inst.disk.tree, handled, |handled|, m, staged, restores, !ok || inst.disk.Faulted(old(inst.disk.clock), inst.disk.clock))
    ensures ok ==> handled == Reached(inst.manifest, cancelled) && handled + notApplied == SortedSeq(inst.manifest.Keys)
    ensures ok && AnyRemoved(j, handled) ==> inst.disk.clock >= old(inst.disk.clock) + 3
    ensures !ok ==> inst.disk.Faulted(old(inst.disk.clock), inst.disk.clock) || AnyBlocked(j, Reached(inst.manifest, cancelled))
  {
    hide Digest, Removes, Restores, Blocked, Progress, Moved, HeldAt, Lists, Sorted, FirstCancelled, Keyed, AnyBlocked, AnyRemoved, Timed;
    var names := SortedSeq(inst.manifest.Keys);
    ghost var start := inst.disk.clock;
    m, staged, restores := inst.manifest, [], [];
    WalkStarts(j, names, start);
    var i := 0;
    assert names[..i] == [];
    while i < |names| && !cancelled(i)
      invariant inst.Valid() && i <= |names| && start <= inst.disk.clock
      invariant Progress(j, inst.disk.tree, names, i, m, staged, restores, inst.disk.Faulted(start, inst.disk.clock))
      invariant Timed(j, names[..i], start, inst.disk.clock)
      invariant FirstCancelled(cancelled, 0, |names|) == FirstCancelled(cancelled, i, |names|)
    {
      ghost var was := inst.disk.clock;
      ReachedNext(names, cancelled, i);
      ok, m, staged, restores := StageNext(inst, j, start, selected, names, i, m, staged, restores);
      if !ok {
        ProgressPart(j, inst.disk.tree, names, i, m, staged, restores, true);
        StopsEarly(j, names, i, cancelled, start, was, inst.disk.clock);
        return ok, m, staged, restores, [], names[..i];
      }
      assert names[..i + 1] == names[..i] + [names[i]];
      TimedNext(j, names[..i], names[i], start, was, inst.disk.clock);
      i := i + 1;
    }
    ProgressPart(j, inst.disk.tree, names, i, m, staged, restores, inst.disk.Faulted(start, inst.disk.clock));
    WalkEnds(j, names, i, cancelled, start, inst.disk.clock);
    return true, m, staged, restores, names[i..], names[..i];
  }

  lemma WalkStarts(j: Job, names: seq<string>, start: nat)
    requires Keyed(j.manifest) && names == SortedSeq(j.manifest.Keys)
    ensures Progress(j, j.before, names, 0, j.manifest, [], [], false) && Progress(j, j.before, names, 0, j.manifest, [], [], true)
    ensures Timed(j, [], start, start)
  {
    hide Progress, Sorted;
    SortedIsDistinct(names);
    NothingStaged(j, names, false);
    NothingStaged(j, names, true);
  }

  lemma StopsEarly(j: Job, names: seq<string>, i: nat, cancelled: nat -> bool, start: nat, was: nat, now: nat)
    requires i < |names| && Timed(j, names[..i], start, was) && was <= now <= was + 3
    requires i < FirstCancelled(cancelled, 0, |names|) <= |names|
    ensures start <= now <= start + 3 * |names|
    ensures Blocked(j, names[i]) ==> AnyBlocked(j, names[..FirstCancelled(cancelled, 0, |names|)])
  {
    hide Blocked, FirstCancelled, AnyRemoved;
    assert names[..FirstCancelled(cancelled, 0, |names|)][i] == names[i];
  }

  lemma WalkEnds(j: Job, names: seq<string>, i: nat, cancelled: nat -> bool, start: nat, now: nat)
    requires i <= |names| && Timed(j, names[..i], start, now)
    requires FirstCancelled(cancelled, 0, |names|) == FirstCancelled(cancelled, i, |names|) && (i == |names| || cancelled(i))
    ensures names[..i] == names[..FirstCancelled(cancelled, 0, |names|)] && names[..i] + names[i..] == names
    ensures start <= now <= start + 3 * |names| && (AnyRemoved(j, names[..i]) ==> now >= start + 3)
  {
    hide AnyRemoved;
  }

  lemma ReachedNext(names: seq<string>, cancelled: nat -> bool, i: nat)
    requires i < |names| && !cancelled(i)
    requires FirstCancelled(cancelled, 0, |names|) == FirstCancelled(cancelled, i, |names|)
    ensures FirstCancelled(cancelled, 0, |names|) == FirstCancelled(cancelled, i + 1, |names|) && i < FirstCancelled(cancelled, 0, |names|) <= |names|
  {
  }

  /** Progress over a list is all of the progress over its handled part. */
  lemma ProgressPart(j: Job, now: Tree, names: seq<string>, i: nat, m: Manifest, staged: seq<Aside>, restores: seq<OwnershipEntry>, faulted: bool)
    requires Progress(j, now, names, i, m, staged, restores, faulted)
    ensures Progress(j, now, names[..i], i, m, staged, restores, faulted)
  {
    hide Staged, Held, PutOff, Removes, Restores, Blocked;
    assert names[..i][..i] == names[..i];
  }

  // ---- Restoring ----

  /** The restores so far. */
  ghost predicate Restoring(j: Job, now: Tree, names: seq<string>, put: set<string>) {
    && (forall p | p in put :: p in names && Restores(j, p))
    && (forall p :: now.At(p) == if p in put then Backup(j, p) else if p in names && Removes(j, p) then None else j.before.At(p))
  }

  lemma NothingPut(j: Job, now: Tree, names: seq<string>)
    requires Staged(j, now, names)
    ensures Restoring(j, now, names, {})
  {
    hide Removes, Restores;
  }

  lemma OnePut(j: Job, was: Tree, now: Tree, names: seq<string>, put: set<string>, p: string)
    requires Restoring(j, was, names, put) && p in names && Restores(j, p)
    requires now.files == was.files || now.files == was.files[p := j.backups[j.manifest[p].backup]]
    requires now.At(p) == Backup(j, p)
    ensures Restoring(j, now, names, put + {p})
  {
    hide Removes;
    forall q ensures now.At(q) == if q in put + {p} then Backup(j, q) else if q in names && Removes(j, q) then None else j.before.At(q) {
      assert was.At(q) == if q in put then Backup(j, q) else if q in names && Removes(j, q) then None else j.before.At(q);
    }
  }

  lemma SamePut(j: Job, was: Tree, now: Tree, names: seq<string>, put: set<string>)
    requires Restoring(j, was, names, put) && now.files == was.files
    ensures Restoring(j, now, names, put)
  {
    hide Removes, Restores;
    forall p ensures now.At(p) == was.At(p) {}
  }

  /** A file to restore is there; until it is put it is as it was. */
  lemma StillThere(j: Job, now: Tree, names: seq<string>, put: set<string>, p: string)
    requires Keyed(j.manifest) && Restoring(j, now, names, put) && p in names && Restores(j, p)
    ensures p in now.files && j.manifest[p].backup in j.backups && (p !in put ==> Same(now, j.hash, j.manifest[p]))
  {
    assert now.At(p) == if p in put then Backup(j, p) else if p in names && Removes(j, p) then None else j.before.At(p);
  }

  /** The files taken over come back, until one cannot. */
  method RestoreAll(inst: Installation, ghost j: Job, ghost names: seq<string>, restores: seq<OwnershipEntry>,
                    ghost staged: seq<Aside>, ghost faulted: bool)
    returns (ok: bool, ghost put: set<string>)
    requires inst.Valid() && Fits(inst, j)
    requires Staged(j, inst.disk.tree, names) && Held(j.before, inst.disk.tree, staged) && PutOff(j, names, restores, faulted)
    modifies inst.disk
    ensures inst.Valid() && inst.disk.clock >= old(inst.disk.clock)
    ensures Held(j.before, inst.disk.tree, staged) && Restoring(j, inst.disk.tree, names, put)
    ensures !ok ==> restores != []
    ensures ok && !faulted ==> (forall p | p in names && Restores(j, p) :: p in put) && !AnyCorrupt(j, names)
    ensures !ok && !faulted && !inst.disk.Faulted(old(inst.disk.clock), inst.disk.clock) ==>
              AnyCorrupt(j, names) && put == BeforeCorrupt(j, names)
  {
    hide Digest, Removes, Restores, Restoring, Held, TempsKept, Corrupt, BeforeCorrupt, Staged, HeldAt, Same;
    put := {};
    ghost var start := inst.disk.clock;
    NothingPut(j, inst.disk.tree, names);
    for i := 0 to |restores|
      invariant inst.Valid() && inst.disk.clock >= start && Held(j.before, inst.disk.tree, staged)
      invariant Restoring(j, inst.disk.tree, names, put) && put == FirstPaths(restores, i)
      invariant forall k | 0 <= k < i :: !Corrupt(j, restores[k].path)
    {
      ok, put := RestoreNext(inst, j, names, restores, i, staged, put, faulted, start);
      if !ok {
        if !faulted && !inst.disk.Faulted(start, inst.disk.clock) { CorruptStops(j, names, restores, i); }
        return;
      }
    }
    ok := true;
    if !faulted { NoneCorrupt(j, names, restores); }
  }

  function FirstPaths(restores: seq<OwnershipEntry>, i: nat): set<string>
    requires i <= |restores|
  {
    set k | 0 <= k < i :: restores[k].path
  }

  method RestoreNext(inst: Installation, ghost j: Job, ghost names: seq<string>, restores: seq<OwnershipEntry>, i: nat,
                     ghost staged: seq<Aside>, ghost put: set<string>, ghost faulted: bool, ghost start: nat)
    returns (ok: bool, ghost put': set<string>)
    requires inst.Valid() && Fits(inst, j) && start <= inst.disk.clock && i < |restores|
    requires Held(j.before, inst.disk.tree, staged) && PutOff(j, names, restores, faulted)
    requires Restoring(j, inst.disk.tree, names, put) && put == FirstPaths(restores, i)
    modifies inst.disk
    ensures inst.Valid() && inst.disk.clock >= old(inst.disk.clock) && Held(j.before, inst.disk.tree, staged)
    ensures Restoring(j, inst.disk.tree, names, put')
    ensures ok ==> put' == FirstPaths(restores, i + 1) && !Corrupt(j, restores[i].path)
    ensures !ok && !inst.disk.Faulted(start, inst.disk.clock) ==> put' == put && Corrupt(j, restores[i].path)
  {
    hide Digest, Removes, Restores, Restoring, Held, TempsKept;
    var e := restores[i];
    assert IsPutOff(j, names, e);
    ghost var was, moment := inst.disk.tree, inst.disk.clock;
    StillThere(j, was, names, put, e.path);
    ok := RestoreEntry(inst, e);
    HeldThrough(j.before, was, inst.disk.tree, staged);
    inst.disk.FaultedLater(start, moment, inst.disk.clock);
    put' := put;
    if ok || inst.disk.tree.files != was.files {
      PutNow(j, was, inst.disk.tree, names, put, e);
      put' := put + {e.path};
    } else {
      SamePut(j, was, inst.disk.tree, names, put);
    }
  }

  lemma PutNow(j: Job, was: Tree, now: Tree, names: seq<string>, put: set<string>, e: OwnershipEntry)
    requires Restoring(j, was, names, put) && IsPutOff(j, names, e) && e.backup in j.backups
    requires now.files == was.files || now.files == was.files[e.path := j.backups[e.backup]]
    requires now.At(e.path) == Some(j.backups[e.backup])
    ensures Restoring(j, now, names, put + {e.path})
  {
    hide Removes, Restoring;
    OnePut(j, was, now, names, put, e.path);
  }

  lemma CorruptStops(j: Job, names: seq<string>, restores: seq<OwnershipEntry>, i: nat)
    requires PutOff(j, names, restores, false) && i < |restores|
    requires Corrupt(j, restores[i].path) && forall k | 0 <= k < i :: !Corrupt(j, restores[k].path)
    ensures AnyCorrupt(j, names) && FirstPaths(restores, i) == BeforeCorrupt(j, names)
  {
    hide Corrupt, Restores;
    assert IsPutOff(j, names, restores[i]);
    assert forall k | 0 <= k < |restores| :: RestoreNames(j, names)[k] == restores[k].path;
  }

  lemma NoneCorrupt(j: Job, names: seq<string>, restores: seq<OwnershipEntry>)
    requires PutOff(j, names, restores, false) && forall k | 0 <= k < |restores| :: !Corrupt(j, restores[k].path)
    ensures forall p | p in names && Restores(j, p) :: p in FirstPaths(restores, |restores|)
    ensures !AnyCorrupt(j, names)
  {
    RestoreNamesMembers(j, names);
    forall p | p in names && Restores(j, p) ensures p in FirstPaths(restores, |restores|) && !Corrupt(j, p) {
      assert p in PathsOfEntries(restores);
      var k :| 0 <= k < |restores| && PathsOfEntries(restores)[k] == p;
      assert restores[k].path == p;
    }
  }

  // ---- The removal ----

  // ---- What a removal means ----

  /** The targets to remove give a file up: skills only when no other target remains
      among the owners of anything. */
  predicate Releases(m: Manifest, targets: set<Target>, t: Target) {
    t in targets && (t == Skills ==> forall p, u | p in m && u in m[p].targets :: u == Skills || u in targets)
  }

  predicate StillOwned(m: Manifest, targets: set<Target>, p: string)
    requires p in m
  {
    exists t :: t in m[p].targets && !Releases(m, targets, t)
  }

  predicate AsInstalled(j: Job, p: string)
    requires p in j.manifest
  {
    p in j.before.files && j.hash(j.before.files[p]) == j.manifest[p].installed
  }

  predicate HasBackup(j: Job, p: string)
    requires p in j.manifest
  {
    j.manifest[p].backup != "" && j.manifest[p].backup in j.backups
  }

  /** What a removal makes of a recorded file. One still owned stays, with fewer
      owners. One that differs from what was installed stays as it is, recorded if the
      installation created it. Of the others, a file taken over gets its bytes back
      where they are held, and a file the installation created is gone. */
  ghost predicate RemovedAs(j: Job, targets: set<Target>, p: string, now: Tree, m: Manifest)
    requires p in j.manifest
  {
    var e := j.manifest[p];
    if StillOwned(j.manifest, targets, p) then
      && now.At(p) == j.before.At(p) && p in m && m[p] == e.(targets := m[p].targets)
      && forall t :: t in m[p].targets <==> t in e.targets && !Releases(j.manifest, targets, t)
    else if !AsInstalled(j, p) then
      now.At(p) == j.before.At(p) && (p in m <==> !e.preExisting && p in j.before.files) && (p in m ==> m[p] == e)
    else
      p !in m && now.At(p) == if !e.preExisting then None else if HasBackup(j, p) then Some(j.backups[e.backup]) else j.before.At(p)
  }

  /** What stops a removal without any fault: a file to remove has become a directory,
      or the backup to put back no longer holds the bytes recorded at takeover. */
  ghost predicate Stops(j: Job, targets: set<Target>, p: string)
    requires p in j.manifest
  {
    && !StillOwned(j.manifest, targets, p)
    && if j.manifest[p].preExisting then AsInstalled(j, p) && HasBackup(j, p) && j.hash(j.backups[j.manifest[p].backup]) != j.manifest[p].prior
       else p in j.before.dirs
  }

  lemma KeepMeans(m: Manifest, targets: set<Target>, p: string)
    requires p in m
    ensures forall t | t in m[p].targets :: t in SharedKept(m, targets) <==> Releases(m, targets, t)
    ensures ActionFor(m[p], SharedKept(m, targets))
            == if StillOwned(m, targets, p) then Keep else if m[p].preExisting then Preserve else Remove
  {
    forall t | t in m[p].targets ensures t in SharedKept(m, targets) <==> Releases(m, targets, t) {}
    if !(m[p].targets <= SharedKept(m, targets)) {
      var t :| t in m[p].targets && t !in SharedKept(m, targets);
      assert !Releases(m, targets, t);
    }
  }

  lemma RemovalMeans(j: Job, targets: set<Target>, names: seq<string>, now: Tree, m: Manifest, p: string)
    requires j.selected == SharedKept(j.manifest, targets) && j.before.WellFormed()
    requires Left(j, names, now, Complete) && Trimmed(j, m, names) && p in j.manifest
    ensures if p in names then RemovedAs(j, targets, p, now, m)
            else now.At(p) == j.before.At(p) && p in m && m[p] == j.manifest[p]
  {
    hide ActionFor, SharedKept, Releases, StillOwned;
    KeepMeans(j.manifest, targets, p);
    if p in names { assert p in m <==> StaysListed(j, p); }
  }

  lemma Removed(j: Job, targets: set<Target>, names: seq<string>, now: Tree, m: Manifest)
    requires j.selected == SharedKept(j.manifest, targets) && j.before.WellFormed()
    requires Left(j, names, now, Complete) && Trimmed(j, m, names) && forall p | p in names :: p in j.manifest
    ensures forall p | p !in j.manifest :: now.At(p) == j.before.At(p)
    ensures forall p | p in j.manifest ::
              if p in names then RemovedAs(j, targets, p, now, m) else now.At(p) == j.before.At(p) && p in m && m[p] == j.manifest[p]
  {
    hide RemovedAs, Trimmed, Expected;
    forall p | p in j.manifest
      ensures if p in names then RemovedAs(j, targets, p, now, m) else now.At(p) == j.before.At(p) && p in m && m[p] == j.manifest[p]
    {
      RemovalMeans(j, targets, names, now, m, p);
    }
  }

  lemma StopsMeans(j: Job, targets: set<Target>, p: string)
    requires j.selected == SharedKept(j.manifest, targets) && p in j.manifest
    ensures Blocked(j, p) || Corrupt(j, p) <==> Stops(j, targets, p)
  {
    hide ActionFor, SharedKept, Releases, StillOwned;
    KeepMeans(j.manifest, targets, p);
  }

  /** Without a fault, a removal goes through exactly when nothing it comes to stops it. */
  lemma EndsComplete(j: Job, targets: set<Target>, names: seq<string>)
    requires j.selected == SharedKept(j.manifest, targets) && forall p | p in names :: p in j.manifest
    ensures EndingOf(j, names) == Complete <==> forall p | p in names :: !Stops(j, targets, p)
  {
    hide Blocked, Corrupt, Stops, BeforeCorrupt;
    forall p | p in names ensures Blocked(j, p) || Corrupt(j, p) <==> Stops(j, targets, p) { StopsMeans(j, targets, p); }
  }

  lemma ReachedListed(m: Manifest, cancelled: nat -> bool)
    ensures forall p | p in Reached(m, cancelled) :: p in m
  {
    assert Lists(SortedSeq(m.Keys), m.Keys);
    forall p | p in Reached(m, cancelled) ensures p in m { assert p in SortedSeq(m.Keys); }
  }

  datatype UninstallResult = UninstallResult(ok: bool, notApplied: seq<string>)

  /** Whether an error met without any fault leaves the files as they were:
      staging never got through, or what was restored before the corrupt backup
      was there already. */
  predicate Harmless(j: Job, names: seq<string>) {
    || AnyBlocked(j, names)
    || (forall p | p in BeforeCorrupt(j, names) :: j.before.At(p) == Backup(j, p))
  }

  /** Staging first, restores next, and only then are the removals final. An
      error in the first two puts back what was moved aside; a failed save comes
      too late for that. Staging ends at `staging`, and the undoing, or the saving,
      begins at `moment`. Without a fault the ending is decided before the call. */
  method Uninstall(inst: Installation, targets: set<Target>, cancelled: nat -> bool)
    returns (r: UninstallResult, ghost ending: Ending, ghost staging: nat, ghost moment: nat)
    requires inst.Valid() && Keyed(inst.manifest)
    modifies inst, inst.disk
    ensures inst.Valid() && inst.backups == old(inst.backups)
    ensures NothingLost(inst.hash, old(inst.disk.tree), inst.disk.tree, old(inst.manifest), inst.backups)
    ensures EditedStand(inst.hash, old(inst.disk.tree), inst.disk.tree, old(inst.manifest))
    ensures old(inst.disk.clock) <= staging <= moment <= inst.disk.clock && (r.ok <==> ending.Complete?)
    ensures var j := Job(inst.hash, old(inst.disk.tree), old(inst.manifest), inst.backups, SharedKept(old(inst.manifest), targets));
            var names := Reached(old(inst.manifest), cancelled);
            && (ending.Complete? || ending.NotSaved? ==>
                  !inst.disk.Faulted(old(inst.disk.clock), staging) ==> Left(j, names, inst.disk.tree, ending))
            && (ending.NotStaged? || ending.NotRestored? ==>
                  !inst.disk.Faulted(moment, inst.disk.clock) ==> Left(j, names, inst.disk.tree, ending))
            && (!inst.disk.Faulted(old(inst.disk.clock), inst.disk.clock) ==> ending == EndingOf(j, names))
            && (!inst.disk.Faulted(old(inst.disk.clock), inst.disk.clock) && !r.ok ==>
                  (inst.disk.tree.files == old(inst.disk.tree.files) <==> Harmless(j, names)))
            && (ending.NotStaged? && !inst.disk.Faulted(old(inst.disk.clock), staging) ==> AnyBlocked(j, names))
            && staging <= old(inst.disk.clock) + 3 * |old(inst.manifest)|
            && (ending.NotRestored? ==> exists p :: p in names && Restores(j, p))
            && ((ending.Complete? || ending.NotSaved?) && AnyRemoved(j, names) ==> staging >= old(inst.disk.clock) + 3)
    ensures ending.Complete? || ending.NotSaved? ==> (ending.NotSaved? <==> inst.disk.faults(moment))
    ensures !r.ok ==> inst.manifest == old(inst.manifest) && r.notApplied == []
    ensures r.ok ==> Reached(old(inst.manifest), cancelled) + r.notApplied == SortedSeq(old(inst.manifest).Keys)
    ensures r.ok ==> Trimmed(Job(inst.hash, old(inst.disk.tree), old(inst.manifest), inst.backups, SharedKept(old(inst.manifest), targets)),
                             inst.manifest, Reached(old(inst.manifest), cancelled))
    ensures Keyed(inst.manifest)
    ensures forall p | p in inst.manifest :: p in old(inst.manifest) && inst.manifest[p].installed == old(inst.manifest)[p].installed
    ensures var j := Job(inst.hash, old(inst.disk.tree), old(inst.manifest), inst.backups, SharedKept(old(inst.manifest), targets));
            var names := Reached(old(inst.manifest), cancelled);
            && (!inst.disk.Faulted(old(inst.disk.clock), inst.disk.clock) ==>
                  (r.ok <==> forall p | p in names && p in j.manifest :: !Stops(j, targets, p)))
            && (r.ok && !inst.disk.Faulted(old(inst.disk.clock), staging) ==>
                  && (forall p | p !in j.manifest :: inst.disk.tree.At(p) == j.before.At(p))
                  && forall p | p in j.manifest ::
                       if p in names then RemovedAs(j, targets, p, inst.disk.tree, inst.manifest)
                       else inst.disk.tree.At(p) == j.before.At(p) && p in inst.manifest && inst.manifest[p] == j.manifest[p])
  {
    hide Stops, RemovedAs, Digest, NothingLost, Restoring, Expected, Removes, Restores, Blocked, Corrupt, EditedStand, Held, Left, Progress, Staged,
         PutOff, EndingOf, Harmless, Trimmed, Reached, BeforeCorrupt, AnyBlocked, AnyCorrupt, AnyRemoved, Gone, AsidePaths, Lists, Sorted;
    var m0, selected := inst.manifest, SharedKept(inst.manifest, targets);
    ghost var j, start := Job(inst.hash, inst.disk.tree, m0, inst.backups, selected), inst.disk.clock;
    ghost var reached := Reached(m0, cancelled);
    var ok, m, staged, restores, notApplied;
    ghost var names;
    ok, m, staged, restores, notApplied, names := StagePlan(inst, j, selected, cancelled);
    ghost var was, faulted := inst.disk.tree, inst.disk.Faulted(start, inst.disk.clock);
    ProgressParts(j, was, names, m, staged, restores, !ok || faulted);
    ReachedListed(m0, cancelled);
    EndsComplete(j, targets, reached);
    staging, moment := inst.disk.clock, inst.disk.clock;
    if !ok {
      UndoStaging(inst, staged, j, names, reached);
      inst.disk.FaultedLater(start, moment, inst.disk.clock);
      return UninstallResult(false, []), NotStaged, staging, moment;
    }
    ghost var put: set<string>;
    ok, put := RestoreAll(inst, j, names, restores, staged, faulted);
    inst.disk.FaultedLater(start, moment, inst.disk.clock);
    ghost var now := inst.disk.tree;
    moment := inst.disk.clock;
    if !ok {
      SomeRestore(j, names, restores, faulted);
      UndoRestoring(inst, staged, j, names, put);
      inst.disk.FaultedLater(start, moment, inst.disk.clock);
      return UninstallResult(false, []), NotRestored(put), staging, moment;
    }
    Discard(inst, staged);
    RestoringTouches(j, now, inst.disk.tree, names, put, {});
    inst.disk.FaultedLater(start, moment, inst.disk.clock);
    moment := inst.disk.clock;
    if !faulted { AsExpected(j, now, inst.disk.tree, names, put); }
    var fails := inst.disk.Fails();
    inst.disk.FaultedLater(start, moment, inst.disk.clock);
    if fails {
      assert inst.disk.Faulted(moment, inst.disk.clock);
      return UninstallResult(false, []), NotSaved, staging, moment;
    }
    if !faulted { NothingEnds(j, names); }
    TrimmedKeeps(j, m, names);
    inst.manifest := m;
    if !faulted { Removed(j, targets, names, inst.disk.tree, m); }
    return UninstallResult(true, notApplied), Complete, staging, moment;
  }

  /** After a failed staging. */
  method UndoStaging(inst: Installation, staged: seq<Aside>, ghost j: Job, ghost names: seq<string>, ghost reached: seq<string>)
    requires inst.Valid() && Fits(inst, j) && Staged(j, inst.disk.tree, names) && Held(j.before, inst.disk.tree, staged)
    requires AsidePaths(staged) == Gone(j, names)
    modifies inst.disk
    ensures inst.Valid() && inst.disk.clock >= old(inst.disk.clock)
    ensures NothingLost(j.hash, j.before, inst.disk.tree, j.manifest, j.backups) && EditedStand(j.hash, j.before, inst.disk.tree, j.manifest)
    ensures !inst.disk.Faulted(old(inst.disk.clock), inst.disk.clock) ==>
              Left(j, reached, inst.disk.tree, NotStaged)
              && (AnyBlocked(j, reached) ==> EndingOf(j, reached) == NotStaged && Harmless(j, reached) && inst.disk.tree.files == j.before.files)
  {
    hide Digest, NothingLost, EditedStand, Removes, Staged, Held, Left, AnyBlocked, EndingOf, Harmless;
    ghost var was := inst.disk.tree;
    PutBack(inst, staged, j.before);
    StagedTouches(j, was, inst.disk.tree, names);
    if !inst.disk.Faulted(old(inst.disk.clock), inst.disk.clock) {
      StagingUndone(j, was, inst.disk.tree, names, reached);
      if AnyBlocked(j, reached) { BlockedEnds(j, reached, inst.disk.tree); }
    }
  }

  /** After a failed restore. */
  method UndoRestoring(inst: Installation, staged: seq<Aside>, ghost j: Job, ghost names: seq<string>, ghost put: set<string>)
    requires inst.Valid() && Fits(inst, j) && Restoring(j, inst.disk.tree, names, put) && Held(j.before, inst.disk.tree, staged)
    requires AsidePaths(staged) == Gone(j, names)
    modifies inst.disk
    ensures inst.Valid() && inst.disk.clock >= old(inst.disk.clock)
    ensures NothingLost(j.hash, j.before, inst.disk.tree, j.manifest, j.backups) && EditedStand(j.hash, j.before, inst.disk.tree, j.manifest)
    ensures !inst.disk.Faulted(old(inst.disk.clock), inst.disk.clock) ==>
              Left(j, names, inst.disk.tree, NotRestored(put))
              && (!AnyBlocked(j, names) && AnyCorrupt(j, names) && put == BeforeCorrupt(j, names) ==>
                    EndingOf(j, names) == NotRestored(put) && (inst.disk.tree.files == j.before.files <==> Harmless(j, names)))
  {
    hide Digest, NothingLost, EditedStand, Removes, Restoring, Held, Left, AnyBlocked, AnyCorrupt, BeforeCorrupt, EndingOf, Harmless;
    ghost var was := inst.disk.tree;
    PutBack(inst, staged, j.before);
    RestoringTouches(j, was, inst.disk.tree, names, put, Gone(j, names));
    if !inst.disk.Faulted(old(inst.disk.clock), inst.disk.clock) {
      RestoringUndone(j, was, inst.disk.tree, names, put);
      if !AnyBlocked(j, names) && AnyCorrupt(j, names) && put == BeforeCorrupt(j, names) { CorruptEnds(j, names, inst.disk.tree); }
    }
  }

  lemma ProgressParts(j: Job, now: Tree, names: seq<string>, m: Manifest, staged: seq<Aside>, restores: seq<OwnershipEntry>, faulted: bool)
    requires Progress(j, now, names, |names|, m, staged, restores, faulted)
    ensures Staged(j, now, names) && Held(j.before, now, staged) && AsidePaths(staged) == Gone(j, names) && PutOff(j, names, restores, faulted)
    ensures Trimmed(j, m, names)
    ensures !AnyBlocked(j, names)
  {
    hide Staged, Held, PutOff, Trimmed, Removes, Restores, Blocked;
    assert names[..|names|] == names;
  }

  lemma TrimmedKeeps(j: Job, m: Manifest, names: seq<string>)
    requires Keyed(j.manifest) && Trimmed(j, m, names)
    ensures Keyed(m) && forall p | p in m :: p in j.manifest && m[p].installed == j.manifest[p].installed
  {
    hide StaysListed;
    forall p | p in m ensures p in j.manifest && m[p].path == p && m[p].installed == j.manifest[p].installed {
      if p in names { assert m[p] == Remaining(j, p); }
    }
  }

  lemma SomeRestore(j: Job, names: seq<string>, restores: seq<OwnershipEntry>, faulted: bool)
    requires PutOff(j, names, restores, faulted) && restores != []
    ensures exists p :: p in names && Restores(j, p)
  {
    assert IsPutOff(j, names, restores[0]);
  }

  lemma StagedTouches(j: Job, was: Tree, now: Tree, names: seq<string>)
    requires Staged(j, was, names) && forall p | p !in Gone(j, names) :: now.At(p) == was.At(p)
    ensures NothingLost(j.hash, j.before, now, j.manifest, j.backups) && EditedStand(j.hash, j.before, now, j.manifest)
  {
    assert OnlyUnedited(j, now, Gone(j, names)) by {
      forall p | p !in Gone(j, names) ensures now.At(p) == j.before.At(p) { assert was.At(p) == j.before.At(p); }
    }
    Touched(j, now, Gone(j, names));
  }

  lemma RestoringTouches(j: Job, was: Tree, now: Tree, names: seq<string>, put: set<string>, again: set<string>)
    requires Restoring(j, was, names, put) && again <= Gone(j, names) && forall p | p !in again :: now.At(p) == was.At(p)
    ensures NothingLost(j.hash, j.before, now, j.manifest, j.backups) && EditedStand(j.hash, j.before, now, j.manifest)
  {
    var touched := Gone(j, names) + put;
    assert OnlyUnedited(j, now, touched) by {
      forall p | p !in touched ensures now.At(p) == j.before.At(p) {
        assert was.At(p) == if p in put then Backup(j, p) else if p in names && Removes(j, p) then None else j.before.At(p);
      }
    }
    Touched(j, now, touched);
  }

  lemma StagingUndone(j: Job, was: Tree, now: Tree, names: seq<string>, reached: seq<string>)
    requires Staged(j, was, names) && forall p :: now.At(p) == if p in Gone(j, names) then j.before.At(p) else was.At(p)
    ensures Left(j, reached, now, NotStaged)
  {
    hide Removes;
    forall p ensures now.At(p) == j.before.At(p) { assert was.At(p) == if p in names && Removes(j, p) then None else j.before.At(p); }
  }

  lemma RestoringUndone(j: Job, was: Tree, now: Tree, names: seq<string>, put: set<string>)
    requires Restoring(j, was, names, put) && forall p :: now.At(p) == if p in Gone(j, names) then j.before.At(p) else was.At(p)
    ensures Left(j, names, now, NotRestored(put))
  {
    forall p ensures now.At(p) == if p in put then Backup(j, p) else j.before.At(p) {
      assert was.At(p) == if p in put then Backup(j, p) else if p in names && Removes(j, p) then None else j.before.At(p);
    }
  }

  lemma AsExpected(j: Job, was: Tree, now: Tree, names: seq<string>, put: set<string>)
    requires Restoring(j, was, names, put) && now.files == was.files
    requires forall p | p in names && Restores(j, p) :: p in put
    ensures Left(j, names, now, Complete) && Left(j, names, now, NotSaved)
  {
    hide Removes, Restores;
    forall p ensures now.At(p) == if p in names then Expected(j, p) else j.before.At(p) {
      assert was.At(p) == if p in put then Backup(j, p) else if p in names && Removes(j, p) then None else j.before.At(p);
      OneAction(j, p);
    }
  }

  lemma OneAction(j: Job, p: string)
    ensures !(Removes(j, p) && Restores(j, p))
  {
  }

  lemma BlockedEnds(j: Job, names: seq<string>, now: Tree)
    requires AnyBlocked(j, names) && Left(j, names, now, NotStaged)
    ensures EndingOf(j, names) == NotStaged && Harmless(j, names) && now.files == j.before.files
  {
    hide Blocked, Corrupt;
    SameFiles(j.before, now);
  }

  lemma CorruptEnds(j: Job, names: seq<string>, now: Tree)
    requires !AnyBlocked(j, names) && AnyCorrupt(j, names)
    requires Left(j, names, now, NotRestored(BeforeCorrupt(j, names)))
    ensures EndingOf(j, names) == NotRestored(BeforeCorrupt(j, names))
    ensures now.files == j.before.files <==> Harmless(j, names)
  {
    hide Blocked, Corrupt, BeforeCorrupt;
    SameFiles(j.before, now);
    if now.files == j.before.files {
      forall p | p in BeforeCorrupt(j, names) ensures j.before.At(p) == Backup(j, p) { assert now.At(p) == Backup(j, p); }
    }
  }

  lemma NothingEnds(j: Job, names: seq<string>)
    requires !AnyBlocked(j, names) && !AnyCorrupt(j, names)
    ensures EndingOf(j, names) == Complete
  {
  }

  lemma SameFiles(before: Tree, now: Tree)
    ensures now.files == before.files <==> forall p :: now.At(p) == before.At(p)
  {
    if forall p :: now.At(p) == before.At(p) {
      forall p ensures p in now.files <==> p in before.files ensures p in now.files ==> now.files[p] == before.files[p] {
        assert now.At(p) == before.At(p);
      }
    }
  }

  // ---- Errors that do not leave the files untouched ----

  /** An ending leaves the files as they were exactly when it had nothing to
      change: after a failed staging always; after a failed restore, when what was
      put equals what was there; after a failed save, also when nothing was to be
      removed. */
  lemma UntouchedByError(j: Job, names: seq<string>, now: Tree, ending: Ending)
    requires Left(j, names, now, ending)
    ensures now.files == j.before.files <==>
            match ending
            case NotStaged => true
            case NotRestored(put) => forall p | p in put :: j.before.At(p) == Backup(j, p)
            case _ => forall p | p in names :: !Removes(j, p) && (Restores(j, p) ==> j.before.At(p) == Backup(j, p))
  {
    SameFiles(j.before, now);
    if now.files == j.before.files {
      match ending
      case NotStaged =>
      case NotRestored(put) =>
      case _ =>
        forall p | p in names ensures !Removes(j, p) && (Restores(j, p) ==> j.before.At(p) == Backup(j, p)) {
          assert now.At(p) == Expected(j, p);
        }
    }
  }

  const Everything: set<Target> := {OpenCode, Skills}

  /** Two entries to restore, the second with a corrupt backup. */
  lemma SecondCorrupt(j: Job, a: string, b: string)
    requires Restores(j, a) && !Corrupt(j, a) && Corrupt(j, b) && !Blocked(j, a) && !Blocked(j, b)
    ensures EndingOf(j, [a, b]) == NotRestored({a})
  {
    hide Restores, Blocked, Corrupt;
    var names := [a, b];
    assert b in names && AnyCorrupt(j, names) && !AnyBlocked(j, names);
    CorruptRestores(j, b);
    TwoRestores(j, a, b);
    assert BeforeCorrupt(j, names) == {a} by {
      assert names[0] == a && names[1] == b;
    }
  }

  lemma CorruptRestores(j: Job, p: string)
    ensures Corrupt(j, p) ==> Restores(j, p)
  {
  }

  lemma TwoRestores(j: Job, a: string, b: string)
    requires Restores(j, a) && Restores(j, b)
    ensures RestoreNames(j, [a, b]) == [a, b]
  {
    hide Restores;
    assert [a, b][..1] == [a] && [a][..0] == [];
    assert RestoreNames(j, [a]) == RestoreNames(j, []) + [a];
  }

  /** A taken-over file as it was installed, with the backup of what was there. */
  function TakenOverAs(hash: Bytes -> string, p: string, installed: Bytes, prior: Bytes, backup: string): OwnershipEntry {
    OwnershipEntry(p, hash(installed), true, hash(prior), backup, {OpenCode})
  }

  /** Two files taken over, both unedited; the backup of the second no longer
      holds what was recorded. */
  function Tampered(hash: Bytes -> string): Job {
    Job(hash, Tree(map["a" := [1], "b" := [2]], {Root}, map[]),
        map["a" := TakenOverAs(hash, "a", [1], [3], "x"), "b" := TakenOverAs(hash, "b", [2], [5], "y")],
        map["x" := [3], "y" := [4]], Everything)
  }

  lemma TamperedEnds(hash: Bytes -> string)
    requires Digest(hash)
    ensures var j := Tampered(hash);
            && j.hash == hash && j.selected == Everything && j.before.temps == map[]
            && j.before.WellFormed() && Keyed(j.manifest) && SharedKept(j.manifest, Everything) == Everything
            && Reached(j.manifest, i => false) == ["a", "b"] && EndingOf(j, ["a", "b"]) == NotRestored({"a"})
            && Backup(j, "a") == Some([3])
  {
    hide EndingOf, Reached, SharedKept;
    var j := Tampered(hash);
    TamperedTree(j.before);
    EveryTarget(j.manifest, Everything);
    AllReached(j.manifest, ["a", "b"]);
    SecondTampered(hash);
    SecondCorrupt(j, "a", "b");
  }

  lemma SecondTampered(hash: Bytes -> string)
    requires Digest(hash)
    ensures var j := Tampered(hash);
            && Restores(j, "a") && Restores(j, "b") && !Corrupt(j, "a") && Corrupt(j, "b")
            && !Blocked(j, "a") && !Blocked(j, "b")
  {
  }

  lemma TamperedTree(tree: Tree)
    requires tree == Tree(map["a" := [1], "b" := [2]], {Root}, map[])
    ensures tree.WellFormed()
  {
    assert Dir("a") == Root && Dir("b") == Root;
  }

  /** Without any fault the removal fails, the manifest stays, and yet the first
      file has been replaced by its backup. */
  method TamperedBackup(hash: Bytes -> string) returns (inst: Installation, r: UninstallResult)
    requires Digest(hash)
    ensures fresh(inst) && inst.hash == hash && inst.manifest == Tampered(hash).manifest && inst.backups == Tampered(hash).backups
    ensures !r.ok && inst.disk.tree.At("a") == Some([3]) != Tampered(hash).before.At("a")
  {
    hide Digest, EditedStand, NothingLost, Left, Reached, EndingOf, Harmless, SharedKept, Tampered, AnyBlocked, AnyRemoved;
    TamperedEnds(hash);
    var j := Tampered(hash);
    var disk := new Disk(j.before, c => false, 0);
    inst := new Installation(disk, hash, j.backups, j.manifest);
    ghost var ending, staging, moment;
    r, ending, staging, moment := Uninstall(inst, Everything, i => false);
    RestoredLeft(j, ["a", "b"], inst.disk.tree, "a");
    TamperedFile(hash);
  }

  lemma RestoredLeft(j: Job, names: seq<string>, now: Tree, p: string)
    ensures Left(j, names, now, NotRestored({p})) ==> now.At(p) == Backup(j, p)
  {
  }

  lemma TamperedFile(hash: Bytes -> string)
    ensures Tampered(hash).before.At("a") == Some([1])
  {
  }

  /** Never cancelled, a walk reaches the one sorted listing of the entries. */
  lemma AllReached(m: Manifest, names: seq<string>)
    requires Lists(names, m.Keys)
    ensures Reached(m, i => false) == names
  {
    SortedUnique(names, SortedSeq(m.Keys));
  }

  /** One unedited file to remove. */
  function Removable(hash: Bytes -> string): Job {
    Job(hash, Tree(map["a" := [1]], {Root}, map[]), map["a" := OwnershipEntry("a", hash([1]), false, "", "", {OpenCode})], map[], Everything)
  }

  lemma RemovableEnds(hash: Bytes -> string)
    ensures var j := Removable(hash);
            && j.hash == hash && j.selected == Everything && j.before.temps == map[]
            && j.before.WellFormed() && Keyed(j.manifest) && SharedKept(j.manifest, Everything) == Everything
            && Reached(j.manifest, i => false) == ["a"] && |j.manifest| == 1
            && AnyRemoved(j, ["a"]) && !AnyBlocked(j, ["a"]) && (forall p :: !Restores(j, p)) && Expected(j, "a") == None
  {
    hide Reached;
    var j := Removable(hash);
    assert Dir("a") == Root;
    EveryTarget(j.manifest, Everything);
    AllReached(j.manifest, ["a"]);
    assert Removes(j, "a") && "a" in ["a"] && !Blocked(j, "a");
  }

  /** On a disk where nothing works any more once the file is aside, the save
      fails: the manifest still lists the file, and it is gone. */
  method FailedSave(hash: Bytes -> string) returns (inst: Installation, r: UninstallResult)
    requires Digest(hash)
    ensures fresh(inst) && inst.hash == hash && inst.manifest == Removable(hash).manifest
    ensures !r.ok && inst.disk.tree.At("a") == None
  {
    hide Digest, EditedStand, NothingLost, Left, Reached, EndingOf, Harmless, SharedKept, Removable, AnyBlocked, AnyRemoved, Restores, Expected;
    RemovableEnds(hash);
    var j := Removable(hash);
    var disk := new Disk(j.before, c => c >= 3, 0);
    inst := new Installation(disk, hash, j.backups, j.manifest);
    ghost var ending, staging, moment;
    r, ending, staging, moment := Uninstall(inst, Everything, i => false);
    RemovedLeft(j, ["a"], inst.disk.tree, "a");
  }

  lemma RemovedLeft(j: Job, names: seq<string>, now: Tree, p: string)
    requires p in names && Expected(j, p) == None
    ensures Left(j, names, now, Complete) || Left(j, names, now, NotSaved) ==> now.At(p) == None
  {
    hide Expected;
  }

  // ---- There and back ----

  /** Applying to an empty manifest and then removing everything, with no edit
      in between, leaves every file as it was before the installation. */
  lemma ApplyThenUninstall(j: Job, names: seq<string>, before: Tree, now: Tree)
    requires TakenOver(j.hash, before, j.before, j.manifest, j.backups)
    requires forall p | p in j.manifest :: j.manifest[p].targets <= j.selected
    requires (forall p :: p in names <==> p in j.manifest) && Left(j, names, now, Complete)
    ensures now.files == before.files
  {
    forall p ensures now.At(p) == before.At(p) {
      if p in j.manifest { assert TakenAt(j.hash, before, j.before, j.manifest[p], j.backups, p); }
    }
    SameFiles(before, now);
  }

  /** One apply: what it manages, installs and for whom, and when it is cancelled. */
  datatype Applying = Applying(managed: set<string>, artifacts: seq<Artifact>, targets: map<string, Target>, cancelled: nat -> bool)

  /** Applies one after another, until one is not recorded. */
  method ApplyEach(inst: Installation, plans: seq<Applying>) returns (recorded: bool)
    requires inst.Valid()
    requires forall k, i | 0 <= k < |plans| && 0 <= i < |plans[k].artifacts| :: Relative(plans[k].artifacts[i].path)
    modifies inst, inst.disk
    ensures inst.Valid() && inst.disk.clock >= old(inst.disk.clock)
    ensures forall origin :: recorded && TakenOver(inst.hash, origin, old(inst.disk.tree), old(inst.manifest), old(inst.backups)) ==>
              TakenOver(inst.hash, origin, inst.disk.tree, inst.manifest, inst.backups)
  {
    hide Digest, NothingLost, NothingClaimed, BackupsStand, TakenOver, InPlace, Split, ManifestAfter, InOrder, Deployable, Recordable, Clash, Keyed, Skipped,
         ToWritePaths;
    ghost var before, m, backups := inst.disk.tree, inst.manifest, inst.backups;
    for k := 0 to |plans|
      invariant inst.Valid() && inst.disk.clock >= old(inst.disk.clock)
      invariant forall origin :: TakenOver(inst.hash, origin, before, m, backups) ==>
                  TakenOver(inst.hash, origin, inst.disk.tree, inst.manifest, inst.backups)
    {
      var r;
      r, recorded := inst.ApplyPlans(plans[k].managed, plans[k].artifacts, plans[k].targets, plans[k].cancelled);
      if !recorded {
        return;
      }
    }
    recorded := true;
  }

  /** Any number of recorded applies from an empty manifest, whole or cancelled
      part way, and then a full removal that meets no fault and is not cancelled:
      it succeeds, and every file is as it was before the first apply. */
  method ThereAndBack(inst: Installation, plans: seq<Applying>, cancelled: nat -> bool)
    returns (recorded: bool, r: UninstallResult, ghost removing: nat)
    requires inst.Valid() && inst.manifest == map[]
    requires forall k, i | 0 <= k < |plans| && 0 <= i < |plans[k].artifacts| :: Relative(plans[k].artifacts[i].path)
    modifies inst, inst.disk
    ensures removing <= inst.disk.clock
    ensures recorded && !inst.disk.Faulted(removing, inst.disk.clock) && (forall i: nat :: !cancelled(i)) ==>
              r.ok && r.notApplied == [] && inst.manifest == map[]
    ensures recorded && r.ok && r.notApplied == [] && !inst.disk.Faulted(removing, inst.disk.clock)
            ==> inst.disk.tree.files == old(inst.disk.tree.files)
  {
    hide Digest, NothingLost, TakenAt, TakenOver, EditedStand, Left, EndingOf, Harmless, Removes, Restores, Blocked, Reached, Trimmed, AnyBlocked, AnyRemoved,
         RemovedAs, Stops;
    ghost var before := inst.disk.tree;
    NothingTakenOver(inst.hash, before, inst.backups);
    recorded := ApplyEach(inst, plans);
    removing := inst.disk.clock;
    r := UninstallResult(false, []);
    if recorded {
      ghost var installed, m := inst.disk.tree, inst.manifest;
      TakenIsKeyed(inst.hash, before, installed, m, inst.backups);
      var all := {OpenCode, Skills};
      EveryTarget(m, all);
      ghost var ending, staging, moment;
      r, ending, staging, moment := Uninstall(inst, all, cancelled);
      ghost var j, names := Job(inst.hash, installed, m, inst.backups, all), Reached(m, cancelled);
      TakenEnds(j, before, cancelled);
      if !inst.disk.Faulted(removing, inst.disk.clock) {
        inst.disk.FaultedLater(removing, staging, inst.disk.clock);
        if forall i: nat :: !cancelled(i) {
          AllOf(m, cancelled);
          assert names + r.notApplied == names ==> r.notApplied == [];
          NothingListed(j, before, inst.manifest, names);
        }
        if r.ok && r.notApplied == [] {
          assert names + [] == names;
          ApplyThenUninstall(j, names, before, inst.disk.tree);
        }
      }
    }
  }

  lemma AllOf(m: Manifest, cancelled: nat -> bool)
    requires forall i: nat :: !cancelled(i)
    ensures Reached(m, cancelled) == SortedSeq(m.Keys)
  {
    var names := SortedSeq(m.Keys);
    assert names[..|names|] == names;
  }

  /** What was taken over is neither blocked nor corrupt. */
  lemma TakenEnds(j: Job, before: Tree, cancelled: nat -> bool)
    requires TakenOver(j.hash, before, j.before, j.manifest, j.backups) && j.before.WellFormed()
    ensures EndingOf(j, Reached(j.manifest, cancelled)) == Complete
  {
    hide Reached, TakenAt;
    forall p ensures !Blocked(j, p) && !Corrupt(j, p) { if p in j.manifest { TakenStands(j, before, p); } }
  }

  lemma TakenStands(j: Job, before: Tree, p: string)
    requires TakenOver(j.hash, before, j.before, j.manifest, j.backups) && j.before.WellFormed() && p in j.manifest
    ensures !Blocked(j, p) && !Corrupt(j, p)
  {
    assert TakenAt(j.hash, before, j.before, j.manifest[p], j.backups, p);
  }

  /** A full removal of unedited files leaves nothing listed. */
  lemma NothingListed(j: Job, before: Tree, m: Manifest, names: seq<string>)
    requires TakenOver(j.hash, before, j.before, j.manifest, j.backups)
    requires forall p | p in j.manifest :: j.manifest[p].targets <= j.selected
    requires (forall p :: p in names <==> p in j.manifest)
    ensures Trimmed(j, m, names) ==> m == map[]
  {
    if Trimmed(j, m, names) {
      forall p ensures p !in m {
        if p in j.manifest { assert TakenAt(j.hash, before, j.before, j.manifest[p], j.backups, p); }
      }
    }
  }

  lemma TakenIsKeyed(hash: Bytes -> string, before: Tree, now: Tree, m: Manifest, backups: map<string, Bytes>)
    requires TakenOver(hash, before, now, m, backups)
    ensures Keyed(m)
  {
    forall p | p in m ensures m[p].path == p { assert TakenAt(hash, before, now, m[p], backups, p); }
  }

  lemma EveryTarget(m: Manifest, all: set<Target>)
    requires all == {OpenCode, Skills}
    ensures SharedKept(m, all) == all && forall p | p in m :: m[p].targets <= all
  {
    forall t: Target ensures t in all { match t case OpenCode => case Skills => }
  }

  // ---- A run of operations and edits ----

  datatype Site = Site(tree: Tree, manifest: Manifest, backups: map<string, Bytes>)

  /** What may happen to an installation, the user's own edits included. */
  datatype Event =
    | Apply(managed: set<string>, artifacts: seq<Artifact>, targets: map<string, Target>, cancelled: nat -> bool)
    | RestoreAllFiles
    | Removal(owners: set<Target>, cancelled: nat -> bool)
    | Edit(path: string, content: Option<Bytes>)

  predicate Edits(event: Event, p: string) {
    event.Edit? && event.path == p
  }

  /** An edit reaches one path; an operation loses nothing of what it finds, and
      claims nothing of the user's. */
  ghost predicate Step(hash: Bytes -> string, a: Site, event: Event, b: Site) {
    && BackupsStand(a.backups, b.backups)
    && if event.Edit? then b.manifest == a.manifest && forall p | p != event.path :: b.tree.At(p) == a.tree.At(p)
       else NothingLost(hash, a.tree, b.tree, a.manifest, b.backups) && NothingClaimed(hash, a.tree, a.manifest, b.manifest, b.backups)
  }

  ghost predicate Run(hash: Bytes -> string, sites: seq<Site>, events: seq<Event>) {
    |sites| == |events| + 1 && forall i, j | 0 <= i < |events| && j == i + 1 :: Step(hash, sites[i], events[i], sites[j])
  }

  /** Held by a backup, or recorded as installed from the start, or still there
      and not taken for the installation's own. */
  ghost predicate Safe(hash: Bytes -> string, first: Site, now: Site, p: string, content: Bytes) {
    || HeldBy(now.backups, content)
    || IsInstalled(hash, first.manifest, p, content)
    || (now.tree.At(p) == Some(content) && !IsInstalled(hash, now.manifest, p, content))
  }

  lemma SafeStep(hash: Bytes -> string, first: Site, a: Site, event: Event, b: Site, p: string, content: Bytes)
    requires Safe(hash, first, a, p, content) && Step(hash, a, event, b) && !Edits(event, p)
    ensures Safe(hash, first, b, p, content)
  {
    if HeldBy(a.backups, content) {
      StillHeld(a.backups, b.backups, content);
    } else if !event.Edit? && !IsInstalled(hash, first.manifest, p, content) {
      assert p in a.tree.files && a.tree.files[p] == content;
    }
  }

  /** Bytes found at a path at any moment of a run are still there, or held by
      a backup, unless the user edited that very path since or the installation had
      them recorded as its own already then. */
  lemma {:induction false} RunLosesNothing(hash: Bytes -> string, sites: seq<Site>, events: seq<Event>, from: nat, p: string, content: Bytes)
    requires Run(hash, sites, events) && from <= |events| && sites[from].tree.At(p) == Some(content)
    requires forall k | from <= k < |events| :: !Edits(events[k], p)
    ensures Safe(hash, sites[from], sites[|events|], p, content)
    ensures Kept(hash, sites[from], sites[|events|], p, content)
    decreases |events|
  {
    if from < |events| {
      var n := |events| - 1;
      RunPrefix(hash, sites, events);
      RunLosesNothing(hash, sites[..|events|], events[..n], from, p, content);
      SafeStep(hash, sites[from], sites[n], events[n], sites[n + 1], p, content);
    }
  }

  ghost predicate Kept(hash: Bytes -> string, first: Site, now: Site, p: string, content: Bytes) {
    now.tree.At(p) == Some(content) || HeldBy(now.backups, content) || IsInstalled(hash, first.manifest, p, content)
  }

  lemma RunPrefix(hash: Bytes -> string, sites: seq<Site>, events: seq<Event>)
    requires Run(hash, sites, events) && events != []
    ensures Run(hash, sites[..|events|], events[..|events| - 1])
  {
    forall i, j | 0 <= i < |events| - 1 && j == i + 1 ensures Step(hash, sites[..|events|][i], events[..|events| - 1][i], sites[..|events|][j]) {
      assert Step(hash, sites[i], events[i], sites[j]);
    }
  }

  predicate Appliable(event: Event) {
    event.Apply? ==> forall i | 0 <= i < |event.artifacts| :: Relative(event.artifacts[i].path)
  }

  method Perform(inst: Installation, event: Event)
    requires inst.Valid() && Keyed(inst.manifest) && Appliable(event)
    modifies inst, inst.disk
    ensures inst.Valid() && Keyed(inst.manifest)
    ensures Step(inst.hash, old(Site(inst.disk.tree, inst.manifest, inst.backups)), event, Site(inst.disk.tree, inst.manifest, inst.backups))
  {
    hide Digest, NothingLost, NothingClaimed, EditedStand, Left, EndingOf, Harmless, Removes, Restores, Blocked, Reached, Trimmed, Fated,
         ManifestAfter, InPlace, Split, InOrder, Deployable, Recordable, Clash, TakenOver, ToWritePaths, RemovedAs, Stops, AnyBlocked, AnyRemoved;
    ghost var before, m := inst.disk.tree, inst.manifest;
    match event {
      case Apply(managed, artifacts, targets, cancelled) =>
        var _, _ := inst.ApplyPlans(managed, artifacts, targets, cancelled);
      case RestoreAllFiles =>
        var _, _, _ := inst.Restore();
        SameClaims(inst.hash, before, m, inst.backups);
      case Removal(owners, cancelled) =>
        var _, _, _, _ := Uninstall(inst, owners, cancelled);
        TrimmedClaims(inst.hash, before, m, inst.manifest, inst.backups);
      case Edit(path, content) =>
        inst.disk.Edit(path, content);
    }
  }

  lemma TrimmedClaims(hash: Bytes -> string, before: Tree, was: Manifest, now: Manifest, backups: map<string, Bytes>)
    requires forall p | p in now :: p in was && now[p].installed == was[p].installed
    ensures NothingClaimed(hash, before, was, now, backups)
  {
  }

  /** Any sequence of applies, restores, removals and user edits, from any
      installation: every file seen on the way is safe from all but its own
      edits. */
  method PerformAll(inst: Installation, events: seq<Event>) returns (ghost sites: seq<Site>)
    requires inst.Valid() && Keyed(inst.manifest)
    requires forall event | event in events :: Appliable(event)
    modifies inst, inst.disk
    ensures inst.Valid() && Run(inst.hash, sites, events)
    ensures sites[0] == old(Site(inst.disk.tree, inst.manifest, inst.backups))
    ensures sites[|events|] == Site(inst.disk.tree, inst.manifest, inst.backups)
    ensures forall from: nat, p, content | from <= |events| && sites[from].tree.At(p) == Some(content)
                && (forall k | from <= k < |events| :: !Edits(events[k], p)) ::
              Kept(inst.hash, sites[from], sites[|events|], p, content)
  {
    hide Digest, Step, Edits, Kept, Safe;
    sites := [Site(inst.disk.tree, inst.manifest, inst.backups)];
    for i := 0 to |events|
      invariant inst.Valid() && Keyed(inst.manifest) && |sites| == i + 1
      invariant Run(inst.hash, sites, events[..i])
      invariant sites[0] == old(Site(inst.disk.tree, inst.manifest, inst.backups))
      invariant sites[i] == Site(inst.disk.tree, inst.manifest, inst.backups)
    {
      assert events[i] in events;
      Perform(inst, events[i]);
      ghost var more := sites + [Site(inst.disk.tree, inst.manifest, inst.backups)];
      RunGrows(inst.hash, sites, events[..i], events[i], Site(inst.disk.tree, inst.manifest, inst.backups));
      assert events[..i + 1] == events[..i] + [events[i]];
      sites := more;
    }
    assert events[..|events|] == events;
    forall from: nat, p, content | from <= |events| && sites[from].tree.At(p) == Some(content)
        && (forall k | from <= k < |events| :: !Edits(events[k], p))
      ensures Kept(inst.hash, sites[from], sites[|events|], p, content)
    {
      RunLosesNothing(inst.hash, sites, events, from, p, content);
    }
  }

  lemma RunGrows(hash: Bytes -> string, sites: seq<Site>, events: seq<Event>, event: Event, site: Site)
    requires Run(hash, sites, events) && Step(hash, sites[|events|], event, site)
    ensures Run(hash, sites + [site], events + [event])
  {
    hide Step;
    var more, all := sites + [site], events + [event];
    forall i, j | 0 <= i < |all| && j == i + 1 ensures Step(hash, more[i], all[i], more[j]) {
      if i < |events| { assert Step(hash, sites[i], events[i], sites[j]); }
    }
  }
}
