/** Which files the installation owns, and what it may do to them: take over,
    back up, restore and remove without losing bytes that are the user's. */
module Ownership {
  import opened Decimal
  import opened Ordering
  import opened Paths
  import opened FileSystem
  import opened Deploying

  datatype Target = OpenCode | Skills

  datatype OwnershipEntry = OwnershipEntry(
    path: string, installed: string, preExisting: bool, prior: string, backup: string, targets: set<Target>)

  type Manifest = map<string, OwnershipEntry>

  /** What an artifact's destination was before the apply. */
  datatype Prior = Prior(preExisting: bool, prior: string, backup: string, observed: Option<Option<Bytes>>)

  datatype ManagedState = MissingFile | SameFile | ChangedFile | NotRegular

  const BackupDir: string := ".takt-backups"

  /** A digest tells contents apart, and its text is long enough for the
      shortened form a backup name may carry. */
  ghost predicate Digest(hash: Bytes -> string) {
    (forall a, b | hash(a) == hash(b) :: a == b) && (forall a :: |hash(a)| >= 8)
  }

  // ---- A digest there is ----

  function Item(n: int): string {
    [if n < 0 then '-' else '+'] + PrintNat(if n < 0 then -n else n)
  }

  function Code(content: Bytes): string {
    if content == [] then "" else Item(content[0]) + Code(content[1..])
  }

  function TextDigest(content: Bytes): string {
    "content:" + Code(content)
  }

  /** Digits end where the next sign begins. */
  lemma SameDigits(d: string, r: string, e: string, s: string)
    requires (forall i | 0 <= i < |d| :: IsDigit(d[i])) && (forall i | 0 <= i < |e| :: IsDigit(e[i]))
    requires (r != [] ==> !IsDigit(r[0])) && (s != [] ==> !IsDigit(s[0]))
    requires d + r == e + s
    ensures d == e && r == s
  {
    var t := d + r;
    assert forall i | 0 <= i < |d| :: t[i] == d[i];
    assert forall i | 0 <= i < |e| :: t[i] == e[i];
    assert r != [] ==> t[|d|] == r[0];
    assert s != [] ==> t[|e|] == s[0];
    assert |d| == |e|;
    assert d == t[..|d|] && e == t[..|e|] && r == t[|d|..] && s == t[|e|..];
  }

  lemma CodeStarts(content: Bytes)
    ensures content != [] ==> Code(content) != [] && !IsDigit(Code(content)[0])
    ensures content == [] <==> Code(content) == []
  {
  }

  /** An item ends where the next begins. */
  lemma SameItem(m: int, r: string, n: int, s: string)
    requires (r != [] ==> !IsDigit(r[0])) && (s != [] ==> !IsDigit(s[0]))
    requires Item(m) + r == Item(n) + s
    ensures m == n && r == s
  {
    hide PrintNat, ParseNat;
    var x, y := if m < 0 then -m else m, if n < 0 then -n else n;
    assert (Item(m) + r)[0] == (Item(n) + s)[0];
    assert (Item(m) + r)[1..] == PrintNat(x) + r && (Item(n) + s)[1..] == PrintNat(y) + s;
    SameDigits(PrintNat(x), r, PrintNat(y), s);
    ParsePrintNat(x);
    ParsePrintNat(y);
  }

  lemma {:induction false} CodeInjective(a: Bytes, b: Bytes)
    requires Code(a) == Code(b)
    ensures a == b
    decreases |a|
  {
    hide Item;
    CodeStarts(a);
    CodeStarts(b);
    if a != [] {
      CodeStarts(a[1..]);
      CodeStarts(b[1..]);
      SameItem(a[0], Code(a[1..]), b[0], Code(b[1..]));
      CodeInjective(a[1..], b[1..]);
      assert a == [a[0]] + a[1..] && b == [b[0]] + b[1..];
    }
  }

  /** What is assumed of a digest can be met. */
  lemma TextDigestTellsApart()
    ensures Digest(TextDigest)
  {
    forall a, b | TextDigest(a) == TextDigest(b) ensures a == b {
      assert Code(a) == TextDigest(a)[8..] && Code(b) == TextDigest(b)[8..];
      CodeInjective(a, b);
    }
  }

  // ---- Nothing of the user's is lost ----

  /** The bytes are the ones recorded as installed at that path. */
  predicate IsInstalled(hash: Bytes -> string, m: Manifest, p: string, content: Bytes) {
    p in m && m[p].installed == hash(content)
  }

  predicate HeldBy(backups: map<string, Bytes>, content: Bytes) {
    exists b :: b in backups && backups[b] == content
  }

  ghost predicate NothingLost(hash: Bytes -> string, before: Tree, now: Tree, m: Manifest, backups: map<string, Bytes>) {
    forall p | p in before.files && now.At(p) != Some(before.files[p]) ::
      IsInstalled(hash, m, p, before.files[p]) || HeldBy(backups, before.files[p])
  }

  /** What is newly recorded as installed was not the user's, or is held. */
  ghost predicate NothingClaimed(hash: Bytes -> string, before: Tree, was: Manifest, now: Manifest, backups: map<string, Bytes>) {
    forall p | p in before.files && IsInstalled(hash, now, p, before.files[p]) ::
      IsInstalled(hash, was, p, before.files[p]) || HeldBy(backups, before.files[p])
  }

  /** No existing copy ever changes. */
  predicate BackupsStand(was: map<string, Bytes>, now: map<string, Bytes>) {
    forall b | b in was :: b in now && now[b] == was[b]
  }

  lemma StillHeld(was: map<string, Bytes>, now: map<string, Bytes>, content: Bytes)
    requires BackupsStand(was, now) && HeldBy(was, content)
    ensures HeldBy(now, content)
  {
    var b :| b in was && was[b] == content;
    assert b in now && now[b] == content;
  }

  // ---- Taking over ----

  /** What a prior state says of its destination, and what it guarantees. */
  ghost predicate PriorFits(hash: Bytes -> string, tree: Tree, m: Manifest, backups: map<string, Bytes>, p: string, prior: Prior) {
    && (if prior.observed.Some? then prior.observed.value == tree.At(p) else p in tree.dirs)
    && (p in tree.files ==> IsInstalled(hash, m, p, tree.files[p]) || HeldBy(backups, tree.files[p]))
    && (p !in m ==> (prior.preExisting <==> p in tree.files))
    && (p !in m && p in tree.files ==> BackedUp(hash, backups, prior.backup, prior.prior, tree.files[p]))
    && (p in m ==> Carries(hash, tree, m[p], backups, p, prior.preExisting, prior.prior, prior.backup))
  }

  /** A takeover is carried forward as it was recorded; only a file the
      installation itself created gains the copy of its edit. */
  predicate Carries(hash: Bytes -> string, tree: Tree, e: OwnershipEntry, backups: map<string, Bytes>, p: string,
                    preExisting: bool, prior: string, backup: string) {
    && preExisting == e.preExisting
    && if !e.preExisting && p in tree.files && e.installed != hash(tree.files[p]) then BackedUp(hash, backups, backup, prior, tree.files[p])
       else prior == e.prior && backup == e.backup
  }

  /** The entry an apply records for an artifact. */
  predicate RecordedAs(hash: Bytes -> string, tree: Tree, m: Manifest, backups: map<string, Bytes>, a: Artifact, t: Target, e: OwnershipEntry) {
    && e.path == a.path && e.installed == hash(a.content) && e.targets == {t}
    && if a.path in m then Carries(hash, tree, m[a.path], backups, a.path, e.preExisting, e.prior, e.backup)
       else && (e.preExisting <==> a.path in tree.files)
            && (e.preExisting ==> BackedUp(hash, backups, e.backup, e.prior, tree.files[a.path]))
  }

  predicate Written(artifacts: seq<Artifact>, skipped: seq<string>, p: string) {
    exists i :: 0 <= i < |artifacts| && artifacts[i].path == p && p !in skipped
  }

  /** Every artifact on disk has its entry; every other entry is as it was. */
  ghost predicate ManifestAfter(hash: Bytes -> string, tree: Tree, was: Manifest, now: Manifest, backups: map<string, Bytes>,
                                artifacts: seq<Artifact>, targets: map<string, Target>, skipped: seq<string>) {
    && (forall i | 0 <= i < |artifacts| && artifacts[i].path !in skipped ::
          && artifacts[i].path in targets && artifacts[i].path in now
          && RecordedAs(hash, tree, was, backups, artifacts[i], targets[artifacts[i].path], now[artifacts[i].path]))
    && (forall p | !Written(artifacts, skipped, p) :: (p in now <==> p in was) && (p in was ==> now[p] == was[p]))
  }

  /** What an ownership entry demands of an artifact. */
  predicate Recordable(m: Manifest, targets: map<string, Target>, a: Artifact) {
    a.path in targets && a.content != [] && (a.path in m && m[a.path].preExisting ==> m[a.path].prior != "")
  }

  function BackupName(p: string): string {
    BackupDir + "/" + p
  }

  function SuffixedName(hash: Bytes -> string, p: string, content: Bytes): string
    requires |hash(content)| >= 8
  {
    BackupName(p) + "." + hash(content)[..8]
  }

  /** Both names a copy could have hold other content. */
  predicate Clash(hash: Bytes -> string, backups: map<string, Bytes>, p: string, content: Bytes)
    requires |hash(content)| >= 8
  {
    && BackupName(p) in backups && backups[BackupName(p)] != content
    && SuffixedName(hash, p, content) in backups && backups[SuffixedName(hash, p, content)] != content
  }

  predicate BackedUp(hash: Bytes -> string, backups: map<string, Bytes>, backup: string, prior: string, content: Bytes) {
    backup != "" && backup in backups && backups[backup] == content && prior == hash(content)
  }

  lemma PriorStays(hash: Bytes -> string, tree: Tree, m: Manifest, was: map<string, Bytes>, now: map<string, Bytes>, p: string, prior: Prior)
    requires PriorFits(hash, tree, m, was, p, prior) && BackupsStand(was, now)
    ensures PriorFits(hash, tree, m, now, p, prior)
  {
    if p in tree.files && HeldBy(was, tree.files[p]) { StillHeld(was, now, tree.files[p]); }
  }

  function EntryFor(hash: Bytes -> string, a: Artifact, prior: Prior, t: Target): OwnershipEntry {
    OwnershipEntry(a.path, hash(a.content), prior.preExisting, prior.prior, prior.backup, {t})
  }

  /** Everything recorded holds what was installed, and what it replaced is kept
      for the way back; everything else is as it was. */
  ghost predicate TakenOver(hash: Bytes -> string, before: Tree, now: Tree, m: Manifest, backups: map<string, Bytes>) {
    && (forall p | p in m :: TakenAt(hash, before, now, m[p], backups, p))
    && (forall p | p !in m :: now.At(p) == before.At(p))
  }

  predicate TakenAt(hash: Bytes -> string, before: Tree, now: Tree, e: OwnershipEntry, backups: map<string, Bytes>, p: string) {
    && e.path == p && p in now.files && e.installed == hash(now.files[p])
    && (e.preExisting <==> p in before.files)
    && (e.preExisting ==> BackedUp(hash, backups, e.backup, e.prior, before.files[p]))
  }

  class Installation {
    const disk: Disk
    const hash: Bytes -> string
    var backups: map<string, Bytes>
    var manifest: Manifest

    ghost predicate Valid()
      reads this, disk
    {
      disk.Valid() && Digest(hash)
    }

    constructor (disk: Disk, hash: Bytes -> string, backups: map<string, Bytes>, manifest: Manifest)
      requires disk.Valid() && Digest(hash)
      ensures Valid() && this.disk == disk && this.hash == hash && this.backups == backups && this.manifest == manifest
    {
      this.disk, this.hash, this.backups, this.manifest := disk, hash, backups, manifest;
    }

    /** A managed destination against the installed digest; None when it cannot
        be read. */
    method ManagedFileState(p: string, e: OwnershipEntry) returns (state: Option<ManagedState>)
      requires Valid()
      modifies disk`clock
      ensures Valid() && disk.clock >= old(disk.clock)
      ensures disk.clock <= old(disk.clock) + 2
      ensures state == Some(SameFile) || state == Some(ChangedFile) ==> disk.clock == old(disk.clock) + 2
      ensures state.None? ==> disk.Faulted(old(disk.clock), disk.clock)
      ensures state == Some(MissingFile) ==> p !in disk.tree.files && p !in disk.tree.dirs
      ensures state == Some(NotRegular) ==> p in disk.tree.dirs && p !in disk.tree.files
      ensures state == Some(SameFile) ==> p in disk.tree.files && e.installed == hash(disk.tree.files[p])
      ensures state == Some(ChangedFile) ==> p in disk.tree.files && e.installed != hash(disk.tree.files[p])
    {
      var fails := disk.Fails();
      if fails {
        return None;
      }
      if p in disk.tree.dirs {
        return Some(NotRegular);
      }
      if p !in disk.tree.files {
        return Some(MissingFile);
      }
      fails := disk.Fails();
      if fails {
        return None;
      }
      if e.installed != "" && hash(disk.tree.files[p]) == e.installed {
        return Some(SameFile);
      }
      return Some(ChangedFile);
    }

    /** A copy under the backup directory; one that holds other content is never
        overwritten, the copy gains a digest suffix instead, or is refused. */
    method BackupContent(p: string, content: Bytes) returns (copy: Option<string>)
      requires Valid()
      modifies this`backups, disk`clock
      ensures Valid() && disk.clock >= old(disk.clock)
      ensures BackupsStand(old(backups), backups)
      ensures copy.Some? ==> BackedUp(hash, backups, copy.value, hash(content), content) && backups == old(backups)[copy.value := content]
      ensures Clash(hash, old(backups), p, content) ==> copy.None?
      ensures !disk.Faulted(old(disk.clock), disk.clock) ==>
                if Clash(hash, old(backups), p, content) then backups == old(backups)
                else copy == Some(if BackupName(p) !in old(backups) || old(backups)[BackupName(p)] == content then BackupName(p)
                                  else SuffixedName(hash, p, content))
    {
      ghost var start := disk.clock;
      var rel := BackupName(p);
      if rel in backups {
        var unreadable := disk.Fails();
        if unreadable || backups[rel] != content {
          rel := SuffixedName(hash, p, content);
          if rel in backups {
            unreadable := disk.Fails();
            if unreadable || backups[rel] != content {
              return None;
            }
          }
        }
      }
      ghost var moment := disk.clock;
      var fails := disk.Fails();
      disk.FaultedLater(start, moment, disk.clock);
      if fails {
        return None;
      }
      backups := backups[rel := content];
      moment := disk.clock;
      fails := disk.Fails();
      disk.FaultedLater(start, moment, disk.clock);
      return if fails then None else Some(rel);
    }

    /** A managed path carries its takeover forward; a local edit is copied. */
    method ManagedPrior(p: string, e: OwnershipEntry) returns (prior: Option<Prior>)
      requires Valid() && p in manifest && manifest[p] == e
      modifies this`backups, disk`clock
      ensures Valid() && disk.clock >= old(disk.clock) && BackupsStand(old(backups), backups)
      ensures prior.Some? ==> PriorFits(hash, disk.tree, manifest, backups, p, prior.value)
      ensures prior.None? ==> disk.Faulted(old(disk.clock), disk.clock) || ClashAt(p)
    {
      ghost var start := disk.clock;
      var state := ManagedFileState(p, e);
      if state.None? {
        return None;
      }
      var carried := Prior(e.preExisting, e.prior, e.backup, None);
      match state.value {
        case NotRegular => return Some(carried);
        case MissingFile => return Some(carried.(observed := Some(None)));
        case SameFile => return Some(carried.(observed := Some(Some(disk.tree.files[p]))));
        case ChangedFile =>
          var content := disk.tree.files[p];
          ghost var moment := disk.clock;
          var copy := BackupContent(p, content);
          disk.FaultedLater(start, moment, disk.clock);
          if copy.None? {
            return None;
          }
          var seen := carried.(observed := Some(Some(content)));
          return Some(if e.preExisting then seen else seen.(prior := hash(content), backup := copy.value));
      }
    }

    /** An unmanaged destination found there is copied before it is taken over. */
    method PreexistingPrior(p: string) returns (prior: Option<Prior>)
      requires Valid() && p !in manifest
      modifies this`backups, disk`clock
      ensures Valid() && disk.clock >= old(disk.clock) && BackupsStand(old(backups), backups)
      ensures prior.Some? ==> PriorFits(hash, disk.tree, manifest, backups, p, prior.value)
      ensures prior.None? ==> disk.Faulted(old(disk.clock), disk.clock) || ClashAt(p)
    {
      ghost var start := disk.clock;
      var fails := disk.Fails();
      if fails {
        return None;
      }
      if p in disk.tree.dirs {
        return Some(Prior(false, "", "", None));
      }
      if p !in disk.tree.files {
        return Some(Prior(false, "", "", Some(None)));
      }
      var content := disk.tree.files[p];
      ghost var moment := disk.clock;
      var copy := BackupContent(p, content);
      disk.FaultedLater(start, moment, disk.clock);
      if copy.None? {
        return None;
      }
      return Some(Prior(true, hash(content), copy.value, Some(Some(content))));
    }

    /** What is at the path cannot be copied under either name. */
    ghost predicate ClashAt(p: string)
      requires Valid()
      reads this, disk
    {
      p in disk.tree.files && Clash(hash, backups, p, disk.tree.files[p])
    }

    method CollectPriorStates(artifacts: seq<Artifact>) returns (ok: bool, priors: map<string, Prior>)
      requires Valid()
      modifies this`backups, disk`clock
      ensures Valid() && disk.clock >= old(disk.clock) && BackupsStand(old(backups), backups)
      ensures ok ==> forall i | 0 <= i < |artifacts| ::
                artifacts[i].path in priors
      ensures ok ==> AllPriorsFit(hash, disk.tree, manifest, backups, artifacts, priors)
      ensures ok ==> forall p | p in priors :: PriorFits(hash, disk.tree, manifest, backups, p, priors[p])
      ensures !ok ==> disk.Faulted(old(disk.clock), disk.clock) || exists a :: a in artifacts && ClashAt(a.path)
    {
      hide PriorFits, Digest, Clash;
      ghost var start := disk.clock;
      priors := map[];
      for i := 0 to |artifacts|
        invariant Valid() && disk.clock >= old(disk.clock) && BackupsStand(old(backups), backups)
        invariant forall p | p in priors :: PriorFits(hash, disk.tree, manifest, backups, p, priors[p])
        invariant forall k | 0 <= k < i :: artifacts[k].path in priors
      {
        var p := artifacts[i].path;
        ghost var known, moment := backups, disk.clock;
        var prior: Option<Prior>;
        if p in manifest {
          prior := ManagedPrior(p, manifest[p]);
        } else {
          prior := PreexistingPrior(p);
        }
        disk.FaultedLater(start, moment, disk.clock);
        if prior.None? {
          assert artifacts[i] in artifacts;
          return false, map[];
        }
        forall q | q in priors ensures PriorFits(hash, disk.tree, manifest, backups, q, priors[q]) {
          PriorStays(hash, disk.tree, manifest, known, backups, q, priors[q]);
        }
        priors := priors[p := prior.value];
      }
      ok := true;
    }

    /** Every entry can be recorded, checked before anything reaches the disk. */
    method EntriesRecordable(artifacts: seq<Artifact>, targets: map<string, Target>, priors: map<string, Prior>) returns (ok: bool)
      requires Valid() && forall i | 0 <= i < |artifacts| :: artifacts[i].path in priors
      requires forall p | p in priors :: PriorFits(hash, disk.tree, manifest, backups, p, priors[p])
      ensures ok <==> forall i | 0 <= i < |artifacts| :: Recordable(manifest, targets, artifacts[i])
    {
      for i := 0 to |artifacts|
        invariant forall k | 0 <= k < i :: Recordable(manifest, targets, artifacts[k])
      {
        var a := artifacts[i];
        PriorRecordable(hash, disk.tree, manifest, backups, a.path, priors[a.path]);
        if a.path !in targets || a.content == [] || (priors[a.path].preExisting && priors[a.path].prior == "") {
          return false;
        }
      }
      return true;
    }

    /** Records the entries of what is on disk now, replacing earlier ones. */
    method RecordEntries(artifacts: seq<Artifact>, targets: map<string, Target>, priors: map<string, Prior>, skipped: seq<string>)
      returns (m: Manifest)
      requires DistinctPaths(artifacts)
      requires forall i | 0 <= i < |artifacts| :: artifacts[i].path in targets && artifacts[i].path in priors
      ensures Recorded(hash, manifest, m, artifacts, targets, priors, skipped)
    {
      m := manifest;
      for i := 0 to |artifacts|
        invariant forall k | 0 <= k < i && artifacts[k].path !in skipped ::
          artifacts[k].path in m && m[artifacts[k].path] == EntryFor(hash, artifacts[k], priors[artifacts[k].path], targets[artifacts[k].path])
        invariant forall p | (forall k | 0 <= k < i && artifacts[k].path !in skipped :: artifacts[k].path != p) ::
          (p in m <==> p in manifest) && (p in m ==> m[p] == manifest[p])
      {
        var a := artifacts[i];
        if a.path !in skipped {
          m := m[a.path := EntryFor(hash, a, priors[a.path], targets[a.path])];
        }
      }
    }

    /** Backs up, deploys against what was seen, and records what is on disk. */
    method ApplyPlans(managed: set<string>, artifacts: seq<Artifact>, targets: map<string, Target>, cancelled: nat -> bool)
      returns (r: Outcome, recorded: bool)
      requires Valid()
      requires forall i | 0 <= i < |artifacts| :: Relative(artifacts[i].path)
      modifies this, disk
      ensures Valid() && disk.clock >= old(disk.clock)
      ensures BackupsStand(old(backups), backups)
      ensures NothingLost(hash, old(disk.tree), disk.tree, old(manifest), backups)
      ensures NothingClaimed(hash, old(disk.tree), old(manifest), manifest, backups)
      ensures InOrder(old(disk.tree), artifacts, cancelled, r)
      ensures r.Refused? || (r.Failed? && r.undone) ==> disk.tree == old(disk.tree)
      ensures r.Deployed? ==> InPlace(old(disk.tree), disk.tree, artifacts)
      ensures r.Stopped? ==> Split(old(disk.tree), disk.tree, artifacts, r.changed, r.notApplied)
      ensures if recorded then
                && (r.Deployed? || r.Stopped?)
                && ManifestAfter(hash, old(disk.tree), old(manifest), manifest, backups, artifacts, targets, Skipped(r))
              else manifest == old(manifest)
      ensures Keyed(old(manifest)) ==> Keyed(manifest)
      ensures forall origin :: recorded && TakenOver(hash, origin, old(disk.tree), old(manifest), old(backups)) ==>
                TakenOver(hash, origin, disk.tree, manifest, backups)
      ensures recorded && old(manifest) == map[] ==> TakenOver(hash, old(disk.tree), disk.tree, manifest, backups)
      ensures recorded ==> Deployable(old(disk.tree), managed, artifacts, map[])
                           && forall i | 0 <= i < |artifacts| :: Recordable(old(manifest), targets, artifacts[i])
      ensures !recorded && !disk.Faulted(old(disk.clock), disk.clock) ==>
                || (exists a :: a in artifacts && a.path in old(disk.tree).files && Clash(hash, backups, a.path, old(disk.tree).files[a.path]))
                || (exists a :: a in artifacts && !Recordable(old(manifest), targets, a))
                || !Deployable(old(disk.tree), managed, artifacts, map[])
                || (ToWritePaths(old(disk.tree), artifacts) != [] && cancelled(0))
    {
      hide Digest, DistinctPaths, InPlace, Split, Reported, NothingLost, TakenOver, Recorded, BackupsStand, PriorFits, AsObserved,
           AllManaged, NoneHoldsAnother, OthersUntouched, EntryFor, NothingClaimed, ManifestAfter, InOrder, Deployable, Recordable, Clash, Keyed,
           ToWritePaths, FirstCancelled;
      recorded := false;
      ghost var before, start := disk.tree, disk.clock;
      NothingTakenOver(hash, before, backups);
      NothingInOrder(before, artifacts, cancelled);
      UnchangedLosesNothing(hash, before, manifest, backups);
      var ok, priors := CollectPriorStates(artifacts);
      UnchangedLosesNothing(hash, before, manifest, backups);
      SameClaims(hash, before, manifest, backups);
      if !ok {
        return Refused, false;
      }
      ok := EntriesRecordable(artifacts, targets, priors);
      if !ok {
        NotAllRecordable(manifest, targets, artifacts);
        return Refused, false;
      }
      var observed := map p | p in priors && priors[p].observed.Some? :: priors[p].observed.value;
      ObservedFits(hash, before, manifest, backups, managed, artifacts, priors, observed);
      ghost var undoing, moment := 0, disk.clock;
      r, undoing := DeployObserved(disk, managed, artifacts, observed, cancelled);
      disk.FaultedLater(start, moment, undoing);
      disk.FaultedLater(start, moment, disk.clock);
      disk.FaultedLater(start, undoing, disk.clock);
      DeploymentLosesNothing(hash, before, disk.tree, artifacts, manifest, backups, priors, r);
      if r.Refused? || r.Failed? || (r.Deployed? && !r.clean) || (r.Stopped? && r.changed == []) {
        if r.Stopped? { StoppedAtOnce(before, artifacts, cancelled, r); }
        return;
      }
      DeployableParts(before, managed, artifacts, observed);
      moment := disk.clock;
      recorded := RecordDeployed(artifacts, targets, priors, r, before, old(backups));
      disk.FaultedLater(start, moment, disk.clock);
    }

    /** Ownership of what a deployment has put on disk; a manifest that cannot be
        saved leaves the old one. */
    method RecordDeployed(artifacts: seq<Artifact>, targets: map<string, Target>, priors: map<string, Prior>, r: Outcome,
                          ghost before: Tree, ghost kept: map<string, Bytes>)
      returns (recorded: bool)
      requires Valid() && DistinctPaths(artifacts) && BackupsStand(kept, backups)
      requires AllPriorsFit(hash, before, manifest, backups, artifacts, priors)
      requires forall i | 0 <= i < |artifacts| :: Recordable(manifest, targets, artifacts[i])
      requires r.Deployed? ==> InPlace(before, disk.tree, artifacts)
      requires r.Stopped? ==> Split(before, disk.tree, artifacts, r.changed, r.notApplied)
      requires r.Deployed? || r.Stopped?
      modifies this`manifest, disk`clock
      ensures Valid() && disk.clock >= old(disk.clock)
      ensures NothingClaimed(hash, before, old(manifest), manifest, backups)
      ensures if recorded then ManifestAfter(hash, before, old(manifest), manifest, backups, artifacts, targets, Skipped(r))
              else manifest == old(manifest) && disk.Faulted(old(disk.clock), disk.clock)
      ensures Keyed(old(manifest)) ==> Keyed(manifest)
      ensures forall origin :: recorded && TakenOver(hash, origin, before, old(manifest), kept) ==>
                TakenOver(hash, origin, disk.tree, manifest, backups)
    {
      hide Digest, DistinctPaths, InPlace, Split, TakenOver, Recorded, BackupsStand, PriorFits, EntryFor, NothingClaimed, ManifestAfter, Keyed;
      PathsRecordable(manifest, targets, artifacts);
      SameClaims(hash, before, manifest, backups);
      var m := RecordEntries(artifacts, targets, priors, Skipped(r));
      var fails := disk.Fails();
      if fails {
        return false;
      }
      RecordedIsKeyed(hash, manifest, m, artifacts, targets, priors, Skipped(r));
      RecordedAfter(hash, before, manifest, m, backups, artifacts, targets, priors, Skipped(r));
      RecordedClaims(hash, before, manifest, m, backups, artifacts, targets, priors, Skipped(r));
      forall origin | TakenOver(hash, origin, before, manifest, kept) ensures TakenOver(hash, origin, disk.tree, m, backups) {
        TakeoverKept(hash, origin, before, disk.tree, manifest, m, kept, backups, artifacts, targets, r);
      }
      manifest := m;
      recorded := true;
    }

    // ---- Restoring ----

    /** Decides one entry before any write: only the bytes recorded at takeover
        are put back, and only over what is missing or unchanged since. */
    method ClassifyRestoreEntry(e: OwnershipEntry) returns (d: Disposition)
      requires Valid()
      modifies disk`clock
      ensures Valid() && disk.clock >= old(disk.clock)
      ensures d.Unrestorable? ==> disk.Faulted(old(disk.clock), disk.clock) || e.backup !in backups || hash(backups[e.backup]) != e.prior
      ensures !d.Unrestorable? ==>
                && e.backup in backups && hash(backups[e.backup]) == e.prior
                && (d.Already? <==> disk.tree.At(e.path) == Some(backups[e.backup]))
                && (d.Conflict? <==> e.path in disk.tree.dirs || (Changed(disk.tree, e) && disk.tree.files[e.path] != backups[e.backup]))
                && (d.Eligible? ==> d.content == backups[e.backup])
    {
      var fails := disk.Fails();
      if fails || e.backup !in backups {
        return Unrestorable;
      }
      var content := backups[e.backup];
      var state := ManagedFileState(e.path, e);
      if state.None? || hash(content) != e.prior {
        return Unrestorable;
      }
      match state.value {
        case NotRegular => return Conflict;
        case MissingFile => return Eligible(content);
        case SameFile =>
          return if hash(disk.tree.files[e.path]) == hash(content) then Already else Eligible(content);
        case ChangedFile =>
          return if hash(disk.tree.files[e.path]) == hash(content) then Already else Conflict;
      }
    }

    /** There, and not what was recorded as installed. */
    predicate Changed(tree: Tree, e: OwnershipEntry) {
      e.path in tree.files && e.installed != hash(tree.files[e.path])
    }

    method ApplyRestorePlan(p: string, content: Bytes) returns (ok: bool)
      requires Valid()
      modifies disk
      ensures Valid() && disk.clock >= old(disk.clock)
      ensures ok ==> disk.tree.files == old(disk.tree.files)[p := content]
      ensures !ok ==> disk.tree.files == old(disk.tree.files) || disk.tree.files == old(disk.tree.files)[p := content]
      ensures TempsKept(old(disk.tree), disk.tree)
      ensures p in old(disk.tree.files) ==> disk.tree.dirs == old(disk.tree.dirs) && (ok || disk.Faulted(old(disk.clock), disk.clock))
      ensures old(disk.tree).dirs <= disk.tree.dirs
      ensures !ok && p !in old(disk.tree).dirs ==> disk.Faulted(old(disk.clock), disk.clock) || !NoFileAbove(disk.tree, p)
    {
      ghost var start := disk.clock;
      if p in disk.tree.files {
        RootIsNoFile(disk.tree, p);
        AncestorsPresent(disk.tree, p);
      }
      ok := disk.MkdirAll(p);
      if !ok {
        return;
      }
      ghost var moment := disk.clock;
      var t := disk.StageTemp(Dir(p), content);
      disk.FaultedLater(start, moment, disk.clock);
      if t.None? {
        return false;
      }
      moment := disk.clock;
      NotItsAncestor(p);
      ok := disk.Rename(t.value, p);
      disk.FaultedLater(start, moment, disk.clock);
      moment := disk.clock;
      if !ok {
        var _ := disk.RemoveTemp(t.value);
        disk.FaultedLater(start, moment, disk.clock);
        return;
      }
      ok := disk.Sync(Dir(p));
      disk.FaultedLater(start, moment, disk.clock);
    }

    /** Puts every backed-up content back where that loses nothing; an edited
        destination is reported and left as it is. Every entry with a backup is
        restored, already in place, or reported with what stands in its way. */
    method Restore() returns (restored: seq<string>, conflicts: seq<string>, incomplete: seq<string>)
      requires Valid() && Keyed(manifest)
      modifies disk
      ensures Valid() && manifest == old(manifest) && backups == old(backups) && disk.clock >= old(disk.clock)
      ensures NothingLost(hash, old(disk.tree), disk.tree, manifest, backups)
      ensures forall p | p !in manifest :: disk.tree.At(p) == old(disk.tree).At(p)
      ensures forall p | p in restored || p in conflicts || p in incomplete :: p in manifest
      ensures forall p | p in manifest ::
                Fated(hash, manifest[p], backups, old(disk.tree), disk.tree, restored, conflicts, incomplete, disk.Faulted(old(disk.clock), disk.clock))
    {
      hide Digest, NothingLost, Still, Fated, Lists, Sorted, FatedBefore;
      restored, conflicts, incomplete := [], [], [];
      var names := SortedSeq(manifest.Keys);
      UnchangedLosesNothing(hash, disk.tree, manifest, backups);
      ghost var before, start := disk.tree, disk.clock;
      RestoreStarts(hash, manifest, backups, before, names);
      for i := 0 to |names|
        invariant Valid() && manifest == old(manifest) && backups == old(backups) && disk.clock >= start
        invariant NothingLost(hash, before, disk.tree, manifest, backups)
        invariant FatedBefore(hash, manifest, backups, before, disk.tree, names, i, restored, conflicts, incomplete, disk.Faulted(start, disk.clock))
      {
        ghost var was, moment := disk.tree, disk.clock;
        ghost var r, c, n := restored, conflicts, incomplete;
        NextEntry(hash, manifest, backups, before, was, names, i, r, c, n, disk.Faulted(start, moment));
        restored, conflicts, incomplete := RestoreNamed(names[i], before, start, restored, conflicts, incomplete);
        FatedNext(hash, manifest, backups, before, was, disk.tree, names, i, r, c, n, restored, conflicts, incomplete,
                  disk.Faulted(start, moment), disk.Faulted(start, disk.clock));
      }
      RestoreEnds(hash, manifest, backups, before, disk.tree, names, restored, conflicts, incomplete, disk.Faulted(start, disk.clock));
    }

    /** One manifest entry, reported where it belongs. */
    method RestoreNamed(p: string, ghost before: Tree, ghost start: nat, restored: seq<string>, conflicts: seq<string>, incomplete: seq<string>)
      returns (restored': seq<string>, conflicts': seq<string>, incomplete': seq<string>)
      requires Valid() && Keyed(manifest) && p in manifest && start <= disk.clock
      requires p !in conflicts && p !in restored && p !in incomplete
      requires NothingLost(hash, before, disk.tree, manifest, backups) && Still(before, disk.tree, p)
      modifies disk
      ensures Valid() && disk.clock >= old(disk.clock) && NothingLost(hash, before, disk.tree, manifest, backups)
      ensures Grew(old(disk.tree), disk.tree, p) && (old(disk.Faulted(start, disk.clock)) ==> disk.Faulted(start, disk.clock))
      ensures forall q | q != p :: (q in restored' <==> q in restored) && (q in conflicts' <==> q in conflicts)
                                   && (q in incomplete' <==> q in incomplete)
      ensures Fated(hash, manifest[p], backups, before, disk.tree, restored', conflicts', incomplete', disk.Faulted(start, disk.clock))
    {
      hide Digest, NothingLost, TempsKept;
      restored', conflicts', incomplete' := restored, conflicts, incomplete;
      var e := manifest[p];
      ghost var was, moment := disk.tree, disk.clock;
      ghost var faulted := disk.Faulted(start, moment);
      if e.backup != "" {
        var d := ClassifyRestoreEntry(e);
        disk.FaultedLater(start, moment, disk.clock);
        match d {
          case Unrestorable => incomplete' := incomplete + [p];
          case Already =>
          case Conflict => conflicts' := conflicts + [p];
          case Eligible(content) =>
            ghost var middle := disk.clock;
            var ok := ApplyRestorePlan(p, content);
            disk.FaultedLater(start, middle, disk.clock);
            OneRestored(hash, before, was, disk.tree, manifest, backups, p, content);
            if ok {
              restored' := restored + [p];
            } else {
              incomplete' := incomplete + [p];
            }
        }
      }
      disk.FaultedLater(start, moment, disk.clock);
    }
  }

  /** Nothing but one path was written, and no directory or file went. */
  ghost predicate Grew(was: Tree, now: Tree, p: string) {
    (forall q | q != p :: now.At(q) == was.At(q)) && was.dirs <= now.dirs && was.files.Keys <= now.files.Keys
  }

  /** Every entry before index i has its fate; the others are as they were, and in
      no list. */
  ghost predicate FatedBefore(hash: Bytes -> string, m: Manifest, backups: map<string, Bytes>, before: Tree, now: Tree, names: seq<string>, i: nat,
                              restored: seq<string>, conflicts: seq<string>, incomplete: seq<string>, faulted: bool) {
    && i <= |names| && Distinct(names) && (forall p :: p in names <==> p in m) && Keyed(m)
    && (forall p | p in restored || p in conflicts || p in incomplete :: p in names[..i])
    && (forall p | p in names[..i] :: Fated(hash, m[p], backups, before, now, restored, conflicts, incomplete, faulted))
    && (forall p | p !in names[..i] :: Still(before, now, p))
  }

  lemma RestoreStarts(hash: Bytes -> string, m: Manifest, backups: map<string, Bytes>, before: Tree, names: seq<string>)
    requires Keyed(m) && names == SortedSeq(m.Keys)
    ensures FatedBefore(hash, m, backups, before, before, names, 0, [], [], [], false)
    ensures FatedBefore(hash, m, backups, before, before, names, 0, [], [], [], true)
  {
    hide Sorted;
    SortedIsDistinct(names);
  }

  lemma NextEntry(hash: Bytes -> string, m: Manifest, backups: map<string, Bytes>, before: Tree, now: Tree, names: seq<string>, i: nat,
                  restored: seq<string>, conflicts: seq<string>, incomplete: seq<string>, faulted: bool)
    requires FatedBefore(hash, m, backups, before, now, names, i, restored, conflicts, incomplete, faulted) && i < |names|
    ensures var p := names[i];
            p in m && p !in restored && p !in conflicts && p !in incomplete && Still(before, now, p)
  {
    hide Fated, Still;
    assert names[i] !in names[..i] && names[i] in names;
  }

  lemma FatedNext(hash: Bytes -> string, m: Manifest, backups: map<string, Bytes>, before: Tree, was: Tree, now: Tree, names: seq<string>, i: nat,
                  r: seq<string>, c: seq<string>, n: seq<string>, r': seq<string>, c': seq<string>, n': seq<string>, faulted: bool, later: bool)
    requires i < |names| && FatedBefore(hash, m, backups, before, was, names, i, r, c, n, faulted) && (faulted ==> later)
    requires names[i] in m && Grew(was, now, names[i])
    requires forall q | q != names[i] :: (q in r' <==> q in r) && (q in c' <==> q in c) && (q in n' <==> q in n)
    requires Fated(hash, m[names[i]], backups, before, now, r', c', n', later)
    ensures FatedBefore(hash, m, backups, before, now, names, i + 1, r', c', n', later)
  {
    hide Fated;
    assert names[..i + 1] == names[..i] + [names[i]] && names[i] !in names[..i];
    forall p | p in names[..i + 1] ensures Fated(hash, m[p], backups, before, now, r', c', n', later) {
      if p != names[i] {
        assert p in names[..i] && p in names && m[p].path == p;
        FatedStays(hash, m[p], backups, before, was, now, r, c, n, r', c', n', faulted, later);
      }
    }
    forall p | p !in names[..i + 1] ensures Still(before, now, p) { assert Still(before, was, p); }
  }

  lemma RestoreEnds(hash: Bytes -> string, m: Manifest, backups: map<string, Bytes>, before: Tree, now: Tree, names: seq<string>,
                    restored: seq<string>, conflicts: seq<string>, incomplete: seq<string>, faulted: bool)
    requires FatedBefore(hash, m, backups, before, now, names, |names|, restored, conflicts, incomplete, faulted)
    ensures forall p | p !in m :: now.At(p) == before.At(p)
    ensures forall p | p in restored || p in conflicts || p in incomplete :: p in m
    ensures forall p | p in m :: Fated(hash, m[p], backups, before, now, restored, conflicts, incomplete, faulted)
  {
    hide Fated;
    assert names[..|names|] == names;
    forall p | p !in m ensures now.At(p) == before.At(p) { assert Still(before, now, p); }
  }

  /** The recorded bytes are at the path. */
  predicate Back(hash: Bytes -> string, e: OwnershipEntry, backups: map<string, Bytes>, tree: Tree) {
    e.backup in backups && hash(backups[e.backup]) == e.prior && tree.At(e.path) == Some(backups[e.backup])
  }

  /** What stands in the way of a restore: something that is no file, or an edit. */
  predicate InTheWay(hash: Bytes -> string, e: OwnershipEntry, backups: map<string, Bytes>, tree: Tree) {
    && e.backup in backups && hash(backups[e.backup]) == e.prior
    && (e.path in tree.dirs
        || (e.path in tree.files && e.installed != hash(tree.files[e.path]) && tree.files[e.path] != backups[e.backup]))
  }

  /** What became of one entry, by the list that reports it. */
  predicate Fated(hash: Bytes -> string, e: OwnershipEntry, backups: map<string, Bytes>, before: Tree, now: Tree,
                  restored: seq<string>, conflicts: seq<string>, incomplete: seq<string>, faulted: bool) {
    var p := e.path;
    if p in restored then e.backup != "" && p !in conflicts && p !in incomplete && Back(hash, e, backups, now) && before.At(p) != now.At(p)
    else if p in conflicts then e.backup != "" && p !in incomplete && Still(before, now, p) && InTheWay(hash, e, backups, now)
    else if p in incomplete then
      && e.backup != "" && (Still(before, now, p) || Back(hash, e, backups, now))
      && (faulted || e.backup !in backups || hash(backups[e.backup]) != e.prior || !NoFileAbove(now, p))
    else Still(before, now, p) && (e.backup == "" || Back(hash, e, backups, now))
  }

  /** Another entry's fate stands: only one other path was written, and no
      directory or file went. */
  lemma FatedStays(hash: Bytes -> string, e: OwnershipEntry, backups: map<string, Bytes>, before: Tree, was: Tree, now: Tree,
                   restored: seq<string>, conflicts: seq<string>, incomplete: seq<string>,
                   restored': seq<string>, conflicts': seq<string>, incomplete': seq<string>, faulted: bool, later: bool)
    requires Fated(hash, e, backups, before, was, restored, conflicts, incomplete, faulted) && (faulted ==> later)
    requires now.At(e.path) == was.At(e.path) && was.dirs <= now.dirs && was.files.Keys <= now.files.Keys
    requires (e.path in restored' <==> e.path in restored) && (e.path in conflicts' <==> e.path in conflicts)
             && (e.path in incomplete' <==> e.path in incomplete)
    ensures Fated(hash, e, backups, before, now, restored', conflicts', incomplete', later)
  {
    assert !NoFileAbove(was, e.path) ==> !NoFileAbove(now, e.path);
  }

  datatype Disposition = Unrestorable | Already | Conflict | Eligible(content: Bytes)

  /** No temporary that was there has changed. */
  predicate TempsKept(was: Tree, now: Tree) {
    forall t | t in was.temps :: t in now.temps && now.temps[t] == was.temps[t]
  }

  predicate Keyed(m: Manifest) {
    forall p | p in m :: m[p].path == p
  }

  /** A path does not lie above itself. */
  lemma NotItsAncestor(p: string)
    ensures p !in Ancestors(p)
  {
    if p in Ancestors(p) { AncestorsAreAncestors(p, p); }
  }

  /** The path holds what it held. */
  predicate Still(before: Tree, now: Tree, p: string) {
    now.At(p) == before.At(p)
  }

  /** Replacing at one path what was installed there, or nothing, loses nothing. */
  lemma OneRestored(hash: Bytes -> string, before: Tree, was: Tree, now: Tree, m: Manifest, backups: map<string, Bytes>, p: string, content: Bytes)
    requires NothingLost(hash, before, was, m, backups) && was.At(p) == before.At(p)
    requires p in before.files ==> IsInstalled(hash, m, p, before.files[p])
    requires now.files == was.files || now.files == was.files[p := content]
    ensures NothingLost(hash, before, now, m, backups)
    ensures forall q | q != p :: now.At(q) == was.At(q)
  {
    forall q | q in before.files && now.At(q) != Some(before.files[q])
      ensures IsInstalled(hash, m, q, before.files[q]) || HeldBy(backups, before.files[q])
    {
      if q != p { assert was.At(q) != Some(before.files[q]); }
    }
  }

  ghost predicate Recorded(hash: Bytes -> string, was: Manifest, m: Manifest, artifacts: seq<Artifact>,
                           targets: map<string, Target>, priors: map<string, Prior>, skipped: seq<string>)
    requires forall i | 0 <= i < |artifacts| :: artifacts[i].path in targets && artifacts[i].path in priors
  {
    && (forall k | 0 <= k < |artifacts| && artifacts[k].path !in skipped ::
          artifacts[k].path in m && m[artifacts[k].path] == EntryFor(hash, artifacts[k], priors[artifacts[k].path], targets[artifacts[k].path]))
    && (forall p | (forall k | 0 <= k < |artifacts| && artifacts[k].path !in skipped :: artifacts[k].path != p) ::
          (p in m <==> p in was) && (p in m ==> m[p] == was[p]))
  }

  lemma SameClaims(hash: Bytes -> string, before: Tree, m: Manifest, backups: map<string, Bytes>)
    ensures NothingClaimed(hash, before, m, m, backups)
  {
  }

  lemma RecordedClaims(hash: Bytes -> string, before: Tree, was: Manifest, m: Manifest, backups: map<string, Bytes>, artifacts: seq<Artifact>,
                       targets: map<string, Target>, priors: map<string, Prior>, skipped: seq<string>)
    requires AllPriorsFit(hash, before, was, backups, artifacts, priors)
    requires forall i | 0 <= i < |artifacts| :: artifacts[i].path in targets && artifacts[i].path in priors
    requires Recorded(hash, was, m, artifacts, targets, priors, skipped)
    ensures NothingClaimed(hash, before, was, m, backups)
  {
    forall p | p in before.files && IsInstalled(hash, m, p, before.files[p])
      ensures IsInstalled(hash, was, p, before.files[p]) || HeldBy(backups, before.files[p])
    {
      if k :| 0 <= k < |artifacts| && artifacts[k].path !in skipped && artifacts[k].path == p {
        assert PriorFits(hash, before, was, backups, artifacts[k].path, priors[artifacts[k].path]);
      }
    }
  }

  lemma RecordedIsKeyed(hash: Bytes -> string, was: Manifest, m: Manifest, artifacts: seq<Artifact>,
                        targets: map<string, Target>, priors: map<string, Prior>, skipped: seq<string>)
    requires forall i | 0 <= i < |artifacts| :: artifacts[i].path in targets && artifacts[i].path in priors
    requires Recorded(hash, was, m, artifacts, targets, priors, skipped)
    ensures Keyed(was) ==> Keyed(m)
  {
    if Keyed(was) {
      forall p | p in m ensures m[p].path == p {
        if k :| 0 <= k < |artifacts| && artifacts[k].path !in skipped && artifacts[k].path == p {
          assert m[artifacts[k].path] == EntryFor(hash, artifacts[k], priors[artifacts[k].path], targets[artifacts[k].path]);
        }
      }
    }
  }

  lemma UnchangedLosesNothing(hash: Bytes -> string, tree: Tree, m: Manifest, backups: map<string, Bytes>)
    ensures NothingLost(hash, tree, tree, m, backups)
  {
  }

  ghost predicate AllPriorsFit(hash: Bytes -> string, tree: Tree, m: Manifest, backups: map<string, Bytes>,
                               artifacts: seq<Artifact>, priors: map<string, Prior>) {
    forall i | 0 <= i < |artifacts| ::
      artifacts[i].path in priors && PriorFits(hash, tree, m, backups, artifacts[i].path, priors[artifacts[i].path])
  }

  /** Whatever a deployment ends in, the bytes it replaced were installed ones
      or are held by a backup. */
  lemma DeploymentLosesNothing(hash: Bytes -> string, before: Tree, now: Tree, artifacts: seq<Artifact>, m: Manifest,
                               backups: map<string, Bytes>, priors: map<string, Prior>, r: Outcome)
    requires AllPriorsFit(hash, before, m, backups, artifacts, priors)
    requires r.Refused? ==> now == before
    requires r.Failed? ==> OthersUntouched(before, now, artifacts)
    requires r.Deployed? ==> InPlace(before, now, artifacts)
    requires r.Stopped? ==> Split(before, now, artifacts, r.changed, r.notApplied)
    ensures NothingLost(hash, before, now, m, backups)
  {
    forall p | p in before.files && now.At(p) != Some(before.files[p])
      ensures IsInstalled(hash, m, p, before.files[p]) || HeldBy(backups, before.files[p])
    {
      assert before.At(p) == Some(before.files[p]);
      assert Deploying.Names(artifacts, p);
      var i :| 0 <= i < |artifacts| && artifacts[i].path == p;
      assert PriorFits(hash, before, m, backups, artifacts[i].path, priors[artifacts[i].path]);
    }
  }

  function Skipped(r: Outcome): seq<string> {
    if r.Stopped? then r.notApplied else []
  }

  lemma PriorRecordable(hash: Bytes -> string, tree: Tree, m: Manifest, backups: map<string, Bytes>, p: string, prior: Prior)
    requires PriorFits(hash, tree, m, backups, p, prior) && Digest(hash)
    ensures prior.preExisting && prior.prior == "" <==> p in m && m[p].preExisting && m[p].prior == ""
  {
    if p in tree.files { assert |hash(tree.files[p])| >= 8; }
  }

  lemma NotAllRecordable(m: Manifest, targets: map<string, Target>, artifacts: seq<Artifact>)
    requires !forall i | 0 <= i < |artifacts| :: Recordable(m, targets, artifacts[i])
    ensures exists a :: a in artifacts && !Recordable(m, targets, a)
  {
    var i :| 0 <= i < |artifacts| && !Recordable(m, targets, artifacts[i]);
    assert artifacts[i] in artifacts;
  }

  /** What was seen is what is there, so nothing is refused on its account. */
  lemma ObservedFits(hash: Bytes -> string, tree: Tree, m: Manifest, backups: map<string, Bytes>, managed: set<string>,
                     artifacts: seq<Artifact>, priors: map<string, Prior>, observed: Observed)
    requires forall p | p in priors :: PriorFits(hash, tree, m, backups, p, priors[p])
    requires observed == map p | p in priors && priors[p].observed.Some? :: priors[p].observed.value
    ensures Deployable(tree, managed, artifacts, observed) <==> Deployable(tree, managed, artifacts, map[])
  {
    hide DistinctPaths, AllManaged, NoneHoldsAnother, Free;
    forall i | 0 <= i < |artifacts| && artifacts[i].path in observed ensures observed[artifacts[i].path] == tree.At(artifacts[i].path) {
      assert PriorFits(hash, tree, m, backups, artifacts[i].path, priors[artifacts[i].path]);
    }
  }

  lemma DeployableParts(tree: Tree, managed: set<string>, artifacts: seq<Artifact>, observed: Observed)
    requires Deployable(tree, managed, artifacts, observed)
    ensures DistinctPaths(artifacts)
  {
  }

  lemma PathsRecordable(m: Manifest, targets: map<string, Target>, artifacts: seq<Artifact>)
    requires forall i | 0 <= i < |artifacts| :: Recordable(m, targets, artifacts[i])
    ensures forall i | 0 <= i < |artifacts| :: artifacts[i].path in targets
  {
  }

  lemma StoppedAtOnce(before: Tree, artifacts: seq<Artifact>, cancelled: nat -> bool, r: Outcome)
    requires InOrder(before, artifacts, cancelled, r) && r.Stopped? && r.changed == []
    ensures ToWritePaths(before, artifacts) != [] && cancelled(0)
  {
    hide ToWritePaths;
    assert |r.changed| == 0;
  }

  lemma RecordedAfter(hash: Bytes -> string, before: Tree, was: Manifest, m: Manifest, backups: map<string, Bytes>,
                      artifacts: seq<Artifact>, targets: map<string, Target>, priors: map<string, Prior>, skipped: seq<string>)
    requires AllPriorsFit(hash, before, was, backups, artifacts, priors)
    requires forall i | 0 <= i < |artifacts| :: artifacts[i].path in targets && artifacts[i].path in priors
    requires Recorded(hash, was, m, artifacts, targets, priors, skipped)
    ensures ManifestAfter(hash, before, was, m, backups, artifacts, targets, skipped)
  {
    forall i | 0 <= i < |artifacts| && artifacts[i].path !in skipped
      ensures artifacts[i].path in m && RecordedAs(hash, before, was, backups, artifacts[i], targets[artifacts[i].path], m[artifacts[i].path])
    {
      assert PriorFits(hash, before, was, backups, artifacts[i].path, priors[artifacts[i].path]);
    }
  }

  lemma NothingTakenOver(hash: Bytes -> string, tree: Tree, backups: map<string, Bytes>)
    ensures TakenOver(hash, tree, tree, map[], backups)
  {
  }

  /** A recorded apply, whole or cancelled part way, keeps the way back to what
      was there before the first one, wherever nothing was edited since. */
  lemma TakeoverKept(hash: Bytes -> string, origin: Tree, before: Tree, now: Tree, was: Manifest, m: Manifest, kept: map<string, Bytes>,
                     backups: map<string, Bytes>, artifacts: seq<Artifact>, targets: map<string, Target>, r: Outcome)
    requires TakenOver(hash, origin, before, was, kept) && BackupsStand(kept, backups)
    requires ManifestAfter(hash, before, was, m, backups, artifacts, targets, Skipped(r))
    requires r.Deployed? ==> InPlace(before, now, artifacts)
    requires r.Stopped? ==> Split(before, now, artifacts, r.changed, r.notApplied)
    requires r.Deployed? || r.Stopped?
    ensures TakenOver(hash, origin, now, m, backups)
  {
    hide ManifestAfter, InPlace, Split;
    forall p ensures p in m ==> TakenAt(hash, origin, now, m[p], backups, p) ensures p !in m ==> now.At(p) == origin.At(p) {
      TakeoverKeptAt(hash, origin, before, now, was, m, kept, backups, artifacts, targets, r, p);
    }
  }

  lemma TakeoverKeptAt(hash: Bytes -> string, origin: Tree, before: Tree, now: Tree, was: Manifest, m: Manifest, kept: map<string, Bytes>,
                       backups: map<string, Bytes>, artifacts: seq<Artifact>, targets: map<string, Target>, r: Outcome, p: string)
    requires TakenOver(hash, origin, before, was, kept) && BackupsStand(kept, backups)
    requires ManifestAfter(hash, before, was, m, backups, artifacts, targets, Skipped(r))
    requires r.Deployed? ==> InPlace(before, now, artifacts)
    requires r.Stopped? ==> Split(before, now, artifacts, r.changed, r.notApplied)
    requires r.Deployed? || r.Stopped?
    ensures if p in m then TakenAt(hash, origin, now, m[p], backups, p) else now.At(p) == origin.At(p)
  {
    assert if p in was then TakenAt(hash, origin, before, was[p], kept, p) else before.At(p) == origin.At(p);
    if Written(artifacts, Skipped(r), p) {
      var i :| 0 <= i < |artifacts| && artifacts[i].path == p && p !in Skipped(r);
      var a := artifacts[i];
      assert a in artifacts;
      assert RecordedAs(hash, before, was, backups, a, targets[p], m[p]);
      if r.Stopped? { assert SplitOne(before, now, a, r.changed, r.notApplied); }
      assert now.At(p) == Some(a.content);
    } else {
      assert now.At(p) == before.At(p) by { NotWritten(before, now, artifacts, r, p); }
    }
  }

  lemma NotWritten(before: Tree, now: Tree, artifacts: seq<Artifact>, r: Outcome, p: string)
    requires !Written(artifacts, Skipped(r), p)
    requires r.Deployed? ==> InPlace(before, now, artifacts)
    requires r.Stopped? ==> Split(before, now, artifacts, r.changed, r.notApplied)
    requires r.Deployed? || r.Stopped?
    ensures now.At(p) == before.At(p)
  {
    if i :| 0 <= i < |artifacts| && artifacts[i].path == p {
      assert artifacts[i] in artifacts;
      assert r.Stopped? && SplitOne(before, now, artifacts[i], r.changed, r.notApplied);
    } else {
      assert !Deploying.Names(artifacts, p);
    }
  }
}
