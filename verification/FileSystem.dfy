/** A file system the deployment acts on: files, directories and temporaries,
    with any operation free to fail as its schedule says. */
module FileSystem {
  import opened Decimal
  import opened Paths

  type Bytes = seq<int>

  datatype Temp = Temp(dir: string, content: Bytes)

  /** Temporaries have names of their own, apart from every managed path. */
  datatype Tree = Tree(files: map<string, Bytes>, dirs: set<string>, temps: map<nat, Temp>)
  {
    predicate WellFormed() {
      && Root in dirs && files.Keys !! dirs
      && (forall f | f in files :: Dir(f) in dirs)
      && (forall d | d in dirs && d != Root :: Dir(d) in dirs)
      && (forall t | t in temps :: temps[t].dir in dirs)
    }

    predicate Occupied(d: string) {
      (exists f :: f in files && Dir(f) == d) || (exists c :: c in dirs && c != Root && Dir(c) == d) || (exists t :: t in temps && temps[t].dir == d)
    }

    function At(path: string): Option<Bytes> {
      if path in files then Some(files[path]) else None
    }
  }

  lemma {:induction false} AncestorsBelowRoot(p: string, a: string)
    requires a in Ancestors(p)
    ensures a != Root
    decreases |p|
  {
    if a != Dir(p) { AncestorsBelowRoot(Dir(p), a); }
  }

  /** In a well-formed tree whatever is there has all its ancestors. */
  lemma {:induction false} AncestorsPresent(tree: Tree, p: string)
    requires tree.WellFormed() && (p in tree.files || p in tree.dirs) && p != Root
    ensures forall a | a in Ancestors(p) :: a in tree.dirs
    decreases |p|
  {
    if Dir(p) != Root { AncestorsPresent(tree, Dir(p)); }
  }

  /** The ancestors come outermost first, each right below the one before. */
  lemma {:induction false} AncestorsInOrder(path: string, i: nat)
    requires i < |Ancestors(path)|
    ensures Dir(Ancestors(path)[i]) == if i == 0 then Root else Ancestors(path)[i - 1]
    decreases |path|
  {
    if i < |Ancestors(path)| - 1 {
      AncestorsInOrder(Dir(path), i);
    } else if i > 0 {
      assert Ancestors(path)[i - 1] == Ancestors(Dir(path))[i - 1] == Dir(Dir(path));
    }
  }

  predicate NoFileAbove(tree: Tree, path: string) {
    forall d | d in Ancestors(path) :: d !in tree.files
  }

  lemma RootIsNoFile(tree: Tree, p: string)
    requires tree.WellFormed() && p in tree.files
    ensures p != Root
  {
  }

  /** The first of n checks that finds the operation cancelled, n if none does. */
  function FirstCancelled(cancelled: nat -> bool, i: nat, n: nat): (k: nat)
    requires i <= n
    ensures i <= k <= n && (k < n ==> cancelled(k)) && forall l: nat | i <= l < k :: !cancelled(l)
    decreases n - i
  {
    if i == n || cancelled(i) then i else FirstCancelled(cancelled, i + 1, n)
  }

  datatype Made = NewlyMade | AlreadyThere | NotMade

  class Disk {
    var tree: Tree
    const faults: nat -> bool
    var clock: nat
    var named: nat

    ghost predicate Valid()
      reads this
    {
      tree.WellFormed() && forall t | t in tree.temps :: t < named
    }

    constructor (tree: Tree, faults: nat -> bool, named: nat)
      requires tree.WellFormed() && forall t | t in tree.temps :: t < named
      ensures Valid() && this.tree == tree && this.faults == faults && clock == 0
    {
      this.tree, this.faults, this.named := tree, faults, named;
      clock := 0;
    }

    /** Some operation was scheduled to fail between two moments. */
    ghost predicate Faulted(from: nat, to: nat) {
      exists c :: from <= c < to && faults(c)
    }

    lemma FaultedLater(a: nat, b: nat, c: nat)
      requires a <= b <= c
      ensures Faulted(a, b) || Faulted(b, c) ==> Faulted(a, c)
    {
    }

    /** The next scheduled fault, if any. */
    method Fails() returns (fails: bool)
      modifies this`clock
      ensures clock == old(clock) + 1 && fails == faults(old(clock))
    {
      fails := faults(clock);
      clock := clock + 1;
    }

    method Mkdir(d: string) returns (made: Made)
      requires Valid() && d != Root
      modifies this`tree, this`clock
      ensures Valid() && clock >= old(clock)
      ensures made == NewlyMade ==> d !in old(tree).dirs && d !in old(tree).files && Dir(d) in old(tree).dirs
                                    && tree == old(tree).(dirs := old(tree).dirs + {d})
      ensures made == AlreadyThere ==> tree == old(tree) && (d in tree.dirs || d in tree.files)
      ensures made == NotMade ==> tree == old(tree) && d !in tree.dirs && (Faulted(old(clock), clock) || Dir(d) !in tree.dirs)
    {
      if d in tree.dirs || d in tree.files {
        return AlreadyThere;
      }
      var fails := Fails();
      if fails || Dir(d) !in tree.dirs {
        return NotMade;
      }
      tree := tree.(dirs := tree.dirs + {d});
      return NewlyMade;
    }

    /** A new temporary, under a name never used before; a failure leaves
        nothing behind. */
    method StageTemp(dir: string, content: Bytes) returns (t: Option<nat>)
      requires Valid()
      modifies this
      ensures Valid() && named >= old(named) && clock >= old(clock)
      ensures t.Some? ==> t.value !in old(tree).temps && t.value == old(named) < named
                          && tree == old(tree).(temps := old(tree).temps[t.value := Temp(dir, content)])
      ensures t.None? ==> tree == old(tree) && (Faulted(old(clock), clock) || dir !in tree.dirs)
    {
      var fails := Fails();
      if fails || dir !in tree.dirs {
        return None;
      }
      t := Some(named);
      tree := tree.(temps := tree.temps[named := Temp(dir, content)]);
      named := named + 1;
    }

    /** Moves a temporary over a destination. */
    method Rename(t: nat, destination: string) returns (ok: bool)
      requires Valid()
      modifies this`tree, this`clock
      ensures Valid() && clock >= old(clock)
      ensures ok ==> t in old(tree).temps
                     && tree == old(tree).(files := old(tree).files[destination := old(tree).temps[t].content], temps := old(tree).temps - {t})
      ensures !ok ==> tree == old(tree)
      ensures !ok ==> Faulted(old(clock), clock) || t !in tree.temps || destination in tree.dirs || Dir(destination) !in tree.dirs
    {
      var fails := Fails();
      if fails || t !in tree.temps || destination in tree.dirs || Dir(destination) !in tree.dirs {
        return false;
      }
      tree := tree.(files := tree.files[destination := tree.temps[t].content], temps := tree.temps - {t});
      return true;
    }

    /** Moves a file aside, under a temporary name. */
    method SetAside(path: string) returns (t: Option<nat>)
      requires Valid()
      modifies this
      ensures Valid() && named >= old(named) && clock == old(clock) + 1
      ensures t.Some? ==> path in old(tree).files && t.value !in old(tree).temps
                          && tree == old(tree).(files := old(tree).files - {path},
                                                temps := old(tree).temps[t.value := Temp(Root, old(tree).files[path])])
      ensures t.None? ==> tree == old(tree) && (Faulted(old(clock), clock) || path !in tree.files)
    {
      var fails := Fails();
      if fails || path !in tree.files {
        return None;
      }
      t := Some(named);
      tree := tree.(files := tree.files - {path}, temps := tree.temps[named := Temp(Root, tree.files[path])]);
      named := named + 1;
    }

    /** The user writes or deletes one file; impossible writes change nothing. */
    method Edit(path: string, content: Option<Bytes>)
      requires Valid()
      modifies this`tree
      ensures Valid()
      ensures forall p | p != path :: tree.At(p) == old(tree).At(p)
      ensures content.Some? && Dir(path) in old(tree).dirs && path !in old(tree).dirs ==> tree.At(path) == content
      ensures content.None? ==> tree.At(path) == None
    {
      match content {
        case None => tree := tree.(files := tree.files - {path});
        case Some(bytes) =>
          if Dir(path) in tree.dirs && path !in tree.dirs {
            tree := tree.(files := tree.files[path := bytes]);
          }
      }
    }

    /** Creates the missing ancestors of a path, as far as it gets. */
    method MkdirAll(path: string) returns (ok: bool)
      requires Valid()
      modifies this`tree, this`clock
      ensures Valid() && clock >= old(clock)
      ensures tree == old(tree).(dirs := tree.dirs) && old(tree).dirs <= tree.dirs
      ensures (forall a | a in Ancestors(path) :: a in old(tree).dirs) ==> ok && tree == old(tree)
      ensures ok ==> Dir(path) in tree.dirs
      ensures forall d | d in tree.dirs :: d in old(tree).dirs || d in Ancestors(path)
      ensures !ok ==> Faulted(old(clock), clock) || !NoFileAbove(tree, path)
    {
      var components := Ancestors(path);
      assert Dir(path) != Root ==> components[|components| - 1] == Dir(path);
      for i := 0 to |components|
        invariant Valid() && clock >= old(clock)
        invariant i > 0 ==> components[i - 1] in tree.dirs
        invariant forall d | d in tree.dirs :: d in old(tree).dirs || d in components
        invariant tree == old(tree).(dirs := tree.dirs) && old(tree).dirs <= tree.dirs
        invariant (forall a | a in components :: a in old(tree).dirs) ==> tree == old(tree)
      {
        AncestorsBelowRoot(path, components[i]);
        AncestorsInOrder(path, i);
        assert components[i] in Ancestors(path);
        var made := Mkdir(components[i]);
        if made == NotMade || components[i] in tree.files {
          return false;
        }
      }
      return true;
    }

    /** Removes empty directories upward until one cannot be removed. */
    method PruneEmptyDirs(path: string)
      requires Valid()
      modifies this`tree, this`clock
      ensures Valid() && clock >= old(clock)
      ensures tree == old(tree).(dirs := tree.dirs) && tree.dirs <= old(tree).dirs
    {
      var d := Dir(path);
      while d != Root
        invariant Valid() && clock >= old(clock)
        invariant tree == old(tree).(dirs := tree.dirs) && tree.dirs <= old(tree).dirs
        decreases if d == Root then 0 else 1 + |d|
      {
        var ok := RemoveDir(d);
        if !ok {
          return;
        }
        d := Dir(d);
      }
    }

    /** Removing what is not there is no failure. */
    method RemoveFile(path: string) returns (ok: bool)
      requires Valid()
      modifies this`tree, this`clock
      ensures Valid() && clock >= old(clock)
      ensures ok ==> tree == old(tree).(files := old(tree).files - {path})
      ensures !ok ==> tree == old(tree) && Faulted(old(clock), clock)
    {
      if path !in tree.files {
        assert tree.files - {path} == tree.files;
        return true;
      }
      var fails := Fails();
      if fails {
        return false;
      }
      tree := tree.(files := tree.files - {path});
      return true;
    }

    method RemoveTemp(t: nat) returns (ok: bool)
      requires Valid()
      modifies this`tree, this`clock
      ensures Valid() && clock >= old(clock)
      ensures ok ==> tree == old(tree).(temps := old(tree).temps - {t})
      ensures !ok ==> tree == old(tree) && Faulted(old(clock), clock)
    {
      if t !in tree.temps {
        assert tree.temps - {t} == tree.temps;
        return true;
      }
      var fails := Fails();
      if fails {
        return false;
      }
      tree := tree.(temps := tree.temps - {t});
      return true;
    }

    /** Only an empty directory can be removed. */
    method RemoveDir(d: string) returns (ok: bool)
      requires Valid() && d != Root
      modifies this`tree, this`clock
      ensures Valid() && clock >= old(clock)
      ensures ok ==> tree == old(tree).(dirs := old(tree).dirs - {d})
      ensures !ok ==> tree == old(tree) && (Faulted(old(clock), clock) || tree.Occupied(d))
    {
      if d !in tree.dirs {
        assert tree.dirs - {d} == tree.dirs;
        return true;
      }
      var fails := Fails();
      if fails || tree.Occupied(d) {
        return false;
      }
      tree := tree.(dirs := tree.dirs - {d});
      return true;
    }

    /** Durability only. */
    method Sync(d: string) returns (ok: bool)
      modifies this`clock
      ensures clock >= old(clock) && (ok || Faulted(old(clock), clock))
    {
      var fails := Fails();
      return !fails;
    }
  }
}
