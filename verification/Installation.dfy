/**
 Installing and uninstalling plugins as file-tree transactions (`activateInstall`,
 `deactivateInstall` and `Remove` in internal/marketplace/manager.go). Any step may fail: `faults`
 says which. The renames of a rollback are taken to succeed. The temporary directories of a
 transaction are fresh and private, so what they hold is kept apart from the tree, under the path
 it came from (`vault`) or is meant for (`staged`).
 */
module Installation {
  type Path = seq<string>

  /** What stands at a path: a file, or a directory with everything below it, as one value. */
  type Content = string

  type Tree = map<Path, Content>

  datatype Installed = Installed(name: string, version: string, digest: string, skills: seq<string>)

  function PluginPath(name: string): Path { ["marketplace-plugins", name] }

  function PointerPath(name: string): Path { ["marketplace-plugins", name + ".active.json"] }

  function SkillPath(skill: string): Path { ["skills", skill] }

  function SkillPaths(skills: seq<string>): set<Path> {
    set s | s in skills :: SkillPath(s)
  }

  /** The paths a plugin occupies. */
  function Owned(name: string, skills: seq<string>): set<Path> {
    {PluginPath(name), PointerPath(name)} + SkillPaths(skills)
  }

  /** The paths of a plugin in the order they are backed up. */
  function Paths(name: string, skills: seq<string>): (paths: seq<Path>)
  {
    [PluginPath(name), PointerPath(name)] + seq(|skills|, i requires 0 <= i < |skills| => SkillPath(skills[i]))
  }

  lemma PathsAreOwned(name: string, skills: seq<string>)
    ensures (set p | p in Paths(name, skills)) == Owned(name, skills)
  {
    var paths := Paths(name, skills);
    forall p | p in Owned(name, skills)
      ensures p in paths
    {
      if p != paths[0] && p != paths[1] {
        var i :| 0 <= i < |skills| && p == SkillPath(skills[i]);
        assert p == paths[i + 2];
      }
    }
    forall p | p in paths
      ensures p in Owned(name, skills)
    {
      var j :| 0 <= j < |paths| && paths[j] == p;
      assert j >= 2 ==> p == SkillPath(skills[j - 2]) && skills[j - 2] in skills;
    }
  }

  function Pointer(plugin: Installed): Content { plugin.digest + "@" + plugin.version }

  // ------------------------------------------------------------ names

  predicate NameChar(c: char) { 'a' <= c <= 'z' || '0' <= c <= '9' }

  /** ^[a-z][a-z0-9]*(?:-[a-z0-9]+)*$ */
  predicate Compatible(name: string) {
    && name != "" && 'a' <= name[0] <= 'z' && name[|name| - 1] != '-'
    && (forall i :: 0 <= i < |name| ==> NameChar(name[i]) || name[i] == '-')
    && forall i, j :: 0 <= i && j == i + 1 < |name| && name[i] == '-' ==> name[j] != '-'
  }

  predicate ValidInstalled(plugin: Installed) {
    && Compatible(plugin.name)
    && forall s :: s in plugin.skills ==> plugin.name + "--" <= s && '/' !in s && '\\' !in s
  }

  lemma PrefixSeparates(p: string, q: string, s: string)
    requires Compatible(p) && Compatible(q) && |p| <= |q| && p + "--" <= s && q + "--" <= s
    ensures p == q
  {
    assert forall i :: 0 <= i < |p| + 2 ==> s[i] == (p + "--")[i];
    assert forall i :: 0 <= i < |q| ==> s[i] == (q + "--")[i] == q[i];
    assert s[|p|] == '-' && s[|p| + 1] == '-';
    assert p == s[..|p|] && q == s[..|q|];
  }

  lemma SkillSeparates(p: string, q: string, s: string)
    requires Compatible(p) && Compatible(q) && p + "--" <= s && q + "--" <= s
    ensures p == q
  {
    if |p| <= |q| { PrefixSeparates(p, q, s); } else { PrefixSeparates(q, p, s); }
  }

  lemma PointersSeparate(p: string, q: string)
    requires Compatible(q)
    ensures PointerPath(p) != PluginPath(q)
    ensures PointerPath(p) == PointerPath(q) ==> p == q
  {
    var suffix := ".active.json";
    assert (p + suffix)[|p|] == '.' && forall i :: 0 <= i < |q| ==> q[i] != '.';
    assert PluginPath(q)[1] == q != p + suffix == PointerPath(p)[1];
    assert PointerPath(q)[1] == q + suffix;
    assert p == (p + suffix)[..|p|] && q == (q + suffix)[..|q|];
    assert |p + suffix| == |p| + |suffix| && |q + suffix| == |q| + |suffix|;
  }

  /** Valid installations of different plugins never share a path. */
  lemma OwnershipIsDisjoint(a: Installed, b: Installed)
    requires ValidInstalled(a) && ValidInstalled(b) && a.name != b.name
    ensures Owned(a.name, a.skills) !! Owned(b.name, b.skills)
  {
    PointersSeparate(a.name, b.name);
    PointersSeparate(b.name, a.name);
    forall s | s in a.skills
      ensures s !in b.skills
    {
      if s in b.skills {
        SkillSeparates(a.name, b.name, s);
      }
    }
    forall path | path in Owned(a.name, a.skills)
      ensures path !in Owned(b.name, b.skills)
    {
      if path[0] == "skills" {
        assert path == SkillPath(path[1]) && path[1] in a.skills;
        assert forall t :: SkillPath(t)[1] == t;
      } else {
        assert path[1] == a.name || path[1] == a.name + ".active.json";
        assert PluginPath(b.name)[1] == b.name && PluginPath(a.name)[1] == a.name;
      }
    }
  }

  // ------------------------------------------------------------ rollback

  function Only(tree: Tree, paths: set<Path>): Tree {
    map p | p in paths && p in tree :: tree[p]
  }

  /** The paths that have been moved to the vault are exactly what is missing from the tree. */
  predicate MovedFrom(start: Tree, tree: Tree, vault: Tree) {
    vault == Only(start, vault.Keys) && tree == start - vault.Keys
  }

  /** What a rollback leaves of `start` when it removes `owned` and puts back what was set aside. */
  function RolledBack(start: Tree, owned: set<Path>, aside: set<Path>): Tree {
    start - (owned - aside)
  }

  lemma MovedStep(start: Tree, tree: Tree, vault: Tree, path: Path)
    requires MovedFrom(start, tree, vault)
    ensures path in tree ==> MovedFrom(start, tree - {path}, vault[path := tree[path]])
    ensures path in start && path !in tree ==> path in vault
    ensures path in tree ==> path in start && path !in vault
  {
  }

  /** The listed paths at which something stands. */
  function Occupied(start: Tree, paths: seq<Path>): set<Path> {
    set p | p in paths && p in start
  }

  lemma OccupiedGrows(start: Tree, paths: seq<Path>, i: nat)
    requires i < |paths|
    ensures Occupied(start, paths[..i + 1]) == Occupied(start, paths[..i]) + if paths[i] in start then {paths[i]}
        else {}
    ensures Occupied(start, paths[..i]) <= Occupied(start, paths)
  {
    assert paths[..i + 1] == paths[..i] + [paths[i]];
  }

  /** A rollback restores the tree exactly when everything it removes had been set aside. */
  lemma RollbackRestoresIff(start: Tree, owned: set<Path>, aside: set<Path>)
    ensures RolledBack(start, owned, aside) == start <==> owned * start.Keys <= aside
  {
    var left := RolledBack(start, owned, aside);
    if owned * start.Keys <= aside {
      assert left.Keys == start.Keys;
    } else {
      var p :| p in owned * start.Keys && p !in aside;
      assert p !in left;
    }
  }

  /** From activation on, a failed install restores the tree exactly when no new skill path was
      occupied by something that the previous version does not own. */
  lemma ActivationRestoresIff(start: Tree, name: string, newSkills: seq<string>, oldSkills: seq<string>)
    ensures RolledBack(start, Owned(name, newSkills), Owned(name, oldSkills) * start.Keys) == start <==>
      forall s :: s in newSkills && SkillPath(s) in start ==> s in oldSkills
  {
    var owned, aside := Owned(name, newSkills), Owned(name, oldSkills) * start.Keys;
    RollbackRestoresIff(start, owned, aside);
    if forall s :: s in newSkills && SkillPath(s) in start ==> s in oldSkills {
      assert owned * start.Keys <= aside;
    } else {
      var s :| s in newSkills && SkillPath(s) in start && s !in oldSkills;
      assert SkillPath(s) in owned * start.Keys;
      assert forall t :: SkillPath(t) == SkillPath(s) ==> t == SkillPath(t)[1] == SkillPath(s)[1] == s;
      assert SkillPath(s) !in aside;
    }
  }

  // ------------------------------------------------------------ failures while backing up

  /** How many operations setting one path aside takes when none fails. */
  function Steps(tree: Tree, path: Path): nat {
    if path in tree then 3 else 1
  }

  predicate PathFails(faults: nat -> bool, clock: nat, tree: Tree, path: Path) {
    faults(clock) || (path in tree && (faults(clock + 1) || faults(clock + 2)))
  }

  /** The first of the paths that cannot be set aside, or their number. */
  function FailsAt(faults: nat -> bool, clock: nat, tree: Tree, paths: seq<Path>): (j: nat)
    ensures j <= |paths|
    decreases |paths|
  {
    if paths == [] || PathFails(faults, clock, tree, paths[0]) then 0
    else 1 + FailsAt(faults, clock + Steps(tree, paths[0]), tree - {paths[0]}, paths[1..])
  }

  /** The operation at which the j-th path is looked at when nothing before fails. */
  function Due(clock: nat, tree: Tree, paths: seq<Path>, j: nat): nat
    requires j < |paths|
    decreases j
  {
    if j == 0 then clock else Due(clock + Steps(tree, paths[0]), tree - {paths[0]}, paths[1..], j - 1)
  }

  lemma {:induction false} DueIsLater(clock: nat, tree: Tree, paths: seq<Path>, j: nat)
    requires j < |paths|
    ensures Due(clock, tree, paths, j) >= clock
    ensures j > 0 ==> Due(clock, tree, paths, j) >= clock + Steps(tree, paths[0])
    decreases j
  {
    if j > 0 {
      DueIsLater(clock + Steps(tree, paths[0]), tree - {paths[0]}, paths[1..], j - 1);
    }
  }

  /** When exactly the operation due for the j-th path fails, the backup stops at that path. */
  lemma {:induction false} StopsWhereDue(faults: nat -> bool, clock: nat, tree: Tree, paths: seq<Path>, j: nat)
    requires j < |paths| && forall k :: faults(k) <==> k == Due(clock, tree, paths, j)
    ensures FailsAt(faults, clock, tree, paths) == j
    decreases j
  {
    DueIsLater(clock, tree, paths, j);
    if j > 0 {
      StopsWhereDue(faults, clock + Steps(tree, paths[0]), tree - {paths[0]}, paths[1..], j - 1);
    }
  }

  /** The backup of the old version fails at a path after the plugin directory, so a rollback runs. */
  predicate BackupFails(faults: nat -> bool, clock: nat, start: Tree, paths: seq<Path>) {
    1 <= FailsAt(faults, clock, start, paths) < |paths|
  }

  /** What is left when the backup has stopped at the j-th path and been rolled back. */
  function LeftAt(start: Tree, name: string, newSkills: seq<string>, paths: seq<Path>, j: nat): Tree
    requires j <= |paths|
  {
    RolledBack(start, Owned(name, newSkills), Occupied(start, paths[..j]))
  }

  lemma OneAside(start: Tree, paths: seq<Path>, j: nat)
    requires 1 <= j <= |paths|
    ensures Occupied(start, paths[..1]) <= Occupied(start, paths[..j])
    ensures Occupied(start, paths[..1]) == {paths[0]} * start.Keys
  {
    assert paths[..1] == [paths[0]] && paths[..j][0] == paths[0];
  }

  /** Every failure while backing up restores the tree, whatever operation fails, exactly when nothing
      stands at the new version's paths but the plugin directory itself. */
  lemma BackupFailureRestoresIff(start: Tree, name: string, newSkills: seq<string>, oldSkills: seq<string>, clock: nat)
    ensures (forall faults :: BackupFails(faults, clock, start, Paths(name, oldSkills)) ==>
               LeftAt(start, name, newSkills, Paths(name, oldSkills),
                      FailsAt(faults, clock, start, Paths(name, oldSkills))) == start) <==>
            Owned(name, newSkills) * start.Keys <= {PluginPath(name)}
  {
    hide Owned, RolledBack, Occupied, Due, FailsAt;
    var paths := Paths(name, oldSkills);
    if Owned(name, newSkills) * start.Keys <= {PluginPath(name)} {
      forall faults | BackupFails(faults, clock, start, paths)
        ensures LeftAt(start, name, newSkills, paths, FailsAt(faults, clock, start, paths)) == start
      {
        var j := FailsAt(faults, clock, start, paths);
        OneAside(start, paths, j);
        RollbackRestoresIff(start, Owned(name, newSkills), Occupied(start, paths[..j]));
      }
    } else {
      var at := Due(clock, start, paths, 1);
      var faults := (k: nat) => k == at;
      StopsWhereDue(faults, clock, start, paths, 1);
      OneAside(start, paths, 1);
      RollbackRestoresIff(start, Owned(name, newSkills), Occupied(start, paths[..1]));
      assert BackupFails(faults, clock, start, paths);
    }
  }

  datatype Stage = NotStarted | BackingUp | Activating | Done

  lemma SomePaths(name: string, skills: seq<string>)
    ensures |Paths(name, skills)| >= 2
  {
  }

  lemma NothingMoved(start: Tree)
    ensures MovedFrom(start, start, map[])
  {
  }

  lemma FirstThenRest(start: Tree, paths: seq<Path>, j: nat)
    requires paths != [] && j < |paths|
    ensures Occupied(start, paths[..j + 1]) == {paths[0]} * start.Keys + Occupied(start, paths[1..][..j])
  {
    assert paths[..j + 1] == [paths[0]] + paths[1..][..j];
  }

  lemma OccupiedIsOwned(start: Tree, name: string, skills: seq<string>)
    ensures Occupied(start, Paths(name, skills)) == Owned(name, skills) * start.Keys
  {
    hide Paths, Owned;
    PathsAreOwned(name, skills);
    assert forall p :: p in Paths(name, skills) <==> p in (set q | q in Paths(name, skills));
  }

  lemma OwnedIsMissing(start: Tree, tree: Tree, vault: Tree, owned: set<Path>)
    requires MovedFrom(start, tree, vault) && vault.Keys == owned * start.Keys
    ensures tree == start - owned
  {
  }

  lemma SkillPathsGrow(skills: seq<string>, i: nat)
    requires i < |skills|
    ensures SkillPaths(skills[..i + 1]) == SkillPaths(skills[..i]) + {SkillPath(skills[i])}
    ensures SkillPaths(skills[..i]) <= SkillPaths(skills)
  {
    assert skills[..i + 1] == skills[..i] + [skills[i]];
  }

  lemma PlacedStep(base: Tree, staged: Tree, done: set<Path>, p: Path)
    requires done <= staged.Keys && p in staged
    ensures (base + Only(staged, done))[p := staged[p]] == base + Only(staged, done + {p})
    ensures staged - done - {p} == staged - (done + {p})
  {
  }

  lemma AgreeBeyond(a: Tree, b: Tree, fewer: set<Path>, more: set<Path>)
    requires a - fewer == b - fewer && fewer <= more
    ensures a - more == b - more
  {
    assert a - more == a - fewer - more && b - more == b - fewer - more;
  }

  /** The paths renamed out of staging. */
  function Directories(plugin: Installed): set<Path> {
    {PluginPath(plugin.name)} + SkillPaths(plugin.skills)
  }

  /** The tree once the plugin directory and its skills are in place. */
  function Moved(base: Tree, plugin: Installed, staged: Tree): Tree
    requires PluginPath(plugin.name) in staged
  {
    base[PluginPath(plugin.name) := staged[PluginPath(plugin.name)]] +
    Only(staged - {PluginPath(plugin.name)}, SkillPaths(plugin.skills))
  }

  lemma PointerIsOwned(tree: Tree, plugin: Installed)
    ensures tree[PointerPath(plugin.name) := Pointer(plugin)] - Owned(plugin.name, plugin.skills) ==
            tree - Owned(plugin.name, plugin.skills)
  {
  }

  /** What the new version puts in place. */
  function Placement(plugin: Installed, staged: Tree): Tree {
    Only(staged, Owned(plugin.name, plugin.skills))[PointerPath(plugin.name) := Pointer(plugin)]
  }

  lemma PlacementComplete(base: Tree, plugin: Installed, staged: Tree)
    requires PluginPath(plugin.name) in staged
    ensures Moved(base, plugin, staged)[PointerPath(plugin.name) := Pointer(plugin)] == base + Placement(plugin, staged)
  {
    assert PluginPath(plugin.name) !in SkillPaths(plugin.skills);
    assert PointerPath(plugin.name) !in SkillPaths(plugin.skills);
  }

  lemma OnlyAdds(base: Tree, added: Tree, owned: set<Path>)
    requires added.Keys <= owned
    ensures base + added - owned == base - owned
  {
  }

  /** A rollback after the vault was filled, whatever the new version had put at its own paths. */
  lemma RollbackMeets(start: Tree, stripped: Tree, now: Tree, owned: set<Path>, vault: Tree)
    requires MovedFrom(start, stripped, vault) && vault.Keys <= start.Keys
    requires now - owned == stripped - owned
    ensures now - owned + vault == RolledBack(start, owned, vault.Keys)
  {
  }

  /** No operation from this one on fails. */
  ghost predicate Calm(faults: nat -> bool, from: nat) {
    forall k :: k >= from ==> !faults(k)
  }

  lemma {:induction false} CalmNeverStops(faults: nat -> bool, clock: nat, tree: Tree, paths: seq<Path>)
    requires Calm(faults, clock)
    ensures FailsAt(faults, clock, tree, paths) == |paths|
    decreases |paths|
  {
    if paths != [] {
      CalmNeverStops(faults, clock + Steps(tree, paths[0]), tree - {paths[0]}, paths[1..]);
    }
  }

  predicate Distinct(skills: seq<string>) {
    forall i, j :: 0 <= i < j < |skills| ==> skills[i] != skills[j]
  }

  /** A skill that comes again is not among those before it. */
  lemma SkillIsNew(skills: seq<string>, i: nat)
    requires Distinct(skills) && i < |skills|
    ensures SkillPath(skills[i]) !in SkillPaths(skills[..i]) && SkillPath(skills[i]) in SkillPaths(skills)
  {
    assert forall s :: SkillPath(s)[1] == s;
  }

  ghost predicate SkillsPlaceable(tree: Tree, skills: seq<string>, staged: Tree) {
    Distinct(skills) && SkillPaths(skills) <= staged.Keys && SkillPaths(skills) !! tree.Keys
  }

  /** Everything to be put in place was staged, once, and its place is free. */
  ghost predicate Placeable(tree: Tree, plugin: Installed, staged: Tree) {
    Distinct(plugin.skills) && Directories(plugin) <= staged.Keys && Directories(plugin) !! tree.Keys
  }

  /** What an installation leaves: the staged directories at their places, a pointer that names digest and
      version, nothing of the old version besides, and every other path as it was. */
  lemma InstalledHolds(start: Tree, plugin: Installed, oldSkills: seq<string>, staged: Tree)
    requires Directories(plugin) <= staged.Keys
    ensures var tree := start - Owned(plugin.name, oldSkills) + Placement(plugin, staged);
      && (forall p :: p in Directories(plugin) ==> p in tree && tree[p] == staged[p])
      && PointerPath(plugin.name) in tree && tree[PointerPath(plugin.name)] == plugin.digest + "@" + plugin.version
      && (forall p :: p in Owned(plugin.name, oldSkills) && p !in Owned(plugin.name, plugin.skills) ==> p !in tree)
      && (forall p :: p !in Owned(plugin.name, oldSkills) && p !in Owned(plugin.name, plugin.skills) ==>
            (p in tree <==> p in start) && (p in start ==> tree[p] == start[p]))
  {
    assert PointerPath(plugin.name) !in SkillPaths(plugin.skills);
    assert PluginPath(plugin.name)[1] == plugin.name != plugin.name + ".active.json" == PointerPath(plugin.name)[1];
  }

  class Manager {
    const faults: nat -> bool
    var tree: Tree
    var index: map<string, Installed>
    var clock: nat

    constructor (faults: nat -> bool, tree: Tree, index: map<string, Installed>)
      ensures this.faults == faults && this.tree == tree && this.index == index && clock == 0
    {
      this.faults, this.tree, this.index, clock := faults, tree, index, 0;
    }

    /** One operation that the file system may refuse. */
    method Attempt() returns (ok: bool)
      modifies this`clock
      ensures ok == !faults(old(clock)) && clock == old(clock) + 1
    {
      ok := !faults(clock);
      clock := clock + 1;
    }

    /** moveToBackup: moves a path to the vault unless nothing stands there. */
    method MoveAside(path: Path, vault: Tree) returns (ok: bool, now: Tree)
      modifies this`clock, this`tree
      ensures ok && path in old(tree) ==> tree == old(tree) - {path} && now == vault[path := old(tree)[path]]
      ensures !(ok && path in old(tree)) ==> tree == old(tree) && now == vault
      ensures ok <==> !PathFails(faults, old(clock), old(tree), path)
      ensures ok ==> clock == old(clock) + Steps(old(tree), path) && tree == old(tree) - {path}
      ensures clock >= old(clock)
    {
      now := vault;
      ok := Attempt();                    // stat
      if !ok || path !in tree {
        return;
      }
      ok := Attempt();                    // mkdir
      if !ok {
        return;
      }
      ok := Attempt();                    // rename
      if ok {
        now := vault[path := tree[path]];
        tree := tree - {path};
      }
    }

    /** Moves a list of paths to the vault up to the first failure. */
    method BackUpAll(paths: seq<Path>, vault: Tree, ghost start: Tree) returns (ok: bool, now: Tree)
      requires MovedFrom(start, tree, vault)
      modifies this`clock, this`tree
      ensures MovedFrom(start, tree, now)
      ensures var j := FailsAt(faults, old(clock), old(tree), paths);
        (ok <==> j == |paths|) && now.Keys == vault.Keys + Occupied(start, paths[..j])
      ensures clock >= old(clock)
    {
      hide MovedFrom, PathFails, Steps;
      now := vault;
      assert paths[0..] == paths;
      for i := 0 to |paths|
        invariant MovedFrom(start, tree, now)
        invariant now.Keys == vault.Keys + Occupied(start, paths[..i]) && clock >= old(clock)
        invariant FailsAt(faults, old(clock), old(tree), paths) == i + FailsAt(faults, clock, tree, paths[i..])
      {
        assert paths[i..][0] == paths[i] && paths[i..][1..] == paths[i + 1..];
        OccupiedGrows(start, paths, i);
        MovedStep(start, tree, now, paths[i]);
        ok, now := MoveAside(paths[i], now);
        if !ok {
          return;
        }
      }
      assert paths[..|paths|] == paths;
      ok := true;
    }

    /** Puts everything in the vault back, in any order. */
    method Restore(vault: Tree)
      modifies this`tree
      ensures tree == old(tree) + vault
    {
      var rest := vault.Keys;
      while rest != {}
        invariant rest <= vault.Keys && tree == old(tree) + (vault - rest)
        decreases rest
      {
        var p :| p in rest;
        tree := tree[p := vault[p]];
        rest := rest - {p};
      }
      assert vault - rest == vault;
    }

    /** Uninstalls atomically: a failure at any step restores the exact tree and index; success
        removes exactly the plugin's own paths and replaces the index. */
    method DeactivateInstall(plugin: Installed, installs: map<string, Installed>) returns (ok: bool)
      modifies this
      ensures ok ==> ValidInstalled(plugin) && index == installs
      ensures ok ==> tree == old(tree) - Owned(plugin.name, plugin.skills)
      ensures !ok ==> tree == old(tree) && index == old(index)
      ensures ValidInstalled(plugin) && Calm(faults, old(clock)) ==> ok
    {
      hide ValidInstalled, Owned, Paths, Pointer, FailsAt;
      if !ValidInstalled(plugin) {
        return false;
      }
      ok := Attempt();                    // the temporary directory
      if !ok {
        return;
      }
      var vault: Tree;
      if Calm(faults, clock) {
        CalmNeverStops(faults, clock, tree, Paths(plugin.name, plugin.skills));
      }
      ok, vault := BackUpAll(Paths(plugin.name, plugin.skills), map[], tree);
      PathsAreOwned(plugin.name, plugin.skills);
      if ok {
        ok := Attempt();                  // the index file
      }
      if !ok {
        Restore(vault);
        return;
      }
      index := installs;
    }

    /** `Remove`: uninstalls a listed plugin and leaves every path of the other plugins alone. */
    method Remove(name: string) returns (ok: bool)
      modifies this
      ensures ok ==> name in old(index) && index == old(index) - {name}
      ensures ok ==> tree == old(tree) - Owned(old(index)[name].name, old(index)[name].skills)
      ensures !ok ==> tree == old(tree) && index == old(index)
      ensures name in old(index) && ValidInstalled(old(index)[name]) && Calm(faults, old(clock)) ==> ok
      ensures ok ==> forall q :: q in index && ValidInstalled(index[q]) && index[q].name != old(index)[name].name ==>
        Only(tree, Owned(index[q].name, index[q].skills)) == Only(old(tree), Owned(index[q].name, index[q].skills))
    {
      if name !in index || !ValidInstalled(index[name]) {
        return false;
      }
      var plugin := index[name];
      ok := DeactivateInstall(plugin, index - {name});
      if ok {
        forall q | q in index && ValidInstalled(index[q]) && index[q].name != plugin.name
          ensures Owned(index[q].name, index[q].skills) !! Owned(plugin.name, plugin.skills)
        {
          OwnershipIsDisjoint(index[q], plugin);
        }
      }
    }

    /** os.Rename from the staging directory; an occupied or a missing path refuses it. */
    method Place(path: Path, staged: Tree) returns (ok: bool, left: Tree)
      modifies this`clock, this`tree
      ensures ok ==> path in staged && path !in old(tree) && left == staged - {path}
      ensures ok ==> tree == old(tree)[path := staged[path]]
      ensures !ok ==> tree == old(tree) && left == staged
      ensures clock >= old(clock) && (Calm(faults, old(clock)) && path in staged && path !in old(tree) ==> ok)
    {
      left := staged;
      ok := Attempt();
      if !ok || path !in staged || path in tree {
        return false, staged;
      }
      tree := tree[path := staged[path]];
      left := staged - {path};
    }

    /** Removes everything the new version may have put in place and brings the vault back. */
    method RollBack(plugin: Installed, vault: Tree)
      modifies this`tree
      ensures tree == old(tree) - Owned(plugin.name, plugin.skills) + vault
    {
      tree := tree - {PluginPath(plugin.name)} - {PointerPath(plugin.name)};
      for i := 0 to |plugin.skills|
        invariant tree == old(tree) - Owned(plugin.name, plugin.skills[..i])
      {
        assert plugin.skills[..i + 1] == plugin.skills[..i] + [plugin.skills[i]];
        tree := tree - {SkillPath(plugin.skills[i])};
      }
      assert plugin.skills[..|plugin.skills|] == plugin.skills;
      Restore(vault);
    }

    method PlaceSkills(skills: seq<string>, staged: Tree) returns (ok: bool)
      modifies this`clock, this`tree
      ensures ok ==> SkillPaths(skills) <= staged.Keys && SkillPaths(skills) !! old(tree).Keys
      ensures ok ==> tree == old(tree) + Only(staged, SkillPaths(skills))
      ensures tree - SkillPaths(skills) == old(tree) - SkillPaths(skills)
      ensures clock >= old(clock)
      ensures Calm(faults, old(clock)) && SkillsPlaceable(old(tree), skills, staged) ==> ok
    {
      var left := staged;
      for i := 0 to |skills|
        invariant clock >= old(clock)
        invariant SkillPaths(skills[..i]) <= staged.Keys && SkillPaths(skills[..i]) !! old(tree).Keys
        invariant tree == old(tree) + Only(staged, SkillPaths(skills[..i])) && left == staged - SkillPaths(skills[..i])
      {
        SkillPathsGrow(skills, i);
        if Distinct(skills) {
          SkillIsNew(skills, i);
        }
        OnlyAdds(old(tree), Only(staged, SkillPaths(skills[..i])), SkillPaths(skills));
        ok := Attempt();                  // mkdir
        if !ok {
          return;
        }
        ok, left := Place(SkillPath(skills[i]), left);
        if !ok {
          return;
        }
        PlacedStep(old(tree), staged, SkillPaths(skills[..i]), SkillPath(skills[i]));
      }
      assert skills[..|skills|] == skills;
      OnlyAdds(old(tree), Only(staged, SkillPaths(skills)), SkillPaths(skills));
      ok := true;
    }

    /** The renames out of staging: the plugin directory and its skills. */
    method PlaceVersion(plugin: Installed, staged: Tree) returns (ok: bool)
      modifies this`clock, this`tree
      ensures ok ==> PluginPath(plugin.name) in staged && tree == Moved(old(tree), plugin, staged)
      ensures ok ==> Directories(plugin) <= staged.Keys && Directories(plugin) !! old(tree).Keys
      ensures tree - Directories(plugin) == old(tree) - Directories(plugin)
      ensures clock >= old(clock) && (Calm(faults, old(clock)) && Placeable(old(tree), plugin, staged) ==> ok)
    {
      ok := Attempt();                    // mkdir
      if !ok {
        return;
      }
      var left: Tree;
      ok, left := Place(PluginPath(plugin.name), staged);
      if !ok {
        return;
      }
      ghost var placed := tree;
      ok := PlaceSkills(plugin.skills, left);
      AgreeBeyond(tree, placed, SkillPaths(plugin.skills), Directories(plugin));
      assert placed - Directories(plugin) == old(tree) - Directories(plugin);
    }

    /** The activation phase, from the first rename out of staging to the index file. */
    method Activate(plugin: Installed, staged: Tree, installs: map<string, Installed>) returns (ok: bool)
      modifies this
      ensures ok ==> tree == old(tree) + Placement(plugin, staged) && index == installs
      ensures ok ==> {PluginPath(plugin.name)} + SkillPaths(plugin.skills) <= staged.Keys
      ensures ok ==> {PluginPath(plugin.name)} + SkillPaths(plugin.skills) !! old(tree).Keys
      ensures !ok ==> index == old(index)
      ensures !ok ==> tree - Owned(plugin.name, plugin.skills) == old(tree) - Owned(plugin.name, plugin.skills)
      ensures Calm(faults, old(clock)) && Placeable(old(tree), plugin, staged) ==> ok
    {
      hide Moved, Placement, Pointer;
      ok := PlaceVersion(plugin, staged);
      AgreeBeyond(tree, old(tree), Directories(plugin), Owned(plugin.name, plugin.skills));
      if !ok {
        return;
      }
      ok := Attempt();                    // the pointer file
      if !ok {
        return;
      }
      PlacementComplete(old(tree), plugin, staged);
      PointerIsOwned(tree, plugin);
      tree := tree[PointerPath(plugin.name) := Pointer(plugin)];
      ok := Attempt();                    // the index file
      if ok {
        index := installs;
      }
    }

    /** The backup phase. Until the plugin directory itself has been moved no rollback runs. */
    method SetAside(name: string, oldSkills: seq<string>) returns (ok: bool, started: bool, vault: Tree)
      modifies this`clock, this`tree
      ensures MovedFrom(old(tree), tree, vault)
      ensures var paths := Paths(name, oldSkills);
        var j := FailsAt(faults, old(clock) + 1, old(tree), paths);
        && (started <==> !faults(old(clock)) && j > 0)
        && (ok <==> started && j == |paths|)
        && (started ==> vault.Keys == Occupied(old(tree), paths[..j]))
        && (!started ==> vault == map[])
      ensures ok ==> vault.Keys == Owned(name, oldSkills) * old(tree).Keys
      ensures clock >= old(clock) && (Calm(faults, old(clock)) ==> ok)
    {
      hide Owned, PathFails, MovedFrom, Occupied, Steps;
      NothingMoved(tree);
      ok := Attempt();                    // the temporary directory
      if !ok {
        return false, false, map[];
      }
      ghost var start := tree;
      var paths := Paths(name, oldSkills);
      if Calm(faults, clock) {
        CalmNeverStops(faults, clock, tree, paths);
      }
      MovedStep(start, start, map[], paths[0]);
      ok, vault := MoveAside(paths[0], map[]);
      if !ok {
        return false, false, map[];
      }
      started := true;
      FirstThenRest(start, paths, FailsAt(faults, clock, tree, paths[1..]));
      ok, vault := BackUpAll(paths[1..], vault, start);
      assert paths[..|paths|] == paths;
      OccupiedIsOwned(start, name, oldSkills);
    }

    /** Installs or upgrades. The failing operation decides where the call ends; a rollback restores
        what had been set aside by then and whatever the new version does not claim. */
    method ActivateInstall(plugin: Installed, oldSkills: seq<string>, staged: Tree, installs: map<string, Installed>)
      returns (stage: Stage)
      modifies this
      ensures stage.Done? ==> index == installs
      ensures stage.Done? ==> tree == old(tree) - Owned(plugin.name, oldSkills) + Placement(plugin, staged)
      ensures !stage.Done? ==> index == old(index)
      ensures var paths := Paths(plugin.name, oldSkills);
        var j := FailsAt(faults, old(clock) + 1, old(tree), paths);
        && (stage.NotStarted? <==> faults(old(clock)) || j == 0)
        && (stage.BackingUp? <==> !faults(old(clock)) && BackupFails(faults, old(clock) + 1, old(tree), paths))
        && (stage.NotStarted? ==> tree == old(tree))
        && (stage.BackingUp? ==> tree == LeftAt(old(tree), plugin.name, plugin.skills, paths, j))
      ensures stage.Activating? ==>
        tree == RolledBack(old(tree), Owned(plugin.name, plugin.skills), Owned(plugin.name, oldSkills) * old(tree).Keys)
      ensures Calm(faults, old(clock)) && Placeable(old(tree) - Owned(plugin.name, oldSkills), plugin, staged) ==>
        stage.Done?
    {
      hide Owned, RolledBack, Occupied, FailsAt, Placement, Paths;
      ghost var start := tree;
      var ok, started, vault := SetAside(plugin.name, oldSkills);
      SomePaths(plugin.name, oldSkills);
      if !ok {
        if started {
          RollbackMeets(start, tree, tree, Owned(plugin.name, plugin.skills), vault);
          RollBack(plugin, vault);
        }
        return if started then BackingUp else NotStarted;
      }
      ghost var stripped := tree;
      OwnedIsMissing(start, stripped, vault, Owned(plugin.name, oldSkills));
      ok := Activate(plugin, staged, installs);
      if !ok {
        RollbackMeets(start, stripped, tree, Owned(plugin.name, plugin.skills), vault);
        RollBack(plugin, vault);
        return Activating;
      }
      stage := Done;
    }
  }

  /** The operation, counted from 0, that looks at the pointer when the plugin directory is there. */
  predicate LooksAtPointer(k: nat) { k == 4 }

  lemma PointerIsDue(start: Tree, name: string)
    requires PluginPath(name) in start && PointerPath(name) in start
    ensures FailsAt(LooksAtPointer, 1, start, Paths(name, [])) == 1
    ensures forall newSkills :: PointerPath(name) !in LeftAt(start, name, newSkills, Paths(name, []), 1)
  {
    var paths := Paths(name, []);
    assert Due(1, start, paths, 1) == 4;
    StopsWhereDue(LooksAtPointer, 1, start, paths, 1);
    assert |PointerPath(name)[1]| != |PluginPath(name)[1]|;
    OneAside(start, paths, 1);
  }

  /** An upgrade whose failing operation is the look at the pointer file loses that file: only the
      plugin directory has been set aside, and the rollback deletes the pointer that is still there. */
  method UpgradeLosesThePointer(plugin: Installed, staged: Tree) returns (start: Tree, stage: Stage, left: Tree)
    ensures start == map[PluginPath(plugin.name) := "v1", PointerPath(plugin.name) := "d1@1"]
    ensures stage.BackingUp? && FailsAt(LooksAtPointer, 1, start, Paths(plugin.name, [])) == 1
    ensures left == LeftAt(start, plugin.name, plugin.skills, Paths(plugin.name, []), 1)
    ensures PointerPath(plugin.name) !in left
  {
    var name := plugin.name;
    start := map[PluginPath(name) := "v1", PointerPath(name) := "d1@1"];
    var manager := new Manager(LooksAtPointer, start, map[]);
    PointerIsDue(start, name);
    stage := manager.ActivateInstall(plugin, [], staged, map[]);
    left := manager.tree;
  }
}
