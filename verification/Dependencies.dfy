/**
 Dependency validation of a marketplace catalogue (`validateDependencies` in
 internal/marketplace/manager.go): pins first, then a depth-first search for cycles. Go iterates
 its maps in any order, so every loop over a map picks its next key arbitrarily.
 */
module Dependencies {
  import opened Prelude

  datatype Plugin = Plugin(name: string, version: string, dependencies: map<string, string>)

  datatype Verdict = Accepted | BadPin(plugin: string, dependency: string) | Cycle(plugin: string)

  type Catalogue = map<string, Plugin>

  /** Entries by name; a later entry replaces an earlier one of the same name. */
  function Index(plugins: seq<Plugin>): Catalogue {
    if plugins == [] then map[]
    else Index(plugins[..|plugins| - 1])[plugins[|plugins| - 1].name := plugins[|plugins| - 1]]
  }

  predicate PinHolds(entries: Catalogue, dependency: string, version: string) {
    dependency in entries && TrimSpace(version) != "" && entries[dependency].version == version
  }

  predicate PluginPinned(entries: Catalogue, p: Plugin) {
    forall d :: d in p.dependencies ==> PinHolds(entries, d, p.dependencies[d])
  }

  /** Every listed pin is non-blank and names a listed plugin at that very version. */
  predicate Pinned(plugins: seq<Plugin>) {
    forall p :: p in plugins ==> PluginPinned(Index(plugins), p)
  }

  predicate Edge(entries: Catalogue, a: string, b: string) {
    a in entries && b in entries[a].dependencies
  }

  ghost predicate IsWalk(entries: Catalogue, p: seq<string>) {
    forall i :: 0 <= i < |p| - 1 ==> Edge(entries, p[i], p[i + 1])
  }

  ghost predicate IsCycle(entries: Catalogue, p: seq<string>) {
    |p| >= 2 && IsWalk(entries, p) && p[0] == p[|p| - 1]
  }

  ghost predicate Acyclic(entries: Catalogue) {
    forall p :: !IsCycle(entries, p)
  }

  ghost predicate Closed(entries: Catalogue) {
    forall a, b :: Edge(entries, a, b) ==> b in entries
  }

  lemma {:induction false} IndexedIsListed(plugins: seq<Plugin>)
    ensures forall name :: name in Index(plugins) ==>
        Index(plugins)[name] in plugins && Index(plugins)[name].name == name
    ensures forall p :: p in plugins ==> p.name in Index(plugins)
  {
    if plugins != [] {
      var rest := plugins[..|plugins| - 1];
      IndexedIsListed(rest);
      assert plugins == rest + [plugins[|plugins| - 1]];
    }
  }

  // ------------------------------------------------------------ dependency order

  function Position(order: seq<string>, x: string): (i: nat)
    requires x in order
    ensures i < |order| && order[i] == x && forall j :: 0 <= j < i ==> order[j] != x
  {
    if order[0] == x then 0 else 1 + Position(order[1..], x)
  }

  /** The dependencies of every plugin in the list come before it. */
  ghost predicate Ordered(entries: Catalogue, order: seq<string>) {
    forall i, d :: 0 <= i < |order| && Edge(entries, order[i], d) ==> d in order[..i]
  }

  lemma SuffixIsWalk(entries: Catalogue, p: seq<string>, k: nat)
    requires IsWalk(entries, p) && k <= |p|
    ensures IsWalk(entries, p[k..])
  {
    forall i | 0 <= i < |p[k..]| - 1
      ensures Edge(entries, p[k..][i], p[k..][i + 1])
    {
      assert Edge(entries, p[k + i], p[k + i + 1]);
    }
  }

  lemma {:induction false} WalkDescends(entries: Catalogue, order: seq<string>, p: seq<string>)
    requires Ordered(entries, order) && IsWalk(entries, p) && |p| >= 2 && p[0] in order
    ensures p[|p| - 1] in order && Position(order, p[|p| - 1]) < Position(order, p[0])
    decreases |p|
  {
    assert Edge(entries, p[0], p[1]);
    var i := Position(order, p[0]);
    assert p[1] in order[..i];
    if |p| > 2 {
      SuffixIsWalk(entries, p, 1);
      WalkDescends(entries, order, p[1..]);
    }
  }

  /** A list of all plugins with dependencies first rules out every cycle. */
  lemma OrderedIsAcyclic(entries: Catalogue, order: seq<string>)
    requires Ordered(entries, order) && forall name :: name in entries ==> name in order
    ensures Acyclic(entries)
  {
    forall p
      ensures !IsCycle(entries, p)
    {
      if IsCycle(entries, p) {
        assert Edge(entries, p[0], p[1]);
        WalkDescends(entries, order, p);
      }
    }
  }

  class DependencyWalk {
    const entries: Catalogue
    var visiting: set<string>
    var visited: set<string>
    ghost var order: seq<string>    // the visited plugins as they were finished

    ghost predicate Valid()
      reads this
    {
      && Ordered(entries, order)
      && (forall name :: name in order <==> name in visited)
      && visiting !! visited
      && visiting <= entries.Keys
    }

    constructor (entries: Catalogue)
      ensures Valid() && this.entries == entries && visiting == {} && visited == {}
    {
      this.entries, visiting, visited, order := entries, {}, {}, [];
    }

    /** Visits a plugin below the chain `path` of plugins being visited. It ends for every
        catalogue: each nested visit leaves fewer plugins outside the chain. */
    method Visit(name: string, ghost path: seq<string>) returns (cycle: Option<string>)
      requires Valid() && Closed(entries) && name in entries
      requires IsWalk(entries, path + [name]) && forall x :: x in path <==> x in visiting
      modifies this
      ensures cycle.None? ==> Valid() && visiting == old(visiting) && name in visited && old(visited) <= visited
      ensures cycle.Some? ==> !Acyclic(entries)
      decreases entries.Keys - visiting
    {
      if name in visiting {
        ghost var k := Position(path, name);
        SuffixIsWalk(entries, path + [name], k);
        assert IsCycle(entries, (path + [name])[k..]);
        return Some(name);
      }
      if name in visited {
        return None;
      }
      visiting := visiting + {name};
      var remaining := entries[name].dependencies.Keys;
      while remaining != {}
        invariant Valid() && visiting == old(visiting) + {name} && name !in visited && old(visited) <= visited
        invariant remaining <= entries[name].dependencies.Keys
        invariant forall d :: d in entries[name].dependencies.Keys - remaining ==> d in visited
        decreases remaining
      {
        var d :| d in remaining;
        remaining := remaining - {d};
        assert Edge(entries, name, d);
        ghost var chain := path + [name];
        assert forall i :: 0 <= i < |chain| ==> (chain + [d])[i] == chain[i];
        cycle := Visit(d, chain);
        if cycle.Some? {
          return;
        }
      }
      visiting := visiting - {name};
      visited := visited + {name};
      ghost var finished := order;
      order := order + [name];
      assert forall i :: 0 <= i < |finished| ==> order[..i] == finished[..i];
      assert order[..|finished|] == finished;
      cycle := None;
    }
  }

  /** A dependency of the entry whose pin does not hold, if there is one. */
  method FirstBadPin(entries: Catalogue, entry: Plugin) returns (bad: Option<string>)
    ensures bad.None? ==> PluginPinned(entries, entry)
    ensures bad.Some? ==> bad.value in entry.dependencies
    ensures bad.Some? ==> !PinHolds(entries, bad.value, entry.dependencies[bad.value])
    ensures bad.Some? ==> !PluginPinned(entries, entry)
  {
    var remaining := entry.dependencies.Keys;
    while remaining != {}
      invariant remaining <= entry.dependencies.Keys
      invariant forall d :: d in entry.dependencies.Keys - remaining ==> PinHolds(entries, d, entry.dependencies[d])
      decreases remaining
    {
      var d :| d in remaining;
      if d !in entries || TrimSpace(entry.dependencies[d]) == "" || entries[d].version != entry.dependencies[d] {
        return Some(d);
      }
      remaining := remaining - {d};
    }
    bad := None;
  }

  /** Accepts a catalogue exactly when every pin holds and no plugin depends on itself through any
      chain, whatever order the maps are iterated in; pins are reported before cycles. */
  method ValidateDependencies(plugins: seq<Plugin>) returns (v: Verdict)
    ensures v.Accepted? <==> Pinned(plugins) && Acyclic(Index(plugins))
    ensures v.BadPin? ==> exists p :: p in plugins && p.name == v.plugin && v.dependency in p.dependencies &&
                                      !PinHolds(Index(plugins), v.dependency, p.dependencies[v.dependency])
    ensures v.Cycle? ==> Pinned(plugins) && v.plugin in Index(plugins)
  {
    var entries: Catalogue := map[];
    for i := 0 to |plugins|
      invariant entries == Index(plugins[..i])
    {
      entries := entries[plugins[i].name := plugins[i]];
      assert plugins[..i + 1][..i] == plugins[..i];
    }
    assert plugins[..|plugins|] == plugins;
    for i := 0 to |plugins|
      invariant forall j :: 0 <= j < i ==> PluginPinned(entries, plugins[j])
    {
      var bad := FirstBadPin(entries, plugins[i]);
      if bad.Some? {
        assert plugins[i] in plugins;
        return BadPin(plugins[i].name, bad.value);
      }
    }
    IndexedIsListed(plugins);
    assert Closed(entries) by {
      forall a, b | Edge(entries, a, b)
        ensures b in entries
      {
        assert PinHolds(entries, b, entries[a].dependencies[b]);
      }
    }
    var walk := new DependencyWalk(entries);
    var names := entries.Keys;
    while names != {}
      invariant walk.Valid() && walk.entries == entries && walk.visiting == {}
      invariant names <= entries.Keys && forall name :: name in entries.Keys - names ==> name in walk.visited
      invariant fresh(walk)
      decreases names
    {
      var name :| name in names;
      names := names - {name};
      var cycle := walk.Visit(name, []);
      if cycle.Some? {
        return Cycle(name);
      }
    }
    OrderedIsAcyclic(entries, walk.order);
    v := Accepted;
  }
}
