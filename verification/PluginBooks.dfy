/** What the registry keeps besides the states: its two sets of plugins, and who was loaded on top of whom. */
module PluginBooks {
  import opened PluginModel
  import opened PluginSafety
  import opened Wrappers

  /**
    Each plugin is in one of the two sets: one that is AVAILABLE or LOADING is still among the unloaded, one that is
    LOADED is among the loaded; one in UNLOADING is where it was before.
   */
  ghost predicate Sorted(c: Catalogue, s: Registry)
    requires WellFormed(c, s)
  {
    && s.loaded + s.unloaded == c.Keys && s.loaded !! s.unloaded
    && (forall p :: p in c && (s.state[p] == Available || s.state[p] == Loading) ==> p in s.unloaded)
    && (forall p :: p in c && s.state[p] == Loaded ==> p in s.loaded)
  }

  /** Who is listed as a dependent of d has d among its dependencies, and declares it, in an allowed version. */
  ghost predicate Entered(c: Catalogue, s: Registry)
    requires WellFormed(c, s)
  {
    forall d, x :: d in c && x in s.dependents[d] ==> x in c && d in s.dependencies[x] && Declares(c, x, d)
  }

  ghost predicate Declares(c: Catalogue, x: string, d: string)
    requires x in c
  {
    exists i :: 0 <= i < |c[x].dependencies|
                && c[x].dependencies[i].name == d && d in c && c[x].dependencies[i].range.Contains(c[d].version)
  }

  ghost predicate InOrder(c: Catalogue, s: Registry)
    requires WellFormed(c, s)
  {
    Sorted(c, s) && Entered(c, s)
  }

  lemma {:induction false} LoadKeepsOrder(c: Catalogue, s: Registry, name: string)
    requires WellFormed(c, s) && Sound(c, s) && InOrder(c, s)
    ensures InOrder(c, Load(c, s, name).1)
    decreases InState(s, Available), 0, 0
  {
    hide Sound, Entered, LoadDependencies;
    if name in c && LoadErrors(c[name], s.state[name]).None? {
      assert name in InState(s, Available);
      var s1 := WithState(c, s, name, Loading);
      StateOnly(c, s, name, Loading);
      StartLoadIsSound(c, s, name);
      NothingLinkedYet(c, s1, name);
      DependenciesKeepOrder(c, s1, name, 0);
      LoadDependenciesIsSound(c, s1, name, 0);
      var (error, s2) := LoadDependencies(c, s1, name, 0);
      if error.None? {
        FinishLoadKeepsOrder(c, s2, name);
      }
    }
  }

  lemma StateOnly(c: Catalogue, s: Registry, name: string, st: PluginState)
    requires WellFormed(c, s) && name in c && InOrder(c, s)
    requires (st == Loading && s.state[name] == Available) || st == Unloading
    ensures InOrder(c, WithState(c, s, name, st))
  {
    hide Declares, InState, Entered;
    EnteredByLists(c, s, WithState(c, s, name, st));
  }

  lemma FinishLoadKeepsOrder(c: Catalogue, s: Registry, name: string)
    requires WellFormed(c, s) && name in c && InOrder(c, s)
    ensures InOrder(c, FinishLoad(c, s, name))
  {
    hide Declares, InState, Entered;
    EnteredByLists(c, s, FinishLoad(c, s, name));
  }

  lemma EnteredByLists(c: Catalogue, s: Registry, r: Registry)
    requires WellFormed(c, s) && WellFormed(c, r) && Entered(c, s)
    requires r.dependents == s.dependents && r.dependencies == s.dependencies
    ensures Entered(c, r)
  {
  }

  lemma {:induction false} DependenciesKeepOrder(c: Catalogue, s: Registry, name: string, i: nat)
    requires WellFormed(c, s) && Sound(c, s) && name in c && s.state[name] == Loading
    requires i <= |c[name].dependencies| && Linked(c, s, name, i) && InOrder(c, s)
    ensures InOrder(c, LoadDependencies(c, s, name, i).1)
    decreases InState(s, Available), 1, |c[name].dependencies| - i
  {
    hide Sound, Linked, InOrder, LoadDependencies, LoadDependency, OnlyLoads, WellFormed;
    LoadDependenciesUnfolds(c, s, name, i);
    if i == |c[name].dependencies| {
    } else {
      var d := c[name].dependencies[i];
      LoadDependencyStep(c, s, name, i);
      DependencyKeepsOrder(c, s, d);
      var (error, s1) := LoadDependency(c, s, d);
      if error.None? {
        LinkKeepsOrder(c, s1, name, i);
        DependenciesKeepOrder(c, Link(c, s1, name, d.name), name, i + 1);
      } else if !d.required {
        DependenciesKeepOrder(c, s1, name, i + 1);
      }
    }
  }

  lemma LinkKeepsOrder(c: Catalogue, s: Registry, name: string, i: nat)
    requires WellFormed(c, s) && name in c && i < |c[name].dependencies| && InOrder(c, s)
    requires var d := c[name].dependencies[i]; d.name in c && d.range.Contains(c[d.name].version)
    ensures var r := Link(c, s, name, c[name].dependencies[i].name);
            InOrder(c, r) && InState(r, Available) == InState(s, Available)
  {
    hide VersionRange.Contains, Sorted, Declares, InState, AllIn;
    var dep := c[name].dependencies[i].name;
    Declared(c, name, i);
    SortedByState(c, s, Link(c, s, name, dep));
    SameState(s, Link(c, s, name, dep));
  }

  lemma Declared(c: Catalogue, name: string, i: nat)
    requires name in c && i < |c[name].dependencies|
    requires var d := c[name].dependencies[i]; d.name in c && d.range.Contains(c[d.name].version)
    ensures Declares(c, name, c[name].dependencies[i].name)
  {
  }

  lemma SameState(s: Registry, r: Registry)
    requires s.state == r.state
    ensures InState(r, Available) == InState(s, Available)
  {
  }

  lemma SortedByState(c: Catalogue, s: Registry, r: Registry)
    requires WellFormed(c, s) && WellFormed(c, r) && Sorted(c, s)
    requires r.state == s.state && r.loaded == s.loaded && r.unloaded == s.unloaded
    ensures Sorted(c, r)
  {
  }

  lemma {:induction false} DependencyKeepsOrder(c: Catalogue, s: Registry, d: Dependency)
    requires WellFormed(c, s) && Sound(c, s) && InOrder(c, s)
    ensures var (error, r) := LoadDependency(c, s, d);
            WellFormed(c, r) && InOrder(c, r) && InState(r, Available) <= InState(s, Available)
            && (error.None? ==> d.name in c && d.range.Contains(c[d.name].version))
    decreases InState(s, Available), 0, 1
  {
    hide Sound, InOrder, Load, VersionRange.Contains;
    LoadKeepsOrder(c, s, d.name);
  }

  /** Nothing is taken from a list, and what is new comes at its end. */
  ghost predicate OnlyAppends(c: Catalogue, s: Registry, r: Registry)
    requires WellFormed(c, s) && WellFormed(c, r)
  {
    forall p :: p in c ==> s.dependents[p] <= r.dependents[p] && s.dependencies[p] <= r.dependencies[p]
  }

  lemma {:induction false} LoadOnlyAppends(c: Catalogue, s: Registry, name: string)
    requires WellFormed(c, s)
    ensures OnlyAppends(c, s, Load(c, s, name).1)
    decreases InState(s, Available), 0, 0
  {
    hide LoadDependencies;
    if name in c && LoadErrors(c[name], s.state[name]).None? {
      assert name in InState(s, Available);
      DependenciesOnlyAppend(c, WithState(c, s, name, Loading), name, 0);
    }
  }

  lemma {:induction false} DependenciesOnlyAppend(c: Catalogue, s: Registry, name: string, i: nat)
    requires WellFormed(c, s) && name in c && i <= |c[name].dependencies|
    ensures OnlyAppends(c, s, LoadDependencies(c, s, name, i).1)
    decreases InState(s, Available), 1, |c[name].dependencies| - i
  {
    hide LoadDependencies, LoadDependency, WellFormed, InState, OnlyAppends;
    LoadDependenciesUnfolds(c, s, name, i);
    AppendsNothing(c, s);
    if i == |c[name].dependencies| {
    } else {
      var d := c[name].dependencies[i];
      var (error, s1) := LoadDependency(c, s, d);
      DependencyOnlyAppends(c, s, d);
      var next := if error.None? then Link(c, s1, name, d.name) else s1;
      if error.None? {
        LinkAppends(c, s1, name, d.name);
      } else {
        AppendsNothing(c, s1);
      }
      if error.None? || !d.required {
        DependenciesOnlyAppend(c, next, name, i + 1);
        AppendsTrans(c, s, s1, next);
        AppendsTrans(c, s, next, LoadDependencies(c, next, name, i + 1).1);
      }
    }
  }

  lemma AppendsNothing(c: Catalogue, s: Registry)
    requires WellFormed(c, s)
    ensures OnlyAppends(c, s, s)
  {
  }

  lemma AppendsTrans(c: Catalogue, s: Registry, m: Registry, r: Registry)
    requires WellFormed(c, s) && WellFormed(c, m) && WellFormed(c, r) && OnlyAppends(c, s, m) && OnlyAppends(c, m, r)
    ensures OnlyAppends(c, s, r)
  {
    hide AllIn;
  }

  /** The plugin is the last of the other's dependents, and the other the last of its dependencies. */
  lemma LinkAppends(c: Catalogue, s: Registry, name: string, dep: string)
    requires WellFormed(c, s) && name in c && dep in c
    ensures var r := Link(c, s, name, dep);
            && OnlyAppends(c, s, r) && InState(r, Available) == InState(s, Available)
            && r.dependents[dep] == s.dependents[dep] + [name] && r.dependencies[name] == s.dependencies[name] + [dep]
  {
    hide AllIn;
  }

  lemma {:induction false} DependencyOnlyAppends(c: Catalogue, s: Registry, d: Dependency)
    requires WellFormed(c, s)
    ensures OnlyAppends(c, s, LoadDependency(c, s, d).1)
    decreases InState(s, Available), 0, 1
  {
    hide Load, VersionRange.Contains, OnlyAppends;
    AppendsNothing(c, s);
    LoadOnlyAppends(c, s, d.name);
  }

  lemma {:induction false} UnloadKeepsOrder(c: Catalogue, s: Registry, name: string)
    requires WellFormed(c, s) && InOrder(c, s)
    ensures InOrder(c, Unload(c, s, name).1)
    decreases InState(s, Loaded) - {name}, 2, 0
  {
    hide InOrder, UnloadAllowed;
    if name in c && UnloadErrors(c[name], s.state[name]).None? {
      StateOnly(c, s, name, Unloading);
      UnloadAllowedKeepsOrder(c, WithState(c, s, name, Unloading), name);
    }
  }

  lemma {:induction false} UnloadAllowedKeepsOrder(c: Catalogue, s: Registry, name: string)
    requires WellFormed(c, s) && InOrder(c, s) && name in c && s.state[name] == Unloading
    ensures InOrder(c, UnloadAllowed(c, s, name).1)
    decreases InState(s, Loaded), 1, 0
  {
    hide KeepsInTransition, InOrder;
    DependentsKeepOrder(c, s, name, |s.dependents[name]|);
    var (error, s1) := UnloadDependents(c, s, name, |s.dependents[name]|);
    FinishUnloadKeepsOrder(c, s1, name);
  }

  lemma FinishUnloadKeepsOrder(c: Catalogue, s: Registry, name: string)
    requires WellFormed(c, s) && name in c && InOrder(c, s)
    ensures InOrder(c, FinishUnload(c, s, name))
  {
    hide Declares, InState, Entered, KeepsInTransition;
    EnteredByLists(c, s, FinishUnload(c, s, name));
  }

  lemma {:induction false} DependentsKeepOrder(c: Catalogue, s: Registry, name: string, n: nat)
    requires WellFormed(c, s) && InOrder(c, s) && name in c && s.state[name] == Unloading && n <= |s.dependents[name]|
    ensures InOrder(c, UnloadDependents(c, s, name, n).1)
    decreases InState(s, Loaded), 0, n
  {
    hide InOrder, KeepsInTransition, UnloadDependents, UnloadDependent, WellFormed, InState;
    UnloadDependentsUnfolds(c, s, name, n);
    if n == 0 {
    } else {
      DependentKeepsOrder(c, s, name, n - 1);
      var (error, s1) := UnloadDependent(c, s, name, n - 1);
      if error.None? {
        DependentsKeepOrder(c, s1, name, n - 1);
      }
    }
  }

  lemma {:induction false} DependentKeepsOrder(c: Catalogue, s: Registry, name: string, i: nat)
    requires WellFormed(c, s) && InOrder(c, s) && name in c && s.state[name] == Unloading && i < |s.dependents[name]|
    ensures var r := UnloadDependent(c, s, name, i).1;
            WellFormed(c, r) && InOrder(c, r) && InState(r, Loaded) <= InState(s, Loaded)
    decreases InState(s, Loaded), 0, i
  {
    hide InOrder, KeepsInTransition, Unload;
    var dependent := s.dependents[name][i];
    if s.state[dependent] == Loaded {
      assert dependent in InState(s, Loaded);
      UnloadKeepsOrder(c, s, dependent);
      UnloadLeavesAlone(c, s, dependent, name);
      var (error, s1) := Unload(c, s, dependent);
      if error.None? {
        EraseKeepsOrder(c, s1, name, i);
      }
    }
  }

  lemma EraseKeepsOrder(c: Catalogue, s: Registry, name: string, i: nat)
    requires WellFormed(c, s) && name in c && i < |s.dependents[name]| && InOrder(c, s)
    ensures InOrder(c, EraseDependent(c, s, name, i))
  {
    hide Declares, Sorted;
    SortedByState(c, s, EraseDependent(c, s, name, i));
  }

  /** The two sets and the lists are right in every run, whatever fails on the way. */
  lemma {:induction false} RunsKeepOrder(c: Catalogue, calls: seq<Call>)
    ensures InOrder(c, Run(c, calls))
  {
    hide InOrder, Load, Unload, Sound;
    if calls == [] {
      FreshIsInOrder(c);
    } else {
      var s := Run(c, calls[..|calls| - 1]);
      RunsKeepOrder(c, calls[..|calls| - 1]);
      RunsAreSound(c, calls[..|calls| - 1]);
      match calls[|calls| - 1]
      case LoadCall(name) => LoadKeepsOrder(c, s, name);
      case UnloadCall(name) => UnloadKeepsOrder(c, s, name);
    }
  }

  lemma FreshIsInOrder(c: Catalogue)
    ensures InOrder(c, Fresh(c))
  {
  }
}
