/** What the registry's errors tell: which call they come from, and along which dependencies they have come up. */
module PluginErrors {
  import opened PluginBooks
  import opened PluginModel
  import opened PluginSafety
  import opened Wrappers

  ghost predicate Requires(c: Catalogue, name: string, d: Dependency) {
    name in c && d in c[name].dependencies && d.required
  }

  /**
    Why a plugin cannot be loaded: it is itself refused, or something it requires is missing, has a version that is not
    allowed, or cannot be loaded in turn.
   */
  ghost predicate ExplainsLoad(c: Catalogue, name: string, error: Error)
    decreases error
  {
    match error
    case NoSuchPlugin => name !in c || exists d :: Requires(c, name, d) && d.name !in c
    case VersionNotAllowed =>
      exists d :: Requires(c, name, d) && d.name in c && !d.range.Contains(c[d.name].version)
    case CircularDependency => name in c
    case NotDynamic => name in c && !c[name].allowDynamicLoad
    case AlreadyLoaded => name in c && c[name].allowDynamicLoad
    case DependencyFailed(dep, cause) =>
      && (exists d :: Requires(c, name, d) && d.name == dep && dep in c && d.range.Contains(c[dep].version))
      && cause != AlreadyLoaded && ExplainsLoad(c, dep, cause)
    case _ => false
  }

  lemma {:induction false} LoadSays(c: Catalogue, s: Registry, name: string)
    requires WellFormed(c, s)
    ensures var error := Load(c, s, name).0; error.Some? ==> ExplainsLoad(c, name, error.value)
    ensures name in c && s.state[name] == Available ==> Load(c, s, name).0 != Some(AlreadyLoaded)
    decreases InState(s, Available), 0, 0
  {
    hide LoadDependencies;
    if name in c && LoadErrors(c[name], s.state[name]).None? {
      assert name in InState(s, Available);
      DependenciesSay(c, WithState(c, s, name, Loading), name, 0);
    }
  }

  lemma {:induction false} DependenciesSay(c: Catalogue, s: Registry, name: string, i: nat)
    requires WellFormed(c, s) && name in c && i <= |c[name].dependencies|
    ensures var error := LoadDependencies(c, s, name, i).0;
            error.Some? ==> error != Some(AlreadyLoaded) && ExplainsLoad(c, name, error.value)
    decreases InState(s, Available), 1, |c[name].dependencies| - i
  {
    hide LoadDependencies, LoadDependency, InState, WellFormed, ExplainsLoad;
    LoadDependenciesUnfolds(c, s, name, i);
    if i == |c[name].dependencies| {
    } else {
      var d := c[name].dependencies[i];
      var (error, s1) := LoadDependency(c, s, d);
      if error.None? {
        SameStates(c, s1, name, d.name);
        DependenciesSay(c, Link(c, s1, name, d.name), name, i + 1);
      } else if d.required {
        DependencySays(c, s, name, d);
      } else {
        DependenciesSay(c, s1, name, i + 1);
      }
    }
  }

  lemma SameStates(c: Catalogue, s: Registry, name: string, dep: string)
    requires WellFormed(c, s) && name in c && dep in c
    ensures InState(Link(c, s, name, dep), Available) == InState(s, Available)
  {
  }

  lemma {:induction false} DependencySays(c: Catalogue, s: Registry, name: string, d: Dependency)
    requires WellFormed(c, s) && Requires(c, name, d)
    ensures var error := LoadDependency(c, s, d).0;
            error.Some? ==> error != Some(AlreadyLoaded) && ExplainsLoad(c, name, error.value)
    decreases InState(s, Available), 0, 1
  {
    hide Load, VersionRange.Contains;
    if d.name in c && s.state[d.name] != Loaded {
      LoadSays(c, s, d.name);
      LoadedOnlyIfLoaded(c, s, d.name);
    }
  }

  lemma LoadedOnlyIfLoaded(c: Catalogue, s: Registry, name: string)
    requires WellFormed(c, s) && name in c && s.state[name] != Loaded
    requires s.state[name] == Available ==> Load(c, s, name).0 != Some(AlreadyLoaded)
    ensures Load(c, s, name).0 != Some(AlreadyLoaded)
  {
    hide LoadAllowed;
  }

  /** By state, in the order in which the checks are made; a plugin that passes them fails for what it requires. */
  lemma LoadIsRefused(c: Catalogue, s: Registry, name: string)
    requires WellFormed(c, s) && name in c
    ensures var (error, st) := (Load(c, s, name).0, s.state[name]);
            && (st == Loading || st == Unloading ==> error == Some(CircularDependency))
            && (st == Loaded ==> error == Some(if c[name].allowDynamicLoad then AlreadyLoaded else NotDynamic))
            && (st == Available && !c[name].allowDynamicLoad ==> error == Some(NotDynamic))
            && (st == Available && c[name].allowDynamicLoad && error.Some? ==>
                  exists d :: Requires(c, name, d) && Blames(c, d, error.value))
  {
    hide LoadDependencies, Blames;
    if LoadErrors(c[name], s.state[name]).None? {
      DependenciesBlame(c, WithState(c, s, name, Loading), name, 0);
    }
  }

  /** The error is about this dependency. */
  ghost predicate Blames(c: Catalogue, d: Dependency, error: Error) {
    || (error == NoSuchPlugin && d.name !in c)
    || (error == VersionNotAllowed && d.name in c && !d.range.Contains(c[d.name].version))
    || (error.DependencyFailed? && error.name == d.name && d.name in c && d.range.Contains(c[d.name].version))
  }

  lemma {:induction false} DependenciesBlame(c: Catalogue, s: Registry, name: string, i: nat)
    requires WellFormed(c, s) && name in c && i <= |c[name].dependencies|
    ensures var error := LoadDependencies(c, s, name, i).0;
            error.Some? ==> exists d :: Requires(c, name, d) && Blames(c, d, error.value)
    decreases |c[name].dependencies| - i
  {
    hide LoadDependencies, LoadDependency, WellFormed, Blames;
    LoadDependenciesUnfolds(c, s, name, i);
    if i == |c[name].dependencies| {
    } else {
      var d := c[name].dependencies[i];
      var (error, s1) := LoadDependency(c, s, d);
      if error.None? {
        DependenciesBlame(c, Link(c, s1, name, d.name), name, i + 1);
      } else if d.required {
        DependencyIsBlamed(c, s, d);
        assert Requires(c, name, d);
      } else {
        DependenciesBlame(c, s1, name, i + 1);
      }
    }
  }

  lemma DependencyIsBlamed(c: Catalogue, s: Registry, d: Dependency)
    requires WellFormed(c, s)
    ensures var error := LoadDependency(c, s, d).0; error.Some? ==> Blames(c, d, error.value)
  {
    hide Load, VersionRange.Contains;
  }

  // ----- unloading

  /** Why a plugin cannot be unloaded: it is itself refused, or a plugin that declares it as a dependency is. */
  ghost predicate ExplainsUnload(c: Catalogue, name: string, error: Error)
    decreases error
  {
    match error
    case NoSuchPlugin => name !in c
    case NotDynamic => name in c && !c[name].allowDynamicUnload
    case AlreadyUnloaded => name in c && c[name].allowDynamicUnload
    case DependentFailed(user, cause) =>
      && name in c && c[name].allowDynamicUnload && user in c && Declares(c, user, name)
      && (cause == CircularDependency
          || (cause != NoSuchPlugin && cause != AlreadyUnloaded && ExplainsUnload(c, user, cause)))
    case _ => false
  }

  lemma {:induction false} UnloadSays(c: Catalogue, s: Registry, name: string)
    requires WellFormed(c, s) && InOrder(c, s)
    ensures var error := Unload(c, s, name).0; error.Some? ==> ExplainsUnload(c, name, error.value)
    decreases InState(s, Loaded) - {name}, 2, 0
  {
    hide UnloadDependents, InOrder, KeepsInTransition, Declares;
    if name in c && UnloadErrors(c[name], s.state[name]).None? {
      var s1 := WithState(c, s, name, Unloading);
      StateOnly(c, s, name, Unloading);
      DependentsSay(c, s1, name, |s1.dependents[name]|);
    }
  }

  lemma {:induction false} DependentsSay(c: Catalogue, s: Registry, name: string, n: nat)
    requires WellFormed(c, s) && InOrder(c, s) && name in c && c[name].allowDynamicUnload
    requires s.state[name] == Unloading && n <= |s.dependents[name]|
    ensures var error := UnloadDependents(c, s, name, n).0; error.Some? ==> ExplainsUnload(c, name, error.value)
    decreases InState(s, Loaded), 0, n
  {
    hide InOrder, KeepsInTransition, UnloadDependents, UnloadDependent, WellFormed, InState, ExplainsUnload;
    UnloadDependentsUnfolds(c, s, name, n);
    if n == 0 {
    } else {
      DependentSays(c, s, name, n - 1);
      DependentKeepsOrder(c, s, name, n - 1);
      var (error, s1) := UnloadDependent(c, s, name, n - 1);
      if error.None? {
        DependentsSay(c, s1, name, n - 1);
      }
    }
  }

  lemma {:induction false} DependentSays(c: Catalogue, s: Registry, name: string, i: nat)
    requires WellFormed(c, s) && InOrder(c, s) && name in c && c[name].allowDynamicUnload
    requires s.state[name] == Unloading && i < |s.dependents[name]|
    ensures var error := UnloadDependent(c, s, name, i).0; error.Some? ==> ExplainsUnload(c, name, error.value)
    decreases InState(s, Loaded), 0, i
  {
    hide KeepsInTransition, Unload, Sorted, Declares;
    var user := s.dependents[name][i];
    assert user in c && Declares(c, user, name);
    if s.state[user] == Loaded {
      assert user in InState(s, Loaded);
      UnloadSays(c, s, user);
      LoadedIsUnloaded(c, s, user);
    }
  }

  /** Neither unknown nor unloaded already. */
  lemma LoadedIsUnloaded(c: Catalogue, s: Registry, name: string)
    requires WellFormed(c, s) && name in c && s.state[name] == Loaded
    ensures Unload(c, s, name).0 != Some(NoSuchPlugin) && Unload(c, s, name).0 != Some(AlreadyUnloaded)
  {
    hide KeepsInTransition, InState, UnloadDependents;
    DependentsNeverSay(c, WithState(c, s, name, Unloading), name, |s.dependents[name]|);
  }

  lemma {:induction false} DependentsNeverSay(c: Catalogue, s: Registry, name: string, n: nat)
    requires WellFormed(c, s) && name in c && s.state[name] == Unloading && n <= |s.dependents[name]|
    ensures var error := UnloadDependents(c, s, name, n).0; error.Some? ==> error.value.DependentFailed?
    decreases n
  {
    hide KeepsInTransition, UnloadDependents, UnloadDependent, InState;
    UnloadDependentsUnfolds(c, s, name, n);
    if n == 0 {
    } else {
      DependentSaysSo(c, s, name, n - 1);
      var (error, s1) := UnloadDependent(c, s, name, n - 1);
      if error.None? {
        DependentsNeverSay(c, s1, name, n - 1);
      }
    }
  }

  lemma DependentSaysSo(c: Catalogue, s: Registry, name: string, i: nat)
    requires WellFormed(c, s) && name in c && s.state[name] == Unloading && i < |s.dependents[name]|
    ensures var error := UnloadDependent(c, s, name, i).0; error.Some? ==> error.value.DependentFailed?
  {
    hide KeepsInTransition, Unload, InState;
  }

  /** By state, in the order in which the checks are made; a plugin that passes them fails for one that uses it. */
  lemma UnloadIsRefused(c: Catalogue, s: Registry, name: string)
    requires WellFormed(c, s) && name in c
    ensures var error := Unload(c, s, name).0;
            if !c[name].allowDynamicUnload then error == Some(NotDynamic)
            else if s.state[name] == Available then error == Some(AlreadyUnloaded)
            else error.Some? ==> error.value.DependentFailed?
  {
    hide KeepsInTransition, InState, UnloadDependents;
    if UnloadErrors(c[name], s.state[name]).None? {
      DependentsNeverSay(c, WithState(c, s, name, Unloading), name, |s.dependents[name]|);
    }
  }

  /** After any history, an error names a chain of plugins, each of which requires, or is used by, the next. */
  lemma ErrorsExplain(c: Catalogue, calls: seq<Call>, name: string)
    ensures var error := Load(c, Run(c, calls), name).0; error.Some? ==> ExplainsLoad(c, name, error.value)
    ensures var error := Unload(c, Run(c, calls), name).0; error.Some? ==> ExplainsUnload(c, name, error.value)
  {
    hide Run, Load, Unload, InOrder, ExplainsLoad, ExplainsUnload;
    RunsKeepOrder(c, calls);
    LoadSays(c, Run(c, calls), name);
    UnloadSays(c, Run(c, calls), name);
  }
}
