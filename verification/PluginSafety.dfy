/** What every run of the plugin registry keeps, whatever throws on the way. */
module PluginSafety {
  import opened Wrappers
  import opened PluginModel

  // ----- the invariant

  /** The dependency d of p is there in an allowed version, not gone, and knows that p uses it. */
  ghost predicate Satisfied(c: Catalogue, s: Registry, p: string, d: Dependency)
    requires WellFormed(c, s)
  {
    && d.name in c
    && d.range.Contains(c[d.name].version)
    && (s.state[d.name] == Loaded || s.state[d.name] == Unloading)
    && p in s.dependents[d.name]
  }

  /** Every LOADED plugin has all its required dependencies. */
  ghost predicate Sound(c: Catalogue, s: Registry)
    requires WellFormed(c, s)
  {
    forall p, d :: p in c && s.state[p] == Loaded && d in c[p].dependencies && d.required ==> Satisfied(c, s, p, d)
  }

  ghost predicate NobodyRequires(c: Catalogue, s: Registry, name: string)
    requires WellFormed(c, s)
  {
    forall p, d :: p in c && d in c[p].dependencies && d.required && d.name == name ==> s.state[p] != Loaded
  }

  // ----- loading keeps it

  /** Loading touches no plugin that is not AVAILABLE, and only adds dependents. */
  ghost predicate OnlyLoads(c: Catalogue, s: Registry, r: Registry)
    requires WellFormed(c, s) && WellFormed(c, r)
  {
    && (forall p :: p in c && s.state[p] != Available ==> r.state[p] == s.state[p])
    && (forall p, x :: p in c && x in s.dependents[p] ==> x in r.dependents[p])
  }

  /** The first i required dependencies of `name` are loaded and linked to it. */
  ghost predicate Linked(c: Catalogue, s: Registry, name: string, i: nat)
    requires WellFormed(c, s) && name in c && i <= |c[name].dependencies|
  {
    forall j :: 0 <= j < i && c[name].dependencies[j].required ==>
      Satisfied(c, s, name, c[name].dependencies[j])
  }

  lemma OnlyLoadsReflexive(c: Catalogue, s: Registry)
    requires WellFormed(c, s)
    ensures OnlyLoads(c, s, s)
  {}

  lemma OnlyLoadsTransitive(c: Catalogue, s: Registry, m: Registry, r: Registry)
    requires WellFormed(c, s) && WellFormed(c, m) && WellFormed(c, r)
    requires OnlyLoads(c, s, m) && OnlyLoads(c, m, r)
    ensures OnlyLoads(c, s, r)
  {}

  lemma StartLoadIsSound(c: Catalogue, s: Registry, name: string)
    requires WellFormed(c, s) && Sound(c, s) && name in c && s.state[name] == Available
    ensures Sound(c, WithState(c, s, name, Loading)) && OnlyLoads(c, s, WithState(c, s, name, Loading))
  {
    var r := WithState(c, s, name, Loading);
    forall p, d | p in c && r.state[p] == Loaded && d in c[p].dependencies && d.required ensures Satisfied(c, r, p, d) {
      assert Satisfied(c, s, p, d);
    }
  }

  lemma FinishLoadIsSound(c: Catalogue, s0: Registry, s: Registry, name: string)
    requires WellFormed(c, s) && Sound(c, s) && name in c && s.state[name] == Loading
    requires WellFormed(c, s0) && OnlyLoads(c, s0, s) && s0.state[name] == Available
    requires Linked(c, s, name, |c[name].dependencies|)
    ensures Sound(c, FinishLoad(c, s, name)) && OnlyLoads(c, s0, FinishLoad(c, s, name))
  {
    var r := FinishLoad(c, s, name);
    forall p, d | p in c && r.state[p] == Loaded && d in c[p].dependencies && d.required ensures Satisfied(c, r, p, d) {
      assert Satisfied(c, s, p, d);
    }
  }

  lemma LinkIsSound(c: Catalogue, s: Registry, name: string, dep: string)
    requires WellFormed(c, s) && Sound(c, s) && name in c && dep in c
    ensures Sound(c, Link(c, s, name, dep)) && OnlyLoads(c, s, Link(c, s, name, dep))
    ensures Link(c, s, name, dep).state == s.state
    ensures name in Link(c, s, name, dep).dependents[dep]
  {
    var r := Link(c, s, name, dep);
    forall p, d | p in c && r.state[p] == Loaded && d in c[p].dependencies && d.required ensures Satisfied(c, r, p, d) {
      assert Satisfied(c, s, p, d);
    }
  }

  lemma NothingLinkedYet(c: Catalogue, s: Registry, name: string)
    requires WellFormed(c, s) && name in c
    ensures Linked(c, s, name, 0)
  {}

  lemma LinkedGrows(c: Catalogue, s: Registry, r: Registry, name: string, i: nat)
    requires WellFormed(c, s) && WellFormed(c, r) && OnlyLoads(c, s, r)
    requires name in c && i <= |c[name].dependencies| && Linked(c, s, name, i)
    ensures Linked(c, r, name, i)
  {
    forall j | 0 <= j < i && c[name].dependencies[j].required ensures Satisfied(c, r, name, c[name].dependencies[j]) {
      assert Satisfied(c, s, name, c[name].dependencies[j]);
    }
  }

  lemma {:induction false} LoadIsSound(c: Catalogue, s: Registry, name: string)
    requires WellFormed(c, s) && Sound(c, s)
    ensures var (error, r) := Load(c, s, name);
            Sound(c, r) && OnlyLoads(c, s, r) && (error.None? ==> name in c && r.state[name] == Loaded)
    decreases InState(s, Available), 0, 0
  {
    if name in c && LoadErrors(c[name], s.state[name]).None? {
      assert name in InState(s, Available);
      StartLoadIsSound(c, s, name);
      LoadAllowedIsSound(c, s, name);
    }
  }

  lemma {:induction false} LoadAllowedIsSound(c: Catalogue, s: Registry, name: string)
    requires WellFormed(c, s) && name in c && s.state[name] == Available
    requires Sound(c, WithState(c, s, name, Loading)) && OnlyLoads(c, s, WithState(c, s, name, Loading))
    ensures var (error, r) := LoadAllowed(c, WithState(c, s, name, Loading), name);
            Sound(c, r) && OnlyLoads(c, s, r) && (error.None? ==> r.state[name] == Loaded)
    decreases InState(WithState(c, s, name, Loading), Available), 2, 0
  {
    hide Sound, Linked;
    var s1 := WithState(c, s, name, Loading);
    NothingLinkedYet(c, s1, name);
    LoadDependenciesIsSound(c, s1, name, 0);
    var (error, s2) := LoadDependencies(c, s1, name, 0);
    OnlyLoadsTransitive(c, s, s1, s2);
    if error.None? {
      FinishLoadIsSound(c, s, s2, name);
    }
  }

  lemma {:induction false} LoadDependenciesIsSound(c: Catalogue, s: Registry, name: string, i: nat)
    requires WellFormed(c, s) && Sound(c, s) && name in c && s.state[name] == Loading
    requires i <= |c[name].dependencies| && Linked(c, s, name, i)
    ensures var (error, r) := LoadDependencies(c, s, name, i);
            Sound(c, r) && OnlyLoads(c, s, r) && (error.None? ==> Linked(c, r, name, |c[name].dependencies|))
    decreases InState(s, Available), 1, |c[name].dependencies| - i
  {
    hide Sound, OnlyLoads, Linked, LoadDependencies, LoadDependency;
    LoadDependenciesUnfolds(c, s, name, i);
    OnlyLoadsReflexive(c, s);
    if i < |c[name].dependencies| {
      var d := c[name].dependencies[i];
      var (error, s1) := LoadDependency(c, s, d);
      var (_, r) := LoadDependencies(c, s, name, i);
      LoadDependencyStep(c, s, name, i);
      if error.None? {
        var s2 := Link(c, s1, name, d.name);
        LoadDependenciesIsSound(c, s2, name, i + 1);
        OnlyLoadsTransitive(c, s, s2, r);
      } else if !d.required {
        LoadDependenciesIsSound(c, s1, name, i + 1);
        OnlyLoadsTransitive(c, s, s1, r);
      }
    }
  }

  /** One pass through the loop: the next dependency is linked, or was optional, or the loop throws. */
  lemma {:induction false} LoadDependencyStep(c: Catalogue, s: Registry, name: string, i: nat)
    requires WellFormed(c, s) && Sound(c, s) && name in c && s.state[name] == Loading
    requires i < |c[name].dependencies| && Linked(c, s, name, i)
    ensures var d := c[name].dependencies[i]; var (error, s1) := LoadDependency(c, s, d);
            Sound(c, s1) && OnlyLoads(c, s, s1) && s1.state[name] == Loading &&
            (error.None? ==> var s2 := Link(c, s1, name, d.name);
              Sound(c, s2) && OnlyLoads(c, s, s2) && Linked(c, s2, name, i + 1) && s2.state[name] == Loading) &&
            (error.Some? && !d.required ==> Linked(c, s1, name, i + 1))
    decreases InState(s, Available), 0, 2
  {
    var d := c[name].dependencies[i];
    LoadDependencyIsSound(c, s, d);
    var (error, s1) := LoadDependency(c, s, d);
    LinkedGrows(c, s, s1, name, i);
    if error.None? {
      LinkIsSound(c, s1, name, d.name);
      var s2 := Link(c, s1, name, d.name);
      OnlyLoadsTransitive(c, s, s1, s2);
      LinkedGrows(c, s1, s2, name, i);
    }
  }

  lemma {:induction false} LoadDependencyIsSound(c: Catalogue, s: Registry, d: Dependency)
    requires WellFormed(c, s) && Sound(c, s)
    ensures var (error, r) := LoadDependency(c, s, d);
            Sound(c, r) && OnlyLoads(c, s, r) &&
            (error.None? ==> d.name in c && d.range.Contains(c[d.name].version) && r.state[d.name] == Loaded)
    decreases InState(s, Available), 0, 1
  {
    hide Sound, OnlyLoads;
    OnlyLoadsReflexive(c, s);
    LoadIsSound(c, s, d.name);
  }

  // ----- unloading keeps it

  ghost predicate OnlyUnloads(c: Catalogue, s: Registry, r: Registry)
    requires WellFormed(c, s) && WellFormed(c, r)
  {
    forall p :: p in c && s.state[p] == Available ==> r.state[p] == Available
  }

  /** From index n on, the dependents of `name` have been unloaded. */
  ghost predicate GoneFrom(c: Catalogue, s: Registry, name: string, n: nat)
    requires WellFormed(c, s) && name in c
  {
    forall k :: n <= k < |s.dependents[name]| ==> s.state[s.dependents[name][k]] == Available
  }

  /** An unload that returns normally has taken down everything that required the plugin. */
  lemma {:induction false} UnloadIsSound(c: Catalogue, s: Registry, name: string)
    requires WellFormed(c, s) && Sound(c, s)
    ensures var (error, r) := Unload(c, s, name);
            Sound(c, r) && OnlyUnloads(c, s, r) &&
            (error.None? ==> name in c && r.state[name] == Available && NobodyRequires(c, r, name))
    decreases InState(s, Loaded) - {name}, 2, 0
  {
    if name in c && UnloadErrors(c[name], s.state[name]).None? {
      StartUnloadIsSound(c, s, name);
      UnloadAllowedIsSound(c, WithState(c, s, name, Unloading), name);
    }
  }

  lemma StartUnloadIsSound(c: Catalogue, s: Registry, name: string)
    requires WellFormed(c, s) && Sound(c, s) && name in c && s.state[name] != Available
    ensures Sound(c, WithState(c, s, name, Unloading)) && OnlyUnloads(c, s, WithState(c, s, name, Unloading))
  {
    var r := WithState(c, s, name, Unloading);
    forall p, d | p in c && r.state[p] == Loaded && d in c[p].dependencies && d.required ensures Satisfied(c, r, p, d) {
      assert Satisfied(c, s, p, d);
    }
  }

  lemma {:induction false} UnloadAllowedIsSound(c: Catalogue, s: Registry, name: string)
    requires WellFormed(c, s) && Sound(c, s) && name in c && s.state[name] == Unloading
    ensures var (error, r) := UnloadAllowed(c, s, name);
            Sound(c, r) && OnlyUnloads(c, s, r) &&
            (error.None? ==> r.state[name] == Available && NobodyRequires(c, r, name))
    decreases InState(s, Loaded), 1, 0
  {
    hide Sound, KeepsInTransition;
    UnloadDependentsIsSound(c, s, name, |s.dependents[name]|);
    var (error, s1) := UnloadDependents(c, s, name, |s.dependents[name]|);
    if error.None? {
      FinishUnloadIsSound(c, s1, name);
    }
  }

  lemma FinishUnloadIsSound(c: Catalogue, s: Registry, name: string)
    requires WellFormed(c, s) && Sound(c, s) && name in c && GoneFrom(c, s, name, 0)
    ensures Sound(c, FinishUnload(c, s, name)) && NobodyRequires(c, FinishUnload(c, s, name), name)
  {
    var r := FinishUnload(c, s, name);
    forall p, d | p in c && d in c[p].dependencies && d.required && d.name == name ensures r.state[p] != Loaded {
      assert s.state[p] == Loaded ==> Satisfied(c, s, p, d);
    }
  }

  lemma {:induction false} UnloadDependentsIsSound(c: Catalogue, s: Registry, name: string, n: nat)
    requires WellFormed(c, s) && Sound(c, s) && name in c && s.state[name] == Unloading
    requires n <= |s.dependents[name]| && GoneFrom(c, s, name, n)
    ensures var (error, r) := UnloadDependents(c, s, name, n);
            Sound(c, r) && OnlyUnloads(c, s, r) && (error.None? ==> GoneFrom(c, r, name, 0))
    decreases InState(s, Loaded), 0, n
  {
    hide Sound, OnlyUnloads, GoneFrom, KeepsInTransition, UnloadDependents, UnloadDependent, InState, WellFormed;
    UnloadDependentsUnfolds(c, s, name, n);
    OnlyUnloadsReflexive(c, s);
    if n == 0 {
    } else {
      UnloadDependentIsSound(c, s, name, n - 1);
      var (error, s1) := UnloadDependent(c, s, name, n - 1);
      if error.None? {
        UnloadDependentsIsSound(c, s1, name, n - 1);
        OnlyUnloadsTransitive(c, s, s1, UnloadDependents(c, s1, name, n - 1).1);
      }
    }
  }

  lemma {:induction false} UnloadDependentIsSound(c: Catalogue, s: Registry, name: string, i: nat)
    requires WellFormed(c, s) && Sound(c, s) && name in c && s.state[name] == Unloading
    requires i < |s.dependents[name]| && GoneFrom(c, s, name, i + 1)
    ensures var (error, r) := UnloadDependent(c, s, name, i);
            Sound(c, r) && OnlyUnloads(c, s, r) && (error.None? ==> GoneFrom(c, r, name, i))
    decreases InState(s, Loaded), 0, i
  {
    hide Sound, OnlyUnloads, NobodyRequires, KeepsInTransition, GoneFrom;
    GoneFromExtends(c, s, name, i);
    OnlyUnloadsReflexive(c, s);
    var dependent := s.dependents[name][i];
    if s.state[dependent] == Loaded {
      assert dependent in InState(s, Loaded);
      UnloadIsSound(c, s, dependent);
      var (error, s1) := Unload(c, s, dependent);
      UnloadLeavesAlone(c, s, dependent, name);
      if error.None? {
        GoneFromKept(c, s, s1, name, i);
        EraseDependentIsSound(c, s1, name, i);
        EraseKeepsStates(c, s, s1, name, i);
      }
    }
  }

  lemma OnlyUnloadsReflexive(c: Catalogue, s: Registry)
    requires WellFormed(c, s)
    ensures OnlyUnloads(c, s, s)
  {}

  lemma OnlyUnloadsTransitive(c: Catalogue, s: Registry, m: Registry, r: Registry)
    requires WellFormed(c, s) && WellFormed(c, m) && WellFormed(c, r)
    requires OnlyUnloads(c, s, m) && OnlyUnloads(c, m, r)
    ensures OnlyUnloads(c, s, r)
  {}

  lemma UnloadLeavesAlone(c: Catalogue, s: Registry, name: string, other: string)
    requires WellFormed(c, s) && name in c && other in c && s.state[name] == Loaded && s.state[other] == Unloading
    ensures Unload(c, s, name).1.state[other] == Unloading
    ensures Unload(c, s, name).1.dependents[other] == s.dependents[other]
  {}

  lemma GoneFromExtends(c: Catalogue, s: Registry, name: string, i: nat)
    requires WellFormed(c, s) && name in c && i < |s.dependents[name]| && GoneFrom(c, s, name, i + 1)
    ensures s.state[s.dependents[name][i]] == Available ==> GoneFrom(c, s, name, i)
  {}

  lemma GoneFromKept(c: Catalogue, s: Registry, r: Registry, name: string, i: nat)
    requires WellFormed(c, s) && WellFormed(c, r) && OnlyUnloads(c, s, r) && name in c && i < |s.dependents[name]|
    requires r.dependents[name] == s.dependents[name] && GoneFrom(c, s, name, i + 1)
    requires r.state[s.dependents[name][i]] == Available
    ensures GoneFrom(c, r, name, i)
  {}

  lemma EraseKeepsStates(c: Catalogue, s: Registry, m: Registry, name: string, i: nat)
    requires WellFormed(c, s) && WellFormed(c, m) && OnlyUnloads(c, s, m) && name in c && i < |m.dependents[name]|
    ensures OnlyUnloads(c, s, EraseDependent(c, m, name, i))
  {}

  lemma EraseDependentIsSound(c: Catalogue, s: Registry, name: string, i: nat)
    requires WellFormed(c, s) && Sound(c, s) && name in c && i < |s.dependents[name]| && GoneFrom(c, s, name, i)
    ensures Sound(c, EraseDependent(c, s, name, i)) && GoneFrom(c, EraseDependent(c, s, name, i), name, i)
  {
    var r := EraseDependent(c, s, name, i);
    forall p, d | p in c && r.state[p] == Loaded && d in c[p].dependencies && d.required ensures Satisfied(c, r, p, d) {
      assert Satisfied(c, s, p, d);
    }
  }

  // ----- runs

  datatype Call = LoadCall(name: string) | UnloadCall(name: string)

  /** The registry right after scanning: everything is AVAILABLE. */
  function Fresh(c: Catalogue): (s: Registry)
    ensures WellFormed(c, s)
  {
    Registry(map p | p in c :: Available, map p | p in c :: [], map p | p in c :: [], {}, c.Keys)
  }

  function Perform(c: Catalogue, s: Registry, call: Call): (r: Registry)
    requires WellFormed(c, s)
    ensures WellFormed(c, r)
  {
    match call
    case LoadCall(name) => Load(c, s, name).1
    case UnloadCall(name) => Unload(c, s, name).1
  }

  /** Any sequence of calls from outside, including ones that throw and leave their work half done. */
  function Run(c: Catalogue, calls: seq<Call>): (s: Registry)
    ensures WellFormed(c, s)
  {
    if calls == [] then Fresh(c) else Perform(c, Run(c, calls[..|calls| - 1]), calls[|calls| - 1])
  }

  lemma {:induction false} RunsAreSound(c: Catalogue, calls: seq<Call>)
    ensures Sound(c, Run(c, calls))
  {
    if calls == [] {
    } else {
      var s := Run(c, calls[..|calls| - 1]);
      RunsAreSound(c, calls[..|calls| - 1]);
      match calls[|calls| - 1]
      case LoadCall(name) => LoadIsSound(c, s, name);
      case UnloadCall(name) => UnloadIsSound(c, s, name);
    }
  }

  lemma UnloadTakesDownUsers(c: Catalogue, calls: seq<Call>, name: string)
    ensures Unload(c, Run(c, calls), name).0.None? ==> NobodyRequires(c, Unload(c, Run(c, calls), name).1, name)
  {
    RunsAreSound(c, calls);
    UnloadIsSound(c, Run(c, calls), name);
  }

  /**
    A load that gets past its checks and then throws leaves its plugin in LOADING, after any history; loading it again
    is then refused without a change.
   */
  lemma FailedLoadSticks(c: Catalogue, calls: seq<Call>, name: string)
    requires name in c && LoadErrors(c[name], Run(c, calls).state[name]).None?
    ensures var (error, r) := Load(c, Run(c, calls), name);
            && r.state[name] == (if error.Some? then Loading else Loaded)
            && (error.Some? ==> Load(c, r, name) == (Some(CircularDependency), r))
  {
    hide Run, Load, LoadErrors, Sound;
    RunsAreSound(c, calls);
    LoadSticks(c, Run(c, calls), name);
    var r := Load(c, Run(c, calls), name).1;
    if r.state[name] == Loading {
      InTransitionIsRefused(c, r, name);
    }
  }

  /** A load that throws leaves the registry as it was if and only if its own checks refuse it. */
  lemma FailedLoadIsCleanIffRefused(c: Catalogue, calls: seq<Call>, name: string)
    requires name in c && Load(c, Run(c, calls), name).0.Some?
    ensures Load(c, Run(c, calls), name).1 == Run(c, calls) <==> LoadErrors(c[name], Run(c, calls).state[name]).Some?
  {
    hide Run, LoadAllowed, Sound;
    RunsAreSound(c, calls);
    if LoadErrors(c[name], Run(c, calls).state[name]).None? {
      LoadSticks(c, Run(c, calls), name);
    }
  }

  /** The least case: a plugin that requires one nobody has. */
  lemma MissingDependencySticks(name: string, missing: string, range: VersionRange, version: Version)
    requires name != missing
    ensures var info := PluginInfo(version, true, true, [Dependency(missing, range, true)]);
            var c := map[name := info];
            var s := Run(c, [LoadCall(name)]);
            Load(c, Fresh(c), name).0.Some? && s.state[name] == Loading && s != Fresh(c)
  {
    var c := map[name := PluginInfo(version, true, true, [Dependency(missing, range, true)])];
    var s := WithState(c, Fresh(c), name, Loading);
    assert LoadDependencies(c, s, name, 0) == (Some(NoSuchPlugin), s);
    assert [LoadCall(name)][..0] == [];
    assert Run(c, []) == Fresh(c);
  }

  /**
    An unload that gets past its checks and then throws leaves its plugin in UNLOADING, after any history. It may be
    tried again, but until then a load of the plugin is refused without a change.
   */
  lemma FailedUnloadSticks(c: Catalogue, calls: seq<Call>, name: string)
    requires name in c && UnloadErrors(c[name], Run(c, calls).state[name]).None?
    ensures var (error, r) := Unload(c, Run(c, calls), name);
            && r.state[name] == (if error.Some? then Unloading else Available)
            && (error.Some? ==> UnloadErrors(c[name], r.state[name]).None?
                                && Load(c, r, name) == (Some(CircularDependency), r))
  {
    hide Run, Unload;
    UnloadSticks(c, Run(c, calls), name);
    var r := Unload(c, Run(c, calls), name).1;
    if r.state[name] == Unloading {
      InTransitionIsRefused(c, r, name);
    }
  }

  lemma UnloadSticks(c: Catalogue, s: Registry, name: string)
    requires WellFormed(c, s) && name in c && UnloadErrors(c[name], s.state[name]).None?
    ensures var (error, r) := Unload(c, s, name); r.state[name] == if error.Some? then Unloading else Available
  {
    hide UnloadDependents, InState, KeepsInTransition;
  }

  /**
    An unload that throws leaves the registry as it was if and only if its own checks refuse it, unless it is one of a
    plugin that is stuck in UNLOADING already.
   */
  lemma FailedUnloadIsCleanIffRefused(c: Catalogue, calls: seq<Call>, name: string)
    requires name in c && Run(c, calls).state[name] != Unloading && Unload(c, Run(c, calls), name).0.Some?
    ensures Unload(c, Run(c, calls), name).1 == Run(c, calls)
            <==> UnloadErrors(c[name], Run(c, calls).state[name]).Some?
  {
    hide Run, UnloadAllowed;
    if UnloadErrors(c[name], Run(c, calls).state[name]).None? {
      UnloadSticks(c, Run(c, calls), name);
    }
  }

  /** The least case: a plugin under one that may not be unloaded. Trying again is no help then. */
  lemma FixedDependentSticks(name: string, user: string, range: VersionRange, version: Version)
    requires name != user && range.Contains(version)
    ensures var c := map[name := PluginInfo(version, true, true, []),
                         user := PluginInfo(version, true, false, [Dependency(name, range, true)])];
            var s := Run(c, [LoadCall(user), UnloadCall(name)]);
            && s.state[name] == Unloading && s.state[user] == Loaded
            && Unload(c, s, name) == (Some(DependentFailed(user, NotDynamic)), s)
  {
    hide Load, Unload, Run, Fresh;
    var c := map[name := PluginInfo(version, true, true, []),
                 user := PluginInfo(version, true, false, [Dependency(name, range, true)])];
    UserIsLoaded(c, name, user);
    TwoCalls(c, LoadCall(user), UnloadCall(name));
    var loaded := Load(c, Fresh(c), user).1;
    FixedDependent(c, loaded, name, user);
    FixedDependent(c, Unload(c, loaded, name).1, name, user);
  }

  lemma TwoCalls(c: Catalogue, first: Call, second: Call)
    ensures Run(c, [first, second]) == Perform(c, Perform(c, Fresh(c), first), second)
  {
    hide Perform;
    assert [first, second][..1] == [first] && [first][..0] == [];
    assert Run(c, []) == Fresh(c) && Run(c, [first]) == Perform(c, Fresh(c), first);
  }

  /** What loading the one plugin makes of the two. */
  lemma UserIsLoaded(c: Catalogue, name: string, user: string)
    requires name != user && c.Keys == {name, user} && c[name].dependencies == [] && |c[user].dependencies| == 1
    requires c[name].allowDynamicLoad && c[user].allowDynamicLoad
    requires var d := c[user].dependencies[0]; d.name == name && d.range.Contains(c[name].version)
    ensures var s := Load(c, Fresh(c), user).1;
            s.state[name] == s.state[user] == Loaded && s.dependents[name] == [user]
  {
    hide InState;
    var s := WithState(c, Fresh(c), user, Loading);
    var t := WithState(c, s, name, Loading);
    assert LoadDependencies(c, t, name, 0) == (None, t);
    assert Load(c, s, name) == (None, FinishLoad(c, t, name));
    var linked := Link(c, FinishLoad(c, t, name), user, name);
    LoadDependenciesUnfolds(c, s, user, 0);
    LoadDependenciesUnfolds(c, linked, user, 1);
    assert Load(c, Fresh(c), user) == (None, FinishLoad(c, linked, user));
  }

  lemma FixedDependent(c: Catalogue, s: Registry, name: string, user: string)
    requires name != user && c.Keys == {name, user} && WellFormed(c, s)
    requires c[name].allowDynamicUnload && !c[user].allowDynamicUnload
    requires s.dependents[name] == [user] && s.state[user] == Loaded && s.state[name] != Available
    ensures Unload(c, s, name) == (Some(DependentFailed(user, NotDynamic)), WithState(c, s, name, Unloading))
    ensures s.state[name] == Unloading ==> WithState(c, s, name, Unloading) == s
  {
    hide UnloadDependents, InState, KeepsInTransition;
    UserRefuses(c, WithState(c, s, name, Unloading), name, user);
  }

  lemma UserRefuses(c: Catalogue, s: Registry, name: string, user: string)
    requires name != user && c.Keys == {name, user} && WellFormed(c, s) && !c[user].allowDynamicUnload
    requires s.dependents[name] == [user] && s.state[user] == Loaded && s.state[name] == Unloading
    ensures UnloadDependents(c, s, name, 1) == (Some(DependentFailed(user, NotDynamic)), s)
  {
    hide UnloadDependents, InState, KeepsInTransition;
    UnloadDependentsUnfolds(c, s, name, 1);
  }

  /** A plugin in LOADING or UNLOADING stays there, and is refused, until it is itself unloaded, whatever is called. */
  lemma {:induction false} StuckUntilUnloaded(c: Catalogue, calls: seq<Call>, more: seq<Call>, name: string)
    requires name in c && InTransition(Run(c, calls).state[name]) && UnloadCall(name) !in more
    ensures var s := Run(c, calls + more);
            s.state[name] == Run(c, calls).state[name] && Load(c, s, name) == (Some(CircularDependency), s)
  {
    hide Load, Run, Perform, Sound;
    if more == [] {
      assert calls + more == calls;
    } else {
      var init, last := more[..|more| - 1], more[|more| - 1];
      assert more == init + [last];
      RunOneMore(c, calls, more);
      StuckUntilUnloaded(c, calls, init, name);
      RunsAreSound(c, calls + init);
      CallKeepsTransition(c, Run(c, calls + init), last, name);
    }
    InTransitionIsRefused(c, Run(c, calls + more), name);
  }

  predicate InTransition(state: PluginState) {
    state == Loading || state == Unloading
  }

  lemma RunOneMore(c: Catalogue, calls: seq<Call>, more: seq<Call>)
    requires more != []
    ensures Run(c, calls + more) == Perform(c, Run(c, calls + more[..|more| - 1]), more[|more| - 1])
  {
    hide Perform;
    assert (calls + more)[..|calls + more| - 1] == calls + more[..|more| - 1];
  }

  lemma CallKeepsTransition(c: Catalogue, s: Registry, call: Call, name: string)
    requires WellFormed(c, s) && Sound(c, s) && name in c && InTransition(s.state[name]) && call != UnloadCall(name)
    ensures name in Perform(c, s, call).state && Perform(c, s, call).state[name] == s.state[name]
  {
    hide Sound, Load, Unload;
    match call
    case LoadCall(other) => LoadIsSound(c, s, other);
    case UnloadCall(other) => assert KeepsInTransition(s, Unload(c, s, other).1, other);
  }

  lemma LoadSticks(c: Catalogue, s: Registry, name: string)
    requires WellFormed(c, s) && Sound(c, s) && name in c && LoadErrors(c[name], s.state[name]).None?
    ensures var (error, r) := Load(c, s, name); r.state[name] == if error.Some? then Loading else Loaded
  {
    hide Sound, Linked, LoadDependencies, InState;
    StartLoadIsSound(c, s, name);
    var s1 := WithState(c, s, name, Loading);
    NothingLinkedYet(c, s1, name);
    LoadDependenciesIsSound(c, s1, name, 0);
  }

  lemma InTransitionIsRefused(c: Catalogue, s: Registry, name: string)
    requires WellFormed(c, s) && name in c && InTransition(s.state[name])
    ensures Load(c, s, name) == (Some(CircularDependency), s)
  {
    hide LoadAllowed, InState;
  }

  // ----- cycles

  /** Every plugin of b has a required dependency in b again, as the members of a dependency cycle do. */
  ghost predicate SelfSupporting(c: Catalogue, b: set<string>) {
    forall p :: p in b && p in c ==> RequiresOneOf(c, p, b)
  }

  ghost predicate RequiresOneOf(c: Catalogue, p: string, b: set<string>)
    requires p in c
  {
    exists i :: 0 <= i < |c[p].dependencies| && c[p].dependencies[i].required && c[p].dependencies[i].name in b
  }

  ghost predicate NoneLoaded(s: Registry, b: set<string>) {
    b !! InState(s, Loaded)
  }

  lemma {:induction false} LoadKeepsOut(c: Catalogue, s: Registry, name: string, b: set<string>)
    requires WellFormed(c, s) && Sound(c, s) && SelfSupporting(c, b) && NoneLoaded(s, b)
    ensures NoneLoaded(Load(c, s, name).1, b)
    decreases InState(s, Available), 0, 0
  {
    hide Sound, OnlyLoads;
    if name in c && LoadErrors(c[name], s.state[name]).None? {
      assert name in InState(s, Available);
      StartLoadIsSound(c, s, name);
      assert name in b ==> LeadsInto(c, name, 0, b);
      var s1 := WithState(c, s, name, Loading);
      LoadDependenciesKeepsOut(c, s1, name, 0, b);
    }
  }

  /** From its i-th dependency on, `name` requires a member of b. */
  ghost predicate LeadsInto(c: Catalogue, name: string, i: nat, b: set<string>)
    requires name in c
  {
    exists j :: i <= j < |c[name].dependencies| && c[name].dependencies[j].required && c[name].dependencies[j].name in b
  }

  lemma LeadsIntoNext(c: Catalogue, name: string, i: nat, b: set<string>)
    requires name in c && i <= |c[name].dependencies|
    ensures LeadsInto(c, name, i, b) ==> i < |c[name].dependencies|
    ensures LeadsInto(c, name, i, b) ==>
              || (c[name].dependencies[i].required && c[name].dependencies[i].name in b)
              || LeadsInto(c, name, i + 1, b)
  {}

  /** The loop throws at the latest at the dependency that leads back into b. */
  lemma {:induction false} LoadDependenciesKeepsOut(c: Catalogue, s: Registry, name: string, i: nat, b: set<string>)
    requires WellFormed(c, s) && Sound(c, s) && SelfSupporting(c, b) && NoneLoaded(s, b)
    requires name in c && s.state[name] == Loading && i <= |c[name].dependencies| && Linked(c, s, name, i)
    ensures var (error, r) := LoadDependencies(c, s, name, i);
            NoneLoaded(r, b) &&
            (LeadsInto(c, name, i, b) ==> error.Some?)
    decreases InState(s, Available), 1, |c[name].dependencies| - i
  {
    hide Sound, OnlyLoads, Linked, SelfSupporting, LeadsInto, NoneLoaded, InState, LoadDependencies, LoadDependency;
    LoadDependenciesUnfolds(c, s, name, i);
    LeadsIntoNext(c, name, i, b);
    if i < |c[name].dependencies| {
      var d := c[name].dependencies[i];
      LoadDependencyStep(c, s, name, i);
      LoadDependencyKeepsOut(c, s, d, b);
      var (error, s1) := LoadDependency(c, s, d);
      if error.None? {
        var s2 := Link(c, s1, name, d.name);
        LinkKeepsOut(c, s1, name, d.name, b);
        LoadDependenciesKeepsOut(c, s2, name, i + 1, b);
      } else if !d.required {
        LoadDependenciesKeepsOut(c, s1, name, i + 1, b);
      }
    }
  }

  lemma LinkKeepsOut(c: Catalogue, s: Registry, name: string, dep: string, b: set<string>)
    requires WellFormed(c, s) && name in c && dep in c && NoneLoaded(s, b)
    ensures NoneLoaded(Link(c, s, name, dep), b)
    ensures InState(Link(c, s, name, dep), Available) == InState(s, Available)
  {}

  lemma {:induction false} LoadDependencyKeepsOut(c: Catalogue, s: Registry, d: Dependency, b: set<string>)
    requires WellFormed(c, s) && Sound(c, s) && SelfSupporting(c, b) && NoneLoaded(s, b)
    ensures var (error, r) := LoadDependency(c, s, d);
            NoneLoaded(r, b) && (d.name in b ==> error.Some?)
    decreases InState(s, Available), 0, 1
  {
    hide Sound, OnlyLoads, SelfSupporting;
    LoadKeepsOut(c, s, d.name, b);
    LoadDependencyIsSound(c, s, d);
    var (error, r) := LoadDependency(c, s, d);
    assert error.None? ==> d.name in InState(r, Loaded);
  }

  lemma {:induction false} RunsKeepOut(c: Catalogue, calls: seq<Call>, b: set<string>)
    requires SelfSupporting(c, b)
    ensures NoneLoaded(Run(c, calls), b)
  {
    if calls == [] {
    } else {
      var s := Run(c, calls[..|calls| - 1]);
      RunsKeepOut(c, calls[..|calls| - 1], b);
      RunsAreSound(c, calls[..|calls| - 1]);
      match calls[|calls| - 1]
      case LoadCall(name) => LoadKeepsOut(c, s, name, b);
      case UnloadCall(name) =>
    }
  }

  /** cycle[0] requires cycle[1] requires ... requires cycle[0]. */
  ghost predicate IsCycle(c: Catalogue, cycle: seq<string>) {
    && cycle != []
    && (forall k :: 0 <= k < |cycle| ==>
          cycle[k] in c && Requires(c, cycle[k], cycle[if k + 1 == |cycle| then 0 else k + 1]))
  }

  ghost predicate Requires(c: Catalogue, p: string, q: string)
    requires p in c
  {
    exists i :: 0 <= i < |c[p].dependencies| && c[p].dependencies[i].required && c[p].dependencies[i].name == q
  }

  /** No plugin on a cycle of required dependencies is LOADED in any run. */
  lemma CyclesAreNeverLoaded(c: Catalogue, calls: seq<Call>, cycle: seq<string>, k: nat)
    requires IsCycle(c, cycle) && k < |cycle|
    ensures Run(c, calls).state[cycle[k]] != Loaded
  {
    var b := set p | p in cycle;
    forall p | p in b ensures RequiresOneOf(c, p, b) {
      var j :| 0 <= j < |cycle| && cycle[j] == p;
      assert Requires(c, p, cycle[if j + 1 == |cycle| then 0 else j + 1]);
    }
    RunsKeepOut(c, calls, b);
    assert cycle[k] in b;
  }
}
