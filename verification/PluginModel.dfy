/**
  The plugin registry as a state machine on values: what one call of `load_plugin` or `unload_plugin`
  does to the states and dependents lists of all plugins, including the calls that throw part-way.
  The registry's objects are in PluginRegistry.dfy and are proved to move exactly as described here.
 */
module PluginModel {
  import opened Wrappers

  datatype Version = Version(major: nat, minor: nat, patch: nat) {
    predicate Less(that: Version) {
      || major < that.major
      || (major == that.major && minor < that.minor)
      || (major == that.major && minor == that.minor && patch < that.patch)
    }
  }

  datatype VersionRange = VersionRange(min: Option<Version>, max: Option<Version>) {
    predicate Contains(v: Version) {
      && (min.Some? ==> !v.Less(min.value))
      && (max.Some? ==> !max.value.Less(v))
    }
  }

  /** Versions are ordered by their first number that differs. */
  lemma VersionsAreOrdered(a: Version, b: Version, c: Version)
    ensures var x, y := [a.major, a.minor, a.patch], [b.major, b.minor, b.patch];
            a.Less(b) <==> exists i :: 0 <= i < 3 && x[i] < y[i] && forall j :: 0 <= j < i ==> x[j] == y[j]
    ensures !a.Less(a) && (a.Less(b) && b.Less(c) ==> a.Less(c)) && (a == b || a.Less(b) || b.Less(a))
  {
    var x, y := [a.major, a.minor, a.patch], [b.major, b.minor, b.patch];
    assert x[0] == a.major && x[1] == a.minor && x[2] == a.patch;
    assert y[0] == b.major && y[1] == b.minor && y[2] == b.patch;
    if a.Less(b) {
      var i := if a.major < b.major then 0 else if a.minor < b.minor then 1 else 2;
      assert x[i] < y[i] && forall j :: 0 <= j < i ==> x[j] == y[j];
    }
  }

  /** A range contains its bounds and what lies between them; a bound that is missing is none. */
  lemma RangeContains(r: VersionRange, v: Version)
    ensures r.Contains(v) <==>
              && (r.min.Some? ==> r.min.value == v || r.min.value.Less(v))
              && (r.max.Some? ==> r.max.value == v || v.Less(r.max.value))
  {
    if r.min.Some? {
      VersionsAreOrdered(r.min.value, v, v);
      VersionsAreOrdered(v, r.min.value, v);
    }
    if r.max.Some? {
      VersionsAreOrdered(r.max.value, v, v);
      VersionsAreOrdered(v, r.max.value, v);
    }
  }

  datatype Dependency = Dependency(name: string, range: VersionRange, required: bool)

  datatype PluginInfo = PluginInfo(
    version: Version,
    allowDynamicLoad: bool,
    allowDynamicUnload: bool,
    dependencies: seq<Dependency>)

  datatype PluginState = Available | Loading | Loaded | Unloading

  datatype Error =
    | NoSuchPlugin
    | VersionNotAllowed
    | CircularDependency
    | NotDynamic
    | AlreadyLoaded
    | AlreadyUnloaded
    | DependencyFailed(name: string, cause: Error)
    | DependentFailed(name: string, cause: Error)

  /** What the scanned plugins declare about themselves, by internal name. */
  type Catalogue = map<string, PluginInfo>

  /** Everything `load_plugin` and `unload_plugin` change. */
  datatype Registry = Registry(
    state: map<string, PluginState>,
    dependencies: map<string, seq<string>>,
    dependents: map<string, seq<string>>,
    loaded: set<string>,
    unloaded: set<string>)

  ghost predicate WellFormed(c: Catalogue, s: Registry) {
    && s.state.Keys == s.dependencies.Keys == s.dependents.Keys == c.Keys
    && (forall d :: d in c ==> AllIn(s.dependents[d], c.Keys))
  }

  ghost predicate AllIn(v: seq<string>, names: set<string>) {
    forall x :: x in v ==> x in names
  }

  function InState(s: Registry, st: PluginState): set<string> {
    set p | p in s.state && s.state[p] == st
  }

  function WithState(c: Catalogue, s: Registry, name: string, st: PluginState): (r: Registry)
    requires WellFormed(c, s) && name in c
    ensures WellFormed(c, r)
    ensures st != Available ==> InState(r, Available) == InState(s, Available) - {name}
    ensures st != Loaded ==> InState(r, Loaded) == InState(s, Loaded) - {name}
  {
    s.(state := s.state[name := st])
  }

  /** `CIRCULAR_DEPENDENCY | ALREADY_LOADED | DYNAMIC_ALLOWED` for a load, in the order they are tested. */
  function LoadErrors(info: PluginInfo, st: PluginState): Option<Error> {
    if st == Loading || st == Unloading then Some(CircularDependency)
    else if !info.allowDynamicLoad then Some(NotDynamic)
    else if st == Loaded then Some(AlreadyLoaded)
    else None
  }

  /** `ALREADY_LOADED | DYNAMIC_ALLOWED` for an unload: a plugin in transition passes. */
  function UnloadErrors(info: PluginInfo, st: PluginState): Option<Error> {
    if !info.allowDynamicUnload then Some(NotDynamic)
    else if st == Available then Some(AlreadyUnloaded)
    else None
  }

  /** Records that `name` was loaded on top of `dep`. */
  function Link(c: Catalogue, s: Registry, name: string, dep: string): (r: Registry)
    requires WellFormed(c, s) && name in c && dep in c
    ensures WellFormed(c, r) && r.state == s.state
  {
    s.(dependencies := s.dependencies[name := s.dependencies[name] + [dep]],
       dependents := s.dependents[dep := s.dependents[dep] + [name]])
  }

  function SwapErase<T>(v: seq<T>, i: nat): (r: seq<T>)
    requires i < |v|
    ensures |r| == |v| - 1
    ensures forall x :: x in r ==> x in v
    ensures forall x :: x in v && x != v[i] ==> x in r
    ensures forall k :: 0 <= k < |r| ==> r[k] == if k == i then v[|v| - 1] else v[k]
  {
    assert forall k :: 0 <= k < |v| && k != i ==> v[k] == v[i := v[|v| - 1]][..|v| - 1][if k == |v| - 1 then i else k];
    v[i := v[|v| - 1]][..|v| - 1]
  }

  // ----- loading

  /** `load_plugin`: the error it throws, if any, and the registry it leaves behind. */
  function Load(c: Catalogue, s: Registry, name: string): (r: (Option<Error>, Registry))
    requires WellFormed(c, s)
    ensures WellFormed(c, r.1) && InState(r.1, Available) <= InState(s, Available)
    decreases InState(s, Available), 0, 0
  {
    if name !in c then (Some(NoSuchPlugin), s)
    else if LoadErrors(c[name], s.state[name]).Some? then (LoadErrors(c[name], s.state[name]), s)
    else
      assert name in InState(s, Available);
      LoadAllowed(c, WithState(c, s, name, Loading), name)
  }

  function LoadAllowed(c: Catalogue, s: Registry, name: string): (r: (Option<Error>, Registry))
    requires WellFormed(c, s) && name in c
    ensures WellFormed(c, r.1) && InState(r.1, Available) <= InState(s, Available)
    decreases InState(s, Available), 2, 0
  {
    var (error, s1) := LoadDependencies(c, s, name, 0);
    if error.Some? then (error, s1) else (None, FinishLoad(c, s1, name))
  }

  function FinishLoad(c: Catalogue, s: Registry, name: string): (r: Registry)
    requires WellFormed(c, s) && name in c
    ensures WellFormed(c, r) && InState(r, Available) <= InState(s, Available)
    ensures InState(r, Loaded) == InState(s, Loaded) + {name}
  {
    WithState(c, s, name, Loaded).(unloaded := s.unloaded - {name}, loaded := s.loaded + {name})
  }

  /** The loop of `load_dependencies`, from the i-th dependency of `name` on. */
  function LoadDependencies(c: Catalogue, s: Registry, name: string, i: nat): (r: (Option<Error>, Registry))
    requires WellFormed(c, s) && name in c && i <= |c[name].dependencies|
    ensures WellFormed(c, r.1) && InState(r.1, Available) <= InState(s, Available)
    decreases InState(s, Available), 1, |c[name].dependencies| - i
  {
    if i == |c[name].dependencies| then (None, s)
    else
      var d := c[name].dependencies[i];
      var (error, s1) := LoadDependency(c, s, d);
      if error.Some? then
        if d.required then (error, s1) else LoadDependencies(c, s1, name, i + 1)
      else
        LoadDependencies(c, Link(c, s1, name, d.name), name, i + 1)
  }

  /** One dependency: it must exist in an allowed version, and is loaded unless it already is. */
  function LoadDependency(c: Catalogue, s: Registry, d: Dependency): (r: (Option<Error>, Registry))
    requires WellFormed(c, s)
    ensures WellFormed(c, r.1) && InState(r.1, Available) <= InState(s, Available)
    ensures r.0.None? ==> d.name in c
    decreases InState(s, Available), 0, 1
  {
    if d.name !in c then (Some(NoSuchPlugin), s)
    else if !d.range.Contains(c[d.name].version) then (Some(VersionNotAllowed), s)
    else if s.state[d.name] == Loaded then (None, s)
    else
      var (error, s1) := Load(c, s, d.name);
      if error.Some? then (Some(DependencyFailed(d.name, error.value)), s1) else (None, s1)
  }

  // ----- unloading

  /** `unload_plugin`: the error it throws, if any, and the registry it leaves behind. */
  function Unload(c: Catalogue, s: Registry, name: string): (r: (Option<Error>, Registry))
    requires WellFormed(c, s)
    ensures WellFormed(c, r.1) && InState(r.1, Loaded) <= InState(s, Loaded)
    ensures KeepsInTransition(s, r.1, name)
    decreases InState(s, Loaded) - {name}, 2, 0
  {
    if name !in c then (Some(NoSuchPlugin), s)
    else if UnloadErrors(c[name], s.state[name]).Some? then (UnloadErrors(c[name], s.state[name]), s)
    else
      UnloadAllowed(c, WithState(c, s, name, Unloading), name)
  }

  function UnloadAllowed(c: Catalogue, s: Registry, name: string): (r: (Option<Error>, Registry))
    requires WellFormed(c, s) && name in c && s.state[name] == Unloading
    ensures WellFormed(c, r.1) && InState(r.1, Loaded) <= InState(s, Loaded)
    ensures KeepsInTransition(s, r.1, name)
    decreases InState(s, Loaded), 1, 0
  {
    var (error, s1) := UnloadDependents(c, s, name, |s.dependents[name]|);
    if error.Some? then (error, s1) else (None, FinishUnload(c, s1, name))
  }

  function FinishUnload(c: Catalogue, s: Registry, name: string): (r: Registry)
    requires WellFormed(c, s) && name in c
    ensures WellFormed(c, r) && InState(r, Loaded) <= InState(s, Loaded) && KeepsInTransition(s, r, name)
  {
    WithState(c, s, name, Available).(loaded := s.loaded - {name}, unloaded := s.unloaded + {name})
  }

  /** Plugins that are being unloaded further up the call stack, or that are stuck in loading, are left alone. */
  ghost predicate KeepsInTransition(s: Registry, r: Registry, except: string) {
    forall q :: q in s.state && (s.state[q] == Unloading || s.state[q] == Loading) && q != except ==>
      && q in r.state && r.state[q] == s.state[q]
      && q in s.dependents && q in r.dependents && r.dependents[q] == s.dependents[q]
  }

  /** The reverse loop of `unload_dependents` over the first n entries of the dependents list of `name`. */
  function UnloadDependents(c: Catalogue, s: Registry, name: string, n: nat): (r: (Option<Error>, Registry))
    requires WellFormed(c, s) && name in c && s.state[name] == Unloading && n <= |s.dependents[name]|
    ensures WellFormed(c, r.1) && InState(r.1, Loaded) <= InState(s, Loaded)
    ensures r.1.state[name] == Unloading && KeepsInTransition(s, r.1, name)
    decreases InState(s, Loaded), 0, n
  {
    if n == 0 then (None, s)
    else
      var (error, s1) := UnloadDependent(c, s, name, n - 1);
      if error.Some? then (error, s1) else UnloadDependents(c, s1, name, n - 1)
  }

  /** One entry of that list: already unloaded, in transition (which is a cycle), or unloaded now and erased. */
  function UnloadDependent(c: Catalogue, s: Registry, name: string, i: nat): (r: (Option<Error>, Registry))
    requires WellFormed(c, s) && name in c && s.state[name] == Unloading && i < |s.dependents[name]|
    ensures WellFormed(c, r.1) && InState(r.1, Loaded) <= InState(s, Loaded)
    ensures r.1.state[name] == Unloading && KeepsInTransition(s, r.1, name)
    ensures r.0.None? ==> i <= |r.1.dependents[name]|
    decreases InState(s, Loaded), 0, i
  {
    var dependent := s.dependents[name][i];
    if s.state[dependent] == Available then (None, s)
    else if s.state[dependent] != Loaded then (Some(DependentFailed(dependent, CircularDependency)), s)
    else
      assert dependent in InState(s, Loaded);
      var (error, s1) := Unload(c, s, dependent);
      if error.Some? then (Some(DependentFailed(dependent, error.value)), s1)
      else (None, EraseDependent(c, s1, name, i))
  }

  function EraseDependent(c: Catalogue, s: Registry, name: string, i: nat): (r: Registry)
    requires WellFormed(c, s) && name in c && i < |s.dependents[name]|
    ensures WellFormed(c, r) && r.state == s.state && |r.dependents[name]| == |s.dependents[name]| - 1
    ensures forall q :: q in c && q != name ==> r.dependents[q] == s.dependents[q]
  {
    s.(dependents := s.dependents[name := SwapErase(s.dependents[name], i)])
  }

  // ----- one pass through each loop

  lemma LoadDependenciesUnfolds(c: Catalogue, s: Registry, name: string, i: nat)
    requires WellFormed(c, s) && name in c && i <= |c[name].dependencies|
    ensures name in s.dependencies && name in s.dependents
    ensures i == |c[name].dependencies| ==> LoadDependencies(c, s, name, i) == (None, s)
    ensures i < |c[name].dependencies| ==>
              var d := c[name].dependencies[i];
              var (error, s1) := LoadDependency(c, s, d);
              LoadDependencies(c, s, name, i) ==
              (if error.Some? then if d.required then (error, s1) else LoadDependencies(c, s1, name, i + 1)
               else LoadDependencies(c, Link(c, s1, name, d.name), name, i + 1))
  {}

  lemma UnloadDependentsUnfolds(c: Catalogue, s: Registry, name: string, n: nat)
    requires WellFormed(c, s) && name in c && s.state[name] == Unloading && n <= |s.dependents[name]|
    ensures n == 0 ==> UnloadDependents(c, s, name, n) == (None, s)
    ensures n > 0 ==>
              var (error, s1) := UnloadDependent(c, s, name, n - 1);
              name in s1.state && s1.state[name] == Unloading && name in s1.dependents &&
              (error.None? ==> n - 1 <= |s1.dependents[name]|) &&
              UnloadDependents(c, s, name, n) ==
              (if error.Some? then (error, s1) else UnloadDependents(c, s1, name, n - 1))
  {}
}
