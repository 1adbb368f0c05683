/**
  The registry as an object whose fields are updated in place by mutually recursive methods. A pointer to a plugin
  record is the plugin's internal name; each method is proved to end in the state that PluginModel describes.
 */
module PluginRegistry {
  import opened Wrappers
  import opened PluginModel
  import opened PluginSafety

  class PluginRegistry {
    const info: Catalogue
    var state: map<string, PluginState>
    var dependencies: map<string, seq<string>>
    var dependents: map<string, seq<string>>
    var loaded: set<string>
    var unloaded: set<string>

    ghost function View(): Registry
      reads this
    {
      Registry(state, dependencies, dependents, loaded, unloaded)
    }

    ghost predicate Valid()
      reads this
    {
      WellFormed(info, View())
    }

    constructor (scanned: Catalogue)
      ensures Valid() && info == scanned && View() == Fresh(scanned)
    {
      info := scanned;
      state := map p | p in scanned :: Available;
      dependencies := map p | p in scanned :: [];
      dependents := map p | p in scanned :: [];
      loaded, unloaded := {}, scanned.Keys;
    }

    method LoadPlugin(name: string) returns (error: Option<Error>)
      requires Valid()
      modifies this
      ensures Valid() && (error, View()) == Load(info, old(View()), name)
      decreases InState(View(), Available), 0, 0
    {
      if name !in info {
        return Some(NoSuchPlugin);
      }
      error := LoadErrors(info[name], state[name]);
      if error.Some? {
        return;
      }
      assert name in InState(View(), Available);
      SetState(name, Loading);
      error := LoadAccepted(name);
    }

    method LoadAccepted(name: string) returns (error: Option<Error>)
      requires Valid() && name in info
      modifies this
      ensures Valid() && (error, View()) == LoadAllowed(info, old(View()), name)
      decreases InState(View(), Available), 1, 1
    {
      hide InState, LoadDependencies;
      error := LoadDependenciesOf(name);
      if error.Some? {
        return;
      }
      SetState(name, Loaded);
      unloaded := unloaded - {name};
      loaded := loaded + {name};
    }

    method SetState(name: string, st: PluginState)
      requires Valid() && name in info
      modifies `state
      ensures Valid() && View() == WithState(info, old(View()), name, st)
    {
      state := state[name := st];
    }

    method LoadDependenciesOf(name: string) returns (error: Option<Error>)
      requires Valid() && name in info
      modifies this
      ensures Valid() && (error, View()) == LoadDependencies(info, old(View()), name, 0)
      decreases InState(View(), Available), 1, 0
    {
      hide LoadPending, LoadDependencies, InState, WellFormed;
      var i := 0;
      ghost var result := LoadDependencies(info, View(), name, 0);
      ghost var start := InState(View(), Available);
      LoadStart(name);
      while i < |info[name].dependencies|
        invariant i <= |info[name].dependencies| && LoadPending(name, i, start, result)
      {
        error := LoadNext(name, i, start, result);
        if error.Some? {
          return;
        }
        i := i + 1;
      }
      LoadDone(name, start, result);
      error := None;
    }

    /** The dependencies from the i-th on are still to be loaded, and that gives the result of the whole loop. */
    ghost predicate LoadPending(name: string, i: nat, start: set<string>, result: (Option<Error>, Registry))
      reads this
    {
      && Valid() && name in info && i <= |info[name].dependencies|
      && InState(View(), Available) <= start
      && LoadDependencies(info, View(), name, i) == result
    }

    lemma LoadStart(name: string)
      requires Valid() && name in info
      ensures LoadPending(name, 0, InState(View(), Available), LoadDependencies(info, View(), name, 0))
    {}

    lemma LoadDone(name: string, start: set<string>, result: (Option<Error>, Registry))
      requires name in info && LoadPending(name, |info[name].dependencies|, start, result)
      ensures Valid() && result == (None, View())
    {}

    /** The body of that loop: throws only for a required dependency, links the plugin to a loaded one. */
    method LoadNext(name: string, i: nat, ghost start: set<string>, ghost result: (Option<Error>, Registry))
      returns (error: Option<Error>)
      requires LoadPending(name, i, start, result) && name in info && i < |info[name].dependencies|
      modifies this
      ensures error.None? ==> LoadPending(name, i + 1, start, result)
      ensures error.Some? ==> Valid() && (error, View()) == result
      decreases start, 0, 2
    {
      hide LoadDependencies, LoadDependency;
      LoadDependenciesUnfolds(info, View(), name, i);
      var d := info[name].dependencies[i];
      error := LoadOneDependency(d);
      if error.None? {
        AddLink(name, d.name);
      } else if !d.required {
        error := None;
      }
    }

    method AddLink(name: string, dep: string)
      requires Valid() && name in info && dep in info
      modifies this
      ensures Valid() && View() == Link(info, old(View()), name, dep)
    {
      dependencies := dependencies[name := dependencies[name] + [dep]];
      dependents := dependents[dep := dependents[dep] + [name]];
    }

    method LoadOneDependency(d: Dependency) returns (error: Option<Error>)
      requires Valid()
      modifies this
      ensures Valid() && (error, View()) == LoadDependency(info, old(View()), d)
      decreases InState(View(), Available), 0, 1
    {
      if d.name !in info {
        return Some(NoSuchPlugin);
      }
      if !d.range.Contains(info[d.name].version) {
        return Some(VersionNotAllowed);
      }
      if state[d.name] == Loaded {
        return None;
      }
      error := LoadPlugin(d.name);
      if error.Some? {
        error := Some(DependencyFailed(d.name, error.value));
      }
    }

    method UnloadPlugin(name: string) returns (error: Option<Error>)
      requires Valid()
      modifies this
      ensures Valid() && (error, View()) == Unload(info, old(View()), name)
      decreases InState(View(), Loaded) - {name}, 2, 0
    {
      if name !in info {
        return Some(NoSuchPlugin);
      }
      error := UnloadErrors(info[name], state[name]);
      if error.Some? {
        return;
      }
      SetState(name, Unloading);
      error := UnloadAccepted(name);
    }

    method UnloadAccepted(name: string) returns (error: Option<Error>)
      requires Valid() && name in info && state[name] == Unloading
      modifies this
      ensures Valid() && (error, View()) == UnloadAllowed(info, old(View()), name)
      decreases InState(View(), Loaded), 1, 1
    {
      hide InState, KeepsInTransition, UnloadDependents;
      error := UnloadDependentsOf(name);
      if error.Some? {
        return;
      }
      SetState(name, Available);
      loaded := loaded - {name};
      unloaded := unloaded + {name};
    }

    method UnloadDependentsOf(name: string) returns (error: Option<Error>)
      requires Valid() && name in info && state[name] == Unloading
      modifies this
      ensures Valid()
      ensures (error, View()) == UnloadDependents(info, old(View()), name, |old(dependents[name])|)
      decreases InState(View(), Loaded), 1, 0
    {
      hide UnloadPending, UnloadDependents, InState;
      var i: int := |dependents[name]|;
      ghost var result := UnloadDependents(info, View(), name, i);
      ghost var start := InState(View(), Loaded);
      UnloadStart(name);
      while i != 0
        invariant i >= 0 && UnloadPending(name, i, start, result)
      {
        i := i - 1;
        error := UnloadNext(name, i, start, result);
        if error.Some? {
          return;
        }
      }
      UnloadDone(name, start, result);
      error := None;
    }

    /** The first n dependents are still to be visited, and visiting them gives the result of the whole loop. */
    ghost predicate UnloadPending(name: string, n: nat, start: set<string>, result: (Option<Error>, Registry))
      reads this
    {
      && Valid() && name in info && state[name] == Unloading && n <= |dependents[name]|
      && InState(View(), Loaded) <= start
      && UnloadDependents(info, View(), name, n) == result
    }

    lemma UnloadStart(name: string)
      requires Valid() && name in info && state[name] == Unloading
      ensures UnloadPending(name, |dependents[name]|, InState(View(), Loaded),
                            UnloadDependents(info, View(), name, |dependents[name]|))
    {}

    lemma UnloadDone(name: string, start: set<string>, result: (Option<Error>, Registry))
      requires UnloadPending(name, 0, start, result)
      ensures Valid() && result == (None, View())
    {}

    method UnloadNext(name: string, i: nat, ghost start: set<string>, ghost result: (Option<Error>, Registry))
      returns (error: Option<Error>)
      requires UnloadPending(name, i + 1, start, result)
      modifies this
      ensures error.None? ==> UnloadPending(name, i, start, result)
      ensures error.Some? ==> Valid() && (error, View()) == result
      decreases start, 0, i + 1
    {
      hide UnloadDependents;
      UnloadDependentsUnfolds(info, View(), name, i + 1);
      error := UnloadOneDependent(name, i);
    }

    method UnloadOneDependent(name: string, i: nat) returns (error: Option<Error>)
      requires Valid() && name in info && state[name] == Unloading && i < |dependents[name]|
      modifies this
      ensures Valid() && (error, View()) == UnloadDependent(info, old(View()), name, i)
      decreases InState(View(), Loaded), 0, i
    {
      var dependent := dependents[name][i];
      if state[dependent] == Available {
        return None;
      }
      if state[dependent] != Loaded {
        return Some(DependentFailed(dependent, CircularDependency));
      }
      assert dependent in InState(View(), Loaded);
      error := UnloadPlugin(dependent);
      if error.Some? {
        error := Some(DependentFailed(dependent, error.value));
      } else {
        EraseDependentAt(name, i);
      }
    }

    method EraseDependentAt(name: string, i: nat)
      requires Valid() && name in info && i < |dependents[name]|
      modifies this
      ensures Valid() && View() == EraseDependent(info, old(View()), name, i)
    {
      dependents := dependents[name := SwapErase(dependents[name], i)];
    }
  }
}
