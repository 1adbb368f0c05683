/** What loads and unloads bring about, once they are known to succeed, and when an unload does. */
module PluginEffects {
  import opened PluginBooks
  import opened PluginLiveness
  import opened PluginModel
  import opened PluginSafety
  import opened Wrappers

  // ----- a load takes everything along that can be loaded

  /** The dependency d of p is loaded, and p is entered as using it. */
  ghost predicate Taken(c: Catalogue, s: Registry, p: string, d: Dependency)
    requires WellFormed(c, s)
  {
    d.name in c && s.state[d.name] == Loaded && p in s.dependents[d.name]
  }

  ghost predicate MayBeTaken(c: Catalogue, s: Registry, g: set<string>, name: string, j: nat)
    requires WellFormed(c, s) && name in c && j < |c[name].dependencies|
  {
    var d := c[name].dependencies[j];
    Follows(c, d) && d.name in g ==> Taken(c, s, name, d)
  }

  lemma {:induction false} DependenciesAreTaken(c: Catalogue, s: Registry, g: set<string>, rank: Ranks, name: string,
                                                i: nat)
    requires WellFormed(c, s) && Ranked(c, rank) && SelfContained(c, g) && Sound(c, s)
    requires name in c && s.state[name] == Loading && i <= |c[name].dependencies| && Linked(c, s, name, i)
    requires Calm(c, s, g, rank, RankOf(rank, name))
    ensures var (error, r) := LoadDependencies(c, s, name, i);
            error.None? ==> forall j :: i <= j < |c[name].dependencies| ==> MayBeTaken(c, r, g, name, j)
    decreases |c[name].dependencies| - i
  {
    hide Ranked, SelfContained, LoadDependencies, LoadDependency, Calm, Sound, Linked, OnlyLoads, MayBeTaken, InState,
         Follows, WellFormed;
    LoadDependenciesUnfolds(c, s, name, i);
    if i == |c[name].dependencies| {
    } else {
      var d := c[name].dependencies[i];
      var (error, s1) := LoadDependency(c, s, d);
      LoadDependencyStep(c, s, name, i);
      DependencyIsTaken(c, s, g, rank, name, i);
      if error.None? {
        var s2 := Link(c, s1, name, d.name);
        DependenciesAreTaken(c, s2, g, rank, name, i + 1);
        LoadDependenciesIsSound(c, s2, name, i + 1);
        TakenStays(c, s2, LoadDependencies(c, s2, name, i + 1).1, g, name, i);
      } else if !d.required {
        DependenciesAreTaken(c, s1, g, rank, name, i + 1);
        NeverTaken(c, LoadDependencies(c, s1, name, i + 1).1, g, name, i);
      }
    }
  }

  /** One pass through the loop. */
  lemma DependencyIsTaken(c: Catalogue, s: Registry, g: set<string>, rank: Ranks, name: string, i: nat)
    requires WellFormed(c, s) && Ranked(c, rank) && SelfContained(c, g) && Sound(c, s)
    requires name in c && i < |c[name].dependencies| && Calm(c, s, g, rank, RankOf(rank, name))
    ensures var d := c[name].dependencies[i];
            var (error, s1) := LoadDependency(c, s, d);
            && Calm(c, s1, g, rank, RankOf(rank, name))
            && (error.Some? ==> !(Follows(c, d) && d.name in g))
            && (error.None? ==>
                  var s2 := Link(c, s1, name, d.name);
                  Calm(c, s2, g, rank, RankOf(rank, name)) && MayBeTaken(c, s2, g, name, i))
  {
    hide Ranked, SelfContained, LoadDependency, Goes, Calm, Sound, OnlyLoads, Taken, InState, Follows;
    var d, n := c[name].dependencies[i], RankOf(rank, name);
    var (error, s1) := LoadDependency(c, s, d);
    DependencyGoes(c, s, g, rank, name, d);
    GoesIsCalm(c, s, s1, g, rank, n);
    LoadDependencyIsSound(c, s, d);
    CalmDependencyLoads(c, s, g, rank, name, d);
    if error.None? {
      LinkGoes(c, s, s1, g, rank, n, name, d.name);
      LinkTakes(c, s1, name, d);
    }
  }

  lemma NeverTaken(c: Catalogue, s: Registry, g: set<string>, name: string, i: nat)
    requires WellFormed(c, s) && name in c && i < |c[name].dependencies|
    requires !(Follows(c, c[name].dependencies[i]) && c[name].dependencies[i].name in g)
    ensures MayBeTaken(c, s, g, name, i)
  {
  }

  lemma LinkTakes(c: Catalogue, s: Registry, name: string, d: Dependency)
    requires WellFormed(c, s) && name in c && d.name in c && s.state[d.name] == Loaded
    ensures Taken(c, Link(c, s, name, d.name), name, d)
  {
  }

  lemma TakenStays(c: Catalogue, s: Registry, r: Registry, g: set<string>, name: string, i: nat)
    requires WellFormed(c, s) && WellFormed(c, r) && OnlyLoads(c, s, r)
    requires name in c && i < |c[name].dependencies| && MayBeTaken(c, s, g, name, i)
    ensures MayBeTaken(c, r, g, name, i)
  {
    hide Follows;
  }

  lemma CalmDependencyLoads(c: Catalogue, s: Registry, g: set<string>, rank: Ranks, name: string, d: Dependency)
    requires WellFormed(c, s) && Ranked(c, rank) && SelfContained(c, g)
    requires name in c && d in c[name].dependencies && Calm(c, s, g, rank, RankOf(rank, name))
    ensures Follows(c, d) && d.name in g ==> LoadDependency(c, s, d).0 == None
  {
    hide Ranked, SelfContained, Goes, Calm, Load, RankOf;
    if Follows(c, d) && d.name in g && s.state[d.name] != Loaded {
      RankGoesDown(c, rank, name, d);
      CalmBelow(c, s, g, rank, RankOf(rank, d.name) + 1, RankOf(rank, name));
      LoadGoes(c, s, g, rank, d.name);
    }
  }

  /**
    After any loads and without cycles: a load that succeeds has loaded every dependency, required or not, that is one
    of some plugins that require only each other, and is entered with each of them.
   */
  lemma LoadTakesDependencies(c: Catalogue, rank: Ranks, calls: seq<Call>, g: set<string>, name: string, i: nat)
    requires Ranked(c, rank) && OnlyLoadCalls(calls) && SelfContained(c, g)
    requires name in c && i < |c[name].dependencies| && Load(c, Run(c, calls), name).0 == None
    requires Follows(c, c[name].dependencies[i]) && c[name].dependencies[i].name in g
    ensures Taken(c, Load(c, Run(c, calls), name).1, name, c[name].dependencies[i])
  {
    hide Ranked, SelfContained, LoadDependencies, Load, Calm, Sound, Linked, Taken, InState, Run, OnlyRose, WellFormed,
         Above, OnlyLoads;
    var s := Run(c, calls);
    RunsAreSound(c, calls);
    LoadsStayCalm(c, rank, g, calls);
    CalmBelow(c, s, g, rank, RankOf(rank, name) + 1, Above(c, rank));
    var s1 := WithState(c, s, name, Loading);
    LoadPasses(c, s, name);
    StartLoadIsSound(c, s, name);
    LoadBegins(c, s, g, rank, name);
    NothingLinkedYet(c, s1, name);
    DependenciesAreTaken(c, s1, g, rank, name, 0);
    var s2 := LoadDependencies(c, s1, name, 0).1;
    assert MayBeTaken(c, s2, g, name, i);
    FinishKeepsTaken(c, s2, name, c[name].dependencies[i]);
  }

  lemma LoadPasses(c: Catalogue, s: Registry, name: string)
    requires WellFormed(c, s) && name in c && Load(c, s, name).0 == None
    ensures s.state[name] == Available
    ensures var (error, s2) := LoadDependencies(c, WithState(c, s, name, Loading), name, 0);
            error == None && Load(c, s, name).1 == FinishLoad(c, s2, name)
  {
    hide LoadDependencies, InState;
  }

  lemma FinishKeepsTaken(c: Catalogue, s: Registry, name: string, d: Dependency)
    requires WellFormed(c, s) && name in c && Taken(c, s, name, d)
    ensures Taken(c, FinishLoad(c, s, name), name, d)
  {
    hide InState;
  }

  // ----- when an unload succeeds

  /** Plugins of rank k and above in u may be unloaded, and whoever still uses them is in u as well and LOADED. */
  ghost predicate FreeAbove(c: Catalogue, s: Registry, u: set<string>, rank: Ranks, k: nat)
    requires WellFormed(c, s)
  {
    forall p :: p in u && RankOf(rank, p) >= k ==>
      && p in c && c[p].allowDynamicUnload
      && forall x :: x in s.dependents[p] ==> s.state[x] == Available || (s.state[x] == Loaded && x in u)
  }

  ghost predicate Free(c: Catalogue, s: Registry, u: set<string>)
    requires WellFormed(c, s)
  {
    forall p :: p in u ==>
      && p in c && c[p].allowDynamicUnload
      && forall x :: x in s.dependents[p] ==> s.state[x] == Available || (s.state[x] == Loaded && x in u)
  }

  /** Users have a higher rank than what they use. */
  ghost predicate UpRanked(c: Catalogue, s: Registry, rank: Ranks)
    requires WellFormed(c, s)
  {
    forall d, x :: d in c && x in s.dependents[d] ==> RankOf(rank, d) < RankOf(rank, x)
  }

  /** Plugins become AVAILABLE, and lists of dependents shorter. */
  ghost predicate Falls(c: Catalogue, s: Registry, r: Registry)
    requires WellFormed(c, s) && WellFormed(c, r)
  {
    forall p :: p in c ==>
      && (r.state[p] == s.state[p] || r.state[p] == Available)
      && forall x :: x in r.dependents[p] ==> x in s.dependents[p]
  }

  lemma FallsOn(c: Catalogue, s: Registry, m: Registry, r: Registry)
    requires WellFormed(c, s) && WellFormed(c, m) && WellFormed(c, r) && Falls(c, s, m) && Falls(c, m, r)
    ensures Falls(c, s, r)
  {
  }

  lemma FallingKeeps(c: Catalogue, s: Registry, r: Registry, u: set<string>, rank: Ranks, k: nat)
    requires WellFormed(c, s) && WellFormed(c, r) && Falls(c, s, r)
    requires FreeAbove(c, s, u, rank, k) && UpRanked(c, s, rank)
    ensures FreeAbove(c, r, u, rank, k) && UpRanked(c, r, rank)
  {
  }

  lemma FreeHigher(c: Catalogue, s: Registry, u: set<string>, rank: Ranks, k: nat, n: nat)
    requires WellFormed(c, s) && FreeAbove(c, s, u, rank, k) && k <= n
    ensures FreeAbove(c, s, u, rank, n)
  {
  }

  lemma StartKeepsFree(c: Catalogue, s: Registry, u: set<string>, rank: Ranks, name: string)
    requires WellFormed(c, s) && name in c && UpRanked(c, s, rank) && FreeAbove(c, s, u, rank, RankOf(rank, name))
    ensures var s1 := WithState(c, s, name, Unloading);
            UpRanked(c, s1, rank) && FreeAbove(c, s1, u, rank, RankOf(rank, name))
  {
    hide InState, RankOf;
  }

  lemma FinishFalls(c: Catalogue, s: Registry, s2: Registry, name: string)
    requires WellFormed(c, s) && WellFormed(c, s2) && name in c && Falls(c, WithState(c, s, name, Unloading), s2)
    ensures Falls(c, s, FinishUnload(c, s2, name))
  {
    hide InState, KeepsInTransition;
  }

  lemma {:induction false} UnloadGoes(c: Catalogue, s: Registry, u: set<string>, rank: Ranks, name: string)
    requires WellFormed(c, s) && UpRanked(c, s, rank) && name in u && name in c && s.state[name] != Available
    requires FreeAbove(c, s, u, rank, RankOf(rank, name))
    ensures Unload(c, s, name).0 == None && Falls(c, s, Unload(c, s, name).1)
    decreases InState(s, Loaded) - {name}, 1, 0
  {
    hide FreeAbove, UpRanked, Falls, UnloadDependents, KeepsInTransition;
    FreeMember(c, s, u, rank, name);
    var s1 := WithState(c, s, name, Unloading);
    StartKeepsFree(c, s, u, rank, name);
    DependentsGo(c, s1, u, rank, name, |s1.dependents[name]|);
    var (error, s2) := UnloadDependents(c, s1, name, |s1.dependents[name]|);
    FinishFalls(c, s, s2, name);
  }

  lemma FreeMember(c: Catalogue, s: Registry, u: set<string>, rank: Ranks, name: string)
    requires WellFormed(c, s) && name in u && FreeAbove(c, s, u, rank, RankOf(rank, name))
    ensures name in c && c[name].allowDynamicUnload
    ensures forall x :: x in s.dependents[name] ==> s.state[x] == Available || (s.state[x] == Loaded && x in u)
  {
  }

  lemma {:induction false} DependentsGo(c: Catalogue, s: Registry, u: set<string>, rank: Ranks, name: string, n: nat)
    requires WellFormed(c, s) && UpRanked(c, s, rank) && name in u && name in c && s.state[name] == Unloading
    requires FreeAbove(c, s, u, rank, RankOf(rank, name)) && n <= |s.dependents[name]|
    ensures var (error, r) := UnloadDependents(c, s, name, n); error == None && Falls(c, s, r)
    decreases InState(s, Loaded), 0, n
  {
    hide FreeAbove, UpRanked, Falls, UnloadDependents, UnloadDependent, KeepsInTransition, WellFormed, InState;
    UnloadDependentsUnfolds(c, s, name, n);
    if n == 0 {
      FallsNowhere(c, s);
    } else {
      DependentGoes(c, s, u, rank, name, n - 1);
      var (_, s1) := UnloadDependent(c, s, name, n - 1);
      FallingKeeps(c, s, s1, u, rank, RankOf(rank, name));
      DependentsGo(c, s1, u, rank, name, n - 1);
      FallsOn(c, s, s1, UnloadDependents(c, s1, name, n - 1).1);
    }
  }

  lemma FallsNowhere(c: Catalogue, s: Registry)
    requires WellFormed(c, s)
    ensures Falls(c, s, s)
  {
  }

  lemma {:induction false} DependentGoes(c: Catalogue, s: Registry, u: set<string>, rank: Ranks, name: string, i: nat)
    requires WellFormed(c, s) && UpRanked(c, s, rank) && name in u && name in c && s.state[name] == Unloading
    requires FreeAbove(c, s, u, rank, RankOf(rank, name)) && i < |s.dependents[name]|
    ensures var (error, r) := UnloadDependent(c, s, name, i);
            && WellFormed(c, r) && InState(r, Loaded) <= InState(s, Loaded) && name in r.state
            && r.state[name] == Unloading && i <= |r.dependents[name]|
            && error == None && Falls(c, s, r)
    decreases InState(s, Loaded), 0, i
  {
    hide FreeAbove, UpRanked, Falls, KeepsInTransition, Unload;
    var x := s.dependents[name][i];
    assert x in s.dependents[name];
    FreeMember(c, s, u, rank, name);
    FallsNowhere(c, s);
    if s.state[x] == Loaded {
      assert x in InState(s, Loaded);
      UserIsHigher(c, s, rank, name, x);
      FreeHigher(c, s, u, rank, RankOf(rank, name), RankOf(rank, x));
      UnloadGoes(c, s, u, rank, x);
      UnloadLeavesOtherAlone(c, s, x, name);
      var s1 := Unload(c, s, x).1;
      EraseFalls(c, s, s1, name, i);
    }
  }

  lemma UnloadLeavesOtherAlone(c: Catalogue, s: Registry, x: string, name: string)
    requires WellFormed(c, s) && x in c && name in c && s.state[x] == Loaded && s.state[name] == Unloading
    ensures Unload(c, s, x).1.state[name] == Unloading
    ensures Unload(c, s, x).1.dependents[name] == s.dependents[name]
  {
    UnloadLeavesAlone(c, s, x, name);
  }

  lemma UserIsHigher(c: Catalogue, s: Registry, rank: Ranks, d: string, x: string)
    requires WellFormed(c, s) && UpRanked(c, s, rank) && d in c && x in s.dependents[d]
    ensures RankOf(rank, d) < RankOf(rank, x)
  {
  }

  lemma EraseFalls(c: Catalogue, s: Registry, m: Registry, name: string, i: nat)
    requires WellFormed(c, s) && WellFormed(c, m) && Falls(c, s, m) && name in c && i < |m.dependents[name]|
    ensures Falls(c, s, EraseDependent(c, m, name, i))
  {
  }

  // ----- and only then

  /** x could be unloaded on the way and has been. */
  ghost predicate Gone(c: Catalogue, s: Registry, r: Registry, x: string)
    requires WellFormed(c, s) && WellFormed(c, r)
  {
    x in c && r.state[x] == Available && (s.state[x] == Available || s.state[x] == Loaded)
  }

  /** If p was unloaded it was allowed to be, and so were those that used it; no user has been forgotten. */
  ghost predicate LeftAt(c: Catalogue, s: Registry, r: Registry, p: string)
    requires WellFormed(c, s) && WellFormed(c, r) && p in c
  {
    && (r.state[p] != s.state[p] ==>
          && s.state[p] == Loaded && r.state[p] == Available && c[p].allowDynamicUnload
          && forall x :: x in s.dependents[p] ==> Gone(c, s, r, x))
    && (forall x :: x in s.dependents[p] ==> x in r.dependents[p] || Gone(c, s, r, x))
  }

  ghost predicate Left(c: Catalogue, s: Registry, r: Registry)
    requires WellFormed(c, s) && WellFormed(c, r)
  {
    forall p :: p in c ==> LeftAt(c, s, r, p)
  }

  lemma LeftNobody(c: Catalogue, s: Registry)
    requires WellFormed(c, s)
    ensures Left(c, s, s)
  {
  }

  lemma LeftOn(c: Catalogue, s: Registry, m: Registry, r: Registry)
    requires WellFormed(c, s) && WellFormed(c, m) && WellFormed(c, r) && Left(c, s, m) && Left(c, m, r)
    ensures Left(c, s, r)
    ensures forall x :: Gone(c, s, m, x) || Gone(c, m, r, x) ==> Gone(c, s, r, x)
  {
    hide Gone, LeftAt;
    forall x | Gone(c, s, m, x) || Gone(c, m, r, x) ensures Gone(c, s, r, x) {
      GoneOn(c, s, m, r, x);
    }
    forall p | p in c ensures LeftAt(c, s, r, p) {
      LeftAtOn(c, s, m, r, p);
    }
  }

  lemma GoneOn(c: Catalogue, s: Registry, m: Registry, r: Registry, x: string)
    requires WellFormed(c, s) && WellFormed(c, m) && WellFormed(c, r) && Left(c, s, m) && Left(c, m, r)
    requires Gone(c, s, m, x) || Gone(c, m, r, x)
    ensures Gone(c, s, r, x)
  {
    assert LeftAt(c, s, m, x) && LeftAt(c, m, r, x);
  }

  lemma LeftAtOn(c: Catalogue, s: Registry, m: Registry, r: Registry, p: string)
    requires WellFormed(c, s) && WellFormed(c, m) && WellFormed(c, r) && p in c
    requires LeftAt(c, s, m, p) && LeftAt(c, m, r, p)
    requires forall x :: Gone(c, s, m, x) || Gone(c, m, r, x) ==> Gone(c, s, r, x)
    ensures LeftAt(c, s, r, p)
  {
    hide Gone, WellFormed;
  }

  lemma FinishLeaves(c: Catalogue, s: Registry, s2: Registry, name: string)
    requires WellFormed(c, s) && WellFormed(c, s2) && name in c && s.state[name] == Loaded && c[name].allowDynamicUnload
    requires var s1 := WithState(c, s, name, Unloading);
             Left(c, s1, s2) && forall x :: x in s1.dependents[name] ==> Gone(c, s1, s2, x)
    ensures Left(c, s, FinishUnload(c, s2, name))
  {
    hide InState, KeepsInTransition, Gone, LeftAt, WellFormed;
    var s1, r := WithState(c, s, name, Unloading), FinishUnload(c, s2, name);
    forall x | Gone(c, s1, s2, x) ensures Gone(c, s, r, x) {
      FinishGone(c, s, s2, name, x);
    }
    forall p | p in c ensures LeftAt(c, s, r, p) {
      assert LeftAt(c, s1, s2, p);
      FinishLeavesAt(c, s, s2, name, p);
    }
  }

  lemma FinishGone(c: Catalogue, s: Registry, s2: Registry, name: string, x: string)
    requires WellFormed(c, s) && WellFormed(c, s2) && name in c && Gone(c, WithState(c, s, name, Unloading), s2, x)
    ensures Gone(c, s, FinishUnload(c, s2, name), x)
  {
    hide InState, KeepsInTransition;
  }

  lemma FinishLeavesAt(c: Catalogue, s: Registry, s2: Registry, name: string, p: string)
    requires WellFormed(c, s) && WellFormed(c, s2) && name in c && s.state[name] == Loaded && c[name].allowDynamicUnload
    requires p in c && LeftAt(c, WithState(c, s, name, Unloading), s2, p)
    requires var s1 := WithState(c, s, name, Unloading);
             forall x :: x in s1.dependents[name] ==> Gone(c, s1, s2, x)
    requires var s1, r := WithState(c, s, name, Unloading), FinishUnload(c, s2, name);
             forall x :: Gone(c, s1, s2, x) ==> Gone(c, s, r, x)
    ensures LeftAt(c, s, FinishUnload(c, s2, name), p)
  {
    hide InState, KeepsInTransition, Gone;
  }

  lemma {:induction false} UnloadLeaves(c: Catalogue, s: Registry, name: string)
    requires WellFormed(c, s) && name in c && s.state[name] == Loaded && Unload(c, s, name).0 == None
    ensures Left(c, s, Unload(c, s, name).1)
    decreases InState(s, Loaded) - {name}, 1, 0
  {
    hide Left, UnloadDependents, KeepsInTransition, Gone, AllIn;
    var s1 := WithState(c, s, name, Unloading);
    DependentsLeave(c, s1, name, |s1.dependents[name]|);
    var (_, s2) := UnloadDependents(c, s1, name, |s1.dependents[name]|);
    assert s1.dependents[name][..|s1.dependents[name]|] == s1.dependents[name];
    FinishLeaves(c, s, s2, name);
  }

  lemma {:induction false} DependentsLeave(c: Catalogue, s: Registry, name: string, n: nat)
    requires WellFormed(c, s) && name in c && s.state[name] == Unloading && n <= |s.dependents[name]|
    requires UnloadDependents(c, s, name, n).0 == None
    ensures var r := UnloadDependents(c, s, name, n).1;
            Left(c, s, r) && forall x :: x in s.dependents[name][..n] ==> Gone(c, s, r, x)
    decreases InState(s, Loaded), 0, n
  {
    hide Left, UnloadDependents, UnloadDependent, KeepsInTransition, WellFormed, InState, Gone;
    UnloadDependentsUnfolds(c, s, name, n);
    if n == 0 {
      LeftNobody(c, s);
    } else {
      DependentLeaves(c, s, name, n - 1);
      var (_, s1) := UnloadDependent(c, s, name, n - 1);
      DependentsLeave(c, s1, name, n - 1);
      var r := UnloadDependents(c, s1, name, n - 1).1;
      LeftOn(c, s, s1, r);
      GoneTogether(c, s, s1, r, name, n);
    }
  }

  lemma GoneTogether(c: Catalogue, s: Registry, m: Registry, r: Registry, name: string, n: nat)
    requires WellFormed(c, s) && WellFormed(c, m) && WellFormed(c, r) && name in c && 0 < n <= |s.dependents[name]|
    requires n - 1 <= |m.dependents[name]| && m.dependents[name][..n - 1] == s.dependents[name][..n - 1]
    requires Gone(c, s, m, s.dependents[name][n - 1])
    requires forall x :: x in m.dependents[name][..n - 1] ==> Gone(c, m, r, x)
    requires forall x :: Gone(c, s, m, x) || Gone(c, m, r, x) ==> Gone(c, s, r, x)
    ensures forall x :: x in s.dependents[name][..n] ==> Gone(c, s, r, x)
  {
    hide Gone;
    var list := s.dependents[name];
    assert list[..n] == list[..n - 1] + [list[n - 1]];
    forall x | x in list[..n] ensures Gone(c, s, r, x) {
      if x in list[..n - 1] {
        assert Gone(c, m, r, x);
      }
    }
  }

  lemma {:induction false} DependentLeaves(c: Catalogue, s: Registry, name: string, i: nat)
    requires WellFormed(c, s) && name in c && s.state[name] == Unloading && i < |s.dependents[name]|
    requires UnloadDependent(c, s, name, i).0 == None
    ensures var r := UnloadDependent(c, s, name, i).1;
            && WellFormed(c, r) && InState(r, Loaded) <= InState(s, Loaded) && name in r.state
            && r.state[name] == Unloading && i <= |r.dependents[name]|
            && r.dependents[name][..i] == s.dependents[name][..i]
            && Left(c, s, r) && Gone(c, s, r, s.dependents[name][i])
    decreases InState(s, Loaded), 0, i
  {
    hide Left, KeepsInTransition, Unload;
    var x := s.dependents[name][i];
    assert x in s.dependents[name];
    LeftNobody(c, s);
    if s.state[x] == Loaded {
      assert x in InState(s, Loaded);
      UnloadLeaves(c, s, x);
      UnloadLeavesOtherAlone(c, s, x, name);
      var s1 := Unload(c, s, x).1;
      UnloadedIsAvailable(c, s, x);
      EraseLeaves(c, s, s1, name, i);
    }
  }

  lemma UnloadedIsAvailable(c: Catalogue, s: Registry, x: string)
    requires WellFormed(c, s) && x in c && Unload(c, s, x).0 == None
    ensures Unload(c, s, x).1.state[x] == Available
  {
    hide UnloadDependents, KeepsInTransition;
  }

  lemma EraseLeaves(c: Catalogue, s: Registry, m: Registry, name: string, i: nat)
    requires WellFormed(c, s) && WellFormed(c, m) && Left(c, s, m) && name in c && i < |m.dependents[name]|
    requires m.dependents[name] == s.dependents[name] && Gone(c, s, m, m.dependents[name][i])
    ensures var r := EraseDependent(c, m, name, i); Left(c, s, r) && r.dependents[name][..i] == s.dependents[name][..i]
  {
    var r := EraseDependent(c, m, name, i);
    forall x | x in m.dependents[name] ensures x in r.dependents[name] || Gone(c, s, r, x) {
    }
  }

  /** Without cycles, who is entered as using a plugin has a higher rank, in every run. */
  lemma RunsAreUpRanked(c: Catalogue, rank: Ranks, calls: seq<Call>)
    requires Ranked(c, rank)
    ensures UpRanked(c, Run(c, calls), rank)
  {
    hide Run;
    RunsKeepOrder(c, calls);
    var s := Run(c, calls);
    forall d, x | d in c && x in s.dependents[d] ensures RankOf(rank, d) < RankOf(rank, x) {
      assert Declares(c, x, d);
      var i :| 0 <= i < |c[x].dependencies| && c[x].dependencies[i].name == d
               && c[x].dependencies[i].range.Contains(c[d].version);
      assert Follows(c, c[x].dependencies[i]);
    }
  }

  /**
    After any history of loads and unloads, failed ones included, and without cycles: an unload of a plugin that is not
    AVAILABLE succeeds if and only if the plugin is one of some that may be unloaded and whose remaining users are all
    LOADED and among them.
   */
  lemma UnloadsIffFree(c: Catalogue, rank: Ranks, calls: seq<Call>, name: string)
    requires Ranked(c, rank) && name in c && Run(c, calls).state[name] != Available
    ensures Unload(c, Run(c, calls), name).0 == None <==> exists u :: Free(c, Run(c, calls), u) && name in u
  {
    hide Ranked, UpRanked, Free, Run, Unload;
    var s := Run(c, calls);
    if u :| Free(c, s, u) && name in u {
      RunsAreUpRanked(c, rank, calls);
      FreeIsFreeAbove(c, s, u, rank, RankOf(rank, name));
      UnloadGoes(c, s, u, rank, name);
    }
    if Unload(c, s, name).0 == None {
      RunsAreUpRanked(c, rank, calls);
      UnloadedWereFree(c, s, rank, name);
    }
  }

  lemma FreeIsFreeAbove(c: Catalogue, s: Registry, u: set<string>, rank: Ranks, k: nat)
    requires WellFormed(c, s) && Free(c, s, u)
    ensures FreeAbove(c, s, u, rank, k)
  {
  }

  lemma UnloadedWereFree(c: Catalogue, s: Registry, rank: Ranks, name: string)
    requires WellFormed(c, s) && UpRanked(c, s, rank) && name in c && s.state[name] != Available
    requires Unload(c, s, name).0 == None
    ensures exists u :: Free(c, s, u) && name in u
  {
    hide Left, UnloadDependents, KeepsInTransition, UpRanked, InState, Gone;
    var s1 := WithState(c, s, name, Unloading);
    DependentsLeave(c, s1, name, |s1.dependents[name]|);
    var (_, s2) := UnloadDependents(c, s1, name, |s1.dependents[name]|);
    assert s1.dependents[name][..|s1.dependents[name]|] == s1.dependents[name];
    var u := LeftWereFree(c, s, s2, name);
  }

  lemma LeftWereFree(c: Catalogue, s: Registry, s2: Registry, name: string) returns (u: set<string>)
    requires WellFormed(c, s) && WellFormed(c, s2) && name in c && c[name].allowDynamicUnload
    requires var s1 := WithState(c, s, name, Unloading);
             Left(c, s1, s2) && forall x :: x in s1.dependents[name] ==> Gone(c, s1, s2, x)
    ensures Free(c, s, u) && name in u
  {
    hide InState, LeftAt, Gone;
    var s1 := WithState(c, s, name, Unloading);
    u := {name} + set p | p in c && s2.state[p] != s1.state[p];
    forall p | p in u ensures c[p].allowDynamicUnload && forall x :: x in s.dependents[p] ==> Gone(c, s1, s2, x) {
      LeaverWasFree(c, s, s2, name, p);
    }
    forall p, x | p in u && x in s.dependents[p] ensures s.state[x] == Available || (s.state[x] == Loaded && x in u) {
      GoneWasLoaded(c, s, s2, name, x);
    }
  }

  lemma LeaverWasFree(c: Catalogue, s: Registry, s2: Registry, name: string, p: string)
    requires WellFormed(c, s) && WellFormed(c, s2) && name in c && c[name].allowDynamicUnload && p in c
    requires var s1 := WithState(c, s, name, Unloading);
             && Left(c, s1, s2) && (forall x :: x in s1.dependents[name] ==> Gone(c, s1, s2, x))
             && (p == name || s2.state[p] != s1.state[p])
    ensures c[p].allowDynamicUnload
    ensures forall x :: x in s.dependents[p] ==> Gone(c, WithState(c, s, name, Unloading), s2, x)
  {
    hide InState, Gone;
    assert LeftAt(c, WithState(c, s, name, Unloading), s2, p);
  }

  lemma GoneWasLoaded(c: Catalogue, s: Registry, s2: Registry, name: string, x: string)
    requires WellFormed(c, s) && WellFormed(c, s2) && name in c && Gone(c, WithState(c, s, name, Unloading), s2, x)
    ensures x in c && (s.state[x] == Available
                       || (s.state[x] == Loaded && s2.state[x] != WithState(c, s, name, Unloading).state[x]))
  {
    hide InState;
  }
}
