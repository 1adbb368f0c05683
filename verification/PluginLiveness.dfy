/**
  When a load succeeds. Without a cycle of dependencies, optional ones included, a plugin can be loaded exactly if
  everything that it requires, directly or not, is there in an allowed version and may be loaded.
 */
module PluginLiveness {
  import opened PluginModel
  import opened PluginSafety
  import opened Wrappers

  /** Loading a plugin with this dependency looks at another plugin. */
  predicate Follows(c: Catalogue, d: Dependency) {
    d.name in c && d.range.Contains(c[d.name].version)
  }

  type Ranks = map<string, nat>

  /** No cycle of dependencies, required or not. */
  ghost predicate Ranked(c: Catalogue, rank: Ranks) {
    forall p, d :: p in c && d in c[p].dependencies && Follows(c, d) ==> RankOf(rank, d.name) < RankOf(rank, p)
  }

  function RankOf(rank: Ranks, p: string): nat {
    if p in rank then rank[p] else 0
  }

  /** Plugins that may be loaded and that require only each other, in allowed versions. */
  ghost predicate SelfContained(c: Catalogue, g: set<string>) {
    forall p :: p in g ==>
      && p in c && c[p].allowDynamicLoad
      && forall d :: d in c[p].dependencies && d.required ==> Follows(c, d) && d.name in g
  }

  /** No plugin of g below that rank is in transition. */
  ghost predicate Calm(c: Catalogue, s: Registry, g: set<string>, rank: Ranks, n: nat)
    requires WellFormed(c, s)
  {
    forall p :: p in g && p in c && RankOf(rank, p) < n ==> !InTransition(s.state[p])
  }

  /** What loading changes: plugins that may be loaded, below that rank, to LOADING or LOADED. */
  ghost predicate Rises(c: Catalogue, s: Registry, r: Registry, rank: Ranks, n: nat)
    requires WellFormed(c, s) && WellFormed(c, r)
  {
    forall p :: p in c && r.state[p] != s.state[p] ==>
                  RankOf(rank, p) < n && c[p].allowDynamicLoad && (r.state[p] == Loading || r.state[p] == Loaded)
  }

  ghost predicate Goes(c: Catalogue, s: Registry, r: Registry, g: set<string>, rank: Ranks, n: nat)
    requires WellFormed(c, s) && WellFormed(c, r)
  {
    Rises(c, s, r, rank, n) && Calm(c, r, g, rank, n)
  }

  lemma GoesOn(c: Catalogue, s: Registry, m: Registry, r: Registry, g: set<string>, rank: Ranks, n: nat)
    requires WellFormed(c, s) && WellFormed(c, m) && WellFormed(c, r)
    requires Goes(c, s, m, g, rank, n) && Goes(c, m, r, g, rank, n)
    ensures Goes(c, s, r, g, rank, n)
  {
  }

  lemma GoesFurther(c: Catalogue, s: Registry, r: Registry, g: set<string>, rank: Ranks, k: nat, n: nat)
    requires WellFormed(c, s) && WellFormed(c, r) && k <= n
    requires Goes(c, s, r, g, rank, k) && Calm(c, s, g, rank, n)
    ensures Goes(c, s, r, g, rank, n)
  {
  }

  lemma CalmBelow(c: Catalogue, s: Registry, g: set<string>, rank: Ranks, k: nat, n: nat)
    requires WellFormed(c, s) && Calm(c, s, g, rank, n) && k <= n
    ensures Calm(c, s, g, rank, k)
    ensures forall p :: p in g && p in c && RankOf(rank, p) < n ==> !InTransition(s.state[p])
  {
  }

  lemma GoesNowhere(c: Catalogue, s: Registry, g: set<string>, rank: Ranks, n: nat)
    requires WellFormed(c, s) && Calm(c, s, g, rank, n)
    ensures Goes(c, s, s, g, rank, n)
  {
  }

  /** Whatever is loaded, the plugins of g stay out of trouble, and one that is AVAILABLE gets LOADED. */
  lemma {:induction false} LoadGoes(c: Catalogue, s: Registry, g: set<string>, rank: Ranks, name: string)
    requires WellFormed(c, s) && Ranked(c, rank) && SelfContained(c, g) && name in c
    requires Calm(c, s, g, rank, RankOf(rank, name) + 1)
    ensures var (error, r) := Load(c, s, name);
            && Goes(c, s, r, g, rank, RankOf(rank, name) + 1)
            && (name in g && s.state[name] == Available ==> error == None)
    decreases InState(s, Available), 0, 0
  {
    hide Ranked, SelfContained, LoadDependencies, Goes, Calm;
    if LoadErrors(c[name], s.state[name]).Some? {
      GoesNowhere(c, s, g, rank, RankOf(rank, name) + 1);
      MayBeLoaded(c, g, name);
    } else {
      assert name in InState(s, Available);
      var s1 := WithState(c, s, name, Loading);
      LoadBegins(c, s, g, rank, name);
      DependenciesGo(c, s1, g, rank, name, 0);
      var (error, s2) := LoadDependencies(c, s1, name, 0);
      LoadEnds(c, s, s2, g, rank, name, error);
    }
  }

  lemma MayBeLoaded(c: Catalogue, g: set<string>, name: string)
    requires SelfContained(c, g)
    ensures name in g ==> name in c && c[name].allowDynamicLoad
  {
  }

  lemma LoadBegins(c: Catalogue, s: Registry, g: set<string>, rank: Ranks, name: string)
    requires WellFormed(c, s) && name in c && Calm(c, s, g, rank, RankOf(rank, name) + 1)
    ensures Calm(c, WithState(c, s, name, Loading), g, rank, RankOf(rank, name))
  {
    hide InState;
  }

  lemma LoadEnds(c: Catalogue, s: Registry, s2: Registry, g: set<string>, rank: Ranks, name: string,
                 error: Option<Error>)
    requires WellFormed(c, s) && WellFormed(c, s2) && name in c && LoadErrors(c[name], s.state[name]).None?
    requires Calm(c, s, g, rank, RankOf(rank, name) + 1) && (name in g ==> error == None)
    requires Goes(c, WithState(c, s, name, Loading), s2, g, rank, RankOf(rank, name))
    ensures Goes(c, s, if error.Some? then s2 else FinishLoad(c, s2, name), g, rank, RankOf(rank, name) + 1)
  {
    hide InState, RankOf, AllIn, LoadErrors, Calm;
    RisesToLoading(c, s, s2, rank, name);
    if error.None? {
      FinishRises(c, s, s2, rank, name);
    }
    LoadEndsCalm(c, s, s2, g, rank, name, error);
  }

  lemma RisesToLoading(c: Catalogue, s: Registry, s2: Registry, rank: Ranks, name: string)
    requires WellFormed(c, s) && WellFormed(c, s2) && name in c && LoadErrors(c[name], s.state[name]).None?
    requires Rises(c, WithState(c, s, name, Loading), s2, rank, RankOf(rank, name))
    ensures Rises(c, s, s2, rank, RankOf(rank, name) + 1) && s2.state[name] == Loading != s.state[name]
  {
    hide InState, RankOf, AllIn;
    var s1 := WithState(c, s, name, Loading);
    assert forall p :: p in c && p != name ==> s1.state[p] == s.state[p];
  }

  lemma FinishRises(c: Catalogue, s: Registry, s2: Registry, rank: Ranks, name: string)
    requires WellFormed(c, s) && WellFormed(c, s2) && name in c && s2.state[name] == Loading != s.state[name]
    requires Rises(c, s, s2, rank, RankOf(rank, name) + 1)
    ensures Rises(c, s, FinishLoad(c, s2, name), rank, RankOf(rank, name) + 1)
  {
    hide InState, RankOf, AllIn;
  }

  lemma LoadEndsCalm(c: Catalogue, s: Registry, s2: Registry, g: set<string>, rank: Ranks, name: string,
                     error: Option<Error>)
    requires WellFormed(c, s) && WellFormed(c, s2) && name in c && (name in g ==> error == None)
    requires Calm(c, s, g, rank, RankOf(rank, name) + 1)
    requires Goes(c, WithState(c, s, name, Loading), s2, g, rank, RankOf(rank, name))
    ensures Calm(c, if error.Some? then s2 else FinishLoad(c, s2, name), g, rank, RankOf(rank, name) + 1)
  {
    hide InState, RankOf, AllIn;
    var s1 := WithState(c, s, name, Loading);
    assert forall p :: p in c && p != name ==> s1.state[p] == s.state[p];
  }

  lemma {:induction false} DependenciesGo(c: Catalogue, s: Registry, g: set<string>, rank: Ranks, name: string, i: nat)
    requires WellFormed(c, s) && Ranked(c, rank) && SelfContained(c, g)
    requires name in c && i <= |c[name].dependencies| && Calm(c, s, g, rank, RankOf(rank, name))
    ensures var (error, r) := LoadDependencies(c, s, name, i);
            && Goes(c, s, r, g, rank, RankOf(rank, name))
            && (name in g ==> error == None)
    decreases InState(s, Available), 1, |c[name].dependencies| - i
  {
    hide Ranked, SelfContained, LoadDependencies, LoadDependency, Goes, Calm, WellFormed, InState;
    var n := RankOf(rank, name);
    LoadDependenciesUnfolds(c, s, name, i);
    if i == |c[name].dependencies| {
      GoesNowhere(c, s, g, rank, n);
    } else {
      var d := c[name].dependencies[i];
      DependencyGoes(c, s, g, rank, name, d);
      var (error, s1) := LoadDependency(c, s, d);
      GoesIsCalm(c, s, s1, g, rank, n);
      if error.None? {
        var s2 := Link(c, s1, name, d.name);
        LinkGoes(c, s, s1, g, rank, n, name, d.name);
        DependenciesGo(c, s2, g, rank, name, i + 1);
        GoesOn(c, s, s2, LoadDependencies(c, s, name, i).1, g, rank, n);
      } else if !d.required {
        DependenciesGo(c, s1, g, rank, name, i + 1);
        GoesOn(c, s, s1, LoadDependencies(c, s, name, i).1, g, rank, n);
      }
    }
  }

  lemma GoesIsCalm(c: Catalogue, s: Registry, r: Registry, g: set<string>, rank: Ranks, n: nat)
    requires WellFormed(c, s) && WellFormed(c, r) && Goes(c, s, r, g, rank, n)
    ensures Calm(c, r, g, rank, n)
  {
  }

  lemma LinkGoes(c: Catalogue, s: Registry, s1: Registry, g: set<string>, rank: Ranks, n: nat, name: string,
                 dep: string)
    requires WellFormed(c, s) && WellFormed(c, s1) && name in c && dep in c && Goes(c, s, s1, g, rank, n)
    ensures var s2 := Link(c, s1, name, dep);
            WellFormed(c, s2) && Goes(c, s, s2, g, rank, n) && Calm(c, s2, g, rank, n)
            && InState(s2, Available) == InState(s1, Available)
  {
  }

  lemma {:induction false} DependencyGoes(c: Catalogue, s: Registry, g: set<string>, rank: Ranks, name: string,
                                          d: Dependency)
    requires WellFormed(c, s) && Ranked(c, rank) && SelfContained(c, g)
    requires name in c && d in c[name].dependencies && Calm(c, s, g, rank, RankOf(rank, name))
    ensures var (error, r) := LoadDependency(c, s, d);
            && WellFormed(c, r) && InState(r, Available) <= InState(s, Available) && (error.None? ==> d.name in c)
            && Goes(c, s, r, g, rank, RankOf(rank, name))
            && (name in g && d.required ==> error == None)
    decreases InState(s, Available), 0, 1
  {
    hide Ranked, SelfContained, Goes, Calm, Load, RankOf;
    var n := RankOf(rank, name);
    GoesNowhere(c, s, g, rank, n);
    RequiredIsThere(c, g, name, d);
    if Follows(c, d) && s.state[d.name] != Loaded {
      RankGoesDown(c, rank, name, d);
      var k := RankOf(rank, d.name) + 1;
      CalmBelow(c, s, g, rank, k, n);
      LoadGoes(c, s, g, rank, d.name);
      GoesFurther(c, s, Load(c, s, d.name).1, g, rank, k, n);
    }
  }

  lemma RankGoesDown(c: Catalogue, rank: Ranks, name: string, d: Dependency)
    requires Ranked(c, rank) && name in c && d in c[name].dependencies && Follows(c, d)
    ensures RankOf(rank, d.name) < RankOf(rank, name)
  {
  }

  lemma RequiredIsThere(c: Catalogue, g: set<string>, name: string, d: Dependency)
    requires SelfContained(c, g) && name in c && d in c[name].dependencies
    ensures name in g && d.required ==> Follows(c, d) && d.name in g
  {
  }

  // ----- after any loads

  ghost predicate OnlyLoadCalls(calls: seq<Call>) {
    forall call :: call in calls ==> call.LoadCall?
  }

  /** Nothing is being unloaded, and what is LOADED was allowed to be. */
  ghost predicate OnlyRose(c: Catalogue, s: Registry)
    requires WellFormed(c, s)
  {
    forall p :: p in c ==> s.state[p] != Unloading && (s.state[p] == Loaded ==> c[p].allowDynamicLoad)
  }

  ghost function Above(c: Catalogue, rank: Ranks): (n: nat)
    ensures forall p :: p in c ==> RankOf(rank, p) < n
  {
    AboveAll(c.Keys, rank)
  }

  ghost function AboveAll(names: set<string>, rank: Ranks): (n: nat)
    ensures forall p :: p in names ==> RankOf(rank, p) < n
  {
    if names == {} then 0
    else
      var p :| p in names;
      var n := AboveAll(names - {p}, rank);
      if RankOf(rank, p) < n then n else RankOf(rank, p) + 1
  }

  lemma {:induction false} LoadsStayCalm(c: Catalogue, rank: Ranks, g: set<string>, calls: seq<Call>)
    requires Ranked(c, rank) && SelfContained(c, g) && OnlyLoadCalls(calls)
    ensures Calm(c, Run(c, calls), g, rank, Above(c, rank)) && OnlyRose(c, Run(c, calls))
  {
    hide Ranked, SelfContained, Perform, Above, Calm, OnlyRose, Fresh;
    if calls == [] {
      FreshIsCalm(c, g, rank);
    } else {
      var last := calls[|calls| - 1];
      assert last in calls && last == LoadCall(last.name);
      LoadsStayCalm(c, rank, g, calls[..|calls| - 1]);
      LoadStaysCalm(c, Run(c, calls[..|calls| - 1]), g, rank, last.name);
    }
  }

  lemma FreshIsCalm(c: Catalogue, g: set<string>, rank: Ranks)
    ensures Calm(c, Fresh(c), g, rank, Above(c, rank)) && OnlyRose(c, Fresh(c))
  {
  }

  lemma LoadStaysCalm(c: Catalogue, s: Registry, g: set<string>, rank: Ranks, name: string)
    requires WellFormed(c, s) && Ranked(c, rank) && SelfContained(c, g)
    requires Calm(c, s, g, rank, Above(c, rank)) && OnlyRose(c, s)
    ensures var r := Perform(c, s, LoadCall(name)); Calm(c, r, g, rank, Above(c, rank)) && OnlyRose(c, r)
  {
    hide Ranked, SelfContained, Load, Calm, InState;
    if name in c {
      var k, n := RankOf(rank, name) + 1, Above(c, rank);
      CalmBelow(c, s, g, rank, k, n);
      LoadGoes(c, s, g, rank, name);
      GoesFurther(c, s, Load(c, s, name).1, g, rank, k, n);
    } else {
      UnknownIsRefused(c, s, name);
    }
  }

  lemma UnknownIsRefused(c: Catalogue, s: Registry, name: string)
    requires WellFormed(c, s) && name !in c
    ensures Load(c, s, name) == (Some(NoSuchPlugin), s)
  {
  }

  /**
    After any loads, failed ones included, and without cycles: a load leaves its plugin LOADED if and only if the
    plugin is one of some that may be loaded and require only each other.
   */
  lemma LoadsIffSelfContained(c: Catalogue, rank: Ranks, calls: seq<Call>, name: string)
    requires Ranked(c, rank) && OnlyLoadCalls(calls) && name in c
    ensures Load(c, Run(c, calls), name).1.state[name] == Loaded <==> exists g :: SelfContained(c, g) && name in g
    ensures (exists g :: SelfContained(c, g) && name in g) ==>
              var error := Load(c, Run(c, calls), name).0; error == None || error == Some(AlreadyLoaded)
  {
    hide Ranked, SelfContained, Load, Run;
    if g :| SelfContained(c, g) && name in g {
      SelfContainedIsLoaded(c, rank, calls, g, name);
    }
    if Load(c, Run(c, calls), name).1.state[name] == Loaded {
      LoadedIsSelfContained(c, rank, calls, name);
    }
  }

  lemma SelfContainedIsLoaded(c: Catalogue, rank: Ranks, calls: seq<Call>, g: set<string>, name: string)
    requires Ranked(c, rank) && OnlyLoadCalls(calls) && SelfContained(c, g) && name in g && name in c
    ensures var (error, r) := Load(c, Run(c, calls), name);
            r.state[name] == Loaded && (error == None || error == Some(AlreadyLoaded))
  {
    hide Ranked, SelfContained, Load, Run, OnlyRose, Sound, InState;
    var s := Run(c, calls);
    LoadsStayCalm(c, rank, g, calls);
    CalmBelow(c, s, g, rank, RankOf(rank, name) + 1, Above(c, rank));
    MayBeLoaded(c, g, name);
    if s.state[name] == Loaded {
      LoadedIsAlready(c, s, name);
    } else {
      LoadGoes(c, s, g, rank, name);
      RunsAreSound(c, calls);
      LoadIsSound(c, s, name);
    }
  }

  lemma LoadedIsSelfContained(c: Catalogue, rank: Ranks, calls: seq<Call>, name: string)
    requires Ranked(c, rank) && OnlyLoadCalls(calls) && name in c
    requires Load(c, Run(c, calls), name).1.state[name] == Loaded
    ensures exists g :: SelfContained(c, g) && name in g
  {
    hide Ranked, SelfContained, Load, Run, OnlyLoadCalls;
    var more := calls + [LoadCall(name)];
    LastCall(c, calls, name);
    LoadedTogether(c, rank, more);
    var g := InState(Run(c, more), Loaded);
    assert SelfContained(c, g) && name in g;
  }

  lemma LoadedTogether(c: Catalogue, rank: Ranks, calls: seq<Call>)
    requires Ranked(c, rank) && OnlyLoadCalls(calls)
    ensures SelfContained(c, InState(Run(c, calls), Loaded))
  {
    hide Ranked, SelfContained, Run, OnlyRose, Sound, Calm, InState, OnlyLoadCalls;
    var none: set<string> := {};
    NobodyIsSelfContained(c, none);
    LoadsStayCalm(c, rank, none, calls);
    RunsAreSound(c, calls);
    LoadedAreSelfContained(c, Run(c, calls));
  }

  lemma LoadedIsAlready(c: Catalogue, s: Registry, name: string)
    requires WellFormed(c, s) && name in c && c[name].allowDynamicLoad && s.state[name] == Loaded
    ensures Load(c, s, name) == (Some(AlreadyLoaded), s)
  {
    hide LoadAllowed, InState;
  }

  lemma LastCall(c: Catalogue, calls: seq<Call>, name: string)
    ensures OnlyLoadCalls(calls) ==> OnlyLoadCalls(calls + [LoadCall(name)])
    ensures Run(c, calls + [LoadCall(name)]) == Load(c, Run(c, calls), name).1
  {
    hide Load;
    assert (calls + [LoadCall(name)])[..|calls|] == calls;
  }

  lemma NobodyIsSelfContained(c: Catalogue, g: set<string>)
    requires g == {}
    ensures SelfContained(c, g)
  {
  }

  lemma LoadedAreSelfContained(c: Catalogue, s: Registry)
    requires WellFormed(c, s) && Sound(c, s) && OnlyRose(c, s)
    ensures SelfContained(c, InState(s, Loaded))
  {
    forall p, d | p in InState(s, Loaded) && d in c[p].dependencies && d.required
      ensures Follows(c, d) && d.name in InState(s, Loaded)
    {
      assert Satisfied(c, s, p, d);
    }
  }

  // ----- cycles through optional dependencies

  /** m requires n, and n can do with m or without it. */
  ghost predicate OptionalCycle(c: Catalogue, n: string, m: string) {
    && n != m && c.Keys == {n, m} && c[n].allowDynamicLoad && c[m].allowDynamicLoad
    && |c[n].dependencies| == |c[m].dependencies| == 1
    && (var back := c[n].dependencies[0]; back.name == m && Follows(c, back) && !back.required)
    && (var need := c[m].dependencies[0]; need.name == n && Follows(c, need) && need.required)
  }

  /**
    Acyclic requirements are not enough: everything that m requires is there, and if m is loaded first both get LOADED.
    But once n has been loaded, and with it an attempt at m has failed, a load of m is refused.
   */
  lemma OptionalCycleBlocks(c: Catalogue, n: string, m: string)
    requires OptionalCycle(c, n, m)
    ensures SelfContained(c, {n, m})
    ensures var s := Load(c, Fresh(c), m).1; s.state[n] == s.state[m] == Loaded
    ensures var s := Run(c, [LoadCall(n)]); s.state[n] == Loaded && Load(c, s, m) == (Some(CircularDependency), s)
  {
    hide Load, Fresh;
    MembersAreSelfContained(c, n, m);
    FreshIsAvailable(c);
    UserFirst(c, Fresh(c), n, m);
    UsedFirst(c, Fresh(c), n, m);
    assert [LoadCall(n)][..0] == [];
    assert Run(c, []) == Fresh(c);
    InTransitionIsRefused(c, Load(c, Fresh(c), n).1, m);
  }

  lemma FreshIsAvailable(c: Catalogue)
    ensures forall p :: p in c ==> Fresh(c).state[p] == Available
  {
  }

  lemma MembersAreSelfContained(c: Catalogue, n: string, m: string)
    requires OptionalCycle(c, n, m)
    ensures SelfContained(c, {n, m})
  {
  }

  lemma UsedFirst(c: Catalogue, s: Registry, n: string, m: string)
    requires WellFormed(c, s) && OptionalCycle(c, n, m) && s.state[n] == s.state[m] == Available
    ensures var r := Load(c, s, n).1; r.state[n] == Loaded && r.state[m] == Loading
  {
    hide Load, LoadDependencies, LoadDependency, InState, AllIn;
    var s1 := WithState(c, s, n, Loading);
    var s2 := WithState(c, s1, m, Loading);
    InTransitionIsRefused(c, s2, n);
    OneDependency(c, s2, m);
    LoadUnfolds(c, s1, m);
    OneDependency(c, s1, n);
    LoadUnfolds(c, s, n);
  }

  lemma UserFirst(c: Catalogue, s: Registry, n: string, m: string)
    requires WellFormed(c, s) && OptionalCycle(c, n, m) && s.state[n] == s.state[m] == Available
    ensures var r := Load(c, s, m).1; r.state[n] == r.state[m] == Loaded
  {
    hide Load, LoadDependencies, LoadDependency, InState, AllIn;
    var s1 := WithState(c, s, m, Loading);
    var s2 := WithState(c, s1, n, Loading);
    InTransitionIsRefused(c, s2, m);
    OneDependency(c, s2, n);
    LoadUnfolds(c, s1, n);
    OneDependency(c, s1, m);
    LoadUnfolds(c, s, m);
  }

  lemma LoadUnfolds(c: Catalogue, s: Registry, name: string)
    requires WellFormed(c, s) && name in c && LoadErrors(c[name], s.state[name]).None?
    ensures var (error, r) := LoadDependencies(c, WithState(c, s, name, Loading), name, 0);
            Load(c, s, name) == if error.Some? then (error, r) else (None, FinishLoad(c, r, name))
  {
    hide LoadDependencies, InState;
  }

  /** Loading the only dependency of a plugin, which is not LOADED yet. */
  lemma OneDependency(c: Catalogue, s: Registry, name: string)
    requires WellFormed(c, s) && name in c && |c[name].dependencies| == 1
    requires var d := c[name].dependencies[0]; Follows(c, d) && s.state[d.name] != Loaded
    ensures var d := c[name].dependencies[0];
            var (error, r) := Load(c, s, d.name);
            LoadDependencies(c, s, name, 0)
            == if error.None? then (None, Link(c, r, name, d.name))
               else if d.required then (Some(DependencyFailed(d.name, error.value)), r) else (None, r)
  {
    hide Load, LoadDependencies, InState;
    LoadDependenciesUnfolds(c, s, name, 0);
    var d := c[name].dependencies[0];
    var (error, r) := Load(c, s, d.name);
    LoadDependenciesUnfolds(c, r, name, 1);
    LoadDependenciesUnfolds(c, if error.None? then Link(c, r, name, d.name) else r, name, 1);
  }
}
