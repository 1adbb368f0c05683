/** Runs in which a client does not get what the server has, each with what keeps it so. */
module SyncFailures {
  import opened ComponentSafety
  import opened ComponentSync
  import opened EntityVisibility
  import opened Sequences
  import opened Wrappers

  // ----- what keeps a client behind

  /** Once the cache has the value and a client has not, no tick brings it there, however long the value stays. */
  lemma StaysBehind(w: State, a: Action, r: Remote, k: Key)
    requires Intact(w) && a.Synchronize? && Possible(w, a) && r in w.world.clients && w.held[r].Some?
    requires Shown(w, r, k.1) && k.1 in a.rule[r] && k in w.values
    requires CachedData(Lookup(w.caches, k)) == Some(w.values[k])
    requires Lookup(w.held[r].value, k) != Some(w.values[k])
    requires r in After(w, a).held && After(w, a).held[r].Some?
    ensures var now := After(w, a);
            && Shown(now, r, k.1) && k in now.values && now.values[k] == w.values[k]
            && CachedData(Lookup(now.caches, k)) == Some(w.values[k])
            && Lookup(now.held[r].value, k) != Some(w.values[k])
  {
    hide After, NoDuplicates, IsDue, Intact, ServeAll, HeldNow, SomebodyDue, Sights;
    IntactAtKey(w, k);
    ComponentsStay(w, a);
    ShownAfter(w, a, r, k.1);
    CachesAtKey(w, a, k);
    if IsDue(w, a, r, k) {
      FollowsIff(w, a, r, k);
    } else {
      NotDueKeeps(w, a, r, k);
    }
  }

  /** Once the cache of a removed component is gone, a client that still holds the component keeps it. */
  lemma StaysForgotten(w: State, a: Action, r: Remote, k: Key)
    requires Intact(w) && a.Synchronize? && Possible(w, a) && r in w.world.clients && w.held[r].Some?
    requires Shown(w, r, k.1) && k.1 in a.rule[r] && k.0 in w.components && k !in w.values && k !in w.caches
    requires k in w.held[r].value && r in After(w, a).held && After(w, a).held[r].Some?
    ensures var now := After(w, a);
            Shown(now, r, k.1) && k !in now.values && k !in now.caches && k in now.held[r].value
  {
    hide After, NoDuplicates, IsDue, Intact, ServeAll, HeldNow, SomebodyDue, Sights;
    ComponentsStay(w, a);
    ShownAfter(w, a, r, k.1);
    CachesAtKey(w, a, k);
    RemovalArrivesIff(w, a, r, k);
  }

  // ----- small runs

  const COMPONENT: Component := 0

  /** One component and one entity, and these remotes, none of which has failed. */
  ghost predicate Scene(w: State, e: Entity, remotes: set<Remote>) {
    && Intact(w) && w.components == [COMPONENT] && w.world.live == {e} && w.world.clients.Keys == remotes
    && forall r :: r in remotes ==> r in w.held && w.held[r].Some?
  }

  function TickFor(e: Entity, rule: map<Remote, set<Entity>>, order: seq<Remote>, elapsed: bool): Action {
    Synchronize([e], rule, order, if elapsed then {COMPONENT} else {}, {e}, {})
  }

  lemma TickIsPossible(w: State, e: Entity, rule: map<Remote, set<Entity>>, order: seq<Remote>, elapsed: bool)
    requires w.world.live == {e} && w.world.clients.Keys == rule.Keys == Elements(order) && NoDuplicates(order)
    ensures Possible(w, TickFor(e, rule, order, elapsed))
  {
    assert Elements([e]) == {e};
  }

  /** A tick of such a run, as long as no cache is left of a removed component. */
  lemma SceneTick(w: State, e: Entity, rule: map<Remote, set<Entity>>, order: seq<Remote>, elapsed: bool)
    requires Scene(w, e, rule.Keys) && Elements(order) == rule.Keys && NoDuplicates(order)
    requires w.caches.Keys <= w.values.Keys
    ensures var a := TickFor(e, rule, order, elapsed);
            && Possible(w, a) && Scene(After(w, a), e, rule.Keys) && After(w, a).values == w.values
            && After(w, a).caches.Keys <= After(w, a).values.Keys
  {
    hide After, NoDuplicates, Intact;
    var a := TickFor(e, rule, order, elapsed);
    TickIsPossible(w, e, rule, order, elapsed);
    TickKeepsIntact(w, a);
    ComponentsStay(w, a);
    HeldAreRemotes(w);
    TickKeepsRemotes(w, a);
    TickFailsNobody(w, a);
  }

  lemma HeldAreRemotes(w: State)
    requires Intact(w)
    ensures w.held.Keys == w.world.clients.Keys
  {
  }

  /** Who is due in such a tick. */
  lemma SceneDue(w: State, e: Entity, rule: map<Remote, set<Entity>>, order: seq<Remote>, elapsed: bool, r: Remote)
    requires Scene(w, e, rule.Keys) && Elements(order) == rule.Keys && NoDuplicates(order) && r in rule
    requires Possible(w, TickFor(e, rule, order, elapsed))
    ensures IsDue(w, TickFor(e, rule, order, elapsed), r, (COMPONENT, e))
            <==> e in rule[r] && (elapsed || !Shown(w, r, e))
    ensures Shown(After(w, TickFor(e, rule, order, elapsed)), r, e) <==> e in rule[r]
  {
    hide NoDuplicates, Intact, IsDue, Shown, After;
    var a := TickFor(e, rule, order, elapsed);
    DueIsSeen(w, a, r, (COMPONENT, e));
    ShownAfter(w, a, r, e);
  }

  /** What such a tick leaves in the cache of a value. */
  lemma SceneCache(w: State, e: Entity, rule: map<Remote, set<Entity>>, order: seq<Remote>, elapsed: bool)
    requires Scene(w, e, rule.Keys) && Elements(order) == rule.Keys && NoDuplicates(order)
    requires Possible(w, TickFor(e, rule, order, elapsed)) && (COMPONENT, e) in w.values
    ensures var k := (COMPONENT, e);
            Lookup(After(w, TickFor(e, rule, order, elapsed)).caches, k)
            == if exists r :: r in rule && e in rule[r] && (elapsed || !Shown(w, r, e))
               then Some(Refreshed(w.values[k], Lookup(w.caches, k))) else Lookup(w.caches, k)
  {
    hide NoDuplicates, Intact, IsDue, Shown, After, SomebodyDue, Sights;
    var a, k := TickFor(e, rule, order, elapsed), (COMPONENT, e);
    CachesAtKey(w, a, k);
    if r :| r in rule && e in rule[r] && (elapsed || !Shown(w, r, e)) {
      SceneDue(w, e, rule, order, elapsed, r);
      SomebodyIsDue(w, a, r, k);
    } else if SomebodyDue(TickOf(w, a), Sights(w, a), k) {
      var r := WhoIsDue(w, a, k);
      SceneDue(w, e, rule, order, elapsed, r);
    }
  }

  lemma ReachedOneMore(components: seq<Component>, actions: seq<Action>, a: Action)
    requires Reached(components, actions).Some? && Possible(Reached(components, actions).value, a)
    ensures Reached(components, actions + [a]) == Some(After(Reached(components, actions).value, a))
  {
    hide Possible, After;
    assert (actions + [a])[..|actions|] == actions;
  }

  /** The run goes on by these actions, if they are possible one after the other. */
  lemma ReachedMore(components: seq<Component>, actions: seq<Action>, x: Action, y: Action)
    requires Reached(components, actions).Some?
    requires var w := Reached(components, actions).value; Possible(w, x) && Possible(After(w, x), y)
    ensures Reached(components, actions + [x, y]) == Some(After(After(Reached(components, actions).value, x), y))
  {
    hide Possible, After, Reached;
    ReachedOneMore(components, actions, x);
    ReachedOneMore(components, actions + [x], y);
    assert actions + [x] + [y] == actions + [x, y];
  }

  lemma SceneSet(w: State, e: Entity, remotes: set<Remote>, value: Bytes)
    requires Scene(w, e, remotes)
    ensures var a := SetValue(COMPONENT, e, value);
            && Possible(w, a) && Scene(After(w, a), e, remotes)
            && After(w, a) == w.(values := w.values[(COMPONENT, e) := value])
            && forall r, x :: Shown(After(w, a), r, x) <==> Shown(w, r, x)
  {
    hide NoDuplicates, EntityVisibility.Sound;
    OtherKeepsIntact(w, SetValue(COMPONENT, e, value));
  }

  lemma SceneRemove(w: State, e: Entity, remotes: set<Remote>)
    requires Scene(w, e, remotes) && (COMPONENT, e) in w.values
    ensures var a := RemoveValue(COMPONENT, e);
            && Possible(w, a) && Scene(After(w, a), e, remotes)
            && After(w, a) == w.(values := w.values - {(COMPONENT, e)})
            && forall r, x :: Shown(After(w, a), r, x) <==> Shown(w, r, x)
  {
    hide NoDuplicates, EntityVisibility.Sound;
    OtherKeepsIntact(w, RemoveValue(COMPONENT, e));
  }

  /** In such a run there is only one key. */
  lemma SceneKeys(w: State, e: Entity, remotes: set<Remote>)
    requires Scene(w, e, remotes)
    ensures forall k :: k in w.caches || k in w.values ==> k == (COMPONENT, e)
  {
  }

  function Prelude(e: Entity, value: Bytes): seq<Action> {
    [Entities(Create(e)), SetValue(COMPONENT, e, value)]
  }

  /** Two remotes connect before there is an entity with a value. */
  lemma TwoRemotes(a: Remote, b: Remote, e: Entity, value: Bytes) returns (w: State)
    requires a != b
    ensures Reached([COMPONENT], [Entities(Connect(a)), Entities(Connect(b))] + Prelude(e, value)) == Some(w)
    ensures Scene(w, e, {a, b}) && w.values == map[(COMPONENT, e) := value] && w.caches == map[]
    ensures !Shown(w, a, e) && !Shown(w, b, e)
  {
    hide Possible, After, Reached, Intact, Shown;
    var w0 := Start([COMPONENT]);
    var w1 := Connected(w0, a);
    var w2 := Connected(w1, b);
    NothingYet();
    var none: seq<Action> := [];
    ReachedMore([COMPONENT], none, Entities(Connect(a)), Entities(Connect(b)));
    assert none + [Entities(Connect(a)), Entities(Connect(b))] == [Entities(Connect(a)), Entities(Connect(b))];
    w := Valued([Entities(Connect(a)), Entities(Connect(b))], w2, e, value);
  }

  lemma NothingYet()
    ensures Reached([COMPONENT], []) == Some(Start([COMPONENT])) && Idle(Start([COMPONENT]), {})
  {
  }

  lemma Valued(actions: seq<Action>, idle: State, e: Entity, value: Bytes) returns (w: State)
    requires Reached([COMPONENT], actions) == Some(idle) && Idle(idle, idle.world.clients.Keys)
    ensures Reached([COMPONENT], actions + Prelude(e, value)) == Some(w)
    ensures Scene(w, e, idle.world.clients.Keys) && w.values == map[(COMPONENT, e) := value] && w.caches == map[]
    ensures forall r :: r in idle.world.clients ==> !Shown(w, r, e)
  {
    hide Possible, After, Reached, Intact, Shown;
    var populated := Populated(idle, e);
    ReachedOneMore([COMPONENT], actions, Entities(Create(e)));
    RunsAreIntact([COMPONENT], actions + [Entities(Create(e))]);
    SceneSet(populated, e, idle.world.clients.Keys, value);
    w := After(populated, SetValue(COMPONENT, e, value));
    ReachedMore([COMPONENT], actions, Entities(Create(e)), SetValue(COMPONENT, e, value));
  }

  lemma OneRemote(a: Remote, e: Entity, value: Bytes) returns (w: State)
    ensures Reached([COMPONENT], [Entities(Connect(a))] + Prelude(e, value)) == Some(w)
    ensures Scene(w, e, {a}) && w.values == map[(COMPONENT, e) := value] && w.caches == map[] && !Shown(w, a, e)
  {
    hide Possible, After, Reached, Intact, Shown;
    var w1 := Connected(Start([COMPONENT]), a);
    NothingYet();
    var none: seq<Action> := [];
    ReachedOneMore([COMPONENT], none, Entities(Connect(a)));
    assert none + [Entities(Connect(a))] == [Entities(Connect(a))];
    w := Valued([Entities(Connect(a))], w1, e, value);
  }

  /** Nothing has happened yet but connecting. */
  ghost predicate Idle(w: State, remotes: set<Remote>) {
    && w.components == [COMPONENT] && w.values == map[] && w.caches == map[]
    && w.world.live == w.world.used == {} && w.world.storage == map[] && w.world.clients.Keys == w.held.Keys == remotes
    && forall r :: r in remotes ==> w.held[r] == Some(map[])
  }

  lemma Connected(w: State, r: Remote) returns (now: State)
    requires Idle(w, w.world.clients.Keys) && r !in w.world.clients
    ensures Possible(w, Entities(Connect(r))) && now == After(w, Entities(Connect(r)))
    ensures Idle(now, w.world.clients.Keys + {r}) && now.world.clients.Keys == w.world.clients.Keys + {r}
  {
    now := After(w, Entities(Connect(r)));
  }

  lemma Populated(w: State, e: Entity) returns (now: State)
    requires Idle(w, w.world.clients.Keys)
    ensures Possible(w, Entities(Create(e))) && now == After(w, Entities(Create(e)))
    ensures now.components == [COMPONENT] && now.values == map[] && now.caches == map[] && now.world.live == {e}
    ensures now.world.clients.Keys == w.world.clients.Keys
    ensures forall r :: r in w.world.clients ==> r in now.held && now.held[r] == Some(map[]) && !Shown(now, r, e)
  {
    now := After(w, Entities(Create(e)));
  }

  /** The first tick that shows the entity brings its value. */
  lemma ValueArrives(w: State, e: Entity, rule: map<Remote, set<Entity>>, order: seq<Remote>, elapsed: bool, r: Remote)
    requires Scene(w, e, rule.Keys) && Elements(order) == rule.Keys && NoDuplicates(order) && r in rule && e in rule[r]
    requires w.caches.Keys <= w.values.Keys && (COMPONENT, e) in w.values && !Shown(w, r, e)
    ensures var a, k := TickFor(e, rule, order, elapsed), (COMPONENT, e);
            && Possible(w, a) && Scene(After(w, a), e, rule.Keys) && Shown(After(w, a), r, e)
            && Lookup(After(w, a).held[r].value, k) == Some(w.values[k])
            && Lookup(After(w, a).caches, k) == Some(Refreshed(w.values[k], Lookup(w.caches, k)))
            && After(w, a).values == w.values && After(w, a).caches.Keys <= After(w, a).values.Keys
  {
    hide After, Possible, NoDuplicates, IsDue, Intact, Shown, Refreshed;
    SceneTick(w, e, rule, order, elapsed);
    SceneDue(w, e, rule, order, elapsed, r);
    SceneCache(w, e, rule, order, elapsed);
    FollowsIff(w, TickFor(e, rule, order, elapsed), r, (COMPONENT, e));
  }

  // ----- a value that never arrives

  /**
    Two clients. One sees an entity from the beginning; then the value changes, and between two synchronizations the
    entity appears to the other one, which gets the new value. The first has the old one, and not even the next
    synchronization brings it the new one.
   */
  lemma AppearanceStarvesOther(a: Remote, b: Remote, e: Entity, before: Bytes, value: Bytes) returns (w: State)
    requires a != b && before != value
    ensures var both, one := map[a := {e}, b := {e}], map[a := {e}, b := {}];
            Reached([COMPONENT], [Entities(Connect(a)), Entities(Connect(b))] + Prelude(e, before)
                                 + [TickFor(e, one, [a, b], true), SetValue(COMPONENT, e, value)]
                                 + [TickFor(e, both, [a, b], false), TickFor(e, both, [a, b], true)]) == Some(w)
    ensures Scene(w, e, {a, b}) && Shown(w, a, e) && Lookup(w.values, (COMPONENT, e)) == Some(value)
    ensures CachedData(Lookup(w.caches, (COMPONENT, e))) == Some(value)
    ensures Lookup(w.held[a].value, (COMPONENT, e)) != Some(value)
  {
    hide After, Possible, NoDuplicates, Intact, Shown, Reached, Prelude, TickFor;
    var both, one := map[a := {e}, b := {e}], map[a := {e}, b := {}];
    var w2 := ValueChanges(a, b, e, before, value);
    w := StarvedTwice(w2, a, b, e, before, value);
    var start := [Entities(Connect(a)), Entities(Connect(b))] + Prelude(e, before);
    ReachedMore([COMPONENT], start + [TickFor(e, one, [a, b], true), SetValue(COMPONENT, e, value)],
                TickFor(e, both, [a, b], false), TickFor(e, both, [a, b], true));
  }

  lemma ValueChanges(a: Remote, b: Remote, e: Entity, before: Bytes, value: Bytes) returns (w: State)
    requires a != b
    ensures Reached([COMPONENT], [Entities(Connect(a)), Entities(Connect(b))] + Prelude(e, before)
                                 + [TickFor(e, map[a := {e}, b := {}], [a, b], true), SetValue(COMPONENT, e, value)])
            == Some(w)
    ensures Scene(w, e, {a, b}) && w.caches.Keys <= w.values.Keys
    ensures Shown(w, a, e) && !Shown(w, b, e) && Lookup(w.held[a].value, (COMPONENT, e)) == Some(before)
    ensures Lookup(w.values, (COMPONENT, e)) == Some(value)
  {
    hide After, Possible, NoDuplicates, Intact, Shown, Reached, Prelude, TickFor;
    var one, order := map[a := {e}, b := {}], [a, b];
    OrderOfTwo(a, b);
    assert one.Keys == {a, b};
    var w0 := TwoRemotes(a, b, e, before);
    ValueArrives(w0, e, one, order, true, a);
    SceneDue(w0, e, one, order, true, b);
    assert !Shown(After(w0, TickFor(e, one, order, true)), b, e);
    var tick := TickFor(e, one, order, true);
    var w1 := After(w0, tick);
    SceneSet(w1, e, {a, b}, value);
    w := After(w1, SetValue(COMPONENT, e, value));
    ReachedMore([COMPONENT], [Entities(Connect(a)), Entities(Connect(b))] + Prelude(e, before), tick,
                SetValue(COMPONENT, e, value));
  }

  lemma OrderOfTwo(a: Remote, b: Remote)
    requires a != b
    ensures Elements([a, b]) == {a, b} && NoDuplicates([a, b])
  {
  }

  lemma StarvedTwice(w: State, a: Remote, b: Remote, e: Entity, before: Bytes, value: Bytes) returns (now: State)
    requires a != b && before != value && Scene(w, e, {a, b}) && w.caches.Keys <= w.values.Keys
    requires Shown(w, a, e) && !Shown(w, b, e) && Lookup(w.held[a].value, (COMPONENT, e)) == Some(before)
    requires Lookup(w.values, (COMPONENT, e)) == Some(value)
    ensures var both := map[a := {e}, b := {e}];
            var first, second := TickFor(e, both, [a, b], false), TickFor(e, both, [a, b], true);
            && Possible(w, first) && Possible(After(w, first), second) && now == After(After(w, first), second)
    ensures Scene(now, e, {a, b}) && Shown(now, a, e) && Lookup(now.values, (COMPONENT, e)) == Some(value)
    ensures CachedData(Lookup(now.caches, (COMPONENT, e))) == Some(value)
    ensures Lookup(now.held[a].value, (COMPONENT, e)) != Some(value)
  {
    hide After, Possible, NoDuplicates, Intact, Shown, IsDue;
    var both, order, k := map[a := {e}, b := {e}], [a, b], (COMPONENT, e);
    OrderOfTwo(a, b);
    assert both.Keys == {a, b};
    ValueArrives(w, e, both, order, false, b);
    SceneDue(w, e, both, order, false, a);
    var first := TickFor(e, both, order, false);
    NotDueKeeps(w, first, a, k);
    var mid := After(w, first);
    SceneTick(mid, e, both, order, true);
    now := After(mid, TickFor(e, both, order, true));
    StaysBehind(mid, TickFor(e, both, order, true), a, k);
  }

  // ----- removals that do not arrive

  /**
    One client, a value, a synchronization, a removal, a synchronization: the removal is sent together with the value
    once more, and the client applies the value last.
   */
  lemma RemovalIsUndone(a: Remote, e: Entity, value: Bytes) returns (w: State)
    ensures var tick := TickFor(e, map[a := {e}], [a], true);
            Reached([COMPONENT], [Entities(Connect(a))] + Prelude(e, value)
                                 + [tick, RemoveValue(COMPONENT, e)] + [tick]) == Some(w)
    ensures Scene(w, e, {a}) && Shown(w, a, e) && (COMPONENT, e) !in w.values && (COMPONENT, e) !in w.caches
    ensures (COMPONENT, e) in w.held[a].value
  {
    hide After, Possible, NoDuplicates, Intact, Shown, Reached, Prelude, TickFor;
    var rule, order := map[a := {e}], [a];
    assert rule.Keys == {a} == Elements(order);
    OneIsNoDuplicate(a);
    var w0 := OneRemote(a, e, value);
    ValueArrives(w0, e, rule, order, true, a);
    var tick := TickFor(e, rule, order, true);
    var w1 := After(w0, tick);
    SceneRemove(w1, e, {a});
    var w2 := After(w1, RemoveValue(COMPONENT, e));
    var start := [Entities(Connect(a))] + Prelude(e, value);
    ReachedMore([COMPONENT], start, tick, RemoveValue(COMPONENT, e));
    w := UndoneOnce(w2, a, e);
    ReachedOneMore([COMPONENT], start + [tick, RemoveValue(COMPONENT, e)], tick);
  }

  lemma OneIsNoDuplicate(a: Remote)
    ensures NoDuplicates([a])
  {
  }

  lemma UndoneOnce(w: State, a: Remote, e: Entity) returns (now: State)
    requires Scene(w, e, {a}) && Shown(w, a, e) && (COMPONENT, e) !in w.values
    requires (COMPONENT, e) in w.held[a].value && (COMPONENT, e) in w.caches && w.caches[(COMPONENT, e)].changed
    ensures var tick := TickFor(e, map[a := {e}], [a], true); Possible(w, tick) && now == After(w, tick)
    ensures Scene(now, e, {a}) && Shown(now, a, e) && (COMPONENT, e) !in now.values && (COMPONENT, e) !in now.caches
    ensures (COMPONENT, e) in now.held[a].value
  {
    hide After, Possible, NoDuplicates, Intact, Shown, IsDue;
    var rule, order, k := map[a := {e}], [a], (COMPONENT, e);
    var tick := TickFor(e, rule, order, true);
    assert rule.Keys == {a} == Elements(order);
    OneIsNoDuplicate(a);
    TickIsPossible(w, e, rule, order, true);
    now := After(w, tick);
    SceneKeys(w, e, {a});
    FailsIff(w, tick, a);
    RemovalArrivesIff(w, tick, a, k);
    SceneDue(w, e, rule, order, true, a);
    RemovalIsForgotten(w, tick, k);
    TickKeepsIntact(w, tick);
    ComponentsStay(w, tick);
    HeldAreRemotes(w);
    TickKeepsRemotes(w, tick);
  }

  /**
    The entity is out of sight when its component is removed, and comes back in the tick that tells of the removal: the
    client is told to remove what it has not.
   */
  lemma RemovalBreaksClient(a: Remote, e: Entity, value: Bytes) returns (w: State)
    ensures var seen, hidden := TickFor(e, map[a := {e}], [a], true), TickFor(e, map[a := {}], [a], true);
            Reached([COMPONENT], [Entities(Connect(a))] + Prelude(e, value)
                                 + [seen, hidden] + [RemoveValue(COMPONENT, e), seen]) == Some(w)
    ensures a in w.held && w.held[a] == None
  {
    hide After, Possible, NoDuplicates, Intact, Shown, Reached, Prelude, TickFor;
    var rule, none, order := map[a := {e}], map[a := {}], [a];
    assert rule.Keys == none.Keys == {a} == Elements(order);
    OneIsNoDuplicate(a);
    var w0 := OneRemote(a, e, value);
    ValueArrives(w0, e, rule, order, true, a);
    var seen, hidden := TickFor(e, rule, order, true), TickFor(e, none, order, true);
    var w1 := After(w0, seen);
    SceneTick(w1, e, none, order, true);
    SceneDue(w1, e, none, order, true, a);
    SceneCache(w1, e, none, order, true);
    var w2 := After(w1, hidden);
    SceneRemove(w2, e, {a});
    var w3 := After(w2, RemoveValue(COMPONENT, e));
    var start := [Entities(Connect(a))] + Prelude(e, value);
    ReachedMore([COMPONENT], start, seen, hidden);
    w := Broken(w3, a, e);
    ReachedMore([COMPONENT], start + [seen, hidden], RemoveValue(COMPONENT, e), seen);
  }

  lemma Broken(w: State, a: Remote, e: Entity) returns (now: State)
    requires Scene(w, e, {a}) && !Shown(w, a, e) && (COMPONENT, e) !in w.values && (COMPONENT, e) in w.caches
    ensures var seen := TickFor(e, map[a := {e}], [a], true); Possible(w, seen) && now == After(w, seen)
    ensures a in now.held && now.held[a] == None
  {
    hide After, Possible, NoDuplicates, Intact, Shown, IsDue;
    var rule, order, k := map[a := {e}], [a], (COMPONENT, e);
    var seen := TickFor(e, rule, order, true);
    assert rule.Keys == {a} == Elements(order);
    OneIsNoDuplicate(a);
    TickIsPossible(w, e, rule, order, true);
    now := After(w, seen);
    SceneDue(w, e, rule, order, true, a);
    FailsIff(w, seen, a);
    assert IsDue(w, seen, a, k);
  }
}
