/**
  What the clients hold over whole runs: any number of connections that come and go, values that are set and removed,
  and ticks in which any of the components' timers have elapsed.
 */
module ComponentSafety {
  import opened ComponentSync
  import opened EntityVisibility
  import opened Sequences
  import opened Wrappers

  /** `held` is what each client holds, or None for one that was told to remove what it has not. */
  datatype State = State(components: seq<Component>, world: World, values: map<Key, Bytes>, caches: map<Key, Cache>,
                         held: map<Remote, Option<map<Key, Bytes>>>)

  /** A tick updates the visibility first and then serves the connections in some order. */
  datatype Action =
    | Entities(op: Op)
    | SetValue(c: Component, e: Entity, value: Bytes)
    | RemoveValue(c: Component, e: Entity)
    | Synchronize(view: seq<Entity>, rule: map<Remote, set<Entity>>, order: seq<Remote>, elapsed: set<Component>,
                  tagged: set<Entity>, excluded: set<(Remote, Key)>)

  function Start(components: seq<Component>): State {
    State(components, START, map[], map[], map[])
  }

  ghost predicate Possible(w: State, a: Action) {
    match a
    case Entities(op) => !op.Update? && Allowed(w.world, op)
    case SetValue(c, e, _) => c in w.components && e in w.world.live
    case RemoveValue(c, e) => (c, e) in w.values
    case Synchronize(view, rule, order, _, _, _) =>
      Allowed(w.world, Update(view, rule)) && NoDuplicates(order) && Elements(order) == w.world.clients.Keys
  }

  ghost function After(w: State, a: Action): State
    requires Possible(w, a)
  {
    match a
    case Entities(op) => AfterEntities(w.(world := Step(w.world, op)), op)
    case SetValue(c, e, value) => w.(values := w.values[(c, e) := value])
    case RemoveValue(c, e) => w.(values := w.values - {(c, e)})
    case Synchronize(_, _, _, _, _, _) =>
      w.(world := Seen(w, a),
         caches := ServeAll(TickOf(w, a), Sights(w, a), w.caches).caches,
         held := map r | r in w.held && r in w.world.clients :: HeldNow(w, a, r))
  }

  /** Values and caches are components, too, and go with their entity. */
  function AfterEntities(w: State, op: Op): State {
    match op
    case Destroy(e) => w.(values := Without(w.values, e), caches := Without(w.caches, e))
    case Connect(r) => w.(held := w.held[r := Some(map[])])
    case Disconnect(r) => w.(held := w.held - {r})
    case _ => w
  }

  function Without<V>(m: map<Key, V>, e: Entity): map<Key, V> {
    map k | k in m && k.1 != e :: m[k]
  }

  // ----- one tick

  ghost function Seen(w: State, a: Action): World
    requires a.Synchronize? && Possible(w, a)
  {
    Step(w.world, Update(a.view, a.rule))
  }

  function TickOf(w: State, a: Action): Tick
    requires a.Synchronize?
  {
    Tick(w.components, a.view, w.values, a.elapsed, a.tagged)
  }

  ghost function SightOf(w: State, a: Action, r: Remote): Sight
    requires a.Synchronize? && Possible(w, a)
  {
    Sight(Seen(w, a).For(r), set p | p in a.excluded && p.0 == r :: p.1)
  }

  ghost function Sights(w: State, a: Action): (sights: seq<Sight>)
    requires a.Synchronize? && Possible(w, a)
    ensures |sights| == |a.order| && forall i :: 0 <= i < |sights| ==> sights[i] == SightOf(w, a, a.order[i])
  {
    seq(|a.order|, i requires 0 <= i < |a.order| => SightOf(w, a, a.order[i]))
  }

  ghost function Place(w: State, a: Action, r: Remote): (i: nat)
    requires a.Synchronize? && Possible(w, a) && r in w.world.clients
    ensures i < |a.order| && a.order[i] == r && (i == 0 <==> a.order[0] == r)
  {
    assert r in Elements(a.order);
    var i :| 0 <= i < |a.order| && a.order[i] == r;
    i
  }

  /** Values go with their entity on the client, too. */
  function HeldAfter(held: map<Key, Bytes>, messages: seq<Message>): map<Key, Bytes> {
    if messages == [] then held
    else
      var before := HeldAfter(held, messages[..|messages| - 1]);
      match messages[|messages| - 1]
      case AddEntity(_) => before
      case DelEntity(entities) => Dropped(before, entities)
  }

  function Dropped(held: map<Key, Bytes>, entities: seq<Entity>): map<Key, Bytes> {
    map k | k in held && k.1 !in entities :: held[k]
  }

  /** What a client holds once it has created and destroyed the entities that the tick announced. */
  ghost function Informed(w: State, a: Action, r: Remote, held: map<Key, Bytes>): map<Key, Bytes>
    requires a.Synchronize? && Possible(w, a) && r in w.world.clients
  {
    HeldAfter(held, Announced(w.world.For(r), a.view, a.rule[r], w.world.destroyed))
  }

  ghost function HeldNow(w: State, a: Action, r: Remote): Option<map<Key, Bytes>>
    requires a.Synchronize? && Possible(w, a) && r in w.world.clients && r in w.held
  {
    var entities := Seen(w, a).clients[r];
    if w.held[r] == None || entities == None then None
    else
      var client := Client(entities.value, Informed(w, a, r, w.held[r].value));
      match ApplyCompound(client, CompoundFor(TickOf(w, a), Sights(w, a), Place(w, a, r), w.caches))
      case None => None
      case Some(c) => Some(c.held)
  }

  /** The reference: what a client should make of one key in a tick, given what it holds when told about entities. */
  ghost function Expected(w: State, a: Action, r: Remote, k: Key, held: Option<Bytes>): Option<Option<Bytes>>
    requires a.Synchronize? && Possible(w, a) && r in w.world.clients
  {
    Outcome(TickOf(w, a), SightOf(w, a, r), Place(w, a, r) == 0, Lookup(w.caches, k), k, held)
  }

  // ----- the invariant

  ghost predicate Intact(w: State) {
    && EntityVisibility.Sound(w.world)
    && NoDuplicates(w.components)
    && w.held.Keys == w.world.clients.Keys
    && (forall k :: k in w.values || k in w.caches ==> k.0 in w.components && k.1 in w.world.live)
    && (forall r :: r in w.held ==> HeldByEntities(w, r))
  }

  ghost predicate HeldByEntities(w: State, r: Remote)
    requires r in w.held
  {
    r in w.world.clients && w.world.clients[r].Some?
    && (w.held[r].Some? ==> forall k :: k in w.held[r].value ==> k.1 in w.world.clients[r].value)
  }

  lemma IntactOf(w: State, r: Remote)
    requires Intact(w) && r in w.world.clients
    ensures r in w.held && HeldByEntities(w, r) && SoundFor(w.world, r)
  {
  }

  // ----- what the announcements leave

  function Removed(statuses: Statuses, view: seq<Entity>, seen: set<Entity>, destroyed: seq<Entity>): seq<Entity> {
    var now := Refresh(statuses, view, seen);
    WithStatus(now, view, BECAME_INVISIBLE) + WithStatus(now, destroyed, VISIBLE)
  }

  lemma HeldAfterPacked(held: map<Key, Bytes>, added: seq<Entity>, removed: seq<Entity>)
    ensures HeldAfter(held, Packed(added, removed)) == Dropped(held, removed)
  {
    hide Dropped, HeldAfter;
    DroppedNothing(held);
    HeldAfterNothing(held);
    var none: seq<Message> := [];
    var first := if added == [] then none else [AddEntity(added)];
    HeldAfterOneMore(held, none, AddEntity(added));
    assert none + [AddEntity(added)] == [AddEntity(added)];
    assert HeldAfter(held, first) == held;
    HeldAfterOneMore(held, first, DelEntity(removed));
    assert first + none == first;
  }

  lemma DroppedNothing(held: map<Key, Bytes>)
    ensures Dropped(held, []) == held
  {
  }

  lemma HeldAfterNothing(held: map<Key, Bytes>)
    ensures HeldAfter(held, []) == held
  {
  }

  lemma HeldAfterOneMore(held: map<Key, Bytes>, messages: seq<Message>, m: Message)
    ensures var before := HeldAfter(held, messages);
            HeldAfter(held, messages + [m]) == if m.AddEntity? then before else Dropped(before, m.changed)
  {
    hide Dropped;
    assert (messages + [m])[..|messages|] == messages;
  }

  /** One connection's entities after an update. */
  lemma EntitiesAfter(w: World, view: seq<Entity>, rule: map<Remote, set<Entity>>, r: Remote)
    requires EntityVisibility.Sound(w) && Allowed(w, Update(view, rule)) && r in w.clients
    ensures var now := Step(w, Update(view, rule));
            && r in now.clients && SoundFor(now, r) && SoundFor(w, r) && now.live == w.live
            && now.For(r) == Kept(w.For(r), view, rule[r], w.destroyed) && now.For(r).Keys == w.live
            && (forall e :: e in w.live && now.For(r)[e].VisibilityBit() ==> e in now.clients[r].value)
            && w.clients[r].value - Elements(Removed(w.For(r), view, rule[r], w.destroyed)) <= now.clients[r].value
  {
    hide ReceiveAll, Announced, NoDuplicates, InStep, FreshCasualties, Strays, Kept;
    StepKeepsSoundFor(w, Update(view, rule), r);
    assert SoundFor(w, r);
    var statuses, client := w.For(r), w.clients[r].value;
    UpdateKeepsInStep(statuses, client, view, rule[r], w.destroyed);
    ClientAfter(statuses, client, view, rule[r], w.destroyed);
    AnnouncementsAre(statuses, client, view, rule[r], w.destroyed);
    VisibleIsThere(Step(w, Update(view, rule)), r);
  }

  lemma VisibleIsThere(w: World, r: Remote)
    requires r in w.clients && SoundFor(w, r)
    ensures forall e :: e in w.For(r) && w.For(r)[e].VisibilityBit() ==> e in w.clients[r].value
  {
  }

  lemma StatusAfter(w: World, view: seq<Entity>, rule: map<Remote, set<Entity>>, r: Remote, e: Entity)
    requires EntityVisibility.Sound(w) && Allowed(w, Update(view, rule)) && r in w.clients && e in w.live
    ensures var now := Kept(w.For(r), view, rule[r], w.destroyed);
            && e in now && now[e] == NextStatus(StatusIn(w.For(r), e), e in rule[r])
            && (now[e] == VISIBLE ==> e !in Removed(w.For(r), view, rule[r], w.destroyed))
    ensures SoundFor(w, r) && (StatusIn(w.For(r), e).VisibilityBit() <==> e in w.clients[r].value)
  {
    assert e in Elements(view) && e !in Elements(w.destroyed);
    assert SoundFor(w, r);
  }

  /** What an entity shown before and after had, the client keeps; of one that appears it holds nothing. */
  lemma InformedAtKey(w: State, a: Action, r: Remote, k: Key)
    requires Intact(w) && a.Synchronize? && Possible(w, a) && r in w.world.clients && k.1 in w.world.live
    requires w.held[r].Some?
    ensures var now, mid := SightOf(w, a, r).statuses, Lookup(Informed(w, a, r, w.held[r].value), k);
            && k.1 in now && now[k.1] == NextStatus(StatusIn(w.world.For(r), k.1), k.1 in a.rule[r])
            && (now[k.1] == VISIBLE ==> mid == Lookup(w.held[r].value, k))
            && (now[k.1] == BECAME_VISIBLE ==> mid == None)
  {
    hide ReceiveAll, WithStatus, NoDuplicates, Refresh, Packed, Removed, HeldAfter, InStep, EntityVisibility.Sound;
    IntactOf(w, r);
    StatusAfter(w.world, a.view, a.rule, r, k.1);
    EntitiesAfter(w.world, a.view, a.rule, r);
    InformedIs(w, a, r);
  }

  lemma InformedIs(w: State, a: Action, r: Remote)
    requires a.Synchronize? && Possible(w, a) && r in w.world.clients && r in w.held && w.held[r].Some?
    ensures Informed(w, a, r, w.held[r].value)
            == Dropped(w.held[r].value, Removed(w.world.For(r), a.view, a.rule[r], w.world.destroyed))
  {
    hide WithStatus, NoDuplicates, Refresh, Packed, HeldAfter, Dropped;
    var now := Refresh(w.world.For(r), a.view, a.rule[r]);
    HeldAfterPacked(w.held[r].value, WithStatus(now, a.view, BECAME_VISIBLE),
                    Removed(w.world.For(r), a.view, a.rule[r], w.world.destroyed));
  }

  // ----- the tick, key by key

  /**
    A tick gives a client what is expected at every key; the client fails exactly if at some key it is told to remove
    what it has not.
   */
  lemma TickAtKeys(w: State, a: Action, r: Remote)
    requires Intact(w) && a.Synchronize? && Possible(w, a) && r in w.world.clients && w.held[r].Some?
    ensures var mid, now := Informed(w, a, r, w.held[r].value), After(w, a);
            && r in now.held
            && (now.held[r] == None <==> exists k :: Expected(w, a, r, k, Lookup(mid, k)) == None)
            && (now.held[r].Some? ==>
                  forall k :: Expected(w, a, r, k, Lookup(mid, k)) == Some(Lookup(now.held[r].value, k)))
  {
    hide ApplyCompound, CompoundFor, Outcome, NoDuplicates, SoundFor, Step, Allowed, After, HeldNow, Intact, TickOf,
         SightOf, Informed;
    EntitiesServed(w, a, r);
    HeldNowIs(w, a, r);
    var i := Place(w, a, r);
    var client := Client(Seen(w, a).clients[r].value, Informed(w, a, r, w.held[r].value));
    ClientIsServed(TickOf(w, a), Sights(w, a), i, w.caches, client);
  }

  lemma HeldNowIs(w: State, a: Action, r: Remote)
    requires a.Synchronize? && Possible(w, a) && r in w.world.clients && r in w.held && w.held[r].Some?
    requires r in Seen(w, a).clients && Seen(w, a).clients[r].Some?
    ensures var client := Client(Seen(w, a).clients[r].value, Informed(w, a, r, w.held[r].value));
            var served := ApplyCompound(client, CompoundFor(TickOf(w, a), Sights(w, a), Place(w, a, r), w.caches));
            && r in After(w, a).held
            && After(w, a).held[r] == match served case None => None case Some(c) => Some(c.held)
  {
    hide ApplyCompound, CompoundFor, NoDuplicates, Step, Allowed, ServeAll, TickOf, SightOf, Informed;
  }

  lemma EntitiesServed(w: State, a: Action, r: Remote)
    requires Intact(w) && a.Synchronize? && Possible(w, a) && r in w.world.clients
    ensures var s, t := SightOf(w, a, r), TickOf(w, a);
            && r in w.held && r in Seen(w, a).clients && Seen(w, a).clients[r].Some?
            && NoDuplicates(t.components) && NoDuplicates(t.view) && s.statuses.Keys <= Elements(t.view)
            && forall e :: e in s.statuses && s.statuses[e].VisibilityBit() ==> e in Seen(w, a).clients[r].value
  {
    hide NoDuplicates, Elements, Kept, Step;
    EntitiesAfter(w.world, a.view, a.rule, r);
    IntactOf(w, r);
  }

  lemma CachesAtKey(w: State, a: Action, k: Key)
    requires a.Synchronize? && Possible(w, a) && k.0 in w.components
    ensures Lookup(After(w, a).caches, k) == CacheAfter(TickOf(w, a), Sights(w, a), Lookup(w.caches, k), k)
  {
    hide ServeAll, CacheAfter;
    ServeAllAtKey(TickOf(w, a), Sights(w, a), w.caches, k);
  }

  // ----- what a tick does, from the state before it

  /** The client of r has been shown e, and not yet been told otherwise. */
  ghost predicate Shown(w: State, r: Remote, e: Entity) {
    e in w.world.live && StatusIn(w.world.For(r), e).VisibilityBit()
  }

  /** In this tick, r is to be told about k: it sees the entity, and the time has come or the entity has appeared. */
  ghost predicate IsDue(w: State, a: Action, r: Remote, k: Key)
    requires a.Synchronize? && Possible(w, a)
  {
    k.0 in w.components && IsSynchronized(TickOf(w, a), SightOf(w, a, r), k)
  }

  lemma DueIsSeen(w: State, a: Action, r: Remote, k: Key)
    requires Intact(w) && a.Synchronize? && Possible(w, a) && r in w.world.clients && k.1 in w.world.live
    ensures var now := SightOf(w, a, r).statuses;
            && k.1 in now && (now[k.1].VisibilityBit() <==> k.1 in a.rule[r])
            && (k.1 in a.rule[r] ==> now[k.1] == if Shown(w, r, k.1) then VISIBLE else BECAME_VISIBLE)
    ensures IsDue(w, a, r, k) <==>
              && k.0 in w.components && k.1 in a.tagged && k.1 in a.rule[r]
              && (k.0 in a.elapsed || !Shown(w, r, k.1))
              && !(k in w.values && (r, k) in a.excluded)
  {
    hide ReceiveAll, WithStatus, NoDuplicates, Refresh, Packed, InStep, EntityVisibility.Sound;
    IntactOf(w, r);
    StatusAfter(w.world, a.view, a.rule, r, k.1);
    EntitiesAfter(w.world, a.view, a.rule, r);
    assert (r, k) in a.excluded <==> k in SightOf(w, a, r).excluded by { ExcludedOf(w, a, r, k); }
  }

  lemma ExcludedOf(w: State, a: Action, r: Remote, k: Key)
    requires a.Synchronize? && Possible(w, a)
    ensures (r, k) in a.excluded <==> k in SightOf(w, a, r).excluded
  {
    if (r, k) in a.excluded {
      var p := (r, k);
      assert p in a.excluded && p.0 == r && p.1 == k;
    }
  }

  /** Nothing is due for an entity that is not there. */
  lemma DueIsLive(w: State, a: Action, r: Remote, k: Key)
    requires Intact(w) && a.Synchronize? && Possible(w, a) && r in w.world.clients && IsDue(w, a, r, k)
    ensures k.1 in w.world.live
  {
    hide NoDuplicates, Kept, Step;
    EntitiesAfter(w.world, a.view, a.rule, r);
  }

  /** Everything that decides about one key for one client. */
  lemma TickAtKey(w: State, a: Action, r: Remote, k: Key)
    requires Intact(w) && a.Synchronize? && Possible(w, a) && r in w.world.clients && w.held[r].Some?
    requires k.1 in w.world.live
    ensures var cache, shown := Lookup(w.caches, k), Shown(w, r, k.1);
            var held := Lookup(w.held[r].value, k);
            var mid := Lookup(Informed(w, a, r, w.held[r].value), k);
            && (k.1 in a.rule[r] ==> mid == if shown then held else None)
            && Expected(w, a, r, k, mid)
               == if !IsDue(w, a, r, k) then Some(mid)
                  else if k in w.values then
                    if !shown || CachedData(cache) != Some(w.values[k]) then Some(Some(w.values[k])) else Some(mid)
                  else if cache == None || Place(w, a, r) != 0 then Some(mid)
                  else if mid == None then None
                  else if cache.value.changed then Some(Some(cache.value.data)) else Some(None)
  {
    hide ReceiveAll, WithStatus, NoDuplicates, Refresh, Packed, InStep, EntityVisibility.Sound, Informed, Step, Allowed,
         IsSynchronized, Place;
    InformedAtKey(w, a, r, k);
    DueIsSeen(w, a, r, k);
  }

  /**
    A client that is due holds the present value after the tick if and only if the entity has just appeared to it, or
    the value differs from the cache, or the client has it already.
   */
  lemma FollowsIff(w: State, a: Action, r: Remote, k: Key)
    requires Intact(w) && a.Synchronize? && Possible(w, a) && r in w.world.clients && w.held[r].Some?
    requires k in w.values && IsDue(w, a, r, k) && r in After(w, a).held && After(w, a).held[r].Some?
    ensures Lookup(After(w, a).held[r].value, k) == Some(w.values[k]) <==>
              || !Shown(w, r, k.1)
              || CachedData(Lookup(w.caches, k)) != Some(w.values[k])
              || Lookup(w.held[r].value, k) == Some(w.values[k])
  {
    hide After, Expected, NoDuplicates, Shown, IsDue, Informed, Intact;
    IntactAtKey(w, k);
    DueIsLive(w, a, r, k);
    DueIsSeen(w, a, r, k);
    TickAtKeys(w, a, r);
    TickAtKey(w, a, r, k);
  }

  lemma IntactAtKey(w: State, k: Key)
    requires Intact(w)
    ensures k in w.values || k in w.caches ==> k.0 in w.components && k.1 in w.world.live
  {
  }

  /** A client that is not due keeps what it holds of an entity that it goes on seeing. */
  lemma NotDueKeeps(w: State, a: Action, r: Remote, k: Key)
    requires Intact(w) && a.Synchronize? && Possible(w, a) && r in w.world.clients && w.held[r].Some?
    requires Shown(w, r, k.1) && k.1 in a.rule[r] && !IsDue(w, a, r, k)
    requires r in After(w, a).held && After(w, a).held[r].Some?
    ensures Lookup(After(w, a).held[r].value, k) == Lookup(w.held[r].value, k)
  {
    hide After, Expected, NoDuplicates, IsDue, Informed, Intact;
    TickAtKeys(w, a, r);
    TickAtKey(w, a, r, k);
  }

  /**
    A removed component that a client holds goes from the client in a tick if and only if its cache is still there, the
    client is due, it is the first connection to be served, and the value had not changed when it was last serialized:
    otherwise that value is sent once more, and applied after the removal.
   */
  lemma RemovalArrivesIff(w: State, a: Action, r: Remote, k: Key)
    requires Intact(w) && a.Synchronize? && Possible(w, a) && r in w.world.clients && w.held[r].Some?
    requires k !in w.values && k in w.held[r].value && Shown(w, r, k.1) && k.1 in a.rule[r]
    requires r in After(w, a).held && After(w, a).held[r].Some?
    ensures k !in After(w, a).held[r].value <==>
              k in w.caches && IsDue(w, a, r, k) && Place(w, a, r) == 0 && !w.caches[k].changed
  {
    hide After, Expected, NoDuplicates, IsDue, Informed, Intact, Place;
    TickAtKeys(w, a, r);
    TickAtKey(w, a, r, k);
  }

  /** After a tick with any connection the cache of a removed component is gone, and with it the last chance to tell. */
  lemma RemovalIsForgotten(w: State, a: Action, k: Key)
    requires Intact(w) && a.Synchronize? && Possible(w, a) && k.0 in w.components
    requires k !in w.values && w.world.clients.Keys != {} && k.1 in a.tagged
    ensures k !in After(w, a).caches
  {
    hide After, NoDuplicates;
    CachesAtKey(w, a, k);
    assert a.order != [];
  }

  /** A client fails if and only if it is the first to be served and is told to remove a component that it has not. */
  lemma FailsIff(w: State, a: Action, r: Remote)
    requires Intact(w) && a.Synchronize? && Possible(w, a) && r in w.world.clients && w.held[r].Some?
    ensures r in After(w, a).held && (After(w, a).held[r] == None <==>
              && Place(w, a, r) == 0
              && exists k :: k in w.caches && k !in w.values && IsDue(w, a, r, k)
                             && !(Shown(w, r, k.1) && k in w.held[r].value))
  {
    hide After, Expected, NoDuplicates, IsDue, Informed, Intact, Place, Shown;
    IntactOf(w, r);
    TickAtKeys(w, a, r);
    var mid := Informed(w, a, r, w.held[r].value);
    forall k
      ensures Expected(w, a, r, k, Lookup(mid, k)) == None <==>
                && Place(w, a, r) == 0 && k in w.caches && k !in w.values && IsDue(w, a, r, k)
                && !(Shown(w, r, k.1) && k in w.held[r].value)
    {
      FailsAtKey(w, a, r, k);
    }
  }

  lemma FailsAtKey(w: State, a: Action, r: Remote, k: Key)
    requires Intact(w) && a.Synchronize? && Possible(w, a) && r in w.world.clients && w.held[r].Some?
    ensures Expected(w, a, r, k, Lookup(Informed(w, a, r, w.held[r].value), k)) == None <==>
              && Place(w, a, r) == 0 && k in w.caches && k !in w.values && IsDue(w, a, r, k)
              && !(Shown(w, r, k.1) && k in w.held[r].value)
  {
    hide NoDuplicates, Informed, Intact, Place, Step, Shown, IsSynchronized, Allowed;
    if IsDue(w, a, r, k) {
      DueIsLive(w, a, r, k);
      DueIsSeen(w, a, r, k);
      TickAtKey(w, a, r, k);
    }
  }

  // ----- every action keeps the invariant

  lemma {:induction false} ServedKeys(t: Tick, sights: seq<Sight>, caches: map<Key, Cache>)
    ensures ServeAll(t, sights, caches).caches.Keys <= caches.Keys + t.values.Keys
  {
    hide IsSynchronized, Refreshed, Due;
    if sights == [] {
    } else {
      ServedKeys(t, sights[..|sights| - 1], caches);
    }
  }

  lemma TickKeepsHeldByEntities(w: State, a: Action, r: Remote)
    requires Intact(w) && a.Synchronize? && Possible(w, a) && r in w.world.clients
    ensures r in After(w, a).held && HeldByEntities(After(w, a), r)
  {
    hide NoDuplicates, Informed, Intact, Place, Step, Shown, IsDue, Allowed, ServeAll, Expected, Kept, HeldNow;
    IntactOf(w, r);
    EntitiesServed(w, a, r);
    assert r in After(w, a).held && After(w, a).world == Seen(w, a);
    if w.held[r].Some? {
      TickAtKeys(w, a, r);
      if After(w, a).held[r].Some? {
        forall k | k in After(w, a).held[r].value ensures k.1 in Seen(w, a).clients[r].value {
          HeldIsThere(w, a, r, k);
        }
      }
    } else {
      assert After(w, a).held[r] == None by { FailedStays(w, a, r); }
    }
  }

  lemma FailedStays(w: State, a: Action, r: Remote)
    requires a.Synchronize? && Possible(w, a) && r in w.world.clients && r in w.held && w.held[r] == None
    ensures r in After(w, a).held && After(w, a).held[r] == None
  {
    hide NoDuplicates, Step, Allowed, ServeAll;
  }

  lemma HeldIsThere(w: State, a: Action, r: Remote, k: Key)
    requires Intact(w) && a.Synchronize? && Possible(w, a) && r in w.world.clients && w.held[r].Some?
    requires r in Seen(w, a).clients && Seen(w, a).clients[r].Some?
    requires Expected(w, a, r, k, Lookup(Informed(w, a, r, w.held[r].value), k)).Some?
    requires Expected(w, a, r, k, Lookup(Informed(w, a, r, w.held[r].value), k)).value.Some?
    ensures k.1 in Seen(w, a).clients[r].value
  {
    hide NoDuplicates, Place, Step, Allowed, Kept, InStep, Removed, Informed;
    IntactOf(w, r);
    EntitiesServed(w, a, r);
    if IsDue(w, a, r, k) {
      assert k.1 in SightOf(w, a, r).statuses;
    } else {
      EntitiesAfter(w.world, a.view, a.rule, r);
      InformedIs(w, a, r);
    }
  }

  lemma TickKeepsIntact(w: State, a: Action)
    requires Intact(w) && a.Synchronize? && Possible(w, a)
    ensures Intact(After(w, a))
  {
    hide HeldByEntities, NoDuplicates, ServeAll, HeldNow, EntityVisibility.Sound, SoundFor, Allowed, Updated;
    StepKeepsSound(w.world, Update(a.view, a.rule));
    ServedKeys(TickOf(w, a), Sights(w, a), w.caches);
    var now := After(w, a);
    assert now.held.Keys == w.held.Keys == now.world.clients.Keys by { TickKeepsRemotes(w, a); }
    forall r | r in now.held ensures HeldByEntities(now, r) {
      TickKeepsHeldByEntities(w, a, r);
    }
    assert now.world.live == w.world.live by { TickKeepsRemotes(w, a); }
  }

  lemma TickKeepsRemotes(w: State, a: Action)
    requires a.Synchronize? && Possible(w, a) && w.held.Keys == w.world.clients.Keys
    ensures After(w, a).held.Keys == w.held.Keys == After(w, a).world.clients.Keys
    ensures After(w, a).world.live == w.world.live
  {
    hide ServeAll, HeldNow, NoDuplicates, KeptForAll;
  }

  lemma OtherKeepsIntact(w: State, a: Action)
    requires Intact(w) && !a.Synchronize? && Possible(w, a)
    ensures Intact(After(w, a))
  {
    hide NoDuplicates, EntityVisibility.Sound;
    if a.Entities? {
      StepKeepsSound(w.world, a.op);
      ClientsStay(w.world, a.op);
    }
  }

  lemma ClientsStay(w: World, op: Op)
    requires !op.Update? && Allowed(w, op)
    ensures var now := Step(w, op);
            && now.live == (match op case Create(e) => w.live + {e} case Destroy(e) => w.live - {e} case _ => w.live)
            && now.clients == match op
                              case Connect(r) => w.clients[r := Some({})]
                              case Disconnect(r) => w.clients - {r}
                              case _ => w.clients
  {
  }

  ghost function Reached(components: seq<Component>, actions: seq<Action>): Option<State> {
    if actions == [] then Some(Start(components))
    else match Reached(components, actions[..|actions| - 1])
      case None => None
      case Some(w) =>
        if Possible(w, actions[|actions| - 1]) then Some(After(w, actions[|actions| - 1])) else None
  }

  lemma {:induction false} RunsAreIntact(components: seq<Component>, actions: seq<Action>)
    requires NoDuplicates(components) && Reached(components, actions).Some?
    ensures Intact(Reached(components, actions).value)
    ensures Reached(components, actions).value.components == components
  {
    hide Intact, Possible, After, NoDuplicates;
    if actions == [] {
      StartIsIntact(components);
    } else {
      RunsAreIntact(components, actions[..|actions| - 1]);
      var w, last := Reached(components, actions[..|actions| - 1]).value, actions[|actions| - 1];
      ComponentsStay(w, last);
      if last.Synchronize? {
        TickKeepsIntact(w, last);
      } else {
        OtherKeepsIntact(w, last);
      }
    }
  }

  lemma ComponentsStay(w: State, a: Action)
    requires Possible(w, a)
    ensures After(w, a).components == w.components
    ensures a.Synchronize? ==> After(w, a).values == w.values
  {
    hide HeldNow, ServeAll, Step, Allowed;
  }

  lemma StartIsIntact(components: seq<Component>)
    requires NoDuplicates(components)
    ensures Intact(Start(components))
  {
    EntityVisibility.StartIsSound();
  }

  // ----- who follows

  /** What is cached for a client's entity is what the client holds. */
  ghost predicate Faithful(w: State, r: Remote, k: Key) {
    r in w.held && w.held[r].Some? && Shown(w, r, k.1) && k in w.caches ==>
      Lookup(w.held[r].value, k) == Some(w.caches[k].data)
  }

  /** The client goes on seeing the entity, is not due, and does not hold what will be in the cache. */
  ghost predicate Skipped(w: State, a: Action, r: Remote, k: Key)
    requires a.Synchronize? && Possible(w, a) && r in w.world.clients
  {
    && r in w.held && w.held[r].Some? && k.1 in w.world.live && k.1 in a.rule[r] && !IsDue(w, a, r, k)
    && var cache := CacheAfter(TickOf(w, a), Sights(w, a), Lookup(w.caches, k), k);
       cache.Some? && (if Shown(w, r, k.1) then Lookup(w.held[r].value, k) else None) != Some(cache.value.data)
  }

  lemma ShownAfter(w: State, a: Action, r: Remote, e: Entity)
    requires Intact(w) && a.Synchronize? && Possible(w, a) && r in w.world.clients
    ensures Shown(After(w, a), r, e) <==> e in w.world.live && e in a.rule[r]
  {
    hide NoDuplicates, HeldNow, ServeAll, Kept, EntityVisibility.Sound;
    EntitiesAfter(w.world, a.view, a.rule, r);
    if e in w.world.live {
      StatusAfter(w.world, a.view, a.rule, r, e);
    }
  }

  lemma SomebodyIsDue(w: State, a: Action, r: Remote, k: Key)
    requires a.Synchronize? && Possible(w, a) && r in w.world.clients && IsDue(w, a, r, k)
    ensures SomebodyDue(TickOf(w, a), Sights(w, a), k)
  {
    hide NoDuplicates, IsSynchronized, Allowed, Step;
    var i := Place(w, a, r);
    assert Sights(w, a)[i] == SightOf(w, a, r);
  }

  lemma WhoIsDue(w: State, a: Action, k: Key) returns (r: Remote)
    requires a.Synchronize? && Possible(w, a) && SomebodyDue(TickOf(w, a), Sights(w, a), k) && k.0 in w.components
    ensures r in w.world.clients && IsDue(w, a, r, k)
  {
    hide NoDuplicates, IsSynchronized, Allowed, Step;
    var i :| 0 <= i < |Sights(w, a)| && IsSynchronized(TickOf(w, a), Sights(w, a)[i], k);
    r := a.order[i];
    assert r in Elements(a.order);
  }

  /** A tick keeps a client faithful at a key if and only if it does not skip it. */
  lemma FaithfulIffNotSkipped(w: State, a: Action, r: Remote, k: Key)
    requires Intact(w) && a.Synchronize? && Possible(w, a) && r in w.world.clients && w.held[r].Some?
    requires Faithful(w, r, k) && k.0 in w.components && r in After(w, a).held && After(w, a).held[r].Some?
    ensures Faithful(After(w, a), r, k) <==> !Skipped(w, a, r, k)
  {
    hide NoDuplicates, Informed, Intact, Place, Step, Shown, IsDue, ServeAll, HeldNow, Expected, After, Sights;
    IntactOf(w, r);
    ShownAfter(w, a, r, k.1);
    CachesAtKey(w, a, k);
    TickAtKeys(w, a, r);
    if k.1 in w.world.live {
      TickAtKey(w, a, r, k);
      DueIsSeen(w, a, r, k);
      var now, mid := After(w, a), Lookup(Informed(w, a, r, w.held[r].value), k);
      assert Expected(w, a, r, k, mid) == Some(Lookup(now.held[r].value, k));
      if IsDue(w, a, r, k) {
        SomebodyIsDue(w, a, r, k);
        DueTick(w, a, r, k);
      }
    }
  }

  lemma DueTick(w: State, a: Action, r: Remote, k: Key)
    requires Intact(w) && a.Synchronize? && Possible(w, a) && r in w.world.clients && IsDue(w, a, r, k)
    ensures TickOf(w, a).values == w.values && k.1 in TickOf(w, a).tagged && Sights(w, a) != []
  {
    hide NoDuplicates, Step, Allowed;
    assert r in Elements(a.order);
  }

  /**
    Nobody is skipped at a key that no rule keeps from it if its time has come, or its entity appears to nobody, or its
    value is the cached one.
   */
  lemma NotSkippedIf(w: State, a: Action, r: Remote, k: Key)
    requires Intact(w) && a.Synchronize? && Possible(w, a) && r in w.world.clients && w.held[r].Some?
    requires Faithful(w, r, k) && k.0 in w.components && k.1 in a.tagged && (r, k) !in a.excluded
    requires || k.0 in a.elapsed
             || (forall q :: q in w.world.clients && k.1 in a.rule[q] ==> Shown(w, q, k.1))
             || CachedData(Lookup(w.caches, k)) == Lookup(w.values, k)
    ensures !Skipped(w, a, r, k)
  {
    hide NoDuplicates, Intact, Step, Shown, IsDue, ServeAll, SomebodyDue, Sights;
    if k.1 in w.world.live && k.1 in a.rule[r] && !IsDue(w, a, r, k) {
      DueIsSeen(w, a, r, k);
      assert Shown(w, r, k.1) && k.0 !in a.elapsed;
      var t := TickOf(w, a);
      if SomebodyDue(t, Sights(w, a), k) {
        var q := WhoIsDue(w, a, k);
        DueIsSeen(w, a, q, k);
      }
      assert r in Elements(a.order);
      assert |Sights(w, a)| == |a.order|;
    }
  }

  ghost predicate NeverSkipped(components: seq<Component>, actions: seq<Action>, k: Key)
    requires Reached(components, actions).Some?
  {
    actions != [] ==>
      var init, last := actions[..|actions| - 1], actions[|actions| - 1];
      var w := Reached(components, init).value;
      && NeverSkipped(components, init, k)
      && (last.Synchronize? ==> forall r :: r in w.world.clients ==> !Skipped(w, last, r, k))
  }

  lemma OtherKeepsFaithful(w: State, a: Action, r: Remote, k: Key)
    requires Intact(w) && !a.Synchronize? && Possible(w, a) && (forall q :: Faithful(w, q, k))
    ensures Faithful(After(w, a), r, k)
  {
    hide NoDuplicates, InStep;
    assert Faithful(w, r, k);
    if a.Entities? {
      ClientsStay(w.world, a.op);
      if a.op.Connect? && a.op.r == r {
        assert r !in w.world.storage;
      }
    }
  }

  lemma TickKeepsFaithful(w: State, a: Action, r: Remote, k: Key)
    requires Intact(w) && a.Synchronize? && Possible(w, a) && k.0 in w.components
    requires forall q :: Faithful(w, q, k)
    requires forall q :: q in w.world.clients ==> !Skipped(w, a, q, k)
    ensures Faithful(After(w, a), r, k)
  {
    hide NoDuplicates, Skipped, HeldNow, ServeAll, EntityVisibility.Sound, Step, Allowed;
    if r in After(w, a).held && After(w, a).held[r].Some? {
      if w.held[r].Some? {
        assert Faithful(w, r, k);
        FaithfulIffNotSkipped(w, a, r, k);
      } else {
        FailedStays(w, a, r);
      }
    }
  }

  /** If no tick skips anybody at a key, the cache is what every client holds there, in every state of the run. */
  lemma {:induction false} RunsAreFaithful(components: seq<Component>, actions: seq<Action>, k: Key)
    requires NoDuplicates(components) && Reached(components, actions).Some? && k.0 in components
    requires NeverSkipped(components, actions, k)
    ensures forall r :: Faithful(Reached(components, actions).value, r, k)
  {
    hide Possible, After, Skipped, Intact, NoDuplicates, Shown;
    if actions == [] {
    } else {
      var init, last := actions[..|actions| - 1], actions[|actions| - 1];
      var w := Reached(components, init).value;
      RunsAreFaithful(components, init, k);
      RunsAreIntact(components, init);
      forall r ensures Faithful(After(w, last), r, k) {
        if last.Synchronize? {
          TickKeepsFaithful(w, last, r, k);
        } else {
          OtherKeepsFaithful(w, last, r, k);
        }
      }
    }
  }

  /**
    As long as nobody is skipped at a key: after every tick, each client that is due holds the present value, unless it
    has failed.
   */
  lemma ClientsFollow(components: seq<Component>, actions: seq<Action>, r: Remote, k: Key)
    requires NoDuplicates(components) && Reached(components, actions).Some? && actions != []
    requires actions[|actions| - 1].Synchronize? && NeverSkipped(components, actions[..|actions| - 1], k)
    ensures var w, a, now := Reached(components, actions[..|actions| - 1]).value, actions[|actions| - 1],
                             Reached(components, actions).value;
            r in w.world.clients && IsDue(w, a, r, k) && k in w.values && r in now.held && now.held[r].Some? ==>
              now.values == w.values && Lookup(now.held[r].value, k) == Some(w.values[k])
  {
    hide Possible, After, Skipped, Intact, NoDuplicates, Shown, IsDue;
    var w, a := Reached(components, actions[..|actions| - 1]).value, actions[|actions| - 1];
    RunsAreIntact(components, actions[..|actions| - 1]);
    ComponentsStay(w, a);
    if r in w.world.clients && IsDue(w, a, r, k) && k in w.values && r in After(w, a).held
       && After(w, a).held[r].Some?
    {
      IntactOf(w, r);
      IntactAtKey(w, k);
      RunsAreFaithful(components, actions[..|actions| - 1], k);
      assert Faithful(w, r, k);
      if w.held[r].Some? {
        FollowsIff(w, a, r, k);
      } else {
        FailedStays(w, a, r);
      }
    }
  }

  // ----- runs in which everybody follows

  /** No rules, all tags, and one connection at a time or every timer elapsed. */
  predicate Gentle(components: seq<Component>, a: Action) {
    a.Synchronize? ==>
      && a.excluded == {} && (forall e :: e in a.view ==> e in a.tagged)
      && (|a.order| <= 1 || forall c :: c in components ==> c in a.elapsed)
  }

  lemma GentleSkipsNobody(w: State, a: Action, r: Remote, k: Key)
    requires Intact(w) && a.Synchronize? && Possible(w, a) && r in w.world.clients && k.0 in w.components
    requires Gentle(w.components, a) && Faithful(w, r, k)
    ensures !Skipped(w, a, r, k)
  {
    hide NoDuplicates, Intact, Step, IsDue, ServeAll, SomebodyDue, Sights, EntityVisibility.Sound;
    IntactOf(w, r);
    if Skipped(w, a, r, k) {
      DueIsSeen(w, a, r, k);
      assert k.1 in Elements(a.view);
      if k.0 !in a.elapsed {
        assert r in Elements(a.order);
        forall q | q in w.world.clients ensures q == r {
          assert q in Elements(a.order);
        }
      }
      NotSkippedIf(w, a, r, k);
    }
  }

  lemma {:induction false} GentleRunsSkipNobody(components: seq<Component>, actions: seq<Action>, k: Key)
    requires NoDuplicates(components) && Reached(components, actions).Some? && k.0 in components
    requires forall a :: a in actions ==> Gentle(components, a)
    ensures NeverSkipped(components, actions, k)
  {
    hide Possible, After, Skipped, Intact, NoDuplicates, Gentle, Faithful;
    if actions == [] {
    } else {
      var init, last := actions[..|actions| - 1], actions[|actions| - 1];
      GentleRunsSkipNobody(components, init, k);
      var w := Reached(components, init).value;
      RunsAreIntact(components, init);
      RunsAreFaithful(components, init, k);
      if last.Synchronize? {
        forall r | r in w.world.clients ensures !Skipped(w, last, r, k) {
          GentleSkipsNobody(w, last, r, k);
        }
      }
    }
  }

  /** Only a removal can make a client fail. */
  lemma {:induction false} RunsWithoutRemovals(components: seq<Component>, actions: seq<Action>)
    requires NoDuplicates(components) && Reached(components, actions).Some?
    requires forall a :: a in actions ==> !a.RemoveValue?
    ensures var w := Reached(components, actions).value;
            w.caches.Keys <= w.values.Keys && forall r :: r in w.held ==> w.held[r].Some?
  {
    hide Possible, After, Intact, NoDuplicates;
    if actions == [] {
    } else {
      var init, last := actions[..|actions| - 1], actions[|actions| - 1];
      RunsWithoutRemovals(components, init);
      RunsAreIntact(components, init);
      if last.Synchronize? {
        TickFailsNobody(Reached(components, init).value, last);
      } else {
        OtherFailsNobody(Reached(components, init).value, last);
      }
    }
  }

  lemma TickFailsNobody(w: State, a: Action)
    requires Intact(w) && a.Synchronize? && Possible(w, a)
    requires w.caches.Keys <= w.values.Keys && forall r :: r in w.held ==> w.held[r].Some?
    ensures var now := After(w, a);
            now.caches.Keys <= now.values.Keys && forall r :: r in now.held ==> now.held[r].Some?
  {
    hide NoDuplicates, HeldNow, ServeAll, Step, Allowed, EntityVisibility.Sound, IsDue;
    ServedKeys(TickOf(w, a), Sights(w, a), w.caches);
    forall r | r in After(w, a).held ensures After(w, a).held[r].Some? {
      FailsIff(w, a, r);
    }
  }

  lemma OtherFailsNobody(w: State, a: Action)
    requires !a.Synchronize? && !a.RemoveValue? && Possible(w, a)
    requires w.caches.Keys <= w.values.Keys && forall r :: r in w.held ==> w.held[r].Some?
    ensures var now := After(w, a);
            now.caches.Keys <= now.values.Keys && forall r :: r in now.held ==> now.held[r].Some?
  {
    hide NoDuplicates, Step, Allowed;
  }

  /**
    With one connection at a time, or with timers that always elapse, and without rules, tags and removals: after every
    tick each client holds the present value of every component that is due, for every entity that it sees.
   */
  lemma GentleClientsFollow(components: seq<Component>, actions: seq<Action>, r: Remote, k: Key)
    requires NoDuplicates(components) && Reached(components, actions).Some? && actions != []
    requires actions[|actions| - 1].Synchronize?
    requires forall a :: a in actions ==> Gentle(components, a) && !a.RemoveValue?
    ensures var w, a, now := Reached(components, actions[..|actions| - 1]).value, actions[|actions| - 1],
                             Reached(components, actions).value;
            r in now.world.clients && k in now.values && k.1 in a.rule[r] && (k.0 in a.elapsed || !Shown(w, r, k.1)) ==>
              r in now.held && now.held[r].Some? && Lookup(now.held[r].value, k) == Some(now.values[k])
  {
    hide Possible, After, Intact, NoDuplicates, Shown, IsDue, NeverSkipped;
    var init, a := actions[..|actions| - 1], actions[|actions| - 1];
    var w, now := Reached(components, init).value, Reached(components, actions).value;
    RunsAreIntact(components, init);
    RunsAreIntact(components, actions);
    RunsWithoutRemovals(components, actions);
    ComponentsStay(w, a);
    RemotesStay(w, a);
    assert a.rule.Keys == w.world.clients.Keys by { RuleCovers(w, a); }
    if r in now.world.clients && k in now.values && k.1 in a.rule[r] {
      IntactAtKey(w, k);
      IntactOf(now, r);
      assert forall b :: b in init ==> b in actions;
      GentleRunsSkipNobody(components, init, k);
      DueIsSeen(w, a, r, k);
      ViewIsTagged(w, a, k.1);
      ClientsFollow(components, actions, r, k);
    }
  }

  lemma RuleCovers(w: State, a: Action)
    requires a.Synchronize? && Possible(w, a)
    ensures a.rule.Keys == w.world.clients.Keys
  {
  }

  lemma RemotesStay(w: State, a: Action)
    requires a.Synchronize? && Possible(w, a)
    ensures After(w, a).world.clients.Keys == w.world.clients.Keys
  {
    hide HeldNow, ServeAll, NoDuplicates, KeptForAll;
  }

  lemma ViewIsTagged(w: State, a: Action, e: Entity)
    requires a.Synchronize? && Possible(w, a) && Gentle(w.components, a) && e in w.world.live
    ensures e in a.tagged && a.excluded == {}
  {
    assert e in Elements(a.view);
  }

  // ----- nothing is sent twice

  lemma {:induction false} AboutIsThere(messages: seq<Change>, k: Key)
    ensures About(messages, k) != [] <==> exists m :: m in messages && m.At() == k
  {
    if messages == [] {
    } else {
      var init, last := messages[..|messages| - 1], messages[|messages| - 1];
      assert messages == init + [last];
      AboutIsThere(init, k);
    }
  }

  /**
    Where the client is faithful, a value is sent to it if and only if it is due and the client, once told of the
    entities that come and go, does not hold it already, or the value has not been serialized before.
   */
  lemma NothingIsSentTwice(w: State, a: Action, r: Remote, k: Key)
    requires Intact(w) && a.Synchronize? && Possible(w, a) && r in w.world.clients && w.held[r].Some?
    requires Faithful(w, r, k) && k in w.values
    ensures (exists m :: m in CompoundFor(TickOf(w, a), Sights(w, a), Place(w, a, r), w.caches) && m.At() == k) <==>
              && IsDue(w, a, r, k)
              && (Lookup(Informed(w, a, r, w.held[r].value), k) != Some(w.values[k]) || k !in w.caches)
  {
    hide NoDuplicates, HeldNow, ServeAll, Step, Allowed, EntityVisibility.Sound, CachesFor, Messages, Informed, Place,
         About, IsSynchronized, SightOf;
    var t, sights, i := TickOf(w, a), Sights(w, a), Place(w, a, r);
    var mine := CachesFor(t, sights, i, w.caches);
    IntactAtKey(w, k);
    LiveIsInView(w, a, k.1);
    AboutIsThere(CompoundFor(t, sights, i, w.caches), k);
    MessagesAbout(t, sights[i], mine, w.components, k);
    DueIsSeen(w, a, r, k);
    InformedAtKey(w, a, r, k);
    if IsDue(w, a, r, k) {
      CachesForAtKey(t, sights, i, w.caches, k);
    }
  }

  /** Nothing is sent about a component whose time has not come, of an entity that goes on being visible. */
  lemma NotElapsedIsSilent(w: State, a: Action, r: Remote, k: Key)
    requires Intact(w) && a.Synchronize? && Possible(w, a) && r in w.world.clients
    requires Shown(w, r, k.1) && k.1 in a.rule[r] && k.0 !in a.elapsed
    ensures forall m :: m in CompoundFor(TickOf(w, a), Sights(w, a), Place(w, a, r), w.caches) ==> m.At() != k
  {
    hide NoDuplicates, HeldNow, ServeAll, Step, Allowed, EntityVisibility.Sound, CachesFor, Messages, Place, About,
         IsSynchronized, SightOf, Shown;
    var t, sights, i := TickOf(w, a), Sights(w, a), Place(w, a, r);
    LiveIsInView(w, a, k.1);
    AboutIsThere(CompoundFor(t, sights, i, w.caches), k);
    MessagesAbout(t, sights[i], CachesFor(t, sights, i, w.caches), w.components, k);
    assert k.1 in w.world.live by { ShownIsLive(w, r, k.1); }
    DueIsSeen(w, a, r, k);
  }

  lemma ShownIsLive(w: State, r: Remote, e: Entity)
    requires Shown(w, r, e)
    ensures e in w.world.live
  {
  }

  /** Of a value that is there, a connection is told once, if it is due and has not seen the entity or the value. */
  lemma SaidOfValue(w: State, a: Action, r: Remote, k: Key)
    requires Intact(w) && a.Synchronize? && Possible(w, a) && r in w.world.clients && k in w.values
    ensures About(CompoundFor(TickOf(w, a), Sights(w, a), Place(w, a, r), w.caches), k)
            == if IsDue(w, a, r, k) && (!Shown(w, r, k.1) || CachedData(Lookup(w.caches, k)) != Some(w.values[k]))
               then [SetComponent(k.0, k.1, w.values[k])] else []
  {
    hide NoDuplicates, HeldNow, ServeAll, Step, Allowed, EntityVisibility.Sound, CachesFor, Messages, Place, About,
         IsSynchronized, SightOf, Shown;
    var t, sights, i := TickOf(w, a), Sights(w, a), Place(w, a, r);
    IntactAtKey(w, k);
    LiveIsInView(w, a, k.1);
    MessagesAbout(t, sights[i], CachesFor(t, sights, i, w.caches), w.components, k);
    DueIsSeen(w, a, r, k);
    if IsDue(w, a, r, k) {
      CachesForAtKey(t, sights, i, w.caches, k);
    }
  }

  lemma LiveIsInView(w: State, a: Action, e: Entity)
    requires a.Synchronize? && Possible(w, a) && Intact(w)
    ensures e in w.world.live ==> e in a.view
    ensures NoDuplicates(a.view) && NoDuplicates(w.components)
  {
    hide NoDuplicates;
    assert e in w.world.live ==> e in Elements(a.view);
  }
}
