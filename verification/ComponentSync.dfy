/**
  How component values reach the remotes in one tick. The values last serialized are cached, in one cache for all
  connections; a connection gets a value if its component's timer has elapsed and the value differs from the cache, and
  always in the tick in which the entity appears to it. A removed component is told by its cache, which goes with the
  first connection. The messages for a connection travel in a compound, which the client applies last message first.
 */
module ComponentSync {
  import opened ByteStack
  import opened EntityVisibility
  import opened Sequences
  import opened Wrappers

  type Component = nat
  type Bytes = seq<u8>
  type Key = (Component, Entity)

  datatype Cache = Cache(data: Bytes, changed: bool)

  datatype Change =
    | SetComponent(component: Component, entity: Entity, data: Bytes)
    | DelComponent(component: Component, entity: Entity)
  {
    function At(): Key {
      (component, entity)
    }
  }

  /**
    What all connections share: the components, the entities in the registry's order, their values, the components whose
    time has come, and the entities that have all required and no excluded tags.
   */
  datatype Tick = Tick(components: seq<Component>, view: seq<Entity>, values: map<Key, Bytes>, elapsed: set<Component>,
                       tagged: set<Entity>)

  /** What one connection sees, and the values that rules keep from it. */
  datatype Sight = Sight(statuses: Statuses, excluded: set<Key>)

  // ----- one tick of the server

  predicate IsSynchronized(t: Tick, s: Sight, k: Key) {
    && k.1 in t.tagged && k.1 in s.statuses
    && !(k in t.values && k in s.excluded)
    && s.statuses[k.1].VisibilityBit()
    && (s.statuses[k.1] == BECAME_VISIBLE || k.0 in t.elapsed)
  }

  function Refreshed(value: Bytes, cache: Option<Cache>): Cache {
    Cache(value, CachedData(cache) != Some(value))
  }

  function CachedData(cache: Option<Cache>): Option<Bytes> {
    match cache
    case None => None
    case Some(c) => Some(c.data)
  }

  function Lookup<K, V>(m: map<K, V>, k: K): Option<V> {
    if k in m then Some(m[k]) else None
  }

  /** The caches once the values of these keys have been serialized again. */
  function Serialized(values: map<Key, Bytes>, caches: map<Key, Cache>, keys: set<Key>): map<Key, Cache> {
    map k | k in caches.Keys + values.Keys * keys ::
      if k in values && k in keys then Refreshed(values[k], Lookup(caches, k)) else caches[k]
  }

  function Due(t: Tick, s: Sight): set<Key> {
    set k | k in t.values && k.0 in t.components && IsSynchronized(t, s, k)
  }

  /** The caches, and for which keys they have been brought up to date in this tick. */
  datatype Shared = Shared(caches: map<Key, Cache>, upToDate: set<Key>)

  /** Whatever is due for a connection is serialized, unless it was for one before it. */
  function Serve(t: Tick, s: Sight, shared: Shared): Shared {
    Shared(Serialized(t.values, shared.caches, Due(t, s) - shared.upToDate), shared.upToDate + Due(t, s))
  }

  /** Removed components lose their cache. */
  function Purged(t: Tick, caches: map<Key, Cache>): map<Key, Cache> {
    map k | k in caches && (k in t.values || k.0 !in t.components || k.1 !in t.tagged) :: caches[k]
  }

  /** After these connections, in their order. */
  function ServeAll(t: Tick, sights: seq<Sight>, caches: map<Key, Cache>): Shared {
    if sights == [] then Shared(caches, {})
    else
      var served := Serve(t, sights[|sights| - 1], ServeAll(t, sights[..|sights| - 1], caches));
      served.(caches := Purged(t, served.caches))
  }

  /** The caches from which the messages for connection i are made. */
  function CachesFor(t: Tick, sights: seq<Sight>, i: nat, caches: map<Key, Cache>): map<Key, Cache>
    requires i < |sights|
  {
    Serve(t, sights[i], ServeAll(t, sights[..i], caches)).caches
  }

  predicate SendsSet(t: Tick, s: Sight, caches: map<Key, Cache>, k: Key) {
    k in caches && IsSynchronized(t, s, k) && (caches[k].changed || s.statuses[k.1].ChangedBit())
  }

  predicate SendsDel(t: Tick, s: Sight, caches: map<Key, Cache>, k: Key) {
    k in caches && k !in t.values && IsSynchronized(t, s, k)
  }

  function ChangesOf(t: Tick, s: Sight, caches: map<Key, Cache>, c: Component, view: seq<Entity>): seq<Change> {
    if view == [] then []
    else
      var e := view[|view| - 1];
      ChangesOf(t, s, caches, c, view[..|view| - 1])
      + if SendsSet(t, s, caches, (c, e)) then [SetComponent(c, e, caches[(c, e)].data)] else []
  }

  function RemovalsOf(t: Tick, s: Sight, caches: map<Key, Cache>, c: Component, view: seq<Entity>): seq<Change> {
    if view == [] then []
    else
      var e := view[|view| - 1];
      RemovalsOf(t, s, caches, c, view[..|view| - 1])
      + if SendsDel(t, s, caches, (c, e)) then [DelComponent(c, e)] else []
  }

  function Messages(t: Tick, s: Sight, caches: map<Key, Cache>, components: seq<Component>): seq<Change> {
    if components == [] then []
    else
      var c := components[|components| - 1];
      Messages(t, s, caches, components[..|components| - 1]) + MessagesOf(t, s, caches, c)
  }

  /** First what changed, then what was removed. */
  function MessagesOf(t: Tick, s: Sight, caches: map<Key, Cache>, c: Component): seq<Change> {
    ChangesOf(t, s, caches, c, t.view) + RemovalsOf(t, s, caches, c, t.view)
  }

  /** The compound for connection i. */
  function CompoundFor(t: Tick, sights: seq<Sight>, i: nat, caches: map<Key, Cache>): seq<Change>
    requires i < |sights|
  {
    Messages(t, sights[i], CachesFor(t, sights, i, caches), t.components)
  }

  // ----- the client

  datatype Client = Client(entities: set<Entity>, held: map<Key, Bytes>)

  /** A component can only be set on an entity that exists, and only be removed if it is there. */
  function ApplyOne(client: Client, m: Change): Option<Client> {
    if m.entity !in client.entities then None
    else match m
      case SetComponent(_, _, data) => Some(client.(held := client.held[m.At() := data]))
      case DelComponent(_, _) => if m.At() in client.held then Some(client.(held := client.held - {m.At()})) else None
  }

  /** The compound comes apart from its end. */
  function ApplyCompound(client: Client, messages: seq<Change>): Option<Client>
    decreases |messages|
  {
    if messages == [] then Some(client)
    else match ApplyOne(client, messages[|messages| - 1])
      case None => None
      case Some(next) => ApplyCompound(next, messages[..|messages| - 1])
  }

  /** The messages about one component of one entity. */
  function About(messages: seq<Change>, k: Key): seq<Change> {
    if messages == [] then []
    else
      var last := messages[|messages| - 1];
      About(messages[..|messages| - 1], k) + if last.At() == k then [last] else []
  }

  /** What they make of what the client holds there. */
  function ApplyAt(held: Option<Bytes>, messages: seq<Change>): Option<Option<Bytes>>
    decreases |messages|
  {
    if messages == [] then Some(held)
    else
      var init := messages[..|messages| - 1];
      match messages[|messages| - 1]
      case SetComponent(_, _, data) => ApplyAt(Some(data), init)
      case DelComponent(_, _) => if held == None then None else ApplyAt(None, init)
  }

  lemma AboutOneMore(init: seq<Change>, m: Change, k: Key)
    ensures About(init + [m], k) == About(init, k) + if m.At() == k then [m] else []
  {
    assert (init + [m])[..|init|] == init;
  }

  lemma {:induction false} AboutBoth(a: seq<Change>, b: seq<Change>, k: Key)
    ensures About(a + b, k) == About(a, k) + About(b, k)
  {
    if b == [] {
      assert a + b == a;
    } else {
      var init, last := b[..|b| - 1], b[|b| - 1];
      assert b == init + [last] && a + b == a + init + [last];
      AboutBoth(a, init, k);
      AboutOneMore(a + init, last, k);
      AboutOneMore(init, last, k);
    }
  }

  lemma ApplyAtOneMore(held: Option<Bytes>, init: seq<Change>, m: Change)
    ensures ApplyAt(held, init + [m])
            == match m
               case SetComponent(_, _, data) => ApplyAt(Some(data), init)
               case DelComponent(_, _) => if held == None then None else ApplyAt(None, init)
  {
    assert (init + [m])[..|init|] == init;
  }

  /** A compound is applied key by key, and fails if it fails at one. */
  lemma {:induction false} CompoundIsApplied(client: Client, messages: seq<Change>)
    requires forall m :: m in messages ==> m.entity in client.entities
    ensures var r := ApplyCompound(client, messages);
            && (r == None <==> exists k :: ApplyAt(Lookup(client.held, k), About(messages, k)) == None)
            && (r.Some? ==>
                  && r.value.entities == client.entities
                  && forall k :: ApplyAt(Lookup(client.held, k), About(messages, k)) == Some(Lookup(r.value.held, k)))
    decreases |messages|
  {
    hide ApplyAt, About;
    if messages == [] {
      NothingAbout();
    } else {
      var init, last := messages[..|messages| - 1], messages[|messages| - 1];
      assert messages == init + [last];
      var next := ApplyOne(client, last);
      forall k ensures next.Some? ==> ApplyAt(Lookup(client.held, k), About(messages, k))
                                      == ApplyAt(Lookup(next.value.held, k), About(init, k))
      {
        AboutOneMore(init, last, k);
        ApplyAtOneMore(Lookup(client.held, k), About(init, k), last);
        assert About(init, k) + [] == About(init, k);
      }
      if next.Some? {
        CompoundIsApplied(next.value, init);
      } else {
        AboutOneMore(init, last, last.At());
        ApplyAtOneMore(None, About(init, last.At()), last);
      }
    }
  }

  lemma NothingAbout()
    ensures forall k :: About([], k) == []
    ensures forall held :: ApplyAt(held, []) == Some(held)
  {
  }

  // ----- the caches, key by key

  ghost predicate SomebodyDue(t: Tick, sights: seq<Sight>, k: Key) {
    exists i :: 0 <= i < |sights| && IsSynchronized(t, sights[i], k)
  }

  /** A value's cache is refreshed once for whoever is due; a removed one's is gone after the first connection. */
  ghost function CacheAfter(t: Tick, sights: seq<Sight>, cache: Option<Cache>, k: Key): Option<Cache> {
    if k in t.values then
      if SomebodyDue(t, sights, k) then Some(Refreshed(t.values[k], cache)) else cache
    else
      if sights == [] || k.1 !in t.tagged then cache else None
  }

  lemma SomebodyOfMore(t: Tick, sights: seq<Sight>, k: Key)
    requires sights != []
    ensures SomebodyDue(t, sights, k)
            <==> SomebodyDue(t, sights[..|sights| - 1], k) || IsSynchronized(t, sights[|sights| - 1], k)
  {
    hide IsSynchronized;
    var init := sights[..|sights| - 1];
    if SomebodyDue(t, init, k) {
      var i :| 0 <= i < |init| && IsSynchronized(t, init[i], k);
      assert IsSynchronized(t, sights[i], k);
    }
    if i :| 0 <= i < |sights| && IsSynchronized(t, sights[i], k) {
      assert i < |init| ==> IsSynchronized(t, init[i], k);
    }
  }

  lemma ServeAtKey(t: Tick, s: Sight, shared: Shared, k: Key)
    ensures var after, due := Serve(t, s, shared), k.0 in t.components && k in t.values && IsSynchronized(t, s, k);
            && (k in after.upToDate <==> k in shared.upToDate || due)
            && Lookup(after.caches, k)
               == if due && k !in shared.upToDate then Some(Refreshed(t.values[k], Lookup(shared.caches, k)))
                  else Lookup(shared.caches, k)
  {
    hide IsSynchronized, Refreshed;
  }

  lemma PurgedAtKey(t: Tick, caches: map<Key, Cache>, k: Key)
    ensures Lookup(Purged(t, caches), k)
            == if k in t.values || k.0 !in t.components || k.1 !in t.tagged then Lookup(caches, k) else None
  {
  }

  lemma {:induction false} ServeAllAtKey(t: Tick, sights: seq<Sight>, caches: map<Key, Cache>, k: Key)
    requires k.0 in t.components
    ensures var r := ServeAll(t, sights, caches);
            && Lookup(r.caches, k) == CacheAfter(t, sights, Lookup(caches, k), k)
            && (k in r.upToDate <==> k in t.values && SomebodyDue(t, sights, k))
  {
    hide IsSynchronized, Refreshed, Serve, Purged, SomebodyDue;
    if sights == [] {
      NobodyDue(t, k);
    } else {
      var init, last := sights[..|sights| - 1], sights[|sights| - 1];
      SomebodyOfMore(t, sights, k);
      NobodyDue(t, k);
      ServeAllAtKey(t, init, caches, k);
      ServeAtKey(t, last, ServeAll(t, init, caches), k);
      PurgedAtKey(t, Serve(t, last, ServeAll(t, init, caches)).caches, k);
    }
  }

  lemma NobodyDue(t: Tick, k: Key)
    ensures !SomebodyDue(t, [], k)
  {
  }

  lemma CachesForAtKey(t: Tick, sights: seq<Sight>, i: nat, caches: map<Key, Cache>, k: Key)
    requires k.0 in t.components && i < |sights| && k.1 in t.tagged
    ensures var mine, cache := Lookup(CachesFor(t, sights, i, caches), k), Lookup(caches, k);
            && (k in t.values && IsSynchronized(t, sights[i], k) ==> mine == Some(Refreshed(t.values[k], cache)))
            && (k !in t.values ==> mine == if i == 0 then cache else None)
  {
    hide IsSynchronized, Refreshed, Serve, SomebodyDue;
    ServeAllAtKey(t, sights[..i], caches, k);
    ServeAtKey(t, sights[i], ServeAll(t, sights[..i], caches), k);
  }

  // ----- the messages, key by key

  /** What a connection is told about one key, in this order. */
  function Outgoing(t: Tick, s: Sight, caches: map<Key, Cache>, k: Key): seq<Change> {
    (if SendsSet(t, s, caches, k) then [SetComponent(k.0, k.1, caches[k].data)] else [])
    + if SendsDel(t, s, caches, k) then [DelComponent(k.0, k.1)] else []
  }

  lemma {:induction false} ChangesAbout(t: Tick, s: Sight, caches: map<Key, Cache>, c: Component, view: seq<Entity>,
                                        k: Key)
    requires NoDuplicates(view)
    ensures About(ChangesOf(t, s, caches, c, view), k)
            == if c == k.0 && k.1 in view && SendsSet(t, s, caches, k)
               then [SetComponent(k.0, k.1, caches[k].data)] else []
  {
    hide IsSynchronized;
    if view == [] {
      NothingAbout();
    } else {
      var init, e := view[..|view| - 1], view[|view| - 1];
      assert view == init + [e] && e !in init;
      ChangesAbout(t, s, caches, c, init, k);
      if SendsSet(t, s, caches, (c, e)) {
        AboutOneMore(ChangesOf(t, s, caches, c, init), SetComponent(c, e, caches[(c, e)].data), k);
      } else {
        assert ChangesOf(t, s, caches, c, init) + [] == ChangesOf(t, s, caches, c, init);
      }
    }
  }

  lemma {:induction false} RemovalsAbout(t: Tick, s: Sight, caches: map<Key, Cache>, c: Component, view: seq<Entity>,
                                         k: Key)
    requires NoDuplicates(view)
    ensures About(RemovalsOf(t, s, caches, c, view), k)
            == if c == k.0 && k.1 in view && SendsDel(t, s, caches, k) then [DelComponent(k.0, k.1)] else []
  {
    hide SendsDel;
    if view == [] {
      NothingAbout();
    } else {
      var init, e := view[..|view| - 1], view[|view| - 1];
      assert view == init + [e] && e !in init;
      RemovalsAbout(t, s, caches, c, init, k);
      if SendsDel(t, s, caches, (c, e)) {
        AboutOneMore(RemovalsOf(t, s, caches, c, init), DelComponent(c, e), k);
      } else {
        assert RemovalsOf(t, s, caches, c, init) + [] == RemovalsOf(t, s, caches, c, init);
      }
    }
  }

  /** A compound says about each key what is to be said about it, once. */
  lemma {:induction false} MessagesAbout(t: Tick, s: Sight, caches: map<Key, Cache>, components: seq<Component>, k: Key)
    requires NoDuplicates(components) && NoDuplicates(t.view)
    ensures About(Messages(t, s, caches, components), k)
            == if k.0 in components && k.1 in t.view then Outgoing(t, s, caches, k) else []
  {
    hide MessagesOf, Outgoing, About;
    if components == [] {
      NothingAbout();
    } else {
      var init, c := components[..|components| - 1], components[|components| - 1];
      assert components == init + [c] && c !in init;
      MessagesAbout(t, s, caches, init, k);
      ComponentAbout(t, s, caches, c, k);
      AboutBoth(Messages(t, s, caches, init), MessagesOf(t, s, caches, c), k);
    }
  }

  lemma ComponentAbout(t: Tick, s: Sight, caches: map<Key, Cache>, c: Component, k: Key)
    requires NoDuplicates(t.view)
    ensures About(MessagesOf(t, s, caches, c), k)
            == if c == k.0 && k.1 in t.view then Outgoing(t, s, caches, k) else []
  {
    hide About, ChangesOf, RemovalsOf, IsSynchronized;
    ChangesAbout(t, s, caches, c, t.view, k);
    RemovalsAbout(t, s, caches, c, t.view, k);
    AboutBoth(ChangesOf(t, s, caches, c, t.view), RemovalsOf(t, s, caches, c, t.view), k);
  }

  /** Nothing is said about an entity that the connection does not see. */
  lemma {:induction false} MessagesAreShown(t: Tick, s: Sight, caches: map<Key, Cache>, components: seq<Component>)
    ensures forall m :: m in Messages(t, s, caches, components) ==>
                          m.entity in s.statuses && s.statuses[m.entity].VisibilityBit()
  {
    if components == [] {
    } else {
      var c := components[|components| - 1];
      MessagesAreShown(t, s, caches, components[..|components| - 1]);
      PartsAreShown(t, s, caches, c, t.view);
    }
  }

  lemma {:induction false} PartsAreShown(t: Tick, s: Sight, caches: map<Key, Cache>, c: Component, view: seq<Entity>)
    ensures forall m :: m in ChangesOf(t, s, caches, c, view) + RemovalsOf(t, s, caches, c, view) ==>
                          m.entity in s.statuses && s.statuses[m.entity].VisibilityBit()
  {
    if view == [] {
    } else {
      PartsAreShown(t, s, caches, c, view[..|view| - 1]);
    }
  }

  // ----- what a tick makes of a client

  /**
    What the client of connection i holds at a key after the tick, or None if it was told to remove what it has not. The
    connection is `first` if none was served before it.
   */
  function Outcome(t: Tick, s: Sight, first: bool, cache: Option<Cache>, k: Key, held: Option<Bytes>)
      : Option<Option<Bytes>>
  {
    if k.0 !in t.components || !IsSynchronized(t, s, k) then Some(held)
    else
      var appeared := s.statuses[k.1].ChangedBit();
      if k in t.values then
        if appeared || CachedData(cache) != Some(t.values[k]) then Some(Some(t.values[k])) else Some(held)
      else if cache == None || !first then Some(held)
      else if held == None then None
      else if appeared || cache.value.changed then Some(Some(cache.value.data))
      else Some(None)
  }

  lemma OutcomeIsApplied(t: Tick, sights: seq<Sight>, i: nat, caches: map<Key, Cache>, k: Key, held: Option<Bytes>)
    requires i < |sights| && NoDuplicates(t.components) && NoDuplicates(t.view)
    requires sights[i].statuses.Keys <= Elements(t.view)
    ensures ApplyAt(held, About(CompoundFor(t, sights, i, caches), k))
            == Outcome(t, sights[i], i == 0, Lookup(caches, k), k, held)
  {
    hide Messages, CachesFor, NoDuplicates, About, ApplyAt, IsSynchronized;
    var s, mine := sights[i], CachesFor(t, sights, i, caches);
    MessagesAbout(t, s, mine, t.components, k);
    NothingAbout();
    if k.0 in t.components && IsSynchronized(t, s, k) {
      SynchronizedIsThere(t, s, k);
      CachesForAtKey(t, sights, i, caches, k);
      OutgoingIsApplied(t, s, mine, k, held);
    } else if k.0 in t.components && k.1 in t.view {
      assert Outgoing(t, s, mine, k) == [];
    }
  }

  lemma SynchronizedIsThere(t: Tick, s: Sight, k: Key)
    requires s.statuses.Keys <= Elements(t.view) && IsSynchronized(t, s, k)
    ensures k.1 in t.view && k.1 in t.tagged && k.1 in s.statuses
  {
  }

  /** The removal comes off the compound before the value does. */
  lemma OutgoingIsApplied(t: Tick, s: Sight, caches: map<Key, Cache>, k: Key, held: Option<Bytes>)
    requires IsSynchronized(t, s, k)
    ensures k.1 in s.statuses
    ensures ApplyAt(held, Outgoing(t, s, caches, k))
            == if k !in caches then Some(held)
               else if k !in t.values && held == None then None
               else if caches[k].changed || s.statuses[k.1].ChangedBit() then Some(Some(caches[k].data))
               else Some(if k in t.values then held else None)
  {
    var none: seq<Change> := [];
    NothingAbout();
    if k in caches {
      var put, del := SetComponent(k.0, k.1, caches[k].data), DelComponent(k.0, k.1);
      ApplyAtOneMore(held, none, put);
      ApplyAtOneMore(None, none, put);
      ApplyAtOneMore(held, none, del);
      ApplyAtOneMore(held, [put], del);
      assert none + [put] == [put] && none + [del] == [del] && [put] + none == [put];
    }
  }

  /** The whole client: it gets what Outcome says at every key, or fails because Outcome does at one. */
  lemma ClientIsServed(t: Tick, sights: seq<Sight>, i: nat, caches: map<Key, Cache>, client: Client)
    requires i < |sights| && NoDuplicates(t.components) && NoDuplicates(t.view)
    requires sights[i].statuses.Keys <= Elements(t.view)
    requires forall e :: e in sights[i].statuses && sights[i].statuses[e].VisibilityBit() ==> e in client.entities
    ensures var r := ApplyCompound(client, CompoundFor(t, sights, i, caches));
            && (r == None <==> exists k ::
                  Outcome(t, sights[i], i == 0, Lookup(caches, k), k, Lookup(client.held, k)) == None)
            && (r.Some? ==>
                  && r.value.entities == client.entities
                  && forall k :: Outcome(t, sights[i], i == 0, Lookup(caches, k), k, Lookup(client.held, k))
                                 == Some(Lookup(r.value.held, k)))
  {
    hide Messages, CachesFor, NoDuplicates, ApplyCompound, About, ApplyAt, Outcome;
    var messages := CompoundFor(t, sights, i, caches);
    MessagesAreShown(t, sights[i], CachesFor(t, sights, i, caches), t.components);
    CompoundIsApplied(client, messages);
    forall k ensures ApplyAt(Lookup(client.held, k), About(messages, k))
                     == Outcome(t, sights[i], i == 0, Lookup(caches, k), k, Lookup(client.held, k))
    {
      OutcomeIsApplied(t, sights, i, caches, k, Lookup(client.held, k));
    }
  }
}
