/** The synchronizer as an object: its caches, their up-to-date tags and its timers, and the loops of its update. */
module SystemSynchronizer {
  import opened ComponentSync
  import opened EntityVisibility
  import opened Sequences
  import SyncTimers

  class Synchronizer {
    const components: seq<Component>
    var rates: map<Component, int>
    var lastSync: map<Component, int>
    var caches: map<Key, Cache>
    var upToDate: set<Key>

    ghost predicate Valid()
      reads this
    {
      && NoDuplicates(components)
      && rates.Keys == lastSync.Keys == Elements(components)
      && upToDate == {}
    }

    constructor (components: seq<Component>, rate: int)
      requires NoDuplicates(components)
      ensures Valid() && this.components == components && caches == map[]
      ensures Timers() == SyncTimers.Start(Elements(components), rate)
      ensures forall c :: c in components ==> rates[c] == rate && lastSync[c] == 0
      ensures forall now :: now >= rate ==> Elapsed(now) == Elements(components)
    {
      this.components := components;
      rates := map c | c in components :: rate;
      lastSync := map c | c in components :: 0;
      caches, upToDate := map[], {};
    }

    method SetSyncRate(c: Component, interval: int)
      requires Valid() && c in components
      modifies this
      ensures Valid() && caches == old(caches)
      ensures Timers() == SyncTimers.After(old(Timers()), SyncTimers.SetRate(c, interval))
      ensures rates == old(rates)[c := interval] && lastSync == old(lastSync)
    {
      rates := rates[c := interval];
    }

    /** First the values that have no cache yet, then those whose cache no tag marks as up to date. */
    method UpdateSerializedValues(t: Tick, s: Sight, c: Component)
      requires NoDuplicates(t.view) && Elements(t.view) == s.statuses.Keys
      requires forall k :: k in upToDate ==> k in caches
      modifies this
      ensures rates == old(rates) && lastSync == old(lastSync)
      ensures caches == Serialized(t.values, old(caches), Due(Only(t, c), s) - old(upToDate))
      ensures upToDate == old(upToDate) + Due(Only(t, c), s)
    {
      hide Serialized, IsSynchronized, Due, NoDuplicates;
      ghost var start, marked := caches, upToDate;
      DueUpToNone(t, s, c);
      SerializedNone(t.values, start);
      ghost var done: set<Key> := {};
      for i := 0 to |t.view|
        invariant rates == old(rates) && lastSync == old(lastSync)
        invariant done == DueUpTo(t, s, c, i) - start.Keys
        invariant caches == Serialized(t.values, start, done) && upToDate == marked + done
      {
        var e := t.view[i];
        DueUpToNext(t, s, c, i);
        SerializedKeys(t.values, start, done);
        if (c, e) in t.values && (c, e) !in caches && IsSynchronized(t, s, (c, e)) {
          SerializedNext(t.values, start, done, (c, e));
          caches := caches[(c, e) := Cache(t.values[(c, e)], true)];
          upToDate := upToDate + {(c, e)};
          done := done + {(c, e)};
        }
      }
      DueUpToAll(t, s, c);
      ghost var due := Due(Only(t, c), s);
      ghost var first := due - start.Keys;
      for i := 0 to |t.view|
        invariant rates == old(rates) && lastSync == old(lastSync)
        invariant done == first + (DueUpTo(t, s, c, i) - marked)
        invariant caches == Serialized(t.values, start, done) && upToDate == marked + done
      {
        var e := t.view[i];
        DueUpToNext(t, s, c, i);
        DueUpToWithin(t, s, c, i);
        SerializedKeys(t.values, start, done);
        if (c, e) in t.values && (c, e) in caches && (c, e) !in upToDate && IsSynchronized(t, s, (c, e)) {
          SerializedNext(t.values, start, done, (c, e));
          var data := caches[(c, e)].data;
          caches := caches[(c, e) := Cache(t.values[(c, e)], data != t.values[(c, e)])];
          upToDate := upToDate + {(c, e)};
          done := done + {(c, e)};
        }
      }
      assert done == due - marked && marked + done == marked + due;
    }

    method AddChangesToMessage(t: Tick, s: Sight, c: Component) returns (changes: seq<Change>)
      ensures changes == ChangesOf(t, s, caches, c, t.view)
    {
      changes := [];
      for i := 0 to |t.view|
        invariant changes == ChangesOf(t, s, caches, c, t.view[..i])
      {
        assert t.view[..i + 1][..i] == t.view[..i];
        var k := (c, t.view[i]);
        if k in caches && IsSynchronized(t, s, k) {
          if caches[k].changed || s.statuses[k.1].ChangedBit() {
            changes := changes + [SetComponent(c, k.1, caches[k].data)];
          }
        }
      }
      assert t.view[..|t.view|] == t.view;
    }

    method AddRemovalsToMessage(t: Tick, s: Sight, c: Component) returns (removals: seq<Change>)
      ensures removals == RemovalsOf(t, s, caches, c, t.view)
    {
      removals := [];
      for i := 0 to |t.view|
        invariant removals == RemovalsOf(t, s, caches, c, t.view[..i])
      {
        assert t.view[..i + 1][..i] == t.view[..i];
        var k := (c, t.view[i]);
        if k in caches && k !in t.values && IsSynchronized(t, s, k) {
          removals := removals + [DelComponent(c, k.1)];
        }
      }
      assert t.view[..|t.view|] == t.view;
    }

    method RemoveDestroyedComponentData(t: Tick, c: Component)
      modifies this`caches
      ensures caches == Purged(Only(t, c), old(caches))
    {
      caches := map k | k in caches && (k in t.values || k.0 != c || k.1 !in t.tagged) :: caches[k];
    }

    /** Everything for one connection, component by component. */
    method ServeConnection(t: Tick, s: Sight) returns (message: seq<Change>)
      requires NoDuplicates(components) && t.components == components
      requires NoDuplicates(t.view) && Elements(t.view) == s.statuses.Keys
      requires forall k :: k in upToDate ==> k in caches && k in t.values
      modifies this
      ensures rates == old(rates) && lastSync == old(lastSync)
      ensures var served := Serve(t, s, Shared(old(caches), old(upToDate)));
              && caches == Purged(t, served.caches) && upToDate == served.upToDate
              && message == Messages(t, s, served.caches, components)
      ensures forall k :: k in upToDate ==> k in caches && k in t.values
    {
      hide Serve, Purged, Serialized, Due, NoDuplicates, MessagesOf, IsSynchronized;
      ghost var start := Shared(caches, upToDate);
      ghost var served := Serve(t, s, start);
      message := [];
      ServedUpToNone(t, s, start);
      for i := 0 to |components|
        invariant rates == old(rates) && lastSync == old(lastSync)
        invariant caches == Purged(UpTo(t, i), Serve(UpTo(t, i), s, start).caches)
        invariant upToDate == Serve(UpTo(t, i), s, start).upToDate
        invariant message == Messages(t, s, served.caches, components[..i])
        invariant forall k :: k in upToDate ==> k in caches && k in t.values
      {
        var c := components[i];
        ghost var before := Shared(caches, upToDate);
        UpdateSerializedValues(t, s, c);
        ServeIs(Only(t, c), s, before);
        assert Shared(caches, upToDate) == Serve(Only(t, c), s, before);
        ServedNext(t, s, start, i, before);
        var changes := AddChangesToMessage(t, s, c);
        var removals := AddRemovalsToMessage(t, s, c);
        MessagesAgree(t, s, c, caches, served.caches);
        RemoveDestroyedComponentData(t, c);
        message := message + (changes + removals);
        MessagesNext(t, s, served.caches, i);
      }
      assert components[..|components|] == components;
      assert UpTo(t, |components|) == t;
    }

    function Timers(): SyncTimers.Timers
      reads this
    {
      SyncTimers.Timers(rates, lastSync)
    }

    /** The components whose values are sent to whoever goes on seeing the entity. */
    function Elapsed(now: int): (elapsed: set<Component>)
      requires Valid()
      reads this
      ensures forall c :: c in elapsed <==> c in components && now - lastSync[c] >= rates[c]
    {
      SyncTimers.DueAt(Timers(), now)
    }

    /** One tick: the connections are served one after the other, and an empty message is not sent. */
    method OnSystemUpdate(now: int, view: seq<Entity>, values: map<Key, Bytes>, tagged: set<Entity>, sights: seq<Sight>)
      returns (messages: seq<seq<Change>>)
      requires Valid() && NoDuplicates(view) && forall s :: s in sights ==> Elements(view) == s.statuses.Keys
      modifies this
      ensures Valid() && Timers() == SyncTimers.After(old(Timers()), SyncTimers.Update(now))
      ensures rates == old(rates)
      ensures lastSync == map c | c in old(lastSync) :: if c in old(Elapsed(now)) then now else old(lastSync)[c]
      ensures var t := Tick(components, view, values, old(Elapsed(now)), tagged);
              && caches == ServeAll(t, sights, old(caches)).caches
              && |messages| == |sights|
              && forall i :: 0 <= i < |sights| ==> messages[i] == CompoundFor(t, sights, i, old(caches))
    {
      hide Serve, Purged, Messages, NoDuplicates, Elements;
      var elapsed := Elapsed(now);
      var t := Tick(components, view, values, elapsed, tagged);
      messages := [];
      for i := 0 to |sights|
        invariant rates == old(rates) && lastSync == old(lastSync)
        invariant Shared(caches, upToDate) == ServeAll(t, sights[..i], old(caches))
        invariant forall k :: k in upToDate ==> k in caches && k in values
        invariant |messages| == i && forall j :: 0 <= j < i ==> messages[j] == CompoundFor(t, sights, j, old(caches))
      {
        assert sights[..i + 1][..i] == sights[..i];
        ghost var before := Shared(caches, upToDate);
        var message := ServeConnection(t, sights[i]);
        messages := messages + [message];
        PurgedTwice(t, Serve(t, sights[i], before).caches);
        RemoveWhatElapsed(t);
      }
      assert sights[..|sights|] == sights;
      upToDate := {};
      lastSync := map c | c in lastSync :: if c in elapsed then now else lastSync[c];
    }

    /** Caches of removed components are looked for once more, when their timer has elapsed; none is left by then. */
    method RemoveWhatElapsed(t: Tick)
      requires t.components == components && caches == Purged(t, caches)
      modifies this`caches
      ensures caches == old(caches)
    {
      for i := 0 to |components|
        invariant caches == old(caches)
      {
        if components[i] in t.elapsed {
          PurgedAlready(t, caches, components[i]);
          RemoveDestroyedComponentData(t, components[i]);
        }
      }
    }
  }

  // ----- one component at a time

  /** The same tick for one component. */
  function Only(t: Tick, c: Component): Tick {
    t.(components := [c])
  }

  /** The same tick for the first components. */
  function UpTo(t: Tick, i: nat): Tick
    requires i <= |t.components|
  {
    t.(components := t.components[..i])
  }

  ghost function DueUpTo(t: Tick, s: Sight, c: Component, i: nat): set<Key>
    requires i <= |t.view|
  {
    set e | e in t.view[..i] && (c, e) in t.values && IsSynchronized(t, s, (c, e)) :: (c, e)
  }

  lemma DueUpToNone(t: Tick, s: Sight, c: Component)
    ensures DueUpTo(t, s, c, 0) == {}
  {
  }

  lemma DueUpToNext(t: Tick, s: Sight, c: Component, i: nat)
    requires NoDuplicates(t.view) && i < |t.view|
    ensures (c, t.view[i]) !in DueUpTo(t, s, c, i)
    ensures DueUpTo(t, s, c, i + 1)
            == DueUpTo(t, s, c, i)
               + if (c, t.view[i]) in t.values && IsSynchronized(t, s, (c, t.view[i])) then {(c, t.view[i])} else {}
  {
    hide IsSynchronized;
    assert t.view[..i + 1] == t.view[..i] + [t.view[i]];
  }

  lemma DueUpToAll(t: Tick, s: Sight, c: Component)
    requires Elements(t.view) == s.statuses.Keys
    ensures DueUpTo(t, s, c, |t.view|) == Due(Only(t, c), s)
  {
    assert t.view[..|t.view|] == t.view;
    forall k | k in Due(Only(t, c), s) ensures k in DueUpTo(t, s, c, |t.view|) {
      assert k.1 in Elements(t.view) && k == (c, k.1);
    }
  }

  lemma DueUpToWithin(t: Tick, s: Sight, c: Component, i: nat)
    requires Elements(t.view) == s.statuses.Keys && i < |t.view|
    ensures DueUpTo(t, s, c, i + 1) <= Due(Only(t, c), s)
    ensures (c, t.view[i]) in t.values && IsSynchronized(t, s, (c, t.view[i])) ==>
              (c, t.view[i]) in Due(Only(t, c), s)
  {
  }

  lemma SerializedNone(values: map<Key, Bytes>, caches: map<Key, Cache>)
    ensures Serialized(values, caches, {}) == caches
  {
  }

  lemma SerializedKeys(values: map<Key, Bytes>, caches: map<Key, Cache>, keys: set<Key>)
    ensures Serialized(values, caches, keys).Keys == caches.Keys + values.Keys * keys
  {
  }

  lemma SerializedNext(values: map<Key, Bytes>, caches: map<Key, Cache>, keys: set<Key>, k: Key)
    requires k in values && k !in keys
    ensures Serialized(values, caches, keys + {k})
            == Serialized(values, caches, keys)[k := Refreshed(values[k], Lookup(caches, k))]
    ensures Lookup(Serialized(values, caches, keys), k) == Lookup(caches, k)
  {
    hide Refreshed;
  }

  lemma SameMap<K, V>(a: map<K, V>, b: map<K, V>)
    requires forall k :: Lookup(a, k) == Lookup(b, k)
    ensures a == b
  {
    forall k ensures k in a <==> k in b {
      assert Lookup(a, k) == Lookup(b, k);
    }
    forall k | k in a ensures a[k] == b[k] {
      assert Lookup(a, k) == Lookup(b, k);
    }
  }

  // ----- one component more

  lemma ServeIs(t: Tick, s: Sight, shared: Shared)
    ensures Serve(t, s, shared)
            == Shared(Serialized(t.values, shared.caches, Due(t, s) - shared.upToDate), shared.upToDate + Due(t, s))
  {
  }

  lemma ServedUpToNone(t: Tick, s: Sight, start: Shared)
    ensures Serve(UpTo(t, 0), s, start) == start && Purged(UpTo(t, 0), start.caches) == start.caches
  {
    var served := Serve(UpTo(t, 0), s, start);
    forall k ensures Lookup(served.caches, k) == Lookup(start.caches, k) {
      ServeAtKey(UpTo(t, 0), s, start, k);
    }
    SameMap(served.caches, start.caches);
    assert Due(UpTo(t, 0), s) == {};
  }

  /** All components up to this one, or this one after those before it. */
  lemma ServedNext(t: Tick, s: Sight, start: Shared, i: nat, before: Shared)
    requires i < |t.components| && NoDuplicates(t.components)
    requires forall k :: k in start.upToDate ==> k in start.caches && k in t.values
    requires var served := Serve(UpTo(t, i), s, start);
             before.caches == Purged(UpTo(t, i), served.caches) && before.upToDate == served.upToDate
    ensures var c := t.components[i];
            var after, whole := Serve(Only(t, c), s, before), Serve(UpTo(t, i + 1), s, start);
            && Purged(Only(t, c), after.caches) == Purged(UpTo(t, i + 1), whole.caches)
            && after.upToDate == whole.upToDate
            && (forall k :: k in after.upToDate ==> k in t.values && k in Purged(Only(t, c), after.caches))
            && (forall e :: Lookup(after.caches, (c, e)) == Lookup(Serve(t, s, start).caches, (c, e)))
  {
    hide Serve, Purged, NoDuplicates, IsSynchronized;
    var c := t.components[i];
    var after, whole := Serve(Only(t, c), s, before), Serve(UpTo(t, i + 1), s, start);
    var a, b := Purged(Only(t, c), after.caches), Purged(UpTo(t, i + 1), whole.caches);
    forall k
      ensures Lookup(a, k) == Lookup(b, k) && (k in after.upToDate <==> k in whole.upToDate)
      ensures k in after.upToDate ==> k in t.values && k in a
      ensures k.0 == c ==> Lookup(after.caches, k) == Lookup(Serve(t, s, start).caches, k)
    {
      ServedNextAtKey(t, s, start, i, before, k);
    }
    SameMap(a, b);
    assert after.upToDate == whole.upToDate;
    forall e ensures Lookup(after.caches, (c, e)) == Lookup(Serve(t, s, start).caches, (c, e)) {
      var k := (c, e);
      assert k.0 == c;
    }
  }

  lemma ServedNextAtKey(t: Tick, s: Sight, start: Shared, i: nat, before: Shared, k: Key)
    requires i < |t.components| && NoDuplicates(t.components)
    requires forall k :: k in start.upToDate ==> k in start.caches && k in t.values
    requires var served := Serve(UpTo(t, i), s, start);
             before.caches == Purged(UpTo(t, i), served.caches) && before.upToDate == served.upToDate
    ensures var c := t.components[i];
            var after, whole := Serve(Only(t, c), s, before), Serve(UpTo(t, i + 1), s, start);
            && Lookup(Purged(Only(t, c), after.caches), k) == Lookup(Purged(UpTo(t, i + 1), whole.caches), k)
            && (k in after.upToDate <==> k in whole.upToDate)
            && (k in after.upToDate ==> k in t.values && k in Purged(Only(t, c), after.caches))
            && (k.0 == c ==> Lookup(after.caches, k) == Lookup(Serve(t, s, start).caches, k))
  {
    hide Serve, Purged, NoDuplicates, Refreshed, IsSynchronized;
    var c := t.components[i];
    var one, some, more := Only(t, c), UpTo(t, i), UpTo(t, i + 1);
    SameForComponents(t, s, c, i, k);
    ServeAtKey(some, s, start, k);
    PurgedAtKey(some, Serve(some, s, start).caches, k);
    ServeAtKey(one, s, before, k);
    PurgedAtKey(one, Serve(one, s, before).caches, k);
    ServeAtKey(more, s, start, k);
    PurgedAtKey(more, Serve(more, s, start).caches, k);
    ServeAtKey(t, s, start, k);
  }

  lemma SameForComponents(t: Tick, s: Sight, c: Component, i: nat, k: Key)
    requires i < |t.components| && NoDuplicates(t.components) && c == t.components[i]
    ensures IsSynchronized(Only(t, c), s, k) == IsSynchronized(UpTo(t, i), s, k) == IsSynchronized(t, s, k)
    ensures IsSynchronized(UpTo(t, i + 1), s, k) == IsSynchronized(t, s, k)
    ensures k.0 in UpTo(t, i + 1).components <==> k.0 in UpTo(t, i).components || k.0 == c
    ensures k.0 in Only(t, c).components <==> k.0 == c
    ensures c !in UpTo(t, i).components && c in t.components
    ensures Only(t, c).values == UpTo(t, i).values == UpTo(t, i + 1).values == t.values
    ensures Only(t, c).tagged == UpTo(t, i).tagged == UpTo(t, i + 1).tagged == t.tagged
  {
    assert t.components[..i + 1] == t.components[..i] + [c];
  }

  lemma MessagesAgree(t: Tick, s: Sight, c: Component, a: map<Key, Cache>, b: map<Key, Cache>)
    requires forall e :: Lookup(a, (c, e)) == Lookup(b, (c, e))
    ensures ChangesOf(t, s, a, c, t.view) == ChangesOf(t, s, b, c, t.view)
    ensures RemovalsOf(t, s, a, c, t.view) == RemovalsOf(t, s, b, c, t.view)
  {
    PartsAgree(t, s, c, t.view, a, b);
  }

  lemma {:induction false} PartsAgree(t: Tick, s: Sight, c: Component, view: seq<Entity>, a: map<Key, Cache>,
                                      b: map<Key, Cache>)
    requires forall e :: Lookup(a, (c, e)) == Lookup(b, (c, e))
    ensures ChangesOf(t, s, a, c, view) == ChangesOf(t, s, b, c, view)
    ensures RemovalsOf(t, s, a, c, view) == RemovalsOf(t, s, b, c, view)
  {
    hide IsSynchronized;
    if view == [] {
    } else {
      PartsAgree(t, s, c, view[..|view| - 1], a, b);
      assert Lookup(a, (c, view[|view| - 1])) == Lookup(b, (c, view[|view| - 1]));
    }
  }

  lemma MessagesNext(t: Tick, s: Sight, caches: map<Key, Cache>, i: nat)
    requires i < |t.components|
    ensures Messages(t, s, caches, t.components[..i + 1])
            == Messages(t, s, caches, t.components[..i])
               + (ChangesOf(t, s, caches, t.components[i], t.view) + RemovalsOf(t, s, caches, t.components[i], t.view))
  {
    hide ChangesOf, RemovalsOf;
    assert t.components[..i + 1][..i] == t.components[..i];
  }

  lemma PurgedTwice(t: Tick, caches: map<Key, Cache>)
    ensures Purged(t, Purged(t, caches)) == Purged(t, caches)
  {
  }

  lemma PurgedAlready(t: Tick, caches: map<Key, Cache>, c: Component)
    requires caches == Purged(t, caches) && c in t.components
    ensures Purged(Only(t, c), caches) == caches
  {
    forall k | k in caches ensures k in Purged(Only(t, c), caches) {
      assert k in Purged(t, caches);
    }
  }
}
