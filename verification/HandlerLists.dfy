/**
  The handlers of one event type: lists of ids by priority, kept in ascending order of priority and visited from the
  highest priority down.
 */
module HandlerLists {
  import opened Sequences

  type Id = nat
  type Priority = nat

  datatype Level = Level(priority: Priority, ids: seq<Id>)

  type Levels = seq<Level>

  ghost predicate Sorted(levels: Levels) {
    forall i, j :: 0 <= i < j < |levels| ==> levels[i].priority < levels[j].priority
  }

  /** Appends to the list of that priority, which is made if there is none. */
  function AddAt(levels: Levels, p: Priority, id: Id): Levels {
    if levels == [] || p < levels[0].priority then [Level(p, [id])] + levels
    else if levels[0].priority == p then [Level(p, levels[0].ids + [id])] + levels[1..]
    else [levels[0]] + AddAt(levels[1..], p, id)
  }

  function Without(ids: seq<Id>, id: Id): seq<Id> {
    if ids == [] then [] else (if ids[0] == id then [] else [ids[0]]) + Without(ids[1..], id)
  }

  /** The id is gone; a list that becomes empty stays. */
  function Erase(levels: Levels, id: Id): (r: Levels)
    ensures |r| == |levels| && forall i :: 0 <= i < |r| ==> r[i] == levels[i].(ids := Without(levels[i].ids, id))
  {
    seq(|levels|, i requires 0 <= i < |levels| => levels[i].(ids := Without(levels[i].ids, id)))
  }

  // ----- the order of visits

  datatype Entry = Entry(priority: Priority, id: Id)

  function Entries(level: Level): (r: seq<Entry>)
    ensures |r| == |level.ids| && forall i :: 0 <= i < |r| ==> r[i] == Entry(level.priority, level.ids[i])
  {
    seq(|level.ids|, i requires 0 <= i < |level.ids| => Entry(level.priority, level.ids[i]))
  }

  /** All handlers, in the order in which they are visited. */
  function Flat(levels: Levels): seq<Entry> {
    if levels == [] then [] else Flat(levels[1..]) + Entries(levels[0])
  }

  /** Behind everything of the same or a higher priority. */
  function InsertBehind(list: seq<Entry>, e: Entry): seq<Entry> {
    if list == [] || list[0].priority < e.priority then [e] + list
    else [list[0]] + InsertBehind(list[1..], e)
  }

  function WithoutId(list: seq<Entry>, id: Id): seq<Entry> {
    if list == [] then [] else (if list[0].id == id then [] else [list[0]]) + WithoutId(list[1..], id)
  }

  ghost predicate AllAtLeast(list: seq<Entry>, p: Priority) {
    forall i :: 0 <= i < |list| ==> list[i].priority >= p
  }

  lemma {:induction false} InsertBehindPrefix(a: seq<Entry>, b: seq<Entry>, e: Entry)
    requires AllAtLeast(a, e.priority)
    ensures InsertBehind(a + b, e) == a + InsertBehind(b, e)
  {
    if a == [] {
      assert a + b == b;
    } else {
      assert (a + b)[1..] == a[1..] + b;
      InsertBehindPrefix(a[1..], b, e);
    }
  }

  lemma {:induction false} InsertBehindSuffix(a: seq<Entry>, b: seq<Entry>, e: Entry)
    requires b == [] || b[0].priority < e.priority
    ensures InsertBehind(a + b, e) == InsertBehind(a, e) + b
  {
    if a == [] {
      assert a + b == b;
    } else {
      assert (a + b)[1..] == a[1..] + b;
      InsertBehindSuffix(a[1..], b, e);
    }
  }

  lemma {:induction false} FlatAtLeast(levels: Levels, p: Priority)
    requires forall i :: 0 <= i < |levels| ==> levels[i].priority >= p
    ensures AllAtLeast(Flat(levels), p)
  {
    if levels == [] {
    } else {
      FlatAtLeast(levels[1..], p);
    }
  }

  lemma FlatOf(level: Level, rest: Levels)
    ensures Flat([level] + rest) == Flat(rest) + Entries(level)
  {
    assert ([level] + rest)[1..] == rest;
  }

  /** A new handler is visited after all of its own or a higher priority, and before all of a lower one. */
  lemma {:induction false} AddIsStableInsertion(levels: Levels, p: Priority, id: Id)
    requires Sorted(levels)
    ensures Flat(AddAt(levels, p, id)) == InsertBehind(Flat(levels), Entry(p, id))
  {
    hide InsertBehind, Flat, Entries;
    if levels == [] || p < levels[0].priority {
      FlatOf(Level(p, [id]), levels);
      FlatAtLeast(levels, p);
      assert Flat(levels) + [] == Flat(levels);
      InsertBehindPrefix(Flat(levels), [], Entry(p, id));
      InsertIntoNothing(Entry(p, id));
      assert Entries(Level(p, [id])) == [Entry(p, id)];
    } else if levels[0].priority == p {
      assert levels == [levels[0]] + levels[1..];
      FlatOf(levels[0], levels[1..]);
      FlatOf(Level(p, levels[0].ids + [id]), levels[1..]);
      FlatAtLeast(levels, p);
      InsertBehindPrefix(Flat(levels), [], Entry(p, id));
      InsertIntoNothing(Entry(p, id));
      assert Flat(levels) + [] == Flat(levels);
      assert Entries(Level(p, levels[0].ids + [id])) == Entries(levels[0]) + [Entry(p, id)];
    } else {
      assert levels == [levels[0]] + levels[1..];
      FlatOf(levels[0], levels[1..]);
      FlatOf(levels[0], AddAt(levels[1..], p, id));
      AddIsStableInsertion(levels[1..], p, id);
      InsertBehindSuffix(Flat(levels[1..]), Entries(levels[0]), Entry(p, id));
    }
  }

  /** Where that is: what is before has at least its priority, what comes after has less. */
  ghost predicate InsertedAt(list: seq<Entry>, e: Entry, after: seq<Entry>, k: nat) {
    && k <= |list| && after == list[..k] + [e] + list[k..]
    && (forall i :: 0 <= i < k ==> list[i].priority >= e.priority)
    && (forall i :: k <= i < |list| ==> list[i].priority < e.priority)
  }

  lemma {:induction false} InsertedBetween(list: seq<Entry>, e: Entry)
    requires forall i, j :: 0 <= i < j < |list| ==> list[i].priority >= list[j].priority
    ensures exists k :: InsertedAt(list, e, InsertBehind(list, e), k)
  {
    hide InsertedAt;
    if list == [] || list[0].priority < e.priority {
      InsertedFirst(list, e);
      assert InsertedAt(list, e, InsertBehind(list, e), 0);
    } else {
      InsertedBetween(list[1..], e);
      var k: nat :| InsertedAt(list[1..], e, InsertBehind(list[1..], e), k);
      InsertedLater(list, e, InsertBehind(list[1..], e), k);
      assert InsertedAt(list, e, InsertBehind(list, e), k + 1);
    }
  }

  lemma InsertedFirst(list: seq<Entry>, e: Entry)
    requires forall i :: 0 <= i < |list| ==> list[i].priority < e.priority
    ensures InsertedAt(list, e, [e] + list, 0)
  {
    assert list[..0] + [e] + list[0..] == [e] + list;
  }

  lemma InsertedLater(list: seq<Entry>, e: Entry, after: seq<Entry>, k: nat)
    requires list != [] && list[0].priority >= e.priority && InsertedAt(list[1..], e, after, k)
    ensures InsertedAt(list, e, [list[0]] + after, k + 1)
  {
    var rest := list[1..];
    assert list[..k + 1] == [list[0]] + rest[..k] && list[k + 1..] == rest[k..];
    forall i | k + 1 <= i < |list| ensures list[i].priority < e.priority {
      assert list[i] == rest[i - 1];
    }
  }

  /** Erasing keeps the others, in their order. */
  lemma {:induction false} WithoutIdHas(list: seq<Entry>, id: Id, e: Entry)
    ensures e in WithoutId(list, id) <==> e in list && e.id != id
  {
    if list == [] {
    } else {
      WithoutIdHas(list[1..], id, e);
    }
  }

  lemma {:induction false} InsertBehindHas(list: seq<Entry>, e: Entry, other: Entry)
    ensures other in InsertBehind(list, e) <==> other == e || other in list
  {
    if list == [] || list[0].priority < e.priority {
    } else {
      InsertBehindHas(list[1..], e, other);
    }
  }

  lemma {:induction false} AddKeepsSorted(levels: Levels, p: Priority, id: Id)
    requires Sorted(levels)
    ensures Sorted(AddAt(levels, p, id)) && AddAt(levels, p, id) != []
    ensures AddAt(levels, p, id)[0].priority == if levels == [] || p < levels[0].priority then p else levels[0].priority
  {
    if levels != [] && p > levels[0].priority {
      AddKeepsSorted(levels[1..], p, id);
    }
  }

  lemma InsertIntoNothing(e: Entry)
    ensures InsertBehind([], e) == [e]
  {
  }

  lemma {:induction false} WithoutIdConcat(a: seq<Entry>, b: seq<Entry>, id: Id)
    ensures WithoutId(a + b, id) == WithoutId(a, id) + WithoutId(b, id)
  {
    if a == [] {
      assert a + b == b;
    } else {
      assert (a + b)[1..] == a[1..] + b;
      WithoutIdConcat(a[1..], b, id);
    }
  }

  lemma {:induction false} WithoutIdEntries(p: Priority, ids: seq<Id>, id: Id)
    ensures Entries(Level(p, Without(ids, id))) == WithoutId(Entries(Level(p, ids)), id)
  {
    if ids == [] {
    } else {
      WithoutIdEntries(p, ids[1..], id);
      assert Entries(Level(p, ids))[1..] == Entries(Level(p, ids[1..]));
    }
  }

  /** Erasing takes exactly that handler out of the order of visits. */
  lemma {:induction false} EraseRemoves(levels: Levels, id: Id)
    ensures Flat(Erase(levels, id)) == WithoutId(Flat(levels), id)
    ensures Sorted(levels) ==> Sorted(Erase(levels, id))
  {
    hide WithoutId, Entries, Without;
    if levels == [] {
      NothingWithout(id);
    } else {
      EraseRemoves(levels[1..], id);
      WithoutIdConcat(Flat(levels[1..]), Entries(levels[0]), id);
      WithoutIdEntries(levels[0].priority, levels[0].ids, id);
      assert Erase(levels, id)[1..] == Erase(levels[1..], id);
    }
  }

  lemma NothingWithout(id: Id)
    ensures WithoutId([], id) == []
  {
  }

  /** How many of n handlers are invoked if these cancel: up to and with the first that does. */
  function VisitedCount(n: nat, cancels: seq<bool>): (k: nat)
    ensures k <= n
    ensures forall i :: 0 <= i < k - 1 && i < |cancels| ==> !cancels[i]
    ensures k < n ==> 0 < k <= |cancels| && cancels[k - 1]
  {
    if n == 0 || cancels == [] then n
    else if cancels[0] then 1
    else 1 + VisitedCount(n - 1, cancels[1..])
  }

  lemma VisitedUpTo(n: nat, cancels: seq<bool>, k: nat)
    requires k < n
    ensures k < VisitedCount(n, cancels) <==> forall j :: 0 <= j < k && j < |cancels| ==> !cancels[j]
  {
    var count := VisitedCount(n, cancels);
    if k >= count {
      assert cancels[count - 1];
    }
  }

  // ----- which ids are there

  function Ids(list: seq<Entry>): (r: seq<Id>)
    ensures |r| == |list| && forall i :: 0 <= i < |r| ==> r[i] == list[i].id
  {
    seq(|list|, i requires 0 <= i < |list| => list[i].id)
  }

  function VisitOrder(levels: Levels): seq<Id> {
    Ids(Flat(levels))
  }

  /** What has been visited so far and the outcome of visiting the rest make up the outcome of the whole. */
  ghost predicate Completes<S>(visited: seq<Id>, rest: (S, seq<Id>), whole: (S, seq<Id>)) {
    (rest.0, visited + rest.1) == whole
  }

  lemma CompletesBegin<S>(whole: (S, seq<Id>))
    ensures Completes([], whole, whole)
  {
    assert [] + whole.1 == whole.1;
  }

  lemma CompletesNext<S>(visited: seq<Id>, id: Id, rest: (S, seq<Id>), whole: (S, seq<Id>))
    requires Completes(visited, (rest.0, [id] + rest.1), whole)
    ensures Completes(visited + [id], rest, whole)
  {
    assert visited + [id] + rest.1 == visited + ([id] + rest.1);
  }

  lemma CompletesEnd<S>(visited: seq<Id>, end: S, whole: (S, seq<Id>))
    requires Completes(visited, (end, []), whole)
    ensures (end, visited) == whole
  {
    assert visited + [] == visited;
  }

  predicate Registered(levels: Levels, id: Id) {
    exists i :: 0 <= i < |levels| && id in levels[i].ids
  }

  /** No id is there twice. */
  ghost predicate Distinct(levels: Levels) {
    levels != [] ==>
      && NoDuplicates(levels[0].ids)
      && (forall id :: id in levels[0].ids ==> !Registered(levels[1..], id))
      && Distinct(levels[1..])
  }

  lemma {:induction false} RegisteredIsVisited(levels: Levels, id: Id)
    ensures Registered(levels, id) <==> id in VisitOrder(levels)
  {
    if levels == [] {
    } else {
      var head, rest := levels[0], levels[1..];
      RegisteredIsVisited(rest, id);
      assert Registered(levels, id) <==> id in head.ids || Registered(rest, id) by { RegisteredSplit(levels, id); }
      assert VisitOrder(levels) == VisitOrder(rest) + head.ids;
    }
  }

  lemma RegisteredSplit(levels: Levels, id: Id)
    requires levels != []
    ensures Registered(levels, id) <==> id in levels[0].ids || Registered(levels[1..], id)
  {
    if i :| 0 <= i < |levels| && id in levels[i].ids {
      assert i > 0 ==> id in levels[1..][i - 1].ids;
    }
    if Registered(levels[1..], id) {
      var i :| 0 <= i < |levels[1..]| && id in levels[1..][i].ids;
      assert id in levels[i + 1].ids;
    }
  }

  lemma {:induction false} AddRegisters(levels: Levels, p: Priority, id: Id, other: Id)
    ensures Registered(AddAt(levels, p, id), other) <==> other == id || Registered(levels, other)
  {
    hide Registered;
    RegisteredSplit(AddAt(levels, p, id), other);
    if levels == [] || p < levels[0].priority {
      assert AddAt(levels, p, id)[1..] == levels;
    } else {
      RegisteredSplit(levels, other);
      if levels[0].priority == p {
        assert AddAt(levels, p, id)[1..] == levels[1..];
      } else {
        AddRegisters(levels[1..], p, id, other);
        assert AddAt(levels, p, id)[1..] == AddAt(levels[1..], p, id);
      }
    }
  }

  lemma {:induction false} WithoutContains(ids: seq<Id>, id: Id, other: Id)
    ensures other in Without(ids, id) <==> other != id && other in ids
  {
    if ids == [] {
    } else {
      WithoutContains(ids[1..], id, other);
    }
  }

  lemma EraseUnregisters(levels: Levels, id: Id, other: Id)
    ensures Registered(Erase(levels, id), other) <==> other != id && Registered(levels, other)
  {
    forall i | 0 <= i < |levels| ensures other in Erase(levels, id)[i].ids <==> other != id && other in levels[i].ids {
      WithoutContains(levels[i].ids, id, other);
    }
    if other != id && Registered(levels, other) {
      var i :| 0 <= i < |levels| && other in levels[i].ids;
      assert other in Erase(levels, id)[i].ids;
    }
  }

  lemma {:induction false} AddKeepsDistinct(levels: Levels, p: Priority, id: Id)
    requires Distinct(levels) && !Registered(levels, id)
    ensures Distinct(AddAt(levels, p, id))
  {
    hide Registered;
    var after := AddAt(levels, p, id);
    if levels == [] || p < levels[0].priority {
      assert after[1..] == levels;
    } else {
      RegisteredSplit(levels, id);
      if levels[0].priority == p {
        assert after[1..] == levels[1..];
      } else {
        AddKeepsDistinct(levels[1..], p, id);
        assert after[1..] == AddAt(levels[1..], p, id);
        forall other | other in levels[0].ids ensures !Registered(after[1..], other) {
          AddRegisters(levels[1..], p, id, other);
        }
      }
    }
  }

  lemma {:induction false} WithoutKeepsNoDuplicates(ids: seq<Id>, id: Id)
    requires NoDuplicates(ids)
    ensures NoDuplicates(Without(ids, id))
  {
    if ids == [] {
    } else {
      WithoutKeepsNoDuplicates(ids[1..], id);
      WithoutContains(ids[1..], id, ids[0]);
    }
  }

  lemma {:induction false} EraseKeepsDistinct(levels: Levels, id: Id)
    requires Distinct(levels)
    ensures Distinct(Erase(levels, id))
  {
    hide Registered;
    if levels == [] {
    } else {
      EraseKeepsDistinct(levels[1..], id);
      WithoutKeepsNoDuplicates(levels[0].ids, id);
      assert Erase(levels, id)[1..] == Erase(levels[1..], id);
      forall other | other in Erase(levels, id)[0].ids ensures !Registered(Erase(levels[1..], id), other) {
        WithoutContains(levels[0].ids, id, other);
        EraseUnregisters(levels[1..], id, other);
      }
    }
  }

  /** Visits go down in priority. */
  lemma {:induction false} FlatDescends(levels: Levels)
    requires Sorted(levels)
    ensures forall i, j :: 0 <= i < j < |Flat(levels)| ==> Flat(levels)[i].priority >= Flat(levels)[j].priority
  {
    if levels == [] {
    } else {
      FlatDescends(levels[1..]);
      FlatAtLeast(levels[1..], levels[0].priority);
    }
  }

  /** The highest priority first. */
  lemma {:induction false} FlatLast(levels: Levels)
    requires levels != []
    ensures Flat(levels) == Entries(levels[|levels| - 1]) + Flat(levels[..|levels| - 1])
  {
    hide Entries, Flat;
    var init, last := levels[..|levels| - 1], levels[|levels| - 1];
    FlatOf(levels[0], levels[1..]);
    assert levels == [levels[0]] + levels[1..];
    if |levels| == 1 {
      NothingFlat();
      assert levels[1..] == [] && init == [];
      assert Entries(last) + [] == [] + Entries(last);
    } else {
      FlatLast(levels[1..]);
      FlatOf(levels[0], init[1..]);
      assert levels[1..][..|levels| - 2] == init[1..];
      assert init == [levels[0]] + init[1..];
    }
  }

  lemma NothingFlat()
    ensures Flat([]) == []
  {
  }

  /** The list of one priority comes before those of the lower ones. */
  lemma LevelNext(levels: Levels, i: nat)
    requires i < |levels|
    ensures VisitOrder(levels[..i + 1]) == levels[i].ids[0..] + VisitOrder(levels[..i])
  {
    FlatLast(levels[..i + 1]);
    assert levels[..i + 1][..i] == levels[..i];
    assert Ids(Entries(levels[i])) == levels[i].ids;
  }

  // ----- the search of `erase`

  lemma {:induction false} AbsentWithout(ids: seq<Id>, id: Id)
    requires id !in ids
    ensures Without(ids, id) == ids
  {
    if ids == [] {
    } else {
      AbsentWithout(ids[1..], id);
    }
  }

  lemma {:induction false} RemoveIsWithout(ids: seq<Id>, j: nat)
    requires NoDuplicates(ids) && j < |ids|
    ensures ids[..j] + ids[j + 1..] == Without(ids, ids[j])
  {
    if j == 0 {
      AbsentWithout(ids[1..], ids[0]);
    } else {
      RemoveIsWithout(ids[1..], j - 1);
      assert ids[1..][..j - 1] == ids[1..j] && ids[1..][j..] == ids[j + 1..];
      assert ids[..j] == [ids[0]] + ids[1..j];
    }
  }

  lemma EraseAbsent(levels: Levels, id: Id)
    requires !Registered(levels, id)
    ensures Erase(levels, id) == levels
  {
    forall i | 0 <= i < |levels| ensures Erase(levels, id)[i] == levels[i] {
      AbsentWithout(levels[i].ids, id);
    }
  }

  lemma {:induction false} EraseAt(levels: Levels, i: nat, j: nat)
    requires Distinct(levels) && i < |levels| && j < |levels[i].ids|
    ensures levels[i := levels[i].(ids := levels[i].ids[..j] + levels[i].ids[j + 1..])]
            == Erase(levels, levels[i].ids[j])
  {
    hide Registered;
    var id := levels[i].ids[j];
    if i == 0 {
      RemoveIsWithout(levels[0].ids, j);
      assert id in levels[0].ids;
      EraseAbsent(levels[1..], id);
      assert Erase(levels, id)[1..] == Erase(levels[1..], id);
      assert Erase(levels, id) == [Erase(levels, id)[0]] + levels[1..];
    } else {
      EraseAt(levels[1..], i - 1, j);
      assert id in levels[1..][i - 1].ids && Registered(levels[1..], id) by { IsRegistered(levels[1..], i - 1, id); }
      AbsentWithout(levels[0].ids, id);
      assert Erase(levels, id)[1..] == Erase(levels[1..], id);
      assert Erase(levels, id) == [levels[0]] + Erase(levels[1..], id);
    }
  }

  lemma IsRegistered(levels: Levels, i: nat, id: Id)
    requires i < |levels| && id in levels[i].ids
    ensures Registered(levels, id)
  {
  }

  /** Looks in the list of one priority and takes the id out if it is there. */
  method Check(levels: Levels, p: Priority, id: Id) returns (r: Levels, found: bool)
    requires Distinct(levels) && Sorted(levels)
    ensures r == if found then Erase(levels, id) else levels
    ensures found <==> exists i :: 0 <= i < |levels| && levels[i].priority == p && id in levels[i].ids
  {
    hide Distinct, Erase;
    var i := 0;
    while i < |levels| && levels[i].priority != p
      invariant 0 <= i <= |levels| && forall k :: 0 <= k < i ==> levels[k].priority != p
    {
      i := i + 1;
    }
    if i < |levels| {
      for j := 0 to |levels[i].ids|
        invariant id !in levels[i].ids[..j]
      {
        if levels[i].ids[j] == id {
          EraseAt(levels, i, j);
          return levels[i := levels[i].(ids := levels[i].ids[..j] + levels[i].ids[j + 1..])], true;
        }
      }
    }
    return levels, false;
  }

  /** Priority 0 first, then the others in ascending order; the search ends where the id is found. */
  method EraseHandler(levels: Levels, id: Id) returns (r: Levels)
    requires Distinct(levels) && Sorted(levels)
    ensures r == Erase(levels, id)
  {
    hide Distinct, Erase, Sorted;
    var found;
    r, found := Check(levels, 0, id);
    if found {
      return;
    }
    for i := 0 to |levels|
      invariant forall k :: 0 <= k < |levels| && (levels[k].priority == 0 || k < i) ==> id !in levels[k].ids
    {
      if levels[i].priority != 0 {
        r, found := Check(levels, levels[i].priority, id);
        if found {
          return;
        }
      }
    }
    EraseAbsent(levels, id);
    r := levels;
  }
}
