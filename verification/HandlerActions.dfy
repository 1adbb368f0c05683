/**
  The handlers of all event types, and the adding and removing that both dispatchers may have to put off.
 */
module HandlerActions {
  import opened HandlerLists

  type EventType = nat

  datatype Action = AddAction(t: EventType, p: Priority, id: Id) | RemoveAction(t: EventType, id: Id)

  type Handlers = map<EventType, Levels>

  function LevelsFor(handlers: Handlers, t: EventType): Levels {
    if t in handlers then handlers[t] else []
  }

  function Apply(handlers: Handlers, a: Action): Handlers {
    match a
    case AddAction(t, p, id) => handlers[t := AddAt(LevelsFor(handlers, t), p, id)]
    case RemoveAction(t, id) => if t in handlers then handlers[t := Erase(handlers[t], id)] else handlers
  }

  function ApplyAll(handlers: Handlers, actions: seq<Action>): Handlers {
    if actions == [] then handlers
    else Apply(ApplyAll(handlers, actions[..|actions| - 1]), actions[|actions| - 1])
  }

  ghost predicate SoundTable(handlers: Handlers, nextId: Id, pending: seq<Action>) {
    && Shaped(handlers)
    && IdsAreTaken(handlers, nextId, pending)
    && (forall id: Id :: Awaited(pending, id) ==> id < nextId)
    && AddsDiffer(pending)
  }

  ghost predicate Shaped(handlers: Handlers) {
    forall t :: t in handlers ==> Sorted(handlers[t]) && HandlerLists.Distinct(handlers[t])
  }

  /** A registered id was given out, and no add of it is waiting. */
  ghost predicate IdsAreTaken(handlers: Handlers, nextId: Id, pending: seq<Action>) {
    forall t, id: Id :: IdIsTaken(handlers, nextId, pending, t, id)
  }

  ghost predicate IdIsTaken(handlers: Handlers, nextId: Id, pending: seq<Action>, t: EventType, id: Id) {
    Registered(LevelsFor(handlers, t), id) ==> id < nextId && !Awaited(pending, id)
  }

  ghost predicate AddsDiffer(pending: seq<Action>) {
    forall i, j :: 0 <= i < j < |pending| && pending[i].AddAction? && pending[j].AddAction? ==>
                     pending[i].id != pending[j].id
  }

  lemma AddsDifferWith(pending: seq<Action>, a: Action)
    requires AddsDiffer(pending) && (a.AddAction? ==> !Awaited(pending, a.id))
    ensures AddsDiffer(pending + [a]) && AddsDiffer([a] + pending)
  {
    forall b | b in pending && b.AddAction? ensures Awaited(pending, b.id) {
    }
  }

  lemma AddsDifferRest(pending: seq<Action>)
    requires AddsDiffer(pending) && pending != []
    ensures AddsDiffer(pending[1..]) && (pending[0].AddAction? ==> !Awaited(pending[1..], pending[0].id))
  {
  }

  /** An add of that id is waiting. */
  ghost predicate Awaited(pending: seq<Action>, id: Id) {
    exists a :: a in pending && a.AddAction? && a.id == id
  }

  lemma AwaitedSplit(pending: seq<Action>, id: Id)
    requires pending != []
    ensures Awaited(pending, id) <==> Awaited(pending[1..], id) || (pending[0].AddAction? && pending[0].id == id)
  {
    assert forall a :: a in pending <==> a == pending[0] || a in pending[1..];
  }

  lemma AwaitedLast(pending: seq<Action>, a: Action, id: Id)
    ensures Awaited(pending + [a], id) <==> Awaited(pending, id) || (a.AddAction? && a.id == id)
  {
    assert forall b :: b in pending + [a] <==> b == a || b in pending;
  }

  lemma ApplyRegisters(handlers: Handlers, a: Action, t: EventType, id: Id)
    ensures Registered(LevelsFor(Apply(handlers, a), t), id) <==>
              if a.t == t && a.id == id then a.AddAction? else Registered(LevelsFor(handlers, t), id)
  {
    hide Registered;
    match a
    case AddAction(u, p, other) => AddRegisters(LevelsFor(handlers, u), p, other, id);
    case RemoveAction(u, other) =>
      EraseUnregisters(LevelsFor(handlers, u), other, id);
      NothingRegistered(id);
  }

  lemma NothingRegistered(id: Id)
    ensures !Registered([], id)
  {
  }

  lemma ApplyKeepsShape(handlers: Handlers, a: Action)
    requires Shaped(handlers)
    requires a.AddAction? ==> !Registered(LevelsFor(handlers, a.t), a.id)
    ensures Shaped(Apply(handlers, a))
  {
    hide Registered, Sorted, HandlerLists.Distinct;
    EmptyShape();
    match a
    case AddAction(t, p, id) =>
      AddKeepsSorted(LevelsFor(handlers, t), p, id);
      AddKeepsDistinct(LevelsFor(handlers, t), p, id);
    case RemoveAction(t, id) =>
      if t in handlers {
        EraseRemoves(handlers[t], id);
        EraseKeepsDistinct(handlers[t], id);
      }
  }

  lemma EmptyShape()
    ensures Sorted([]) && HandlerLists.Distinct([])
  {
  }

  lemma ApplyKeepsSound(handlers: Handlers, nextId: Id, pending: seq<Action>)
    requires pending != [] && SoundTable(handlers, nextId, pending)
    ensures SoundTable(Apply(handlers, pending[0]), nextId, pending[1..])
  {
    hide Registered, Shaped, Awaited, Apply, AddsDiffer, LevelsFor, IdsAreTaken;
    var a, rest := pending[0], pending[1..];
    AddsDifferRest(pending);
    AwaitedSplit(pending, a.id);
    NotYetRegistered(handlers, nextId, pending);
    ApplyKeepsShape(handlers, a);
    ApplyKeepsIds(handlers, nextId, pending);
    forall id: Id | Awaited(rest, id) ensures id < nextId {
      AwaitedSplit(pending, id);
    }
  }

  lemma NotYetRegistered(handlers: Handlers, nextId: Id, pending: seq<Action>)
    requires pending != [] && IdsAreTaken(handlers, nextId, pending)
    ensures pending[0].AddAction? ==> !Registered(LevelsFor(handlers, pending[0].t), pending[0].id)
  {
    hide Registered, LevelsFor, Awaited;
    AwaitedSplit(pending, pending[0].id);
    assert IdIsTaken(handlers, nextId, pending, pending[0].t, pending[0].id);
  }

  lemma ApplyKeepsIds(handlers: Handlers, nextId: Id, pending: seq<Action>)
    requires pending != [] && IdsAreTaken(handlers, nextId, pending)
    requires pending[0].AddAction? ==> pending[0].id < nextId && !Awaited(pending[1..], pending[0].id)
    ensures IdsAreTaken(Apply(handlers, pending[0]), nextId, pending[1..])
  {
    hide Registered, LevelsFor, Awaited, Apply;
    forall t, id: Id ensures IdIsTaken(Apply(handlers, pending[0]), nextId, pending[1..], t, id) {
      ApplyRegisters(handlers, pending[0], t, id);
      AwaitedSplit(pending, id);
      assert IdIsTaken(handlers, nextId, pending, t, id);
    }
  }

  lemma {:induction false} ApplyAllKeepsSound(handlers: Handlers, nextId: Id, pending: seq<Action>, i: nat)
    requires i <= |pending| && SoundTable(handlers, nextId, pending)
    ensures SoundTable(ApplyAll(handlers, pending[..i]), nextId, pending[i..])
  {
    hide SoundTable, Apply;
    if i == 0 {
      assert pending[..0] == [] && pending[0..] == pending;
    } else {
      ApplyAllKeepsSound(handlers, nextId, pending, i - 1);
      assert pending[..i][..i - 1] == pending[..i - 1];
      assert pending[i - 1..][1..] == pending[i..];
      ApplyKeepsSound(ApplyAll(handlers, pending[..i - 1]), nextId, pending[i - 1..]);
    }
  }

  lemma WithPending(handlers: Handlers, nextId: Id, pending: seq<Action>, a: Action, nextNextId: Id)
    requires SoundTable(handlers, nextId, pending) && nextNextId >= nextId
    requires a.AddAction? ==> a.id == nextId < nextNextId
    ensures SoundTable(handlers, nextNextId, pending + [a]) && SoundTable(handlers, nextNextId, [a] + pending)
  {
    hide Registered, Shaped, Awaited, AddsDiffer, LevelsFor, IdsAreTaken;
    AddsDifferWith(pending, a);
    IdsWithPending(handlers, nextId, pending, a, nextNextId);
    forall id: Id
      ensures Awaited(pending + [a], id) ==> id < nextNextId
      ensures Awaited([a] + pending, id) ==> id < nextNextId
    {
      AwaitedWith(pending, a, id);
    }
  }

  lemma AwaitedWith(pending: seq<Action>, a: Action, id: Id)
    ensures Awaited(pending + [a], id) <==> Awaited(pending, id) || (a.AddAction? && a.id == id)
    ensures Awaited([a] + pending, id) <==> Awaited(pending, id) || (a.AddAction? && a.id == id)
  {
    AwaitedLast(pending, a, id);
    AwaitedSplit([a] + pending, id);
    assert ([a] + pending)[1..] == pending;
  }

  lemma IdsWithPending(handlers: Handlers, nextId: Id, pending: seq<Action>, a: Action, nextNextId: Id)
    requires IdsAreTaken(handlers, nextId, pending) && nextNextId >= nextId
    requires a.AddAction? ==> a.id == nextId < nextNextId
    ensures IdsAreTaken(handlers, nextNextId, pending + [a]) && IdsAreTaken(handlers, nextNextId, [a] + pending)
  {
    hide Registered, Awaited, LevelsFor;
    forall t, id: Id
      ensures IdIsTaken(handlers, nextNextId, pending + [a], t, id)
      ensures IdIsTaken(handlers, nextNextId, [a] + pending, t, id)
    {
      AwaitedWith(pending, a, id);
      assert IdIsTaken(handlers, nextId, pending, t, id);
    }
  }

  /** The last of these actions on that handler adds it. */
  predicate EndsAdded(actions: seq<Action>, t: EventType, id: Id) {
    actions != [] &&
    var last := actions[|actions| - 1];
    if last.t == t && last.id == id then last.AddAction? else EndsAdded(actions[..|actions| - 1], t, id)
  }

  predicate Mentions(actions: seq<Action>, t: EventType, id: Id) {
    exists a :: a in actions && a.t == t && a.id == id
  }

  lemma {:induction false} ApplyAllRegisters(handlers: Handlers, actions: seq<Action>, t: EventType, id: Id)
    ensures Registered(LevelsFor(ApplyAll(handlers, actions), t), id) <==>
              EndsAdded(actions, t, id) || (!Mentions(actions, t, id) && Registered(LevelsFor(handlers, t), id))
  {
    hide Registered, Apply;
    if actions == [] {
    } else {
      var init, last := actions[..|actions| - 1], actions[|actions| - 1];
      ApplyAllRegisters(handlers, init, t, id);
      ApplyRegisters(ApplyAll(handlers, init), last, t, id);
      assert forall a :: a in actions <==> a == last || a in init;
    }
  }

  lemma TableIsShaped(handlers: Handlers, nextId: Id, pending: seq<Action>)
    requires SoundTable(handlers, nextId, pending)
    ensures Shaped(handlers)
  {
  }

  lemma NothingToApply(handlers: Handlers)
    ensures ApplyAll(handlers, []) == handlers
  {
  }

  lemma EmptyTable()
    ensures SoundTable(map[], 0, [])
  {
    forall t, id: Id ensures IdIsTaken(map[], 0, [], t, id) {
      assert LevelsFor(map[], t) == [];
    }
  }

  // ----- what actions make of the order of visits

  function OrderOf(handlers: Handlers, t: EventType): seq<Entry> {
    Flat(LevelsFor(handlers, t))
  }

  /** The reference: a new handler goes behind those of its own or a higher priority, a removed one goes. */
  function Effect(order: seq<Entry>, t: EventType, a: Action): seq<Entry> {
    if a.t != t then order
    else match a
      case AddAction(_, p, id) => InsertBehind(order, Entry(p, id))
      case RemoveAction(_, id) => WithoutId(order, id)
  }

  function Effects(order: seq<Entry>, t: EventType, actions: seq<Action>): seq<Entry> {
    if actions == [] then order
    else Effect(Effects(order, t, actions[..|actions| - 1]), t, actions[|actions| - 1])
  }

  lemma ApplyHasEffect(handlers: Handlers, a: Action, t: EventType)
    requires Shaped(handlers)
    ensures OrderOf(Apply(handlers, a), t) == Effect(OrderOf(handlers, t), t, a)
  {
    hide Sorted, HandlerLists.Distinct, Flat, InsertBehind, WithoutId, AddAt;
    EmptyShape();
    NothingFlat();
    match a
    case AddAction(u, p, id) => AddIsStableInsertion(LevelsFor(handlers, u), p, id);
    case RemoveAction(u, id) =>
      EraseRemoves(LevelsFor(handlers, u), id);
      NothingWithout(id);
  }

  lemma {:induction false} ApplyAllHasEffects(handlers: Handlers, nextId: Id, pending: seq<Action>, i: nat,
                                              t: EventType)
    requires i <= |pending| && SoundTable(handlers, nextId, pending)
    ensures OrderOf(ApplyAll(handlers, pending[..i]), t) == Effects(OrderOf(handlers, t), t, pending[..i])
  {
    hide SoundTable, Apply, Effect, OrderOf;
    if i == 0 {
      NothingToApply(handlers);
    } else {
      ApplyAllHasEffects(handlers, nextId, pending, i - 1, t);
      ApplyAllKeepsSound(handlers, nextId, pending, i - 1);
      assert pending[..i][..i - 1] == pending[..i - 1];
      var before := ApplyAll(handlers, pending[..i - 1]);
      TableIsShaped(before, nextId, pending[i - 1..]);
      ApplyHasEffect(before, pending[i - 1], t);
    }
  }

  lemma OrderDescends(handlers: Handlers, t: EventType)
    requires Shaped(handlers)
    ensures var order := OrderOf(handlers, t);
            forall i, j :: 0 <= i < j < |order| ==> order[i].priority >= order[j].priority
  {
    hide Sorted, HandlerLists.Distinct;
    EmptyShape();
    FlatDescends(LevelsFor(handlers, t));
  }

  lemma {:induction false} EffectsOfBoth(order: seq<Entry>, t: EventType, a: seq<Action>, b: seq<Action>)
    ensures Effects(order, t, a + b) == Effects(Effects(order, t, a), t, b)
  {
    hide Effect;
    if b == [] {
      assert a + b == a;
    } else {
      EffectsOfBoth(order, t, a, b[..|b| - 1]);
      assert (a + b)[..|a + b| - 1] == a + b[..|b| - 1];
    }
  }

  lemma {:induction false} NoEffect(order: seq<Entry>, t: EventType, actions: seq<Action>)
    requires forall a :: a in actions ==> a.t != t
    ensures Effects(order, t, actions) == order
  {
    if actions == [] {
    } else {
      assert actions[|actions| - 1] in actions;
      NoEffect(order, t, actions[..|actions| - 1]);
    }
  }

  ghost predicate AddedAt(t: EventType, actions: seq<Action>, e: Entry, i: nat) {
    && i < |actions| && actions[i] == AddAction(t, e.priority, e.id)
    && forall j :: i < j < |actions| ==> actions[j] != RemoveAction(t, e.id)
  }

  /** What is there was added, and not removed since. */
  lemma {:induction false} EffectsHave(t: EventType, actions: seq<Action>, e: Entry)
    ensures e in Effects([], t, actions) <==> exists i: nat :: AddedAt(t, actions, e, i)
  {
    hide AddedAt, InsertBehind, WithoutId;
    if actions == [] {
      NothingAdded(t, e);
    } else {
      var init, last := actions[..|actions| - 1], actions[|actions| - 1];
      EffectsHave(t, init, e);
      AddedBefore(t, actions, e);
      var before := Effects([], t, init);
      if last.t == t && last.AddAction? {
        InsertBehindHas(before, Entry(last.p, last.id), e);
      } else if last.t == t {
        WithoutIdHas(before, last.id, e);
      }
    }
  }

  lemma NothingAdded(t: EventType, e: Entry)
    ensures !exists i: nat :: AddedAt(t, [], e, i)
  {
  }

  lemma AddedBefore(t: EventType, actions: seq<Action>, e: Entry)
    requires actions != []
    ensures var init, last := actions[..|actions| - 1], actions[|actions| - 1];
            (exists i: nat :: AddedAt(t, actions, e, i)) <==>
              last == AddAction(t, e.priority, e.id)
              || (last != RemoveAction(t, e.id) && exists i: nat :: AddedAt(t, init, e, i))
  {
    var init, last := actions[..|actions| - 1], actions[|actions| - 1];
    if i: nat :| AddedAt(t, actions, e, i) {
      assert i < |init| ==> AddedAt(t, init, e, i);
    }
    if last == AddAction(t, e.priority, e.id) {
      assert AddedAt(t, actions, e, |init|);
    } else if last != RemoveAction(t, e.id) && exists i: nat :: AddedAt(t, init, e, i) {
      var i :| AddedAt(t, init, e, i);
      assert AddedAt(t, actions, e, i);
    }
  }

  // ----- the actions as they are carried out

  method Execute(handlers: Handlers, a: Action) returns (r: Handlers)
    requires Shaped(handlers)
    ensures r == Apply(handlers, a)
  {
    hide Sorted, HandlerLists.Distinct;
    r := handlers;
    match a {
      case AddAction(t, p, id) =>
        if t !in r {
          r := r[t := []];
        }
        r := r[t := AddAt(r[t], p, id)];
      case RemoveAction(t, id) =>
        if t in r {
          var levels := EraseHandler(r[t], id);
          r := r[t := levels];
        }
    }
  }

  /** In the order in which they were asked for. */
  method ExecuteAll(handlers: Handlers, ghost nextId: Id, pending: seq<Action>) returns (r: Handlers)
    requires SoundTable(handlers, nextId, pending)
    ensures r == ApplyAll(handlers, pending)
  {
    hide SoundTable, Apply;
    r := handlers;
    for i := 0 to |pending|
      invariant r == ApplyAll(handlers, pending[..i])
    {
      ApplyAllKeepsSound(handlers, nextId, pending, i);
      TableIsShaped(r, nextId, pending[i..]);
      assert pending[..i + 1][..i] == pending[..i];
      r := Execute(r, pending[i]);
    }
    assert pending[..|pending|] == pending;
  }
}
