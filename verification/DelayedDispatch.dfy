/**
  Events that are collected and dispatched all at once, type by type. Handlers may post more events, which are
  dispatched in the same go, and add or remove handlers, which waits for the end of the event if it concerns the type
  that is being dispatched.
 */
module DelayedDispatch {
  import opened HandlerActions
  import opened HandlerLists
  import opened Sequences
  import opened Wrappers

  type Event = int

  datatype Item = Item(t: EventType, event: Event)

  datatype Op = Add(t: EventType, p: Priority) | Remove(t: EventType, id: Id) | Post(item: Item)

  /** What a handler does on one invocation, and whether it calls the event handled. */
  datatype Behavior = Behavior(ops: seq<Op>, cancel: bool)

  /**
    `current` is the type that is being dispatched and `next` the index of its next event. `posted` and `delivered`
    record every event ever posted and delivered.
   */
  datatype State = State(handlers: Handlers, events: map<EventType, seq<Event>>, waiting: set<EventType>, nextId: Id,
                         current: Option<EventType>, next: nat, pending: seq<Action>, hasEvents: bool,
                         posted: seq<Item>, delivered: seq<Item>) {
    function Queue(t: EventType): seq<Event> {
      if t in events then events[t] else []
    }
  }

  const START := State(map[], map[], {}, 0, None, 0, [], false, [], [])

  function Perform(s: State, a: Action): State {
    if s.current == Some(a.t) then s.(pending := s.pending + [a]) else s.(handlers := Apply(s.handlers, a))
  }

  function PostEvent(s: State, item: Item): State {
    s.(handlers := s.handlers[item.t := LevelsFor(s.handlers, item.t)],
       events := s.events[item.t := s.Queue(item.t) + [item.event]],
       waiting := s.waiting + {item.t}, hasEvents := true, posted := s.posted + [item])
  }

  function RunOp(s: State, op: Op): State {
    match op
    case Add(t, p) => Perform(s, AddAction(t, p, s.nextId)).(nextId := s.nextId + 1)
    case Remove(t, id) => Perform(s, RemoveAction(t, id))
    case Post(item) => PostEvent(s, item)
  }

  function RunOps(s: State, ops: seq<Op>): State
    decreases |ops|
  {
    if ops == [] then s else RunOps(RunOp(s, ops[0]), ops[1..])
  }

  /** Invokes these handlers one after the other until one cancels; a handler beyond the behaviours does nothing. */
  function Visit(s: State, ids: seq<Id>, behaviors: seq<Behavior>): (State, seq<Id>)
    decreases |ids|
  {
    if ids == [] || behaviors == [] then (s, ids)
    else
      var after := RunOps(s, behaviors[0].ops);
      if behaviors[0].cancel then (after, [ids[0]])
      else
        var (end, visited) := Visit(after, ids[1..], behaviors[1..]);
        (end, [ids[0]] + visited)
  }

  /** One handler, and then the rest, which is not invoked if this one cancels. */
  lemma VisitUnfolds(s: State, ids: seq<Id>, behaviors: seq<Behavior>)
    requires ids != []
    ensures behaviors == [] ==> Visit(s, ids, []) == (s, [ids[0]] + ids[1..]) && Visit(s, ids[1..], []) == (s, ids[1..])
    ensures behaviors != [] ==>
              var after := RunOps(s, behaviors[0].ops);
              var (end, more) := if behaviors[0].cancel then (after, []) else Visit(after, ids[1..], behaviors[1..]);
              Visit(s, ids, behaviors) == (end, [ids[0]] + more)
  {
    hide RunOps;
    assert ids == [ids[0]] + ids[1..];
    assert [ids[0]] + [] == [ids[0]];
  }

  // ----- the steps of a drain

  datatype Step = Do(op: Op) | Begin(t: EventType) | Deliver(behaviors: seq<Behavior>) | End | Finish

  /** Between drains anything may be done from outside; during one only the handlers act. */
  predicate Possible(s: State, step: Step) {
    match step
    case Do(_) => s.current == None
    case Begin(t) => s.current == None && t in s.waiting
    case Deliver(_) => s.current.Some? && s.next < |s.Queue(s.current.value)|
    case End => s.current.Some? && s.next == |s.Queue(s.current.value)|
    case Finish => s.current == None && s.waiting == {}
  }

  function Taken(s: State): State
    requires Possible(s, Deliver([]))
  {
    var t := s.current.value;
    s.(next := s.next + 1, delivered := s.delivered + [Item(t, s.Queue(t)[s.next])])
  }

  function Flushed(s: State): State {
    s.(handlers := ApplyAll(s.handlers, s.pending), pending := [])
  }

  /** One event goes to the handlers of its type; then whatever they asked for meanwhile is carried out. */
  function DeliverNext(s: State, behaviors: seq<Behavior>): (State, seq<Id>)
    requires Possible(s, Deliver(behaviors))
  {
    var (done, visited) := Visit(Taken(s), VisitOrder(LevelsFor(s.handlers, s.current.value)), behaviors);
    (Flushed(done), visited)
  }

  function Take(s: State, step: Step): State
    requires Possible(s, step)
  {
    match step
    case Do(op) => RunOp(s, op)
    case Begin(t) => s.(waiting := s.waiting - {t}, current := Some(t), next := 0)
    case Deliver(behaviors) => DeliverNext(s, behaviors).0
    case End => s.(events := s.events[s.current.value := []], current := None, next := 0)
    case Finish => s.(hasEvents := false)
  }

  function Run(s: State, steps: seq<Step>): Option<State> {
    if steps == [] then Some(s)
    else match Run(s, steps[..|steps| - 1])
      case None => None
      case Some(before) =>
        if Possible(before, steps[|steps| - 1]) then Some(Take(before, steps[|steps| - 1])) else None
  }

  // ----- a handler's script leaves the event alone

  ghost predicate Keeps(before: State, after: State) {
    && after.current == before.current && after.next == before.next
    && after.delivered == before.delivered && before.posted <= after.posted
    && (before.current.Some? ==> LevelsFor(after.handlers, before.current.value)
                                 == LevelsFor(before.handlers, before.current.value))
    && before.pending <= after.pending
    && (forall t :: before.Queue(t) <= after.Queue(t))
    && before.waiting <= after.waiting && before.events.Keys <= after.events.Keys
  }

  lemma KeepsTrans(a: State, b: State, c: State)
    requires Keeps(a, b) && Keeps(b, c)
    ensures Keeps(a, c)
  {
    forall t ensures a.Queue(t) <= c.Queue(t) {
      assert a.Queue(t) <= b.Queue(t) && b.Queue(t) <= c.Queue(t);
    }
  }

  lemma KeepsSelf(s: State)
    ensures Keeps(s, s)
  {
  }

  lemma OpKeeps(s: State, op: Op)
    ensures Keeps(s, RunOp(s, op))
  {
    assert op.Post? ==> forall t :: t != op.item.t ==> RunOp(s, op).Queue(t) == s.Queue(t);
  }

  lemma {:induction false} OpsKeep(s: State, ops: seq<Op>)
    ensures Keeps(s, RunOps(s, ops))
    decreases |ops|
  {
    hide Keeps, RunOp;
    if ops == [] {
      KeepsSelf(s);
    } else {
      OpKeeps(s, ops[0]);
      OpsKeep(RunOp(s, ops[0]), ops[1..]);
      KeepsTrans(s, RunOp(s, ops[0]), RunOps(s, ops));
    }
  }

  /** While an event is being delivered, no handler of its type comes or goes, and no event is lost. */
  lemma {:induction false} VisitKeeps(s: State, ids: seq<Id>, behaviors: seq<Behavior>)
    ensures Keeps(s, Visit(s, ids, behaviors).0)
    decreases |ids|
  {
    hide Keeps, RunOps;
    if ids == [] || behaviors == [] {
      KeepsSelf(s);
    } else {
      var after := RunOps(s, behaviors[0].ops);
      OpsKeep(s, behaviors[0].ops);
      if !behaviors[0].cancel {
        VisitKeeps(after, ids[1..], behaviors[1..]);
        KeepsTrans(s, after, Visit(after, ids[1..], behaviors[1..]).0);
      }
    }
  }

  function Cancels(behaviors: seq<Behavior>): seq<bool> {
    seq(|behaviors|, i requires 0 <= i < |behaviors| => behaviors[i].cancel)
  }

  lemma {:induction false} VisitsPrefix(s: State, ids: seq<Id>, behaviors: seq<Behavior>)
    ensures Visit(s, ids, behaviors).1 == ids[..VisitedCount(|ids|, Cancels(behaviors))]
    decreases |ids|
  {
    hide RunOps;
    if ids != [] && behaviors != [] && !behaviors[0].cancel {
      VisitsPrefix(RunOps(s, behaviors[0].ops), ids[1..], behaviors[1..]);
      assert Cancels(behaviors)[1..] == Cancels(behaviors[1..]);
    }
  }

  // ----- no event is lost, doubled or out of order

  /** The events of one type, in order. */
  function Of(t: EventType, items: seq<Item>): seq<Event> {
    if items == [] then []
    else
      var last := items[|items| - 1];
      Of(t, items[..|items| - 1]) + if last.t == t then [last.event] else []
  }

  lemma OfMore(t: EventType, items: seq<Item>, item: Item)
    ensures Of(t, items + [item]) == Of(t, items) + if item.t == t then [item.event] else []
  {
    assert (items + [item])[..|items|] == items;
  }

  function Remaining(s: State, t: EventType): seq<Event>
    requires s.current == Some(t) ==> s.next <= |s.Queue(t)|
  {
    if s.current == Some(t) then s.Queue(t)[s.next..] else s.Queue(t)
  }

  /** Of every type, what was posted is what was delivered and then what is still in its queue. */
  ghost predicate Accounted(s: State, t: EventType) {
    && (s.current == Some(t) ==> s.next <= |s.Queue(t)|)
    && Of(t, s.posted) == Of(t, s.delivered) + Remaining(s, t)
    && (Remaining(s, t) != [] ==> s.current == Some(t) || t in s.waiting)
    && (t in s.waiting ==> s.hasEvents)
    && (t in s.waiting || s.current == Some(t) ==> t in s.events)
  }

  ghost predicate Sound(s: State) {
    && SoundTable(s.handlers, s.nextId, s.pending)
    && (forall a :: a in s.pending ==> s.current == Some(a.t))
    && (forall t :: Accounted(s, t))
  }

  lemma PerformKeepsTable(s: State, a: Action, nextId: Id)
    requires SoundTable(s.handlers, s.nextId, s.pending) && nextId >= s.nextId
    requires a.AddAction? ==> a.id == s.nextId < nextId
    ensures var after := Perform(s, a); SoundTable(after.handlers, nextId, after.pending)
  {
    hide SoundTable;
    WithPending(s.handlers, s.nextId, s.pending, a, nextId);
    ApplyKeepsSound(s.handlers, nextId, [a] + s.pending);
    assert ([a] + s.pending)[1..] == s.pending;
  }

  lemma PostKeepsTable(handlers: Handlers, nextId: Id, pending: seq<Action>, t: EventType)
    requires SoundTable(handlers, nextId, pending)
    ensures SoundTable(handlers[t := LevelsFor(handlers, t)], nextId, pending)
  {
    hide Registered, Awaited, AddsDiffer, Sorted, HandlerLists.Distinct;
    EmptyShape();
    var after := handlers[t := LevelsFor(handlers, t)];
    forall u, id: Id ensures IdIsTaken(after, nextId, pending, u, id) {
      assert IdIsTaken(handlers, nextId, pending, u, id);
    }
  }

  lemma PostKeepsAccounts(s: State, item: Item, t: EventType)
    requires Accounted(s, t)
    ensures Accounted(PostEvent(s, item), t)
  {
    hide Of;
    var after := PostEvent(s, item);
    OfMore(t, s.posted, item);
    if item.t == t {
      var queue, e := s.Queue(t), item.event;
      assert after.Queue(t) == queue + [e];
      assert s.current == Some(t) ==> (queue + [e])[s.next..] == queue[s.next..] + [e];
      Regroup(Of(t, s.delivered), Remaining(s, t), [e]);
    } else {
      assert after.Queue(t) == s.Queue(t);
    }
  }

  lemma OpKeepsAccounts(s: State, op: Op, t: EventType)
    requires Accounted(s, t)
    ensures Accounted(RunOp(s, op), t)
  {
    hide Accounted, Apply, PostEvent;
    if op.Post? {
      PostKeepsAccounts(s, op.item, t);
    } else {
      var after := RunOp(s, op);
      HandlersDoNotCount(s, after.handlers, after.pending, after.nextId, t);
    }
  }

  lemma HandlersDoNotCount(s: State, handlers: Handlers, pending: seq<Action>, nextId: Id, t: EventType)
    requires Accounted(s, t)
    ensures Accounted(s.(handlers := handlers, pending := pending, nextId := nextId), t)
  {
    hide Of;
    assert s.(handlers := handlers, pending := pending, nextId := nextId).Queue(t) == s.Queue(t);
  }

  lemma OpKeepsSound(s: State, op: Op)
    requires Sound(s)
    ensures Sound(RunOp(s, op))
  {
    hide SoundTable, Accounted, Apply;
    forall t ensures Accounted(RunOp(s, op), t) {
      OpKeepsAccounts(s, op, t);
    }
    match op
    case Add(t, p) => PerformKeepsTable(s, AddAction(t, p, s.nextId), s.nextId + 1);
    case Remove(t, id) => PerformKeepsTable(s, RemoveAction(t, id), s.nextId);
    case Post(item) => PostKeepsTable(s.handlers, s.nextId, s.pending, item.t);
  }

  lemma {:induction false} OpsKeepSound(s: State, ops: seq<Op>)
    requires Sound(s)
    ensures Sound(RunOps(s, ops))
    decreases |ops|
  {
    hide Sound, RunOp;
    if ops == [] {
    } else {
      OpKeepsSound(s, ops[0]);
      OpsKeepSound(RunOp(s, ops[0]), ops[1..]);
    }
  }

  lemma {:induction false} VisitKeepsSound(s: State, ids: seq<Id>, behaviors: seq<Behavior>)
    requires Sound(s)
    ensures Sound(Visit(s, ids, behaviors).0)
    decreases |ids|
  {
    hide Sound, RunOps;
    if ids != [] && behaviors != [] {
      OpsKeepSound(s, behaviors[0].ops);
      if !behaviors[0].cancel {
        VisitKeepsSound(RunOps(s, behaviors[0].ops), ids[1..], behaviors[1..]);
      }
    }
  }

  lemma TakenIsSound(s: State)
    requires Sound(s) && Possible(s, Deliver([]))
    ensures Sound(Taken(s))
  {
    hide SoundTable, Accounted;
    forall u ensures Accounted(Taken(s), u) {
      assert Accounted(s, u) && Accounted(s, s.current.value);
      TakenIsAccounted(s, u);
    }
  }

  lemma TakenIsAccounted(s: State, u: EventType)
    requires Possible(s, Deliver([])) && Accounted(s, u)
    ensures Accounted(Taken(s), u)
  {
    hide Of;
    var t := s.current.value;
    var e := s.Queue(t)[s.next];
    OfMore(u, s.delivered, Item(t, e));
    assert Taken(s).Queue(u) == s.Queue(u);
    if u == t {
      NextOf(s.Queue(t), s.next);
      assert Remaining(s, t) == [e] + Remaining(Taken(s), t);
      Regroup(Of(t, s.delivered), [e], Remaining(Taken(s), t));
    }
  }

  lemma NextOf(queue: seq<Event>, i: nat)
    requires i < |queue|
    ensures queue[i..] == [queue[i]] + queue[i + 1..]
  {
  }

  lemma FlushedIsSound(s: State)
    requires Sound(s)
    ensures Sound(Flushed(s))
  {
    hide SoundTable, ApplyAll, Accounted;
    ApplyAllKeepsSound(s.handlers, s.nextId, s.pending, |s.pending|);
    assert s.pending[..|s.pending|] == s.pending && s.pending[|s.pending|..] == [];
    forall t ensures Accounted(Flushed(s), t) {
      HandlersDoNotCount(s, Flushed(s).handlers, [], s.nextId, t);
    }
  }

  lemma DeliverKeepsSound(s: State, behaviors: seq<Behavior>)
    requires Sound(s) && Possible(s, Deliver(behaviors))
    ensures Sound(DeliverNext(s, behaviors).0)
  {
    hide Sound, Visit, Taken, Flushed;
    TakenIsSound(s);
    VisitKeepsSound(Taken(s), VisitOrder(LevelsFor(s.handlers, s.current.value)), behaviors);
    FlushedIsSound(Visit(Taken(s), VisitOrder(LevelsFor(s.handlers, s.current.value)), behaviors).0);
  }

  lemma BeginKeepsSound(s: State, t: EventType)
    requires Sound(s) && Possible(s, Begin(t))
    ensures Sound(Take(s, Begin(t)))
  {
    hide SoundTable, Of;
    forall u ensures Accounted(Take(s, Begin(t)), u) {
      assert Accounted(s, u) && Accounted(s, t);
    }
  }

  lemma EndKeepsSound(s: State)
    requires Sound(s) && Possible(s, End) && s.pending == []
    ensures Sound(Take(s, End))
  {
    hide SoundTable, Of;
    forall u ensures Accounted(Take(s, End), u) {
      assert Accounted(s, u);
    }
  }

  lemma FinishKeepsSound(s: State)
    requires Sound(s) && Possible(s, Finish)
    ensures Sound(Take(s, Finish))
  {
    hide SoundTable, Of;
    forall u ensures Accounted(Take(s, Finish), u) {
      assert Accounted(s, u) && s.(hasEvents := false).Queue(u) == s.Queue(u);
    }
  }

  /** Between two steps nothing is pending: what handlers asked for is done before the next event. */
  ghost predicate Settled(s: State) {
    Sound(s) && s.pending == []
  }

  lemma StepKeepsSettled(s: State, step: Step)
    requires Settled(s) && Possible(s, step)
    ensures Settled(Take(s, step))
  {
    hide Sound, Visit, Taken, ApplyAll, Apply;
    match step
    case Do(op) => OpKeepsSound(s, op);
    case Begin(t) => BeginKeepsSound(s, t);
    case Deliver(behaviors) => DeliverKeepsSound(s, behaviors);
    case End => EndKeepsSound(s);
    case Finish => FinishKeepsSound(s);
  }

  lemma StartIsSettled()
    ensures Settled(START)
  {
    EmptyTable();
  }

  lemma {:induction false} RunKeepsSettled(s: State, steps: seq<Step>)
    requires Settled(s) && Run(s, steps).Some?
    ensures Settled(Run(s, steps).value)
  {
    hide Settled, Possible, Take;
    if steps == [] {
    } else {
      RunKeepsSettled(s, steps[..|steps| - 1]);
      StepKeepsSettled(Run(s, steps[..|steps| - 1]).value, steps[|steps| - 1]);
    }
  }

  /**
    In any run, the events of a type are delivered in the order they were posted and none twice; and once no type is
    waiting, each has been, and the queue is empty.
   */
  lemma DrainedIsDelivered(steps: seq<Step>, t: EventType)
    requires Run(START, steps).Some?
    ensures var s := Run(START, steps).value;
            && Of(t, s.delivered) <= Of(t, s.posted)
            && (s.waiting == {} && s.current == None ==> Of(t, s.delivered) == Of(t, s.posted) && s.Queue(t) == [])
  {
    hide Run, SoundTable, Of;
    StartIsSettled();
    RunKeepsSettled(START, steps);
    assert Accounted(Run(START, steps).value, t);
  }

  /**
    An event reaches the handlers that its type has at that moment, from the highest priority down, to the first that
    cancels.
   */
  lemma DeliveryVisits(steps: seq<Step>, behaviors: seq<Behavior>)
    requires Run(START, steps).Some? && Possible(Run(START, steps).value, Deliver(behaviors))
    ensures var s := Run(START, steps).value;
            var order := Flat(LevelsFor(s.handlers, s.current.value));
            && (forall i, j :: 0 <= i < j < |order| ==> order[i].priority >= order[j].priority)
            && DeliverNext(s, behaviors).1 == Ids(order)[..VisitedCount(|order|, Cancels(behaviors))]
            && s.pending == [] && DeliverNext(s, behaviors).0.pending == []
  {
    hide Run, Visit, ApplyAll;
    StartIsSettled();
    RunKeepsSettled(START, steps);
    var s := Run(START, steps).value;
    EmptyShape();
    FlatDescends(LevelsFor(s.handlers, s.current.value));
    VisitsPrefix(Taken(s), VisitOrder(LevelsFor(s.handlers, s.current.value)), behaviors);
  }

  /** Here a removal always takes effect, by the end of the event at the latest: nothing overtakes it. */
  lemma RemoveTakesEffect(s: State, t: EventType, id: Id)
    requires Sound(s)
    ensures !Registered(LevelsFor(Flushed(RunOp(s, Remove(t, id))).handlers, t), id)
  {
    hide Registered, ApplyAll, SoundTable, Accounted;
    var a := RemoveAction(t, id);
    var after := RunOp(s, Remove(t, id));
    ApplyAllRegisters(after.handlers, after.pending, t, id);
    if s.current == Some(t) {
      assert after.pending == s.pending + [a] && a in after.pending;
    } else {
      ApplyRegisters(s.handlers, a, t, id);
      OthersDoNotAdd(s.pending, t, id);
    }
  }

  lemma {:induction false} OthersDoNotAdd(pending: seq<Action>, t: EventType, id: Id)
    requires forall a :: a in pending ==> a.t != t
    ensures !EndsAdded(pending, t, id)
  {
    if pending == [] {
    } else {
      assert pending[|pending| - 1] in pending;
      OthersDoNotAdd(pending[..|pending| - 1], t, id);
    }
  }
}
