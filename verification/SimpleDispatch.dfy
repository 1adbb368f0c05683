/**
  Events that are dispatched at once, from handlers too. While an event type is being dispatched its handlers stay as
  they are; adding and removing waits until nothing is being dispatched any more.
 */
module SimpleDispatch {
  import opened HandlerActions
  import opened HandlerLists

  /**
    What a handler does when it is invoked: a finite script, and whether it calls the event handled. The behaviours of
    a dispatch belong to the handlers in the order in which they are invoked; a handler beyond them does nothing.
   */
  datatype Behavior = Behavior(ops: seq<Op>, cancel: bool)

  datatype Op =
    | Add(t: EventType, p: Priority)
    | Remove(t: EventType, id: Id)
    | Dispatch(t: EventType, behaviors: seq<Behavior>)

  datatype State = State(handlers: Handlers, nextId: Id, stack: seq<EventType>, pending: seq<Action>)

  const START := State(map[], 0, [], [])

  /** Acts at once, or once nothing is dispatched if that type is being dispatched now. */
  function Perform(s: State, a: Action): State {
    if a.t in s.stack then s.(pending := s.pending + [a]) else s.(handlers := Apply(s.handlers, a))
  }

  function RunOp(s: State, op: Op): State
    decreases op, 2
  {
    match op
    case Add(t, p) => Perform(s, AddAction(t, p, s.nextId)).(nextId := s.nextId + 1)
    case Remove(t, id) => Perform(s, RemoveAction(t, id))
    case Dispatch(t, behaviors) => DispatchEvent(s, t, behaviors).0
  }

  function RunOps(s: State, ops: seq<Op>): State
    decreases ops, 2
  {
    if ops == [] then s else RunOps(RunOp(s, ops[0]), ops[1..])
  }

  /** Invokes these handlers one after the other until one cancels; also says which were invoked. */
  function Visit(s: State, ids: seq<Id>, behaviors: seq<Behavior>): (State, seq<Id>)
    decreases behaviors, 0
  {
    if ids == [] || behaviors == [] then (s, ids)
    else
      var after := RunOps(s, behaviors[0].ops);
      if behaviors[0].cancel then (after, [ids[0]])
      else
        var (end, visited) := Visit(after, ids[1..], behaviors[1..]);
        (end, [ids[0]] + visited)
  }

  /** One handler, and then the rest, which is not invoked if this one cancels. */
  lemma VisitUnfolds(s: State, ids: seq<Id>, behaviors: seq<Behavior>)
    requires ids != []
    ensures behaviors == [] ==> Visit(s, ids, []) == (s, [ids[0]] + ids[1..]) && Visit(s, ids[1..], []) == (s, ids[1..])
    ensures behaviors != [] ==>
              var after := RunOps(s, behaviors[0].ops);
              var (end, more) := if behaviors[0].cancel then (after, []) else Visit(after, ids[1..], behaviors[1..]);
              Visit(s, ids, behaviors) == (end, [ids[0]] + more)
  {
    hide RunOps;
    assert ids == [ids[0]] + ids[1..];
    assert [ids[0]] + [] == [ids[0]];
  }

  function Settle(s: State): State {
    if s.stack == [] then s.(handlers := ApplyAll(s.handlers, s.pending), pending := []) else s
  }

  function DispatchEvent(s: State, t: EventType, behaviors: seq<Behavior>): (State, seq<Id>)
    decreases behaviors, 1
  {
    var begun := s.(stack := s.stack + [t]);
    var (done, visited) := Visit(begun, VisitOrder(LevelsFor(s.handlers, t)), behaviors);
    (Settle(done.(stack := s.stack)), visited)
  }

  // ----- the handlers of a type on the stack do not change

  /** How a handler's script may leave the dispatcher. */
  ghost predicate Keeps(before: State, after: State) {
    && after.stack == before.stack
    && after.nextId >= before.nextId
    && (forall t :: t in before.stack ==> LevelsFor(after.handlers, t) == LevelsFor(before.handlers, t))
    && (if before.stack == [] then before.pending == [] ==> after.pending == [] else before.pending <= after.pending)
  }

  lemma KeepsTrans(a: State, b: State, c: State)
    requires Keeps(a, b) && Keeps(b, c)
    ensures Keeps(a, c)
  {
  }

  lemma KeepsSelf(s: State)
    ensures Keeps(s, s)
  {
  }

  lemma PerformKeeps(s: State, a: Action)
    ensures Keeps(s, Perform(s, a)) && Perform(s, a).nextId == s.nextId
  {
  }

  lemma {:induction false} OpKeeps(s: State, op: Op)
    ensures Keeps(s, RunOp(s, op))
    decreases op, 2
  {
    hide Perform, DispatchEvent;
    match op
    case Add(t, p) => PerformKeeps(s, AddAction(t, p, s.nextId));
    case Remove(t, id) => PerformKeeps(s, RemoveAction(t, id));
    case Dispatch(t, behaviors) => DispatchKeeps(s, t, behaviors);
  }

  lemma {:induction false} OpsKeep(s: State, ops: seq<Op>)
    ensures Keeps(s, RunOps(s, ops))
    decreases ops, 2
  {
    hide Keeps, RunOp;
    if ops == [] {
      KeepsSelf(s);
    } else {
      OpKeeps(s, ops[0]);
      OpsKeep(RunOp(s, ops[0]), ops[1..]);
      KeepsTrans(s, RunOp(s, ops[0]), RunOps(s, ops));
    }
  }

  lemma {:induction false} VisitKeeps(s: State, ids: seq<Id>, behaviors: seq<Behavior>)
    ensures Keeps(s, Visit(s, ids, behaviors).0)
    decreases behaviors, 0
  {
    hide Keeps, RunOps;
    if ids == [] || behaviors == [] {
      KeepsSelf(s);
    } else {
      var after := RunOps(s, behaviors[0].ops);
      OpsKeep(s, behaviors[0].ops);
      if !behaviors[0].cancel {
        VisitKeeps(after, ids[1..], behaviors[1..]);
        KeepsTrans(s, after, Visit(after, ids[1..], behaviors[1..]).0);
      }
    }
  }

  /** In whatever state an event is dispatched, no type on the stack gets other handlers by it. */
  lemma {:induction false} DispatchKeeps(s: State, t: EventType, behaviors: seq<Behavior>)
    ensures Keeps(s, DispatchEvent(s, t, behaviors).0)
    ensures s.stack == [] ==> DispatchEvent(s, t, behaviors).0.pending == []
    decreases behaviors, 1
  {
    hide Visit, ApplyAll;
    var begun := s.(stack := s.stack + [t]);
    VisitKeeps(begun, VisitOrder(LevelsFor(s.handlers, t)), behaviors);
    assert forall u :: u in s.stack ==> u in begun.stack;
  }

  // ----- who is visited

  function Cancels(behaviors: seq<Behavior>): seq<bool> {
    seq(|behaviors|, i requires 0 <= i < |behaviors| => behaviors[i].cancel)
  }

  lemma {:induction false} VisitsPrefix(s: State, ids: seq<Id>, behaviors: seq<Behavior>)
    ensures Visit(s, ids, behaviors).1 == ids[..VisitedCount(|ids|, Cancels(behaviors))]
    decreases |behaviors|
  {
    hide RunOps;
    if ids != [] && behaviors != [] && !behaviors[0].cancel {
      VisitsPrefix(RunOps(s, behaviors[0].ops), ids[1..], behaviors[1..]);
      assert Cancels(behaviors)[1..] == Cancels(behaviors[1..]);
    }
  }

  /**
    Every dispatch, nested ones included, visits the handlers that its type has when it begins, in descending order of
    priority and within one in the order they were added, up to the first that cancels.
   */
  lemma DispatchVisits(s: State, t: EventType, behaviors: seq<Behavior>)
    requires Sound(s)
    ensures var order := Flat(LevelsFor(s.handlers, t));
            && (forall i, j :: 0 <= i < j < |order| ==> order[i].priority >= order[j].priority)
            && DispatchEvent(s, t, behaviors).1 == Ids(order)[..VisitedCount(|order|, Cancels(behaviors))]
  {
    hide Visit;
    FlatDescends(LevelsFor(s.handlers, t));
    VisitsPrefix(s.(stack := s.stack + [t]), VisitOrder(LevelsFor(s.handlers, t)), behaviors);
  }

  // ----- what holds in every state

  ghost predicate Sound(s: State) {
    SoundTable(s.handlers, s.nextId, s.pending) && (s.stack == [] ==> s.pending == [])
  }

  lemma PerformKeepsSound(s: State, a: Action, nextId: Id)
    requires Sound(s) && nextId >= s.nextId && (a.AddAction? ==> a.id == s.nextId < nextId)
    ensures Sound(Perform(s, a).(nextId := nextId))
  {
    hide SoundTable;
    WithPending(s.handlers, s.nextId, s.pending, a, nextId);
    ApplyKeepsSound(s.handlers, nextId, [a] + s.pending);
    assert ([a] + s.pending)[1..] == s.pending;
  }

  lemma {:induction false} OpKeepsSound(s: State, op: Op)
    requires Sound(s)
    ensures Sound(RunOp(s, op))
    decreases op, 2
  {
    hide Perform, DispatchEvent, SoundTable;
    match op
    case Add(t, p) => PerformKeepsSound(s, AddAction(t, p, s.nextId), s.nextId + 1);
    case Remove(t, id) =>
      PerformKeepsSound(s, RemoveAction(t, id), s.nextId);
      PerformKeeps(s, RemoveAction(t, id));
    case Dispatch(t, behaviors) => DispatchKeepsSound(s, t, behaviors);
  }

  /** A script that starts between dispatches, or in one, ends in a sound state. */
  lemma {:induction false} OpsKeepSound(s: State, ops: seq<Op>)
    requires Sound(s)
    ensures Sound(RunOps(s, ops))
    decreases ops, 2
  {
    hide Sound, RunOp;
    if ops == [] {
    } else {
      OpKeepsSound(s, ops[0]);
      OpsKeepSound(RunOp(s, ops[0]), ops[1..]);
    }
  }

  lemma {:induction false} VisitKeepsSound(s: State, ids: seq<Id>, behaviors: seq<Behavior>)
    requires Sound(s)
    ensures Sound(Visit(s, ids, behaviors).0)
    decreases behaviors, 0
  {
    hide Sound, RunOps;
    if ids != [] && behaviors != [] {
      OpsKeepSound(s, behaviors[0].ops);
      if !behaviors[0].cancel {
        VisitKeepsSound(RunOps(s, behaviors[0].ops), ids[1..], behaviors[1..]);
      }
    }
  }

  lemma {:induction false} DispatchKeepsSound(s: State, t: EventType, behaviors: seq<Behavior>)
    requires Sound(s)
    ensures Sound(DispatchEvent(s, t, behaviors).0)
    decreases behaviors, 1
  {
    hide Visit, SoundTable, ApplyAll;
    var begun := s.(stack := s.stack + [t]);
    VisitKeepsSound(begun, VisitOrder(LevelsFor(s.handlers, t)), behaviors);
    var done := Visit(begun, VisitOrder(LevelsFor(s.handlers, t)), behaviors).0;
    ApplyAllKeepsSound(done.handlers, done.nextId, done.pending, |done.pending|);
    assert done.pending[..|done.pending|] == done.pending && done.pending[|done.pending|..] == [];
  }

  /** Whatever is done from the start, between dispatches nothing is pending and nothing is being dispatched. */
  lemma RunsSettle(ops: seq<Op>)
    ensures var s := RunOps(START, ops); s.stack == [] && s.pending == [] && Sound(s)
  {
    hide SoundTable;
    StartIsSound();
    OpsKeepSound(START, ops);
    OpsKeep(START, ops);
  }

  lemma StartIsSound()
    ensures Sound(START)
  {
    assert forall t: EventType :: LevelsFor(START.handlers, t) == [];
  }

  // ----- do adding and removing take effect?

  /** What will be registered once everything pending has been applied. */
  predicate WillBeRegistered(s: State, t: EventType, id: Id) {
    Registered(LevelsFor(ApplyAll(s.handlers, s.pending), t), id)
  }

  /**
    A removal takes effect, at the latest when everything pending has been applied, unless an add of that very handler
    is still pending while its type is not being dispatched any more: then the add comes after the removal and stays.
   */
  lemma RemoveTakesEffect(s: State, t: EventType, id: Id)
    ensures WillBeRegistered(RunOp(s, Remove(t, id)), t, id) <==> t !in s.stack && EndsAdded(s.pending, t, id)
  {
    hide Registered, ApplyAll;
    var a := RemoveAction(t, id);
    var after := RunOp(s, Remove(t, id));
    ApplyAllRegisters(after.handlers, after.pending, t, id);
    if t in s.stack {
      assert after.pending == s.pending + [a];
      assert a in after.pending;
    } else {
      ApplyRegisters(s.handlers, a, t, id);
    }
  }

  /** The bad case: the add waits for the outer event, the removal does not. */
  lemma RemovalOvertakesAdd(outer: EventType, inner: EventType, p: Priority)
    requires outer != inner
    ensures var adding := Dispatch(inner, [Behavior([Add(inner, p)], false)]);
            var removing := Behavior([adding, Remove(inner, 2)], false);
            var s := RunOps(START, [Add(outer, p), Add(inner, p), Dispatch(outer, [removing])]);
            Registered(LevelsFor(s.handlers, inner), 2)
  {
    hide RunOps, Perform, DispatchEvent, Registered, ApplyAll;
    var adding := Dispatch(inner, [Behavior([Add(inner, p)], false)]);
    var script := [adding, Remove(inner, 2)];
    var s0 := RunOp(RunOp(START, Add(outer, p)), Add(inner, p));
    TwoHandlers(outer, inner, p);
    ThreeOps(START, Add(outer, p), Add(inner, p), Dispatch(outer, [Behavior(script, false)]));
    OneVisit(s0, outer, p, 0, script);
    InnerEvent(outer, inner, p);
    assert [] + [outer] == [outer];
  }

  lemma ThreeOps(s: State, a: Op, b: Op, c: Op)
    ensures RunOps(s, [a, b, c]) == RunOp(RunOp(RunOp(s, a), b), c)
    ensures RunOps(s, [a, b]) == RunOp(RunOp(s, a), b)
    ensures RunOps(s, [a]) == RunOp(s, a)
  {
    hide RunOp;
    assert [a, b, c] == [a] + [b, c] && [b, c] == [b] + [c] && [a, b] == [a] + [b];
    assert [a] == [a] + [] && [b] == [b] + [] && [c] == [c] + [];
    OpsOneByOne(s, a, [b, c]);
    OpsOneByOne(s, a, [b]);
    OpsOneByOne(s, a, []);
    OpsOneByOne(RunOp(s, a), b, [c]);
    OpsOneByOne(RunOp(s, a), b, []);
    OpsOneByOne(RunOp(RunOp(s, a), b), c, []);
  }

  lemma InnerEvent(outer: EventType, inner: EventType, p: Priority)
    requires outer != inner
    ensures var s := State(map[outer := [Level(p, [0])], inner := [Level(p, [1])]], 2, [outer], []);
            var adding := Dispatch(inner, [Behavior([Add(inner, p)], false)]);
            WillBeRegistered(RunOps(s, [adding, Remove(inner, 2)]), inner, 2)
  {
    hide RunOps, DispatchEvent, Registered, ApplyAll, WillBeRegistered;
    var s := State(map[outer := [Level(p, [0])], inner := [Level(p, [1])]], 2, [outer], []);
    var adding := Dispatch(inner, [Behavior([Add(inner, p)], false)]);
    ThreeOps(s, adding, Remove(inner, 2), Remove(inner, 2));
    OneVisit(s, inner, p, 1, [Add(inner, p)]);
    var s2 := s.(stack := [outer] + [inner]);
    ThreeOps(s2, Add(inner, p), Add(inner, p), Add(inner, p));
    assert RunOp(s, adding).pending == [AddAction(inner, p, 2)] && RunOp(s, adding).stack == [outer];
    RemoveTakesEffect(RunOp(s, adding), inner, 2);
  }

  lemma OpsOneByOne(s: State, op: Op, ops: seq<Op>)
    ensures RunOps(s, [op] + ops) == RunOps(RunOp(s, op), ops)
    ensures RunOps(RunOp(s, op), []) == RunOp(s, op)
  {
    assert ([op] + ops)[1..] == ops;
  }

  lemma TwoHandlers(outer: EventType, inner: EventType, p: Priority)
    requires outer != inner
    ensures RunOp(RunOp(START, Add(outer, p)), Add(inner, p))
            == State(map[outer := [Level(p, [0])], inner := [Level(p, [1])]], 2, [], [])
  {
    assert [Level(p, [0])] + [] == [Level(p, [0])] && [Level(p, [1])] + [] == [Level(p, [1])];
    assert AddAt([], p, 0) == [Level(p, [0])] && AddAt([], p, 1) == [Level(p, [1])];
  }

  lemma OneVisit(s: State, t: EventType, p: Priority, id: Id, ops: seq<Op>)
    requires LevelsFor(s.handlers, t) == [Level(p, [id])]
    ensures DispatchEvent(s, t, [Behavior(ops, false)]).0
            == Settle(RunOps(s.(stack := s.stack + [t]), ops).(stack := s.stack))
  {
    hide RunOps, Settle;
    FlatOf(Level(p, [id]), []);
    assert [Level(p, [id])] + [] == [Level(p, [id])];
    assert Flat([]) + Entries(Level(p, [id])) == [Entry(p, id)];
    assert VisitOrder(LevelsFor(s.handlers, t)) == [id];
    VisitOne(s.(stack := s.stack + [t]), id, ops);
  }

  lemma VisitOne(s: State, id: Id, ops: seq<Op>)
    ensures Visit(s, [id], [Behavior(ops, false)]).0 == RunOps(s, ops)
  {
    assert [id][1..] == [] && [Behavior(ops, false)][1..] == [];
    assert Visit(RunOps(s, ops), [], []) == (RunOps(s, ops), []);
  }
}
