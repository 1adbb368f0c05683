/**
  The simple dispatcher against a plain history: what is asked for outside of all dispatches is carried out in the order
  of the requests; of what one outermost dispatch asks for, first what need not wait, and then the rest.
 */
module SimpleHistory {
  import opened HandlerActions
  import opened HandlerLists
  import opened SimpleDispatch

  // ----- the reference

  /** Something asked for, and whether its type was being dispatched at the time. */
  datatype Request = Request(action: Action, deferred: bool)

  function RequestsOfOp(s: State, op: Op): seq<Request>
    decreases op, 2
  {
    match op
    case Add(t, p) => [Request(AddAction(t, p, s.nextId), t in s.stack)]
    case Remove(t, id) => [Request(RemoveAction(t, id), t in s.stack)]
    case Dispatch(t, behaviors) =>
      RequestsOfVisits(s.(stack := s.stack + [t]), |OrderOf(s.handlers, t)|, behaviors)
  }

  function RequestsOf(s: State, ops: seq<Op>): seq<Request>
    decreases ops, 2
  {
    if ops == [] then [] else RequestsOfOp(s, ops[0]) + RequestsOf(RunOp(s, ops[0]), ops[1..])
  }

  /** Those of n handlers, or of fewer if one of them cancels. */
  function RequestsOfVisits(s: State, n: nat, behaviors: seq<Behavior>): seq<Request>
    decreases behaviors, 0
  {
    if n == 0 || behaviors == [] then []
    else
      RequestsOf(s, behaviors[0].ops)
      + if behaviors[0].cancel then []
        else RequestsOfVisits(RunOps(s, behaviors[0].ops), n - 1, behaviors[1..])
  }

  function Select(requests: seq<Request>, deferred: bool): seq<Action> {
    if requests == [] then []
    else
      var last := requests[|requests| - 1];
      Select(requests[..|requests| - 1], deferred) + if last.deferred == deferred then [last.action] else []
  }

  /** All that an outermost operation asks for, in the order in which it takes effect. */
  function Settling(requests: seq<Request>): seq<Action> {
    Select(requests, false) + Select(requests, true)
  }

  function History(s: State, ops: seq<Op>): seq<Action>
    decreases |ops|
  {
    if ops == [] then [] else Settling(RequestsOfOp(s, ops[0])) + History(RunOp(s, ops[0]), ops[1..])
  }

  function Adds(requests: seq<Request>): nat {
    if requests == [] then 0
    else Adds(requests[..|requests| - 1]) + if requests[|requests| - 1].action.AddAction? then 1 else 0
  }

  lemma {:induction false} SelectBoth(a: seq<Request>, b: seq<Request>, deferred: bool)
    ensures Select(a + b, deferred) == Select(a, deferred) + Select(b, deferred)
    ensures Adds(a + b) == Adds(a) + Adds(b)
  {
    if b == [] {
      assert a + b == a;
    } else {
      SelectBoth(a, b[..|b| - 1], deferred);
      assert (a + b)[..|a + b| - 1] == a + b[..|b| - 1];
    }
  }

  lemma SelectOne(r: Request)
    ensures Select([r], r.deferred) == [r.action] && Select([r], !r.deferred) == []
    ensures Adds([r]) == if r.action.AddAction? then 1 else 0
  {
    assert [r][..0] == [];
  }

  // ----- while something is being dispatched

  /** How these requests take a dispatcher from one state to another while something is being dispatched. */
  ghost predicate Tells(before: State, after: State, requests: seq<Request>) {
    && after.nextId == before.nextId + Adds(requests)
    && after.pending == before.pending + Select(requests, true)
    && forall t :: OrderOf(after.handlers, t) == Effects(OrderOf(before.handlers, t), t, Select(requests, false))
  }

  lemma TellsTrans(a: State, b: State, c: State, first: seq<Request>, second: seq<Request>)
    requires Tells(a, b, first) && Tells(b, c, second)
    ensures Tells(a, c, first + second)
  {
    hide Select, Adds, Effects, OrderOf;
    SelectBoth(first, second, true);
    SelectBoth(first, second, false);
    forall t
      ensures OrderOf(c.handlers, t) == Effects(OrderOf(a.handlers, t), t, Select(first + second, false))
    {
      EffectsOfBoth(OrderOf(a.handlers, t), t, Select(first, false), Select(second, false));
    }
  }

  lemma TellsNothing(s: State)
    ensures Tells(s, s, [])
  {
  }

  lemma PerformTells(s: State, a: Action, nextId: Id)
    requires Sound(s) && nextId == s.nextId + if a.AddAction? then 1 else 0
    ensures Tells(s, Perform(s, a).(nextId := nextId), [Request(a, a.t in s.stack)])
  {
    hide OrderOf, Apply, Effect, SoundTable, Select, Adds;
    var r := Request(a, a.t in s.stack);
    SelectOne(r);
    TableIsShaped(s.handlers, s.nextId, s.pending);
    forall t ensures OrderOf(Perform(s, a).handlers, t) == Effects(OrderOf(s.handlers, t), t, Select([r], false)) {
      if !r.deferred {
        ApplyHasEffect(s.handlers, a, t);
        OneEffect(OrderOf(s.handlers, t), t, a);
      }
    }
  }

  lemma OneEffect(order: seq<Entry>, t: EventType, a: Action)
    ensures Effects(order, t, [a]) == Effect(order, t, a)
  {
    hide Effect;
    assert [a][..0] == [];
    assert Effects(order, t, []) == order;
  }

  lemma {:induction false} OpTells(s: State, op: Op)
    requires Sound(s) && s.stack != []
    ensures Tells(s, RunOp(s, op), RequestsOfOp(s, op))
    decreases op, 2
  {
    hide Tells, Perform, Sound, Visit, RequestsOfVisits, Flat;
    match op
    case Add(t, p) => PerformTells(s, AddAction(t, p, s.nextId), s.nextId + 1);
    case Remove(t, id) =>
      PerformTells(s, RemoveAction(t, id), s.nextId);
      PerformKeeps(s, RemoveAction(t, id));
    case Dispatch(t, behaviors) =>
      var begun := s.(stack := s.stack + [t]);
      var ids := VisitOrder(LevelsFor(s.handlers, t));
      BegunIsSound(s, t);
      VisitsTell(begun, ids, behaviors);
      StackDoesNotCount(s, begun, Visit(begun, ids, behaviors).0, RequestsOfVisits(begun, |ids|, behaviors));
  }

  lemma BegunIsSound(s: State, t: EventType)
    requires Sound(s)
    ensures Sound(s.(stack := s.stack + [t]))
  {
    hide SoundTable;
  }

  lemma StackDoesNotCount(s: State, begun: State, done: State, requests: seq<Request>)
    requires Tells(begun, done, requests) && begun == s.(stack := begun.stack)
    ensures Tells(s, done.(stack := s.stack), requests)
  {
    hide Select, Adds, Effects, OrderOf;
  }

  lemma {:induction false} OpsTell(s: State, ops: seq<Op>)
    requires Sound(s) && s.stack != []
    ensures Tells(s, RunOps(s, ops), RequestsOf(s, ops))
    decreases ops, 2
  {
    hide Tells, Sound, RunOp, RequestsOfOp;
    if ops == [] {
      TellsNothing(s);
    } else {
      var next := RunOp(s, ops[0]);
      OpTells(s, ops[0]);
      OpKeepsSound(s, ops[0]);
      OpKeeps(s, ops[0]);
      OpsTell(next, ops[1..]);
      TellsTrans(s, next, RunOps(s, ops), RequestsOfOp(s, ops[0]), RequestsOf(next, ops[1..]));
    }
  }

  lemma {:induction false} VisitsTell(s: State, ids: seq<Id>, behaviors: seq<Behavior>)
    requires Sound(s) && s.stack != []
    ensures Tells(s, Visit(s, ids, behaviors).0, RequestsOfVisits(s, |ids|, behaviors))
    decreases behaviors, 0
  {
    hide Tells, Sound, RunOps, RequestsOf;
    if ids == [] || behaviors == [] {
      TellsNothing(s);
    } else {
      var script := behaviors[0].ops;
      var next, first := RunOps(s, script), RequestsOf(s, script);
      OpsTell(s, script);
      if behaviors[0].cancel {
        assert first + [] == first;
      } else {
        OpsKeepSound(s, script);
        OpsKeep(s, script);
        VisitsTell(next, ids[1..], behaviors[1..]);
        TellsTrans(s, next, Visit(s, ids, behaviors).0, first, RequestsOfVisits(next, |ids| - 1, behaviors[1..]));
      }
    }
  }

  // ----- between dispatches

  lemma OutermostTells(s: State, op: Op)
    requires Sound(s) && s.stack == []
    ensures var requests, after := RequestsOfOp(s, op), RunOp(s, op);
            && after.nextId == s.nextId + Adds(requests)
            && forall t :: OrderOf(after.handlers, t) == Effects(OrderOf(s.handlers, t), t, Settling(requests))
  {
    hide SoundTable, OrderOf, Effects, Adds, Select, Perform, DispatchEvent, RequestsOfVisits;
    match op
    case Add(t, p) =>
      PerformTells(s, AddAction(t, p, s.nextId), s.nextId + 1);
      NothingDeferred(Request(AddAction(t, p, s.nextId), false));
    case Remove(t, id) =>
      PerformTells(s, RemoveAction(t, id), s.nextId);
      PerformKeeps(s, RemoveAction(t, id));
      NothingDeferred(Request(RemoveAction(t, id), false));
    case Dispatch(t, behaviors) => OutermostDispatchTells(s, t, behaviors);
  }

  lemma NothingDeferred(r: Request)
    requires !r.deferred
    ensures Settling([r]) == Select([r], false)
  {
    SelectOne(r);
  }

  lemma OutermostDispatchTells(s: State, t: EventType, behaviors: seq<Behavior>)
    requires Sound(s) && s.stack == []
    ensures var requests, after := RequestsOfOp(s, Dispatch(t, behaviors)), DispatchEvent(s, t, behaviors).0;
            && after.nextId == s.nextId + Adds(requests)
            && forall u :: OrderOf(after.handlers, u) == Effects(OrderOf(s.handlers, u), u, Settling(requests))
  {
    hide SoundTable, Effects, Adds, Select, Visit, RequestsOfVisits, ApplyAll, Flat;
    var begun, ids := s.(stack := s.stack + [t]), VisitOrder(LevelsFor(s.handlers, t));
    var done := Visit(begun, ids, behaviors).0;
    BegunIsSound(s, t);
    VisitsTell(begun, ids, behaviors);
    VisitKeepsSound(begun, ids, behaviors);
    var requests := RequestsOfVisits(begun, |ids|, behaviors);
    assert done.pending == Select(requests, true);
    assert done.pending[..|done.pending|] == done.pending;
    forall u
      ensures OrderOf(ApplyAll(done.handlers, done.pending), u)
              == Effects(OrderOf(s.handlers, u), u, Settling(requests))
    {
      ApplyAllHasEffects(done.handlers, done.nextId, done.pending, |done.pending|, u);
      EffectsOfBoth(OrderOf(s.handlers, u), u, Select(requests, false), Select(requests, true));
    }
  }

  lemma {:induction false} OpsKeepToHistory(s: State, ops: seq<Op>, t: EventType)
    requires Sound(s) && s.stack == []
    ensures OrderOf(RunOps(s, ops).handlers, t) == Effects(OrderOf(s.handlers, t), t, History(s, ops))
    decreases |ops|
  {
    hide Sound, RunOp, RequestsOfOp, OrderOf, Effects, Settling;
    if ops == [] {
      NothingHappens(OrderOf(s.handlers, t), t);
    } else {
      var next := RunOp(s, ops[0]);
      OutermostTells(s, ops[0]);
      OpKeepsSound(s, ops[0]);
      OpKeeps(s, ops[0]);
      OpsKeepToHistory(next, ops[1..], t);
      EffectsOfBoth(OrderOf(s.handlers, t), t, Settling(RequestsOfOp(s, ops[0])), History(next, ops[1..]));
    }
  }

  lemma NothingHappens(order: seq<Entry>, t: EventType)
    ensures Effects(order, t, []) == order
  {
  }

  /**
    After whatever has been done from the start, a type's handlers are visited in the order that its history gives: each
    where its priority puts it when it is added, and none that has been removed since.
   */
  lemma RunsKeepToHistory(ops: seq<Op>, t: EventType)
    ensures Flat(LevelsFor(RunOps(START, ops).handlers, t)) == Effects([], t, History(START, ops))
  {
    hide Sound, RunOps, Effects, History;
    StartIsSound();
    OpsKeepToHistory(START, ops, t);
  }

  /** So a handler is there if and only if it was added and, in the order of effects, not removed since. */
  lemma RegisteredIff(ops: seq<Op>, t: EventType, e: Entry)
    ensures e in Flat(LevelsFor(RunOps(START, ops).handlers, t)) <==>
              exists i: nat :: AddedAt(t, History(START, ops), e, i)
  {
    hide RunOps, Effects, History, AddedAt, Flat;
    RunsKeepToHistory(ops, t);
    EffectsHave(t, History(START, ops), e);
  }

  // ----- one request

  function Eventual(s: State, t: EventType): seq<Entry> {
    OrderOf(ApplyAll(s.handlers, s.pending), t)
  }

  /**
    A handler that is added goes behind those of its own or a higher priority and before those of a lower one: at once,
    or, if its type is being dispatched, once everything that waits has been carried out.
   */
  lemma AddTakesEffect(s: State, t: EventType, p: Priority)
    requires Sound(s)
    ensures var after, e := RunOp(s, Add(t, p)), Entry(p, s.nextId);
            && after.nextId == s.nextId + 1 && after.stack == s.stack
            && if t in s.stack then
                 && after.handlers == s.handlers
                 && (exists k :: InsertedAt(Eventual(s, t), e, Eventual(after, t), k))
                 && (forall u :: u != t ==> Eventual(after, u) == Eventual(s, u))
               else
                 && after.pending == s.pending
                 && (exists k :: InsertedAt(OrderOf(s.handlers, t), e, OrderOf(after.handlers, t), k))
                 && (forall u :: u != t ==> OrderOf(after.handlers, u) == OrderOf(s.handlers, u))
  {
    hide SoundTable, Apply, InsertBehind, InsertedAt, OrderOf;
    var a, e := AddAction(t, p, s.nextId), Entry(p, s.nextId);
    var before := if t in s.stack then ApplyAll(s.handlers, s.pending) else s.handlers;
    TablesAreShaped(s);
    assert (s.pending + [a])[..|s.pending|] == s.pending;
    OrderDescends(before, t);
    InsertedBetween(OrderOf(before, t), e);
    forall u ensures OrderOf(Apply(before, a), u) == Effect(OrderOf(before, u), u, a) {
      ApplyHasEffect(before, a, u);
    }
    var k: nat :| InsertedAt(OrderOf(before, t), e, InsertBehind(OrderOf(before, t), e), k);
    assert InsertedAt(OrderOf(before, t), e, OrderOf(Apply(before, a), t), k);
    assert t in s.stack ==> InsertedAt(Eventual(s, t), e, Eventual(RunOp(s, Add(t, p)), t), k);
  }

  lemma TablesAreShaped(s: State)
    requires Sound(s)
    ensures Shaped(s.handlers) && Shaped(ApplyAll(s.handlers, s.pending))
  {
    hide SoundTable;
    assert s.pending[..|s.pending|] == s.pending && s.pending[|s.pending|..] == [];
    ApplyAllKeepsSound(s.handlers, s.nextId, s.pending, |s.pending|);
    TableIsShaped(s.handlers, s.nextId, s.pending);
    TableIsShaped(ApplyAll(s.handlers, s.pending), s.nextId, []);
  }
}
