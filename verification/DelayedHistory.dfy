/**
  The delayed dispatcher against a plain history: the requests in the order in which they were made, each carried out
  at once. That some are put off changes nothing about who is visited.
 */
module DelayedHistory {
  import opened DelayedDispatch
  import opened HandlerActions
  import opened HandlerLists
  import opened Wrappers

  // ----- the reference

  /** How many handlers were added, which is the id of the next one. */
  function Adds(ops: seq<Op>): nat {
    if ops == [] then 0 else Adds(ops[..|ops| - 1]) + if ops[|ops| - 1].Add? then 1 else 0
  }

  function Requests(ops: seq<Op>): seq<Action> {
    if ops == [] then []
    else
      var init := ops[..|ops| - 1];
      Requests(init) + Request(ops[|ops| - 1], Adds(init))
  }

  function Request(op: Op, nextId: Id): seq<Action> {
    match op
    case Add(t, p) => [AddAction(t, p, nextId)]
    case Remove(t, id) => [RemoveAction(t, id)]
    case Post(_) => []
  }

  function Posts(ops: seq<Op>): seq<Item> {
    if ops == [] then []
    else Posts(ops[..|ops| - 1]) + if ops[|ops| - 1].Post? then [ops[|ops| - 1].item] else []
  }

  /** The order of visits of a type, had every request been carried out when it was made. */
  function History(t: EventType, ops: seq<Op>): seq<Entry> {
    Effects([], t, Requests(ops))
  }

  /** Everything that the first n behaviours do. */
  function Scripts(behaviors: seq<Behavior>, n: nat): seq<Op>
    decreases n
  {
    if n == 0 || behaviors == [] then [] else behaviors[0].ops + Scripts(behaviors[1..], n - 1)
  }

  datatype Story = Story(ops: seq<Op>, current: Option<EventType>)

  function Told(story: Story, step: Step): Story {
    match step
    case Do(op) => story.(ops := story.ops + [op])
    case Begin(t) => story.(current := Some(t))
    case Deliver(behaviors) =>
      var invoked := match story.current
        case None => 0
        case Some(t) => VisitedCount(|History(t, story.ops)|, Cancels(behaviors));
      story.(ops := story.ops + Scripts(behaviors, invoked))
    case End => story.(current := None)
    case Finish => story
  }

  function StoryOf(steps: seq<Step>): Story {
    if steps == [] then Story([], None) else Told(StoryOf(steps[..|steps| - 1]), steps[|steps| - 1])
  }

  // ----- once nothing is pending any more

  function Eventual(s: State, t: EventType): seq<Entry> {
    OrderOf(ApplyAll(s.handlers, s.pending), t)
  }

  lemma EventualIs(s: State, t: EventType)
    requires SoundTable(s.handlers, s.nextId, s.pending)
    ensures Eventual(s, t) == Effects(OrderOf(s.handlers, t), t, s.pending)
  {
    hide SoundTable, OrderOf;
    assert s.pending[..|s.pending|] == s.pending;
    ApplyAllHasEffects(s.handlers, s.nextId, s.pending, |s.pending|, t);
  }

  lemma EventualIsShaped(s: State)
    requires Sound(s)
    ensures Shaped(s.handlers) && Shaped(ApplyAll(s.handlers, s.pending))
  {
    hide SoundTable, Accounted;
    TableIsShaped(s.handlers, s.nextId, s.pending);
    assert s.pending[..|s.pending|] == s.pending && s.pending[|s.pending|..] == [];
    ApplyAllKeepsSound(s.handlers, s.nextId, s.pending, |s.pending|);
    TableIsShaped(ApplyAll(s.handlers, s.pending), s.nextId, []);
  }

  lemma PendingAllOf(s: State, t: EventType, order: seq<Entry>)
    requires Sound(s) && s.current != Some(t)
    ensures Effects(order, t, s.pending) == order
  {
    hide SoundTable, Accounted;
    NoEffect(order, t, s.pending);
  }

  lemma PerformHasEffect(s: State, a: Action, nextId: Id, t: EventType)
    requires Sound(s) && nextId >= s.nextId && (a.AddAction? ==> a.id == s.nextId < nextId)
    ensures Eventual(Perform(s, a), t) == Effect(Eventual(s, t), t, a)
  {
    hide SoundTable, Accounted, OrderOf, Effect, Apply, Effects;
    if s.current == Some(a.t) {
      EventualIsShaped(s);
      assert (s.pending + [a])[..|s.pending|] == s.pending;
      ApplyHasEffect(ApplyAll(s.handlers, s.pending), a, t);
    } else {
      var after := Perform(s, a).(nextId := nextId);
      PerformKeepsTable(s, a, nextId);
      EventualIs(s, t);
      EventualIs(after, t);
      TableIsShaped(s.handlers, s.nextId, s.pending);
      ApplyHasEffect(s.handlers, a, t);
      if a.t == t {
        PendingAllOf(s, t, OrderOf(s.handlers, t));
        PendingAllOf(s, t, OrderOf(after.handlers, t));
      } else {
        OtherType(OrderOf(s.handlers, t), t, a);
        OtherType(Eventual(s, t), t, a);
      }
    }
  }

  lemma OtherType(order: seq<Entry>, t: EventType, a: Action)
    requires a.t != t
    ensures Effect(order, t, a) == order
  {
  }

  /** A handler that is added is visited behind all of its own or a higher priority and before all of a lower one. */
  lemma AddTakesEffect(s: State, t: EventType, p: Priority)
    requires Sound(s)
    ensures var after := RunOp(s, Add(t, p));
            && after.nextId == s.nextId + 1
            && (exists k :: InsertedAt(Eventual(s, t), Entry(p, s.nextId), Eventual(after, t), k))
            && (forall u :: u != t ==> Eventual(after, u) == Eventual(s, u))
  {
    hide Sound, Perform, OrderOf, ApplyAll, InsertBehind, InsertedAt;
    var a := AddAction(t, p, s.nextId);
    EventualIsShaped(s);
    OrderDescends(ApplyAll(s.handlers, s.pending), t);
    InsertedBetween(Eventual(s, t), Entry(p, s.nextId));
    IdDoesNotCount(s, a);
    forall u ensures Eventual(RunOp(s, Add(t, p)), u) == Effect(Eventual(s, u), u, a) {
      PerformHasEffect(s, a, s.nextId + 1, u);
      assert Eventual(RunOp(s, Add(t, p)), u) == Eventual(Perform(s, a), u);
    }
  }

  /** At once, if its type is not being dispatched. */
  lemma AddsAtOnce(s: State, t: EventType, p: Priority)
    requires Sound(s) && s.current != Some(t)
    ensures var after, e := RunOp(s, Add(t, p)), Entry(p, s.nextId);
            && after.pending == s.pending
            && (exists k :: InsertedAt(OrderOf(s.handlers, t), e, OrderOf(after.handlers, t), k))
            && (forall u :: u != t ==> OrderOf(after.handlers, u) == OrderOf(s.handlers, u))
  {
    hide SoundTable, Accounted, Apply, InsertBehind, InsertedAt, OrderOf;
    var a := AddAction(t, p, s.nextId);
    TableIsShaped(s.handlers, s.nextId, s.pending);
    OrderDescends(s.handlers, t);
    InsertedBetween(OrderOf(s.handlers, t), Entry(p, s.nextId));
    forall u ensures OrderOf(Apply(s.handlers, a), u) == Effect(OrderOf(s.handlers, u), u, a) {
      ApplyHasEffect(s.handlers, a, u);
    }
    var k: nat :| InsertedAt(OrderOf(s.handlers, t), Entry(p, s.nextId),
                             InsertBehind(OrderOf(s.handlers, t), Entry(p, s.nextId)), k);
    assert InsertedAt(OrderOf(s.handlers, t), Entry(p, s.nextId), OrderOf(Apply(s.handlers, a), t), k);
  }

  lemma IdDoesNotCount(s: State, a: Action)
    ensures forall nextId, t :: Eventual(Perform(s, a).(nextId := nextId), t) == Eventual(Perform(s, a), t)
  {
  }

  // ----- the dispatcher keeps to its history

  ghost predicate Tells(s: State, ops: seq<Op>) {
    && s.nextId == Adds(ops)
    && s.posted == Posts(ops)
    && forall t :: Eventual(s, t) == History(t, ops)
  }

  lemma OneMore(ops: seq<Op>, op: Op)
    ensures Adds(ops + [op]) == Adds(ops) + if op.Add? then 1 else 0
    ensures Posts(ops + [op]) == Posts(ops) + if op.Post? then [op.item] else []
    ensures Requests(ops + [op]) == Requests(ops) + Request(op, Adds(ops))
  {
    assert (ops + [op])[..|ops|] == ops;
  }

  lemma HistoryMore(t: EventType, ops: seq<Op>, op: Op, a: Action)
    requires Requests(ops + [op]) == Requests(ops) + [a]
    ensures History(t, ops + [op]) == Effect(History(t, ops), t, a)
  {
    hide Effect;
    assert (Requests(ops) + [a])[..|Requests(ops)|] == Requests(ops);
  }

  lemma OpTells(s: State, ops: seq<Op>, op: Op)
    requires Sound(s) && Tells(s, ops)
    ensures Tells(RunOp(s, op), ops + [op])
  {
    hide Sound, Perform, Eventual, History, Effect, PostEvent;
    OneMore(ops, op);
    var after := RunOp(s, op);
    forall t ensures Eventual(after, t) == History(t, ops + [op]) {
      match op
      case Add(u, p) =>
        var a := AddAction(u, p, s.nextId);
        PerformHasEffect(s, a, s.nextId + 1, t);
        IdDoesNotCount(s, a);
        HistoryMore(t, ops, op, a);
      case Remove(u, id) =>
        PerformHasEffect(s, RemoveAction(u, id), s.nextId, t);
        HistoryMore(t, ops, op, RemoveAction(u, id));
      case Post(item) =>
        PostHasNoEffect(s, item, t);
        assert Requests(ops) + [] == Requests(ops);
        SameRequests(t, ops + [op], ops);
    }
    OpCounts(s, op);
  }

  lemma SameRequests(t: EventType, a: seq<Op>, b: seq<Op>)
    requires Requests(a) == Requests(b)
    ensures History(t, a) == History(t, b)
  {
  }

  lemma OpCounts(s: State, op: Op)
    ensures RunOp(s, op).nextId == s.nextId + if op.Add? then 1 else 0
    ensures RunOp(s, op).posted == s.posted + if op.Post? then [op.item] else []
  {
  }

  lemma PostHasNoEffect(s: State, item: Item, t: EventType)
    requires Sound(s)
    ensures Eventual(PostEvent(s, item), t) == Eventual(s, t)
  {
    hide SoundTable, Accounted, Effects, Flat;
    PostKeepsTable(s.handlers, s.nextId, s.pending, item.t);
    EventualIs(s, t);
    EventualIs(PostEvent(s, item), t);
  }

  lemma {:induction false} OpsTell(s: State, ops: seq<Op>, more: seq<Op>)
    requires Sound(s) && Tells(s, ops)
    ensures Tells(RunOps(s, more), ops + more)
    decreases |more|
  {
    hide Sound, Tells, RunOp;
    if more == [] {
      assert ops + more == ops;
    } else {
      OpTells(s, ops, more[0]);
      OpKeepsSound(s, more[0]);
      OpsTell(RunOp(s, more[0]), ops + [more[0]], more[1..]);
      assert ops + [more[0]] + more[1..] == ops + more;
    }
  }

  lemma {:induction false} VisitTells(s: State, ops: seq<Op>, ids: seq<Id>, behaviors: seq<Behavior>)
    requires Sound(s) && Tells(s, ops)
    ensures Tells(Visit(s, ids, behaviors).0, ops + Scripts(behaviors, VisitedCount(|ids|, Cancels(behaviors))))
    decreases |ids|
  {
    hide Sound, Tells, RunOps;
    if ids == [] || behaviors == [] {
      assert ops + [] == ops;
    } else {
      var script, rest := behaviors[0].ops, behaviors[1..];
      assert Cancels(behaviors)[1..] == Cancels(rest);
      OpsTell(s, ops, script);
      OpsKeepSound(s, script);
      if behaviors[0].cancel {
        OneScript(behaviors);
      } else {
        VisitTells(RunOps(s, script), ops + script, ids[1..], rest);
        var n := VisitedCount(|ids| - 1, Cancels(rest));
        assert ops + script + Scripts(rest, n) == ops + (script + Scripts(rest, n));
      }
    }
  }

  lemma OneScript(behaviors: seq<Behavior>)
    requires behaviors != []
    ensures Scripts(behaviors, 1) == behaviors[0].ops
  {
    assert Scripts(behaviors[1..], 0) == [];
  }

  lemma HandlersTell(s: State, after: State, ops: seq<Op>)
    requires Tells(s, ops) && after.nextId == s.nextId && after.posted == s.posted
    requires ApplyAll(after.handlers, after.pending) == ApplyAll(s.handlers, s.pending)
    ensures Tells(after, ops)
  {
    hide ApplyAll, History, OrderOf;
    forall t ensures Eventual(after, t) == History(t, ops) {
      assert Eventual(s, t) == History(t, ops);
    }
  }

  lemma DeliverTells(s: State, story: Story, behaviors: seq<Behavior>)
    requires Settled(s) && Tells(s, story.ops) && s.current == story.current && Possible(s, Deliver(behaviors))
    ensures Tells(DeliverNext(s, behaviors).0, Told(story, Deliver(behaviors)).ops)
    ensures |VisitOrder(LevelsFor(s.handlers, s.current.value))| == |History(s.current.value, story.ops)|
  {
    hide Sound, Visit, Taken, Scripts, ApplyAll, History, Flat;
    var t := s.current.value;
    NothingToApply(s.handlers);
    assert Eventual(s, t) == History(t, story.ops);
    TakenIsSound(s);
    TakenKeeps(s);
    HandlersTell(s, Taken(s), story.ops);
    var ids := VisitOrder(LevelsFor(s.handlers, t));
    VisitTells(Taken(s), story.ops, ids, behaviors);
    var done := Visit(Taken(s), ids, behaviors).0;
    NothingToApply(Flushed(done).handlers);
    HandlersTell(done, Flushed(done), story.ops + Scripts(behaviors, VisitedCount(|ids|, Cancels(behaviors))));
  }

  lemma TakenKeeps(s: State)
    requires Possible(s, Deliver([]))
    ensures var after := Taken(s);
            after.handlers == s.handlers && after.pending == s.pending && after.nextId == s.nextId
            && after.posted == s.posted
  {
  }

  lemma StepTells(s: State, story: Story, step: Step)
    requires Settled(s) && Possible(s, step) && Tells(s, story.ops) && s.current == story.current
    ensures Tells(Take(s, step), Told(story, step).ops) && Take(s, step).current == Told(story, step).current
  {
    hide Sound, Tells, Visit, ApplyAll, RunOp, Taken, History, Scripts;
    match step
    case Do(op) =>
      OpTells(s, story.ops, op);
      OpKeeps(s, op);
    case Begin(_) => HandlersTell(s, Take(s, step), story.ops);
    case Deliver(behaviors) =>
      DeliverTells(s, story, behaviors);
      DeliverKeepsCurrent(s, behaviors);
    case End => HandlersTell(s, Take(s, step), story.ops);
    case Finish => HandlersTell(s, Take(s, step), story.ops);
  }

  lemma DeliverKeepsCurrent(s: State, behaviors: seq<Behavior>)
    requires Possible(s, Deliver(behaviors))
    ensures DeliverNext(s, behaviors).0.current == s.current
  {
    hide ApplyAll;
    VisitKeeps(Taken(s), VisitOrder(LevelsFor(s.handlers, s.current.value)), behaviors);
  }

  lemma {:induction false} RunTells(steps: seq<Step>)
    requires Run(START, steps).Some?
    ensures var s, story := Run(START, steps).value, StoryOf(steps);
            Settled(s) && Tells(s, story.ops) && s.current == story.current
  {
    hide Settled, Possible, Take, Told, Tells;
    StartIsSettled();
    RunKeepsSettled(START, steps);
    if steps == [] {
      StartTells();
    } else {
      var init := steps[..|steps| - 1];
      RunTells(init);
      StepTells(Run(START, init).value, StoryOf(init), steps[|steps| - 1]);
    }
  }

  lemma StartTells()
    ensures Tells(START, [])
  {
  }

  /**
    In every run, the order in which a type's handlers are visited is the one that carrying out every request when it
    was made would give, and what was posted is what was asked to be posted.
   */
  lemma RunsKeepToHistory(steps: seq<Step>)
    requires Run(START, steps).Some?
    ensures var s, story := Run(START, steps).value, StoryOf(steps);
            && s.current == story.current && s.nextId == Adds(story.ops) && s.posted == Posts(story.ops)
            && forall t :: Flat(LevelsFor(s.handlers, t)) == History(t, story.ops)
  {
    hide Run, StoryOf, Sound, History, Adds, Posts, Flat, ApplyAll;
    RunTells(steps);
    var s := Run(START, steps).value;
    NothingToApply(s.handlers);
    forall t ensures Flat(LevelsFor(s.handlers, t)) == History(t, StoryOf(steps).ops) {
      assert Eventual(s, t) == History(t, StoryOf(steps).ops);
    }
  }

  /** Where a handler stands, if no handler before it cancels. */
  ghost predicate Reaches(order: seq<Entry>, behaviors: seq<Behavior>, id: Id, k: nat) {
    k < |order| && order[k].id == id && forall j :: 0 <= j < k && j < |behaviors| ==> !behaviors[j].cancel
  }

  /** A handler is invoked with an event if and only if nobody before it in the history's order cancels. */
  lemma ReachedIff(steps: seq<Step>, behaviors: seq<Behavior>, id: Id)
    requires Run(START, steps).Some? && Possible(Run(START, steps).value, Deliver(behaviors))
    ensures var s := Run(START, steps).value;
            id in DeliverNext(s, behaviors).1 <==>
              exists k :: Reaches(History(s.current.value, StoryOf(steps).ops), behaviors, id, k)
  {
    hide Run, StoryOf, History, DeliverNext;
    var s := Run(START, steps).value;
    RunsKeepToHistory(steps);
    DeliveryVisits(steps, behaviors);
    InvokedIff(History(s.current.value, StoryOf(steps).ops), behaviors, id);
  }

  lemma InvokedIff(order: seq<Entry>, behaviors: seq<Behavior>, id: Id)
    ensures id in Ids(order)[..VisitedCount(|order|, Cancels(behaviors))] <==>
              exists k :: Reaches(order, behaviors, id, k)
  {
    hide VisitedCount;
    var n := VisitedCount(|order|, Cancels(behaviors));
    if id in Ids(order)[..n] {
      var k :| 0 <= k < n && Ids(order)[k] == id;
      VisitedUpTo(|order|, Cancels(behaviors), k);
      forall j | 0 <= j < k && j < |behaviors| ensures !behaviors[j].cancel {
        assert !Cancels(behaviors)[j];
      }
      assert Reaches(order, behaviors, id, k);
    }
    if k: nat :| Reaches(order, behaviors, id, k) {
      VisitedUpTo(|order|, Cancels(behaviors), k);
      assert Ids(order)[..n][k] == id;
    }
  }

  /** The history's order has a handler if and only if it was added for the type and not removed since. */
  lemma HistoryHas(t: EventType, ops: seq<Op>, e: Entry)
    ensures e in History(t, ops) <==> exists i: nat :: AddedAt(t, Requests(ops), e, i)
  {
    hide Effects, Requests, AddedAt;
    EffectsHave(t, Requests(ops), e);
    assert History(t, ops) == Effects([], t, Requests(ops));
  }

  /** The handler that was added as number id, for a type and with a priority. */
  lemma {:induction false} RequestAdds(ops: seq<Op>, n: nat)
    requires n < |ops| && ops[n].Add?
    ensures exists i :: 0 <= i < |Requests(ops)|
                        && Requests(ops)[i] == AddAction(ops[n].t, ops[n].p, Adds(ops[..n]))
  {
    var init := ops[..|ops| - 1];
    if n == |init| {
      assert Requests(ops)[|Requests(init)|] == AddAction(ops[n].t, ops[n].p, Adds(init));
    } else {
      RequestAdds(init, n);
      assert init[..n] == ops[..n];
      var i :| 0 <= i < |Requests(init)| && Requests(init)[i] == AddAction(ops[n].t, ops[n].p, Adds(ops[..n]));
      assert Requests(ops)[i] == Requests(init)[i];
    }
  }
}
