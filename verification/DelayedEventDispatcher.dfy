/**
  The delayed dispatcher as an object, with the loops that drain its queues while handlers fill them. Handlers are
  given by a finite script: each invocation uses up one behaviour, and then there are none left.
 */
module DelayedEventDispatcher {
  import opened Wrappers
  import opened DelayedDispatch
  import DelayedHistory
  import opened HandlerActions
  import opened HandlerLists

  class Dispatcher {
    var handlers: map<EventType, Levels>
    var events: map<EventType, seq<Event>>
    var handlersWithEvents: set<EventType>
    var nextId: Id
    var currentlyDispatched: Option<EventType>
    var pendingActions: seq<Action>
    var hasEvents: bool
    var next: nat
    ghost var posted: seq<Item>
    ghost var delivered: seq<Item>

    ghost function View(): State
      reads this
    {
      State(handlers, events, handlersWithEvents, nextId, currentlyDispatched, next, pendingActions, hasEvents, posted,
            delivered)
    }

    ghost predicate Valid()
      reads this
    {
      Sound(View())
    }

    constructor ()
      ensures View() == START && Valid()
    {
      handlers, events, handlersWithEvents := map[], map[], {};
      nextId, currentlyDispatched, pendingActions, hasEvents, next := 0, None, [], false, 0;
      posted, delivered := [], [];
      new;
      StartIsSettled();
    }

    method AddHandler(t: EventType, p: Priority) returns (id: Id)
      requires Valid()
      modifies this
      ensures Valid() && View() == RunOp(old(View()), Add(t, p)) && id == old(nextId)
      ensures old(currentlyDispatched) != Some(t) ==>
                && pendingActions == old(pendingActions)
                && (exists k :: InsertedAt(old(OrderOf(handlers, t)), Entry(p, id), OrderOf(handlers, t), k))
                && (forall u :: u != t ==> OrderOf(handlers, u) == old(OrderOf(handlers, u)))
    {
      hide Sound, Apply, InsertedAt, OrderOf;
      OpKeepsSound(View(), Add(t, p));
      SoundIsShaped(View());
      if currentlyDispatched == Some(t) {
        pendingActions := pendingActions + [AddAction(t, p, nextId)];
      } else {
        DelayedHistory.AddsAtOnce(View(), t, p);
        handlers := Execute(handlers, AddAction(t, p, nextId));
      }
      id, nextId := nextId, nextId + 1;
    }

    method RemoveHandler(t: EventType, id: Id)
      requires Valid()
      modifies this
      ensures Valid() && View() == RunOp(old(View()), Remove(t, id))
    {
      hide Sound, Apply;
      OpKeepsSound(View(), Remove(t, id));
      SoundIsShaped(View());
      if currentlyDispatched == Some(t) {
        pendingActions := pendingActions + [RemoveAction(t, id)];
      } else {
        handlers := Execute(handlers, RemoveAction(t, id));
      }
    }

    method AddEvent(item: Item)
      requires Valid()
      modifies this
      ensures Valid() && View() == RunOp(old(View()), Post(item))
    {
      hide Sound;
      OpKeepsSound(View(), Post(item));
      if item.t !in handlers {
        handlers := handlers[item.t := []];
      }
      if item.t !in events {
        events := events[item.t := []];
      }
      events := events[item.t := events[item.t] + [item.event]];
      assert handlers == old(handlers)[item.t := LevelsFor(old(handlers), item.t)];
      assert events == old(events)[item.t := old(View()).Queue(item.t) + [item.event]];
      handlersWithEvents := handlersWithEvents + {item.t};
      hasEvents := true;
      posted := posted + [item];
    }

    method RunScript(ops: seq<Op>)
      requires Valid()
      modifies this
      ensures Valid() && View() == RunOps(old(View()), ops)
    {
      hide Sound, RunOp;
      ghost var start := View();
      for i := 0 to |ops|
        invariant Valid() && RunOps(View(), ops[i..]) == RunOps(start, ops)
      {
        assert ops[i..][0] == ops[i] && ops[i..][1..] == ops[i + 1..];
        match ops[i] {
          case Add(t, p) => var _ := AddHandler(t, p);
          case Remove(t, id) => RemoveHandler(t, id);
          case Post(item) => AddEvent(item);
        }
      }
      assert ops[|ops|..] == [];
    }

    /** Invokes the handlers of the current type, from the highest priority down until one cancels. */
    method Invoke(t: EventType, behaviors: seq<Behavior>) returns (visited: seq<Id>)
      requires Valid() && t in handlers && currentlyDispatched == Some(t)
      modifies this
      ensures Valid() && (View(), visited) == Visit(old(View()), VisitOrder(old(handlers[t])), behaviors)
    {
      hide Sound, Visit, RunOps, Keeps, VisitOrder, Completes;
      visited := [];
      var rest := behaviors;
      ghost var start := View();
      ghost var levels := handlers[t];
      KeepsSelf(start);
      var i := |handlers[t]|;
      assert levels[..i] == levels;
      ghost var whole := Visit(start, VisitOrder(levels), behaviors);
      CompletesBegin(whole);
      while i > 0
        invariant 0 <= i <= |levels| && Valid() && Keeps(start, View()) && t in handlers && handlers[t] == levels
        invariant Completes(visited, Visit(View(), VisitOrder(levels[..i]), rest), whole)
      {
        i := i - 1;
        LevelNext(levels, i);
        var j := 0;
        while j < |handlers[t][i].ids|
          invariant 0 <= j <= |levels[i].ids| && Valid() && Keeps(start, View())
          invariant t in handlers && handlers[t] == levels
          invariant Completes(visited, Visit(View(), levels[i].ids[j..] + VisitOrder(levels[..i]), rest), whole)
          decreases |levels[i].ids| - j
        {
          ghost var before, ids := View(), levels[i].ids[j..] + VisitOrder(levels[..i]);
          assert ids[0] == levels[i].ids[j] && ids[1..] == levels[i].ids[j + 1..] + VisitOrder(levels[..i]);
          ghost var soFar := visited;
          VisitUnfolds(before, ids, rest);
          visited := visited + [handlers[t][i].ids[j]];
          if rest != [] {
            var b := rest[0];
            RunScript(b.ops);
            OpsKeep(before, b.ops);
            KeepsTrans(start, before, View());
            SameLevels(start, View(), t);
            if b.cancel {
              CompletesNext(soFar, ids[0], (View(), []), whole);
              CompletesEnd(visited, View(), whole);
              return;
            }
            rest := rest[1..];
          }
          CompletesNext(soFar, ids[0], Visit(View(), ids[1..], rest), whole);
          j := j + 1;
        }
        assert levels[i].ids[|levels[i].ids|..] == [];
        assert [] + VisitOrder(levels[..i]) == VisitOrder(levels[..i]);
      }
      VisitNobody(View(), rest);
      assert levels[..0] == [];
      CompletesEnd(visited, View(), whole);
    }

    /** The body of the loop over the queue: one event, and the actions that were put off. */
    method DeliverEvent(behaviors: seq<Behavior>) returns (visited: seq<Id>)
      requires Settled(View()) && Possible(View(), Deliver(behaviors))
      modifies this
      ensures Settled(View()) && (View(), visited) == DeliverNext(old(View()), behaviors)
    {
      hide SoundTable, Accounted, Visit, ApplyAll;
      ghost var start := View();
      StepKeepsSettled(start, Deliver(behaviors));
      TakenIsSound(start);
      var t := currentlyDispatched.value;
      ghost var item := Item(t, events[t][next]);
      next := next + 1;
      delivered := delivered + [item];
      visited := [];
      if t in handlers {
        visited := Invoke(t, behaviors);
      } else {
        VisitNobody(View(), behaviors);
      }
      handlers := ExecuteAll(handlers, nextId, pendingActions);
      pendingActions := [];
    }

    /** Drains every queue, in whatever order the set of types gives; the steps it took are those of the model. */
    method DispatchEvents(script: seq<Behavior>) returns (ghost steps: seq<Step>)
      requires Settled(View()) && currentlyDispatched == None
      modifies this
      ensures Settled(View()) && Run(old(View()), steps) == Some(View())
      ensures currentlyDispatched == None && handlersWithEvents == {} && !hasEvents
      ensures forall t :: t in events ==> events[t] == []
      ensures forall t :: Of(t, delivered) == Of(t, posted)
    {
      hide Settled, Possible, Take, Of;
      ghost var start := View();
      steps := [];
      var rest := script;
      while handlersWithEvents != {}
        invariant Settled(View()) && Run(start, steps) == Some(View()) && currentlyDispatched == None
        decreases |rest|, |handlersWithEvents|
      {
        var t: EventType :| t in handlersWithEvents;
        ghost var more;
        rest, more := DrainType(t, rest);
        RunTogether(start, steps, more);
        steps := steps + more;
      }
      MayFinish(View());
      StepKeepsSettled(View(), Finish);
      RunMore(start, steps, Finish);
      steps := steps + [Finish];
      hasEvents := false;
      AllDelivered(View());
    }

    /** All events of one type; a handler may post more of them while they are delivered. */
    method DrainType(t: EventType, script: seq<Behavior>) returns (rest: seq<Behavior>, ghost steps: seq<Step>)
      requires Settled(View()) && currentlyDispatched == None && t in handlersWithEvents
      modifies this
      ensures Settled(View()) && Run(old(View()), steps) == Some(View()) && currentlyDispatched == None
      ensures |rest| < |script| || (rest == script && handlersWithEvents == old(handlersWithEvents) - {t})
    {
      hide Settled, DeliverNext;
      ghost var start := View();
      rest, steps := script, [Begin(t)];
      StepKeepsSettled(start, Begin(t));
      RunMore(start, [], Begin(t));
      assert [] + [Begin(t)] == [Begin(t)];
      handlersWithEvents := handlersWithEvents - {t};
      currentlyDispatched := Some(t);
      next := 0;
      CurrentHasQueue(View(), t);
      while next < |events[t]|
        invariant Settled(View()) && Run(start, steps) == Some(View()) && currentlyDispatched == Some(t)
        invariant t in events && next <= |events[t]|
        invariant |rest| < |script| || (rest == script && handlersWithEvents == start.waiting - {t})
        decreases |rest|, |events[t]| - next
      {
        ghost var before := View();
        RunMore(start, steps, Deliver(rest));
        steps := steps + [Deliver(rest)];
        var visited := DeliverEvent(rest);
        DeliverGoesOn(before, rest, t);
        if visited != [] && rest != [] {
          rest := rest[if |visited| < |rest| then |visited| else |rest|..];
        }
      }
      StepKeepsSettled(View(), End);
      RunMore(start, steps, End);
      steps := steps + [End];
      events := events[t := []];
      currentlyDispatched := None;
      next := 0;
    }
  }

  lemma SoundIsShaped(s: State)
    requires Sound(s)
    ensures Shaped(s.handlers)
  {
  }

  lemma VisitNobody(s: State, behaviors: seq<Behavior>)
    ensures Visit(s, [], behaviors) == (s, [])
    ensures VisitOrder([]) == []
  {
  }

  lemma SameLevels(start: State, now: State, t: EventType)
    requires Keeps(start, now) && start.current == Some(t) && LevelsFor(start.handlers, t) != []
    ensures t in now.handlers && now.handlers[t] == LevelsFor(start.handlers, t)
  {
  }

  lemma RunMore(s: State, steps: seq<Step>, step: Step)
    requires Run(s, steps).Some? && Possible(Run(s, steps).value, step)
    ensures Run(s, steps + [step]) == Some(Take(Run(s, steps).value, step))
  {
    assert (steps + [step])[..|steps|] == steps;
  }

  lemma {:induction false} RunTogether(s: State, steps: seq<Step>, more: seq<Step>)
    requires Run(s, steps).Some? && Run(Run(s, steps).value, more).Some?
    ensures Run(s, steps + more) == Run(Run(s, steps).value, more)
  {
    hide Take, Possible;
    if more == [] {
      assert steps + more == steps;
    } else {
      RunTogether(s, steps, more[..|more| - 1]);
      assert (steps + more)[..|steps + more| - 1] == steps + more[..|more| - 1];
    }
  }

  lemma CurrentHasQueue(s: State, t: EventType)
    requires Settled(s) && s.current == Some(t)
    ensures t in s.events && s.next <= |s.events[t]|
  {
    assert Accounted(s, t);
  }

  /** A delivery moves on in the queue; if no behaviour is used up, nothing is posted. */
  lemma DeliverGoesOn(s: State, behaviors: seq<Behavior>, t: EventType)
    requires Possible(s, Deliver(behaviors)) && s.current == Some(t) && t in s.events
    ensures var (after, visited) := DeliverNext(s, behaviors);
            && after.current == Some(t) && after.next == s.next + 1 && t in after.events
            && |after.events[t]| >= |s.events[t]|
            && (visited == [] || behaviors == [] ==> after.events == s.events && after.waiting == s.waiting)
  {
    hide ApplyAll;
    VisitKeeps(Taken(s), VisitOrder(LevelsFor(s.handlers, t)), behaviors);
    var after := DeliverNext(s, behaviors).0;
    assert Taken(s).Queue(t) <= Visit(Taken(s), VisitOrder(LevelsFor(s.handlers, t)), behaviors).0.Queue(t);
    assert after.Queue(t) == after.events[t];
  }

  lemma MayFinish(s: State)
    requires s.current == None && s.waiting == {}
    ensures Possible(s, Finish) && Take(s, Finish) == s.(hasEvents := false)
  {
  }

  lemma AllDelivered(s: State)
    requires Settled(s) && s.current == None && s.waiting == {}
    ensures forall t :: Of(t, s.delivered) == Of(t, s.posted)
    ensures forall t :: t in s.events ==> s.events[t] == []
  {
    hide Of, SoundTable;
    forall t ensures Of(t, s.delivered) == Of(t, s.posted) && s.Queue(t) == [] {
      assert Accounted(s, t);
    }
    forall t | t in s.events ensures s.events[t] == [] {
      assert s.Queue(t) == s.events[t];
    }
  }
}
