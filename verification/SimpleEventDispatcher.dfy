/**
  The simple dispatcher as an object. Its `Invoke` reads the handlers while handlers that may change them are running;
  that it still visits exactly the list it began with is what its contract says.
 */
module SimpleEventDispatcher {
  import opened HandlerActions
  import opened HandlerLists
  import opened SimpleDispatch
  import SimpleHistory

  class Dispatcher {
    var handlers: map<EventType, Levels>
    var nextId: Id
    var currentlyDispatched: seq<EventType>
    var pendingActions: seq<Action>

    ghost function View(): State
      reads this
    {
      State(handlers, nextId, currentlyDispatched, pendingActions)
    }

    ghost predicate Valid()
      reads this
    {
      Sound(View())
    }

    constructor ()
      ensures Valid() && View() == START
    {
      handlers, nextId, currentlyDispatched, pendingActions := map[], 0, [], [];
      new;
      StartIsSound();
    }

    method IsDispatching(t: EventType) returns (r: bool)
      ensures r <==> t in currentlyDispatched
    {
      for i := 0 to |currentlyDispatched|
        invariant t !in currentlyDispatched[..i]
      {
        if currentlyDispatched[i] == t {
          return true;
        }
      }
      return false;
    }

    method AddHandler(t: EventType, p: Priority) returns (id: Id)
      requires Valid()
      modifies this
      ensures Valid() && View() == RunOp(old(View()), Add(t, p)) && id == old(nextId)
      ensures t !in old(currentlyDispatched) ==>
                && pendingActions == old(pendingActions)
                && (exists k :: InsertedAt(old(OrderOf(handlers, t)), Entry(p, id), OrderOf(handlers, t), k))
                && (forall u :: u != t ==> OrderOf(handlers, u) == old(OrderOf(handlers, u)))
    {
      hide Sound, Apply, InsertedAt, OrderOf;
      SimpleHistory.AddTakesEffect(View(), t, p);
      OpKeepsSound(View(), Add(t, p));
      SoundIsShaped(View());
      var dispatching := IsDispatching(t);
      if dispatching {
        pendingActions := pendingActions + [AddAction(t, p, nextId)];
      } else {
        handlers := Execute(handlers, AddAction(t, p, nextId));
      }
      id, nextId := nextId, nextId + 1;
    }

    method RemoveHandler(t: EventType, id: Id)
      requires Valid()
      modifies this
      ensures Valid() && View() == RunOp(old(View()), Remove(t, id))
    {
      hide Sound, Apply;
      OpKeepsSound(View(), Remove(t, id));
      SoundIsShaped(View());
      var dispatching := IsDispatching(t);
      if dispatching {
        pendingActions := pendingActions + [RemoveAction(t, id)];
      } else {
        handlers := Execute(handlers, RemoveAction(t, id));
      }
    }

    /** A handler's script. */
    method RunScript(ops: seq<Op>)
      requires Valid()
      modifies this
      ensures Valid() && View() == RunOps(old(View()), ops)
      decreases ops, 3
    {
      hide Sound, RunOp;
      ghost var start := View();
      for i := 0 to |ops|
        invariant Valid() && RunOps(View(), ops[i..]) == RunOps(start, ops)
      {
        ghost var before := View();
        assert ops[i..] == [ops[i]] + ops[i + 1..];
        OpsOneByOne(before, ops[i], ops[i + 1..]);
        match ops[i] {
          case Add(t, p) => var _ := AddHandler(t, p);
          case Remove(t, id) => RemoveHandler(t, id);
          case Dispatch(t, behaviors) =>
            var _ := DispatchEvent(t, behaviors);
            DispatchOp(before, t, behaviors);
        }
      }
      assert ops[|ops|..] == [];
    }

    /** Invokes the handlers of t, which is on the stack, from the highest priority down until one cancels. */
    method Invoke(t: EventType, behaviors: seq<Behavior>) returns (visited: seq<Id>)
      requires Valid() && t in handlers && t in currentlyDispatched
      modifies this
      ensures Valid() && (View(), visited) == Visit(old(View()), VisitOrder(old(handlers[t])), behaviors)
      decreases behaviors, 1
    {
      hide Sound, Visit, RunOps, Keeps, VisitOrder, Completes;
      visited := [];
      var rest := behaviors;
      ghost var start := View();
      ghost var levels := handlers[t];
      KeepsSelf(start);
      var i := |handlers[t]|;
      assert levels[..i] == levels;
      ghost var whole := Visit(start, VisitOrder(levels), behaviors);
      CompletesBegin(whole);
      while i > 0
        invariant 0 <= i <= |levels| && Valid() && Keeps(start, View()) && t in handlers && handlers[t] == levels
        invariant |rest| <= |behaviors| && rest == behaviors[|behaviors| - |rest|..]
        invariant Completes(visited, Visit(View(), VisitOrder(levels[..i]), rest), whole)
      {
        i := i - 1;
        LevelNext(levels, i);
        var j := 0;
        while j < |handlers[t][i].ids|
          invariant 0 <= j <= |levels[i].ids| && Valid() && Keeps(start, View())
          invariant t in handlers && handlers[t] == levels
          invariant |rest| <= |behaviors| && rest == behaviors[|behaviors| - |rest|..]
          invariant Completes(visited, Visit(View(), levels[i].ids[j..] + VisitOrder(levels[..i]), rest), whole)
          decreases |levels[i].ids| - j
        {
          ghost var before, ids := View(), levels[i].ids[j..] + VisitOrder(levels[..i]);
          assert ids[0] == levels[i].ids[j] && ids[1..] == levels[i].ids[j + 1..] + VisitOrder(levels[..i]);
          ghost var soFar := visited;
          VisitUnfolds(before, ids, rest);
          visited := visited + [handlers[t][i].ids[j]];
          if rest != [] {
            var b := rest[0];
            assert b == behaviors[|behaviors| - |rest|];
            RunScript(b.ops);
            OpsKeep(before, b.ops);
            KeepsTrans(start, before, View());
            SameLevels(start, View(), t);
            if b.cancel {
              CompletesNext(soFar, ids[0], (View(), []), whole);
              CompletesEnd(visited, View(), whole);
              return;
            }
            rest := rest[1..];
          }
          CompletesNext(soFar, ids[0], Visit(View(), ids[1..], rest), whole);
          j := j + 1;
        }
        assert levels[i].ids[|levels[i].ids|..] == [];
        assert [] + VisitOrder(levels[..i]) == VisitOrder(levels[..i]);
      }
      VisitNobody(View(), rest);
      assert levels[..0] == [];
      CompletesEnd(visited, View(), whole);
    }

    method DispatchEvent(t: EventType, behaviors: seq<Behavior>) returns (visited: seq<Id>)
      requires Valid()
      modifies this
      ensures Valid() && (View(), visited) == SimpleDispatch.DispatchEvent(old(View()), t, behaviors)
      decreases behaviors, 2
    {
      hide SoundTable, Visit, ApplyAll, Apply;
      ghost var start := View();
      DispatchKeepsSound(start, t, behaviors);
      currentlyDispatched := currentlyDispatched + [t];
      ghost var begun := View();
      VisitKeeps(begun, VisitOrder(LevelsFor(handlers, t)), behaviors);
      visited := [];
      if t in handlers {
        visited := Invoke(t, behaviors);
      } else {
        VisitNobody(begun, behaviors);
      }
      assert currentlyDispatched[..|currentlyDispatched| - 1] == start.stack;
      currentlyDispatched := currentlyDispatched[..|currentlyDispatched| - 1];
      if currentlyDispatched == [] && pendingActions != [] {
        handlers := ExecuteAll(handlers, nextId, pendingActions);
        pendingActions := [];
      } else {
        NothingToApply(handlers);
      }
    }
  }

  lemma SoundIsShaped(s: State)
    requires Sound(s)
    ensures Shaped(s.handlers)
  {
  }

  lemma DispatchOp(s: State, t: EventType, behaviors: seq<Behavior>)
    ensures RunOp(s, Dispatch(t, behaviors)) == SimpleDispatch.DispatchEvent(s, t, behaviors).0
  {
  }

  lemma VisitNobody(s: State, behaviors: seq<Behavior>)
    ensures Visit(s, [], behaviors) == (s, [])
    ensures VisitOrder([]) == []
  {
  }

  lemma SameLevels(start: State, now: State, t: EventType)
    requires Keeps(start, now) && t in start.stack && LevelsFor(start.handlers, t) != []
    ensures t in now.handlers && now.handlers[t] == LevelsFor(start.handlers, t)
  {
  }
}
