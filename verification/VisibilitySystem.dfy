/** The visibility system as an object, with the loops of its update. */
module VisibilitySystem {
  import opened EntityVisibility
  import opened Sequences

  class SystemEntityVisibility {
    var storage: map<Remote, Statuses>
    var destroyed: seq<Entity>

    constructor ()
      ensures storage == map[] && destroyed == []
    {
      storage, destroyed := map[], [];
    }

    method OnEntityDestroyed(e: Entity)
      modifies this
      ensures storage == old(storage)
      ensures destroyed == if e in old(destroyed) then old(destroyed) else old(destroyed) + [e]
    {
      if e !in destroyed {
        destroyed := destroyed + [e];
      }
    }

    method OnRemoteDisconnected(r: Remote)
      modifies this
      ensures storage == old(storage) - {r} && destroyed == old(destroyed)
    {
      storage := storage - {r};
    }

    /**
      Right after an update this is what the rule answered then, for every entity and remote that took part in it. The
      rule itself, whose present answer is `rule`, is asked only about what no update has seen yet.
     */
    method IsVisible(e: Entity, r: Remote, rule: bool) returns (visible: bool)
      ensures visible == Answer(storage, e, r, rule)
      ensures forall before, view, rules, destroyed ::
                (storage == before + KeptForAll(before, view, rules, destroyed)
                 && r in rules && e in view && e !in destroyed) ==>
                  (visible <==> e in rules[r])
    {
      hide Kept;
      forall before, view, rules, destroyed
        | storage == before + KeptForAll(before, view, rules, destroyed) && r in rules && e in view && e !in destroyed
        ensures Answer(storage, e, r, rule) <==> e in rules[r]
      {
        UpdateSetsAnswers(before, view, rules, destroyed, e, r, rule);
      }
      if r in storage {
        if e in storage[r] {
          return storage[r][e].VisibilityBit();
        }
      }
      return rule;
    }

    /** The part of the update for one connection; `seen` is what the rule answers for it. */
    method UpdateConnection(r: Remote, view: seq<Entity>, seen: set<Entity>) returns (messages: seq<Message>)
      requires NoDuplicates(view)
      modifies this
      ensures storage == old(storage)[r := Kept(StatusesFor(old(storage), r), view, seen, destroyed)]
      ensures destroyed == old(destroyed)
      ensures messages == Announced(StatusesFor(old(storage), r), view, seen, destroyed)
    {
      hide NoDuplicates, Refresh, WithStatus;
      if r !in storage {
        storage := storage[r := map[]];
      }
      var statuses, added, removed := RefreshStatuses(storage[r], view, seen);
      var casualties := FindCasualties(statuses, destroyed);
      removed := removed + casualties;
      storage := storage[r := statuses - Elements(destroyed)];
      messages := [];
      if added != [] {
        messages := messages + [AddEntity(added)];
      }
      if removed != [] {
        messages := messages + [DelEntity(removed)];
      }
    }

    /** One update: what is sent over each connection. */
    method OnSystemUpdate(view: seq<Entity>, connections: seq<Remote>, rule: map<Remote, set<Entity>>)
      returns (sent: map<Remote, seq<Message>>)
      requires NoDuplicates(view) && NoDuplicates(connections) && rule.Keys == Elements(connections)
      modifies this
      ensures destroyed == []
      ensures storage == old(storage) + KeptForAll(old(storage), view, rule, old(destroyed))
      ensures sent == AnnouncedForAll(old(storage), view, rule, old(destroyed))
    {
      hide Kept, Announced, KeptForAll, AnnouncedForAll, Restricted, UpTo, NoDuplicates, Elements, StatusesFor;
      sent := map[];
      ghost var start := storage;
      UpToNone(storage, view, destroyed, rule);
      for i := 0 to |connections|
        invariant destroyed == old(destroyed)
        invariant UpTo(start, storage, sent, view, Restricted(rule, connections[..i]), destroyed)
      {
        ghost var before, messagesBefore := storage, sent;
        NotYet(rule, connections, i);
        var messages := UpdateConnection(connections[i], view, rule[connections[i]]);
        sent := sent[connections[i] := messages];
        UpToNext(start, before, messagesBefore, view, Restricted(rule, connections[..i]), destroyed, connections[i],
                 rule[connections[i]]);
      }
      UpToAll(start, storage, sent, view, rule, destroyed, connections);
      destroyed := [];
    }
  }

  /** The loop over the registry's entities. */
  method RefreshStatuses(before: Statuses, view: seq<Entity>, seen: set<Entity>)
    returns (statuses: Statuses, added: seq<Entity>, removed: seq<Entity>)
    requires NoDuplicates(view)
    ensures statuses == Refresh(before, view, seen)
    ensures added == WithStatus(statuses, view, BECAME_VISIBLE)
    ensures removed == WithStatus(statuses, view, BECAME_INVISIBLE)
  {
    hide NoDuplicates, Refresh, WithStatus;
    statuses, added, removed := before, [], [];
    RefreshNone(before, seen);
    for i := 0 to |view|
      invariant statuses == Refresh(before, view[..i], seen)
      invariant added == WithStatus(statuses, view[..i], BECAME_VISIBLE)
      invariant removed == WithStatus(statuses, view[..i], BECAME_INVISIBLE)
    {
      RefreshOne(before, view, i, seen);
      WithStatusOne(statuses, Refresh(before, view[..i + 1], seen), view, i);
      if view[i] !in statuses {
        statuses := statuses[view[i] := INVISIBLE];
      }
      var status := NextStatus(statuses[view[i]], view[i] in seen);
      statuses := statuses[view[i] := status];
      if status == BECAME_VISIBLE {
        added := added + [view[i]];
      } else if status == BECAME_INVISIBLE {
        removed := removed + [view[i]];
      }
    }
    assert view[..|view|] == view;
  }

  /** The loop over the destroyed entities. */
  method FindCasualties(statuses: Statuses, destroyed: seq<Entity>) returns (removed: seq<Entity>)
    ensures removed == WithStatus(statuses, destroyed, VISIBLE)
  {
    hide WithStatus;
    removed := [];
    WithStatusNone(statuses);
    for i := 0 to |destroyed|
      invariant removed == WithStatus(statuses, destroyed[..i], VISIBLE)
    {
      WithStatusLast(statuses, destroyed[..i + 1], VISIBLE);
      assert destroyed[..i + 1][..i] == destroyed[..i];
      if destroyed[i] in statuses && statuses[destroyed[i]] == VISIBLE {
        removed := removed + [destroyed[i]];
      }
    }
    assert destroyed[..|destroyed|] == destroyed;
  }

  /** The connections that the rule names are updated, the others not. */
  ghost predicate UpTo(start: map<Remote, Statuses>, storage: map<Remote, Statuses>, sent: map<Remote, seq<Message>>,
                       view: seq<Entity>, rule: map<Remote, set<Entity>>, destroyed: seq<Entity>)
  {
    && storage == start + KeptForAll(start, view, rule, destroyed)
    && sent == AnnouncedForAll(start, view, rule, destroyed)
  }

  lemma UpToNone(start: map<Remote, Statuses>, view: seq<Entity>, destroyed: seq<Entity>,
                 rule: map<Remote, set<Entity>>)
    ensures UpTo(start, start, map[], view, Restricted(rule, []), destroyed)
  {
    ForNone(start, view, destroyed, rule);
  }

  lemma UpToNext(start: map<Remote, Statuses>, storage: map<Remote, Statuses>, sent: map<Remote, seq<Message>>,
                 view: seq<Entity>, rule: map<Remote, set<Entity>>, destroyed: seq<Entity>, r: Remote,
                 seen: set<Entity>)
    requires UpTo(start, storage, sent, view, rule, destroyed) && r !in rule
    ensures UpTo(start, storage[r := Kept(StatusesFor(storage, r), view, seen, destroyed)],
                 sent[r := Announced(StatusesFor(storage, r), view, seen, destroyed)], view, rule[r := seen], destroyed)
  {
    hide Kept, Announced, KeptForAll, AnnouncedForAll;
    KeptForAllKeys(start, view, rule, destroyed);
    assert StatusesFor(storage, r) == StatusesFor(start, r);
    ForOneMore(start, view, rule, destroyed, r, seen);
  }

  lemma UpToAll(start: map<Remote, Statuses>, storage: map<Remote, Statuses>, sent: map<Remote, seq<Message>>,
                view: seq<Entity>, rule: map<Remote, set<Entity>>, destroyed: seq<Entity>, remotes: seq<Remote>)
    requires rule.Keys == Elements(remotes)
    requires UpTo(start, storage, sent, view, Restricted(rule, remotes[..|remotes|]), destroyed)
    ensures storage == start + KeptForAll(start, view, rule, destroyed)
    ensures sent == AnnouncedForAll(start, view, rule, destroyed)
  {
    hide KeptForAll, AnnouncedForAll;
    assert remotes[..|remotes|] == remotes;
    RestrictedAll(rule, remotes);
  }

  lemma NotYet(rule: map<Remote, set<Entity>>, remotes: seq<Remote>, i: nat)
    requires NoDuplicates(remotes) && rule.Keys == Elements(remotes) && i < |remotes|
    ensures remotes[i] in rule && remotes[i] !in Restricted(rule, remotes[..i])
    ensures Restricted(rule, remotes[..i + 1]) == Restricted(rule, remotes[..i])[remotes[i] := rule[remotes[i]]]
  {
    assert remotes[i] in Elements(remotes);
    RestrictedOne(rule, remotes, i);
  }

  lemma KeptForAllKeys(storage: map<Remote, Statuses>, view: seq<Entity>, rule: map<Remote, set<Entity>>,
                       destroyed: seq<Entity>)
    ensures KeptForAll(storage, view, rule, destroyed).Keys == rule.Keys
  {
  }

  lemma ForNone(storage: map<Remote, Statuses>, view: seq<Entity>, destroyed: seq<Entity>,
                rule: map<Remote, set<Entity>>)
    ensures Restricted(rule, []) == map[]
    ensures KeptForAll(storage, view, map[], destroyed) == map[]
    ensures AnnouncedForAll(storage, view, map[], destroyed) == map[]
  {
  }

  lemma RestrictedAll(rule: map<Remote, set<Entity>>, remotes: seq<Remote>)
    requires rule.Keys == Elements(remotes)
    ensures Restricted(rule, remotes) == rule
  {
    assert forall r :: r in rule.Keys <==> r in Elements(remotes);
  }

  function Restricted(rule: map<Remote, set<Entity>>, remotes: seq<Remote>): map<Remote, set<Entity>> {
    map r | r in rule && r in remotes :: rule[r]
  }

  lemma RestrictedOne(rule: map<Remote, set<Entity>>, remotes: seq<Remote>, i: nat)
    requires i < |remotes| && remotes[i] in rule
    ensures Restricted(rule, remotes[..i + 1]) == Restricted(rule, remotes[..i])[remotes[i] := rule[remotes[i]]]
  {
    assert remotes[..i + 1] == remotes[..i] + [remotes[i]];
  }

  lemma ForOneMore(storage: map<Remote, Statuses>, view: seq<Entity>, rule: map<Remote, set<Entity>>,
                   destroyed: seq<Entity>, r: Remote, seen: set<Entity>)
    ensures KeptForAll(storage, view, rule[r := seen], destroyed)
            == KeptForAll(storage, view, rule, destroyed)[r := Kept(StatusesFor(storage, r), view, seen, destroyed)]
    ensures AnnouncedForAll(storage, view, rule[r := seen], destroyed)
            == AnnouncedForAll(storage, view, rule, destroyed)[
                 r := Announced(StatusesFor(storage, r), view, seen, destroyed)]
  {
    hide Kept, Announced, StatusesFor, KeptForAll, AnnouncedForAll;
    KeptForOneMore(storage, view, rule, destroyed, r, seen);
    AnnouncedForOneMore(storage, view, rule, destroyed, r, seen);
  }

  lemma KeptForOneMore(storage: map<Remote, Statuses>, view: seq<Entity>, rule: map<Remote, set<Entity>>,
                       destroyed: seq<Entity>, r: Remote, seen: set<Entity>)
    ensures KeptForAll(storage, view, rule[r := seen], destroyed)
            == KeptForAll(storage, view, rule, destroyed)[r := Kept(StatusesFor(storage, r), view, seen, destroyed)]
  {
    hide Kept, StatusesFor;
    var more := KeptForAll(storage, view, rule[r := seen], destroyed);
    var fewer := KeptForAll(storage, view, rule, destroyed);
    assert more.Keys == fewer.Keys + {r};
    forall q | q in more && q != r ensures more[q] == fewer[q] {
      assert rule[r := seen][q] == rule[q];
    }
  }

  lemma AnnouncedForOneMore(storage: map<Remote, Statuses>, view: seq<Entity>, rule: map<Remote, set<Entity>>,
                            destroyed: seq<Entity>, r: Remote, seen: set<Entity>)
    ensures AnnouncedForAll(storage, view, rule[r := seen], destroyed)
            == AnnouncedForAll(storage, view, rule, destroyed)[
                 r := Announced(StatusesFor(storage, r), view, seen, destroyed)]
  {
    hide Announced, StatusesFor;
    var more := AnnouncedForAll(storage, view, rule[r := seen], destroyed);
    var fewer := AnnouncedForAll(storage, view, rule, destroyed);
    assert more.Keys == fewer.Keys + {r};
    forall q | q in more && q != r ensures more[q] == fewer[q] {
      assert rule[r := seen][q] == rule[q];
    }
  }

  lemma RefreshNone(statuses: Statuses, seen: set<Entity>)
    ensures Refresh(statuses, [], seen) == statuses
    ensures forall s: Status :: WithStatus(statuses, [], s) == []
  {
  }

  lemma WithStatusNone(statuses: Statuses)
    ensures WithStatus(statuses, [], VISIBLE) == []
  {
  }

  lemma RefreshOne(statuses: Statuses, view: seq<Entity>, i: nat, seen: set<Entity>)
    requires NoDuplicates(view) && i < |view|
    ensures var now := Refresh(statuses, view[..i], seen);
            Refresh(statuses, view[..i + 1], seen)
            == now[view[i] := NextStatus(StatusIn(now, view[i]), view[i] in seen)]
  {
    assert view[..i + 1] == view[..i] + [view[i]];
    assert view[i] !in view[..i];
  }

  lemma WithStatusOne(before: Statuses, after: Statuses, view: seq<Entity>, i: nat)
    requires NoDuplicates(view) && i < |view| && view[i] in after
    requires after == before[view[i] := after[view[i]]]
    ensures forall s: Status :: WithStatus(after, view[..i + 1], s)
                                == WithStatus(before, view[..i], s) + if after[view[i]] == s then [view[i]] else []
  {
    hide WithStatus;
    assert view[..i + 1][..i] == view[..i];
    assert view[i] !in view[..i];
    forall s: Status
      ensures WithStatus(after, view[..i + 1], s)
              == WithStatus(before, view[..i], s) + if after[view[i]] == s then [view[i]] else []
    {
      WithStatusLast(after, view[..i + 1], s);
      WithStatusAgrees(before, after, view[..i], s);
    }
  }

  lemma WithStatusLast(statuses: Statuses, list: seq<Entity>, s: Status)
    requires list != []
    ensures var last := list[|list| - 1];
            WithStatus(statuses, list, s)
            == WithStatus(statuses, list[..|list| - 1], s)
               + if last in statuses && statuses[last] == s then [last] else []
  {
  }

  lemma {:induction false} WithStatusAgrees(before: Statuses, after: Statuses, list: seq<Entity>, s: Status)
    requires forall e :: e in list ==> (e in before <==> e in after) && (e in before ==> before[e] == after[e])
    ensures WithStatus(before, list, s) == WithStatus(after, list, s)
  {
    if list == [] {
    } else {
      assert list == list[..|list| - 1] + [list[|list| - 1]];
      WithStatusAgrees(before, after, list[..|list| - 1], s);
    }
  }
}
