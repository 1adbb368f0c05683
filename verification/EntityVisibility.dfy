/**
  Which entities a remote can see. Every update brings the status of each live entity up to date for each connection
  and announces what appeared and disappeared; the client creates and destroys the announced entities.
  An entity that is destroyed before a second update has seen it as visible stays with the client for good.
 */
module EntityVisibility {
  import opened Sequences
  import opened Wrappers

  type Entity = nat
  type Remote = nat

  /** Two bits: is it visible, and did that change in the last update? */
  datatype Status = INVISIBLE | VISIBLE | BECAME_INVISIBLE | BECAME_VISIBLE {
    predicate VisibilityBit() {
      VISIBLE? || BECAME_VISIBLE?
    }

    predicate ChangedBit() {
      BECAME_VISIBLE? || BECAME_INVISIBLE?
    }
  }

  function NextStatus(status: Status, seen: bool): (r: Status)
    ensures r.VisibilityBit() <==> seen
    ensures r.ChangedBit() <==> status.VisibilityBit() != seen
  {
    if seen then (if status.VisibilityBit() then VISIBLE else BECAME_VISIBLE)
    else if status.VisibilityBit() then BECAME_INVISIBLE
    else INVISIBLE
  }

  type Statuses = map<Entity, Status>

  datatype Message = AddEntity(changed: seq<Entity>) | DelEntity(changed: seq<Entity>)

  // ----- one connection, one update

  function StatusIn(statuses: Statuses, e: Entity): Status {
    if e in statuses then statuses[e] else INVISIBLE
  }

  function StatusesFor(storage: map<Remote, Statuses>, r: Remote): Statuses {
    if r in storage then storage[r] else map[]
  }

  /** The statuses after the loop over the registry's entities. */
  function Refresh(statuses: Statuses, view: seq<Entity>, seen: set<Entity>): (r: Statuses)
    ensures r.Keys == statuses.Keys + Elements(view)
  {
    map e | e in statuses.Keys + Elements(view) ::
      if e in view then NextStatus(StatusIn(statuses, e), e in seen) else statuses[e]
  }

  /** The entities of the list, in its order, that have the given status. */
  function WithStatus(statuses: Statuses, list: seq<Entity>, status: Status): (r: seq<Entity>)
    ensures forall e :: e in r <==> e in list && e in statuses && statuses[e] == status
    ensures NoDuplicates(list) ==> NoDuplicates(r)
  {
    if list == [] then []
    else
      var init, last := list[..|list| - 1], list[|list| - 1];
      assert list == init + [last];
      WithStatus(statuses, init, status) + if last in statuses && statuses[last] == status then [last] else []
  }

  function Packed(added: seq<Entity>, removed: seq<Entity>): seq<Message> {
    (if added == [] then [] else [AddEntity(added)]) + if removed == [] then [] else [DelEntity(removed)]
  }

  /** What is sent: appearances, then disappearances, with the destroyed entities that had the status VISIBLE. */
  function Announced(statuses: Statuses, view: seq<Entity>, seen: set<Entity>, destroyed: seq<Entity>): seq<Message> {
    var now := Refresh(statuses, view, seen);
    Packed(WithStatus(now, view, BECAME_VISIBLE),
           WithStatus(now, view, BECAME_INVISIBLE) + WithStatus(now, destroyed, VISIBLE))
  }

  function Kept(statuses: Statuses, view: seq<Entity>, seen: set<Entity>, destroyed: seq<Entity>): Statuses {
    Refresh(statuses, view, seen) - Elements(destroyed)
  }

  // ----- the client

  /** Creating an entity that exists, or destroying one that does not, is an error. */
  function Created(client: set<Entity>, entities: seq<Entity>): Option<set<Entity>> {
    if entities == [] then Some(client)
    else match Created(client, entities[..|entities| - 1])
      case None => None
      case Some(c) =>
        var last := entities[|entities| - 1];
        if last in c then None else Some(c + {last})
  }

  function Deleted(client: set<Entity>, entities: seq<Entity>): Option<set<Entity>> {
    if entities == [] then Some(client)
    else match Deleted(client, entities[..|entities| - 1])
      case None => None
      case Some(c) =>
        var last := entities[|entities| - 1];
        if last in c then Some(c - {last}) else None
  }

  function Receive(client: Option<set<Entity>>, message: Message): Option<set<Entity>> {
    match client
    case None => None
    case Some(c) => match message
      case AddEntity(entities) => Created(c, entities)
      case DelEntity(entities) => Deleted(c, entities)
  }

  function ReceiveAll(client: Option<set<Entity>>, messages: seq<Message>): Option<set<Entity>> {
    if messages == [] then client
    else Receive(ReceiveAll(client, messages[..|messages| - 1]), messages[|messages| - 1])
  }

  /**
    What an update announces over one connection: what it now sees and did not, before what it saw and does not, or
    what is destroyed and was seen in two updates.
   */
  lemma AppearancesComeFirst(statuses: Statuses, view: seq<Entity>, seen: set<Entity>, destroyed: seq<Entity>,
                             e: Entity)
    requires Elements(view) !! Elements(destroyed)
    ensures var ms, shown := Announced(statuses, view, seen, destroyed), StatusIn(statuses, e).VisibilityBit();
            && |ms| <= 2 && (forall i :: 0 <= i < |ms| ==> ms[i].changed != [])
            && (|ms| == 2 ==> ms[0].AddEntity? && ms[1].DelEntity?)
            && ((exists i :: 0 <= i < |ms| && ms[i].AddEntity? && e in ms[i].changed) <==>
                  e in view && e in seen && !shown)
            && ((exists i :: 0 <= i < |ms| && ms[i].DelEntity? && e in ms[i].changed) <==>
                  (e in view && e !in seen && shown)
                  || (e in destroyed && e in statuses && statuses[e] == VISIBLE))
  {
    hide NoDuplicates, WithStatus;
    var now := Refresh(statuses, view, seen);
    var added := WithStatus(now, view, BECAME_VISIBLE);
    var removed := WithStatus(now, view, BECAME_INVISIBLE) + WithStatus(now, destroyed, VISIBLE);
    assert e in view ==> e in Elements(view);
    assert e in destroyed ==> e in Elements(destroyed);
    PackedHolds(added, removed, e);
  }

  lemma PackedHolds(added: seq<Entity>, removed: seq<Entity>, e: Entity)
    ensures var ms := Packed(added, removed);
            && |ms| <= 2 && (forall i :: 0 <= i < |ms| ==> ms[i].changed != [])
            && (|ms| == 2 ==> ms[0].AddEntity? && ms[1].DelEntity?)
            && ((exists i :: 0 <= i < |ms| && ms[i].AddEntity? && e in ms[i].changed) <==> e in added)
            && ((exists i :: 0 <= i < |ms| && ms[i].DelEntity? && e in ms[i].changed) <==> e in removed)
  {
    var ms := Packed(added, removed);
    if e in added {
      assert ms[0].AddEntity? && e in ms[0].changed;
    }
    if e in removed {
      assert ms[|ms| - 1].DelEntity? && e in ms[|ms| - 1].changed;
    }
  }

  lemma LastElement(s: seq<Entity>)
    requires s != [] && NoDuplicates(s)
    ensures var init, last := s[..|s| - 1], s[|s| - 1];
            Elements(s) == Elements(init) + {last} && last !in Elements(init) && NoDuplicates(init)
  {
    assert s == s[..|s| - 1] + [s[|s| - 1]];
  }

  lemma {:induction false} CreatedIff(client: set<Entity>, entities: seq<Entity>)
    requires NoDuplicates(entities)
    ensures Created(client, entities) ==
              if Elements(entities) !! client then Some(client + Elements(entities)) else None
  {
    if entities == [] {
      assert client + Elements(entities) == client;
    } else {
      var init, last := entities[..|entities| - 1], entities[|entities| - 1];
      CreatedIff(client, init);
      LastElement(entities);
      assert client + Elements(entities) == client + Elements(init) + {last};
    }
  }

  lemma {:induction false} DeletedIff(client: set<Entity>, entities: seq<Entity>)
    requires NoDuplicates(entities)
    ensures Deleted(client, entities) ==
              if Elements(entities) <= client then Some(client - Elements(entities)) else None
  {
    if entities == [] {
      assert client - Elements(entities) == client;
    } else {
      var init, last := entities[..|entities| - 1], entities[|entities| - 1];
      DeletedIff(client, init);
      LastElement(entities);
      assert client - Elements(entities) == client - Elements(init) - {last};
    }
  }

  lemma PackedIsReceived(client: set<Entity>, added: seq<Entity>, removed: seq<Entity>)
    requires NoDuplicates(added) && NoDuplicates(removed)
    requires Elements(added) !! client && Elements(removed) <= client
    ensures ReceiveAll(Some(client), Packed(added, removed)) == Some(client + Elements(added) - Elements(removed))
  {
    CreatedIff(client, added);
    DeletedIff(client + Elements(added), removed);
    DeletedIff(client, removed);
    var a, d := [AddEntity(added)], [DelEntity(removed)];
    assert (a + d)[..1] == a && a[..0] == [] && d[..0] == [];
    ReceiveOne(Some(client), a[0]);
    ReceiveOne(Some(client), d[0]);
    assert added == [] ==> Elements(added) == {};
    assert removed == [] ==> Elements(removed) == {};
  }

  lemma ReceiveOne(client: Option<set<Entity>>, m: Message)
    ensures ReceiveAll(client, [m]) == Receive(client, m)
  {
    assert [m][..0] == [];
  }

  /** What must hold between updates: the client has exactly the entities whose status is visible, and strays. */
  ghost predicate InStep(statuses: Statuses, client: set<Entity>, live: set<Entity>, destroyed: seq<Entity>) {
    && statuses.Keys <= live + Elements(destroyed)
    && (forall e :: e in statuses ==> (e in client <==> statuses[e].VisibilityBit()))
    && client - statuses.Keys !! live
  }

  /** Entities of the client that the server no longer keeps a status for. */
  function Strays(statuses: Statuses, client: set<Entity>): set<Entity> {
    client - statuses.Keys
  }

  /** Entities that the last update announced and that have been destroyed since. */
  function FreshCasualties(statuses: Statuses, destroyed: seq<Entity>): set<Entity> {
    set e | e in destroyed && e in statuses && statuses[e] == BECAME_VISIBLE
  }

  /** Destroyed entities that the client still has. */
  function VisibleCasualties(statuses: Statuses, destroyed: seq<Entity>): set<Entity> {
    set e | e in destroyed && e in statuses && statuses[e].VisibilityBit()
  }

  /**
    One update of one connection: no announcement is an error, the client then has exactly the live entities that the
    rule shows and the strays, and the only new strays are the casualties that had just been announced.
   */
  lemma UpdateKeepsInStep(statuses: Statuses, client: set<Entity>, view: seq<Entity>, seen: set<Entity>,
                          destroyed: seq<Entity>)
    requires NoDuplicates(view) && NoDuplicates(destroyed) && Elements(view) !! Elements(destroyed)
    requires InStep(statuses, client, Elements(view), destroyed)
    ensures var after := Kept(statuses, view, seen, destroyed);
            var result := ReceiveAll(Some(client), Announced(statuses, view, seen, destroyed));
            && result.Some?
            && after.Keys == Elements(view)
            && InStep(after, result.value, Elements(view), [])
            && result.value == Elements(view) * seen + Strays(after, result.value)
            && Strays(after, result.value) == Strays(statuses, client) + FreshCasualties(statuses, destroyed)
  {
    hide ReceiveAll, Announced, NoDuplicates;
    ClientAfter(statuses, client, view, seen, destroyed);
    var after := Kept(statuses, view, seen, destroyed);
    var result := ReceiveAll(Some(client), Announced(statuses, view, seen, destroyed)).value;
    assert forall e :: e in view ==> (after[e].VisibilityBit() <==> e in seen);
  }

  /** What one update's messages make of a client that is in step. */
  lemma ClientAfter(statuses: Statuses, client: set<Entity>, view: seq<Entity>, seen: set<Entity>,
                    destroyed: seq<Entity>)
    requires NoDuplicates(view) && NoDuplicates(destroyed) && Elements(view) !! Elements(destroyed)
    requires InStep(statuses, client, Elements(view), destroyed)
    ensures ReceiveAll(Some(client), Announced(statuses, view, seen, destroyed)) == Some(
              Elements(view) * seen + Strays(statuses, client) + FreshCasualties(statuses, destroyed))
  {
    hide ReceiveAll, Packed, NoDuplicates, InStep, Refresh, FreshCasualties, Strays, Elements;
    var now := Refresh(statuses, view, seen);
    var added := WithStatus(now, view, BECAME_VISIBLE);
    var gone, casualties := WithStatus(now, view, BECAME_INVISIBLE), WithStatus(now, destroyed, VISIBLE);
    AnnouncementsAre(statuses, client, view, seen, destroyed);
    NoDuplicatesTogether(gone, casualties);
    PackedIsReceived(client, added, gone + casualties);
  }

  lemma AnnouncementsAre(statuses: Statuses, client: set<Entity>, view: seq<Entity>, seen: set<Entity>,
                         destroyed: seq<Entity>)
    requires Elements(view) !! Elements(destroyed)
    requires InStep(statuses, client, Elements(view), destroyed)
    ensures var now := Refresh(statuses, view, seen);
            var added := WithStatus(now, view, BECAME_VISIBLE);
            var gone, casualties := WithStatus(now, view, BECAME_INVISIBLE), WithStatus(now, destroyed, VISIBLE);
            && Elements(added) !! client && Elements(gone + casualties) <= client
            && Elements(gone) !! Elements(casualties)
            && client + Elements(added) - Elements(gone + casualties)
                 == Elements(view) * seen + Strays(statuses, client) + FreshCasualties(statuses, destroyed)
  {
    hide NoDuplicates, InStep, Strays, FreshCasualties;
    var now := Refresh(statuses, view, seen);
    var added := WithStatus(now, view, BECAME_VISIBLE);
    var gone, casualties := WithStatus(now, view, BECAME_INVISIBLE), WithStatus(now, destroyed, VISIBLE);
    ClientIsStatuses(statuses, client, view, destroyed);
    assert Elements(added) == (Elements(view) * seen) - client;
    assert Elements(gone) == (Elements(view) - seen) * client;
    assert Elements(gone + casualties) == Elements(gone) + Elements(casualties);
    CasualtiesAre(statuses, client, view, seen, destroyed);
    var visible, recent := VisibleCasualties(statuses, destroyed), FreshCasualties(statuses, destroyed);
    SetAlgebra(client, Elements(view), seen, visible, recent, Strays(statuses, client));
  }

  lemma SetAlgebra(client: set<Entity>, all: set<Entity>, seen: set<Entity>, visible: set<Entity>, recent: set<Entity>,
                   strays: set<Entity>)
    requires client == client * all + visible + strays && recent <= visible
    requires strays !! all && strays !! visible && visible !! all
    ensures client + (all * seen - client) - ((all - seen) * client + (visible - recent))
            == all * seen + strays + recent
  {
  }

  lemma ClientIsStatuses(statuses: Statuses, client: set<Entity>, view: seq<Entity>, destroyed: seq<Entity>)
    requires InStep(statuses, client, Elements(view), destroyed)
    ensures forall e :: e in view ==> (StatusIn(statuses, e).VisibilityBit() <==> e in client)
    ensures client == client * Elements(view) + VisibleCasualties(statuses, destroyed) + Strays(statuses, client)
    ensures Strays(statuses, client) !! Elements(view)
    ensures Strays(statuses, client) !! VisibleCasualties(statuses, destroyed)
    ensures FreshCasualties(statuses, destroyed) <= VisibleCasualties(statuses, destroyed) <= Elements(destroyed)
  {
    forall e | e in view ensures StatusIn(statuses, e).VisibilityBit() <==> e in client {
      assert e in Elements(view);
    }
  }

  lemma CasualtiesAre(statuses: Statuses, client: set<Entity>, view: seq<Entity>, seen: set<Entity>,
                      destroyed: seq<Entity>)
    requires Elements(view) !! Elements(destroyed)
    requires InStep(statuses, client, Elements(view), destroyed)
    ensures Elements(WithStatus(Refresh(statuses, view, seen), destroyed, VISIBLE))
              == VisibleCasualties(statuses, destroyed) - FreshCasualties(statuses, destroyed)
  {
    forall e | e in destroyed ensures e !in view {
      assert e in Elements(destroyed) && e !in Elements(view);
    }
  }

  lemma NoDuplicatesTogether<T>(s: seq<T>, t: seq<T>)
    requires NoDuplicates(s) && NoDuplicates(t) && Elements(s) !! Elements(t)
    ensures NoDuplicates(s + t)
  {
    forall i, j | 0 <= i < j < |s + t| ensures (s + t)[i] != (s + t)[j] {
      if i < |s| <= j {
        assert s[i] in Elements(s) && t[j - |s|] in Elements(t);
      }
    }
  }

  // ----- every connection, every run

  /**
    `used` are the ids given out so far. A client that got a message it could not apply is None.
   */
  datatype World = World(live: set<Entity>, used: set<Entity>, destroyed: seq<Entity>,
                         storage: map<Remote, Statuses>, clients: map<Remote, Option<set<Entity>>>) {
    function For(r: Remote): Statuses {
      StatusesFor(storage, r)
    }
  }

  /** An update gets the registry's entities in some order, and what the rule answers for each remote. */
  datatype Op =
    | Create(e: Entity)
    | Destroy(e: Entity)
    | Connect(r: Remote)
    | Disconnect(r: Remote)
    | Update(view: seq<Entity>, rule: map<Remote, set<Entity>>)

  const START := World({}, {}, [], map[], map[])

  ghost predicate Allowed(w: World, op: Op) {
    match op
    case Create(e) => e !in w.used
    case Destroy(e) => e in w.live
    case Connect(r) => r !in w.clients
    case Disconnect(r) => r in w.clients
    case Update(view, rule) => NoDuplicates(view) && Elements(view) == w.live && rule.Keys == w.clients.Keys
  }

  ghost function Step(w: World, op: Op): World
    requires Allowed(w, op)
  {
    match op
    case Create(e) => w.(live := w.live + {e}, used := w.used + {e})
    case Destroy(e) => w.(live := w.live - {e}, destroyed := w.destroyed + [e])
    case Connect(r) => w.(clients := w.clients[r := Some({})])
    case Disconnect(r) => w.(storage := w.storage - {r}, clients := w.clients - {r})
    case Update(view, rule) => Updated(w, view, rule)
  }

  ghost function Updated(w: World, view: seq<Entity>, rule: map<Remote, set<Entity>>): World
    requires rule.Keys == w.clients.Keys
  {
    w.(destroyed := [], storage := w.storage + KeptForAll(w.storage, view, rule, w.destroyed),
       clients := UpdatedClients(w, view, rule))
  }

  /** The statuses of each connection after an update. */
  function KeptForAll(storage: map<Remote, Statuses>, view: seq<Entity>, rule: map<Remote, set<Entity>>,
                      destroyed: seq<Entity>): map<Remote, Statuses>
  {
    map r | r in rule.Keys :: Kept(StatusesFor(storage, r), view, rule[r], destroyed)
  }

  /** What an update sends over each connection. */
  function AnnouncedForAll(storage: map<Remote, Statuses>, view: seq<Entity>, rule: map<Remote, set<Entity>>,
                           destroyed: seq<Entity>): map<Remote, seq<Message>>
  {
    map r | r in rule.Keys :: Announced(StatusesFor(storage, r), view, rule[r], destroyed)
  }

  ghost function UpdatedClients(w: World, view: seq<Entity>, rule: map<Remote, set<Entity>>)
      : map<Remote, Option<set<Entity>>>
    requires rule.Keys == w.clients.Keys
  {
    var sent := AnnouncedForAll(w.storage, view, rule, w.destroyed);
    map r | r in w.clients.Keys :: ReceiveAll(w.clients[r], sent[r])
  }

  /** The world after a run from the start; None if one of its steps was not allowed. */
  ghost function Run(ops: seq<Op>): Option<World> {
    if ops == [] then Some(START)
    else match Run(ops[..|ops| - 1])
      case None => None
      case Some(w) => if Allowed(w, ops[|ops| - 1]) then Some(Step(w, ops[|ops| - 1])) else None
  }

  ghost predicate Sound(w: World) {
    && w.live <= w.used && Elements(w.destroyed) <= w.used
    && w.live !! Elements(w.destroyed) && NoDuplicates(w.destroyed)
    && w.storage.Keys <= w.clients.Keys
    && (forall r :: r in w.clients ==> SoundFor(w, r))
  }

  ghost predicate SoundFor(w: World, r: Remote)
    requires r in w.clients
  {
    && w.clients[r].Some?
    && w.clients[r].value <= w.used
    && InStep(w.For(r), w.clients[r].value, w.live, w.destroyed)
  }

  lemma StepKeepsSoundFor(w: World, op: Op, r: Remote)
    requires Sound(w) && Allowed(w, op) && r in Step(w, op).clients
    ensures SoundFor(Step(w, op), r)
  {
    hide Kept, Announced, ReceiveAll, NoDuplicates;
    if r !in w.clients {
      assert op == Connect(r) && w.For(r) == map[];
    } else if op.Update? {
      UpdateKeepsInStep(w.For(r), w.clients[r].value, op.view, op.rule[r], w.destroyed);
      assert FreshCasualties(w.For(r), w.destroyed) <= Elements(w.destroyed);
    } else {
      assert Step(w, op).For(r) == w.For(r);
      assert op.Destroy? ==> Elements(Step(w, op).destroyed) == Elements(w.destroyed) + {op.e};
    }
  }

  lemma StepKeepsSound(w: World, op: Op)
    requires Sound(w) && Allowed(w, op)
    ensures Sound(Step(w, op))
  {
    hide SoundFor, Kept, Announced, ReceiveAll, NoDuplicates;
    forall r | r in Step(w, op).clients ensures SoundFor(Step(w, op), r) {
      StepKeepsSoundFor(w, op, r);
    }
    StepKeepsIds(w, op);
  }

  lemma StepKeepsIds(w: World, op: Op)
    requires Sound(w) && Allowed(w, op)
    ensures var now := Step(w, op);
            && now.live <= now.used && Elements(now.destroyed) <= now.used && now.live !! Elements(now.destroyed)
            && NoDuplicates(now.destroyed) && now.storage.Keys <= now.clients.Keys
  {
    hide SoundFor, Kept, ReceiveAll;
    var now := Step(w, op);
    if op.Destroy? {
      assert Elements(now.destroyed) == Elements(w.destroyed) + {op.e};
      assert op.e !in Elements(w.destroyed);
    } else if op.Update? {
      assert Elements(now.destroyed) == {};
    }
  }

  /** In no run does a client get an entity it has, or lose one it has not. */
  lemma {:induction false} RunsAreSound(ops: seq<Op>)
    requires Run(ops).Some?
    ensures Sound(Run(ops).value)
  {
    hide Step, Sound, Allowed;
    if ops == [] {
      StartIsSound();
    } else {
      RunsAreSound(ops[..|ops| - 1]);
      StepKeepsSound(Run(ops[..|ops| - 1]).value, ops[|ops| - 1]);
    }
  }

  lemma StartIsSound()
    ensures Sound(START)
  {
  }

  /** Everything that r was told of since it connected and that was destroyed before a second update saw it. */
  ghost function Forgotten(ops: seq<Op>, r: Remote): set<Entity>
    requires Run(ops).Some?
  {
    if ops == [] then {}
    else
      var before, op := ops[..|ops| - 1], ops[|ops| - 1];
      match op
      case Connect(q) => if q == r then {} else Forgotten(before, r)
      case Disconnect(q) => if q == r then {} else Forgotten(before, r)
      case Create(_) => Forgotten(before, r)
      case Destroy(_) => Forgotten(before, r)
      case Update(_, _) =>
        Forgotten(before, r) + FreshCasualties(Run(before).value.For(r), Run(before).value.destroyed)
  }

  lemma StepKeepsStrays(w: World, op: Op, r: Remote)
    requires Sound(w) && Allowed(w, op) && r in w.clients && r in Step(w, op).clients
    requires SoundFor(w, r) && SoundFor(Step(w, op), r)
    ensures Strays(Step(w, op).For(r), Step(w, op).clients[r].value) == Strays(w.For(r), w.clients[r].value)
              + if op.Update? then FreshCasualties(w.For(r), w.destroyed) else {}
  {
    hide InStep, Kept, Announced, ReceiveAll, FreshCasualties, NoDuplicates, SoundFor, Strays;
    if op.Update? {
      InStepOf(w, r);
      UpdateKeepsInStep(w.For(r), w.clients[r].value, op.view, op.rule[r], w.destroyed);
    } else {
      assert Step(w, op).For(r) == w.For(r);
    }
  }

  lemma InStepOf(w: World, r: Remote)
    requires r in w.clients && SoundFor(w, r)
    ensures w.clients[r].Some? && InStep(w.For(r), w.clients[r].value, w.live, w.destroyed)
  {
  }

  lemma NewClientHasNoStrays(w: World, r: Remote)
    requires Sound(w) && Allowed(w, Connect(r))
    ensures var after := Step(w, Connect(r));
            after.clients[r] == Some({}) && Strays(after.For(r), {}) == {}
  {
  }

  lemma {:induction false} StraysAreForgotten(ops: seq<Op>, r: Remote)
    requires Run(ops).Some? && r in Run(ops).value.clients
    ensures var w := Run(ops).value; w.clients[r].Some? && Strays(w.For(r), w.clients[r].value) == Forgotten(ops, r)
  {
    hide SoundFor, Updated, Strays, FreshCasualties, NoDuplicates;
    RunsAreSound(ops);
    if ops == [] {
    } else {
      var before, op := ops[..|ops| - 1], ops[|ops| - 1];
      RunsAreSound(before);
      var w := Run(before).value;
      if r in w.clients {
        StraysAreForgotten(before, r);
        StepKeepsStrays(w, op, r);
      } else {
        OnlyConnectAddsClients(w, op, r);
        NewClientHasNoStrays(w, r);
      }
      InStepOf(Run(ops).value, r);
    }
  }

  lemma OnlyConnectAddsClients(w: World, op: Op, r: Remote)
    requires Allowed(w, op) && r !in w.clients && r in Step(w, op).clients
    ensures op == Connect(r)
  {
  }

  /**
    Right after any update of any run, a client has exactly the live entities that the rule shows it, and those that
    were forgotten; so it is exact if and only if none was.
   */
  lemma ClientsAfterUpdate(ops: seq<Op>, r: Remote)
    requires Run(ops).Some? && ops != [] && ops[|ops| - 1].Update? && r in Run(ops).value.clients
    ensures var w, seen := Run(ops).value, ops[|ops| - 1].rule[r];
            && w.clients[r] == Some(w.live * seen + Forgotten(ops, r))
            && Forgotten(ops, r) !! w.live
            && (w.clients[r] == Some(w.live * seen) <==> Forgotten(ops, r) == {})
  {
    hide Kept, Announced, ReceiveAll, FreshCasualties, Forgotten, NoDuplicates, Sound, SoundFor;
    var before, op := ops[..|ops| - 1], ops[|ops| - 1];
    RunsAreSound(before);
    StraysAreForgotten(ops, r);
    var w := Run(before).value;
    AfterUpdate(w, op, r);
    var shown, forgotten := w.live * op.rule[r], Forgotten(ops, r);
    assert shown + forgotten == shown ==> forgotten <= w.live;
    assert forgotten == {} ==> shown + forgotten == shown;
  }

  lemma AfterUpdate(w: World, op: Op, r: Remote)
    requires Sound(w) && Allowed(w, op) && op.Update? && r in Step(w, op).clients
    ensures var now := Step(w, op);
            && now.clients[r].Some? && now.live == w.live
            && now.clients[r].value == w.live * op.rule[r] + Strays(now.For(r), now.clients[r].value)
            && Strays(now.For(r), now.clients[r].value) !! w.live
  {
    hide Kept, Announced, ReceiveAll, FreshCasualties, NoDuplicates, SoundFor;
    assert SoundFor(w, r);
    InStepOf(w, r);
    UpdateKeepsInStep(w.For(r), w.clients[r].value, op.view, op.rule[r], w.destroyed);
  }

  // ----- asking whether an entity is visible

  /** The stored status decides, and only without one the rule, whose present answer is `rule`. */
  predicate Answer(storage: map<Remote, Statuses>, e: Entity, r: Remote, rule: bool) {
    if r in storage && e in storage[r] then storage[r][e].VisibilityBit() else rule
  }

  lemma UpdateSetsAnswers(storage: map<Remote, Statuses>, view: seq<Entity>, rules: map<Remote, set<Entity>>,
                          destroyed: seq<Entity>, e: Entity, r: Remote, rule: bool)
    requires r in rules && e in view && e !in destroyed
    ensures Answer(storage + KeptForAll(storage, view, rules, destroyed), e, r, rule) <==> e in rules[r]
  {
    var kept := Kept(StatusesFor(storage, r), view, rules[r], destroyed);
    assert e in kept && (kept[e].VisibilityBit() <==> e in rules[r]);
    assert KeptForAll(storage, view, rules, destroyed)[r] == kept;
  }

  /**
    Right after any update of any run, asking about a live entity gives what the rule said in that update, which is
    also whether the client has the entity; the rule is not asked again.
   */
  lemma AnswersAgreeWithClients(ops: seq<Op>, r: Remote, e: Entity, rule: bool)
    requires Run(ops).Some? && ops != [] && ops[|ops| - 1].Update?
    requires r in Run(ops).value.clients && e in Run(ops).value.live
    ensures var w, rules := Run(ops).value, ops[|ops| - 1].rule;
            && r in rules && w.clients[r].Some?
            && (Answer(w.storage, e, r, rule) <==> e in rules[r])
            && (Answer(w.storage, e, r, rule) <==> e in w.clients[r].value)
  {
    hide KeptForAll, Announced, ReceiveAll, Forgotten, NoDuplicates, Answer, Sound;
    var before, op := Run(ops[..|ops| - 1]).value, ops[|ops| - 1];
    RunsAreSound(ops[..|ops| - 1]);
    LiveIsNotDestroyed(before, e);
    assert e in Elements(op.view);
    UpdateSetsAnswers(before.storage, op.view, op.rule, before.destroyed, e, r, rule);
    ClientsAfterUpdate(ops, r);
  }

  lemma LiveIsNotDestroyed(w: World, e: Entity)
    requires Sound(w) && e in w.live
    ensures e !in w.destroyed
  {
    assert e !in Elements(w.destroyed);
  }

  /** The bad case: announced by one update, destroyed, and still with the client after the next. */
  lemma FreshCasualtyStays(r: Remote, e: Entity)
    ensures var ops := [Connect(r), Create(e), Update([e], map[r := {e}]), Destroy(e), Update([], map[r := {}])];
            Run(ops).Some? && Run(ops).value.live == {} && Run(ops).value.clients == map[r := Some({e})]
  {
    hide ReceiveAll, WithStatus, Step, Allowed;
    var shown := map[r := {e}];
    var none: map<Remote, set<Entity>> := map[r := {}];
    var ops := [Connect(r), Create(e), Update([e], shown), Destroy(e), Update([], none)];
    Prefixes(ops);
    CasualtyAnnounced(r, e);
    CasualtyDestroyed(r, e);
    RunOf(ops[..1]);
    RunOf(ops[..2]);
    RunOf(ops[..3]);
    RunOf(ops[..4]);
    RunOf(ops);
  }

  lemma RunOf(ops: seq<Op>)
    requires ops != [] && Run(ops[..|ops| - 1]).Some?
    ensures Run(ops) == var w := Run(ops[..|ops| - 1]).value;
              if Allowed(w, ops[|ops| - 1]) then Some(Step(w, ops[|ops| - 1])) else None
  {
  }

  lemma CasualtyAnnounced(r: Remote, e: Entity)
    ensures Allowed(START, Connect(r)) && Allowed(Step(START, Connect(r)), Create(e))
    ensures var w := Step(Step(START, Connect(r)), Create(e));
            && Allowed(w, Update([e], map[r := {e}]))
            && Step(w, Update([e], map[r := {e}])) == AfterAnnouncement(r, e)
  {
    hide ReceiveAll, Announced;
    var w := Step(Step(START, Connect(r)), Create(e));
    assert w == World({e}, {e}, [], map[], map[r := Some({})]);
    assert Elements([e]) == {e};
    ClientAfter(map[], {}, [e], {e}, []);
    assert {e} * {e} + Strays(map[], {}) + FreshCasualties(map[], []) == {e};
    OnlyClientAfter(w, r, [e], {e}, {e});
    assert Kept(map[], [e], {e}, []) == map[e := BECAME_VISIBLE];
  }

  lemma OnlyClientAfter(w: World, r: Remote, view: seq<Entity>, seen: set<Entity>, client: set<Entity>)
    requires w.clients.Keys == {r} && w.storage.Keys <= {r}
    requires ReceiveAll(w.clients[r], Announced(w.For(r), view, seen, w.destroyed)) == Some(client)
    ensures Updated(w, view, map[r := seen]).clients == map[r := Some(client)]
    ensures Updated(w, view, map[r := seen]).storage == map[r := Kept(w.For(r), view, seen, w.destroyed)]
  {
    hide ReceiveAll, Announced, Kept;
  }

  ghost function AfterAnnouncement(r: Remote, e: Entity): World {
    World({e}, {e}, [], map[r := map[e := BECAME_VISIBLE]], map[r := Some({e})])
  }

  lemma CasualtyDestroyed(r: Remote, e: Entity)
    ensures var w := AfterAnnouncement(r, e);
            && Allowed(w, Destroy(e)) && Allowed(Step(w, Destroy(e)), Update([], map[r := {}]))
            && var now := Step(Step(w, Destroy(e)), Update([], map[r := {}]));
            now.live == {} && now.clients == map[r := Some({e})]
  {
    hide ReceiveAll, Announced;
    var w := Step(AfterAnnouncement(r, e), Destroy(e));
    assert w.live == {} && w.destroyed == [e];
    var none: seq<Entity> := [];
    assert Elements(none) == {} && Elements([e]) == {e};
    assert InStep(w.For(r), {e}, {}, [e]);
    ClientAfter(w.For(r), {e}, [], {}, [e]);
    assert {} * {} + Strays(w.For(r), {e}) + FreshCasualties(w.For(r), [e]) == {e};
    OnlyClientAfter(w, r, [], {}, {e});
  }

  lemma Prefixes(ops: seq<Op>)
    requires |ops| == 5
    ensures ops[..4][..3] == ops[..3] && ops[..3][..2] == ops[..2] && ops[..2][..1] == ops[..1] && ops[..1][..0] == []
  {
  }
}
