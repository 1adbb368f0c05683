/** The announcement protocol: what reaches a receiver is what was sent, in order and under the sender's names. */
module MessageSafety {
  import opened MessageTypes
  import opened MessageLink

  // ----- what a receiver will make of a stream of messages

  ghost predicate Plain(m: Registry, id: nat) {
    id in m.byId && id != SYNC_ID && id != COMPOUND_ID
  }

  /** The message can be understood by a receiver that knows m. */
  ghost predicate Understood(m: Registry, w: Wire) {
    match w.body
    case SyncBody(name, _, id) => w.id == SYNC_ID && name !in m.byName && id !in m.byId
    case DataBody(_) => Plain(m, w.id)
    case CompoundBody(parts) => w.id == COMPOUND_ID && forall p :: p in parts ==> Plain(m, p.id)
  }

  function After(m: Registry, w: Wire): Registry {
    match w.body
    case SyncBody(name, hash, id) => Learn(m, name, hash, id)
    case _ => m
  }

  function AfterAll(m: Registry, s: seq<Wire>): Registry
    decreases |s|
  {
    if s == [] then m else AfterAll(After(m, s[0]), s[1..])
  }

  ghost predicate AllUnderstood(m: Registry, s: seq<Wire>)
    decreases |s|
  {
    s == [] || (Understood(m, s[0]) && AllUnderstood(After(m, s[0]), s[1..]))
  }

  function Events(m: Registry, w: Wire): seq<Event> {
    match w.body
    case SyncBody(_, _, _) => []
    case DataBody(data) => [Event(Named(m, w.id), data)]
    case CompoundBody(parts) => Unpack(m, parts)
  }

  function AllEvents(m: Registry, s: seq<Wire>): seq<Event>
    decreases |s|
  {
    if s == [] then [] else Events(m, s[0]) + AllEvents(After(m, s[0]), s[1..])
  }

  lemma {:induction false} StreamAppend(m: Registry, s: seq<Wire>, w: Wire)
    requires AllUnderstood(m, s) && Understood(AfterAll(m, s), w)
    ensures AllUnderstood(m, s + [w])
    ensures AfterAll(m, s + [w]) == After(AfterAll(m, s), w)
    ensures AllEvents(m, s + [w]) == AllEvents(m, s) + Events(AfterAll(m, s), w)
    decreases |s|
  {
    hide Understood, After, Events;
    if s == [] {
      assert s + [w] == [w];
      assert [w][1..] == [];
      assert Events(m, w) + [] == Events(m, w);
    } else {
      StreamAppend(After(m, s[0]), s[1..], w);
      assert (s + [w])[1..] == s[1..] + [w];
      assert AllEvents(m, s + [w]) == Events(m, s[0]) + (AllEvents(After(m, s[0]), s[1..]) + Events(AfterAll(m, s), w));
    }
  }

  ghost predicate KeepsIds(m: Registry, r: Registry) {
    forall i :: i in m.byId ==> i in r.byId && r.byId[i] == m.byId[i]
  }

  // ----- the invariant of one direction

  /** What the receiver will know at the end of the stream is what the sender has published. */
  ghost predicate Mirrors(local: Registry, published: set<nat>, m: Registry) {
    && (forall i: nat :: i in m.byId <==> i < NUM_CORE || i in published)
    && (forall i :: i in m.byId ==> i in local.byId && m.byId[i] == local.byId[i])
    && (forall n :: n in m.byName ==> n in local.byName && local.byName[n].id in m.byId)
    && (forall n :: n in m.byName && !m.byName[n].isCore ==> n in local.byName && m.byName[n] == local.byName[n])
  }

  ghost predicate PartsKnown(m: Registry, parts: seq<Part>) {
    forall p :: p in parts ==> Plain(m, p.id)
  }

  /** x is sending to y, and s is everything on the way, in queues and on the channel. */
  ghost predicate Flow(x: Endpoint, y: Endpoint, s: seq<Wire>) {
    && AllUnderstood(y.remote, s)
    && Mirrors(x.local, x.published, AfterAll(y.remote, s))
    && PartsKnown(AfterAll(y.remote, s), x.compound)
    && CoreIdsKnown(y.remote)
    && y.unregistered == 0
    && x.sent == y.received + AllEvents(y.remote, s)
  }

  function Stream(x: Endpoint, y: Endpoint): seq<Wire> {
    y.readQueue + x.outbox + x.writeQueue
  }

  ghost predicate LocalOk(e: Endpoint) {
    && Consistent(e.local) && CoreFirst(e.local)
    && (forall id, h :: id in e.handlers && h in e.handlers[id] ==> id in e.local.byId && e.local.byId[id] == h)
    && (forall c :: c in e.calls ==> c.addedFor == c.event.name)
  }

  ghost predicate QueuesOk(e: Endpoint) {
    !e.queueing ==> e.readQueue == e.writeQueue == []
  }

  ghost predicate Safe(a: Endpoint, b: Endpoint) {
    && LocalOk(a) && LocalOk(b) && QueuesOk(a) && QueuesOk(b)
    && Flow(a, b, Stream(a, b))
    && Flow(b, a, Stream(b, a))
  }

  // ----- sending keeps it

  /** e became f by sending the messages ws; nothing that concerns receiving changed. */
  ghost predicate Sends(e: Endpoint, f: Endpoint, ws: seq<Wire>) {
    && f.queueing == e.queueing && f.readQueue == e.readQueue
    && f.remote == e.remote && f.received == e.received && f.unregistered == e.unregistered
    && f.calls == e.calls && f.handlers == e.handlers
    && (if e.queueing then f.outbox == e.outbox && f.writeQueue == e.writeQueue + ws
        else f.outbox == e.outbox + ws && f.writeQueue == e.writeQueue)
  }

  lemma SendsStream(e: Endpoint, f: Endpoint, y: Endpoint, ws: seq<Wire>)
    requires QueuesOk(e) && Sends(e, f, ws)
    ensures Stream(f, y) == Stream(e, y) + ws
  {
    if e.queueing {
      assert Stream(f, y) == y.readQueue + e.outbox + (e.writeQueue + ws);
    } else {
      assert Stream(f, y) == y.readQueue + (e.outbox + ws);
    }
  }

  lemma EnsureLocalKeeps(e: Endpoint, name: string, hash: nat, y: Endpoint, s: seq<Wire>)
    requires LocalOk(e) && HasRoom(e.local) && Flow(e, y, s)
    ensures var f := EnsureLocal(e, name, hash);
            LocalOk(f) && Flow(f, y, s) && Sends(e, f, []) && name in f.local.byName && f == e.(local := f.local)
  {
    hide AllUnderstood, AfterAll, AllEvents, CoreNames, Consistent, CoreFirst, Register, Mirrors;
    if name !in e.local.byName {
      RegisterKeeps(e.local, name, hash);
      MirrorsGrow(e.local, e.published, AfterAll(y.remote, s), Register(e.local, name, hash, false).value);
    }
  }

  lemma MirrorsGrow(local: Registry, published: set<nat>, m: Registry, larger: Registry)
    requires Mirrors(local, published, m) && Extends(local, larger)
    ensures Mirrors(larger, published, m)
  {}

  /** Types not published yet are unknown to the receiver under any id; publishing one adds just that one. */
  lemma MirrorsAnnounce(local: Registry, published: set<nat>, m: Registry, t: MessageType)
    requires Consistent(local) && CoreFirst(local) && Mirrors(local, published, m)
    requires t.name in local.byName && local.byName[t.name] == t && t.id !in published && !t.isCore
    ensures t.name !in m.byName && t.id !in m.byId
    ensures var r := Learn(m, t.name, t.hash, t.id);
            KeepsIds(m, r) && t.id in r.byId && Mirrors(local, published + {t.id}, r)
  {}

  lemma PartsStayKnown(m: Registry, r: Registry, parts: seq<Part>)
    requires KeepsIds(m, r) && PartsKnown(m, parts)
    ensures PartsKnown(r, parts)
  {}

  lemma LocalTypes(e: Endpoint, id: nat)
    requires LocalOk(e) && id in e.local.byId
    ensures e.local.byId[id] in e.local.byName
    ensures var t := e.local.byName[e.local.byId[id]];
            t.name == e.local.byId[id] && t.id == id && (t.isCore <==> id < NUM_CORE)
  {
    hide CoreNames;
  }

  /** After an announcement the type's id is among those the receiver will know. */
  lemma AnnounceKeeps(e: Endpoint, id: nat, y: Endpoint, s: seq<Wire>) returns (ws: seq<Wire>)
    requires LocalOk(e) && Flow(e, y, s) && id in e.local.byId
    ensures var f := Announce(e, id);
            Sends(e, f, ws) && LocalOk(f) && Flow(f, y, s + ws) && id in AfterAll(y.remote, s + ws).byId &&
            f.local == e.local && f.compound == e.compound && f.sent == e.sent
  {
    hide AllUnderstood, AfterAll, AllEvents, CoreNames, Mirrors, PartsKnown, Consistent, CoreFirst, KeepsIds, Learn;
    LocalTypes(e, id);
    var m := AfterAll(y.remote, s);
    var t := e.local.byName[e.local.byId[id]];
    if t.id in e.published || t.isCore {
      ws := [];
      assert s + ws == s;
      MirrorsPublished(e.local, e.published, m, id);
    } else {
      var w := Wire(SYNC_ID, SyncBody(t.name, t.hash, t.id));
      ws := [w];
      MirrorsAnnounce(e.local, e.published, m, t);
      StreamAppend(y.remote, s, w);
      PartsStayKnown(m, After(m, w), e.compound);
      assert AllEvents(y.remote, s) + Events(m, w) == AllEvents(y.remote, s);
    }
  }

  lemma MirrorsPublished(local: Registry, published: set<nat>, m: Registry, id: nat)
    requires Mirrors(local, published, m)
    ensures id in m.byId <==> id < NUM_CORE || id in published
    ensures id in m.byId ==> id in local.byId && m.byId[id] == local.byId[id]
  {}

  /** Sending one message that the receiver will understand by then. */
  lemma EmitKeeps(e: Endpoint, y: Endpoint, s: seq<Wire>, w: Wire, f: Endpoint)
    requires LocalOk(e) && Flow(e, y, s) && !w.body.SyncBody? && Understood(AfterAll(y.remote, s), w)
    requires f == Emit(e, w).(sent := e.sent + Events(AfterAll(y.remote, s), w), compound := f.compound)
    requires PartsKnown(AfterAll(y.remote, s), f.compound)
    ensures Sends(e, f, [w]) && LocalOk(f) && Flow(f, y, s + [w])
  {
    hide AllUnderstood, AfterAll, AllEvents, Events, CoreNames, Mirrors, PartsKnown, Consistent, CoreFirst, Understood;
    StreamAppend(y.remote, s, w);
    var m := AfterAll(y.remote, s);
    assert e.sent + Events(m, w) == y.received + (AllEvents(y.remote, s) + Events(m, w));
  }

  lemma SendsCompose(e: Endpoint, f: Endpoint, g: Endpoint, ws: seq<Wire>, vs: seq<Wire>)
    requires Sends(e, f, ws) && Sends(f, g, vs)
    ensures Sends(e, g, ws + vs)
  {
    assert e.outbox + ws + vs == e.outbox + (ws + vs);
    assert e.writeQueue + ws + vs == e.writeQueue + (ws + vs);
  }

  lemma SendByIdKeeps(e: Endpoint, id: nat, data: Data, y: Endpoint, s: seq<Wire>) returns (ws: seq<Wire>)
    requires LocalOk(e) && Flow(e, y, s) && id != SYNC_ID && id != COMPOUND_ID
    ensures var f := SendById(e, id, data); Sends(e, f, ws) && LocalOk(f) && Flow(f, y, s + ws)
  {
    hide AllUnderstood, AfterAll, AllEvents, CoreNames, Mirrors, PartsKnown, Consistent, CoreFirst, Announce;
    if id in e.local.byId {
      ws := AnnounceKeeps(e, id, y, s);
      var f, w := Announce(e, id), Wire(id, DataBody(data));
      var m := AfterAll(y.remote, s + ws);
      MirrorsPublished(f.local, f.published, m, id);
      EmitKeeps(f, y, s + ws, w, SendById(e, id, data));
      SendsCompose(e, f, SendById(e, id, data), ws, [w]);
      assert s + ws + [w] == s + (ws + [w]);
      ws := ws + [w];
    } else {
      ws := [];
      assert s + ws == s;
    }
  }

  lemma OrdinaryId(m: Registry, name: string)
    requires Consistent(m) && CoreFirst(m) && name in m.byName && name != MSG_SYNC_MTR && name != MSG_COMPOUND
    ensures var id := m.byName[name].id;
            id in m.byId && m.byId[id] == name && id != SYNC_ID && id != COMPOUND_ID
  {
    hide CoreNames;
    assert m.byId[SYNC_ID] == CoreNames()[0] && m.byId[COMPOUND_ID] == CoreNames()[2];
  }

  lemma SendKeeps(e: Endpoint, name: string, hash: nat, data: Data, y: Endpoint, s: seq<Wire>) returns (ws: seq<Wire>)
    requires LocalOk(e) && HasRoom(e.local) && Flow(e, y, s) && name != MSG_SYNC_MTR && name != MSG_COMPOUND
    ensures var f := Send(e, name, hash, data); Sends(e, f, ws) && LocalOk(f) && Flow(f, y, s + ws)
  {
    hide Flow, CoreNames, Consistent, CoreFirst, EnsureLocal, SendById;
    EnsureLocalKeeps(e, name, hash, y, s);
    var f := EnsureLocal(e, name, hash);
    OrdinaryId(f.local, name);
    ws := SendByIdKeeps(f, f.local.byName[name].id, data, y, s);
    SendsCompose(e, f, Send(e, name, hash, data), [], ws);
    assert [] + ws == ws;
  }

  lemma PushKeeps(e: Endpoint, name: string, hash: nat, data: Data, y: Endpoint, s: seq<Wire>) returns (ws: seq<Wire>)
    requires LocalOk(e) && HasRoom(e.local) && Flow(e, y, s) && name != MSG_SYNC_MTR && name != MSG_COMPOUND
    ensures var f := Push(e, name, hash, data); Sends(e, f, ws) && LocalOk(f) && Flow(f, y, s + ws)
  {
    hide AllUnderstood, AfterAll, AllEvents, CoreNames, Mirrors, Consistent, CoreFirst, EnsureLocal, Announce;
    EnsureLocalKeeps(e, name, hash, y, s);
    var f := EnsureLocal(e, name, hash);
    OrdinaryId(f.local, name);
    var id := f.local.byName[name].id;
    ws := AnnounceKeeps(f, id, y, s);
    SendsCompose(e, f, Announce(f, id), [], ws);
    assert [] + ws == ws;
  }

  lemma {:induction false} UnpackSame(m: Registry, r: Registry, parts: seq<Part>)
    requires forall p :: p in parts ==> Named(m, p.id) == Named(r, p.id)
    ensures Unpack(m, parts) == Unpack(r, parts)
    decreases |parts|
  {
    if parts == [] {
    } else {
      assert parts[|parts| - 1] in parts;
      UnpackSame(m, r, parts[..|parts| - 1]);
    }
  }

  lemma SendCompoundKeeps(e: Endpoint, y: Endpoint, s: seq<Wire>) returns (ws: seq<Wire>)
    requires LocalOk(e) && Flow(e, y, s)
    ensures var f := SendCompound(e); Sends(e, f, ws) && LocalOk(f) && Flow(f, y, s + ws)
  {
    hide AllUnderstood, AfterAll, AllEvents, CoreNames, Mirrors, Consistent, CoreFirst;
    var m := AfterAll(y.remote, s);
    forall p | p in e.compound ensures Named(m, p.id) == Named(e.local, p.id) {
      MirrorsPublished(e.local, e.published, m, p.id);
    }
    UnpackSame(m, e.local, e.compound);
    ws := [Wire(COMPOUND_ID, CompoundBody(e.compound))];
    EmitKeeps(e, y, s, ws[0], SendCompound(e));
  }

  // ----- receiving keeps it

  /** Receiving changes nothing that concerns sending. */
  ghost predicate SameSender(e: Endpoint, f: Endpoint) {
    && f.local == e.local && f.published == e.published && f.handlers == e.handlers
    && f.compound == e.compound && f.sent == e.sent
    && f.queueing == e.queueing && f.readQueue == e.readQueue && f.writeQueue == e.writeQueue && f.outbox == e.outbox
  }

  lemma FlowSameSender(e: Endpoint, f: Endpoint, y: Endpoint, s: seq<Wire>)
    requires SameSender(e, f) && Flow(e, y, s)
    ensures Flow(f, y, s)
  {}

  /** What a handler is called with has the name under which the handler was added. */
  lemma DispatchKeeps(e: Endpoint, event: Event)
    requires LocalOk(e)
    ensures var f := Dispatch(e, event);
            LocalOk(f) && SameSender(e, f) && f.received == e.received + [event] &&
            f.remote == e.remote && f.unregistered == e.unregistered
  {
    hide CoreNames, CoreFirst;
    var f := Dispatch(e, event);
    forall c | c in f.calls ensures c.addedFor == c.event.name {
      if c !in e.calls {
        var hs := e.handlers[e.local.byName[event.name].id];
        var i :| 0 <= i < |hs| && c == CallAll(hs, event)[i];
        assert hs[i] in hs;
      }
    }
  }

  lemma {:induction false} ReceivePartsKeeps(e: Endpoint, parts: seq<Part>)
    requires LocalOk(e) && PartsKnown(e.remote, parts)
    ensures var f := ReceiveParts(e, parts);
            LocalOk(f) && SameSender(e, f) && f.remote == e.remote &&
            f.unregistered == e.unregistered && f.received == e.received + Unpack(e.remote, parts)
    decreases |parts|
  {
    hide LocalOk, Dispatch;
    if parts == [] {
    } else {
      var last := parts[|parts| - 1];
      var event := Event(Named(e.remote, last.id), last.data);
      DispatchKeeps(e, event);
      ReceivePartsKeeps(Dispatch(e, event), parts[..|parts| - 1]);
      var rest := Unpack(e.remote, parts[..|parts| - 1]);
      assert e.received + [event] + rest == e.received + ([event] + rest);
    }
  }

  /** The head of the stream is handled as the stream foretells. */
  lemma ReceiveKeeps(x: Endpoint, y: Endpoint, w: Wire, s: seq<Wire>)
    requires LocalOk(y) && Flow(x, y, [w] + s)
    ensures var f := Receive(y, w); LocalOk(f) && SameSender(y, f) && Flow(x, f, s)
  {
    hide LocalOk, Dispatch, ReceiveParts, CoreNames, Mirrors, Learn, Unpack;
    assert ([w] + s)[1..] == s;
    var f := Receive(y, w);
    assert AllEvents(y.remote, [w] + s) == Events(y.remote, w) + AllEvents(After(y.remote, w), s);
    assert y.received + (Events(y.remote, w) + AllEvents(After(y.remote, w), s))
        == y.received + Events(y.remote, w) + AllEvents(After(y.remote, w), s);
    CoreIsKnown(x, y, [w] + s);
    match w.body
    case DataBody(data) => DispatchKeeps(y, Event(Named(y.remote, w.id), data));
    case CompoundBody(parts) => ReceivePartsKeeps(y, parts);
    case SyncBody(name, hash, id) => LearnKeeps(y, name, hash, id);
  }

  lemma CoreIsKnown(x: Endpoint, y: Endpoint, s: seq<Wire>)
    requires Flow(x, y, s)
    ensures SYNC_ID in y.remote.byId && y.remote.byId[SYNC_ID] == MSG_SYNC_MTR
    ensures COMPOUND_ID in y.remote.byId && y.remote.byId[COMPOUND_ID] == MSG_COMPOUND
  {}

  lemma LearnKeeps(y: Endpoint, name: string, hash: nat, id: nat)
    requires LocalOk(y) && name !in y.remote.byName && id !in y.remote.byId
    ensures var f := y.(remote := Learn(y.remote, name, hash, id));
            LocalOk(f) && SameSender(y, f) && KeepsIds(y.remote, f.remote)
  {}

  lemma {:induction false} ReceiveAllKeeps(x: Endpoint, y: Endpoint, ws: seq<Wire>, s: seq<Wire>)
    requires LocalOk(y) && Flow(x, y, ws + s)
    ensures var f := ReceiveAll(y, ws); LocalOk(f) && SameSender(y, f) && Flow(x, f, s)
    decreases |ws|
  {
    hide LocalOk, Flow, Receive;
    if ws == [] {
      assert ws + s == s;
    } else {
      assert ws + s == [ws[0]] + (ws[1..] + s);
      ReceiveKeeps(x, y, ws[0], ws[1..] + s);
      ReceiveAllKeeps(x, Receive(y, ws[0]), ws[1..], s);
    }
  }

  // ----- one side alone: whatever a handler does, its registry stays consistent and it only calls handlers by name

  lemma SameLocalOk(e: Endpoint, f: Endpoint)
    requires LocalOk(e) && f.local == e.local && f.handlers == e.handlers && f.calls == e.calls
    ensures LocalOk(f)
  {
  }

  lemma NameHasId(e: Endpoint, name: string)
    requires LocalOk(e) && name in e.local.byName
    ensures var id := e.local.byName[name].id; id in e.local.byId && e.local.byId[id] == name
  {
    hide CoreNames, CoreFirst;
  }

  lemma InitialLocalOk(e: Endpoint)
    requires Initial(e)
    ensures LocalOk(e)
  {
    hide CoreNames, CorePrefix, CoreFirst, Consistent;
  }

  /** Other handlers that share the registry may add types to it. */
  lemma OthersMayRegister(e: Endpoint, m: Registry)
    requires LocalOk(e) && Consistent(m) && CoreFirst(m) && Extends(e.local, m)
    ensures LocalOk(e.(local := m))
  {
    hide CoreNames, CoreFirst;
  }

  lemma EnsureLocalOk(e: Endpoint, name: string, hash: nat)
    requires LocalOk(e) && HasRoom(e.local)
    ensures var f := EnsureLocal(e, name, hash);
            LocalOk(f) && f == e.(local := f.local) && name in f.local.byName && Extends(e.local, f.local)
  {
    hide CoreNames, Consistent, CoreFirst, Register;
    if name !in e.local.byName {
      RegisterKeeps(e.local, name, hash);
      OthersMayRegister(e, Register(e.local, name, hash, false).value);
    }
  }

  lemma SendByIdLocalOk(e: Endpoint, id: nat, data: Data)
    requires LocalOk(e)
    ensures LocalOk(SendById(e, id, data)) && LocalOk(Announce(e, id))
  {
    hide LocalOk;
    SameLocalOk(e, Announce(e, id));
    SameLocalOk(e, SendById(e, id, data));
  }

  lemma SendLocalOk(e: Endpoint, name: string, hash: nat, data: Data)
    requires LocalOk(e) && HasRoom(e.local)
    ensures LocalOk(Send(e, name, hash, data)) && LocalOk(Push(e, name, hash, data))
  {
    hide LocalOk, SendById, Announce, EnsureLocal;
    EnsureLocalOk(e, name, hash);
    var f := EnsureLocal(e, name, hash);
    var id := f.local.byName[name].id;
    SendByIdLocalOk(f, id, data);
    SameLocalOk(Announce(f, id), Push(e, name, hash, data));
  }

  lemma ReceiveDataLocalOk(e: Endpoint, id: nat, data: Data)
    requires LocalOk(e)
    ensures LocalOk(ReceiveData(e, id, data))
  {
    hide LocalOk, Dispatch;
    if id in e.remote.byId {
      DispatchKeeps(e, Event(e.remote.byId[id], data));
    } else {
      SameLocalOk(e, ReceiveData(e, id, data));
    }
  }

  lemma {:induction false} ReceivePartsLocalOk(e: Endpoint, parts: seq<Part>)
    requires LocalOk(e)
    ensures LocalOk(ReceiveParts(e, parts))
    decreases |parts|
  {
    hide LocalOk, ReceiveData;
    if parts == [] {
    } else {
      var last := parts[|parts| - 1];
      ReceiveDataLocalOk(e, last.id, last.data);
      ReceivePartsLocalOk(ReceiveData(e, last.id, last.data), parts[..|parts| - 1]);
    }
  }

  lemma ReceiveLocalOk(e: Endpoint, w: Wire)
    requires LocalOk(e)
    ensures LocalOk(Receive(e, w)) && LocalOk(Arrive(e, w))
  {
    hide LocalOk, ReceiveData, ReceiveParts, Learn;
    match w.body {
      case DataBody(data) => ReceiveDataLocalOk(e, w.id, data);
      case CompoundBody(parts) =>
        ReceivePartsLocalOk(e, parts);
        SameLocalOk(e, e.(unregistered := e.unregistered + 1));
      case SyncBody(_, _, _) => SameLocalOk(e, Receive(e, w));
    }
    if e.queueing {
      SameLocalOk(e, Arrive(e, w));
    }
  }

  lemma {:induction false} ReceiveAllLocalOk(e: Endpoint, ws: seq<Wire>)
    requires LocalOk(e)
    ensures LocalOk(ReceiveAll(e, ws))
    decreases |ws|
  {
    hide LocalOk, Receive;
    if ws == [] {
    } else {
      ReceiveLocalOk(e, ws[0]);
      ReceiveAllLocalOk(Receive(e, ws[0]), ws[1..]);
    }
  }

  lemma ResumeLocalOk(e: Endpoint)
    requires LocalOk(e)
    ensures LocalOk(Resume(e))
  {
    hide LocalOk, ReceiveAll;
    SameLocalOk(e, e.(queueing := false));
    var e1 := ReceiveAll(e.(queueing := false), e.readQueue);
    ReceiveAllLocalOk(e.(queueing := false), e.readQueue);
    SameLocalOk(e1, Resume(e));
  }

  lemma AddHandlerLocalOk(e: Endpoint, name: string, hash: nat)
    requires LocalOk(e) && HasRoom(e.local)
    ensures LocalOk(AddHandler(e, name, hash))
  {
    hide CoreNames, CoreFirst, EnsureLocal;
    EnsureLocalOk(e, name, hash);
  }

  lemma SafeIsSymmetric(a: Endpoint, b: Endpoint)
    requires Safe(a, b)
    ensures Safe(b, a)
  {}

  lemma SendsKeepSafe(e: Endpoint, f: Endpoint, o: Endpoint, ws: seq<Wire>)
    requires Safe(e, o) && Sends(e, f, ws) && LocalOk(f) && Flow(f, o, Stream(e, o) + ws)
    ensures Safe(f, o)
  {
    hide LocalOk, AllUnderstood, AfterAll, AllEvents, CoreNames, Mirrors, PartsKnown;
    SendsStream(e, f, o, ws);
  }

  lemma ArriveKeepsSafe(e: Endpoint, o: Endpoint)
    requires Safe(e, o) && o.outbox != []
    ensures Safe(Arrive(e, o.outbox[0]), o.(outbox := o.outbox[1..]))
  {
    hide Safe, Receive;
    if e.queueing {
      QueueingKeepsSafe(e, o);
    } else {
      HandlingKeepsSafe(e, o);
    }
  }

  lemma QueueingKeepsSafe(e: Endpoint, o: Endpoint)
    requires Safe(e, o) && o.outbox != [] && e.queueing
    ensures Safe(Arrive(e, o.outbox[0]), o.(outbox := o.outbox[1..]))
  {
    hide LocalOk, AllUnderstood, AfterAll, AllEvents, CoreNames, CoreIdsKnown, Mirrors, PartsKnown, Receive;
    var w, p := o.outbox[0], o.(outbox := o.outbox[1..]);
    var f := Arrive(e, w);
    LocalOkIgnoresOutbox(o, o.outbox[1..]);
    LocalOkIgnoresReadQueue(e, e.readQueue + [w]);
    assert [w] + o.outbox[1..] == o.outbox;
    assert Stream(p, f) == e.readQueue + ([w] + o.outbox[1..]) + o.writeQueue;
    assert Stream(f, p) == Stream(e, o);
  }

  lemma HandlingKeepsSafe(e: Endpoint, o: Endpoint)
    requires Safe(e, o) && o.outbox != [] && !e.queueing
    ensures Safe(Arrive(e, o.outbox[0]), o.(outbox := o.outbox[1..]))
  {
    hide LocalOk, AllUnderstood, AfterAll, AllEvents, CoreNames, CoreIdsKnown, Mirrors, PartsKnown, Receive;
    var w, p := o.outbox[0], o.(outbox := o.outbox[1..]);
    var f := Arrive(e, w);
    LocalOkIgnoresOutbox(o, o.outbox[1..]);
    assert [w] + o.outbox[1..] == o.outbox;
    assert Stream(o, e) == [w] + (o.outbox[1..] + o.writeQueue);
    ReceiveKeeps(o, e, w, o.outbox[1..] + o.writeQueue);
    assert Stream(p, f) == o.outbox[1..] + o.writeQueue;
    FlowSameSender(e, f, o, Stream(e, o));
    assert Stream(f, p) == Stream(e, o);
  }

  lemma LocalOkIgnoresOutbox(e: Endpoint, outbox: seq<Wire>)
    requires LocalOk(e)
    ensures LocalOk(e.(outbox := outbox))
  {}

  lemma LocalOkIgnoresReadQueue(e: Endpoint, readQueue: seq<Wire>)
    requires LocalOk(e)
    ensures LocalOk(e.(readQueue := readQueue))
  {}

  lemma ResumeKeepsSafe(e: Endpoint, o: Endpoint)
    requires Safe(e, o)
    ensures Safe(Resume(e), o)
  {
    hide AllUnderstood, AfterAll, AllEvents, CoreNames, Mirrors, PartsKnown, ReceiveAll, Consistent, CoreFirst;
    var f := e.(queueing := false);
    assert e.readQueue + (o.outbox + o.writeQueue) == Stream(o, e);
    ReceiveAllKeeps(o, f, e.readQueue, o.outbox + o.writeQueue);
    var g := ReceiveAll(f, e.readQueue);
    assert Stream(o, Resume(e)) == o.outbox + o.writeQueue;
    FlowSameSender(f, g, o, Stream(e, o));
    assert Stream(Resume(e), o) == Stream(e, o);
  }

  lemma AddHandlerKeepsSafe(e: Endpoint, name: string, hash: nat, o: Endpoint)
    requires Safe(e, o) && HasRoom(e.local)
    ensures Safe(AddHandler(e, name, hash), o)
  {
    hide AllUnderstood, AfterAll, AllEvents, CoreNames, Mirrors, PartsKnown, EnsureLocal, CoreFirst;
    EnsureLocalKeeps(e, name, hash, o, Stream(e, o));
    assert Stream(AddHandler(e, name, hash), o) == Stream(e, o);
  }

  lemma PauseKeepsSafe(e: Endpoint, o: Endpoint)
    requires Safe(e, o)
    ensures Safe(e.(queueing := true), o)
  {
    hide AllUnderstood, AfterAll, AllEvents, CoreNames, Mirrors, PartsKnown, Consistent, CoreFirst;
    assert Stream(e.(queueing := true), o) == Stream(e, o);
  }

  lemma NextIsSafe(l: Link, step: Step)
    requires Safe(l.a, l.b) && Allowed(l, step)
    ensures Safe(Next(l, step).a, Next(l, step).b)
  {
    hide Safe, EnsureLocal, AddHandler, Send, SendById, Push, SendCompound, Arrive, Resume;
    var e, o := l.Get(step.s), l.Get(Other(step.s));
    SafeIsSymmetric(l.a, l.b);
    if step.DeliverStep? {
      ArriveKeepsSafe(e, o);
      SafeIsSymmetric(Next(l, step).Get(step.s), Next(l, step).Get(Other(step.s)));
    } else {
      StepIsSafe(e, o, l, step);
      SafeIsSymmetric(Next(l, step).Get(step.s), o);
    }
  }

  lemma StepIsSafe(e: Endpoint, o: Endpoint, l: Link, step: Step)
    requires Safe(e, o) && Allowed(l, step) && !step.DeliverStep? && e == l.Get(step.s)
    ensures Safe(Next(l, step).Get(step.s), o)
  {
    hide EnsureLocal, AddHandler, Send, SendById, Push, SendCompound, Resume, Flow, LocalOk, QueuesOk;
    var s, f := Stream(e, o), Next(l, step).Get(step.s);
    match step
    case RegisterStep(_, name, hash) =>
      EnsureLocalKeeps(e, name, hash, o, s);
      assert s + [] == s;
      SendsKeepSafe(e, f, o, []);
    case AddHandlerStep(_, name, hash) => AddHandlerKeepsSafe(e, name, hash, o);
    case SendStep(_, name, hash, data) =>
      var ws := SendKeeps(e, name, hash, data, o, s);
      SendsKeepSafe(e, f, o, ws);
    case SendByIdStep(_, id, data) =>
      var ws := SendByIdKeeps(e, id, data, o, s);
      SendsKeepSafe(e, f, o, ws);
    case PushStep(_, name, hash, data) =>
      var ws := PushKeeps(e, name, hash, data, o, s);
      SendsKeepSafe(e, f, o, ws);
    case SendCompoundStep(_) =>
      var ws := SendCompoundKeeps(e, o, s);
      SendsKeepSafe(e, f, o, ws);
    case PauseStep(_) => PauseKeepsSafe(e, o);
    case ResumeStep(_) => ResumeKeepsSafe(e, o);
  }

  // ----- runs

  lemma InitialIsSafe(a: Endpoint, b: Endpoint)
    requires Initial(a) && Initial(b)
    ensures Safe(a, b)
  {
    hide CoreNames, CorePrefix;
    InitialFlow(a, b);
    InitialFlow(b, a);
    assert Stream(a, b) == [] && Stream(b, a) == [];
  }

  lemma InitialFlow(a: Endpoint, b: Endpoint)
    requires Initial(a) && Initial(b)
    ensures Flow(a, b, [])
  {
    hide CoreNames, CorePrefix, HoldsCore, Mirrors;
    CoreMirrors(a.local);
  }

  lemma CoreMirrors(local: Registry)
    requires Consistent(local) && CoreFirst(local)
    ensures Mirrors(local, {}, CorePrefix(NUM_CORE)) && CoreIdsKnown(CorePrefix(NUM_CORE))
  {
    hide CoreNames, CorePrefix, CoreFirst, Consistent, DenseCore;
    var m := CorePrefix(NUM_CORE);
    forall i: nat ensures i in m.byId <==> i < NUM_CORE {
      CoreId(local, m, i);
    }
    forall i | i in m.byId ensures i in local.byId && m.byId[i] == local.byId[i] {
      CoreId(local, m, i);
    }
    forall n | n in m.byName ensures n in local.byName && local.byName[n].id in m.byId && m.byName[n].isCore {
      CoreName(local, m, n);
    }
  }

  ghost predicate CoreIdsKnown(m: Registry) {
    forall i :: 0 <= i < NUM_CORE ==> i in m.byId && m.byId[i] == CoreNames()[i]
  }

  lemma CoreId(local: Registry, m: Registry, i: nat)
    requires CoreFirst(local) && HoldsCore(m, NUM_CORE)
    ensures i in m.byId <==> i < NUM_CORE
    ensures i in m.byId ==> m.byId[i] == CoreNames()[i] && i in local.byId && local.byId[i] == m.byId[i]
  {
    hide CoreNames;
  }

  lemma CoreName(local: Registry, m: Registry, n: string)
    requires Consistent(local) && CoreFirst(local) && HoldsCore(m, NUM_CORE) && n in m.byName
    ensures n in local.byName && local.byName[n].id in m.byId && m.byName[n].isCore
  {
    hide CoreNames;
    CoreId(local, m, m.byName[n].id);
  }

  lemma {:induction false} RunsAreSafe(states: seq<Link>, steps: seq<Step>, k: nat)
    requires IsRun(states, steps) && k < |states|
    ensures Safe(states[k].a, states[k].b)
  {
    hide Safe, Next, Initial;
    if k == 0 {
      InitialIsSafe(states[0].a, states[0].b);
    } else {
      RunsAreSafe(states, steps, k - 1);
      NextIsSafe(states[k - 1], steps[k - 1]);
    }
  }

  /**
    In every run: no message is of an unregistered type; what either side has received is, event by event and under
    the sender's names, the beginning of what the other side has sent; and handlers get only events of their type.
   */
  lemma DeliveryIsFaithful(states: seq<Link>, steps: seq<Step>, k: nat, s: Side)
    requires IsRun(states, steps) && k < |states|
    ensures var e, o := states[k].Get(s), states[k].Get(Other(s));
            && o.unregistered == 0
            && o.received <= e.sent
            && (forall c :: c in o.calls ==> c.addedFor == c.event.name)
  {
    hide IsRun, AllUnderstood, AfterAll, AllEvents, CoreNames, Mirrors, PartsKnown, Consistent, CoreFirst;
    RunsAreSafe(states, steps, k);
  }

  /** Once nothing is on the way, everything sent has been received. */
  lemma NothingIsLost(states: seq<Link>, steps: seq<Step>, k: nat, s: Side)
    requires IsRun(states, steps) && k < |states|
    requires Stream(states[k].Get(s), states[k].Get(Other(s))) == []
    ensures states[k].Get(Other(s)).received == states[k].Get(s).sent
  {
    hide IsRun, AllUnderstood, AfterAll, CoreNames, Mirrors, PartsKnown, Consistent, CoreFirst;
    RunsAreSafe(states, steps, k);
  }

  /** What a side has learnt about a type is what the other side registered: its name, its hash and its id. */
  lemma TypesAgree(states: seq<Link>, steps: seq<Step>, k: nat, s: Side, name: string)
    requires IsRun(states, steps) && k < |states|
    ensures var learnt, local := states[k].Get(Other(s)).remote, states[k].Get(s).local;
            name in learnt.byName && !learnt.byName[name].isCore ==>
              name in local.byName && learnt.byName[name] == local.byName[name]
  {
    hide IsRun, AllUnderstood, AfterAll, CoreNames, PartsKnown, Consistent, CoreFirst;
    RunsAreSafe(states, steps, k);
    var learnt := states[k].Get(Other(s)).remote;
    if name in learnt.byName {
      TypesStay(learnt, Stream(states[k].Get(s), states[k].Get(Other(s))), name);
    }
  }

  lemma {:induction false} TypesStay(m: Registry, s: seq<Wire>, name: string)
    requires name in m.byName
    ensures name in AfterAll(m, s).byName && AfterAll(m, s).byName[name] == m.byName[name]
    decreases |s|
  {
    if s == [] {
    } else {
      TypesStay(After(m, s[0]), s[1..], name);
    }
  }
}
