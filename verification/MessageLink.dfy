/**
  Two message handlers joined by a FIFO channel in each direction. A sender announces a type's numeric id before it
  first uses it; the receiver translates remote id to name to local id. Registries of local types are shared with
  other links, so types can appear at any time, and either side can be queueing.
 */
module MessageLink {
  import opened MessageTypes

  type Data = seq<nat>

  const SYNC_ID := 0
  const COMPOUND_ID := 2

  datatype Part = Part(id: nat, data: Data)

  datatype Body =
    | SyncBody(name: string, hash: nat, id: nat)
    | DataBody(data: Data)
    | CompoundBody(parts: seq<Part>)

  datatype Wire = Wire(id: nat, body: Body)

  datatype Event = Event(name: string, data: Data)

  /** A user's handler, added for the named type, is called with an event. */
  datatype Call = Call(addedFor: string, event: Event)

  /** One handler; `outbox` is the channel to the other side, the last four fields are history. */
  datatype Endpoint = Endpoint(
    local: Registry,
    remote: Registry,
    published: set<nat>,
    handlers: map<nat, seq<string>>,
    queueing: bool,
    readQueue: seq<Wire>,
    writeQueue: seq<Wire>,
    outbox: seq<Wire>,
    compound: seq<Part>,
    sent: seq<Event>,
    received: seq<Event>,
    calls: seq<Call>,
    unregistered: nat)

  // ----- sending

  function Emit(e: Endpoint, w: Wire): Endpoint {
    if e.queueing then e.(writeQueue := e.writeQueue + [w]) else e.(outbox := e.outbox + [w])
  }

  function EnsureLocal(e: Endpoint, name: string, hash: nat): Endpoint {
    if name in e.local.byName then e
    else match Register(e.local, name, hash, false)
      case Success(m) => e.(local := m)
      case Failure(_) => e
  }

  /** `register_message_type_remote`. */
  function Announce(e: Endpoint, id: nat): Endpoint {
    if id !in e.local.byId || e.local.byId[id] !in e.local.byName then e
    else
      var t := e.local.byName[e.local.byId[id]];
      if t.id in e.published || t.isCore then e
      else Emit(e, Wire(SYNC_ID, SyncBody(t.name, t.hash, t.id))).(published := e.published + {t.id})
  }

  /** Sending under a numeric id, which throws if that id is not registered locally. */
  function SendById(e: Endpoint, id: nat, data: Data): Endpoint {
    if id !in e.local.byId then e
    else
      var e1 := Emit(Announce(e, id), Wire(id, DataBody(data)));
      e1.(sent := e.sent + [Event(e.local.byId[id], data)])
  }

  function Send(e: Endpoint, name: string, hash: nat, data: Data): Endpoint {
    var e1 := EnsureLocal(e, name, hash);
    if name in e1.local.byName then SendById(e1, e1.local.byName[name].id, data) else e1
  }

  /** `compound_message::push_message`: the type is announced now, the message itself travels later. */
  function Push(e: Endpoint, name: string, hash: nat, data: Data): Endpoint {
    var e1 := EnsureLocal(e, name, hash);
    if name in e1.local.byName then
      var id := e1.local.byName[name].id;
      Announce(e1, id).(compound := e.compound + [Part(id, data)])
    else e1
  }

  function Named(m: Registry, id: nat): string {
    if id in m.byId then m.byId[id] else ""
  }

  /** The parts of a compound message reach the receiver's handlers last part first. */
  function Unpack(m: Registry, parts: seq<Part>): seq<Event> {
    if parts == [] then []
    else [Event(Named(m, parts[|parts| - 1].id), parts[|parts| - 1].data)] + Unpack(m, parts[..|parts| - 1])
  }

  function SendCompound(e: Endpoint): Endpoint {
    Emit(e, Wire(COMPOUND_ID, CompoundBody(e.compound))).(sent := e.sent + Unpack(e.local, e.compound), compound := [])
  }

  // ----- receiving

  function Learn(m: Registry, name: string, hash: nat, id: nat): Registry {
    if name in m.byName then m
    else match RegisterUnder(m, name, hash, id, false)
      case Success(r) => r
      case Failure(_) => m
  }

  function Dispatch(e: Endpoint, event: Event): Endpoint {
    var e1 := e.(received := e.received + [event]);
    if event.name in e.local.byName && e.local.byName[event.name].id in e.handlers then
      e1.(calls := e.calls + CallAll(e.handlers[e.local.byName[event.name].id], event))
    else e1
  }

  function CallAll(handlers: seq<string>, event: Event): (calls: seq<Call>)
    ensures |calls| == |handlers| && forall i :: 0 <= i < |calls| ==> calls[i] == Call(handlers[i], event)
  {
    seq(|handlers|, i requires 0 <= i < |handlers| => Call(handlers[i], event))
  }

  /** `on_message_received_common` for a plain message: an id the remote has not registered is only counted. */
  function ReceiveData(e: Endpoint, id: nat, data: Data): Endpoint {
    if id !in e.remote.byId then e.(unregistered := e.unregistered + 1)
    else Dispatch(e, Event(e.remote.byId[id], data))
  }

  function ReceiveParts(e: Endpoint, parts: seq<Part>): Endpoint
    decreases |parts|
  {
    if parts == [] then e
    else
      var last := parts[|parts| - 1];
      ReceiveParts(ReceiveData(e, last.id, last.data), parts[..|parts| - 1])
  }

  function Receive(e: Endpoint, w: Wire): Endpoint {
    match w.body
    case DataBody(data) => ReceiveData(e, w.id, data)
    case SyncBody(name, hash, id) =>
      if w.id !in e.remote.byId then e.(unregistered := e.unregistered + 1)
      else if e.remote.byId[w.id] != MSG_SYNC_MTR then e
      else e.(remote := Learn(e.remote, name, hash, id))
    case CompoundBody(parts) =>
      if w.id !in e.remote.byId then e.(unregistered := e.unregistered + 1)
      else if e.remote.byId[w.id] != MSG_COMPOUND then e
      else ReceiveParts(e, parts)
  }

  function ReceiveAll(e: Endpoint, ws: seq<Wire>): Endpoint
    decreases |ws|
  {
    if ws == [] then e else ReceiveAll(Receive(e, ws[0]), ws[1..])
  }

  /** A message comes off the channel: a queueing handler stores it. */
  function Arrive(e: Endpoint, w: Wire): Endpoint {
    if e.queueing then e.(readQueue := e.readQueue + [w]) else Receive(e, w)
  }

  /** `toggle_queue(false)`: what was read is handled, then what was written goes out. */
  function Resume(e: Endpoint): Endpoint {
    var e1 := ReceiveAll(e.(queueing := false), e.readQueue);
    e1.(readQueue := [], outbox := e1.outbox + e1.writeQueue, writeQueue := [])
  }

  function AddHandler(e: Endpoint, name: string, hash: nat): Endpoint {
    var e1 := EnsureLocal(e, name, hash);
    if name in e1.local.byName then
      var id := e1.local.byName[name].id;
      e1.(handlers := e1.handlers[id := (if id in e1.handlers then e1.handlers[id] else []) + [name]])
    else e1
  }

  // ----- runs

  datatype Side = A | B

  datatype Link = Link(a: Endpoint, b: Endpoint) {
    function Get(s: Side): Endpoint { if s == A then a else b }
    function Set(s: Side, e: Endpoint): Link { if s == A then this.(a := e) else this.(b := e) }
  }

  function Other(s: Side): Side { if s == A then B else A }

  datatype Step =
    | RegisterStep(s: Side, name: string, hash: nat)
    | AddHandlerStep(s: Side, name: string, hash: nat)
    | SendStep(s: Side, name: string, hash: nat, data: Data)
    | SendByIdStep(s: Side, id: nat, data: Data)
    | PushStep(s: Side, name: string, hash: nat, data: Data)
    | SendCompoundStep(s: Side)
    | DeliverStep(s: Side)
    | PauseStep(s: Side)
    | ResumeStep(s: Side)

  /** Users send neither of the two control types, and the 16-bit id counter has not come round. */
  predicate Allowed(l: Link, step: Step) {
    && l.Get(step.s).local.nextId + 1 < ID_LIMIT
    && (step.SendStep? || step.PushStep? ==> step.name != MSG_SYNC_MTR && step.name != MSG_COMPOUND)
    && (step.SendByIdStep? ==> step.id != SYNC_ID && step.id != COMPOUND_ID)
    && (step.DeliverStep? ==> l.Get(Other(step.s)).outbox != [])
  }

  function Next(l: Link, step: Step): Link
    requires Allowed(l, step)
  {
    var e := l.Get(step.s);
    match step
    case RegisterStep(s, name, hash) => l.Set(s, EnsureLocal(e, name, hash))
    case AddHandlerStep(s, name, hash) => l.Set(s, AddHandler(e, name, hash))
    case SendStep(s, name, hash, data) => l.Set(s, Send(e, name, hash, data))
    case SendByIdStep(s, id, data) => l.Set(s, SendById(e, id, data))
    case PushStep(s, name, hash, data) => l.Set(s, Push(e, name, hash, data))
    case SendCompoundStep(s) => l.Set(s, SendCompound(e))
    case DeliverStep(s) =>
      var o := l.Get(Other(s));
      l.Set(s, Arrive(e, o.outbox[0])).Set(Other(s), o.(outbox := o.outbox[1..]))
    case PauseStep(s) => l.Set(s, e.(queueing := true))
    case ResumeStep(s) => l.Set(s, Resume(e))
  }

  /** A handler just constructed, over a local registry that already knows the core types. */
  ghost predicate Initial(e: Endpoint) {
    && Consistent(e.local) && CoreFirst(e.local)
    && e.remote == CorePrefix(NUM_CORE)
    && e.published == {} && e.handlers == map[] && !e.queueing
    && e.readQueue == e.writeQueue == e.outbox == []
    && e.compound == [] && e.sent == e.received == [] && e.calls == [] && e.unregistered == 0
  }

  ghost predicate IsRun(states: seq<Link>, steps: seq<Step>) {
    && |states| == |steps| + 1
    && Initial(states[0].a) && Initial(states[0].b)
    && forall i :: 0 <= i < |steps| ==> Allowed(states[i], steps[i]) && states[i + 1] == Next(states[i], steps[i])
  }
}
