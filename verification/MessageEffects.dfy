/**
  What the users of two handlers get, told from what the users did: who is called with what, what counts as sent, what
  pausing holds back, and that everything arrives once the channel has been emptied.
 */
module MessageEffects {
  import opened MessageLink
  import opened MessageSafety
  import opened MessageTypes
  import opened Sequences

  // ----- what the users did

  /** How many handlers have been added for a name. */
  function Added(steps: seq<Step>, s: Side, name: string): nat {
    if steps == [] then 0
    else
      var last := steps[|steps| - 1];
      Added(steps[..|steps| - 1], s, name) + if last.AddHandlerStep? && last.s == s && last.name == name then 1 else 0
  }

  /** Each event goes once to every handler added for its name. */
  function CallsFor(events: seq<Event>, steps: seq<Step>, s: Side): seq<Call> {
    if events == [] then []
    else
      var last := events[|events| - 1];
      CallsFor(events[..|events| - 1], steps, s) + Copies(Call(last.name, last), Added(steps, s, last.name))
  }

  /** What has come in between two states. */
  function News(before: Endpoint, after: Endpoint): seq<Event> {
    if |before.received| <= |after.received| then after.received[|before.received|..] else []
  }

  /** Step by step, what came in goes to the handlers that had been added by then. */
  function CallsDue(states: seq<Link>, steps: seq<Step>, k: nat, s: Side): seq<Call>
    requires k < |states| == |steps| + 1
  {
    if k == 0 then []
    else
      CallsDue(states, steps, k - 1, s)
      + CallsFor(News(states[k - 1].Get(s), states[k].Get(s)), steps[..k - 1], s)
  }

  /** What a user has sent, and what is waiting in the compound; the last message pushed counts as sent first. */
  datatype Said = Said(sent: seq<Event>, pushed: seq<Event>)

  function Says(step: Step, s: Side, types: map<nat, string>, said: Said): Said {
    if step.s != s then said
    else match step
      case SendStep(_, name, _, data) => said.(sent := said.sent + [Event(name, data)])
      case SendByIdStep(_, id, data) =>
        if id in types then said.(sent := said.sent + [Event(types[id], data)]) else said
      case PushStep(_, name, _, data) => said.(pushed := [Event(name, data)] + said.pushed)
      case SendCompoundStep(_) => Said(said.sent + said.pushed, [])
      case _ => said
  }

  function HasSaid(states: seq<Link>, steps: seq<Step>, k: nat, s: Side): Said
    requires k < |states| == |steps| + 1
  {
    if k == 0 then Said([], [])
    else Says(steps[k - 1], s, states[k - 1].Get(s).local.byId, HasSaid(states, steps, k - 1, s))
  }

  function Paused(steps: seq<Step>, s: Side): bool {
    if steps == [] then false
    else match steps[|steps| - 1]
      case PauseStep(t) => t == s || Paused(steps[..|steps| - 1], s)
      case ResumeStep(t) => t != s && Paused(steps[..|steps| - 1], s)
      case _ => Paused(steps[..|steps| - 1], s)
  }

  // ----- the handlers that are there

  function HandlersFor(e: Endpoint, name: string): seq<string> {
    if name in e.local.byName && e.local.byName[name].id in e.handlers then e.handlers[e.local.byName[name].id] else []
  }

  /** Exactly the handlers that were added are there. */
  ghost predicate Listens(e: Endpoint, steps: seq<Step>, s: Side) {
    forall name :: HandlersFor(e, name) == Copies(name, Added(steps, s, name))
  }

  /** e has taken in some events, and its handlers have been called with them. */
  ghost predicate Answers(e: Endpoint, f: Endpoint, steps: seq<Step>, s: Side) {
    && e.received <= f.received && f.calls == e.calls + CallsFor(News(e, f), steps, s)
    && f.local == e.local && f.handlers == e.handlers
  }

  lemma CallsForMore(a: seq<Event>, b: seq<Event>, steps: seq<Step>, s: Side)
    ensures CallsFor(a + b, steps, s) == CallsFor(a, steps, s) + CallsFor(b, steps, s)
  {
    if b == [] {
      assert a + b == a;
    } else {
      var init, last := b[..|b| - 1], b[|b| - 1];
      assert (a + b)[..|a + b| - 1] == a + init;
      CallsForMore(a, init, steps, s);
      Regroup(CallsFor(a, steps, s), CallsFor(init, steps, s),
              Copies(Call(last.name, last), Added(steps, s, last.name)));
    }
  }

  lemma AnswersTwice(e: Endpoint, f: Endpoint, g: Endpoint, steps: seq<Step>, s: Side)
    requires Answers(e, f, steps, s) && Answers(f, g, steps, s)
    ensures Answers(e, g, steps, s)
  {
    hide CallsFor;
    assert News(e, g) == News(e, f) + News(f, g);
    CallsForMore(News(e, f), News(f, g), steps, s);
    Regroup(e.calls, CallsFor(News(e, f), steps, s), CallsFor(News(f, g), steps, s));
  }

  lemma AnswersNothing(e: Endpoint, f: Endpoint, steps: seq<Step>, s: Side)
    requires f.received == e.received && f.calls == e.calls && f.local == e.local && f.handlers == e.handlers
    ensures Answers(e, f, steps, s)
  {
    assert News(e, f) == [] && e.calls + [] == e.calls;
  }

  /** One event. */
  lemma DispatchAnswers(e: Endpoint, event: Event, steps: seq<Step>, s: Side)
    requires Listens(e, steps, s)
    ensures Answers(e, Dispatch(e, event), steps, s)
  {
    hide Added;
    var f := Dispatch(e, event);
    var n := Added(steps, s, event.name);
    assert News(e, f) == [event] && [event][..0] == [];
    assert HandlersFor(e, event.name) == Copies(event.name, n);
    assert f.calls == e.calls + CallAll(HandlersFor(e, event.name), event);
    assert CallAll(Copies(event.name, n), event) == Copies(Call(event.name, event), n);
    assert CallsFor([event], steps, s) == [] + Copies(Call(event.name, event), n);
  }

  lemma ReceiveDataAnswers(e: Endpoint, id: nat, data: Data, steps: seq<Step>, s: Side)
    requires Listens(e, steps, s)
    ensures Answers(e, ReceiveData(e, id, data), steps, s)
  {
    hide Dispatch, Listens, Answers;
    if id in e.remote.byId {
      DispatchAnswers(e, Event(e.remote.byId[id], data), steps, s);
    } else {
      AnswersNothing(e, ReceiveData(e, id, data), steps, s);
    }
  }

  lemma AnswersListens(e: Endpoint, f: Endpoint, steps: seq<Step>, s: Side)
    requires Answers(e, f, steps, s) && Listens(e, steps, s)
    ensures Listens(f, steps, s)
  {
    hide Added;
    assert forall name :: HandlersFor(f, name) == HandlersFor(e, name);
  }

  lemma {:induction false} ReceivePartsAnswers(e: Endpoint, parts: seq<Part>, steps: seq<Step>, s: Side)
    requires Listens(e, steps, s)
    ensures Answers(e, ReceiveParts(e, parts), steps, s)
    decreases |parts|
  {
    hide ReceiveData, Listens, Answers;
    if parts == [] {
      AnswersNothing(e, e, steps, s);
    } else {
      var last, init := parts[|parts| - 1], parts[..|parts| - 1];
      var f := ReceiveData(e, last.id, last.data);
      ReceiveDataAnswers(e, last.id, last.data, steps, s);
      AnswersListens(e, f, steps, s);
      ReceivePartsAnswers(f, init, steps, s);
      AnswersTwice(e, f, ReceiveParts(f, init), steps, s);
    }
  }

  lemma ReceiveAnswers(e: Endpoint, w: Wire, steps: seq<Step>, s: Side)
    requires Listens(e, steps, s)
    ensures Answers(e, Receive(e, w), steps, s)
  {
    hide ReceiveData, ReceiveParts, Learn, Listens, Answers;
    match w.body {
      case DataBody(data) => ReceiveDataAnswers(e, w.id, data, steps, s);
      case CompoundBody(parts) =>
        ReceivePartsAnswers(e, parts, steps, s);
        AnswersNothing(e, e, steps, s);
        AnswersNothing(e, e.(unregistered := e.unregistered + 1), steps, s);
      case SyncBody(_, _, _) => AnswersNothing(e, Receive(e, w), steps, s);
    }
  }

  lemma {:induction false} ReceiveAllAnswers(e: Endpoint, ws: seq<Wire>, steps: seq<Step>, s: Side)
    requires Listens(e, steps, s)
    ensures Answers(e, ReceiveAll(e, ws), steps, s)
    decreases |ws|
  {
    hide Receive, Listens, Answers;
    if ws == [] {
      AnswersNothing(e, e, steps, s);
    } else {
      ReceiveAnswers(e, ws[0], steps, s);
      AnswersListens(e, Receive(e, ws[0]), steps, s);
      ReceiveAllAnswers(Receive(e, ws[0]), ws[1..], steps, s);
      AnswersTwice(e, Receive(e, ws[0]), ReceiveAll(e, ws), steps, s);
    }
  }

  // ----- one step

  lemma AddedOneMore(steps: seq<Step>, step: Step, s: Side, name: string)
    ensures Added(steps + [step], s, name)
            == Added(steps, s, name) + if step.AddHandlerStep? && step.s == s && step.name == name then 1 else 0
  {
    assert (steps + [step])[..|steps|] == steps;
  }

  lemma EnsureLocalIsSilent(e: Endpoint, name: string, hash: nat)
    requires LocalOk(e) && HasRoom(e.local)
    ensures var f := EnsureLocal(e, name, hash);
            && name in f.local.byName && f.local.byName[name].id in f.local.byId
            && f.local.byId[f.local.byName[name].id] == name
            && Extends(e.local, f.local) && f == e.(local := f.local)
            && forall n :: HandlersFor(f, n) == HandlersFor(e, n)
  {
    hide CoreNames, CoreFirst;
    EnsureLocalOk(e, name, hash);
    var f := EnsureLocal(e, name, hash);
    NameHasId(f, name);
    if name !in e.local.byName {
      assert f.local.byName[name].id == e.local.nextId;
      forall n ensures HandlersFor(f, n) == HandlersFor(e, n) {
        if n == name && e.local.nextId in e.handlers && e.handlers[e.local.nextId] != [] {
          ListenedIsKnown(e, e.local.nextId);
        }
      }
    }
  }

  lemma ListenedIsKnown(e: Endpoint, id: nat)
    requires LocalOk(e) && id in e.handlers && e.handlers[id] != []
    ensures id in e.local.byId && id < e.local.nextId
  {
    hide CoreNames, CoreFirst;
    assert e.handlers[id][0] in e.handlers[id];
  }

  lemma AddHandlerListens(e: Endpoint, name: string, hash: nat)
    requires LocalOk(e) && HasRoom(e.local)
    ensures var f := AddHandler(e, name, hash);
            && f.received == e.received && f.calls == e.calls && Extends(e.local, f.local)
            && forall n :: HandlersFor(f, n) == HandlersFor(e, n) + if n == name then [name] else []
  {
    hide CoreNames, CoreFirst, EnsureLocal;
    EnsureLocalIsSilent(e, name, hash);
    EnsureLocalOk(e, name, hash);
    var e1, f := EnsureLocal(e, name, hash), AddHandler(e, name, hash);
    forall n ensures HandlersFor(f, n) == HandlersFor(e1, n) + if n == name then [name] else [] {
      if n in e1.local.byName && n != name {
        NameHasId(e1, n);
      }
    }
  }

  /** Nothing is received, and no handler added. */
  ghost predicate Quiet(e: Endpoint, f: Endpoint) {
    && f.received == e.received && f.calls == e.calls && Extends(e.local, f.local)
    && forall n :: HandlersFor(f, n) == HandlersFor(e, n)
  }

  lemma SendIsQuiet(e: Endpoint, name: string, hash: nat, data: Data)
    requires LocalOk(e) && HasRoom(e.local)
    ensures Quiet(e, Send(e, name, hash, data)) && Quiet(e, Push(e, name, hash, data))
  {
    hide LocalOk, EnsureLocal;
    EnsureLocalIsSilent(e, name, hash);
  }

  lemma SendByIdIsQuiet(e: Endpoint, id: nat, data: Data)
    ensures Quiet(e, SendById(e, id, data)) && Quiet(e, SendCompound(e))
  {
  }

  /** What one step of the run does to what s has received, whom it has called, and who listens. */
  lemma StepAnswers(l: Link, step: Step, steps: seq<Step>, s: Side)
    requires Allowed(l, step) && LocalOk(l.Get(s)) && Listens(l.Get(s), steps, s)
    ensures var e, f := l.Get(s), Next(l, step).Get(s);
            && e.received <= f.received && f.calls == e.calls + CallsFor(News(e, f), steps, s)
            && Listens(f, steps + [step], s) && Extends(e.local, f.local)
  {
    hide LocalOk, EnsureLocal, AddHandler, Send, SendById, Push, SendCompound, Arrive, Resume, Listens, Answers,
         CallsFor, HandlersFor;
    var e, f := l.Get(s), Next(l, step).Get(s);
    if step.s != s {
      OthersAreQuiet(l, step, s);
      QuietAnswers(e, f, step, steps, s);
    } else {
      match step
      case RegisterStep(_, name, hash) =>
        EnsureLocalIsSilent(e, name, hash);
        QuietAnswers(e, f, step, steps, s);
      case AddHandlerStep(_, name, hash) =>
        AddHandlerListens(e, name, hash);
        OneMoreListens(e, f, step, steps, s);
      case SendStep(_, name, hash, data) =>
        SendIsQuiet(e, name, hash, data);
        QuietAnswers(e, f, step, steps, s);
      case SendByIdStep(_, id, data) =>
        SendByIdIsQuiet(e, id, data);
        QuietAnswers(e, f, step, steps, s);
      case PushStep(_, name, hash, data) =>
        SendIsQuiet(e, name, hash, data);
        QuietAnswers(e, f, step, steps, s);
      case SendCompoundStep(_) =>
        SendByIdIsQuiet(e, 0, []);
        QuietAnswers(e, f, step, steps, s);
      case DeliverStep(_) =>
        ArriveAnswers(e, l.Get(Other(s)).outbox[0], steps, s);
        AnswersStep(e, f, step, steps, s);
      case PauseStep(_) =>
        QuietIfPaused(e);
        QuietAnswers(e, f, step, steps, s);
      case ResumeStep(_) =>
        ResumeAnswers(e, steps, s);
        AnswersStep(e, f, step, steps, s);
    }
  }

  lemma OthersAreQuiet(l: Link, step: Step, s: Side)
    requires Allowed(l, step) && step.s != s
    ensures Quiet(l.Get(s), Next(l, step).Get(s))
  {
    hide EnsureLocal, AddHandler, Send, SendById, Push, SendCompound, Arrive, Resume;
  }

  lemma QuietIfPaused(e: Endpoint)
    ensures Quiet(e, e.(queueing := true))
  {
  }

  lemma QuietAnswers(e: Endpoint, f: Endpoint, step: Step, steps: seq<Step>, s: Side)
    requires Quiet(e, f) && Listens(e, steps, s) && !(step.AddHandlerStep? && step.s == s)
    ensures f.calls == e.calls + CallsFor(News(e, f), steps, s) && Listens(f, steps + [step], s)
  {
    hide HandlersFor, Added;
    assert News(e, f) == [] && e.calls + [] == e.calls;
    forall name ensures HandlersFor(f, name) == Copies(name, Added(steps + [step], s, name)) {
      AddedOneMore(steps, step, s, name);
      assert HandlersFor(f, name) == HandlersFor(e, name);
    }
  }

  lemma OneMoreListens(e: Endpoint, f: Endpoint, step: Step, steps: seq<Step>, s: Side)
    requires step.AddHandlerStep? && step.s == s && Listens(e, steps, s)
    requires f.received == e.received && f.calls == e.calls
    requires forall n :: HandlersFor(f, n) == HandlersFor(e, n) + if n == step.name then [step.name] else []
    ensures f.calls == e.calls + CallsFor(News(e, f), steps, s) && Listens(f, steps + [step], s)
  {
    hide HandlersFor, Added;
    assert News(e, f) == [] && e.calls + [] == e.calls;
    forall name ensures HandlersFor(f, name) == Copies(name, Added(steps + [step], s, name)) {
      AddedOneMore(steps, step, s, name);
      var n := Added(steps, s, name);
      assert HandlersFor(e, name) == Copies(name, n);
      assert Copies(name, n) + [name] == Copies(name, n + 1);
    }
  }

  lemma AnswersStep(e: Endpoint, f: Endpoint, step: Step, steps: seq<Step>, s: Side)
    requires Answers(e, f, steps, s) && Listens(e, steps, s) && !step.AddHandlerStep?
    ensures Listens(f, steps + [step], s) && Extends(e.local, f.local)
    ensures e.received <= f.received && f.calls == e.calls + CallsFor(News(e, f), steps, s)
  {
    hide CallsFor, Added;
    AnswersListens(e, f, steps, s);
    forall name ensures HandlersFor(f, name) == Copies(name, Added(steps + [step], s, name)) {
      AddedOneMore(steps, step, s, name);
    }
  }

  lemma ArriveAnswers(e: Endpoint, w: Wire, steps: seq<Step>, s: Side)
    requires Listens(e, steps, s)
    ensures Answers(e, Arrive(e, w), steps, s)
  {
    hide Receive, Listens, Answers;
    ReceiveAnswers(e, w, steps, s);
    AnswersNothing(e, e.(readQueue := e.readQueue + [w]), steps, s);
  }

  lemma ResumeAnswers(e: Endpoint, steps: seq<Step>, s: Side)
    requires Listens(e, steps, s)
    ensures Answers(e, Resume(e), steps, s)
  {
    hide ReceiveAll, Listens, Answers;
    var f := e.(queueing := false);
    AnswersNothing(e, f, steps, s);
    AnswersListens(e, f, steps, s);
    ReceiveAllAnswers(f, e.readQueue, steps, s);
    var g := ReceiveAll(f, e.readQueue);
    AnswersTwice(e, f, g, steps, s);
    AnswersNothing(g, Resume(e), steps, s);
    AnswersTwice(e, g, Resume(e), steps, s);
  }

  // ----- who is called, over whole runs

  lemma SafeParts(l: Link, s: Side)
    requires Safe(l.a, l.b)
    ensures LocalOk(l.Get(s)) && QueuesOk(l.Get(s))
    ensures Flow(l.Get(s), l.Get(Other(s)), Stream(l.Get(s), l.Get(Other(s))))
  {
  }

  lemma NobodyListens(e: Endpoint, s: Side)
    requires Initial(e)
    ensures Listens(e, [], s)
  {
    hide CoreNames, CorePrefix, Consistent, CoreFirst;
  }

  /**
    In every run: whenever events come in, every handler that was added for the name of one before is called with it
    once, and there are no other calls; so the calls follow from what was received and when handlers were added.
   */
  lemma {:induction false} CallsAreDue(states: seq<Link>, steps: seq<Step>, k: nat, s: Side)
    requires IsRun(states, steps) && k < |states|
    ensures states[k].Get(s).calls == CallsDue(states, steps, k, s)
    ensures Listens(states[k].Get(s), steps[..k], s)
    ensures k > 0 ==> states[k - 1].Get(s).received <= states[k].Get(s).received
  {
    hide Next, Initial, Listens, CallsFor, LocalOk, Allowed, Safe;
    if k == 0 {
      assert steps[..0] == [];
      StartIsEmpty(states, steps, s);
      NobodyListens(states[0].Get(s), s);
    } else {
      CallsAreDue(states, steps, k - 1, s);
      RunsAreSafe(states, steps, k - 1);
      SafeParts(states[k - 1], s);
      StepAnswers(states[k - 1], steps[k - 1], steps[..k - 1], s);
      assert steps[..k - 1] + [steps[k - 1]] == steps[..k];
    }
  }

  lemma StartIsEmpty(states: seq<Link>, steps: seq<Step>, s: Side)
    requires IsRun(states, steps)
    ensures var e := states[0].Get(s); Initial(e) && e.calls == [] && e.sent == [] && e.compound == [] && !e.queueing
  {
    hide CoreNames, CorePrefix, Consistent, CoreFirst;
  }

  // ----- what counts as sent

  /** The messages pushed are the parts of the compound, the last one in front. */
  ghost predicate Speaks(e: Endpoint, said: Said) {
    && e.sent == said.sent && Unpack(e.local, e.compound) == said.pushed
    && forall p :: p in e.compound ==> p.id in e.local.byId
  }

  lemma UnpackGrows(m: Registry, r: Registry, parts: seq<Part>)
    requires Extends(m, r) && forall p :: p in parts ==> p.id in m.byId
    ensures Unpack(r, parts) == Unpack(m, parts)
  {
    UnpackSame(m, r, parts);
  }

  lemma UnpackOneMore(m: Registry, parts: seq<Part>, p: Part)
    ensures Unpack(m, parts + [p]) == [Event(Named(m, p.id), p.data)] + Unpack(m, parts)
  {
    assert (parts + [p])[..|parts|] == parts;
  }

  lemma NothingToUnpack(m: Registry)
    ensures Unpack(m, []) == []
  {
  }

  lemma SpeaksOn(e: Endpoint, f: Endpoint, said: Said)
    requires Speaks(e, said) && Extends(e.local, f.local) && f.sent == e.sent && f.compound == e.compound
    ensures Speaks(f, said)
  {
    UnpackGrows(e.local, f.local, e.compound);
  }

  lemma SendSpeaks(e: Endpoint, name: string, hash: nat, data: Data, said: Said)
    requires LocalOk(e) && HasRoom(e.local) && Speaks(e, said)
    ensures Speaks(Send(e, name, hash, data), said.(sent := said.sent + [Event(name, data)]))
    ensures Speaks(Push(e, name, hash, data), said.(pushed := [Event(name, data)] + said.pushed))
  {
    hide LocalOk, EnsureLocal, HandlersFor, Unpack;
    EnsureLocalIsSilent(e, name, hash);
    var f := EnsureLocal(e, name, hash);
    var id := f.local.byName[name].id;
    UnpackGrows(e.local, f.local, e.compound);
    UnpackOneMore(f.local, e.compound, Part(id, data));
    assert Send(e, name, hash, data).local == Push(e, name, hash, data).local == f.local;
  }

  lemma SendByIdSpeaks(e: Endpoint, id: nat, data: Data, said: Said)
    requires Speaks(e, said)
    ensures Speaks(SendById(e, id, data),
                   if id in e.local.byId then said.(sent := said.sent + [Event(e.local.byId[id], data)]) else said)
  {
    hide Unpack;
  }

  lemma SendCompoundSpeaks(e: Endpoint, said: Said)
    requires Speaks(e, said)
    ensures Speaks(SendCompound(e), Said(said.sent + said.pushed, []))
  {
    NothingToUnpack(e.local);
  }

  lemma ReceivingIsSilent(l: Link, step: Step, s: Side)
    requires Allowed(l, step) && Safe(l.a, l.b) && step.s == s && (step.DeliverStep? || step.ResumeStep?)
    ensures var e, f := l.Get(s), Next(l, step).Get(s);
            f.sent == e.sent && f.compound == e.compound && Extends(e.local, f.local)
  {
    hide LocalOk, Flow, Stream, Arrive, Resume, SameSender;
    SafeParts(l, s);
    SafeParts(l, Other(s));
    if step.DeliverStep? {
      ArriveIsSilent(l.Get(Other(s)), l.Get(s));
    } else {
      ResumeIsSilent(l.Get(Other(s)), l.Get(s));
    }
  }

  lemma ArriveIsSilent(o: Endpoint, e: Endpoint)
    requires LocalOk(e) && QueuesOk(e) && Flow(o, e, Stream(o, e)) && o.outbox != []
    ensures var f := Arrive(e, o.outbox[0]);
            f.sent == e.sent && f.compound == e.compound && f.local == e.local && f.queueing == e.queueing
  {
    hide Receive, LocalOk, Flow;
    if !e.queueing {
      assert [o.outbox[0]] + (o.outbox[1..] + o.writeQueue) == Stream(o, e);
      ReceiveKeeps(o, e, o.outbox[0], o.outbox[1..] + o.writeQueue);
    }
  }

  lemma ResumeIsSilent(o: Endpoint, e: Endpoint)
    requires LocalOk(e) && Flow(o, e, Stream(o, e))
    ensures var f := Resume(e); f.sent == e.sent && f.compound == e.compound && f.local == e.local && !f.queueing
  {
    hide ReceiveAll, LocalOk, Flow;
    LocalOkIgnoresQueueing(e);
    FlowIgnoresQueueing(o, e);
    assert e.readQueue + (o.outbox + o.writeQueue) == Stream(o, e);
    ReceiveAllKeeps(o, e.(queueing := false), e.readQueue, o.outbox + o.writeQueue);
  }

  lemma LocalOkIgnoresQueueing(e: Endpoint)
    requires LocalOk(e)
    ensures LocalOk(e.(queueing := false))
  {
  }

  lemma FlowIgnoresQueueing(o: Endpoint, e: Endpoint)
    requires Flow(o, e, Stream(o, e))
    ensures Flow(o, e.(queueing := false), Stream(o, e))
  {
    hide AllUnderstood, AfterAll, AllEvents, Mirrors, PartsKnown, CoreIdsKnown;
  }

  lemma StepSpeaks(l: Link, step: Step, s: Side, said: Said)
    requires Allowed(l, step) && Safe(l.a, l.b) && Speaks(l.Get(s), said)
    ensures Speaks(Next(l, step).Get(s), Says(step, s, l.Get(s).local.byId, said))
  {
    hide Safe, LocalOk, EnsureLocal, AddHandler, Send, SendById, Push, SendCompound, Arrive, Resume, Speaks;
    var e, f := l.Get(s), Next(l, step).Get(s);
    SafeParts(l, s);
    if step.s != s {
      OthersAreSilent(l, step, s);
      SpeaksOn(e, f, said);
    } else {
      match step
      case RegisterStep(_, name, hash) =>
        EnsureLocalIsSilent(e, name, hash);
        SpeaksOn(e, f, said);
      case AddHandlerStep(_, name, hash) =>
        AddHandlerIsSilent(e, name, hash);
        SpeaksOn(e, f, said);
      case SendStep(_, name, hash, data) => SendSpeaks(e, name, hash, data, said);
      case SendByIdStep(_, id, data) => SendByIdSpeaks(e, id, data, said);
      case PushStep(_, name, hash, data) => SendSpeaks(e, name, hash, data, said);
      case SendCompoundStep(_) => SendCompoundSpeaks(e, said);
      case PauseStep(_) => SpeaksOn(e, f, said);
      case _ =>
        ReceivingIsSilent(l, step, s);
        SpeaksOn(e, f, said);
    }
  }

  lemma OthersAreSilent(l: Link, step: Step, s: Side)
    requires Allowed(l, step) && step.s != s
    ensures var e, f := l.Get(s), Next(l, step).Get(s);
            f.sent == e.sent && f.compound == e.compound && f.local == e.local && f.queueing == e.queueing
  {
    hide EnsureLocal, AddHandler, Send, SendById, Push, SendCompound, Arrive, Resume;
  }

  lemma AddHandlerIsSilent(e: Endpoint, name: string, hash: nat)
    requires LocalOk(e) && HasRoom(e.local)
    ensures var f := AddHandler(e, name, hash);
            f.sent == e.sent && f.compound == e.compound && Extends(e.local, f.local)
  {
    hide LocalOk, EnsureLocal, HandlersFor;
    EnsureLocalIsSilent(e, name, hash);
  }

  /**
    In every run, what a side has sent is what its user sent, message by message: under a name, under an id that was
    registered, or pushed into a compound that was sent.
   */
  lemma {:induction false} SentIsSaid(states: seq<Link>, steps: seq<Step>, k: nat, s: Side)
    requires IsRun(states, steps) && k < |states|
    ensures states[k].Get(s).sent == HasSaid(states, steps, k, s).sent
    ensures Speaks(states[k].Get(s), HasSaid(states, steps, k, s))
  {
    hide Next, Initial, Says, Allowed, Safe;
    if k == 0 {
      StartIsEmpty(states, steps, s);
      NothingToUnpack(states[0].Get(s).local);
    } else {
      SentIsSaid(states, steps, k - 1, s);
      RunsAreSafe(states, steps, k - 1);
      StepSpeaks(states[k - 1], steps[k - 1], s, HasSaid(states, steps, k - 1, s));
    }
  }

  // ----- pausing

  lemma StepPauses(l: Link, step: Step, s: Side)
    requires Allowed(l, step) && Safe(l.a, l.b)
    ensures var e, f := l.Get(s), Next(l, step).Get(s);
            f.queueing == if step == PauseStep(s) then true else if step == ResumeStep(s) then false else e.queueing
  {
    hide Safe, LocalOk, Flow, Stream, Arrive, Resume, EnsureLocal, Send, SendById, Push, AddHandler;
    SafeParts(l, s);
    SafeParts(l, Other(s));
    var e := l.Get(s);
    if step.s != s {
      OthersAreSilent(l, step, s);
    } else {
      match step
      case RegisterStep(_, name, hash) => SendingGoesOn(e, name, hash, []);
      case AddHandlerStep(_, name, hash) => SendingGoesOn(e, name, hash, []);
      case SendStep(_, name, hash, data) => SendingGoesOn(e, name, hash, data);
      case SendByIdStep(_, id, data) => SendByIdGoesOn(e, id, data);
      case PushStep(_, name, hash, data) => SendingGoesOn(e, name, hash, data);
      case DeliverStep(_) => ArriveIsSilent(l.Get(Other(s)), e);
      case ResumeStep(_) => ResumeIsSilent(l.Get(Other(s)), e);
      case _ =>
    }
  }

  lemma SendByIdGoesOn(e: Endpoint, id: nat, data: Data)
    ensures SendById(e, id, data).queueing == Announce(e, id).queueing == e.queueing
  {
  }

  lemma SendingGoesOn(e: Endpoint, name: string, hash: nat, data: Data)
    ensures EnsureLocal(e, name, hash).queueing == AddHandler(e, name, hash).queueing == e.queueing
    ensures Send(e, name, hash, data).queueing == Push(e, name, hash, data).queueing == e.queueing
  {
    hide Register, SendById, Announce;
    var f := EnsureLocal(e, name, hash);
    if name in f.local.byName {
      SendByIdGoesOn(f, f.local.byName[name].id, data);
    }
  }

  /** While a side is paused, nothing comes in and nothing goes out on its channel. */
  lemma PausedHoldsBack(l: Link, step: Step, s: Side)
    requires Allowed(l, step) && l.Get(s).queueing && step != ResumeStep(s)
    ensures var e, f := l.Get(s), Next(l, step).Get(s);
            && f.received == e.received && f.calls == e.calls
            && f.outbox == if step == DeliverStep(Other(s)) then e.outbox[1..] else e.outbox
  {
    hide Receive, ReceiveAll, EnsureLocal, AddHandler, Send, SendById, Push, SendCompound, Resume;
    if step.s == s {
      var e := l.Get(s);
      match step
      case RegisterStep(_, name, hash) => QueuedRegistering(e, name, hash);
      case AddHandlerStep(_, name, hash) => QueuedRegistering(e, name, hash);
      case SendStep(_, name, hash, data) => QueuedSending(e, name, hash, data);
      case SendByIdStep(_, id, data) => QueuedById(e, id, data);
      case PushStep(_, name, hash, data) => QueuedSending(e, name, hash, data);
      case SendCompoundStep(_) => QueuedById(e, 0, []);
      case _ =>
    }
  }

  lemma QueuedRegistering(e: Endpoint, name: string, hash: nat)
    ensures var f := EnsureLocal(e, name, hash); f == e.(local := f.local)
    ensures var f := AddHandler(e, name, hash); f.received == e.received && f.calls == e.calls && f.outbox == e.outbox
  {
    hide Register;
  }

  lemma QueuedById(e: Endpoint, id: nat, data: Data)
    requires e.queueing
    ensures var f := SendById(e, id, data); f.received == e.received && f.calls == e.calls && f.outbox == e.outbox
    ensures var f := Announce(e, id);
            f.received == e.received && f.calls == e.calls && f.outbox == e.outbox && f.queueing
    ensures var f := SendCompound(e); f.received == e.received && f.calls == e.calls && f.outbox == e.outbox
  {
  }

  lemma QueuedSending(e: Endpoint, name: string, hash: nat, data: Data)
    requires e.queueing
    ensures var f := Send(e, name, hash, data); f.received == e.received && f.calls == e.calls && f.outbox == e.outbox
    ensures var f := Push(e, name, hash, data); f.received == e.received && f.calls == e.calls && f.outbox == e.outbox
  {
    hide EnsureLocal, SendById, Announce;
    QueuedRegistering(e, name, hash);
    var f := EnsureLocal(e, name, hash);
    if name in f.local.byName {
      QueuedById(f, f.local.byName[name].id, data);
    }
  }

  /** In every run a side is paused exactly from each request to pause to the next one to go on. */
  lemma {:induction false} PausedAsAsked(states: seq<Link>, steps: seq<Step>, k: nat, s: Side)
    requires IsRun(states, steps) && k < |states|
    ensures states[k].Get(s).queueing == Paused(steps[..k], s)
  {
    hide Next, Initial, Allowed, Safe;
    if k == 0 {
      StartIsEmpty(states, steps, s);
    } else {
      PausedAsAsked(states, steps, k - 1, s);
      RunsAreSafe(states, steps, k - 1);
      StepPauses(states[k - 1], steps[k - 1], s);
      assert steps[..k][..k - 1] == steps[..k - 1];
    }
  }

  // ----- everything arrives

  lemma DeliveryDrains(l: Link, s: Side)
    requires Safe(l.a, l.b) && Allowed(l, DeliverStep(s)) && !l.Get(s).queueing && !l.Get(Other(s)).queueing
    ensures var now := Next(l, DeliverStep(s));
            && !now.Get(s).queueing && !now.Get(Other(s)).queueing
            && now.Get(Other(s)).outbox == l.Get(Other(s)).outbox[1..]
            && now.Get(Other(s)).sent == l.Get(Other(s)).sent
  {
    hide Safe, Arrive;
    StepPauses(l, DeliverStep(s), s);
    StepPauses(l, DeliverStep(s), Other(s));
  }

  /**
    If neither side is paused and the channel to s is emptied, s has received everything that the other side's user has
    sent.
   */
  lemma EverythingArrives(states: seq<Link>, steps: seq<Step>, k: nat, n: nat, s: Side)
    requires IsRun(states, steps) && k + n <= |steps| && n == |states[k].Get(Other(s)).outbox|
    requires !Paused(steps[..k], s) && !Paused(steps[..k], Other(s))
    requires forall i :: k <= i < k + n ==> steps[i] == DeliverStep(s)
    ensures states[k + n].Get(s).received == HasSaid(states, steps, k, Other(s)).sent
  {
    hide Next, Initial, Allowed, Safe, HasSaid;
    PausedAsAsked(states, steps, k, s);
    PausedAsAsked(states, steps, k, Other(s));
    SentIsSaid(states, steps, k, Other(s));
    Drained(states, steps, k, n, s);
    RunsAreSafe(states, steps, k + n);
    SafeParts(states[k + n], s);
    SafeParts(states[k + n], Other(s));
    NothingIsLost(states, steps, k + n, Other(s));
  }

  lemma {:induction false} Drained(states: seq<Link>, steps: seq<Step>, k: nat, n: nat, s: Side)
    requires IsRun(states, steps) && k + n <= |steps| && n <= |states[k].Get(Other(s)).outbox|
    requires !states[k].Get(s).queueing && !states[k].Get(Other(s)).queueing
    requires forall i :: k <= i < k + n ==> steps[i] == DeliverStep(s)
    ensures var now := states[k + n];
            && !now.Get(s).queueing && !now.Get(Other(s)).queueing
            && now.Get(Other(s)).outbox == states[k].Get(Other(s)).outbox[n..]
            && now.Get(Other(s)).sent == states[k].Get(Other(s)).sent
  {
    hide Next, Initial, Safe;
    if n == 0 {
    } else {
      Drained(states, steps, k, n - 1, s);
      RunsAreSafe(states, steps, k + n - 1);
      DeliveryDrains(states[k + n - 1], s);
    }
  }

  // ----- types that were named are registered

  /** The name a step is about. */
  function NameIn(step: Step): set<string> {
    match step
    case RegisterStep(_, name, _) => {name}
    case AddHandlerStep(_, name, _) => {name}
    case SendStep(_, name, _, _) => {name}
    case PushStep(_, name, _, _) => {name}
    case _ => {}
  }

  lemma StepRegisters(l: Link, step: Step)
    requires Allowed(l, step) && LocalOk(l.Get(step.s))
    ensures NameIn(step) <= Next(l, step).Get(step.s).local.byName.Keys
  {
    hide LocalOk, EnsureLocal, HandlersFor;
    var e := l.Get(step.s);
    if step.RegisterStep? || step.AddHandlerStep? || step.SendStep? || step.PushStep? {
      EnsureLocalIsSilent(e, step.name, step.hash);
    }
  }

  /** Whatever name a user has used is registered from then on. */
  lemma {:induction false} NamesAreRegistered(states: seq<Link>, steps: seq<Step>, j: nat, k: nat)
    requires IsRun(states, steps) && j < k < |states|
    ensures NameIn(steps[j]) <= states[k].Get(steps[j].s).local.byName.Keys
  {
    hide Next, Initial, Listens, Safe, LocalOk, CallsFor;
    var s := steps[j].s;
    RunsAreSafe(states, steps, k - 1);
    SafeParts(states[k - 1], s);
    if k == j + 1 {
      StepRegisters(states[j], steps[j]);
    } else {
      NamesAreRegistered(states, steps, j, k - 1);
      CallsAreDue(states, steps, k - 1, s);
      StepAnswers(states[k - 1], steps[k - 1], steps[..k - 1], s);
    }
  }

  // ----- what cannot be delivered

  /** The parts whose type the other side has not announced. */
  function Strangers(m: Registry, parts: seq<Part>): nat {
    if parts == [] then 0
    else Strangers(m, parts[..|parts| - 1]) + if parts[|parts| - 1].id in m.byId then 0 else 1
  }

  /** Every part is delivered or counted, and nothing else is. */
  lemma {:induction false} StrangersAreCounted(e: Endpoint, parts: seq<Part>)
    ensures var r, n := ReceiveParts(e, parts), Strangers(e.remote, parts);
            && r.unregistered == e.unregistered + n
            && |r.received| + n == |e.received| + |parts|
            && r.remote == e.remote
    decreases |parts|
  {
    if parts == [] {
    } else {
      var last := parts[|parts| - 1];
      StrangersAreCounted(ReceiveData(e, last.id, last.data), parts[..|parts| - 1]);
    }
  }

  /** A message that comes in under an id that was never announced is counted, and does nothing else. */
  lemma StrangerIsCounted(e: Endpoint, w: Wire)
    requires w.id !in e.remote.byId
    ensures Receive(e, w) == e.(unregistered := e.unregistered + 1)
  {
  }
}
