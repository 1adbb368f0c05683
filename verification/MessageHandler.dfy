/**
  The message handler as an object. The local registry is an object shared with the other handlers of the instance;
  every method is proved to change the handler as MessageLink describes.
 */
module MessageHandler {
  import opened MessageTypes
  import opened MessageLink
  import Safety = MessageSafety

  class MessageHandler {
    const localTypes: MessageTypeRegistry
    const remoteTypes: MessageTypeRegistry
    var published: set<nat>
    var handlers: map<nat, seq<string>>
    var useQueue: bool
    var readQueue: seq<Wire>
    var writeQueue: seq<Wire>
    var outbox: seq<Wire>
    var compound: seq<Part>
    var unregistered: nat
    ghost var sent: seq<Event>
    ghost var received: seq<Event>
    ghost var calls: seq<Call>

    ghost function View(): Endpoint
      reads this, localTypes, remoteTypes
    {
      Endpoint(localTypes.View(), remoteTypes.View(), published, handlers, useQueue, readQueue, writeQueue, outbox,
               compound, sent, received, calls, unregistered)
    }

    ghost predicate Valid()
      reads this, localTypes, remoteTypes
    {
      localTypes != remoteTypes && Safety.LocalOk(View())
    }

    constructor (instanceTypes: MessageTypeRegistry)
      requires Consistent(instanceTypes.View()) && CoreFirst(instanceTypes.View())
      ensures Valid() && localTypes == instanceTypes && fresh(remoteTypes) && Initial(View())
    {
      hide Safety.LocalOk, CoreFirst, Consistent, CorePrefix;
      localTypes := instanceTypes;
      remoteTypes := new MessageTypeRegistry();
      published, handlers, useQueue := {}, map[], false;
      readQueue, writeQueue, outbox, compound, unregistered := [], [], [], [], 0;
      sent, received, calls := [], [], [];
      new;
      remoteTypes.RegisterCoreMessages();
      Safety.InitialLocalOk(View());
    }

    method Emit(w: Wire)
      requires Valid()
      modifies this
      ensures Valid()
      ensures View() == MessageLink.Emit(old(View()), w)
    {
      hide Safety.LocalOk;
      Safety.SameLocalOk(View(), MessageLink.Emit(View(), w));
      if useQueue {
        writeQueue := writeQueue + [w];
      } else {
        outbox := outbox + [w];
      }
    }

    /** Registers the type if its name is new; that cannot fail, since only a name that is taken is refused. */
    method RegisterMessageTypeLocal(name: string, hash: nat)
      requires Valid()
      modifies localTypes
      ensures HasRoom(old(localTypes.View())) ==> Valid()
      ensures name in old(localTypes.byName) || Register(old(localTypes.View()), name, hash, false).Success?
      ensures View() == EnsureLocal(old(View()), name, hash)
    {
      hide Safety.LocalOk;
      if HasRoom(localTypes.View()) {
        Safety.EnsureLocalOk(View(), name, hash);
      }
      if name !in localTypes.byName {
        var error := localTypes.RegisterType(name, hash, false);
      }
    }

    method RegisterMessageTypeRemote(id: nat)
      requires id in localTypes.byId && localTypes.byId[id] in localTypes.byName
      requires Valid()
      modifies this
      ensures Valid()
      ensures View() == Announce(old(View()), id)
    {
      hide Safety.LocalOk;
      Safety.SendByIdLocalOk(View(), id, []);
      var t := localTypes.byName[localTypes.byId[id]];
      if t.id !in published {
        if t.isCore {
          return;
        }
        Emit(Wire(SYNC_ID, SyncBody(t.name, t.hash, t.id)));
        published := published + {t.id};
      }
    }

    method SendMessageById(id: nat, data: Data) returns (ok: bool)
      requires Valid()
      modifies this
      ensures Valid()
      ensures ok <==> id in localTypes.byId
      ensures View() == SendById(old(View()), id, data)
    {
      hide Safety.LocalOk;
      Safety.SendByIdLocalOk(View(), id, data);
      if id !in localTypes.byId {
        return false;
      }
      Safety.LocalTypes(View(), id);
      ghost var event := Event(localTypes.byId[id], data);
      RegisterMessageTypeRemote(id);
      Emit(Wire(id, DataBody(data)));
      sent := sent + [event];
      ok := true;
    }

    method SendMessage(name: string, hash: nat, data: Data)
      requires Valid() && HasRoom(localTypes.View())
      modifies this, localTypes
      ensures Valid()
      ensures View() == Send(old(View()), name, hash, data)
    {
      hide Safety.LocalOk;
      Safety.SendLocalOk(View(), name, hash, data);
      RegisterForSending(name, hash);
      var ok := SendMessageById(localTypes.byName[name].id, data);
    }

    method RegisterForSending(name: string, hash: nat)
      requires Valid() && HasRoom(localTypes.View())
      modifies localTypes
      ensures Valid()
      ensures name in localTypes.byName
      ensures var id := localTypes.byName[name].id; id in localTypes.byId && localTypes.byId[id] == name
      ensures View() == EnsureLocal(old(View()), name, hash)
    {
      hide Safety.LocalOk;
      Safety.EnsureLocalOk(View(), name, hash);
      RegisterMessageTypeLocal(name, hash);
      Safety.NameHasId(View(), name);
    }

    method PushMessage(name: string, hash: nat, data: Data)
      requires Valid() && HasRoom(localTypes.View())
      modifies this, localTypes
      ensures Valid()
      ensures View() == Push(old(View()), name, hash, data)
    {
      hide Safety.LocalOk;
      Safety.SendLocalOk(View(), name, hash, data);
      RegisterForSending(name, hash);
      var id := localTypes.byName[name].id;
      RegisterMessageTypeRemote(id);
      compound := compound + [Part(id, data)];
    }

    method SendCompoundMessage()
      requires Valid()
      modifies this
      ensures Valid()
      ensures View() == SendCompound(old(View()))
    {
      hide Safety.LocalOk;
      Safety.SameLocalOk(View(), SendCompound(View()));
      Emit(Wire(COMPOUND_ID, CompoundBody(compound)));
      sent := sent + Unpack(localTypes.View(), compound);
      compound := [];
    }

    method CallHandlers(event: Event)
      requires Valid()
      modifies this
      ensures Valid()
      ensures View() == Dispatch(old(View()), event)
    {
      hide Safety.LocalOk;
      Safety.DispatchKeeps(View(), event);
      received := received + [event];
      if event.name in localTypes.byName {
        var translated := localTypes.byName[event.name].id;
        if translated in handlers {
          calls := calls + CallAll(handlers[translated], event);
        }
      }
    }

    method OnDataReceived(id: nat, data: Data)
      requires Valid()
      modifies this
      ensures Valid()
      ensures View() == ReceiveData(old(View()), id, data)
    {
      hide Safety.LocalOk;
      Safety.ReceiveDataLocalOk(View(), id, data);
      if id !in remoteTypes.byId {
        unregistered := unregistered + 1;
      } else {
        CallHandlers(Event(remoteTypes.byId[id], data));
      }
    }

    /** The handler of compound messages: takes the parts off the end one by one. */
    method OnCompoundReceived(parts: seq<Part>)
      requires Valid()
      modifies this
      ensures Valid()
      ensures View() == ReceiveParts(old(View()), parts)
    {
      hide Safety.LocalOk;
      var rest := parts;
      while rest != []
        invariant Valid() && ReceiveParts(View(), rest) == ReceiveParts(old(View()), parts)
        decreases |rest|
      {
        OnDataReceived(rest[|rest| - 1].id, rest[|rest| - 1].data);
        rest := rest[..|rest| - 1];
      }
    }

    /** The handler of announcements: an already known name is left as it is. */
    method OnSyncReceived(name: string, hash: nat, id: nat)
      requires Valid()
      modifies remoteTypes
      ensures Valid()
      ensures View() == old(View()).(remote := Learn(old(remoteTypes.View()), name, hash, id))
    {
      hide Safety.LocalOk;
      Safety.SameLocalOk(View(), View().(remote := Learn(remoteTypes.View(), name, hash, id)));
      if name !in remoteTypes.byName {
        var error := remoteTypes.RegisterTypeUnder(name, hash, id, false);
      }
    }

    method HandleMessage(w: Wire)
      requires Valid()
      modifies this, remoteTypes
      ensures Valid()
      ensures View() == Receive(old(View()), w)
    {
      hide Safety.LocalOk;
      Safety.ReceiveLocalOk(View(), w);
      if w.id !in remoteTypes.byId {
        unregistered := unregistered + 1;
        return;
      }
      match w.body
      case DataBody(data) => OnDataReceived(w.id, data);
      case CompoundBody(parts) =>
        if remoteTypes.byId[w.id] == MSG_COMPOUND {
          OnCompoundReceived(parts);
        }
      case SyncBody(name, hash, id) =>
        if remoteTypes.byId[w.id] == MSG_SYNC_MTR {
          OnSyncReceived(name, hash, id);
        }
    }

    method OnMessageReceived(w: Wire)
      requires Valid()
      modifies this, remoteTypes
      ensures Valid()
      ensures View() == Arrive(old(View()), w)
    {
      hide Safety.LocalOk;
      Safety.ReceiveLocalOk(View(), w);
      if useQueue {
        readQueue := readQueue + [w];
      } else {
        HandleMessage(w);
      }
    }

    method ToggleQueue(enabled: bool)
      requires Valid()
      modifies this, remoteTypes
      ensures Valid()
      ensures View() == if enabled then old(View()).(queueing := true) else Resume(old(View()))
    {
      hide Safety.LocalOk;
      Safety.SameLocalOk(View(), View().(queueing := enabled));
      Safety.ResumeLocalOk(View());
      useQueue := enabled;
      if !enabled {
        ReplayReads();
        readQueue := [];
        outbox := outbox + writeQueue;
        writeQueue := [];
      }
    }

    method ReplayReads()
      requires Valid()
      modifies this, remoteTypes
      ensures Valid()
      ensures View() == ReceiveAll(old(View()), old(readQueue))
    {
      hide Safety.LocalOk;
      var messages, i := readQueue, 0;
      ghost var result := ReceiveAll(View(), messages);
      while i < |messages|
        invariant i <= |messages| && Valid()
        invariant ReceiveAll(View(), messages[i..]) == result
      {
        assert messages[i..][1..] == messages[i + 1..];
        HandleMessage(messages[i]);
        i := i + 1;
      }
    }

    method AddMessageHandler(name: string, hash: nat)
      requires Valid() && HasRoom(localTypes.View())
      modifies this, localTypes
      ensures Valid()
      ensures View() == AddHandler(old(View()), name, hash)
    {
      hide Safety.LocalOk;
      Safety.AddHandlerLocalOk(View(), name, hash);
      RegisterForSending(name, hash);
      var id := localTypes.byName[name].id;
      handlers := handlers[id := (if id in handlers then handlers[id] else []) + [name]];
    }
  }
}
