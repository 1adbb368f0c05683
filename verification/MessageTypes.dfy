/**
  Message type registries: names and numeric ids of message types, and the core types that every instance
  registers first. Ids are 16 bits wide and handed out by a counter that wraps around.
 */
module MessageTypes {
  import opened Wrappers

  const ID_LIMIT := 0x1_0000

  datatype MessageType = MessageType(name: string, hash: nat, id: nat, isCore: bool)

  datatype Error = NameTaken | CoreTypeTooLate

  /** `byId` holds the name under which the type that the source points to is stored. */
  datatype Registry = Registry(byName: map<string, MessageType>, byId: map<nat, string>, nextId: nat, numCore: nat)

  const EMPTY := Registry(map[], map[], 0, 0)

  const MSG_SYNC_MTR := "ve.sync_mtr"
  const MSG_COMPOUND := "ve.compound"

  const NUM_CORE := 9

  /** The core types in the order in which every instance registers them. */
  function CoreNames(): (names: seq<string>)
    ensures |names| == NUM_CORE && names[0] == MSG_SYNC_MTR && names[2] == MSG_COMPOUND
    ensures forall i, j :: 0 <= i < j < |names| ==> names[i] != names[j]
  {
    var names := [
      MSG_SYNC_MTR, "ve.ignore_this", MSG_COMPOUND, "ve.ecs.add_entity", "ve.ecs.del_entity",
      "ve.ecs.set_component", "ve.ecs.del_component", "ve.ecs.undo_set_component", "ve.ecs.partial_sync"];
    assert forall i :: 0 <= i < 9 ==> |names[i]| == [11, 14, 11, 17, 17, 20, 20, 25, 19][i];
    assert names[0][3] == 's' && names[2][3] == 'c';
    assert names[3][7] == 'a' && names[4][7] == 'd';
    assert names[5][7] == 's' && names[6][7] == 'd';
    names
  }

  /**
    What registration under a given id leaves behind, whether it throws or not. An id that is already taken keeps its
    old meaning; a core type that comes too late is in both maps by the time the error is noticed.
   */
  function AttemptUnder(m: Registry, name: string, hash: nat, id: nat, isCore: bool): Registry {
    if name in m.byName then m
    else m.(
      byName := m.byName[name := MessageType(name, hash, id, isCore)],
      byId := if id in m.byId then m.byId else m.byId[id := name],
      numCore := if isCore && m.numCore == id then m.numCore + 1 else m.numCore)
  }

  function RegisterUnder(m: Registry, name: string, hash: nat, id: nat, isCore: bool): Result<Registry, Error> {
    if name in m.byName then Failure(NameTaken)
    else if isCore && m.numCore != id then Failure(CoreTypeTooLate)
    else Success(AttemptUnder(m, name, hash, id, isCore))
  }

  /** Under the next free id, which is used up in any case. */
  function Attempt(m: Registry, name: string, hash: nat, isCore: bool): Registry {
    AttemptUnder(m.(nextId := (m.nextId + 1) % ID_LIMIT), name, hash, m.nextId, isCore)
  }

  function Register(m: Registry, name: string, hash: nat, isCore: bool): Result<Registry, Error> {
    RegisterUnder(m.(nextId := (m.nextId + 1) % ID_LIMIT), name, hash, m.nextId, isCore)
  }

  /** Names and ids are in one-to-one correspondence, and the counter is above all ids. */
  ghost predicate Consistent(m: Registry) {
    && (forall n :: n in m.byName ==> m.byName[n].name == n && m.byName[n].id in m.byId && m.byId[m.byName[n].id] == n)
    && (forall i :: i in m.byId ==> i < m.nextId && m.byId[i] in m.byName && m.byName[m.byId[i]].id == i)
  }

  /** The ids below NUM_CORE are exactly the core types, in the same order for everybody. */
  ghost predicate CoreFirst(m: Registry) {
    && NUM_CORE <= m.nextId
    && (forall i :: 0 <= i < NUM_CORE ==> i in m.byId && m.byId[i] == CoreNames()[i])
    && (forall n :: n in m.byName ==> (m.byName[n].isCore <==> m.byName[n].id < NUM_CORE))
  }

  ghost predicate HasRoom(m: Registry) {
    m.nextId + 1 < ID_LIMIT
  }

  lemma RegisterKeeps(m: Registry, name: string, hash: nat)
    requires Consistent(m) && CoreFirst(m) && HasRoom(m) && name !in m.byName
    ensures var r := Register(m, name, hash, false);
            && r.Success? && Consistent(r.value) && CoreFirst(r.value) && Extends(m, r.value)
            && r.value.byName.Keys == m.byName.Keys + {name}
            && r.value.byName[name] == MessageType(name, hash, m.nextId, false)
  {
    hide CoreNames;
  }

  /** Types are only ever added. */
  ghost predicate Extends(m: Registry, r: Registry) {
    && (forall n :: n in m.byName ==> n in r.byName && r.byName[n] == m.byName[n])
    && (forall i :: i in m.byId ==> i in r.byId && r.byId[i] == m.byId[i])
  }

  /** The core ids up to k are in use, one for each name. */
  ghost predicate DenseCore(m: Registry, k: nat) {
    && m.nextId == m.numCore == k
    && (forall i: nat :: i in m.byId <==> i < k)
    && (forall i :: i in m.byId ==> m.byId[i] in m.byName)
    && (forall n :: n in m.byName ==> m.byName[n].name == n && m.byName[n].isCore)
    && (forall n :: n in m.byName ==> m.byName[n].id in m.byId && m.byId[m.byName[n].id] == n)
  }

  /** Exactly the first k core types are registered, each under its position. */
  ghost predicate HoldsCore(m: Registry, k: nat)
    requires k <= NUM_CORE
  {
    DenseCore(m, k) && forall i: nat :: i < k ==> m.byId[i] == CoreNames()[i]
  }

  /** The registry after the first k core types have been registered. */
  function CorePrefix(k: nat): (m: Registry)
    requires k <= NUM_CORE
    ensures HoldsCore(m, k)
  {
    hide CoreNames, HoldsCore;
    if k == 0 then CoreNone(); EMPTY
    else
      CoreStep(CorePrefix(k - 1), k - 1);
      Register(CorePrefix(k - 1), CoreNames()[k - 1], k - 1, true).value
  }

  lemma CoreNone()
    ensures HoldsCore(EMPTY, 0)
  {}

  lemma DenseStep(m: Registry, k: nat, name: string)
    requires k < NUM_CORE && DenseCore(m, k) && name !in m.byName
    ensures var r := Register(m, name, k, true);
            r.Success? && DenseCore(r.value, k + 1) && r.value.byId == m.byId[k := name]
  {}

  lemma CoreStep(m: Registry, k: nat)
    requires k < NUM_CORE && HoldsCore(m, k)
    ensures var r := Register(m, CoreNames()[k], k, true); r.Success? && HoldsCore(r.value, k + 1)
  {
    hide CoreNames, Register;
    DenseStep(m, k, CoreNames()[k]);
  }

  lemma CoreRegistryIsConsistent()
    ensures Consistent(CorePrefix(NUM_CORE)) && CoreFirst(CorePrefix(NUM_CORE))
  {
    hide CoreNames, CorePrefix;
    var m := CorePrefix(NUM_CORE);
    forall i | i in m.byId ensures m.byName[m.byId[i]].id == i {
      assert m.byId[i] in m.byName;
    }
  }

  /** The registry after some attempts, of which any may have failed, to register further types. */
  function AfterAttempts(m: Registry, types: seq<(string, nat)>): Registry {
    if types == [] then m
    else
      var (name, hash) := types[|types| - 1];
      Attempt(AfterAttempts(m, types[..|types| - 1]), name, hash, false)
  }

  lemma AttemptKeeps(m: Registry, name: string, hash: nat)
    requires Consistent(m) && CoreFirst(m) && HasRoom(m)
    ensures var r := Attempt(m, name, hash, false);
            && Consistent(r) && CoreFirst(r) && Extends(m, r) && r.nextId == m.nextId + 1
            && r.byName.Keys == m.byName.Keys + {name}
            && (name !in m.byName ==> r.byName[name] == MessageType(name, hash, m.nextId, false))
  {
    hide CoreNames, CoreFirst, Consistent, Extends;
    if name in m.byName {
      CountingKeeps(m);
    } else {
      RegisterKeeps(m, name, hash);
    }
  }

  lemma CountingKeeps(m: Registry)
    requires Consistent(m) && CoreFirst(m)
    ensures var r := m.(nextId := m.nextId + 1); Consistent(r) && CoreFirst(r) && Extends(m, r)
  {
    hide CoreNames;
  }

  /** Every registry that starts with the core types keeps names and ids one to one, and the core ids as they are. */
  lemma {:induction false} RegistriesStayConsistent(types: seq<(string, nat)>)
    requires NUM_CORE + |types| < ID_LIMIT
    ensures var m := AfterAttempts(CorePrefix(NUM_CORE), types);
            Consistent(m) && CoreFirst(m) && Extends(CorePrefix(NUM_CORE), m) && m.nextId == NUM_CORE + |types|
  {
    hide CorePrefix, CoreFirst, Consistent, Attempt;
    CoreRegistryIsConsistent();
    if types == [] {
    } else {
      var init, last := types[..|types| - 1], types[|types| - 1];
      RegistriesStayConsistent(init);
      AttemptKeeps(AfterAttempts(CorePrefix(NUM_CORE), init), last.0, last.1);
    }
  }

  /** The first attempt to register that name, or the number of attempts. */
  function FirstAt(types: seq<(string, nat)>, name: string): (k: nat)
    ensures k <= |types| && (k < |types| ==> types[k].0 == name) && forall j :: 0 <= j < k ==> types[j].0 != name
  {
    if types == [] then 0
    else
      var k := FirstAt(types[..|types| - 1], name);
      if k < |types| - 1 || types[|types| - 1].0 == name then k else |types|
  }

  /** Which names a registry gets, and what it knows of them: the first attempt counts, and all take up an id. */
  lemma {:induction false} TypesAreNumbered(base: Registry, types: seq<(string, nat)>, name: string)
    requires Consistent(base) && CoreFirst(base) && base.nextId + |types| < ID_LIMIT
    ensures var m := AfterAttempts(base, types);
            Consistent(m) && CoreFirst(m) && m.nextId == base.nextId + |types|
    ensures var m, k := AfterAttempts(base, types), FirstAt(types, name);
            if name in base.byName then name in m.byName && m.byName[name] == base.byName[name]
            else if k == |types| then name !in m.byName
            else name in m.byName && m.byName[name] == MessageType(name, types[k].1, base.nextId + k, false)
  {
    hide CoreFirst, Consistent, Attempt;
    if types == [] {
    } else {
      var init, last := types[..|types| - 1], types[|types| - 1];
      TypesAreNumbered(base, init, name);
      AttemptKeeps(AfterAttempts(base, init), last.0, last.1);
      AttemptLeaves(AfterAttempts(base, init), last.0, last.1, name);
    }
  }

  lemma {:induction false} CoreCountStays(base: Registry, types: seq<(string, nat)>)
    requires base.nextId + |types| < ID_LIMIT
    ensures var m := AfterAttempts(base, types); m.numCore == base.numCore && m.nextId == base.nextId + |types|
  {
    if types == [] {
    } else {
      CoreCountStays(base, types[..|types| - 1]);
    }
  }

  /**
    After the core types, a further one is accepted if and only if its name is new and nothing else has been registered
    in between; one that comes too late is entered all the same.
   */
  lemma CoreTypeIsAcceptedIff(types: seq<(string, nat)>, name: string, hash: nat)
    requires NUM_CORE + |types| + 1 < ID_LIMIT
    ensures var m := AfterAttempts(CorePrefix(NUM_CORE), types);
            && (Register(m, name, hash, true).Success? <==> name !in m.byName && types == [])
            && (name !in m.byName && types != [] ==>
                  && Register(m, name, hash, true) == Failure(CoreTypeTooLate)
                  && Attempt(m, name, hash, true).byName
                     == m.byName[name := MessageType(name, hash, NUM_CORE + |types|, true)])
  {
    hide CoreNames, CorePrefix, AfterAttempts, HoldsCore;
    CoreCounted();
    CoreCountStays(CorePrefix(NUM_CORE), types);
  }

  lemma CoreCounted()
    ensures CorePrefix(NUM_CORE).nextId == CorePrefix(NUM_CORE).numCore == NUM_CORE
  {
    hide CoreNames, CorePrefix;
  }

  lemma AttemptLeaves(m: Registry, name: string, hash: nat, other: string)
    ensures var r := Attempt(m, name, hash, false);
            (other in m.byName ==> other in r.byName && r.byName[other] == m.byName[other])
            && (other != name && other !in m.byName ==> other !in r.byName)
  {
  }

  lemma CoreIds(i: nat)
    requires i < NUM_CORE
    ensures var m := CorePrefix(NUM_CORE); CoreNames()[i] in m.byName && m.byName[CoreNames()[i]].id == i
  {
    hide CoreNames, CorePrefix;
    var m := CorePrefix(NUM_CORE);
    assert m.byId[i] == CoreNames()[i];
  }

  /** `get_core_mtr_id`: the counting loop finds the id under which the name is registered everywhere. */
  method GetCoreMtrId(name: string) returns (result: nat)
    requires name in CoreNames()
    ensures result < NUM_CORE
    ensures name in CorePrefix(NUM_CORE).byName && CorePrefix(NUM_CORE).byName[name].id == result
  {
    hide CoreNames, CorePrefix, HoldsCore;
    result := 0;
    while CoreNames()[result] != name
      invariant result < NUM_CORE
      invariant name !in CoreNames()[..result]
      decreases NUM_CORE - result
    {
      assert CoreNames()[..result + 1] == CoreNames()[..result] + [CoreNames()[result]];
      result := result + 1;
    }
    CoreIds(result);
  }

  class MessageTypeRegistry {
    var byName: map<string, MessageType>
    var byId: map<nat, string>
    var nextId: nat
    var numCore: nat

    ghost function View(): Registry
      reads this
    {
      Registry(byName, byId, nextId, numCore)
    }

    constructor ()
      ensures View() == EMPTY
    {
      byName, byId, nextId, numCore := map[], map[], 0, 0;
    }

    method RegisterType(name: string, hash: nat, isCore: bool) returns (error: Option<Error>)
      modifies this
      ensures View() == Attempt(old(View()), name, hash, isCore)
      ensures match Register(old(View()), name, hash, isCore)
              case Success(m) => error == None && View() == m
              case Failure(e) => error == Some(e)
    {
      var id := nextId;
      nextId := (nextId + 1) % ID_LIMIT;
      error := RegisterTypeUnder(name, hash, id, isCore);
    }

    method RegisterTypeUnder(name: string, hash: nat, id: nat, isCore: bool) returns (error: Option<Error>)
      modifies this
      ensures View() == AttemptUnder(old(View()), name, hash, id, isCore)
      ensures match RegisterUnder(old(View()), name, hash, id, isCore)
              case Success(m) => error == None && View() == m
              case Failure(e) => error == Some(e)
    {
      if name in byName {
        return Some(NameTaken);
      }
      byName := byName[name := MessageType(name, hash, id, isCore)];
      if id !in byId {
        byId := byId[id := name];
      }
      if isCore {
        if numCore != id {
          return Some(CoreTypeTooLate);
        }
        numCore := numCore + 1;
      }
      error := None;
    }

    method RegisterCoreMessages()
      requires View() == EMPTY
      modifies this
      ensures View() == CorePrefix(NUM_CORE)
    {
      hide CoreNames;
      var i := 0;
      while i < NUM_CORE
        invariant i <= NUM_CORE && View() == CorePrefix(i)
      {
        CoreStep(View(), i);
        var error := RegisterType(CoreNames()[i], i, true);
        i := i + 1;
      }
    }
  }
}
