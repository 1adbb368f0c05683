# VoxelEngine in Dafny

This project models the stateful parts of VoxelEngine and proves what they promise. Each component has a value-level
model with its theorems, and an object or loop in the source's own form that is proved to compute exactly that model.
`dafny verify dfyconfig.toml` checks everything.

| component | files |
|---|---|
| plugin registry: recursive loading and unloading over any dependency graph | `PluginModel`, `PluginSafety`, `PluginBooks`, `PluginErrors`, `PluginLiveness`, `PluginEffects`, `PluginRegistry` |
| message types: registries, announcing and translating numeric ids between two handlers | `MessageTypes`, `MessageLink`, `MessageSafety`, `MessageEffects`, `MessageHandler` |
| bytes: lengths, the serializer, queued and compound frames | `ByteStack`, `Serializer`, `Framing` |
| voxels: coordinates, the chunk mesher, meshes as a cache over the space, the chunk's write lock | `VoxelGeometry`, `ChunkMesher`, `VoxelSpace`, `SpaceEffects`, `VoxelChunk` |
| event dispatchers, immediate and delayed | `HandlerLists`, `HandlerActions`, `SimpleDispatch`, `SimpleHistory`, `SimpleEventDispatcher`, `DelayedDispatch`, `DelayedHistory`, `DelayedEventDispatcher` |
| texture atlases: the block allocator, batches, growth | `AtlasModel`, `AtlasPixels`, `TextureAtlases` |
| std140 and std430 layout, against section 7.6.2.2 of the OpenGL 4.6 core specification | `GlslLayout`, `GlslConformance`, `GlslStride`, `GlslMatrices` |
| replication: entity visibility and component values, over any number of connections | `EntityVisibility`, `VisibilitySystem`, `ComponentSync`, `ComponentSafety`, `SyncFailures`, `SyncTimers`, `SystemSynchronizer` |
| the autobinding shader preprocessor | `Autobinding`, `AutobindingPreprocessor` |

What the code decides from outside is a parameter: which plugins were scanned, what a generator or a visibility rule
answers, what a handler does when it is called (a finite script), which time it is, which tile a state belongs to.

## Where the code falls short of its promise

The model follows the code. For each of these a lemma shows the failing case, and where the failure has an exact
condition a lemma states it.

- An entity that is destroyed after the one update that announced it stays with the client for good, because only the
  status VISIBLE is looked for (`EntityVisibility.FreshCasualtyStays`). A client is exact if and only if that never
  happened since it connected (`EntityVisibility.ClientsAfterUpdate`).
- A handler removed from the immediate dispatcher comes back if its add is still waiting for an outer event while its
  own type is no longer being dispatched (`SimpleDispatch.RemovalOvertakesAdd`), and only then
  (`SimpleDispatch.RemoveTakesEffect`). The delayed dispatcher has no such case (`DelayedDispatch.RemoveTakesEffect`).
- A client may never get a value: if an entity appears to one client between two synchronizations, the cache that all
  connections share is refreshed for it, and at the next synchronization nothing seems to have changed
  (`SyncFailures.AppearanceStarvesOther`, and no later tick mends it, `SyncFailures.StaysBehind`). A client that is
  due gets the present value if and only if the entity has just appeared to it, or the value differs from the cache,
  or the client has it already (`ComponentSafety.FollowsIff`); clients that are never skipped follow
  (`ComponentSafety.ClientsFollow`), among them, without rules, tags and removals, those of a server with one
  connection at a time (`ComponentSafety.GentleClientsFollow`).
- A component removed on the server may stay with its clients for good: value, synchronization, removal,
  synchronization is enough (`SyncFailures.RemovalIsUndone`), since the value is sent once more beside the removal and
  the compound is applied from its end. A removal reaches a client if and only if its cache is still there, the client
  is due and the first to be served, and the value had not changed when it was last serialized
  (`ComponentSafety.RemovalArrivesIff`); after that one tick it is forgotten (`ComponentSafety.RemovalIsForgotten`,
  `SyncFailures.StaysForgotten`).
- A client may be told to remove a component that it has not (`SyncFailures.RemovalBreaksClient`); exactly when is
  stated by `ComponentSafety.FailsIff`.
- The preprocessor takes `UBO`, `SSBO` and `CONSTANT` for directives inside longer words too: if a block's instance is
  called `camUBO`, the end of the word becomes a layout where the instance is declared and where it is used
  (`Autobinding.TokenInsideName`, `Autobinding.ShaderWithToken`), and so does a token with nothing but white space
  behind it (`Autobinding.TokenWithoutName`). The directives of a source are whole words, each with a name after white
  space, if and only if a word follows each token that is a word, unless that token ends the source, and no other word
  has a token in it, those names excepted (`Autobinding.DirectivesStandAloneIff`). Without any token before its very
  end a source is left alone (`Autobinding.DirectivesAreTokens`).
- The id of a constant goes by the word after `CONSTANT`, which is its type, so that two constants of one type get the
  same id (`Autobinding.ConstantsOfOneTypeCollide`, `Autobinding.TwoConstants`). Over any stages, two constants get
  the same id if and only if those words are the same (`Autobinding.SameBindingIffSameName`).
- A structure without members has alignment 0 under std430, and writing one empties the buffer
  (`GlslLayout.EmptyStructClearsBuffer`). Writing a value only appends if and only if the layout is std140 or no such
  structure, and nothing made of them alone, is written as part of the value; an array of zero elements writes none of
  its elements (`GlslLayout.AppendsIffSane`). This is what the layout theorems ask for.
- The scalars of a matrix are where the standard puts them if and only if it has three or four rows, and it ends where
  it should if and only if it has four (`GlslMatrices.MatrixConformsIff`). In a structure of a matrix of three rows
  and a scalar of four bytes, the scalar is written into the end of the last column
  (`GlslMatrices.ScalarAfterThreeRows`); in front of anything aligned to eight, and at the end of a structure or
  array, three rows do no harm (`GlslConformance.PushConforms`).
- A load that throws leaves the registry as it was if and only if its own checks refused it
  (`PluginSafety.FailedLoadIsCleanIffRefused`). Otherwise its plugin is left in LOADING, as when a required plugin is
  absent (`PluginSafety.MissingDependencySticks`). An unload that throws leaves its plugin in UNLOADING in the same
  way (`PluginSafety.FailedUnloadIsCleanIffRefused`, `PluginSafety.FixedDependentSticks`). From there, every load of
  the plugin is refused until a call unloads it (`PluginSafety.StuckUntilUnloaded`).
- A core message type that is registered after others is refused, but it is in the registry by then
  (`MessageTypes.CoreTypeIsAcceptedIff`).
- An optional dependency that leads back can keep a plugin from being loaded although all that it requires is there,
  depending on which plugin is loaded first (`PluginLiveness.OptionalCycleBlocks`). Without cycles through optional or
  required dependencies, a load succeeds if and only if everything required is there, in range and loadable
  (`PluginLiveness.LoadsIffSelfContained`).
- A batch that the generative atlas cannot place leaves one more, empty, atlas behind, unless there are already 255
  (`TextureAtlases.BatchFailsOnlyWhenFull`), and so does every further attempt at it
  (`TextureAtlases.FailedBatchesPileUp`); two textures as large as an atlas are such a batch
  (`TextureAtlases.TwoFullTextures`).

The comment in `glsl_layout.hpp` says that objects get no padding at their end; arrays and nested structures do, and
there the code is right.

## Model

| member | source | states |
|---|---|---|
| `PluginModel.Load` | VoxelEngine/dependent/plugin_registry.cpp:64-91 | a load consumes AVAILABLE plugins only, so it ends on every dependency graph, cyclic ones included; the registry stays well formed even when it fails part-way |
| `PluginModel.LoadDependencies` | VoxelEngine/dependent/plugin_registry.cpp:213-266 | the walk over the dependencies ends and stays well formed; nothing becomes AVAILABLE by it |
| `PluginModel.LoadDependency` | VoxelEngine/dependent/plugin_registry.cpp:238-260 | success means the dependency is a known plugin |
| `PluginModel.Unload` | VoxelEngine/dependent/plugin_registry.cpp:127-154 | an unload consumes LOADED plugins only, so it ends on every graph; plugins already UNLOADING keep their state and their list of dependents |
| `PluginModel.UnloadDependents` | VoxelEngine/dependent/plugin_registry.cpp:269-296 | the reverse loop ends, with its plugin still UNLOADING and the lists of other plugins being unloaded untouched |
| `PluginModel.UnloadDependent` | VoxelEngine/dependent/plugin_registry.cpp:281-294 | the index of the reverse loop stays within the list that shrinks under it |
| `PluginModel.SwapErase` | VoxelEngine/utility/algorithm.hpp:11-23 | one element shorter, the last element in the erased place and every other one where it was |
| `PluginModel.VersionsAreOrdered` | VoxelEngine/utility/version.hpp:18 | versions are strictly and totally ordered, by the first of their numbers in which they differ |
| `PluginModel.RangeContains` | VoxelEngine/utility/version.hpp:22-43 | a range contains exactly its bounds and what lies between them, and a bound that is missing excludes nothing |
| `PluginSafety.LoadIsSound` | VoxelEngine/dependent/plugin_registry.cpp:64-91 | from any sound state, whether it throws or not: every LOADED plugin still has its required dependencies in range, in LOADED or UNLOADING, and is listed by them; other plugins only move from AVAILABLE; on success the plugin is LOADED |
| `PluginSafety.LoadDependenciesIsSound` | VoxelEngine/dependent/plugin_registry.cpp:213-266 | on success every required dependency of the plugin is satisfied and linked |
| `PluginSafety.LoadDependencyIsSound` | VoxelEngine/dependent/plugin_registry.cpp:224-260 | success means known, in the required version range and LOADED |
| `PluginSafety.UnloadIsSound` | VoxelEngine/dependent/plugin_registry.cpp:127-154 | from any sound state the invariant holds after an unload that returns or throws; if it returns, the plugin is AVAILABLE and no LOADED plugin requires it |
| `PluginSafety.UnloadDependentsIsSound` | VoxelEngine/dependent/plugin_registry.cpp:269-296 | when the loop ends without error every dependent is AVAILABLE, although the list is swapped and shortened on the way |
| `PluginSafety.RunsAreSound` | VoxelEngine/dependent/plugin_registry.cpp:64-154 | the invariant holds after every sequence of loads and unloads, failing ones included |
| `PluginSafety.UnloadTakesDownUsers` | VoxelEngine/dependent/plugin_registry.cpp:127-154 | after any history, an unload that returns normally leaves no LOADED plugin that requires the plugin |
| `PluginSafety.FailedLoadSticks` | VoxelEngine/dependent/plugin_registry.cpp:74-91 | after any history, a load that passes its checks ends in LOADED or, if it throws, in LOADING, and then the next load of that plugin is refused without a change |
| `PluginSafety.FailedLoadIsCleanIffRefused` | VoxelEngine/dependent/plugin_registry.cpp:64-91 | after any history, a load that throws leaves the registry as it was if and only if its own checks refused it before any dependency was looked at |
| `PluginSafety.MissingDependencySticks` | VoxelEngine/dependent/plugin_registry.cpp:238-246 | the smallest case: a plugin that requires an absent one is left in LOADING by its first load |
| `PluginSafety.FailedUnloadSticks` | VoxelEngine/dependent/plugin_registry.cpp:127-154 | after any history, an unload that passes its checks ends in AVAILABLE or, if it throws, in UNLOADING; it may then be tried again, and a load of the plugin is refused without a change |
| `PluginSafety.FailedUnloadIsCleanIffRefused` | VoxelEngine/dependent/plugin_registry.cpp:127-154 | after any history, an unload of a plugin not yet in UNLOADING that throws leaves the registry as it was if and only if its own checks refused it |
| `PluginSafety.FixedDependentSticks` | VoxelEngine/dependent/plugin_registry.cpp:281-294 | the smallest case: a plugin under one that may not be unloaded is left in UNLOADING, and trying again changes nothing |
| `PluginSafety.StuckUntilUnloaded` | VoxelEngine/dependent/plugin_registry.cpp:64-91 | a plugin left in LOADING or UNLOADING stays there through every sequence of loads and unloads of other plugins, and each load of it is refused without a change, until a call unloads it |
| `PluginSafety.RunsKeepOut` | VoxelEngine/dependent/plugin_registry.cpp:213-266 | a set of plugins that each require another of the set never has one LOADED, in any history |
| `PluginSafety.CyclesAreNeverLoaded` | VoxelEngine/dependent/plugin_registry.cpp:314-319 | no plugin on a cycle of required dependencies is ever LOADED, in any history |
| `PluginBooks.RunsKeepOrder` | VoxelEngine/dependent/plugin_registry.cpp:64-154 | after every history, failed calls included: each plugin is in exactly one of the sets of loaded and unloaded ones, that of its state; whoever is listed as a dependent declares the dependency, in an allowed version, and lists it in turn |
| `PluginBooks.LoadOnlyAppends` | VoxelEngine/dependent/plugin_registry.cpp:213-266 | a load, successful or not, takes nothing from any list of dependents or dependencies, and what it adds stands at the end |
| `PluginErrors.LoadIsRefused` | VoxelEngine/dependent/plugin_registry.cpp:299-365 | the error of a load by the state of its plugin, in the order in which the checks are made; a load that passes them fails only because of something the plugin requires, and the error says whether that is absent, of the wrong version, or failed itself |
| `PluginErrors.UnloadIsRefused` | VoxelEngine/dependent/plugin_registry.cpp:299-365 | the same for an unload; one that passes its checks fails only because of a plugin that uses this one |
| `PluginErrors.ErrorsExplain` | VoxelEngine/dependent/plugin_registry.cpp:213-296 | after every history, an error tells a chain of plugins, each of which requires the next, or declares the one before it, down to one that is itself refused, absent or of the wrong version |
| `PluginLiveness.LoadGoes` | VoxelEngine/dependent/plugin_registry.cpp:64-91 | loading anything below some rank puts no plugin of a self-contained set into transition, and one of the set that is AVAILABLE gets LOADED |
| `PluginLiveness.DependenciesGo` | VoxelEngine/dependent/plugin_registry.cpp:213-266 | so for the walk over the dependencies, in which optional ones may fail on the way |
| `PluginLiveness.LoadsIffSelfContained` | VoxelEngine/dependent/plugin_registry.cpp:64-91 | after any sequence of loads, failed ones included, and without cycles of dependencies: a load leaves its plugin LOADED if and only if the plugin is one of a set of loadable plugins that require only each other in allowed versions |
| `PluginLiveness.OptionalCycleBlocks` | VoxelEngine/dependent/plugin_registry.cpp:243-260 | a plugin that requires one with an optional dependency back on it: loaded first it gets LOADED, loaded second it is refused for a cycle |
| `PluginEffects.LoadTakesDependencies` | VoxelEngine/dependent/plugin_registry.cpp:213-266 | after any loads and without cycles: a load that succeeds has loaded every dependency, required or not, that is one of some loadable plugins that require only each other, and is entered with it as a dependent |
| `PluginEffects.UnloadsIffFree` | VoxelEngine/dependent/plugin_registry.cpp:127-154 | after any history, failed calls included, and without cycles: an unload of a plugin that is not AVAILABLE succeeds if and only if the plugin is one of some that may be unloaded and whose remaining users are all LOADED and among them |
| `PluginRegistry.PluginRegistry.constructor` | VoxelEngine/dependent/plugin_registry.cpp:190-210 | all scanned plugins AVAILABLE, nothing linked |
| `PluginRegistry.PluginRegistry.LoadPlugin` | VoxelEngine/dependent/plugin_registry.cpp:64-91 | the method's error and whole new state are those of Load, including the partial state after an error |
| `PluginRegistry.PluginRegistry.LoadDependenciesOf` | VoxelEngine/dependent/plugin_registry.cpp:213-266 | the loop computes LoadDependencies |
| `PluginRegistry.PluginRegistry.LoadOneDependency` | VoxelEngine/dependent/plugin_registry.cpp:238-260 | the two checks and the nested load compute LoadDependency |
| `PluginRegistry.PluginRegistry.UnloadPlugin` | VoxelEngine/dependent/plugin_registry.cpp:127-154 | the method's error and whole new state are those of Unload |
| `PluginRegistry.PluginRegistry.UnloadDependentsOf` | VoxelEngine/dependent/plugin_registry.cpp:269-296 | the reverse loop over the live list computes UnloadDependents |
| `PluginRegistry.PluginRegistry.UnloadOneDependent` | VoxelEngine/dependent/plugin_registry.cpp:281-294 | one round of the loop: skip, error, or nested unload and erasure |
| `PluginRegistry.PluginRegistry.EraseDependentAt` | VoxelEngine/utility/algorithm.hpp:11-23 | erases by swapping with the last dependent |
| `MessageTypes.RegisterKeeps` | VoxelEngine/clientserver/message_type_registry.hpp:93-119 | registering a new name succeeds, adds just that name with the hash given and the next id, keeps names and ids one to one and changes no earlier entry |
| `MessageTypes.CorePrefix` | VoxelEngine/clientserver/core_messages/core_message_setup.hpp:54-75 | the first k core types get the ids 0 to k - 1, in the order of the list |
| `MessageTypes.CoreRegistryIsConsistent` | VoxelEngine/clientserver/core_messages/core_message_setup.hpp:54-75 | right after the core types were put into it, a registry is consistent |
| `MessageTypes.RegistriesStayConsistent` | VoxelEngine/clientserver/message_type_registry.hpp:41-119 | so it stays through every sequence of registrations, those of taken names included, with every earlier entry kept and one id used up by each |
| `MessageTypes.TypesAreNumbered` | VoxelEngine/clientserver/message_type_registry.hpp:41-119 | after any sequence of registrations: which names are there, and of each the hash and id of the first attempt, the id being the number of attempts before it |
| `MessageTypes.CoreIds` | VoxelEngine/clientserver/core_messages/core_message_setup.hpp:24-34 | the id of a core type is its place in the list, hence the same on both sides |
| `MessageTypes.CoreTypeIsAcceptedIff` | VoxelEngine/clientserver/message_type_registry.hpp:93-119 | after the core types, a further one is accepted if and only if its name is new and nothing else has been registered in between; one that comes too late is entered under its name all the same |
| `MessageTypes.GetCoreMtrId` | VoxelEngine/clientserver/core_messages/core_message_setup.hpp:37-49 | the counting loop finds the id under which the type is registered |
| `MessageTypes.MessageTypeRegistry.RegisterType` | VoxelEngine/clientserver/message_type_registry.hpp:41-44 | takes the next id, and the id is used up even if the name is taken: the state after a failure is stated too |
| `MessageTypes.MessageTypeRegistry.RegisterTypeUnder` | VoxelEngine/clientserver/message_type_registry.hpp:93-119 | refuses a taken name without a change; refuses a core type after others, by when the type has been entered under its name and id |
| `MessageTypes.MessageTypeRegistry.RegisterCoreMessages` | VoxelEngine/clientserver/core_messages/core_message_setup.hpp:62-74 | the loop fills an empty registry with the core types |
| `MessageSafety.RunsAreSafe` | VoxelEngine/clientserver/message_handler.hpp:97-126 | in every state of every run of two handlers over FIFO channels, with paused handlers, compounds and types that other links register in a shared registry: each id on its way is known to the receiver when it arrives, because it is core or its announcement is ahead of it |
| `MessageSafety.DeliveryIsFaithful` | VoxelEngine/clientserver/message_handler.hpp:237-254 | no message is ever unregistered; what was received is a prefix of what was sent, under the sender's names; every call went to a handler added for that very name |
| `MessageSafety.NothingIsLost` | VoxelEngine/clientserver/message_handler.hpp:134-169 | when nothing is queued or on its way, exactly what was sent has been received |
| `MessageSafety.TypesAgree` | VoxelEngine/clientserver/core_messages/msg_sync_mtr.hpp:25-43 | in every state of every run, what a side has learnt about a type is what the other side registered: its name, its hash and its id |
| `MessageEffects.CallsAreDue` | VoxelEngine/clientserver/message_handler.hpp:175-254 | in every run: whenever an event comes in, every handler added for its name before is called with it once, and there are no other calls |
| `MessageEffects.SentIsSaid` | VoxelEngine/clientserver/message_handler.hpp:97-126 | in every run, what counts as sent is what the users sent, message by message: under a name, under an id registered at the time, or in a compound that was sent |
| `MessageEffects.EverythingArrives` | VoxelEngine/clientserver/message_handler.hpp:77-169 | if neither side is paused and a channel is emptied, the receiver has exactly what the sender's user has sent, whatever was paused and resumed before |
| `MessageEffects.PausedHoldsBack` | VoxelEngine/clientserver/message_handler.hpp:77-126 | while a side is paused, nothing comes in, nobody is called and nothing goes out |
| `MessageEffects.PausedAsAsked` | VoxelEngine/clientserver/message_handler.hpp:134-169 | in every run a side is paused from each request to pause to the next request to go on |
| `MessageEffects.NamesAreRegistered` | VoxelEngine/clientserver/messsage_handler.cpp:9-14 | a name that a user has registered, listened to, sent or pushed under is registered ever after |
| `MessageEffects.StrangersAreCounted` | VoxelEngine/clientserver/message_handler.hpp:237-254 | of any parts of a compound, each is either received or counted as unregistered |
| `MessageEffects.StrangerIsCounted` | VoxelEngine/clientserver/message_handler.hpp:237-247 | a message under an id that was never announced is counted and changes nothing else |
| `MessageSafety.AnnounceKeeps` | VoxelEngine/clientserver/messsage_handler.cpp:17-34 | announcing a type once per link is enough for the receiver to know its id from then on |
| `MessageSafety.SendKeeps` | VoxelEngine/clientserver/message_handler.hpp:97-126 | a send, announcement included, appends to the stream what the receiver can resolve |
| `MessageSafety.PushKeeps` | VoxelEngine/clientserver/core_messages/msg_compound.hpp:16-44 | a message put into a compound is announced ahead of the compound |
| `MessageSafety.SendCompoundKeeps` | VoxelEngine/clientserver/core_messages/msg_compound.hpp:68-78 | the parts of a compound resolve at the receiver, last part first |
| `MessageSafety.ReceiveKeeps` | VoxelEngine/clientserver/message_handler.hpp:237-254 | receiving the next message keeps the rest of the stream resolvable |
| `MessageSafety.LearnKeeps` | VoxelEngine/clientserver/core_messages/msg_sync_mtr.hpp:25-43 | registering under the remote's id changes no id already known |
| `MessageSafety.ResumeKeepsSafe` | VoxelEngine/clientserver/message_handler.hpp:134-169 | replaying both queues keeps every message resolvable and in order |
| `MessageSafety.AddHandlerKeepsSafe` | VoxelEngine/clientserver/message_handler.hpp:175-193 | adding a handler keeps the link safe |
| `MessageSafety.InitialIsSafe` | VoxelEngine/clientserver/messsage_handler.cpp:37-40 | two handlers that were just set up agree on the core types and on nothing else |
| `MessageHandler.MessageHandler.constructor` | VoxelEngine/clientserver/message_handler.hpp:18-24 | starts with the core types as the remote's, sharing the instance's registry; sound, as every method keeps it |
| `MessageHandler.MessageHandler.RegisterMessageTypeLocal` | VoxelEngine/clientserver/messsage_handler.cpp:9-14 | registers a new name in the shared registry, which cannot fail |
| `MessageHandler.MessageHandler.RegisterMessageTypeRemote` | VoxelEngine/clientserver/messsage_handler.cpp:17-34 | announces a type that is neither core nor published on this link |
| `MessageHandler.MessageHandler.SendMessageById` | VoxelEngine/clientserver/message_handler.hpp:97-126 | fails exactly for an id that is not registered |
| `MessageHandler.MessageHandler.SendMessage` | VoxelEngine/clientserver/message_handler.hpp:97-126 | registers, announces and sends or queues, as the protocol's send step does |
| `MessageHandler.MessageHandler.PushMessage` | VoxelEngine/clientserver/core_messages/msg_compound.hpp:16-44 | the protocol's step of putting a message into the compound |
| `MessageHandler.MessageHandler.SendCompoundMessage` | VoxelEngine/clientserver/core_messages/msg_compound.hpp:12-64 | sends the compound collected so far and starts a new one |
| `MessageHandler.MessageHandler.CallHandlers` | VoxelEngine/clientserver/message_handler.hpp:249-253 | records the event and calls the handlers of the local type of that name; that these are exactly those added for the name is stated over runs by `MessageEffects.CallsAreDue` |
| `MessageHandler.MessageHandler.OnSyncReceived` | VoxelEngine/clientserver/core_messages/msg_sync_mtr.hpp:25-43 | learns a new name under the remote's id, ignores one it has |
| `MessageHandler.MessageHandler.OnCompoundReceived` | VoxelEngine/clientserver/core_messages/msg_compound.hpp:68-78 | handles the parts from the last to the first |
| `MessageHandler.MessageHandler.HandleMessage` | VoxelEngine/clientserver/message_handler.hpp:237-254 | the protocol's receiving step |
| `MessageHandler.MessageHandler.OnMessageReceived` | VoxelEngine/clientserver/message_handler.hpp:77-88 | queues the message while paused, handles it otherwise |
| `MessageHandler.MessageHandler.ToggleQueue` | VoxelEngine/clientserver/message_handler.hpp:134-169 | pausing only sets the flag; resuming handles all reads and then sends all writes, in order |
| `MessageHandler.MessageHandler.AddMessageHandler` | VoxelEngine/clientserver/message_handler.hpp:175-193 | adds behind the handlers of the same local id |
| `ByteStack.FixedRoundTrip` | VoxelEngine/utility/io/serialize/binary_serializable.hpp:44-48 | an unsigned integer that fits its width is read back |
| `ByteStack.LengthRoundTrip` | VoxelEngine/utility/io/serialize/variable_length_encoder.hpp:12-41 | for every length and every bytes before it, decoding gives the length and exactly those bytes |
| `ByteStack.EncodeVariableLength` | VoxelEngine/utility/io/serialize/variable_length_encoder.hpp:12-23 | the shifting loop appends the encoding |
| `ByteStack.DecodeVariableLength` | VoxelEngine/utility/io/serialize/variable_length_encoder.hpp:28-41 | the popping loop decodes what stands at the end |
| `Serializer.RoundTrip` | VoxelEngine/utility/io/serialize/binary_serializable.hpp:33-108 | for every nesting of trivial values, records and lists and every bytes p before it, reading gives the value back and leaves exactly p |
| `Serializer.MembersRoundTrip` | VoxelEngine/utility/io/serialize/decomposable_serializer.hpp:40-76 | members pushed in reverse are popped forwards |
| `Serializer.ReversedRoundTrip` | VoxelEngine/utility/io/serialize/container_serializer.hpp:130-167 | a container that grows at its back gets its elements in the original order |
| `Serializer.ForwardRoundTrip` | VoxelEngine/utility/io/serialize/container_serializer.hpp:130-167 | so does one that grows at its front |
| `Serializer.Serialize` | VoxelEngine/utility/io/serialize/binary_serializable.hpp:33-65 | appends the encoding and changes no byte before it |
| `Serializer.SerializeMembers` | VoxelEngine/utility/io/serialize/decomposable_serializer.hpp:40-52 | the reverse loop over the members |
| `Serializer.SerializeElements` | VoxelEngine/utility/io/serialize/container_serializer.hpp:130-148 | the loop over the elements, reversed or not |
| `Serializer.Deserialize` | VoxelEngine/utility/io/serialize/binary_serializable.hpp:76-108 | returns the value at the end of the span and what is before it |
| `Serializer.DeserializeMembers` | VoxelEngine/utility/io/serialize/decomposable_serializer.hpp:56-76 | assigns the members one by one from the shrinking span |
| `Serializer.DeserializeElements` | VoxelEngine/utility/io/serialize/container_serializer.hpp:151-167 | inserts the counted elements one by one |
| `Framing.SplitUndoesBody` | VoxelEngine/clientserver/message_handler.hpp:91-94 | a body comes apart into its id and payload |
| `Framing.DequeueUndoesEnqueue` | VoxelEngine/clientserver/message_handler.hpp:77-88 | the last frame of a queue comes off whole and leaves the others |
| `Framing.QueueIsInjective` | VoxelEngine/clientserver/message_handler.hpp:134-169 | two different sequences of messages never leave the same queue |
| `Framing.FramesHoldIds` | VoxelEngine/clientserver/message_type_registry.hpp:13 | the ids that fit a frame are the 65536 that a registry hands out |
| `Framing.Flush` | VoxelEngine/clientserver/message_handler.hpp:134-169 | resuming replays every queued id and payload once, in the original order |
| `Framing.TakeUndoesPush` | VoxelEngine/clientserver/core_messages/msg_compound.hpp:34-43 | the last message of a compound comes off whole and leaves the others |
| `Framing.PopMessage` | VoxelEngine/clientserver/core_messages/msg_compound.hpp:47-53 | undoes exactly the last push, from the encoded length alone |
| `Framing.ReceiveCompound` | VoxelEngine/clientserver/core_messages/msg_compound.hpp:68-78 | delivers exactly the pushed messages, the last one first |
| `VoxelGeometry.OpposingDirectionsCancel` | VoxelEngine/utility/direction.hpp:34-37 | the opposing direction undoes a step |
| `VoxelGeometry.WorldPosSplits` | VoxelEngine/voxel/utility.hpp:11-23 | every position is 32 times its chunk position plus a local one from 0 to 31 on each axis, negative coordinates included, and the two give it back |
| `VoxelGeometry.WorldPosJoins` | VoxelEngine/voxel/utility.hpp:16-23 | that splitting is unique |
| `VoxelGeometry.StepAcrossBorder` | VoxelEngine/voxel/utility.hpp:28-33 | a step over a border is recognised by its direction and lands in that neighbour, at the local place the space uses |
| `VoxelGeometry.FlattenIsOnto` | VoxelEngine/utility/math.hpp:64-77 | every index of a chunk is one place |
| `VoxelGeometry.FlattenIsInjective` | VoxelEngine/utility/math.hpp:64-77 | every place of a chunk is one index |
| `VoxelGeometry.SpatialIterate` | VoxelEngine/utility/spatial_iterate.hpp:7-18 | the nested loops visit the places in the order of their indices |
| `ChunkMesher.QuadsAreSeparate` | VoxelEngine/voxel/tile/tile.cpp:99-126 | quad k owns the vertices 4k to 4k + 3, which are its four corners moved to the tile, and its six indices name just these, in the order given |
| `ChunkMesher.FacesOfChunkComplete` | VoxelEngine/voxel/chunk/chunk_mesher.hpp:77-139 | a face is there if and only if its tile is rendered and not skipped, and the neighbour there is skipped or does not occlude the side with which it looks back |
| `ChunkMesher.FacesAreOrdered` | VoxelEngine/voxel/chunk/chunk_mesher.hpp:77-139 | faces come in the order of tiles and then of directions, none twice |
| `ChunkMesher.JoinMeshes` | VoxelEngine/voxel/chunk/chunk_mesher.hpp:112-132 | moving and rebasing a tile's mesh is the same as meshing its faces in place |
| `ChunkMesher.SidesGiveFaces` | VoxelEngine/voxel/chunk/chunk_mesher.hpp:135-138 | the visible sides and the tile determine its faces, so meshes may be kept under that key |
| `ChunkMesher.AppendMesh` | VoxelEngine/voxel/tile/tile.cpp:32-129 | the loop over the directions appends exactly the visible sides |
| `ChunkMesher.PushAndDenormalize` | VoxelEngine/voxel/chunk/chunk_mesher.hpp:63-73 | the in-place moving and rebasing of the appended part |
| `ChunkMesher.FindVisibleSides` | VoxelEngine/voxel/chunk/chunk_mesher.hpp:88-138 | finds the sides that the neighbour, possibly in another chunk or unknown, does not occlude |
| `ChunkMesher.MeshTile` | VoxelEngine/voxel/chunk/chunk_mesher.hpp:77-162 | one tile, with the same result whether its mesh was in the cache or not; the cache stays sound |
| `ChunkMesher.MeshChunk` | VoxelEngine/voxel/chunk/chunk_mesher.hpp:54-166 | for every sound cache the result is the specified mesh, and the cache is sound again |
| `VoxelSpace.LookupSeesSpace` | VoxelEngine/voxel/space/voxel_space.cpp:98-115 | what the mesher sees through the six collected chunks is the space around the chunk |
| `VoxelSpace.MeshSeesSpace` | VoxelEngine/voxel/space/voxel_space.cpp:98-115 | so a chunk's mesh is a function of the whole space |
| `VoxelSpace.ReadersAreNeighbours` | VoxelEngine/voxel/space/voxel_space.cpp:140-151 | only the chunk of a tile and the chunks one step away read that tile: invalidating those is enough |
| `VoxelSpace.SetThenGet` | VoxelEngine/voxel/space/voxel_space.cpp:122-162 | setting a tile of a loaded chunk changes that tile and no other; elsewhere nothing changes |
| `VoxelSpace.SetDataKeepsMeshesCurrent` | VoxelEngine/voxel/space/voxel_space.cpp:132-162 | after an edit every chunk still marked MESHED has the mesh of the new space |
| `VoxelSpace.LoadKeepsMeshesCurrent` | VoxelEngine/voxel/space/voxel_space.cpp:187-232 | so after loading a chunk |
| `VoxelSpace.UnloadKeepsMeshesCurrent` | VoxelEngine/voxel/space/voxel_space.cpp:235-262 | so after unloading one |
| `VoxelSpace.MeshStepKeepsMeshesCurrent` | VoxelEngine/voxel/space/voxel_space.cpp:90-118 | so after meshing one |
| `VoxelSpace.MeshStepMeshes` | VoxelEngine/voxel/space/voxel_space.cpp:66-117 | meshing a marked chunk leaves it meshed, with the mesh of the space around it; one that is not marked or not there, every other chunk, all tiles and all load counts stay as they are |
| `VoxelSpace.RunsKeepMeshesCurrent` | VoxelEngine/voxel/space/voxel_space.cpp:90-262 | in every state reachable by edits, loads, unloads and mesh steps, a chunk marked MESHED stores exactly the mesh of the current space |
| `VoxelSpace.Space.SetTile` | VoxelEngine/voxel/space/voxel_space.cpp:132-162 | returns the old tile and leaves the specified space, marked neighbours included; meshes marked MESHED stay current |
| `VoxelSpace.Space.MarkNeighbours` | VoxelEngine/voxel/space/voxel_space.cpp:220-224 | the loop marks exactly the loaded neighbours |
| `VoxelSpace.Space.Load` | VoxelEngine/voxel/space/voxel_space.cpp:187-232 | counts another load or generates the chunk and marks its neighbours; meshes stay current |
| `VoxelSpace.Space.Unload` | VoxelEngine/voxel/space/voxel_space.cpp:235-262 | counts down or erases the chunk and marks its neighbours; says whether it was loaded; meshes stay current |
| `VoxelSpace.Space.UpdateMesh` | VoxelEngine/voxel/space/voxel_space.cpp:90-118 | a marked chunk stores the mesh of the space around it and is no longer marked; everything else stays |
| `VoxelSpace.Space.UpdateMeshes` | VoxelEngine/voxel/space/voxel_space.cpp:53-117 | after the loop over the chunks every loaded chunk is meshed and stores the mesh of the present space; tiles and load counts are as before |
| `SpaceEffects.LoadBrings` | VoxelEngine/voxel/space/voxel_space.cpp:187-232 | a first load brings the generated tiles, a further one only counts; no other tile and no other count changes |
| `SpaceEffects.UnloadRemoves` | VoxelEngine/voxel/space/voxel_space.cpp:235-262 | the unload that takes back the last load removes the chunk, any other only counts down; tiles elsewhere stay |
| `SpaceEffects.RunsArePlain` | VoxelEngine/voxel/space/voxel_space.cpp:132-262 | in every run: a chunk is there with the number of loads not yet taken back, and every tile is the one that was put or generated there last |
| `SpaceEffects.SetDataMarks` | VoxelEngine/voxel/space/voxel_space.cpp:132-162 | writing a tile marks its own chunk and exactly those that one step from the tile leads to |
| `SpaceEffects.LoadingMarks` | VoxelEngine/voxel/space/voxel_space.cpp:187-262 | a first load and a last unload mark exactly the six neighbours, and any other load or unload marks nothing |
| `VoxelChunk.StepRefinesPlain` | VoxelEngine/voxel/chunk/chunk.hpp:27-86 | with its pending writes replayed, a chunk is a plain array after every operation, locked or not |
| `VoxelChunk.RunRefinesPlain` | VoxelEngine/voxel/chunk/chunk.hpp:27-86 | so under every sequence of writes, replacements and lock changes |
| `VoxelChunk.LockedDataStays` | VoxelEngine/voxel/chunk/chunk.hpp:50-60 | while locked the committed data never changes, and unlocking commits exactly all writes in program order |
| `VoxelChunk.FillReplaces` | VoxelEngine/voxel/chunk/chunk.hpp:68-86 | replaying the writes of a whole replacement gives the replacement, since iteration and indexing agree |
| `VoxelChunk.Chunk.GetData` | VoxelEngine/voxel/chunk/chunk.hpp:27-29 | reads the committed tile |
| `VoxelChunk.Chunk.SetData` | VoxelEngine/voxel/chunk/chunk.hpp:32-41 | writes or defers; returns the committed old tile either way |
| `VoxelChunk.Chunk.ToggleWriteLock` | VoxelEngine/voxel/chunk/chunk.hpp:50-60 | unlocking applies and clears the pending writes |
| `VoxelChunk.Chunk.SetChunkData` | VoxelEngine/voxel/chunk/chunk.hpp:68-86 | replaces the data, or all pending writes while locked |
| `HandlerLists.AddIsStableInsertion` | VoxelEngine/event/simple_event_dispatcher.hpp:157-158 | a new handler is visited behind all of its own or a higher priority and before all of a lower one |
| `HandlerLists.InsertedBetween` | VoxelEngine/event/simple_event_dispatcher.hpp:143-159 | where that is: everything before has at least the new handler's priority, everything after has less |
| `HandlerLists.EraseRemoves` | VoxelEngine/event/simple_event_dispatcher.hpp:195-219 | erasing takes exactly that handler out of the order of visits |
| `HandlerLists.FlatDescends` | VoxelEngine/event/simple_event_dispatcher.hpp:183-193 | the reverse walk over the sorted map goes down in priority |
| `HandlerLists.RegisteredIsVisited` | VoxelEngine/event/simple_event_dispatcher.hpp:183-193 | every registered handler, and no other, is in the order of visits |
| `HandlerLists.AddKeepsDistinct` | VoxelEngine/event/simple_event_dispatcher.hpp:157-158 | a fresh id keeps all ids of a type different |
| `HandlerLists.Check` | VoxelEngine/event/simple_event_dispatcher.hpp:196-209 | removes the id if the list of that priority has it, and finds it if and only if that list has it |
| `HandlerLists.EraseHandler` | VoxelEngine/event/simple_event_dispatcher.hpp:195-219 | the search, priority 0 first, removes the id wherever it is |
| `HandlerActions.ApplyAllRegisters` | VoxelEngine/event/simple_event_dispatcher.hpp:117-120 | what pending actions leave registered is decided by the last one that concerns the handler |
| `HandlerActions.ApplyAllHasEffects` | VoxelEngine/event/simple_event_dispatcher.hpp:119-123 | carrying out actions that were put off inserts and erases in the order of visits, one after the other |
| `HandlerActions.EffectsHave` | VoxelEngine/event/simple_event_dispatcher.hpp:48-95 | a handler is in that order if and only if it was added and not removed afterwards |
| `HandlerActions.ApplyAllKeepsSound` | VoxelEngine/event/simple_event_dispatcher.hpp:117-120 | after each pending action, ids are still unique and no registered id is still waiting |
| `HandlerActions.Execute` | VoxelEngine/event/simple_event_dispatcher.hpp:143-159 | adding, with the type's entry made first if it is missing, or removing |
| `HandlerActions.ExecuteAll` | VoxelEngine/event/delayed_event_dispatcher.hpp:214-217 | carries out the pending actions in the order in which they were asked for |
| `SimpleDispatch.DispatchKeeps` | VoxelEngine/event/simple_event_dispatcher.hpp:99-121 | for every tree of nested dispatches, adds and removes: no type on the stack gets other handlers, the stack comes back as it was, and nothing is pending once the outermost dispatch returns |
| `SimpleDispatch.DispatchVisits` | VoxelEngine/event/simple_event_dispatcher.hpp:183-193 | every dispatch, nested ones included, visits the handlers its type had when it began, in descending priority and then order of adding, up to the first that cancels |
| `SimpleDispatch.DispatchKeepsSound` | VoxelEngine/event/simple_event_dispatcher.hpp:99-121 | ids stay unique and sorted by priority through every dispatch |
| `SimpleDispatch.RunsSettle` | VoxelEngine/event/simple_event_dispatcher.hpp:47-121 | whatever is done from the start, between dispatches nothing is on the stack and nothing pending |
| `SimpleDispatch.RemoveTakesEffect` | VoxelEngine/event/simple_event_dispatcher.hpp:79-95 | a removed handler will come back if and only if its type is not on the stack while an add of it is the last pending action on it |
| `SimpleDispatch.RemovalOvertakesAdd` | VoxelEngine/event/simple_event_dispatcher.hpp:79-95 | the concrete nesting in which a removed handler ends up registered |
| `SimpleHistory.AddTakesEffect` | VoxelEngine/event/simple_event_dispatcher.hpp:48-67 | an added handler goes behind those of its own or a higher priority and before those of a lower one, at once or, while its type is being dispatched, once everything that waits has been carried out; the orders of other types stay |
| `SimpleHistory.RunsKeepToHistory` | VoxelEngine/event/simple_event_dispatcher.hpp:48-124 | after whatever handlers and users have done from the start, nested dispatches included, each type's order of visits is that of a plain history of all requests made, in which those of an outermost dispatch that had to wait come after those that had not |
| `SimpleHistory.RegisteredIff` | VoxelEngine/event/simple_event_dispatcher.hpp:48-124 | a handler is registered if and only if that history adds it and does not remove it afterwards |
| `SimpleEventDispatcher.Dispatcher.AddHandler` | VoxelEngine/event/simple_event_dispatcher.hpp:48-63 | unless the type is being dispatched, the new handler stands at once where its priority puts it, and the other types' orders and what waits are as before; otherwise it waits (`SimpleHistory.AddTakesEffect`) |
| `SimpleEventDispatcher.Dispatcher.RemoveHandler` | VoxelEngine/event/simple_event_dispatcher.hpp:79-95 | removes now or defers |
| `SimpleEventDispatcher.Dispatcher.IsDispatching` | VoxelEngine/event/simple_event_dispatcher.hpp:162-170 | true exactly for the types on the stack |
| `SimpleEventDispatcher.Dispatcher.Invoke` | VoxelEngine/event/simple_event_dispatcher.hpp:183-193 | reading the lists while scripts that may change them are executed still visits the list it began with |
| `SimpleEventDispatcher.Dispatcher.DispatchEvent` | VoxelEngine/event/simple_event_dispatcher.hpp:99-121 | the method's whole new state and visits are those of the model |
| `DelayedDispatch.VisitKeeps` | VoxelEngine/event/delayed_event_dispatcher.hpp:198-211 | while an event is delivered no handler of its type comes or goes, queues only grow and nothing is delivered in between |
| `DelayedDispatch.RunKeepsSettled` | VoxelEngine/event/delayed_event_dispatcher.hpp:213-217 | between any two steps of any run nothing is pending, and of every type what was posted is what was delivered and then its queue |
| `DelayedDispatch.DrainedIsDelivered` | VoxelEngine/event/delayed_event_dispatcher.hpp:130-145 | in any run the events of a type are delivered in the order they were posted and none twice; once no type is waiting each has been, those that handlers posted meanwhile included, and the queue is empty |
| `DelayedDispatch.DeliveryVisits` | VoxelEngine/event/delayed_event_dispatcher.hpp:198-218 | each event reaches the handlers its type has at that moment, in descending priority up to the first that cancels, with all earlier adds and removes carried out |
| `DelayedDispatch.RemoveTakesEffect` | VoxelEngine/event/delayed_event_dispatcher.hpp:92-103 | a removal always takes effect by the end of the event |
| `DelayedHistory.AddTakesEffect` | VoxelEngine/event/delayed_event_dispatcher.hpp:53-74 | an added handler goes behind those of its own or a higher priority and before those of a lower one, at the end of the current event at the latest; the orders of other types stay |
| `DelayedHistory.RunsKeepToHistory` | VoxelEngine/event/delayed_event_dispatcher.hpp:53-145 | in every run, each type's order of visits is the one that carrying out every request when it was made would give, so that putting requests off changes nothing; every handler that is invoked has its script carried out, and what was posted is what was asked to be |
| `DelayedHistory.ReachedIff` | VoxelEngine/event/delayed_event_dispatcher.hpp:198-220 | an event reaches a handler if and only if it is in that order and nobody before it cancels |
| `DelayedHistory.HistoryHas` | VoxelEngine/event/delayed_event_dispatcher.hpp:53-102 | a handler is in that order if and only if it was added for the type and not removed since |
| `DelayedHistory.RequestAdds` | VoxelEngine/event/delayed_event_dispatcher.hpp:53-74 | every request to add a handler adds one under the number of requests to add before it |
| `DelayedEventDispatcher.Dispatcher.AddHandler` | VoxelEngine/event/delayed_event_dispatcher.hpp:53-75 | unless the type is being dispatched, the new handler stands at once where its priority puts it, and the other types' orders and what waits are as before; otherwise it waits (`DelayedHistory.AddTakesEffect`) |
| `DelayedEventDispatcher.Dispatcher.RemoveHandler` | VoxelEngine/event/delayed_event_dispatcher.hpp:92-103 | deferred exactly for the type being dispatched |
| `DelayedEventDispatcher.Dispatcher.AddEvent` | VoxelEngine/event/delayed_event_dispatcher.hpp:107-127 | appends to the type's queue and marks the type, during a drain too |
| `DelayedEventDispatcher.Dispatcher.DeliverEvent` | VoxelEngine/event/delayed_event_dispatcher.hpp:200-218 | one round of the loop over the growing queue |
| `DelayedEventDispatcher.Dispatcher.DrainType` | VoxelEngine/event/delayed_event_dispatcher.hpp:134-142 | drains one type by steps of the model; each round uses up a behaviour or an event |
| `DelayedEventDispatcher.Dispatcher.DispatchEvents` | VoxelEngine/event/delayed_event_dispatcher.hpp:130-145 | ends for every finite script, in whatever order types are taken: all queues are empty and per type exactly what was posted has been delivered, in order |
| `AtlasModel.FirstFitIsLeast` | VoxelEngine/graphics/texture/aligned_texture_atlas.hpp:106-124 | the place found is free and in bounds and none before it is; nothing is found only if there is none |
| `AtlasModel.PrepareMarksRect` | VoxelEngine/graphics/texture/aligned_texture_atlas.hpp:55-69 | exactly the free rectangle that the subtexture stands for becomes occupied |
| `AtlasModel.PrepareIsComplete` | VoxelEngine/graphics/texture/aligned_texture_atlas.hpp:106-124 | if a request fits anywhere it is placed, at the first place |
| `AtlasModel.RunsStayExact` | VoxelEngine/graphics/texture/aligned_texture_atlas.hpp:47-69 | over all sequences of requests, batches and removals the occupied blocks are the disjoint union of the live rectangles |
| `AtlasModel.BatchKeepsExact` | VoxelEngine/graphics/texture/texture_atlas.hpp:79-94 | the rectangles of a batch are apart from each other and from the live ones |
| `AtlasModel.BatchTakesFreeBlocks` | VoxelEngine/graphics/texture/texture_atlas.hpp:79-94 | a batch that succeeds places every request at its size, on blocks that were free |
| `AtlasModel.RollbackRestores` | VoxelEngine/graphics/texture/texture_atlas.hpp:87-90 | removing what was placed gives back exactly the occupied blocks from before |
| `AtlasModel.PrefixFails` | VoxelEngine/graphics/texture/texture_atlas.hpp:85-90 | if a prefix of a batch does not fit, the batch does not |
| `AtlasPixels.TexturesAreApart` | VoxelEngine/graphics/texture/aligned_texture_atlas.hpp:47-72 | in every state of every run, live textures begin at multiples of the alignment and lie within the atlas, and no pixel belongs to two of them |
| `AtlasPixels.BlocksHold` | VoxelEngine/graphics/texture/aligned_texture_atlas.hpp:101-103 | the blocks for some pixels are the fewest that hold them, and at least one if there are any pixels |
| `AtlasPixels.OccupiedByPixels` | VoxelEngine/graphics/texture/aligned_texture_atlas.hpp:47-72 | in every state of every run, a block is occupied if and only if a pixel of a live texture lies in it |
| `AtlasPixels.StepsAreBooked` | VoxelEngine/graphics/texture/aligned_texture_atlas.hpp:47-72 | in every run, a request that succeeds adds textures of the sizes asked for, one that fails changes nothing, and a removal takes away just that texture |
| `AtlasPixels.RefusedOnlyIfFull` | VoxelEngine/graphics/texture/aligned_texture_atlas.hpp:106-124 | a request is refused only if everywhere on the grid and inside the atlas one of the texture's pixels would lie in an occupied block |
| `AtlasPixels.RemovedIsFree` | VoxelEngine/graphics/texture/aligned_texture_atlas.hpp:47-52 | after a removal there is room for a texture of that size |
| `TextureAtlases.AlignedTextureAtlas.IsFree` | VoxelEngine/graphics/texture/aligned_texture_atlas.hpp:112-116 | the two inner loops decide whether the rectangle is free |
| `TextureAtlases.AlignedTextureAtlas.FindStorage` | VoxelEngine/graphics/texture/aligned_texture_atlas.hpp:106-124 | the nested search with its early exit is the first fit |
| `TextureAtlases.AlignedTextureAtlas.MarkStorage` | VoxelEngine/graphics/texture/aligned_texture_atlas.hpp:127-134 | the nested loops add or remove exactly the rectangle's blocks |
| `TextureAtlases.AlignedTextureAtlas.PrepareStorage` | VoxelEngine/graphics/texture/aligned_texture_atlas.hpp:55-69 | places the request on the first free blocks, and fails only if there are none; what the blocks are in pixels is stated by `AtlasPixels.TexturesAreApart` and `AtlasPixels.BlocksHold` |
| `TextureAtlases.AlignedTextureAtlas.Remove` | VoxelEngine/graphics/texture/aligned_texture_atlas.hpp:47-52 | frees the blocks of the subtexture |
| `TextureAtlases.AlignedTextureAtlas.PrepareStorageForAll` | VoxelEngine/graphics/texture/texture_atlas.hpp:79-94 | all or nothing: on failure the occupied blocks are exactly those from before the call |
| `TextureAtlases.BatchGoesToOneAtlas` | VoxelEngine/graphics/texture/generative_texture_atlas.hpp:60-67 | a batch that succeeds lies in the one atlas its bindings name, on blocks that were free, and no other atlas changes |
| `TextureAtlases.BatchFailsOnlyWhenFull` | VoxelEngine/graphics/texture/generative_texture_atlas.hpp:78-91 | a batch fails if and only if no existing atlas takes it and there are 255 of them or it does not fit an empty one; existing atlases stay as they were, and one empty atlas is added unless there are 255 |
| `TextureAtlases.FailedBatchesPileUp` | VoxelEngine/graphics/texture/generative_texture_atlas.hpp:78-91 | a batch that fits no atlas leaves an empty one behind at every attempt, until there are 255 |
| `TextureAtlases.TwoFullTextures` | VoxelEngine/graphics/texture/generative_texture_atlas.hpp:78-91 | such a batch: two textures, each as large as the atlas |
| `TextureAtlases.FirstTakerFound` | VoxelEngine/graphics/texture/generative_texture_atlas.hpp:79-83 | the atlas chosen is the first that takes the batch |
| `TextureAtlases.GenerativeTextureAtlas.TryExisting` | VoxelEngine/graphics/texture/generative_texture_atlas.hpp:79-83 | the loop over the atlases; one that fails is left unchanged |
| `TextureAtlases.GenerativeTextureAtlas.PrepareStorageForAll` | VoxelEngine/graphics/texture/generative_texture_atlas.hpp:60-91 | result and all atlases are those of the specification, a new atlas included |
| `GlslLayout.PushAppends` | VoxelEngine/graphics/shader/glsl_layout.hpp:83-151 | writing a value only appends: no byte already written changes |
| `GlslLayout.ScalarIsPadded` | VoxelEngine/graphics/shader/glsl_layout.hpp:83-105 | a scalar is written with the bytes it has on the CPU, one for a boolean, behind the fewest zeros that align it to four or, for a double, eight |
| `GlslLayout.AppendedRepeats` | VoxelEngine/graphics/shader/glsl_layout.hpp:83-151 | what is appended depends on the buffer's length only modulo the type's alignment |
| `GlslLayout.LayoutIsTranslationInvariant` | VoxelEngine/graphics/shader/glsl_layout.hpp:83-151 | at two buffer lengths that differ by a multiple of its alignment a value is written as the same bytes, matrices included |
| `GlslLayout.AlignmentIsPower` | VoxelEngine/graphics/shader/glsl_layout.hpp:18-74 | every alignment is 0, 4, 8, 16 or 32; it is 0 if and only if the layout is std430 and the type is made of empty structures alone |
| `GlslLayout.EmptyStructClearsBuffer` | VoxelEngine/utility/bit.hpp:32-35 | the alignment 0 of an empty structure empties the buffer |
| `GlslLayout.HollowForgets` | VoxelEngine/graphics/shader/glsl_layout.hpp:87-90 | a value that writes such a type anywhere in it is written, under std430, as if nothing had been written before |
| `GlslLayout.AppendsIffSane` | VoxelEngine/graphics/shader/glsl_layout.hpp:83-151 | for every type, arrays of zero elements included: writing keeps every buffer it is given as a prefix if and only if the layout is std140 or nothing that is written has alignment 0 |
| `GlslLayout.PushGlslLayout` | VoxelEngine/graphics/shader/glsl_layout.hpp:83-151 | the writer over the growing buffer computes the specification |
| `GlslLayout.PushComponents` | VoxelEngine/graphics/shader/glsl_layout.hpp:124-131 | the loop over the elements, with padding before each |
| `GlslLayout.PushStructMembers` | VoxelEngine/graphics/shader/glsl_layout.hpp:137-147 | the loop over the members |
| `GlslConformance.AlignmentConforms` | VoxelEngine/graphics/shader/glsl_layout.hpp:18-74 | the alignment is the base alignment of rules 1 to 5, 9 and 10 of section 7.6.2.2, for both layouts, for the types of the next row |
| `GlslConformance.PushConforms` | VoxelEngine/graphics/shader/glsl_layout.hpp:83-151 | every scalar inside a value of scalars, vectors, matrices, arrays and structures lies at the offset the standard gives it, wherever the value is written, unless the type has a matrix of two rows or one of three rows in front of a member aligned to four bytes |
| `GlslConformance.LayoutConforms` | VoxelEngine/graphics/shader/glsl_layout.hpp:155-160 | so in a whole buffer, with the standard's size up to the padding at its end |
| `GlslConformance.MatrixIsArrayOfColumns` | VoxelEngine/graphics/shader/glsl_layout.hpp:113-118 | rule 5, to which the writer is compared, in terms of the rules for arrays |
| `GlslMatrices.MatrixConformsIff` | VoxelEngine/graphics/shader/glsl_layout.hpp:113-118 | the scalars of every matrix are in place if and only if it has three or four rows, and it ends where it should if and only if it has four |
| `GlslMatrices.ScalarAfterThreeRows` | VoxelEngine/graphics/shader/glsl_layout.hpp:113-118 | in no structure of a matrix of three rows and a scalar of four bytes is that scalar in place |
| `GlslMatrices.MatrixSize` | VoxelEngine/graphics/shader/glsl_layout.hpp:113-118 | how long every matrix is: columns at their own alignment, and nothing behind the last |
| `GlslStride.SizeIsOfType` | VoxelEngine/graphics/shader/glsl_layout.hpp:83-151 | how many bytes a value takes up depends on its type and on where it is written, not on the value |
| `GlslStride.ElementsAtStride` | VoxelEngine/graphics/shader/glsl_layout.hpp:124-131 | element k of any array, of matrices too, lies k strides behind the aligned start of the array, on the array's and its own alignment, written as it would be alone; the stride is that of the type |
| `GlslStride.MembersAreAligned` | VoxelEngine/graphics/shader/glsl_layout.hpp:137-147 | every member of any structure begins at the first multiple of its own alignment behind the members before it, and is written as it would be alone |
| `GlslStride.AppendedBegins` | VoxelEngine/graphics/shader/glsl_layout.hpp:87-98 | wherever an object is written, it is padding up to its alignment and then the same bytes |
| `GlslStride.ComponentsAtStride` | VoxelEngine/graphics/shader/glsl_layout.hpp:106-118 | so for the components of vectors and the columns of matrices, which are not padded |
| `GlslStride.PartsAreAligned` | VoxelEngine/graphics/shader/glsl_layout.hpp:83-151 | every part of an object, at any depth, lies at an offset from the start of the object that does not depend on the buffer, on its own alignment, and is written as it would be alone |
| `EntityVisibility.NextStatus` | VoxelEngine/ecs/system/system_entity_visibility.hpp:111-116 | the visibility bit is what the rule answers, the change bit says whether that differs from before |
| `EntityVisibility.WithStatus` | VoxelEngine/ecs/system/system_entity_visibility.hpp:119-120 | exactly the entities with that status, each once |
| `EntityVisibility.CreatedIff` | VoxelEngine/clientserver/core_messages/msg_add_del_entity.hpp:15-21 | creating a list succeeds if and only if the client has none of it |
| `EntityVisibility.DeletedIff` | VoxelEngine/clientserver/core_messages/msg_add_del_entity.hpp:15-21 | destroying a list succeeds if and only if the client has all of it |
| `EntityVisibility.AppearancesComeFirst` | VoxelEngine/ecs/system/system_entity_visibility.hpp:106-151 | an update announces over one connection exactly what it now sees and did not, in a first message, and what it saw and does not, or what is destroyed with the status VISIBLE, in a second; empty messages are not sent |
| `EntityVisibility.UpdateKeepsInStep` | VoxelEngine/ecs/system/system_entity_visibility.hpp:105-151 | one update of one connection: no announcement is in error, the client has what the rule shows and its strays, and the only new strays are entities destroyed right after they were announced |
| `EntityVisibility.RunsAreSound` | VoxelEngine/ecs/system/system_entity_visibility.hpp:66-155 | over every run with connects, disconnects, visibility changes and destruction, no client gets an entity it has or loses one it has not |
| `EntityVisibility.ClientsAfterUpdate` | VoxelEngine/ecs/system/system_entity_visibility.hpp:95-155 | after every update a client has the visible live entities and the forgotten ones, and exactly the visible ones if and only if none was forgotten |
| `EntityVisibility.AnswersAgreeWithClients` | VoxelEngine/ecs/system/system_entity_visibility.hpp:168-177 | right after any update of any run, the answer for a live entity and a connected client is what the rule said in that update, and says whether the client has the entity |
| `EntityVisibility.StraysAreForgotten` | VoxelEngine/ecs/system/system_entity_visibility.hpp:128-138 | what a client has beyond the server's statuses is what was destroyed before a second update saw it |
| `EntityVisibility.FreshCasualtyStays` | VoxelEngine/ecs/system/system_entity_visibility.hpp:133-136 | announced, destroyed, updated: the client still has the entity |
| `VisibilitySystem.SystemEntityVisibility.OnEntityDestroyed` | VoxelEngine/ecs/system/system_entity_visibility.hpp:72-74 | remembers the entity once |
| `VisibilitySystem.SystemEntityVisibility.OnRemoteDisconnected` | VoxelEngine/ecs/system/system_entity_visibility.hpp:76-78 | forgets the statuses of that remote and no other |
| `VisibilitySystem.SystemEntityVisibility.IsVisible` | VoxelEngine/ecs/system/system_entity_visibility.hpp:168-177 | after an update, whatever the statuses were before it, the answer for an entity of the view and a remote of that update is what the rule said then; for an entity or remote without status it is what the rule says now |
| `VisibilitySystem.RefreshStatuses` | VoxelEngine/ecs/system/system_entity_visibility.hpp:106-122 | the loop over the entities brings each status up to date and collects what appeared and what disappeared |
| `VisibilitySystem.FindCasualties` | VoxelEngine/ecs/system/system_entity_visibility.hpp:128-136 | the loop over the destroyed entities collects those with the status VISIBLE |
| `VisibilitySystem.SystemEntityVisibility.UpdateConnection` | VoxelEngine/ecs/system/system_entity_visibility.hpp:100-151 | the loops over entities and destroyed entities compute the new statuses and the messages |
| `VisibilitySystem.SystemEntityVisibility.OnSystemUpdate` | VoxelEngine/ecs/system/system_entity_visibility.hpp:90-155 | every connection is updated from the same destroyed entities, which are forgotten at the end |
| `ComponentSync.CompoundIsApplied` | VoxelEngine/clientserver/core_messages/msg_compound.hpp:68-78 | applied from its end, a compound leaves at each key what the messages about that key make of it, and it fails if and only if they do at some key |
| `ComponentSync.ServeAllAtKey` | VoxelEngine/ecs/system/system_synchronizer.hpp:124-172 | whoever is served in whatever order, a value is serialized once in a tick, and the cache of a removed one is gone after the first connection |
| `ComponentSync.CachesForAtKey` | VoxelEngine/ecs/system/system_synchronizer.hpp:279-347 | each connection that is due sees the refreshed cache, compared with what it was before the tick; only the first one sees that of a removed component |
| `ComponentSync.MessagesAbout` | VoxelEngine/ecs/system/system_synchronizer.hpp:322-373 | a compound says about each key what changed and then what was removed, each at most once |
| `ComponentSync.ClientIsServed` | VoxelEngine/ecs/system/system_synchronizer.hpp:110-182 | what a tick makes of a whole client, key by key, against a definition that mentions neither messages nor other connections |
| `ComponentSafety.TickAtKeys` | VoxelEngine/ecs/system/system_synchronizer.hpp:110-182 | in any state of any run, for every client: what it holds at each key after a tick, and when it fails |
| `ComponentSafety.FollowsIff` | VoxelEngine/ecs/system/system_synchronizer.hpp:328-346 | a client that is due holds the present value after the tick if and only if the entity has just appeared to it, the value differs from the cache, or it had the value already |
| `ComponentSafety.RemovalArrivesIff` | VoxelEngine/ecs/system/system_synchronizer.hpp:351-387 | a removed component goes from a client that holds it if and only if its cache is there, the client is due and served first, and the value had not changed when it was last serialized |
| `ComponentSafety.RemovalIsForgotten` | VoxelEngine/ecs/system/system_synchronizer.hpp:377-387 | after a tick with any connection nothing is left that could tell of a removal |
| `ComponentSafety.FailsIff` | VoxelEngine/ecs/registry.hpp:222-235 | a client fails if and only if it is served first and told to remove a component that it does not hold |
| `ComponentSafety.FaithfulIffNotSkipped` | VoxelEngine/ecs/system/system_synchronizer.hpp:279-318 | a tick keeps the cache equal to what a client holds if and only if it does not refresh it for others while that client has to wait |
| `ComponentSafety.NotSkippedIf` | VoxelEngine/ecs/system/system_synchronizer.hpp:243-257 | nobody is skipped if the timer has elapsed, or the entity appears to nobody, or the value is the cached one |
| `ComponentSafety.RunsAreIntact` | VoxelEngine/ecs/system/system_synchronizer.hpp:110-182 | in every state of every run, with connections that come and go, values set and removed, rules and tags, clients hold components only of entities they have |
| `ComponentSafety.RunsAreFaithful` | VoxelEngine/ecs/system/system_synchronizer.hpp:110-182 | in every run that skips nobody at a key, the cache is what every client holds there |
| `ComponentSafety.ClientsFollow` | VoxelEngine/ecs/system/system_synchronizer.hpp:110-182 | after every tick of such a run, every client that is due and has not failed holds the present value |
| `ComponentSafety.GentleClientsFollow` | VoxelEngine/ecs/system/system_synchronizer.hpp:110-182 | with one connection at a time, or with timers that always elapse, and without rules, tags and removals: after every tick of every run each client holds the present value of every component that is due, of every entity it sees, and no client has failed |
| `ComponentSafety.RunsWithoutRemovals` | VoxelEngine/ecs/system/system_synchronizer.hpp:377-387 | only removals can make a client fail |
| `ComponentSafety.NothingIsSentTwice` | VoxelEngine/ecs/system/system_synchronizer.hpp:328-346 | to a client that has what is cached, a value is sent if and only if it is due and the client does not hold it already, or it was never serialized before |
| `ComponentSafety.NotElapsedIsSilent` | VoxelEngine/ecs/system/system_synchronizer.hpp:322-347 | nothing at all is sent about a component whose timer has not elapsed, of an entity that stays visible |
| `ComponentSafety.SaidOfValue` | VoxelEngine/ecs/system/system_synchronizer.hpp:322-347 | of a value that is there, a connection is told once if it is due and the entity has just appeared to it or the value differs from the cache, and nothing otherwise |
| `SyncFailures.AppearanceStarvesOther` | VoxelEngine/ecs/system/system_synchronizer.hpp:279-346 | a run of two clients in which one keeps the old value because the entity appeared to the other between two synchronizations |
| `SyncFailures.StaysBehind` | VoxelEngine/ecs/system/system_synchronizer.hpp:328-346 | no tick mends that as long as the value stays |
| `SyncFailures.RemovalIsUndone` | VoxelEngine/clientserver/core_messages/msg_compound.hpp:68-78 | a run of one client that still holds a removed component after the next synchronization |
| `SyncFailures.StaysForgotten` | VoxelEngine/ecs/system/system_synchronizer.hpp:377-387 | no later tick takes it away |
| `SyncFailures.RemovalBreaksClient` | VoxelEngine/ecs/system/system_synchronizer.hpp:351-373 | a run in which a client is told to remove a component of an entity that has only just come back |
| `SyncTimers.DueIff` | VoxelEngine/ecs/system/system_synchronizer.hpp:115-118 | over any updates at times that never go back, and changes of rates: a component is due in an update if and only if its present rate has passed since the epoch and since every earlier update in which it was due |
| `SyncTimers.NextDue` | VoxelEngine/ecs/system/system_synchronizer.hpp:179-181 | after an update in which it is due, and until it is again, it is due in an update if and only if that comes at least its rate later |
| `SyncTimers.RateIsKept` | VoxelEngine/ecs/system/system_synchronizer.hpp:115-118 | it is never due twice within its rate, and by the first update after its rate has passed it has been due again |
| `SyncTimers.TimersTell` | VoxelEngine/ecs/system/system_synchronizer.hpp:179-188 | the timers hold, for each component, the rate set last and the time of the last update in which it was due |
| `SystemSynchronizer.Synchronizer.constructor` | VoxelEngine/ecs/system/system_synchronizer.hpp:79-89 | every timer is at the epoch, and at any time that is one sync rate past it all components are due |
| `SystemSynchronizer.Synchronizer.SetSyncRate` | VoxelEngine/ecs/system/system_synchronizer.hpp:186-188 | changes the rate of one component |
| `SystemSynchronizer.Synchronizer.Elapsed` | VoxelEngine/ecs/system/system_synchronizer.hpp:115-118 | exactly the components whose rate has passed since their last synchronization |
| `SystemSynchronizer.Synchronizer.UpdateSerializedValues` | VoxelEngine/ecs/system/system_synchronizer.hpp:279-318 | the two passes, kept apart by the up-to-date tags, serialize every value that is due exactly once in a tick |
| `SystemSynchronizer.Synchronizer.AddChangesToMessage` | VoxelEngine/ecs/system/system_synchronizer.hpp:322-347 | the loop collects the changes of one component |
| `SystemSynchronizer.Synchronizer.AddRemovalsToMessage` | VoxelEngine/ecs/system/system_synchronizer.hpp:351-373 | the loop collects the removals of one component |
| `SystemSynchronizer.Synchronizer.RemoveDestroyedComponentData` | VoxelEngine/ecs/system/system_synchronizer.hpp:377-387 | drops the caches of removed components of one kind |
| `SystemSynchronizer.Synchronizer.ServeConnection` | VoxelEngine/ecs/system/system_synchronizer.hpp:124-156 | component by component, everything for one connection is as if all its values were serialized first |
| `SystemSynchronizer.Synchronizer.RemoveWhatElapsed` | VoxelEngine/ecs/system/system_synchronizer.hpp:159-163 | the second look for caches of removed components finds none |
| `SystemSynchronizer.Synchronizer.OnSystemUpdate` | VoxelEngine/ecs/system/system_synchronizer.hpp:110-182 | caches, the compound of every connection and the timers after a tick are those of the model, for any number of connections; the components due are those of `Elapsed`, and over many ticks those of `SyncTimers.DueIff` |
| `Autobinding.BindKeepsDistinct` | VoxelEngine/graphics/shader/preprocessor/binding_generator.cpp:52-58 | a lookup changes no entry and never gives two entries that count together the same number |
| `Autobinding.PiecesMakeSource` | VoxelEngine/graphics/shader/preprocessor/binding_generator.cpp:22-71 | splitting a source into text and directives loses nothing |
| `Autobinding.RenderFillsWritten` | VoxelEngine/graphics/shader/preprocessor/binding_generator.cpp:60-68 | the output is the source with a layout, and the number listed for it, in the place of each token |
| `Autobinding.SameBindingIffSameName` | VoxelEngine/graphics/shader/compiler/compiler.cpp:24-36 | over all stages that share a table, two blocks get the same binding if and only if they are of the same kind and name |
| `Autobinding.WrittenInStagesIsRecorded` | VoxelEngine/graphics/shader/compiler/compiler.cpp:24-36 | every number written in any stage is the final table's entry |
| `Autobinding.DecimalRoundTrip` | VoxelEngine/graphics/shader/preprocessor/binding_generator.cpp:60-66 | numbers are written so that different ones differ |
| `Autobinding.OneOfEach` | VoxelEngine/graphics/shader/preprocessor/binding_generator.cpp:43-66 | what a source with a block of each kind and a constant becomes, character by character: blocks count together, constants on their own, and each kind gets its own text |
| `Autobinding.WhiteSpace` | VoxelEngine/graphics/shader/preprocessor/binding_generator.cpp:75-81 | white space is what it is in the C locale |
| `Autobinding.DirectivesAreTokens` | VoxelEngine/graphics/shader/preprocessor/binding_generator.cpp:27-36 | a source has a directive if and only if a token occurs in it, inside a word or not, before its very end; otherwise source and table stay as they are |
| `Autobinding.DirectivesStandAloneIff` | VoxelEngine/graphics/shader/preprocessor/binding_generator.cpp:22-51 | every directive of a source is a word of its own with white space and then a name behind it if and only if, read word by word, a word follows each token that is a word, unless the token ends the source, and no other word has a token in it, those names excepted |
| `Autobinding.TokenInsideName` | VoxelEngine/graphics/shader/preprocessor/binding_generator.hpp:8-12 | in a shader that begins with a block whose instance is called something that ends in UBO and uses the instance once, with no other token about, the ends of both words become layouts with bindings of their own |
| `Autobinding.ShaderWithToken` | VoxelEngine/graphics/shader/preprocessor/binding_generator.cpp:27-36 | a whole vertex shader of that kind, with what it becomes |
| `Autobinding.TokenWithoutName` | VoxelEngine/graphics/shader/preprocessor/binding_generator.cpp:38-58 | a token with nothing but white space behind it at the end of the source becomes a layout, and takes a binding, for a block without a name |
| `Autobinding.ConstantsOfOneTypeCollide` | VoxelEngine/graphics/shader/preprocessor/binding_generator.cpp:41-58 | a source that declares two constants of one type, and nothing else, gives both the id 0 |
| `Autobinding.TwoConstants` | VoxelEngine/graphics/shader/preprocessor/binding_generator.hpp:8-12 | two constants declared as the documented usage says get the same id |
| `AutobindingPreprocessor.AutobindingData.BindingFor` | VoxelEngine/graphics/shader/preprocessor/binding_generator.cpp:43-58 | the known number, or the next free one, which is then taken |
| `AutobindingPreprocessor.EatWhitespace` | VoxelEngine/graphics/shader/preprocessor/binding_generator.cpp:75-81 | counts the white space in front |
| `AutobindingPreprocessor.EatWord` | VoxelEngine/graphics/shader/preprocessor/binding_generator.cpp:84-93 | counts the characters up to the next white space |
| `AutobindingPreprocessor.Preprocess` | VoxelEngine/graphics/shader/preprocessor/binding_generator.cpp:6-72 | the scan ends, what it has not read is always an end of the original source, and text and table are those of the recursive rewriting |
| `AutobindingPreprocessor.ReplaceDirective` | VoxelEngine/graphics/shader/preprocessor/binding_generator.cpp:40-70 | editing in front of the position leaves the unread part as it was, and shorter |

## Left out

- `load_all_plugins`, `try_load_all_plugins` and their unload counterparts are loops over single calls, and every
  sequence of calls is covered.
- Plugin records are names instead of pointers; scanning, `unscan_plugin`, the callbacks of a plugin and the flag
  `dynamic`, which is only handed to them, are not modelled.
- Message ids are assumed not to run past 16 bits, which the code does not check. Users are assumed not to send the
  synchronization and compound messages themselves, and handlers not to send while a paused handler is flushed.
- The type hashes of messages are stored and announced, but the debug assertions on them are not modelled.
- Sockets and the overloads that avoid serialization between handlers of one process are not part of this model.
- The fast path for containers of trivial elements is left out of the serializer: its constraint asks for a `resize`
  without argument, which no container has.
- Meshing is one atomic step with no write lock held; the asynchronous task, the status MESHING and overlapping chunk
  lockers, where a flag stands in for a count, are not modelled.
- Tile coordinates are unbounded integers. The tile registry is a fixed table from tile data to tiles, and texture
  lookup and vertex assembly are one function of tile, side and corner.
- Chunk loaders and load priorities only decide when chunks are loaded.
- Handlers of the dispatchers are finite scripts, and one-time handlers, threads and `has_handlers_for` are left out;
  the delayed dispatcher is not drained from within a handler.
- Atlas requests are assumed to be no larger than the atlas on each axis, since the loop bounds are differences of
  unsigned numbers. Texture coordinates are whole pixels instead of fractions; uploads, and placing or removing single
  subtextures in the generative atlas, are not modelled.
- GlslConformance.LayoutConforms: leaves out types with a matrix of two rows, or with one of three rows in front of a
  member aligned to four bytes, for which it is false; `GlslMatrices` shows how. Row-major matrices are not modelled.
- GlslLayout.LayoutIsTranslationInvariant: asks under std430 that nothing with alignment 0 is written, since such a
  value is not appended at all.
- Entity ids are assumed not to be reused. The orders in which the registry and the sets are iterated are parameters,
  and the iteration of destroyed entities follows the order of destruction.
- Partially synchronized components, whose callbacks are called as they appear and disappear, are not modelled, and
  the comparison of hashes is taken as one of bytes. Which entities have the required tags, and what the rules for
  single entities answer, are parameters of every tick.
- The client is assumed to accept every change that the server sends; removing a component that is not there counts as
  a failure.
- Autobinding.SameBindingIffSameName: binding numbers are unbounded, whereas the table stores them in 32 bits.
- Other preprocessors, reflection, and everything that calls OpenGL, shaderc or a window are not part of this model.
