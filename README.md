# A verified model of the mixr station scheduler and DIS entity-state intake

This project models, in Dafny, the core of a real-time distributed
simulation engine (the mixr / OpenEaagles framework):

- **DIS entity-state intake** (`dis_entity_state.dfy`, module `DisNetIO`):
  how the DIS network handler takes in an Entity State PDU (IEEE 1278.1,
  section 5.3.3.1 of IEEE 1278.1-1995). Echoes of the handler's own site and
  application are dropped. So are PDUs about players the handler publishes
  itself (OUTPUT NIBs). Every other PDU goes to the INPUT NIB of its
  `(playerId, site, app)` identity. That NIB is created the first time the
  identity is heard, with its name taken from the marking, the federate
  name, the dead-reckoning algorithm, the entity type and the Force ID to
  side mapping. The PDU's data is then transferred to the NIB. The tables
  are sequences of NIB values. The class `NetIO` keeps the invariant that no
  identity has two INPUT NIBs.
- **Station scheduler** (`station.dfy`, module `SimulationStation`):
  - ownship binding (`setOwnshipPlayer`, `setOwnshipByName`) with its
    DISCONNECT-before-CONNECT order;
  - the one-shot startup RESET countdown;
  - `updateData`'s choice between creating a thread and running work inline;
  - network input frames before output frames;
  - the fast-forward repeat count;
  - the range-checked slot setters.

  The calls the station makes into other components are recorded in order
  in an activity log (`log`). A thread is a flag.
- Smaller pieces, one module each:
  - `PairStream` first-match searches (`pair_stream.dfy`);
  - `Identifier`'s space-to-underscore normalisation (`identifier.dfy`);
  - `ExternalStore`'s jettison-once flags (`external_store.dfy`);
  - `Ai2DiSwitch`'s analog-to-discrete threshold (`ai2di_switch.dfy`);
  - `Controller`'s bounds-checked channel reads and device index
    (`controller.dfy`);
  - `Effects`' time-of-flight detonation (`effects.dfy`);
  - `OtwPC`'s every-fifth-frame send counter and init-once network state
    (`otw_pc.dfy`);
  - the `Add`/`Subtract`/`Multiply`/`Divide` numbers (`operators.dfy`);
  - the UBF behaviour's vote slot (`abstract_behavior.dfy`).

`common.dfy` holds the shared `Option` type and the fixed-width integer
ranges.

Modelling conventions:

- A nullable C++ pointer or argument is an `Option` (None is `nullptr`).
- Object identity is value equality of the datatype that stands for the object.
- C++ `double` values are `real`. No IEEE-754 rounding is claimed.
- A C++ `unsigned short`, `unsigned int` or `int` is a subtype of `int` with
  that range.

A call into code whose body is not part of this model becomes a parameter:

- whether `createNewInputNib()` returns a NIB (`allocOk`);
- whether a thread starts (`createOk`);
- the base class's kill-notification result (`killed`);
- the initial values the headers give (constructor parameters).

## Model

| member | source | states |
|---|---|---|
| `DisNetIO.ForceToSide` | src/interop/dis/NetIO_entity_state.cpp:91-107 | FRIENDLY is BLUE, OPPOSING is RED and NEUTRAL is WHITE, each in both directions |
| `DisNetIO.GrayIsEverythingElse` | src/interop/dis/NetIO_entity_state.cpp:104-107 | GRAY is assigned exactly to the Force IDs outside the three named ones, so the mapping is total |
| `DisNetIO.CString` | src/interop/dis/NetIO_entity_state.cpp:62-63 | the copied marking is a prefix of the marking, at most 11 bytes, NUL-free, and stops only at the buffer limit, the end or a NUL |
| `DisNetIO.MarkingName` | src/interop/dis/NetIO_entity_state.cpp:61-67 | the new player's name never exceeds the 11 characters the 12-byte buffer leaves. For character set 1 it is the marking up to its first NUL, and "DIS PLAYER" for any other character set |
| `DisNetIO.Transfer` | src/interop/dis/NetIO_entity_state.cpp:117-119 | handing a PDU to a NIB keeps its identity and every other field, and appends the PDU to its transfers |
| `DisNetIO.NewInputNib` | src/interop/dis/NetIO_entity_state.cpp:57-107 | a new NIB carries the PDU's identity and has had nothing transferred to it yet |
| `DisNetIO.Find` | src/interop/dis/NetIO_entity_state.cpp:46-52 | the search finds the first NIB with the identity, and finds none exactly when no NIB has it |
| `DisNetIO.FindUnique` | src/interop/dis/NetIO_entity_state.cpp:52 | in a table with at most one NIB per identity, looking up a NIB's identity finds that very NIB |
| `DisNetIO.EchoIsIgnored` | src/interop/dis/NetIO_entity_state.cpp:43 | a PDU with the handler's own site and application leaves the input table unchanged |
| `DisNetIO.OutputPlayerIsIgnored` | src/interop/dis/NetIO_entity_state.cpp:46-47 | a PDU whose identity has an OUTPUT NIB leaves the input table unchanged |
| `DisNetIO.NewIdentityIsAppended` | src/interop/dis/NetIO_entity_state.cpp:57-119 | an accepted PDU of an unknown identity adds exactly one NIB (at the end, as this model places it) and keeps the others. That NIB has the PDU's identity, name, federate name, dead-reckoning algorithm, 7-field entity type and side, and the PDU as its only transfer |
| `DisNetIO.KnownIdentityOnlyTransfers` | src/interop/dis/NetIO_entity_state.cpp:52-119 | for an identity that already has an INPUT NIB, only the transfer happens. Name, side, type and identity are not rewritten, and other NIBs are untouched |
| `DisNetIO.AllocationFailureChangesNothing` | src/interop/dis/NetIO_entity_state.cpp:58-59 | when the NIB cannot be allocated, nothing is inserted and nothing is transferred |
| `DisNetIO.IntakeKeepsIdsUnique` | src/interop/dis/NetIO_entity_state.cpp:52-59 | one PDU never gives an identity a second INPUT NIB |
| `DisNetIO.IntakeKeepsPlaces` | src/interop/dis/NetIO_entity_state.cpp:109-119 | with the insert modelled as an append, one PDU never removes a NIB and never changes an existing NIB's identity |
| `DisNetIO.IntakeAllKeepsIdsUnique` | src/interop/dis/NetIO_entity_state.cpp:31-120 | after any stream of PDUs and allocation outcomes, each identity still has at most one INPUT NIB, and no NIB is lost or changes identity (with the insert modelled as an append) |
| `DisNetIO.AcceptedPduReachesItsNib` | src/interop/dis/NetIO_entity_state.cpp:114-119 | an accepted PDU whose NIB exists or is allocated ends up as the latest transfer of its identity's NIB |
| `DisNetIO.NetIO.ProcessEntityStatePdu` | src/interop/dis/NetIO_entity_state.cpp:31-120 | processEntityStatePDU sets its fields one at a time. The new input table is the intake of the PDU, the output table is unchanged, and the invariant holds |
| `SimulationStation.SameOwnshipChangesNothing` | src/simulation/Station.cpp:918 | binding the current ownship again succeeds and changes and notifies nothing |
| `SimulationStation.NullOwnshipClears` | src/simulation/Station.cpp:918-930 | binding null succeeds. When there was an ownship, it clears ownship and name and sends DISCONNECT to the old ownship; with none, nothing changes (the name is kept) |
| `SimulationStation.NewOwnshipMustBeListedAndLocal` | src/simulation/Station.cpp:933-964 | another player is bound exactly when it is in the player list and local. Then the old ownship is told DISCONNECT before the new one is told CONNECT, and the name is the slot of the first pair holding the player |
| `SimulationStation.FailedBindingChangesNothing` | src/simulation/Station.cpp:933-964 | a refused binding leaves ownship and name unchanged and notifies nobody |
| `SimulationStation.ConnectComesLast` | src/simulation/Station.cpp:937-956 | CONNECT goes only to the newly bound ownship, and only as the last notification |
| `SimulationStation.TimerStep` | src/simulation/Station.cpp:324-329 | a negative timer is left alone. Otherwise the timer drops by dt, and RESET fires exactly when it falls below zero |
| `SimulationStation.NegativeTimerIsFrozen` | src/simulation/Station.cpp:324 | once the timer is negative, no later tick changes it or fires RESET |
| `SimulationStation.StartupResetFiresOnce` | src/simulation/Station.cpp:324-329 | over any run of ticks RESET fires at most once: exactly once when the timer starts at or above zero and ends below zero |
| `SimulationStation.BackgroundInlineExactly` | src/simulation/Station.cpp:347-354 | background work runs inline iff bgRate is 0 and there is no background thread. A thread is created iff bgRate is above 0 and there is none |
| `SimulationStation.NetworkInlineExactly` | src/simulation/Station.cpp:357-365 | with networks present, network work runs inline iff netRate is 0 and there is no network thread. Every inputFrame then precedes every outputFrame, each half in list order |
| `SimulationStation.ValidStationNeverRunsNetworkInline` | src/simulation/Station.cpp:1206-1220 | with a netRate above zero, which is all the slot setter accepts, updateData's network part only ever creates a thread. `UpdateNetworks` and `UpdateData` apply this to a station that satisfies `Valid()` |
| `SimulationStation.Station.constructor` | src/simulation/Station.cpp:29-89 | the documented default rates and the default priorities, with no ownship, no threads and no startup RESET |
| `SimulationStation.Station.SetOwnshipPlayer` | src/simulation/Station.cpp:915-966 | the player-list walk ends in the binding `BindOwnship` describes: new ownship, name, notifications in order, and result |
| `SimulationStation.Station.SetOwnshipByName` | src/simulation/Station.cpp:882-910 | true exactly when the first pair with the name exists and holds a player other than the ownship, whatever setOwnshipPlayer then decides |
| `SimulationStation.Station.SetSlotOwnshipName` | src/simulation/Station.cpp:1103-1109 | the name is replaced. Every other field is left as it is |
| `SimulationStation.Station.SetSlotSimulation` | src/simulation/Station.cpp:982-994 | the simulation is replaced. Every other field is left as it is |
| `SimulationStation.Station.SetSlotNetworks` | src/simulation/Station.cpp:1114-1148 | the network list is replaced. Every other field is left as it is |
| `SimulationStation.Station.SetDataRecorder` | src/simulation/Station.cpp:970-976 | the data recorder is attached or detached. Every other field is left as it is |
| `SimulationStation.Station.UpdateStartupResetTimer` | src/simulation/Station.cpp:321-329 | the timer moves by one `TimerStep`, and RESET is logged exactly when it fires |
| `SimulationStation.Station.SetSlotStartupResetTime` | src/simulation/Station.cpp:1310-1323 | a new time arms the timer with it. Removing a configured time disarms it, and with neither the timer is left as it is. Every other field is left as it is |
| `SimulationStation.Station.ProcessTimeCriticalTasks` | src/simulation/Station.cpp:546-550 | tcFrame(dt) is called exactly fastForwardRate times, so zero times at rate 0 |
| `SimulationStation.Station.ProcessNetworkInputTasks` | src/simulation/Station.cpp:591-605 | inputFrame(dt) on every network in list order, or nothing without a list |
| `SimulationStation.Station.ProcessNetworkOutputTasks` | src/simulation/Station.cpp:610-624 | outputFrame(dt) on every network in list order, or nothing without a list |
| `SimulationStation.Station.ProcessBackgroundTasks` | src/simulation/Station.cpp:556-585 | one background step is logged |
| `SimulationStation.Station.CreateTimeCriticalProcess` | src/simulation/Station.cpp:483-499 | without a thread, one is built with the T/C priority, rate and stack size (when nonzero), and kept only if it starts. With a thread, nothing happens |
| `SimulationStation.Station.CreateNetworkProcess` | src/simulation/Station.cpp:504-520 | as above, for the network thread |
| `SimulationStation.Station.CreateBackgroundProcess` | src/simulation/Station.cpp:525-541 | as above, for the background thread |
| `SimulationStation.Station.UpdateBackground` | src/simulation/Station.cpp:346-354 | the background half of updateData: exactly `BackgroundPart`, so a thread is created iff bgRate > 0 with none held, and the work runs inline iff bgRate == 0 with none held |
| `SimulationStation.Station.UpdateNetworks` | src/simulation/Station.cpp:356-365 | the network half of updateData: exactly `NetworkPart`, so with networks present every inputFrame is logged before any outputFrame when run inline. On a station within the slot ranges (`Valid()`) it only ever creates the thread |
| `SimulationStation.Station.UpdateData` | src/simulation/Station.cpp:344-374 | the background part, then the network part (inputs before outputs), then the recorder's records, in that order. Threads exist afterwards exactly as the rates and creation outcomes dictate. On a station within the slot ranges no network frame runs inline |
| `SimulationStation.Station.SetTcThread` | src/simulation/Station.cpp:861-865 | an existing thread is terminated before it is replaced |
| `SimulationStation.Station.SetNetThread` | src/simulation/Station.cpp:867-871 | an existing thread is terminated before it is replaced |
| `SimulationStation.Station.SetBgThread` | src/simulation/Station.cpp:873-877 | an existing thread is terminated before it is replaced |
| `SimulationStation.Station.SetSlotTimeCriticalRate` | src/simulation/Station.cpp:1154-1168 | only a rate above 0 is accepted. A rejected or null value returns false and leaves the rate unchanged. Every other field is left as it is |
| `SimulationStation.Station.SetSlotTimeCriticalPri` | src/simulation/Station.cpp:1174-1188 | only a priority in [0, 1] is accepted. A rejected value leaves it unchanged. Every other field is left as it is |
| `SimulationStation.Station.SetSlotTimeCriticalStackSize` | src/simulation/Station.cpp:1190-1200 | only a size of 0 or more is accepted. Every other field is left as it is |
| `SimulationStation.Station.SetSlotNetworkRate` | src/simulation/Station.cpp:1206-1220 | only a rate above 0 is accepted. Every other field is left as it is |
| `SimulationStation.Station.SetSlotNetworkPri` | src/simulation/Station.cpp:1226-1240 | only a priority in [0, 1] is accepted. Every other field is left as it is |
| `SimulationStation.Station.SetSlotNetworkStackSize` | src/simulation/Station.cpp:1242-1252 | only a size of 0 or more is accepted. Every other field is left as it is |
| `SimulationStation.Station.SetSlotBackgroundRate` | src/simulation/Station.cpp:1258-1272 | only a rate of 0 or more is accepted. Every other field is left as it is |
| `SimulationStation.Station.SetSlotBackgroundPri` | src/simulation/Station.cpp:1278-1292 | only a priority in [0, 1] is accepted. Every other field is left as it is |
| `SimulationStation.Station.SetSlotBackgroundStackSize` | src/simulation/Station.cpp:1294-1304 | only a size of 0 or more is accepted. Every other field is left as it is |
| `SimulationStation.Station.SetSlotFastForwardRate` | src/simulation/Station.cpp:1329-1348 | only a count of 0 or more is accepted. A rejected value leaves it unchanged. Every other field is left as it is |
| `SimulationStation.Station.SetSlotEnableUpdateTimers` | src/simulation/Station.cpp:1353-1360 | a non-null number sets the flag. A null one is refused. Every other field is left as it is |
| `BasePairStream.FirstMatch` | src/base/PairStream.cpp:49-61 | the index of the first matching pair: every earlier pair fails to match, and None exactly when no pair matches |
| `BasePairStream.Search` | src/base/PairStream.cpp:53-58 | the cursor walk returns the pair at the first match, or null |
| `BasePairStream.FindByType` | src/base/PairStream.cpp:22-44 | the first pair whose object is of the class type, or null exactly when none is. Both variants are one read-only walk |
| `BasePairStream.FindByName` | src/base/PairStream.cpp:49-75 | the first pair whose slot equals the name. A null name finds nothing |
| `BasePairStream.FindName` | src/base/PairStream.cpp:82-96 | the slot name of the first pair holding exactly the object, or null when the object is null or absent |
| `BasePairStream.Equal` | src/base/PairStream.cpp:102-107 | two streams are equal iff they hold equal pairs in the same order |
| `BasePairStream.NotEqual` | src/base/PairStream.cpp:109-114 | `!=` is the negation of `==` |
| `BasePairStream.FirstByNameIgnoresLaterDuplicates` | src/base/PairStream.cpp:54-58 | appending pairs never changes what an existing name finds |
| `BaseIdentifier.Underscored` | src/base/Identifier.cpp:35-38 | the same length as the argument, with each character normalised |
| `BaseIdentifier.ReplaceSpaces` | src/base/Identifier.cpp:34-39 | the buffer loop yields the normalised string |
| `BaseIdentifier.UnderscoredOnlySpaces` | src/base/Identifier.cpp:36-37 | each ' ' becomes '_' and every other character is kept |
| `BaseIdentifier.UnderscoredHasNoSpace` | include/mxrp/base/Identifier.hpp:12-17 | a normalised string holds no space |
| `BaseIdentifier.UnderscoredIdempotent` | src/base/Identifier.cpp:35-38 | normalising twice is normalising once |
| `BaseIdentifier.UnderscoredFixesSpaceFree` | src/base/Identifier.cpp:35-38 | a string without spaces is left as it is |
| `BaseIdentifier.CatStrOnEmptyIsSetStr` | src/base/Identifier.cpp:59-62 | catStr on an empty identifier is setStr |
| `BaseIdentifier.SettersKeepNoSpace` | include/mxrp/base/Identifier.hpp:12-17 | neither setter ever stores a space |
| `BaseIdentifier.Identifier.constructor` | src/base/Identifier.cpp:13-16 | the empty identifier |
| `BaseIdentifier.Identifier.FromString` | src/base/Identifier.cpp:18-22 | construction from a string goes through setStr |
| `BaseIdentifier.Identifier.SetStr` | src/base/Identifier.cpp:27-48 | the stored text is the normalised argument, or empty for a null or empty argument. It holds no space |
| `BaseIdentifier.Identifier.CatStr` | src/base/Identifier.cpp:53-74 | a null argument changes nothing. On an empty identifier it is setStr, otherwise the normalised argument is appended. No space is ever stored |
| `SimulationExternalStore.Jettison` | src/simulation/ExternalStore.cpp:86-95 | succeeds iff jettisonable and not yet jettisoned. It then sets jettisoned and never touches jettisonable |
| `SimulationExternalStore.SecondJettisonFails` | src/simulation/ExternalStore.cpp:89 | a second jettison returns false and changes nothing |
| `SimulationExternalStore.AtMostOneJettisonWithoutReset` | src/simulation/ExternalStore.cpp:76-95 | between resets at most one jettison succeeds, and a jettisoned store stays jettisoned |
| `SimulationExternalStore.NotJettisonableStaysOnBoard` | src/simulation/ExternalStore.cpp:86-95 | a store that is not jettisonable is never jettisoned by the event, whatever else happens |
| `SimulationExternalStore.ExternalStore.constructor` | src/simulation/ExternalStore.cpp:35-48 | no type, jettisonable, not jettisoned |
| `SimulationExternalStore.ExternalStore.OnJettisonEvent` | src/simulation/ExternalStore.cpp:86-95 | the flags move by one `Jettison` step |
| `SimulationExternalStore.ExternalStore.Reset` | src/simulation/ExternalStore.cpp:76-81 | clears jettisoned and keeps jettisonable |
| `SimulationExternalStore.ExternalStore.SetJettisonable` | src/simulation/ExternalStore.cpp:124-128 | sets only the jettisonable flag and returns true |
| `SimulationExternalStore.ExternalStore.SetSlotJettisonable` | src/simulation/ExternalStore.cpp:142-146 | the number's boolean goes to setJettisonable |
| `SimulationExternalStore.ExternalStore.SetSlotType` | src/simulation/ExternalStore.cpp:135-139 | the type string is replaced |
| `SimulationExternalStore.ExternalStore.GetType` | src/simulation/ExternalStore.cpp:102-105 | the type string |
| `SimulationExternalStore.ExternalStore.IsJettisonable` | src/simulation/ExternalStore.cpp:108-111 | the jettisonable flag |
| `SimulationExternalStore.ExternalStore.IsJettisoned` | src/simulation/ExternalStore.cpp:114-117 | the jettisoned flag |
| `IoDeviceAi2DiSwitch.SwitchFlag` | src/iodevice/Ai2DiSwitch.cpp:130-131 | the bit is `vin >= level`, or its negation when inverted |
| `IoDeviceAi2DiSwitch.InvertFlips` | src/iodevice/Ai2DiSwitch.cpp:131 | inverting flips every bit |
| `IoDeviceAi2DiSwitch.SwitchMonotone` | src/iodevice/Ai2DiSwitch.cpp:130 | a higher analog value never turns a set (non-inverted) bit off |
| `IoDeviceAi2DiSwitch.Ai2DiSwitch.constructor` | src/iodevice/Ai2DiSwitch.cpp:31-45 | disabled, location 0, channel 0, level 0, not inverted |
| `IoDeviceAi2DiSwitch.Ai2DiSwitch.SetLocation` | src/iodevice/Ai2DiSwitch.cpp:90-94 | sets the location only |
| `IoDeviceAi2DiSwitch.Ai2DiSwitch.SetChannel` | src/iodevice/Ai2DiSwitch.cpp:96-101 | sets the channel and enables the device |
| `IoDeviceAi2DiSwitch.Ai2DiSwitch.SetLevel` | src/iodevice/Ai2DiSwitch.cpp:103-107 | sets the level only, leaving the enable flag alone |
| `IoDeviceAi2DiSwitch.Ai2DiSwitch.SetInvertFlag` | src/iodevice/Ai2DiSwitch.cpp:109-113 | sets the invert flag only |
| `IoDeviceAi2DiSwitch.Ai2DiSwitch.ProcessInputs` | src/iodevice/Ai2DiSwitch.cpp:118-134 | the analog value is 0 unless the device is given and enabled. With `inData` given, exactly the bit at `location` is written, and it is the switched value. Without `inData` nothing is written |
| `IoDeviceAi2DiSwitch.Ai2DiSwitch.SetSlotLocation` | src/iodevice/Ai2DiSwitch.cpp:148-158 | a null or negative number is rejected with the state unchanged |
| `IoDeviceAi2DiSwitch.Ai2DiSwitch.SetSlotChannel` | src/iodevice/Ai2DiSwitch.cpp:161-171 | a null or negative number is rejected. Otherwise the channel is set and the device enabled |
| `IoDeviceAi2DiSwitch.Ai2DiSwitch.SetSlotLevel` | src/iodevice/Ai2DiSwitch.cpp:174-181 | any non-null number becomes the level |
| `IoDeviceAi2DiSwitch.Ai2DiSwitch.SetSlotInverted` | src/iodevice/Ai2DiSwitch.cpp:184-191 | a non-null number's boolean becomes the invert flag |
| `IoDeviceController.Controller.GetNumDiscreteInputPorts` | src/iodevice/Controller.cpp:49-52 | always 1 |
| `IoDeviceController.Controller.GetDiscreteInput` | src/iodevice/Controller.cpp:54-62 | succeeds iff the out pointer is non-null and `bit < numDI`, and then yields `inBits[bit]`. On failure the pointee is untouched |
| `IoDeviceController.Controller.GetAnalogInput` | src/iodevice/Controller.cpp:69-77 | succeeds iff the out pointer is non-null and `channel < numAI`, and then yields `inData[channel]`. On failure the pointee is untouched |
| `IoDeviceController.Controller.SetDeviceIndex` | src/iodevice/Controller.cpp:90-98 | accepts exactly 0..31. Otherwise it returns false with the index unchanged |
| `IoDeviceController.Controller.SetSlotDeviceIndex` | src/iodevice/Controller.cpp:106-113 | a null number returns false. Any other goes to setDeviceIndex |
| `PlayerEffects.UpdateTof` | src/models/player/Effects.cpp:77-92 | nothing changes unless ACTIVE. When ACTIVE, TOF grows by exactly dt, and the store becomes DETONATED with DETONATE_NONE iff TOF reaches maxTOF |
| `PlayerEffects.InactiveIsFrozen` | src/models/player/Effects.cpp:80 | a store that is not ACTIVE is untouched by any number of updates |
| `PlayerEffects.ActiveAccumulates` | src/models/player/Effects.cpp:80-83 | while the running TOF stays below maxTOF, the store stays ACTIVE and its TOF is the old one plus the sum of the dts |
| `PlayerEffects.DetonatesOnFirstFrameAtMax` | src/models/player/Effects.cpp:83-89 | the frame on which TOF first reaches maxTOF detonates the store with DETONATE_NONE, and later frames change nothing |
| `PlayerEffects.Effects.constructor` | src/models/player/Effects.cpp:30-44 | maxTOF 10, lethal range 50, max burst range 500, TSG and SOBT 9999, EOBT 0 |
| `PlayerEffects.Effects.UpdateTOF` | src/models/player/Effects.cpp:77-92 | the flight state moves by one `UpdateTof` step. Every other field is left as it is |
| `PlayerEffects.Effects.CrashNotification` | src/models/player/Effects.cpp:55-61 | ends DETONATED with DETONATE_NONE and returns the kill notification's result. Every other field is left as it is |
| `PlayerEffects.Effects.CollisionNotification` | src/models/player/Effects.cpp:66-72 | ends DETONATED with DETONATE_NONE and returns the kill notification's result. Every other field is left as it is |
| `PlayerEffects.Effects.SetSlotDragIndex` | src/models/player/Effects.cpp:149-153 | the number becomes the drag index. Every other field is left as it is |
| `OtwPc.SendStep` | src/otw/pc/OtwPC.cpp:84-91 | the counter drops by one. `sendPcData` is called iff it reaches 0 or below, and the counter is then reloaded with 5 |
| `OtwPc.SendCount` | src/otw/pc/OtwPC.cpp:84-91 | from a counter of at most 5, k calls make `(k + 5 - max(scnt, 1)) / 5` calls of `sendPcData` |
| `OtwPc.SendsOnFirstCallThenEveryFifth` | src/otw/pc/OtwPC.cpp:55 | after a copy, `sendPcData` is called on the first call and then on every fifth: call k calls it iff (k - 1) is a multiple of 5 |
| `OtwPc.FrameSyncStep` | src/otw/pc/OtwPC.cpp:110-123 | an attempt is made only when neither flag is set. Success sets (true, false) and failure sets (false, true) |
| `OtwPc.SettledAfterFirstAttempt` | src/otw/pc/OtwPC.cpp:113-122 | from fresh flags the first frameSync decides the outcome for good |
| `OtwPc.StaysSettled` | src/otw/pc/OtwPC.cpp:113 | once either flag is set, no later frameSync attempts anything |
| `OtwPc.OtwPC.constructor` | src/otw/pc/OtwPC.cpp:35-41 | no handler, and no range, models or elevations |
| `OtwPc.OtwPC.CopyData` | src/otw/pc/OtwPC.cpp:43-56 | no handler, counter 0 and the original's flags. With `cc` the range, model and elevation limits are 0; otherwise they are whatever the base-class copy left |
| `OtwPc.OtwPC.DeleteData` | src/otw/pc/OtwPC.cpp:58-63 | clears both flags and the handler. Every other field is left as it is |
| `OtwPc.OtwPC.SendOwnshipAndModels` | src/otw/pc/OtwPC.cpp:84-91 | the counter moves by one `SendStep`, and `sendPcData` is called exactly when that step says so; `sent` counts those calls. Every other field is left as it is |
| `OtwPc.OtwPC.InitNetwork` | src/otw/pc/OtwPC.cpp:136-156 | returns false iff the output handler is null |
| `OtwPc.OtwPC.FrameSync` | src/otw/pc/OtwPC.cpp:110-123 | the flags move by one `FrameSyncStep`, with the attempt's outcome being initNetwork's. Every other field is left as it is |
| `OtwPc.OtwPC.SetSlotNetOutput` | src/otw/pc/OtwPC.cpp:163-167 | the handler is replaced. Every other field is left as it is |
| `BaseOperators.Apply` | src/base/numbers/Operators.cpp:71-89 | Add, Subtract and Multiply give `val+n2`, `val-n2` and `val*n2`. Divide gives `Quotient` |
| `BaseOperators.Quotient` | src/base/numbers/Operators.cpp:86-89 | a zero divisor leaves the value unchanged. Any other gives `val/n2` |
| `BaseOperators.AddFoldsToSum` | src/base/numbers/Operators.cpp:26-30 | an Add given numbers at its slots ends at its value plus their sum |
| `BaseOperators.SubtractFoldsToDifference` | src/base/numbers/Operators.cpp:76-79 | a Subtract ends at its value minus the sum |
| `BaseOperators.MultiplyFoldsToProduct` | src/base/numbers/Operators.cpp:81-84 | a Multiply ends at its value times the product |
| `BaseOperators.DivideSkipsZeros` | src/base/numbers/Operators.cpp:86-89 | a Divide skips every zero divisor |
| `BaseOperators.DivideByProduct` | src/base/numbers/Operators.cpp:86-89 | with no zero divisor, a Divide's result times the product of the divisors is the original value |
| `BaseOperators.Operation.Operation` | src/base/numbers/Operators.cpp:71-89 | the value becomes `Apply(op, val, n2)` in place |
| `BaseOperators.Operation.SetSecondNumber` | src/base/numbers/Operators.cpp:94-101 | null returns true and changes nothing. Otherwise `n2` is set and the operation is applied once |
| `BaseOperators.Operation.SetSlotByIndex` | src/base/numbers/Operators.cpp:26-30 | a number at any slot index goes to setSecondNumber. A non-number is not taken |
| `UbfAbstractBehavior.SlotVote` | src/base/ubf/AbstractBehavior.cpp:35-44 | a number in [1, 65535] becomes the vote with true. 0 or less and above 65535 give false with the vote unchanged |
| `UbfAbstractBehavior.AbstractBehavior.SetSlotVote` | src/base/ubf/AbstractBehavior.cpp:35-44 | the vote and the result are one `SlotVote` step |
| `UbfAbstractBehavior.VotesStayValid` | src/base/ubf/AbstractBehavior.cpp:39 | once the vote is in [1, 65535], no sequence of slot numbers takes it out of that range |
| `UbfAbstractBehavior.NoAcceptedVoteKeepsVote` | src/base/ubf/AbstractBehavior.cpp:37-43 | when no slot number in a sequence is in [1, 65535], the vote stays as it was |
| `UbfAbstractBehavior.LastAcceptedVoteWins` | src/base/ubf/AbstractBehavior.cpp:39-41 | after a sequence of slot numbers the vote is the last accepted one |

## Left out

- Threads: `TcThread`, `NetThread` and `BgThread` are flags. Whether creating
  one succeeds is a parameter. Their periodic execution, OS priorities, stack
  sizes, `terminate` and the thread body `src/simulation/StationTcThread.cpp`
  are not modelled. They are concurrency, and the thread classes are not part
  of this model.
- `Station::processBackgroundTasks` is modelled as one logged step. The I/O
  handlers' `updateData`, `sim->updateData` and the OTW systems' `updateData`
  it calls are not part of this model.
- `Station::updateTC` is modelled only for its startup RESET countdown. The I/O
  handler frames, device input and output, simulation tcFrame, OTW hand-off
  and `base::Timer::updateTimers` are calls into components that are not
  part of this model. The same holds for `reset`, `shutdownNotification`,
  `copyData` and `deleteData`, and for the OTW and I/O-handler slot setters.
- `OtwPC::copyData` first runs the base class's `copyData(org)`, which is not
  part of this model. The range, model and elevation limits it leaves are
  parameters of `CopyData`.
- `SimulationStation.Station.SetSlotNetworks`: does not model the `false`
  result for a list element that is not a network handler, because network
  handlers are a datatype here and cannot have the wrong class.
- `SimulationStation.Station.SetOwnshipPlayer` requires a simulation whenever
  it binds a non-null player other than the ownship, because the source
  dereferences it without a check.
- The time value given to `setSlotStartupResetTime` is taken in seconds. The
  unit conversion `base::Seconds::convertStatic` is not part of this model.
- `Nib::entityStatePdu2Nib` is not part of this model. A transfer is recorded
  by appending the PDU to the NIB's `updates`.
- `createNewInputNib` is not part of this model either. Its outcome is the
  parameter `allocOk`.
- `findDisNib` and `addNib2InputList` are not part of this model. The lookup
  is a search by `(playerId, site, app)`. The insert appends to the input
  list with no capacity limit. Where the real list places a new NIB, and
  whether it can refuse one, is not modelled.
- `makeFederateName` is not part of this model. The federate name is the
  `(site, app)` pair it is built from.
- `base::utStrcpy` is modelled as copying at most 11 bytes up to the first NUL.
- Dead reckoning, staleness aging, output-frame generation and entity-type
  relaxation are not part of the shown source and are not modelled.
- `Identifier`'s base class `String` is not part of this model. Its setter is
  taken to store the empty string for a null or empty argument, and its
  `catStr` to append.
- `Ai2DiSwitch::processInputs` reads a generic I/O device. Here that device is
  a `Controller`, whose bounds-checked `getAnalogInput` is modelled.
  `processOutputs` does nothing and is left out.
- `base::IoData` is reduced to a map from channel to discrete bit.
- `Effects::weaponDynamics` and the Chaff/Flare/Decoy subclasses are floating-point
  vector dynamics and descriptive constants, and are left out. The mode,
  TOF and detonation result that `Effects` inherits start at values the
  base classes give them (constructor parameters).
- `OtwPC::sendPcData` is not modelled: it builds a UDP flight-data block
  with unit conversions. A call is counted in `sent`. Whether the call
  actually sends anything (only for an `AirVehicle` ownship and a non-null
  network handler) is not modelled.
- `OtwPC::initNetwork` does not consult the handler's own `initNetwork(true)`
  result (only its presence matters), and neither does the model.
- `modelFactory`, `hotFactory`, `sendElevationRequests`, `recvElevations` and
  `reset` are empty or delegate, and are left out.
- Reference counting, `container()` back-pointers, clone-based copies and all
  `serialize`/logging output are left out. The model uses value semantics.
- Real numbers stand for `double`. No IEEE-754 rounding, infinity or NaN
  behaviour is modelled.
