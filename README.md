# BleExplorer core, modelled in Dafny

BleExplorer is an Android app that scans for Bluetooth Low Energy devices and
decodes the readings of Xiaomi sensors. It reads battery levels over GATT and
keeps a list of devices with user-given names. Its build ships a Gradle plugin
that generates enums of GATT service and characteristic ids.

This project models the parts of the app whose behaviour can be stated once the
radio, the clocks and the thread waits are made into inputs:

- **Xiaomi advertisement decoders** (`XiaomiSensor`, `XiaomiSensorFrames`,
  `MijiaHt`).
  - The MiBeacon decoder reads a little-endian frame control, then walks a
    cursor over an optional MAC, a capabilities byte and one event.
  - The older Mijia decoder reads fixed offsets.
  - Both keep temperatures and humidities in integer tenths.
- **Connection request/response handlers** (`Results`, `HandlerSpec`,
  `HandlerImpl`, `TemplateHandlerModel`, `ConnectionTemplate`).
  - The objects are the result type, the operation guard, the flags, the
    result slot, the responder callbacks and the requester's four requests.
  - Each is a class whose methods are proved against value functions.
  - The earlier all-in-one `ConnectionHandlerTemplate` is modelled as its own
    state machine.
  - A blocking wait is an input: the callbacks that arrive around it, and
    whether it timed out.
- **Battery read** (`BatteryReader`, `Timeouts`).
  - The sequence is connect, discover, read, then disconnect in a `finally`.
  - The budget comes from a stopwatch.
  - The requests' blocks map the radio's answers to results.
  - `Timeout` covers unit conversion and printing.
- **Device list** (`Devices`): appending, updating the first record with an
  address, merging sensor readings, and the custom-name rules.
- **UUID tables** (`Uuids`, `Hex`, `Decimal`, `GattServices`, `IdGenerator`).
  - `GattServices` expands 16-bit ids into the Bluetooth Base UUID (Bluetooth
    Core Specification, Vol 3, Part B, section 2.5.1).
  - It holds the `NAMES` table and the name lookup with a fallback.
  - The generator turns names into unique enum-constant names.
  - The generator's emitted `uuidString`, `fromUuid` and `getFullName` are
    modelled by what they compute.

The `handler/impl` files exist in two packages, `com.example.bleinquirer` and
`info.alkor.bleinquirer.bluetooth`. `Operation`, `BinaryState`,
`TimeoutHandler` and `ResponderImpl` are the same in both, line for line,
apart from the package. One model serves both copies, and the table below cites
each. `RequesterImpl` exists only in `com.example`.

## Model

| member | source | states |
|---|---|---|
| Results.Result.ToString | app/src/main/java/info/alkor/bleinquirer/bluetooth/handler/TemplateHandler.kt:8-20 | "Success" exactly for `Success`; any error prints as "Error(" + its message + ")" |
| Results.SingletonMessages | app/src/main/java/info/alkor/bleinquirer/bluetooth/handler/TemplateHandler.kt:22-25 | `TimedOut`, `Busy`, `NotConnected` and `NotDiscovered` equal run-time errors with the messages "timeout", "busy", "not connected" and "not discovered"; `Success` equals no error |
| Results.EqualIsEquivalence | app/src/main/java/info/alkor/bleinquirer/bluetooth/handler/TemplateHandler.kt:11-16 | message equality of errors is reflexive, symmetric and transitive |
| Results.EqualIffSameString | app/src/main/java/info/alkor/bleinquirer/bluetooth/handler/TemplateHandler.kt:11-20 | two results are `equals` exactly when their `toString` agree, so printing (like the message hash) follows equality |
| HandlerImpl.BinaryState.constructor | app/src/main/java/info/alkor/bleinquirer/bluetooth/handler/impl/BinaryState.kt:5 | a flag starts false |
| HandlerImpl.BinaryState.Write | app/src/main/java/com/example/bleinquirer/handler/impl/BinaryState.kt:7-9 | `writer(v)` leaves the value `v`, so the last write wins |
| HandlerImpl.Operation.TryAcquire | app/src/main/java/info/alkor/bleinquirer/bluetooth/handler/impl/Operation.kt:14-16 | admitted exactly when no operation is in flight; then the slot holds the new type, otherwise it is unchanged |
| HandlerImpl.Operation.Release | app/src/main/java/com/example/bleinquirer/handler/impl/Operation.kt:19-21 | the `finally` of `start` sets the slot back to `NONE` |
| HandlerImpl.TimeoutHandler.Reset | app/src/main/java/info/alkor/bleinquirer/bluetooth/handler/impl/TimeoutHandler.kt:17-18 | a wait first puts `defaultResult` back in the slot |
| HandlerImpl.TimeoutHandler.Signal | app/src/main/java/com/example/bleinquirer/handler/impl/TimeoutHandler.kt:24-25 | a signal is stored only while the slot holds `defaultResult` |
| HandlerImpl.TimeoutHandler.Finish | app/src/main/java/info/alkor/bleinquirer/bluetooth/handler/impl/TimeoutHandler.kt:16-22 | a timed-out wait gives `TimedOut`, a woken one the slot's value |
| HandlerImpl.ResponderImpl.HandleConnected | app/src/main/java/info/alkor/bleinquirer/bluetooth/handler/impl/ResponderImpl.kt:12-15 | sets connected, then signals `Success` |
| HandlerImpl.ResponderImpl.HandleDisconnected | app/src/main/java/com/example/bleinquirer/handler/impl/ResponderImpl.kt:17-21 | clears both flags, then signals the reason |
| HandlerImpl.ResponderImpl.HandleServicesDiscovered | app/src/main/java/info/alkor/bleinquirer/bluetooth/handler/impl/ResponderImpl.kt:23-26 | sets discovered only, then signals `Success` |
| HandlerImpl.ResponderImpl.HandleServicesDiscoveryError | app/src/main/java/com/example/bleinquirer/handler/impl/ResponderImpl.kt:28-31 | clears discovered only, then signals the reason |
| HandlerImpl.ResponderImpl.HandleReadingSuccess | app/src/main/java/info/alkor/bleinquirer/bluetooth/handler/impl/ResponderImpl.kt:33 | signals `Success` and changes no flag |
| HandlerImpl.ResponderImpl.HandleReadingError | app/src/main/java/com/example/bleinquirer/handler/impl/ResponderImpl.kt:34 | signals the reason and changes no flag |
| HandlerImpl.ResponderImpl.HandleAll | app/src/main/java/info/alkor/bleinquirer/bluetooth/handler/impl/ResponderImpl.kt:12-34 | a run of callbacks leaves exactly the state `HandlerSpec.DeliverAll` describes |
| HandlerImpl.RequesterImpl.AwaitCompletion | app/src/main/java/com/example/bleinquirer/handler/impl/TimeoutHandler.kt:16-22 | callbacks before the reset, the reset, callbacks during the wait, then `TimedOut` or the slot |
| HandlerImpl.RequesterImpl.HandleConnectionRequest | app/src/main/java/com/example/bleinquirer/handler/impl/RequesterImpl.kt:13-24 | `Busy` with nothing touched while another operation runs; otherwise exactly `HandlerSpec.Connect`, with the guard released |
| HandlerImpl.RequesterImpl.HandleDisconnectionRequest | app/src/main/java/com/example/bleinquirer/handler/impl/RequesterImpl.kt:26-39 | `Busy` while busy; otherwise exactly `HandlerSpec.Disconnect` |
| HandlerImpl.RequesterImpl.HandleDiscoveryRequest | app/src/main/java/com/example/bleinquirer/handler/impl/RequesterImpl.kt:41-55 | `Busy` while busy; otherwise exactly `HandlerSpec.Discover` |
| HandlerImpl.RequesterImpl.HandleReadRequest | app/src/main/java/com/example/bleinquirer/handler/impl/RequesterImpl.kt:57-70 | `Busy` while busy; otherwise exactly `HandlerSpec.Read` |
| HandlerSpec.StoredSignalIsKept | app/src/main/java/info/alkor/bleinquirer/bluetooth/handler/impl/TimeoutHandler.kt:25 | once a signal is stored, later callbacks never change the slot |
| HandlerSpec.FirstSignalWins | app/src/main/java/com/example/bleinquirer/handler/impl/TimeoutHandler.kt:25 | after a reset, the first callback's signal is the one the slot keeps |
| HandlerSpec.SlotIsFirstStored | app/src/main/java/info/alkor/bleinquirer/bluetooth/handler/impl/TimeoutHandler.kt:24-25 | the slot after any run of callbacks is the first signal that differs from the reset value, independent of the flags |
| HandlerSpec.ResetDiscardsEarlierSignals | app/src/main/java/com/example/bleinquirer/handler/impl/TimeoutHandler.kt:17-19 | the wait's result does not depend on anything signalled before the wait began |
| HandlerSpec.AwaitResult | app/src/main/java/info/alkor/bleinquirer/bluetooth/handler/impl/TimeoutHandler.kt:16-22 | `TimedOut` on timeout whatever the slot holds; otherwise the first signal during the wait |
| HandlerSpec.OnlyConnectionEventsTouchConnected | app/src/main/java/info/alkor/bleinquirer/bluetooth/handler/impl/ResponderImpl.kt:23-34 | discovery and reading callbacks never change the connected flag |
| HandlerSpec.DisconnectClearsDiscovered | app/src/main/java/com/example/bleinquirer/handler/impl/ResponderImpl.kt:17-21 | after a disconnection nothing is discovered until `handleServicesDiscovered` |
| HandlerSpec.ConnectVerdict | app/src/main/java/com/example/bleinquirer/handler/impl/RequesterImpl.kt:15-23 | no block and no wait when connected; a block failure returned unchanged; `Success` whenever it ends connected, else the awaited result |
| HandlerSpec.DisconnectVerdict | app/src/main/java/com/example/bleinquirer/handler/impl/RequesterImpl.kt:30-38 | mirror of connect: `Success` whenever it ends disconnected, else the awaited result (`TimedOut` on timeout) |
| HandlerSpec.DiscoverVerdict | app/src/main/java/com/example/bleinquirer/handler/impl/RequesterImpl.kt:43-54 | `NotConnected` first, `Success` if already discovered, both without the block; after a wait `Success` iff discovered or signalled |
| HandlerSpec.ReadVerdict | app/src/main/java/com/example/bleinquirer/handler/impl/RequesterImpl.kt:59-69 | `NotConnected` before `NotDiscovered`; no "already read" short-circuit; the awaited result as it is |
| HandlerSpec.ReadKeepsFlags | app/src/main/java/com/example/bleinquirer/handler/impl/RequesterImpl.kt:57-70 | a read leaves the connected flag alone unless a connection callback arrives |
| TemplateHandlerModel.TemplateHandler.constructor | app/src/main/java/info/alkor/bleinquirer/bluetooth/handler/TemplateHandler.kt:49-58 | requester and responder share one pair of distinct flags, one slot whose reset value is `Busy`, and one idle guard |
| TemplateHandlerModel.HappyPath | app/src/test/java/com/example/bleinquirer/handler/TemplateHandlerTest.kt:83-95 | connect, discover, read and disconnect each answered by their callback all give `Success` |
| TemplateHandlerModel.ConnectionTimeout | app/src/test/java/com/example/bleinquirer/handler/TemplateHandlerTest.kt:98-100 | an unanswered connection gives `TimedOut` |
| TemplateHandlerModel.ServiceDiscoveryTimeout | app/src/test/java/com/example/bleinquirer/handler/TemplateHandlerTest.kt:103-108 | an unanswered discovery gives `TimedOut` |
| TemplateHandlerModel.ServiceDiscoveryError | app/src/test/java/com/example/bleinquirer/handler/TemplateHandlerTest.kt:111-118 | a discovery error is the discovery's verdict |
| TemplateHandlerModel.DisconnectionTimeout | app/src/test/java/com/example/bleinquirer/handler/TemplateHandlerTest.kt:121-132 | an unanswered disconnection after a read gives `TimedOut` |
| TemplateHandlerModel.ReadingError | app/src/test/java/com/example/bleinquirer/handler/TemplateHandlerTest.kt:135-145 | a reading error is the read's verdict |
| TemplateHandlerModel.DisconnectedWhileDiscovering | app/src/test/java/com/example/bleinquirer/handler/TemplateHandlerTest.kt:148-155 | a drop during discovery returns its reason |
| TemplateHandlerModel.DiscoverySuccessFollowedByDisconnection | app/src/test/java/com/example/bleinquirer/handler/TemplateHandlerTest.kt:158-169 | discovery then a drop: the first signal, `Success`, wins, though nothing is discovered afterwards |
| TemplateHandlerModel.BusyWhileConnecting | app/src/test/java/com/example/bleinquirer/handler/TemplateHandlerTest.kt:172-180 | a disconnection during a connection's wait is `Busy`, runs no block and changes no state; the connection, answered by `handleConnected` in the same wait, then completes with `Success` |
| ConnectionTemplate.Await | app/src/main/java/com/example/bleinquirer/ConnectionHandlerTemplate.kt:61-64 | `TimedOut` on timeout, else the stored result after the callbacks, with no reset before the wait |
| ConnectionTemplate.ConnectRequest | app/src/main/java/com/example/bleinquirer/ConnectionHandlerTemplate.kt:71-95 | `Busy` with no change while busy; waits only from NOT_CONNECTED; `Success` whenever it ends CONNECTED without a timeout, and otherwise the stored result; `TimedOut` after a timed-out wait; the guard is clear after every admitted request; no change without a wait |
| ConnectionTemplate.DisconnectRequest | app/src/main/java/com/example/bleinquirer/ConnectionHandlerTemplate.kt:97-114 | `Busy` while busy; waits only from CONNECTED, and a timed-out wait is `TimedOut`; from NOT_CONNECTED `Success` without waiting; no change without a wait |
| ConnectionTemplate.DiscoveryRequest | app/src/main/java/com/example/bleinquirer/ConnectionHandlerTemplate.kt:129-152 | `Busy` while busy; waits only when CONNECTED and NOT_DISCOVERED; `Success` whenever it ends DISCOVERED without a timeout, and otherwise the stored result; `TimedOut` after a timed-out wait; the guard is clear after every admitted request; no change without a wait |
| ConnectionTemplate.ReadRequest | app/src/main/java/com/example/bleinquirer/ConnectionHandlerTemplate.kt:164-182 | `Busy` while busy; waits only when CONNECTED, DISCOVERED and NOT_READ; `Success` whenever it ends READ without a timeout, and otherwise the stored result; `TimedOut` after a timed-out wait; the guard is clear after every admitted request; no change without a wait |
| ConnectionTemplate.RunKeepsOperation | app/src/main/java/com/example/bleinquirer/ConnectionHandlerTemplate.kt:116-192 | no callback touches the operation in flight |
| ConnectionTemplate.OnlyConnectionEventsMoveConnection | app/src/main/java/com/example/bleinquirer/ConnectionHandlerTemplate.kt:116-127 | only `handleConnected` and `handleDisconnected` move the connection state |
| ConnectionTemplate.OnlyDiscoveryEventsMoveDiscovery | app/src/main/java/com/example/bleinquirer/ConnectionHandlerTemplate.kt:122-162 | only the discovery callbacks and `handleDisconnected` move the discovery state |
| ConnectionTemplate.OnlyReadingEventsMoveReading | app/src/main/java/com/example/bleinquirer/ConnectionHandlerTemplate.kt:122-192 | only the reading callbacks and `handleDisconnected` move the reading state |
| ConnectionTemplate.LastSignalWins | app/src/main/java/com/example/bleinquirer/ConnectionHandlerTemplate.kt:66-69 | every signal overwrites the stored result, so the last signalling callback decides it |
| ConnectionTemplate.ConnectTimeoutRollsBack | app/src/main/java/com/example/bleinquirer/ConnectionHandlerTemplate.kt:77-88 | an unanswered connection reports `TimedOut` and returns to NOT_CONNECTED with no operation in flight |
| ConnectionTemplate.DiscoveryTimeoutRollsBack | app/src/main/java/com/example/bleinquirer/ConnectionHandlerTemplate.kt:135-147 | an unanswered discovery reports `TimedOut` and returns to NOT_DISCOVERED with no operation in flight |
| ConnectionTemplate.ReadTimeoutRollsBack | app/src/main/java/com/example/bleinquirer/ConnectionHandlerTemplate.kt:170-177 | an unanswered read reports `TimedOut` and returns to NOT_READ with no operation in flight |
| ConnectionTemplate.DisconnectTimeoutSticks | app/src/main/java/com/example/bleinquirer/ConnectionHandlerTemplate.kt:103-110 | an unanswered disconnection stays DISCONNECTING, after which connection and disconnection requests answer the stale result without waiting |
| ConnectionTemplate.ReadingErrorReportsSuccess | app/src/main/java/com/example/bleinquirer/ConnectionHandlerTemplate.kt:170-192 | both reading callbacks set READ, so a read woken by a reading error reports `Success`; a discovery error is reported as itself |
| ConnectionTemplate.DisconnectionAfterDiscoveryWins | app/src/main/java/com/example/bleinquirer/ConnectionHandlerTemplate.kt:122-157 | discovery then a drop within one wait gives the drop's reason |
| ConnectionTemplate.ConnectionHandlerTemplate.SignalCompletion | app/src/main/java/com/example/bleinquirer/ConnectionHandlerTemplate.kt:66-69 | the result is overwritten, nothing else changes |
| ConnectionTemplate.ConnectionHandlerTemplate.HandleConnected | app/src/main/java/com/example/bleinquirer/ConnectionHandlerTemplate.kt:116-120 | acts and signals only from CONNECTING |
| ConnectionTemplate.ConnectionHandlerTemplate.HandleDisconnected | app/src/main/java/com/example/bleinquirer/ConnectionHandlerTemplate.kt:122-127 | resets all three states and signals the reason |
| ConnectionTemplate.ConnectionHandlerTemplate.HandleServicesDiscovered | app/src/main/java/com/example/bleinquirer/ConnectionHandlerTemplate.kt:154-157 | DISCOVERED, signals `Success` |
| ConnectionTemplate.ConnectionHandlerTemplate.HandleServicesDiscoveryError | app/src/main/java/com/example/bleinquirer/ConnectionHandlerTemplate.kt:159-162 | NOT_DISCOVERED, signals the reason |
| ConnectionTemplate.ConnectionHandlerTemplate.HandleReadingSuccess | app/src/main/java/com/example/bleinquirer/ConnectionHandlerTemplate.kt:184-187 | READ, signals `Success` |
| ConnectionTemplate.ConnectionHandlerTemplate.HandleReadingError | app/src/main/java/com/example/bleinquirer/ConnectionHandlerTemplate.kt:189-192 | READ, signals the reason |
| ConnectionTemplate.ConnectionHandlerTemplate.AwaitCompletion | app/src/main/java/com/example/bleinquirer/ConnectionHandlerTemplate.kt:61-64 | the callbacks during the wait, in order, then exactly `Await` |
| ConnectionTemplate.ConnectionHandlerTemplate.HandleConnectionRequest | app/src/main/java/com/example/bleinquirer/ConnectionHandlerTemplate.kt:71-95 | the object's new state and reply are exactly `ConnectRequest` of its old state |
| ConnectionTemplate.ConnectionHandlerTemplate.HandleDisconnectionRequest | app/src/main/java/com/example/bleinquirer/ConnectionHandlerTemplate.kt:97-114 | exactly `DisconnectRequest` |
| ConnectionTemplate.ConnectionHandlerTemplate.HandleDiscoveryRequest | app/src/main/java/com/example/bleinquirer/ConnectionHandlerTemplate.kt:129-152 | exactly `DiscoveryRequest` |
| ConnectionTemplate.ConnectionHandlerTemplate.HandleReadRequest | app/src/main/java/com/example/bleinquirer/ConnectionHandlerTemplate.kt:164-182 | exactly `ReadRequest` |
| ConnectionTemplate.HappyPath | app/src/test/java/com/example/bleinquirer/ConnectionHandlerTemplateTest.kt:59-71 | the four requests answered by their callbacks all succeed |
| ConnectionTemplate.ConnectionTimeout | app/src/test/java/com/example/bleinquirer/ConnectionHandlerTemplateTest.kt:74-76 | an unanswered connection is `TimedOut` and rolled back |
| ConnectionTemplate.ServiceDiscoveryTimeout | app/src/test/java/com/example/bleinquirer/ConnectionHandlerTemplateTest.kt:79-84 | an unanswered discovery is `TimedOut` |
| ConnectionTemplate.ServiceDiscoveryError | app/src/test/java/com/example/bleinquirer/ConnectionHandlerTemplateTest.kt:87-94 | a discovery error is the discovery's verdict |
| ConnectionTemplate.ReadingTimeout | app/src/test/java/com/example/bleinquirer/ConnectionHandlerTemplateTest.kt:97-108 | an unanswered disconnection after a read is `TimedOut` and leaves DISCONNECTING |
| ConnectionTemplate.DisconnectedWhileDiscoveringServices | app/src/test/java/com/example/bleinquirer/ConnectionHandlerTemplateTest.kt:111-118 | a drop during discovery returns its reason |
| ConnectionTemplate.DiscoverySuccessFollowedByDisconnection | app/src/test/java/com/example/bleinquirer/ConnectionHandlerTemplateTest.kt:121-132 | a drop after the discovery's verdict leaves `Success` and NOT_DISCOVERED |
| ConnectionTemplate.WontStartNewOperationUntilPreviousOneIsRunning | app/src/test/java/com/example/bleinquirer/ConnectionHandlerTemplateTest.kt:135-143 | a disconnection request that arrives while a connection request waits is `Busy` and changes nothing; `handleConnected` then wakes the connection request, whose verdict is `Success` |
| XiaomiSensor.ReadShort | app/src/main/java/info/alkor/bleinquirer/bluetooth/specific/XiaomiSensor.kt:171-173 | a signed 16-bit value congruent to the unsigned little-endian one |
| XiaomiSensor.ReadUnsignedShort | app/src/main/java/info/alkor/bleinquirer/bluetooth/specific/XiaomiSensor.kt:175-178 | the little-endian 16-bit value, in 0..0xffff |
| Hex.HexByte | app/src/main/java/info/alkor/bleinquirer/bluetooth/specific/XiaomiSensor.kt:115 | `"%02x"` of a byte: exactly two lower-case hex digits |
| Hex.Reverse | app/src/main/java/info/alkor/bleinquirer/bluetooth/specific/XiaomiSensor.kt:115 | `reversed()`: the element at i is the one at the mirrored position, same length |
| Hex.JoinHexCons | app/src/main/java/info/alkor/bleinquirer/bluetooth/specific/XiaomiSensor.kt:115 | `joinToString(":")`: the first byte's digits, a colon, then the rest joined |
| Hex.Signed8 | app/src/main/java/info/alkor/bleinquirer/bluetooth/specific/XiaomiSensor.kt:101-106 | a Kotlin `Byte`'s value: -128..127 and equal to the unsigned byte modulo 256 |
| XiaomiSensor.HeaderFromWireBytes | app/src/main/java/info/alkor/bleinquirer/bluetooth/specific/XiaomiSensor.kt:55-64 | the ten flags are bits 0-7 of byte 0 and bits 0-1 of byte 1, and the version is the high nibble of byte 1, as `parseHeader` (80-98) splits the frame control |
| XiaomiSensor.CapabilitiesIgnoreSign | app/src/main/java/info/alkor/bleinquirer/bluetooth/specific/XiaomiSensor.kt:101-106 | reading the capability byte signed gives the same four capabilities as reading it unsigned |
| XiaomiSensor.Parse | app/src/main/java/info/alkor/bleinquirer/bluetooth/specific/XiaomiSensor.kt:108-168 | the cursor walk gives exactly the decoding by position, including `OutOfBounds` for the first read past the end |
| XiaomiSensor.FieldPresence | app/src/main/java/info/alkor/bleinquirer/bluetooth/specific/XiaomiSensor.kt:110-153 | address iff the MAC flag, capabilities iff their flag, and each reading iff the event is one that carries it |
| XiaomiSensor.CursorAfterFrame | app/src/main/java/info/alkor/bleinquirer/bluetooth/specific/XiaomiSensor.kt:110-154 | the cursor ends at 5, plus 6 for a MAC, 1 for capabilities, and 3 plus the declared length for an event, whatever its id |
| XiaomiSensor.TrailingBytesIgnored | app/src/main/java/info/alkor/bleinquirer/bluetooth/specific/XiaomiSensor.kt:108-168 | bytes after a decodable frame change nothing |
| XiaomiSensor.FrameCounterIgnored | app/src/main/java/info/alkor/bleinquirer/bluetooth/specific/XiaomiSensor.kt:109-110 | bytes 2-4 (product id and frame counter) are never read |
| XiaomiSensorFrames.MacOfTestSensor | app/src/test/java/info/alkor/bleinquirer/bluetooth/specific/XiaomiSensorTest.kt:11-14 | the first test sensor's reversed MAC prints as 58:2d:34:33:16:f6 |
| XiaomiSensorFrames.MacOfSecondSensor | app/src/test/java/info/alkor/bleinquirer/bluetooth/specific/XiaomiSensorTest.kt:21-24 | the second test sensor's reversed MAC prints as 58:2d:34:32:f9:36 |
| XiaomiSensorFrames.MacOfFlowerCare | app/src/test/java/info/alkor/bleinquirer/bluetooth/specific/XiaomiSensorTest.kt:72-75 | the flower sensor's reversed MAC prints as 80:ea:ca:88:af:1f |
| XiaomiSensorFrames.MacOfKettle | app/src/test/java/info/alkor/bleinquirer/bluetooth/specific/XiaomiSensorTest.kt:99-102 | the kettle's reversed MAC prints as b8:7c:6f:44:5f:f2 |
| XiaomiSensorFrames.TemperatureAndHumidityFrame | app/src/test/java/info/alkor/bleinquirer/bluetooth/specific/XiaomiSensorTest.kt:10-17 | the test frame gives address 58:2d:34:33:16:f6, 23.2 degrees and 60.7 percent (in tenths) |
| XiaomiSensorFrames.NegativeTemperatureAndHumidityFrame | app/src/test/java/info/alkor/bleinquirer/bluetooth/specific/XiaomiSensorTest.kt:19-27 | the test frame gives address 58:2d:34:32:f9:36, -3.8 degrees and 60.8 percent |
| XiaomiSensorFrames.TemperatureFrame | app/src/test/java/info/alkor/bleinquirer/bluetooth/specific/XiaomiSensorTest.kt:29-37 | the test frame gives address 58:2d:34:33:16:f6, 23.2 degrees and no humidity |
| XiaomiSensorFrames.NegativeTemperatureFrame | app/src/test/java/info/alkor/bleinquirer/bluetooth/specific/XiaomiSensorTest.kt:40-47 | the test frame gives address 58:2d:34:32:f9:36, -4.1 degrees and no humidity |
| XiaomiSensorFrames.HumidityFrame | app/src/test/java/info/alkor/bleinquirer/bluetooth/specific/XiaomiSensorTest.kt:49-57 | the test frame gives address 58:2d:34:33:16:f6, no temperature and 60.7 percent |
| XiaomiSensorFrames.BatteryFrame | app/src/test/java/info/alkor/bleinquirer/bluetooth/specific/XiaomiSensorTest.kt:60-68 | the test frame gives address 58:2d:34:33:16:f6, battery 93 and no temperature or humidity |
| XiaomiSensorFrames.MoistureFrame | app/src/test/java/info/alkor/bleinquirer/bluetooth/specific/XiaomiSensorTest.kt:70-77 | the test frame gives address 80:ea:ca:88:af:1f and moisture 17 |
| XiaomiSensorFrames.FertilityFrame | app/src/test/java/info/alkor/bleinquirer/bluetooth/specific/XiaomiSensorTest.kt:79-86 | the test frame gives address 80:ea:ca:88:af:1f and fertility 109 from the low byte of two |
| XiaomiSensorFrames.LuminanceFrame | app/src/test/java/info/alkor/bleinquirer/bluetooth/specific/XiaomiSensorTest.kt:89-95 | the test frame gives address 80:ea:ca:88:af:1f and luminance 79 from one byte, though the event declares three |
| XiaomiSensorFrames.KettleFrame | app/src/test/java/info/alkor/bleinquirer/bluetooth/specific/XiaomiSensorTest.kt:98-104 | the test frame gives address b8:7c:6f:44:5f:f2, and the kettle's second data byte gives 21.0 degrees |
| MijiaHt.GetType | app/src/main/java/info/alkor/bleinquirer/bluetooth/specific/XiaomiMijiaHtSensor.kt:45-46 | bytes 11-12 as a signed big-endian 16-bit value |
| MijiaHt.PayloadTypeBytes | app/src/main/java/info/alkor/bleinquirer/bluetooth/specific/XiaomiMijiaHtSensor.kt:17-23 | each payload type holds exactly when byte 11 is 0x0d, 0x04, 0x06 or 0x0a and byte 12 is 0x10 |
| MijiaHt.ReadingsFollowType | app/src/main/java/info/alkor/bleinquirer/bluetooth/specific/XiaomiMijiaHtSensor.kt:24-54 | temperature, humidity and battery are present exactly for their payload types, and `toString` is "unknown" exactly for an unknown type |
| MijiaHt.DecodeDefinedIff | app/src/main/java/info/alkor/bleinquirer/bluetooth/specific/XiaomiMijiaHtSensor.kt:15-37 | decoding succeeds exactly when the frame reaches every byte its type's initialisers slice |
| MijiaHt.BatteryIsSigned | app/src/main/java/info/alkor/bleinquirer/bluetooth/specific/XiaomiMijiaHtSensor.kt:34-37 | the battery is byte 14 as a signed byte, negative exactly for 0x80-0xff |
| MijiaHt.AgreesWithMiBeacon | app/src/test/java/info/alkor/bleinquirer/bluetooth/specific/XiaomiMijiaHtSensorTest.kt:10-48 | on any frame with a MAC and an event and no capabilities, of a known type, both decoders give the same address and temperature, and humidity and battery equal modulo 2^16 and 2^8 |
| MijiaHt.TemperatureAndHumidityFrame | app/src/test/java/info/alkor/bleinquirer/bluetooth/specific/XiaomiMijiaHtSensorTest.kt:10-18 | the test frame gives address 58:2d:34:33:16:f6, 23.2 degrees and 60.7 percent |
| MijiaHt.TemperatureFrame | app/src/test/java/info/alkor/bleinquirer/bluetooth/specific/XiaomiMijiaHtSensorTest.kt:19-27 | the test frame gives address 58:2d:34:33:16:f6, 23.2 degrees and no humidity |
| MijiaHt.HumidityFrame | app/src/test/java/info/alkor/bleinquirer/bluetooth/specific/XiaomiMijiaHtSensorTest.kt:29-37 | the test frame gives address 58:2d:34:33:16:f6, no temperature and 60.7 percent |
| MijiaHt.BatteryFrame | app/src/test/java/info/alkor/bleinquirer/bluetooth/specific/XiaomiMijiaHtSensorTest.kt:40-48 | the test frame gives address 58:2d:34:33:16:f6 and battery 93 |
| BatteryReader.ConnectBlock | app/src/main/java/info/alkor/bleinquirer/bluetooth/BluetoothReader.kt:89-94 | `Success` exactly when `connectGatt` gave a handle, else "Connection failed" |
| BatteryReader.DisconnectBlock | app/src/main/java/info/alkor/bleinquirer/bluetooth/BluetoothReader.kt:96-101 | `Success` with or without a handle |
| BatteryReader.DiscoverBlock | app/src/main/java/info/alkor/bleinquirer/bluetooth/BluetoothReader.kt:103-109 | `NotConnected` exactly without a handle, "Discovery failed" when refused, else `Success` |
| BatteryReader.ReadBlock | app/src/main/java/info/alkor/bleinquirer/bluetooth/BluetoothReader.kt:111-139 | handle, service, characteristic and read checked in that order, each with its own result; `Success` only when all pass |
| BatteryReader.BlockFailuresAreAnswered | app/src/main/java/info/alkor/bleinquirer/bluetooth/BluetoothReader.kt:89-139 | a refused radio call is the request's answer with no wait, and a disconnection from a connected state always waits |
| BatteryReader.Remaining | app/src/main/java/info/alkor/bleinquirer/bluetooth/BluetoothReader.kt:152-156 | zero once the elapsed time reaches the total, otherwise the total minus the elapsed time, wrapped around as a `Long` when that exceeds `Long.MAX_VALUE`; never negative and never above a non-negative total when the elapsed time is not negative; above the total when the clock was set back and nothing wraps |
| BatteryReader.RemainingShrinks | app/src/main/java/info/alkor/bleinquirer/bluetooth/BluetoothReader.kt:141-157 | the budget never grows as time passes, as long as the earlier subtraction does not wrap around |
| BatteryReader.Budget | app/src/main/java/info/alkor/bleinquirer/bluetooth/BluetoothReader.kt:143-156 | a phase's budget is the remaining milliseconds of the timeout converted to milliseconds |
| BatteryReader.LevelOf | app/src/main/java/info/alkor/bleinquirer/bluetooth/BluetoothReader.kt:193-195 | the unsigned first byte of the stored characteristic, when there is one |
| BatteryReader.ReadBatteryLevel | app/src/main/java/info/alkor/bleinquirer/bluetooth/BluetoothReader.kt:159-207 | connect, then discover and read up to the first failure, then disconnect once connected; remaining budgets for the first three and the full timeout for disconnect; one report per request in order; a failed disconnect overrides the result; a level only when all four succeed |
| Timeouts.TimeUnit.Suffix | app/src/main/java/com/example/bleinquirer/BtLeDevicesScanner.kt:137-146 | one to three letters per unit |
| Timeouts.SaturatingMul | app/src/main/java/com/example/bleinquirer/Timeout.kt:12 | the exact product whenever it fits in a `Long`, clamped to the `Long` bounds otherwise |
| Timeouts.Convert | app/src/main/java/com/example/bleinquirer/Timeout.kt:12 | `TimeUnit.convert`: multiplies towards a finer unit, divides truncating toward zero towards a coarser one |
| Timeouts.Of | app/src/main/java/com/example/bleinquirer/Timeout.kt:5-8 | the unit defaults to seconds |
| Timeouts.Timeout.To | app/src/main/java/com/example/bleinquirer/Timeout.kt:12 | as written: the converted value, under the unit `SECONDS` whatever the target |
| Timeouts.Timeout.ToUnit | app/src/main/java/com/example/bleinquirer/Timeout.kt:12 | as evidently intended: the converted value in the target unit |
| Timeouts.ToUnitRoundTrip | app/src/main/java/com/example/bleinquirer/Timeout.kt:12 | converting to a finer unit and back gives the same timeout when no saturation occurs |
| Timeouts.ToForgetsTargetUnit | app/src/main/java/com/example/bleinquirer/Timeout.kt:12 | 5 s converted to milliseconds reads as 5000 s and prints "5000s" |
| Decimal.NatValueOfString | app/src/main/java/com/example/bleinquirer/Timeout.kt:10 | `%d` of a non-negative value reads back as that value |
| Decimal.SignOfIntString | app/src/main/java/com/example/bleinquirer/Timeout.kt:10 | `%d` starts with '-' exactly for negative values |
| Decimal.IntStringInjective | app/src/main/java/com/example/bleinquirer/Timeout.kt:10 | different values print differently |
| Timeouts.HumanReadableInjective | app/src/main/java/com/example/bleinquirer/Timeout.kt:9-10 | different timeouts print differently |
| Devices.DeviceModel.WithCustomName | app/src/main/java/info/alkor/bleinquirer/models/DevicesModel.kt:77-89 | a blank name keeps the old name and clears the mark; any other name replaces it and sets the mark; nothing else changes |
| Devices.NewRecord | app/src/main/java/info/alkor/bleinquirer/models/DevicesModel.kt:17-36 | the device's address, the mapped name, the sensor's readings or none, no error, and the custom-name mark iff the mapped name differs from the device's own |
| Devices.Merged | app/src/main/java/info/alkor/bleinquirer/models/DevicesModel.kt:41-58 | each present reading replaces the old one and the others stay; the error is cleared; a custom name is never overwritten and its mark never cleared |
| Devices.FirstWith | app/src/main/java/info/alkor/bleinquirer/models/DevicesModel.kt:62-64 | the first index whose record has the address, or none when no record has it |
| Devices.ApplyFirst | app/src/main/java/info/alkor/bleinquirer/models/DevicesModel.kt:60-74 | only the first record with the address is replaced, and only when the updater changes it; `true` exactly then; same length |
| Devices.ApplyFirstKeepsAddresses | app/src/main/java/info/alkor/bleinquirer/models/DevicesModel.kt:45-78 | no update changes any record's address |
| Devices.RenameIsIdempotent | app/src/main/java/info/alkor/bleinquirer/models/DevicesModel.kt:38-39 | renaming twice to the same name changes nothing the second time |
| Devices.UpdateIsIdempotent | app/src/main/java/info/alkor/bleinquirer/models/DevicesModel.kt:41-58 | the same reading applied twice at the same time changes nothing the second time |
| Devices.DevicesModel.AddDevice | app/src/main/java/info/alkor/bleinquirer/models/DevicesModel.kt:17-36 | exactly one new record, at the end |
| Devices.DevicesModel.DoUpdate | app/src/main/java/info/alkor/bleinquirer/models/DevicesModel.kt:60-74 | the loop leaves the list and returns the flag `ApplyFirst` describes |
| Devices.DevicesModel.UpdateDeviceName | app/src/main/java/info/alkor/bleinquirer/models/DevicesModel.kt:38-39 | `ApplyFirst` with `withCustomName` |
| Devices.DevicesModel.UpdateDevice | app/src/main/java/info/alkor/bleinquirer/models/DevicesModel.kt:41-58 | `ApplyFirst` with the merge |
| Devices.CustomNameIsNotOverwritten | app/src/test/java/info/alkor/bleinquirer/models/DevicesModelTest.kt:136-162 | added with its own name, renamed, then updated: the custom name survives |
| Devices.AddedWithCustomName | app/src/test/java/info/alkor/bleinquirer/models/DevicesModelTest.kt:47-59 | a mapped name that differs from the device's own is marked custom |
| GattServices.MakeStandardService | app/src/main/java/com/example/bleinquirer/GattServices.kt:6 | a lower-case canonical UUID text whose first group reads back as the id (a negative `Int` in two's complement) and whose rest is the base UUID's |
| Hex.ValueOfFormat | app/src/main/java/com/example/bleinquirer/GattServices.kt:6 | `"%08x"` of a non-negative id reads back as that id |
| Hex.FormatOfValue | app/src/main/java/com/example/bleinquirer/GattServices.kt:6 | a lower-case hex text is what `%0Nx` prints for its value, so formatting and reading are inverse |
| GattServices.BaseIsServiceZero | app/src/main/java/com/example/bleinquirer/GattServices.kt:6 | id 0 gives the Bluetooth Base UUID itself |
| GattServices.StandardIsBaseExpansion | app/src/main/java/com/example/bleinquirer/GattServices.kt:8-49 | a standard constant is the base UUID with the id in its first group |
| GattServices.StandardServiceInjective | app/src/main/java/com/example/bleinquirer/GattServices.kt:6-49 | different ids give different constants |
| GattServices.VendorTextsAreCanonical | app/src/main/java/com/example/bleinquirer/GattServices.kt:51-54 | the four vendor texts are lower-case canonical UUIDs |
| GattServices.NamesOfLookup | app/src/main/java/com/example/bleinquirer/GattServices.kt:56-103 | a key is in `NAMES` iff some pair carries it, and maps to the last such pair's name |
| GattServices.EveryConstantIsNamed | app/src/main/java/com/example/bleinquirer/GattServices.kt:8-103 | every declared constant's key is the very text it was declared with, and `NAMES` holds it |
| GattServices.GetName | app/src/main/java/com/example/bleinquirer/GattServices.kt:105-111 | the string itself when `NAMES` lacks it, else the name of the last pair keyed by it |
| GattServices.GetNameOfUuid | app/src/main/java/com/example/bleinquirer/GattServices.kt:113-115 | a name from `NAMES` or the UUID's own text |
| Uuids.ParseOfToString | app/src/main/java/com/example/bleinquirer/GattServices.kt:57-102 | reading back what `toString` wrote gives the UUID, and the text is lower-case canonical |
| Uuids.ToStringOfParse | app/src/main/java/com/example/bleinquirer/GattServices.kt:8-54 | a lower-case canonical text is what `toString` writes for the UUID it denotes |
| IdGenerator.BaseNameIsNormal | buildSrc/src/main/java/info/alkor/plugins/bluetooth/idgen/Generator.java:28 | a base name has no separators and no lower-case letters, and normalising it again changes nothing |
| IdGenerator.CollapseAppend | buildSrc/src/main/java/info/alkor/plugins/bluetooth/idgen/Generator.java:28 | replacing runs works piece by piece wherever the pieces do not split a run |
| IdGenerator.BatteryServiceUpperCase | buildSrc/src/main/java/info/alkor/plugins/bluetooth/idgen/Generator.java:28 | "Battery Service" upper-cases to "BATTERY SERVICE", letter by letter |
| IdGenerator.TwoWords | buildSrc/src/main/java/info/alkor/plugins/bluetooth/idgen/Generator.java:28 | two words without separators, joined by one space, come out joined by one '_' |
| IdGenerator.BaseNameOfTwoWords | buildSrc/src/main/java/info/alkor/plugins/bluetooth/idgen/Generator.java:28 | a name that upper-cases to two words joined by one space has those words joined by '_' as its base name |
| IdGenerator.BatteryServiceBaseName | buildSrc/src/test/java/info/alkor/plugins/bluetooth/idgen/GeneratorTest.java:19 | the base name of "Battery Service" is its two words upper-cased and joined by '_', "BATTERY_SERVICE" |
| IdGenerator.CandidateInjective | buildSrc/src/main/java/info/alkor/plugins/bluetooth/idgen/Generator.java:33 | different suffixes give different names |
| IdGenerator.ConstantName | buildSrc/src/main/java/info/alkor/plugins/bluetooth/idgen/Generator.java:29-34 | an unused base name is kept; otherwise base + "_" + the smallest free k; never a used name |
| IdGenerator.FirstFreeUnique | buildSrc/src/main/java/info/alkor/plugins/bluetooth/idgen/Generator.java:31-34 | there is one smallest free suffix |
| IdGenerator.Generator.BeginEnum | buildSrc/src/main/java/info/alkor/plugins/bluetooth/idgen/Generator.java:23-25 | a new enum class exactly when the name is not defined yet (the source throws otherwise, and nothing changes); the names given so far stay taken |
| IdGenerator.Generator.AddMapping | buildSrc/src/main/java/info/alkor/plugins/bluetooth/idgen/Generator.java:27-40 | the loop picks `ConstantName`; the constant is appended; the set of names grows by exactly that one; no two constants share a name |
| IdGenerator.UuidString | buildSrc/src/main/java/info/alkor/plugins/bluetooth/idgen/Generator.java:70-73 | the padded short id and the base tail; a short id longer than 8 gives no UUID, as `UUID.fromString` of Java 9 and later rejects it |
| IdGenerator.UuidStringOfShort | buildSrc/src/main/java/info/alkor/plugins/bluetooth/idgen/Generator.java:70-73 | a short id of at most 8 characters without spaces is left-padded with '0' to 8 and followed by the base UUID's tail |
| IdGenerator.UuidOfHexShort | buildSrc/src/main/java/info/alkor/plugins/bluetooth/idgen/Generator.java:75-77 | the `uuid` of a hex short id is the base UUID with that id in its first group |
| IdGenerator.GeneratedMatchesStandard | buildSrc/src/main/java/info/alkor/plugins/bluetooth/idgen/Generator.java:70-77 | the generated constant and `makeStandardService` of the same id denote the same UUID |
| IdGenerator.BatteryServiceName | buildSrc/src/test/java/info/alkor/plugins/bluetooth/idgen/GeneratorTest.java:18-19 | in a fresh enum, "Battery Service" becomes the constant BATTERY_SERVICE |
| IdGenerator.BatteryServiceUuid | buildSrc/src/test/java/info/alkor/plugins/bluetooth/idgen/GeneratorTest.java:19 | the short id "180F" denotes the standard Battery Service UUID, 0x180f |
| IdGenerator.BatteryServiceExample | buildSrc/src/test/java/info/alkor/plugins/bluetooth/idgen/GeneratorTest.java:18-19 | in a fresh enum, "Battery Service" becomes the constant BATTERY_SERVICE, and "180F" is the Battery Service, 0x180f |
| IdGenerator.FromUuid | buildSrc/src/main/java/info/alkor/plugins/bluetooth/idgen/Generator.java:81-95 | the first constant, in declaration order, with an equal `uuid`; null exactly when none has it |
| IdGenerator.GetFullName | buildSrc/src/main/java/info/alkor/plugins/bluetooth/idgen/Generator.java:98-109 | that constant's full name, else the UUID's text |

## Left out

- Thread waits are not modelled: the locks, `Condition.await` and `signalAll`, spurious wake-ups and real-time bounds. Each wait is an input that lists the callbacks arriving around it and says whether it timed out. That `signalCompletion` wakes the waiter even when it stored nothing is covered only in that every callback in the input runs before the request looks again.
- The atomics' compare-and-set is modelled as a test and a write that cannot be interleaved.
- The requests' blocks are modelled as the `Result` they return. An exception thrown by a block is not modelled, so `start`'s `finally` is only ever reached normally.
- `System.currentTimeMillis` in `StopWatch` and `Date()` in `DevicesModel` are parameters: the elapsed milliseconds per phase (a `Long`, already the wrapped difference of two clock readings, and negative when the clock was set back) and the update time.
- Android radio calls are not modelled: `connectGatt`, `discoverServices`, `getService`, `getCharacteristic`, `readCharacteristic`, `disconnect` and `close`, and the `BluetoothGattCallback` objects. Their answers are booleans, and the characteristic the read callback stored is an input. `Log.d` calls are left out.
- Temperatures and humidities stay integer tenths. The division by 10.0 into a `Double` is not modelled. `XiaomiSensor.toString` (XiaomiSensor.kt:18-27) and the printing of `Double` readings are not modelled. `MijiaHt.MijiaHtSensor.ToString` prints tenths as a sign, whole part, '.' and one digit, which is how such doubles print below 10^7.
- `XiaomiSensor.Parse` returns the final cursor along with the reading, which the source keeps local. A read past the end, which throws in the source, is the result `OutOfBounds`, and for the fixed-offset decoder `None`.
- The `uuid` field of a generated constant is `None` where `UUID.fromString` would throw in the enum's class initialiser. `UUID.fromString` is modelled only on the canonical 8-4-4-4-12 form, as Java 9 and later check it for text longer than 36 characters. Java's laxer acceptance of shorter groups is not modelled, and neither is Java 8's acceptance of a longer first group, whose extra bits it drops.
- UpperCase: `String.toUpperCase()` depends on the default locale and can change the length of a name (`ß` becomes `SS`; in a Turkish locale `i` becomes a dotted capital). The model upper-cases ASCII letters only, one character for one, and keeps every other character and the length as they are.
- The `int` counter `i` in `addMapping` is unbounded. Its overflow after 2^31 attempts is not modelled.
- `TimeUnit.convert` is modelled with saturation for finer targets and truncating division for coarser ones.
- JCodeModel is not modelled: the output `File` taken by the `Generator` constructor, `finalizeEnum`'s code emission and `model.build`. The emitted class is modelled by what its constructor, `fromUuid` and `getFullName` compute.
- `AbstractIdGenTask` calls `addMapping` with three arguments, which `Generator` does not declare. That call, the Gradle tasks and the plugin are not part of this model.
- `LiveObject`, the name mapper and its database, the scanners, the UI, `NewBatteryLevelReader` and `BtBatteryLevelReader` are not part of this model. The name mapper's answer is a parameter of `Devices`.
- The `Timeout` class of the `info.alkor` package, which `BluetoothReader` imports, is not part of this model. The `com.example` `Timeout` stands in for it, and `BluetoothReader` reads only its `value`.
- `ConnectionHandlerTemplate.kt` declares its own `Result` family with only `TimedOut` and `Busy` as singletons. The model reuses `Results.Result`, whose other two singletons that handler never produces.
- Kotlin's identity on results (`===` and `is`) is Dafny equality. The model keeps no separate identity for two `Error` instances with the same message. The compare-and-set against the `Busy` singleton is unaffected, because `Busy` differs from every `Error(...)`.

## Findings

| source | as written | input that shows it | evidently intended | confidence | as-written member | corrected member |
|---|---|---|---|---|---|---|
| app/src/main/java/com/example/bleinquirer/Timeout.kt:12 | `to(targetUnit)` builds `Timeout(converted)`, so the unit is the default `SECONDS` whatever the target | `Timeout(5).to(MILLISECONDS)` is `Timeout(5000, SECONDS)` and prints "5000s"; converting it back to seconds gives 5000 | `Timeout(converted, targetUnit)`, so converting to a finer unit and back is the identity | not executed | Timeouts.Timeout.To (with Timeouts.ToForgetsTargetUnit) | Timeouts.Timeout.ToUnit (with Timeouts.ToUnitRoundTrip) |
