# BLE GATT server layer of butterfly-bluetooth-android, modelled in Dafny

This project models the core of the Android BLE server layer of
butterfly-bluetooth-android and proves properties of the model:

- **`BleServerImpl`** (`server_impl.dfy`, `gatt_translation.dfy`, `advertising.dfy`):
  - the GATT server callback object, a class whose fields change the way the Kotlin fields do, except that it keeps the advertising callback as the corrected code under "## Findings" does;
  - it routes characteristic reads and writes and descriptor writes by (service UUID, characteristic UUID);
  - it interprets Client Characteristic Configuration Descriptor (CCCD) writes, as Bluetooth Core Specification Vol 3 Part G section 3.3.3.3 defines them;
  - it keeps the client registry and the per-client subscription tracking, and fans out `onDisconnect`;
  - it builds the platform GATT services, including the characteristic-properties bitmask of Vol 3 Part G section 3.3.1.1 and the permissions bitmask;
  - it registers the services one at a time through a queue, toggles advertising, and disposes.
- **`BleServerDelegate.PerCharacteristic` and `FromProperty`** (`ble_server_delegate.dfy`):
  - `PerCharacteristic` derives the profile, routes reads, writes and subscriptions by key, and broadcasts connect, disconnect and dispose to every delegate;
  - `FromProperty` is a register backed by a value.
- **`BleRequestServer` and `BleRequestClient`** (`request_and_response.dfy`):
  - a request/response channel framed as `[n] ++ payload`;
  - each device has its own response stream;
  - the client uses a wrapping signed-byte request counter, matches replies by their first byte, and keeps a per-connection client registry.
- **The value types** of `models.kt` (`models.dfy`).

How the model stands in for the platform:

- Android objects (`BluetoothDevice`, `BluetoothGattServer`, `BleClientImpl`, advertisers and their callbacks, `PublishSubject`s, `RxBleConnection`s) are opaque ids.
- What the server asks of the platform is appended to an `outbox` of effects.
- Every call into a characteristic server or delegate is appended to a call log.
- An Rx `Single` is an `Outcome`: `Ok(value)` or `Err(error)`.
- A subject is the sequence of frames it has emitted plus a completion flag.
- Application code is a function parameter: a request handler, or what a delegate answers.
- Kotlin `HashMap`/`HashSet` iteration visits the entries in an order the program does not choose. `Collections.Enumerate` models it as some listing of the entries, each exactly once.

Three behaviours of the code worth spelling out:

- **Request number type.** The request number is a signed Kotlin `Byte` that wraps 127 → -128, not an unsigned byte. The 256 values are the same bits.
- **Empty frames.** No minimum frame length is checked. An empty write makes `value[0]` throw after the device's stream has been created, and the model returns that failure.
- **CCCD UUID.** `Ble.notificationDescriptorUuid` is not part of this model. It is taken to be the standard CCCD UUID 0x2902.

## Model

| member | source | states |
|---|---|---|
| Models.DefaultPropertiesAllFalse | butterfly-bluetooth-android/src/main/java/com/lightningkite/butterfly/bluetooth/models.kt:31-43 | A properties value given no arguments has all eleven flags false. |
| Models.DeviceInfoEquality | butterfly-bluetooth-android/src/main/java/com/lightningkite/butterfly/bluetooth/models.kt:21-24 | Two device infos are equal exactly when their ids and names are equal. |
| Models.ResponseExceptionCarriesStatus | butterfly-bluetooth-android/src/main/java/com/lightningkite/butterfly/bluetooth/models.kt:45 | A response exception carries the status it was built with. As model values, two are equal iff their statuses are; the Kotlin class compares by identity (see "## Left out"). |
| Collections.Enumerate | butterfly-bluetooth-android/src/main/java/com/lightningkite/butterfly/bluetooth/BleServerImpl.kt:63 | A map or set walk lists every element of the collection exactly once and nothing else. |
| GattTranslation.PropertiesMaskBits | butterfly-bluetooth-android/src/main/java/com/lightningkite/butterfly/bluetooth/BleServerImpl.kt:66-85 | Each PROPERTY bit of the mask is set iff its flag (broadcast, read, writeWithoutResponse, write, notify, indicate, authenticatedSignedWrites, extendedProperties) is set. |
| GattTranslation.FlagsOfPropertiesMask | butterfly-bluetooth-android/src/main/java/com/lightningkite/butterfly/bluetooth/BleServerImpl.kt:66-85 | Reading the eight flags back from the mask gives exactly the declared flags; the encryption flags never reach it. |
| GattTranslation.PropertiesMaskOfFlags | butterfly-bluetooth-android/src/main/java/com/lightningkite/butterfly/bluetooth/BleServerImpl.kt:66-85 | Every 8-bit mask is the mask of the flags read out of it, so nothing but the eight flags contributes and every combination is reachable. |
| GattTranslation.PermissionsMaskBits | butterfly-bluetooth-android/src/main/java/com/lightningkite/butterfly/bluetooth/BleServerImpl.kt:86-105 | READ iff read, notify or indicate; WRITE iff writeWithoutResponse, write or authenticatedSignedWrites; READ_ENCRYPTED iff notifyEncryptionRequired or indicateEncryptionRequired; no other bit. |
| GattTranslation.WriteEncryptionIgnored | butterfly-bluetooth-android/src/main/java/com/lightningkite/butterfly/bluetooth/BleServerImpl.kt:86-105 | writeEncryptionRequired changes neither mask. |
| GattTranslation.BuildCharacteristicSpec | butterfly-bluetooth-android/src/main/java/com/lightningkite/butterfly/bluetooth/BleServerImpl.kt:64-115 | A built characteristic has the item's UUID and both masks; it has one CCCD, readable and writable, iff notify or indicate is set, and no other descriptor. |
| GattTranslation.BuildService | butterfly-bluetooth-android/src/main/java/com/lightningkite/butterfly/bluetooth/BleServerImpl.kt:62-116 | The service is primary, has the given UUID, and holds the built characteristic of each entry, once each, in the map's iteration order. |
| GattTranslation.BuiltServiceContents | butterfly-bluetooth-android/src/main/java/com/lightningkite/butterfly/bluetooth/BleServerImpl.kt:62-116 | A built service holds as many characteristics as the map has entries: the built characteristic of every entry and nothing else. |
| ServerImpl.CccdCommandOf | butterfly-bluetooth-android/src/main/java/com/lightningkite/butterfly/bluetooth/BleServerImpl.kt:224-240 | A CCCD value means enable-indication iff it is [2,0], enable-notification iff [1,0], disable iff [0,0]; any other value is unrecognised. |
| ServerImpl.EmptyRegistryValid | butterfly-bluetooth-android/src/main/java/com/lightningkite/butterfly/bluetooth/BleServerImpl.kt:45 | The registry starts empty and consistent. |
| ServerImpl.ClientFor | butterfly-bluetooth-android/src/main/java/com/lightningkite/butterfly/bluetooth/BleServerImpl.kt:49-55 | A known address gets its client back and nothing changes; a new address gets exactly one new client, connected, filed under the address; the registry stays consistent. |
| ServerImpl.RemoveClientFor | butterfly-bluetooth-android/src/main/java/com/lightningkite/butterfly/bluetooth/BleServerImpl.kt:57-59 | Only the device's address is unfiled, and only its client is marked disconnected; an unknown address changes nothing. |
| ServerImpl.ClientForIdempotent | butterfly-bluetooth-android/src/main/java/com/lightningkite/butterfly/bluetooth/BleServerImpl.kt:49-55 | Asking for the same device's client twice gives the same client and the same registry. |
| ServerImpl.ReconnectGivesFreshClient | butterfly-bluetooth-android/src/main/java/com/lightningkite/butterfly/bluetooth/BleServerImpl.kt:49-59 | After disconnect and reconnect a device gets a new connected client; the old one stays disconnected. |
| ServerImpl.Subscribe | butterfly-bluetooth-android/src/main/java/com/lightningkite/butterfly/bluetooth/BleServerImpl.kt:227 | An enable adds the characteristic to this client's tracked set and changes no other client's set. |
| ServerImpl.Unsubscribe | butterfly-bluetooth-android/src/main/java/com/lightningkite/butterfly/bluetooth/BleServerImpl.kt:237 | A disable removes the characteristic from this client's tracked set, creating the set if absent, and changes no other client's set. |
| ServerImpl.SubscribeIdempotent | butterfly-bluetooth-android/src/main/java/com/lightningkite/butterfly/bluetooth/BleServerImpl.kt:227 | Enabling twice tracks the same set as enabling once. |
| ServerImpl.UnsubscribeAfterSubscribe | butterfly-bluetooth-android/src/main/java/com/lightningkite/butterfly/bluetooth/BleServerImpl.kt:227-237 | A disable after an enable leaves the characteristic untracked. |
| ServerImpl.InOrder | butterfly-bluetooth-android/src/main/java/com/lightningkite/butterfly/bluetooth/BleServerImpl.kt:38 | `services.values` lists the service of each key in the iteration order of the keys. |
| ServerImpl.InOrderListsEachOnce | butterfly-bluetooth-android/src/main/java/com/lightningkite/butterfly/bluetooth/BleServerImpl.kt:38 | That listing names every service exactly once and nothing else. |
| ServerImpl.BuildServices | butterfly-bluetooth-android/src/main/java/com/lightningkite/butterfly/bluetooth/BleServerImpl.kt:61-118 | `services` has exactly the keys of `characteristics`, each built from that key's characteristics, plus the iteration order that lists each key once. |
| ServerImpl.BleServerImpl.constructor | butterfly-bluetooth-android/src/main/java/com/lightningkite/butterfly/bluetooth/BleServerImpl.kt:22-61 | The services are built; there is no server (so the object reports itself disposed), no client, no tracking, no queue, and advertising is off. |
| ServerImpl.BleServerImpl.ClientOf | butterfly-bluetooth-android/src/main/java/com/lightningkite/butterfly/bluetooth/BleServerImpl.kt:49-55 | The registry steps as ClientFor says and the consistency invariant is kept. |
| ServerImpl.BleServerImpl.OnCharacteristicWriteRequest | butterfly-bluetooth-android/src/main/java/com/lightningkite/butterfly/bluetooth/BleServerImpl.kt:141-162 | An unknown service or characteristic gets attributeNotFound (if there is a server), and no handler is called and no client is created; otherwise the device's client is obtained and the characteristic server's onWrite is called once, with nothing sent. |
| ServerImpl.BleServerImpl.OnCharacteristicReadRequest | butterfly-bluetooth-android/src/main/java/com/lightningkite/butterfly/bluetooth/BleServerImpl.kt:164-182 | Same routing for reads, calling onRead. |
| ServerImpl.BleServerImpl.OnDescriptorWriteRequest | butterfly-bluetooth-android/src/main/java/com/lightningkite/butterfly/bluetooth/BleServerImpl.kt:200-242 | Unknown attribute or non-CCCD descriptor: attributeNotFound, tracking and calls unchanged. CCCD write: an enable tracks and calls onSubscribe on every write; disable untracks and calls onUnsubscribe; other values change nothing; every such write is answered with success. |
| ServerImpl.BleServerImpl.OnConnectionStateChange | butterfly-bluetooth-android/src/main/java/com/lightningkite/butterfly/bluetooth/BleServerImpl.kt:184-194 | Connect files the client. Disconnect calls onDisconnect exactly once for each characteristic the client tracks, then unfiles the client; tracking is left unchanged. Other states do nothing. |
| ServerImpl.BleServerImpl.UpdateSubscription | butterfly-bluetooth-android/src/main/java/com/lightningkite/butterfly/bluetooth/BleServerImpl.kt:224-240 | An enable value files the client, tracks the characteristic and calls onSubscribe; disable files the client, untracks it and calls onUnsubscribe; any other value changes nothing. |
| ServerImpl.BleServerImpl.DisconnectTracked | butterfly-bluetooth-android/src/main/java/com/lightningkite/butterfly/bluetooth/BleServerImpl.kt:190 | onDisconnect is called exactly once on each characteristic the client tracks, and on nothing else; earlier calls are kept. |
| ServerImpl.BleServerImpl.SetServer | butterfly-bluetooth-android/src/main/java/com/lightningkite/butterfly/bluetooth/BleServerImpl.kt:32-42 | A non-null server is cleared, the queue is reset to all services, and the first is added; null only stores null. |
| ServerImpl.BleServerImpl.OnServiceAdded | butterfly-bluetooth-android/src/main/java/com/lightningkite/butterfly/bluetooth/BleServerImpl.kt:244-248 | With a server and a non-empty queue, the head of the queue is added and the queue shrinks by one; otherwise nothing happens. |
| ServerImpl.BleServerImpl.RegistrationListsEachServiceOnce | butterfly-bluetooth-android/src/main/java/com/lightningkite/butterfly/bluetooth/BleServerImpl.kt:33-42 | The services added so far followed by the queue list every service exactly once, so each service is registered once, in order. |
| ServerImpl.BleServerImpl.SetAdvertising | butterfly-bluetooth-android/src/main/java/com/lightningkite/butterfly/bluetooth/BleServerImpl.kt:250-256 | Corrected behaviour (see "## Findings"): the advertising state and advertiser calls are those of Advertising.SetAdvertising, with the declared service UUIDs when none are given. |
| ServerImpl.BleServerImpl.Dispose | butterfly-bluetooth-android/src/main/java/com/lightningkite/butterfly/bluetooth/BleServerImpl.kt:305-313 | Corrected behaviour (see "## Findings"): advertising is stopped with the stored callback if there is one; the server is closed and dropped, and the object reports itself disposed. |
| ServerImpl.BleServerImpl.Respond | butterfly-bluetooth-android/src/main/java/com/lightningkite/butterfly/bluetooth/BleServerImpl.kt:320-322 | A response goes to the client's device through the current server, if any. |
| ServerImpl.BleServerImpl.Push | butterfly-bluetooth-android/src/main/java/com/lightningkite/butterfly/bluetooth/BleServerImpl.kt:324-338 | With no server nothing happens; with one, an undeclared service or characteristic fails with a null pointer, and a declared one sends one change notification (confirm false for notify, true for indicate). |
| Advertising.StartAsWritten | butterfly-bluetooth-android/src/main/java/com/lightningkite/butterfly/bluetooth/BleServerImpl.kt:257-295 | As written, starting advertising leaves the callback field as it was. |
| Advertising.Start | butterfly-bluetooth-android/src/main/java/com/lightningkite/butterfly/bluetooth/BleServerImpl.kt:257-295 | Corrected: the fresh callback is stored, and the advertiser is started with it if there is one. |
| Advertising.Stop | butterfly-bluetooth-android/src/main/java/com/lightningkite/butterfly/bluetooth/BleServerImpl.kt:296-299 | The advertiser is stopped with the stored callback, which is then forgotten. |
| Advertising.SetAdvertisingAsWritten | butterfly-bluetooth-android/src/main/java/com/lightningkite/butterfly/bluetooth/BleServerImpl.kt:250-256 | As written, the callback field is never set by turning advertising on. |
| Advertising.SetAdvertising | butterfly-bluetooth-android/src/main/java/com/lightningkite/butterfly/bluetooth/BleServerImpl.kt:250-256 | A start happens iff the flag goes from false to true and there is an advertiser; a stop happens iff it is set false and there is an advertiser; at most one call. |
| Advertising.DisposeAdvertising | butterfly-bluetooth-android/src/main/java/com/lightningkite/butterfly/bluetooth/BleServerImpl.kt:305-310 | One stop, with the stored callback, iff there is a callback and an advertiser; the callback is forgotten. |
| Advertising.AsWrittenCallbackStaysNull | butterfly-bluetooth-android/src/main/java/com/lightningkite/butterfly/bluetooth/BleServerImpl.kt:258 | As written, the callback field stays null, so dispose never stops advertising. |
| Advertising.AsWrittenStopLosesCallback | butterfly-bluetooth-android/src/main/java/com/lightningkite/butterfly/bluetooth/BleServerImpl.kt:250-313 | As written, on then off starts with callback 0 but stops with null, and dispose after on stops nothing. |
| Advertising.StopMatchesStart | butterfly-bluetooth-android/src/main/java/com/lightningkite/butterfly/bluetooth/BleServerImpl.kt:250-313 | Corrected: turning advertising off, or disposing, stops exactly the callback it was started with. |
| Advertising.SecondEnableIsQuiet | butterfly-bluetooth-android/src/main/java/com/lightningkite/butterfly/bluetooth/BleServerImpl.kt:250-256 | Setting advertising true twice starts it at most once. |
| ServerDelegate.Associate | butterfly-bluetooth-android/src/main/java/com/lightningkite/butterfly/bluetooth/BleServerDelegate.kt:26 | `associate` has exactly the keys of the pairs. |
| ServerDelegate.AssociateLastWins | butterfly-bluetooth-android/src/main/java/com/lightningkite/butterfly/bluetooth/BleServerDelegate.kt:26 | The value kept for a key is the one in its last pair. |
| ServerDelegate.LastIndexOf | butterfly-bluetooth-android/src/main/java/com/lightningkite/butterfly/bluetooth/BleServerDelegate.kt:26 | Finds the last pair with a given key: it has the key, and no later pair does. |
| ServerDelegate.ServiceOf | butterfly-bluetooth-android/src/main/java/com/lightningkite/butterfly/bluetooth/BleServerDelegate.kt:45-49 | The vararg Service constructor keeps name and primacy, has a delegate for every paired key, and each kept delegate is one of the pairs. |
| ServerDelegate.ServicesOf | butterfly-bluetooth-android/src/main/java/com/lightningkite/butterfly/bluetooth/BleServerDelegate.kt:26 | The vararg PerCharacteristic constructor has a service for every paired key, each one of the pairs. |
| ServerDelegate.DuplicateKeyLastWins | butterfly-bluetooth-android/src/main/java/com/lightningkite/butterfly/bluetooth/BleServerDelegate.kt:49 | When a key is given twice, the later delegate is kept. |
| ServerDelegate.CharacteristicDescriptionOf | butterfly-bluetooth-android/src/main/java/com/lightningkite/butterfly/bluetooth/BleServerDelegate.kt:32-35 | A characteristic description copies the delegate's name and properties. |
| ServerDelegate.ServiceDescriptionOf | butterfly-bluetooth-android/src/main/java/com/lightningkite/butterfly/bluetooth/BleServerDelegate.kt:28-37 | A service description copies name and primacy and has exactly the delegates' keys, each with that delegate's name and properties. |
| ServerDelegate.ProfileOf | butterfly-bluetooth-android/src/main/java/com/lightningkite/butterfly/bluetooth/BleServerDelegate.kt:27-38 | The profile has exactly the services' keys with names and primacy copied, and under each exactly the delegates' keys with names and properties copied. |
| ServerDelegate.Find | butterfly-bluetooth-android/src/main/java/com/lightningkite/butterfly/bluetooth/BleServerDelegate.kt:71 | A delegate is found iff both the service and characteristic keys are present, and it is the one stored there. |
| ServerDelegate.Route | butterfly-bluetooth-android/src/main/java/com/lightningkite/butterfly/bluetooth/BleServerDelegate.kt:70-92 | A miss fails with attributeNotFound; a hit answers exactly what the found delegate answers. |
| ServerDelegate.OnRead | butterfly-bluetooth-android/src/main/java/com/lightningkite/butterfly/bluetooth/BleServerDelegate.kt:78-84 | A miss fails with attributeNotFound; a hit is the delegate's onRead for the same device. |
| ServerDelegate.OnWrite | butterfly-bluetooth-android/src/main/java/com/lightningkite/butterfly/bluetooth/BleServerDelegate.kt:86-92 | A miss fails with attributeNotFound; a hit is the delegate's onWrite for the same device and value. |
| ServerDelegate.OnSubscribe | butterfly-bluetooth-android/src/main/java/com/lightningkite/butterfly/bluetooth/BleServerDelegate.kt:70-76 | A miss is a stream failing with attributeNotFound; a hit is the delegate's stream for the same device. |
| ServerDelegate.MissConsultsNoDelegate | butterfly-bluetooth-android/src/main/java/com/lightningkite/butterfly/bluetooth/BleServerDelegate.kt:70-92 | On a miss the answer is the same whatever any delegate would answer, so no delegate is consulted. |
| ServerDelegate.Entries | butterfly-bluetooth-android/src/main/java/com/lightningkite/butterfly/bluetooth/BleServerDelegate.kt:63 | The flattened walk visits every (service, characteristic) position exactly once, and the positions of one service are contiguous (Grouped). |
| ServerDelegate.PerCharacteristic.constructor | butterfly-bluetooth-android/src/main/java/com/lightningkite/butterfly/bluetooth/BleServerDelegate.kt:23-38 | The profile is the one derived from the services; no delegate has been called. |
| ServerDelegate.PerCharacteristic.Broadcast | butterfly-bluetooth-android/src/main/java/com/lightningkite/butterfly/bluetooth/BleServerDelegate.kt:62-68 | Appends one call per delegate position, each exactly once, with the same event, and keeps the earlier calls. |
| ServerDelegate.PerCharacteristic.OnConnect | butterfly-bluetooth-android/src/main/java/com/lightningkite/butterfly/bluetooth/BleServerDelegate.kt:62-64 | Every delegate of every service is told of the connection exactly once, with the same device. |
| ServerDelegate.PerCharacteristic.OnDisconnect | butterfly-bluetooth-android/src/main/java/com/lightningkite/butterfly/bluetooth/BleServerDelegate.kt:66-68 | Every delegate of every service is told of the disconnection exactly once, with the same device. |
| ServerDelegate.PerCharacteristic.DisposeAll | butterfly-bluetooth-android/src/main/java/com/lightningkite/butterfly/bluetooth/BleServerDelegate.kt:94-96 | The first dispose disposes every delegate exactly once; a later one does nothing. |
| ServerDelegate.PerCharacteristic.ProfileMatchesRouting | butterfly-bluetooth-android/src/main/java/com/lightningkite/butterfly/bluetooth/BleServerDelegate.kt:27-92 | The profile lists a (service, characteristic) iff requests to it reach a delegate. |
| ServerDelegate.FromPropertyDefaultsFlags | butterfly-bluetooth-android/src/main/java/com/lightningkite/butterfly/bluetooth/BleServerDelegate.kt:101-108 | The default properties set broadcast, read, write, writeWithoutResponse, notify and indicate, and no other flag. |
| ServerDelegate.FromProperty.constructor | butterfly-bluetooth-android/src/main/java/com/lightningkite/butterfly/bluetooth/BleServerDelegate.kt:98-109 | The delegate holds its name, properties (defaults when not given) and the property's value. |
| ServerDelegate.FromProperty.OnRead | butterfly-bluetooth-android/src/main/java/com/lightningkite/butterfly/bluetooth/BleServerDelegate.kt:116-118 | A read answers the current value and changes nothing. |
| ServerDelegate.FromProperty.OnWrite | butterfly-bluetooth-android/src/main/java/com/lightningkite/butterfly/bluetooth/BleServerDelegate.kt:120-123 | A write stores the value and succeeds. |
| ServerDelegate.FromProperty.WriteThenRead | butterfly-bluetooth-android/src/main/java/com/lightningkite/butterfly/bluetooth/BleServerDelegate.kt:116-123 | A read after a write, from any devices, returns the written bytes. |
| RequestResponse.Frame | butterfly-bluetooth-android/src/main/java/com/lightningkite/butterfly/bluetooth/RequestAndResponse.kt:111 | A frame is one byte longer than its payload. |
| RequestResponse.Split | butterfly-bluetooth-android/src/main/java/com/lightningkite/butterfly/bluetooth/RequestAndResponse.kt:62-63 | Splitting fails with an index error iff the frame is empty; otherwise the payload is one byte shorter. |
| RequestResponse.SplitFrame | butterfly-bluetooth-android/src/main/java/com/lightningkite/butterfly/bluetooth/RequestAndResponse.kt:62-66 | Splitting a frame gives back its number and payload. |
| RequestResponse.FrameSplit | butterfly-bluetooth-android/src/main/java/com/lightningkite/butterfly/bluetooth/RequestAndResponse.kt:62-66 | Every non-empty byte array is the frame of what it splits into. |
| RequestResponse.RequestProfile | butterfly-bluetooth-android/src/main/java/com/lightningkite/butterfly/bluetooth/RequestAndResponse.kt:24-41 | The profile is one primary service holding exactly the request and response characteristics. |
| RequestResponse.RequestProfileProperties | butterfly-bluetooth-android/src/main/java/com/lightningkite/butterfly/bluetooth/RequestAndResponse.kt:29-37 | Requests are written (with or without response) and not read; responses are indicated, notified or read and not written. |
| RequestResponse.BleRequestServer.constructor | butterfly-bluetooth-android/src/main/java/com/lightningkite/butterfly/bluetooth/RequestAndResponse.kt:14-17 | The server starts with no device streams and not disposed. |
| RequestResponse.BleRequestServer.SubjectFor | butterfly-bluetooth-android/src/main/java/com/lightningkite/butterfly/bluetooth/RequestAndResponse.kt:53 | A known device gets its stream and nothing changes; a new device gets a new, open, empty stream, distinct from every other. |
| RequestResponse.BleRequestServer.OnSubscribe | butterfly-bluetooth-android/src/main/java/com/lightningkite/butterfly/bluetooth/RequestAndResponse.kt:50-54 | The same device id always gets the same stream, created on first use; different ids get different streams. |
| RequestResponse.BleRequestServer.OnWrite | butterfly-bluetooth-android/src/main/java/com/lightningkite/butterfly/bluetooth/RequestAndResponse.kt:60-69 | The device's stream is taken or created; an empty frame then fails; otherwise the handler's success adds exactly `[n] ++ reply` to that stream only, a failure adds nothing, and the write succeeds. |
| RequestResponse.BleRequestServer.OnRead | butterfly-bluetooth-android/src/main/java/com/lightningkite/butterfly/bluetooth/RequestAndResponse.kt:56-58 | Reads always fail with requestNotSupported. |
| RequestResponse.BleRequestServer.OnDisconnect | butterfly-bluetooth-android/src/main/java/com/lightningkite/butterfly/bluetooth/RequestAndResponse.kt:46-48 | Only that id's stream is removed and completed; an unknown id changes nothing. |
| RequestResponse.BleRequestServer.Dispose | butterfly-bluetooth-android/src/main/java/com/lightningkite/butterfly/bluetooth/RequestAndResponse.kt:71-79 | Every device's stream is completed, no other emission changes, the map is emptied and the server reports itself disposed. |
| RequestResponse.Emission | butterfly-bluetooth-android/src/main/java/com/lightningkite/butterfly/bluetooth/RequestAndResponse.kt:61-66 | A non-empty write emits its reply frame iff the handler succeeds, and nothing if it fails. |
| RequestResponse.EchoReturnsFrame | butterfly-bluetooth-android/src/main/java/com/lightningkite/butterfly/bluetooth/RequestAndResponse.kt:61-66 | With an echo handler every request frame comes back unchanged. |
| RequestResponse.EchoExample | butterfly-bluetooth-android/src/main/java/com/lightningkite/butterfly/bluetooth/RequestAndResponse.kt:61-66 | The echo of [0x05, 0x41, 0x42] is [0x05, 0x41, 0x42]. |
| RequestResponse.Inc | butterfly-bluetooth-android/src/main/java/com/lightningkite/butterfly/bluetooth/RequestAndResponse.kt:110 | The counter advances by one modulo 256 in signed-byte range, so 127 wraps to -128. |
| RequestResponse.AfterIsModular | butterfly-bluetooth-android/src/main/java/com/lightningkite/butterfly/bluetooth/RequestAndResponse.kt:110 | k requests advance the counter by k modulo 256. |
| RequestResponse.NumbersRepeatAfter256 | butterfly-bluetooth-android/src/main/java/com/lightningkite/butterfly/bluetooth/RequestAndResponse.kt:110 | 256 consecutive requests carry distinct numbers, and the 257th reuses the first: nothing prevents collisions. |
| RequestResponse.MatchReply | butterfly-bluetooth-android/src/main/java/com/lightningkite/butterfly/bluetooth/RequestAndResponse.kt:112-115 | A matched reply is a frame numbered n with the number stripped; running out with no element means every frame was non-empty and none was numbered n; an empty frame at the head is an index error, and with OtherRepliesSkipped so is one met after replies to other numbers. |
| RequestResponse.MatchOwnReply | butterfly-bluetooth-android/src/main/java/com/lightningkite/butterfly/bluetooth/RequestAndResponse.kt:112-114 | A reply numbered n at the head of the stream is taken with its number stripped. |
| RequestResponse.OtherRepliesSkipped | butterfly-bluetooth-android/src/main/java/com/lightningkite/butterfly/bluetooth/RequestAndResponse.kt:112 | Replies to other numbers that arrive first are skipped, so replies may come out of order. |
| RequestResponse.RequestRoundTrip | butterfly-bluetooth-android/src/main/java/com/lightningkite/butterfly/bluetooth/RequestAndResponse.kt:109-115 | When the server's handler answers, the requester receives exactly the handler's answer, whatever replies to other numbers came first. |
| RequestResponse.BleRequestClient.constructor | butterfly-bluetooth-android/src/main/java/com/lightningkite/butterfly/bluetooth/RequestAndResponse.kt:82-98 | A new client's counter starts at 0 and it has written nothing. |
| RequestResponse.AwaitReply | butterfly-bluetooth-android/src/main/java/com/lightningkite/butterfly/bluetooth/RequestAndResponse.kt:112-115 | With a stream that completes the answer is MatchReply's; a stream failure never replaces a matched reply and is the answer when no frame matched. |
| RequestResponse.ReplyBeforeFailure | butterfly-bluetooth-android/src/main/java/com/lightningkite/butterfly/bluetooth/RequestAndResponse.kt:112-115 | A reply numbered n delivered after replies to other numbers is answered even when the stream later fails. |
| RequestResponse.BleRequestClient.Request | butterfly-bluetooth-android/src/main/java/com/lightningkite/butterfly/bluetooth/RequestAndResponse.kt:109-116 | A request uses the current number, advances the counter and writes `[n] ++ data`; a failed write fails the request with the write's error, otherwise the answer is AwaitReply of the replies indicated after the write. |
| RequestResponse.RequestClients.Get | butterfly-bluetooth-android/src/main/java/com/lightningkite/butterfly/bluetooth/RequestAndResponse.kt:88-95 | The same connection always gets the same client; a new one gets a fresh client, registered. |
| RequestResponse.RequestClients.OnResponsesComplete | butterfly-bluetooth-android/src/main/java/com/lightningkite/butterfly/bluetooth/RequestAndResponse.kt:100-106 | When the response stream completes, only that connection's client is removed. |
| RequestResponse.RequestClients.Request | butterfly-bluetooth-android/src/main/java/com/lightningkite/butterfly/bluetooth/RequestAndResponse.kt:118-123 | A request on a connection goes through that connection's client, created on first use with the given service: its counter advances, the frame `[n] ++ data` is appended to what it wrote, and the answer is that of BleRequestClient.Request; every other connection keeps its client, counter and written frames. |

## Left out

- Rx scheduling, threading and multicasting are not modelled. This covers `subscribeBy`, `forever()`, `.share()`, and the timing of `switchMap` relative to the write. A handler's `Single` is taken to resolve at once, and the reply stream a request sees is given as a parameter.
- The advertising mode chosen from `advertisingIntensity` is left out: it is float range matching. So are the `AdvertiseSettings` and `AdvertiseData` builders, apart from the advertised service UUIDs.
- `onNotificationSent`, `onMtuChanged`, `onPhyUpdate`, `onPhyRead` and `onDescriptorReadRequest` are left out: they only log or call `super`.
- Logging, and the `clients` property's change notifications, are not modelled.
- `BleClientImpl.info` is not modelled, nor the numeric values of `BleResponseStatus`; statuses are symbolic.
- The order of characteristics inside a built service, and of services in registration, is some iteration order of the source maps. The model does not pin down which one.
- ServerDelegate.Entries visits the positions service by service. Which order the delegates of one service come in is left open.
- ServerDelegate.OnSubscribe models only which stream is returned, not what it emits. Likewise `FromProperty.onSubscribe`, which returns the property's stream of values, is not modelled.
- `FromProperty.onConnect`, `onDisconnect` and `onDispose` do nothing, so they have no member.
- `PerCharacteristic` delegates are identified by their position in the tree. A delegate object placed at two positions is called once per position, as the flattened walk does.
- The disposal of characteristic servers, `ActivityAccess`, the `BleServer(...)` factory and the RxAndroidBle connection setup are not part of this model.
- `Ble.notificationDescriptorUuid` is not part of this model; the standard CCCD UUID 0x2902 stands for it.
- `BleServer.shared.kt`, `BleScanResult` and the descriptor and characteristic records are declarations only.
- RequestResponse.BleRequestServer.OnWrite does not model the handler's log message on failure.
- Models.ResponseExceptionCarriesStatus: errors are values in the model and compare by their status. `BleResponseException` is a plain Kotlin class, so two instances compare by identity; no member of the core compares exceptions.
- RequestResponse.AwaitReply: the reply stream is taken to have ended, by completing or failing. A stream that stays open with no matching frame leaves the request unresolved in the code, for example when the server's handler fails and emits nothing. The model has no outcome for that case.
- ServerImpl.BleServerImpl.SetAdvertising follows the corrected callback handling under "## Findings", not the code as written. As written, the callback field stays null and turning advertising off calls `stopAdvertising(null)`. That behaviour is Advertising.SetAdvertisingAsWritten, with AsWrittenCallbackStaysNull and AsWrittenStopLosesCallback.
- ServerImpl.BleServerImpl.Dispose likewise stops the advertisement with the stored callback. As written, the field is null, so `dispose` skips the stop (Advertising.AsWrittenCallbackStaysNull).

## Findings

| source | as written | input that shows it | evidently intended | confidence | as-written member | corrected member |
|---|---|---|---|---|---|---|
| butterfly-bluetooth-android/src/main/java/com/lightningkite/butterfly/bluetooth/BleServerImpl.kt:258 | `startAdvertising` declares a local `val advertiserCallback` that shadows the field, so the field stays null. `stopAdvertising` then passes null, and `dispose` stops nothing. | `advertising = true` then `advertising = false` on a server with an advertiser: it starts with callback 0 and stops with null. | Store the callback in the field, so that stop and dispose stop the advertisement that was started. | not executed | Advertising.AsWrittenStopLosesCallback | Advertising.StopMatchesStart |
