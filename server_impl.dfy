/**
 * `BleServerImpl`: the GATT server callback object. It routes read, write
 * and descriptor-write requests by (service UUID, characteristic UUID) to the
 * declared characteristic servers, tracks which characteristics each client
 * has subscribed to, keeps a registry of clients by address, registers the
 * GATT services one at a time, and toggles advertising.
 *
 * The platform objects are opaque ids. Everything the server asks of the
 * platform (responses, service registration, notifications, advertising) is
 * appended to `outbox`; every call into a characteristic server is appended
 * to `handlerCalls`.
 */
module ServerImpl {
  import opened Models
  import opened Collections
  import opened GattTranslation
  import Advertising

  /** Stands for a `BleClientImpl` object. */
  type ClientId = nat
  /** Stands for a `BluetoothGattServer`. */
  type GattServerId = nat

  /** A `BluetoothDevice`. */
  datatype Device = Device(address: string, name: Option<string>)

  /** The platform calls the server makes. */
  datatype Effect =
    | ClearServices(server: GattServerId)
    | AddService(server: GattServerId, service: GattService)
    | SendResponse(server: GattServerId, device: Device, requestId: int, status: ResponseStatus, value: Option<Data>)
    | NotifyCharacteristicChanged(server: GattServerId, device: Device, serviceUuid: Uuid, characteristicUuid: Uuid, newValue: Data, confirm: bool)
    | CloseServer(server: GattServerId)
    | Advertise(call: Advertising.AdvertiserCall)

  /** The calls the server makes into a characteristic server. */
  datatype HandlerCall =
    | OnWrite(target: CharacteristicServer, client: ClientId, requestId: int, value: Data)
    | OnRead(target: CharacteristicServer, client: ClientId, requestId: int)
    | OnSubscribe(target: CharacteristicServer, client: ClientId)
    | OnUnsubscribe(target: CharacteristicServer, client: ClientId)
    | OnDisconnect(target: CharacteristicServer, client: ClientId)

  // Values a peer writes to the CCCD (Bluetooth Core Specification, Vol 3
  // Part G, section 3.3.3.3: bit 0 enables notifications, bit 1 indications).
  const ENABLE_NOTIFICATION_VALUE: Data := [0x01, 0x00]
  const ENABLE_INDICATION_VALUE: Data := [0x02, 0x00]
  const DISABLE_NOTIFICATION_VALUE: Data := [0x00, 0x00]

  // Connection states reported by the platform.
  const STATE_DISCONNECTED: int := 0
  const STATE_CONNECTED: int := 2

  /** What a write to the CCCD asks for. */
  datatype CccdCommand = EnableIndication | EnableNotification | Disable | Unrecognised

  /** Interprets a value written to the CCCD; the value is compared byte by byte. */
  function CccdCommandOf(value: Data): (cmd: CccdCommand)
    ensures cmd == EnableIndication <==> value == [0x02, 0x00]
    ensures cmd == EnableNotification <==> value == [0x01, 0x00]
    ensures cmd == Disable <==> value == [0x00, 0x00]
  {
    if value == ENABLE_INDICATION_VALUE then EnableIndication
    else if value == ENABLE_NOTIFICATION_VALUE then EnableNotification
    else if value == DISABLE_NOTIFICATION_VALUE then Disable
    else Unrecognised
  }

  // ---------------------------------------------------------------------
  // The client registry: the `clients` property together with the
  // `connected` flag and device of every client object created.

  datatype ClientRegistry = ClientRegistry(
    clients: map<string, ClientId>,
    devices: map<ClientId, Device>,
    connected: map<ClientId, bool>,
    nextClient: nat
  )

  /**
   * Client ids are handed out in order; a client is connected exactly when
   * the registry lists it; each listed client is filed under its device's
   * address.
   */
  ghost predicate RegistryValid(r: ClientRegistry)
  {
    && r.devices.Keys == r.connected.Keys
    && (forall id :: id in r.connected <==> 0 <= id < r.nextClient)
    && (forall a :: a in r.clients ==> r.clients[a] in r.connected && r.devices[r.clients[a]].address == a)
    && (forall id :: id in r.connected ==> (r.connected[id] <==> id in r.clients.Values))
  }

  const EmptyRegistry := ClientRegistry(map[], map[], map[], 0)

  lemma EmptyRegistryValid()
    ensures RegistryValid(EmptyRegistry)
  {
  }

  /**
   * `clientFor`: the client already filed under the device's address, or a
   * new connected client filed under it.
   */
  function ClientFor(r: ClientRegistry, device: Device): (res: (ClientRegistry, ClientId))
    requires RegistryValid(r)
    ensures RegistryValid(res.0)
    ensures device.address in r.clients ==> res == (r, r.clients[device.address])
    ensures device.address !in r.clients ==>
      && res.1 !in r.connected
      && res.0.clients == r.clients[device.address := res.1]
      && res.0.devices == r.devices[res.1 := device]
      && res.0.connected == r.connected[res.1 := true]
    ensures device.address in res.0.clients && res.0.clients[device.address] == res.1
    ensures res.1 in res.0.connected && res.0.connected[res.1]
    ensures res.0.nextClient >= r.nextClient
  {
    if device.address in r.clients then
      (r, r.clients[device.address])
    else
      var c := r.nextClient;
      var r' := ClientRegistry(r.clients[device.address := c], r.devices[c := device], r.connected[c := true], c + 1);
      assert forall id :: id in r'.connected && id != c ==> (id in r'.clients.Values <==> id in r.clients.Values) by {
        forall id | id in r'.connected && id != c && id in r.clients.Values
          ensures id in r'.clients.Values
        {
          var a :| a in r.clients && r.clients[a] == id;
          assert a != device.address;
          assert r'.clients[a] == id;
        }
      }
      assert r'.clients[device.address] == c;
      (r', c)
  }

  /** `removeClientFor`: unfiles the device's address and marks that client disconnected. */
  function RemoveClientFor(r: ClientRegistry, device: Device): (res: ClientRegistry)
    requires RegistryValid(r)
    ensures RegistryValid(res)
    ensures res.clients == r.clients - {device.address}
    ensures res.devices == r.devices && res.nextClient == r.nextClient
    ensures device.address in r.clients ==> res.connected == r.connected[r.clients[device.address] := false]
    ensures device.address !in r.clients ==> res.connected == r.connected
  {
    if device.address in r.clients then
      var c := r.clients[device.address];
      var r' := r.(clients := r.clients - {device.address}, connected := r.connected[c := false]);
      assert c !in r'.clients.Values by {
        forall a | a in r'.clients
          ensures r'.clients[a] != c
        {
          assert r.devices[r.clients[a]].address == a != device.address;
        }
      }
      assert forall id :: id in r'.connected && id != c ==> (id in r'.clients.Values <==> id in r.clients.Values) by {
        forall id | id in r'.connected && id != c && id in r.clients.Values
          ensures id in r'.clients.Values
        {
          var a :| a in r.clients && r.clients[a] == id;
          assert a != device.address;
          assert r'.clients[a] == id;
        }
      }
      r'
    else
      assert r.clients - {device.address} == r.clients;
      r
  }

  /** Asking twice for the same device's client gives the same client and changes nothing more. */
  lemma ClientForIdempotent(r: ClientRegistry, device: Device)
    requires RegistryValid(r)
    ensures var (r1, c1) := ClientFor(r, device);
      ClientFor(r1, device) == (r1, c1)
  {
  }

  /** After a device disconnects and reconnects it gets a new client; the old one stays disconnected. */
  lemma ReconnectGivesFreshClient(r: ClientRegistry, device: Device)
    requires RegistryValid(r)
    ensures var (r1, c1) := ClientFor(r, device);
      var r2 := RemoveClientFor(r1, device);
      var (r3, c3) := ClientFor(r2, device);
      c3 != c1 && !r3.connected[c1] && r3.connected[c3]
  {
  }

  // ---------------------------------------------------------------------
  // Subscription tracking: client -> characteristics it subscribed to.

  type Tracking = map<ClientId, set<CharacteristicServer>>

  /** `subscriptionTracking.getOrPut(client){HashSet()}` */
  function TrackedBy(t: Tracking, client: ClientId): set<CharacteristicServer>
  {
    if client in t then t[client] else {}
  }

  /** An enable write: adds the characteristic to the client's set. */
  function Subscribe(t: Tracking, client: ClientId, target: CharacteristicServer): (t': Tracking)
    ensures TrackedBy(t', client) == TrackedBy(t, client) + {target}
    ensures forall other :: other != client ==> TrackedBy(t', other) == TrackedBy(t, other)
    ensures t'.Keys == t.Keys + {client}
  {
    t[client := TrackedBy(t, client) + {target}]
  }

  /** A disable write: removes the characteristic from the client's set (creating the set if absent). */
  function Unsubscribe(t: Tracking, client: ClientId, target: CharacteristicServer): (t': Tracking)
    ensures TrackedBy(t', client) == TrackedBy(t, client) - {target}
    ensures forall other :: other != client ==> TrackedBy(t', other) == TrackedBy(t, other)
    ensures t'.Keys == t.Keys + {client}
  {
    t[client := TrackedBy(t, client) - {target}]
  }

  /** Repeated enables track the same set as one. */
  lemma SubscribeIdempotent(t: Tracking, client: ClientId, target: CharacteristicServer)
    ensures Subscribe(Subscribe(t, client, target), client, target) == Subscribe(t, client, target)
  {
  }

  /** A disable after an enable leaves the characteristic untracked. */
  lemma UnsubscribeAfterSubscribe(t: Tracking, client: ClientId, target: CharacteristicServer)
    ensures target !in TrackedBy(Unsubscribe(Subscribe(t, client, target), client, target), client)
  {
  }

  // ---------------------------------------------------------------------
  // Service registration order.

  /** The services listed in `order`. */
  function InOrder(services: map<Uuid, GattService>, order: seq<Uuid>): (r: seq<GattService>)
    requires forall k :: k in order ==> k in services
    ensures |r| == |order|
    ensures forall i :: 0 <= i < |order| ==> r[i] == services[order[i]]
  {
    seq(|order|, i requires 0 <= i < |order| => services[order[i]])
  }

  /** Listing the services in an order that names each key once lists each service once. */
  lemma InOrderListsEachOnce(services: map<Uuid, GattService>, order: seq<Uuid>)
    requires Distinct(order)
    requires forall k :: k in order <==> k in services
    requires forall k :: k in services ==> services[k].uuid == k
    ensures Distinct(InOrder(services, order))
    ensures forall s :: s in InOrder(services, order) <==> s in services.Values
  {
    var r := InOrder(services, order);
    forall i, j | 0 <= i < j < |r|
      ensures r[i] != r[j]
    {
      assert r[i].uuid == order[i] && r[j].uuid == order[j];
    }
    forall s | s in services.Values
      ensures s in r
    {
      var k :| k in services && services[k] == s;
      var i :| 0 <= i < |order| && order[i] == k;
      assert r[i] == s;
    }
  }

  /**
   * The `services` map: the GATT service of each declared service, together
   * with the order in which the declarations are iterated.
   */
  method BuildServices(characteristics: map<Uuid, map<Uuid, CharacteristicServer>>)
    returns (services: map<Uuid, GattService>, order: seq<Uuid>)
    ensures services.Keys == characteristics.Keys
    ensures AllBuilt(services, characteristics)
    ensures Distinct(order) && forall k :: k in order <==> k in characteristics
  {
    order := Enumerate(characteristics.Keys);
    services := map[];
    var i := 0;
    while i < |order|
      invariant 0 <= i <= |order|
      invariant forall j :: 0 <= j < i ==> order[j] in services
      invariant AllBuilt(services, characteristics)
    {
      var s, keys := BuildService(order[i], characteristics[order[i]]);
      assert BuiltInOrder(s, order[i], characteristics[order[i]], keys);
      AllBuiltUpdate(services, characteristics, order[i], s);
      services := services[order[i] := s];
      i := i + 1;
    }
    assert forall k :: k in characteristics ==> k in services by {
      forall k | k in characteristics ensures k in services {
        var j :| 0 <= j < |order| && order[j] == k;
      }
    }
  }

  /** Every service in `services` is built from the declared characteristics of its key. */
  ghost predicate AllBuilt(services: map<Uuid, GattService>, characteristics: map<Uuid, map<Uuid, CharacteristicServer>>)
  {
    forall k :: k in services ==> k in characteristics && IsServiceFor(services[k], k, characteristics[k])
  }

  lemma AllBuiltUpdate(services: map<Uuid, GattService>, characteristics: map<Uuid, map<Uuid, CharacteristicServer>>, k: Uuid, s: GattService)
    requires AllBuilt(services, characteristics)
    requires k in characteristics && IsServiceFor(s, k, characteristics[k])
    ensures AllBuilt(services[k := s], characteristics)
  {
  }

  // ---------------------------------------------------------------------

  class BleServerImpl {
    const characteristics: map<Uuid, map<Uuid, CharacteristicServer>>
    const serviceUuids: Option<seq<Uuid>>
    /** The GATT service built for each declared service. */
    const services: map<Uuid, GattService>
    /** The iteration order of `characteristics`, which `services` keeps. */
    const serviceOrder: seq<Uuid>
    /** The services in that order. */
    const allServices: seq<GattService>

    var advertiser: Option<Advertising.AdvertiserId>
    var server: Option<GattServerId>
    var servicesToAdd: seq<GattService>
    var registry: ClientRegistry
    var subscriptionTracking: Tracking
    var advertisingState: Advertising.AdvertisingState
    var outbox: seq<Effect>
    var handlerCalls: seq<HandlerCall>

    /** The services queued by the last non-null `server` assignment. */
    ghost var registration: seq<GattService>
    /** Those of them already handed to `addService`. */
    ghost var registered: seq<GattService>

    ghost predicate Valid()
      reads this
    {
      && Layout()
      && registered + servicesToAdd == registration
      && (registration == [] || registration == allServices)
      && RegistryValid(registry)
      && (forall c :: c in subscriptionTracking ==> c in registry.connected)
    }

    /** The services, their order and their listing agree. */
    ghost predicate Layout()
    {
      && services.Keys == characteristics.Keys
      && (forall k :: k in services ==> services[k].uuid == k)
      && Distinct(serviceOrder)
      && (forall k :: k in serviceOrder <==> k in services)
      && allServices == InOrder(services, serviceOrder)
    }

    /** Each declared service has its GATT service built from its characteristics. */
    ghost predicate ServicesBuilt()
    {
      && services.Keys == characteristics.Keys
      && AllBuilt(services, characteristics)
    }

    /** `isDisposed()`: there is no GATT server. */
    predicate IsDisposed()
      reads this
    {
      server.None?
    }

    /** Builds the GATT service of each declared service; starts with no server, no clients, not advertising. */
    constructor (characteristics: map<Uuid, map<Uuid, CharacteristicServer>>, serviceUuids: Option<seq<Uuid>>)
      ensures Valid() && ServicesBuilt()
      ensures this.characteristics == characteristics && this.serviceUuids == serviceUuids
      ensures server == None && advertiser == None && IsDisposed()
      ensures servicesToAdd == [] && registry == EmptyRegistry && subscriptionTracking == map[]
      ensures advertisingState == Advertising.AdvertisingState(false, None, 0)
      ensures outbox == [] && handlerCalls == []
    {
      var built, order := BuildServices(characteristics);
      this.characteristics := characteristics;
      this.serviceUuids := serviceUuids;
      services := built;
      serviceOrder := order;
      allServices := InOrder(built, order);
      advertiser := None;
      server := None;
      servicesToAdd := [];
      registry := EmptyRegistry;
      subscriptionTracking := map[];
      advertisingState := Advertising.AdvertisingState(false, None, 0);
      outbox := [];
      handlerCalls := [];
      registration := [];
      registered := [];
    }

    /** The characteristic server declared at (service, characteristic), if any. */
    function Lookup(serviceUuid: Uuid, characteristicUuid: Uuid): Option<CharacteristicServer>
    {
      if serviceUuid in characteristics && characteristicUuid in characteristics[serviceUuid]
      then Some(characteristics[serviceUuid][characteristicUuid])
      else None
    }

    /** `server?.sendResponse(...)`: only when there is a server. */
    function ResponseTo(device: Device, requestId: int, status: ResponseStatus, value: Option<Data>): seq<Effect>
      reads this
    {
      if server.Some? then [SendResponse(server.value, device, requestId, status, value)] else []
    }

    method ClientOf(device: Device) returns (c: ClientId)
      requires Valid()
      modifies this`registry
      ensures Valid()
      ensures (registry, c) == ClientFor(old(registry), device)
    {
      var res := ClientFor(registry, device);
      registry := res.0;
      c := res.1;
    }

    /** `onCharacteristicWriteRequest`: routes the write to the declared characteristic server. */
    method OnCharacteristicWriteRequest(device: Device, requestId: int, characteristic: Characteristic, value: Data)
      requires Valid()
      modifies this`outbox, this`handlerCalls, this`registry
      ensures Valid()
      ensures Lookup(characteristic.serviceUuid, characteristic.characteristicUuid).None? ==>
        && outbox == old(outbox) + ResponseTo(device, requestId, AttributeNotFound, Some([]))
        && handlerCalls == old(handlerCalls) && registry == old(registry)
      ensures Lookup(characteristic.serviceUuid, characteristic.characteristicUuid).Some? ==>
        var (r, c) := ClientFor(old(registry), device);
        && outbox == old(outbox) && registry == r
        && handlerCalls == old(handlerCalls) + [OnWrite(Lookup(characteristic.serviceUuid, characteristic.characteristicUuid).value, c, requestId, value)]
    {
      var target := Lookup(characteristic.serviceUuid, characteristic.characteristicUuid);
      if target.None? {
        outbox := outbox + ResponseTo(device, requestId, AttributeNotFound, Some([]));
        return;
      }
      var c := ClientOf(device);
      handlerCalls := handlerCalls + [OnWrite(target.value, c, requestId, value)];
    }

    /** `onCharacteristicReadRequest`: routes the read to the declared characteristic server. */
    method OnCharacteristicReadRequest(device: Device, requestId: int, characteristic: Characteristic)
      requires Valid()
      modifies this`outbox, this`handlerCalls, this`registry
      ensures Valid()
      ensures Lookup(characteristic.serviceUuid, characteristic.characteristicUuid).None? ==>
        && outbox == old(outbox) + ResponseTo(device, requestId, AttributeNotFound, Some([]))
        && handlerCalls == old(handlerCalls) && registry == old(registry)
      ensures Lookup(characteristic.serviceUuid, characteristic.characteristicUuid).Some? ==>
        var (r, c) := ClientFor(old(registry), device);
        && outbox == old(outbox) && registry == r
        && handlerCalls == old(handlerCalls) + [OnRead(Lookup(characteristic.serviceUuid, characteristic.characteristicUuid).value, c, requestId)]
    {
      var target := Lookup(characteristic.serviceUuid, characteristic.characteristicUuid);
      if target.None? {
        outbox := outbox + ResponseTo(device, requestId, AttributeNotFound, Some([]));
        return;
      }
      var c := ClientOf(device);
      handlerCalls := handlerCalls + [OnRead(target.value, c, requestId)];
    }

    /**
     * `onDescriptorWriteRequest`: an unknown attribute or a descriptor other
     * than the CCCD gets `attributeNotFound`; otherwise an enable value tracks
     * the characteristic and calls `onSubscribe` (on every such write), the
     * disable value untracks it and calls `onUnsubscribe`, any other value
     * does neither, and the write is answered with `success`.
     */
    method OnDescriptorWriteRequest(device: Device, requestId: int, descriptor: Descriptor, value: Data)
      requires Valid()
      modifies this`outbox, this`handlerCalls, this`registry, this`subscriptionTracking
      ensures Valid()
      ensures var target := Lookup(descriptor.serviceUuid, descriptor.characteristicUuid);
        target.None? || descriptor.descriptorUuid != CCCD_UUID ==>
          && outbox == old(outbox) + ResponseTo(device, requestId, AttributeNotFound, Some([]))
          && handlerCalls == old(handlerCalls) && registry == old(registry)
          && subscriptionTracking == old(subscriptionTracking)
      ensures var target := Lookup(descriptor.serviceUuid, descriptor.characteristicUuid);
        target.Some? && descriptor.descriptorUuid == CCCD_UUID ==>
          && outbox == old(outbox) + ResponseTo(device, requestId, Success, None)
          && var (r, c) := ClientFor(old(registry), device);
          match CccdCommandOf(value)
          case EnableIndication | EnableNotification =>
            && registry == r
            && subscriptionTracking == Subscribe(old(subscriptionTracking), c, target.value)
            && handlerCalls == old(handlerCalls) + [OnSubscribe(target.value, c)]
          case Disable =>
            && registry == r
            && subscriptionTracking == Unsubscribe(old(subscriptionTracking), c, target.value)
            && handlerCalls == old(handlerCalls) + [OnUnsubscribe(target.value, c)]
          case Unrecognised =>
            && registry == old(registry)
            && subscriptionTracking == old(subscriptionTracking)
            && handlerCalls == old(handlerCalls)
    {
      var target := Lookup(descriptor.serviceUuid, descriptor.characteristicUuid);
      if target.None? || descriptor.descriptorUuid != CCCD_UUID {
        outbox := outbox + ResponseTo(device, requestId, AttributeNotFound, Some([]));
        return;
      }
      UpdateSubscription(device, target.value, CccdCommandOf(value));
      outbox := outbox + ResponseTo(device, requestId, Success, None);
    }

    /** The tracking step of a CCCD write to `target`. */
    method UpdateSubscription(device: Device, target: CharacteristicServer, cmd: CccdCommand)
      requires Valid()
      modifies this`handlerCalls, this`registry, this`subscriptionTracking
      ensures Valid()
      ensures var (r, c) := ClientFor(old(registry), device);
        match cmd
        case EnableIndication | EnableNotification =>
          && registry == r
          && subscriptionTracking == Subscribe(old(subscriptionTracking), c, target)
          && handlerCalls == old(handlerCalls) + [OnSubscribe(target, c)]
        case Disable =>
          && registry == r
          && subscriptionTracking == Unsubscribe(old(subscriptionTracking), c, target)
          && handlerCalls == old(handlerCalls) + [OnUnsubscribe(target, c)]
        case Unrecognised =>
          && registry == old(registry)
          && subscriptionTracking == old(subscriptionTracking)
          && handlerCalls == old(handlerCalls)
    {
      match cmd {
        case EnableIndication | EnableNotification =>
          var c := ClientOf(device);
          subscriptionTracking := Subscribe(subscriptionTracking, c, target);
          handlerCalls := handlerCalls + [OnSubscribe(target, c)];
        case Disable =>
          var c := ClientOf(device);
          subscriptionTracking := Unsubscribe(subscriptionTracking, c, target);
          handlerCalls := handlerCalls + [OnUnsubscribe(target, c)];
        case Unrecognised =>
      }
    }

    /**
     * `onConnectionStateChange`: a connect registers the client; a disconnect
     * calls `onDisconnect` once on each characteristic the client tracks,
     * then unfiles the client. Tracking itself is left as it was.
     */
    method OnConnectionStateChange(device: Device, status: int, newState: int)
      requires Valid()
      modifies this`handlerCalls, this`registry
      ensures Valid()
      ensures newState == STATE_CONNECTED ==>
        registry == ClientFor(old(registry), device).0 && handlerCalls == old(handlerCalls)
      ensures newState == STATE_DISCONNECTED ==>
        var (r, c) := ClientFor(old(registry), device);
        var tracked := TrackedBy(subscriptionTracking, c);
        && registry == RemoveClientFor(r, device)
        && |handlerCalls| == |old(handlerCalls)| + |tracked|
        && handlerCalls[..|old(handlerCalls)|] == old(handlerCalls)
        && Distinct(handlerCalls[|old(handlerCalls)|..])
        && (forall h :: h in handlerCalls[|old(handlerCalls)|..] <==> h.OnDisconnect? && h.client == c && h.target in tracked)
      ensures newState != STATE_CONNECTED && newState != STATE_DISCONNECTED ==>
        registry == old(registry) && handlerCalls == old(handlerCalls)
    {
      if newState == STATE_CONNECTED {
        var _ := ClientOf(device);
      } else if newState == STATE_DISCONNECTED {
        var c := ClientOf(device);
        DisconnectTracked(c);
        registry := RemoveClientFor(registry, device);
      }
    }

    /** `subscriptionTracking[client]?.forEach { it.onDisconnect(client) }` */
    method DisconnectTracked(c: ClientId)
      modifies this`handlerCalls
      ensures var tracked := TrackedBy(subscriptionTracking, c);
        && |handlerCalls| == |old(handlerCalls)| + |tracked|
        && handlerCalls[..|old(handlerCalls)|] == old(handlerCalls)
        && Distinct(handlerCalls[|old(handlerCalls)|..])
        && (forall h :: h in handlerCalls[|old(handlerCalls)|..] <==> h.OnDisconnect? && h.client == c && h.target in tracked)
    {
      var targets := Enumerate(TrackedBy(subscriptionTracking, c));
      ghost var before := handlerCalls;
      for i := 0 to |targets|
        invariant handlerCalls == before + seq(i, j requires 0 <= j < i => OnDisconnect(targets[j], c))
      {
        handlerCalls := handlerCalls + [OnDisconnect(targets[i], c)];
      }
      ghost var added := handlerCalls[|before|..];
      assert forall j :: 0 <= j < |added| ==> added[j] == OnDisconnect(targets[j], c);
    }

    /**
     * The `server` setter: a non-null server is cleared, the queue is reset
     * to all services in order, and the first one is added.
     */
    method SetServer(value: Option<GattServerId>)
      requires Valid()
      modifies this`server, this`servicesToAdd, this`outbox, this`registration, this`registered
      ensures Valid()
      ensures server == value
      ensures value.None? ==> servicesToAdd == old(servicesToAdd) && outbox == old(outbox)
      ensures value.Some? ==>
        var all := allServices;
        && registration == all
        && (all == [] ==> servicesToAdd == [] && outbox == old(outbox) + [ClearServices(value.value)])
        && (all != [] ==> servicesToAdd == all[1..] && outbox == old(outbox) + [ClearServices(value.value), AddService(value.value, all[0])])
    {
      server := value;
      if value.Some? {
        outbox := outbox + [ClearServices(value.value)];
        servicesToAdd := allServices;
        registration := servicesToAdd;
        registered := [];
        if |servicesToAdd| > 0 {
          outbox := outbox + [AddService(value.value, servicesToAdd[0])];
          registered := [servicesToAdd[0]];
          servicesToAdd := servicesToAdd[1..];
        }
      }
    }

    /** `onServiceAdded`: adds the next queued service, if any, to the current server. */
    method OnServiceAdded(status: int, service: GattService)
      requires Valid()
      modifies this`servicesToAdd, this`outbox, this`registered
      ensures Valid()
      ensures old(servicesToAdd) != [] && server.Some? ==>
        && servicesToAdd == old(servicesToAdd)[1..]
        && |servicesToAdd| == |old(servicesToAdd)| - 1
        && outbox == old(outbox) + [AddService(server.value, old(servicesToAdd)[0])]
      ensures old(servicesToAdd) == [] || server.None? ==>
        servicesToAdd == old(servicesToAdd) && outbox == old(outbox)
    {
      if |servicesToAdd| > 0 && server.Some? {
        outbox := outbox + [AddService(server.value, servicesToAdd[0])];
        registered := registered + [servicesToAdd[0]];
        servicesToAdd := servicesToAdd[1..];
      }
    }

    /** The service UUIDs advertised: the given list, or else every declared service. */
    function AdvertisedUuids(): seq<Uuid>
    {
      if serviceUuids.Some? then serviceUuids.value else serviceOrder
    }

    /** The `advertising` setter. */
    method SetAdvertising(value: bool)
      requires Valid()
      modifies this`advertisingState, this`outbox
      ensures Valid()
      ensures var step := Advertising.SetAdvertising(old(advertisingState), advertiser, value, AdvertisedUuids());
        && advertisingState == step.state
        && outbox == old(outbox) + seq(|step.calls|, i requires 0 <= i < |step.calls| => Advertise(step.calls[i]))
    {
      var step := Advertising.SetAdvertising(advertisingState, advertiser, value, AdvertisedUuids());
      advertisingState := step.state;
      outbox := outbox + seq(|step.calls|, i requires 0 <= i < |step.calls| => Advertise(step.calls[i]));
    }

    /** `dispose`: stops advertising with the stored callback, closes the server and drops it. */
    method Dispose()
      requires Valid()
      modifies this`advertisingState, this`outbox, this`server
      ensures Valid()
      ensures IsDisposed()
      ensures var step := Advertising.DisposeAdvertising(old(advertisingState), advertiser);
        && advertisingState == step.state
        && outbox == old(outbox)
          + seq(|step.calls|, i requires 0 <= i < |step.calls| => Advertise(step.calls[i]))
          + (if old(server).Some? then [CloseServer(old(server).value)] else [])
    {
      var step := Advertising.DisposeAdvertising(advertisingState, advertiser);
      advertisingState := step.state;
      outbox := outbox + seq(|step.calls|, i requires 0 <= i < |step.calls| => Advertise(step.calls[i]));
      if server.Some? {
        outbox := outbox + [CloseServer(server.value)];
      }
      server := None;
    }

    /** `BleClientImpl.respond`: a response sent to the client's device through the current server. */
    method Respond(client: ClientId, requestId: int, data: Data, status: ResponseStatus)
      requires Valid() && client in registry.devices
      modifies this`outbox
      ensures outbox == old(outbox) + ResponseTo(registry.devices[client], requestId, status, Some(data))
    {
      outbox := outbox + ResponseTo(registry.devices[client], requestId, status, Some(data));
    }

    /**
     * `BleClientImpl.notify` (confirm false) and `indicate` (confirm true):
     * the changed value pushed to the client's device. A service or
     * characteristic the server does not declare fails with a null pointer.
     */
    method Push(client: ClientId, serviceUuid: Uuid, characteristicUuid: Uuid, value: Data, confirm: bool) returns (r: Outcome<()>)
      requires Valid() && client in registry.devices
      modifies this`outbox
      ensures server.None? ==> r == Ok(()) && outbox == old(outbox)
      ensures server.Some? && (serviceUuid !in services || forall g :: g in services[serviceUuid].characteristics ==> g.uuid != characteristicUuid) ==>
        r == Err(NullPointer) && outbox == old(outbox)
      ensures server.Some? && serviceUuid in services && (exists g :: g in services[serviceUuid].characteristics && g.uuid == characteristicUuid) ==>
        && r == Ok(())
        && outbox == old(outbox) + [NotifyCharacteristicChanged(server.value, registry.devices[client], serviceUuid, characteristicUuid, value, confirm)]
    {
      if server.None? {
        return Ok(());
      }
      if serviceUuid !in services || forall g :: g in services[serviceUuid].characteristics ==> g.uuid != characteristicUuid {
        return Err(NullPointer);
      }
      outbox := outbox + [NotifyCharacteristicChanged(server.value, registry.devices[client], serviceUuid, characteristicUuid, value, confirm)];
      r := Ok(());
    }

    /** Every registered service is registered once, and the registration covers every service. */
    lemma RegistrationListsEachServiceOnce()
      requires Valid() && registration != []
      ensures Distinct(registered + servicesToAdd)
      ensures forall s :: s in registered + servicesToAdd <==> s in services.Values
    {
      forall k | k in services ensures services[k].uuid == k { }
      InOrderListsEachOnce(services, serviceOrder);
    }
  }
}
