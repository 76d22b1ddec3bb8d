/**
 * `BleServerDelegate.PerCharacteristic`: a server delegate assembled from one
 * delegate per characteristic. It derives the published profile from the
 * delegate tree, routes reads, writes and subscriptions by (service UUID,
 * characteristic UUID), and passes connect, disconnect and dispose on to
 * every delegate. `FromProperty` is the stock delegate backed by a mutable
 * value.
 */
module ServerDelegate {
  import opened Models
  import opened Collections

  /** Stands for the identity of a `Delegate` object. */
  type DelegateId = nat

  /** A characteristic delegate: its identity, name and declared properties. */
  datatype Delegate = Delegate(handle: DelegateId, debugName: string, properties: CharacteristicProperties)

  datatype Service = Service(debugName: string, primary: bool, delegates: map<Uuid, Delegate>)

  // ---------------------------------------------------------------------
  // The vararg constructors: `pairs.associate { it }`.

  /** Kotlin's `associate`: the map of the pairs, a later pair replacing an earlier one with the same key. */
  function Associate<V>(pairs: seq<(Uuid, V)>): (m: map<Uuid, V>)
    ensures forall k :: k in m <==> exists i :: 0 <= i < |pairs| && pairs[i].0 == k
  {
    if pairs == [] then map[]
    else
      var init := pairs[..|pairs| - 1];
      var last := pairs[|pairs| - 1];
      var m := Associate(init)[last.0 := last.1];
      assert forall k :: k in m ==> exists i :: 0 <= i < |pairs| && pairs[i].0 == k by {
        forall k | k in m
          ensures exists i :: 0 <= i < |pairs| && pairs[i].0 == k
        {
          if k != last.0 {
            var i :| 0 <= i < |init| && init[i].0 == k;
            assert pairs[i].0 == k;
          }
        }
      }
      assert forall i :: 0 <= i < |init| ==> init[i] == pairs[i];
      m
  }

  /** The value kept for a key is the one paired with it last. */
  lemma {:induction false} AssociateLastWins<V>(pairs: seq<(Uuid, V)>, i: nat)
    requires i < |pairs|
    requires forall j :: i < j < |pairs| ==> pairs[j].0 != pairs[i].0
    ensures pairs[i].0 in Associate(pairs) && Associate(pairs)[pairs[i].0] == pairs[i].1
  {
    if i < |pairs| - 1 {
      var init := pairs[..|pairs| - 1];
      assert init[i] == pairs[i];
      AssociateLastWins(init, i);
    }
  }

  /** The secondary `Service` constructor, taking the delegates as pairs. */
  function ServiceOf(debugName: string, primary: bool, pairs: seq<(Uuid, Delegate)>): (s: Service)
    ensures s.debugName == debugName && s.primary == primary
    ensures forall i :: 0 <= i < |pairs| ==> pairs[i].0 in s.delegates
    ensures forall c :: c in s.delegates ==> exists i :: 0 <= i < |pairs| && pairs[i] == (c, s.delegates[c])
  {
    var m := Associate(pairs);
    assert forall c :: c in m ==> exists i :: 0 <= i < |pairs| && pairs[i] == (c, m[c]) by {
      forall c | c in m
        ensures exists i :: 0 <= i < |pairs| && pairs[i] == (c, m[c])
      {
        var i := LastIndexOf(pairs, c);
        AssociateLastWins(pairs, i);
      }
    }
    Service(debugName, primary, m)
  }

  /** The secondary `PerCharacteristic` constructor's map, built from pairs. */
  function ServicesOf(pairs: seq<(Uuid, Service)>): (m: map<Uuid, Service>)
    ensures forall i :: 0 <= i < |pairs| ==> pairs[i].0 in m
    ensures forall k :: k in m ==> exists i :: 0 <= i < |pairs| && pairs[i] == (k, m[k])
  {
    var m := Associate(pairs);
    assert forall k :: k in m ==> exists i :: 0 <= i < |pairs| && pairs[i] == (k, m[k]) by {
      forall k | k in m
        ensures exists i :: 0 <= i < |pairs| && pairs[i] == (k, m[k])
      {
        var i := LastIndexOf(pairs, k);
        AssociateLastWins(pairs, i);
      }
    }
    m
  }

  /** The last position at which `k` is paired. */
  function LastIndexOf<V>(pairs: seq<(Uuid, V)>, k: Uuid): (i: nat)
    requires exists i :: 0 <= i < |pairs| && pairs[i].0 == k
    ensures i < |pairs| && pairs[i].0 == k
    ensures forall j :: i < j < |pairs| ==> pairs[j].0 != k
  {
    if pairs[|pairs| - 1].0 == k then |pairs| - 1
    else
      var init := pairs[..|pairs| - 1];
      assert exists i :: 0 <= i < |init| && init[i].0 == k by {
        var i :| 0 <= i < |pairs| && pairs[i].0 == k;
        assert init[i] == pairs[i];
      }
      LastIndexOf(init, k)
  }

  /** With a key given twice, the later delegate is the one kept. */
  lemma DuplicateKeyLastWins(name: string, primary: bool, c: Uuid, first: Delegate, second: Delegate)
    ensures ServiceOf(name, primary, [(c, first), (c, second)]).delegates == map[c := second]
  {
    var pairs := [(c, first), (c, second)];
    AssociateLastWins(pairs, 1);
  }

  // ---------------------------------------------------------------------
  // The published profile.

  /** The description of one characteristic delegate. */
  function CharacteristicDescriptionOf(d: Delegate): (r: CharacteristicDescription)
    ensures r.debugName == d.debugName && r.properties == d.properties
  {
    CharacteristicDescription(d.debugName, d.properties)
  }

  /** The description of one service. */
  function ServiceDescriptionOf(s: Service): (r: ServiceDescription)
    ensures r.debugName == s.debugName && r.primary == s.primary
    ensures r.characteristics.Keys == s.delegates.Keys
    ensures forall c :: c in s.delegates ==>
      r.characteristics[c].debugName == s.delegates[c].debugName && r.characteristics[c].properties == s.delegates[c].properties
  {
    ServiceDescription(s.debugName, s.primary, map c | c in s.delegates :: CharacteristicDescriptionOf(s.delegates[c]))
  }

  /**
   * `profile`: one service description per service with the same key,
   * name and primacy, and in each one characteristic description per
   * delegate with the delegate's name and properties.
   */
  function ProfileOf(services: map<Uuid, Service>): (p: ProfileDescription)
    ensures p.services.Keys == services.Keys
    ensures forall k :: k in services ==>
      && p.services[k].debugName == services[k].debugName
      && p.services[k].primary == services[k].primary
      && p.services[k].characteristics.Keys == services[k].delegates.Keys
    ensures forall k, c :: k in services && c in services[k].delegates ==>
      && p.services[k].characteristics[c].debugName == services[k].delegates[c].debugName
      && p.services[k].characteristics[c].properties == services[k].delegates[c].properties
  {
    ProfileDescription(map k | k in services :: ServiceDescriptionOf(services[k]))
  }

  // ---------------------------------------------------------------------
  // Routing by (service, characteristic).

  /** `services[service]?.delegates?.get(characteristic)` */
  function Find(services: map<Uuid, Service>, service: Uuid, characteristic: Uuid): (r: Option<Delegate>)
    ensures r.Some? <==> service in services && characteristic in services[service].delegates
    ensures r.Some? ==> r.value == services[service].delegates[characteristic]
  {
    if service in services && characteristic in services[service].delegates
    then Some(services[service].delegates[characteristic])
    else None
  }

  /** The error every lookup miss produces. */
  const NotFound: Error := ResponseException(AttributeNotFound)

  /**
   * Passes the request to the delegate found under (service,
   * characteristic); a miss fails with `attributeNotFound`. `call` is what
   * the delegate answers; the application supplies it.
   */
  function Route<R>(services: map<Uuid, Service>, service: Uuid, characteristic: Uuid, call: Delegate -> Outcome<R>): (r: Outcome<R>)
    ensures Find(services, service, characteristic).None? ==> r == Err(NotFound)
    ensures Find(services, service, characteristic).Some? ==> r == call(Find(services, service, characteristic).value)
  {
    match Find(services, service, characteristic)
    case None => Err(NotFound)
    case Some(d) => call(d)
  }

  /** `onRead`, given what each delegate's `onRead(from)` yields. */
  function OnRead(services: map<Uuid, Service>, read: (Delegate, DeviceInfo) -> Outcome<Data>,
                  from: DeviceInfo, service: Uuid, characteristic: Uuid): (r: Outcome<Data>)
    ensures Find(services, service, characteristic).None? ==> r == Err(NotFound)
    ensures Find(services, service, characteristic).Some? ==> r == read(Find(services, service, characteristic).value, from)
  {
    Route(services, service, characteristic, d => read(d, from))
  }

  /** `onWrite`, given what each delegate's `onWrite(from, value)` yields. */
  function OnWrite(services: map<Uuid, Service>, write: (Delegate, DeviceInfo, Data) -> Outcome<()>,
                   from: DeviceInfo, service: Uuid, characteristic: Uuid, value: Data): (r: Outcome<()>)
    ensures Find(services, service, characteristic).None? ==> r == Err(NotFound)
    ensures Find(services, service, characteristic).Some? ==> r == write(Find(services, service, characteristic).value, from, value)
  {
    Route(services, service, characteristic, d => write(d, from, value))
  }

  /** Stands for an `Observable<Data>` a delegate hands out. */
  type StreamId = nat

  /** `onSubscribe`: the delegate's stream, or a stream failing with `attributeNotFound`. */
  function OnSubscribe(services: map<Uuid, Service>, subscribe: (Delegate, DeviceInfo) -> Outcome<StreamId>,
                       from: DeviceInfo, service: Uuid, characteristic: Uuid): (r: Outcome<StreamId>)
    ensures Find(services, service, characteristic).None? ==> r == Err(NotFound)
    ensures Find(services, service, characteristic).Some? ==> r == subscribe(Find(services, service, characteristic).value, from)
  {
    Route(services, service, characteristic, d => subscribe(d, from))
  }

  /** A miss consults no delegate: the answer is the same whatever the delegates would say. */
  lemma MissConsultsNoDelegate(services: map<Uuid, Service>, service: Uuid, characteristic: Uuid,
                               read1: (Delegate, DeviceInfo) -> Outcome<Data>, read2: (Delegate, DeviceInfo) -> Outcome<Data>,
                               write1: (Delegate, DeviceInfo, Data) -> Outcome<()>, write2: (Delegate, DeviceInfo, Data) -> Outcome<()>,
                               from: DeviceInfo, value: Data)
    requires service !in services || characteristic !in services[service].delegates
    ensures OnRead(services, read1, from, service, characteristic) == OnRead(services, read2, from, service, characteristic) == Err(NotFound)
    ensures OnWrite(services, write1, from, service, characteristic, value) == OnWrite(services, write2, from, service, characteristic, value) == Err(NotFound)
  {
  }

  // ---------------------------------------------------------------------
  // Fan-out to every delegate.

  /** A (service UUID, characteristic UUID) position in the delegate tree. */
  type Entry = (Uuid, Uuid)

  predicate IsEntry(services: map<Uuid, Service>, e: Entry)
  {
    e.0 in services && e.1 in services[e.0].delegates
  }

  /**
   * The entries of one service are contiguous: an entry whose service
   * occurred earlier directly follows an entry of that service.
   */
  predicate Grouped(es: seq<Entry>)
  {
    forall i, j :: 0 <= j < i < |es| && es[j].0 == es[i].0 ==> es[i - 1].0 == es[i].0
  }

  /**
   * `services.asSequence().flatMap { it.value.delegates.asSequence() }`:
   * the positions of all delegates, service by service, each exactly once.
   */
  method Entries(services: map<Uuid, Service>) returns (es: seq<Entry>)
    ensures Distinct(es) && Grouped(es)
    ensures forall e :: e in es <==> IsEntry(services, e)
  {
    var keys := Enumerate(services.Keys);
    es := [];
    for i := 0 to |keys|
      invariant Distinct(es) && Grouped(es)
      invariant forall e :: e in es <==> IsEntry(services, e) && e.0 in keys[..i]
    {
      var k := keys[i];
      var cs := Enumerate(services[k].delegates.Keys);
      for j := 0 to |cs|
        invariant Distinct(es) && Grouped(es)
        invariant forall e :: e in es <==> (IsEntry(services, e) && e.0 in keys[..i]) || (e.0 == k && e.1 in cs[..j])
        invariant j > 0 ==> |es| > 0 && es[|es| - 1].0 == k
      {
        assert k !in keys[..i];
        assert (k, cs[j]) !in es by {
          assert cs[j] !in cs[..j];
        }
        GroupedAppend(es, (k, cs[j]));
        es := es + [(k, cs[j])];
        assert keys[..i + 1] == keys[..i] + [k];
        assert cs[..j + 1] == cs[..j] + [cs[j]];
      }
      assert keys[..i + 1] == keys[..i] + [k];
      assert cs[..|cs|] == cs;
    }
    assert keys[..|keys|] == keys;
  }

  /** Appending keeps the grouping when the service is new or is the last one's. */
  lemma GroupedAppend(es: seq<Entry>, e: Entry)
    requires Grouped(es)
    requires (|es| > 0 && es[|es| - 1].0 == e.0) || forall x :: x in es ==> x.0 != e.0
    ensures Grouped(es + [e])
  {
    var es' := es + [e];
    forall i, j | 0 <= j < i < |es'| && es'[j].0 == es'[i].0
      ensures es'[i - 1].0 == es'[i].0
    {
      if i == |es| {
        assert es'[j] == es[j] && es[j] in es;
      } else {
        assert es'[i] == es[i] && es'[j] == es[j] && es'[i - 1] == es[i - 1];
      }
    }
  }

  /** What a delegate was asked to do. */
  datatype Event = Connect(from: DeviceInfo) | Disconnect(from: DeviceInfo) | Dispose

  /** One call on the delegate `handle` found at `entry`. */
  datatype DelegateCall = DelegateCall(entry: Entry, handle: DelegateId, event: Event)

  class PerCharacteristic {
    const services: map<Uuid, Service>
    const profile: ProfileDescription
    /** The calls made on the delegates, in order. */
    var calls: seq<DelegateCall>
    /** The `AbstractDisposable` flag. */
    var disposed: bool

    constructor(services: map<Uuid, Service>)
      ensures this.services == services && profile == ProfileOf(services)
      ensures calls == [] && !disposed
    {
      this.services := services;
      profile := ProfileOf(services);
      calls := [];
      disposed := false;
    }

    /** `added` is one `event` call on each delegate, once each. */
    ghost predicate EachDelegateOnce(added: seq<DelegateCall>, event: Event)
      reads this
    {
      && Distinct(added)
      && (forall c :: c in added ==>
            && IsEntry(services, c.entry) && c.event == event
            && c.handle == services[c.entry.0].delegates[c.entry.1].handle)
      && (forall e :: IsEntry(services, e) ==> DelegateCall(e, services[e.0].delegates[e.1].handle, event) in added)
    }

    /** Calls every delegate with `event`, once each. */
    method Broadcast(event: Event)
      modifies this`calls
      ensures |calls| >= |old(calls)| && calls[..|old(calls)|] == old(calls)
      ensures EachDelegateOnce(calls[|old(calls)|..], event)
    {
      var es := Entries(services);
      assert forall j :: 0 <= j < |es| ==> IsEntry(services, es[j]) by {
        forall j | 0 <= j < |es|
          ensures IsEntry(services, es[j])
        {
          assert es[j] in es;
        }
      }
      var added: seq<DelegateCall> := [];
      for i := 0 to |es|
        invariant |added| == i
        invariant forall j :: 0 <= j < i ==> added[j] == DelegateCall(es[j], services[es[j].0].delegates[es[j].1].handle, event)
      {
        added := added + [DelegateCall(es[i], services[es[i].0].delegates[es[i].1].handle, event)];
      }
      forall e | IsEntry(services, e)
        ensures DelegateCall(e, services[e.0].delegates[e.1].handle, event) in added
      {
        var j :| 0 <= j < |es| && es[j] == e;
        assert added[j] == DelegateCall(e, services[e.0].delegates[e.1].handle, event);
      }
      assert Distinct(added) by {
        forall i, j | 0 <= i < j < |added|
          ensures added[i] != added[j]
        {
          assert added[i].entry == es[i] && added[j].entry == es[j];
        }
      }
      calls := calls + added;
      assert calls[|old(calls)|..] == added;
    }

    /** `onConnect`: every delegate is told of the connection, once. */
    method OnConnect(from: DeviceInfo)
      modifies this`calls
      ensures |calls| >= |old(calls)| && calls[..|old(calls)|] == old(calls)
      ensures EachDelegateOnce(calls[|old(calls)|..], Connect(from))
    {
      Broadcast(Connect(from));
    }

    /** `onDisconnect`: every delegate is told of the disconnection, once. */
    method OnDisconnect(from: DeviceInfo)
      modifies this`calls
      ensures |calls| >= |old(calls)| && calls[..|old(calls)|] == old(calls)
      ensures EachDelegateOnce(calls[|old(calls)|..], Disconnect(from))
    {
      Broadcast(Disconnect(from));
    }

    /**
     * `dispose`: the first call disposes every delegate once; later calls
     * do nothing, as `AbstractDisposable` runs `onDispose` once.
     */
    method DisposeAll()
      modifies this`calls, this`disposed
      ensures disposed
      ensures old(disposed) ==> calls == old(calls)
      ensures !old(disposed) ==>
        && |calls| >= |old(calls)| && calls[..|old(calls)|] == old(calls)
        && EachDelegateOnce(calls[|old(calls)|..], Dispose)
    {
      if !disposed {
        disposed := true;
        Broadcast(Dispose);
      }
    }

    /** The profile lists exactly the services and characteristics that can be routed to. */
    lemma ProfileMatchesRouting(service: Uuid, characteristic: Uuid)
      requires profile == ProfileOf(services)
      ensures (service in profile.services && characteristic in profile.services[service].characteristics)
        <==> Find(services, service, characteristic).Some?
    {
    }
  }

  // ---------------------------------------------------------------------
  // FromProperty: a delegate backed by a mutable value.

  /** Broadcast, read, write, writeWithoutResponse, notify and indicate. */
  const FromPropertyDefaults := CharacteristicProperties(
    broadcast := true, read := true, write := true,
    writeWithoutResponse := true, notify := true, indicate := true)

  /** The default properties set those six flags and no other. */
  lemma FromPropertyDefaultsFlags()
    ensures var p := FromPropertyDefaults;
      && p.broadcast && p.read && p.write && p.writeWithoutResponse && p.notify && p.indicate
      && !p.authenticatedSignedWrites && !p.extendedProperties
      && !p.notifyEncryptionRequired && !p.indicateEncryptionRequired && !p.writeEncryptionRequired
  {
  }

  class FromProperty {
    const debugName: string
    const properties: CharacteristicProperties
    /** The `property`'s current value. */
    var value: Data

    constructor(debugName: string, initial: Data, properties: CharacteristicProperties := FromPropertyDefaults)
      ensures this.debugName == debugName && this.properties == properties && value == initial
    {
      this.debugName := debugName;
      this.properties := properties;
      value := initial;
    }

    /** `onRead`: the property's current value. */
    method OnRead(from: DeviceInfo) returns (r: Outcome<Data>)
      ensures r == Ok(value)
    {
      r := Ok(value);
    }

    /** `onWrite`: stores the value and succeeds. */
    method OnWrite(from: DeviceInfo, v: Data) returns (r: Outcome<()>)
      modifies this`value
      ensures value == v && r == Ok(())
    {
      value := v;
      r := Ok(());
    }

    /** A write followed by a read, from any devices, reads back the written bytes. */
    method WriteThenRead(writer: DeviceInfo, reader: DeviceInfo, v: Data) returns (r: Outcome<Data>)
      modifies this`value
      ensures r == Ok(v)
    {
      var _ := OnWrite(writer, v);
      r := OnRead(reader);
    }
  }
}
