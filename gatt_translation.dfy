/**
 * How `BleServerImpl` turns the declared characteristics into the platform's
 * GATT service objects: the characteristic-properties bitmask (Bluetooth Core
 * Specification, Vol 3 Part G, section 3.3.1.1), the attribute-permission
 * bitmask, and the Client Characteristic Configuration Descriptor (CCCD,
 * Vol 3 Part G, section 3.3.3.3) attached to characteristics that can push.
 */
module GattTranslation {
  import opened Models
  import opened Collections

  // Characteristic property bits, as the platform defines them.
  const PROPERTY_BROADCAST: bv8 := 0x01
  const PROPERTY_READ: bv8 := 0x02
  const PROPERTY_WRITE_NO_RESPONSE: bv8 := 0x04
  const PROPERTY_WRITE: bv8 := 0x08
  const PROPERTY_NOTIFY: bv8 := 0x10
  const PROPERTY_INDICATE: bv8 := 0x20
  const PROPERTY_SIGNED_WRITE: bv8 := 0x40
  const PROPERTY_EXTENDED_PROPS: bv8 := 0x80

  // Attribute permission bits, as the platform defines them.
  const PERMISSION_READ: bv16 := 0x01
  const PERMISSION_READ_ENCRYPTED: bv16 := 0x02
  const PERMISSION_WRITE: bv16 := 0x10

  /** The UUID of the Client Characteristic Configuration Descriptor, 0x2902. */
  const CCCD_UUID: Uuid := 0x00002902_0000_1000_8000_00805f9b34fb

  const SERVICE_TYPE_PRIMARY: int := 0

  /**
   * A characteristic as the server application declares it (a
   * `BleCharacteristicServer`): `handle` stands for the object's identity.
   */
  datatype CharacteristicServer = CharacteristicServer(
    handle: nat,
    characteristic: Characteristic,
    properties: CharacteristicProperties
  )

  datatype GattDescriptor = GattDescriptor(uuid: Uuid, permissions: bv16)

  datatype GattCharacteristic = GattCharacteristic(
    uuid: Uuid,
    properties: bv8,
    permissions: bv16,
    descriptors: seq<GattDescriptor>
  )

  datatype GattService = GattService(uuid: Uuid, serviceType: int, characteristics: seq<GattCharacteristic>)

  /** `bit` when `flag` holds, no bit otherwise. */
  function Bit8(flag: bool, bit: bv8): bv8
  {
    if flag then bit else 0
  }

  function Bit16(flag: bool, bit: bv16): bv16
  {
    if flag then bit else 0
  }

  /**
   * The properties mask: one bit for each of the eight flags broadcast, read,
   * writeWithoutResponse, write, notify, indicate, authenticatedSignedWrites
   * and extendedProperties that is set, and no other contribution.
   */
  function PropertiesMask(p: CharacteristicProperties): bv8
  {
    Bit8(p.broadcast, PROPERTY_BROADCAST)
    | Bit8(p.read, PROPERTY_READ)
    | Bit8(p.writeWithoutResponse, PROPERTY_WRITE_NO_RESPONSE)
    | Bit8(p.write, PROPERTY_WRITE)
    | Bit8(p.notify, PROPERTY_NOTIFY)
    | Bit8(p.indicate, PROPERTY_INDICATE)
    | Bit8(p.authenticatedSignedWrites, PROPERTY_SIGNED_WRITE)
    | Bit8(p.extendedProperties, PROPERTY_EXTENDED_PROPS)
  }

  /**
   * The permissions mask: READ for read, notify or indicate; WRITE for
   * writeWithoutResponse, write or authenticatedSignedWrites; READ_ENCRYPTED
   * for notifyEncryptionRequired or indicateEncryptionRequired; nothing else.
   */
  function PermissionsMask(p: CharacteristicProperties): bv16
  {
    Bit16(p.read, PERMISSION_READ)
    | Bit16(p.writeWithoutResponse, PERMISSION_WRITE)
    | Bit16(p.write, PERMISSION_WRITE)
    | Bit16(p.notify, PERMISSION_READ)
    | Bit16(p.indicate, PERMISSION_READ)
    | Bit16(p.authenticatedSignedWrites, PERMISSION_WRITE)
    | Bit16(p.notifyEncryptionRequired, PERMISSION_READ_ENCRYPTED)
    | Bit16(p.indicateEncryptionRequired, PERMISSION_READ_ENCRYPTED)
  }

  /** Each of the eight flags sets its own bit of the properties mask. */
  lemma PropertiesMaskBits(p: CharacteristicProperties)
    ensures var mask := PropertiesMask(p);
      && (mask & PROPERTY_BROADCAST != 0) == p.broadcast
      && (mask & PROPERTY_READ != 0) == p.read
      && (mask & PROPERTY_WRITE_NO_RESPONSE != 0) == p.writeWithoutResponse
      && (mask & PROPERTY_WRITE != 0) == p.write
      && (mask & PROPERTY_NOTIFY != 0) == p.notify
      && (mask & PROPERTY_INDICATE != 0) == p.indicate
      && (mask & PROPERTY_SIGNED_WRITE != 0) == p.authenticatedSignedWrites
      && (mask & PROPERTY_EXTENDED_PROPS != 0) == p.extendedProperties
  {
  }

  /** The three permission bits and what sets each; no other bit is ever set. */
  lemma PermissionsMaskBits(p: CharacteristicProperties)
    ensures var mask := PermissionsMask(p);
      && ((mask & PERMISSION_READ != 0) <==> (p.read || p.notify || p.indicate))
      && ((mask & PERMISSION_WRITE != 0) <==> (p.writeWithoutResponse || p.write || p.authenticatedSignedWrites))
      && ((mask & PERMISSION_READ_ENCRYPTED != 0) <==> (p.notifyEncryptionRequired || p.indicateEncryptionRequired))
      && mask & !(PERMISSION_READ | PERMISSION_WRITE | PERMISSION_READ_ENCRYPTED) == 0
  {
  }

  /** Reads the eight property flags back out of a properties mask (what a peer sees). */
  function FlagsOf(mask: bv8): (p: CharacteristicProperties)
    ensures !p.notifyEncryptionRequired && !p.indicateEncryptionRequired && !p.writeEncryptionRequired
  {
    CharacteristicProperties(
      broadcast := mask & PROPERTY_BROADCAST != 0,
      read := mask & PROPERTY_READ != 0,
      writeWithoutResponse := mask & PROPERTY_WRITE_NO_RESPONSE != 0,
      write := mask & PROPERTY_WRITE != 0,
      notify := mask & PROPERTY_NOTIFY != 0,
      indicate := mask & PROPERTY_INDICATE != 0,
      authenticatedSignedWrites := mask & PROPERTY_SIGNED_WRITE != 0,
      extendedProperties := mask & PROPERTY_EXTENDED_PROPS != 0
    )
  }

  /** The encryption flags do not reach the properties mask. */
  function WithoutEncryptionFlags(p: CharacteristicProperties): CharacteristicProperties
  {
    p.(notifyEncryptionRequired := false, indicateEncryptionRequired := false, writeEncryptionRequired := false)
  }

  /** Decoding the mask recovers exactly the eight flags that were encoded. */
  lemma FlagsOfPropertiesMask(p: CharacteristicProperties)
    ensures FlagsOf(PropertiesMask(p)) == WithoutEncryptionFlags(p)
  {
    PropertiesMaskBits(p);
  }

  /** Every 8-bit mask is the encoding of the flags read out of it. */
  lemma PropertiesMaskOfFlags(mask: bv8)
    ensures PropertiesMask(FlagsOf(mask)) == mask
  {
    var m := PropertiesMask(FlagsOf(mask));
    assert m & 0x01 == mask & 0x01;
    assert m & 0x02 == mask & 0x02;
    assert m & 0x04 == mask & 0x04;
    assert m & 0x08 == mask & 0x08;
    assert m & 0x10 == mask & 0x10;
    assert m & 0x20 == mask & 0x20;
    assert m & 0x40 == mask & 0x40;
    assert m & 0x80 == mask & 0x80;
  }

  /** `writeEncryptionRequired` changes neither mask. */
  lemma WriteEncryptionIgnored(p: CharacteristicProperties, b: bool)
    ensures PermissionsMask(p.(writeEncryptionRequired := b)) == PermissionsMask(p)
    ensures PropertiesMask(p.(writeEncryptionRequired := b)) == PropertiesMask(p)
  {
  }

  /** A characteristic gets a CCCD exactly when it can notify or indicate. */
  predicate HasCccd(p: CharacteristicProperties)
  {
    p.notify || p.indicate
  }

  /** The platform characteristic declared for `item`. */
  function BuildCharacteristic(item: CharacteristicServer): GattCharacteristic
  {
    GattCharacteristic(
      item.characteristic.characteristicUuid,
      PropertiesMask(item.properties),
      PermissionsMask(item.properties),
      if item.properties.notify || item.properties.indicate
      then [GattDescriptor(CCCD_UUID, PERMISSION_WRITE | PERMISSION_READ)]
      else []
    )
  }

  /**
   * The built characteristic carries the item's own UUID, both masks, and a
   * single readable and writable CCCD exactly when the item can notify or
   * indicate.
   */
  lemma BuildCharacteristicSpec(item: CharacteristicServer)
    ensures var g := BuildCharacteristic(item);
      && g.uuid == item.characteristic.characteristicUuid
      && FlagsOf(g.properties) == WithoutEncryptionFlags(item.properties)
      && g.permissions == PermissionsMask(item.properties)
      && |g.descriptors| <= 1
      && (|g.descriptors| == 1 <==> HasCccd(item.properties))
      && (forall d :: d in g.descriptors ==> d.uuid == CCCD_UUID && d.permissions == PERMISSION_WRITE | PERMISSION_READ)
  {
    FlagsOfPropertiesMask(item.properties);
  }

  /** `keys` lists each key of `chars` exactly once. */
  predicate ListsKeys(keys: seq<Uuid>, chars: map<Uuid, CharacteristicServer>)
  {
    && Distinct(keys)
    && (forall k :: k in keys <==> k in chars)
  }

  /**
   * `s` is the primary service `uuid` whose characteristics are those built
   * from the entries of `chars`, taken in the order `keys`.
   */
  predicate BuiltInOrder(s: GattService, uuid: Uuid, chars: map<Uuid, CharacteristicServer>, keys: seq<Uuid>)
  {
    && s.uuid == uuid
    && s.serviceType == SERVICE_TYPE_PRIMARY
    && ListsKeys(keys, chars)
    && |s.characteristics| == |keys|
    && (forall j :: 0 <= j < |keys| ==> s.characteristics[j] == BuildCharacteristic(chars[keys[j]]))
  }

  /** `s` is the primary service `uuid` built from `chars` in some iteration order. */
  ghost predicate IsServiceFor(s: GattService, uuid: Uuid, chars: map<Uuid, CharacteristicServer>)
  {
    exists keys :: BuiltInOrder(s, uuid, chars, keys)
  }

  /**
   * Builds the primary service `uuid`, adding the characteristic of each
   * entry of `chars`, in the map's iteration order `keys`.
   */
  method BuildService(uuid: Uuid, chars: map<Uuid, CharacteristicServer>) returns (s: GattService, keys: seq<Uuid>)
    ensures BuiltInOrder(s, uuid, chars, keys)
  {
    keys := Enumerate(chars.Keys);
    var added: seq<GattCharacteristic> := [];
    var i := 0;
    while i < |keys|
      invariant 0 <= i <= |keys|
      invariant |added| == i
      invariant forall j :: 0 <= j < i ==> added[j] == BuildCharacteristic(chars[keys[j]])
    {
      added := added + [BuildCharacteristic(chars[keys[i]])];
      i := i + 1;
    }
    s := GattService(uuid, SERVICE_TYPE_PRIMARY, added);
  }

  /**
   * A service built from `chars` holds one characteristic per entry, holds
   * the built characteristic of every entry, and holds nothing else.
   */
  lemma BuiltServiceContents(s: GattService, uuid: Uuid, chars: map<Uuid, CharacteristicServer>, keys: seq<Uuid>)
    requires BuiltInOrder(s, uuid, chars, keys)
    ensures |s.characteristics| == |chars|
    ensures forall k :: k in chars ==> BuildCharacteristic(chars[k]) in s.characteristics
    ensures forall g :: g in s.characteristics ==> exists k :: k in chars && g == BuildCharacteristic(chars[k])
  {
    DistinctListingSize(keys, chars);
    EveryEntryBuilt(s, uuid, chars, keys);
    OnlyEntriesBuilt(s, uuid, chars, keys);
  }

  lemma EveryEntryBuilt(s: GattService, uuid: Uuid, chars: map<Uuid, CharacteristicServer>, keys: seq<Uuid>)
    requires BuiltInOrder(s, uuid, chars, keys)
    ensures forall k :: k in chars ==> BuildCharacteristic(chars[k]) in s.characteristics
  {
    forall k | k in chars
      ensures BuildCharacteristic(chars[k]) in s.characteristics
    {
      var j :| 0 <= j < |keys| && keys[j] == k;
      assert s.characteristics[j] == BuildCharacteristic(chars[k]);
    }
  }

  lemma OnlyEntriesBuilt(s: GattService, uuid: Uuid, chars: map<Uuid, CharacteristicServer>, keys: seq<Uuid>)
    requires BuiltInOrder(s, uuid, chars, keys)
    ensures forall g :: g in s.characteristics ==> exists k :: k in chars && g == BuildCharacteristic(chars[k])
  {
    forall g | g in s.characteristics
      ensures exists k :: k in chars && g == BuildCharacteristic(chars[k])
    {
      var j :| 0 <= j < |s.characteristics| && s.characteristics[j] == g;
      assert keys[j] in chars && g == BuildCharacteristic(chars[keys[j]]);
    }
  }

  /** A listing of the keys without repetition is as long as the map. */
  lemma {:induction false} DistinctListingSize(keys: seq<Uuid>, chars: map<Uuid, CharacteristicServer>)
    requires ListsKeys(keys, chars)
    ensures |keys| == |chars|
  {
    if keys != [] {
      var k := keys[0];
      var rest := chars - {k};
      assert ListsKeys(keys[1..], rest) by {
        forall i, j | 0 <= i < j < |keys[1..]|
          ensures keys[1..][i] != keys[1..][j]
        {
          assert keys[1..][i] == keys[i + 1] && keys[1..][j] == keys[j + 1];
        }
        forall x
          ensures x in keys[1..] <==> x in rest
        {
          if x in keys[1..] {
            var i :| 0 <= i < |keys[1..]| && keys[1..][i] == x;
            assert keys[i + 1] == x;
          }
          if x in rest {
            assert x in keys && x != keys[0];
            var i :| 0 <= i < |keys| && keys[i] == x;
            assert keys[1..][i - 1] == x;
          }
        }
      }
      DistinctListingSize(keys[1..], rest);
      assert chars.Keys == rest.Keys + {k};
    } else {
      assert chars.Keys == {};
    }
  }
}
