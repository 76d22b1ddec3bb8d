/**
 * Value types shared by the BLE server layer: the profile description a
 * server publishes, the characteristic property flags, peer identities,
 * the response status codes and the failures that operations report.
 */
module Models {

  /** Kotlin's `Byte`: a signed 8-bit integer. */
  newtype Byte = x: int | -128 <= x < 128

  /** A 128-bit UUID, given by its unsigned integer value. */
  newtype Uuid = x: int | 0 <= x < 0x1_0000_0000_0000_0000_0000_0000_0000_0000

  /** `Data` is a byte array. */
  type Data = seq<Byte>

  datatype Option<+T> = None | Some(value: T)

  /** The GATT status codes the core sends or reports. */
  datatype ResponseStatus = Success | AttributeNotFound | RequestNotSupported

  /** Why an operation failed. */
  datatype Error =
    | ResponseException(status: ResponseStatus)  // a BleResponseException
    | IndexOutOfBounds                           // a byte array indexed past its end
    | NoSuchElement                              // a stream completed before its first element
    | NullPointer                                // a `!!` on a missing value
    | HandlerFailure(reason: string)             // any failure raised by application code

  /** The outcome of a `Single`: one value, or one failure. */
  datatype Outcome<+T> = Ok(value: T) | Err(error: Error)

  /**
   * The declared capabilities of a characteristic. Every flag that is not
   * given is false.
   */
  datatype CharacteristicProperties = CharacteristicProperties(
    broadcast: bool := false,
    read: bool := false,
    writeWithoutResponse: bool := false,
    write: bool := false,
    notify: bool := false,
    indicate: bool := false,
    authenticatedSignedWrites: bool := false,
    extendedProperties: bool := false,
    notifyEncryptionRequired: bool := false,
    indicateEncryptionRequired: bool := false,
    writeEncryptionRequired: bool := false
  )

  datatype CharacteristicDescription = CharacteristicDescription(debugName: string, properties: CharacteristicProperties)

  datatype ServiceDescription = ServiceDescription(
    debugName: string,
    primary: bool,
    characteristics: map<Uuid, CharacteristicDescription>
  )

  /** A profile maps each service UUID to the description of that service. */
  datatype ProfileDescription = ProfileDescription(services: map<Uuid, ServiceDescription>)

  /** A peer, identified by its address; two infos are equal exactly when id and name are. */
  datatype DeviceInfo = DeviceInfo(id: string, name: Option<string>)

  /** A characteristic addressed by its service and its own UUID. */
  datatype Characteristic = Characteristic(serviceUuid: Uuid, characteristicUuid: Uuid)

  /** A descriptor addressed by service, characteristic and its own UUID. */
  datatype Descriptor = Descriptor(serviceUuid: Uuid, characteristicUuid: Uuid, descriptorUuid: Uuid)

  /** A characteristic declared with no arguments has every flag false. */
  lemma DefaultPropertiesAllFalse()
    ensures var p := CharacteristicProperties();
      && !p.broadcast && !p.read && !p.writeWithoutResponse && !p.write
      && !p.notify && !p.indicate && !p.authenticatedSignedWrites && !p.extendedProperties
      && !p.notifyEncryptionRequired && !p.indicateEncryptionRequired && !p.writeEncryptionRequired
  {
  }

  /** `DeviceInfo` has value equality over its two fields. */
  lemma DeviceInfoEquality(a: DeviceInfo, b: DeviceInfo)
    ensures a == b <==> (a.id == b.id && a.name == b.name)
  {
  }

  /** A `BleResponseException` carries exactly the status it was built with. */
  lemma ResponseExceptionCarriesStatus(s: ResponseStatus, t: ResponseStatus)
    ensures ResponseException(s).status == s
    ensures ResponseException(s) == ResponseException(t) <==> s == t
  {
  }
}
