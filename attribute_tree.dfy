/** The GATT attribute hierarchy (services, included services,
    characteristics, descriptors) and the UUID-path resolution the plugin does
    before every attribute operation: `locateCharacteristic`,
    `locateDescriptor`, and the reverse search of `onDescriptorRead`. */
module AttributeTree {
  import opened Wrappers
  import opened Uuids

  /** A UUID as the text the application sends and `UUID.toString` prints. */
  type UuidText = string

  // Characteristic property bits (section 3.3.1.1 of Bluetooth Core Spec Vol 3 Part G)
  const PROPERTY_BROADCAST: bv32 := 0x01
  const PROPERTY_READ: bv32 := 0x02
  const PROPERTY_WRITE_NO_RESPONSE: bv32 := 0x04
  const PROPERTY_WRITE: bv32 := 0x08
  const PROPERTY_NOTIFY: bv32 := 0x10
  const PROPERTY_INDICATE: bv32 := 0x20
  const PROPERTY_SIGNED_WRITE: bv32 := 0x40
  const PROPERTY_EXTENDED_PROPS: bv32 := 0x80

  // Attribute permission bits (BluetoothGattDescriptor / BluetoothGattCharacteristic)
  const PERMISSION_READ: bv32 := 0x01
  const PERMISSION_WRITE: bv32 := 0x10

  /** A descriptor; `value` is None while Java's `getValue()` is null. */
  datatype Descriptor = Descriptor(uuid: UuidText, permissions: bv32, value: Option<Bytes>)

  datatype Characteristic = Characteristic(
    uuid: UuidText,
    properties: bv32,
    permissions: bv32,
    value: Option<Bytes>,
    descriptors: seq<Descriptor>)

  datatype ServiceType = Primary | Secondary

  datatype Service = Service(
    uuid: UuidText,
    serviceType: ServiceType,
    characteristics: seq<Characteristic>,
    included: seq<Service>)

  function ServiceUuid(s: Service): UuidText { s.uuid }
  function CharacteristicUuid(c: Characteristic): UuidText { c.uuid }
  function DescriptorUuid(d: Descriptor): UuidText { d.uuid }

  // ---------------------------------------------------------------------------
  // Searches by UUID

  /** The first position whose key is `k`: the stack's `getService`,
      `getCharacteristic` and `getDescriptor` return the first match. */
  function FirstIndexOf<T>(xs: seq<T>, key: T -> UuidText, k: UuidText): (r: Option<nat>)
    ensures r.Some? ==> r.value < |xs| && key(xs[r.value]) == k
    ensures r.Some? ==> forall j :: 0 <= j < r.value ==> key(xs[j]) != k
    ensures r.None? <==> forall j :: 0 <= j < |xs| ==> key(xs[j]) != k
  {
    if xs == [] then None
    else if key(xs[0]) == k then Some(0)
    else match FirstIndexOf(xs[1..], key, k)
      case None => None
      case Some(i) => Some(i + 1)
  }

  /** The last position whose key is `k`: the search loop over included
      services in `locateCharacteristic` has no `break`, so a later match
      overwrites an earlier one. */
  function LastIndexOf<T>(xs: seq<T>, key: T -> UuidText, k: UuidText): (r: Option<nat>)
    ensures r.Some? ==> r.value < |xs| && key(xs[r.value]) == k
    ensures r.Some? ==> forall j :: r.value < j < |xs| ==> key(xs[j]) != k
    ensures r.None? <==> forall j :: 0 <= j < |xs| ==> key(xs[j]) != k
  {
    if xs == [] then None
    else if key(xs[|xs| - 1]) == k then Some(|xs| - 1)
    else LastIndexOf(xs[..|xs| - 1], key, k)
  }

  // ---------------------------------------------------------------------------
  // Lookup errors; each one names the UUID that was not found and its scope

  datatype LookupError =
    | NoConnection
    | ServiceNotFound(serviceId: UuidText)
    | SecondaryServiceNotFound(secondaryServiceId: UuidText)
    | CharacteristicNotFound(characteristicId: UuidText, inService: UuidText)
    | DescriptorNotFound(descriptorId: UuidText, inCharacteristic: UuidText)
    | CccdNotFound(inCharacteristic: UuidText)

  /** The exception message each lookup failure carries. */
  function LookupMessage(e: LookupError): string
  {
    match e
    case NoConnection => "no instance of BluetoothGatt, have you connected first?"
    case ServiceNotFound(s) => "service (" + s + ") could not be located on the device"
    case SecondaryServiceNotFound(s) => "secondary service (" + s + ") could not be located on the device"
    case CharacteristicNotFound(c, s) =>
      "characteristic (" + c + ") could not be located in the service (" + s + ")"
    case DescriptorNotFound(d, c) =>
      "descriptor (" + d + ") could not be located in the characteristic (" + c + ")"
    case CccdNotFound(c) => "could not locate CCCD descriptor for characteristic: " + c
  }

  /** Every message quotes the missing UUID right after its opening words. */
  lemma LookupMessageNamesUuid(e: LookupError)
    ensures e.ServiceNotFound? ==> LookupMessage(e)[9..9 + |e.serviceId|] == e.serviceId
    ensures e.SecondaryServiceNotFound? ==>
      LookupMessage(e)[19..19 + |e.secondaryServiceId|] == e.secondaryServiceId
    ensures e.CharacteristicNotFound? ==>
      LookupMessage(e)[16..16 + |e.characteristicId|] == e.characteristicId
    ensures e.DescriptorNotFound? ==> LookupMessage(e)[12..12 + |e.descriptorId|] == e.descriptorId
  {
  }

  // ---------------------------------------------------------------------------
  // locateCharacteristic / locateDescriptor

  /** The service `locateCharacteristic` searches: the first top-level service
      with `serviceId`, or, when `secondaryServiceId` is not empty, the last
      service included by it with that UUID. */
  function EffectiveService(services: seq<Service>, serviceId: UuidText, secondaryServiceId: UuidText)
    : (r: Result<Service, LookupError>)
    ensures r == Err(ServiceNotFound(serviceId)) <==>
      forall j :: 0 <= j < |services| ==> services[j].uuid != serviceId
    ensures r.Err? ==> r.error in {ServiceNotFound(serviceId), SecondaryServiceNotFound(secondaryServiceId)}
    ensures r.Ok? && secondaryServiceId == "" ==>
      exists i :: 0 <= i < |services| && services[i] == r.value && r.value.uuid == serviceId &&
        forall j :: 0 <= j < i ==> services[j].uuid != serviceId
    ensures r.Ok? && secondaryServiceId != "" ==> r.value.uuid == secondaryServiceId
  {
    match FirstIndexOf(services, ServiceUuid, serviceId)
    case None => Err(ServiceNotFound(serviceId))
    case Some(p) =>
      var primary := services[p];
      if |secondaryServiceId| > 0 then
        match LastIndexOf(primary.included, ServiceUuid, secondaryServiceId)
        case None => Err(SecondaryServiceNotFound(secondaryServiceId))
        case Some(k) => Ok(primary.included[k])
      else Ok(primary)
  }

  /** `locateCharacteristic` (after `locateGatt`): the first characteristic with
      `characteristicId` in the effective service. */
  function LocateCharacteristic(services: seq<Service>, serviceId: UuidText, secondaryServiceId: UuidText,
                                characteristicId: UuidText): (r: Result<Characteristic, LookupError>)
    ensures r.Ok? ==> r.value.uuid == characteristicId
    ensures r == Err(ServiceNotFound(serviceId)) <==>
      forall j :: 0 <= j < |services| ==> services[j].uuid != serviceId
    ensures r.Err? ==>
      || r.error == ServiceNotFound(serviceId)
      || r.error == SecondaryServiceNotFound(secondaryServiceId)
      || r.error == CharacteristicNotFound(characteristicId,
                                           if secondaryServiceId == "" then serviceId else secondaryServiceId)
  {
    match EffectiveService(services, serviceId, secondaryServiceId)
    case Err(e) => Err(e)
    case Ok(service) =>
      match FirstIndexOf(service.characteristics, CharacteristicUuid, characteristicId)
      case None => Err(CharacteristicNotFound(characteristicId, service.uuid))
      case Some(c) => Ok(service.characteristics[c])
  }

  /** `locateDescriptor`: the first descriptor with `descriptorId`, or an error
      naming it and the characteristic searched. */
  function LocateDescriptor(characteristic: Characteristic, descriptorId: UuidText)
    : (r: Result<Descriptor, LookupError>)
    ensures r.Ok? ==> r.value.uuid == descriptorId && r.value in characteristic.descriptors
    ensures r.Ok? ==> exists d :: 0 <= d < |characteristic.descriptors| && characteristic.descriptors[d] == r.value &&
                        forall j :: 0 <= j < d ==> characteristic.descriptors[j].uuid != descriptorId
    ensures r.Err? <==> forall j :: 0 <= j < |characteristic.descriptors| ==>
                          characteristic.descriptors[j].uuid != descriptorId
    ensures r.Err? ==> r.error == DescriptorNotFound(descriptorId, characteristic.uuid)
  {
    match FirstIndexOf(characteristic.descriptors, DescriptorUuid, descriptorId)
    case None => Err(DescriptorNotFound(descriptorId, characteristic.uuid))
    case Some(d) => Ok(characteristic.descriptors[d])
  }

  // ---------------------------------------------------------------------------
  // What resolution promises

  /** Without a secondary UUID the characteristic comes from the first
      top-level service with `serviceId`, and is the first one there with
      `characteristicId`; it is missing exactly when that service lacks it. */
  lemma ResolveWithoutSecondary(services: seq<Service>, serviceId: UuidText, characteristicId: UuidText, i: nat)
    requires i < |services| && services[i].uuid == serviceId
    requires forall j :: 0 <= j < i ==> services[j].uuid != serviceId
    ensures var r := LocateCharacteristic(services, serviceId, "", characteristicId);
            var chars := services[i].characteristics;
            && (r.Ok? ==> exists c :: 0 <= c < |chars| && chars[c] == r.value &&
                            forall j :: 0 <= j < c ==> chars[j].uuid != characteristicId)
            && (r.Err? <==> forall c :: 0 <= c < |chars| ==> chars[c].uuid != characteristicId)
            && (r.Err? ==> r.error == CharacteristicNotFound(characteristicId, serviceId))
  {
    assert FirstIndexOf(services, ServiceUuid, serviceId) == Some(i);
  }

  /** With a secondary UUID the search looks only at the services the first
      matching primary includes, and the last of them with that UUID is used.
      The primary's own characteristics are never a fallback. */
  lemma ResolveWithSecondary(services: seq<Service>, serviceId: UuidText, secondaryServiceId: UuidText,
                             characteristicId: UuidText, i: nat)
    requires secondaryServiceId != ""
    requires i < |services| && services[i].uuid == serviceId
    requires forall j :: 0 <= j < i ==> services[j].uuid != serviceId
    ensures var r := LocateCharacteristic(services, serviceId, secondaryServiceId, characteristicId);
            var inc := services[i].included;
            && ((forall k :: 0 <= k < |inc| ==> inc[k].uuid != secondaryServiceId) <==>
                  r == Err(SecondaryServiceNotFound(secondaryServiceId)))
            && (r.Ok? ==> exists k, c ::
                  && 0 <= k < |inc| && inc[k].uuid == secondaryServiceId
                  && (forall m :: k < m < |inc| ==> inc[m].uuid != secondaryServiceId)
                  && 0 <= c < |inc[k].characteristics| && inc[k].characteristics[c] == r.value)
  {
    assert FirstIndexOf(services, ServiceUuid, serviceId) == Some(i);
    var inc := services[i].included;
    var r := LocateCharacteristic(services, serviceId, secondaryServiceId, characteristicId);
    if r.Ok? {
      var k := LastIndexOf(inc, ServiceUuid, secondaryServiceId).value;
      var c := FirstIndexOf(inc[k].characteristics, CharacteristicUuid, characteristicId).value;
      assert inc[k].characteristics[c] == r.value;
    }
  }

  /** Once the secondary service is the last one with its UUID under the first
      matching primary, the characteristic is the first one in it with
      `characteristicId`, and it is missing exactly when that secondary
      service lacks it; the error then names the secondary service. */
  lemma ResolveThroughSecondary(services: seq<Service>, serviceId: UuidText, secondaryServiceId: UuidText,
                                characteristicId: UuidText, i: nat, k: nat)
    requires secondaryServiceId != ""
    requires i < |services| && services[i].uuid == serviceId
    requires forall j :: 0 <= j < i ==> services[j].uuid != serviceId
    requires k < |services[i].included| && services[i].included[k].uuid == secondaryServiceId
    requires forall m :: k < m < |services[i].included| ==> services[i].included[m].uuid != secondaryServiceId
    ensures var r := LocateCharacteristic(services, serviceId, secondaryServiceId, characteristicId);
            var chars := services[i].included[k].characteristics;
            && (r.Ok? ==> exists c :: 0 <= c < |chars| && chars[c] == r.value &&
                            forall j :: 0 <= j < c ==> chars[j].uuid != characteristicId)
            && (r.Err? <==> forall c :: 0 <= c < |chars| ==> chars[c].uuid != characteristicId)
            && (r.Err? ==> r.error == CharacteristicNotFound(characteristicId, secondaryServiceId))
  {
    assert FirstIndexOf(services, ServiceUuid, serviceId) == Some(i);
    var inc := services[i].included;
    var last := LastIndexOf(inc, ServiceUuid, secondaryServiceId);
    assert last.Some?;
    assert last.value == k;
  }

  /** A characteristic is found only in a service whose UUID was asked for:
      the first matching primary when no secondary UUID is given, otherwise
      a service with the secondary UUID. */
  lemma ResolvedComesFromNamedService(services: seq<Service>, serviceId: UuidText, secondaryServiceId: UuidText,
                                      characteristicId: UuidText)
    ensures var r := LocateCharacteristic(services, serviceId, secondaryServiceId, characteristicId);
            var s := EffectiveService(services, serviceId, secondaryServiceId);
            r.Ok? ==> s.Ok? && r.value in s.value.characteristics &&
                      s.value.uuid == (if secondaryServiceId == "" then serviceId else secondaryServiceId)
  {
  }

  /** Two top-level services share UUID "S"; only the second includes "X",
      which holds characteristic "C". Because the primary is the first match,
      the path (S, X, C) does not resolve. */
  lemma SecondaryUnderLaterDuplicateNotFound()
    ensures var x := Service("X", Secondary, [Characteristic("C", PROPERTY_READ, 0, None, [])], []);
            var services := [Service("S", Primary, [], []), Service("S", Primary, [], [x])];
            LocateCharacteristic(services, "S", "X", "C") == Err(SecondaryServiceNotFound("X"))
  {
    var x := Service("X", Secondary, [Characteristic("C", PROPERTY_READ, 0, None, [])], []);
    var services := [Service("S", Primary, [], []), Service("S", Primary, [], [x])];
    assert FirstIndexOf(services, ServiceUuid, "S") == Some(0);
  }

  /** The same shape with the included service under the first "S": found,
      and only there. */
  lemma SecondaryUnderFirstPrimaryFound()
    ensures var c := Characteristic("C", PROPERTY_READ, 0, None, []);
            var x := Service("X", Secondary, [c], []);
            var services := [Service("S", Primary, [], [x]), Service("S", Primary, [], [])];
            LocateCharacteristic(services, "S", "X", "C") == Ok(c)
  {
    var c := Characteristic("C", PROPERTY_READ, 0, None, []);
    var x := Service("X", Secondary, [c], []);
    var services := [Service("S", Primary, [], [x]), Service("S", Primary, [], [])];
    assert FirstIndexOf(services, ServiceUuid, "S") == Some(0);
    assert LastIndexOf([x], ServiceUuid, "X") == Some(0);
    assert FirstIndexOf([c], CharacteristicUuid, "C") == Some(0);
  }

  // ---------------------------------------------------------------------------
  // onDescriptorRead: rebuilding (service, secondary service) from a descriptor

  ghost predicate IncludesUuid(s: Service, u: UuidText)
  {
    exists k :: 0 <= k < |s.included| && s.included[k].uuid == u
  }

  /** The service path `onDescriptorRead` reports for a descriptor whose
      characteristic belongs to `owner`. Under a primary service: that
      service's UUID and no secondary UUID. Under a secondary one: the UUID
      of the LAST top-level service that includes a service with the owner's
      UUID (the `break` leaves only the inner loop), and the owner's UUID as
      secondary. Unset fields read as the empty string. */
  method ReverseServicePath(services: seq<Service>, owner: Service)
    returns (serviceUuid: UuidText, secondaryServiceUuid: UuidText)
    ensures owner.serviceType == Primary ==> serviceUuid == owner.uuid && secondaryServiceUuid == ""
    ensures owner.serviceType == Secondary && (forall i :: 0 <= i < |services| ==> !IncludesUuid(services[i], owner.uuid))
            ==> serviceUuid == "" && secondaryServiceUuid == ""
    ensures owner.serviceType == Secondary && (exists i :: 0 <= i < |services| && IncludesUuid(services[i], owner.uuid))
            ==> secondaryServiceUuid == owner.uuid &&
                exists i :: 0 <= i < |services| && IncludesUuid(services[i], owner.uuid) &&
                  serviceUuid == services[i].uuid &&
                  forall j :: i < j < |services| ==> !IncludesUuid(services[j], owner.uuid)
  {
    serviceUuid, secondaryServiceUuid := "", "";
    if owner.serviceType == Primary {
      serviceUuid := owner.uuid;
      return;
    }
    ghost var last := -1;
    var i := 0;
    while i < |services|
      invariant 0 <= i <= |services|
      invariant -1 <= last < i
      invariant last == -1 ==> serviceUuid == "" && secondaryServiceUuid == ""
      invariant last >= 0 ==> IncludesUuid(services[last], owner.uuid) &&
                              serviceUuid == services[last].uuid && secondaryServiceUuid == owner.uuid
      invariant forall j :: last < j < i ==> !IncludesUuid(services[j], owner.uuid)
    {
      var inc := services[i].included;
      var k := 0;
      while k < |inc|
        invariant 0 <= k <= |inc|
        invariant forall m :: 0 <= m < k ==> inc[m].uuid != owner.uuid
        invariant last == -1 ==> serviceUuid == "" && secondaryServiceUuid == ""
        invariant last >= 0 ==> IncludesUuid(services[last], owner.uuid) &&
                                serviceUuid == services[last].uuid && secondaryServiceUuid == owner.uuid
      {
        if inc[k].uuid == owner.uuid {
          serviceUuid := services[i].uuid;
          secondaryServiceUuid := inc[k].uuid;
          last := i;
          break;
        }
        k := k + 1;
      }
      i := i + 1;
    }
  }
}
