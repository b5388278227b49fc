/** `ServiceBuilder`: turns the application's declarative description of a
    hosted service into an attribute tree, or fails as a whole. */
module ServiceBuilder {
  import opened Wrappers
  import opened Uuids
  import opened AttributeTree

  // ---------------------------------------------------------------------------
  // The description, as it arrives already decoded

  datatype DescriptorMsg = DescriptorMsg(uuid: UuidText, value: Option<Bytes>)

  datatype PropertiesMsg = PropertiesMsg(
    broadcast: bool,
    read: bool,
    writeWithoutResponse: bool,
    write: bool,
    notify: bool,
    indicate: bool,
    authenticatedSignedWrites: bool,
    extendedProperties: bool,
    notifyEncryptionRequired: bool,
    indicateEncryptionRequired: bool)

  datatype CharacteristicMsg = CharacteristicMsg(
    uuid: UuidText,
    properties: PropertiesMsg,
    value: Option<Bytes>,
    descriptors: seq<DescriptorMsg>)

  datatype ServiceMsg = ServiceMsg(
    uuid: UuidText,
    isPrimary: bool,
    characteristics: seq<CharacteristicMsg>,
    included: seq<ServiceMsg>)

  /** The answers of the stack's `addDescriptor`, `addCharacteristic` and
      `addService` for a (parent UUID, child UUID) pair. */
  datatype AddOutcomes = AddOutcomes(
    addDescriptor: (UuidText, UuidText) -> bool,
    addCharacteristic: (UuidText, UuidText) -> bool,
    addService: (UuidText, UuidText) -> bool)

  datatype BuildError =
    | IndicateEncryptionNotImplemented
    | NotifyEncryptionNotImplemented
    | SignedWritesNotImplemented
    | AddDescriptorFailed
    | AddCharacteristicFailed
    | AddIncludedServiceFailed

  const BUILD_ERROR_CODE := "bluetooth_server_error"

  function BuildErrorMessage(e: BuildError): string
  {
    match e
    case IndicateEncryptionNotImplemented => "characteristic property indicate encryption required not implemented!"
    case NotifyEncryptionNotImplemented => "characteristic property notify encryption required not implemented!"
    case SignedWritesNotImplemented => "characteristic property authenticated signed writes not implemented!"
    case AddDescriptorFailed => "failed to add descriptor to characteristic!"
    case AddCharacteristicFailed => "failed to add characteristic into service!"
    case AddIncludedServiceFailed => "failed to add included service into service!"
  }

  // ---------------------------------------------------------------------------
  // Reference definitions of one build

  /** The property mask: one bit per supported declared property. */
  function PropertyMask(p: PropertiesMsg): (mask: bv32)
    ensures (mask & PROPERTY_BROADCAST != 0) <==> p.broadcast
    ensures (mask & PROPERTY_READ != 0) <==> p.read
    ensures (mask & PROPERTY_WRITE != 0) <==> p.write
    ensures (mask & PROPERTY_NOTIFY != 0) <==> p.notify
    ensures (mask & PROPERTY_INDICATE != 0) <==> p.indicate
    ensures (mask & PROPERTY_EXTENDED_PROPS != 0) <==> p.extendedProperties
    ensures mask & !(PROPERTY_BROADCAST | PROPERTY_READ | PROPERTY_WRITE | PROPERTY_NOTIFY
                     | PROPERTY_INDICATE | PROPERTY_EXTENDED_PROPS) == 0
    ensures mask & (PROPERTY_WRITE_NO_RESPONSE | PROPERTY_SIGNED_WRITE) == 0
  {
    (if p.broadcast then PROPERTY_BROADCAST else 0)
    | (if p.notify then PROPERTY_NOTIFY else 0)
    | (if p.indicate then PROPERTY_INDICATE else 0)
    | (if p.extendedProperties then PROPERTY_EXTENDED_PROPS else 0)
    | (if p.write then PROPERTY_WRITE else 0)
    | (if p.read then PROPERTY_READ else 0)
  }

  /** The first unimplemented property set, in the order the checks run. */
  function Unsupported(p: PropertiesMsg): (r: Option<BuildError>)
    ensures r.None? <==> !p.indicateEncryptionRequired && !p.notifyEncryptionRequired && !p.authenticatedSignedWrites
    ensures p.indicateEncryptionRequired ==> r == Some(IndicateEncryptionNotImplemented)
    ensures !p.indicateEncryptionRequired && p.notifyEncryptionRequired ==> r == Some(NotifyEncryptionNotImplemented)
    ensures !p.indicateEncryptionRequired && !p.notifyEncryptionRequired && p.authenticatedSignedWrites
            ==> r == Some(SignedWritesNotImplemented)
  {
    if p.indicateEncryptionRequired then Some(IndicateEncryptionNotImplemented)
    else if p.notifyEncryptionRequired then Some(NotifyEncryptionNotImplemented)
    else if p.authenticatedSignedWrites then Some(SignedWritesNotImplemented)
    else None
  }

  /** A value is copied only when present and not empty; otherwise it stays unset. */
  function CopiedValue(value: Option<Bytes>): (r: Option<Bytes>)
    ensures r.Some? <==> value.Some? && value.value != []
    ensures r.Some? ==> r == value
  {
    if value.Some? && |value.value| > 0 then value else None
  }

  /** `descriptorFromProtoMessage`: readable and writable, value copied if non-empty. */
  function BuildDescriptor(d: DescriptorMsg): (r: Descriptor)
    ensures r.uuid == d.uuid
    ensures r.permissions == PERMISSION_READ | PERMISSION_WRITE
    ensures r.value.Some? <==> d.value.Some? && d.value.value != []
    ensures r.value == CopiedValue(d.value)
  {
    Descriptor(d.uuid, PERMISSION_READ | PERMISSION_WRITE, CopiedValue(d.value))
  }

  /** Descriptors of `ds` added one by one to `c`, stopping at the first refusal. */
  function AttachDescriptors(c: Characteristic, ds: seq<DescriptorMsg>, stack: AddOutcomes)
    : Result<Characteristic, BuildError>
  {
    if ds == [] then Ok(c)
    else
      match AttachDescriptors(c, ds[..|ds| - 1], stack)
      case Err(e) => Err(e)
      case Ok(c') =>
        var d := BuildDescriptor(ds[|ds| - 1]);
        if stack.addDescriptor(c'.uuid, d.uuid) then Ok(c'.(descriptors := c'.descriptors + [d]))
        else Err(AddDescriptorFailed)
  }

  /** The bare characteristic before its descriptors: mask, no permissions. */
  function BareCharacteristic(m: CharacteristicMsg): Characteristic
  {
    Characteristic(m.uuid, PropertyMask(m.properties), 0, CopiedValue(m.value), [])
  }

  /** `characteristicFromProtoMessage`. */
  function BuildCharacteristic(m: CharacteristicMsg, stack: AddOutcomes): Result<Characteristic, BuildError>
  {
    match Unsupported(m.properties)
    case Some(e) => Err(e)
    case None => AttachDescriptors(BareCharacteristic(m), m.descriptors, stack)
  }

  /** Characteristics of `cs` built and added one by one, stopping at the first failure. */
  function AttachCharacteristics(s: Service, cs: seq<CharacteristicMsg>, stack: AddOutcomes)
    : Result<Service, BuildError>
  {
    if cs == [] then Ok(s)
    else
      match AttachCharacteristics(s, cs[..|cs| - 1], stack)
      case Err(e) => Err(e)
      case Ok(s') =>
        match BuildCharacteristic(cs[|cs| - 1], stack)
        case Err(e) => Err(e)
        case Ok(c) =>
          if stack.addCharacteristic(s'.uuid, c.uuid) then Ok(s'.(characteristics := s'.characteristics + [c]))
          else Err(AddCharacteristicFailed)
  }

  function TypeOf(isPrimary: bool): ServiceType
  {
    if isPrimary then Primary else Secondary
  }

  /** `serviceFromProtoMessage`: characteristics first, then included services. */
  function BuildService(m: ServiceMsg, stack: AddOutcomes): Result<Service, BuildError>
    decreases m, 2
  {
    match AttachCharacteristics(Service(m.uuid, TypeOf(m.isPrimary), [], []), m.characteristics, stack)
    case Err(e) => Err(e)
    case Ok(s) => AttachIncluded(s, m, |m.included|, stack)
  }

  /** The first `n` included services of `m` built and added to `s`, stopping at
      the first failure. */
  function AttachIncluded(s: Service, m: ServiceMsg, n: nat, stack: AddOutcomes): Result<Service, BuildError>
    requires n <= |m.included|
    decreases m, 1, n
  {
    if n == 0 then Ok(s)
    else
      match AttachIncluded(s, m, n - 1, stack)
      case Err(e) => Err(e)
      case Ok(s') =>
        match BuildService(m.included[n - 1], stack)
        case Err(e) => Err(e)
        case Ok(inc) =>
          if stack.addService(s'.uuid, inc.uuid) then Ok(s'.(included := s'.included + [inc]))
          else Err(AddIncludedServiceFailed)
  }

  // ---------------------------------------------------------------------------
  // The builder as the source writes it: accumulating loops with early return

  /** `characteristicFromProtoMessage`: accumulates the mask with `|=`, rejects
      the unimplemented properties, then adds the descriptors in order. */
  method CharacteristicFromMessage(m: CharacteristicMsg, stack: AddOutcomes)
    returns (r: Result<Characteristic, BuildError>)
    ensures r == BuildCharacteristic(m, stack)
  {
    var props := m.properties;
    var properties: bv32 := 0;
    if props.broadcast { properties := properties | PROPERTY_BROADCAST; }
    if props.notify { properties := properties | PROPERTY_NOTIFY; }
    if props.indicate { properties := properties | PROPERTY_INDICATE; }
    if props.extendedProperties { properties := properties | PROPERTY_EXTENDED_PROPS; }
    if props.write { properties := properties | PROPERTY_WRITE; }
    if props.read { properties := properties | PROPERTY_READ; }

    if props.indicateEncryptionRequired { return Err(IndicateEncryptionNotImplemented); }
    if props.notifyEncryptionRequired { return Err(NotifyEncryptionNotImplemented); }
    if props.authenticatedSignedWrites { return Err(SignedWritesNotImplemented); }

    var value: Option<Bytes> := None;
    if m.value.Some? {
      if |m.value.value| > 0 { value := m.value; }
    }
    var out := Characteristic(m.uuid, properties, 0, value, []);
    assert out == BareCharacteristic(m);

    var i := 0;
    while i < |m.descriptors|
      invariant 0 <= i <= |m.descriptors|
      invariant AttachDescriptors(BareCharacteristic(m), m.descriptors[..i], stack) == Ok(out)
    {
      var d := BuildDescriptor(m.descriptors[i]);
      assert m.descriptors[..i + 1][..i] == m.descriptors[..i];
      if !stack.addDescriptor(out.uuid, d.uuid) {
        AttachDescriptorsErrSticky(BareCharacteristic(m), m.descriptors, i + 1, stack);
        return Err(AddDescriptorFailed);
      }
      out := out.(descriptors := out.descriptors + [d]);
      i := i + 1;
    }
    assert m.descriptors[..i] == m.descriptors;
    r := Ok(out);
  }

  /** `serviceFromProtoMessage`: every characteristic in order, then every
      included service (built recursively) in order; the first failure ends
      the build and nothing partial is returned. */
  method ServiceFromMessage(m: ServiceMsg, stack: AddOutcomes) returns (r: Result<Service, BuildError>)
    ensures r == BuildService(m, stack)
    decreases m, 2
  {
    var service := Service(m.uuid, if m.isPrimary then Primary else Secondary, [], []);
    var withChars := AddCharacteristics(service, m.characteristics, stack);
    if withChars.Err? {
      return Err(withChars.error);
    }
    r := AddIncludedServices(withChars.value, m, stack);
  }

  /** The first loop of `serviceFromProtoMessage`. */
  method AddCharacteristics(root: Service, cs: seq<CharacteristicMsg>, stack: AddOutcomes)
    returns (r: Result<Service, BuildError>)
    ensures r == AttachCharacteristics(root, cs, stack)
  {
    var service := root;
    var i := 0;
    while i < |cs|
      invariant 0 <= i <= |cs|
      invariant AttachCharacteristics(root, cs[..i], stack) == Ok(service)
    {
      assert cs[..i + 1][..i] == cs[..i];
      var chr := CharacteristicFromMessage(cs[i], stack);
      if chr.Err? {
        AttachCharacteristicsErrSticky(root, cs, i + 1, stack);
        return Err(chr.error);
      }
      if !stack.addCharacteristic(service.uuid, chr.value.uuid) {
        AttachCharacteristicsErrSticky(root, cs, i + 1, stack);
        return Err(AddCharacteristicFailed);
      }
      service := service.(characteristics := service.characteristics + [chr.value]);
      i := i + 1;
    }
    assert cs[..i] == cs;
    r := Ok(service);
  }

  /** The second loop of `serviceFromProtoMessage`: each included service is
      built by a recursive call and then added. */
  method AddIncludedServices(withChars: Service, m: ServiceMsg, stack: AddOutcomes)
    returns (r: Result<Service, BuildError>)
    ensures r == AttachIncluded(withChars, m, |m.included|, stack)
    decreases m, 1
  {
    var service := withChars;
    var k := 0;
    while k < |m.included|
      invariant 0 <= k <= |m.included|
      invariant AttachIncluded(withChars, m, k, stack) == Ok(service)
    {
      var inc := ServiceFromMessage(m.included[k], stack);
      if inc.Err? {
        AttachIncludedErrSticky(withChars, m, k + 1, |m.included|, stack);
        return Err(inc.error);
      }
      if !stack.addService(service.uuid, inc.value.uuid) {
        AttachIncludedErrSticky(withChars, m, k + 1, |m.included|, stack);
        return Err(AddIncludedServiceFailed);
      }
      service := service.(included := service.included + [inc.value]);
      k := k + 1;
    }
    r := Ok(service);
  }

  // ---------------------------------------------------------------------------
  // Failures are final: once a prefix fails, every longer prefix fails the same way

  lemma {:induction false} AttachDescriptorsErrSticky(c: Characteristic, ds: seq<DescriptorMsg>, n: nat,
                                                     stack: AddOutcomes)
    requires n <= |ds|
    requires AttachDescriptors(c, ds[..n], stack).Err?
    ensures AttachDescriptors(c, ds, stack) == AttachDescriptors(c, ds[..n], stack)
    decreases |ds| - n
  {
    if n < |ds| {
      assert ds[..n + 1][..n] == ds[..n];
      AttachDescriptorsErrSticky(c, ds, n + 1, stack);
    } else {
      assert ds[..n] == ds;
    }
  }

  lemma {:induction false} AttachCharacteristicsErrSticky(s: Service, cs: seq<CharacteristicMsg>, n: nat,
                                                         stack: AddOutcomes)
    requires n <= |cs|
    requires AttachCharacteristics(s, cs[..n], stack).Err?
    ensures AttachCharacteristics(s, cs, stack) == AttachCharacteristics(s, cs[..n], stack)
    decreases |cs| - n
  {
    if n < |cs| {
      assert cs[..n + 1][..n] == cs[..n];
      AttachCharacteristicsErrSticky(s, cs, n + 1, stack);
    } else {
      assert cs[..n] == cs;
    }
  }

  lemma {:induction false} AttachIncludedErrSticky(s: Service, m: ServiceMsg, n: nat, total: nat, stack: AddOutcomes)
    requires n <= total <= |m.included|
    requires AttachIncluded(s, m, n, stack).Err?
    ensures AttachIncluded(s, m, total, stack) == AttachIncluded(s, m, n, stack)
    decreases total - n
  {
    if n < total {
      AttachIncludedErrSticky(s, m, n, total - 1, stack);
    }
  }

  // ---------------------------------------------------------------------------
  // What one step of each loop does: None when it succeeds, else its error

  function CharacteristicStep(parent: UuidText, m: CharacteristicMsg, stack: AddOutcomes): Option<BuildError>
  {
    match BuildCharacteristic(m, stack)
    case Err(e) => Some(e)
    case Ok(c) => if stack.addCharacteristic(parent, c.uuid) then None else Some(AddCharacteristicFailed)
  }

  function IncludedStep(parent: UuidText, m: ServiceMsg, stack: AddOutcomes): Option<BuildError>
  {
    match BuildService(m, stack)
    case Err(e) => Some(e)
    case Ok(inc) => if stack.addService(parent, inc.uuid) then None else Some(AddIncludedServiceFailed)
  }

  // ---------------------------------------------------------------------------
  // What the build promises

  /** Adding descriptors succeeds exactly when the stack accepts each of them;
      then every descriptor appears once, in input order, after those already there. */
  lemma {:induction false} AttachDescriptorsSpec(c: Characteristic, ds: seq<DescriptorMsg>, stack: AddOutcomes)
    ensures var r := AttachDescriptors(c, ds, stack);
            && (r.Ok? <==> forall i :: 0 <= i < |ds| ==> stack.addDescriptor(c.uuid, ds[i].uuid))
            && (r.Err? ==> r.error == AddDescriptorFailed)
            && (r.Ok? ==> && r.value == c.(descriptors := r.value.descriptors)
                          && |r.value.descriptors| == |c.descriptors| + |ds|
                          && r.value.descriptors[..|c.descriptors|] == c.descriptors
                          && forall i :: 0 <= i < |ds| ==> r.value.descriptors[|c.descriptors| + i] == BuildDescriptor(ds[i]))
  {
    if ds != [] {
      var front := ds[..|ds| - 1];
      AttachDescriptorsSpec(c, front, stack);
      var r := AttachDescriptors(c, ds, stack);
      if r.Ok? {
        var c' := AttachDescriptors(c, front, stack).value;
        assert r.value.descriptors == c'.descriptors + [BuildDescriptor(ds[|ds| - 1])];
        forall i | 0 <= i < |ds| ensures stack.addDescriptor(c.uuid, ds[i].uuid) {
          if i < |ds| - 1 { assert ds[i] == front[i]; }
        }
        forall i | 0 <= i < |ds| ensures r.value.descriptors[|c.descriptors| + i] == BuildDescriptor(ds[i]) {
          if i < |ds| - 1 { assert ds[i] == front[i]; }
        }
      }
    }
  }

  /** A characteristic is built exactly when none of the three unimplemented
      properties is declared and the stack accepts every descriptor. The
      first unimplemented property in the order indicate-encryption,
      notify-encryption, signed-writes decides the error. A built one carries
      the mask of the declared properties, no permissions, the value only if
      non-empty, and each descriptor once, in input order. */
  lemma BuildCharacteristicSpec(m: CharacteristicMsg, stack: AddOutcomes)
    ensures var r := BuildCharacteristic(m, stack);
            && (r.Ok? <==> Unsupported(m.properties).None? &&
                           forall i :: 0 <= i < |m.descriptors| ==> stack.addDescriptor(m.uuid, m.descriptors[i].uuid))
            && (r.Err? && Unsupported(m.properties).Some? ==> r.error == Unsupported(m.properties).value)
            && (r.Err? && Unsupported(m.properties).None? ==> r.error == AddDescriptorFailed)
            && (r.Ok? ==> && r.value.uuid == m.uuid
                          && r.value.properties == PropertyMask(m.properties)
                          && r.value.permissions == 0
                          && r.value.value == CopiedValue(m.value)
                          && |r.value.descriptors| == |m.descriptors|
                          && forall i :: 0 <= i < |m.descriptors| ==> r.value.descriptors[i] == BuildDescriptor(m.descriptors[i]))
  {
    AttachDescriptorsSpec(BareCharacteristic(m), m.descriptors, stack);
  }

  /** Adding characteristics succeeds exactly when every step does; on success
      each built characteristic appears once, in input order; on failure the
      error is that of the first failing step. */
  lemma {:induction false} AttachCharacteristicsSpec(s: Service, cs: seq<CharacteristicMsg>, stack: AddOutcomes)
    ensures var r := AttachCharacteristics(s, cs, stack);
            && (r.Ok? <==> forall i :: 0 <= i < |cs| ==> CharacteristicStep(s.uuid, cs[i], stack).None?)
            && (r.Err? ==> exists i :: 0 <= i < |cs| && CharacteristicStep(s.uuid, cs[i], stack) == Some(r.error) &&
                             forall j :: 0 <= j < i ==> CharacteristicStep(s.uuid, cs[j], stack).None?)
            && (r.Ok? ==> && r.value == s.(characteristics := r.value.characteristics)
                          && |r.value.characteristics| == |s.characteristics| + |cs|
                          && r.value.characteristics[..|s.characteristics|] == s.characteristics
                          && forall i :: 0 <= i < |cs| ==>
                               BuildCharacteristic(cs[i], stack) == Ok(r.value.characteristics[|s.characteristics| + i]))
  {
    if cs != [] {
      var front := cs[..|cs| - 1];
      var last := cs[|cs| - 1];
      AttachCharacteristicsSpec(s, front, stack);
      var r := AttachCharacteristics(s, cs, stack);
      var rf := AttachCharacteristics(s, front, stack);
      assert forall i :: 0 <= i < |front| ==> front[i] == cs[i];
      if rf.Err? {
        var i :| 0 <= i < |front| && CharacteristicStep(s.uuid, front[i], stack) == Some(rf.error) &&
                 forall j :: 0 <= j < i ==> CharacteristicStep(s.uuid, front[j], stack).None?;
        assert CharacteristicStep(s.uuid, cs[i], stack) == Some(r.error);
      } else {
        assert rf.value.uuid == s.uuid;
        if r.Ok? {
          var c := BuildCharacteristic(last, stack).value;
          assert r.value.characteristics == rf.value.characteristics + [c];
          assert CharacteristicStep(s.uuid, last, stack).None?;
        } else {
          assert CharacteristicStep(s.uuid, cs[|cs| - 1], stack) == Some(r.error);
        }
      }
    }
  }

  /** Adding the first `n` included services succeeds exactly when each of
      their steps does; on success each appears once, in input order; on
      failure the error is that of the first failing step. */
  lemma {:induction false} AttachIncludedSpec(s: Service, m: ServiceMsg, n: nat, stack: AddOutcomes)
    requires n <= |m.included|
    ensures var r := AttachIncluded(s, m, n, stack);
            && (r.Ok? <==> forall i :: 0 <= i < n ==> IncludedStep(s.uuid, m.included[i], stack).None?)
            && (r.Err? ==> exists i :: 0 <= i < n && IncludedStep(s.uuid, m.included[i], stack) == Some(r.error) &&
                             forall j :: 0 <= j < i ==> IncludedStep(s.uuid, m.included[j], stack).None?)
            && (r.Ok? ==> && r.value == s.(included := r.value.included)
                          && |r.value.included| == |s.included| + n
                          && r.value.included[..|s.included|] == s.included
                          && forall i :: 0 <= i < n ==>
                               BuildService(m.included[i], stack) == Ok(r.value.included[|s.included| + i]))
  {
    if n > 0 {
      AttachIncludedSpec(s, m, n - 1, stack);
      var r := AttachIncluded(s, m, n, stack);
      var rf := AttachIncluded(s, m, n - 1, stack);
      if rf.Ok? {
        assert rf.value.uuid == s.uuid;
        if r.Ok? {
          var inc := BuildService(m.included[n - 1], stack).value;
          assert r.value.included == rf.value.included + [inc];
        }
      }
    }
  }

  /** The service build is all-or-nothing: it succeeds exactly when every
      characteristic and every included service is built and accepted.
      Characteristics come first, in order, then included services, and the
      first failure decides the error (an included service is never tried
      once a characteristic failed). A built service has the described UUID,
      is PRIMARY iff `isPrimary`, and holds each built child once, in order. */
  lemma BuildServiceSpec(m: ServiceMsg, stack: AddOutcomes)
    ensures var r := BuildService(m, stack);
            var charsOk := forall i :: 0 <= i < |m.characteristics| ==>
                             CharacteristicStep(m.uuid, m.characteristics[i], stack).None?;
            && (r.Ok? <==> (charsOk &&
                  forall i :: 0 <= i < |m.included| ==> IncludedStep(m.uuid, m.included[i], stack).None?))
            && (r.Err? && !charsOk ==>
                  exists i :: 0 <= i < |m.characteristics| &&
                    CharacteristicStep(m.uuid, m.characteristics[i], stack) == Some(r.error) &&
                    forall j :: 0 <= j < i ==> CharacteristicStep(m.uuid, m.characteristics[j], stack).None?)
            && (r.Err? && charsOk ==>
                  exists i :: 0 <= i < |m.included| &&
                    IncludedStep(m.uuid, m.included[i], stack) == Some(r.error) &&
                    forall j :: 0 <= j < i ==> IncludedStep(m.uuid, m.included[j], stack).None?)
            && (r.Ok? ==> && r.value.uuid == m.uuid
                          && (r.value.serviceType == Primary <==> m.isPrimary)
                          && |r.value.characteristics| == |m.characteristics|
                          && (forall i :: 0 <= i < |m.characteristics| ==>
                                BuildCharacteristic(m.characteristics[i], stack) == Ok(r.value.characteristics[i]))
                          && |r.value.included| == |m.included|
                          && forall i :: 0 <= i < |m.included| ==>
                                BuildService(m.included[i], stack) == Ok(r.value.included[i]))
  {
    var root := Service(m.uuid, TypeOf(m.isPrimary), [], []);
    AttachCharacteristicsSpec(root, m.characteristics, stack);
    var rc := AttachCharacteristics(root, m.characteristics, stack);
    if rc.Err? {
      assert BuildService(m, stack) == Err(rc.error);
    } else {
      assert BuildService(m, stack) == AttachIncluded(rc.value, m, |m.included|, stack);
      AttachIncludedSpec(rc.value, m, |m.included|, stack);
    }
  }

  /** One characteristic declaring authenticated signed writes makes the whole
      service fail, whatever its siblings are. */
  lemma SignedWritesRejectService(m: ServiceMsg, i: nat, stack: AddOutcomes)
    requires i < |m.characteristics| && m.characteristics[i].properties.authenticatedSignedWrites
    ensures BuildService(m, stack).Err?
  {
    BuildServiceSpec(m, stack);
    assert CharacteristicStep(m.uuid, m.characteristics[i], stack).Some?;
  }
}
