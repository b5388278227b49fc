/** The Client Characteristic Configuration Descriptor (UUID 0x2902, section
    3.3.3.3 of Bluetooth Core Spec Vol 3 Part G): which value the client
    writes to subscribe, and how the server reads a value written to it. */
module Cccd {
  import opened Wrappers
  import opened Uuids
  import opened AttributeTree

  const CCCD_ID: UuidText := "00002902-0000-1000-8000-00805f9b34fb"

  const ENABLE_NOTIFICATION_VALUE: Bytes := [0x01, 0x00]
  const ENABLE_INDICATION_VALUE: Bytes := [0x02, 0x00]
  const DISABLE_NOTIFICATION_VALUE: Bytes := [0x00, 0x00]

  predicate CanNotify(properties: bv32) { properties & PROPERTY_NOTIFY != 0 }
  predicate CanIndicate(properties: bv32) { properties & PROPERTY_INDICATE != 0 }

  /** The value `setNotification` writes to the CCCD, or None when an enable
      is asked of a characteristic that can neither notify nor indicate.
      Indicate is chosen first and notify then overrides it. */
  function SubscriptionValue(properties: bv32, enable: bool): (r: Option<Bytes>)
    ensures r.None? <==> enable && !CanNotify(properties) && !CanIndicate(properties)
    ensures !enable ==> r == Some(DISABLE_NOTIFICATION_VALUE)
    ensures enable && CanNotify(properties) ==> r == Some(ENABLE_NOTIFICATION_VALUE)
    ensures enable && CanIndicate(properties) && !CanNotify(properties) ==> r == Some(ENABLE_INDICATION_VALUE)
  {
    if enable then
      var canNotify := CanNotify(properties);
      var canIndicate := CanIndicate(properties);
      if !canIndicate && !canNotify then None
      else
        var value := if canIndicate then Some(ENABLE_INDICATION_VALUE) else None;
        var value' := if canNotify then Some(ENABLE_NOTIFICATION_VALUE) else value;
        value'
    else Some(DISABLE_NOTIFICATION_VALUE)
  }

  /** A characteristic that declares both notify and indicate is subscribed
      with the notify pattern 01 00, never with the indicate pattern 02 00. */
  lemma NotifyWinsOverIndicate(properties: bv32)
    requires properties & (PROPERTY_NOTIFY | PROPERTY_INDICATE) == PROPERTY_NOTIFY | PROPERTY_INDICATE
    ensures SubscriptionValue(properties, true) == Some([0x01, 0x00])
    ensures SubscriptionValue(properties, true) != Some(ENABLE_INDICATION_VALUE)
  {
    assert CanNotify(properties) by {
      assert (properties & (PROPERTY_NOTIFY | PROPERTY_INDICATE)) & PROPERTY_NOTIFY == properties & PROPERTY_NOTIFY;
    }
  }

  /** What the server callback makes of a CCCD write. */
  datatype CccdWrite = CccdWrite(notifyEnabled: bool, indicationEnabled: bool)

  /** `onDescriptorWriteRequest`'s decoding: only a two-octet value equal to a
      canonical pattern enables anything; every other value, a null one
      included, counts as disabled. */
  function DecodeCccd(value: Option<Bytes>): (r: CccdWrite)
    ensures r.notifyEnabled <==> value == Some(ENABLE_NOTIFICATION_VALUE)
    ensures r.indicationEnabled <==> value == Some(ENABLE_INDICATION_VALUE)
    ensures !(r.notifyEnabled && r.indicationEnabled)
  {
    if value.Some? && |value.value| == 2 then
      var v := value.value;
      if v == ENABLE_NOTIFICATION_VALUE then CccdWrite(true, false)
      else if v == DISABLE_NOTIFICATION_VALUE then CccdWrite(false, false)
      else if v == ENABLE_INDICATION_VALUE then CccdWrite(false, true)
      else CccdWrite(false, false)
    else CccdWrite(false, false)
  }

  /** Decoding reads back what the client side writes: the value chosen for a
      subscription decodes to the matching flag, and a disable to neither. */
  lemma DecodeOfSubscriptionValue(properties: bv32, enable: bool)
    requires SubscriptionValue(properties, enable).Some?
    ensures var d := DecodeCccd(SubscriptionValue(properties, enable));
            && (d.notifyEnabled <==> enable && CanNotify(properties))
            && (d.indicationEnabled <==> enable && CanIndicate(properties) && !CanNotify(properties))
  {
  }
}
