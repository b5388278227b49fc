/** `FlutterBluePlugin`: the registry of client links and server-side clients,
    the advertising and server flags, and the request and callback handlers
    that read and update them. Stack queries and stack answers are
    parameters; what a handler does to the stack, to the application and to
    its event stream is returned as an ordered trace of effects. */
module Plugin {
  import opened Wrappers
  import opened Uuids
  import opened GattHelpers
  import opened AttributeTree
  import opened Cccd
  import SB = ServiceBuilder

  /** A client-role link (`BluetoothGatt`). The handle tells two links to the
      same device apart; `services` is what discovery found on it. */
  datatype Link = Link(handle: nat, services: seq<Service>)

  /** The open `BluetoothGattServer` and the services added to it. */
  datatype GattServer = GattServer(handle: nat, services: seq<Service>)

  /** The answer given to the application through `MethodChannel.Result`.
      `ReplyUncaught` is the channel's own error answer when a handler throws
      (the code "error" and the exception's message, which is not modelled). */
  datatype Reply = ReplySuccess | ReplyError(code: string, message: string) | ReplyUncaught

  datatype WriteType = WithResponse | WithoutResponse

  /** Calls into the Android stack, in the order a handler makes them. */
  datatype StackCall =
    | ConnectGatt(deviceId: string)
    | LinkConnect(link: nat)
    | LinkDisconnect(link: nat)
    | LinkClose(link: nat)
    | CancelConnection(deviceId: string)
    | RequestMtu(link: nat, mtu: int32)
    | ReadCharacteristic(link: nat, characteristic: UuidText)
    | ReadDescriptor(link: nat, descriptor: UuidText)
    | SetCharacteristicValue(characteristic: UuidText, value: Bytes)
    | SetWriteType(characteristic: UuidText, writeType: WriteType)
    | WriteCharacteristic(link: nat, characteristic: UuidText)
    | SetDescriptorValue(descriptor: UuidText, value: Bytes)
    | WriteDescriptor(link: nat, descriptor: UuidText)
    | SetCharacteristicNotification(link: nat, characteristic: UuidText, enable: bool)
    | StartAdvertising(serviceUuid: UuidText, manufacturerData: Option<(int32, Bytes)>)
    | StopAdvertising
    | OpenGattServer
    | AddService(server: nat, service: UuidText)
    | CloseServer(server: nat)
    | SendResponse(deviceId: string, requestId: int32, status: int32, offset: int32, response: Option<Bytes>)

  /** Messages pushed to the application outside any reply. */
  datatype Event =
    | DeviceState(deviceId: string, state: int32)
    | ServerDeviceState(deviceId: string, connected: bool)
    | ServerAdvertiseResult(success: bool, errorCode: int32)
    | ReadDescriptorResponse(remoteId: string, serviceUuid: UuidText, secondaryServiceUuid: UuidText,
                             characteristicUuid: UuidText, descriptorUuid: UuidText, value: Bytes)

  datatype Effect = Call(call: StackCall) | Respond(reply: Reply) | Emit(event: Event)

  /** The path of a characteristic as a request names it; an empty
      `secondaryServiceUuid` means none. */
  datatype AttributePath = AttributePath(
    remoteId: string,
    serviceUuid: UuidText,
    secondaryServiceUuid: UuidText,
    characteristicUuid: UuidText)

  const ADVERTISEMENT_ERROR := "bluetooth_advertisement_error"
  const SERVER_ERROR := "bluetooth_server_error"
  const SET_NOTIFICATION_ERROR := "set_notification_error"
  const MTU_ERROR := "request_mtu_error"

  /** The application gets exactly one reply, and it is the last effect. */
  predicate RepliesOnceAtEnd(effects: seq<Effect>)
  {
    && |effects| > 0
    && effects[|effects| - 1].Respond?
    && forall i :: 0 <= i < |effects| - 1 ==> !effects[i].Respond?
  }

  /** Two replies are given to one request. */
  predicate RepliesTwice(effects: seq<Effect>)
  {
    exists i, j :: 0 <= i < j < |effects| && effects[i].Respond? && effects[j].Respond?
  }

  function FinalReply(effects: seq<Effect>): Reply
    requires |effects| > 0 && effects[|effects| - 1].Respond?
  {
    effects[|effects| - 1].reply
  }

  /** The guard in front of every request: without an adapter only
      "isAvailable" is served. It runs before every request handler of
      `FlutterBluePlugin`, so those handlers are reached only with
      `adapterPresent` or for "isAvailable". */
  function Admit(adapterPresent: bool, methodName: string): (r: Option<Reply>)
    ensures r.Some? <==> !adapterPresent && methodName != "isAvailable"
    ensures r.Some? ==> r.value.ReplyError? && r.value.code == "bluetooth_unavailable"
  {
    if !adapterPresent && methodName != "isAvailable" then
      Some(ReplyError("bluetooth_unavailable", "the device does not have bluetooth"))
    else None
  }

  /** The three stack steps of a subscription change, in order: the local
      notification flag, the CCCD's local value, the CCCD write. */
  function SubscribeCalls(link: nat, characteristicUuid: UuidText, enable: bool, cccdValue: Bytes): (r: seq<Effect>)
    ensures |r| == 3
  {
    [Call(SetCharacteristicNotification(link, characteristicUuid, enable)),
     Call(SetDescriptorValue(CCCD_ID, cccdValue)),
     Call(StackCall.WriteDescriptor(link, CCCD_ID))]
  }

  /** How many of the three steps are made: a failed step is the last one. */
  function StepsRun(notificationSet: bool, valueSet: bool): (n: nat)
    ensures 1 <= n <= 3
  {
    if !notificationSet then 1 else if !valueSet then 2 else 3
  }

  /** The stack part of "setNotification": each step runs only when the
      previous one succeeded, nothing is undone after a failure, and the
      request succeeds only when all three do. */
  method Subscribe(link: nat, characteristicUuid: UuidText, enable: bool, cccdValue: Bytes,
                   notificationSet: bool, valueSet: bool, written: bool)
    returns (effects: seq<Effect>)
    ensures RepliesOnceAtEnd(effects)
    ensures effects[..|effects| - 1] == SubscribeCalls(link, characteristicUuid, enable, cccdValue)[..StepsRun(notificationSet, valueSet)]
    ensures FinalReply(effects) == ReplySuccess <==> notificationSet && valueSet && written
    ensures FinalReply(effects).ReplyError? ==> FinalReply(effects).code == SET_NOTIFICATION_ERROR
  {
    effects := [Call(SetCharacteristicNotification(link, characteristicUuid, enable))];
    if !notificationSet {
      return effects + [Respond(ReplyError(SET_NOTIFICATION_ERROR,
                                           "could not set characteristic notifications to :" + (if enable then "true" else "false")))];
    }
    effects := effects + [Call(SetDescriptorValue(CCCD_ID, cccdValue))];
    if !valueSet {
      return effects + [Respond(ReplyError(SET_NOTIFICATION_ERROR, "error when setting the descriptor value to: "))];
    }
    effects := effects + [Call(StackCall.WriteDescriptor(link, CCCD_ID))];
    if !written {
      return effects + [Respond(ReplyError(SET_NOTIFICATION_ERROR, "error when writing the descriptor"))];
    }
    effects := effects + [Respond(ReplySuccess)];
  }

  class FlutterBluePlugin {
    /** `mBluetoothAdapter != null`; never reassigned. */
    const adapterPresent: bool
    /** `mGattServers`: device address to client link. */
    var gattServers: map<string, Link>
    /** `gattClients`: addresses of the remote clients connected to the local server. */
    var gattClients: set<string>
    /** `mBluetoothLeAdvertiser != null`. */
    var advertiserPresent: bool
    /** `mServiceAdvertised`. */
    var serviceAdvertised: bool
    /** `mBluetoothGattServer`. */
    var gattServer: Option<GattServer>
    /** `mServerActive`: only ever assigned false. */
    var serverActive: bool

    /** The one invariant the fields keep: the server-active flag is never set. */
    ghost predicate Valid()
      reads this
    {
      !serverActive
    }

    constructor (adapterPresent: bool)
      ensures Valid()
      ensures this.adapterPresent == adapterPresent
      ensures gattServers == map[] && gattClients == {}
      ensures !advertiserPresent && !serviceAdvertised && gattServer == None
    {
      this.adapterPresent := adapterPresent;
      gattServers := map[];
      gattClients := {};
      advertiserPresent := false;
      serviceAdvertised := false;
      gattServer := None;
      serverActive := false;
    }

    // -------------------------------------------------------------------------
    // Client role: the registry

    /** "connect". `addressValid` is whether `getRemoteDevice` accepts the
        address (it throws otherwise, before anything changes), `isConnected`
        the stack's view of the device, `reconnects` the answer of the stale
        link's `connect()`, `created` the link `connectGatt` returns. */
    method Connect(deviceId: string, addressValid: bool, isConnected: bool, reconnects: bool, created: Link,
                   autoConnect: bool)
      returns (effects: seq<Effect>)
      modifies this`gattServers
      ensures RepliesOnceAtEnd(effects)
      ensures !addressValid ==> effects == [Respond(ReplyUncaught)] && gattServers == old(gattServers)
      ensures addressValid && deviceId in old(gattServers) && isConnected ==>
                && effects == [Respond(ReplyError("already_connected", "connection with device already exists"))]
                && gattServers == old(gattServers)
      ensures addressValid && deviceId in old(gattServers) && !isConnected && reconnects ==>
                && effects == [Call(LinkConnect(old(gattServers)[deviceId].handle)), Respond(ReplySuccess)]
                && gattServers == old(gattServers)
      ensures addressValid && deviceId in old(gattServers) && !isConnected && !reconnects ==>
                var stale := old(gattServers)[deviceId].handle;
                effects == [Call(LinkConnect(stale)), Call(LinkClose(stale)), Call(ConnectGatt(deviceId))]
                           + (if autoConnect then [Call(LinkConnect(created.handle))] else [])
                           + [Respond(ReplySuccess)]
      ensures addressValid && deviceId !in old(gattServers) ==>
                effects == [Call(ConnectGatt(deviceId))]
                           + (if autoConnect then [Call(LinkConnect(created.handle))] else [])
                           + [Respond(ReplySuccess)]
      ensures addressValid && !(deviceId in old(gattServers) && (isConnected || reconnects)) ==>
                gattServers == old(gattServers)[deviceId := created]
      ensures FinalReply(effects) == ReplySuccess ==> deviceId in gattServers
      ensures forall id :: id != deviceId ==> (id in gattServers <==> id in old(gattServers))
    {
      if !addressValid {
        return [Respond(ReplyUncaught)];
      }
      if deviceId in gattServers && isConnected {
        return [Respond(ReplyError("already_connected", "connection with device already exists"))];
      }
      effects := [];
      if deviceId in gattServers && !isConnected {
        var stale := gattServers[deviceId];
        effects := effects + [Call(LinkConnect(stale.handle))];
        if !reconnects {
          effects := effects + [Call(LinkClose(stale.handle))];
          gattServers := gattServers - {deviceId};
        } else {
          return effects + [Respond(ReplySuccess)];
        }
      }
      effects := effects + [Call(ConnectGatt(deviceId))];
      if autoConnect {
        effects := effects + [Call(LinkConnect(created.handle))];
      }
      gattServers := gattServers[deviceId := created];
      effects := effects + [Respond(ReplySuccess)];
    }

    /** "disconnect": forgets `deviceId` on both sides. A device held in
        `gattClients` is cancelled through the GATT server without a null
        check, so when no server is open the handler throws after dropping the
        client and before touching the registry. The link-level `disconnect()`
        is skipped when the adapter is off; the code keeps its own null check
        on the adapter even though the request guard has already passed. */
    method Disconnect(deviceId: string, adapterEnabled: bool) returns (effects: seq<Effect>)
      modifies this`gattServers, this`gattClients
      ensures gattClients == old(gattClients) - {deviceId}
      ensures RepliesOnceAtEnd(effects)
      ensures deviceId in old(gattClients) && gattServer.None? ==>
                && gattServers == old(gattServers)
                && effects == [Respond(ReplyUncaught)]
      ensures !(deviceId in old(gattClients) && gattServer.None?) ==>
                && gattServers == old(gattServers) - {deviceId}
                && effects == (if deviceId in old(gattClients) then [Call(CancelConnection(deviceId))] else [])
                              + (if deviceId in old(gattServers) && (!adapterPresent || adapterEnabled)
                                 then [Call(LinkDisconnect(old(gattServers)[deviceId].handle))] else [])
                              + [Respond(ReplySuccess)]
      ensures FinalReply(effects) == ReplySuccess <==> !(deviceId in old(gattClients) && gattServer.None?)
      ensures deviceId !in old(gattServers) && deviceId !in old(gattClients) ==> effects == [Respond(ReplySuccess)]
    {
      effects := [];
      if deviceId in gattClients {
        gattClients := gattClients - {deviceId};
        if gattServer.None? {
          return [Respond(ReplyUncaught)];
        }
        effects := effects + [Call(CancelConnection(deviceId))];
      }
      if deviceId in gattServers {
        var link := gattServers[deviceId];
        gattServers := gattServers - {deviceId};
        var skipCall := false;
        if adapterPresent {
          skipCall := !adapterEnabled;
        }
        if !skipCall {
          effects := effects + [Call(LinkDisconnect(link.handle))];
        }
      }
      effects := effects + [Respond(ReplySuccess)];
    }

    /** The client callback `onConnectionStateChange`: reports the new state,
        and closes the link on DISCONNECTED only when the registry no longer
        holds the address. */
    method OnConnectionStateChange(gatt: Link, deviceId: string, status: int32, newState: int32)
      returns (effects: seq<Effect>)
      ensures 1 <= |effects| <= 2 && effects[0] == Emit(DeviceState(deviceId, newState))
      ensures Call(LinkClose(gatt.handle)) in effects <==>
                newState == STATE_DISCONNECTED && deviceId !in gattServers
      ensures |effects| == 2 ==> effects[1] == Call(LinkClose(gatt.handle))
    {
      effects := [Emit(DeviceState(deviceId, newState))];
      if newState == STATE_DISCONNECTED {
        if deviceId !in gattServers {
          effects := effects + [Call(LinkClose(gatt.handle))];
        }
      }
    }

    /** "requestMTU": the device must be registered and the size positive
        before the stack is asked. */
    method RequestMtu(deviceId: string, localMtuSize: int32, accepted: bool) returns (effects: seq<Effect>)
      ensures RepliesOnceAtEnd(effects)
      ensures deviceId !in gattServers ==>
                effects == [Respond(ReplyError(MTU_ERROR, "no instance of BluetoothGatt, have you connected first?"))]
      ensures deviceId in gattServers && localMtuSize <= 0 ==>
                effects == [Respond(ReplyError(MTU_ERROR, "invalid mtu size requested"))]
      ensures deviceId in gattServers && localMtuSize > 0 ==>
                effects == [Call(StackCall.RequestMtu(gattServers[deviceId].handle, localMtuSize)),
                            Respond(if accepted then ReplySuccess else ReplyError(MTU_ERROR, "requestMtu call failed"))]
      ensures FinalReply(effects) == ReplySuccess <==> deviceId in gattServers && localMtuSize > 0 && accepted
    {
      if deviceId !in gattServers {
        return [Respond(ReplyError(MTU_ERROR, "no instance of BluetoothGatt, have you connected first?"))];
      }
      var link := gattServers[deviceId];
      if localMtuSize <= 0 {
        return [Respond(ReplyError(MTU_ERROR, "invalid mtu size requested"))];
      }
      effects := [Call(StackCall.RequestMtu(link.handle, localMtuSize))];
      if accepted {
        effects := effects + [Respond(ReplySuccess)];
      } else {
        effects := effects + [Respond(ReplyError(MTU_ERROR, "requestMtu call failed"))];
      }
    }

    // -------------------------------------------------------------------------
    // Client role: attribute operations

    /** `locateGatt`. */
    function LocateGatt(remoteId: string): (r: Result<Link, LookupError>)
      reads this
      ensures r.Ok? <==> remoteId in gattServers
      ensures r.Ok? ==> r.value == gattServers[remoteId]
      ensures r.Err? ==> r.error == NoConnection
    {
      if remoteId in gattServers then Ok(gattServers[remoteId]) else Err(NoConnection)
    }

    /** `locateGatt` followed by `locateCharacteristic`. */
    function Resolve(path: AttributePath): (r: Result<(Link, Characteristic), LookupError>)
      reads this
      ensures r.Ok? ==> path.remoteId in gattServers && r.value.0 == gattServers[path.remoteId]
      ensures r.Ok? ==> r.value.1.uuid == path.characteristicUuid
      ensures path.remoteId !in gattServers ==> r == Err(NoConnection)
      ensures path.remoteId in gattServers ==>
                var l := LocateCharacteristic(gattServers[path.remoteId].services, path.serviceUuid,
                                              path.secondaryServiceUuid, path.characteristicUuid);
                && (r.Ok? <==> l.Ok?)
                && (r.Ok? ==> r.value.1 == l.value)
                && (r.Err? ==> r.error == l.error)
    {
      match LocateGatt(path.remoteId)
      case Err(e) => Err(e)
      case Ok(link) =>
        match LocateCharacteristic(link.services, path.serviceUuid, path.secondaryServiceUuid, path.characteristicUuid)
        case Err(e) => Err(e)
        case Ok(c) => Ok((link, c))
    }

    /** "readCharacteristic". No request is held back while an earlier one is
        outstanding: only the stack's answer `accepted` decides. */
    method ReadCharacteristic(path: AttributePath, accepted: bool) returns (effects: seq<Effect>)
      ensures RepliesOnceAtEnd(effects)
      ensures Resolve(path).Err? ==>
                effects == [Respond(ReplyError("read_characteristic_error", LookupMessage(Resolve(path).error)))]
      ensures Resolve(path).Ok? ==>
                var (link, c) := Resolve(path).value;
                effects == [Call(StackCall.ReadCharacteristic(link.handle, c.uuid)),
                            Respond(if accepted then ReplySuccess
                                    else ReplyError("read_characteristic_error",
                                                    "unknown reason, may occur if readCharacteristic was called before last read finished."))]
      ensures FinalReply(effects) == ReplySuccess <==> Resolve(path).Ok? && accepted
    {
      var resolved := Resolve(path);
      if resolved.Err? {
        return [Respond(ReplyError("read_characteristic_error", LookupMessage(resolved.error)))];
      }
      var (link, c) := resolved.value;
      effects := [Call(StackCall.ReadCharacteristic(link.handle, c.uuid))];
      if accepted {
        effects := effects + [Respond(ReplySuccess)];
      } else {
        effects := effects + [Respond(ReplyError("read_characteristic_error",
                                                 "unknown reason, may occur if readCharacteristic was called before last read finished."))];
      }
    }

    /** "readDescriptor": as "readCharacteristic", one level deeper. */
    method ReadDescriptor(path: AttributePath, descriptorUuid: UuidText, accepted: bool) returns (effects: seq<Effect>)
      ensures RepliesOnceAtEnd(effects)
      ensures Resolve(path).Err? ==>
                effects == [Respond(ReplyError("read_descriptor_error", LookupMessage(Resolve(path).error)))]
      ensures Resolve(path).Ok? && LocateDescriptor(Resolve(path).value.1, descriptorUuid).Err? ==>
                effects == [Respond(ReplyError("read_descriptor_error",
                                               LookupMessage(DescriptorNotFound(descriptorUuid, path.characteristicUuid))))]
      ensures Resolve(path).Ok? && LocateDescriptor(Resolve(path).value.1, descriptorUuid).Ok? ==>
                effects == [Call(StackCall.ReadDescriptor(Resolve(path).value.0.handle, descriptorUuid)),
                            Respond(if accepted then ReplySuccess
                                    else ReplyError("read_descriptor_error",
                                                    "unknown reason, may occur if readDescriptor was called before last read finished."))]
    {
      var resolved := Resolve(path);
      if resolved.Err? {
        return [Respond(ReplyError("read_descriptor_error", LookupMessage(resolved.error)))];
      }
      var (link, c) := resolved.value;
      var descriptor := LocateDescriptor(c, descriptorUuid);
      if descriptor.Err? {
        return [Respond(ReplyError("read_descriptor_error", LookupMessage(descriptor.error)))];
      }
      effects := [Call(StackCall.ReadDescriptor(link.handle, descriptor.value.uuid))];
      if accepted {
        effects := effects + [Respond(ReplySuccess)];
      } else {
        effects := effects + [Respond(ReplyError("read_descriptor_error",
                                                 "unknown reason, may occur if readDescriptor was called before last read finished."))];
      }
    }

    /** "writeCharacteristic" as written: when the local `setValue` fails the
        error is reported but the handler goes on to the stack write and
        replies a second time. */
    method WriteCharacteristic(path: AttributePath, value: Bytes, writeType: WriteType, valueSet: bool, accepted: bool)
      returns (effects: seq<Effect>)
      ensures Resolve(path).Err? ==>
                effects == [Respond(ReplyError("write_characteristic_error", LookupMessage(Resolve(path).error)))]
      ensures Resolve(path).Ok? ==>
                var (link, c) := Resolve(path).value;
                effects == [Call(SetCharacteristicValue(c.uuid, value))]
                           + (if valueSet then []
                              else [Respond(ReplyError("write_characteristic_error", "could not set the local value of characteristic"))])
                           + [Call(SetWriteType(c.uuid, writeType)), Call(StackCall.WriteCharacteristic(link.handle, c.uuid)),
                              Respond(if accepted then ReplySuccess
                                      else ReplyError("write_characteristic_error", "writeCharacteristic failed"))]
      ensures Resolve(path).Ok? && !valueSet ==> RepliesTwice(effects)
      ensures Resolve(path).Err? || valueSet ==> RepliesOnceAtEnd(effects)
    {
      var resolved := Resolve(path);
      if resolved.Err? {
        return [Respond(ReplyError("write_characteristic_error", LookupMessage(resolved.error)))];
      }
      var (link, c) := resolved.value;
      effects := [Call(SetCharacteristicValue(c.uuid, value))];
      if !valueSet {
        effects := effects + [Respond(ReplyError("write_characteristic_error", "could not set the local value of characteristic"))];
      }
      effects := effects + [Call(SetWriteType(c.uuid, writeType))];
      effects := effects + [Call(StackCall.WriteCharacteristic(link.handle, c.uuid))];
      var reply := if accepted then ReplySuccess else ReplyError("write_characteristic_error", "writeCharacteristic failed");
      effects := effects + [Respond(reply)];
      assert !valueSet ==> effects[1].Respond? && effects[|effects| - 1].Respond?;
    }

    /** "writeCharacteristic" with the missing `return` after the failed
        `setValue` put back: one reply per request, on every path. */
    method WriteCharacteristicReplyingOnce(path: AttributePath, value: Bytes, writeType: WriteType, valueSet: bool,
                                           accepted: bool)
      returns (effects: seq<Effect>)
      ensures RepliesOnceAtEnd(effects)
      ensures Resolve(path).Ok? && !valueSet ==>
                effects == [Call(SetCharacteristicValue(Resolve(path).value.1.uuid, value)),
                            Respond(ReplyError("write_characteristic_error", "could not set the local value of characteristic"))]
      ensures FinalReply(effects) == ReplySuccess <==> Resolve(path).Ok? && valueSet && accepted
    {
      var resolved := Resolve(path);
      if resolved.Err? {
        return [Respond(ReplyError("write_characteristic_error", LookupMessage(resolved.error)))];
      }
      var (link, c) := resolved.value;
      effects := [Call(SetCharacteristicValue(c.uuid, value))];
      if !valueSet {
        return effects + [Respond(ReplyError("write_characteristic_error", "could not set the local value of characteristic"))];
      }
      effects := effects + [Call(SetWriteType(c.uuid, writeType)), Call(StackCall.WriteCharacteristic(link.handle, c.uuid))];
      if !accepted {
        return effects + [Respond(ReplyError("write_characteristic_error", "writeCharacteristic failed"))];
      }
      effects := effects + [Respond(ReplySuccess)];
    }

    /** "writeDescriptor" as written: the same missing `return` after a failed
        `setValue`, so a second reply follows. */
    method WriteDescriptor(path: AttributePath, descriptorUuid: UuidText, value: Bytes, valueSet: bool, accepted: bool)
      returns (effects: seq<Effect>)
      ensures Resolve(path).Err? ==>
                effects == [Respond(ReplyError("write_descriptor_error", LookupMessage(Resolve(path).error)))]
      ensures Resolve(path).Ok? && LocateDescriptor(Resolve(path).value.1, descriptorUuid).Err? ==>
                effects == [Respond(ReplyError("write_descriptor_error",
                                               LookupMessage(DescriptorNotFound(descriptorUuid, path.characteristicUuid))))]
      ensures Resolve(path).Ok? && LocateDescriptor(Resolve(path).value.1, descriptorUuid).Ok? ==>
                effects == [Call(SetDescriptorValue(descriptorUuid, value))]
                           + (if valueSet then []
                              else [Respond(ReplyError("write_descriptor_error", "could not set the local value for descriptor"))])
                           + [Call(StackCall.WriteDescriptor(Resolve(path).value.0.handle, descriptorUuid)),
                              Respond(if accepted then ReplySuccess
                                      else ReplyError("write_descriptor_error", "writeCharacteristic failed"))]
      ensures Resolve(path).Ok? && LocateDescriptor(Resolve(path).value.1, descriptorUuid).Ok? && !valueSet ==>
                RepliesTwice(effects)
    {
      var resolved := Resolve(path);
      if resolved.Err? {
        return [Respond(ReplyError("write_descriptor_error", LookupMessage(resolved.error)))];
      }
      var (link, c) := resolved.value;
      var descriptor := LocateDescriptor(c, descriptorUuid);
      if descriptor.Err? {
        return [Respond(ReplyError("write_descriptor_error", LookupMessage(descriptor.error)))];
      }
      var d := descriptor.value;
      effects := [Call(SetDescriptorValue(d.uuid, value))];
      if !valueSet {
        effects := effects + [Respond(ReplyError("write_descriptor_error", "could not set the local value for descriptor"))];
      }
      effects := effects + [Call(StackCall.WriteDescriptor(link.handle, d.uuid))];
      var reply := if accepted then ReplySuccess else ReplyError("write_descriptor_error", "writeCharacteristic failed");
      effects := effects + [Respond(reply)];
      assert !valueSet ==> effects[1].Respond? && effects[|effects| - 1].Respond?;
    }

    /** "writeDescriptor" with the missing `return` put back. */
    method WriteDescriptorReplyingOnce(path: AttributePath, descriptorUuid: UuidText, value: Bytes, valueSet: bool,
                                       accepted: bool)
      returns (effects: seq<Effect>)
      ensures RepliesOnceAtEnd(effects)
      ensures FinalReply(effects) == ReplySuccess <==>
                Resolve(path).Ok? && LocateDescriptor(Resolve(path).value.1, descriptorUuid).Ok? && valueSet && accepted
    {
      var resolved := Resolve(path);
      if resolved.Err? {
        return [Respond(ReplyError("write_descriptor_error", LookupMessage(resolved.error)))];
      }
      var (link, c) := resolved.value;
      var descriptor := LocateDescriptor(c, descriptorUuid);
      if descriptor.Err? {
        return [Respond(ReplyError("write_descriptor_error", LookupMessage(descriptor.error)))];
      }
      var d := descriptor.value;
      effects := [Call(SetDescriptorValue(d.uuid, value))];
      if !valueSet {
        return effects + [Respond(ReplyError("write_descriptor_error", "could not set the local value for descriptor"))];
      }
      effects := effects + [Call(StackCall.WriteDescriptor(link.handle, d.uuid))];
      if !accepted {
        return effects + [Respond(ReplyError("write_descriptor_error", "writeCharacteristic failed"))];
      }
      effects := effects + [Respond(ReplySuccess)];
    }

    /** Whether "setNotification" gets as far as the stack: the path resolves,
        the characteristic has a CCCD, and the request is a disable or the
        characteristic can notify or indicate. */
    function NotificationTarget(path: AttributePath, enable: bool): Option<(Link, Characteristic, Bytes)>
      reads this
    {
      match Resolve(path)
      case Err(_) => None
      case Ok((link, c)) =>
        if FirstIndexOf(c.descriptors, DescriptorUuid, CCCD_ID).None? then None
        else match SubscriptionValue(c.properties, enable)
          case None => None
          case Some(v) => Some((link, c, v))
    }

    /** "setNotification". Lookup failures, a missing CCCD and a
        characteristic that can neither notify nor indicate end the request
        before any stack call; otherwise the three steps of `Subscribe` run. */
    method SetNotification(path: AttributePath, enable: bool, notificationSet: bool, valueSet: bool, written: bool)
      returns (effects: seq<Effect>)
      ensures RepliesOnceAtEnd(effects)
      ensures NotificationTarget(path, enable).None? ==>
                |effects| == 1 && effects[0].Respond? && effects[0].reply.ReplyError? &&
                effects[0].reply.code == SET_NOTIFICATION_ERROR
      ensures Resolve(path).Err? ==>
                effects == [Respond(ReplyError(SET_NOTIFICATION_ERROR, LookupMessage(Resolve(path).error)))]
      ensures Resolve(path).Ok? && FirstIndexOf(Resolve(path).value.1.descriptors, DescriptorUuid, CCCD_ID).Some? &&
              SubscriptionValue(Resolve(path).value.1.properties, enable).None? ==>
                effects == [Respond(ReplyError(SET_NOTIFICATION_ERROR, "the characteristic cannot notify or indicate"))]
      ensures Resolve(path).Ok? && FirstIndexOf(Resolve(path).value.1.descriptors, DescriptorUuid, CCCD_ID).None? ==>
                effects == [Respond(ReplyError(SET_NOTIFICATION_ERROR, LookupMessage(CccdNotFound(path.characteristicUuid))))]
      ensures NotificationTarget(path, enable).Some? ==>
                var target := NotificationTarget(path, enable).value;
                effects[..|effects| - 1] ==
                  SubscribeCalls(target.0.handle, target.1.uuid, enable, target.2)[..StepsRun(notificationSet, valueSet)]
      ensures FinalReply(effects) == ReplySuccess <==>
                NotificationTarget(path, enable).Some? && notificationSet && valueSet && written
    {
      var resolved := Resolve(path);
      if resolved.Err? {
        return [Respond(ReplyError(SET_NOTIFICATION_ERROR, LookupMessage(resolved.error)))];
      }
      var (link, c) := resolved.value;
      var cccd := FirstIndexOf(c.descriptors, DescriptorUuid, CCCD_ID);
      if cccd.None? {
        return [Respond(ReplyError(SET_NOTIFICATION_ERROR, LookupMessage(CccdNotFound(c.uuid))))];
      }
      var value := SubscriptionValue(c.properties, enable);
      if value.None? {
        return [Respond(ReplyError(SET_NOTIFICATION_ERROR, "the characteristic cannot notify or indicate"))];
      }
      assert NotificationTarget(path, enable) == Some((link, c, value.value));
      effects := Subscribe(link.handle, c.uuid, enable, value.value, notificationSet, valueSet, written);
    }

    /** The client callback `onDescriptorRead`: reports the descriptor's value
        (empty when the stack has none) under the path rebuilt by the reverse
        search over `gatt`'s services. */
    method OnDescriptorRead(gatt: Link, deviceId: string, descriptor: Descriptor, characteristic: Characteristic,
                            owner: Service, status: int32)
      returns (effects: seq<Effect>)
      requires descriptor in characteristic.descriptors && characteristic in owner.characteristics
      ensures |effects| == 1 && effects[0].Emit? && effects[0].event.ReadDescriptorResponse?
      ensures var e := effects[0].event;
              && e.remoteId == deviceId
              && e.characteristicUuid == characteristic.uuid
              && e.descriptorUuid == descriptor.uuid
              && e.value == (if descriptor.value.None? then [] else descriptor.value.value)
              && (owner.serviceType == Primary ==> e.serviceUuid == owner.uuid && e.secondaryServiceUuid == "")
      ensures var e := effects[0].event;
              owner.serviceType == Secondary && (forall i :: 0 <= i < |gatt.services| ==> !IncludesUuid(gatt.services[i], owner.uuid))
              ==> e.serviceUuid == "" && e.secondaryServiceUuid == ""
      ensures var e := effects[0].event;
              owner.serviceType == Secondary && (exists i :: 0 <= i < |gatt.services| && IncludesUuid(gatt.services[i], owner.uuid))
              ==> e.secondaryServiceUuid == owner.uuid &&
                  exists i :: 0 <= i < |gatt.services| && IncludesUuid(gatt.services[i], owner.uuid) &&
                    e.serviceUuid == gatt.services[i].uuid &&
                    forall j :: i < j < |gatt.services| ==> !IncludesUuid(gatt.services[j], owner.uuid)
    {
      var serviceUuid, secondaryServiceUuid := ReverseServicePath(gatt.services, owner);
      var valueData: Bytes := [];
      if descriptor.value.Some? {
        valueData := descriptor.value.value;
      }
      effects := [Emit(ReadDescriptorResponse(deviceId, serviceUuid, secondaryServiceUuid,
                                              characteristic.uuid, descriptor.uuid, valueData))];
    }

    // -------------------------------------------------------------------------
    // Advertising

    /** "startAdvertisement". A start that reaches the stack leaves the
        advertised flag false: only the success callback sets it. */
    method StartAdvertisement(serviceUuid: UuidText, manufacturerId: int32, manufacturerData: Bytes,
                              advertiserAvailable: bool)
      returns (effects: seq<Effect>)
      modifies this`serviceAdvertised, this`advertiserPresent
      ensures RepliesOnceAtEnd(effects)
      ensures old(serviceAdvertised) ==>
                && effects == [Respond(ReplyError(ADVERTISEMENT_ERROR, "advertisement already started"))]
                && serviceAdvertised && advertiserPresent == old(advertiserPresent)
      ensures !old(serviceAdvertised) && serviceUuid == "" ==>
                && effects == [Respond(ReplyError(ADVERTISEMENT_ERROR, "start advertisement must have service UUID set!"))]
                && !serviceAdvertised && advertiserPresent == old(advertiserPresent)
      ensures !old(serviceAdvertised) && serviceUuid != "" ==>
                && !serviceAdvertised && advertiserPresent == advertiserAvailable
                && effects == if advertiserAvailable
                              then [Call(StartAdvertising(serviceUuid,
                                                          if |manufacturerData| > 0 then Some((manufacturerId, manufacturerData))
                                                          else None)),
                                    Respond(ReplySuccess)]
                              else [Respond(ReplyError(ADVERTISEMENT_ERROR,
                                                       "unable to start advertisement, failed to get bluetooth le advertiser!"))]
      ensures FinalReply(effects) == ReplySuccess ==> !serviceAdvertised && advertiserPresent
    {
      if serviceAdvertised {
        return [Respond(ReplyError(ADVERTISEMENT_ERROR, "advertisement already started"))];
      }
      if |serviceUuid| == 0 {
        return [Respond(ReplyError(ADVERTISEMENT_ERROR, "start advertisement must have service UUID set!"))];
      }
      serviceAdvertised := false;
      advertiserPresent := advertiserAvailable;
      if !advertiserPresent {
        return [Respond(ReplyError(ADVERTISEMENT_ERROR, "unable to start advertisement, failed to get bluetooth le advertiser!"))];
      }
      var scanResponse: Option<(int32, Bytes)> := None;
      if |manufacturerData| > 0 {
        scanResponse := Some((manufacturerId, manufacturerData));
      }
      effects := [Call(StartAdvertising(serviceUuid, scanResponse)), Respond(ReplySuccess)];
    }

    /** "stopAdvertisement": stops the stack only if advertising was confirmed,
        then drops the advertiser and clears the flag unconditionally. */
    method StopAdvertisement() returns (effects: seq<Effect>)
      modifies this`serviceAdvertised, this`advertiserPresent
      ensures !serviceAdvertised && !advertiserPresent
      ensures effects == (if old(advertiserPresent) && old(serviceAdvertised) then [Call(StopAdvertising)] else [])
                         + [Respond(ReplySuccess)]
    {
      effects := [];
      if advertiserPresent {
        if serviceAdvertised {
          effects := [Call(StopAdvertising)];
        }
        advertiserPresent := false;
      }
      serviceAdvertised := false;
      effects := effects + [Respond(ReplySuccess)];
    }

    /** `AdvertiseCallback.onStartSuccess`. */
    method OnStartSuccess() returns (effects: seq<Effect>)
      modifies this`serviceAdvertised
      ensures serviceAdvertised
      ensures effects == [Emit(ServerAdvertiseResult(true, 0))]
    {
      serviceAdvertised := true;
      effects := [Emit(ServerAdvertiseResult(true, 0))];
    }

    /** `AdvertiseCallback.onStartFailure`. */
    method OnStartFailure(errorCode: int32) returns (effects: seq<Effect>)
      modifies this`serviceAdvertised
      ensures !serviceAdvertised
      ensures effects == [Emit(ServerAdvertiseResult(false, errorCode))]
    {
      serviceAdvertised := false;
      effects := [Emit(ServerAdvertiseResult(false, errorCode))];
    }

    // -------------------------------------------------------------------------
    // Server role

    /** "startServer". `openedServer` is the handle `openGattServer` returns (None
        for null), `added` the answer of `addService`. The build is
        all-or-nothing, and nothing is installed unless every step succeeds.
        The server-active guard never trips, because the flag is never set. */
    method StartServer(payload: SB.ServiceMsg, stack: SB.AddOutcomes, openedServer: Option<nat>, added: bool)
      returns (effects: seq<Effect>)
      modifies this`gattServer
      ensures RepliesOnceAtEnd(effects)
      ensures serverActive ==>
                effects == [Respond(ReplyError(SERVER_ERROR, "server already started"))] && gattServer == old(gattServer)
      ensures Valid() ==> FinalReply(effects) != ReplyError(SERVER_ERROR, "server already started")
      ensures Valid() && payload.uuid == "" ==>
                effects == [Respond(ReplyError(SERVER_ERROR, "start server must have root service UUID set!"))]
                && gattServer == old(gattServer)
      ensures Valid() && payload.uuid != "" && SB.BuildService(payload, stack).Err? ==>
                effects == [Respond(ReplyError(SB.BUILD_ERROR_CODE,
                                               SB.BuildErrorMessage(SB.BuildService(payload, stack).error)))]
                && gattServer == old(gattServer)
      ensures Valid() && payload.uuid != "" && SB.BuildService(payload, stack).Ok? ==>
                var service := SB.BuildService(payload, stack).value;
                match openedServer
                case None =>
                  gattServer == None &&
                  effects == [Call(OpenGattServer), Respond(ReplyError(SERVER_ERROR, "start server failed to open gatt server!"))]
                case Some(h) =>
                  if added then
                    gattServer == Some(GattServer(h, [service])) &&
                    effects == [Call(OpenGattServer), Call(AddService(h, service.uuid)), Respond(ReplySuccess)]
                  else
                    gattServer == None &&
                    effects == [Call(OpenGattServer), Call(AddService(h, service.uuid)), Call(CloseServer(h)),
                                Respond(ReplyError(SERVER_ERROR, "start server failed to add gatt service to server!"))]
    {
      if serverActive {
        return [Respond(ReplyError(SERVER_ERROR, "server already started"))];
      }
      if |payload.uuid| == 0 {
        return [Respond(ReplyError(SERVER_ERROR, "start server must have root service UUID set!"))];
      }
      var built := SB.ServiceFromMessage(payload, stack);
      if built.Err? {
        return [Respond(ReplyError(SB.BUILD_ERROR_CODE, SB.BuildErrorMessage(built.error)))];
      }
      var service := built.value;
      effects := [Call(OpenGattServer)];
      match openedServer {
        case None =>
          gattServer := None;
          return effects + [Respond(ReplyError(SERVER_ERROR, "start server failed to open gatt server!"))];
        case Some(h) =>
          gattServer := Some(GattServer(h, []));
          effects := effects + [Call(AddService(h, service.uuid))];
          if !added {
            effects := effects + [Call(CloseServer(h))];
            gattServer := None;
            return effects + [Respond(ReplyError(SERVER_ERROR, "start server failed to add gatt service to server!"))];
          }
          gattServer := Some(GattServer(h, [service]));
      }
      effects := effects + [Respond(ReplySuccess)];
    }

    /** "stopServer": closes the server if there is one (the reference is kept),
        and clears the server-active flag. */
    method StopServer() returns (effects: seq<Effect>)
      modifies this`serverActive
      ensures Valid()
      ensures effects == (if gattServer.Some? then [Call(CloseServer(gattServer.value.handle))] else [])
                         + [Respond(ReplySuccess)]
    {
      effects := [];
      if gattServer.Some? {
        effects := [Call(CloseServer(gattServer.value.handle))];
      }
      serverActive := false;
      effects := effects + [Respond(ReplySuccess)];
    }

    /** The server callback `onConnectionStateChange`: the client set gains the
        address on CONNECTED and loses it on any other state. */
    method OnServerConnectionStateChange(deviceId: string, status: int32, newState: int32)
      returns (effects: seq<Effect>)
      modifies this`gattClients
      ensures gattClients == if newState == STATE_CONNECTED then old(gattClients) + {deviceId}
                             else old(gattClients) - {deviceId}
      ensures effects == [Emit(ServerDeviceState(deviceId, newState == STATE_CONNECTED))]
    {
      if newState == STATE_CONNECTED {
        gattClients := gattClients + {deviceId};
      } else {
        gattClients := gattClients - {deviceId};
      }
      effects := [Emit(ServerDeviceState(deviceId, newState == STATE_CONNECTED))];
    }

    /** The server callback `onDescriptorWriteRequest`. An unknown client gets
        GATT_FAILURE whether or not it asked for a response. From a known
        client, a CCCD write of exactly 02 00 (indicate) gets GATT_FAILURE and
        everything else GATT_SUCCESS, each only if a response is needed. */
    method OnDescriptorWriteRequest(deviceId: string, requestId: int32, descriptorUuid: UuidText, preparedWrite: bool,
                                    responseNeeded: bool, offset: int32, value: Option<Bytes>)
      returns (effects: seq<Effect>)
      ensures |effects| <= 1
      ensures forall i :: 0 <= i < |effects| ==> effects[i].Call? && effects[i].call.SendResponse?
      ensures deviceId !in gattClients ==>
                effects == [Call(SendResponse(deviceId, requestId, GATT_FAILURE, 0, None))]
      ensures deviceId in gattClients ==>
                var indicate := descriptorUuid == CCCD_ID && value == Some(ENABLE_INDICATION_VALUE);
                effects == if responseNeeded
                           then [Call(SendResponse(deviceId, requestId, if indicate then GATT_FAILURE else GATT_SUCCESS, 0, None))]
                           else []
    {
      if deviceId !in gattClients {
        return [Call(SendResponse(deviceId, requestId, GATT_FAILURE, 0, None))];
      }
      effects := [];
      if descriptorUuid == CCCD_ID {
        var request := DecodeCccd(value);
        if request.indicationEnabled {
          if responseNeeded {
            effects := [Call(SendResponse(deviceId, requestId, GATT_FAILURE, 0, None))];
          }
          return;
        }
      }
      if responseNeeded {
        effects := [Call(SendResponse(deviceId, requestId, GATT_SUCCESS, 0, None))];
      }
    }

    /** The server callback `onCharacteristicReadRequest`: GATT_SUCCESS with a
        null value, whether the client is known or not. */
    method OnCharacteristicReadRequest(deviceId: string, requestId: int32, offset: int32, characteristicUuid: UuidText)
      returns (effects: seq<Effect>)
      ensures effects == [Call(SendResponse(deviceId, requestId, GATT_SUCCESS, 0, None))]
    {
      if deviceId !in gattClients {
        return [Call(SendResponse(deviceId, requestId, GATT_SUCCESS, 0, None))];
      }
      effects := [Call(SendResponse(deviceId, requestId, GATT_SUCCESS, 0, None))];
    }
  }
  // ---------------------------------------------------------------------------
  // Sequences of requests and callbacks

  /** A second "disconnect" of the same device finds nothing of the device
      left: after a first one that succeeded it only replies, and after a
      first one that threw on the missing GATT server it finishes tearing down
      the link and succeeds. Either way the device ends up on neither side. */
  method DisconnectTwice(plugin: FlutterBluePlugin, deviceId: string, enabledFirst: bool, enabledSecond: bool)
    returns (first: seq<Effect>, second: seq<Effect>)
    modifies plugin
    ensures deviceId !in plugin.gattServers && deviceId !in plugin.gattClients
    ensures plugin.gattServers == old(plugin.gattServers) - {deviceId}
    ensures plugin.gattClients == old(plugin.gattClients) - {deviceId}
    ensures RepliesOnceAtEnd(first) && RepliesOnceAtEnd(second)
    ensures FinalReply(second) == ReplySuccess
    ensures FinalReply(first) == ReplySuccess ==> second == [Respond(ReplySuccess)]
  {
    first := plugin.Disconnect(deviceId, enabledFirst);
    second := plugin.Disconnect(deviceId, enabledSecond);
  }

  /** After a successful "disconnect" has dropped the device from the
      registry, the stack's DISCONNECTED callback for the old link closes that
      link; after one that threw, the device is still registered and the link
      stays open. */
  method DisconnectThenDisconnectedCallback(plugin: FlutterBluePlugin, deviceId: string, adapterEnabled: bool,
                                            status: int32)
    returns (effects: seq<Effect>)
    requires deviceId in plugin.gattServers
    modifies plugin
    ensures Call(LinkClose(old(plugin.gattServers)[deviceId].handle)) in effects
            <==> !(deviceId in old(plugin.gattClients) && old(plugin.gattServer).None?)
  {
    var link := plugin.gattServers[deviceId];
    var _ := plugin.Disconnect(deviceId, adapterEnabled);
    effects := plugin.OnConnectionStateChange(link, deviceId, status, STATE_DISCONNECTED);
  }

  /** While the device is still registered (a reconnect is pending), the
      DISCONNECTED callback leaves the link open. */
  method DisconnectedCallbackWhileRegistered(plugin: FlutterBluePlugin, deviceId: string, status: int32)
    returns (effects: seq<Effect>)
    requires deviceId in plugin.gattServers
    ensures effects == [Emit(DeviceState(deviceId, STATE_DISCONNECTED))]
  {
    effects := plugin.OnConnectionStateChange(plugin.gattServers[deviceId], deviceId, status, STATE_DISCONNECTED);
  }

  /** A start that reaches the stack, confirmed by the success callback, makes
      the next start fail with "advertisement already started"; after
      "stopAdvertisement" a start is admitted again. */
  method AdvertiseLifecycle(plugin: FlutterBluePlugin, serviceUuid: UuidText, manufacturerId: int32,
                            manufacturerData: Bytes)
    returns (started: seq<Effect>, restarted: seq<Effect>, stopped: seq<Effect>, again: seq<Effect>)
    requires !plugin.serviceAdvertised && serviceUuid != ""
    modifies plugin
    ensures RepliesOnceAtEnd(started) && FinalReply(started) == ReplySuccess
    ensures restarted == [Respond(ReplyError(ADVERTISEMENT_ERROR, "advertisement already started"))]
    ensures stopped == [Call(StopAdvertising), Respond(ReplySuccess)]
    ensures RepliesOnceAtEnd(again) && FinalReply(again) == ReplySuccess
  {
    started := plugin.StartAdvertisement(serviceUuid, manufacturerId, manufacturerData, true);
    var _ := plugin.OnStartSuccess();
    restarted := plugin.StartAdvertisement(serviceUuid, manufacturerId, manufacturerData, true);
    stopped := plugin.StopAdvertisement();
    again := plugin.StartAdvertisement(serviceUuid, manufacturerId, manufacturerData, true);
  }

  /** The server-active flag never becomes true, so after "stopServer" a
      second "startServer" is never refused as already started. */
  method StopThenStartServer(plugin: FlutterBluePlugin, payload: SB.ServiceMsg, stack: SB.AddOutcomes,
                             openedServer: Option<nat>, added: bool)
    returns (effects: seq<Effect>)
    modifies plugin
    ensures plugin.Valid()
    ensures RepliesOnceAtEnd(effects) && FinalReply(effects) != ReplyError(SERVER_ERROR, "server already started")
  {
    var _ := plugin.StopServer();
    effects := plugin.StartServer(payload, stack, openedServer, added);
  }
}
