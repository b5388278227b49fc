# flutter_blue Android bridge: attribute bookkeeping and decision logic

This project is a Dafny model of the Android half of flutter_blue. That half
is a plugin that receives requests from a Flutter application, turns them
into calls on the Android Bluetooth Low Energy stack, and reports answers and
stack callbacks back to the application. The model covers the logic that
sits between those two sides:

- **The attribute tree and its UUID-path resolver** (`AttributeTree`).
  A request names a characteristic by a service UUID, an optional secondary
  (included) service UUID and a characteristic UUID, plus a descriptor UUID
  where one is needed. The resolver walks the tree the stack discovered and
  returns the attribute or an error that names what is missing. The reverse
  search in `onDescriptorRead` rebuilds the (service, secondary service)
  path of a descriptor.
- **ServiceBuilder** (`ServiceBuilder`). This turns a declarative service
  description into a GATT service tree, or into one error:
  - the property bit mask is accumulated step by step;
  - three declared properties are not supported;
  - the descriptor, characteristic and included-service loops stop at the
    first refused add, and the build is all-or-nothing.
- **The Client Characteristic Configuration Descriptor (CCCD)** (`Cccd`). On
  the client side the plugin chooses the 2-byte value that enables or
  disables notifications. On the server side it decodes a written value
  exactly. The values are those of section 3.3.3.3 of the Bluetooth Core
  Specification, Vol 3 Part G.
- **The plugin object** (`Plugin.FlutterBluePlugin`). It holds:
  - the registry of client links (`mGattServers`);
  - the set of remote clients of the local server (`gattClients`);
  - the advertising and server flags.

  Its handlers update that state: connect, disconnect, requestMTU, the
  attribute reads and writes, setNotification, advertisement and server
  start and stop, and the client and server callbacks.
- **Pure helpers.** `GattHelpers` formats connection states and GATT statuses
  as `"N [NAME]"`. `Uuids` is the 16-byte big-endian UUID encoder.

Everything the stack decides is a parameter of the handler that asks it:
- whether a device is connected;
- whether `connect()`, `requestMtu`, `readCharacteristic` or `setValue` is accepted;
- the link `connectGatt` creates and the server `openGattServer` opens;
- the answers of `addDescriptor`, `addCharacteristic` and `addService`, as the
  oracle `ServiceBuilder.AddOutcomes`.

Each handler returns what it does as an ordered trace of `Effect`s. An effect
is a call into the stack, the reply given to the application, or an event
pushed to it. This way the contracts can state the order of stack calls, how
many replies are sent, and that no call is made on an error path.

Several behaviours of the code are easy to expect otherwise; the model keeps
the code's behaviour:
- Looking up a secondary service that is included under the *second* of two
  primary services with the same UUID fails with "secondary service not
  found". `getService` returns the first match, and only that service's
  included list is searched (`AttributeTree.SecondaryUnderLaterDuplicateNotFound`).
- A server-side request to enable indications is answered with GATT_FAILURE
  when a response is needed. It is not accepted.
- A server-side characteristic read is answered GATT_SUCCESS with a null
  value for every client, including unknown ones. The value is not empty.
- There is no operation serializer. A second read or write while one is
  outstanding is refused only when the stack returns `false`.
  `ReadCharacteristic` and `ReadDescriptor` change no field, and no
  pending-operation state is kept. They still consult the registry of links
  and the attribute tree, and a lookup failure there decides the reply.
- A handler that throws is answered by the Flutter channel itself with an
  error reply (`ReplyUncaught`). Two such paths are modelled. In "connect",
  `getRemoteDevice` rejects an invalid address. In "disconnect", a remote
  client is cancelled through a GATT server that may be null.

## Model

| member | source | states |
|---|---|---|
| Uuids.UuidToBytes | android/src/main/java/com/pauldemarco/flutterblue/FlutterBluePlugin.java:1218-1223 | the 16 bytes are the most significant 64 bits then the least significant, each big-endian in two's complement; decoding them gives the UUID back |
| Uuids.PutLong | android/src/main/java/com/pauldemarco/flutterblue/FlutterBluePlugin.java:1220-1221 | the 8 bytes at the offset become the big-endian two's-complement form of the long, and every other byte of the buffer is unchanged |
| Uuids.FromBigEndianOfBigEndian | android/src/main/java/com/pauldemarco/flutterblue/FlutterBluePlugin.java:1220-1221 | reading back a big-endian encoding of a number that fits the width gives the number |
| Uuids.UuidBytesInjective | android/src/main/java/com/pauldemarco/flutterblue/FlutterBluePlugin.java:1218-1223 | distinct UUIDs encode to distinct byte strings |
| Uuids.Signed64 | android/src/main/java/com/pauldemarco/flutterblue/FlutterBluePlugin.java:1220-1221 | every unsigned 64-bit pattern is the two's-complement image of some long |
| GattHelpers.ConnectionStateName | android/src/main/java/com/pauldemarco/flutterblue/GattHelpers.java:8-24 | the name is UNKNOWN exactly when the state is none of DISCONNECTED, CONNECTING, CONNECTED, DISCONNECTING (0..3), and each of those four states gets its own name |
| GattHelpers.GattStatusName | android/src/main/java/com/pauldemarco/flutterblue/GattHelpers.java:32-66 | the name is UNKNOWN exactly when the status is none of the ten listed GATT statuses, and each of the ten gets its own name (SUCCESS for 0, READ_NOT_PERMITTED for 2, … FAILURE for 257) |
| GattHelpers.LeadsWithDecimal | android/src/main/java/com/pauldemarco/flutterblue/GattHelpers.java:7 | for any name, the text before the first space of the decimal followed by " [name]" is the decimal, digits after an optional minus sign, and parses back to the number |
| GattHelpers.ConnectionStateToStringLeadsWithDecimal | android/src/main/java/com/pauldemarco/flutterblue/GattHelpers.java:7 | the text before the first space is the decimal of the state, and it parses back to the state |
| GattHelpers.GattStatusToStringLeadsWithDecimal | android/src/main/java/com/pauldemarco/flutterblue/GattHelpers.java:31 | the text before the first space is the decimal of the status, and it parses back to the status |
| GattHelpers.ConnectionStateToString | android/src/main/java/com/pauldemarco/flutterblue/GattHelpers.java:6-28 | the output is as long as the decimal of the state, its name and three separator characters together |
| GattHelpers.ConnectionStateToStringEndsWithName | android/src/main/java/com/pauldemarco/flutterblue/GattHelpers.java:7-27 | the output ends with " [", the state's name and "]", and is exactly its text before the first space followed by that ending |
| GattHelpers.GattStatusToString | android/src/main/java/com/pauldemarco/flutterblue/GattHelpers.java:30-70 | the output is as long as the decimal of the status, its name and three separator characters together |
| GattHelpers.GattStatusToStringEndsWithName | android/src/main/java/com/pauldemarco/flutterblue/GattHelpers.java:31-69 | the output ends with " [", the status's name and "]", and is exactly its text before the first space followed by that ending |
| GattHelpers.ConnectionStateToStringInjective | android/src/main/java/com/pauldemarco/flutterblue/GattHelpers.java:6-28 | distinct states give distinct strings |
| GattHelpers.GattStatusToStringInjective | android/src/main/java/com/pauldemarco/flutterblue/GattHelpers.java:30-70 | distinct statuses give distinct strings |
| GattHelpers.ConnectionStateExamples | android/src/main/java/com/pauldemarco/flutterblue/GattHelpers.java:6-28 | "0 [DISCONNECTED]", "1 [CONNECTING]", "2 [CONNECTED]", "3 [DISCONNECTING]", "-1 [UNKNOWN]" |
| GattHelpers.GattStatusExamples | android/src/main/java/com/pauldemarco/flutterblue/GattHelpers.java:30-70 | "0 [SUCCESS]", "13 [INVALID_ATTRIBUTE_LENGTH]", "257 [FAILURE]", "1 [UNKNOWN]" |
| GattHelpers.ParseNaturalToDecimal | android/src/main/java/com/pauldemarco/flutterblue/GattHelpers.java:7 | the decimal text of a natural number parses back to it |
| GattHelpers.DecimalRoundTrip | android/src/main/java/com/pauldemarco/flutterblue/GattHelpers.java:7 | the decimal text of any integer, with its sign, parses back to it |
| AttributeTree.FirstIndexOf | android/src/main/java/com/pauldemarco/flutterblue/FlutterBluePlugin.java:650 | the stack's lookup by UUID returns the first match; none exactly when no element has the UUID |
| AttributeTree.LastIndexOf | android/src/main/java/com/pauldemarco/flutterblue/FlutterBluePlugin.java:656-660 | the search loop without a break keeps the last match; none exactly when no element has the UUID |
| AttributeTree.EffectiveService | android/src/main/java/com/pauldemarco/flutterblue/FlutterBluePlugin.java:650-665 | "service not found" exactly when no service has the UUID; errors are only service or secondary-service not found; with no secondary UUID the result is the first service with the UUID; with one, the result has the secondary UUID |
| AttributeTree.LocateCharacteristic | android/src/main/java/com/pauldemarco/flutterblue/FlutterBluePlugin.java:649-671 | a found characteristic has the requested UUID; "service not found" exactly when no service has the UUID; a failure is a missing service, a missing secondary service, or a missing characteristic named by its UUID and by the service searched: the secondary service when one was given, otherwise the primary |
| AttributeTree.LocateDescriptor | android/src/main/java/com/pauldemarco/flutterblue/FlutterBluePlugin.java:673-679 | a found descriptor is the first one in the characteristic with the UUID; the lookup fails exactly when no descriptor has the UUID, and the error names both UUIDs |
| AttributeTree.LookupMessageNamesUuid | android/src/main/java/com/pauldemarco/flutterblue/FlutterBluePlugin.java:652-676 | each error message contains the missing UUID at the place where the code prints it |
| AttributeTree.ResolveWithoutSecondary | android/src/main/java/com/pauldemarco/flutterblue/FlutterBluePlugin.java:650-670 | with no secondary UUID, the characteristic is looked up in the first primary service with the UUID: found exactly when that service has it |
| AttributeTree.ResolveWithSecondary | android/src/main/java/com/pauldemarco/flutterblue/FlutterBluePlugin.java:654-670 | with a secondary UUID, only that primary's included services are searched; it fails exactly when none has the UUID; the last match is used, and the primary is never a fallback |
| AttributeTree.ResolveThroughSecondary | android/src/main/java/com/pauldemarco/flutterblue/FlutterBluePlugin.java:654-670 | with a secondary UUID whose last match under the first primary is known, the characteristic is the first one there with the UUID; it is missing exactly when that secondary service lacks it, and the error names the secondary service |
| AttributeTree.ResolvedComesFromNamedService | android/src/main/java/com/pauldemarco/flutterblue/FlutterBluePlugin.java:649-671 | a resolved characteristic belongs to the service the request named |
| AttributeTree.SecondaryUnderLaterDuplicateNotFound | android/src/main/java/com/pauldemarco/flutterblue/FlutterBluePlugin.java:650-663 | a secondary service included only under the second of two same-UUID primaries is reported as not found |
| AttributeTree.SecondaryUnderFirstPrimaryFound | android/src/main/java/com/pauldemarco/flutterblue/FlutterBluePlugin.java:650-670 | the same secondary service included under the first primary is found |
| AttributeTree.ReverseServicePath | android/src/main/java/com/pauldemarco/flutterblue/FlutterBluePlugin.java:1124-1137 | a primary owner reports its own UUID and no secondary; a secondary owner that no service includes reports nothing; otherwise the last service whose included list has the owner's UUID is reported, with the owner's UUID as the secondary |
| Cccd.SubscriptionValue | android/src/main/java/com/pauldemarco/flutterblue/FlutterBluePlugin.java:578-595 | an enable fails exactly when the characteristic can neither notify nor indicate; a disable writes 00 00; notify writes 01 00; indicate alone writes 02 00 |
| Cccd.NotifyWinsOverIndicate | android/src/main/java/com/pauldemarco/flutterblue/FlutterBluePlugin.java:587-592 | with both NOTIFY and INDICATE set, the notification value is chosen, not the indication value |
| Cccd.DecodeCccd | android/src/main/java/com/pauldemarco/flutterblue/FlutterBluePlugin.java:1019-1032 | notify is enabled exactly when the value is 01 00; indicate exactly when it is 02 00; never both |
| Cccd.DecodeOfSubscriptionValue | android/src/main/java/com/pauldemarco/flutterblue/FlutterBluePlugin.java:578-595 | the server-side decoding of the value the client side chooses enables what was asked for, and a disable enables nothing |
| ServiceBuilder.PropertyMask | android/src/main/java/com/pauldemarco/flutterblue/ServiceBuilder.java:35-53 | each of the six bits is set exactly when its flag is declared, and no other bit is set, including write-no-response and signed-write |
| ServiceBuilder.Unsupported | android/src/main/java/com/pauldemarco/flutterblue/ServiceBuilder.java:55-75 | the characteristic is refused exactly when one of the three unsupported flags is set; the first set flag, in the code's order, decides the error |
| ServiceBuilder.CopiedValue | android/src/main/java/com/pauldemarco/flutterblue/ServiceBuilder.java:22-27 | a value is copied only when present and non-empty, and then unchanged |
| ServiceBuilder.BuildDescriptor | android/src/main/java/com/pauldemarco/flutterblue/ServiceBuilder.java:18-30 | a descriptor keeps its UUID, gets READ and WRITE permissions, and has a value exactly when a non-empty one was given; that value is the bytes given |
| ServiceBuilder.CharacteristicFromMessage | android/src/main/java/com/pauldemarco/flutterblue/ServiceBuilder.java:32-99 | the step-by-step mask, unsupported checks and descriptor loop compute the characteristic build |
| ServiceBuilder.ServiceFromMessage | android/src/main/java/com/pauldemarco/flutterblue/ServiceBuilder.java:101-135 | the characteristic loop and then the recursive included-service loop compute the service build |
| ServiceBuilder.AddCharacteristics | android/src/main/java/com/pauldemarco/flutterblue/ServiceBuilder.java:106-118 | the characteristic loop stops at the first failure and otherwise appends every characteristic |
| ServiceBuilder.AddIncludedServices | android/src/main/java/com/pauldemarco/flutterblue/ServiceBuilder.java:120-132 | the included-service loop builds each child recursively and stops at the first failure |
| ServiceBuilder.AttachDescriptorsErrSticky | android/src/main/java/com/pauldemarco/flutterblue/ServiceBuilder.java:89-96 | once a descriptor add is refused, no later descriptor changes the outcome |
| ServiceBuilder.AttachCharacteristicsErrSticky | android/src/main/java/com/pauldemarco/flutterblue/ServiceBuilder.java:106-118 | once a characteristic fails, no later characteristic changes the outcome |
| ServiceBuilder.AttachIncludedErrSticky | android/src/main/java/com/pauldemarco/flutterblue/ServiceBuilder.java:120-132 | once an included service fails, no later one changes the outcome |
| ServiceBuilder.AttachDescriptorsSpec | android/src/main/java/com/pauldemarco/flutterblue/ServiceBuilder.java:89-96 | the descriptors are attached exactly when every add is accepted; on success each appears once, in input order, after the existing ones, and nothing else changes |
| ServiceBuilder.BuildCharacteristicSpec | android/src/main/java/com/pauldemarco/flutterblue/ServiceBuilder.java:32-99 | success exactly when no unsupported flag is set and every descriptor add is accepted; an unsupported flag decides the error before any descriptor; a built characteristic has the mask, permissions 0, the copied value and the built descriptors in order |
| ServiceBuilder.AttachCharacteristicsSpec | android/src/main/java/com/pauldemarco/flutterblue/ServiceBuilder.java:106-118 | success exactly when every characteristic builds and is added; otherwise the first failing one decides the error; on success the built characteristics follow in input order |
| ServiceBuilder.AttachIncludedSpec | android/src/main/java/com/pauldemarco/flutterblue/ServiceBuilder.java:120-132 | success exactly when every included service builds and is added; otherwise the first failing one decides the error; on success the built services follow in input order |
| ServiceBuilder.BuildServiceSpec | android/src/main/java/com/pauldemarco/flutterblue/ServiceBuilder.java:101-135 | all-or-nothing: success exactly when every characteristic and every included service succeeds; characteristics are tried before any included service; the built service has the UUID, PRIMARY exactly when isPrimary, and every child once in input order |
| ServiceBuilder.SignedWritesRejectService | android/src/main/java/com/pauldemarco/flutterblue/ServiceBuilder.java:70-75 | a service with any characteristic declaring authenticated signed writes is not built |
| Plugin.Admit | android/src/main/java/com/pauldemarco/flutterblue/FlutterBluePlugin.java:115-118 | without an adapter every request except "isAvailable" is refused with "bluetooth_unavailable" |
| Plugin.FlutterBluePlugin.constructor | android/src/main/java/com/pauldemarco/flutterblue/FlutterBluePlugin.java:78-92 | the plugin starts with no links, no clients, no advertiser, nothing advertised, no server, and the server-active flag false |
| Plugin.FlutterBluePlugin.Connect | android/src/main/java/com/pauldemarco/flutterblue/FlutterBluePlugin.java:249-284 | an address `getRemoteDevice` rejects gives the channel's error reply with the registry unchanged; a registered, connected device gives "already_connected" with the registry unchanged; a registered, disconnected device that reconnects keeps its link; otherwise the stale link is closed and dropped and a new one is created and stored; every success leaves the device registered and no other entry changes; one reply, last |
| Plugin.FlutterBluePlugin.Disconnect | android/src/main/java/com/pauldemarco/flutterblue/FlutterBluePlugin.java:287-309 | the device always leaves the client set; when it was a client and no GATT server is open, the handler throws: the registry is unchanged and the channel replies with an error; otherwise it leaves the registry too, a client's connection is cancelled, the link-level disconnect is skipped when the adapter is off, and the reply is success; an unknown device only gets the reply |
| Plugin.FlutterBluePlugin.OnConnectionStateChange | android/src/main/java/com/pauldemarco/flutterblue/FlutterBluePlugin.java:1064-1071 | the new state is reported first; the link is closed exactly when the state is DISCONNECTED and the device is no longer registered |
| Plugin.FlutterBluePlugin.RequestMtu | android/src/main/java/com/pauldemarco/flutterblue/FlutterBluePlugin.java:354-369 | an unregistered device and a size of zero or less are refused before the stack is asked; success exactly when both checks pass and the stack accepts |
| Plugin.FlutterBluePlugin.LocateGatt | android/src/main/java/com/pauldemarco/flutterblue/FlutterBluePlugin.java:641-647 | the link is found exactly when the device is registered, and the failure is "no connection" |
| Plugin.FlutterBluePlugin.Resolve | android/src/main/java/com/pauldemarco/flutterblue/FlutterBluePlugin.java:427-428 | a resolved path gives the registered link and a characteristic with the requested UUID; an unregistered device gives "no connection"; for a registered device the outcome, value or error, is the characteristic search over that link's own services |
| Plugin.FlutterBluePlugin.ReadCharacteristic | android/src/main/java/com/pauldemarco/flutterblue/FlutterBluePlugin.java:424-438 | a lookup failure replies with its message and calls nothing; otherwise one read call, and success exactly when the stack accepts; no field changes and no pending-operation state is kept |
| Plugin.FlutterBluePlugin.ReadDescriptor | android/src/main/java/com/pauldemarco/flutterblue/FlutterBluePlugin.java:453-469 | a lookup failure, including a missing descriptor named with its characteristic, replies and calls nothing; otherwise one read call, with the stack's answer deciding the reply |
| Plugin.FlutterBluePlugin.WriteCharacteristic | android/src/main/java/com/pauldemarco/flutterblue/FlutterBluePlugin.java:484-511 | as written: a refused local setValue is reported, yet the write type is set, the stack write made and a second reply sent |
| Plugin.FlutterBluePlugin.WriteCharacteristicReplyingOnce | android/src/main/java/com/pauldemarco/flutterblue/FlutterBluePlugin.java:484-511 | with the return after a refused setValue put back: exactly one reply, last, and success exactly when the path resolves, the value is set and the stack accepts |
| Plugin.FlutterBluePlugin.WriteDescriptor | android/src/main/java/com/pauldemarco/flutterblue/FlutterBluePlugin.java:526-548 | as written: a refused local setValue is reported, yet the stack write is made and a second reply sent |
| Plugin.FlutterBluePlugin.WriteDescriptorReplyingOnce | android/src/main/java/com/pauldemarco/flutterblue/FlutterBluePlugin.java:526-548 | with the return put back: exactly one reply, last, and success exactly when the path and descriptor resolve, the value is set and the stack accepts |
| Plugin.Subscribe | android/src/main/java/com/pauldemarco/flutterblue/FlutterBluePlugin.java:597-612 | the notification flag, the CCCD value and the CCCD write, in that order; each step runs only after the previous one succeeded; nothing is rolled back; success exactly when all three succeed |
| Plugin.FlutterBluePlugin.SetNotification | android/src/main/java/com/pauldemarco/flutterblue/FlutterBluePlugin.java:563-612 | a lookup failure (replying with its message), a missing CCCD (named with its characteristic) or an enable on a characteristic that can neither notify nor indicate (replying "the characteristic cannot notify or indicate") is refused with no stack call; otherwise the steps are made with the chosen CCCD value; success exactly when all three succeed |
| Plugin.FlutterBluePlugin.OnDescriptorRead | android/src/main/java/com/pauldemarco/flutterblue/FlutterBluePlugin.java:1117-1149 | for a descriptor of the characteristic, itself in the owning service: one response event naming the device, characteristic and descriptor, with the reverse-searched service path, and a missing value reported as empty |
| Plugin.FlutterBluePlugin.StartAdvertisement | android/src/main/java/com/pauldemarco/flutterblue/FlutterBluePlugin.java:829-893 | refused when already advertised or when the service UUID is empty, with nothing changed; otherwise the flag is left false, the advertiser is fetched, and the stack is asked to advertise, with manufacturer data only when it is non-empty |
| Plugin.FlutterBluePlugin.StopAdvertisement | android/src/main/java/com/pauldemarco/flutterblue/FlutterBluePlugin.java:895-903 | the stack is stopped only when there is an advertiser and advertising was confirmed; afterwards there is no advertiser and the flag is false; the request replies success |
| Plugin.FlutterBluePlugin.OnStartSuccess | android/src/main/java/com/pauldemarco/flutterblue/FlutterBluePlugin.java:971-978 | only this callback sets the advertised flag, and it reports success with error code 0 |
| Plugin.FlutterBluePlugin.OnStartFailure | android/src/main/java/com/pauldemarco/flutterblue/FlutterBluePlugin.java:981-988 | the advertised flag is cleared and the failure reported with its code |
| Plugin.FlutterBluePlugin.StartServer | android/src/main/java/com/pauldemarco/flutterblue/FlutterBluePlugin.java:905-960 | the "already started" guard never answers while the flag is false; an empty root UUID and a failed build are refused with the server untouched; a failed open leaves no server; a refused addService closes it and leaves no server; success installs the built service |
| Plugin.FlutterBluePlugin.StopServer | android/src/main/java/com/pauldemarco/flutterblue/FlutterBluePlugin.java:962-967 | an open server is closed but its reference kept, and the server-active flag is false afterwards; the request replies success |
| Plugin.FlutterBluePlugin.OnServerConnectionStateChange | android/src/main/java/com/pauldemarco/flutterblue/FlutterBluePlugin.java:999-1010 | the client set gains the device on CONNECTED and loses it on any other state; the connected flag is reported |
| Plugin.FlutterBluePlugin.OnDescriptorWriteRequest | android/src/main/java/com/pauldemarco/flutterblue/FlutterBluePlugin.java:1013-1048 | at most one response; an unknown client gets GATT_FAILURE whatever it asked; from a known client a CCCD write of exactly 02 00 gets GATT_FAILURE and any other write GATT_SUCCESS, each only when a response is needed |
| Plugin.FlutterBluePlugin.OnCharacteristicReadRequest | android/src/main/java/com/pauldemarco/flutterblue/FlutterBluePlugin.java:1051-1059 | every read, known client or not, gets GATT_SUCCESS with a null value |
| Plugin.DisconnectTwice | android/src/main/java/com/pauldemarco/flutterblue/FlutterBluePlugin.java:287-309 | after two disconnects the device is in neither collection and the second one succeeds; after a first one that succeeded, the second only replies |
| Plugin.DisconnectThenDisconnectedCallback | android/src/main/java/com/pauldemarco/flutterblue/FlutterBluePlugin.java:296-308 | the stack's DISCONNECTED callback for the old link closes it exactly when the disconnect before it did not throw |
| Plugin.DisconnectedCallbackWhileRegistered | android/src/main/java/com/pauldemarco/flutterblue/FlutterBluePlugin.java:1067-1070 | while the device is still registered, the DISCONNECTED callback only reports the state |
| Plugin.AdvertiseLifecycle | android/src/main/java/com/pauldemarco/flutterblue/FlutterBluePlugin.java:829-903 | start, success callback, a refused second start, a stop that stops the stack, then a start admitted again |
| Plugin.StopThenStartServer | android/src/main/java/com/pauldemarco/flutterblue/FlutterBluePlugin.java:905-911 | the server-active flag stays false, so a start after a stop is never refused as already started |

## Left out

- UUID text: the tree and the requests carry UUIDs as text compared for
  equality. `UUID.fromString` parsing and case normalisation, and the
  exception on malformed text, are not modelled. `uuidToBytes` is modelled
  on an already parsed UUID (two signed 64-bit halves).
- Protocol buffer decoding (`mergeFrom` and its `RuntimeException` reply) and
  the conversions in `ProtoMaker`: requests are already-decoded records, and
  events carry their fields.
- The Flutter channels, `invokeMethodUIThread` and the adapter-state stream:
  events are entries of the returned trace.
- Scanning, the runtime permission flow, log-level filtering and logging.
- Threading: every handler and callback is atomic.
- The other request branches (state, isOn, isServerAvailable,
  getConnectedDevices, deviceState, discoverServices, services,
  servicesServer) and the other client callbacks only forward stack data.
- Plugin.FlutterBluePlugin.Connect: `connectGatt` is assumed to return a link.
  The null return the code does not check is not modelled. Whether
  `getRemoteDevice` accepts the address is a parameter; Android's address
  format check is not modelled.
- The channel's error reply for an exception (`ReplyUncaught`) carries no
  code or message in the model.
- Plugin.FlutterBluePlugin.WriteCharacteristic and WriteDescriptor: the value
  the stack stores is not written back into the modelled attribute tree.
- Plugin.Subscribe: the "error when setting the descriptor value to: "
  message stops at that prefix. The code appends Java's default text of a byte
  array, an object identity.
- ServiceBuilder.AddOutcomes: the stack's answers to `addDescriptor`,
  `addCharacteristic` and `addService` are functions of the (parent UUID,
  child UUID) pair. Two children with the same UUID under one parent get the
  same answer.
- Android's `getService`, `getCharacteristic` and `getDescriptor` are taken
  to return the first attribute with the UUID.

## Findings

| source | as written | input that shows it | evidently intended | confidence | as-written member | corrected member |
|---|---|---|---|---|---|---|
| android/src/main/java/com/pauldemarco/flutterblue/FlutterBluePlugin.java:495-497 | a refused `characteristic.setValue` replies with an error but does not return, so the write type is set, the stack write is made and a second reply (success or "writeCharacteristic failed") is sent on the same `Result` | a request whose path resolves, with the local `setValue` returning false | return after the error reply: one reply per request, and no stack write after the local value was refused | not executed | Plugin.FlutterBluePlugin.WriteCharacteristic | Plugin.FlutterBluePlugin.WriteCharacteristicReplyingOnce |
| android/src/main/java/com/pauldemarco/flutterblue/FlutterBluePlugin.java:539-541 | a refused `descriptor.setValue` replies with an error but does not return, so the stack write is made and a second reply is sent | a request whose path and descriptor resolve, with the local `setValue` returning false | return after the error reply: one reply per request | not executed | Plugin.FlutterBluePlugin.WriteDescriptor | Plugin.FlutterBluePlugin.WriteDescriptorReplyingOnce |
