# QtCoap connection and client request core, in Dafny

This project models the core of the QtCoap client library:

- `QCoapConnection`, the transport-agnostic connection. It has a security
  mode fixed at construction and a transport state (`Unconnected` or
  `Bound`). It keeps a FIFO queue of outbound frames `(pdu, host, port)` and
  one security-configuration slot. `sendRequest` always enqueues. While
  unconnected it registers one more handler on the `bound` signal and calls
  the transport's `bind`. Once bound it writes the queue head with
  `writeData`. Handlers are never disconnected. Every handler sets the state
  to `Bound` and dequeues one frame, so one `bound` emission runs all of them.
- The request side of `QCoapClient`. Each public request method selects its
  method: GET, PUT, POST, DELETE, or an observing GET. `put` and `post` treat
  a null device differently. Discovery builds its URL from a multicast group
  or from a base URL. `send` checks the URL scheme against the security mode,
  then the URL's validity, then refuses a Confirmable request to a multicast
  host (section 8.1 of RFC 7252). A refused request gives a null reply.
- The `QtCoap` enumerations: response codes encoded as class and detail
  (sections 3 and 12.1.2 of RFC 7252), the error table from which both
  `ResponseCode` and `Error` are generated, methods, default ports (5683 and
  5684), security modes (`NoSec` = 0) and multicast groups.

Modules:

- `Basics` (basics.dfy): `Option`, `byte`, `uint16`, `uint8`.
- `CoapNamespace` (coap_namespace.dfy): the enumerations. Each one except
  `Port` has a numeric value and a decoder proved to be its exact inverse.
  `Port` has two members, so it is the constants `DefaultPort` and
  `DefaultSecurePort` with no decoder.
- `CoapConnection` (coap_connection.dfy): the connection record and its
  pure step functions. Each step returns the next connection and the events
  it caused: `bind` calls, `writeData` calls, and `securityConfigurationChanged`
  emissions.
- `ConnectionTraces` (connection_traces.dfy): sequences of sends, `bound`
  emissions and configuration writes, with the run-level properties: FIFO
  delivery, the queue invariant, the mode never changing, and
  configuration writes being gated by the mode.
- `CoapClient` (coap_client.dfy): the validator, the request builders and
  discovery.

Code the model cannot see is passed in as parameters. In the client, the
`Collaborators` value supplies these as functions: the `QCoapRequest`
constructor from a URL, `adjustUrl`, `isUrlValid` and
`QHostAddress::isMulticast`. In the connection, `bind` and `writeData` are
recorded as events, and the `bound` signal is a separate step
(`EmitBound`). The security configuration type is a type parameter. `None`
stands for a default-constructed configuration.

The `securityMode()` and `state()` accessors are the `mode` and `state`
fields of the connection record.

Three points of the behaviour as written are easy to misread:

- The initial state is `Unconnected`; nothing ever leads back to it.
- One `bound` emission does not deliver just one frame. It runs every
  registered handler, and there is one handler per send made while
  unconnected. So one emission writes every queued frame, in order
  (`EmitBound`, `EmitBoundOnConsistent`).
- There is no intermediate "binding" state: every send made before the first
  emission calls `bind` again and adds another handler.

## Model

| member | source | states |
|---|---|---|
| CoapNamespace.ClassDetail | src/coap/qcoapnamespace.h:52-59 | the code c.dd is the 8-bit value whose class part is c and detail part is dd |
| CoapNamespace.Position | src/coap/qcoapnamespace.h:40-46 | every entry of the error table has a position below the table size (17) |
| CoapNamespace.NameAt | src/coap/qcoapnamespace.h:40-46 | the table entry at a position is the unique entry with that position; positions 0..16 all hold one |
| CoapNamespace.ErrorCode | src/coap/qcoapnamespace.h:40-46 | every error-table code lies in 0x80..0xA5 and is in class 4 or class 5; the first 11 entries are class 4 |
| CoapNamespace.NameWithCode | src/coap/qcoapnamespace.h:40-46 | decoding a code finds exactly the entry with that code, so no two entries share a value |
| CoapNamespace.CodeValue | src/coap/qcoapnamespace.h:52-66 | EmptyMessage is exactly 0x00 and InvalidCode exactly 0xFF; a code is a success code iff its class is 2 and an error code iff its class is 4 or 5 |
| CoapNamespace.CodeFromValue | src/coap/qcoapnamespace.h:52-66 | decoding a value yields exactly the response code with that value, and nothing for other values |
| CoapNamespace.SuccessCodesClassDetail | src/coap/qcoapnamespace.h:54-59 | Created..Content are 2.01..2.05 and Continue is 2.31 |
| CoapNamespace.CodeValueInjective | src/coap/qcoapnamespace.h:52-66 | no two response codes share a value, including EmptyMessage and InvalidCode against every other code |
| CoapNamespace.ErrorValue | src/coap/qcoapnamespace.h:69-80 | the `<Name>Error` values come directly after TimeOutError (3), in table order; UnknownError comes right after the last one |
| CoapNamespace.ErrorFromValue | src/coap/qcoapnamespace.h:69-80 | decoding an Error value yields exactly the error with that value, and nothing for other values |
| CoapNamespace.ErrorsMirrorErrorCodes | src/coap/qcoapnamespace.h:61-77 | the Error and ResponseCode entries generated from the table correspond one to one and are ordered alike |
| CoapNamespace.MethodValue | src/coap/qcoapnamespace.h:83-97 | Invalid is the only method with value 0; values run up to 5 (Other) |
| CoapNamespace.MethodFromValue | src/coap/qcoapnamespace.h:83-97 | decoding yields exactly the method with that value |
| CoapNamespace.ModeValue | src/coap/qcoapnamespace.h:106-111 | NoSec is the only mode with value 0 |
| CoapNamespace.ModeFromValue | src/coap/qcoapnamespace.h:106-111 | decoding yields exactly the security mode with that value |
| CoapNamespace.IsSecureMode | src/coap/qcoapnamespace.h:106-111 | a mode is secure iff its value is not 0, that is iff it is PreSharedKey, RawPublicKey or Certificate |
| CoapNamespace.GroupValue | src/coap/qcoapnamespace.h:114-118 | the three groups have values below 3 |
| CoapNamespace.GroupFromValue | src/coap/qcoapnamespace.h:114-118 | decoding yields exactly the group with that value |
| CoapConnection.Create | src/coap/qcoapconnection.cpp:112-115 | a new connection keeps the given mode and is unconnected, with no frames, no handlers and the default configuration; it satisfies the queue invariant |
| CoapConnection.IsSecure | src/coap/qcoapconnection.cpp:178-182 | isSecure() holds iff the mode is not NoSec, that is iff its value is not 0 |
| CoapConnection.StartToSendRequest | src/coap/qcoapconnection.cpp:208-215 | requires a non-empty queue; removes only the head, passes its pdu, host and port unchanged to writeData, and leaves the rest of the queue and the other fields alone |
| CoapConnection.SendRequest | src/coap/qcoapconnection.cpp:155-173 | the frame goes to the tail of the queue; while unconnected it calls bind(host, port) and adds one handler, with no write and no state change; while bound it calls no bind and writes the queue head; from a consistent connection that is bound it writes exactly the new frame and leaves the queue empty |
| CoapConnection.RunHandlers | src/coap/qcoapconnection.cpp:164-168 | k handlers succeed iff at least k frames are queued; then they write the first k frames in order, drop exactly those, and leave the state Bound (if k > 0) |
| CoapConnection.EmitBound | src/coap/qcoapconnection.cpp:164-168 | one bound emission succeeds iff no handler finds the queue empty (the assertion at line 212); it writes as many frames as there are handlers, in queue order, and sets Bound if any handler ran |
| CoapConnection.SetSecurityConfiguration | src/coap/qcoapconnection.cpp:224-234 | when secure, securityConfiguration() afterwards returns the new value and one change notification is emitted; when insecure, the connection is unchanged and nothing is emitted; queue, state and mode are untouched |
| ConnectionTraces.StepFifo | src/coap/qcoapconnection.cpp:160-171 | in every step, the frames written followed by the new queue equal the old queue followed by the frame sent |
| ConnectionTraces.StepConsistent | src/coap/qcoapconnection.cpp:156-172 | every step keeps the queue invariant |
| ConnectionTraces.StepChanged | src/coap/qcoapconnection.cpp:228-233 | a step emits a change notification iff it is a configuration write on a secure connection, and then exactly one |
| ConnectionTraces.ExecKeepsMode | src/coap/qcoapconnection.cpp:112-115 | no run changes the security mode |
| ConnectionTraces.ExecKeepsConsistent | src/coap/qcoapconnection.cpp:156-172 | the queue invariant holds after every run: one handler per queued frame while unconnected, an empty queue once bound |
| ConnectionTraces.ExecFifo | src/coap/qcoapconnection.cpp:160-171 | over any run, the frames written followed by the frames still queued equal the frames queued before followed by the frames sent, in order |
| ConnectionTraces.WrittenIsPrefixOfSent | src/coap/qcoapconnection.cpp:208-215 | from construction, the frames written are a prefix of the frames sent, and the rest of them are still queued |
| ConnectionTraces.ExecChangedCount | src/coap/qcoapconnection.cpp:224-234 | over any run, the number of change notifications is the number of configuration writes if secure and zero otherwise |
| ConnectionTraces.InsecureConfigUnchanged | src/coap/qcoapconnection.cpp:231-233 | on an insecure connection no run changes what securityConfiguration() returns |
| ConnectionTraces.ExecLastConfiguration | src/coap/qcoapconnection.cpp:224-243 | on a secure connection, securityConfiguration() after any run returns the value of the last configuration write, or what it returned before when there was none; sends and bound emissions never change it |
| ConnectionTraces.UnconnectedSendsOnlyQueue | src/coap/qcoapconnection.cpp:163-169 | sends while unconnected keep every frame queued in order, add one handler per send, make exactly one bind call per send with that send's host and port, and write nothing |
| ConnectionTraces.EmitBoundOnConsistent | src/coap/qcoapconnection.cpp:164-168 | on a consistent unconnected connection one bound emission writes every queued frame in order and leaves the queue empty; on a bound one it fails as soon as any handler is registered |
| ConnectionTraces.ReboundFails | src/coap/qcoapconnection.cpp:164-168 | after one send and one bound emission, a second bound emission runs the old handler on an empty queue and fails the assertion |
| ConnectionTraces.DoubleBindFails | src/coap/qcoapconnection.cpp:160-168 | two sends while unconnected make two bind calls; a first bound emission then writes both frames, and a second one fails the assertion |
| ConnectionTraces.ScenarioSendThenBound | src/coap/qcoapconnection.cpp:155-173 | send while unconnected queues the frame and calls bind; the bound emission then writes it and leaves the connection bound with an empty queue |
| ConnectionTraces.ScenarioInsecureConfigure | src/coap/qcoapconnection.cpp:224-234 | a configuration write on a NoSec connection emits nothing and keeps the default configuration |
| CoapClient.SchemeFor | src/coap/qcoapclient.cpp:559 | a connection accepts "coaps" iff it is secure and "coap" iff it is not |
| CoapClient.Send | src/coap/qcoapclient.cpp:557-584 | send accepts iff the scheme matches, the URL is valid and the request is not a Confirmable request to a multicast host; each refusal reason holds exactly when the checks before it passed and its own check failed |
| CoapClient.SendReply | src/coap/qcoapclient.cpp:516-550 | a reply is returned and dispatched iff send accepts; otherwise the result is null and the client is unchanged; every dispatched request remains one that send accepted |
| CoapClient.Prepare | src/coap/qcoapclient.cpp:239-240 | the copied request has the chosen method and the URL adjusted for the connection's security, and keeps type, payload and observe flag |
| CoapClient.Get | src/coap/qcoapclient.cpp:235-243 | get sends a GET of the adjusted request; it succeeds iff that request passes send, and then appends exactly that reply to the dispatched requests; the mode never changes and a refusal changes nothing |
| CoapClient.Put | src/coap/qcoapclient.cpp:264-273 | put sends a copy of the request with the given data, method PUT and the adjusted URL, keeping type and observe flag; it succeeds iff that request passes send, and then appends exactly that reply to the dispatched requests; the mode never changes and a refusal changes nothing |
| CoapClient.PutDevice | src/coap/qcoapclient.cpp:286-289 | a null device sends a PUT with an empty payload; otherwise the device's content is the payload |
| CoapClient.Post | src/coap/qcoapclient.cpp:310-319 | post sends a copy of the request with the given data, method POST and the adjusted URL, keeping type and observe flag; it succeeds iff that request passes send, and then appends exactly that reply to the dispatched requests; the mode never changes and a refusal changes nothing |
| CoapClient.PostDevice | src/coap/qcoapclient.cpp:332-338 | a null device yields a null reply and dispatches nothing; otherwise the device's content is posted |
| CoapClient.PostDeviceAsDocumented | src/coap/qcoapclient.cpp:322-331 | as documented, a null device sends a POST with an empty payload; otherwise the device's content is the payload |
| CoapClient.PostNullDeviceRefused | src/coap/qcoapclient.cpp:332-338 | for a null device and a request whose empty POST send accepts, post as written returns null and dispatches nothing, while the documented behaviour dispatches the empty POST |
| CoapClient.DeleteResource | src/coap/qcoapclient.cpp:359-367 | deleteResource sends a DELETE of the adjusted request; it succeeds iff that request passes send, and then appends exactly that reply to the dispatched requests; the mode never changes and a refusal changes nothing |
| CoapClient.Observe | src/coap/qcoapclient.cpp:459-465 | observe sends a GET with the observe flag set; its URL is adjusted once and its payload is kept |
| CoapClient.GetUrl | src/coap/qcoapclient.cpp:252-256 | get(url) sends a GET of the request built from the URL |
| CoapClient.PutUrl | src/coap/qcoapclient.cpp:299-302 | put(url, data) sends a PUT carrying the data |
| CoapClient.PostUrl | src/coap/qcoapclient.cpp:348-351 | post(url, data) sends a POST carrying the data |
| CoapClient.DeleteResourceUrl | src/coap/qcoapclient.cpp:376-379 | deleteResource(url) sends a DELETE |
| CoapClient.ObserveUrl | src/coap/qcoapclient.cpp:476-479 | observe(url) sends an observing GET |
| CoapClient.GroupAddress | src/coap/qcoapclient.cpp:402-412 | IPv4 is the only group with a dotted address, 224.0.1.187; the IPv6 groups are the ff0s::fd multicast addresses with scope 2 (link-local) and 5 (site-local) |
| CoapClient.GroupOfAddress | src/coap/qcoapclient.cpp:402-412 | the group addresses 224.0.1.187, ff02::fd and ff05::fd are pairwise distinct, and each address names exactly its group |
| CoapClient.GroupDiscoveryUrl | src/coap/qcoapclient.cpp:414-417 | the group discovery URL has the group's address as host, the given port and path, and no scheme |
| CoapClient.ResourceDiscoveryUrl | src/coap/qcoapclient.cpp:442-443 | the discovery URL is the given URL with its own path followed by the discovery path, and nothing else changed |
| CoapClient.DiscoveryRequest | src/coap/qcoapclient.cpp:419-421 | a discovery request is the request the constructor builds from the discovery URL, set to GET with its URL adjusted for the connection's security; its message type, payload and observe flag are the constructor's |
| CoapClient.DiscoverGroup | src/coap/qcoapclient.cpp:396-424 | discover(group, port, path) returns a discovery reply iff its GET request passes send, and then appends exactly that reply to the dispatched requests; otherwise a null reply with no dispatch; the mode never changes |
| CoapClient.DiscoverUrl | src/coap/qcoapclient.cpp:438-450 | discover(url, path) returns a discovery reply iff its GET request passes send, and then appends exactly that reply to the dispatched requests; otherwise a null reply with no dispatch; the mode never changes |
| CoapClient.DiscoveryDefaults | src/coap/qcoapclient.cpp:387-391 | an omitted group is AllCoapNodesIPv4 and an omitted discovery path is /.well-known/core, for both discover overloads |
| CoapClient.GroupDiscoveryTarget | src/coap/qcoapclient.cpp:402-423 | if the request constructor keeps the group discovery URL, and adjustUrl keeps its host, port and path, then a dispatched group discovery targets that group's address with the given port and path |
| CoapClient.ConfirmableGroupDiscoveryRefused | src/coap/qcoapclient.cpp:570-577 | a group discovery whose request is Confirmable to a multicast host is refused with no dispatch |

## Findings

| source | as written | input that shows it | evidently intended | confidence | as-written member | corrected member |
|---|---|---|---|---|---|---|
| src/coap/qcoapclient.cpp:322-338 | `post(request, device)` returns nullptr for a null device | a null device with a request whose empty POST `send` accepts | the documentation says a null device is treated as empty content, as `put(request, device)` does at line 288 | low: the comment may be the stale part; not executed | CoapClient.PostDevice, CoapClient.PostNullDeviceRefused | CoapClient.PostDeviceAsDocumented |

## Left out

- Threads: the worker thread, `moveToThread`, and the queued
  `QMetaObject::invokeMethod` calls. Every call is treated as one synchronous
  step. The protocol's `sendRequest` is recorded by appending the reply to
  `Client.dispatched`.
- Qt signal and slot wiring: the client constructor's connections, the
  `readyRead` and `error` signals of the connection, and the logging
  categories. A `qCWarning` diagnostic is not an event in the model. A send
  refusal is returned as a `SendOutcome` reason instead of the `false`
  that `QCoapClientPrivate::send` returns.
- The bodies of the pure-virtual `bind` and `writeData`. They are trace
  events only. A transport that emits `bound` from inside `bind` is modelled
  as a `bind` event followed by a separate `EmitBound` step.
- `QUrl` parsing, the `QCoapRequest` constructor from a URL,
  `QCoapRequest::adjustUrl` and `isUrlValid`, and `QHostAddress::isMulticast`.
  They are not part of this model and are passed in as `Collaborators`
  functions. `send` tests multicast on the reply's URL host (line 572) and
  the scheme on the request's URL. `QCoapReply::url` is not part of this
  model, so both are taken from the request's URL.
- `EmitBound`: in a release build `QCoapConnection::startToSendRequest`
  dequeues from an empty queue,
  which is undefined behaviour. The model returns `None` for it, the same
  as for the failed assertion.
- `isError`, `responseCodeError` and `randomGenerator`. They are declared in
  qcoapnamespace.h, but their definitions are not part of this model.
- The protocol (qcoapprotocol.h, qcoapprotocol_p.h): retransmission,
  timeouts, block-wise transfer and exchange bookkeeping. Only their
  declarations are available. `ackRandomFactor` is a floating-point value.
- The client's forwarding setters: `setSecurityConfiguration`,
  `setBlockSize`, `setSocketOption`, `setMaxServerResponseDelay`,
  `setAckTimeout`, `setAckRandomFactor` and `setMaxRetransmit`. Each one is
  only a queued call into the connection or the protocol. The connection's
  own `SetSecurityConfiguration` is modelled.
- The default port of `discover(group, port, path)`. Default arguments are
  declared in qcoapclient.h, which is not part of this model; only the
  defaults that qcoapclient.cpp documents (the group and the discovery path)
  are modelled, so `DiscoverGroup` always takes a port.
- `cancelObserve` (both overloads). It is a queued call into the protocol,
  whose behaviour is not part of this model.
- Destructors and object ownership: freeing replies, the thread, the
  protocol and the connection.
