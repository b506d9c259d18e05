/** The request side of QCoapClient: building requests for each method,
    building discovery URLs, and the validation every request passes before
    it is handed to the protocol.

    QUrl, the QCoapRequest constructor from a URL, QCoapRequest::adjustUrl,
    QCoapRequest::isUrlValid and QHostAddress::isMulticast are outside this
    model; they are given as the functions of a `Collaborators` value. The
    handing of a request to the protocol, a queued call into
    QCoapProtocol::sendRequest, is recorded by appending the reply to the client's `dispatched` list. */
module CoapClient {
  import opened Basics
  import NS = CoapNamespace

  /** QCoapMessage::Type (section 3 of RFC 7252). */
  datatype MessageType = Confirmable | NonConfirmable | Acknowledgement | Reset

  /** The parts of a QUrl this model looks at; `port` is -1 when unset. */
  datatype Url = Url(scheme: string, host: string, port: int, path: string)

  /** The parts of a QCoapRequest this model looks at. */
  datatype Request = Request(
    url: Url,
    requestMethod: NS.Method,
    messageType: MessageType,
    payload: seq<byte>,
    observe: bool)

  datatype ReplyKind = PlainReply | DiscoveryReply

  /** A reply object returned to the caller, with the request it carries. */
  datatype Reply = Reply(kind: ReplyKind, request: Request)

  /** Code this model cannot see, as functions. */
  datatype Collaborators = Collaborators(
    newRequest: Url -> Request,     // QCoapRequest(const QUrl &)
    adjustUrl: (Url, bool) -> Url,  // QCoapRequest::adjustUrl(bool secure)
    isUrlValid: Url -> bool,        // QCoapRequest::isUrlValid
    isMulticast: string -> bool)    // QHostAddress(host).isMulticast()

  /** The client: the security mode of its connection and the replies whose
      requests have been handed to the protocol, oldest first. */
  datatype Client = Client(mode: NS.SecurityMode, dispatched: seq<Reply>)

  /** The result of a client call: the next client and the reply, None for
      a null reply. */
  datatype ClientStep = ClientStep(client: Client, reply: Option<Reply>)

  /** Why send() refused a request, or that it accepted it. */
  datatype SendOutcome = Dispatched | WrongScheme | InvalidUrl | ConfirmableMulticast

  /** The URL scheme a connection accepts. */
  function SchemeFor(mode: NS.SecurityMode): (s: string)
    ensures NS.IsSecureMode(mode) <==> s == "coaps"
    ensures !NS.IsSecureMode(mode) <==> s == "coap"
  {
    if NS.IsSecureMode(mode) then "coaps" else "coap"
  }

  /** A multicast request must be Non-confirmable (section 8.1 of RFC 7252). */
  predicate ConfirmableToMulticast(x: Collaborators, request: Request) {
    x.isMulticast(request.url.host) && request.messageType == Confirmable
  }

  /** A request send() accepts: the connection's scheme, a valid URL, and not
      a confirmable request to a multicast host. */
  predicate Admissible(mode: NS.SecurityMode, x: Collaborators, request: Request) {
    && request.url.scheme == SchemeFor(mode)
    && x.isUrlValid(request.url)
    && !ConfirmableToMulticast(x, request)
  }

  /** send(): the three checks, in QCoapClientPrivate::send's order; the first that fails
      decides the outcome. */
  function Send(mode: NS.SecurityMode, x: Collaborators, request: Request): (r: SendOutcome)
    ensures r == Dispatched <==> Admissible(mode, x, request)
    ensures r == WrongScheme <==> request.url.scheme != SchemeFor(mode)
    ensures r == InvalidUrl <==> request.url.scheme == SchemeFor(mode) && !x.isUrlValid(request.url)
    ensures r == ConfirmableMulticast <==>
              request.url.scheme == SchemeFor(mode) && x.isUrlValid(request.url)
              && ConfirmableToMulticast(x, request)
  {
    if request.url.scheme != SchemeFor(mode) then WrongScheme
    else if !x.isUrlValid(request.url) then InvalidUrl
    else if x.isMulticast(request.url.host) && request.messageType == Confirmable then ConfirmableMulticast
    else Dispatched
  }

  /** Every request handed to the protocol so far passed send()'s checks. */
  ghost predicate AllAdmissible(cl: Client, x: Collaborators) {
    forall i :: 0 <= i < |cl.dispatched| ==> Admissible(cl.mode, x, cl.dispatched[i].request)
  }

  /** sendRequest() and sendDiscovery(): a new reply for the request, handed
      to the protocol and returned when send() accepts it; otherwise the reply
      is dropped, nothing is dispatched, and the result is null. */
  function SendReply(cl: Client, x: Collaborators, kind: ReplyKind, request: Request): (r: ClientStep)
    ensures r.reply.Some? <==> Send(cl.mode, x, request) == Dispatched
    ensures r.reply.Some? ==>
              && r.reply.value == Reply(kind, request)
              && r.client.dispatched == cl.dispatched + [Reply(kind, request)]
    ensures r.reply.None? ==> r.client == cl
    ensures r.client.mode == cl.mode
    ensures AllAdmissible(cl, x) ==> AllAdmissible(r.client, x)
  {
    if Send(cl.mode, x, request) == Dispatched then
      var reply := Reply(kind, request);
      ClientStep(cl.(dispatched := cl.dispatched + [reply]), Some(reply))
    else
      ClientStep(cl, None)
  }

  /** A copy of `request` with the given method and its URL adjusted for the
      connection's security, as every public request method prepares it. */
  function Prepare(cl: Client, x: Collaborators, request: Request, m: NS.Method): (p: Request)
    ensures p.requestMethod == m
    ensures p.url == x.adjustUrl(request.url, NS.IsSecureMode(cl.mode))
    ensures p.messageType == request.messageType && p.payload == request.payload
    ensures p.observe == request.observe
  {
    request.(requestMethod := m, url := x.adjustUrl(request.url, NS.IsSecureMode(cl.mode)))
  }

  /** get(request): a GET with the request's own payload and flags. */
  function Get(cl: Client, x: Collaborators, request: Request): (r: ClientStep)
    ensures r.reply.Some? <==> Admissible(cl.mode, x, Prepare(cl, x, request, NS.Get))
    ensures r.reply.Some? ==> r.reply.value == Reply(PlainReply, Prepare(cl, x, request, NS.Get))
    ensures r.reply.Some? ==> r.reply.value.request.requestMethod == NS.Get
    ensures r.reply.Some? ==> r.client.dispatched == cl.dispatched + [r.reply.value]
    ensures r.client.mode == cl.mode
    ensures r.reply.None? ==> r.client == cl
    ensures AllAdmissible(cl, x) ==> AllAdmissible(r.client, x)
  {
    SendReply(cl, x, PlainReply, Prepare(cl, x, request, NS.Get))
  }

  /** put(request, data): a PUT carrying `data`. */
  function Put(cl: Client, x: Collaborators, request: Request, data: seq<byte>): (r: ClientStep)
    ensures r.reply.Some? <==> Admissible(cl.mode, x, Prepare(cl, x, request.(payload := data), NS.Put))
    ensures r.reply.Some? ==> r.reply.value == Reply(PlainReply, Prepare(cl, x, request.(payload := data), NS.Put))
    ensures r.reply.Some? ==> r.reply.value.request.requestMethod == NS.Put
    ensures r.reply.Some? ==> r.reply.value.request.payload == data
    ensures r.reply.Some? ==> r.client.dispatched == cl.dispatched + [r.reply.value]
    ensures r.client.mode == cl.mode
    ensures r.reply.None? ==> r.client == cl
    ensures AllAdmissible(cl, x) ==> AllAdmissible(r.client, x)
  {
    SendReply(cl, x, PlainReply, Prepare(cl, x, request.(payload := data), NS.Put))
  }

  /** put(request, device): a null device (None) is sent as an empty
      payload; otherwise everything the device holds is. */
  function PutDevice(cl: Client, x: Collaborators, request: Request, device: Option<seq<byte>>): (r: ClientStep)
    ensures r.reply.Some? ==> r.reply.value.request.requestMethod == NS.Put
    ensures device.None? && r.reply.Some? ==> r.reply.value.request.payload == []
    ensures device.Some? && r.reply.Some? ==> r.reply.value.request.payload == device.value
    ensures device.None? ==> r == Put(cl, x, request, [])
    ensures device.Some? ==> r == Put(cl, x, request, device.value)
  {
    match device
    case None => Put(cl, x, request, [])
    case Some(content) => Put(cl, x, request, content)
  }

  /** post(request, data): a POST carrying `data`. */
  function Post(cl: Client, x: Collaborators, request: Request, data: seq<byte>): (r: ClientStep)
    ensures r.reply.Some? <==> Admissible(cl.mode, x, Prepare(cl, x, request.(payload := data), NS.Post))
    ensures r.reply.Some? ==> r.reply.value == Reply(PlainReply, Prepare(cl, x, request.(payload := data), NS.Post))
    ensures r.reply.Some? ==> r.reply.value.request.requestMethod == NS.Post
    ensures r.reply.Some? ==> r.reply.value.request.payload == data
    ensures r.reply.Some? ==> r.client.dispatched == cl.dispatched + [r.reply.value]
    ensures r.client.mode == cl.mode
    ensures r.reply.None? ==> r.client == cl
    ensures AllAdmissible(cl, x) ==> AllAdmissible(r.client, x)
  {
    SendReply(cl, x, PlainReply, Prepare(cl, x, request.(payload := data), NS.Post))
  }

  /** post(request, device): unlike put, a null device yields a null reply
      and nothing is sent. */
  function PostDevice(cl: Client, x: Collaborators, request: Request, device: Option<seq<byte>>): (r: ClientStep)
    ensures device.None? ==> r.reply.None? && r.client == cl
    ensures device.Some? ==> r == Post(cl, x, request, device.value)
  {
    match device
    case None => ClientStep(cl, None)
    case Some(content) => Post(cl, x, request, content)
  }

  /** post(request, device) as its documentation describes it: like put, a
      null device is sent as an empty payload. */
  function PostDeviceAsDocumented(cl: Client, x: Collaborators, request: Request, device: Option<seq<byte>>): (r: ClientStep)
    ensures r.reply.Some? ==> r.reply.value.request.requestMethod == NS.Post
    ensures device.None? && r.reply.Some? ==> r.reply.value.request.payload == []
    ensures device.Some? && r.reply.Some? ==> r.reply.value.request.payload == device.value
    ensures device.None? ==> r == Post(cl, x, request, [])
    ensures device.Some? ==> r == Post(cl, x, request, device.value)
  {
    match device
    case None => Post(cl, x, request, [])
    case Some(content) => Post(cl, x, request, content)
  }

  /** The two readings part on a null device: whenever an empty POST of the
      request would be accepted, post(request, device) as written still
      returns null and dispatches nothing, while the documented behaviour
      dispatches the empty POST. */
  lemma PostNullDeviceRefused(cl: Client, x: Collaborators, request: Request)
    requires Admissible(cl.mode, x, Prepare(cl, x, request.(payload := []), NS.Post))
    ensures PostDevice(cl, x, request, None).reply.None?
    ensures PostDevice(cl, x, request, None).client.dispatched == cl.dispatched
    ensures PostDeviceAsDocumented(cl, x, request, None).reply.Some?
    ensures PostDeviceAsDocumented(cl, x, request, None).client.dispatched
              == cl.dispatched + [Reply(PlainReply, Prepare(cl, x, request.(payload := []), NS.Post))]
  {
  }

  /** deleteResource(request): a DELETE. */
  function DeleteResource(cl: Client, x: Collaborators, request: Request): (r: ClientStep)
    ensures r.reply.Some? <==> Admissible(cl.mode, x, Prepare(cl, x, request, NS.Delete))
    ensures r.reply.Some? ==> r.reply.value == Reply(PlainReply, Prepare(cl, x, request, NS.Delete))
    ensures r.reply.Some? ==> r.reply.value.request.requestMethod == NS.Delete
    ensures r.reply.Some? ==> r.client.dispatched == cl.dispatched + [r.reply.value]
    ensures r.client.mode == cl.mode
    ensures r.reply.None? ==> r.client == cl
    ensures AllAdmissible(cl, x) ==> AllAdmissible(r.client, x)
  {
    SendReply(cl, x, PlainReply, Prepare(cl, x, request, NS.Delete))
  }

  /** observe(request): a GET with the observe flag set, sent through get(),
      so the URL is adjusted once. */
  function Observe(cl: Client, x: Collaborators, request: Request): (r: ClientStep)
    ensures r == Get(cl, x, request.(requestMethod := NS.Get, observe := true))
    ensures r.reply.Some? ==> r.reply.value.request.requestMethod == NS.Get && r.reply.value.request.observe
    ensures r.reply.Some? ==> r.reply.value.request.url == x.adjustUrl(request.url, NS.IsSecureMode(cl.mode))
    ensures r.reply.Some? ==> r.reply.value.request.payload == request.payload
  {
    Get(cl, x, request.(requestMethod := NS.Get, observe := true))
  }

  // ---------------------------------------------------------------------
  // The QUrl overloads: each builds a request from the URL and delegates.

  function GetUrl(cl: Client, x: Collaborators, url: Url): (r: ClientStep)
    ensures r.reply.Some? ==> r.reply.value.request.requestMethod == NS.Get
    ensures r == Get(cl, x, x.newRequest(url))
  {
    Get(cl, x, x.newRequest(url))
  }

  function PutUrl(cl: Client, x: Collaborators, url: Url, data: seq<byte>): (r: ClientStep)
    ensures r.reply.Some? ==> r.reply.value.request.requestMethod == NS.Put && r.reply.value.request.payload == data
    ensures r == Put(cl, x, x.newRequest(url), data)
  {
    Put(cl, x, x.newRequest(url), data)
  }

  function PostUrl(cl: Client, x: Collaborators, url: Url, data: seq<byte>): (r: ClientStep)
    ensures r.reply.Some? ==> r.reply.value.request.requestMethod == NS.Post && r.reply.value.request.payload == data
    ensures r == Post(cl, x, x.newRequest(url), data)
  {
    Post(cl, x, x.newRequest(url), data)
  }

  function DeleteResourceUrl(cl: Client, x: Collaborators, url: Url): (r: ClientStep)
    ensures r.reply.Some? ==> r.reply.value.request.requestMethod == NS.Delete
    ensures r == DeleteResource(cl, x, x.newRequest(url))
  {
    DeleteResource(cl, x, x.newRequest(url))
  }

  function ObserveUrl(cl: Client, x: Collaborators, url: Url): (r: ClientStep)
    ensures r.reply.Some? ==> r.reply.value.request.requestMethod == NS.Get && r.reply.value.request.observe
    ensures r == Observe(cl, x, x.newRequest(url))
  {
    Observe(cl, x, x.newRequest(url))
  }

  // ---------------------------------------------------------------------
  // Discovery

  /** The discovery path used when the caller gives none (section 1.2.1 of
      RFC 6690). */
  const DefaultDiscoveryPath: string := "/.well-known/core"

  /** The "All CoAP Nodes" address of each multicast group (section 12.8 of
      RFC 7252). */
  function GroupAddress(g: NS.MulticastGroup): (a: string)
    ensures g == NS.AllCoapNodesIPv4 <==> '.' in a
    ensures g == NS.AllCoapNodesIPv4 ==> a == "224.0.1.187"
    // IPv6 multicast ff0s::fd, where s is the scope (section 2.7 of RFC 4291)
    ensures g != NS.AllCoapNodesIPv4 ==> |a| == 8 && a[..3] == "ff0" && a[4..] == "::fd"
    ensures g == NS.AllCoapNodesIPv6LinkLocal ==> a[3] == '2'
    ensures g == NS.AllCoapNodesIPv6SiteLocal ==> a[3] == '5'
  {
    match g
    case AllCoapNodesIPv4 => "224.0.1.187"
    case AllCoapNodesIPv6LinkLocal => "ff02::fd"
    case AllCoapNodesIPv6SiteLocal => "ff05::fd"
  }

  /** The group whose address is `host`, if any: the inverse of GroupAddress,
      so no two groups share an address. */
  function GroupOfAddress(host: string): (r: Option<NS.MulticastGroup>)
    ensures forall g :: r == Some(g) <==> GroupAddress(g) == host
  {
    if host == "224.0.1.187" then Some(NS.AllCoapNodesIPv4)
    else if host == "ff02::fd" then Some(NS.AllCoapNodesIPv6LinkLocal)
    else if host == "ff05::fd" then Some(NS.AllCoapNodesIPv6SiteLocal)
    else None
  }

  /** The URL discover(group, port, path) starts from: no scheme, the group's
      address as host, and the given port and path. */
  function GroupDiscoveryUrl(g: NS.MulticastGroup, port: int, path: string): (u: Url)
    ensures GroupOfAddress(u.host) == Some(g)
    ensures u.scheme == "" && u.port == port && u.path == path
  {
    Url("", GroupAddress(g), port, path)
  }

  /** The URL discover(url, path) starts from: `url` with `path` appended to
      its own path, and nothing else changed. */
  function ResourceDiscoveryUrl(url: Url, discoveryPath: string): (u: Url)
    ensures u.path == url.path + discoveryPath
    ensures u.path[..|url.path|] == url.path && u.path[|url.path|..] == discoveryPath
    ensures u.scheme == url.scheme && u.host == url.host && u.port == url.port
  {
    url.(path := url.path + discoveryPath)
  }

  /** The GET request a discovery sends for a starting URL: the request the
      constructor builds, with only its method and URL changed. */
  function DiscoveryRequest(cl: Client, x: Collaborators, u: Url): (p: Request)
    ensures p == Prepare(cl, x, x.newRequest(u), NS.Get)
    ensures p.requestMethod == NS.Get
    ensures p.url == x.adjustUrl(x.newRequest(u).url, NS.IsSecureMode(cl.mode))
    ensures p.messageType == x.newRequest(u).messageType
    ensures p.payload == x.newRequest(u).payload && p.observe == x.newRequest(u).observe
  {
    var request := x.newRequest(u).(requestMethod := NS.Get);
    request.(url := x.adjustUrl(request.url, NS.IsSecureMode(cl.mode)))
  }

  /** discover(group, port, path): a GET discovery to the group's address. */
  function DiscoverGroup(cl: Client, x: Collaborators, g: NS.MulticastGroup := NS.AllCoapNodesIPv4, port: int,
                         path: string := DefaultDiscoveryPath): (r: ClientStep)
    ensures r.reply.Some? <==> Admissible(cl.mode, x, DiscoveryRequest(cl, x, GroupDiscoveryUrl(g, port, path)))
    ensures r.reply.Some? ==>
              r.reply.value == Reply(DiscoveryReply, DiscoveryRequest(cl, x, GroupDiscoveryUrl(g, port, path)))
    ensures r.reply.Some? ==> r.client.dispatched == cl.dispatched + [r.reply.value]
    ensures r.client.mode == cl.mode
    ensures r.reply.None? ==> r.client == cl
    ensures AllAdmissible(cl, x) ==> AllAdmissible(r.client, x)
  {
    SendReply(cl, x, DiscoveryReply, DiscoveryRequest(cl, x, GroupDiscoveryUrl(g, port, path)))
  }

  /** discover(url, path): a GET discovery to `url` with `path` appended. */
  function DiscoverUrl(cl: Client, x: Collaborators, url: Url, path: string := DefaultDiscoveryPath): (r: ClientStep)
    ensures r.reply.Some? <==> Admissible(cl.mode, x, DiscoveryRequest(cl, x, ResourceDiscoveryUrl(url, path)))
    ensures r.reply.Some? ==>
              r.reply.value == Reply(DiscoveryReply, DiscoveryRequest(cl, x, ResourceDiscoveryUrl(url, path)))
    ensures r.reply.Some? ==> r.client.dispatched == cl.dispatched + [r.reply.value]
    ensures r.client.mode == cl.mode
    ensures r.reply.None? ==> r.client == cl
    ensures AllAdmissible(cl, x) ==> AllAdmissible(r.client, x)
  {
    SendReply(cl, x, DiscoveryReply, DiscoveryRequest(cl, x, ResourceDiscoveryUrl(url, path)))
  }

  /** Omitted arguments: the group defaults to AllCoapNodesIPv4 and the
      discovery path to /.well-known/core. */
  lemma DiscoveryDefaults(cl: Client, x: Collaborators, port: int, url: Url)
    ensures DiscoverGroup(cl, x, port := port) == DiscoverGroup(cl, x, NS.AllCoapNodesIPv4, port, "/.well-known/core")
    ensures DiscoverUrl(cl, x, url) == DiscoverUrl(cl, x, url, "/.well-known/core")
    ensures DiscoverUrl(cl, x, url).reply.Some? ==>
              DiscoverUrl(cl, x, url).reply.value.request.url
                == x.adjustUrl(x.newRequest(url.(path := url.path + "/.well-known/core")).url, NS.IsSecureMode(cl.mode))
  {
  }

  /** When the request constructor keeps the group discovery URL and
      adjustUrl keeps its host, port and path, a group discovery that is dispatched goes to the group's
      address with the given port and path. */
  lemma GroupDiscoveryTarget(cl: Client, x: Collaborators, g: NS.MulticastGroup, port: int, path: string)
    requires var u := GroupDiscoveryUrl(g, port, path); x.newRequest(u).url == u
    requires var u := GroupDiscoveryUrl(g, port, path);
             var a := x.adjustUrl(u, NS.IsSecureMode(cl.mode));
             a.host == u.host && a.port == u.port && a.path == u.path
    requires DiscoverGroup(cl, x, g, port, path).reply.Some?
    ensures var u := DiscoverGroup(cl, x, g, port, path).reply.value.request.url;
            GroupOfAddress(u.host) == Some(g) && u.port == port && u.path == path
  {
  }

  /** A discovery to a multicast group is refused whenever the request
      constructor makes it Confirmable and the host stays multicast. */
  lemma ConfirmableGroupDiscoveryRefused(cl: Client, x: Collaborators, g: NS.MulticastGroup, port: int, path: string)
    requires DiscoveryRequest(cl, x, GroupDiscoveryUrl(g, port, path)).messageType == Confirmable
    requires x.isMulticast(DiscoveryRequest(cl, x, GroupDiscoveryUrl(g, port, path)).url.host)
    ensures DiscoverGroup(cl, x, g, port, path).reply.None?
    ensures DiscoverGroup(cl, x, g, port, path).client == cl
  {
  }
}
