/** The transport-agnostic connection of QCoapConnection.

    A connection is an immutable record: its security mode (fixed when it is
    created), the transport state, the number of handlers registered on the
    `bound` signal, the FIFO queue of frames waiting to be written, and the
    single-slot security configuration. Every operation is a pure step that
    returns the next connection together with the events it caused, in order:
    the calls of the pure-virtual `bind` and `writeData` transport hooks and
    the emissions of `securityConfigurationChanged`.

    The configuration type is a type parameter: its contents belong to the
    secure transport and are never looked at here. */
module CoapConnection {
  import opened Basics
  import opened CoapNamespace

  datatype ConnectionState = Unconnected | Bound

  /** One outbound frame: the encoded PDU and its destination. */
  datatype Frame = Frame(pdu: seq<byte>, host: string, port: uint16)

  /** What a step makes visible outside the connection. */
  datatype Event =
    | BindCalled(host: string, port: uint16)
    | WriteDataCalled(pdu: seq<byte>, host: string, port: uint16)
    | SecurityConfigurationChanged

  /** `config` is None while the configuration is the default-constructed one. */
  datatype Connection<C> = Connection(
    mode: SecurityMode,
    state: ConnectionState,
    handlers: nat,
    queue: seq<Frame>,
    config: Option<C>)

  /** A step's result: the next connection and the events it produced. */
  datatype Step<C> = Step(conn: Connection<C>, events: seq<Event>)

  /** The writeData call that hands `f` to the transport, with its PDU, host
      and port unchanged. */
  function WriteOf(f: Frame): Event {
    WriteDataCalled(f.pdu, f.host, f.port)
  }

  /** The writeData calls for `fs`, in order. */
  function WritesOf(fs: seq<Frame>): seq<Event> {
    seq(|fs|, i requires 0 <= i < |fs| => WriteOf(fs[i]))
  }

  /** Writing two runs of frames is writing the first run, then the second. */
  lemma WritesOfAppend(a: seq<Frame>, b: seq<Frame>)
    ensures WritesOf(a + b) == WritesOf(a) + WritesOf(b)
  {
    assert forall i :: 0 <= i < |a + b| ==> WritesOf(a + b)[i] == (WritesOf(a) + WritesOf(b))[i];
  }

  /** The state every reachable connection is in between two calls: while
      unconnected, one `bound` handler per queued frame; once bound, nothing
      left in the queue. */
  ghost predicate Consistent<C>(c: Connection<C>) {
    && (c.state == Unconnected ==> |c.queue| == c.handlers)
    && (c.state == Bound ==> c.queue == [])
  }

  /** A newly constructed connection: unconnected, with the given mode. */
  function Create<C>(mode: SecurityMode): (c: Connection<C>)
    ensures c.mode == mode && c.state == Unconnected
    ensures c.queue == [] && c.handlers == 0 && c.config == None
    ensures Consistent(c)
  {
    Connection(mode, Unconnected, 0, [], None)
  }

  /** isSecure(): whether the mode is anything but NoSec. */
  predicate IsSecure<C>(c: Connection<C>)
    ensures IsSecure(c) <==> c.mode != NoSec
    ensures IsSecure(c) <==> ModeValue(c.mode) != 0
  {
    IsSecureMode(c.mode)
  }

  /** securityConfiguration(): the last stored value, None for the default. */
  function SecurityConfiguration<C>(c: Connection<C>): Option<C> {
    c.config
  }

  /** startToSendRequest(): the queue must not be empty (a Q_ASSERT in
      QCoapConnection::startToSendRequest). Removes the head and only the head, and writes it unchanged. */
  function StartToSendRequest<C>(c: Connection<C>): (r: Step<C>)
    requires |c.queue| > 0
    ensures [c.queue[0]] + r.conn.queue == c.queue
    ensures r.events == [WriteDataCalled(c.queue[0].pdu, c.queue[0].host, c.queue[0].port)]
    ensures r.conn.mode == c.mode && r.conn.state == c.state
    ensures r.conn.handlers == c.handlers && r.conn.config == c.config
  {
    Step(c.(queue := c.queue[1..]), [WriteOf(c.queue[0])])
  }

  /** sendRequest(): enqueues the frame; then either registers one more
      `bound` handler and calls bind (unconnected) or writes the queue head
      right away (bound). */
  function SendRequest<C>(c: Connection<C>, pdu: seq<byte>, host: string, port: uint16): (r: Step<C>)
    ensures r.conn.mode == c.mode && r.conn.config == c.config
    ensures c.state == Unconnected ==>
              && r.events == [BindCalled(host, port)]
              && r.conn.state == Unconnected
              && r.conn.handlers == c.handlers + 1
              && r.conn.queue == c.queue + [Frame(pdu, host, port)]
    ensures c.state == Bound ==>
              && r.conn.state == Bound
              && r.conn.handlers == c.handlers
              && [(c.queue + [Frame(pdu, host, port)])[0]] + r.conn.queue == c.queue + [Frame(pdu, host, port)]
              && r.events == [WriteOf((c.queue + [Frame(pdu, host, port)])[0])]
    ensures Consistent(c) ==> Consistent(r.conn)
    ensures Consistent(c) && c.state == Bound ==>
              r.events == [WriteDataCalled(pdu, host, port)] && r.conn.queue == []
  {
    var queued := c.(queue := c.queue + [Frame(pdu, host, port)]);
    if c.state == Unconnected then
      Step(queued.(handlers := c.handlers + 1), [BindCalled(host, port)])
    else
      StartToSendRequest(queued)
  }

  /** One emission of `bound`: every registered handler runs, in order; each
      sets the state to Bound and calls startToSendRequest. None when a
      handler finds the queue empty, where the Q_ASSERT in
      QCoapConnection::startToSendRequest fails. */
  function EmitBound<C>(c: Connection<C>): (r: Option<Step<C>>)
    ensures r.Some? <==> c.handlers <= |c.queue|
    ensures r.Some? ==>
              && r.value.events == WritesOf(c.queue[..c.handlers])
              && r.value.conn.queue == c.queue[c.handlers..]
              && r.value.conn.state == (if c.handlers == 0 then c.state else Bound)
              && r.value.conn.mode == c.mode
              && r.value.conn.handlers == c.handlers
              && r.value.conn.config == c.config
  {
    RunHandlers(c, c.handlers)
  }

  /** Runs the next `k` handlers of one `bound` emission. */
  function RunHandlers<C>(c: Connection<C>, k: nat): (r: Option<Step<C>>)
    ensures r.Some? <==> k <= |c.queue|
    ensures r.Some? ==>
              && r.value.events == WritesOf(c.queue[..k])
              && r.value.conn.queue == c.queue[k..]
              && r.value.conn.state == (if k == 0 then c.state else Bound)
              && r.value.conn.mode == c.mode
              && r.value.conn.handlers == c.handlers
              && r.value.conn.config == c.config
    decreases k
  {
    if k == 0 then
      Some(Step(c, []))
    else if |c.queue| == 0 then
      None
    else
      var first := StartToSendRequest(c.(state := Bound));
      match RunHandlers(first.conn, k - 1)
      case None => None
      case Some(rest) => Some(Step(rest.conn, first.events + rest.events))
  }

  /** setSecurityConfiguration(): stores the value and emits the change
      notification once when secure; leaves everything unchanged and emits
      nothing when insecure. */
  function SetSecurityConfiguration<C>(c: Connection<C>, config: C): (r: Step<C>)
    ensures IsSecure(c) ==> SecurityConfiguration(r.conn) == Some(config)
    ensures IsSecure(c) ==> r.events == [SecurityConfigurationChanged]
    ensures !IsSecure(c) ==> r.conn == c && r.events == []
    ensures r.conn.mode == c.mode && r.conn.state == c.state
    ensures r.conn.handlers == c.handlers && r.conn.queue == c.queue
  {
    if IsSecure(c) then
      Step(c.(config := Some(config)), [SecurityConfigurationChanged])
    else
      Step(c, [])
  }
}
