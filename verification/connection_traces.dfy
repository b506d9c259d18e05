/** Runs of a connection: sequences of calls and `bound` emissions, and the
    properties that hold over whole runs: the mode never changes, the queue
    invariant is kept, frames reach writeData in the order they were sent,
    and configuration writes take effect only on secure connections. */
module ConnectionTraces {
  import opened Basics
  import opened CoapNamespace
  import opened CoapConnection

  /** One thing that can happen to a connection. */
  datatype Op<C> =
    | Send(pdu: seq<byte>, host: string, port: uint16)
    | BoundSignal
    | Configure(config: C)

  function Apply<C>(c: Connection<C>, op: Op<C>): Option<Step<C>> {
    match op
    case Send(pdu, host, port) => Some(SendRequest(c, pdu, host, port))
    case BoundSignal => EmitBound(c)
    case Configure(config) => Some(SetSecurityConfiguration(c, config))
  }

  /** Applies `ops` in order, concatenating their events; None as soon as one
      of them hits the empty-queue assertion. */
  function Exec<C>(c: Connection<C>, ops: seq<Op<C>>): Option<Step<C>>
    decreases |ops|
  {
    if ops == [] then
      Some(Step(c, []))
    else
      match Apply(c, ops[0])
      case None => None
      case Some(s) =>
        match Exec(s.conn, ops[1..])
        case None => None
        case Some(t) => Some(Step(t.conn, s.events + t.events))
  }

  /** The frames submitted by the sends in `ops`, in order. */
  function Sent<C>(ops: seq<Op<C>>): seq<Frame>
    decreases |ops|
  {
    if ops == [] then []
    else (if ops[0].Send? then [Frame(ops[0].pdu, ops[0].host, ops[0].port)] else []) + Sent(ops[1..])
  }

  /** The frames handed to writeData in `es`, in order. */
  function Written(es: seq<Event>): seq<Frame>
    decreases |es|
  {
    if es == [] then []
    else (if es[0].WriteDataCalled? then [Frame(es[0].pdu, es[0].host, es[0].port)] else []) + Written(es[1..])
  }

  /** The number of securityConfigurationChanged emissions in `es`. */
  function ChangedCount(es: seq<Event>): nat
    decreases |es|
  {
    if es == [] then 0
    else (if es[0] == SecurityConfigurationChanged then 1 else 0) + ChangedCount(es[1..])
  }

  /** The configuration the last write in `ops` stores, `d` if there is none. */
  function LastConfigured<C>(ops: seq<Op<C>>, d: Option<C>): Option<C>
    decreases |ops|
  {
    if ops == [] then d
    else LastConfigured(ops[1..], if ops[0].Configure? then Some(ops[0].config) else d)
  }

  /** The number of configuration writes in `ops`. */
  function ConfigureCount<C>(ops: seq<Op<C>>): nat
    decreases |ops|
  {
    if ops == [] then 0
    else (if ops[0].Configure? then 1 else 0) + ConfigureCount(ops[1..])
  }

  // ---------------------------------------------------------------------
  // Helper facts about the event and op summaries

  lemma {:induction false} WrittenAppend(a: seq<Event>, b: seq<Event>)
    ensures Written(a + b) == Written(a) + Written(b)
    decreases |a|
  {
    if a == [] {
      assert a + b == b;
    } else {
      assert (a + b)[1..] == a[1..] + b;
      WrittenAppend(a[1..], b);
    }
  }

  lemma {:induction false} ChangedCountAppend(a: seq<Event>, b: seq<Event>)
    ensures ChangedCount(a + b) == ChangedCount(a) + ChangedCount(b)
    decreases |a|
  {
    if a == [] {
      assert a + b == b;
    } else {
      assert (a + b)[1..] == a[1..] + b;
      ChangedCountAppend(a[1..], b);
    }
  }

  /** writeData calls record exactly the frames they were made for. */
  lemma {:induction false} WrittenWrites(fs: seq<Frame>)
    ensures Written(WritesOf(fs)) == fs
    ensures ChangedCount(WritesOf(fs)) == 0
    decreases |fs|
  {
    if fs != [] {
      assert WritesOf(fs)[1..] == WritesOf(fs[1..]);
      WrittenWrites(fs[1..]);
    }
  }

  // ---------------------------------------------------------------------
  // One step

  /** Each single step moves frames from the queue to writeData without
      losing, duplicating or reordering any, and sends append to the tail. */
  lemma StepFifo<C>(c: Connection<C>, op: Op<C>)
    requires Apply(c, op).Some?
    ensures Written(Apply(c, op).value.events) + Apply(c, op).value.conn.queue == c.queue + Sent([op])
  {
    var s := Apply(c, op).value;
    assert Sent([op]) == (if op.Send? then [Frame(op.pdu, op.host, op.port)] else []) + Sent<C>([]);
    match op
    case Send(pdu, host, port) =>
      var f := Frame(pdu, host, port);
      if c.state == Unconnected {
        assert Written(s.events) == [];
      } else {
        assert s.events == WritesOf([(c.queue + [f])[0]]);
        WrittenWrites([(c.queue + [f])[0]]);
      }
    case BoundSignal =>
      WrittenWrites(c.queue[..c.handlers]);
      assert c.queue[..c.handlers] + c.queue[c.handlers..] == c.queue;
    case Configure(_) =>
      assert Written(s.events) == [];
  }

  /** Each single step keeps the queue invariant. */
  lemma StepConsistent<C>(c: Connection<C>, op: Op<C>)
    requires Consistent(c) && Apply(c, op).Some?
    ensures Consistent(Apply(c, op).value.conn)
  {
  }

  /** The securityConfigurationChanged emissions of one step: one per
      configuration write on a secure connection, none otherwise. */
  lemma StepChanged<C>(c: Connection<C>, op: Op<C>)
    requires Apply(c, op).Some?
    ensures ChangedCount(Apply(c, op).value.events) == if IsSecure(c) && op.Configure? then 1 else 0
  {
    match op
    case Send(_, _, _) =>
    case BoundSignal => WrittenWrites(c.queue[..c.handlers]);
    case Configure(_) =>
  }

  // ---------------------------------------------------------------------
  // Whole runs

  /** The security mode never changes. */
  lemma {:induction false} ExecKeepsMode<C>(c: Connection<C>, ops: seq<Op<C>>)
    requires Exec(c, ops).Some?
    ensures Exec(c, ops).value.conn.mode == c.mode
    decreases |ops|
  {
    if ops != [] {
      ExecKeepsMode(Apply(c, ops[0]).value.conn, ops[1..]);
    }
  }

  /** Between calls, a reachable connection always satisfies the queue
      invariant: one handler per queued frame while unconnected, an empty
      queue once bound. */
  lemma {:induction false} ExecKeepsConsistent<C>(c: Connection<C>, ops: seq<Op<C>>)
    requires Consistent(c) && Exec(c, ops).Some?
    ensures Consistent(Exec(c, ops).value.conn)
    decreases |ops|
  {
    if ops != [] {
      StepConsistent(c, ops[0]);
      ExecKeepsConsistent(Apply(c, ops[0]).value.conn, ops[1..]);
    }
  }

  /** Sent splits at the first op. */
  lemma SentCons<C>(ops: seq<Op<C>>)
    requires ops != []
    ensures Sent(ops) == Sent([ops[0]]) + Sent(ops[1..])
  {
    assert [ops[0]][1..] == [];
  }

  /** A run that succeeds is its first step followed by the run of the rest. */
  lemma ExecCons<C>(c: Connection<C>, ops: seq<Op<C>>)
    requires ops != [] && Exec(c, ops).Some?
    ensures Apply(c, ops[0]).Some?
    ensures Exec(Apply(c, ops[0]).value.conn, ops[1..]).Some?
    ensures var s := Apply(c, ops[0]).value;
            var t := Exec(s.conn, ops[1..]).value;
            Exec(c, ops).value == Step(t.conn, s.events + t.events)
  {
  }

  /** Two FIFO steps in a row make one: frames written by the first, then by
      the second, then still queued, are the frames queued at the start
      followed by those sent in the first and then the second. */
  lemma FifoCompose(w1: seq<Frame>, q1: seq<Frame>, w2: seq<Frame>, q2: seq<Frame>,
                    q0: seq<Frame>, s1: seq<Frame>, s2: seq<Frame>)
    requires w1 + q1 == q0 + s1
    requires w2 + q2 == q1 + s2
    ensures (w1 + w2) + q2 == q0 + (s1 + s2)
  {
    calc {
      (w1 + w2) + q2;
      w1 + (w2 + q2);
      w1 + (q1 + s2);
      (w1 + q1) + s2;
      (q0 + s1) + s2;
    }
  }

  /** FIFO delivery: what has been written, followed by what is still queued,
      is exactly what was queued before followed by what was sent, in order. */
  lemma {:induction false} ExecFifo<C>(c: Connection<C>, ops: seq<Op<C>>)
    requires Exec(c, ops).Some?
    ensures Written(Exec(c, ops).value.events) + Exec(c, ops).value.conn.queue == c.queue + Sent(ops)
    decreases |ops|
  {
    if ops != [] {
      ExecCons(c, ops);
      var s := Apply(c, ops[0]).value;
      var t := Exec(s.conn, ops[1..]).value;
      StepFifo(c, ops[0]);
      ExecFifo(s.conn, ops[1..]);
      WrittenAppend(s.events, t.events);
      SentCons(ops);
      FifoCompose(Written(s.events), s.conn.queue, Written(t.events), t.conn.queue,
                  c.queue, Sent([ops[0]]), Sent(ops[1..]));
    }
  }

  /** From construction, the frames written so far are a prefix of the
      frames sent, in the same order, and the rest are still queued. */
  lemma WrittenIsPrefixOfSent<C>(mode: SecurityMode, ops: seq<Op<C>>)
    requires Exec(Create<C>(mode), ops).Some?
    ensures var s := Exec(Create<C>(mode), ops).value;
            && |Written(s.events)| <= |Sent(ops)|
            && Written(s.events) == Sent(ops)[..|Written(s.events)|]
            && s.conn.queue == Sent(ops)[|Written(s.events)|..]
  {
    var s := Exec(Create<C>(mode), ops).value;
    ExecFifo(Create<C>(mode), ops);
    assert Written(s.events) + s.conn.queue == Sent(ops);
  }

  /** Configuration writes: on a secure connection each one emits exactly one
      notification, on an insecure connection none does. */
  lemma {:induction false} ExecChangedCount<C>(c: Connection<C>, ops: seq<Op<C>>)
    requires Exec(c, ops).Some?
    ensures ChangedCount(Exec(c, ops).value.events) == if IsSecure(c) then ConfigureCount(ops) else 0
    decreases |ops|
  {
    if ops != [] {
      var s := Apply(c, ops[0]).value;
      var t := Exec(s.conn, ops[1..]).value;
      StepChanged(c, ops[0]);
      ExecChangedCount(s.conn, ops[1..]);
      ChangedCountAppend(s.events, t.events);
    }
  }

  /** On an insecure connection the stored configuration never changes. */
  lemma {:induction false} InsecureConfigUnchanged<C>(c: Connection<C>, ops: seq<Op<C>>)
    requires !IsSecure(c) && Exec(c, ops).Some?
    ensures SecurityConfiguration(Exec(c, ops).value.conn) == SecurityConfiguration(c)
    decreases |ops|
  {
    if ops != [] {
      var s := Apply(c, ops[0]).value;
      ExecKeepsMode(s.conn, ops[1..]);
      InsecureConfigUnchanged(s.conn, ops[1..]);
    }
  }

  /** On a secure connection, securityConfiguration() after any run returns
      the value of the last configuration write, and what it returned before
      when the run writes none; sends and `bound` emissions never touch it. */
  lemma {:induction false} ExecLastConfiguration<C>(c: Connection<C>, ops: seq<Op<C>>)
    requires IsSecure(c) && Exec(c, ops).Some?
    ensures SecurityConfiguration(Exec(c, ops).value.conn) == LastConfigured(ops, SecurityConfiguration(c))
    decreases |ops|
  {
    if ops != [] {
      var s := Apply(c, ops[0]).value;
      assert SecurityConfiguration(s.conn)
             == if ops[0].Configure? then Some(ops[0].config) else SecurityConfiguration(c);
      ExecLastConfiguration(s.conn, ops[1..]);
    }
  }

  /** Sends while unconnected only queue: every frame stays queued in order,
      one handler is registered and one bind call made per send, and nothing
      is written. */
  lemma {:induction false} UnconnectedSendsOnlyQueue<C>(c: Connection<C>, ops: seq<Op<C>>)
    requires c.state == Unconnected
    requires forall i :: 0 <= i < |ops| ==> ops[i].Send?
    ensures Exec(c, ops).Some?
    ensures Exec(c, ops).value.conn.state == Unconnected
    ensures Exec(c, ops).value.conn.queue == c.queue + Sent(ops)
    ensures Exec(c, ops).value.conn.handlers == c.handlers + |ops|
    ensures |Exec(c, ops).value.events| == |ops|
    ensures forall i :: 0 <= i < |ops| ==>
              Exec(c, ops).value.events[i] == BindCalled(ops[i].host, ops[i].port)
    decreases |ops|
  {
    if ops != [] {
      var s := Apply(c, ops[0]).value;
      UnconnectedSendsOnlyQueue(s.conn, ops[1..]);
      var t := Exec(s.conn, ops[1..]).value;
      assert Exec(c, ops).value.events == s.events + t.events;
      forall i | 0 <= i < |ops|
        ensures Exec(c, ops).value.events[i] == BindCalled(ops[i].host, ops[i].port)
      {
        if i > 0 {
          assert ops[1..][i - 1] == ops[i];
        }
      }
    }
  }

  /** A `bound` emission on a reachable connection: while unconnected it
      writes every queued frame, in order, and leaves the connection bound
      with an empty queue; once bound it fails the empty-queue assertion as
      soon as any handler is registered. */
  lemma EmitBoundOnConsistent<C>(c: Connection<C>)
    requires Consistent(c)
    ensures EmitBound(c).Some? <==> c.state == Unconnected || c.handlers == 0
    ensures c.state == Unconnected ==>
              && EmitBound(c).value.events == WritesOf(c.queue)
              && EmitBound(c).value.conn.queue == []
              && (EmitBound(c).value.conn.state == Bound <==> c.queue != [])
  {
  }

  /** Handlers are never disconnected: after a first send and its `bound`
      emission, any later emission runs the old handler again on an empty
      queue. */
  lemma ReboundFails<C>(mode: SecurityMode, pdu: seq<byte>, host: string, port: uint16)
    ensures Exec(Create<C>(mode), [Send(pdu, host, port), BoundSignal]).Some?
    ensures Exec(Create<C>(mode), [Send(pdu, host, port), BoundSignal, BoundSignal]) == None
  {
    var c0 := Create<C>(mode);
    var s1 := SendRequest(c0, pdu, host, port);
    var s2 := EmitBound(s1.conn).value;
    assert s2.conn.state == Bound && s2.conn.queue == [] && s2.conn.handlers == 1;
    assert EmitBound(s2.conn) == None;
    var send: Op<C> := Send(pdu, host, port);
    var b: Op<C> := BoundSignal;
    assert [send, b][1..] == [b];
    assert [send, b, b][1..] == [b, b];
    assert [b, b][1..] == [b];
    assert [b][1..] == [];
    assert Exec(s2.conn, []) == Some(Step(s2.conn, []));
    assert Exec(s1.conn, [b]).Some?;
    assert Exec(c0, [send, b]).Some?;
    assert Exec(s2.conn, [b]) == None;
    assert Exec(s1.conn, [b, b]) == None;
  }

  /** Two sends before the transport is ready make two bind calls. A
      transport that answers each of them with its own `bound` emission
      makes the first emission drain the queue and the second fail the
      assertion. */
  lemma DoubleBindFails<C>(mode: SecurityMode, pdu: seq<byte>, host: string, port: uint16)
    ensures Exec(Create<C>(mode), [Send(pdu, host, port), Send(pdu, host, port)]).Some?
    ensures Exec(Create<C>(mode), [Send(pdu, host, port), Send(pdu, host, port)]).value.events
              == [BindCalled(host, port), BindCalled(host, port)]
    ensures Exec(Create<C>(mode), [Send(pdu, host, port), Send(pdu, host, port), BoundSignal]).Some?
    ensures Exec(Create<C>(mode), [Send(pdu, host, port), Send(pdu, host, port), BoundSignal, BoundSignal]) == None
  {
    var c0 := Create<C>(mode);
    var s1 := SendRequest(c0, pdu, host, port);
    var s2 := SendRequest(s1.conn, pdu, host, port);
    var s3 := EmitBound(s2.conn).value;
    assert s2.conn.queue[..2] == s2.conn.queue;
    assert s3.conn.state == Bound && s3.conn.queue == [] && s3.conn.handlers == 2;
    assert EmitBound(s3.conn) == None;
    var send: Op<C> := Send(pdu, host, port);
    var b: Op<C> := BoundSignal;
    assert [send, send][1..] == [send];
    assert [send][1..] == [];
    assert [send, send, b][1..] == [send, b];
    assert [send, b][1..] == [b];
    assert [send, send, b, b][1..] == [send, b, b];
    assert [send, b, b][1..] == [b, b];
    assert [b, b][1..] == [b];
    assert [b][1..] == [];
    assert Exec(s2.conn, []) == Some(Step(s2.conn, []));
    assert Exec(s1.conn, [send]) == Some(Step(s2.conn, s2.events + []));
    assert Exec(c0, [send, send]) == Some(Step(s2.conn, s1.events + (s2.events + [])));
    assert Exec(s3.conn, []) == Some(Step(s3.conn, []));
    assert Exec(s2.conn, [b]).Some?;
    assert Exec(s1.conn, [send, b]).Some?;
    assert Exec(s3.conn, [b]) == None;
    assert Exec(s2.conn, [b, b]) == None;
    assert Exec(s1.conn, [send, b, b]) == None;
  }

  // ---------------------------------------------------------------------
  // Worked scenarios

  /** A secure connection sends "A" to h1 while unconnected, then the
      transport reports readiness. */
  lemma ScenarioSendThenBound<C>(a: seq<byte>)
    ensures var s := SendRequest(Create<C>(PreSharedKey), a, "h1", DefaultPort);
            && s.events == [BindCalled("h1", DefaultPort)]
            && s.conn.state == Unconnected
            && s.conn.queue == [Frame(a, "h1", DefaultPort)]
            && EmitBound(s.conn).Some?
            && EmitBound(s.conn).value.events == [WriteDataCalled(a, "h1", DefaultPort)]
            && EmitBound(s.conn).value.conn.state == Bound
            && EmitBound(s.conn).value.conn.queue == []
  {
    var s := SendRequest(Create<C>(PreSharedKey), a, "h1", DefaultPort);
    assert s.conn.queue[..1] == [Frame(a, "h1", DefaultPort)];
  }

  /** On an insecure connection a configuration write is ignored. */
  lemma ScenarioInsecureConfigure<C>(config: C)
    ensures SetSecurityConfiguration(Create<C>(NoSec), config).events == []
    ensures SecurityConfiguration(SetSecurityConfiguration(Create<C>(NoSec), config).conn) == None
  {
  }
}
