/** The reconnecting client object (tunnel_tcp_service.cpp, lines 6-51). */
module TcpClient {
  import opened Options
  import opened Errors
  import opened Wire
  import opened Framing
  import opened Connecting
  import opened Sockets
  import opened Encapsulation
  import opened AutoCancel
  import Timers = AsyncTimer
  import C = ClientSpec
  import T = TransportSpec
  import UnderlyingTransport

  /** No two connectors share an object or a place; `rs` holds their handles. */
  ghost predicate Distinct(ks: set<Connector>, rs: set<EnableCancelResource>) {
    && (forall k, l :: k in ks && l in ks && k != l ==> k.resource != l.resource && k.index != l.index)
    && (forall k :: k in ks ==> k.resource in rs)
  }

  lemma DistinctPlus(ks: set<Connector>, rs: set<EnableCancelResource>, k: Connector)
    requires Distinct(ks, rs) && k !in ks && k.resource !in rs
    requires forall l :: l in ks ==> l.index != k.index
    ensures Distinct(ks + {k}, rs + {k.resource})
  {
  }

  /**
   The objects that the handlers held by the `io_service` keep alive: every wrapper and connector
   ever made, with their parts, and the number of connectors. None is ever forgotten.
   */
  datatype Parts = Parts(
    wrappers: set<FragmentWrapper>,
    transports: set<UnderlyingTransport.Transport<bytes>>,
    resources: set<EnableCancelResource>,
    connectors: set<Connector>,
    handles: set<EnableCancelResource>,
    made: nat)
  {
    function With(w: FragmentWrapper): Parts {
      this.(wrappers := wrappers + {w}, transports := transports + {w.transport},
            resources := resources + {w.transport.resource})
    }

    function WithConnector(k: Connector): Parts {
      this.(connectors := connectors + {k}, handles := handles + {k.resource}, made := made + 1)
    }

    ghost function Objects(): set<object> {
      wrappers + transports + resources + connectors + handles
    }

    ghost predicate Within(p: Parts) {
      && wrappers <= p.wrappers && transports <= p.transports && resources <= p.resources
      && connectors <= p.connectors && handles <= p.handles
    }
  }

  const NO_PARTS := Parts({}, {}, {}, {}, {}, 0)

  ghost predicate HasConnector(ks: set<Connector>, j: nat) {
    exists k :: k in ks && k.index == j
  }

  ghost predicate HasWrapper(ws: set<FragmentWrapper>, j: nat) {
    exists w :: w in ws && w.index == j
  }

  /** Every attempt has its connector, and every attempt with a socket its wrapper. */
  ghost predicate Covers(p: Parts, c: C.Client) {
    && p.made == |c.attempts|
    && (forall j :: 0 <= j < |c.attempts| ==> HasConnector(p.connectors, j))
    && (forall j :: 0 <= j < |c.attempts| && c.attempts[j].sock.Some? ==> HasWrapper(p.wrappers, j))
  }

  lemma CoversOneMore(p: Parts, c: C.Client, k: Connector)
    requires Covers(p, c) && k.index == |c.attempts|
    ensures Covers(p.WithConnector(k), c.(attempts := c.attempts + [C.NEW_ATTEMPT]))
  {
    var p' := p.WithConnector(k);
    forall j | 0 <= j < |c.attempts| + 1 ensures HasConnector(p'.connectors, j) {
      if j < |c.attempts| {
        assert HasConnector(p.connectors, j);
        var l :| l in p.connectors && l.index == j;
        assert l in p'.connectors;
      } else {
        assert k in p'.connectors;
      }
    }
  }

  lemma CoversBegun(p: Parts, c: C.Client, w: FragmentWrapper, e: End)
    requires Covers(p, c) && w.index < |c.attempts|
    ensures Covers(p.With(w), C.Begun(c, w.index, e))
  {
    var p' := p.With(w);
    forall j | 0 <= j < |c.attempts| && C.Begun(c, w.index, e).attempts[j].sock.Some?
      ensures HasWrapper(p'.wrappers, j)
    {
      if j == w.index {
        assert w in p'.wrappers;
      } else {
        assert HasWrapper(p.wrappers, j);
        var v :| v in p.wrappers && v.index == j;
        assert v in p'.wrappers;
      }
    }
  }

  /** What the client is woken for, and the object whose handler it is. */
  datatype Stimulus =
    | Sending(m: Message)
    | Connected(k: Connector, connectCode: Completion)
    | TimerRan(shot: Timers.Impl, timerCode: Completion)
    | Read(w: FragmentWrapper, chunk: bytes)
    | ReadError(w: FragmentWrapper, error: ErrorCode)
    | Written(w: FragmentWrapper, writeCode: Completion)

  function EventOf(x: Stimulus): C.Event {
    match x
    case Sending(m) => C.Sending(m)
    case Connected(k, code) => C.Connected(k.index, code)
    case TimerRan(shot, code) => C.TimerRan(shot.index, code)
    case Read(w, chunk) => C.Read(w.index, chunk)
    case ReadError(w, code) => C.ReadError(w.index, code)
    case Written(w, code) => C.Written(w.index, 0, code)
  }

  /** What the program asserts of a message holds of every one that the event completes. */
  predicate SafeEvent(c: C.Client, e: C.Event)
    requires C.Enabled(c, e)
  {
    e.Read? ==> SafeToRead(C.At(c, e.j).value, e.chunk)
  }

  predicate SafeRun(c: C.Client, es: seq<C.Event>)
    requires C.IsRun(c, es)
    decreases |es|
  {
    es != [] ==> SafeEvent(c, es[0]) && SafeRun(C.Step(c, es[0]), es[1..])
  }

  function WithOut(c: C.Client, more: seq<Message>): C.Client {
    c.(out := c.out + more)
  }

  lemma WithOneMore(c: C.Client, ms: seq<Message>, n: nat)
    requires n < |ms|
    ensures WithOut(WithOut(c, ms[..n]), [ms[n]]) == WithOut(c, ms[..n + 1])
  {
    assert ms[..n + 1] == ms[..n] + [ms[n]];
    assert c.out + ms[..n] + [ms[n]] == c.out + ms[..n + 1];
  }

  class TcpClient {
    const udpSender: UdpSender
    const timer: Timers.AsyncTimer
    var sock: FragmentWrapper?
    var connector: Connector?

    var parts: Parts
    ghost var state: C.Client

    /** All that the client may change. */
    ghost function Footprint(): set<object>
      reads `parts, timer`impls, timer`resources
    {
      {this, udpSender, udpSender.transport, udpSender.transport.resource} + parts.Objects() + timer.Footprint()
    }

    /** Every part there was is still there, and what has been added is new. */
    twostate predicate Grown()
      reads `parts, timer`impls, timer`resources
    {
      && old(parts).Within(parts) && old(timer.impls) <= timer.impls && old(Footprint()) <= Footprint()
      && (forall o :: o in Footprint() && o !in old(Footprint()) ==> fresh(o))
    }

    /** What has been added, and is new: a wrapper, a connector or a shot, if any. */
    twostate predicate Gained(new w: FragmentWrapper?, new k: Connector?, new shot: Timers.Impl?)
      reads `parts, timer`impls, timer`resources
    {
      && timer.Gained(shot)
      && (k != null ==> fresh(k) && fresh(k.resource))
      && (w != null ==> fresh(w) && fresh(w.transport) && fresh(w.transport.resource))
      && parts == (if w != null then old(parts).With(w)
                   else if k != null then old(parts).WithConnector(k)
                   else old(parts))
    }

    twostate lemma GainedShot(new shot: Timers.Impl?)
      requires parts == old(parts) && timer.Gained(shot)
      ensures Gained(null, null, shot)
    {
    }

    twostate lemma GainedWrapper(new w: FragmentWrapper)
      requires parts == old(parts).With(w) && fresh(w) && fresh(w.transport) && fresh(w.transport.resource)
      requires timer.Gained(null)
      ensures Gained(w, null, null)
    {
    }

    twostate lemma GainedConnector(new k: Connector)
      requires parts == old(parts).WithConnector(k) && fresh(k) && fresh(k.resource) && timer.Gained(null)
      ensures Gained(null, k, null)
    {
    }

    twostate lemma GrownBy(new w: FragmentWrapper?, new k: Connector?, new shot: Timers.Impl?)
      requires Gained(w, k, shot)
      ensures Grown()
    {
    }

    /** No two parts share an object. */
    ghost predicate Separate()
      reads `parts, timer`resources
    {
      && Apart(parts.wrappers, parts.transports, parts.resources) && Distinct(parts.connectors, parts.handles)
      && parts.resources !! parts.handles && parts.resources !! timer.resources && parts.handles !! timer.resources
      && udpSender.transport.resource !in parts.resources && udpSender.transport.resource !in parts.handles
      && udpSender.transport.resource !in timer.resources
    }

    ghost predicate WrappersCoupled()
      requires Apart(parts.wrappers, parts.transports, parts.resources)
      reads `parts, parts.wrappers, parts.transports, parts.resources
    {
      forall w :: w in parts.wrappers ==> w.Coupled()
    }

    /** Each wrapper but `except` is in the state of the socket of its attempt. */
    ghost predicate SocksAre(ws: set<FragmentWrapper>, c: C.Client, except: FragmentWrapper?)
      reads ws
    {
      && (forall w :: w in ws ==> w.peer == "" && C.At(c, w.index).Some?)
      && (forall w :: w in ws && w != except ==> C.At(c, w.index) == Some(w.state))
    }

    /** Each connector but `except` is in the state of its attempt. */
    ghost predicate ConnectorsAre(c: C.Client, except: Connector?)
      requires Distinct(parts.connectors, parts.handles)
      reads `parts, parts.connectors, parts.handles
    {
      && (forall k :: k in parts.connectors ==> k.index < |c.attempts|)
      && (forall k :: k in parts.connectors && k != except ==>
            k.resource.Value() == c.attempts[k.index].handle && k.outcome == c.attempts[k.index].outcome)
    }

    ghost predicate PointersAre(c: C.Client)
      reads `sock, `connector, `parts
    {
      && (match c.sock
          case None => sock == null
          case Some(j) => sock != null && sock in parts.wrappers && sock.index == j)
      && (match c.connector
          case None => connector == null
          case Some(j) => connector != null && connector in parts.connectors && connector.index == j)
    }

    ghost predicate TimerIs(t: Timers.Timer)
      reads timer, timer.pimpl, timer.impls, timer.resources
    {
      timer.Valid() && timer.state == t
    }

    ghost predicate OutIs(out: seq<Message>)
      reads udpSender, udpSender.transport, udpSender.transport.resource
    {
      udpSender.Valid() && udpSender.handed == out
    }

    /** All but the timer. */
    ghost predicate PartsAre(c: C.Client, touched: FragmentWrapper?, judged: Connector?)
      reads this, parts.wrappers, parts.transports, parts.resources, parts.connectors, parts.handles, timer`resources
      reads udpSender, udpSender.transport, udpSender.transport.resource
    {
      && Separate() && WrappersCoupled() && SocksAre(parts.wrappers, c, touched) && ConnectorsAre(c, judged)
      && PointersAre(c) && OutIs(c.out)
    }

    ghost predicate Represents(c: C.Client, touched: FragmentWrapper?, judged: Connector?)
      reads this, parts.wrappers, parts.transports, parts.resources, parts.connectors, parts.handles
      reads timer, timer.pimpl, timer.impls, timer.resources
      reads udpSender, udpSender.transport, udpSender.transport.resource
    {
      PartsAre(c, touched, judged) && TimerIs(c.timer) && Covers(parts, c)
    }

    ghost predicate Valid()
      reads this, parts.wrappers, parts.transports, parts.resources, parts.connectors, parts.handles
      reads timer, timer.pimpl, timer.impls, timer.resources
      reads udpSender, udpSender.transport, udpSender.transport.resource
    {
      Represents(state, null, null)
    }

    constructor ()
      ensures state == C.FRESH
      ensures Valid()
      ensures fresh(Footprint())
    {
      udpSender := new UdpSender();
      timer := new Timers.AsyncTimer();
      sock, connector := null, null;
      parts := NO_PARTS;
      state := C.Client([], None, None, Timers.NEVER_SET, [], []);
      new;
      var k := StartConnect();
      FirstFootprint(this, k);
    }

    static twostate lemma FirstFootprint(new c: TcpClient, new k: Connector)
      requires c.parts == NO_PARTS.WithConnector(k) && fresh(c) && fresh(k) && fresh(k.resource)
      requires fresh(c.udpSender) && fresh(c.udpSender.transport) && fresh(c.udpSender.transport.resource)
      requires fresh(c.timer.Footprint())
      ensures fresh(c.Footprint())
    {
    }

    /** The attempt of a connector that was touched. */
    ghost function AttemptOf(k: Connector): C.Attempt
      requires k.index < |state.attempts|
      reads this, k, k.resource
    {
      state.attempts[k.index].(handle := k.resource.Value(), outcome := k.outcome)
    }

    ghost method SettleConnector(k: Connector)
      requires Represents(state, null, k) && k in parts.connectors
      modifies this`state
      ensures k.index < |old(state).attempts|
      ensures state == old(state).(attempts := old(state).attempts[k.index := old(AttemptOf(k))])
      ensures Valid()
    {
      Settle(state.(attempts := state.attempts[k.index := AttemptOf(k)]));
    }

    method CancelIt(k: Connector)
      requires Valid() && k in parts.connectors
      modifies k.resource
      ensures k.index < |state.attempts|
      ensures AttemptOf(k) == state.attempts[k.index].(handle := state.attempts[k.index].handle.Cancelled())
      ensures Represents(state, null, k)
    {
      k.resource.Cancel();
    }

    method CancelHandle(k: Connector)
      requires Valid() && k in parts.connectors
      modifies this`state, k.resource
      ensures k.index < |old(state).attempts|
      ensures state == C.SetHandle(old(state), k.index, old(state).attempts[k.index].handle.Cancelled())
      ensures Valid()
    {
      CancelIt(k);
      SettleConnector(k);
    }

    /** `connector_.reset()` */
    method DropConnector()
      requires Valid() && connector != null
      modifies this`connector, this`state, connector.resource
      ensures old(state).connector.Some? && old(state).connector.value < |old(state).attempts|
      ensures var j := old(state).connector.value;
              state == C.SetHandle(old(state), j, old(state).attempts[j].handle.Cancelled()).(connector := None)
      ensures Valid()
    {
      CancelHandle(connector);
      Adopt(null);
    }

    /** A connector is made and its connect started. */
    method MakeConnector() returns (k: Connector)
      requires Valid()
      ensures fresh(k) && fresh(k.resource) && k.index == |state.attempts|
      ensures k.resource.Value() == FRESH_HANDLE && k.outcome == None
      ensures Valid()
    {
      k := new Connector(parts.made);
    }

    /** The new connector joins the old ones. */
    method Enrol(k: Connector)
      requires Valid() && k !in parts.connectors && k.resource !in parts.handles + parts.resources + timer.resources
      requires k.resource != udpSender.transport.resource && k.index == |state.attempts|
      requires k.resource.Value() == FRESH_HANDLE && k.outcome == None
      modifies this`parts, this`state
      ensures state == old(state).(attempts := old(state).attempts + [C.NEW_ATTEMPT])
      ensures parts == old(parts).WithConnector(k)
      ensures Valid()
    {
      RoomForOneMore(k.index);
      CoversOneMore(parts, state, k);
      IncludeConnector(k);
      Settle(state.(attempts := state.attempts + [C.NEW_ATTEMPT]));
    }

    lemma RoomForOneMore(n: nat)
      requires Valid() && n == |state.attempts|
      ensures forall l :: l in parts.connectors ==> l.index != n
      ensures var next := state.(attempts := state.attempts + [C.NEW_ATTEMPT]);
              SocksAre(parts.wrappers, next, null) && ConnectorsAre(next, null) && PointersAre(next)
    {
    }

    method IncludeConnector(k: Connector)
      requires Separate() && WrappersCoupled()
      requires k !in parts.connectors && k.resource !in parts.handles + parts.resources + timer.resources
      requires k.resource != udpSender.transport.resource && k.index == |state.attempts|
      requires k.resource.Value() == FRESH_HANDLE && k.outcome == None
      requires forall l :: l in parts.connectors ==> l.index != k.index
      requires var next := state.(attempts := state.attempts + [C.NEW_ATTEMPT]);
               SocksAre(parts.wrappers, next, null) && ConnectorsAre(next, null) && PointersAre(next)
      requires TimerIs(state.timer) && OutIs(state.out)
      requires Covers(parts.WithConnector(k), state.(attempts := state.attempts + [C.NEW_ATTEMPT]))
      modifies this`parts
      ensures parts == old(parts).WithConnector(k)
      ensures Represents(state.(attempts := state.attempts + [C.NEW_ATTEMPT]), null, null)
    {
      DistinctPlus(parts.connectors, parts.handles, k);
      parts := parts.WithConnector(k);
      assert Separate();
    }

    method NewConnector() returns (k: Connector)
      requires Valid()
      modifies this`parts, this`state
      ensures state == old(state).(attempts := old(state).attempts + [C.NEW_ATTEMPT])
      ensures parts == old(parts).WithConnector(k) && fresh(k) && fresh(k.resource)
      ensures Valid() && k.index == |old(state).attempts|
    {
      k := MakeConnector();
      Enrol(k);
    }

    /** `connector_` is set. */
    method Adopt(k: Connector?)
      requires Valid() && (k != null ==> k in parts.connectors)
      modifies this`connector, this`state
      ensures state == old(state).(connector := if k == null then None else Some(k.index))
      ensures Valid()
    {
      connector := k;
      Settle(state.(connector := if k == null then None else Some(k.index)));
    }

    method StartConnect() returns (k: Connector)
      requires Valid()
      modifies this`connector, this`parts, this`state, parts.handles
      ensures state == C.StartConnect(old(state))
      ensures parts == old(parts).WithConnector(k) && fresh(k) && fresh(k.resource)
      ensures Valid()
    {
      if connector != null {
        DropConnector();
      }
      k := NewConnector();
      Adopt(k);
    }

    ghost method Settle(next: C.Client)
      requires Represents(next, null, null)
      modifies this`state
      ensures state == next
      ensures Valid()
    {
      state := next;
    }

    /** A handler of `w` has run, and nothing else has changed. */
    lemma SetEndRepresents(w: FragmentWrapper)
      requires Represents(state, w, null) && w in parts.wrappers
      ensures Represents(C.SetEnd(state, w.index, w.state), null, null)
    {
    }

    method SendOn(w: FragmentWrapper, data: Message)
      requires Valid() && w in parts.wrappers && T.SingleWriter(w.state.tx)
      modifies w, w.transport
      ensures w.state == SendMessage(old(w.state), data)
      ensures Represents(state, w, null)
    {
      w.Send(data);
    }

    method Send(data: Message)
      requires Valid() && C.SocksOk(state)
      modifies this`state, parts.wrappers, parts.transports
      ensures state == C.Send(old(state), data)
      ensures Valid()
    {
      Settle(state.(calls := state.calls + [data]));
      if sock != null {
        SendOn(sock, data);
        SettleTouched(sock);
      }
    }

    // ----- losing the connection -----

    ghost method SettleTouched(w: FragmentWrapper)
      requires Represents(state, w, null) && w in parts.wrappers
      modifies this`state
      ensures C.At(old(state), w.index).Some? && state == C.SetEnd(old(state), w.index, w.state)
      ensures Valid()
    {
      SetEndRepresents(w);
      Settle(C.SetEnd(state, w.index, w.state));
    }

    method Destroy(w: FragmentWrapper)
      requires Valid() && w in parts.wrappers
      modifies w`state, w.transport`state, w.transport.resource
      ensures w.state == Closed(old(w.state))
      ensures Represents(state, w, null)
    {
      w.Close();
    }

    ghost method SettleEnded(w: FragmentWrapper)
      requires Valid() && w in parts.wrappers
      modifies this`state
      ensures w.index < |old(state).attempts| && state == C.Ended(old(state), w.index)
      ensures Valid()
    {
      Settle(C.Ended(state, w.index));
    }

    /** `sock_.reset()` */
    method DropSock()
      requires Valid()
      modifies this`sock, this`state, parts.wrappers, parts.transports, parts.resources
      ensures state == C.DropSock(old(state))
      ensures Valid()
    {
      if sock != null {
        Destroy(sock);
        SettleTouched(sock);
        SettleEnded(sock);
      }
      Hold(null);
    }

    method OnDisconnected() returns (shot: Timers.Impl)
      requires Valid()
      modifies this`sock, this`state, parts.wrappers, parts.transports, parts.resources
      modifies timer, timer.pimpl, timer.resources
      ensures state == C.OnDisconnected(old(state))
      ensures Valid()
      ensures timer.Gained(shot)
    {
      DropSock();
      shot := StartWait();
    }

    ghost method SettleTimer(t: Timers.Timer)
      requires PartsAre(state, null, null) && TimerIs(t) && Covers(parts, state)
      modifies this`state
      ensures state == old(state).(timer := t)
      ensures Valid()
    {
      Settle(state.(timer := t));
    }

    method Rearm() returns (shot: Timers.Impl)
      requires Separate() && WrappersCoupled() && ConnectorsAre(state, null) && TimerIs(state.timer)
      modifies timer, timer.pimpl, timer.resources
      ensures TimerIs(Timers.Rearmed(state.timer))
      ensures Separate() && WrappersCoupled() && ConnectorsAre(state, null)
      ensures timer.Gained(shot)
    {
      shot := timer.Wait();
      assert Separate();
    }

    method StartWait() returns (shot: Timers.Impl)
      requires Valid()
      modifies this`state, timer, timer.pimpl, timer.resources
      ensures state == old(state).(timer := Timers.Rearmed(old(state).timer))
      ensures Valid()
      ensures timer.Gained(shot)
    {
      shot := Rearm();
      SettleTimer(Timers.Rearmed(state.timer));
    }

    /** The end of a handler of `w`. */
    method AfterHandler(w: FragmentWrapper, up: bool) returns (shot: Timers.Impl?)
      requires Represents(state, w, null) && w in parts.wrappers
      modifies this`sock, this`state, parts.wrappers, parts.transports, parts.resources
      modifies timer, timer.pimpl, timer.resources
      ensures w.index < |old(state).attempts| && state == C.Raised(old(state), w.index, old(w.state), up)
      ensures Valid()
      ensures timer.Gained(shot)
    {
      SettleTouched(w);
      shot := null;
      if up {
        shot := OnDisconnected();
      }
    }

    method ReadFailedAt(w: FragmentWrapper, code: ErrorCode) returns (up: bool)
      requires Valid() && w in parts.wrappers && w.state.tx.reading > 0
      modifies w, w.transport
      ensures (w.state, up) == Sockets.ReadFailed(old(w.state), code)
      ensures Represents(state, w, null)
    {
      up := w.OnReadFailed(code);
    }

    /** A read of `w` fails. */
    method OnReadFailed(w: FragmentWrapper, code: ErrorCode) returns (shot: Timers.Impl?)
      requires Valid() && w in parts.wrappers && w.state.tx.reading > 0
      modifies this`sock, this`state, parts.wrappers, parts.transports, parts.resources
      modifies timer, timer.pimpl, timer.resources
      ensures C.At(old(state), w.index) == Some(old(w.state))
      ensures state == C.ReadFailed(old(state), w.index, code)
      ensures Valid()
      ensures timer.Gained(shot)
    {
      var up := ReadFailedAt(w, code);
      shot := AfterHandler(w, up);
    }

    method WriteDoneAt(w: FragmentWrapper, code: Completion) returns (up: bool)
      requires Valid() && w in parts.wrappers && w.state.tx.writing != [] && T.SingleWriter(w.state.tx)
      modifies w, w.transport
      ensures (w.state, up) == Sockets.WriteDone(old(w.state), 0, code)
      ensures Represents(state, w, null)
    {
      up := w.OnWriteDone(code);
    }

    /** The outstanding write of `w` completes. */
    method OnWriteDone(w: FragmentWrapper, code: Completion) returns (shot: Timers.Impl?)
      requires Valid() && w in parts.wrappers && w.state.tx.writing != [] && T.SingleWriter(w.state.tx)
      modifies this`sock, this`state, parts.wrappers, parts.transports, parts.resources
      modifies timer, timer.pimpl, timer.resources
      ensures C.At(old(state), w.index) == Some(old(w.state))
      ensures state == C.WriteDone(old(state), w.index, 0, code)
      ensures Valid()
      ensures timer.Gained(shot)
    {
      var up := WriteDoneAt(w, code);
      shot := AfterHandler(w, up);
    }

    // ----- receiving -----

    method ReadDoneAt(w: FragmentWrapper, chunk: bytes) returns (messages: seq<Message>)
      requires Valid() && w in parts.wrappers && w.state.tx.reading > 0
      requires Incomplete(w.partialMsg) && |w.partialMsg| + |chunk| < TWO_63
      modifies w, w.transport
      ensures w.state == Receive(old(w.state), chunk)
      ensures messages == NewlyDelivered(old(w.state), w.state)
      ensures Represents(state, w, null)
    {
      messages := w.OnReadDone(chunk);
    }

    /** `tcp_client::on_receive` for each message that a chunk completed. */
    method HandOver(messages: seq<Message>)
      requires Valid() && AllSplittable(messages)
      modifies this`state, udpSender, udpSender.transport
      ensures state == old(state).(out := old(state).out + messages)
      ensures Valid()
    {
      ghost var before := state;
      for n := 0 to |messages|
        invariant state == WithOut(before, messages[..n])
        invariant Valid()
      {
        HandOne(messages[n]);
        WithOneMore(before, messages, n);
      }
      assert messages[..|messages|] == messages;
    }

    method HandOne(message: Message)
      requires Valid() && |message| >= ENDPOINT_SIZE
      modifies this`state, udpSender, udpSender.transport
      ensures state == WithOut(old(state), [message])
      ensures Valid()
    {
      udpSender.Send(message);
      Settle(state.(out := state.out + [message]));
    }

    /** `w` reads a chunk. The program asserts that every message holds an endpoint. */
    method OnReadDone(w: FragmentWrapper, chunk: bytes)
      requires Valid() && w in parts.wrappers && w.state.tx.reading > 0
      requires Incomplete(w.partialMsg) && |w.partialMsg| + |chunk| < TWO_63
      requires AllSplittable(NewlyDelivered(w.state, Receive(w.state, chunk)))
      modifies this`state, w, w.transport, udpSender, udpSender.transport
      ensures C.At(old(state), w.index) == Some(old(w.state))
      ensures state == C.ReadDone(old(state), w.index, chunk)
      ensures Valid()
    {
      var messages := ReadDoneAt(w, chunk);
      SettleTouched(w);
      HandOver(messages);
    }

    // ----- connecting -----

    method JudgeIt(k: Connector, code: Completion) returns (verdict: Verdict)
      requires Valid() && k in parts.connectors && k.outcome.None?
      modifies k
      ensures k.index < |state.attempts| && state.attempts[k.index].outcome.None?
      ensures verdict == JudgeConnect(state.attempts[k.index].handle.cancelled, code)
      ensures AttemptOf(k) == state.attempts[k.index].(outcome := Some(verdict))
      ensures Represents(state, null, k)
    {
      verdict := k.OnConnected(code);
    }

    method Judge(k: Connector, code: Completion) returns (verdict: Verdict)
      requires Valid() && k in parts.connectors && k.outcome.None?
      modifies this`state, k
      ensures k.index < |old(state).attempts|
      ensures var a := old(state).attempts[k.index];
              && a.outcome.None? && verdict == JudgeConnect(a.handle.cancelled, code)
              && state == old(state).(attempts := old(state).attempts[k.index := a.(outcome := Some(verdict))])
      ensures Valid()
    {
      verdict := JudgeIt(k, code);
      SettleConnector(k);
    }

    method MakeWrapper(index: nat) returns (w: FragmentWrapper)
      requires Valid()
      ensures fresh(w) && fresh(w.transport) && fresh(w.transport.resource)
      ensures w.peer == "" && w.index == index && Outside(w)
      ensures Valid()
    {
      w := new FragmentWrapper("", index, |state.calls|);
    }

    /** A wrapper that shares nothing with the client yet. */
    ghost predicate Outside(w: FragmentWrapper)
      reads this, w, w.transport, w.transport.resource, timer`resources
    {
      && w !in parts.wrappers && w.transport !in parts.transports
      && w.transport.resource !in parts.resources + parts.handles + timer.resources
      && w.transport.resource != udpSender.transport.resource
      && w.Coupled() && w.state == FreshEnd(|state.calls|)
    }

    lemma SocksPlus(w: FragmentWrapper)
      requires Valid() && Outside(w) && w.peer == "" && w.index < |state.attempts| && C.At(state, w.index).None?
      ensures SocksAre(parts.wrappers + {w}, C.Begun(state, w.index, FreshEnd(|state.calls|)), null)
      ensures ConnectorsAre(C.Begun(state, w.index, FreshEnd(|state.calls|)), null)
      ensures Apart(parts.wrappers + {w}, parts.transports + {w.transport}, parts.resources + {w.transport.resource})
    {
      ApartPlus(parts.wrappers, parts.transports, parts.resources, w);
    }

    /** The new wrapper joins the old ones. */
    method Enlist(w: FragmentWrapper)
      requires Valid() && Outside(w) && w.peer == "" && w.index < |state.attempts| && C.At(state, w.index).None?
      modifies this`parts, this`state
      ensures state == C.Begun(old(state), w.index, FreshEnd(|old(state).calls|))
      ensures parts == old(parts).With(w)
      ensures Valid()
    {
      SocksPlus(w);
      ghost var next := C.Begun(state, w.index, FreshEnd(|state.calls|));
      CoversBegun(parts, state, w, FreshEnd(|state.calls|));
      Include(w, next);
      Settle(next);
    }

    method Include(w: FragmentWrapper, ghost next: C.Client)
      requires Separate() && WrappersCoupled() && Outside(w)
      requires Apart(parts.wrappers + {w}, parts.transports + {w.transport}, parts.resources + {w.transport.resource})
      requires SocksAre(parts.wrappers + {w}, next, null) && ConnectorsAre(next, null) && PointersAre(next)
      requires TimerIs(next.timer) && OutIs(next.out) && Covers(parts.With(w), next)
      modifies this`parts
      ensures parts == old(parts).With(w)
      ensures Represents(next, null, null)
    {
      parts := parts.With(w);
      assert Separate();
      assert WrappersCoupled();
    }

    /** `sock_` is made from the socket of `k`, which its connector then lets go of. */
    method Engage(k: Connector) returns (w: FragmentWrapper)
      requires Valid() && k in parts.connectors && C.At(state, k.index).None?
      modifies this`sock, this`parts, this`state, k.resource
      ensures k.index < |old(state).attempts| && state == C.Engage(old(state), k.index, FreshEnd(|old(state).calls|))
      ensures parts == old(parts).With(w) && fresh(w) && fresh(w.transport) && fresh(w.transport.resource)
      ensures Valid()
    {
      w := MakeWrapper(k.index);
      Enlist(w);
      Hold(w);
      Detach(k);
    }

    /** `sock_` is set. */
    method Hold(w: FragmentWrapper?)
      requires Valid() && (w != null ==> w in parts.wrappers)
      modifies this`sock, this`state
      ensures state == old(state).(sock := if w == null then None else Some(w.index))
      ensures Valid()
    {
      sock := w;
      Settle(state.(sock := if w == null then None else Some(w.index)));
    }

    method DetachIt(k: Connector)
      requires Valid() && k in parts.connectors
      modifies k.resource
      ensures k.index < |state.attempts|
      ensures AttemptOf(k) == state.attempts[k.index].(handle := state.attempts[k.index].handle.Detached())
      ensures Represents(state, null, k)
    {
      k.resource.DetachResource();
    }

    /** The connector lets go of the socket that was moved away. */
    method Detach(k: Connector)
      requires Valid() && k in parts.connectors
      modifies this`state, k.resource
      ensures k.index < |old(state).attempts|
      ensures state == C.SetHandle(old(state), k.index, old(state).attempts[k.index].handle.Detached())
      ensures Valid()
    {
      DetachIt(k);
      SettleConnector(k);
    }

    /** `tcp_client::on_connected`. */
    method OnEstablished(k: Connector) returns (w: FragmentWrapper)
      requires Valid() && k in parts.connectors && C.At(state, k.index).None?
      modifies this`sock, this`parts, this`state
      modifies k.resource, parts.wrappers, parts.transports, parts.resources
      ensures k.index < |old(state).attempts|
      ensures state == C.OnConnected(old(state), k.index)
      ensures parts == old(parts).With(w) && fresh(w) && fresh(w.transport) && fresh(w.transport.resource)
      ensures Valid()
    {
      C.DropSockAddsNone(state, k.index);
      DropSock();
      w := Engage(k);
    }

    lemma NoSockBefore(k: Connector)
      requires C.ControlInv(state) && k.index < |state.attempts| && state.attempts[k.index].outcome.None?
      ensures C.At(state, k.index).None?
    {
      assert C.PlaceOk(state, 0, k.index);
    }

    /** The connect of `k` completes. */
    method OnConnected(k: Connector, code: Completion) returns (w: FragmentWrapper?, shot: Timers.Impl?)
      requires Valid() && C.ControlInv(state) && k in parts.connectors && k.outcome.None?
      modifies this`sock, this`parts, this`state
      modifies k, k.resource, parts.wrappers, parts.transports, parts.resources, timer, timer.pimpl, timer.resources
      ensures k.index < |old(state).attempts| && state == C.ConnectDone(old(state), k.index, code)
      ensures Valid()
      ensures Gained(w, null, shot)
    {
      NoSockBefore(k);
      var verdict := Judge(k, code);
      w, shot := Follow(k, verdict);
    }

    /** What the verdict on a connect leads to. */
    method Follow(k: Connector, verdict: Verdict) returns (w: FragmentWrapper?, shot: Timers.Impl?)
      requires Valid() && k in parts.connectors && C.At(state, k.index).None?
      modifies this`sock, this`parts, this`state
      modifies k.resource, parts.wrappers, parts.transports, parts.resources, timer, timer.pimpl, timer.resources
      ensures k.index < |old(state).attempts| && state == C.Followed(old(state), k.index, verdict)
      ensures Valid()
      ensures Gained(w, null, shot)
    {
      w, shot := null, null;
      if verdict == Refused {
        shot := FollowRefusal();
      } else if verdict == Established {
        w := FollowSuccess(k);
      }
    }

    method FollowRefusal() returns (shot: Timers.Impl)
      requires Valid()
      modifies this`sock, this`state, parts.wrappers, parts.transports, parts.resources
      modifies timer, timer.pimpl, timer.resources
      ensures state == C.OnDisconnected(old(state))
      ensures Valid()
      ensures Gained(null, null, shot)
    {
      shot := OnDisconnected();
      GainedShot(shot);
    }

    method FollowSuccess(k: Connector) returns (w: FragmentWrapper)
      requires Valid() && k in parts.connectors && C.At(state, k.index).None?
      modifies this`sock, this`parts, this`state
      modifies k.resource, parts.wrappers, parts.transports, parts.resources
      ensures k.index < |old(state).attempts|
      ensures state == C.OnConnected(old(state), k.index)
      ensures Valid()
      ensures Gained(w, null, null)
    {
      w := OnEstablished(k);
      GainedWrapper(w);
    }

    method ConnectAgain() returns (k: Connector)
      requires Valid()
      modifies this`connector, this`parts, this`state, parts.handles
      ensures state == C.StartConnect(old(state))
      ensures Valid()
      ensures Gained(null, k, null)
    {
      k := StartConnect();
      GainedConnector(k);
    }

    /** A wait of the reconnect timer completes. */
    method OnTimer(shot: Timers.Impl, code: Completion) returns (k: Connector?)
      requires Valid() && shot in timer.impls && shot.pending
      modifies this`connector, this`parts, this`state, parts.handles, timer`state, shot
      ensures shot.index < |old(state).timer.shots|
      ensures state == C.TimerDone(old(state), shot.index, code)
      ensures Valid()
      ensures Gained(null, k, null)
    {
      var fires := FinishWait(shot, code);
      k := null;
      if fires {
        k := ConnectAgain();
      }
    }

    method Complete(shot: Timers.Impl, code: Completion) returns (fires: bool)
      requires Separate() && ConnectorsAre(state, null) && TimerIs(state.timer) && shot in timer.impls && shot.pending
      modifies timer`state, shot
      ensures shot.index < |state.timer.shots|
      ensures fires == Timers.Fires(state.timer, shot.index, code)
      ensures TimerIs(Timers.Done(state.timer, shot.index, code))
      ensures Separate() && ConnectorsAre(state, null)
    {
      fires := timer.OnTimer(shot, code);
    }

    method FinishWait(shot: Timers.Impl, code: Completion) returns (fires: bool)
      requires Valid() && shot in timer.impls && shot.pending
      modifies this`state, timer`state, shot
      ensures shot.index < |old(state).timer.shots|
      ensures fires == Timers.Fires(old(state).timer, shot.index, code)
      ensures state == old(state).(timer := Timers.Done(old(state).timer, shot.index, code))
      ensures Valid()
    {
      fires := Complete(shot, code);
      SettleTimer(Timers.Done(state.timer, shot.index, code));
    }

    // ----- one event at a time -----

    ghost predicate Known(x: Stimulus)
      reads `parts, timer`impls
    {
      match x
      case Sending(_) => true
      case Connected(k, _) => k in parts.connectors
      case TimerRan(shot, _) => shot in timer.impls
      case Read(w, _) => w in parts.wrappers
      case ReadError(w, _) => w in parts.wrappers
      case Written(w, _) => w in parts.wrappers
    }

    /** A wrapper satisfies the invariant of its socket, so its buffer holds no whole frame. */
    lemma WrapperReady(w: FragmentWrapper)
      requires Valid() && C.Inv(state) && w in parts.wrappers
      ensures C.At(state, w.index) == Some(w.state) && EndInv(w.state)
      ensures w.partialMsg == w.state.partial && Incomplete(w.partialMsg)
    {
      assert w.Coupled();
      DecodeRestIncomplete(w.state.past.consumed);
    }

    method HandleRead(w: FragmentWrapper, chunk: bytes)
      requires Valid() && C.Inv(state) && w in parts.wrappers
      requires C.Enabled(state, C.Read(w.index, chunk)) && SafeEvent(state, C.Read(w.index, chunk))
      modifies this`state, parts.wrappers, parts.transports, udpSender, udpSender.transport
      ensures state == C.Step(old(state), C.Read(w.index, chunk))
      ensures Valid()
      ensures Grown()
    {
      WrapperReady(w);
      OnReadDone(w, chunk);
      GrownBy(null, null, null);
    }

    method HandleReadError(w: FragmentWrapper, code: ErrorCode)
      requires Valid() && C.Inv(state) && w in parts.wrappers && C.Enabled(state, C.ReadError(w.index, code))
      modifies this`sock, this`state, parts.wrappers, parts.transports, parts.resources
      modifies timer, timer.pimpl, timer.resources
      ensures state == C.Step(old(state), C.ReadError(w.index, code))
      ensures Valid()
      ensures Grown()
    {
      WrapperReady(w);
      var shot := OnReadFailed(w, code);
      GainedShot(shot);
      GrownBy(null, null, shot);
    }

    method HandleWritten(w: FragmentWrapper, code: Completion)
      requires Valid() && C.Inv(state) && w in parts.wrappers && C.Enabled(state, C.Written(w.index, 0, code))
      modifies this`sock, this`state, parts.wrappers, parts.transports, parts.resources
      modifies timer, timer.pimpl, timer.resources
      ensures state == C.Step(old(state), C.Written(w.index, 0, code))
      ensures Valid()
      ensures Grown()
    {
      WrapperReady(w);
      var shot := OnWriteDone(w, code);
      GainedShot(shot);
      GrownBy(null, null, shot);
    }

    method HandleConnected(k: Connector, code: Completion)
      requires Valid() && C.Inv(state) && k in parts.connectors && C.Enabled(state, C.Connected(k.index, code))
      modifies this`sock, this`parts, this`state
      modifies k, k.resource, parts.wrappers, parts.transports, parts.resources, timer, timer.pimpl, timer.resources
      ensures state == C.Step(old(state), C.Connected(k.index, code))
      ensures Valid()
      ensures Grown()
    {
      var w, shot := OnConnected(k, code);
      GrownBy(w, null, shot);
    }

    method HandleTimer(shot: Timers.Impl, code: Completion)
      requires Valid() && shot in timer.impls && C.Enabled(state, C.TimerRan(shot.index, code))
      modifies this`connector, this`parts, this`state, parts.handles, timer`state, shot
      ensures state == C.Step(old(state), C.TimerRan(shot.index, code))
      ensures Valid()
      ensures Grown()
    {
      var k := OnTimer(shot, code);
      GrownBy(null, k, null);
    }

    method Dispatch(x: Stimulus)
      requires Valid() && C.Inv(state) && Known(x) && C.Enabled(state, EventOf(x))
      requires SafeEvent(state, EventOf(x))
      modifies this, parts.wrappers, parts.transports, parts.resources, parts.connectors, parts.handles
      modifies timer, timer.pimpl, timer.impls, timer.resources, udpSender, udpSender.transport
      ensures state == C.Step(old(state), EventOf(x))
      ensures Valid()
      ensures Grown()
    {
      match x
      case Sending(m) =>
        Send(m);
        GrownBy(null, null, null);
      case Connected(k, code) => HandleConnected(k, code);
      case TimerRan(shot, code) => HandleTimer(shot, code);
      case Read(w, chunk) => HandleRead(w, chunk);
      case ReadError(w, code) => HandleReadError(w, code);
      case Written(w, code) => HandleWritten(w, code);
    }

    /** Whatever the client is woken for, it takes the step of that event, and all invariants are kept. */
    method Handle(x: Stimulus)
      requires Valid() && C.Inv(state) && Known(x) && C.Enabled(state, EventOf(x))
      requires SafeEvent(state, EventOf(x))
      modifies Footprint()
      ensures state == C.Step(old(state), EventOf(x))
      ensures Valid() && C.Inv(state)
      ensures Grown()
    {
      C.StepKeeps(state, EventOf(x));
      Dispatch(x);
    }

    method ConnectorAt(j: nat) returns (k: Connector)
      requires Covers(parts, state) && j < |state.attempts|
      ensures k in parts.connectors && k.index == j
    {
      assert HasConnector(parts.connectors, j);
      k :| k in parts.connectors && k.index == j;
    }

    method WrapperAt(j: nat) returns (w: FragmentWrapper)
      requires Covers(parts, state) && C.At(state, j).Some?
      ensures w in parts.wrappers && w.index == j
    {
      assert HasWrapper(parts.wrappers, j);
      w :| w in parts.wrappers && w.index == j;
    }

    method ShotAt(i: nat) returns (shot: Timers.Impl)
      requires timer.Covers(state.timer) && i < |state.timer.shots|
      ensures shot in timer.impls && shot.index == i
    {
      assert Timers.HasImpl(timer.impls, i);
      shot :| shot in timer.impls && shot.index == i;
    }

    /** The object whose handler an event is: there is one for everything that is outstanding. */
    method Find(e: C.Event) returns (x: Stimulus)
      requires Covers(parts, state) && timer.Covers(state.timer) && C.SocksOk(state) && C.Enabled(state, e)
      ensures Known(x) && EventOf(x) == e
    {
      match e
      case Sending(m) =>
        x := Stimulus.Sending(m);
      case Connected(j, code) =>
        var k := ConnectorAt(j);
        x := Stimulus.Connected(k, code);
      case TimerRan(i, code) =>
        var shot := ShotAt(i);
        x := Stimulus.TimerRan(shot, code);
      case Read(j, chunk) =>
        var w := WrapperAt(j);
        x := Stimulus.Read(w, chunk);
      case ReadError(j, code) =>
        var w := WrapperAt(j);
        x := Stimulus.ReadError(w, code);
      case Written(j, n, code) =>
        var w := WrapperAt(j);
        x := Stimulus.Written(w, code);
    }

    method Next(e: C.Event)
      requires Valid() && C.Inv(state) && C.Enabled(state, e) && SafeEvent(state, e)
      modifies Footprint()
      ensures state == C.Step(old(state), e)
      ensures Valid() && C.Inv(state)
      ensures Grown()
    {
      var x := Find(e);
      Handle(x);
    }

    /** The events of a run, one after the other: the client ends where the run does. */
    method Drive(es: seq<C.Event>)
      requires Valid() && C.Inv(state) && C.IsRun(state, es) && SafeRun(state, es)
      modifies Footprint()
      ensures state == C.Run(old(state), es)
      ensures Valid() && C.Inv(state)
      ensures Grown()
      decreases |es|
    {
      if es != [] {
        Next(es[0]);
        Drive(es[1..]);
      }
    }

    /** A write of the UDP sender completes; the connections do not notice. */
    method OnUdpSent(code: Completion) returns (error: Completion)
      requires Valid() && udpSender.transport.state.writing != []
      modifies udpSender.transport
      ensures (udpSender.transport.state, error) == T.OnSend(old(udpSender.transport.state), 0, code)
      ensures Valid()
    {
      error := udpSender.OnSent(code);
    }
  }

  /** A client from its construction to the end of any run. */
  method RunClient(es: seq<C.Event>) returns (client: TcpClient)
    requires C.IsRun(C.FRESH, es) && SafeRun(C.FRESH, es)
    ensures fresh(client.Footprint())
    ensures client.Valid() && client.state == C.Run(C.FRESH, es)
  {
    C.FreshInv();
    client := new TcpClient();
    client.Drive(es);
  }
}
