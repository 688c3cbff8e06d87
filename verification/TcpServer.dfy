/** The server object (tunnel_tcp_service.cpp, lines 55-98). */
module TcpServer {
  import opened Options
  import opened Errors
  import opened Wire
  import opened Framing
  import opened Connecting
  import opened Sockets
  import opened Encapsulation
  import opened AutoCancel
  import S = ServerSpec
  import T = TransportSpec
  import UnderlyingTransport

  /**
   The objects that the handlers held by the `io_service` keep alive: every wrapper ever made, with
   its parts, and how many there have been of each address. None is ever forgotten.
   */
  datatype Parts = Parts(
    wrappers: set<FragmentWrapper>,
    transports: set<UnderlyingTransport.Transport<bytes>>,
    resources: set<EnableCancelResource>,
    accepted: map<string, nat>)
  {
    function Accepted(k: string): nat {
      if k in accepted then accepted[k] else 0
    }

    function With(w: FragmentWrapper): Parts {
      Parts(wrappers + {w}, transports + {w.transport}, resources + {w.transport.resource},
            accepted[w.peer := Accepted(w.peer) + 1])
    }

    ghost function Objects(): set<object> {
      wrappers + transports + resources
    }

    ghost predicate Within(p: Parts) {
      wrappers <= p.wrappers && transports <= p.transports && resources <= p.resources
    }
  }

  ghost predicate HasWrapper(ws: set<FragmentWrapper>, k: string, i: nat) {
    exists w :: w in ws && w.peer == k && w.index == i
  }

  /** The first `n` connections of `k` have their wrappers, and there have been no more. */
  ghost predicate HasAll(p: Parts, k: string, n: nat) {
    p.Accepted(k) == n && forall i :: 0 <= i < n ==> HasWrapper(p.wrappers, k, i)
  }

  /** Every connection has its wrapper. */
  ghost predicate Covers(p: Parts, s: S.Server) {
    forall k :: HasAll(p, k, |S.ConnsOf(s, k)|)
  }

  /** No connection has been added. */
  lemma CoversSame(p: Parts, s: S.Server, s': S.Server)
    requires Covers(p, s) && forall k :: |S.ConnsOf(s', k)| == |S.ConnsOf(s, k)|
    ensures Covers(p, s')
  {
    forall k ensures HasAll(p, k, |S.ConnsOf(s', k)|) {
      assert HasAll(p, k, |S.ConnsOf(s, k)|);
    }
  }

  lemma HasAllPlus(p: Parts, k: string, n: nat, w: FragmentWrapper)
    requires HasAll(p, k, n) && (w.peer == k ==> w.index == n)
    ensures HasAll(p.With(w), k, if w.peer == k then n + 1 else n)
  {
    forall i | 0 <= i < (if w.peer == k then n + 1 else n) ensures HasWrapper(p.With(w).wrappers, k, i) {
      if i < n {
        assert HasWrapper(p.wrappers, k, i);
        var v :| v in p.wrappers && v.peer == k && v.index == i;
        assert v in p.With(w).wrappers;
      } else {
        assert w in p.With(w).wrappers;
      }
    }
  }

  lemma CoversAccepted(p: Parts, s: S.Server, w: FragmentWrapper)
    requires Covers(p, s) && w.index == |S.ConnsOf(s, w.peer)|
    ensures Covers(p.With(w), S.OnAccept(s, w.peer))
  {
    forall k ensures HasAll(p.With(w), k, |S.ConnsOf(S.OnAccept(s, w.peer), k)|) {
      assert HasAll(p, k, |S.ConnsOf(s, k)|);
      HasAllPlus(p, k, |S.ConnsOf(s, k)|, w);
    }
  }

  /** What the program asserts of a message holds of every one that the event completes. */
  predicate SafeEvent(s: S.Server, e: S.Event)
    requires S.Enabled(s, e)
  {
    e.Read? ==> SafeToRead(S.EndAt(s, e.k, e.i), e.chunk)
  }

  predicate SafeRun(s: S.Server, es: seq<S.Event>)
    requires S.IsRun(s, es)
    decreases |es|
  {
    es != [] ==> SafeEvent(s, es[0]) && SafeRun(S.Step(s, es[0]), es[1..])
  }

  /** What the server is woken for, and the wrapper whose handler it is. */
  datatype Stimulus =
    | Sending(data: Message, client: string)
    | Accepted(k: string, acceptCode: Completion)
    | Read(w: FragmentWrapper, chunk: bytes)
    | ReadError(w: FragmentWrapper, error: ErrorCode)
    | Written(w: FragmentWrapper, writeCode: Completion)

  function EventOf(x: Stimulus): S.Event {
    match x
    case Sending(data, client) => S.Sending(data, client)
    case Accepted(k, code) => S.Accepted(k, code)
    case Read(w, chunk) => S.Read(w.peer, w.index, chunk)
    case ReadError(w, code) => S.ReadError(w.peer, w.index, code)
    case Written(w, code) => S.Written(w.peer, w.index, 0, code)
  }

  class TcpServer {
    const udpSender: UdpSender
    const acceptor: AcceptorImpl
    var clients: map<string, FragmentWrapper>

    var parts: Parts
    ghost var state: S.Server

    /** All that the server may change. */
    ghost function Footprint(): set<object>
      reads `parts
    {
      {this, acceptor, acceptor.resource, udpSender, udpSender.transport, udpSender.transport.resource}
      + parts.Objects()
    }

    /** Every part there was is still there, and what has been added is new. */
    twostate predicate Grown()
      reads `parts
    {
      && old(parts).Within(parts) && old(Footprint()) <= Footprint()
      && (forall o :: o in Footprint() && o !in old(Footprint()) ==> fresh(o))
    }

    /** What has been added, and is new: a wrapper, if any. */
    twostate predicate Gained(new w: FragmentWrapper?)
      reads `parts
    {
      && parts == (if w != null then old(parts).With(w) else old(parts))
      && (w != null ==> fresh(w) && fresh(w.transport) && fresh(w.transport.resource))
    }

    twostate lemma GrownBy(new w: FragmentWrapper?)
      requires Gained(w)
      ensures Grown()
    {
    }

    /** No two wrappers share an object or a place, and none shares one with the server. */
    ghost predicate Separate()
      reads `parts
    {
      Apart(parts.wrappers, parts.transports, parts.resources)
      && acceptor.resource !in parts.resources && udpSender.transport.resource !in parts.resources
    }

    ghost predicate WrappersCoupled()
      requires Separate()
      reads `parts, parts.wrappers, parts.transports, parts.resources
    {
      forall w :: w in parts.wrappers ==> w.Coupled()
    }

    /** Each wrapper is in the state of its connection. */
    ghost predicate Matches(s: S.Server)
      reads `parts, parts.wrappers
    {
      forall w :: w in parts.wrappers ==> S.IsConn(s, w.peer, w.index) && w.state == S.EndAt(s, w.peer, w.index)
    }

    ghost predicate TableIs(s: S.Server)
      reads `clients, `parts
    {
      && clients.Keys == s.clients.Keys
      && (forall k :: k in clients ==>
            clients[k] in parts.wrappers && clients[k].peer == k && clients[k].index == s.clients[k])
    }

    ghost predicate PartsAre(s: S.Server)
      reads acceptor, acceptor.resource, udpSender, udpSender.transport, udpSender.transport.resource
    {
      && acceptor.State() == s.acceptor && acceptor.resource != udpSender.transport.resource
      && udpSender.Valid() && udpSender.handed == S.MessagesOf(s.out)
    }

    ghost predicate Represents(s: S.Server)
      reads this, parts.wrappers, parts.transports, parts.resources, acceptor, acceptor.resource
      reads udpSender, udpSender.transport, udpSender.transport.resource
    {
      Separate() && WrappersCoupled() && Matches(s) && TableIs(s) && PartsAre(s) && Covers(parts, s)
    }

    ghost predicate Valid()
      reads this, parts.wrappers, parts.transports, parts.resources, acceptor, acceptor.resource
      reads udpSender, udpSender.transport, udpSender.transport.resource
    {
      Represents(state)
    }

    constructor ()
      ensures state == S.FRESH
      ensures Valid()
      ensures fresh(Footprint())
    {
      udpSender := new UdpSender();
      acceptor := new AcceptorImpl();
      clients, parts, state := map[], Parts({}, {}, {}, map[]), S.FRESH;
    }

    /** The wrappers in `sent` have taken the step `send`; the others are as in `before`. */
    ghost predicate SentSoFar(sent: set<FragmentWrapper>, before: map<FragmentWrapper, End>, send: End -> End)
      requires before.Keys == parts.wrappers
      reads `parts, parts.wrappers
    {
      forall w :: w in parts.wrappers ==> w.state == if w in sent then send(before[w]) else before[w]
    }

    /** One more wrapper sends; the others do not notice. */
    method SendOn(w: FragmentWrapper, data: Message, ghost sent: set<FragmentWrapper>,
                  ghost before: map<FragmentWrapper, End>, ghost send: End -> End)
      requires Separate() && WrappersCoupled() && w in parts.wrappers && w !in sent
      requires before.Keys == parts.wrappers && SentSoFar(sent, before, send)
      requires T.SingleWriter(w.state.tx) && IsSend(send, data)
      modifies w, w.transport
      ensures WrappersCoupled() && SentSoFar(sent + {w}, before, send)
    {
      w.Send(data);
    }

    /** Every client in the table sends. */
    method SendToAll(data: Message, ghost before: map<FragmentWrapper, End>, ghost send: End -> End)
      returns (ghost sent: set<FragmentWrapper>)
      requires Separate() && WrappersCoupled()
      requires before.Keys == parts.wrappers && SentSoFar({}, before, send)
      requires forall k :: k in clients ==> clients[k] in parts.wrappers && clients[k].peer == k
      requires (forall w :: w in parts.wrappers ==> T.SingleWriter(before[w].tx)) && IsSend(send, data)
      modifies parts.wrappers, parts.transports
      ensures WrappersCoupled() && SentSoFar(sent, before, send)
      ensures sent == set k | k in clients :: clients[k]
    {
      var table := clients;
      var keys := table.Keys;
      sent := {};
      while keys != {}
        invariant keys <= table.Keys && sent == set k | k in table && k !in keys :: table[k]
        invariant WrappersCoupled() && SentSoFar(sent, before, send)
        modifies parts.wrappers, parts.transports
        decreases keys
      {
        var k :| k in keys;
        SendOn(table[k], data, sent, before, send);
        sent, keys := sent + {table[k]}, keys - {k};
      }
    }

    /** Who has sent is who the call is for. */
    lemma SentMatches(sent: set<FragmentWrapper>, data: Message, client: string,
                      before: map<FragmentWrapper, End>, send: End -> End)
      requires Separate() && TableIs(state) && before.Keys == parts.wrappers && IsSend(send, data)
      requires forall w :: w in parts.wrappers ==>
                 S.IsConn(state, w.peer, w.index) && before[w] == S.EndAt(state, w.peer, w.index)
      requires SentSoFar(sent, before, send)
      requires sent == set k | k in clients && S.Addressed(client, k) :: clients[k]
      ensures Matches(S.Send(state, data, client))
    {
      forall w | w in parts.wrappers
        ensures S.IsConn(S.Send(state, data, client), w.peer, w.index)
        ensures w.state == S.EndAt(S.Send(state, data, client), w.peer, w.index)
      {
        S.SendAt(state, data, client, w.peer, w.index);
        assert w in sent <==> S.Addressed(client, w.peer) && w.peer in clients && clients[w.peer] == w;
      }
    }

    /** The ends of all wrappers before a call of `send`, each with one write at most outstanding. */
    lemma Before() returns (before: map<FragmentWrapper, End>)
      requires Matches(state) && S.Inv(state)
      ensures before.Keys == parts.wrappers
      ensures forall w :: w in parts.wrappers ==> w.state == before[w] && T.SingleWriter(before[w].tx)
      ensures forall w :: w in parts.wrappers ==>
                S.IsConn(state, w.peer, w.index) && before[w] == S.EndAt(state, w.peer, w.index)
    {
      before := map w | w in parts.wrappers :: w.state;
      forall w | w in parts.wrappers ensures T.SingleWriter(w.state.tx) {
        S.EndInvAt(state, w.peer, w.index);
      }
    }

    /** To all clients if `client` is empty, else to the one it names, if connected. */
    method SendTo(data: Message, client: string, ghost before: map<FragmentWrapper, End>, ghost send: End -> End)
      returns (ghost sent: set<FragmentWrapper>)
      requires Separate() && WrappersCoupled() && TableIs(state)
      requires before.Keys == parts.wrappers && SentSoFar({}, before, send)
      requires (forall w :: w in parts.wrappers ==> T.SingleWriter(before[w].tx)) && IsSend(send, data)
      modifies parts.wrappers, parts.transports
      ensures WrappersCoupled() && SentSoFar(sent, before, send)
      ensures sent == set k | k in clients && S.Addressed(client, k) :: clients[k]
    {
      sent := {};
      if client == "" {
        sent := SendToAll(data, before, send);
      } else if client in clients {
        SendOn(clients[client], data, {}, before, send);
        sent := {} + {clients[client]};
      }
    }

    lemma SendLeavesParts(data: Message, client: string)
      requires TableIs(state) && PartsAre(state)
      ensures TableIs(S.Send(state, data, client)) && PartsAre(S.Send(state, data, client))
    {
    }

    ghost method Settle(next: S.Server)
      requires Represents(next)
      modifies this`state
      ensures state == next
      ensures Valid()
    {
      state := next;
    }

    method Send(data: Message, client: string)
      requires Valid() && S.Inv(state)
      modifies this`state, parts.wrappers, parts.transports
      ensures state == S.Send(old(state), data, client)
      ensures Valid()
      ensures forall w :: w in parts.wrappers ==>
                w.state == if (client == "" || client == w.peer) && w.peer in clients && clients[w.peer] == w
                           then SendMessage(old(w.state), data) else old(w.state)
    {
      ghost var before := Before();
      ghost var send := SendStep(data);
      ghost var sent := SendTo(data, client, before, send);
      SentMatches(sent, data, client, before, send);
      SendLeavesParts(data, client);
      CoversSame(parts, state, S.Send(state, data, client));
      Settle(S.Send(state, data, client));
    }

    // ----- handlers -----

    /** A handler of `w` has run; all other wrappers are still as in `state`. */
    ghost predicate Touched(w: FragmentWrapper)
      reads `parts, `state, parts.wrappers
    {
      && w in parts.wrappers && S.IsConn(state, w.peer, w.index)
      && (forall v :: v in parts.wrappers && v != w ==>
            S.IsConn(state, v.peer, v.index) && v.state == S.EndAt(state, v.peer, v.index))
    }

    lemma TouchedMatches(w: FragmentWrapper)
      requires Separate() && Touched(w)
      ensures Matches(S.SetEnd(state, w.peer, w.index, w.state))
    {
      var next := S.SetEnd(state, w.peer, w.index, w.state);
      forall v | v in parts.wrappers
        ensures S.IsConn(next, v.peer, v.index) && v.state == S.EndAt(next, v.peer, v.index)
      {
        S.SetEndAt(state, w.peer, w.index, w.state, v.peer, v.index);
      }
    }

    ghost method SettleTouched(w: FragmentWrapper)
      requires Separate() && WrappersCoupled() && Touched(w) && TableIs(state) && PartsAre(state)
      requires Covers(parts, state)
      modifies this`state
      ensures S.IsConn(old(state), w.peer, w.index)
      ensures state == S.SetEnd(old(state), w.peer, w.index, w.state)
      ensures Valid()
    {
      TouchedMatches(w);
      CoversSame(parts, state, S.SetEnd(state, w.peer, w.index, w.state));
      Settle(S.SetEnd(state, w.peer, w.index, w.state));
    }

    /** The wrapper `gone`, the occupant of `k` if it had one, is closed; all others are as in `state`. */
    ghost predicate ClosedOnly(k: string, gone: FragmentWrapper?)
      reads `parts, `state, parts.wrappers
    {
      && (gone == null <==> k !in state.clients)
      && (gone != null ==>
            gone in parts.wrappers && gone.peer == k && k in state.clients && gone.index == state.clients[k])
      && (forall w :: w in parts.wrappers ==> S.IsConn(state, w.peer, w.index))
      && (forall w :: w in parts.wrappers && w != gone ==> w.state == S.EndAt(state, w.peer, w.index))
      && (gone != null ==> gone.state == Closed(S.EndAt(state, gone.peer, gone.index)))
    }

    ghost predicate TableLacks(k: string)
      reads `clients, `parts, `state
    {
      && clients.Keys == state.clients.Keys - {k}
      && (forall l :: l in clients ==>
            clients[l] in parts.wrappers && clients[l].peer == l && clients[l].index == state.clients[l])
    }

    ghost predicate Dropped(k: string, gone: FragmentWrapper?)
      reads `clients, `parts, `state, parts.wrappers
    {
      ClosedOnly(k, gone) && TableLacks(k)
    }

    lemma DroppedMatches(k: string, gone: FragmentWrapper?)
      requires Separate() && Dropped(k, gone)
      ensures Matches(S.OnDisconnected(state, k)) && TableIs(S.OnDisconnected(state, k))
    {
      var next := S.OnDisconnected(state, k);
      forall w | w in parts.wrappers
        ensures S.IsConn(next, w.peer, w.index) && w.state == S.EndAt(next, w.peer, w.index)
      {
        S.OnDisconnectedAt(state, k, w.peer, w.index);
      }
    }

    lemma DroppedRepresents(k: string, gone: FragmentWrapper?)
      requires Separate() && WrappersCoupled() && Dropped(k, gone) && PartsAre(state) && Covers(parts, state)
      ensures Represents(S.OnDisconnected(state, k))
    {
      CoversSame(parts, state, S.OnDisconnected(state, k));
      DroppedMatches(k, gone);
    }

    /** Destroys a wrapper; the others do not notice. */
    method Destroy(w: FragmentWrapper)
      requires Separate() && WrappersCoupled() && w in parts.wrappers && PartsAre(state)
      modifies w`state, w.transport`state, w.transport.resource
      ensures WrappersCoupled() && w.state == Closed(old(w.state)) && PartsAre(state)
      ensures forall v :: v in parts.wrappers && v != w ==> v.state == old(v.state)
    {
      w.Close();
    }

    method DestroyOccupant(k: string) returns (ghost gone: FragmentWrapper?)
      requires Valid()
      modifies parts.wrappers, parts.transports, parts.resources
      ensures WrappersCoupled() && ClosedOnly(k, gone) && PartsAre(state)
    {
      gone := null;
      if k in clients {
        gone := clients[k];
        Destroy(clients[k]);
      }
    }

    ghost method SettleDropped(k: string, gone: FragmentWrapper?)
      requires Separate() && WrappersCoupled() && Dropped(k, gone) && PartsAre(state) && Covers(parts, state)
      modifies this`state
      ensures state == S.OnDisconnected(old(state), k)
      ensures Valid()
    {
      DroppedRepresents(k, gone);
      Settle(S.OnDisconnected(state, k));
    }

    method Erase(k: string, ghost gone: FragmentWrapper?)
      requires Separate() && WrappersCoupled() && ClosedOnly(k, gone) && TableIs(state) && PartsAre(state)
      requires Covers(parts, state)
      modifies this`clients, this`state
      ensures state == S.OnDisconnected(old(state), k)
      ensures Valid()
    {
      clients := clients - {k};
      SettleDropped(k, gone);
    }

    /** Erases a key; the wrapper it held is destroyed with its last owner. */
    method OnDisconnected(client: string)
      requires Valid()
      modifies this`clients, this`state, parts.wrappers, parts.transports, parts.resources
      ensures state == S.OnDisconnected(old(state), client)
      ensures Valid()
    {
      ghost var gone := DestroyOccupant(client);
      Erase(client, gone);
    }

    /** The end of a handler of `w`. */
    method AfterHandler(w: FragmentWrapper, up: bool)
      requires Separate() && WrappersCoupled() && Touched(w) && TableIs(state) && PartsAre(state)
      requires Covers(parts, state)
      modifies this`clients, this`state, parts.wrappers, parts.transports, parts.resources
      ensures S.IsConn(old(state), w.peer, w.index)
      ensures state == S.Raised(old(state), w.peer, w.index, old(w.state), up)
      ensures Valid()
    {
      SettleTouched(w);
      if up {
        OnDisconnected(w.peer);
      }
    }

    method ReadFailedAt(w: FragmentWrapper, code: ErrorCode) returns (up: bool)
      requires Valid() && w in parts.wrappers && w.state.tx.reading > 0
      modifies w, w.transport
      ensures (w.state, up) == Sockets.ReadFailed(old(w.state), code)
      ensures WrappersCoupled() && Touched(w) && PartsAre(state)
    {
      up := w.OnReadFailed(code);
    }

    /** A read of `w` fails. */
    method OnReadFailed(w: FragmentWrapper, code: ErrorCode)
      requires Valid() && w in parts.wrappers && w.state.tx.reading > 0
      modifies this`clients, this`state, parts.wrappers, parts.transports, parts.resources
      ensures S.IsConn(old(state), w.peer, w.index) && S.EndAt(old(state), w.peer, w.index) == old(w.state)
      ensures state == S.ReadFailed(old(state), w.peer, w.index, code)
      ensures Valid()
    {
      var up := ReadFailedAt(w, code);
      AfterHandler(w, up);
    }

    method WriteDoneAt(w: FragmentWrapper, code: Completion) returns (up: bool)
      requires Valid() && w in parts.wrappers && w.state.tx.writing != [] && T.SingleWriter(w.state.tx)
      modifies w, w.transport
      ensures (w.state, up) == Sockets.WriteDone(old(w.state), 0, code)
      ensures WrappersCoupled() && Touched(w) && PartsAre(state)
    {
      up := w.OnWriteDone(code);
    }

    /** The outstanding write of `w` completes. */
    method OnWriteDone(w: FragmentWrapper, code: Completion)
      requires Valid() && w in parts.wrappers && w.state.tx.writing != [] && T.SingleWriter(w.state.tx)
      modifies this`clients, this`state, parts.wrappers, parts.transports, parts.resources
      ensures S.IsConn(old(state), w.peer, w.index) && S.EndAt(old(state), w.peer, w.index) == old(w.state)
      ensures state == S.WriteDone(old(state), w.peer, w.index, 0, code)
      ensures Valid()
    {
      var up := WriteDoneAt(w, code);
      AfterHandler(w, up);
    }

    method ReadDoneAt(w: FragmentWrapper, chunk: bytes) returns (messages: seq<Message>)
      requires Valid() && w in parts.wrappers && w.state.tx.reading > 0
      requires Incomplete(w.partialMsg) && |w.partialMsg| + |chunk| < TWO_63
      modifies w, w.transport
      ensures w.state == Receive(old(w.state), chunk)
      ensures messages == NewlyDelivered(old(w.state), w.state)
      ensures WrappersCoupled() && Touched(w) && PartsAre(state)
    {
      messages := w.OnReadDone(chunk);
    }

    /** `tcp_server::on_receive` for each message that a chunk completed. */
    method HandOver(messages: seq<Message>)
      requires Separate() && WrappersCoupled() && udpSender.Valid() && AllSplittable(messages)
      modifies udpSender, udpSender.transport
      ensures WrappersCoupled() && udpSender.Valid() && udpSender.handed == old(udpSender.handed) + messages
    {
      for n := 0 to |messages|
        invariant udpSender.Valid() && udpSender.handed == old(udpSender.handed) + messages[..n]
        invariant WrappersCoupled()
      {
        udpSender.Send(messages[n]);
        assert messages[..n] + [messages[n]] == messages[..n + 1];
      }
      assert messages[..|messages|] == messages;
    }

    /** `w` reads a chunk. The program asserts that every message holds an endpoint. */
    method OnReadDone(w: FragmentWrapper, chunk: bytes)
      requires Valid() && w in parts.wrappers && w.state.tx.reading > 0
      requires Incomplete(w.partialMsg) && |w.partialMsg| + |chunk| < TWO_63
      requires AllSplittable(NewlyDelivered(w.state, Receive(w.state, chunk)))
      modifies this`state, w, w.transport, udpSender, udpSender.transport
      ensures S.IsConn(old(state), w.peer, w.index) && S.EndAt(old(state), w.peer, w.index) == old(w.state)
      ensures state == S.ReadDone(old(state), w.peer, w.index, chunk)
      ensures Valid()
    {
      var messages := ReadDoneAt(w, chunk);
      SettleTouched(w);
      HandOver(messages);
      S.TaggedMessages(state.out, w.peer, messages);
      CoversSame(parts, state, state.(out := state.out + S.Tagged(w.peer, messages)));
      Settle(state.(out := state.out + S.Tagged(w.peer, messages)));
    }

    /** The table has the newcomer `w` at `k`. */
    ghost predicate TableHas(k: string, w: FragmentWrapper)
      reads `clients, `parts, `state
    {
      && clients.Keys == state.clients.Keys + {k} && clients[k] == w
      && (forall l :: l in clients && l != k ==>
            clients[l] in parts.wrappers && clients[l].peer == l && clients[l].index == state.clients[l])
    }

    /** The newcomer is at the end of the connections of `k`, and `gone`, the occupant if there was one, is closed. */
    ghost predicate Joined(ws: set<FragmentWrapper>, k: string, gone: FragmentWrapper?, w: FragmentWrapper)
      reads `state, ws
    {
      && w in ws && w.peer == k && w.index == |S.ConnsOf(state, k)| && w.state == FreshEnd(|state.log|)
      && (forall v :: v in ws && v != w ==>
            && S.IsConn(state, v.peer, v.index)
            && (v == gone <==> v.peer == k && S.Occupant(state, k) == Some(v.index))
            && v.state == if v == gone then Closed(S.EndAt(state, v.peer, v.index))
                          else S.EndAt(state, v.peer, v.index))
    }

    lemma JoinedMatches(k: string, gone: FragmentWrapper?, w: FragmentWrapper)
      requires Joined(parts.wrappers, k, gone, w)
      ensures Matches(S.OnAccept(state, k))
    {
      var next := S.OnAccept(state, k);
      assert w.state == S.EndAt(next, k, w.index);
      forall v | v in parts.wrappers && v != w
        ensures S.IsConn(next, v.peer, v.index) && v.state == S.EndAt(next, v.peer, v.index)
      {
        S.OnAcceptAt(state, k, v.peer, v.index);
      }
    }

    ghost method SettleJoined(k: string, gone: FragmentWrapper?, w: FragmentWrapper)
      requires Separate() && WrappersCoupled() && PartsAre(state)
      requires Joined(parts.wrappers, k, gone, w) && TableHas(k, w) && Covers(parts, S.OnAccept(state, k))
      modifies this`state
      ensures state == S.OnAccept(old(state), k)
      ensures Valid()
    {
      JoinedMatches(k, gone, w);
      Settle(S.OnAccept(state, k));
    }

    /** A wrapper that shares nothing with the server yet. */
    ghost predicate Outside(w: FragmentWrapper)
      reads this, w, w.transport, w.transport.resource
    {
      && w !in parts.wrappers && w.transport !in parts.transports && w.transport.resource !in parts.resources
      && w.transport.resource != acceptor.resource && w.transport.resource != udpSender.transport.resource
      && w.Coupled() && w.state == FreshEnd(|state.log|)
    }

    method NewWrapper(k: string) returns (w: FragmentWrapper)
      requires Valid()
      ensures fresh(w) && fresh(w.transport) && fresh(w.transport.resource)
      ensures w.peer == k && w.index == |S.ConnsOf(state, k)| && Outside(w)
      ensures Valid()
    {
      assert HasAll(parts, k, |S.ConnsOf(state, k)|);
      w := new FragmentWrapper(k, parts.Accepted(k), |state.log|);
    }

    /** The closed wrapper is the one at the place of the occupant, and the newcomer's place is free. */
    lemma Joins(k: string, gone: FragmentWrapper?, w: FragmentWrapper)
      requires Separate() && ClosedOnly(k, gone)
      requires Outside(w) && w.peer == k && w.index == |S.ConnsOf(state, k)|
      ensures Joined(parts.wrappers + {w}, k, gone, w)
      ensures Apart(parts.wrappers + {w}, parts.transports + {w.transport}, parts.resources + {w.transport.resource})
    {
      ApartPlus(parts.wrappers, parts.transports, parts.resources, w);
    }

    /** The newcomer is made first; it does not notice that the occupant is destroyed. */
    method Replace(k: string) returns (w: FragmentWrapper, ghost gone: FragmentWrapper?)
      requires Valid()
      modifies parts.wrappers, parts.transports, parts.resources
      ensures w.peer == k && w.index == |S.ConnsOf(state, k)| && Outside(w)
      ensures fresh(w) && fresh(w.transport) && fresh(w.transport.resource)
      ensures Separate() && WrappersCoupled() && ClosedOnly(k, gone)
      ensures TableIs(state) && PartsAre(state)
    {
      w := NewWrapper(k);
      gone := DestroyOccupant(k);
    }

    method Include(k: string, ghost gone: FragmentWrapper?, w: FragmentWrapper)
      requires Separate() && WrappersCoupled() && TableIs(state) && Outside(w)
      requires Apart(parts.wrappers + {w}, parts.transports + {w.transport}, parts.resources + {w.transport.resource})
      requires Joined(parts.wrappers + {w}, k, gone, w)
      modifies this`parts
      ensures parts == old(parts).With(w)
      ensures TableIs(state)
      ensures Separate() && WrappersCoupled()
      ensures Joined(parts.wrappers, k, gone, w)
    {
      parts := parts.With(w);
      assert Separate();
      assert WrappersCoupled();
    }

    method Enlist(k: string, ghost gone: FragmentWrapper?, w: FragmentWrapper)
      requires Separate() && WrappersCoupled() && ClosedOnly(k, gone) && TableIs(state)
      requires Outside(w) && w.peer == k && w.index == |S.ConnsOf(state, k)| && Covers(parts, state)
      modifies this`parts
      ensures parts == old(parts).With(w) && Covers(parts, S.OnAccept(state, k))
      ensures TableIs(state)
      ensures Separate() && WrappersCoupled()
      ensures Joined(parts.wrappers, k, gone, w)
    {
      Joins(k, gone, w);
      CoversAccepted(parts, state, w);
      Include(k, gone, w);
    }

    /** The table holds the new wrapper in place of the one that was destroyed. */
    method Seat(k: string, ghost gone: FragmentWrapper?, w: FragmentWrapper)
      requires Separate() && WrappersCoupled() && PartsAre(state)
      requires TableIs(state) && Joined(parts.wrappers, k, gone, w) && Covers(parts, S.OnAccept(state, k))
      modifies this`clients, this`state
      ensures state == S.OnAccept(old(state), k)
      ensures Valid()
    {
      clients := clients[k := w];
      SettleJoined(k, gone, w);
    }

    method Install(k: string, ghost gone: FragmentWrapper?, w: FragmentWrapper)
      requires Separate() && WrappersCoupled() && ClosedOnly(k, gone) && TableIs(state) && PartsAre(state)
      requires Outside(w) && w.peer == k && w.index == |S.ConnsOf(state, k)| && Covers(parts, state)
      modifies this`clients, this`parts, this`state
      ensures state == S.OnAccept(old(state), k)
      ensures parts == old(parts).With(w)
      ensures Valid()
    {
      Enlist(k, gone, w);
      Seat(k, gone, w);
    }

    /** `tcp_server::on_accept`. */
    method Join(client: string) returns (w: FragmentWrapper)
      requires Valid()
      modifies this`clients, this`parts, this`state, parts.wrappers, parts.transports, parts.resources
      ensures state == S.OnAccept(old(state), client)
      ensures Valid()
      ensures Gained(w)
    {
      ghost var gone;
      w, gone := Replace(client);
      Install(client, gone, w);
    }

    /** An accept completes; the next one is armed before the connection is passed on. */
    method OnAccept(client: string, code: Completion) returns (w: FragmentWrapper?)
      requires Valid() && state.acceptor.pending > 0
      modifies this`clients, this`parts, this`state, acceptor, parts.wrappers, parts.transports, parts.resources
      ensures state == S.AcceptDone(old(state), client, code)
      ensures Valid()
      ensures Gained(w)
    {
      var verdict := acceptor.OnAccept(code);
      CoversSame(parts, state, state.(acceptor := AfterAccept(state.acceptor, code).0));
      Settle(state.(acceptor := AfterAccept(state.acceptor, code).0));
      w := null;
      if verdict == Established {
        w := Join(client);
      }
    }

    // ----- one event at a time -----

    ghost predicate Known(x: Stimulus)
      reads `parts
    {
      match x
      case Sending(_, _) => true
      case Accepted(_, _) => true
      case Read(w, _) => w in parts.wrappers
      case ReadError(w, _) => w in parts.wrappers
      case Written(w, _) => w in parts.wrappers
    }

    /** A wrapper satisfies the invariant of its connection, so its buffer holds no whole frame. */
    lemma WrapperReady(w: FragmentWrapper)
      requires Valid() && S.Inv(state) && w in parts.wrappers
      ensures S.IsConn(state, w.peer, w.index) && w.state == S.EndAt(state, w.peer, w.index) && EndInv(w.state)
      ensures w.partialMsg == w.state.partial && Incomplete(w.partialMsg)
    {
      assert w.Coupled();
      S.EndInvAt(state, w.peer, w.index);
      DecodeRestIncomplete(w.state.past.consumed);
    }

    method HandleRead(w: FragmentWrapper, chunk: bytes)
      requires Valid() && S.Inv(state) && w in parts.wrappers
      requires S.Enabled(state, S.Read(w.peer, w.index, chunk)) && SafeEvent(state, S.Read(w.peer, w.index, chunk))
      modifies this`state, parts.wrappers, parts.transports, udpSender, udpSender.transport
      ensures state == S.Step(old(state), S.Read(w.peer, w.index, chunk))
      ensures Valid()
    {
      WrapperReady(w);
      OnReadDone(w, chunk);
    }

    method HandleReadError(w: FragmentWrapper, code: ErrorCode)
      requires Valid() && S.Inv(state) && w in parts.wrappers && S.Enabled(state, S.ReadError(w.peer, w.index, code))
      modifies this`clients, this`state, parts.wrappers, parts.transports, parts.resources
      ensures state == S.Step(old(state), S.ReadError(w.peer, w.index, code))
      ensures Valid()
    {
      WrapperReady(w);
      OnReadFailed(w, code);
    }

    method HandleWritten(w: FragmentWrapper, code: Completion)
      requires Valid() && S.Inv(state) && w in parts.wrappers && S.Enabled(state, S.Written(w.peer, w.index, 0, code))
      modifies this`clients, this`state, parts.wrappers, parts.transports, parts.resources
      ensures state == S.Step(old(state), S.Written(w.peer, w.index, 0, code))
      ensures Valid()
    {
      WrapperReady(w);
      OnWriteDone(w, code);
    }

    method Dispatch(x: Stimulus) returns (added: FragmentWrapper?)
      requires Valid() && S.Inv(state) && Known(x) && S.Enabled(state, EventOf(x))
      requires SafeEvent(state, EventOf(x))
      modifies this, acceptor, parts.wrappers, parts.transports, parts.resources, udpSender, udpSender.transport
      ensures state == S.Step(old(state), EventOf(x))
      ensures Valid()
      ensures Gained(added)
    {
      added := null;
      match x
      case Sending(data, client) => Send(data, client);
      case Accepted(k, code) => added := OnAccept(k, code);
      case Read(w, chunk) => HandleRead(w, chunk);
      case ReadError(w, code) => HandleReadError(w, code);
      case Written(w, code) => HandleWritten(w, code);
    }

    /** Whatever the server is woken for, it takes the step of that event, and all invariants are kept. */
    method Handle(x: Stimulus)
      requires Valid() && S.Inv(state) && Known(x) && S.Enabled(state, EventOf(x))
      requires SafeEvent(state, EventOf(x))
      modifies Footprint()
      ensures state == S.Step(old(state), EventOf(x))
      ensures Valid() && S.Inv(state)
      ensures Grown()
    {
      S.StepKeeps(state, EventOf(x));
      var added := Dispatch(x);
      GrownBy(added);
    }

    method WrapperAt(k: string, i: nat) returns (w: FragmentWrapper)
      requires Covers(parts, state) && S.IsConn(state, k, i)
      ensures w in parts.wrappers && w.peer == k && w.index == i
    {
      assert HasAll(parts, k, |S.ConnsOf(state, k)|);
      assert HasWrapper(parts.wrappers, k, i);
      w :| w in parts.wrappers && w.peer == k && w.index == i;
    }

    /** The wrapper whose handler an event is: there is one for everything that is outstanding. */
    method Find(e: S.Event) returns (x: Stimulus)
      requires Covers(parts, state) && S.Inv(state) && S.Enabled(state, e)
      ensures Known(x) && EventOf(x) == e
    {
      match e
      case Sending(data, client) =>
        x := Stimulus.Sending(data, client);
      case Accepted(k, code) =>
        x := Stimulus.Accepted(k, code);
      case Read(k, i, chunk) =>
        var w := WrapperAt(k, i);
        x := Stimulus.Read(w, chunk);
      case ReadError(k, i, code) =>
        var w := WrapperAt(k, i);
        x := Stimulus.ReadError(w, code);
      case Written(k, i, n, code) =>
        var w := WrapperAt(k, i);
        S.EndInvAt(state, k, i);
        x := Stimulus.Written(w, code);
    }

    method Next(e: S.Event)
      requires Valid() && S.Inv(state) && S.Enabled(state, e) && SafeEvent(state, e)
      modifies Footprint()
      ensures state == S.Step(old(state), e)
      ensures Valid() && S.Inv(state)
      ensures Grown()
    {
      var x := Find(e);
      Handle(x);
    }

    /** The events of a run, one after the other: the server ends where the run does. */
    method Drive(es: seq<S.Event>)
      requires Valid() && S.Inv(state) && S.IsRun(state, es) && SafeRun(state, es)
      modifies Footprint()
      ensures state == S.Run(old(state), es)
      ensures Valid() && S.Inv(state)
      ensures Grown()
      decreases |es|
    {
      if es != [] {
        Next(es[0]);
        Drive(es[1..]);
      }
    }

    /** A write of the UDP sender completes; the connections do not notice. */
    method OnUdpSent(code: Completion) returns (error: Completion)
      requires Valid() && udpSender.transport.state.writing != []
      modifies udpSender.transport
      ensures (udpSender.transport.state, error) == T.OnSend(old(udpSender.transport.state), 0, code)
      ensures Valid()
    {
      error := udpSender.OnSent(code);
    }
  }

  /** A server from its construction to the end of any run. */
  method RunServer(es: seq<S.Event>) returns (server: TcpServer)
    requires S.IsRun(S.FRESH, es) && SafeRun(S.FRESH, es)
    ensures fresh(server.Footprint())
    ensures server.Valid() && server.state == S.Run(S.FRESH, es)
  {
    server := new TcpServer();
    S.FreshOk();
    server.Drive(es);
  }

  /** `send` is what sending `data` does to an end. */
  ghost predicate IsSend(send: End -> End, data: Message) {
    forall e: End {:trigger SendMessage(e, data)} :: send(e) == SendMessage(e, data)
  }

  lemma SendStep(data: Message) returns (send: End -> End)
    ensures IsSend(send, data)
  {
    send := e => SendMessage(e, data);
  }
}
