/** That the tunnel can finish what it has begun: what is queued can be written, read and delivered. */
module Liveness {
  import opened Options
  import opened Wire
  import opened Sequences
  import opened Framing
  import opened Sockets
  import opened Encapsulation
  import opened Tunnel
  import EndToEnd
  import C = ClientSpec
  import S = ServerSpec
  import T = TransportSpec

  /** Connection `i` of client `k`, which is that of its attempt `j`. */
  datatype Link = Link(k: Key, i: nat, j: nat)

  /** The two ends of a connection. */
  datatype Side = AtClient | AtServer {
    function Other(): Side {
      if AtClient? then AtServer else AtClient
    }
  }

  /** The connection is in use: the client is engaged with it, and the server has it in the table. */
  predicate InUse(w: World, l: Link) {
    && Known(w, l.k) && l.i < |w.links[l.k]| && w.links[l.k][l.i] == l.j
    && C.At(w.clients[l.k], l.j).Some? && w.clients[l.k].sock == Some(l.j)
    && S.IsConn(w.server, l.k, l.i) && S.Occupant(w.server, l.k) == Some(l.i)
  }

  function EndOf(w: World, l: Link, side: Side): End
    requires InUse(w, l)
  {
    match side
    case AtClient => C.At(w.clients[l.k], l.j).value
    case AtServer => S.EndAt(w.server, l.k, l.i)
  }

  /** The datagrams for the far side that arrived at `side` while the connection was in use. */
  function GivenAt(w: World, l: Link, side: Side): seq<Datagram>
    requires InUse(w, l) && BornInTime(w, l, side)
  {
    var born := EndOf(w, l, side).past.born;
    match side
    case AtClient => w.inputs[l.k][born..]
    case AtServer => EndToEnd.RequestsFor(w.requests[born..], l.k)
  }

  predicate BornInTime(w: World, l: Link, side: Side)
    requires InUse(w, l)
  {
    EndOf(w, l, side).past.born <= match side case AtClient => |w.inputs[l.k]| case AtServer => |w.requests|
  }

  /** The write outstanding at one side succeeds. */
  function WriteAt(l: Link, side: Side): Event {
    match side
    case AtClient => ClientDoes(l.k, C.Written(l.j, 0, None))
    case AtServer => ServerDoes(S.Written(l.k, l.i, 0, None))
  }

  function ReadAt(l: Link, side: Side, chunk: bytes): Event {
    match side
    case AtClient => ClientDoes(l.k, C.Read(l.j, chunk))
    case AtServer => ServerDoes(S.Read(l.k, l.i, chunk))
  }

  /** A write that succeeds at the sender, or a read at the other side. */
  predicate IsMove(e: Event, l: Link, sender: Side) {
    || e == WriteAt(l, sender)
    || match sender
       case AtClient => e.ServerDoes? && e.se.Read? && e.se.k == l.k && e.se.i == l.i
       case AtServer => e.ClientDoes? && e.k == l.k && e.ce.Read? && e.ce.j == l.j
  }

  predicate OnlyMoves(es: seq<Event>, l: Link, sender: Side) {
    forall e :: e in es ==> IsMove(e, l, sender)
  }

  /** The connection is still in use, and no datagram has arrived at either side. */
  predicate Continues(w: World, w': World, l: Link)
    requires InUse(w, l)
  {
    && InUse(w', l) && w'.inputs == w.inputs && w'.requests == w.requests
    && EndOf(w', l, AtClient).past.born == EndOf(w, l, AtClient).past.born
    && EndOf(w', l, AtServer).past.born == EndOf(w, l, AtServer).past.born
  }

  /** A connection in use is not cancelled at either end. */
  lemma Uncancelled(w: World, l: Link, side: Side)
    requires Inv(w) && InUse(w, l)
    ensures EndInv(EndOf(w, l, side)) && !EndOf(w, l, side).tx.handle.cancelled
  {
    match side
    case AtClient =>
      assert KeyInv(w, l.k);
      assert C.PlaceOk(w.clients[l.k], 0, l.j);
    case AtServer =>
      assert S.KeyOk(w.server, l.k);
      assert S.PlaceOk(l.k, S.ConnsOf(w.server, l.k), S.Occupant(w.server, l.k), w.server.log, 0, l.i);
  }

  // ----- writing -----

  /** The number of messages that are still to be written. */
  function Backlog(t: T.Transport<bytes>): nat {
    |t.writing| + |t.msgs|
  }

  lemma WriteOk(e: End)
    requires EndInv(e) && !e.tx.handle.cancelled && e.tx.lost == [] && Backlog(e.tx) > 0
    ensures |e.tx.writing| > 0 && !WriteDone(e, 0, None).1
    ensures var e' := WriteDone(e, 0, None).0;
            e'.past == e.past && e'.tx.lost == [] && Backlog(e'.tx) == Backlog(e.tx) - 1
  {
  }

  lemma OneWriteAtClient(w: World, l: Link)
    requires InUse(w, l) && |EndOf(w, l, AtClient).tx.writing| > 0
    requires !WriteDone(EndOf(w, l, AtClient), 0, None).1
    ensures Enabled(w, WriteAt(l, AtClient))
    ensures var w' := Step(w, WriteAt(l, AtClient)); var e' := WriteDone(EndOf(w, l, AtClient), 0, None).0;
            InUse(w', l) && EndOf(w', l, AtClient) == e' && EndOf(w', l, AtServer) == EndOf(w, l, AtServer)
            && w'.inputs == w.inputs && w'.requests == w.requests
  {
  }

  lemma OneWriteAtServer(w: World, l: Link)
    requires InUse(w, l) && |EndOf(w, l, AtServer).tx.writing| > 0
    requires !WriteDone(EndOf(w, l, AtServer), 0, None).1
    ensures Enabled(w, WriteAt(l, AtServer))
    ensures var w' := Step(w, WriteAt(l, AtServer)); var e' := WriteDone(EndOf(w, l, AtServer), 0, None).0;
            InUse(w', l) && EndOf(w', l, AtServer) == e' && EndOf(w', l, AtClient) == EndOf(w, l, AtClient)
            && w'.inputs == w.inputs && w'.requests == w.requests
  {
  }

  lemma OneWrite(w: World, l: Link, side: Side)
    requires Inv(w) && InUse(w, l) && EndOf(w, l, side).tx.lost == [] && Backlog(EndOf(w, l, side).tx) > 0
    ensures Enabled(w, WriteAt(l, side))
    ensures var w' := Step(w, WriteAt(l, side));
            && Inv(w') && Continues(w, w', l)
            && EndOf(w', l, side.Other()) == EndOf(w, l, side.Other())
            && EndOf(w', l, side).past == EndOf(w, l, side).past && EndOf(w', l, side).tx.lost == []
            && Backlog(EndOf(w', l, side).tx) == Backlog(EndOf(w, l, side).tx) - 1
  {
    Uncancelled(w, l, side);
    WriteOk(EndOf(w, l, side));
    if side == AtClient {
      OneWriteAtClient(w, l);
    } else {
      OneWriteAtServer(w, l);
    }
    StepKeeps(w, WriteAt(l, side));
  }

  lemma NextWrite(w: World, l: Link, side: Side) returns (e: Event, w': World)
    requires Inv(w) && InUse(w, l) && EndOf(w, l, side).tx.lost == [] && Backlog(EndOf(w, l, side).tx) > 0
    ensures IsMove(e, l, side) && Enabled(w, e) && w' == Step(w, e)
    ensures Inv(w') && InUse(w', l) && EndOf(w', l, side).tx.lost == []
    ensures Backlog(EndOf(w', l, side).tx) < Backlog(EndOf(w, l, side).tx)
  {
    OneWrite(w, l, side);
    e := WriteAt(l, side);
    w' := Step(w, e);
  }

  lemma NothingQueued(w: World, l: Link, side: Side)
    requires InUse(w, l) && Backlog(EndOf(w, l, side).tx) == 0
    ensures EndOf(w, l, side).tx.msgs == []
  {
  }

  lemma {:induction false} Drain(w: World, l: Link, side: Side) returns (es: seq<Event>)
    requires Inv(w) && InUse(w, l) && EndOf(w, l, side).tx.lost == []
    ensures IsRun(w, es) && OnlyMoves(es, l, side)
    ensures InUse(Run(w, es), l) && EndOf(Run(w, es), l, side).tx.msgs == []
    decreases Backlog(EndOf(w, l, side).tx)
  {
    if Backlog(EndOf(w, l, side).tx) > 0 {
      var e, w' := NextWrite(w, l, side);
      var more := Drain(w', l, side);
      RunCons(w, e, more);
      es := [e] + more;
    } else {
      NothingQueued(w, l, side);
      es := [];
    }
  }

  // ----- reading -----

  /** The number of bytes written at the other side that are still to be read. */
  function Unread(w: World, l: Link, side: Side): int
    requires InUse(w, l)
  {
    |Stream(EndOf(w, l, side.Other()))| - |EndOf(w, l, side).past.consumed|
  }

  lemma ReadsPrefix(w: World, l: Link, side: Side)
    requires Inv(w) && InUse(w, l)
    ensures EndOf(w, l, side).past.consumed <= Stream(EndOf(w, l, side.Other()))
  {
    assert KeyInv(w, l.k);
  }

  lemma ReceiveOk(e: End, chunk: bytes)
    requires EndInv(e) && !e.tx.handle.cancelled && e.tx.reading > 0
    ensures var e' := Receive(e, chunk);
            e'.tx == e.tx && e'.past.consumed == e.past.consumed + chunk && e'.past.born == e.past.born
  {
  }

  lemma OneReadAtClient(w: World, l: Link, chunk: bytes)
    requires InUse(w, l) && EndOf(w, l, AtClient).tx.reading > 0 && 0 < |chunk| <= 256 * 1024
    requires EndOf(w, l, AtClient).past.consumed + chunk <= Stream(EndOf(w, l, AtServer))
    ensures Enabled(w, ReadAt(l, AtClient, chunk))
    ensures var w' := Step(w, ReadAt(l, AtClient, chunk));
            InUse(w', l) && EndOf(w', l, AtClient) == Receive(EndOf(w, l, AtClient), chunk)
            && EndOf(w', l, AtServer) == EndOf(w, l, AtServer)
            && w'.inputs == w.inputs && w'.requests == w.requests
  {
    assert ServerWrote(w, l.k, l.j, EndOf(w, l, AtClient).past.consumed + chunk);
  }

  lemma OneReadAtServer(w: World, l: Link, chunk: bytes)
    requires InUse(w, l) && EndOf(w, l, AtServer).tx.reading > 0 && 0 < |chunk| <= 256 * 1024
    requires EndOf(w, l, AtServer).past.consumed + chunk <= Stream(EndOf(w, l, AtClient))
    ensures Enabled(w, ReadAt(l, AtServer, chunk))
    ensures var w' := Step(w, ReadAt(l, AtServer, chunk));
            InUse(w', l) && EndOf(w', l, AtServer) == Receive(EndOf(w, l, AtServer), chunk)
            && EndOf(w', l, AtClient) == EndOf(w, l, AtClient)
            && w'.inputs == w.inputs && w'.requests == w.requests
  {
  }

  lemma OneRead(w: World, l: Link, side: Side, chunk: bytes)
    requires Inv(w) && InUse(w, l) && EndOf(w, l, side).tx.reading > 0 && 0 < |chunk| <= 256 * 1024
    requires EndOf(w, l, side).past.consumed + chunk <= Stream(EndOf(w, l, side.Other()))
    ensures Enabled(w, ReadAt(l, side, chunk))
    ensures var w' := Step(w, ReadAt(l, side, chunk));
            && Inv(w') && Continues(w, w', l)
            && EndOf(w', l, side.Other()) == EndOf(w, l, side.Other())
            && EndOf(w', l, side).tx == EndOf(w, l, side).tx
            && EndOf(w', l, side).past.consumed == EndOf(w, l, side).past.consumed + chunk
  {
    Uncancelled(w, l, side);
    ReceiveOk(EndOf(w, l, side), chunk);
    if side == AtClient {
      OneReadAtClient(w, l, chunk);
    } else {
      OneReadAtServer(w, l, chunk);
    }
    StepKeeps(w, ReadAt(l, side, chunk));
  }

  /** As much as fits the read buffer. */
  lemma NextChunk(consumed: bytes, stream: bytes) returns (chunk: bytes)
    requires consumed <= stream && consumed != stream
    ensures 0 < |chunk| <= READ_BUFFER && consumed + chunk <= stream
  {
    var n := |consumed|;
    chunk := stream[n..if |stream| - n <= READ_BUFFER then |stream| else n + READ_BUFFER];
    assert consumed + chunk == stream[..n + |chunk|];
  }

  lemma NextRead(w: World, l: Link, side: Side) returns (e: Event, w': World)
    requires Inv(w) && InUse(w, l) && EndOf(w, l, side).tx.reading > 0 && Unread(w, l, side) > 0
    ensures IsMove(e, l, side.Other()) && Enabled(w, e) && w' == Step(w, e)
    ensures Inv(w') && InUse(w', l) && EndOf(w', l, side).tx.reading > 0
    ensures EndOf(w', l, side.Other()) == EndOf(w, l, side.Other()) && Unread(w', l, side) < Unread(w, l, side)
  {
    ReadsPrefix(w, l, side);
    var chunk := NextChunk(EndOf(w, l, side).past.consumed, Stream(EndOf(w, l, side.Other())));
    OneRead(w, l, side, chunk);
    e := ReadAt(l, side, chunk);
    w' := Step(w, e);
  }

  /** Nothing is unread exactly if the whole stream has been read. */
  lemma NothingUnread(w: World, l: Link, side: Side)
    requires Inv(w) && InUse(w, l) && Unread(w, l, side) <= 0
    ensures EndOf(w, l, side).past.consumed == Stream(EndOf(w, l, side.Other()))
  {
    ReadsPrefix(w, l, side);
  }

  lemma {:induction false} ReadAll(w: World, l: Link, side: Side) returns (es: seq<Event>)
    requires Inv(w) && InUse(w, l) && EndOf(w, l, side).tx.reading > 0
    ensures IsRun(w, es) && OnlyMoves(es, l, side.Other())
    ensures InUse(Run(w, es), l) && EndOf(Run(w, es), l, side.Other()) == EndOf(w, l, side.Other())
    ensures EndOf(Run(w, es), l, side).past.consumed == Stream(EndOf(w, l, side.Other()))
    decreases Unread(w, l, side)
  {
    if Unread(w, l, side) > 0 {
      var e, w' := NextRead(w, l, side);
      var more := ReadAll(w', l, side);
      RunCons(w, e, more);
      es := [e] + more;
    } else {
      NothingUnread(w, l, side);
      es := [];
    }
  }

  // ----- delivering -----

  /** All that arrived at `sender`'s side for this connection has been split at the other side. */
  predicate CaughtUp(w: World, l: Link, sender: Side)
    requires InUse(w, l)
  {
    var delivered := EndOf(w, l, sender.Other()).past.delivered;
    && BornInTime(w, l, sender) && AllSplittable(delivered)
    && SplitAll(delivered) == NarrowAll(GivenAt(w, l, sender))
  }

  lemma GivenAtClient(w: World, l: Link)
    requires InUse(w, l) && C.Inv(w.clients[l.k]) && AreUnited(w.clients[l.k].calls, w.inputs[l.k])
    ensures BornInTime(w, l, AtClient) && AreUnited(EndOf(w, l, AtClient).past.sent, GivenAt(w, l, AtClient))
  {
    EndToEnd.ClientGave(w.clients[l.k], w.inputs[l.k], l.j);
    var inputs, born := w.inputs[l.k], EndOf(w, l, AtClient).past.born;
    assert inputs[born..|inputs|] == inputs[born..];
  }

  lemma GivenAtServer(w: World, l: Link)
    requires S.KeyOk(w.server, l.k) && ServerPart(w) && InUse(w, l)
    ensures BornInTime(w, l, AtServer) && AreUnited(EndOf(w, l, AtServer).past.sent, GivenAt(w, l, AtServer))
  {
    EndToEnd.ServerGave(w.server, w.requests, l.k, l.i);
    var born := EndOf(w, l, AtServer).past.born;
    assert w.requests[born..|w.requests|] == w.requests[born..];
  }

  /** What each side gave its end is what arrived there while the connection was in use. */
  lemma GivenHere(w: World, l: Link, side: Side)
    requires Inv(w) && InUse(w, l)
    ensures BornInTime(w, l, side) && AreUnited(EndOf(w, l, side).past.sent, GivenAt(w, l, side))
  {
    assert KeyInv(w, l.k) && S.KeyOk(w.server, l.k);
    if side == AtClient {
      GivenAtClient(w, l);
    } else {
      GivenAtServer(w, l);
    }
  }

  lemma WholeStreamRead(w: World, l: Link, sender: Side)
    requires Inv(w) && InUse(w, l) && EndOf(w, l, sender).tx.msgs == []
    requires EndOf(w, l, sender.Other()).past.consumed == Stream(EndOf(w, l, sender))
    ensures CaughtUp(w, l, sender)
  {
    GivenHere(w, l, sender);
    Uncancelled(w, l, sender);
    Uncancelled(w, l, sender.Other());
    EndToEnd.UnitedFacts(EndOf(w, l, sender).past.sent, GivenAt(w, l, sender));
    Delivery(EndOf(w, l, sender), EndOf(w, l, sender.Other()));
  }

  /** A run of moves alone after which everything has been delivered. */
  predicate CatchesUp(w: World, es: seq<Event>, l: Link, sender: Side) {
    IsRun(w, es) && OnlyMoves(es, l, sender) && InUse(Run(w, es), l) && CaughtUp(Run(w, es), l, sender)
  }

  lemma CatchUpIfPossible(w: World, l: Link, sender: Side) returns (es: seq<Event>)
    requires Inv(w) && InUse(w, l) && CanCatchUp(w, l, sender)
    ensures CatchesUp(w, es, l, sender)
  {
    if CaughtUp(w, l, sender) {
      es := [];
    } else if EndOf(w, l, sender).tx.msgs == [] {
      es := CatchUpByReading(w, l, sender);
    } else {
      es := CatchUp(w, l, sender);
    }
  }

  /** With nothing queued. */
  lemma CatchUpByReading(w: World, l: Link, sender: Side) returns (es: seq<Event>)
    requires Inv(w) && InUse(w, l) && EndOf(w, l, sender.Other()).tx.reading > 0
    requires EndOf(w, l, sender).tx.msgs == []
    ensures CatchesUp(w, es, l, sender)
  {
    es := ReadAll(w, l, sender.Other());
    Moves(w, l, sender, es);
    WholeStreamRead(Run(w, es), l, sender);
  }

  lemma CatchUp(w: World, l: Link, sender: Side) returns (es: seq<Event>)
    requires Inv(w) && InUse(w, l) && EndOf(w, l, sender.Other()).tx.reading > 0
    requires EndOf(w, l, sender).tx.lost == []
    ensures CatchesUp(w, es, l, sender)
  {
    var writes := Drain(w, l, sender);
    Moves(w, l, sender, writes);
    var w' := Run(w, writes);
    var chunks := CatchUpByReading(w', l, sender);
    es := writes + chunks;
    CatchesUpLater(w, writes, chunks, l, sender);
  }

  lemma CatchesUpLater(w: World, a: seq<Event>, b: seq<Event>, l: Link, sender: Side)
    requires IsRun(w, a) && OnlyMoves(a, l, sender) && CatchesUp(Run(w, a), b, l, sender)
    ensures CatchesUp(w, a + b, l, sender)
  {
    RunAppend(w, a, b);
  }

  // ----- not delivering -----

  /** The bytes of a read are the next ones that the sender wrote. */
  lemma ChunkOf(w: World, l: Link, sender: Side, e: Event) returns (chunk: bytes)
    requires Inv(w) && InUse(w, l) && IsMove(e, l, sender) && e != WriteAt(l, sender) && Enabled(w, e)
    ensures e == ReadAt(l, sender.Other(), chunk) && 0 < |chunk| <= 256 * 1024
    ensures EndOf(w, l, sender.Other()).tx.reading > 0
    ensures EndOf(w, l, sender.Other()).past.consumed + chunk <= Stream(EndOf(w, l, sender))
  {
    if sender == AtClient {
      chunk := e.se.chunk;
      ChunkAtServer(w, l, chunk);
    } else {
      chunk := e.ce.chunk;
      assert KeyInv(w, l.k);
      ChunkAtClient(w, l, chunk);
    }
  }

  lemma ChunkAtServer(w: World, l: Link, chunk: bytes)
    requires InUse(w, l) && Enabled(w, ReadAt(l, AtServer, chunk))
    ensures 0 < |chunk| <= 256 * 1024 && EndOf(w, l, AtServer).tx.reading > 0
    ensures EndOf(w, l, AtServer).past.consumed + chunk <= Stream(EndOf(w, l, AtClient))
  {
  }

  lemma ChunkAtClient(w: World, l: Link, chunk: bytes)
    requires InUse(w, l) && Enabled(w, ReadAt(l, AtClient, chunk))
    requires Tunnel.Linked(w.clients[l.k], S.ConnsOf(w.server, l.k), w.links[l.k])
    ensures 0 < |chunk| <= 256 * 1024 && EndOf(w, l, AtClient).tx.reading > 0
    ensures EndOf(w, l, AtClient).past.consumed + chunk <= Stream(EndOf(w, l, AtServer))
  {
    WrittenOnLink(w, l, EndOf(w, l, AtClient).past.consumed + chunk);
  }

  /** What the server wrote on the connection of an attempt is what it wrote at its own end of it. */
  lemma WrittenOnLink(w: World, l: Link, b: bytes)
    requires InUse(w, l) && ServerWrote(w, l.k, l.j, b)
    requires Tunnel.Linked(w.clients[l.k], S.ConnsOf(w.server, l.k), w.links[l.k])
    ensures b <= Stream(EndOf(w, l, AtServer))
  {
    var n :| 0 <= n < |w.links[l.k]| && w.links[l.k][n] == l.j && b <= StreamOf(S.At(w.server, l.k, n));
    assert n == l.i;
  }

  lemma WritingMeansNoneLost(w: World, l: Link, side: Side)
    requires Inv(w) && InUse(w, l) && Enabled(w, WriteAt(l, side))
    ensures EndOf(w, l, side).tx.lost == [] && Backlog(EndOf(w, l, side).tx) > 0
  {
    QueueOk(w, l, side);
    assert |EndOf(w, l, side).tx.writing| > 0 by {
      if side == AtClient {
        assert C.Enabled(w.clients[l.k], C.Written(l.j, 0, None));
      } else {
        assert S.Enabled(w.server, S.Written(l.k, l.i, 0, None));
      }
    }
  }

  lemma QueueOk(w: World, l: Link, side: Side)
    requires Inv(w) && InUse(w, l)
    ensures T.Inv(EndOf(w, l, side).tx)
  {
    Uncancelled(w, l, side);
  }

  /** What moves do: the sender's end writes, unless a write has failed, and the other end reads if it still does. */
  predicate Moved(w: World, w': World, l: Link, sender: Side)
    requires InUse(w, l)
  {
    && Continues(w, w', l)
    && EndOf(w', l, sender).past == EndOf(w, l, sender).past
    && (EndOf(w, l, sender).tx.lost != [] ==> EndOf(w', l, sender) == EndOf(w, l, sender))
    && EndOf(w', l, sender.Other()).tx == EndOf(w, l, sender.Other()).tx
    && (EndOf(w, l, sender.Other()).tx.reading == 0 ==>
          EndOf(w', l, sender.Other()) == EndOf(w, l, sender.Other()))
  }

  lemma MoveByWriting(w: World, l: Link, sender: Side)
    requires Inv(w) && InUse(w, l) && Enabled(w, WriteAt(l, sender))
    ensures Inv(Step(w, WriteAt(l, sender))) && Moved(w, Step(w, WriteAt(l, sender)), l, sender)
  {
    WritingMeansNoneLost(w, l, sender);
    OneWrite(w, l, sender);
  }

  lemma MoveByReading(w: World, l: Link, sender: Side, e: Event)
    requires Inv(w) && InUse(w, l) && IsMove(e, l, sender) && e != WriteAt(l, sender) && Enabled(w, e)
    ensures Inv(Step(w, e)) && Moved(w, Step(w, e), l, sender)
  {
    var chunk := ChunkOf(w, l, sender, e);
    OneRead(w, l, sender.Other(), chunk);
  }

  lemma {:induction false} Moves(w: World, l: Link, sender: Side, es: seq<Event>)
    requires Inv(w) && InUse(w, l) && IsRun(w, es) && OnlyMoves(es, l, sender)
    ensures Inv(Run(w, es)) && Moved(w, Run(w, es), l, sender)
    decreases |es|
  {
    if es != [] {
      if es[0] == WriteAt(l, sender) {
        MoveByWriting(w, l, sender);
      } else {
        MoveByReading(w, l, sender, es[0]);
      }
      Moves(Step(w, es[0]), l, sender, es[1..]);
    }
  }

  /** Messages that are still queued have not been delivered. */
  lemma QueuedIsNotDelivered(w: World, l: Link, sender: Side)
    requires Inv(w) && InUse(w, l) && EndOf(w, l, sender).tx.msgs != []
    ensures !CaughtUp(w, l, sender)
  {
    GivenHere(w, l, sender);
    Uncancelled(w, l, sender);
    Uncancelled(w, l, sender.Other());
    ReadsPrefix(w, l, sender.Other());
    EndToEnd.UnitedFacts(EndOf(w, l, sender).past.sent, GivenAt(w, l, sender));
    QueuedIsUndelivered(EndOf(w, l, sender), EndOf(w, l, sender.Other()));
  }

  lemma QueuedIsUndelivered(sender: End, receiver: End)
    requires EndInv(sender) && EndInv(receiver) && receiver.past.consumed <= Stream(sender)
    requires sender.tx.msgs != []
    requires forall m :: m in sender.past.sent ==> Fits(m) && m != []
    ensures |receiver.past.delivered| < |sender.past.sent|
  {
    StreamOfFrames(sender);
    QueuedIsUnwritten(sender);
    CutShort(sender.past.sent, receiver.past.consumed);
  }

  /** Messages that are still queued are missing from the stream. */
  lemma QueuedIsUnwritten(sender: End)
    requires T.Inv(sender.tx) && sender.tx.accepted == Pieces(sender.past.sent) && sender.tx.msgs != []
    requires forall m :: m in sender.past.sent ==> m != []
    ensures |Stream(sender)| < |Frames(sender.past.sent)|
  {
    ConcatAppend(sender.tx.started, sender.tx.msgs);
    var last := sender.tx.msgs[|sender.tx.msgs| - 1];
    assert last in sender.tx.accepted;
    PiecesNotEmpty(sender.past.sent, last);
  }

  /** A stream of frames that is cut short lacks a message. */
  lemma CutShort(ms: seq<Message>, p: bytes)
    requires p <= Frames(ms) && |p| < |Frames(ms)|
    requires forall m :: m in ms ==> Fits(m)
    ensures |Decode(p).messages| < |ms|
  {
    var k := DecodePrefix(ms, p);
    assert ms[..|ms|] == ms;
  }

  lemma {:induction false} PiecesNotEmpty(ms: seq<Message>, piece: bytes)
    requires piece in Pieces(ms) && forall m :: m in ms ==> m != []
    ensures piece != []
  {
    if ms != [] {
      var n := |ms| - 1;
      assert ms[n] in ms;
      if piece in Pieces(ms[..n]) {
        assert forall m :: m in ms[..n] ==> m in ms;
        PiecesNotEmpty(ms[..n], piece);
      }
    }
  }

  /** Only what was delivered already, or is still read and can still be written, is ever delivered. */
  lemma StaysBehind(w: World, l: Link, sender: Side, es: seq<Event>)
    requires Inv(w) && InUse(w, l) && CatchesUp(w, es, l, sender)
    ensures CanCatchUp(w, l, sender)
  {
    Moves(w, l, sender, es);
    var w' := Run(w, es);
    if EndOf(w, l, sender.Other()).tx.reading == 0 {
      StillCaughtUp(w, w', l, sender);
    } else if EndOf(w, l, sender).tx.lost != [] && EndOf(w, l, sender).tx.msgs != [] {
      QueuedIsNotDelivered(w', l, sender);
    }
  }

  lemma StillCaughtUp(w: World, w': World, l: Link, sender: Side)
    requires InUse(w, l) && Continues(w, w', l) && CaughtUp(w', l, sender)
    requires EndOf(w', l, sender.Other()) == EndOf(w, l, sender.Other())
    ensures CaughtUp(w, l, sender)
  {
  }

  /** Everything was delivered already, or the receiver still reads, and what is queued can be written. */
  predicate CanCatchUp(w: World, l: Link, sender: Side)
    requires InUse(w, l)
  {
    || CaughtUp(w, l, sender)
    || (EndOf(w, l, sender.Other()).tx.reading > 0
        && (EndOf(w, l, sender).tx.lost == [] || EndOf(w, l, sender).tx.msgs == []))
  }

  /**
   After any run, for a connection in use and in either direction: some run of successful writes
   and of reads alone ends with everything delivered that arrived for it, if and only if all was
   delivered already, or the receiver still reads and no failed write has left messages queued.
   */
  lemma CatchesUpExactly(keys: set<Key>, es: seq<Event>, l: Link, sender: Side)
    requires IsRun(Initial(keys), es) && InUse(Run(Initial(keys), es), l)
    ensures var w := Run(Initial(keys), es);
            (exists more :: CatchesUp(w, more, l, sender)) <==> CanCatchUp(w, l, sender)
  {
    InitialOk(keys);
    RunKeeps(Initial(keys), es);
    var w := Run(Initial(keys), es);
    if CanCatchUp(w, l, sender) {
      var more := CatchUpIfPossible(w, l, sender);
    }
    forall more | CatchesUp(w, more, l, sender) ensures CanCatchUp(w, l, sender) {
      StaysBehind(w, l, sender, more);
    }
  }
}
