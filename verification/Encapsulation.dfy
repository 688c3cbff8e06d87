/**
 The outer encapsulation of a datagram and its inverse (tunnel_udp_service.cpp), and UDP sending
 (udp_service.cpp).
 */
module Encapsulation {
  import opened Options
  import opened Errors
  import opened Wire
  import opened Framing
  import opened Sequences
  import T = TransportSpec
  import Sockets
  import UnderlyingTransport

  /** A payload and where it is to be sent. */
  datatype Datagram = Datagram(dest: Endpoint, payload: bytes) {

    /** Datagrams that can be received: one read fills at most the 256 KiB buffer. */
    predicate Receivable() {
      dest.Valid() && |payload| <= READ_BUFFER
    }

    function Narrowed(): Datagram {
      Datagram(dest.Narrowed(), payload)
    }
  }

  const READ_BUFFER: nat := 256 * 1024

  function Unite(d: Datagram): (m: Message)
    requires d.dest.Valid()
  {
    Serialize(d.dest) + d.payload
  }

  function Split(m: Message): Datagram
    requires |m| >= ENDPOINT_SIZE
  {
    Datagram(ParseEndpoint(m), m[ENDPOINT_SIZE..])
  }

  /** The far end gets back address and payload, and the port modulo 2^16. */
  lemma UniteRoundTrip(d: Datagram)
    requires d.dest.Valid()
    ensures |Unite(d)| == ENDPOINT_SIZE + |d.payload| && Split(Unite(d)) == d.Narrowed()
  {
    SerializeRoundTrip(d.dest, d.payload);
    assert Unite(d)[ENDPOINT_SIZE..] == d.payload;
  }

  /** Splitting loses nothing either. */
  lemma SplitRoundTrip(m: Message)
    requires |m| >= ENDPOINT_SIZE
    ensures Unite(Split(m)) == m
  {
    var head := m[..ENDPOINT_SIZE];
    ParseRoundTrip(head);
    assert head + m[ENDPOINT_SIZE..] == m;
    Unsigned32Prefix(head, m[ENDPOINT_SIZE..]);
  }

  /** Every received datagram makes a message whose length is not truncated, and on which the far assertion holds. */
  lemma UnitedFits(d: Datagram)
    requires d.Receivable()
    ensures Fits(Unite(d)) && |Unite(d)| >= ENDPOINT_SIZE
  {
  }

  /**
   A datagram on the TCP stream, byte by byte: its length with the six bytes of the destination, the
   address and the port, each with the lowest byte first, and the payload.
   */
  lemma StreamFormat(d: Datagram)
    requires d.Receivable()
    ensures var n, a, p := 6 + |d.payload|, d.dest.addr, d.dest.port;
            Frame(Unite(d))
            == [n % 0x100, n / 0x100 % 0x100, n / 0x1_0000 % 0x100, n / 0x100_0000]
             + [a % 0x100, a / 0x100 % 0x100, a / 0x1_0000 % 0x100, a / 0x100_0000]
             + [p % 0x100, p / 0x100 % 0x100]
             + d.payload
  {
    LittleEndian32Bytes(6 + |d.payload|);
    LittleEndian32Bytes(d.dest.addr);
    PortBytes(d.dest.port);
  }

  lemma PortBytes(p: nat)
    ensures LittleEndian16(p % 0x1_0000) == [p % 0x100, p / 0x100 % 0x100]
  {
    var q, r := p / 0x1_0000, p % 0x1_0000;
    assert p == 0x100 * (0x100 * q + r / 0x100) + r % 0x100;
    LowByte(0x100 * q + r / 0x100, r % 0x100);
    LowByte(q, r / 0x100);
  }

  predicate AllSplittable(ms: seq<Message>) {
    forall n :: 0 <= n < |ms| ==> |ms[n]| >= ENDPOINT_SIZE
  }

  /**
   What the program relies on when an end reads a chunk: its buffer stays within the most that a
   vector can hold, and every message that is completed holds an endpoint.
   */
  predicate SafeToRead(e: Sockets.End, chunk: bytes) {
    && e.tx.reading > 0 && |e.partial| + |chunk| < TWO_63
    && AllSplittable(Sockets.NewlyDelivered(e, Sockets.Receive(e, chunk)))
  }

  function SplitAll(ms: seq<Message>): seq<Datagram>
    requires AllSplittable(ms)
  {
    seq(|ms|, n requires 0 <= n < |ms| => Split(ms[n]))
  }

  function NarrowAll(ds: seq<Datagram>): seq<Datagram> {
    seq(|ds|, n requires 0 <= n < |ds| => ds[n].Narrowed())
  }

  /** The messages made of datagrams. */
  predicate AreUnited(ms: seq<Message>, ds: seq<Datagram>) {
    && |ms| == |ds|
    && (forall n :: 0 <= n < |ds| ==> ds[n].Receivable() && ms[n] == Unite(ds[n]))
  }

  /** Messages selected from united datagrams split into the same selection of the datagrams. */
  lemma SplitSubsequence(selected: seq<Message>, ms: seq<Message>, ds: seq<Datagram>)
    requires AreUnited(ms, ds) && Subsequence(selected, ms)
    ensures AllSplittable(selected) && Subsequence(SplitAll(selected), NarrowAll(ds))
  {
    var at: seq<nat> :| Embeds(at, selected, ms);
    forall n | 0 <= n < |selected|
      ensures |selected[n]| >= ENDPOINT_SIZE && Split(selected[n]) == ds[at[n]].Narrowed()
    {
      UniteRoundTrip(ds[at[n]]);
    }
    assert Embeds(at, SplitAll(selected), NarrowAll(ds));
  }

  // ----- sending over UDP -----

  /** A queued UDP message: its destination may be left to the socket's default peer. */
  datatype Packet = Packet(payload: bytes, dest: Option<Endpoint>)

  /** The datagram that `udp_transfer_strategy::async_send` sends for a packet. */
  function OnWire(p: Packet, peer: Endpoint): Datagram {
    Datagram((if p.dest.Some? then p.dest.value else peer).Narrowed(), p.payload)
  }

  function Outgoing(m: Message): Packet
    requires |m| >= ENDPOINT_SIZE
  {
    Packet(Split(m).payload, Some(Split(m).dest))
  }

  predicate Carries(t: T.Transport<Packet>, ms: seq<Message>) {
    && AllSplittable(ms)
    && |t.accepted| == |ms|
    && (forall n :: 0 <= n < |ms| ==> t.accepted[n] == Outgoing(ms[n]))
  }

  /** Messages handed to the sender; without an endpoint the program stops at its assertion. */
  function HandAll(t: T.Transport<Packet>, ms: seq<Message>): T.Transport<Packet> {
    if ms == [] then t
    else
      var n := |ms| - 1;
      var u := HandAll(t, ms[..n]);
      if |ms[n]| >= ENDPOINT_SIZE then T.Send(u, Outgoing(ms[n])) else u
  }

  /** As long as every message held an endpoint, the transport carries all that was handed over. */
  predicate UdpOk(t: T.Transport<Packet>, out: seq<Message>) {
    T.Inv(t) && (AllSplittable(out) ==> Carries(t, out))
  }

  lemma HandOneKeeps(t: T.Transport<Packet>, out: seq<Message>, m: Message)
    requires UdpOk(t, out) && |m| >= ENDPOINT_SIZE
    ensures UdpOk(T.Send(t, Outgoing(m)), out + [m])
  {
    T.SendKeeps(t, Outgoing(m));
    if AllSplittable(out + [m]) {
      forall n | 0 <= n < |out| ensures |out[n]| >= ENDPOINT_SIZE {
        assert (out + [m])[n] == out[n];
      }
    }
  }

  lemma {:induction false} HandAllKeeps(t: T.Transport<Packet>, out: seq<Message>, ms: seq<Message>)
    requires UdpOk(t, out)
    ensures UdpOk(HandAll(t, ms), out + ms)
    decreases |ms|
  {
    if ms == [] {
      assert out + ms == out;
    } else {
      var n := |ms| - 1;
      HandAllKeeps(t, out, ms[..n]);
      assert out + ms == (out + ms[..n]) + [ms[n]];
      if |ms[n]| >= ENDPOINT_SIZE {
        HandOneKeeps(HandAll(t, ms[..n]), out + ms[..n], ms[n]);
      } else {
        assert (out + ms)[|out| + n] == ms[n];
      }
    }
  }

  /** A write over UDP completes. */
  lemma SentKeeps(t: T.Transport<Packet>, out: seq<Message>, n: nat, code: Completion)
    requires UdpOk(t, out) && n < |t.writing|
    ensures UdpOk(T.OnSend(t, n, code).0, out)
  {
    T.OnSendKeeps(t, n, code);
  }

  function WireTrace(t: T.Transport<Packet>, peer: Endpoint): seq<Datagram> {
    seq(|t.started|, n requires 0 <= n < |t.started| => OnWire(t.started[n], peer))
  }

  /** What leaves by the UDP socket, whatever its default peer, is the front of what the messages say. */
  lemma WireIsPrefix(t: T.Transport<Packet>, ms: seq<Message>, peer: Endpoint)
    requires T.Inv(t) && Carries(t, ms)
    ensures WireTrace(t, peer) <= SplitAll(ms)
    ensures t.ready ==> WireTrace(t, peer) == SplitAll(ms)
  {
    forall n | 0 <= n < |t.started| ensures WireTrace(t, peer)[n] == SplitAll(ms)[n] {
      assert t.started[n] == t.accepted[n];
    }
  }

  // ----- objects -----

  class UdpSender {
    const transport: UnderlyingTransport.Transport<Packet>
    ghost var handed: seq<Message>  // the messages passed to `send`

    ghost predicate Valid()
      reads this, transport, transport.resource
    {
      transport.Coupled() && T.Inv(transport.state) && Carries(transport.state, handed)
    }

    constructor ()
      ensures Valid() && fresh(transport) && fresh(transport.resource) && handed == []
    {
      transport := new UnderlyingTransport.Transport<Packet>();
      handed := [];
    }

    /** The program asserts that the message holds an endpoint. */
    method Send(data: Message)
      requires Valid() && |data| >= ENDPOINT_SIZE
      modifies this, transport
      ensures Valid() && handed == old(handed) + [data]
      ensures transport.state == T.Send(old(transport.state), Outgoing(data))
    {
      T.SendKeeps(transport.state, Outgoing(data));
      transport.Send(Packet(data[ENDPOINT_SIZE..], Some(ParseEndpoint(data))));
      handed := handed + [data];
    }

    /** The outstanding write completes; an error is traced, and nothing more is sent after it. */
    method OnSent(code: Completion) returns (error: Completion)
      requires Valid() && transport.state.writing != []
      modifies transport
      ensures (transport.state, error) == T.OnSend(old(transport.state), 0, code)
      ensures Valid()
    {
      T.OnSendKeeps(transport.state, 0, code);
      error := transport.OnSend(code);
    }
  }

  class UdpReceiver {
    const remoteServer: Endpoint
    const remoteTcpPoint: string

    constructor (remoteServer: Endpoint, remoteTcpPoint: string)
      requires remoteServer.Valid()
      ensures this.remoteServer == remoteServer && this.remoteTcpPoint == remoteTcpPoint
    {
      this.remoteServer, this.remoteTcpPoint := remoteServer, remoteTcpPoint;
    }

    /** The message and the addressee passed on to the TCP side. */
    method OnReceive(data: bytes) returns (message: Message, client: string)
      requires remoteServer.Valid() && |data| <= READ_BUFFER
      ensures |message| >= ENDPOINT_SIZE && Split(message) == Datagram(remoteServer.Narrowed(), data)
      ensures Fits(message) && client == remoteTcpPoint
    {
      message := UniteWithEndpoint(data, remoteServer);
      UniteRoundTrip(Datagram(remoteServer, data));
      client := remoteTcpPoint;
    }
  }

  method UniteWithEndpoint(data: bytes, point: Endpoint) returns (buf: Message)
    requires point.Valid()
    ensures buf == Unite(Datagram(point, data))
  {
    buf := [];
    buf := buf + LittleEndian32(point.addr);
    buf := buf + LittleEndian16(point.port % 0x1_0000);
    buf := buf + data;
  }
}
