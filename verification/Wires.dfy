/**
 The tunnel with the UDP sockets by which it hands on what it received (udp_service.cpp,
 lines 28-53): their queues and completions are part of the run.
 */
module Wires {
  import opened Options
  import opened Errors
  import opened Wire
  import opened Sequences
  import opened Framing
  import opened Encapsulation
  import opened EndToEnd
  import N = Tunnel
  import C = ClientSpec
  import S = ServerSpec
  import T = TransportSpec

  type Key = S.Key

  /** `clientUdp[k]` and `serverUdp` are the transports of the `udp_sender_` of client `k` and of the server. */
  datatype System = System(world: N.World, clientUdp: map<Key, T.Transport<Packet>>, serverUdp: T.Transport<Packet>)

  function Start(keys: set<Key>): System {
    System(N.Initial(keys), map k | k in keys :: T.Fresh(), T.Fresh())
  }

  datatype Event =
    | Net(e: N.Event)
    | ClientUdpSent(k: Key, n: nat, code: Completion)
    | ServerUdpSent(n: nat, code: Completion)

  predicate Enabled(s: System, e: Event) {
    match e
    case Net(e) => N.Enabled(s.world, e)
    case ClientUdpSent(k, n, _) => k in s.clientUdp && n < |s.clientUdp[k].writing|
    case ServerUdpSent(n, _) => n < |s.serverUdp.writing|
  }

  /** What a client has handed to its `udp_sender_`. */
  function OutAt(w: N.World, k: Key): seq<Message> {
    if k in w.clients then w.clients[k].out else []
  }

  function ServerOut(w: N.World): seq<Message> {
    S.MessagesOf(w.server.out)
  }

  /** The messages that a step added to those handed on. */
  function Added(before: seq<Message>, after: seq<Message>): seq<Message> {
    if |before| <= |after| then after[|before|..] else []
  }

  function Step(s: System, e: Event): System
    requires Enabled(s, e)
  {
    match e
    case Net(e) =>
      var w := N.Step(s.world, e);
      System(w,
             map k | k in s.clientUdp :: HandAll(s.clientUdp[k], Added(OutAt(s.world, k), OutAt(w, k))),
             HandAll(s.serverUdp, Added(ServerOut(s.world), ServerOut(w))))
    case ClientUdpSent(k, n, code) => s.(clientUdp := s.clientUdp[k := T.OnSend(s.clientUdp[k], n, code).0])
    case ServerUdpSent(n, code) => s.(serverUdp := T.OnSend(s.serverUdp, n, code).0)
  }

  predicate IsRun(s: System, es: seq<Event>)
    decreases |es|
  {
    es != [] ==> Enabled(s, es[0]) && IsRun(Step(s, es[0]), es[1..])
  }

  function Run(s: System, es: seq<Event>): System
    requires IsRun(s, es)
    decreases |es|
  {
    if es == [] then s else Run(Step(s, es[0]), es[1..])
  }

  // ----- the tunnel does not notice -----

  function NetOf(es: seq<Event>): seq<N.Event> {
    if es == [] then [] else (if es[0].Net? then [es[0].e] else []) + NetOf(es[1..])
  }

  lemma {:induction false} NetRun(s: System, es: seq<Event>)
    requires IsRun(s, es)
    ensures N.IsRun(s.world, NetOf(es)) && N.Run(s.world, NetOf(es)) == Run(s, es).world
    decreases |es|
  {
    if es != [] {
      NetRun(Step(s, es[0]), es[1..]);
      if es[0].Net? {
        assert NetOf(es)[1..] == NetOf(es[1..]);
      } else {
        assert NetOf(es) == NetOf(es[1..]);
      }
    }
  }

  // ----- the transports carry what was handed on -----

  predicate WireOk(s: System, k: Key) {
    k in s.clientUdp && UdpOk(s.clientUdp[k], OutAt(s.world, k))
  }

  predicate WiresOk(s: System) {
    && s.clientUdp.Keys == s.world.clients.Keys
    && (forall k :: k in s.clientUdp ==> WireOk(s, k))
    && UdpOk(s.serverUdp, ServerOut(s.world))
  }

  lemma OutGrows(w: N.World, e: N.Event, k: Key)
    requires N.Enabled(w, e)
    ensures OutAt(w, k) <= OutAt(N.Step(w, e), k)
    ensures w.server.out <= N.Step(w, e).server.out
  {
    match e
    case ClientDatagram(l, d) => C.StepOut(w.clients[l], C.Sending(Unite(d)));
    case ClientDoes(l, ce) => C.StepOut(w.clients[l], ce);
    case ServerDatagram(d, client) => S.StepOut(w.server, S.Sending(Unite(d), client));
    case Accept(l, j) => S.StepOut(w.server, S.Accepted(l, None));
    case ServerDoes(se) => S.StepOut(w.server, se);
  }

  lemma AddedKeeps(t: T.Transport<Packet>, before: seq<Message>, after: seq<Message>)
    requires UdpOk(t, before) && before <= after
    ensures UdpOk(HandAll(t, Added(before, after)), after)
  {
    HandAllKeeps(t, before, Added(before, after));
    assert before + Added(before, after) == after;
  }

  lemma NetKeeps(s: System, e: N.Event)
    requires WiresOk(s) && N.Enabled(s.world, e)
    ensures WiresOk(Step(s, Net(e)))
  {
    NetKeepsClients(s, e);
    forall k | k in Step(s, Net(e)).clientUdp ensures WireOk(Step(s, Net(e)), k) {
      assert WireOk(s, k);
      ClientNetKeeps(s, e, k);
    }
    ServerNetKeeps(s, e);
  }

  lemma NetKeepsClients(s: System, e: N.Event)
    requires s.clientUdp.Keys == s.world.clients.Keys && N.Enabled(s.world, e)
    ensures Step(s, Net(e)).clientUdp.Keys == s.clientUdp.Keys == Step(s, Net(e)).world.clients.Keys
  {
    N.StepKeepsClients(s.world, e);
  }

  lemma ClientNetKeeps(s: System, e: N.Event, k: Key)
    requires WireOk(s, k) && N.Enabled(s.world, e)
    ensures WireOk(Step(s, Net(e)), k)
  {
    OutGrows(s.world, e, k);
    AddedKeeps(s.clientUdp[k], OutAt(s.world, k), OutAt(N.Step(s.world, e), k));
  }

  lemma ServerNetKeeps(s: System, e: N.Event)
    requires UdpOk(s.serverUdp, ServerOut(s.world)) && N.Enabled(s.world, e)
    ensures UdpOk(Step(s, Net(e)).serverUdp, ServerOut(Step(s, Net(e)).world))
  {
    OutGrows(s.world, e, "");
    AddedKeeps(s.serverUdp, ServerOut(s.world), ServerOut(N.Step(s.world, e)));
  }

  lemma StepKeeps(s: System, e: Event)
    requires WiresOk(s) && Enabled(s, e)
    ensures WiresOk(Step(s, e))
  {
    match e
    case Net(e) => NetKeeps(s, e);
    case ClientUdpSent(k, n, code) => SentKeeps(s.clientUdp[k], OutAt(s.world, k), n, code);
    case ServerUdpSent(n, code) => SentKeeps(s.serverUdp, ServerOut(s.world), n, code);
  }

  lemma StartOk(keys: set<Key>)
    ensures WiresOk(Start(keys))
  {
  }

  lemma {:induction false} RunKeeps(s: System, es: seq<Event>)
    requires WiresOk(s) && IsRun(s, es)
    ensures WiresOk(Run(s, es))
    decreases |es|
  {
    if es != [] {
      StepKeeps(s, es[0]);
      RunKeeps(Step(s, es[0]), es[1..]);
    }
  }

  /**
   Towards a client, on the wire. Over every run, the client's UDP socket is told to send a prefix of
   what the client handed on, all of it once its transport is ready, and so a subsequence of the
   datagrams that were broadcast or addressed to the client.
   */
  lemma ServerToWire(keys: set<Key>, es: seq<Event>, k: Key, peer: Endpoint)
    requires IsRun(Start(keys), es) && k in keys
    ensures var s := Run(Start(keys), es);
            && k in s.clientUdp && AllSplittable(OutAt(s.world, k))
            && WireTrace(s.clientUdp[k], peer) <= SplitAll(OutAt(s.world, k))
            && (s.clientUdp[k].ready ==> WireTrace(s.clientUdp[k], peer) == SplitAll(OutAt(s.world, k)))
            && Subsequence(WireTrace(s.clientUdp[k], peer), NarrowAll(RequestsFor(s.world.requests, k)))
  {
    StartOk(keys);
    RunKeeps(Start(keys), es);
    NetRun(Start(keys), es);
    ServerToClient(keys, NetOf(es), k);
    var s := Run(Start(keys), es);
    var trace, all := WireTrace(s.clientUdp[k], peer), SplitAll(OutAt(s.world, k));
    WireIsPrefix(s.clientUdp[k], OutAt(s.world, k), peer);
    PrefixIsSubsequence(trace, all);
    SubsequenceTransitive(trace, all, NarrowAll(RequestsFor(s.world.requests, k)));
  }

  /**
   Towards the server, on the wire. Over every run, the server's UDP socket is told to send a prefix
   of what the server handed on, all of it once its transport is ready; and the part of that prefix
   that came from one client is a subsequence of the datagrams that client was given.
   */
  lemma ClientToWire(keys: set<Key>, es: seq<Event>, k: Key, peer: Endpoint)
    requires IsRun(Start(keys), es) && k in keys
    ensures var s := Run(Start(keys), es); var out := s.world.server.out; var n := |s.serverUdp.started|;
            && AllSplittable(S.MessagesOf(out)) && n <= |out|
            && WireTrace(s.serverUdp, peer) == SplitAll(S.MessagesOf(out))[..n]
            && (s.serverUdp.ready ==> n == |out|)
            && k in s.world.inputs && AllSplittable(S.OutOf(out[..n], k))
            && Subsequence(SplitAll(S.OutOf(out[..n], k)), NarrowAll(s.world.inputs[k]))
  {
    StartOk(keys);
    RunKeeps(Start(keys), es);
    NetRun(Start(keys), es);
    AllOutSplittable(keys, NetOf(es));
    ClientToServer(keys, NetOf(es), k);
    var s := Run(Start(keys), es);
    var n := |s.serverUdp.started|;
    WireIsPrefix(s.serverUdp, ServerOut(s.world), peer);
    FrontOfClient(s.world.server.out, n, k, NarrowAll(s.world.inputs[k]));
  }

  lemma FrontOfClient(out: seq<S.Delivery>, n: nat, k: Key, ds: seq<Datagram>)
    requires n <= |out| && AllSplittable(S.OutOf(out, k)) && Subsequence(SplitAll(S.OutOf(out, k)), ds)
    ensures AllSplittable(S.OutOf(out[..n], k)) && Subsequence(SplitAll(S.OutOf(out[..n], k)), ds)
  {
    S.OutOfPrefix(out, n, k);
    var front, all := S.OutOf(out[..n], k), S.OutOf(out, k);
    assert forall m :: 0 <= m < |front| ==> front[m] == all[m];
    PrefixIsSubsequence(SplitAll(front), SplitAll(all));
    SubsequenceTransitive(SplitAll(front), SplitAll(all), ds);
  }
}
