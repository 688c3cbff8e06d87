/**
 The whole tunnel: any number of clients at distinct addresses, one server, and TCP between them.

 TCP is a reliable byte stream per connection: an end reads, in chunks of any size, a prefix of
 the bytes whose writing the other end started; a failure may cut it anywhere. Connections from
 one address are accepted in the order in which they were attempted, possibly with gaps. Every
 completion is an event of its own, so handlers interleave freely and never nest.
 */
module Tunnel {
  import opened Options
  import opened Wire
  import opened Sockets
  import opened Encapsulation
  import C = ClientSpec
  import S = ServerSpec

  type Key = S.Key

  /** A datagram received at the server's side, and the client its receiver is configured for. */
  datatype Request = Request(d: Datagram, client: Key)

  /**
   `links[k][i]` is the attempt of client `k` that the server accepted as its connection `i`.
   `inputs[k]` and `requests` are the datagrams that the receivers on either side were given.
   */
  datatype World = World(
    clients: map<Key, C.Client>,
    server: S.Server,
    links: map<Key, seq<nat>>,
    inputs: map<Key, seq<Datagram>>,
    requests: seq<Request>)

  function Initial(keys: set<Key>): World {
    World(map k | k in keys :: C.FRESH, S.FRESH, map k | k in keys :: [], map k | k in keys :: [], [])
  }

  datatype Event =
    | ClientDatagram(k: Key, d: Datagram)
    | ClientDoes(k: Key, ce: C.Event)
    | ServerDatagram(d: Datagram, client: Key)
    | Accept(k: Key, j: nat)
    | ServerDoes(se: S.Event)

  /** Every key in use belongs to a client. */
  predicate Known(w: World, k: Key) {
    k in w.clients && k in w.links && k in w.inputs
  }

  /** The bytes that client `k` has read and reads next on attempt `j` were written by the server on that connection. */
  predicate ServerWrote(w: World, k: Key, j: nat, b: bytes)
    requires Known(w, k)
  {
    exists i :: 0 <= i < |w.links[k]| && w.links[k][i] == j && b <= StreamOf(S.At(w.server, k, i))
  }

  predicate ClientWrote(w: World, k: Key, i: nat, b: bytes)
    requires Known(w, k)
  {
    i < |w.links[k]| && b <= StreamOf(C.At(w.clients[k], w.links[k][i]))
  }

  predicate Enabled(w: World, e: Event) {
    match e
    case ClientDatagram(k, d) => Known(w, k) && d.Receivable()
    case ClientDoes(k, ce) =>
      && Known(w, k) && C.Enabled(w.clients[k], ce) && !ce.Sending?
      && (ce.Read? ==> ServerWrote(w, k, ce.j, C.At(w.clients[k], ce.j).value.past.consumed + ce.chunk))
    case ServerDatagram(d, _) => d.Receivable()
    case Accept(k, j) =>
      && Known(w, k) && w.server.acceptor.pending > 0 && j < |w.clients[k].attempts|
      && (forall l :: l in w.links[k] ==> l < j)
    case ServerDoes(se) =>
      && S.Enabled(w.server, se) && !se.Sending?
      && (se.Accepted? ==> se.acceptCode.Some?)
      && Known(w, se.k)
      && (se.Read? ==> ClientWrote(w, se.k, se.i, S.EndAt(w.server, se.k, se.i).past.consumed + se.chunk))
  }

  function Step(w: World, e: Event): World
    requires Enabled(w, e)
  {
    match e
    case ClientDatagram(k, d) =>
      w.(clients := w.clients[k := C.Step(w.clients[k], C.Sending(Unite(d)))],
         inputs := w.inputs[k := w.inputs[k] + [d]])
    case ClientDoes(k, ce) =>
      w.(clients := w.clients[k := C.Step(w.clients[k], ce)])
    case ServerDatagram(d, client) =>
      w.(server := S.Step(w.server, S.Sending(Unite(d), client)), requests := w.requests + [Request(d, client)])
    case Accept(k, j) =>
      w.(server := S.Step(w.server, S.Accepted(k, None)), links := w.links[k := w.links[k] + [j]])
    case ServerDoes(se) =>
      w.(server := S.Step(w.server, se))
  }

  predicate IsRun(w: World, es: seq<Event>)
    decreases |es|
  {
    es != [] ==> Enabled(w, es[0]) && IsRun(Step(w, es[0]), es[1..])
  }

  function Run(w: World, es: seq<Event>): World
    requires IsRun(w, es)
    decreases |es|
  {
    if es == [] then w else Run(Step(w, es[0]), es[1..])
  }

  /** A run that starts with `e`. */
  lemma RunCons(w: World, e: Event, es: seq<Event>)
    requires Enabled(w, e) && IsRun(Step(w, e), es)
    ensures IsRun(w, [e] + es) && Run(w, [e] + es) == Run(Step(w, e), es)
  {
    assert ([e] + es)[1..] == es;
  }

  lemma {:induction false} RunAppend(w: World, a: seq<Event>, b: seq<Event>)
    requires IsRun(w, a) && IsRun(Run(w, a), b)
    ensures IsRun(w, a + b)
    ensures Run(w, a + b) == Run(Run(w, a), b)
    decreases |a|
  {
    if a == [] {
      assert a + b == b;
    } else {
      var ab := a + b;
      assert ab[0] == a[0] && ab[1..] == a[1..] + b;
      RunAppend(Step(w, a[0]), a[1..], b);
    }
  }

  // ----- the invariant -----

  /** Each end of a connection has read a prefix of what the other wrote. */
  predicate Fit(o: Option<End>, e: End) {
    e.past.consumed <= StreamOf(o) && ConsumedOf(o) <= Stream(e)
  }

  /** The two ends of every connection of one client fit together. */
  predicate Linked(c: C.Client, conns: seq<S.Conn>, links: seq<nat>) {
    && |links| == |conns|
    && (forall i, j :: 0 <= i < j < |links| ==> links[i] < links[j])
    && (forall i :: 0 <= i < |links| ==> links[i] < |c.attempts| && Fit(C.At(c, links[i]), conns[i].end))
    && (forall j :: 0 <= j < |c.attempts| && j !in links ==> ConsumedOf(C.At(c, j)) == [])
  }

  predicate LogOk(log: seq<S.Call>, requests: seq<Request>) {
    && |log| == |requests|
    && (forall n :: 0 <= n < |log| ==>
          requests[n].d.Receivable() && log[n] == S.Call(Unite(requests[n].d), requests[n].client))
  }

  ghost predicate PairInv(c: C.Client, inputs: seq<Datagram>, conns: seq<S.Conn>, links: seq<nat>) {
    C.Inv(c) && AreUnited(c.calls, inputs) && Linked(c, conns, links)
  }

  ghost predicate KeyInv(w: World, k: Key)
    requires Known(w, k)
  {
    PairInv(w.clients[k], w.inputs[k], S.ConnsOf(w.server, k), w.links[k])
  }

  predicate ServerPart(w: World) {
    !w.server.acceptor.handle.cancelled && LogOk(w.server.log, w.requests)
  }

  ghost predicate Inv(w: World) {
    && S.Inv(w.server) && ServerPart(w)
    && (forall k :: k in w.clients ==> Known(w, k) && KeyInv(w, k))
  }

  /** What a step of the client does to one of its connections. */
  lemma ClientKeepsFit(c: C.Client, j: nat, e: C.Event, end: End)
    requires C.Inv(c) && C.Enabled(c, e) && Fit(C.At(c, j), end)
    requires e.Read? && e.j == j ==> C.At(c, j).value.past.consumed + e.chunk <= Stream(end)
    ensures Fit(C.At(C.Step(c, e), j), end)
  {
    C.StepEvolves(c, e, j);
  }

  /** A step of the client keeps its connections fitting. */
  lemma ClientKeepsLinked(c: C.Client, conns: seq<S.Conn>, links: seq<nat>, e: C.Event)
    requires Linked(c, conns, links) && C.Inv(c) && C.Enabled(c, e)
    requires e.Read? ==> exists i :: 0 <= i < |links| && links[i] == e.j
                                  && C.At(c, e.j).value.past.consumed + e.chunk <= Stream(conns[i].end)
    ensures Linked(C.Step(c, e), conns, links)
  {
    var c' := C.Step(c, e);
    C.StepGrows(c, e);
    forall i | 0 <= i < |links| ensures Fit(C.At(c', links[i]), conns[i].end) {
      if e.Read? && e.j == links[i] {
        var n :| 0 <= n < |links| && links[n] == e.j
                 && C.At(c, e.j).value.past.consumed + e.chunk <= Stream(conns[n].end);
        assert n == i;
      }
      ClientKeepsFit(c, links[i], e, conns[i].end);
    }
    forall j | 0 <= j < |c'.attempts| && j !in links ensures ConsumedOf(C.At(c', j)) == [] {
      C.StepEvolves(c, e, j);
    }
  }

  /** What a step of the server does to one of its connections. */
  lemma ServerKeepsFit(o: Option<End>, s: S.Server, k: Key, e: S.Event, i: nat)
    requires S.KeyOk(s, k) && S.Enabled(s, e) && i < |S.ConnsOf(s, k)|
    requires Fit(o, S.EndAt(s, k, i))
    requires e.Read? && e.k == k && e.i == i ==> S.EndAt(s, k, i).past.consumed + e.chunk <= StreamOf(o)
    ensures i < |S.ConnsOf(S.Step(s, e), k)| && Fit(o, S.EndAt(S.Step(s, e), k, i))
  {
    S.StepEvolves(s, e, k, i);
    assert S.At(s, k, i) == Some(S.EndAt(s, k, i));
    assert S.At(S.Step(s, e), k, i) == Some(S.EndAt(S.Step(s, e), k, i));
  }

  /** So does a step of the server that accepts nothing. */
  lemma ServerKeepsLinked(c: C.Client, s: S.Server, k: Key, links: seq<nat>, e: S.Event)
    requires Linked(c, S.ConnsOf(s, k), links) && S.KeyOk(s, k) && S.Enabled(s, e) && !S.Accepts(s, e, k)
    requires e.Read? && e.k == k ==>
               e.i < |links| && S.EndAt(s, k, e.i).past.consumed + e.chunk <= StreamOf(C.At(c, links[e.i]))
    ensures Linked(c, S.ConnsOf(S.Step(s, e), k), links)
  {
    S.StepEvolves(s, e, k, 0);
    forall i | 0 <= i < |links| ensures Fit(C.At(c, links[i]), S.ConnsOf(S.Step(s, e), k)[i].end) {
      ServerKeepsFit(C.At(c, links[i]), s, k, e, i);
    }
  }

  /** A new connection, from which nothing was read yet, on an attempt later than all linked ones. */
  lemma LinkedSnoc(c: C.Client, conns: seq<S.Conn>, links: seq<nat>, j: nat)
    requires |conns| == |links| + 1 && conns[|links|].end.past.consumed == [] && conns[|links|].end.tx.started == []
    requires Linked(c, conns[..|links|], links)
    requires j < |c.attempts| && forall l :: l in links ==> l < j
    ensures Linked(c, conns, links + [j])
  {
    var links' := links + [j];
    assert j !in links;
    forall i, n | 0 <= i < n < |links'| ensures links'[i] < links'[n] {
      assert links'[i] in links;
    }
    forall i | 0 <= i < |links'| ensures Fit(C.At(c, links'[i]), conns[i].end) {
      if i < |links| {
        assert conns[..|links|][i] == conns[i];
      }
    }
    forall l | 0 <= l < |c.attempts| && l !in links' ensures ConsumedOf(C.At(c, l)) == [] {
      assert l !in links;
    }
  }

  lemma AcceptKeepsLinked(c: C.Client, s: S.Server, k: Key, links: seq<nat>, j: nat)
    requires Linked(c, S.ConnsOf(s, k), links) && S.KeyOk(s, k)
    requires s.acceptor.pending > 0 && !s.acceptor.handle.cancelled
    requires j < |c.attempts| && forall l :: l in links ==> l < j
    ensures Linked(c, S.ConnsOf(S.Step(s, S.Accepted(k, None)), k), links + [j])
  {
    var e := S.Accepted(k, None);
    S.StepEvolves(s, e, k, 0);
    var conns', n := S.ConnsOf(S.Step(s, e), k), |links|;
    assert Linked(c, conns'[..n], links) by {
      forall i | 0 <= i < n ensures Fit(C.At(c, links[i]), conns'[..n][i].end) {
        ServerKeepsFit(C.At(c, links[i]), s, k, e, i);
      }
    }
    S.NewcomerIsFresh(s, k);
    LinkedSnoc(c, conns', links, j);
  }

  // ----- one client -----

  /** A step of the client itself. */
  lemma ClientStepPair(c: C.Client, inputs: seq<Datagram>, conns: seq<S.Conn>, links: seq<nat>, e: C.Event,
                       inputs': seq<Datagram>)
    requires PairInv(c, inputs, conns, links) && C.Enabled(c, e) && AreUnited(C.Step(c, e).calls, inputs')
    requires e.Read? ==> exists i :: 0 <= i < |links| && links[i] == e.j
                                  && C.At(c, e.j).value.past.consumed + e.chunk <= Stream(conns[i].end)
    ensures PairInv(C.Step(c, e), inputs', conns, links)
  {
    C.StepKeeps(c, e);
    ClientKeepsLinked(c, conns, links, e);
  }

  lemma ClientDatagramPair(c: C.Client, inputs: seq<Datagram>, conns: seq<S.Conn>, links: seq<nat>, d: Datagram)
    requires PairInv(c, inputs, conns, links) && d.Receivable()
    ensures PairInv(C.Step(c, C.Sending(Unite(d))), inputs + [d], conns, links)
  {
    var e := C.Sending(Unite(d));
    C.StepCalls(c, e);
    ClientStepPair(c, inputs, conns, links, e, inputs + [d]);
  }

  lemma ClientDoesPair(c: C.Client, inputs: seq<Datagram>, conns: seq<S.Conn>, links: seq<nat>, e: C.Event)
    requires PairInv(c, inputs, conns, links) && C.Enabled(c, e) && !e.Sending?
    requires e.Read? ==> exists i :: 0 <= i < |links| && links[i] == e.j
                                  && C.At(c, e.j).value.past.consumed + e.chunk <= Stream(conns[i].end)
    ensures PairInv(C.Step(c, e), inputs, conns, links)
  {
    C.StepCalls(c, e);
    ClientStepPair(c, inputs, conns, links, e, inputs);
  }

  /** A step of the server that accepts nothing from the client. */
  lemma ServerStepPair(c: C.Client, inputs: seq<Datagram>, s: S.Server, k: Key, links: seq<nat>, e: S.Event)
    requires PairInv(c, inputs, S.ConnsOf(s, k), links) && S.KeyOk(s, k) && S.Enabled(s, e) && !S.Accepts(s, e, k)
    requires e.Read? && e.k == k ==>
               e.i < |links| && S.EndAt(s, k, e.i).past.consumed + e.chunk <= StreamOf(C.At(c, links[e.i]))
    ensures PairInv(c, inputs, S.ConnsOf(S.Step(s, e), k), links)
  {
    ServerKeepsLinked(c, s, k, links, e);
  }

  lemma AcceptPair(c: C.Client, inputs: seq<Datagram>, s: S.Server, k: Key, links: seq<nat>, j: nat)
    requires PairInv(c, inputs, S.ConnsOf(s, k), links) && S.KeyOk(s, k)
    requires s.acceptor.pending > 0 && !s.acceptor.handle.cancelled
    requires j < |c.attempts| && forall l :: l in links ==> l < j
    ensures PairInv(c, inputs, S.ConnsOf(S.Step(s, S.Accepted(k, None)), k), links + [j])
  {
    AcceptKeepsLinked(c, s, k, links, j);
  }

  /** Every event keeps the invariant of every client. */
  lemma StepKey(w: World, e: Event, k: Key)
    requires Enabled(w, e) && Known(w, k) && KeyInv(w, k) && S.KeyOk(w.server, k)
    requires !w.server.acceptor.handle.cancelled
    ensures Known(Step(w, e), k) && KeyInv(Step(w, e), k)
  {
    var c, inputs, conns, links := w.clients[k], w.inputs[k], S.ConnsOf(w.server, k), w.links[k];
    match e
    case ClientDatagram(l, d) => if l == k { ClientDatagramPair(c, inputs, conns, links, d); }
    case ClientDoes(l, ce) => if l == k { ClientDoesPair(c, inputs, conns, links, ce); }
    case ServerDatagram(d, client) => ServerStepPair(c, inputs, w.server, k, links, S.Sending(Unite(d), client));
    case Accept(l, j) =>
      if l == k {
        AcceptPair(c, inputs, w.server, k, links, j);
      } else {
        ServerStepPair(c, inputs, w.server, k, links, S.Accepted(l, None));
      }
    case ServerDoes(se) => ServerStepPair(c, inputs, w.server, k, links, se);
  }

  lemma StepServer(w: World, e: Event)
    requires S.Inv(w.server) && ServerPart(w) && Enabled(w, e)
    ensures S.Inv(Step(w, e).server) && ServerPart(Step(w, e))
  {
    match e
    case ClientDatagram(_, _) =>
    case ClientDoes(_, _) =>
    case ServerDatagram(d, client) =>
      S.StepKeeps(w.server, S.Sending(Unite(d), client));
      S.StepLog(w.server, S.Sending(Unite(d), client));
    case Accept(k, _) =>
      S.StepKeeps(w.server, S.Accepted(k, None));
    case ServerDoes(se) =>
      S.StepKeeps(w.server, se);
      S.StepLog(w.server, se);
  }

  lemma StepKeeps(w: World, e: Event)
    requires Inv(w) && Enabled(w, e)
    ensures Inv(Step(w, e))
  {
    StepServer(w, e);
    StepKeepsClients(w, e);
    forall k | k in w.clients ensures Known(Step(w, e), k) && KeyInv(Step(w, e), k) {
      assert S.KeyOk(w.server, k);
      StepKey(w, e, k);
    }
  }

  lemma StepKeepsClients(w: World, e: Event)
    requires Enabled(w, e)
    ensures Step(w, e).clients.Keys == w.clients.Keys
  {
  }

  lemma InitialPair(c: C.Client, conns: seq<S.Conn>)
    requires C.Inv(c) && c.calls == [] && conns == []
    requires forall j :: 0 <= j < |c.attempts| ==> c.attempts[j].sock.None?
    ensures PairInv(c, [], conns, [])
  {
  }

  lemma InitialOk(keys: set<Key>)
    ensures Inv(Initial(keys))
  {
    var w := Initial(keys);
    S.FreshOk();
    forall k | k in w.clients ensures Known(w, k) && KeyInv(w, k) {
      C.FreshInv();
      InitialPair(w.clients[k], S.ConnsOf(w.server, k));
    }
  }

  lemma {:induction false} RunKeeps(w: World, es: seq<Event>)
    requires Inv(w) && IsRun(w, es)
    ensures Inv(Run(w, es)) && Run(w, es).clients.Keys == w.clients.Keys
    decreases |es|
  {
    if es != [] {
      StepKeeps(w, es[0]);
      StepKeepsClients(w, es[0]);
      RunKeeps(Step(w, es[0]), es[1..]);
    }
  }
}
