/** What the tunnel delivers, from UDP side to UDP side. */
module EndToEnd {
  import opened Wire
  import opened Options
  import opened Sequences
  import opened Framing
  import opened Sockets
  import opened Encapsulation
  import opened Tunnel
  import C = ClientSpec
  import S = ServerSpec

  /** What any run leads to, of one client. */
  lemma Reached(keys: set<Key>, es: seq<Event>, k: Key)
    requires IsRun(Initial(keys), es) && k in keys
    ensures var w := Run(Initial(keys), es); Inv(w) && Known(w, k) && KeyInv(w, k)
  {
    InitialOk(keys);
    RunKeeps(Initial(keys), es);
    assert k in Initial(keys).clients;
  }

  // ----- what each side gave a connection -----

  /** United datagrams fit the frame header, and split into the datagrams they were made of. */
  lemma UnitedFacts(ms: seq<Message>, ds: seq<Datagram>)
    requires AreUnited(ms, ds)
    ensures AllSplittable(ms) && SplitAll(ms) == NarrowAll(ds)
    ensures forall m :: m in ms ==> Fits(m) && |m| >= ENDPOINT_SIZE
  {
    forall n | 0 <= n < |ms| ensures Fits(ms[n]) && |ms[n]| >= ENDPOINT_SIZE && Split(ms[n]) == ds[n].Narrowed() {
      UnitedFits(ds[n]);
      UniteRoundTrip(ds[n]);
    }
  }

  /** The interval of datagrams during which an attempt's socket was in `sock_`. */
  predicate Spans(a: C.Attempt, total: nat) {
    a.sock.Some? ==> BornOf(a.sock) <= C.UntilOf(a, total) <= total
  }

  /** The datagrams that arrived at a client's side while the socket of one attempt was in `sock_`. */
  function GivenByClient(a: C.Attempt, inputs: seq<Datagram>): seq<Datagram>
    requires Spans(a, |inputs|)
  {
    if a.sock.Some? then inputs[BornOf(a.sock)..C.UntilOf(a, |inputs|)] else []
  }

  lemma ClientGave(c: C.Client, inputs: seq<Datagram>, j: nat)
    requires C.Inv(c) && AreUnited(c.calls, inputs) && j < |c.attempts|
    ensures Spans(c.attempts[j], |inputs|)
    ensures c.sock == Some(j) ==> C.UntilOf(c.attempts[j], |inputs|) == |inputs|
    ensures AreUnited(SentOf(c.attempts[j].sock), GivenByClient(c.attempts[j], inputs))
  {
    assert C.GivenOk(c.attempts[j], c.sock == Some(j), c.calls);
    if c.sock == Some(j) {
      C.EngagedIsLast(c);
    }
  }

  /** The datagrams at the server's side that are for everyone or for `k`. */
  function RequestsFor(requests: seq<Request>, k: Key): seq<Datagram> {
    if requests == [] then []
    else
      var r := requests[|requests| - 1];
      RequestsFor(requests[..|requests| - 1], k) + if S.Addressed(r.client, k) then [r.d] else []
  }

  /** `at` names, in increasing order, the requests that are for everyone, having no addressee, or for `k`. */
  ghost predicate Selects(at: seq<nat>, requests: seq<Request>, k: Key) {
    && (forall m, n :: 0 <= m < n < |at| ==> at[m] < at[n])
    && (forall n :: 0 <= n < |at| ==> at[n] < |requests|)
    && (forall p: nat :: p in at <==> p < |requests| && (requests[p].client == "" || requests[p].client == k))
  }

  predicate AreAt(ds: seq<Datagram>, requests: seq<Request>, at: seq<nat>) {
    |ds| == |at| && forall n :: 0 <= n < |at| ==> at[n] < |requests| && ds[n] == requests[at[n]].d
  }

  /** What is for `k` is exactly the datagrams of receivers configured for nobody in particular or for `k`, in order. */
  lemma {:induction false} RequestsExactly(requests: seq<Request>, k: Key) returns (at: seq<nat>)
    ensures Selects(at, requests, k) && AreAt(RequestsFor(requests, k), requests, at)
  {
    if requests == [] {
      at := [];
    } else {
      var front := RequestsExactly(requests[..|requests| - 1], k);
      at := SelectNext(requests, k, front);
    }
  }

  lemma SelectNext(requests: seq<Request>, k: Key, front: seq<nat>) returns (at: seq<nat>)
    requires requests != [] && Selects(front, requests[..|requests| - 1], k)
    requires AreAt(RequestsFor(requests[..|requests| - 1], k), requests[..|requests| - 1], front)
    ensures Selects(at, requests, k) && AreAt(RequestsFor(requests, k), requests, at)
  {
    var last := |requests| - 1;
    if requests[last].client == "" || requests[last].client == k {
      at := front + [last];
    } else {
      at := front;
    }
    forall p: nat ensures p in at <==> p < |requests| && (requests[p].client == "" || requests[p].client == k) {
      assert p in front <==> p < last && (requests[p].client == "" || requests[p].client == k);
    }
  }

  lemma {:induction false} RelevantAreUnited(log: seq<S.Call>, requests: seq<Request>, k: Key)
    requires LogOk(log, requests)
    ensures AreUnited(S.RelevantTo(log, k), RequestsFor(requests, k))
  {
    if log != [] {
      RelevantAreUnited(log[..|log| - 1], requests[..|log| - 1], k);
    }
  }

  /** The datagrams at the server's side for `k` while a connection was in the table. */
  function GivenByServer(c: S.Conn, requests: seq<Request>, k: Key): seq<Datagram>
    requires c.end.past.born <= S.UntilOf(c, |requests|) <= |requests|
  {
    RequestsFor(requests[c.end.past.born..S.UntilOf(c, |requests|)], k)
  }

  lemma ServerGave(s: S.Server, requests: seq<Request>, k: Key, i: nat)
    requires S.KeyOk(s, k) && LogOk(s.log, requests) && S.IsConn(s, k, i)
    ensures var c := S.ConnsOf(s, k)[i]; c.end.past.born <= S.UntilOf(c, |requests|) <= |requests|
    ensures S.Occupant(s, k) == Some(i) ==> S.UntilOf(S.ConnsOf(s, k)[i], |requests|) == |requests|
    ensures AreUnited(S.EndAt(s, k, i).past.sent, GivenByServer(S.ConnsOf(s, k)[i], requests, k))
  {
    assert S.PlaceOk(k, S.ConnsOf(s, k), S.Occupant(s, k), s.log, 0, i);
    var c := S.ConnsOf(s, k)[i];
    var b, u := c.end.past.born, S.UntilOf(c, |s.log|);
    RelevantAreUnited(s.log[b..u], requests[b..u], k);
  }

  // ----- one connection -----

  /** An end that consumed nothing delivered nothing. */
  lemma NothingFromNothing(o: Option<End>)
    requires (o.Some? ==> EndInv(o.value)) && ConsumedOf(o) == []
    ensures DeliveredOf(o) == []
  {
  }

  lemma EndsOk(w: World, k: Key, i: nat)
    requires Inv(w) && Known(w, k) && KeyInv(w, k) && i < |w.links[k]|
    ensures i < |S.ConnsOf(w.server, k)| && w.links[k][i] < |w.clients[k].attempts|
    ensures EndInv(S.EndAt(w.server, k, i))
    ensures var o := C.At(w.clients[k], w.links[k][i]); (o.Some? ==> EndInv(o.value)) && Fit(o, S.EndAt(w.server, k, i))
  {
    S.EndInvAt(w.server, k, i);
  }

  /**
   One direction: what the receiver delivered is a prefix of what the sender was given, and all of
   it once nothing is queued and every byte was read.
   */
  predicate Delivers(sender: Option<End>, receiver: Option<End>) {
    && DeliveredOf(receiver) <= SentOf(sender)
    && (sender.Some? && receiver.Some?
        && sender.value.tx.msgs == [] && receiver.value.past.consumed == Stream(sender.value) ==>
          receiver.value.past.delivered == sender.value.past.sent && receiver.value.partial == [])
  }

  lemma OneWay(sender: Option<End>, receiver: Option<End>)
    requires (sender.Some? ==> EndInv(sender.value)) && (receiver.Some? ==> EndInv(receiver.value))
    requires ConsumedOf(receiver) <= StreamOf(sender)
    requires forall m :: m in SentOf(sender) ==> Fits(m)
    ensures Delivers(sender, receiver)
  {
    if sender.Some? && receiver.Some? {
      Delivery(sender.value, receiver.value);
    } else if receiver.Some? {
      NothingFromNothing(receiver);
    }
  }

  /** Over one connection, in both directions. */
  lemma ConnectionDelivery(w: World, k: Key, i: nat)
    requires Inv(w) && Known(w, k) && KeyInv(w, k) && i < |w.links[k]|
    ensures Delivers(C.At(w.clients[k], w.links[k][i]), S.At(w.server, k, i))
    ensures Delivers(S.At(w.server, k, i), C.At(w.clients[k], w.links[k][i]))
  {
    EndsOk(w, k, i);
    var j := w.links[k][i];
    assert S.KeyOk(w.server, k);
    ClientGave(w.clients[k], w.inputs[k], j);
    UnitedFacts(SentOf(w.clients[k].attempts[j].sock), GivenByClient(w.clients[k].attempts[j], w.inputs[k]));
    ServerGave(w.server, w.requests, k, i);
    UnitedFacts(S.EndAt(w.server, k, i).past.sent, GivenByServer(S.ConnsOf(w.server, k)[i], w.requests, k));
    OneWay(C.At(w.clients[k], j), S.At(w.server, k, i));
    OneWay(S.At(w.server, k, i), C.At(w.clients[k], j));
  }

  /**
   The same in datagrams: the far side splits a prefix of the datagrams that the near side was
   given, and all of them once nothing is queued and every byte was read.
   */
  predicate DeliversDatagrams(sender: Option<End>, receiver: Option<End>, given: seq<Datagram>) {
    && AllSplittable(DeliveredOf(receiver))
    && SplitAll(DeliveredOf(receiver)) <= NarrowAll(given)
    && (sender.Some? && receiver.Some?
        && sender.value.tx.msgs == [] && receiver.value.past.consumed == Stream(sender.value) ==>
          SplitAll(receiver.value.past.delivered) == NarrowAll(given) && receiver.value.partial == [])
  }

  lemma InDatagrams(sender: Option<End>, receiver: Option<End>, given: seq<Datagram>)
    requires AreUnited(SentOf(sender), given) && Delivers(sender, receiver)
    ensures DeliversDatagrams(sender, receiver, given)
  {
    UnitedFacts(SentOf(sender), given);
    var ms := DeliveredOf(receiver);
    assert forall n :: 0 <= n < |ms| ==> ms[n] == SentOf(sender)[n];
    assert AllSplittable(ms);
    assert SplitAll(ms) == SplitAll(SentOf(sender))[..|ms|];
  }

  /**
   The main theorem for one connection. After any run of the tunnel, for every connection the
   server ever accepted and in both directions: the destinations and payloads handed to the far UDP
   side are a prefix of the datagrams that arrived at the near UDP side while the connection was
   engaged (at the client) or in the table and addressed (at the server), and are all of them once
   the sender's queue is empty and every byte was read. While it is engaged, or in the table,
   that goes on to the latest datagram.
   */
  lemma ConnectionEndToEnd(keys: set<Key>, es: seq<Event>, k: Key, i: nat)
    requires IsRun(Initial(keys), es) && k in keys
    requires S.IsConn(Run(Initial(keys), es).server, k, i)
    ensures var w := Run(Initial(keys), es); var c := S.ConnsOf(w.server, k)[i];
            && Known(w, k) && i < |w.links[k]| && w.links[k][i] < |w.clients[k].attempts|
            && var j := w.links[k][i]; var a := w.clients[k].attempts[j];
            && Spans(a, |w.inputs[k]|)
            && (w.clients[k].sock == Some(j) ==> C.UntilOf(a, |w.inputs[k]|) == |w.inputs[k]|)
            && DeliversDatagrams(a.sock, Some(c.end), GivenByClient(a, w.inputs[k]))
            && c.end.past.born <= S.UntilOf(c, |w.requests|) <= |w.requests|
            && (S.Occupant(w.server, k) == Some(i) ==> S.UntilOf(c, |w.requests|) == |w.requests|)
            && DeliversDatagrams(Some(c.end), a.sock, GivenByServer(c, w.requests, k))
  {
    Reached(keys, es, k);
    var w := Run(Initial(keys), es);
    ConnectionDatagrams(w, k, i);
  }

  lemma ConnectionDatagrams(w: World, k: Key, i: nat)
    requires Inv(w) && Known(w, k) && KeyInv(w, k) && S.IsConn(w.server, k, i)
    ensures i < |w.links[k]| && w.links[k][i] < |w.clients[k].attempts|
    ensures var j := w.links[k][i]; var a := w.clients[k].attempts[j];
            && Spans(a, |w.inputs[k]|)
            && (w.clients[k].sock == Some(j) ==> C.UntilOf(a, |w.inputs[k]|) == |w.inputs[k]|)
            && DeliversDatagrams(a.sock, S.At(w.server, k, i), GivenByClient(a, w.inputs[k]))
    ensures var j := w.links[k][i]; var c := S.ConnsOf(w.server, k)[i];
            && c.end.past.born <= S.UntilOf(c, |w.requests|) <= |w.requests|
            && (S.Occupant(w.server, k) == Some(i) ==> S.UntilOf(c, |w.requests|) == |w.requests|)
            && DeliversDatagrams(S.At(w.server, k, i), w.clients[k].attempts[j].sock, GivenByServer(c, w.requests, k))
  {
    var j := w.links[k][i];
    EndsOk(w, k, i);
    var a := w.clients[k].attempts[j];
    ConnectionDelivery(w, k, i);
    ClientGave(w.clients[k], w.inputs[k], j);
    InDatagrams(a.sock, S.At(w.server, k, i), GivenByClient(a, w.inputs[k]));
    assert S.KeyOk(w.server, k);
    ServerGave(w.server, w.requests, k, i);
    InDatagrams(S.At(w.server, k, i), a.sock, GivenByServer(S.ConnsOf(w.server, k)[i], w.requests, k));
  }

  // ----- all connections of a client -----

  lemma PrefixOfAttempt(w: World, k: Key, i: nat)
    requires Inv(w) && Known(w, k) && KeyInv(w, k) && i < |w.links[k]|
    ensures i < |S.ConnsOf(w.server, k)| && w.links[k][i] < |w.clients[k].attempts|
    ensures S.DeliveredBy(S.ConnsOf(w.server, k))[i] <= C.SentByAttempt(w.clients[k])[w.links[k][i]]
    ensures C.DeliveredByAttempt(w.clients[k])[w.links[k][i]] <= S.SentBy(S.ConnsOf(w.server, k))[i]
  {
    EndsOk(w, k, i);
    ConnectionDelivery(w, k, i);
  }

  lemma TowardsServer(w: World, k: Key)
    requires Inv(w) && Known(w, k) && KeyInv(w, k)
    ensures Subsequence(S.OutOf(w.server.out, k), w.clients[k].calls)
  {
    assert S.KeyOk(w.server, k);
    var received, sent := S.DeliveredBy(S.ConnsOf(w.server, k)), C.SentByAttempt(w.clients[k]);
    forall i | 0 <= i < |w.links[k]| ensures received[i] <= sent[w.links[k][i]] {
      PrefixOfAttempt(w, k, i);
    }
    PrefixesAlongLinks(received, sent, w.links[k]);
    SubsequenceTransitive(Concat(received), Concat(sent), w.clients[k].calls);
  }

  lemma TowardsClient(w: World, k: Key)
    requires Inv(w) && Known(w, k) && KeyInv(w, k)
    ensures Subsequence(w.clients[k].out, Concat(S.SentBy(S.ConnsOf(w.server, k))))
  {
    var received, sent, links := C.DeliveredByAttempt(w.clients[k]), S.SentBy(S.ConnsOf(w.server, k)), w.links[k];
    forall i | 0 <= i < |links| ensures received[links[i]] <= sent[i] {
      PrefixOfAttempt(w, k, i);
    }
    forall j | 0 <= j < |received| && j !in links ensures received[j] == [] {
      NothingFromNothing(C.At(w.clients[k], j));
    }
    PrefixesAgainstLinks(received, sent, links);
  }

  lemma AllSentIsRelevant(s: S.Server, k: Key)
    requires S.KeyOk(s, k)
    ensures Subsequence(Concat(S.SentBy(S.ConnsOf(s, k))), S.RelevantTo(s.log, k))
  {
    var conns := S.ConnsOf(s, k);
    assert conns[..|conns|] == conns && s.log[..|s.log|] == s.log;
    if conns != [] {
      assert S.PlaceOk(k, conns, S.Occupant(s, k), s.log, 0, |conns| - 1);
    }
    S.SentIsSubsequence(k, conns, S.Occupant(s, k), s.log, |conns|, |s.log|);
  }

  /**
   The main theorem, towards the server. Over any run, with any disconnects, reconnects, cuts,
   chunks and interleavings: of each client the server hands to its UDP side a subsequence of the
   datagrams that were given to that client, in order, none twice, unchanged but for the narrowing
   of the port; and every message it hands over holds an endpoint, as the program asserts.
   */
  lemma ClientToServer(keys: set<Key>, es: seq<Event>, k: Key)
    requires IsRun(Initial(keys), es) && k in keys
    ensures var w := Run(Initial(keys), es);
            && Known(w, k)
            && AllSplittable(S.OutOf(w.server.out, k))
            && Subsequence(SplitAll(S.OutOf(w.server.out, k)), NarrowAll(w.inputs[k]))
  {
    Reached(keys, es, k);
    var w := Run(Initial(keys), es);
    TowardsServer(w, k);
    SplitSubsequence(S.OutOf(w.server.out, k), w.clients[k].calls, w.inputs[k]);
  }

  /** The server hands on messages of clients only. */
  predicate OutKnown(w: World) {
    forall d :: d in w.server.out ==> d.key in w.clients
  }

  lemma {:induction false} RunOutKnown(w: World, es: seq<Event>)
    requires OutKnown(w) && IsRun(w, es)
    ensures OutKnown(Run(w, es))
    decreases |es|
  {
    if es != [] {
      StepKeepsClients(w, es[0]);
      RunOutKnown(Step(w, es[0]), es[1..]);
    }
  }

  /** Every message that the server hands on in a run holds an endpoint. */
  lemma AllOutSplittable(keys: set<Key>, es: seq<Event>)
    requires IsRun(Initial(keys), es)
    ensures AllSplittable(S.MessagesOf(Run(Initial(keys), es).server.out))
  {
    var out := Run(Initial(keys), es).server.out;
    RunOutKnown(Initial(keys), es);
    InitialOk(keys);
    RunKeeps(Initial(keys), es);
    forall n | 0 <= n < |out| ensures |out[n].message| >= ENDPOINT_SIZE {
      assert out[n] in out;
      ClientToServer(keys, es, out[n].key);
      S.OutOfMember(out, n);
    }
  }

  /** The main theorem, towards a client: the same for the datagrams broadcast or addressed to it. */
  lemma ServerToClient(keys: set<Key>, es: seq<Event>, k: Key)
    requires IsRun(Initial(keys), es) && k in keys
    ensures var w := Run(Initial(keys), es);
            && Known(w, k)
            && AllSplittable(w.clients[k].out)
            && Subsequence(SplitAll(w.clients[k].out), NarrowAll(RequestsFor(w.requests, k)))
  {
    Reached(keys, es, k);
    var w := Run(Initial(keys), es);
    assert S.KeyOk(w.server, k);
    TowardsClient(w, k);
    AllSentIsRelevant(w.server, k);
    var relevant := S.RelevantTo(w.server.log, k);
    SubsequenceTransitive(w.clients[k].out, Concat(S.SentBy(S.ConnsOf(w.server, k))), relevant);
    RelevantAreUnited(w.server.log, w.requests, k);
    SplitSubsequence(w.clients[k].out, relevant, RequestsFor(w.requests, k));
  }

  // ----- what the receiving handlers rely on -----

  lemma RunSnoc(w: World, es: seq<Event>, e: Event)
    requires IsRun(w, es) && Enabled(Run(w, es), e)
    ensures IsRun(w, es + [e]) && Run(w, es + [e]) == Step(Run(w, es), e)
  {
    RunAppend(w, es, [e]);
  }

  /** Fed by a tunnel, the buffer never holds more than a frame. */
  lemma PartialIsSmall(sender: End, receiver: End)
    requires EndInv(sender) && EndInv(receiver) && receiver.past.consumed <= Stream(sender)
    requires forall m :: m in sender.past.sent ==> Fits(m)
    ensures |receiver.partial| < HEADER_SIZE + TWO_31
  {
    StreamOfFrames(sender);
    var ms := sender.past.sent;
    var k := DecodePrefix(ms, receiver.past.consumed);
    if k < |ms| {
      assert ms[k] in ms;
    }
  }

  lemma BothBuffersSmall(w: World, k: Key, i: nat)
    requires Inv(w) && Known(w, k) && KeyInv(w, k) && i < |w.links[k]|
    requires S.IsConn(w.server, k, i) && w.links[k][i] < |w.clients[k].attempts|
    requires C.At(w.clients[k], w.links[k][i]).Some?
    ensures |S.EndAt(w.server, k, i).partial| < HEADER_SIZE + TWO_31
    ensures |C.At(w.clients[k], w.links[k][i]).value.partial| < HEADER_SIZE + TWO_31
  {
    EndsOk(w, k, i);
    var j := w.links[k][i];
    assert S.KeyOk(w.server, k);
    ClientGave(w.clients[k], w.inputs[k], j);
    UnitedFacts(SentOf(w.clients[k].attempts[j].sock), GivenByClient(w.clients[k].attempts[j], w.inputs[k]));
    ServerGave(w.server, w.requests, k, i);
    UnitedFacts(S.EndAt(w.server, k, i).past.sent, GivenByServer(S.ConnsOf(w.server, k)[i], w.requests, k));
    PartialIsSmall(S.EndAt(w.server, k, i), C.At(w.clients[k], j).value);
    PartialIsSmall(C.At(w.clients[k], j).value, S.EndAt(w.server, k, i));
  }

  /** Over every run, whatever a client reads next is safe to read. */
  lemma ClientReadsSafely(keys: set<Key>, es: seq<Event>, k: Key, j: nat, chunk: bytes)
    requires IsRun(Initial(keys), es) && k in keys
    requires Enabled(Run(Initial(keys), es), ClientDoes(k, C.Read(j, chunk)))
    ensures SafeToRead(C.At(Run(Initial(keys), es).clients[k], j).value, chunk)
  {
    Reached(keys, es, k);
    var w, e := Run(Initial(keys), es), ClientDoes(k, C.Read(j, chunk));
    var i :| 0 <= i < |w.links[k]| && w.links[k][i] == j;
    EndsOk(w, k, i);
    BothBuffersSmall(w, k, i);
    RunSnoc(Initial(keys), es, e);
    ServerToClient(keys, es + [e], k);
    Suffix(w.clients[k].out, NewlyDelivered(C.At(w.clients[k], j).value, Receive(C.At(w.clients[k], j).value, chunk)));
  }

  /** Over every run, whatever the server reads next is safe to read. */
  lemma ServerReadsSafely(keys: set<Key>, es: seq<Event>, k: Key, i: nat, chunk: bytes)
    requires IsRun(Initial(keys), es) && k in keys
    requires Enabled(Run(Initial(keys), es), ServerDoes(S.Read(k, i, chunk)))
    ensures SafeToRead(S.EndAt(Run(Initial(keys), es).server, k, i), chunk)
  {
    Reached(keys, es, k);
    var w, e := Run(Initial(keys), es), ServerDoes(S.Read(k, i, chunk));
    var end := S.EndAt(w.server, k, i);
    EndsOk(w, k, i);
    assert |end.partial| < HEADER_SIZE + TWO_31 by {
      if C.At(w.clients[k], w.links[k][i]).Some? {
        BothBuffersSmall(w, k, i);
      }
    }
    RunSnoc(Initial(keys), es, e);
    AllOutSplittable(keys, es + [e]);
    var more := NewlyDelivered(end, Receive(end, chunk));
    S.TaggedMessages(w.server.out, k, more);
    Suffix(S.MessagesOf(w.server.out), more);
  }

  lemma Suffix(a: seq<Message>, b: seq<Message>)
    requires AllSplittable(a + b)
    ensures AllSplittable(b)
  {
    forall n | 0 <= n < |b| ensures |b[n]| >= ENDPOINT_SIZE {
      assert (a + b)[|a| + n] == b[n];
    }
  }
}
