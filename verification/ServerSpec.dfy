/** The server and its table of clients as a state machine (tunnel_tcp_service.cpp, lines 55-98). */
module ServerSpec {
  import opened Options
  import opened Errors
  import opened AutoCancel
  import opened Wire
  import opened Sequences
  import opened Framing
  import opened Connecting
  import opened Sockets

  /** A client's address as text: the key of `clients_`. */
  type Key = string

  /**
   One accepted connection: its end, and how many calls of `send` there had been when it was
   dropped.
   */
  datatype Conn = Conn(end: End, until: Option<nat>)

  datatype Call = Call(data: Message, client: Key)

  datatype Delivery = Delivery(key: Key, message: Message)

  /**
   `clients` is `clients_`, naming the occupant of a key by its index among all connections ever
   accepted from that address, `conns[key]`. `log` lists the calls of `send` and `out` the messages
   handed to `udp_sender_`.
   */
  datatype Server = Server(
    clients: map<Key, nat>,
    conns: map<Key, seq<Conn>>,
    acceptor: Acceptor,
    log: seq<Call>,
    out: seq<Delivery>)

  const FRESH := Server(map[], map[], LISTENING, [], [])

  function ConnsOf(s: Server, k: Key): seq<Conn> {
    if k in s.conns then s.conns[k] else []
  }

  function Occupant(s: Server, k: Key): Option<nat> {
    if k in s.clients then Some(s.clients[k]) else None
  }

  /** The occupant's wrapper is destroyed. */
  function Evicted(conns: seq<Conn>, occupant: Option<nat>, now: nat): seq<Conn> {
    if occupant.Some? && occupant.value < |conns| then
      var c := conns[occupant.value];
      conns[occupant.value := Conn(Closed(c.end), Some(now))]
    else conns
  }

  predicate Addressed(client: Key, k: Key) {
    client == "" || client == k
  }

  function AfterSend(conns: seq<Conn>, occupant: Option<nat>, m: Message): seq<Conn> {
    if occupant.Some? && occupant.value < |conns| then
      var c := conns[occupant.value];
      conns[occupant.value := c.(end := SendMessage(c.end, m))]
    else conns
  }

  /** To all clients if `client` is empty, else to the one it names, if connected. */
  function Send(s: Server, data: Message, client: Key): Server {
    s.(log := s.log + [Call(data, client)],
       conns := map k | k in s.conns ::
         if Addressed(client, k) then AfterSend(s.conns[k], Occupant(s, k), data) else s.conns[k])
  }

  /** The new wrapper replaces, and so destroys, the one of an earlier connection from the same address. */
  function OnAccept(s: Server, k: Key): Server {
    Joined(s, k, FreshEnd(|s.log|))
  }

  /** The new end is put in the table. */
  function Joined(s: Server, k: Key, e: End): Server {
    var newcomer := Conn(e, None);
    s.(conns := s.conns[k := Evicted(ConnsOf(s, k), Occupant(s, k), |s.log|) + [newcomer]],
       clients := s.clients[k := |ConnsOf(s, k)|])
  }

  function OnDisconnected(s: Server, k: Key): Server {
    s.(conns := s.conns[k := Evicted(ConnsOf(s, k), Occupant(s, k), |s.log|)],
       clients := s.clients - {k})
  }

  predicate IsConn(s: Server, k: Key, i: nat) {
    i < |ConnsOf(s, k)|
  }

  function EndAt(s: Server, k: Key, i: nat): End
    requires IsConn(s, k, i)
  {
    ConnsOf(s, k)[i].end
  }

  function SetEnd(s: Server, k: Key, i: nat, e: End): Server
    requires IsConn(s, k, i)
  {
    s.(conns := s.conns[k := ConnsOf(s, k)[i := ConnsOf(s, k)[i].(end := e)]])
  }

  function AcceptDone(s: Server, k: Key, code: Completion): Server
    requires s.acceptor.pending > 0
  {
    var (acceptor, verdict) := AfterAccept(s.acceptor, code);
    if verdict == Established then OnAccept(s.(acceptor := acceptor), k) else s.(acceptor := acceptor)
  }

  function Tagged(k: Key, ms: seq<Message>): seq<Delivery> {
    seq(|ms|, n requires 0 <= n < |ms| => Delivery(k, ms[n]))
  }

  function ReadDone(s: Server, k: Key, i: nat, chunk: bytes): Server
    requires IsConn(s, k, i) && EndAt(s, k, i).tx.reading > 0
  {
    var e := EndAt(s, k, i);
    var e' := Receive(e, chunk);
    SetEnd(s, k, i, e').(out := s.out + Tagged(k, NewlyDelivered(e, e')))
  }

  /** A connection's end comes out of a handler, which may have raised `on_disconnected`. */
  function Raised(s: Server, k: Key, i: nat, e: End, up: bool): Server
    requires IsConn(s, k, i)
  {
    if up then OnDisconnected(SetEnd(s, k, i, e), k) else SetEnd(s, k, i, e)
  }

  function ReadFailed(s: Server, k: Key, i: nat, code: ErrorCode): Server
    requires IsConn(s, k, i) && EndAt(s, k, i).tx.reading > 0
  {
    var (e, up) := Sockets.ReadFailed(EndAt(s, k, i), code);
    Raised(s, k, i, e, up)
  }

  function WriteDone(s: Server, k: Key, i: nat, n: nat, code: Completion): Server
    requires IsConn(s, k, i) && n < |EndAt(s, k, i).tx.writing|
  {
    var (e, up) := Sockets.WriteDone(EndAt(s, k, i), n, code);
    Raised(s, k, i, e, up)
  }

  // ----- steps -----

  datatype Event =
    | Sending(data: Message, client: Key)
    | Accepted(k: Key, acceptCode: Completion)
    | Read(k: Key, i: nat, chunk: bytes)
    | ReadError(k: Key, i: nat, error: ErrorCode)
    | Written(k: Key, i: nat, n: nat, writeCode: Completion)

  predicate Enabled(s: Server, e: Event) {
    match e
    case Sending(_, _) => true
    case Accepted(_, _) => s.acceptor.pending > 0
    case Read(k, i, chunk) => IsConn(s, k, i) && EndAt(s, k, i).tx.reading > 0 && 0 < |chunk| <= 256 * 1024
    case ReadError(k, i, _) => IsConn(s, k, i) && EndAt(s, k, i).tx.reading > 0
    case Written(k, i, n, _) => IsConn(s, k, i) && n < |EndAt(s, k, i).tx.writing|
  }

  function Step(s: Server, e: Event): Server
    requires Enabled(s, e)
  {
    match e
    case Sending(data, client) => Send(s, data, client)
    case Accepted(k, code) => AcceptDone(s, k, code)
    case Read(k, i, chunk) => ReadDone(s, k, i, chunk)
    case ReadError(k, i, code) => ReadFailed(s, k, i, code)
    case Written(k, i, n, code) => WriteDone(s, k, i, n, code)
  }

  // ----- what a client is owed -----

  /** The messages of the calls that are for everyone or for `k`. */
  function RelevantTo(log: seq<Call>, k: Key): seq<Message> {
    if log == [] then []
    else RelevantTo(log[..|log| - 1], k) + RelevantCall(log[|log| - 1], k)
  }

  function RelevantCall(c: Call, k: Key): seq<Message> {
    if Addressed(c.client, k) then [c.data] else []
  }

  lemma RelevantSnoc(log: seq<Call>, c: Call, k: Key)
    ensures RelevantTo(log + [c], k) == RelevantTo(log, k) + RelevantCall(c, k)
  {
    assert (log + [c])[..|log|] == log;
  }

  lemma {:induction false} RelevantAppend(a: seq<Call>, b: seq<Call>, k: Key)
    ensures RelevantTo(a + b, k) == RelevantTo(a, k) + RelevantTo(b, k)
    decreases |b|
  {
    if b == [] {
      assert a + b == a;
    } else {
      var n := |b| - 1;
      assert a + b == (a + b[..n]) + [b[n]] && b == b[..n] + [b[n]];
      RelevantAppend(a, b[..n], k);
      RelevantSnoc(a + b[..n], b[n], k);
    }
  }

  /** `at` names, in increasing order, the calls that are for everyone, having no addressee, or for `k`. */
  ghost predicate Selects(at: seq<nat>, log: seq<Call>, k: Key) {
    && (forall m, n :: 0 <= m < n < |at| ==> at[m] < at[n])
    && (forall n :: 0 <= n < |at| ==> at[n] < |log|)
    && (forall p: nat :: p in at <==> p < |log| && (log[p].client == "" || log[p].client == k))
  }

  /** The messages at some positions of the log. */
  predicate AreAt(ms: seq<Message>, log: seq<Call>, at: seq<nat>) {
    |ms| == |at| && forall n :: 0 <= n < |at| ==> at[n] < |log| && ms[n] == log[at[n]].data
  }

  /** What is relevant to `k` is the messages of exactly the calls for everyone or for `k`, in order. */
  lemma {:induction false} RelevantExactly(log: seq<Call>, k: Key) returns (at: seq<nat>)
    ensures Selects(at, log, k) && AreAt(RelevantTo(log, k), log, at)
  {
    if log == [] {
      at := [];
    } else {
      var last := |log| - 1;
      var front := RelevantExactly(log[..last], k);
      at := SelectNext(log, k, front);
    }
  }

  lemma SelectNext(log: seq<Call>, k: Key, front: seq<nat>) returns (at: seq<nat>)
    requires log != [] && Selects(front, log[..|log| - 1], k)
    requires AreAt(RelevantTo(log[..|log| - 1], k), log[..|log| - 1], front)
    ensures Selects(at, log, k) && AreAt(RelevantTo(log, k), log, at)
  {
    var last := |log| - 1;
    if log[last].client == "" || log[last].client == k {
      at := front + [last];
    } else {
      at := front;
    }
    forall p: nat ensures p in at <==> p < |log| && (log[p].client == "" || log[p].client == k) {
      assert p in front <==> p < last && (log[p].client == "" || log[p].client == k);
    }
  }

  lemma {:induction false} RelevantMember(log: seq<Call>, k: Key, m: Message)
    requires m in RelevantTo(log, k)
    ensures exists n :: 0 <= n < |log| && log[n].data == m
  {
    var last := |log| - 1;
    if m in RelevantTo(log[..last], k) {
      RelevantMember(log[..last], k, m);
      var n :| 0 <= n < last && log[..last][n].data == m;
      assert log[n].data == m;
    } else {
      assert log[last].data == m;
    }
  }

  /** The messages handed to `udp_sender_` from the connections of one address. */
  function OutOf(out: seq<Delivery>, k: Key): seq<Message> {
    if out == [] then []
    else
      var d := out[|out| - 1];
      OutOf(out[..|out| - 1], k) + if d.key == k then [d.message] else []
  }

  lemma {:induction false} OutOfTagged(out: seq<Delivery>, k: Key, ms: seq<Message>, l: Key)
    ensures OutOf(out + Tagged(k, ms), l) == OutOf(out, l) + if k == l then ms else []
    decreases |ms|
  {
    if ms == [] {
      assert out + Tagged(k, ms) == out;
    } else {
      var n := |ms| - 1;
      OutOfTagged(out, k, ms[..n], l);
      assert (out + Tagged(k, ms))[..|out| + n] == out + Tagged(k, ms[..n]);
      assert ms == ms[..n] + [ms[n]];
    }
  }

  function MessagesOf(out: seq<Delivery>): seq<Message> {
    seq(|out|, n requires 0 <= n < |out| => out[n].message)
  }

  lemma TaggedMessages(out: seq<Delivery>, k: string, ms: seq<Message>)
    ensures MessagesOf(out + Tagged(k, ms)) == MessagesOf(out) + ms
  {
  }

  lemma {:induction false} OutOfMember(out: seq<Delivery>, n: nat)
    requires n < |out|
    ensures out[n].message in OutOf(out, out[n].key)
    decreases |out|
  {
    var last := |out| - 1;
    if n < last {
      OutOfMember(out[..last], n);
    }
  }

  lemma {:induction false} OutOfPrefix(out: seq<Delivery>, n: nat, k: Key)
    requires n <= |out|
    ensures OutOf(out[..n], k) <= OutOf(out, k)
    decreases |out|
  {
    if n < |out| {
      var last := |out| - 1;
      OutOfPrefix(out[..last], n, k);
      assert out[..last][..n] == out[..n];
    } else {
      assert out[..n] == out;
    }
  }

  // ----- the invariant of one address -----

  function UntilOf(c: Conn, now: nat): nat {
    if c.until.Some? then c.until.value else now
  }

  /**
   What a connection satisfies, depending on whether it occupies its key: exactly the occupants are
   uncancelled; a connection was given exactly the messages for its key that were sent while it
   was the occupant; and it raised `on_disconnected` at most `most` times.
   */
  predicate ConnOk(c: Conn, occupies: bool, k: Key, log: seq<Call>, most: nat) {
    && EndInv(c.end)
    && c.end.tx.handle == Handle(!occupies, true, if occupies then 0 else 1)
    && (c.until.None? <==> occupies)
    && c.end.disconnects <= most
    && c.end.past.born <= UntilOf(c, |log|) <= |log|
    && c.end.past.sent == RelevantTo(log[c.end.past.born..UntilOf(c, |log|)], k)
  }

  function DeliveredBy(conns: seq<Conn>): seq<seq<Message>> {
    seq(|conns|, i requires 0 <= i < |conns| => conns[i].end.past.delivered)
  }

  function SentBy(conns: seq<Conn>): seq<seq<Message>> {
    seq(|conns|, i requires 0 <= i < |conns| => conns[i].end.past.sent)
  }

  /** The invariant of one connection with the bound that goes with its place. */
  predicate PlaceOk(k: Key, conns: seq<Conn>, occupant: Option<nat>, log: seq<Call>, most: nat, i: nat)
    requires i < |conns|
  {
    ConnOk(conns[i], occupant == Some(i), k, log, if occupant == Some(i) then most else 1)
  }

  predicate ConnsOk(k: Key, conns: seq<Conn>, occupant: Option<nat>, log: seq<Call>, most: nat) {
    && (occupant.Some? ==> occupant.value == |conns| - 1)
    && (forall i :: 0 <= i < |conns| ==>
          PlaceOk(k, conns, occupant, log, most, i))
    && (forall i, j :: 0 <= i < j < |conns| ==> UntilOf(conns[i], |log|) <= conns[j].end.past.born)
  }

  predicate PeerOk(k: Key, conns: seq<Conn>, occupant: Option<nat>, log: seq<Call>, out: seq<Message>) {
    ConnsOk(k, conns, occupant, log, 0) && out == Concat(DeliveredBy(conns))
  }

  predicate KeyOk(s: Server, k: Key) {
    PeerOk(k, ConnsOf(s, k), Occupant(s, k), s.log, OutOf(s.out, k))
  }

  ghost predicate Inv(s: Server) {
    s.acceptor.pending <= 1 && forall k :: KeyOk(s, k)
  }

  lemma DeliveredBySame(conns: seq<Conn>, i: nat, e: End)
    requires i < |conns| && e.past.delivered == conns[i].end.past.delivered
    ensures DeliveredBy(conns[i := conns[i].(end := e)]) == DeliveredBy(conns)
  {
  }

  lemma SetEndOk(k: Key, conns: seq<Conn>, occupant: Option<nat>, log: seq<Call>, i: nat, e: End, most: nat)
    requires ConnsOk(k, conns, occupant, log, 0) && i < |conns| && EndInv(e)
    requires e.tx.handle == conns[i].end.tx.handle
    requires e.past.sent == conns[i].end.past.sent && e.past.born == conns[i].end.past.born
    requires e.disconnects <= conns[i].end.disconnects + most && (most > 0 ==> !e.tx.handle.cancelled)
    ensures ConnsOk(k, conns[i := conns[i].(end := e)], occupant, log, most)
  {
    var conns' := conns[i := conns[i].(end := e)];
    assert PlaceOk(k, conns, occupant, log, 0, i);
    assert PlaceOk(k, conns', occupant, log, most, i);
    forall j | 0 <= j < |conns| && j != i ensures PlaceOk(k, conns', occupant, log, most, j) {
      assert PlaceOk(k, conns, occupant, log, 0, j);
    }
  }

  lemma EvictedOk(k: Key, conns: seq<Conn>, occupant: Option<nat>, log: seq<Call>)
    requires ConnsOk(k, conns, occupant, log, 1)
    ensures ConnsOk(k, Evicted(conns, occupant, |log|), None, log, 0)
    ensures DeliveredBy(Evicted(conns, occupant, |log|)) == DeliveredBy(conns)
  {
    var conns' := Evicted(conns, occupant, |log|);
    forall i | 0 <= i < |conns|
      ensures PlaceOk(k, conns', None, log, 0, i) && UntilOf(conns'[i], |log|) == UntilOf(conns[i], |log|)
    {
      assert PlaceOk(k, conns, occupant, log, 1, i);
      if occupant == Some(i) {
        EvictedPlace(k, conns[i], log);
      }
    }
    EvictedDelivers(conns, occupant, |log|);
  }

  lemma EvictedDelivers(conns: seq<Conn>, occupant: Option<nat>, now: nat)
    ensures DeliveredBy(Evicted(conns, occupant, now)) == DeliveredBy(conns)
  {
  }

  /** The occupant that is dropped. */
  lemma EvictedPlace(k: Key, c: Conn, log: seq<Call>)
    requires ConnOk(c, true, k, log, 1)
    ensures ConnOk(Conn(Closed(c.end), Some(|log|)), false, k, log, 1)
  {
  }

  lemma ConnsOkWeaken(k: Key, conns: seq<Conn>, occupant: Option<nat>, log: seq<Call>)
    requires ConnsOk(k, conns, occupant, log, 0)
    ensures ConnsOk(k, conns, occupant, log, 1)
  {
    forall i | 0 <= i < |conns| ensures PlaceOk(k, conns, occupant, log, 1, i) {
      assert PlaceOk(k, conns, occupant, log, 0, i);
    }
  }

  lemma AcceptedOk(k: Key, conns: seq<Conn>, e: End, log: seq<Call>)
    requires ConnsOk(k, conns, None, log, 0)
    requires EndInv(e) && e.tx.handle == FRESH_HANDLE && e.disconnects == 0 && e.past.sent == [] && e.past.born == |log|
    ensures ConnsOk(k, conns + [Conn(e, None)], Some(|conns|), log, 0)
  {
    var n := |conns|;
    var conns' := conns + [Conn(e, None)];
    assert PlaceOk(k, conns', Some(n), log, 0, n) by {
      assert log[|log|..|log|] == [];
    }
    forall i | 0 <= i < n ensures PlaceOk(k, conns', Some(n), log, 0, i) && UntilOf(conns'[i], |log|) <= |log| {
      assert PlaceOk(k, conns, None, log, 0, i);
      assert conns'[i] == conns[i];
    }
  }

  lemma AcceptedDeliversNothing(conns: seq<Conn>, e: End)
    requires e.past.delivered == []
    ensures Concat(DeliveredBy(conns + [Conn(e, None)])) == Concat(DeliveredBy(conns))
  {
    assert DeliveredBy(conns + [Conn(e, None)]) == DeliveredBy(conns) + [[]];
    ConcatSnoc(DeliveredBy(conns), []);
  }

  /** A call of `send` at a connection it does not reach. */
  lemma CallPassesBy(k: Key, c: Conn, log: seq<Call>, call: Call)
    requires ConnOk(c, false, k, log, 1)
    ensures ConnOk(c, false, k, log + [call], 1)
  {
    assert (log + [call])[c.end.past.born..c.until.value] == log[c.end.past.born..c.until.value];
  }

  /** A call of `send` at the occupant of a key. */
  lemma CallReaches(k: Key, c: Conn, log: seq<Call>, call: Call)
    requires ConnOk(c, true, k, log, 0)
    ensures ConnOk(if Addressed(call.client, k) then c.(end := SendMessage(c.end, call.data)) else c,
                   true, k, log + [call], 0)
  {
    var log' := log + [call];
    assert log'[c.end.past.born..|log'|] == log[c.end.past.born..|log|] + [call];
    RelevantSnoc(log[c.end.past.born..|log|], call, k);
    SendMessageKeeps(c.end, call.data);
    assert c.end.past.sent + [] == c.end.past.sent;
  }

  lemma SendOk(k: Key, conns: seq<Conn>, occupant: Option<nat>, log: seq<Call>, call: Call)
    requires ConnsOk(k, conns, occupant, log, 0)
    ensures var conns' := if Addressed(call.client, k) then AfterSend(conns, occupant, call.data) else conns;
            ConnsOk(k, conns', occupant, log + [call], 0) && DeliveredBy(conns') == DeliveredBy(conns)
  {
    var conns' := if Addressed(call.client, k) then AfterSend(conns, occupant, call.data) else conns;
    forall i | 0 <= i < |conns| ensures PlaceOk(k, conns', occupant, log + [call], 0, i) {
      assert PlaceOk(k, conns, occupant, log, 0, i);
      if occupant == Some(i) {
        CallReaches(k, conns[i], log, call);
      } else {
        CallPassesBy(k, conns[i], log, call);
      }
    }
    forall i, j | 0 <= i < j < |conns| ensures UntilOf(conns'[i], |log| + 1) <= conns'[j].end.past.born {
      assert UntilOf(conns[i], |log|) <= conns[j].end.past.born;
      assert PlaceOk(k, conns, occupant, log, 0, i);
    }
  }

  lemma DeliverOk(k: Key, conns: seq<Conn>, occupant: Option<nat>, log: seq<Call>, i: nat, e: End, more: seq<Message>)
    requires ConnsOk(k, conns, occupant, log, 0) && occupant == Some(i) && i < |conns|
    requires e.past.delivered == conns[i].end.past.delivered + more
    ensures Concat(DeliveredBy(conns[i := conns[i].(end := e)])) == Concat(DeliveredBy(conns)) + more
  {
    var parts, parts' := DeliveredBy(conns), DeliveredBy(conns[i := conns[i].(end := e)]);
    assert parts'[..i] == parts[..i];
    ConcatGrowLast(parts, parts', more);
  }

  // ----- steps keep it -----

  lemma SendKey(s: Server, data: Message, client: Key, k: Key)
    requires KeyOk(s, k)
    ensures KeyOk(Send(s, data, client), k)
  {
    SendOk(k, ConnsOf(s, k), Occupant(s, k), s.log, Call(data, client));
  }

  /** Dropping the occupant of a key, which may have raised `on_disconnected`. */
  lemma OnDisconnectedKey(s: Server, k: Key)
    requires ConnsOk(k, ConnsOf(s, k), Occupant(s, k), s.log, 1)
    requires OutOf(s.out, k) == Concat(DeliveredBy(ConnsOf(s, k)))
    ensures KeyOk(OnDisconnected(s, k), k) && Occupant(OnDisconnected(s, k), k) == None
  {
    EvictedOk(k, ConnsOf(s, k), Occupant(s, k), s.log);
  }

  lemma JoinedKey(s: Server, k: Key, e: End)
    requires KeyOk(s, k) && IsNew(e, |s.log|)
    ensures KeyOk(Joined(s, k, e), k)
  {
    FreshEndInv(e, |s.log|);
    ConnsOkWeaken(k, ConnsOf(s, k), Occupant(s, k), s.log);
    EvictedOk(k, ConnsOf(s, k), Occupant(s, k), s.log);
    AcceptedOk(k, Evicted(ConnsOf(s, k), Occupant(s, k), |s.log|), e, s.log);
    AcceptedDeliversNothing(Evicted(ConnsOf(s, k), Occupant(s, k), |s.log|), e);
  }

  lemma OnAcceptKey(s: Server, k: Key)
    requires KeyOk(s, k)
    ensures KeyOk(OnAccept(s, k), k)
  {
    JoinedKey(s, k, FreshEnd(|s.log|));
  }

  lemma ReadDoneKey(s: Server, k: Key, i: nat, chunk: bytes)
    requires KeyOk(s, k) && Enabled(s, Read(k, i, chunk))
    ensures KeyOk(ReadDone(s, k, i, chunk), k)
  {
    var conns, e, e' := ConnsOf(s, k), EndAt(s, k, i), Receive(EndAt(s, k, i), chunk);
    assert PlaceOk(k, conns, Occupant(s, k), s.log, 0, i);
    ReceiveKeeps(e, chunk);
    SetEndOk(k, conns, Occupant(s, k), s.log, i, e', 0);
    var more := NewlyDelivered(e, e');
    OutOfTagged(s.out, k, more, k);
    if e.tx.handle.cancelled {
      DeliveredBySame(conns, i, e');
      assert Concat(DeliveredBy(conns)) + more == Concat(DeliveredBy(conns));
    } else {
      DeliverOk(k, conns, Occupant(s, k), s.log, i, e', more);
    }
  }

  /**
   An error at a connection that raises `on_disconnected`: the connection is the occupant of its
   key, so what is erased is that connection, and nothing else.
   */
  lemma RaisedKey(s: Server, k: Key, i: nat, e: End, up: bool)
    requires KeyOk(s, k) && IsConn(s, k, i) && EndInv(e)
    requires e.tx.handle == EndAt(s, k, i).tx.handle && (up ==> !e.tx.handle.cancelled)
    requires e.past == EndAt(s, k, i).past
    requires e.disconnects == EndAt(s, k, i).disconnects + if up then 1 else 0
    ensures KeyOk(Raised(s, k, i, e, up), k)
    ensures up ==> Occupant(s, k) == Some(i) && Occupant(Raised(s, k, i, e, up), k) == None
    ensures !up ==> Occupant(Raised(s, k, i, e, up), k) == Occupant(s, k)
  {
    var conns := ConnsOf(s, k);
    assert PlaceOk(k, conns, Occupant(s, k), s.log, 0, i);
    SetEndOk(k, conns, Occupant(s, k), s.log, i, e, if up then 1 else 0);
    DeliveredBySame(conns, i, e);
    if up {
      OnDisconnectedKey(SetEnd(s, k, i, e), k);
    }
  }

  lemma ReadFailedKey(s: Server, k: Key, i: nat, code: ErrorCode)
    requires KeyOk(s, k) && Enabled(s, ReadError(k, i, code))
    ensures KeyOk(ReadFailed(s, k, i, code), k)
    ensures var up := Sockets.ReadFailed(EndAt(s, k, i), code).1;
            && (up ==> Occupant(s, k) == Some(i))
            && Occupant(ReadFailed(s, k, i, code), k) == if up then None else Occupant(s, k)
  {
    assert PlaceOk(k, ConnsOf(s, k), Occupant(s, k), s.log, 0, i);
    ReadFailedKeeps(EndAt(s, k, i), code);
    var (e, up) := Sockets.ReadFailed(EndAt(s, k, i), code);
    RaisedKey(s, k, i, e, up);
  }

  lemma WriteDoneKey(s: Server, k: Key, i: nat, n: nat, code: Completion)
    requires KeyOk(s, k) && Enabled(s, Written(k, i, n, code))
    ensures KeyOk(WriteDone(s, k, i, n, code), k)
    ensures var up := Sockets.WriteDone(EndAt(s, k, i), n, code).1;
            && (up ==> Occupant(s, k) == Some(i))
            && Occupant(WriteDone(s, k, i, n, code), k) == if up then None else Occupant(s, k)
  {
    assert PlaceOk(k, ConnsOf(s, k), Occupant(s, k), s.log, 0, i);
    WriteDoneKeeps(EndAt(s, k, i), n, code);
    var (e, up) := Sockets.WriteDone(EndAt(s, k, i), n, code);
    RaisedKey(s, k, i, e, up);
  }

  /** Events that concern one address leave every other one alone. */
  lemma OtherKey(s: Server, e: Event, k: Key)
    requires Enabled(s, e) && !e.Sending? && e.k != k
    ensures ConnsOf(Step(s, e), k) == ConnsOf(s, k) && Occupant(Step(s, e), k) == Occupant(s, k)
    ensures Step(s, e).log == s.log && OutOf(Step(s, e).out, k) == OutOf(s.out, k)
  {
    if e.Read? {
      var end := EndAt(s, e.k, e.i);
      OutOfTagged(s.out, e.k, NewlyDelivered(end, Receive(end, e.chunk)), k);
    }
  }

  lemma StepKey(s: Server, e: Event, k: Key)
    requires KeyOk(s, k) && Enabled(s, e)
    ensures KeyOk(Step(s, e), k)
  {
    if !e.Sending? && e.k != k {
      OtherKey(s, e, k);
    } else {
      match e
      case Sending(data, client) => SendKey(s, data, client, k);
      case Accepted(_, code) =>
        var acceptor := AfterAccept(s.acceptor, code).0;
        if code.None? && !s.acceptor.handle.cancelled { OnAcceptKey(s.(acceptor := acceptor), k); }
      case Read(_, i, chunk) => ReadDoneKey(s, k, i, chunk);
      case ReadError(_, i, code) => ReadFailedKey(s, k, i, code);
      case Written(_, i, n, code) => WriteDoneKey(s, k, i, n, code);
    }
  }

  lemma StepKeeps(s: Server, e: Event)
    requires Inv(s) && Enabled(s, e)
    ensures Inv(Step(s, e))
  {
    forall k ensures KeyOk(Step(s, e), k) {
      StepKey(s, e, k);
    }
  }

  lemma FreshOk()
    ensures Inv(FRESH)
  {
    forall k ensures KeyOk(FRESH, k) {
      assert DeliveredBy([]) == [];
    }
  }

  // ----- runs -----

  predicate IsRun(s: Server, es: seq<Event>)
    decreases |es|
  {
    es != [] ==> Enabled(s, es[0]) && IsRun(Step(s, es[0]), es[1..])
  }

  function Run(s: Server, es: seq<Event>): Server
    requires IsRun(s, es)
    decreases |es|
  {
    if es == [] then s else Run(Step(s, es[0]), es[1..])
  }

  lemma {:induction false} RunKeeps(s: Server, es: seq<Event>)
    requires Inv(s) && IsRun(s, es)
    ensures Inv(Run(s, es))
    decreases |es|
  {
    if es != [] {
      StepKeeps(s, es[0]);
      RunKeeps(Step(s, es[0]), es[1..]);
    }
  }

  /** The server's acceptor is never let go. */
  lemma {:induction false} AcceptsAlong(s: Server, es: seq<Event>)
    requires IsRun(s, es) && s.acceptor.pending <= 1 && !s.acceptor.handle.cancelled
    ensures !Run(s, es).acceptor.handle.cancelled && Run(s, es).acceptor.pending <= 1
    ensures Run(s, es).acceptor.pending == 1 <==>
              && s.acceptor.pending == 1
              && (forall n :: 0 <= n < |es| && es[n].Accepted? ==> es[n].acceptCode.None?)
    decreases |es|
  {
    if es != [] {
      AcceptsAlong(Step(s, es[0]), es[1..]);
      assert forall n :: 0 < n < |es| ==> es[n] == es[1..][n - 1];
      assert forall n :: 0 <= n < |es[1..]| ==> es[1..][n] == es[n + 1];
    }
  }

  /** After any run an accept is outstanding exactly if none has failed, and then exactly one. */
  lemma AcceptingExactly(es: seq<Event>)
    requires IsRun(FRESH, es)
    ensures Run(FRESH, es).acceptor.pending <= 1
    ensures Run(FRESH, es).acceptor.pending == 1 <==>
              forall n :: 0 <= n < |es| && es[n].Accepted? ==> es[n].acceptCode.None?
  {
    AcceptsAlong(FRESH, es);
  }

  lemma StepAddsNone(s: Server, e: Event, k: Key)
    requires KeyOk(s, k) && Enabled(s, e) && s.acceptor.pending == 0
    ensures Step(s, e).acceptor.pending == 0
    ensures |ConnsOf(Step(s, e), k)| == |ConnsOf(s, k)|
    ensures Occupant(s, k) == None ==> Occupant(Step(s, e), k) == None
  {
    StepEvolves(s, e, k, 0);
  }

  /** Once an accept has failed no connection is ever added and no key enters the table. */
  lemma {:induction false} AcceptsNobody(s: Server, es: seq<Event>, k: Key)
    requires Inv(s) && IsRun(s, es) && s.acceptor.pending == 0
    ensures Run(s, es).acceptor.pending == 0
    ensures |ConnsOf(Run(s, es), k)| == |ConnsOf(s, k)|
    ensures Occupant(s, k) == None ==> Occupant(Run(s, es), k) == None
    decreases |es|
  {
    if es != [] {
      StepKeeps(s, es[0]);
      StepAddsNone(s, es[0], k);
      AcceptsNobody(Step(s, es[0]), es[1..], k);
    }
  }

  /**
   Fan-out. After any run, whatever a connection's transport accepted, in whatever stage it is,
   is the header and body of each message that was broadcast or addressed to the connection's key
   while it occupied it, in order, and nothing else.
   */
  lemma FanOut(es: seq<Event>, k: Key, i: nat)
    requires IsRun(FRESH, es) && IsConn(Run(FRESH, es), k, i)
    ensures var s := Run(FRESH, es); var c := ConnsOf(s, k)[i]; var tx := c.end.tx;
            && c.end.past.born <= UntilOf(c, |s.log|) <= |s.log|
            && (Occupant(s, k) == Some(i) ==> UntilOf(c, |s.log|) == |s.log|)
            && tx.completed + tx.lost + tx.writing + tx.msgs
            == Pieces(RelevantTo(s.log[c.end.past.born..UntilOf(c, |s.log|)], k))
  {
    FreshOk();
    RunKeeps(FRESH, es);
    var s := Run(FRESH, es);
    assert KeyOk(s, k);
    assert PlaceOk(k, ConnsOf(s, k), Occupant(s, k), s.log, 0, i);
  }

  /**
   Who gets a message. After any run, a call without addressee adds its message to what the occupant
   of every key is given, a call that names a key adds it for the occupant of that key alone, and no
   other connection notices the call.
   */
  lemma CallReachesExactly(es: seq<Event>, data: Message, client: Key, k: Key, i: nat)
    requires IsRun(FRESH, es) && IsConn(Run(FRESH, es), k, i)
    ensures var s := Run(FRESH, es); var s' := Step(s, Sending(data, client)); var e := EndAt(s, k, i);
            && IsConn(s', k, i)
            && ((client == "" || client == k) && k in s.clients && s.clients[k] == i ==>
                  && EndAt(s', k, i) == SendMessage(e, data)
                  && EndAt(s', k, i).past.sent == e.past.sent + [data])
            && (!((client == "" || client == k) && k in s.clients && s.clients[k] == i) ==> EndAt(s', k, i) == e)
  {
    SendAt(Run(FRESH, es), data, client, k, i);
  }

  /**
   After any run, what a connection was given is the messages of exactly those calls, made while it
   occupied its key, that had no addressee or named its key: none of a call that named another.
   */
  lemma GivenExactly(es: seq<Event>, k: Key, i: nat) returns (at: seq<nat>)
    requires IsRun(FRESH, es) && IsConn(Run(FRESH, es), k, i)
    ensures var s := Run(FRESH, es); var c := ConnsOf(s, k)[i];
            && c.end.past.born <= UntilOf(c, |s.log|) <= |s.log|
            && var calls := s.log[c.end.past.born..UntilOf(c, |s.log|)];
               Selects(at, calls, k) && AreAt(c.end.past.sent, calls, at)
  {
    FreshOk();
    RunKeeps(FRESH, es);
    var s := Run(FRESH, es);
    assert KeyOk(s, k);
    assert PlaceOk(k, ConnsOf(s, k), Occupant(s, k), s.log, 0, i);
    var c := ConnsOf(s, k)[i];
    at := RelevantExactly(s.log[c.end.past.born..UntilOf(c, |s.log|)], k);
  }

  function CallOf(e: Event): seq<Call> {
    if e.Sending? then [Call(e.data, e.client)] else []
  }

  /** The calls of `send` along a run. */
  function CallsAlong(es: seq<Event>): seq<Call> {
    if es == [] then [] else CallOf(es[0]) + CallsAlong(es[1..])
  }

  /** The log is the calls along the run. */
  lemma {:induction false} CallsAreLogged(s: Server, es: seq<Event>)
    requires IsRun(s, es)
    ensures Run(s, es).log == s.log + CallsAlong(es)
    decreases |es|
  {
    if es == [] {
      assert s.log + CallsAlong(es) == s.log;
    } else {
      var s' := Step(s, es[0]);
      StepLog(s, es[0]);
      CallsAreLogged(s', es[1..]);
      assert s'.log == s.log + CallOf(es[0]);
      Regroup(s.log, CallOf(es[0]), CallsAlong(es[1..]));
    }
  }

  /** After any run each occupant's socket was never cancelled, and any other connection's exactly once. */
  lemma SocketCancelledOnce(es: seq<Event>, k: Key, i: nat)
    requires IsRun(FRESH, es) && IsConn(Run(FRESH, es), k, i)
    ensures var s := Run(FRESH, es); var h := EndAt(s, k, i).tx.handle;
            && h.attached && (h.cancelled <==> !(k in s.clients && s.clients[k] == i))
            && h.resourceCancels == if k in s.clients && s.clients[k] == i then 0 else 1
  {
    FreshOk();
    RunKeeps(FRESH, es);
    var s := Run(FRESH, es);
    assert KeyOk(s, k);
    assert PlaceOk(k, ConnsOf(s, k), Occupant(s, k), s.log, 0, i);
  }

  lemma DroppedStep(s: Server, e: Event, k: Key, i: nat)
    requires KeyOk(s, k) && Enabled(s, e) && IsConn(s, k, i) && Occupant(s, k) != Some(i)
    ensures IsConn(Step(s, e), k, i) && Occupant(Step(s, e), k) != Some(i)
    ensures OnlySettles(EndAt(s, k, i), EndAt(Step(s, e), k, i))
  {
    assert PlaceOk(k, ConnsOf(s, k), Occupant(s, k), s.log, 0, i);
    if !e.Sending? && e.k != k {
      OtherKey(s, e, k);
    } else {
      match e
      case Sending(data, client) => SendAt(s, data, client, k, i);
      case Accepted(_, code) => DroppedByAccept(s, k, code, i);
      case Read(_, n, chunk) => DroppedByRead(s, k, n, chunk, i);
      case ReadError(_, n, code) =>
        var (end, up) := Sockets.ReadFailed(EndAt(s, k, n), code);
        DroppedByError(s, k, n, end, up, i);
      case Written(_, n, m, code) =>
        var (end, up) := Sockets.WriteDone(EndAt(s, k, n), m, code);
        DroppedByError(s, k, n, end, up, i);
    }
  }

  lemma DroppedByAccept(s: Server, k: Key, code: Completion, i: nat)
    requires IsConn(s, k, i) && Occupant(s, k) != Some(i) && s.acceptor.pending > 0
    ensures IsConn(AcceptDone(s, k, code), k, i) && Occupant(AcceptDone(s, k, code), k) != Some(i)
    ensures EndAt(AcceptDone(s, k, code), k, i) == EndAt(s, k, i)
  {
  }

  lemma DroppedByRead(s: Server, k: Key, n: nat, chunk: bytes, i: nat)
    requires IsConn(s, k, n) && EndAt(s, k, n).tx.reading > 0
    requires IsConn(s, k, i) && Occupant(s, k) != Some(i) && EndAt(s, k, i).tx.handle.cancelled
    ensures IsConn(ReadDone(s, k, n, chunk), k, i) && Occupant(ReadDone(s, k, n, chunk), k) != Some(i)
    ensures OnlySettles(EndAt(s, k, i), EndAt(ReadDone(s, k, n, chunk), k, i))
  {
  }

  lemma DroppedByError(s: Server, k: Key, n: nat, e: End, up: bool, i: nat)
    requires IsConn(s, k, n) && IsConn(s, k, i) && Occupant(s, k) != Some(i)
    requires n == i ==> OnlySettles(EndAt(s, k, i), e)
    ensures IsConn(Raised(s, k, n, e, up), k, i) && Occupant(Raised(s, k, n, e, up), k) != Some(i)
    ensures OnlySettles(EndAt(s, k, i), EndAt(Raised(s, k, n, e, up), k, i))
  {
  }

  lemma {:induction false} DroppedAlong(s: Server, es: seq<Event>, k: Key, i: nat)
    requires Inv(s) && IsRun(s, es) && IsConn(s, k, i) && Occupant(s, k) != Some(i)
    ensures IsConn(Run(s, es), k, i) && Occupant(Run(s, es), k) != Some(i)
    ensures OnlySettles(EndAt(s, k, i), EndAt(Run(s, es), k, i))
    decreases |es|
  {
    if es != [] {
      assert KeyOk(s, k);
      DroppedStep(s, es[0], k, i);
      StepKeeps(s, es[0]);
      DroppedAlong(Step(s, es[0]), es[1..], k, i);
    }
  }

  /**
   A connection that is not, or no longer, in the table stays out of it, and over every run that
   follows nothing is written, read, delivered, given or reported on it any more, whatever completions
   were already queued.
   */
  lemma DroppedForever(es: seq<Event>, more: seq<Event>, k: Key, i: nat)
    requires IsRun(FRESH, es) && IsRun(Run(FRESH, es), more)
    requires IsConn(Run(FRESH, es), k, i) && Occupant(Run(FRESH, es), k) != Some(i)
    ensures var s := Run(FRESH, es); var s' := Run(s, more);
            && IsConn(s', k, i) && Occupant(s', k) != Some(i)
            && OnlySettles(EndAt(s, k, i), EndAt(s', k, i))
            && Stream(EndAt(s', k, i)) == Stream(EndAt(s, k, i))
  {
    FreshOk();
    RunKeeps(FRESH, es);
    DroppedAlong(Run(FRESH, es), more, k, i);
  }

  /**
   The errors of an occupant that erase its key, by their values on Linux: end of file, reset and
   broken pipe, from either loop. After any other error the table is what it was.
   */
  lemma ErasesExactly(es: seq<Event>, e: Event, code: ErrorCode)
    requires IsRun(FRESH, es) && Enabled(Run(FRESH, es), e)
    requires (e.ReadError? && e.error == code) || (e.Written? && e.writeCode == Some(code))
    requires Occupant(Run(FRESH, es), e.k) == Some(e.i)
    ensures var s := Run(FRESH, es);
            Step(s, e).clients ==
              if code in {ErrorCode(MiscCategory, 2), ErrorCode(SystemCategory, 104), ErrorCode(SystemCategory, 32)}
              then s.clients - {e.k} else s.clients
  {
    TableExactly(es, e);
  }

  /**
   Table safety. After any run the uncancelled transports are exactly the occupants of the table,
   the occupant of a key is the latest connection from it, and a connection raises `on_disconnected`
   at most once and has at most two errors. An occupant has raised none, and each of its two loops
   goes on unless it ended with an error that was reported.
   */
  lemma TableSafety(es: seq<Event>, k: Key, i: nat)
    requires IsRun(FRESH, es) && IsConn(Run(FRESH, es), k, i)
    ensures var s := Run(FRESH, es); var e := EndAt(s, k, i);
            && (!e.tx.handle.cancelled <==> k in s.clients && s.clients[k] == i)
            && (k in s.clients ==> s.clients[k] == |ConnsOf(s, k)| - 1)
            && e.disconnects <= 1 && e.disconnects + e.reports <= 2
            && (!e.tx.handle.cancelled ==>
                  && e.disconnects == 0
                  && e.reports == (if e.tx.reading == 1 then 0 else 1) + (if e.tx.lost == [] then 0 else 1))
  {
    FreshOk();
    RunKeeps(FRESH, es);
    var s := Run(FRESH, es);
    assert KeyOk(s, k);
    assert PlaceOk(k, ConnsOf(s, k), Occupant(s, k), s.log, 0, i);
  }

  /** An error at the occupant of a key that means that its connection is gone. */
  predicate Breaks(s: Server, e: Event) {
    || (e.ReadError? && Occupant(s, e.k) == Some(e.i) && IsDisconnect(e.error))
    || (e.Written? && Occupant(s, e.k) == Some(e.i) && e.writeCode.Some? && IsDisconnect(e.writeCode.value))
  }

  /**
   The table, exactly. After any run and any event: a success of the acceptor puts the newcomer in
   the table, an error of the occupant itself erases its key, and nothing else changes the table;
   replaced connections, whatever completions they still have queued, never erase their successor.
   */
  lemma TableExactly(es: seq<Event>, e: Event)
    requires IsRun(FRESH, es) && Enabled(Run(FRESH, es), e)
    ensures var s := Run(FRESH, es);
            Step(s, e).clients ==
              if e.Accepted? && e.acceptCode.None? && !s.acceptor.handle.cancelled then
                s.clients[e.k := |ConnsOf(s, e.k)|]
              else if Breaks(s, e) then s.clients - {e.k}
              else s.clients
  {
    FreshOk();
    RunKeeps(FRESH, es);
    if !e.Sending? {
      assert KeyOk(Run(FRESH, es), e.k);
      if e.ReadError? || e.Written? {
        EraserOccupies(Run(FRESH, es), e);
      }
    }
  }

  lemma EraserOccupies(s: Server, e: Event)
    requires (e.ReadError? || e.Written?) && KeyOk(s, e.k) && Enabled(s, e)
    ensures Step(s, e).clients == if Breaks(s, e) then s.clients - {e.k} else s.clients
  {
    assert PlaceOk(e.k, ConnsOf(s, e.k), Occupant(s, e.k), s.log, 0, e.i);
    match e
    case ReadError(k, i, code) => ReadRaisesExactly(EndAt(s, k, i), code);
    case Written(k, i, n, code) => WriteRaisesExactly(EndAt(s, k, i), n, code);
  }

  /**
   The interval of a connection after a step: it starts when the connection enters the table and
   ends when it leaves.
   */
  predicate StampedBy(s: Server, s': Server, k: Key, i: nat) {
    IsConn(s', k, i) ==>
      && ConnsOf(s', k)[i].end.past.born == (if IsConn(s, k, i) then ConnsOf(s, k)[i].end.past.born else |s.log|)
      && ConnsOf(s', k)[i].until == (if Occupant(s, k) == Some(i) && Occupant(s', k) != Some(i) then Some(|s.log|)
                                     else if IsConn(s, k, i) then ConnsOf(s, k)[i].until else None)
  }

  /** After any run and any event, the intervals of `FanOut` begin and end exactly with the occupancy. */
  lemma IntervalsAreOccupancies(es: seq<Event>, e: Event, k: Key, i: nat)
    requires IsRun(FRESH, es) && Enabled(Run(FRESH, es), e)
    ensures StampedBy(Run(FRESH, es), Step(Run(FRESH, es), e), k, i)
  {
    FreshOk();
    RunKeeps(FRESH, es);
    assert KeyOk(Run(FRESH, es), k);
    StepStamps(Run(FRESH, es), e, k, i);
  }

  lemma StepStamps(s: Server, e: Event, k: Key, i: nat)
    requires KeyOk(s, k) && Enabled(s, e)
    ensures StampedBy(s, Step(s, e), k, i)
  {
    if !e.Sending? && e.k != k {
      OtherKey(s, e, k);
    } else {
      match e
      case Sending(data, client) => SendStamps(s, data, client, k, i);
      case Accepted(_, code) => AcceptStamps(s, k, code, i);
      case Read(_, n, chunk) => ReadStamps(s, k, n, chunk, i);
      case ReadError(_, n, code) =>
        var (end, up) := Sockets.ReadFailed(EndAt(s, k, n), code);
        RaisedStamps(s, k, n, end, up, i);
      case Written(_, n, m, code) =>
        var (end, up) := Sockets.WriteDone(EndAt(s, k, n), m, code);
        RaisedStamps(s, k, n, end, up, i);
    }
  }

  lemma SendStamps(s: Server, data: Message, client: Key, k: Key, i: nat)
    ensures StampedBy(s, Send(s, data, client), k, i)
  {
  }

  lemma AcceptStamps(s: Server, k: Key, code: Completion, i: nat)
    requires s.acceptor.pending > 0
    requires Occupant(s, k).Some? ==> Occupant(s, k).value < |ConnsOf(s, k)|
    ensures StampedBy(s, AcceptDone(s, k, code), k, i)
  {
  }

  lemma ReadStamps(s: Server, k: Key, n: nat, chunk: bytes, i: nat)
    requires IsConn(s, k, n) && EndAt(s, k, n).tx.reading > 0
    ensures StampedBy(s, ReadDone(s, k, n, chunk), k, i)
  {
  }

  lemma RaisedStamps(s: Server, k: Key, n: nat, e: End, up: bool, i: nat)
    requires IsConn(s, k, n) && e.past == EndAt(s, k, n).past
    requires Occupant(s, k).Some? ==> Occupant(s, k).value < |ConnsOf(s, k)|
    ensures StampedBy(s, Raised(s, k, n, e, up), k, i)
  {
  }

  /**
   What the connections of an address were given, one after the other, is a subsequence of the
   messages relevant to it.
   */
  lemma {:induction false} SentIsSubsequence(k: Key, conns: seq<Conn>, occupant: Option<nat>, log: seq<Call>,
                                             n: nat, u: nat)
    requires ConnsOk(k, conns, occupant, log, 0) && n <= |conns| && u <= |log|
    requires n > 0 ==> UntilOf(conns[n - 1], |log|) <= u
    ensures Subsequence(Concat(SentBy(conns[..n])), RelevantTo(log[..u], k))
    decreases n
  {
    if n == 0 {
      assert SentBy(conns[..n]) == [];
      PrefixIsSubsequence([], RelevantTo(log[..u], k));
    } else {
      assert PlaceOk(k, conns, occupant, log, 0, n - 1);
      SentIsSubsequence(k, conns, occupant, log, n - 1, conns[n - 1].end.past.born);
      assert SentBy(conns[..n])[..n - 1] == SentBy(conns[..n - 1]);
      SentDuring(k, Concat(SentBy(conns[..n - 1])), conns[n - 1].end.past.sent, log,
                 conns[n - 1].end.past.born, UntilOf(conns[n - 1], |log|), u);
    }
  }

  lemma RelevantSplit(k: Key, log: seq<Call>, b: nat, v: nat)
    requires b <= v <= |log|
    ensures RelevantTo(log[..v], k) == RelevantTo(log[..b], k) + RelevantTo(log[b..v], k)
  {
    RelevantAppend(log[..b], log[b..v], k);
    assert log[..b] + log[b..v] == log[..v];
  }

  lemma SentDuring(k: Key, earlier: seq<Message>, sent: seq<Message>, log: seq<Call>, b: nat, v: nat, u: nat)
    requires b <= v <= u <= |log|
    requires Subsequence(earlier, RelevantTo(log[..b], k)) && sent == RelevantTo(log[b..v], k)
    ensures Subsequence(earlier + sent, RelevantTo(log[..u], k))
  {
    RelevantSplit(k, log, b, v);
    RelevantSplit(k, log, v, u);
    PrefixIsSubsequence(sent, sent);
    SubsequenceConcat(earlier, RelevantTo(log[..b], k), sent, sent);
    SubsequenceSkip(earlier + sent, RelevantTo(log[..v], k), RelevantTo(log[v..u], k));
  }

  // ----- what a step does to one connection -----

  function At(s: Server, k: Key, i: nat): Option<End> {
    if i < |ConnsOf(s, k)| then Some(ConnsOf(s, k)[i].end) else None
  }

  /** The bytes that an event lets connection `i` of `k` consume. */
  function ChunkFor(e: Event, k: Key, i: nat): bytes {
    if e.Read? && e.k == k && e.i == i then e.chunk else []
  }

  lemma SetEndAt(s: Server, k: Key, i: nat, e: End, l: Key, j: nat)
    requires IsConn(s, k, i) && IsConn(s, l, j)
    ensures IsConn(SetEnd(s, k, i, e), l, j)
    ensures EndAt(SetEnd(s, k, i, e), l, j) == if l == k && j == i then e else EndAt(s, l, j)
  {
  }

  /** Dropping a key closes its occupant and touches no other connection. */
  lemma OnDisconnectedAt(s: Server, k: Key, l: Key, j: nat)
    requires IsConn(s, l, j)
    ensures IsConn(OnDisconnected(s, k), l, j)
    ensures EndAt(OnDisconnected(s, k), l, j) ==
              if l == k && Occupant(s, k) == Some(j) then Closed(EndAt(s, l, j)) else EndAt(s, l, j)
  {
  }

  lemma OnAcceptAt(s: Server, k: Key, l: Key, j: nat)
    requires IsConn(s, l, j)
    ensures IsConn(OnAccept(s, k), k, |ConnsOf(s, k)|) && EndAt(OnAccept(s, k), k, |ConnsOf(s, k)|) == FreshEnd(|s.log|)
    ensures IsConn(OnAccept(s, k), l, j)
    ensures EndAt(OnAccept(s, k), l, j) ==
              if l == k && Occupant(s, k) == Some(j) then Closed(EndAt(s, l, j)) else EndAt(s, l, j)
  {
  }

  lemma EndInvAt(s: Server, k: Key, i: nat)
    requires Inv(s) && IsConn(s, k, i)
    ensures EndInv(EndAt(s, k, i))
  {
    assert KeyOk(s, k) && PlaceOk(k, ConnsOf(s, k), Occupant(s, k), s.log, 0, i);
  }

  /** `send` reaches exactly the occupants that are addressed. */
  lemma SendAt(s: Server, data: Message, client: Key, k: Key, i: nat)
    requires IsConn(s, k, i)
    ensures IsConn(Send(s, data, client), k, i)
    ensures EndAt(Send(s, data, client), k, i) ==
              if Addressed(client, k) && Occupant(s, k) == Some(i) then SendMessage(EndAt(s, k, i), data)
              else EndAt(s, k, i)
  {
  }

  lemma EvictedEvolves(conns: seq<Conn>, occupant: Option<nat>, now: nat, i: nat)
    requires i < |conns|
    ensures |Evicted(conns, occupant, now)| == |conns|
    ensures Evolves(Some(conns[i].end), Some(Evicted(conns, occupant, now)[i].end), [])
  {
  }

  lemma SendEvolves(s: Server, data: Message, client: Key, k: Key, i: nat)
    requires KeyOk(s, k)
    ensures |ConnsOf(Send(s, data, client), k)| == |ConnsOf(s, k)|
    ensures Evolves(At(s, k, i), At(Send(s, data, client), k, i), [])
  {
    if i < |ConnsOf(s, k)| {
      assert PlaceOk(k, ConnsOf(s, k), Occupant(s, k), s.log, 0, i);
      SendMessageKeeps(ConnsOf(s, k)[i].end, data);
      SendAt(s, data, client, k, i);
    }
  }

  lemma OnAcceptEvolves(s: Server, k: Key, i: nat)
    ensures |ConnsOf(OnAccept(s, k), k)| == |ConnsOf(s, k)| + 1
    ensures Evolves(At(s, k, i), At(OnAccept(s, k), k, i), [])
  {
    if i < |ConnsOf(s, k)| {
      EvictedEvolves(ConnsOf(s, k), Occupant(s, k), |s.log|, i);
    }
  }

  lemma NewcomerIsFresh(s: Server, k: Key)
    requires s.acceptor.pending > 0 && !s.acceptor.handle.cancelled
    ensures var conns := ConnsOf(Step(s, Accepted(k, None)), k);
            |conns| == |ConnsOf(s, k)| + 1 && conns[|ConnsOf(s, k)|].end == FreshEnd(|s.log|)
  {
  }

  lemma RaisedEvolves(s: Server, k: Key, n: nat, e: End, up: bool, i: nat)
    requires IsConn(s, k, n) && Evolves(Some(EndAt(s, k, n)), Some(e), [])
    ensures |ConnsOf(Raised(s, k, n, e, up), k)| == |ConnsOf(s, k)|
    ensures Evolves(At(s, k, i), At(Raised(s, k, n, e, up), k, i), [])
  {
    var s' := SetEnd(s, k, n, e);
    if i < |ConnsOf(s, k)| && up {
      EvictedEvolves(ConnsOf(s', k), Occupant(s', k), |s.log|, i);
      EvolvesThenQuietly(At(s, k, i), At(s', k, i), At(Raised(s, k, n, e, up), k, i), []);
    }
  }

  lemma ReadDoneEvolves(s: Server, k: Key, n: nat, chunk: bytes, i: nat)
    requires KeyOk(s, k) && Enabled(s, Read(k, n, chunk))
    ensures |ConnsOf(ReadDone(s, k, n, chunk), k)| == |ConnsOf(s, k)|
    ensures Evolves(At(s, k, i), At(ReadDone(s, k, n, chunk), k, i), if i == n then chunk else [])
  {
    if i == n {
      assert PlaceOk(k, ConnsOf(s, k), Occupant(s, k), s.log, 0, i);
      ReceiveKeeps(EndAt(s, k, n), chunk);
    }
  }

  lemma ReadFailedEvolves(s: Server, k: Key, n: nat, code: ErrorCode, i: nat)
    requires KeyOk(s, k) && Enabled(s, ReadError(k, n, code))
    ensures |ConnsOf(ReadFailed(s, k, n, code), k)| == |ConnsOf(s, k)|
    ensures Evolves(At(s, k, i), At(ReadFailed(s, k, n, code), k, i), [])
  {
    assert PlaceOk(k, ConnsOf(s, k), Occupant(s, k), s.log, 0, n);
    ReadFailedKeeps(EndAt(s, k, n), code);
    var (e, up) := Sockets.ReadFailed(EndAt(s, k, n), code);
    RaisedEvolves(s, k, n, e, up, i);
  }

  lemma WriteDoneEvolves(s: Server, k: Key, n: nat, m: nat, code: Completion, i: nat)
    requires KeyOk(s, k) && Enabled(s, Written(k, n, m, code))
    ensures |ConnsOf(WriteDone(s, k, n, m, code), k)| == |ConnsOf(s, k)|
    ensures Evolves(At(s, k, i), At(WriteDone(s, k, n, m, code), k, i), [])
  {
    assert PlaceOk(k, ConnsOf(s, k), Occupant(s, k), s.log, 0, n);
    WriteDoneKeeps(EndAt(s, k, n), m, code);
    var (e, up) := Sockets.WriteDone(EndAt(s, k, n), m, code);
    RaisedEvolves(s, k, n, e, up, i);
  }

  /** Whether an event adds a connection to `k`. */
  predicate Accepts(s: Server, e: Event, k: Key) {
    e.Accepted? && e.k == k && e.acceptCode.None? && !s.acceptor.handle.cancelled
  }

  lemma StepEvolves(s: Server, e: Event, k: Key, i: nat)
    requires KeyOk(s, k) && Enabled(s, e)
    ensures |ConnsOf(Step(s, e), k)| == |ConnsOf(s, k)| + if Accepts(s, e, k) then 1 else 0
    ensures Evolves(At(s, k, i), At(Step(s, e), k, i), ChunkFor(e, k, i))
  {
    if !e.Sending? && e.k != k {
      OtherKey(s, e, k);
    } else {
      match e
      case Sending(data, client) => SendEvolves(s, data, client, k, i);
      case Accepted(_, code) =>
        var acceptor := AfterAccept(s.acceptor, code).0;
        OnAcceptEvolves(s.(acceptor := acceptor), k, i);
      case Read(_, n, chunk) => ReadDoneEvolves(s, k, n, chunk, i);
      case ReadError(_, n, code) => ReadFailedEvolves(s, k, n, code, i);
      case Written(_, n, m, code) => WriteDoneEvolves(s, k, n, m, code, i);
    }
  }

  /** What was handed on stays handed on. */
  lemma StepOut(s: Server, e: Event)
    requires Enabled(s, e)
    ensures s.out <= Step(s, e).out
  {
  }

  /** Only `send` adds to the log. */
  lemma StepLog(s: Server, e: Event)
    requires Enabled(s, e)
    ensures Step(s, e).log == if e.Sending? then s.log + [Call(e.data, e.client)] else s.log
  {
  }
}
