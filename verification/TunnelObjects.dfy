/** The objects in a run of the tunnel: each takes the events that are its own, and ends as the model says. */
module TunnelObjects {
  import opened Options
  import opened Encapsulation
  import opened Tunnel
  import EndToEnd
  import TcpClient
  import TcpServer
  import C = ClientSpec
  import S = ServerSpec

  // ----- a client -----

  /** What an event of the tunnel is for client `k`. */
  function AtClient(e: Event, k: Key): seq<C.Event> {
    match e
    case ClientDatagram(l, d) => if l == k && d.Receivable() then [C.Sending(Unite(d))] else []
    case ClientDoes(l, ce) => if l == k then [ce] else []
    case _ => []
  }

  function ClientEvents(es: seq<Event>, k: Key): seq<C.Event> {
    if es == [] then [] else AtClient(es[0], k) + ClientEvents(es[1..], k)
  }

  lemma ClientStep(w: World, e: Event, k: Key)
    requires Enabled(w, e) && k in w.clients
    ensures k in Step(w, e).clients && |AtClient(e, k)| <= 1
    ensures AtClient(e, k) == [] ==> Step(w, e).clients[k] == w.clients[k]
    ensures AtClient(e, k) != [] ==>
              && C.Enabled(w.clients[k], AtClient(e, k)[0])
              && Step(w, e).clients[k] == C.Step(w.clients[k], AtClient(e, k)[0])
  {
  }

  lemma ClientRunCons(c: C.Client, x: C.Event, part: seq<C.Event>)
    requires C.Enabled(c, x) && TcpClient.SafeEvent(c, x)
    requires C.IsRun(C.Step(c, x), part) && TcpClient.SafeRun(C.Step(c, x), part)
    ensures C.IsRun(c, [x] + part) && TcpClient.SafeRun(c, [x] + part)
    ensures C.Run(c, [x] + part) == C.Run(C.Step(c, x), part)
  {
    assert ([x] + part)[1..] == part;
  }

  /** One event: the client takes the step that is its own, if any, and what it reads is safe. */
  lemma ClientMoves(keys: set<Key>, done: seq<Event>, e: Event, k: Key)
    returns (c: C.Client, own: seq<C.Event>, c': C.Client)
    requires k in keys && IsRun(Initial(keys), done) && Enabled(Run(Initial(keys), done), e)
    ensures IsRun(Initial(keys), done + [e])
    ensures Run(Initial(keys), done + [e]) == Step(Run(Initial(keys), done), e)
    ensures k in Run(Initial(keys), done).clients && c == Run(Initial(keys), done).clients[k]
    ensures k in Run(Initial(keys), done + [e]).clients && c' == Run(Initial(keys), done + [e]).clients[k]
    ensures own == AtClient(e, k) && |own| <= 1
    ensures own == [] ==> c' == c
    ensures own != [] ==> C.Enabled(c, own[0]) && TcpClient.SafeEvent(c, own[0]) && c' == C.Step(c, own[0])
  {
    var w := Run(Initial(keys), done);
    EndToEnd.Reached(keys, done, k);
    ClientStep(w, e, k);
    EndToEnd.RunSnoc(Initial(keys), done, e);
    c, own, c' := w.clients[k], AtClient(e, k), Step(w, e).clients[k];
    if own != [] {
      ClientEventSafe(keys, done, e, k);
    }
  }

  /** What the client reads next is safe to read. */
  lemma ClientEventSafe(keys: set<Key>, done: seq<Event>, e: Event, k: Key)
    requires k in keys && IsRun(Initial(keys), done) && Enabled(Run(Initial(keys), done), e)
    requires k in Run(Initial(keys), done).clients && AtClient(e, k) != []
    requires C.Enabled(Run(Initial(keys), done).clients[k], AtClient(e, k)[0])
    ensures TcpClient.SafeEvent(Run(Initial(keys), done).clients[k], AtClient(e, k)[0])
  {
    var own := AtClient(e, k)[0];
    if own.Read? {
      EndToEnd.ClientReadsSafely(keys, done, k, own.j, own.chunk);
    }
  }

  /** The client's part of a run, when that of the rest is known. */
  lemma ClientPartCons(c: C.Client, c1: C.Client, own: seq<C.Event>, part: seq<C.Event>)
    requires |own| <= 1 && C.IsRun(c1, part) && TcpClient.SafeRun(c1, part)
    requires own == [] ==> c1 == c
    requires own != [] ==> C.Enabled(c, own[0]) && TcpClient.SafeEvent(c, own[0]) && c1 == C.Step(c, own[0])
    ensures C.IsRun(c, own + part) && TcpClient.SafeRun(c, own + part) && C.Run(c, own + part) == C.Run(c1, part)
  {
    if own == [] {
      assert own + part == part;
    } else {
      assert own == [own[0]];
      ClientRunCons(c, own[0], part);
    }
  }

  /** The events of a client in the rest of a run are a run of the client, and all its reads are safe. */
  lemma {:induction false} ClientPart(keys: set<Key>, done: seq<Event>, rest: seq<Event>, k: Key)
    requires k in keys && IsRun(Initial(keys), done) && IsRun(Run(Initial(keys), done), rest)
    ensures var w := Run(Initial(keys), done); var part := ClientEvents(rest, k);
            && k in w.clients && k in Run(w, rest).clients
            && C.IsRun(w.clients[k], part) && TcpClient.SafeRun(w.clients[k], part)
            && C.Run(w.clients[k], part) == Run(w, rest).clients[k]
    decreases |rest|
  {
    if rest == [] {
      EndToEnd.Reached(keys, done, k);
    } else {
      var c, own, c' := ClientMoves(keys, done, rest[0], k);
      ClientPart(keys, done + [rest[0]], rest[1..], k);
      ClientPartCons(c, c', own, ClientEvents(rest[1..], k));
    }
  }

  /** The object of any client in any run of the tunnel: it ends in the state that the theorems speak of. */
  method RunClientOf(keys: set<Key>, es: seq<Event>, k: Key) returns (client: TcpClient.TcpClient)
    requires IsRun(Initial(keys), es) && k in keys
    ensures fresh(client.Footprint()) && client.Valid()
    ensures k in Run(Initial(keys), es).clients && client.state == Run(Initial(keys), es).clients[k]
  {
    ClientPart(keys, [], es, k);
    client := TcpClient.RunClient(ClientEvents(es, k));
  }

  // ----- the server -----

  /** What an event of the tunnel is for the server. */
  function AtServer(e: Event): seq<S.Event> {
    match e
    case ServerDatagram(d, client) => if d.Receivable() then [S.Sending(Unite(d), client)] else []
    case Accept(k, _) => [S.Accepted(k, None)]
    case ServerDoes(se) => [se]
    case _ => []
  }

  function ServerEvents(es: seq<Event>): seq<S.Event> {
    if es == [] then [] else AtServer(es[0]) + ServerEvents(es[1..])
  }

  lemma ServerStep(w: World, e: Event)
    requires Enabled(w, e)
    ensures |AtServer(e)| <= 1
    ensures AtServer(e) == [] ==> Step(w, e).server == w.server
    ensures AtServer(e) != [] ==>
              S.Enabled(w.server, AtServer(e)[0]) && Step(w, e).server == S.Step(w.server, AtServer(e)[0])
  {
  }

  lemma ServerRunCons(s: S.Server, x: S.Event, part: seq<S.Event>)
    requires S.Enabled(s, x) && TcpServer.SafeEvent(s, x)
    requires S.IsRun(S.Step(s, x), part) && TcpServer.SafeRun(S.Step(s, x), part)
    ensures S.IsRun(s, [x] + part) && TcpServer.SafeRun(s, [x] + part)
    ensures S.Run(s, [x] + part) == S.Run(S.Step(s, x), part)
  {
    assert ([x] + part)[1..] == part;
  }

  /** What the server reads next is safe to read. */
  lemma ServerEventSafe(keys: set<Key>, done: seq<Event>, e: Event)
    requires IsRun(Initial(keys), done) && Enabled(Run(Initial(keys), done), e)
    requires AtServer(e) != [] && S.Enabled(Run(Initial(keys), done).server, AtServer(e)[0])
    ensures TcpServer.SafeEvent(Run(Initial(keys), done).server, AtServer(e)[0])
  {
    var own := AtServer(e)[0];
    if own.Read? {
      InitialOk(keys);
      RunKeeps(Initial(keys), done);
      EndToEnd.ServerReadsSafely(keys, done, own.k, own.i, own.chunk);
    }
  }

  /** The server's part of a run, when that of the rest is known. */
  lemma ServerPartCons(s: S.Server, s1: S.Server, own: seq<S.Event>, part: seq<S.Event>)
    requires |own| <= 1 && S.IsRun(s1, part) && TcpServer.SafeRun(s1, part)
    requires own == [] ==> s1 == s
    requires own != [] ==> S.Enabled(s, own[0]) && TcpServer.SafeEvent(s, own[0]) && s1 == S.Step(s, own[0])
    ensures S.IsRun(s, own + part) && TcpServer.SafeRun(s, own + part) && S.Run(s, own + part) == S.Run(s1, part)
  {
    if own == [] {
      assert own + part == part;
    } else {
      assert own == [own[0]];
      ServerRunCons(s, own[0], part);
    }
  }

  /** One event: the server takes the step that is its own, if any, and what it reads is safe. */
  lemma ServerMoves(keys: set<Key>, done: seq<Event>, e: Event)
    returns (s: S.Server, own: seq<S.Event>, s': S.Server)
    requires IsRun(Initial(keys), done) && Enabled(Run(Initial(keys), done), e)
    ensures IsRun(Initial(keys), done + [e])
    ensures Run(Initial(keys), done + [e]) == Step(Run(Initial(keys), done), e)
    ensures s == Run(Initial(keys), done).server && s' == Run(Initial(keys), done + [e]).server
    ensures own == AtServer(e) && |own| <= 1
    ensures own == [] ==> s' == s
    ensures own != [] ==> S.Enabled(s, own[0]) && TcpServer.SafeEvent(s, own[0]) && s' == S.Step(s, own[0])
  {
    var w := Run(Initial(keys), done);
    ServerStep(w, e);
    EndToEnd.RunSnoc(Initial(keys), done, e);
    s, own, s' := w.server, AtServer(e), Step(w, e).server;
    if own != [] {
      ServerEventSafe(keys, done, e);
    }
  }

  /** The events of the server in the rest of a run are a run of the server, and all its reads are safe. */
  lemma {:induction false} ServerPart(keys: set<Key>, done: seq<Event>, rest: seq<Event>)
    requires IsRun(Initial(keys), done) && IsRun(Run(Initial(keys), done), rest)
    ensures var w := Run(Initial(keys), done); var part := ServerEvents(rest);
            && S.IsRun(w.server, part) && TcpServer.SafeRun(w.server, part)
            && S.Run(w.server, part) == Run(w, rest).server
    decreases |rest|
  {
    if rest != [] {
      var s, own, s' := ServerMoves(keys, done, rest[0]);
      ServerPart(keys, done + [rest[0]], rest[1..]);
      ServerPartCons(s, s', own, ServerEvents(rest[1..]));
    }
  }

  /** The object of the server in any run of the tunnel. */
  method RunServerOf(keys: set<Key>, es: seq<Event>) returns (server: TcpServer.TcpServer)
    requires IsRun(Initial(keys), es)
    ensures fresh(server.Footprint()) && server.Valid()
    ensures server.state == Run(Initial(keys), es).server
  {
    ServerPart(keys, [], es);
    server := TcpServer.RunServer(ServerEvents(es));
  }
}
