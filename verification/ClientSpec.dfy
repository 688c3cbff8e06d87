/** The reconnecting client as a state machine (tunnel_tcp_service.cpp, lines 6-51). */
module ClientSpec {
  import opened Options
  import opened Errors
  import opened AutoCancel
  import opened Wire
  import opened Sequences
  import opened Framing
  import opened Connecting
  import opened Sockets
  import Timers = AsyncTimer

  /**
   One connector ever created: its handle, how its connect completed, and the socket made from it,
   if any, with the number of calls of `send` there had been when `sock_` lost it.
   */
  datatype Attempt = Attempt(handle: Handle, outcome: Option<Verdict>, sock: Option<End>, until: Option<nat>) {
    /** The connect is outstanding and its completion will be looked at. */
    predicate Live() {
      outcome.None? && !handle.cancelled
    }
  }

  /**
   `connector` and `sock` say which attempt `connector_` and `sock_` hold. `calls` lists the
   messages passed to `send`, `out` those handed to `udp_sender_`.
   */
  datatype Client = Client(
    attempts: seq<Attempt>,
    connector: Option<nat>,
    sock: Option<nat>,
    timer: Timers.Timer,
    calls: seq<Message>,
    out: seq<Message>)

  const NEW_ATTEMPT := Attempt(FRESH_HANDLE, None, None, None)

  function At(c: Client, j: nat): Option<End> {
    if j < |c.attempts| then c.attempts[j].sock else None
  }

  function SetEnd(c: Client, j: nat, e: End): Client
    requires j < |c.attempts|
  {
    c.(attempts := c.attempts[j := c.attempts[j].(sock := Some(e))])
  }

  function SetHandle(c: Client, j: nat, h: Handle): Client
    requires j < |c.attempts|
  {
    c.(attempts := c.attempts[j := c.attempts[j].(handle := h)])
  }

  /** The socket of attempt `j` is given nothing from now on. */
  function Ended(c: Client, j: nat): Client
    requires j < |c.attempts|
  {
    c.(attempts := c.attempts[j := c.attempts[j].(until := Some(|c.calls|))])
  }

  /** `sock_.reset()` */
  function DropSock(c: Client): Client {
    if c.sock.Some? && At(c, c.sock.value).Some? then
      Ended(SetEnd(c, c.sock.value, Closed(At(c, c.sock.value).value)), c.sock.value).(sock := None)
    else
      c.(sock := None)
  }

  function StartConnect(c: Client): Client {
    var r := if c.connector.Some? && c.connector.value < |c.attempts|
             then SetHandle(c, c.connector.value, c.attempts[c.connector.value].handle.Cancelled())
             else c;
    r.(attempts := r.attempts + [NEW_ATTEMPT], connector := Some(|r.attempts|))
  }

  /** The constructor: the first connect is started at once. */
  const FRESH := StartConnect(Client([], None, None, Timers.NEVER_SET, [], []))

  function Send(c: Client, m: Message): Client {
    var c' := c.(calls := c.calls + [m]);
    if c.sock.Some? && At(c, c.sock.value).Some?
    then SetEnd(c', c.sock.value, SendMessage(At(c, c.sock.value).value, m))
    else c'
  }

  function OnDisconnected(c: Client): Client {
    var d := DropSock(c);
    d.(timer := Timers.Rearmed(d.timer))
  }

  /** The connect of attempt `j` completes. */
  function ConnectDone(c: Client, j: nat, code: Completion): Client
    requires j < |c.attempts|
  {
    var a := c.attempts[j];
    var verdict := JudgeConnect(a.handle.cancelled, code);
    Followed(c.(attempts := c.attempts[j := a.(outcome := Some(verdict))]), j, verdict)
  }

  /** The verdict on the connect of attempt `j` is followed. */
  function Followed(c: Client, j: nat, verdict: Verdict): Client
    requires j < |c.attempts|
  {
    match verdict
    case Ignored => c
    case Reported => c
    case Refused => OnDisconnected(c)
    case Established => OnConnected(c, j)
  }

  /** The socket of attempt `j` replaces the one in `sock_`. */
  function OnConnected(c: Client, j: nat): Client
    requires j < |c.attempts|
  {
    Engage(DropSock(c), j, FreshEnd(|c.calls|))
  }

  /** The socket `e` is made from attempt `j`. */
  function Begun(c: Client, j: nat, e: End): Client
    requires j < |c.attempts|
  {
    c.(attempts := c.attempts[j := c.attempts[j].(sock := Some(e), until := None)])
  }

  /** `sock_` is made from attempt `j`, whose connector then lets go of the moved socket. */
  function Engage(c: Client, j: nat, e: End): Client
    requires j < |c.attempts|
  {
    SetHandle(Begun(c, j, e), j, c.attempts[j].handle.Detached()).(sock := Some(j))
  }

  /** The `i`-th wait of the reconnect timer completes. */
  function TimerDone(c: Client, i: nat, code: Completion): Client
    requires i < |c.timer.shots|
  {
    var c' := c.(timer := Timers.Done(c.timer, i, code));
    if Timers.Fires(c.timer, i, code) then StartConnect(c') else c'
  }

  function ReadDone(c: Client, j: nat, chunk: bytes): Client
    requires At(c, j).Some? && At(c, j).value.tx.reading > 0
  {
    var e := At(c, j).value;
    var e' := Receive(e, chunk);
    SetEnd(c, j, e').(out := c.out + NewlyDelivered(e, e'))
  }

  /** The socket of attempt `j` comes out of a handler, which may have raised `on_disconnected`. */
  function Raised(c: Client, j: nat, e: End, up: bool): Client
    requires j < |c.attempts|
  {
    if up then OnDisconnected(SetEnd(c, j, e)) else SetEnd(c, j, e)
  }

  function ReadFailed(c: Client, j: nat, code: ErrorCode): Client
    requires At(c, j).Some? && At(c, j).value.tx.reading > 0
  {
    var (e, up) := Sockets.ReadFailed(At(c, j).value, code);
    Raised(c, j, e, up)
  }

  function WriteDone(c: Client, j: nat, n: nat, code: Completion): Client
    requires At(c, j).Some? && n < |At(c, j).value.tx.writing|
  {
    var (e, up) := Sockets.WriteDone(At(c, j).value, n, code);
    Raised(c, j, e, up)
  }

  // ----- steps -----

  datatype Event =
    | Sending(m: Message)
    | Connected(j: nat, connectCode: Completion)
    | TimerRan(i: nat, timerCode: Completion)
    | Read(j: nat, chunk: bytes)
    | ReadError(j: nat, error: ErrorCode)
    | Written(j: nat, n: nat, writeCode: Completion)

  /**
   The environment completes only what is outstanding, and aborts a wait only when it was
   cancelled. A read yields at least one byte and at most the 256 KiB buffer.
   */
  predicate Enabled(c: Client, e: Event) {
    match e
    case Sending(_) => true
    case Connected(j, _) => j < |c.attempts| && c.attempts[j].outcome.None?
    case TimerRan(i, code) =>
      i < |c.timer.shots| && c.timer.shots[i].pending && (code.Some? ==> c.timer.shots[i].handle.cancelled)
    case Read(j, chunk) => At(c, j).Some? && At(c, j).value.tx.reading > 0 && 0 < |chunk| <= 256 * 1024
    case ReadError(j, _) => At(c, j).Some? && At(c, j).value.tx.reading > 0
    case Written(j, n, _) => At(c, j).Some? && n < |At(c, j).value.tx.writing|
  }

  function Step(c: Client, e: Event): Client
    requires Enabled(c, e)
  {
    match e
    case Sending(m) => Send(c, m)
    case Connected(j, code) => ConnectDone(c, j, code)
    case TimerRan(i, code) => TimerDone(c, i, code)
    case Read(j, chunk) => ReadDone(c, j, chunk)
    case ReadError(j, code) => ReadFailed(c, j, code)
    case Written(j, n, code) => WriteDone(c, j, n, code)
  }

  // ----- control -----

  /** The four modes in which a client can be between two handlers. */
  predicate IsConnecting(c: Client) {
    c.connector.Some? && c.connector.value < |c.attempts| && c.attempts[c.connector.value].Live()
  }

  predicate IsEngaged(c: Client) {
    c.sock.Some?
  }

  predicate IsWaiting(c: Client) {
    c.timer.current.Some? && Timers.Armed(c.timer, c.timer.current.value)
  }

  /** The last connect failed with an error that `async_connector` only reports. */
  predicate IsStopped(c: Client) {
    c.connector.Some? && c.connector.value < |c.attempts| && c.attempts[c.connector.value].outcome == Some(Reported)
  }

  predicate ExactlyOne(a: bool, b: bool, c: bool, d: bool) {
    (if a then 1 else 0) + (if b then 1 else 0) + (if c then 1 else 0) + (if d then 1 else 0) == 1
  }

  /**
   What an attempt satisfies, depending on whether it is the last one and the engaged one: all
   but the last are cancelled; a connector whose socket was moved away has let go of it and never
   cancelled it, any other has cancelled its socket once if it was dropped; the transports that are
   not cancelled are those of engaged sockets; and a socket raises `on_disconnected` at most `most`
   times.
   */
  predicate AttemptOk(a: Attempt, last: bool, engaged: bool, most: nat) {
    && (a.handle.cancelled <==> !last)
    && (a.sock.Some? <==> a.outcome == Some(Established))
    && (a.sock.Some? ==> !a.handle.attached && a.handle.resourceCancels == 0)
    && (a.sock.None? ==> a.handle.attached && a.handle.resourceCancels == if last then 0 else 1)
    && (a.sock.Some? ==> a.sock.value.tx.handle == Handle(!engaged, true, if engaged then 0 else 1))
    && (a.sock.Some? ==> a.sock.value.disconnects <= most)
    && (engaged ==> last && a.sock.Some?)
  }

  predicate PlaceOk(c: Client, most: nat, j: nat)
    requires j < |c.attempts|
  {
    AttemptOk(c.attempts[j], j == |c.attempts| - 1, c.sock == Some(j), if c.sock == Some(j) then most else 1)
  }

  /** `most` bounds the disconnects raised by the engaged socket. */
  predicate Shape(c: Client, most: nat) {
    && |c.attempts| > 0 && c.connector == Some(|c.attempts| - 1)
    && (c.sock.Some? ==> c.sock.value < |c.attempts|)
    && (forall j {:trigger c.attempts[j]} {:trigger PlaceOk(c, most, j)} ::
          0 <= j < |c.attempts| ==> PlaceOk(c, most, j))
    && Timers.Inv(c.timer)
  }

  predicate ControlInv(c: Client) {
    Shape(c, 0) && ExactlyOne(IsConnecting(c), IsEngaged(c), IsWaiting(c), IsStopped(c))
  }

  lemma FreshControl()
    ensures ControlInv(FRESH)
  {
  }

  /** An event at a socket that raises nothing. */
  lemma SetEndControl(c: Client, j: nat, e: End)
    requires ControlInv(c) && At(c, j).Some?
    requires e.tx.handle == At(c, j).value.tx.handle && e.disconnects == At(c, j).value.disconnects
    ensures ControlInv(SetEnd(c, j, e))
  {
    assert PlaceOk(c, 0, j);
  }

  /** `on_disconnected` when nothing else is under way. */
  lemma OnDisconnectedControl(c: Client)
    requires Shape(c, 1) && !IsConnecting(c) && !IsWaiting(c) && !IsStopped(c)
    ensures ControlInv(OnDisconnected(c))
    ensures IsWaiting(OnDisconnected(c))
  {
    Timers.WaitKeeps(c.timer);
    var d := OnDisconnected(c);
    assert Timers.Armed(d.timer, |c.timer.shots|);
    forall j | 0 <= j < |c.attempts|
      ensures PlaceOk(d, 0, j)
    {
      assert PlaceOk(c, 1, j);
    }
  }

  /**
   An event at a socket that may raise `on_disconnected`: only the engaged socket can, and only
   for the first time; the client then waits for the reconnect timer.
   */
  lemma RaisedControl(c: Client, j: nat, e: End, up: bool)
    requires ControlInv(c) && At(c, j).Some?
    requires e.tx.handle == At(c, j).value.tx.handle && (up ==> !e.tx.handle.cancelled)
    requires e.disconnects == At(c, j).value.disconnects + if up then 1 else 0
    ensures up ==> c.sock == Some(j) && IsWaiting(Raised(c, j, e, up))
    ensures ControlInv(Raised(c, j, e, up))
  {
    if up {
      assert PlaceOk(c, 0, j);
      OnDisconnectedControl(SetEnd(c, j, e));
    } else {
      SetEndControl(c, j, e);
    }
  }

  lemma ConnectDoneControl(c: Client, j: nat, code: Completion)
    requires ControlInv(c) && j < |c.attempts| && c.attempts[j].outcome.None?
    ensures ControlInv(ConnectDone(c, j, code))
  {
    var a := c.attempts[j];
    assert PlaceOk(c, 0, j);
    var verdict := JudgeConnect(a.handle.cancelled, code);
    if verdict == Established {
      assert j == |c.attempts| - 1 && IsConnecting(c) && !IsEngaged(c);
    }
    if verdict == Refused {
      OnDisconnectedControl(c.(attempts := c.attempts[j := a.(outcome := Some(verdict))]));
    }
  }

  lemma StartConnectControl(c: Client)
    requires Shape(c, 0) && !IsConnecting(c) && !IsEngaged(c) && !IsWaiting(c) && !IsStopped(c)
    ensures ControlInv(StartConnect(c)) && IsConnecting(StartConnect(c))
  {
    var last := |c.attempts| - 1;
    assert PlaceOk(c, 0, last);
  }

  lemma TimerDoneControl(c: Client, i: nat, code: Completion)
    requires ControlInv(c) && Enabled(c, TimerRan(i, code))
    ensures ControlInv(TimerDone(c, i, code))
  {
    Timers.DoneKeeps(c.timer, i, code);
    var c' := c.(timer := Timers.Done(c.timer, i, code));
    if Timers.Fires(c.timer, i, code) {
      assert Timers.Armed(c.timer, i);
      StartConnectControl(c');
    }
  }

  lemma SendControl(c: Client, m: Message)
    requires ControlInv(c)
    ensures ControlInv(Send(c, m))
  {
    if c.sock.Some? && At(c, c.sock.value).Some? {
      SetEndControl(c.(calls := c.calls + [m]), c.sock.value, SendMessage(At(c, c.sock.value).value, m));
    }
  }

  lemma ReadDoneControl(c: Client, j: nat, chunk: bytes)
    requires ControlInv(c) && Enabled(c, Read(j, chunk))
    ensures ControlInv(ReadDone(c, j, chunk))
  {
    SetEndControl(c, j, Receive(At(c, j).value, chunk));
  }

  lemma ReadFailedControl(c: Client, j: nat, code: ErrorCode)
    requires ControlInv(c) && Enabled(c, ReadError(j, code))
    ensures ControlInv(ReadFailed(c, j, code))
  {
    var (e, up) := Sockets.ReadFailed(At(c, j).value, code);
    RaisedControl(c, j, e, up);
  }

  lemma WriteDoneControl(c: Client, j: nat, n: nat, code: Completion)
    requires ControlInv(c) && Enabled(c, Written(j, n, code))
    ensures ControlInv(WriteDone(c, j, n, code))
  {
    var (e, up) := Sockets.WriteDone(At(c, j).value, n, code);
    RaisedControl(c, j, e, up);
  }

  lemma StepControl(c: Client, e: Event)
    requires ControlInv(c) && Enabled(c, e)
    ensures ControlInv(Step(c, e))
  {
    match e
    case Sending(m) => SendControl(c, m);
    case Connected(j, code) => ConnectDoneControl(c, j, code);
    case TimerRan(i, code) => TimerDoneControl(c, i, code);
    case Read(j, chunk) => ReadDoneControl(c, j, chunk);
    case ReadError(j, code) => ReadFailedControl(c, j, code);
    case Written(j, n, code) => WriteDoneControl(c, j, n, code);
  }

  // ----- data -----

  function SentByAttempt(c: Client): seq<seq<Message>> {
    seq(|c.attempts|, j requires 0 <= j < |c.attempts| => SentOf(c.attempts[j].sock))
  }

  function DeliveredByAttempt(c: Client): seq<seq<Message>> {
    seq(|c.attempts|, j requires 0 <= j < |c.attempts| => DeliveredOf(c.attempts[j].sock))
  }

  /**
   Every socket satisfies the invariant of a connection end; what was handed to `udp_sender_` is
   what the sockets delivered, one after the other; and what was sent on them, one after the other,
   is a subsequence of the calls of `send`.
   */
  predicate SocksOk(c: Client) {
    forall j :: 0 <= j < |c.attempts| && c.attempts[j].sock.Some? ==> EndInv(c.attempts[j].sock.value)
  }

  ghost predicate DataInv(c: Client) {
    SocksOk(c) && FlowOk(c.out, c.calls, DeliveredByAttempt(c), SentByAttempt(c))
  }

  ghost predicate FlowOk(out: seq<Message>, calls: seq<Message>,
                         delivered: seq<seq<Message>>, sent: seq<seq<Message>>)
  {
    out == Concat(delivered) && Subsequence(Concat(sent), calls)
  }

  lemma FlowOfOneMore(out: seq<Message>, calls: seq<Message>, delivered: seq<seq<Message>>, sent: seq<seq<Message>>)
    requires FlowOk(out, calls, delivered, sent)
    ensures FlowOk(out, calls, delivered + [[]], sent + [[]])
  {
    ConcatSnoc(sent, []);
    ConcatSnoc(delivered, []);
    assert Concat(sent) + [] == Concat(sent) && Concat(delivered) + [] == Concat(delivered);
  }

  lemma FreshData()
    ensures DataInv(FRESH)
  {
    var none: seq<seq<Message>> := [];
    assert DeliveredByAttempt(FRESH) == none + [[]] && SentByAttempt(FRESH) == none + [[]];
    ConcatSnoc<Message>(none, []);
    PrefixIsSubsequence<Message>([], []);
  }

  /** Steps that send and deliver nothing. */
  lemma QuietData(c: Client, c': Client)
    requires DataInv(c) && SocksOk(c')
    requires |c'.attempts| == |c.attempts| && c'.out == c.out && c'.calls == c.calls
    requires forall j :: 0 <= j < |c.attempts| ==>
               && SentOf(c'.attempts[j].sock) == SentOf(c.attempts[j].sock)
               && DeliveredOf(c'.attempts[j].sock) == DeliveredOf(c.attempts[j].sock)
    ensures DataInv(c')
  {
    assert SentByAttempt(c') == SentByAttempt(c);
    assert DeliveredByAttempt(c') == DeliveredByAttempt(c);
  }

  lemma SetEndData(c: Client, j: nat, e: End)
    requires DataInv(c) && At(c, j).Some? && EndInv(e)
    requires e.past.sent == At(c, j).value.past.sent && e.past.delivered == At(c, j).value.past.delivered
    ensures DataInv(SetEnd(c, j, e))
  {
    QuietData(c, SetEnd(c, j, e));
  }

  lemma OnDisconnectedData(c: Client)
    requires DataInv(c)
    ensures DataInv(OnDisconnected(c))
  {
    DropSockData(c);
    QuietData(DropSock(c), OnDisconnected(c));
  }

  lemma DropSockAddsNone(c: Client, j: nat)
    requires At(c, j).None?
    ensures At(DropSock(c), j).None?
  {
  }

  lemma DropSockData(c: Client)
    requires DataInv(c)
    ensures DataInv(DropSock(c))
  {
    if c.sock.Some? && At(c, c.sock.value).Some? {
      var closed := SetEnd(c, c.sock.value, Closed(At(c, c.sock.value).value));
      SetEndData(c, c.sock.value, Closed(At(c, c.sock.value).value));
      QuietData(closed, DropSock(c));
    } else {
      QuietData(c, DropSock(c));
    }
  }

  lemma NewAttemptData(c: Client, connector: Option<nat>)
    requires DataInv(c)
    ensures DataInv(c.(attempts := c.attempts + [NEW_ATTEMPT], connector := connector))
  {
    var c' := c.(attempts := c.attempts + [NEW_ATTEMPT], connector := connector);
    FlowOfOneMore(c.out, c.calls, DeliveredByAttempt(c), SentByAttempt(c));
    assert SentByAttempt(c') == SentByAttempt(c) + [[]] && DeliveredByAttempt(c') == DeliveredByAttempt(c) + [[]];
  }

  lemma RaisedData(c: Client, j: nat, e: End, up: bool)
    requires DataInv(c) && At(c, j).Some? && EndInv(e)
    requires e.past.sent == At(c, j).value.past.sent && e.past.delivered == At(c, j).value.past.delivered
    ensures DataInv(Raised(c, j, e, up))
  {
    SetEndData(c, j, e);
    if up {
      OnDisconnectedData(SetEnd(c, j, e));
    }
  }

  lemma StartConnectData(c: Client)
    requires DataInv(c)
    ensures DataInv(StartConnect(c))
  {
    if c.connector.Some? && c.connector.value < |c.attempts| {
      var r := SetHandle(c, c.connector.value, c.attempts[c.connector.value].handle.Cancelled());
      QuietData(c, r);
      NewAttemptData(r, Some(|r.attempts|));
    } else {
      NewAttemptData(c, Some(|c.attempts|));
    }
  }

  lemma EngageData(c: Client, j: nat, e: End)
    requires DataInv(c) && j < |c.attempts| && At(c, j).None? && IsNew(e, |c.calls|)
    ensures DataInv(Engage(c, j, e))
  {
    FreshEndInv(e, |c.calls|);
    QuietData(c, Engage(c, j, e));
  }

  /** A connect is judged. */
  lemma JudgedData(c: Client, j: nat, verdict: Verdict)
    requires DataInv(c) && j < |c.attempts|
    ensures DataInv(c.(attempts := c.attempts[j := c.attempts[j].(outcome := Some(verdict))]))
  {
    QuietData(c, c.(attempts := c.attempts[j := c.attempts[j].(outcome := Some(verdict))]));
  }

  /** The new socket replaces the old one. */
  lemma EstablishedData(c: Client, j: nat, e: End)
    requires DataInv(c) && j < |c.attempts| && At(c, j).None? && IsNew(e, |c.calls|)
    ensures DataInv(Engage(DropSock(c), j, e))
  {
    DropSockData(c);
    DropSockAddsNone(c, j);
    EngageData(DropSock(c), j, e);
  }

  lemma ConnectDoneData(c: Client, j: nat, code: Completion)
    requires ControlInv(c) && DataInv(c) && j < |c.attempts| && c.attempts[j].outcome.None?
    ensures DataInv(ConnectDone(c, j, code))
  {
    assert PlaceOk(c, 0, j);
    var verdict := JudgeConnect(c.attempts[j].handle.cancelled, code);
    JudgedData(c, j, verdict);
    var judged := c.(attempts := c.attempts[j := c.attempts[j].(outcome := Some(verdict))]);
    if verdict == Refused {
      OnDisconnectedData(judged);
    } else if verdict == Established {
      EstablishedData(judged, j, FreshEnd(|c.calls|));
    }
  }

  /** Only the last attempt can be engaged. */
  lemma EngagedIsLast(c: Client)
    requires ControlInv(c) && c.sock.Some?
    ensures c.sock.value == |c.attempts| - 1 && At(c, c.sock.value).Some?
  {
    assert PlaceOk(c, 0, c.sock.value);
  }

  lemma SendEngagedData(c: Client, m: Message)
    requires ControlInv(c) && DataInv(c) && c.sock.Some?
    ensures DataInv(Send(c, m))
  {
    EngagedIsLast(c);
    var c', last := Send(c, m), |c.attempts| - 1;
    SendMessageKeeps(At(c, last).value, m);
    assert DeliveredByAttempt(c') == DeliveredByAttempt(c);
    assert Subsequence(Concat(SentByAttempt(c')), c'.calls) by {
      assert SentByAttempt(c')[..last] == SentByAttempt(c)[..last];
      ConcatGrowLast(SentByAttempt(c), SentByAttempt(c'), [m]);
      PrefixIsSubsequence([m], [m]);
      SubsequenceConcat(Concat(SentByAttempt(c)), c.calls, [m], [m]);
    }
  }

  lemma SendData(c: Client, m: Message)
    requires ControlInv(c) && DataInv(c)
    ensures DataInv(Send(c, m))
  {
    if c.sock.Some? {
      SendEngagedData(c, m);
    } else {
      var c' := Send(c, m);
      SubsequenceSkip(Concat(SentByAttempt(c)), c.calls, [m]);
      assert DeliveredByAttempt(c') == DeliveredByAttempt(c) && SentByAttempt(c') == SentByAttempt(c);
    }
  }

  lemma LiveReadData(c: Client, j: nat, chunk: bytes)
    requires ControlInv(c) && DataInv(c) && Enabled(c, Read(j, chunk)) && c.sock == Some(j)
    ensures DataInv(ReadDone(c, j, chunk))
  {
    var c' := ReadDone(c, j, chunk);
    EngagedIsLast(c);
    ReceiveKeeps(At(c, j).value, chunk);
    assert SentByAttempt(c') == SentByAttempt(c);
    assert c'.out == Concat(DeliveredByAttempt(c')) by {
      assert DeliveredByAttempt(c')[..j] == DeliveredByAttempt(c)[..j];
      ConcatGrowLast(DeliveredByAttempt(c), DeliveredByAttempt(c'), NewlyDelivered(At(c, j).value, At(c', j).value));
    }
  }

  lemma ReadDoneData(c: Client, j: nat, chunk: bytes)
    requires ControlInv(c) && DataInv(c) && Enabled(c, Read(j, chunk))
    ensures DataInv(ReadDone(c, j, chunk))
  {
    assert PlaceOk(c, 0, j);
    if c.sock == Some(j) {
      LiveReadData(c, j, chunk);
    } else {
      ReceiveKeeps(At(c, j).value, chunk);
      SetEndData(c, j, Receive(At(c, j).value, chunk));
      assert c.out + [] == c.out;
    }
  }

  lemma ReadFailedData(c: Client, j: nat, code: ErrorCode)
    requires DataInv(c) && Enabled(c, ReadError(j, code))
    ensures DataInv(ReadFailed(c, j, code))
  {
    ReadFailedKeeps(At(c, j).value, code);
    var (e, up) := Sockets.ReadFailed(At(c, j).value, code);
    RaisedData(c, j, e, up);
  }

  lemma WriteDoneData(c: Client, j: nat, n: nat, code: Completion)
    requires DataInv(c) && Enabled(c, Written(j, n, code))
    ensures DataInv(WriteDone(c, j, n, code))
  {
    WriteDoneKeeps(At(c, j).value, n, code);
    var (e, up) := Sockets.WriteDone(At(c, j).value, n, code);
    RaisedData(c, j, e, up);
  }

  lemma TimerDoneData(c: Client, i: nat, code: Completion)
    requires DataInv(c) && i < |c.timer.shots|
    ensures DataInv(TimerDone(c, i, code))
  {
    var c' := c.(timer := Timers.Done(c.timer, i, code));
    QuietData(c, c');
    if Timers.Fires(c.timer, i, code) { StartConnectData(c'); }
  }

  lemma StepData(c: Client, e: Event)
    requires ControlInv(c) && DataInv(c) && Enabled(c, e)
    ensures DataInv(Step(c, e))
  {
    match e
    case Sending(m) => SendData(c, m);
    case Connected(j, code) => ConnectDoneData(c, j, code);
    case TimerRan(i, code) => TimerDoneData(c, i, code);
    case Read(j, chunk) => ReadDoneData(c, j, chunk);
    case ReadError(j, code) => ReadFailedData(c, j, code);
    case Written(j, n, code) => WriteDoneData(c, j, n, code);
  }

  // ----- what each socket was given -----

  /** Up to which call of `send` an attempt's socket was given the messages. */
  function UntilOf(a: Attempt, now: nat): nat {
    if a.until.Some? then a.until.value else now
  }

  /** The calls of `send` while the attempt's socket was in `sock_`. */
  function GivenTo(a: Attempt, calls: seq<Message>): seq<Message> {
    if a.sock.Some? && BornOf(a.sock) <= UntilOf(a, |calls|) <= |calls| then
      calls[BornOf(a.sock)..UntilOf(a, |calls|)]
    else []
  }

  /** A socket was given exactly the messages of the calls while it was in `sock_`. */
  predicate GivenOk(a: Attempt, engaged: bool, calls: seq<Message>) {
    && (a.sock.Some? ==> (a.until.None? <==> engaged) && BornOf(a.sock) <= UntilOf(a, |calls|) <= |calls|)
    && SentOf(a.sock) == GivenTo(a, calls)
  }

  predicate GivenInv(c: Client) {
    forall j :: 0 <= j < |c.attempts| ==> GivenOk(c.attempts[j], c.sock == Some(j), c.calls)
  }

  lemma FreshGiven()
    ensures GivenInv(FRESH)
  {
  }

  /** Steps that give nothing to any socket and leave `sock_` alone. */
  lemma QuietGiven(c: Client, c': Client)
    requires GivenInv(c) && |c'.attempts| >= |c.attempts| && c'.calls == c.calls && c'.sock == c.sock
    requires forall j :: 0 <= j < |c.attempts| ==>
               && (c'.attempts[j].sock.Some? <==> c.attempts[j].sock.Some?)
               && SentOf(c'.attempts[j].sock) == SentOf(c.attempts[j].sock)
               && BornOf(c'.attempts[j].sock) == BornOf(c.attempts[j].sock)
               && c'.attempts[j].until == c.attempts[j].until
    requires forall j :: |c.attempts| <= j < |c'.attempts| ==> c'.attempts[j].sock.None?
    ensures GivenInv(c')
  {
    forall j | 0 <= j < |c.attempts| ensures GivenOk(c'.attempts[j], c'.sock == Some(j), c'.calls) {
      assert GivenOk(c.attempts[j], c.sock == Some(j), c.calls);
    }
  }

  lemma SetEndGiven(c: Client, j: nat, e: End)
    requires GivenInv(c) && At(c, j).Some?
    requires e.past.sent == At(c, j).value.past.sent && e.past.born == At(c, j).value.past.born
    ensures GivenInv(SetEnd(c, j, e))
  {
    QuietGiven(c, SetEnd(c, j, e));
  }

  lemma DropSockGiven(c: Client)
    requires GivenInv(c)
    ensures GivenInv(DropSock(c))
  {
    forall j | 0 <= j < |c.attempts| ensures GivenOk(DropSock(c).attempts[j], DropSock(c).sock == Some(j), c.calls) {
      assert GivenOk(c.attempts[j], c.sock == Some(j), c.calls);
    }
  }

  lemma OnDisconnectedGiven(c: Client)
    requires GivenInv(c)
    ensures GivenInv(OnDisconnected(c))
  {
    DropSockGiven(c);
    QuietGiven(DropSock(c), OnDisconnected(c));
  }

  lemma EngageGiven(c: Client, j: nat, e: End)
    requires GivenInv(c) && j < |c.attempts| && c.sock.None? && e.past.sent == [] && e.past.born == |c.calls|
    ensures GivenInv(Engage(c, j, e))
  {
    var c' := Engage(c, j, e);
    forall k | 0 <= k < |c.attempts| ensures GivenOk(c'.attempts[k], c'.sock == Some(k), c'.calls) {
      assert GivenOk(c.attempts[k], false, c.calls);
      assert c.calls[|c.calls|..|c.calls|] == [];
    }
  }

  lemma ConnectDoneGiven(c: Client, j: nat, code: Completion)
    requires GivenInv(c) && j < |c.attempts|
    ensures GivenInv(ConnectDone(c, j, code))
  {
    var verdict := JudgeConnect(c.attempts[j].handle.cancelled, code);
    var judged := c.(attempts := c.attempts[j := c.attempts[j].(outcome := Some(verdict))]);
    QuietGiven(c, judged);
    if verdict == Refused {
      OnDisconnectedGiven(judged);
    } else if verdict == Established {
      DropSockGiven(judged);
      EngageGiven(DropSock(judged), j, FreshEnd(|c.calls|));
    }
  }

  /** The one step that gives: the engaged socket gets the message, and no other. */
  lemma SendGiven(c: Client, m: Message)
    requires ControlInv(c) && GivenInv(c)
    ensures GivenInv(Send(c, m))
  {
    var c' := Send(c, m);
    if c.sock.Some? {
      EngagedIsLast(c);
    }
    forall k | 0 <= k < |c.attempts| ensures GivenOk(c'.attempts[k], c'.sock == Some(k), c'.calls) {
      assert GivenOk(c.attempts[k], c.sock == Some(k), c.calls);
      GivenOneMore(c.attempts[k], c.sock == Some(k), c.calls, m);
    }
  }

  lemma GivenOneMore(a: Attempt, engaged: bool, calls: seq<Message>, m: Message)
    requires GivenOk(a, engaged, calls)
    ensures var a' := if engaged && a.sock.Some? then a.(sock := Some(SendMessage(a.sock.value, m))) else a;
            GivenOk(a', engaged, calls + [m])
  {
    if a.sock.Some? {
      var b, u := BornOf(a.sock), UntilOf(a, |calls|);
      assert (calls + [m])[b..u] == calls[b..u];
      assert engaged ==> (calls + [m])[b..|calls| + 1] == calls[b..u] + [m];
    }
  }

  lemma RaisedGiven(c: Client, j: nat, e: End, up: bool)
    requires GivenInv(c) && At(c, j).Some?
    requires e.past.sent == At(c, j).value.past.sent && e.past.born == At(c, j).value.past.born
    ensures GivenInv(Raised(c, j, e, up))
  {
    SetEndGiven(c, j, e);
    if up {
      OnDisconnectedGiven(SetEnd(c, j, e));
    }
  }

  lemma StartConnectGiven(c: Client)
    requires GivenInv(c)
    ensures GivenInv(StartConnect(c))
  {
    QuietGiven(c, StartConnect(c));
  }

  lemma StepGiven(c: Client, e: Event)
    requires ControlInv(c) && GivenInv(c) && Enabled(c, e)
    ensures GivenInv(Step(c, e))
  {
    match e
    case Sending(m) => SendGiven(c, m);
    case Connected(j, code) => ConnectDoneGiven(c, j, code);
    case TimerRan(i, code) =>
      var c' := c.(timer := Timers.Done(c.timer, i, code));
      QuietGiven(c, c');
      if Timers.Fires(c.timer, i, code) { StartConnectGiven(c'); }
    case Read(j, chunk) =>
      SetEndGiven(c, j, Receive(At(c, j).value, chunk));
      QuietGiven(SetEnd(c, j, Receive(At(c, j).value, chunk)), ReadDone(c, j, chunk));
    case ReadError(j, code) =>
      var (end, up) := Sockets.ReadFailed(At(c, j).value, code);
      RaisedGiven(c, j, end, up);
    case Written(j, n, code) =>
      var (end, up) := Sockets.WriteDone(At(c, j).value, n, code);
      RaisedGiven(c, j, end, up);
  }

  // ----- what a step does to one connection -----

  /** The bytes that an event lets attempt `j` consume. */
  function ChunkFor(e: Event, j: nat): bytes {
    if e.Read? && e.j == j then e.chunk else []
  }

  lemma OnDisconnectedEvolves(c: Client, k: nat)
    ensures Evolves(At(c, k), At(OnDisconnected(c), k), [])
  {
  }

  lemma StartConnectEvolves(c: Client, k: nat)
    ensures At(StartConnect(c), k) == At(c, k)
  {
  }

  lemma SendEvolves(c: Client, m: Message, k: nat)
    requires SocksOk(c)
    ensures Evolves(At(c, k), At(Send(c, m), k), [])
  {
    if c.sock == Some(k) && At(c, k).Some? {
      SendMessageKeeps(At(c, k).value, m);
    } else {
      assert At(Send(c, m), k) == At(c, k);
    }
  }

  lemma ReadDoneEvolves(c: Client, j: nat, chunk: bytes, k: nat)
    requires SocksOk(c) && Enabled(c, Read(j, chunk))
    ensures Evolves(At(c, k), At(ReadDone(c, j, chunk), k), if j == k then chunk else [])
  {
    if k == j {
      ReceiveKeeps(At(c, j).value, chunk);
    } else {
      assert At(ReadDone(c, j, chunk), k) == At(c, k);
    }
  }

  lemma StepEvolves(c: Client, e: Event, k: nat)
    requires ControlInv(c) && SocksOk(c) && Enabled(c, e)
    ensures Evolves(At(c, k), At(Step(c, e), k), ChunkFor(e, k))
  {
    match e
    case Sending(m) => SendEvolves(c, m, k);
    case Connected(j, code) => ConnectDoneEvolves(c, j, code, k);
    case TimerRan(i, code) => StartConnectEvolves(c.(timer := Timers.Done(c.timer, i, code)), k);
    case Read(j, chunk) => ReadDoneEvolves(c, j, chunk, k);
    case ReadError(j, code) => ReadFailedEvolves(c, j, code, k);
    case Written(j, n, code) => WriteDoneEvolves(c, j, n, code, k);
  }

  lemma ReadFailedEvolves(c: Client, j: nat, code: ErrorCode, k: nat)
    requires SocksOk(c) && Enabled(c, ReadError(j, code))
    ensures Evolves(At(c, k), At(ReadFailed(c, j, code), k), [])
  {
    ReadFailedKeeps(At(c, j).value, code);
    var (e, up) := Sockets.ReadFailed(At(c, j).value, code);
    RaisedEvolves(c, j, e, up, k);
  }

  lemma WriteDoneEvolves(c: Client, j: nat, n: nat, code: Completion, k: nat)
    requires SocksOk(c) && Enabled(c, Written(j, n, code))
    ensures Evolves(At(c, k), At(WriteDone(c, j, n, code), k), [])
  {
    WriteDoneKeeps(At(c, j).value, n, code);
    var (e, up) := Sockets.WriteDone(At(c, j).value, n, code);
    RaisedEvolves(c, j, e, up, k);
  }

  lemma RaisedEvolves(c: Client, j: nat, e: End, up: bool, k: nat)
    requires At(c, j).Some? && Evolves(At(c, j), Some(e), [])
    ensures Evolves(At(c, k), At(Raised(c, j, e, up), k), [])
  {
    var c' := SetEnd(c, j, e);
    assert Evolves(At(c, k), At(c', k), []);
    OnDisconnectedEvolves(c', k);
    EvolvesThenQuietly(At(c, k), At(c', k), At(OnDisconnected(c'), k), []);
  }

  lemma ConnectDoneEvolves(c: Client, j: nat, code: Completion, k: nat)
    requires ControlInv(c) && Enabled(c, Connected(j, code))
    ensures Evolves(At(c, k), At(ConnectDone(c, j, code), k), [])
  {
    var a := c.attempts[j];
    assert PlaceOk(c, 0, j);
    var verdict := JudgeConnect(a.handle.cancelled, code);
    var judged := c.(attempts := c.attempts[j := a.(outcome := Some(verdict))]);
    assert At(judged, k) == At(c, k);
    if verdict == Refused {
      OnDisconnectedEvolves(judged, k);
    } else if verdict == Established {
      assert IsConnecting(c) && !IsEngaged(c);
      assert k != j ==> At(ConnectDone(c, j, code), k) == At(c, k);
      assert At(c, j).None?;
    }
  }

  /** Attempts are only added, and a new one has no socket. */
  lemma StepGrows(c: Client, e: Event)
    requires Enabled(c, e)
    ensures |c.attempts| <= |Step(c, e).attempts|
  {
  }

  /** What was handed on stays handed on. */
  lemma StepOut(c: Client, e: Event)
    requires Enabled(c, e)
    ensures c.out <= Step(c, e).out
  {
  }

  /** Only `send` adds to the calls. */
  lemma StepCalls(c: Client, e: Event)
    requires Enabled(c, e)
    ensures Step(c, e).calls == if e.Sending? then c.calls + [e.m] else c.calls
  {
  }

  // ----- runs -----

  predicate IsRun(c: Client, es: seq<Event>)
    decreases |es|
  {
    es != [] ==> Enabled(c, es[0]) && IsRun(Step(c, es[0]), es[1..])
  }

  function Run(c: Client, es: seq<Event>): Client
    requires IsRun(c, es)
    decreases |es|
  {
    if es == [] then c else Run(Step(c, es[0]), es[1..])
  }

  /** What every reachable client satisfies. */
  ghost predicate Inv(c: Client) {
    ControlInv(c) && DataInv(c) && GivenInv(c)
  }

  lemma FreshInv()
    ensures Inv(FRESH)
  {
    FreshControl();
    FreshData();
    FreshGiven();
  }

  lemma StepKeeps(c: Client, e: Event)
    requires Inv(c) && Enabled(c, e)
    ensures Inv(Step(c, e))
  {
    StepControl(c, e);
    StepData(c, e);
    StepGiven(c, e);
  }

  lemma {:induction false} RunKeeps(c: Client, es: seq<Event>)
    requires Inv(c) && IsRun(c, es)
    ensures Inv(Run(c, es))
    decreases |es|
  {
    if es != [] {
      StepKeeps(c, es[0]);
      RunKeeps(Step(c, es[0]), es[1..]);
    }
  }

  lemma Reached(es: seq<Event>)
    requires IsRun(FRESH, es)
    ensures Inv(Run(FRESH, es))
  {
    FreshInv();
    RunKeeps(FRESH, es);
  }
}
