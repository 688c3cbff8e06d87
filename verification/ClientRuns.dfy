/** What the reconnecting client does over whole runs (tunnel_tcp_service.cpp, lines 6-51). */
module ClientRuns {
  import opened Options
  import opened Errors
  import opened Framing
  import opened Sockets
  import opened ClientSpec
  import Connecting
  import Timers = AsyncTimer

  lemma ModesOf(c: Client)
    requires ControlInv(c)
    ensures forall j :: 0 <= j < |c.attempts| && c.attempts[j].Live() ==> IsConnecting(c) && j == |c.attempts| - 1
    ensures forall i: nat :: Timers.Armed(c.timer, i) ==> IsWaiting(c) && c.timer.current == Some(i)
    ensures forall j: nat :: At(c, j).Some? && !At(c, j).value.tx.handle.cancelled ==> c.sock == Some(j)
  {
    forall j | 0 <= j < |c.attempts| && c.attempts[j].Live()
      ensures IsConnecting(c) && j == |c.attempts| - 1
    {
      assert PlaceOk(c, 0, j);
    }
    forall j: nat | At(c, j).Some? && !At(c, j).value.tx.handle.cancelled ensures c.sock == Some(j) {
      assert PlaceOk(c, 0, j);
    }
  }

  /**
   After any run the client is in exactly one mode. No connect but that of the connecting mode and
   no wait but that of the waiting mode can still call back, and no transport but that of the
   engaged mode is uncancelled.
   */
  lemma ModesExclusive(es: seq<Event>)
    requires IsRun(FRESH, es)
    ensures var c := Run(FRESH, es);
            && ExactlyOne(IsConnecting(c), IsEngaged(c), IsWaiting(c), IsStopped(c))
            && (forall j :: 0 <= j < |c.attempts| && c.attempts[j].Live() ==> IsConnecting(c) && j == |c.attempts| - 1)
            && (forall i: nat :: Timers.Armed(c.timer, i) ==> IsWaiting(c) && c.timer.current == Some(i))
            && (forall j: nat :: At(c, j).Some? && !At(c, j).value.tx.handle.cancelled ==> c.sock == Some(j))
  {
    Reached(es);
    ModesOf(Run(FRESH, es));
  }

  /**
   A socket raises `on_disconnected` at most once and has at most two errors in all. The engaged
   one has raised none, and each of its two loops goes on unless it ended with an error that was
   reported.
   */
  lemma ErrorsPerSocket(es: seq<Event>, j: nat)
    requires IsRun(FRESH, es) && At(Run(FRESH, es), j).Some?
    ensures var c := Run(FRESH, es); var e := At(c, j).value;
            && e.disconnects <= 1 && e.disconnects + e.reports <= 2
            && (c.sock == Some(j) ==>
                  && e.disconnects == 0
                  && e.reports == (if e.tx.reading == 1 then 0 else 1) + (if e.tx.lost == [] then 0 else 1))
  {
    Reached(es);
    var c := Run(FRESH, es);
    assert PlaceOk(c, 0, j);
  }

  /** An error at the engaged socket that means that the connection is gone. */
  predicate Loses(c: Client, e: Event) {
    || (e.ReadError? && c.sock == Some(e.j) && IsDisconnect(e.error))
    || (e.Written? && c.sock == Some(e.j) && e.writeCode.Some? && IsDisconnect(e.writeCode.value))
  }

  /**
   The errors that lose the engaged connection, by their values on Linux: end of file, reset and broken
   pipe, from either loop. The client then waits; after any other error it stays engaged.
   */
  lemma LosesExactly(es: seq<Event>, e: Event, code: ErrorCode)
    requires IsRun(FRESH, es) && Enabled(Run(FRESH, es), e)
    requires (e.ReadError? && e.error == code) || (e.Written? && e.writeCode == Some(code))
    requires Run(FRESH, es).sock == Some(e.j)
    ensures var c' := Step(Run(FRESH, es), e);
            && (IsWaiting(c') <==> code in {ErrorCode(MiscCategory, 2), ErrorCode(SystemCategory, 104),
                                            ErrorCode(SystemCategory, 32)})
            && (IsEngaged(c') <==> !IsWaiting(c'))
  {
    Transitions(es, e);
    ModesExclusive(es);
  }

  /** The connect in progress completes. */
  predicate Completes(c: Client, e: Event) {
    e.Connected? && e.j < |c.attempts| && c.attempts[e.j].Live()
  }

  /**
   The connects that are tried again, by the values of their errors on Linux: refusals and time-outs.
   After any other error the client has stopped, and after a success it is engaged.
   */
  lemma RefusedExactly(es: seq<Event>, code: Completion)
    requires IsRun(FRESH, es) && IsConnecting(Run(FRESH, es))
    ensures var c := Run(FRESH, es); var e := Connected(c.connector.value, code);
            && Enabled(c, e)
            && (IsEngaged(Step(c, e)) <==> code == None)
            && (IsWaiting(Step(c, e)) <==> code in {Some(ErrorCode(SystemCategory, 111)),
                                                    Some(ErrorCode(SystemCategory, 110))})
            && (IsStopped(Step(c, e)) <==> !IsEngaged(Step(c, e)) && !IsWaiting(Step(c, e)))
  {
    ModesExclusive(es);
    Transitions(es, Connected(Run(FRESH, es).connector.value, code));
  }

  /** The latest wait runs out. */
  predicate RunsOut(c: Client, e: Event) {
    e.TimerRan? && c.timer.current == Some(e.i) && e.timerCode.None?
  }

  /**
   The transitions between the modes, exactly: what a client does after any run and any event is
   determined by its mode and by whether the event completes the connect in progress, loses the
   engaged connection or ends the latest wait; no other event changes the mode.
   */
  lemma Transitions(es: seq<Event>, e: Event)
    requires IsRun(FRESH, es) && Enabled(Run(FRESH, es), e)
    ensures var c := Run(FRESH, es); var c' := Step(c, e);
            && (IsConnecting(c') <==> (IsConnecting(c) && !Completes(c, e)) || (IsWaiting(c) && RunsOut(c, e)))
            && (IsEngaged(c') <==> (IsEngaged(c) && !Loses(c, e)) || (Completes(c, e) && e.connectCode.None?))
            && (IsWaiting(c') <==> (IsWaiting(c) && !RunsOut(c, e)) || Loses(c, e)
                                   || (Completes(c, e) && e.connectCode.Some? && IsRefusal(e.connectCode.value)))
            && (IsStopped(c') <==> IsStopped(c)
                                   || (Completes(c, e) && e.connectCode.Some? && !IsRefusal(e.connectCode.value)))
  {
    Reached(es);
    var c := Run(FRESH, es);
    StepControl(c, e);
    StepModes(c, e);
  }

  /** `Transitions` but for waiting, which is the mode that is left. */
  predicate ModesMove(c: Client, c': Client, completes: bool, code: Completion, loses: bool, runsOut: bool) {
    && (IsConnecting(c') <==> (IsConnecting(c) && !completes) || (IsWaiting(c) && runsOut))
    && (IsEngaged(c') <==> (IsEngaged(c) && !loses) || (completes && code.None?))
    && (IsStopped(c') <==> IsStopped(c) || (completes && code.Some? && !IsRefusal(code.value)))
    && (loses ==> IsEngaged(c)) && (runsOut ==> IsWaiting(c)) && (completes ==> IsConnecting(c))
  }

  lemma ConnectedModes(c: Client, j: nat, code: Completion)
    requires ControlInv(c) && Enabled(c, Connected(j, code))
    ensures ModesMove(c, ConnectDone(c, j, code), Completes(c, Connected(j, code)), code, false, false)
  {
    assert PlaceOk(c, 0, j);
  }

  lemma TimerModes(c: Client, i: nat, code: Completion)
    requires ControlInv(c) && Enabled(c, TimerRan(i, code))
    ensures ModesMove(c, TimerDone(c, i, code), false, code, false, RunsOut(c, TimerRan(i, code)))
  {
  }

  lemma ReadFailedModes(c: Client, j: nat, code: ErrorCode)
    requires ControlInv(c) && Enabled(c, ReadError(j, code))
    ensures ModesMove(c, ClientSpec.ReadFailed(c, j, code), false, None, Loses(c, ReadError(j, code)), false)
  {
    assert PlaceOk(c, 0, j);
  }

  lemma WriteDoneModes(c: Client, j: nat, n: nat, code: Completion)
    requires ControlInv(c) && Enabled(c, Written(j, n, code))
    ensures ModesMove(c, ClientSpec.WriteDone(c, j, n, code), false, None, Loses(c, Written(j, n, code)), false)
  {
    assert PlaceOk(c, 0, j);
  }

  lemma StepModes(c: Client, e: Event)
    requires ControlInv(c) && Enabled(c, e)
    ensures ModesMove(c, Step(c, e), Completes(c, e), if e.Connected? then e.connectCode else None,
                      Loses(c, e), RunsOut(c, e))
  {
    match e
    case Sending(m) =>
    case Connected(j, code) => ConnectedModes(c, j, code);
    case TimerRan(i, code) => TimerModes(c, i, code);
    case Read(j, chunk) =>
    case ReadError(j, code) => ReadFailedModes(c, j, code);
    case Written(j, n, code) => WriteDoneModes(c, j, n, code);
  }

  predicate SilentOnceDropped(c: Client, j: nat, code: Completion)
    requires j < |c.attempts|
  {
    var a := c.attempts[j];
    && (a.handle.cancelled <==> j < |c.attempts| - 1)
    && a.handle.resourceCancels == (if a.handle.cancelled && a.sock.None? then 1 else 0)
    && (a.handle.cancelled ==>
          ConnectDone(c, j, code) == c.(attempts := c.attempts[j := a.(outcome := Some(Connecting.Ignored))]))
  }

  /**
   After any run the connectors other than the last are cancelled, so a late completion of their
   connects does nothing but note it; and dropping a connector cancels its socket once, but never
   one that was moved into `sock_`.
   */
  lemma DroppedConnectorsAreSilent(es: seq<Event>, j: nat, code: Completion)
    requires IsRun(FRESH, es) && j < |Run(FRESH, es).attempts|
    ensures SilentOnceDropped(Run(FRESH, es), j, code)
  {
    Reached(es);
    AttemptFacts(Run(FRESH, es), j, code);
  }

  lemma AttemptFacts(c: Client, j: nat, code: Completion)
    requires ControlInv(c) && j < |c.attempts|
    ensures SilentOnceDropped(c, j, code)
  {
    assert PlaceOk(c, 0, j);
  }

  lemma StoppedStep(c: Client, e: Event)
    requires ControlInv(c) && IsStopped(c) && Enabled(c, e)
    ensures IsStopped(Step(c, e)) && |Step(c, e).attempts| == |c.attempts| && Step(c, e).out == c.out
  {
    StepControl(c, e);
    match e
    case Connected(j, code) =>
    case Sending(m) =>
    case TimerRan(i, code) => Timers.DoneKeeps(c.timer, i, code);
    case Read(j, chunk) =>
      assert PlaceOk(c, 0, j);
    case ReadError(j, code) =>
      assert PlaceOk(c, 0, j);
    case Written(j, n, code) =>
      assert PlaceOk(c, 0, j);
  }

  /** A stopped client never connects and never delivers again. */
  lemma {:induction false} StoppedForever(c: Client, es: seq<Event>)
    requires ControlInv(c) && IsStopped(c) && IsRun(c, es)
    ensures IsStopped(Run(c, es)) && |Run(c, es).attempts| == |c.attempts| && Run(c, es).out == c.out
    decreases |es|
  {
    if es != [] {
      StoppedStep(c, es[0]);
      StepControl(c, es[0]);
      StoppedForever(Step(c, es[0]), es[1..]);
    }
  }

  // ----- what each socket is given -----

  /**
   After any run, whatever a socket's transport accepted, in whatever stage it is, is the header and
   body of each message passed to `send` while the socket was in `sock_`, in order, and nothing else;
   for the engaged socket that goes on to the latest call.
   */
  lemma GivenExactly(es: seq<Event>, j: nat)
    requires IsRun(FRESH, es) && At(Run(FRESH, es), j).Some?
    ensures var c := Run(FRESH, es); var a := c.attempts[j]; var tx := a.sock.value.tx;
            && BornOf(a.sock) <= UntilOf(a, |c.calls|) <= |c.calls|
            && (c.sock == Some(j) ==> UntilOf(a, |c.calls|) == |c.calls|)
            && tx.completed + tx.lost + tx.writing + tx.msgs == Pieces(c.calls[BornOf(a.sock)..UntilOf(a, |c.calls|)])
  {
    Reached(es);
    var c := Run(FRESH, es);
    assert GivenOk(c.attempts[j], c.sock == Some(j), c.calls);
  }

  lemma DroppedByConnect(c: Client, k: nat, code: Completion, j: nat)
    requires ControlInv(c) && Enabled(c, Connected(k, code)) && At(c, j).Some? && c.sock != Some(j)
    ensures At(ConnectDone(c, k, code), j) == At(c, j) && ConnectDone(c, k, code).sock != Some(j)
  {
    assert PlaceOk(c, 0, j);
    assert PlaceOk(c, 0, k);
  }

  lemma DroppedByError(c: Client, k: nat, e: End, up: bool, j: nat)
    requires At(c, k).Some? && At(c, j).Some? && c.sock != Some(j) && (up ==> k != j)
    requires k == j ==> OnlySettles(At(c, j).value, e)
    ensures At(Raised(c, k, e, up), j).Some? && Raised(c, k, e, up).sock != Some(j)
    ensures OnlySettles(At(c, j).value, At(Raised(c, k, e, up), j).value)
  {
  }

  lemma DroppedStep(c: Client, e: Event, j: nat)
    requires ControlInv(c) && Enabled(c, e) && At(c, j).Some? && c.sock != Some(j)
    ensures At(Step(c, e), j).Some? && Step(c, e).sock != Some(j)
    ensures OnlySettles(At(c, j).value, At(Step(c, e), j).value)
  {
    assert PlaceOk(c, 0, j);
    match e
    case Connected(k, code) => DroppedByConnect(c, k, code, j);
    case Sending(m) =>
    case TimerRan(i, code) =>
    case Read(k, chunk) =>
    case ReadError(k, code) =>
      var (end, up) := Sockets.ReadFailed(At(c, k).value, code);
      DroppedByError(c, k, end, up, j);
    case Written(k, n, code) =>
      var (end, up) := Sockets.WriteDone(At(c, k).value, n, code);
      DroppedByError(c, k, end, up, j);
  }

  lemma {:induction false} DroppedAlong(c: Client, es: seq<Event>, j: nat)
    requires ControlInv(c) && IsRun(c, es) && At(c, j).Some? && c.sock != Some(j)
    ensures At(Run(c, es), j).Some? && Run(c, es).sock != Some(j)
    ensures OnlySettles(At(c, j).value, At(Run(c, es), j).value)
    decreases |es|
  {
    if es != [] {
      DroppedStep(c, es[0], j);
      StepControl(c, es[0]);
      DroppedAlong(Step(c, es[0]), es[1..], j);
    }
  }

  /**
   A socket that was dropped stays dropped, and over every run that follows nothing is written,
   read, delivered, given or reported on it any more, whatever completions were already queued.
   */
  lemma DroppedForever(es: seq<Event>, more: seq<Event>, j: nat)
    requires IsRun(FRESH, es) && IsRun(Run(FRESH, es), more)
    requires At(Run(FRESH, es), j).Some? && Run(FRESH, es).sock != Some(j)
    ensures var c := Run(FRESH, es); var c' := Run(c, more);
            && At(c', j).Some? && c'.sock != Some(j)
            && OnlySettles(At(c, j).value, At(c', j).value)
            && Stream(At(c', j).value) == Stream(At(c, j).value)
  {
    Reached(es);
    DroppedAlong(Run(FRESH, es), more, j);
  }

  /** After any run the engaged socket was never cancelled, and each dropped one exactly once. */
  lemma SocketCancelledOnce(es: seq<Event>, j: nat)
    requires IsRun(FRESH, es) && At(Run(FRESH, es), j).Some?
    ensures var c := Run(FRESH, es); var h := At(c, j).value.tx.handle;
            && h.attached && (h.cancelled <==> c.sock != Some(j))
            && h.resourceCancels == if c.sock == Some(j) then 0 else 1
  {
    Reached(es);
    assert PlaceOk(Run(FRESH, es), 0, j);
  }

  /** The messages passed to `send` along a run. */
  function CallsAlong(es: seq<Event>): seq<Message> {
    if es == [] then [] else (if es[0].Sending? then [es[0].m] else []) + CallsAlong(es[1..])
  }

  lemma {:induction false} CallsAreRecorded(c: Client, es: seq<Event>)
    requires IsRun(c, es)
    ensures Run(c, es).calls == c.calls + CallsAlong(es)
    decreases |es|
  {
    if es == [] {
      assert c.calls + CallsAlong(es) == c.calls;
    } else {
      var c', first := Step(c, es[0]), if es[0].Sending? then [es[0].m] else [];
      StepCalls(c, es[0]);
      CallsAreRecorded(c', es[1..]);
      assert c'.calls == c.calls + first;
      assert c.calls + first + CallsAlong(es[1..]) == c.calls + (first + CallsAlong(es[1..]));
    }
  }

  /**
   The interval of attempt `j` after a step: it starts when the socket is put into `sock_` and ends
   when it is dropped.
   */
  predicate StampedBy(c: Client, c': Client, j: nat) {
    At(c', j).Some? ==>
      && BornOf(At(c', j)) == (if At(c, j).Some? then BornOf(At(c, j)) else |c.calls|)
      && c'.attempts[j].until == (if c.sock == Some(j) && c'.sock != Some(j) then Some(|c.calls|)
                                  else if At(c, j).Some? then c.attempts[j].until else None)
  }

  /** After any run and any event, the intervals of `GivenExactly` begin and end exactly with the engagement. */
  lemma IntervalsAreEngagements(es: seq<Event>, e: Event, j: nat)
    requires IsRun(FRESH, es) && Enabled(Run(FRESH, es), e)
    ensures StampedBy(Run(FRESH, es), Step(Run(FRESH, es), e), j)
  {
    Reached(es);
    StepStamps(Run(FRESH, es), e, j);
  }

  lemma OnDisconnectedStamps(c: Client, j: nat)
    ensures StampedBy(c, OnDisconnected(c), j)
  {
  }

  lemma RaisedStamps(c: Client, k: nat, e: End, up: bool, j: nat)
    requires At(c, k).Some? && e.past == At(c, k).value.past
    ensures StampedBy(c, Raised(c, k, e, up), j)
  {
    if up {
      OnDisconnectedStamps(SetEnd(c, k, e), j);
    }
  }

  lemma ConnectDoneStamps(c: Client, k: nat, code: Completion, j: nat)
    requires ControlInv(c) && Enabled(c, Connected(k, code))
    ensures StampedBy(c, ConnectDone(c, k, code), j)
  {
    assert PlaceOk(c, 0, k);
    var verdict := Connecting.JudgeConnect(c.attempts[k].handle.cancelled, code);
    var judged := c.(attempts := c.attempts[k := c.attempts[k].(outcome := Some(verdict))]);
    if verdict == Connecting.Refused {
      OnDisconnectedStamps(judged, j);
    } else if verdict == Connecting.Established {
      assert IsConnecting(c) && !IsEngaged(c);
    }
  }

  lemma StepStamps(c: Client, e: Event, j: nat)
    requires ControlInv(c) && Enabled(c, e)
    ensures StampedBy(c, Step(c, e), j)
  {
    match e
    case Sending(m) =>
    case Connected(k, code) => ConnectDoneStamps(c, k, code, j);
    case TimerRan(i, code) =>
    case Read(k, chunk) =>
    case ReadError(k, code) =>
      var (end, up) := Sockets.ReadFailed(At(c, k).value, code);
      RaisedStamps(c, k, end, up, j);
    case Written(k, n, code) =>
      var (end, up) := Sockets.WriteDone(At(c, k).value, n, code);
      RaisedStamps(c, k, end, up, j);
  }

  // ----- when a client gives up -----

  /** Engaged, with a socket whose two loops have both ended with an error that was only reported. */
  predicate IsDead(c: Client) {
    && c.sock.Some? && At(c, c.sock.value).Some?
    && At(c, c.sock.value).value.tx.reading == 0 && At(c, c.sock.value).value.tx.lost != []
  }

  lemma DeadStep(c: Client, e: Event)
    requires Inv(c) && IsDead(c) && Enabled(c, e)
    ensures IsDead(Step(c, e)) && Step(c, e).sock == c.sock
    ensures |Step(c, e).attempts| == |c.attempts| && Step(c, e).out == c.out
  {
    var last := c.sock.value;
    var tx := At(c, last).value.tx;
    EngagedIsLast(c);
    assert EndInv(At(c, last).value);
    assert tx.writing == [] && !tx.ready;
    match e
    case Sending(m) =>
    case Connected(j, code) => assert PlaceOk(c, 0, j) && PlaceOk(c, 0, last);
    case TimerRan(i, code) => ModesOf(c);
    case Read(j, chunk) => assert j != last && PlaceOk(c, 0, j);
    case ReadError(j, code) => assert j != last && PlaceOk(c, 0, j);
    case Written(j, n, code) => assert j != last && PlaceOk(c, 0, j);
  }

  /** A dead client keeps its socket, never connects and never delivers again. */
  lemma {:induction false} DeadForever(c: Client, es: seq<Event>)
    requires Inv(c) && IsDead(c) && IsRun(c, es)
    ensures IsDead(Run(c, es)) && Run(c, es).sock == c.sock
    ensures |Run(c, es).attempts| == |c.attempts| && Run(c, es).out == c.out
    decreases |es|
  {
    if es != [] {
      DeadStep(c, es[0]);
      StepKeeps(c, es[0]);
      DeadForever(Step(c, es[0]), es[1..]);
    }
  }

  lemma RunOfOne(c: Client, e: Event)
    requires Enabled(c, e)
    ensures IsRun(c, [e]) && Run(c, [e]) == Step(c, e)
  {
    assert [e][1..] == [];
  }

  lemma RunOfTwo(c: Client, e: Event, f: Event)
    requires Enabled(c, e) && Enabled(Step(c, e), f)
    ensures IsRun(c, [e, f]) && Run(c, [e, f]) == Step(Step(c, e), f)
  {
    RunOfOne(Step(c, e), f);
    assert [e, f][1..] == [f];
  }

  /** The outstanding read of the engaged socket fails with the end of the stream. */
  lemma EndOfFile(c: Client) returns (e: Event)
    requires ControlInv(c) && c.sock.Some? && At(c, c.sock.value).Some? && At(c, c.sock.value).value.tx.reading > 0
    ensures Enabled(c, e) && IsWaiting(Step(c, e)) && |Step(c, e).attempts| == |c.attempts|
  {
    e := ReadError(c.sock.value, ErrorCode(MiscCategory, EOF));
    StepControl(c, e);
    StepModes(c, e);
  }

  /** The outstanding write of the engaged socket fails with a broken pipe. */
  lemma BrokenPipe(c: Client) returns (e: Event)
    requires ControlInv(c) && c.sock.Some? && At(c, c.sock.value).Some? && At(c, c.sock.value).value.tx.writing != []
    ensures Enabled(c, e) && IsWaiting(Step(c, e)) && |Step(c, e).attempts| == |c.attempts|
  {
    e := Written(c.sock.value, 0, Some(ErrorCode(SystemCategory, BROKEN_PIPE)));
    StepControl(c, e);
    StepModes(c, e);
  }

  lemma WriteStarts(c: Client, m: Message)
    requires Inv(c) && c.sock.Some? && At(c, c.sock.value).Some?
    requires At(c, c.sock.value).value.tx.lost == [] && At(c, c.sock.value).value.tx.writing == []
    ensures var c' := Send(c, m);
            && c'.sock == c.sock && |c'.attempts| == |c.attempts|
            && At(c', c.sock.value).Some? && At(c', c.sock.value).value.tx.writing != []
  {
    assert EndInv(At(c, c.sock.value).value);
  }

  /** An engaged client that is not dead may lose its connection with the next event or the one after. */
  lemma LosesWithinTwo(c: Client) returns (es: seq<Event>)
    requires Inv(c) && IsEngaged(c) && !IsDead(c)
    ensures |es| <= 2 && IsRun(c, es) && IsWaiting(Run(c, es)) && |Run(c, es).attempts| == |c.attempts|
  {
    EngagedIsLast(c);
    var j := c.sock.value;
    var tx := At(c, j).value.tx;
    if tx.reading > 0 {
      var e := EndOfFile(c);
      RunOfOne(c, e);
      es := [e];
    } else if tx.writing != [] {
      var e := BrokenPipe(c);
      RunOfOne(c, e);
      es := [e];
    } else {
      var e := Sending([]);
      WriteStarts(c, []);
      StepControl(c, e);
      var f := BrokenPipe(Step(c, e));
      RunOfTwo(c, e, f);
      es := [e, f];
    }
  }

  /** A client that has neither stopped nor died may come to wait. */
  lemma WaitsWithinTwo(c: Client) returns (es: seq<Event>)
    requires Inv(c) && !IsStopped(c) && !IsDead(c)
    ensures |es| <= 2 && IsRun(c, es) && IsWaiting(Run(c, es)) && |Run(c, es).attempts| == |c.attempts|
  {
    if IsEngaged(c) {
      es := LosesWithinTwo(c);
    } else if IsConnecting(c) {
      var e := Connected(c.connector.value, Some(ErrorCode(SystemCategory, CONNECTION_REFUSED)));
      StepControl(c, e);
      StepModes(c, e);
      RunOfOne(c, e);
      es := [e];
    } else {
      es := [];
    }
  }

  lemma {:induction false} RunSnoc(c: Client, es: seq<Event>, e: Event)
    requires IsRun(c, es) && Enabled(Run(c, es), e)
    ensures IsRun(c, es + [e]) && Run(c, es + [e]) == Step(Run(c, es), e)
    decreases |es|
  {
    if es == [] {
      RunOfOne(c, e);
      assert es + [e] == [e];
    } else {
      RunSnoc(Step(c, es[0]), es[1..], e);
      assert (es + [e])[1..] == es[1..] + [e];
    }
  }

  /** The wait of a waiting client runs out, and a connect is started. */
  lemma WaitRunsOut(c: Client) returns (e: Event)
    requires ControlInv(c) && IsWaiting(c)
    ensures Enabled(c, e) && |Step(c, e).attempts| == |c.attempts| + 1
  {
    e := TimerRan(c.timer.current.value, None);
  }

  /** Some run from here starts another connect. */
  ghost predicate MayRetry(c: Client) {
    exists es: seq<Event> :: IsRun(c, es) && |Run(c, es).attempts| > |c.attempts|
  }

  /**
   When a client gives up, exactly. After any run, it may still start a connect if and only if it has
   neither stopped nor died.
   */
  lemma GivesUpExactly(es: seq<Event>)
    requires IsRun(FRESH, es)
    ensures MayRetry(Run(FRESH, es)) <==> !IsStopped(Run(FRESH, es)) && !IsDead(Run(FRESH, es))
  {
    Reached(es);
    var c := Run(FRESH, es);
    if IsStopped(c) || IsDead(c) {
      forall more: seq<Event> | IsRun(c, more) ensures |Run(c, more).attempts| == |c.attempts| {
        GivenUpForever(c, more);
      }
    } else {
      var more := Retries(c);
    }
  }

  lemma GivenUpForever(c: Client, es: seq<Event>)
    requires Inv(c) && (IsStopped(c) || IsDead(c)) && IsRun(c, es)
    ensures |Run(c, es).attempts| == |c.attempts| && Run(c, es).out == c.out
  {
    if IsStopped(c) {
      StoppedForever(c, es);
    } else {
      DeadForever(c, es);
    }
  }

  lemma Retries(c: Client) returns (es: seq<Event>)
    requires Inv(c) && !IsStopped(c) && !IsDead(c)
    ensures |es| <= 3 && IsRun(c, es) && |Run(c, es).attempts| == |c.attempts| + 1
  {
    var more := WaitsWithinTwo(c);
    RunKeeps(c, more);
    var e := WaitRunsOut(Run(c, more));
    RunSnoc(c, more, e);
    es := more + [e];
  }

  /**
   Death is reached: the read of a new connection fails with an error that is only reported, and so
   does the next write.
   */
  lemma DeathByTwoReports(m: Message, code: ErrorCode) returns (es: seq<Event>)
    requires !IsDisconnect(code)
    ensures IsRun(FRESH, es) && IsDead(Run(FRESH, es))
  {
    var connected: Event, failed: Event := Connected(0, None), ReadError(0, code);
    var sending: Event, written: Event := Sending(m), Written(0, 0, Some(code));
    RunOfOne(FRESH, connected);
    RunSnoc(FRESH, [connected], failed);
    RunSnoc(FRESH, [connected] + [failed], sending);
    RunSnoc(FRESH, [connected] + [failed] + [sending], written);
    es := [connected] + [failed] + [sending] + [written];
  }
}
