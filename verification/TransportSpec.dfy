/**
 The transport as a state machine over messages of any kind (underlying_transport_impl.h).

 The program's fields are the handle, `ready` and `msgs`. The others are the environment's:
 the writes and reads that are outstanding, and the history of messages accepted by `send`,
 of those whose write was started, completed, and lost to a failure or a cancellation.
 */
module TransportSpec {
  import opened Options
  import opened AutoCancel
  import opened Errors
  import opened Sequences

  datatype Transport<M> = Transport(
    handle: Handle,
    ready: bool,
    msgs: seq<M>,
    writing: seq<M>,
    reading: nat,
    accepted: seq<M>,
    started: seq<M>,
    completed: seq<M>,
    lost: seq<M>)

  /** `create`: the first read is armed at once. */
  function Fresh<M>(): Transport<M> {
    Transport(FRESH_HANDLE, true, [], [], 1, [], [], [], [])
  }

  /** `async_send` of either strategy: pop one message and start writing it. */
  function StartWrite<M>(t: Transport<M>): Transport<M>
    requires t.msgs != []
  {
    var m := t.msgs[0];
    t.(msgs := t.msgs[1..], writing := t.writing + [m], started := t.started + [m])
  }

  function Send<M>(t: Transport<M>, m: M): Transport<M> {
    var queued := t.(msgs := t.msgs + [m], accepted := t.accepted + [m]);
    if t.msgs == [] && t.ready then StartWrite(queued).(ready := false) else queued
  }

  /** `on_send` for the `n`-th outstanding write, and the error passed to `on_error_`, if any. */
  function OnSend<M>(t: Transport<M>, n: nat, code: Completion): (Transport<M>, Completion)
    requires n < |t.writing|
  {
    var m := t.writing[n];
    var rest := t.(writing := t.writing[..n] + t.writing[n + 1..]);
    if t.handle.cancelled then
      (rest.(lost := t.lost + [m]), None)
    else if code.Some? then
      (rest.(lost := t.lost + [m]), code)
    else
      var done := rest.(completed := t.completed + [m]);
      (if t.msgs != [] then StartWrite(done) else done.(ready := true), None)
  }

  /** Whether `on_receive` hands the bytes it read to `on_receive_`. */
  predicate Accepts<M>(t: Transport<M>, code: Completion) {
    !t.handle.cancelled && code.None?
  }

  /** `on_receive`, and the error passed to `on_error_`, if any. Only a delivery re-arms the read. */
  function OnReceive<M>(t: Transport<M>, code: Completion): (Transport<M>, Completion)
    requires t.reading > 0
  {
    if Accepts(t, code) then (t, None)
    else (t.(reading := t.reading - 1), if t.handle.cancelled then None else code)
  }

  function Cancel<M>(t: Transport<M>): Transport<M> {
    t.(handle := t.handle.Cancelled())
  }

  /** What every reachable state satisfies. */
  predicate Inv<M(==)>(t: Transport<M>) {
    && t.accepted == t.started + t.msgs
    && t.started == t.completed + t.lost + t.writing
    && |t.lost| + |t.writing| <= 1
    && (t.ready <==> t.lost == [] && t.writing == [])
    && (t.ready ==> t.msgs == [])
    && t.reading <= 1
  }

  /** The part of it on which starting a write relies. */
  predicate SingleWriter<M>(t: Transport<M>) {
    |t.writing| <= 1 && (t.ready ==> t.writing == [])
  }

  lemma SendKeeps<M>(t: Transport<M>, m: M)
    requires Inv(t)
    ensures Inv(Send(t, m))
    ensures Send(t, m).accepted == t.accepted + [m] && t.started <= Send(t, m).started
  {
    if t.msgs == [] && t.ready {
      assert t.msgs + [m] == [m] && [m][1..] == [];
      assert t.accepted == t.started == t.completed + t.lost;
      Regroup(t.completed, t.lost, [m]);
    } else {
      Regroup(t.started, t.msgs, [m]);
    }
  }

  lemma OnSendKeeps<M>(t: Transport<M>, n: nat, code: Completion)
    requires Inv(t) && n < |t.writing|
    ensures Inv(OnSend(t, n, code).0)
    ensures OnSend(t, n, code).0.accepted == t.accepted && t.started <= OnSend(t, n, code).0.started
  {
    assert n == 0 && t.writing == [t.writing[0]] && t.lost == [];
    if !t.handle.cancelled && code.None? && t.msgs != [] {
      assert t.msgs == [t.msgs[0]] + t.msgs[1..];
      assert t.started + t.msgs == (t.started + [t.msgs[0]]) + t.msgs[1..];
    }
  }

  // ----- runs -----

  datatype Event<M> =
    | Sent(m: M)
    | WriteDone(n: nat, code: Completion)
    | ReadDone(code: Completion)
    | Cancelling

  /** The environment only completes what is outstanding. */
  predicate Enabled<M>(t: Transport<M>, e: Event<M>) {
    match e
    case Sent(_) => true
    case WriteDone(n, _) => n < |t.writing|
    case ReadDone(_) => t.reading > 0
    case Cancelling => true
  }

  function Step<M>(t: Transport<M>, e: Event<M>): Transport<M>
    requires Enabled(t, e)
  {
    match e
    case Sent(m) => Send(t, m)
    case WriteDone(n, code) => OnSend(t, n, code).0
    case ReadDone(code) => OnReceive(t, code).0
    case Cancelling => Cancel(t)
  }

  /** Whether the step runs one of the owner's callbacks. */
  predicate CallsBack<M>(t: Transport<M>, e: Event<M>)
    requires Enabled(t, e)
  {
    match e
    case WriteDone(n, code) => OnSend(t, n, code).1.Some?
    case ReadDone(code) => Accepts(t, code) || OnReceive(t, code).1.Some?
    case _ => false
  }

  predicate IsRun<M>(t: Transport<M>, es: seq<Event<M>>)
    decreases |es|
  {
    es != [] ==> Enabled(t, es[0]) && IsRun(Step(t, es[0]), es[1..])
  }

  function Run<M>(t: Transport<M>, es: seq<Event<M>>): Transport<M>
    requires IsRun(t, es)
    decreases |es|
  {
    if es == [] then t else Run(Step(t, es[0]), es[1..])
  }

  /** The message passed to `send` by an event, if any. */
  function SentBy<M>(e: Event<M>): seq<M> {
    if e.Sent? then [e.m] else []
  }

  /** The messages passed to `send` along a run. */
  function SentAlong<M>(es: seq<Event<M>>): seq<M> {
    if es == [] then [] else SentBy(es[0]) + SentAlong(es[1..])
  }

  lemma StepKeeps<M>(t: Transport<M>, e: Event<M>)
    requires Inv(t) && Enabled(t, e)
    ensures Inv(Step(t, e)) && Step(t, e).accepted == t.accepted + SentBy(e)
    ensures t.started <= Step(t, e).started
  {
    match e
    case Sent(m) => SendKeeps(t, m);
    case WriteDone(n, code) => OnSendKeeps(t, n, code);
    case ReadDone(_) =>
    case Cancelling =>
  }

  lemma {:induction false} RunKeeps<M>(t: Transport<M>, es: seq<Event<M>>)
    requires Inv(t) && IsRun(t, es)
    ensures Inv(Run(t, es)) && Run(t, es).accepted == t.accepted + SentAlong(es)
    ensures t.started <= Run(t, es).started
    decreases |es|
  {
    if es == [] {
      assert t.accepted + SentAlong(es) == t.accepted;
    } else {
      StepKeeps(t, es[0]);
      RunKeeps(Step(t, es[0]), es[1..]);
      Regroup(t.accepted, SentBy(es[0]), SentAlong(es[1..]));
    }
  }

  /**
   The queue loses, duplicates and reorders nothing: completed, lost, in flight and queued
   messages together are the messages sent, in order; one write at most is outstanding and it
   is outstanding, or has failed, exactly while the transport is not ready.
   */
  lemma QueueRefinement<M>(es: seq<Event<M>>)
    requires IsRun(Fresh(), es)
    ensures var t := Run(Fresh(), es);
            && t.completed + t.lost + t.writing + t.msgs == SentAlong(es)
            && |t.lost| + |t.writing| <= 1
            && (t.ready <==> |t.lost| + |t.writing| == 0)
            && (t.ready ==> t.msgs == [])
            && t.started <= SentAlong(es)
            && t.reading <= 1
  {
    RunKeeps(Fresh(), es);
    assert [] + SentAlong(es) == SentAlong(es);
  }

  /**
   The read loop goes on: over every run one read is outstanding exactly as long as no read
   completed with a failure and none after the cancel; once it is not, it never is again.
   */
  lemma {:induction false} ReadsUntilFirstFailure<M>(t: Transport<M>, es: seq<Event<M>>)
    requires IsRun(t, es) && t.reading <= 1
    ensures Run(t, es).reading <= 1
    ensures t.reading == 0 ==> Run(t, es).reading == 0
    ensures Run(t, es).reading == 1 <==>
              && t.reading == 1
              && (forall n :: 0 <= n < |es| && es[n].ReadDone? ==>
                    es[n].code.None? && !t.handle.cancelled && Cancelling !in es[..n])
    decreases |es|
  {
    if es != [] {
      ReadsUntilFirstFailure(Step(t, es[0]), es[1..]);
      forall n | 0 < n < |es| ensures Cancelling in es[..n] <==> es[0].Cancelling? || Cancelling in es[1..][..n - 1] {
        assert es[..n] == [es[0]] + es[1..][..n - 1];
      }
      assert forall n :: 0 < n < |es| ==> es[n] == es[1..][n - 1];
      assert forall n :: 0 <= n < |es[1..]| ==> es[1..][n] == es[n + 1];
    }
  }

  /** The number of writes that complete along a run. */
  function CompletionsIn<M>(es: seq<Event<M>>): nat {
    if es == [] then 0 else (if es[0].WriteDone? then 1 else 0) + CompletionsIn(es[1..])
  }

  /** No write fails and nobody cancels; reads may do what they like. */
  predicate NoWriteFails<M>(es: seq<Event<M>>) {
    forall n :: 0 <= n < |es| ==> !es[n].Cancelling? && (es[n].WriteDone? ==> es[n].code.None?)
  }

  lemma {:induction false} EachCompletionCounts<M>(t: Transport<M>, es: seq<Event<M>>)
    requires Inv(t) && IsRun(t, es) && !t.handle.cancelled && t.lost == [] && NoWriteFails(es)
    ensures Run(t, es).lost == [] && |Run(t, es).completed| == |t.completed| + CompletionsIn(es)
    decreases |es|
  {
    if es != [] {
      StepKeeps(t, es[0]);
      assert forall n :: 0 <= n < |es[1..]| ==> es[1..][n] == es[n + 1];
      EachCompletionCounts(Step(t, es[0]), es[1..]);
    }
  }

  /**
   No lost wakeup, over every run in which no write fails and nobody cancels, sends, completions
   and reads in any order: the messages completed are the first of those sent, one for each
   completion, and the transport is ready exactly when there were as many completions as sends.
   */
  lemma DrainedExactly<M>(es: seq<Event<M>>)
    requires IsRun(Fresh(), es) && NoWriteFails(es)
    ensures CompletionsIn(es) <= |SentAlong(es)|
    ensures Run(Fresh(), es).completed == SentAlong(es)[..CompletionsIn(es)]
    ensures Run(Fresh(), es).ready <==> CompletionsIn(es) == |SentAlong(es)|
  {
    EachCompletionCounts(Fresh(), es);
    QueueRefinement(es);
    var t := Run(Fresh(), es);
    assert t.completed + t.writing + t.msgs == SentAlong(es) by {
      assert t.completed + t.lost == t.completed;
    }
    RunKeeps(Fresh(), es);
  }

  /** `n` writes complete, each with success. */
  function Completions<M>(n: nat): seq<Event<M>> {
    if n == 0 then [] else [WriteDone(0, None)] + Completions(n - 1)
  }

  /**
   No lost wakeup: a transport that is neither cancelled nor broken is drained by as many
   successful completions as it has messages in flight and queued, and by no fewer.
   */
  lemma {:induction false} NoLostWakeup<M>(t: Transport<M>, n: nat)
    requires Inv(t) && !t.handle.cancelled && t.lost == []
    requires n <= |t.writing| + |t.msgs|
    ensures IsRun(t, Completions(n))
    ensures var u := Run(t, Completions(n));
            && u.accepted == t.accepted
            && |u.completed| == |t.completed| + n
            && (u.ready <==> n == |t.writing| + |t.msgs|)
            && (u.ready ==> u.msgs == [] && u.completed == t.accepted)
    decreases n
  {
    if n > 0 {
      var e: Event<M> := WriteDone(0, None);
      assert t.msgs != [] ==> t.writing != [];
      assert Completions<M>(n)[0] == e && Completions<M>(n)[1..] == Completions<M>(n - 1);
      OnSendKeeps(t, 0, None);
      NoLostWakeup(Step(t, e), n - 1);
    }
  }

  lemma {:induction false} FailureFreezes<M>(t: Transport<M>, es: seq<Event<M>>)
    requires Inv(t) && t.lost != [] && IsRun(t, es)
    ensures Run(t, es).started == t.started && Run(t, es).lost == t.lost
    decreases |es|
  {
    if es != [] {
      assert t.writing == [];
      StepKeeps(t, es[0]);
      FailureFreezes(Step(t, es[0]), es[1..]);
    }
  }

  /** After a failed write no further write ever starts, and later messages stay queued in order. */
  lemma FailureStopsWriting<M>(t: Transport<M>, es: seq<Event<M>>)
    requires Inv(t) && t.lost != [] && IsRun(t, es)
    ensures Run(t, es).started == t.started && Run(t, es).lost == t.lost
    ensures Run(t, es).msgs == t.msgs + SentAlong(es)
  {
    FailureFreezes(t, es);
    RunKeeps(t, es);
    var u := Run(t, es);
    assert u.accepted[|t.started|..] == u.msgs;
    assert (t.started + t.msgs + SentAlong(es))[|t.started|..] == t.msgs + SentAlong(es);
  }

  /**
   A cancelled transport writes no more: whatever completions were already queued, successes
   included, none starts the next write, and what is queued stays queued in order. Only a `send` to
   a transport that was ready when it was cancelled would still start one.
   */
  lemma CancelledFreezes<M>(t: Transport<M>, es: seq<Event<M>>)
    requires Inv(t) && t.handle.cancelled && IsRun(t, es)
    requires t.ready ==> SentAlong(es) == []
    ensures Run(t, es).started == t.started && Run(t, es).completed == t.completed
    ensures Run(t, es).msgs == t.msgs + SentAlong(es)
  {
    CancelledStarts(t, es);
    RunKeeps(t, es);
    var u := Run(t, es);
    assert u.accepted[|t.started|..] == u.msgs;
    assert (t.started + t.msgs + SentAlong(es))[|t.started|..] == t.msgs + SentAlong(es);
  }

  lemma CancelledStep<M>(t: Transport<M>, e: Event<M>)
    requires t.handle.cancelled && Enabled(t, e) && (t.ready ==> !e.Sent?)
    ensures Step(t, e).handle.cancelled && Step(t, e).ready == t.ready
    ensures Step(t, e).started == t.started && Step(t, e).completed == t.completed
  {
  }

  lemma {:induction false} CancelledStarts<M>(t: Transport<M>, es: seq<Event<M>>)
    requires t.handle.cancelled && IsRun(t, es)
    requires t.ready ==> SentAlong(es) == []
    ensures Run(t, es).started == t.started && Run(t, es).completed == t.completed
    decreases |es|
  {
    if es != [] {
      assert es[0].Sent? ==> SentAlong(es) != [];
      CancelledStep(t, es[0]);
      CancelledStarts(Step(t, es[0]), es[1..]);
    }
  }

  /** How often a transport is cancelled along a run. */
  function CancelsIn<M>(es: seq<Event<M>>): nat {
    if es == [] then 0 else (if es[0].Cancelling? then 1 else 0) + CancelsIn(es[1..])
  }

  /** Each cancel of the transport cancels its socket once, and nothing else does. */
  lemma {:induction false} SocketCancels<M>(t: Transport<M>, es: seq<Event<M>>)
    requires IsRun(t, es) && t.handle.attached
    ensures Run(t, es).handle.attached
    ensures Run(t, es).handle.resourceCancels == t.handle.resourceCancels + CancelsIn(es)
    ensures Run(t, es).handle.cancelled <==> t.handle.cancelled || CancelsIn(es) > 0
    decreases |es|
  {
    if es != [] {
      SocketCancels(Step(t, es[0]), es[1..]);
    }
  }

  /** Once cancelled, a transport runs none of its owner's callbacks, whatever completions were already queued. */
  lemma {:induction false} CancelledIsSilent<M>(t: Transport<M>, es: seq<Event<M>>, n: nat)
    requires t.handle.cancelled && IsRun(t, es) && n < |es|
    ensures IsRun(t, es[..n]) && Enabled(Run(t, es[..n]), es[n])
    ensures !CallsBack(Run(t, es[..n]), es[n])
    decreases |es|
  {
    if n > 0 {
      CancelledIsSilent(Step(t, es[0]), es[1..], n - 1);
      assert es[..n][1..] == es[1..][..n - 1];
    }
  }
}
