/** The one-shot connector and the re-arming acceptor (connecting.cpp). */
module Connecting {
  import opened Options
  import opened Errors
  import opened AutoCancel

  /** What a completion handler does: nothing, report the error, raise `on_refused`, or pass the connection on. */
  datatype Verdict = Ignored | Reported | Refused | Established

  /** `async_connector::impl::on_connected`. */
  function JudgeConnect(cancelled: bool, code: Completion): Verdict {
    if cancelled then Ignored
    else match code
         case None => Established
         case Some(c) => if IsRefusal(c) then Refused else Reported
  }

  class Connector {
    const resource: EnableCancelResource

    const index: nat  // its place among the connectors of its owner
    ghost var outcome: Option<Verdict>

    constructor (index: nat)
      ensures fresh(resource) && resource.Value() == FRESH_HANDLE && outcome == None && this.index == index
    {
      resource := new EnableCancelResource();
      this.index := index;
      outcome := None;
    }

    /** Before the callback is run; the resource is detached after a successful one. */
    method OnConnected(code: Completion) returns (verdict: Verdict)
      requires outcome.None?
      modifies this
      ensures verdict == JudgeConnect(resource.cancelled, code) && outcome == Some(verdict)
      ensures verdict == Established <==> !resource.cancelled && code == None
      ensures verdict == Refused <==>
                !resource.cancelled
                && code in {Some(ErrorCode(SystemCategory, 111)), Some(ErrorCode(SystemCategory, 110))}
    {
      if resource.cancelled {
        verdict := Ignored;
      } else if code.Some? {
        verdict := if IsRefusal(code.value) then Refused else Reported;
      } else {
        verdict := Established;
      }
      outcome := Some(verdict);
    }
  }

  /** The acceptor: its handle and the number of accepts that are outstanding. */
  datatype Acceptor = Acceptor(handle: Handle, pending: nat)

  /** `create` arms the first accept. */
  const LISTENING := Acceptor(FRESH_HANDLE, 1)

  /** `on_accept`: the next accept is armed before the connection is passed on, and only then. */
  function AfterAccept(a: Acceptor, code: Completion): (Acceptor, Verdict)
    requires a.pending > 0
  {
    var idle := a.(pending := a.pending - 1);
    if a.handle.cancelled then (idle, Ignored)
    else if code.Some? then (idle, Reported)
    else (idle.(pending := idle.pending + 1), Established)
  }

  datatype Event = Accepting(code: Completion) | Closing

  function Step(a: Acceptor, e: Event): Acceptor
    requires e.Accepting? ==> a.pending > 0
  {
    match e
    case Accepting(code) => AfterAccept(a, code).0
    case Closing => a.(handle := a.handle.Cancelled())
  }

  predicate IsRun(a: Acceptor, es: seq<Event>)
    decreases |es|
  {
    es != [] ==> (es[0].Accepting? ==> a.pending > 0) && IsRun(Step(a, es[0]), es[1..])
  }

  function Run(a: Acceptor, es: seq<Event>): Acceptor
    requires IsRun(a, es)
    decreases |es|
  {
    if es == [] then a else Run(Step(a, es[0]), es[1..])
  }

  /**
   One accept is outstanding as long as every completion was a success and the acceptor was not
   let go before one; the first other completion is the last.
   */
  lemma {:induction false} AcceptsUntilFirstFailure(a: Acceptor, es: seq<Event>)
    requires IsRun(a, es) && a.pending <= 1
    ensures Run(a, es).pending <= 1
    ensures a.pending == 0 ==> forall e :: e in es ==> e.Closing?
    ensures Run(a, es).pending == 1 <==>
              && a.pending == 1
              && (forall n :: 0 <= n < |es| && es[n].Accepting? ==>
                    es[n].code.None? && !a.handle.cancelled && Closing !in es[..n])
    decreases |es|
  {
    if es != [] {
      var b := Step(a, es[0]);
      AcceptsUntilFirstFailure(b, es[1..]);
      forall n | 0 < n < |es| ensures Closing in es[..n] <==> es[0].Closing? || Closing in es[1..][..n - 1] {
        assert es[..n] == [es[0]] + es[1..][..n - 1];
      }
      assert forall n :: 0 < n < |es| ==> es[n] == es[1..][n - 1];
      assert forall n :: 0 <= n < |es[1..]| ==> es[1..][n] == es[n + 1];
    }
  }

  /** Once the acceptor was let go, every completion, a queued success or not, is ignored and arms nothing. */
  lemma {:induction false} ClosedIsSilent(a: Acceptor, es: seq<Event>, n: nat)
    requires IsRun(a, es) && n < |es| && es[n].Accepting?
    requires a.handle.cancelled || Closing in es[..n]
    ensures IsRun(a, es[..n]) && Run(a, es[..n]).pending > 0
    ensures var b := Run(a, es[..n]); AfterAccept(b, es[n].code) == (b.(pending := b.pending - 1), Ignored)
    decreases |es|
  {
    if n > 0 {
      assert es[..n] == [es[0]] + es[1..][..n - 1];
      ClosedIsSilent(Step(a, es[0]), es[1..], n - 1);
    }
  }

  class AcceptorImpl {
    const resource: EnableCancelResource
    ghost var pending: nat

    ghost function State(): Acceptor
      reads this, resource
    {
      Acceptor(resource.Value(), pending)
    }

    constructor ()
      ensures fresh(resource) && State() == LISTENING
    {
      resource := new EnableCancelResource();
      pending := 1;
    }

    method StartAsyncAccept()
      modifies this
      ensures pending == old(pending) + 1
    {
      pending := pending + 1;
    }

    method OnAccept(code: Completion) returns (verdict: Verdict)
      requires pending > 0
      modifies this
      ensures (State(), verdict) == AfterAccept(old(State()), code)
    {
      pending := pending - 1;
      if resource.cancelled {
        return Ignored;
      }
      if code.Some? {
        return Reported;
      }
      StartAsyncAccept();
      return Established;
    }
  }
}
