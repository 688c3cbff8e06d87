/** The replaceable one-shot timer (async_timer.cpp). */
module AsyncTimer {
  import opened Options
  import opened Errors
  import opened AutoCancel

  /** One `impl`: its handle, and whether its wait is still to complete. */
  datatype Shot = Shot(handle: Handle, pending: bool)

  /**
   The timer with the history of its waits. `current` is what `pimpl_` holds; `fired` lists, in
   order, the waits for which the callback was run.
   */
  datatype Timer = Timer(shots: seq<Shot>, current: Option<nat>, fired: seq<nat>)

  const NEVER_SET := Timer([], None, [])

  /** Letting go of the current shot cancels it. */
  function Released(t: Timer): Timer {
    match t.current
    case None => t
    case Some(c) =>
      if c < |t.shots| then
        t.(shots := t.shots[c := t.shots[c].(handle := t.shots[c].handle.Cancelled())], current := None)
      else t.(current := None)
  }

  function Rearmed(t: Timer): Timer {
    var r := Released(t);
    r.(shots := r.shots + [Shot(FRESH_HANDLE, true)], current := Some(|t.shots|))
  }

  function Disarmed(t: Timer): Timer {
    Released(t)
  }

  /** Whether the completion of wait `i` runs the callback. */
  predicate Fires(t: Timer, i: nat, code: Completion)
    requires i < |t.shots|
  {
    !t.shots[i].handle.cancelled && code.None?
  }

  function Done(t: Timer, i: nat, code: Completion): Timer
    requires i < |t.shots|
  {
    var t' := t.(shots := t.shots[i := t.shots[i].(pending := false)]);
    if Fires(t, i, code) then t'.(fired := t.fired + [i]) else t'
  }

  predicate Increasing(s: seq<nat>) {
    forall m, n :: 0 <= m < n < |s| ==> s[m] < s[n]
  }

  predicate Inv(t: Timer) {
    && (t.current.Some? ==> t.current.value == |t.shots| - 1)
    && (forall i :: 0 <= i < |t.shots| ==>
          var held := t.current == Some(i);
          t.shots[i].handle == Handle(!held, true, if held then 0 else 1))
    && (forall n :: 0 <= n < |t.fired| ==> t.fired[n] < |t.shots| && !t.shots[t.fired[n]].pending)
    && Increasing(t.fired)
  }

  /** A wait whose completion can still run the callback. */
  predicate Armed(t: Timer, i: nat) {
    i < |t.shots| && t.shots[i].pending && !t.shots[i].handle.cancelled
  }

  lemma WaitKeeps(t: Timer)
    requires Inv(t)
    ensures Inv(Rearmed(t)) && Inv(Disarmed(t))
    ensures forall i: nat :: Armed(Rearmed(t), i) <==> i == |t.shots|
    ensures forall i: nat :: !Armed(Disarmed(t), i)
  {
  }

  lemma DoneKeeps(t: Timer, i: nat, code: Completion)
    requires Inv(t) && i < |t.shots| && t.shots[i].pending
    ensures Inv(Done(t, i, code))
    ensures forall k: nat :: Armed(Done(t, i, code), k) <==> Armed(t, k) && k != i
  {
    if Fires(t, i, code) {
      forall n | 0 <= n < |t.fired| ensures t.fired[n] < i {
        assert t.shots[t.fired[n]].pending != t.shots[i].pending;
      }
    }
  }

  // ----- runs -----

  datatype Event = Waiting | Stopping | Completing(i: nat, code: Completion)

  predicate Enabled(t: Timer, e: Event) {
    e.Completing? ==> e.i < |t.shots| && t.shots[e.i].pending
  }

  function Step(t: Timer, e: Event): Timer
    requires Enabled(t, e)
  {
    match e
    case Waiting => Rearmed(t)
    case Stopping => Disarmed(t)
    case Completing(i, code) => Done(t, i, code)
  }

  predicate IsRun(t: Timer, es: seq<Event>)
    decreases |es|
  {
    es != [] ==> Enabled(t, es[0]) && IsRun(Step(t, es[0]), es[1..])
  }

  function Run(t: Timer, es: seq<Event>): Timer
    requires IsRun(t, es)
    decreases |es|
  {
    if es == [] then t else Run(Step(t, es[0]), es[1..])
  }

  lemma {:induction false} RunKeeps(t: Timer, es: seq<Event>)
    requires Inv(t) && IsRun(t, es)
    ensures Inv(Run(t, es))
    decreases |es|
  {
    if es != [] {
      if es[0].Completing? {
        DoneKeeps(t, es[0].i, es[0].code);
      } else {
        WaitKeeps(t);
      }
      RunKeeps(Step(t, es[0]), es[1..]);
    }
  }

  /**
   Over any run, completions in any order and queued successes included: a wait fires at most once,
   waits fire in order, and what fires is the latest wait, not stopped since. The condition under
   which a completion fires is exact.
   */
  lemma FiringDiscipline(es: seq<Event>, i: nat, code: Completion)
    requires IsRun(NEVER_SET, es)
    requires Enabled(Run(NEVER_SET, es), Completing(i, code))
    ensures var t := Run(NEVER_SET, es);
            && Increasing(Done(t, i, code).fired)
            && (Fires(t, i, code) <==> t.current == Some(i) && code.None?)
            && (Fires(t, i, code) ==> i == |t.shots| - 1 && i !in t.fired && i in Done(t, i, code).fired)
  {
    RunKeeps(NEVER_SET, es);
    DoneKeeps(Run(NEVER_SET, es), i, code);
    var t := Run(NEVER_SET, es);
    if Fires(t, i, code) {
      assert Done(t, i, code).fired[|t.fired|] == i;
    }
  }

  /**
   After any run every wait but the current one has cancelled its timer exactly once, and the current
   one never has.
   */
  lemma WaitCancelledOnce(es: seq<Event>, i: nat)
    requires IsRun(NEVER_SET, es) && i < |Run(NEVER_SET, es).shots|
    ensures var t := Run(NEVER_SET, es); var h := t.shots[i].handle;
            && h.attached && (h.cancelled <==> t.current != Some(i))
            && h.resourceCancels == if t.current == Some(i) then 0 else 1
  {
    RunKeeps(NEVER_SET, es);
  }

  // ----- objects -----

  class Impl {
    const resource: EnableCancelResource
    const index: nat  // its place among the shots of its timer
    ghost var pending: bool

    ghost function State(): Shot
      reads this, resource
    {
      Shot(resource.Value(), pending)
    }

    constructor (index: nat)
      ensures fresh(resource) && State() == Shot(FRESH_HANDLE, true) && this.index == index
    {
      resource := new EnableCancelResource();
      this.index := index;
      pending := true;
    }

    /** `impl::on_timer`, and whether it runs the callback. */
    method OnTimer(code: Completion) returns (fires: bool)
      requires pending
      modifies this
      ensures State() == old(State()).(pending := false)
      ensures fires <==> !old(State()).handle.cancelled && code.None?
    {
      pending := false;
      fires := !(resource.cancelled || code.Some?);
    }
  }

  ghost predicate HasImpl(impls: set<Impl>, i: nat) {
    exists x :: x in impls && x.index == i
  }

  /** The first `n` waits have their shots. */
  ghost predicate HasImpls(impls: set<Impl>, n: nat) {
    forall i :: 0 <= i < n ==> HasImpl(impls, i)
  }

  lemma HasImplsPlus(impls: set<Impl>, impl: Impl)
    requires HasImpls(impls, impl.index)
    ensures HasImpls(impls + {impl}, impl.index + 1)
  {
    forall i | 0 <= i < impl.index + 1 ensures HasImpl(impls + {impl}, i) {
      if i < impl.index {
        assert HasImpl(impls, i);
        var x :| x in impls && x.index == i;
        assert x in impls + {impl};
      } else {
        assert impl in impls + {impl};
      }
    }
  }

  /**
   `impls` is no field of the program: it stands for the handlers that the `io_service` holds, each
   of which keeps its shot alive, and `waits` is their number. No shot ever leaves it.
   */
  class AsyncTimer {
    const pimpl: AutoCancelPtr
    var impls: set<Impl>
    var waits: nat

    ghost var resources: set<EnableCancelResource>
    ghost var held: Impl?  // what `pimpl_` points to
    ghost var state: Timer

    ghost function Footprint(): set<object>
      reads `impls, `resources
    {
      {this, pimpl} + impls + resources
    }

    /** Every shot there was is still there, and `shot`, if any, has been added and is new. */
    twostate predicate Gained(new shot: Impl?)
      reads `impls, `resources
    {
      if shot == null then
        impls == old(impls) && resources == old(resources)
      else
        impls == old(impls) + {shot} && resources == old(resources) + {shot.resource}
        && fresh(shot) && fresh(shot.resource)
    }

    ghost predicate Separate()
      reads `impls, `resources
    {
      && (forall x, y :: x in impls && y in impls && x != y ==> x.resource != y.resource && x.index != y.index)
      && (forall x :: x in impls ==> x.resource in resources)
    }

    /** Every wait has its shot. */
    ghost predicate Covers(t: Timer)
      reads `impls, `waits
    {
      waits == |t.shots| && HasImpls(impls, waits)
    }

    /** Each shot is in the state of its wait, and the pointer holds the shot of the current wait. */
    ghost predicate Represents(t: Timer)
      reads `impls, `waits, `resources, `held, pimpl, impls, resources
    {
      && Separate() && Covers(t)
      && (forall x :: x in impls ==> x.index < |t.shots| && x.State() == t.shots[x.index])
      && (match t.current
          case None => held == null && pimpl.ptr == null
          case Some(i) => held != null && held in impls && held.index == i && pimpl.ptr == held.resource)
    }

    ghost predicate Valid()
      reads this, pimpl, impls, resources
    {
      Represents(state)
    }

    constructor ()
      ensures Valid() && fresh(Footprint()) && resources == {} && state == NEVER_SET
    {
      pimpl := new AutoCancelPtr(null);
      impls, waits, resources, held, state := {}, 0, {}, null, NEVER_SET;
    }

    method Wait() returns (impl: Impl)
      requires Valid()
      modifies this, pimpl, resources
      ensures state == Rearmed(old(state))
      ensures Gained(impl)
      ensures Valid()
    {
      impl := new Impl(waits);
      pimpl.Reset(impl.resource);
      HasImplsPlus(impls, impl);
      impls, waits, resources, held := impls + {impl}, waits + 1, resources + {impl.resource}, impl;
      assert Separate();
      state := Rearmed(state);
    }

    method Cancel()
      requires Valid()
      modifies this, pimpl, resources
      ensures state == Disarmed(old(state))
      ensures Valid() && impls == old(impls) && resources == old(resources)
    {
      pimpl.Reset(null);
      held := null;
      state := Disarmed(state);
    }

    /** The completion of a wait. */
    method OnTimer(impl: Impl, code: Completion) returns (fires: bool)
      requires Valid() && impl in impls && impl.pending
      modifies this`state, impl
      ensures impl.index < |old(state).shots| && old(state).shots[impl.index].pending
      ensures state == Done(old(state), impl.index, code) && fires == Fires(old(state), impl.index, code)
      ensures Valid()
    {
      fires := impl.OnTimer(code);
      state := Done(state, impl.index, code);
    }
  }
}
