/** The transport object: one writer, one reader, both silenced by cancellation (underlying_transport_impl.h). */
module UnderlyingTransport {
  import opened Options
  import opened Errors
  import opened AutoCancel
  import Spec = TransportSpec

  class Transport<M(==)> {
    const resource: EnableCancelResource
    var readySend: bool
    var msgs: seq<M>
    var sharedBufSeq: seq<M>  // the buffers of the current write, kept by the strategy

    ghost var state: Spec.Transport<M>

    /** The fields agree with the state, and the buffers of an outstanding write have not been overwritten. */
    ghost predicate Coupled()
      reads this, resource
    {
      && state.handle == resource.Value()
      && state.ready == readySend
      && state.msgs == msgs
      && (state.writing != [] ==> sharedBufSeq == state.writing)
    }

    constructor ()
      ensures Coupled() && fresh(resource) && state == Spec.Fresh()
    {
      resource := new EnableCancelResource();
      readySend, msgs, sharedBufSeq := true, [], [];
      state := Spec.Fresh();
    }

    /** `async_send` of the strategy: the first message only. */
    method AsyncSend()
      requires Coupled() && msgs != [] && state.writing == []
      modifies this
      ensures state == Spec.StartWrite(old(state))
      ensures Coupled()
    {
      sharedBufSeq := msgs[..1];
      msgs := msgs[1..];
      state := Spec.StartWrite(state);
    }

    method Send(m: M)
      requires Coupled() && Spec.SingleWriter(state)
      modifies this
      ensures state == Spec.Send(old(state), m)
      ensures Coupled()
    {
      var readySendNow := msgs == [] && readySend;
      msgs := msgs + [m];
      state := state.(msgs := state.msgs + [m], accepted := state.accepted + [m]);
      if readySendNow {
        AsyncSend();
        readySend := false;
        state := state.(ready := false);
      }
    }

    /** The outstanding write completes; the result is the error passed to `on_error_`. */
    method OnSend(code: Completion) returns (error: Completion)
      requires Coupled() && Spec.SingleWriter(state) && state.writing != []
      modifies this
      ensures (state, error) == Spec.OnSend(old(state), 0, code)
      ensures Coupled()
      ensures resource.cancelled ==> error == None && state.started == old(state.started) && msgs == old(msgs)
    {
      ghost var m := state.writing[0];
      state := state.(writing := state.writing[..0] + state.writing[1..]);
      if resource.cancelled {
        state := state.(lost := state.lost + [m]);
        return None;
      }
      if code.Some? {
        state := state.(lost := state.lost + [m]);
        return code;
      }
      state := state.(completed := state.completed + [m]);
      if msgs != [] {
        AsyncSend();
      } else {
        readySend := true;
        state := state.(ready := true);
      }
      error := None;
    }

    /** `deliver` says that the bytes read go to `on_receive_` before the read is armed again. */
    method OnReceive(code: Completion) returns (deliver: bool, error: Completion)
      requires Coupled() && state.reading > 0
      modifies this
      ensures (state, error) == Spec.OnReceive(old(state), code)
      ensures Coupled()
      ensures deliver == Spec.Accepts(old(state), code)
    {
      state := state.(reading := state.reading - 1);
      if resource.cancelled {
        return false, None;
      }
      if code.Some? {
        return false, code;
      }
      state := state.(reading := state.reading + 1);
      return true, None;
    }

    method Cancel()
      requires Coupled()
      modifies this`state, resource
      ensures state == Spec.Cancel(old(state))
      ensures Coupled() && resource.Value() == old(resource.Value()).Cancelled()
    {
      resource.Cancel();
      state := Spec.Cancel(state);
    }
  }
}
