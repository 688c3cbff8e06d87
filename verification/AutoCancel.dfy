/** The cancellation discipline (auto_cancel.h). */
module AutoCancel {

  /**
   The value of an `enable_cancel_resource`: its flag, whether it still holds the resource, and how
   often it cancelled it.
   */
  datatype Handle = Handle(cancelled: bool, attached: bool, resourceCancels: nat) {

    function Cancelled(): Handle {
      Handle(true, attached, if attached then resourceCancels + 1 else resourceCancels)
    }

    function Detached(): Handle {
      this.(attached := false)
    }
  }

  const FRESH_HANDLE := Handle(false, true, 0)

  class EnableCancelResource {
    var cancelled: bool
    var attached: bool
    ghost var resourceCancels: nat

    ghost function Value(): Handle
      reads this
    {
      Handle(cancelled, attached, resourceCancels)
    }

    constructor ()
      ensures Value() == FRESH_HANDLE
    {
      cancelled, attached, resourceCancels := false, true, 0;
    }

    method Cancel()
      modifies this
      ensures Value() == old(Value()).Cancelled()
    {
      cancelled := true;
      if attached {
        resourceCancels := resourceCancels + 1;
      }
    }

    method DetachResource()
      modifies this
      ensures Value() == old(Value()).Detached()
    {
      attached := false;
    }
  }

  /** `auto_cancel_ptr`: what it lets go of is cancelled first. Its destructor is `Reset(null)`. */
  class AutoCancelPtr {
    var ptr: EnableCancelResource?

    constructor (initial: EnableCancelResource?)
      ensures ptr == initial
    {
      ptr := initial;
    }

    method Reset(next: EnableCancelResource?)
      modifies this, ptr
      ensures ptr == next
      ensures old(ptr) != null ==> old(ptr).Value() == old(ptr.Value()).Cancelled()
    {
      if ptr != null {
        ptr.Cancel();
      }
      ptr := next;
    }
  }
}
