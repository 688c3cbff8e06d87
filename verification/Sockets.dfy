/**
 One end of a TCP connection: the fragment wrapper over its transport, with the error
 classification of `tcp_socket` (tcp_service.cpp). `End` is its state machine,
 `FragmentWrapper` the object.
 */
module Sockets {
  import opened Options
  import opened AutoCancel
  import opened Errors
  import opened Wire
  import opened Sequences
  import opened Framing
  import T = TransportSpec
  import UnderlyingTransport

  /**
   The program's fields are those of `tx` and `partial`. The rest is history: what passed, and how
   often an error was only reported or raised `on_disconnected`.
   */
  datatype End = End(tx: T.Transport<bytes>, partial: bytes, past: Past, reports: nat, disconnects: nat)

  /**
   How many messages its owner had been asked to send before the end was made; the bytes read, the
   messages handed to `on_receive_` and the messages passed to `send` since.
   */
  datatype Past = Past(born: nat, consumed: bytes, delivered: seq<Message>, sent: seq<Message>)

  function FreshEnd(born: nat): End {
    End(T.Fresh(), [], Past(born, [], [], []), 0, 0)
  }

  /** Header and body are queued as two messages. */
  function SendMessage(e: End, m: Message): End {
    e.(tx := T.Send(T.Send(e.tx, Header(|m|)), m), past := e.past.(sent := e.past.sent + [m]))
  }

  /** A chunk was read. */
  function Receive(e: End, chunk: bytes): End
    requires e.tx.reading > 0
  {
    var e' := e.(tx := T.OnReceive(e.tx, None).0);
    if T.Accepts(e.tx, None) then
      var d := Decode(e.partial + chunk);
      e'.(partial := d.rest,
          past := e.past.(consumed := e.past.consumed + chunk, delivered := e.past.delivered + d.messages))
    else
      e'
  }

  /** The messages an end delivered in a step. */
  function NewlyDelivered(e: End, e': End): seq<Message> {
    if |e.past.delivered| <= |e'.past.delivered| then e'.past.delivered[|e.past.delivered|..] else []
  }

  /** `tcp_socket::impl::on_error`, and whether it raised `on_disconnected`. */
  function Raise(e: End, error: Completion): (End, bool) {
    if error.None? then (e, false)
    else if IsDisconnect(error.value) then (e.(disconnects := e.disconnects + 1), true)
    else (e.(reports := e.reports + 1), false)
  }

  function ReadFailed(e: End, code: ErrorCode): (End, bool)
    requires e.tx.reading > 0
  {
    var (tx, error) := T.OnReceive(e.tx, Some(code));
    Raise(e.(tx := tx), error)
  }

  function WriteDone(e: End, n: nat, code: Completion): (End, bool)
    requires n < |e.tx.writing|
  {
    var (tx, error) := T.OnSend(e.tx, n, code);
    Raise(e.(tx := tx), error)
  }

  /** Destroying the wrapper cancels its transport. */
  function Closed(e: End): End {
    e.(tx := T.Cancel(e.tx))
  }

  /** The bytes whose writing was started: what TCP may deliver to the peer. */
  function Stream(e: End): bytes {
    Concat(e.tx.started)
  }

  /** The same for a connection whose end may not exist: nothing was written, read or sent there. */
  function StreamOf(o: Option<End>): bytes {
    if o.Some? then Stream(o.value) else []
  }

  function ConsumedOf(o: Option<End>): bytes {
    if o.Some? then o.value.past.consumed else []
  }

  function BornOf(o: Option<End>): nat {
    if o.Some? then o.value.past.born else 0
  }

  function SentOf(o: Option<End>): seq<Message> {
    if o.Some? then o.value.past.sent else []
  }

  function DeliveredOf(o: Option<End>): seq<Message> {
    if o.Some? then o.value.past.delivered else []
  }

  /** How a step of its owner may change an end: its stream grows, and it consumes at most `chunk`. */
  predicate Evolves(o: Option<End>, o': Option<End>, chunk: bytes) {
    && StreamOf(o) <= StreamOf(o')
    && (ConsumedOf(o') == ConsumedOf(o) || ConsumedOf(o') == ConsumedOf(o) + chunk)
  }

  /** Nothing happens at an end but that operations complete that were outstanding. */
  predicate OnlySettles(e: End, e': End) {
    e' == e.(tx := e.tx.(writing := e'.tx.writing, reading := e'.tx.reading, lost := e'.tx.lost))
  }

  lemma EvolvesThenQuietly(o: Option<End>, o': Option<End>, o'': Option<End>, chunk: bytes)
    requires Evolves(o, o', chunk) && Evolves(o', o'', [])
    ensures Evolves(o, o'', chunk)
  {
    assert ConsumedOf(o') + [] == ConsumedOf(o');
  }

  /**
   The transport's invariant; the queue holds the framed messages; what was delivered, and the
   buffer, are the decoding of what was read; and every loop that has ended was one error, unless
   the wrapper is destroyed, which silences it.
   */
  predicate EndInv(e: End) {
    && T.Inv(e.tx)
    && e.tx.accepted == Pieces(e.past.sent)
    && Decode(e.past.consumed) == Decoded(e.past.delivered, e.partial)
    && e.reports + e.disconnects <= 1 - e.tx.reading + |e.tx.lost|
    && (!e.tx.handle.cancelled ==> e.reports + e.disconnects == 1 - e.tx.reading + |e.tx.lost|)
  }

  /** Nothing was sent, read, delivered or reported yet. */
  predicate IsNew(e: End, born: nat) {
    && e.tx == T.Fresh() && e.past.born == born
    && |e.partial| == |e.past.consumed| == |e.past.delivered| == |e.past.sent| == e.reports == e.disconnects == 0
  }

  lemma FreshEndInv(e: End, born: nat)
    requires IsNew(e, born)
    ensures EndInv(e)
  {
  }

  lemma ConcatMonotone(a: seq<bytes>, b: seq<bytes>)
    requires a <= b
    ensures Concat(a) <= Concat(b)
  {
    assert b == a + b[|a|..];
    ConcatAppend(a, b[|a|..]);
  }

  lemma SendMessageKeeps(e: End, m: Message)
    requires EndInv(e)
    ensures EndInv(SendMessage(e, m)) && Stream(e) <= Stream(SendMessage(e, m))
  {
    var e' := SendMessage(e, m);
    T.SendKeeps(e.tx, Header(|m|));
    T.SendKeeps(T.Send(e.tx, Header(|m|)), m);
    PiecesSnoc(e.past.sent, m);
    assert e.tx.accepted + [Header(|m|)] + [m] == Pieces(e.past.sent) + [Header(|m|), m];
    ConcatMonotone(e.tx.started, e'.tx.started);
  }

  lemma ReceiveKeeps(e: End, chunk: bytes)
    requires EndInv(e) && e.tx.reading > 0
    ensures EndInv(Receive(e, chunk)) && Stream(e) == Stream(Receive(e, chunk))
    ensures Receive(e, chunk).past.delivered == e.past.delivered + NewlyDelivered(e, Receive(e, chunk))
  {
    DecodeAppend(e.past.consumed, chunk);
  }

  /** Raising an error touches only the counts of errors. */
  lemma RaiseKeeps(e: End, error: Completion)
    ensures var (e', up) := Raise(e, error);
            && e' == e.(reports := e'.reports, disconnects := e'.disconnects)
            && e'.reports + e'.disconnects == e.reports + e.disconnects + (if error.Some? then 1 else 0)
            && e'.disconnects == e.disconnects + (if up then 1 else 0)
  {
  }

  /** A disconnect is raised exactly by an error that is classified as one, unless the wrapper was destroyed. */
  lemma ReadRaisesExactly(e: End, code: ErrorCode)
    requires e.tx.reading > 0
    ensures ReadFailed(e, code).1 <==> !e.tx.handle.cancelled && IsDisconnect(code)
  {
  }

  lemma WriteRaisesExactly(e: End, n: nat, code: Completion)
    requires n < |e.tx.writing|
    ensures WriteDone(e, n, code).1 <==> !e.tx.handle.cancelled && code.Some? && IsDisconnect(code.value)
  {
  }

  lemma ReadFailedKeeps(e: End, code: ErrorCode)
    requires EndInv(e) && e.tx.reading > 0
    ensures EndInv(ReadFailed(e, code).0) && Stream(e) == Stream(ReadFailed(e, code).0)
  {
    var (tx, error) := T.OnReceive(e.tx, Some(code));
    assert tx.started == e.tx.started;
    RaiseKeeps(e.(tx := tx), error);
  }

  lemma WriteDoneKeeps(e: End, n: nat, code: Completion)
    requires EndInv(e) && n < |e.tx.writing|
    ensures EndInv(WriteDone(e, n, code).0) && Stream(e) <= Stream(WriteDone(e, n, code).0)
  {
    T.OnSendKeeps(e.tx, n, code);
    var (tx, error) := T.OnSend(e.tx, n, code);
    ConcatMonotone(e.tx.started, tx.started);
    RaiseKeeps(e.(tx := tx), error);
  }

  /** What was put on the wire is the front of the framed messages, and all of them once the queue is empty. */
  lemma StreamOfFrames(e: End)
    requires EndInv(e)
    ensures Stream(e) <= Frames(e.past.sent)
    ensures e.tx.msgs == [] ==> Stream(e) == Frames(e.past.sent)
  {
    ConcatMonotone(e.tx.started, e.tx.accepted);
    if e.tx.msgs == [] {
      assert e.tx.started + [] == e.tx.started;
    }
  }

  /**
   The connection theorem. However writes, cuts and chunks fall, what the receiving end delivered
   is a prefix of what the sending end was given; it is all of it once the sender's queue is empty
   and every byte was read.
   */
  lemma Delivery(sender: End, receiver: End)
    requires EndInv(sender) && EndInv(receiver)
    requires receiver.past.consumed <= Stream(sender)
    requires forall m :: m in sender.past.sent ==> Fits(m)
    ensures receiver.past.delivered <= sender.past.sent
    ensures sender.tx.msgs == [] && receiver.past.consumed == Stream(sender) ==>
              receiver.past.delivered == sender.past.sent && receiver.partial == []
  {
    StreamOfFrames(sender);
    var k := DecodePrefix(sender.past.sent, receiver.past.consumed);
    if sender.tx.msgs == [] && receiver.past.consumed == Stream(sender) {
      DecodeFrames(sender.past.sent);
    }
  }

  /** Chunks handed to `on_receive` one after another. */
  function FeedAll(d: Decoded, chunks: seq<bytes>): Decoded {
    if chunks == [] then d else Feed(FeedAll(d, chunks[..|chunks| - 1]), chunks[|chunks| - 1])
  }

  /** How a stream is cut into chunks does not matter, for any stream whatever. */
  lemma {:induction false} ChunkingIndependence(chunks: seq<bytes>)
    ensures FeedAll(Decoded([], []), chunks) == Decode(Concat(chunks))
  {
    if chunks != [] {
      var n := |chunks| - 1;
      ChunkingIndependence(chunks[..n]);
      DecodeAppend(Concat(chunks[..n]), chunks[n]);
    }
  }

  /**
   `sizeof(size_hdr_t) + sz - partial_msg_.size()` in `size_t` arithmetic: with a whole header in
   the buffer, what is missing of the frame; for a negative length, more than can ever arrive.
   */
  function Missing(partial: bytes): nat
    requires |partial| >= HEADER_SIZE
  {
    (HEADER_SIZE + Announced(partial) - |partial|) % TWO_64
  }

  /** The subtraction does not wrap for a length that is not negative, and says when the frame is whole. */
  lemma MissingBytes(partial: bytes, more: bytes)
    requires |partial| >= HEADER_SIZE && |partial| + |more| < TWO_63
    requires Incomplete(partial) || |partial| == HEADER_SIZE
    ensures Announced(partial) >= 0 ==> Missing(partial) == HEADER_SIZE + Announced(partial) - |partial|
    ensures Announced(partial) < 0 ==> Missing(partial) > |more|
    ensures |more| < Missing(partial) ==> Incomplete(partial + more)
    ensures |more| == Missing(partial) ==> Whole(partial + more) && |partial + more| == HEADER_SIZE + Announced(partial)
  {
    AnnouncedPrefix(partial, more);
  }

  /** A whole frame in the buffer becomes a message, and the buffer starts over. */
  lemma DeliverStep(messages: seq<Message>, partial: bytes, sz: nat, tail: bytes)
    requires Whole(partial) && |partial| == HEADER_SIZE + sz
    ensures Feed(Decoded(messages, partial), tail)
         == Feed(Decoded(messages + [partial[HEADER_SIZE..HEADER_SIZE + sz]], []), tail)
  {
    var m := partial[HEADER_SIZE..];
    assert partial[HEADER_SIZE..HEADER_SIZE + sz] == m;
    DecodeFirst(partial, tail);
    FeedNext(messages, m, partial, tail);
  }

  lemma FeedNext(messages: seq<Message>, m: Message, partial: bytes, tail: bytes)
    requires Decode(partial + tail) == Decoded([m] + Decode(tail).messages, Decode(tail).rest)
    ensures Feed(Decoded(messages, partial), tail) == Feed(Decoded(messages + [m], []), tail)
  {
    assert [] + tail == tail;
    Regroup(messages, [m], Decode(tail).messages);
  }

  class FragmentWrapper {
    const transport: UnderlyingTransport.Transport<bytes>
    const peer: string  // the client bound to the disconnect callback
    var partialMsg: bytes

    const index: nat  // its place among the connections of its peer
    ghost var state: End

    /** The fields agree with the state. */
    ghost predicate Coupled()
      reads this, transport, transport.resource
    {
      transport.Coupled() && state.tx == transport.state && state.partial == partialMsg
    }

    constructor (peer: string, index: nat, ghost born: nat)
      ensures Coupled() && fresh(transport) && fresh(transport.resource)
      ensures state == FreshEnd(born) && this.peer == peer && this.index == index
    {
      this.peer, this.index := peer, index;
      transport := new UnderlyingTransport.Transport<bytes>();
      partialMsg := [];
      state := FreshEnd(born);
    }

    method Send(data: Message)
      requires Coupled() && T.SingleWriter(state.tx)
      modifies this, transport
      ensures state == SendMessage(old(state), data)
      ensures Coupled()
    {
      transport.Send(Header(|data|));
      transport.Send(data);
      state := SendMessage(state, data);
    }

    /**
     Moves at most `toFill` of the `received` bytes at `pos` into the buffer; says whether that
     filled it. The pointer and the count advance together.
     */
    method FillBuffer(toFill: nat, data: bytes, pos: nat, received: nat)
      returns (filled: bool, pos': nat, received': nat)
      requires pos + received == |data|
      modifies this`partialMsg
      ensures pos <= pos' && pos' + received' == |data|
      ensures pos' - pos == if toFill <= received then toFill else received
      ensures partialMsg == old(partialMsg) + data[pos..pos']
      ensures partialMsg + data[pos'..] == old(partialMsg) + data[pos..]
      ensures filled <==> toFill <= received
    {
      var offset := if toFill <= received then toFill else received;
      partialMsg := partialMsg + data[pos..pos + offset];
      pos', received' := pos + offset, received - offset;
      filled := toFill == offset;
      assert data[pos..] == data[pos..pos'] + data[pos'..];
    }

    /** The messages completed by a chunk, in the order in which they are handed to `on_receive_`. */
    method OnReceive(data: bytes) returns (messages: seq<Message>)
      requires Incomplete(partialMsg)
      requires |partialMsg| + |data| < TWO_63  // the most a vector can hold
      modifies this`partialMsg
      ensures Decode(old(partialMsg) + data) == Decoded(messages, partialMsg)
    {
      var pos: nat, size: nat := 0, |data|;
      messages := [];
      assert data[0..] == data;
      while size > 0
        invariant pos + size == |data|
        invariant Incomplete(partialMsg) && |partialMsg| + size < TWO_63
        invariant Decode(old(partialMsg) + data) == Feed(Decoded(messages, partialMsg), data[pos..])
        decreases size
      {
        var readingSize := |partialMsg| < HEADER_SIZE;
        if readingSize {
          var filled;
          filled, pos, size := FillBuffer(HEADER_SIZE - |partialMsg|, data, pos, size);
          readingSize := !filled;
        }
        if !readingSize {
          var sz := Announced(partialMsg);
          ghost var before, from := partialMsg, pos;
          var filled;
          filled, pos, size := FillBuffer(Missing(partialMsg), data, pos, size);
          MissingBytes(before, data[from..pos]);
          if filled {
            DeliverStep(messages, partialMsg, sz, data[pos..]);
            messages := messages + [partialMsg[HEADER_SIZE..HEADER_SIZE + sz]];
            partialMsg := [];
          }
        }
      }
    }

    /** `tcp_socket::impl::on_error`. */
    method OnError(error: Completion) returns (disconnected: bool)
      modifies this`state
      ensures (state, disconnected) == Raise(old(state), error)
      ensures disconnected <==>
                error in {Some(ErrorCode(MiscCategory, 2)), Some(ErrorCode(SystemCategory, 104)),
                          Some(ErrorCode(SystemCategory, 32))}
    {
      disconnected := false;
      if error.Some? {
        if IsDisconnect(error.value) {
          state := state.(disconnects := state.disconnects + 1);
          disconnected := true;
        } else {
          state := state.(reports := state.reports + 1);
        }
      }
    }

    /** A read completes with a chunk. */
    method OnReadDone(chunk: bytes) returns (messages: seq<Message>)
      requires Coupled() && state.tx.reading > 0
      requires Incomplete(partialMsg) && |partialMsg| + |chunk| < TWO_63
      modifies this, transport
      ensures state == Receive(old(state), chunk)
      ensures Coupled()
      ensures messages == NewlyDelivered(old(state), state)
    {
      var deliver, _ := transport.OnReceive(None);
      messages := [];
      if deliver {
        messages := OnReceive(chunk);
      }
      state := Receive(state, chunk);
    }

    method OnReadFailed(code: ErrorCode) returns (disconnected: bool)
      requires Coupled() && state.tx.reading > 0
      modifies this, transport
      ensures (state, disconnected) == ReadFailed(old(state), code)
      ensures Coupled()
    {
      var _, error := transport.OnReceive(Some(code));
      state := state.(tx := T.OnReceive(state.tx, Some(code)).0);
      disconnected := OnError(error);
    }

    method OnWriteDone(code: Completion) returns (disconnected: bool)
      requires Coupled() && T.SingleWriter(state.tx) && state.tx.writing != []
      modifies this, transport
      ensures (state, disconnected) == WriteDone(old(state), 0, code)
      ensures Coupled()
    {
      var error := transport.OnSend(code);
      state := state.(tx := T.OnSend(state.tx, 0, code).0);
      disconnected := OnError(error);
    }

    /** The destructor: the `auto_cancel_ptr` to the transport is reset. */
    method Close()
      requires Coupled()
      modifies this`state, transport`state, transport.resource
      ensures state == Closed(old(state))
      ensures Coupled() && transport.resource.Value() == old(transport.resource.Value()).Cancelled()
    {
      transport.Cancel();
      state := Closed(state);
    }
  }

  /** No two wrappers share an object or a place; `ts` and `rs` hold their objects. */
  ghost predicate Apart(ws: set<FragmentWrapper>, ts: set<UnderlyingTransport.Transport<bytes>>,
                        rs: set<EnableCancelResource>)
  {
    && (forall w, v :: w in ws && v in ws && w != v ==>
          && w.transport != v.transport && w.transport.resource != v.transport.resource
          && (w.peer != v.peer || w.index != v.index))
    && (forall w :: w in ws ==> w.transport in ts && w.transport.resource in rs)
  }

  lemma ApartPlus(ws: set<FragmentWrapper>, ts: set<UnderlyingTransport.Transport<bytes>>,
                  rs: set<EnableCancelResource>, w: FragmentWrapper)
    requires Apart(ws, ts, rs) && w !in ws && w.transport !in ts && w.transport.resource !in rs
    requires forall v :: v in ws ==> v.peer != w.peer || v.index != w.index
    ensures Apart(ws + {w}, ts + {w.transport}, rs + {w.transport.resource})
  {
  }
}
