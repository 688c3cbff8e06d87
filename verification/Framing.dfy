/** The framing of messages in a TCP byte stream, as pure functions (tcp_service.cpp). */
module Framing {
  import opened Wire
  import opened Sequences

  type Message = bytes

  /** `sizeof(size_hdr_t)`; the header is an `int32_t`. */
  const HEADER_SIZE: nat := 4

  /** Lengths that survive the conversion to `size_hdr_t`. */
  predicate Fits(m: Message) {
    |m| < TWO_31
  }

  /** The bytes of `size_hdr_t sz(size)`: a longer size is silently truncated. */
  function Header(size: nat): (h: bytes)
    ensures |h| == HEADER_SIZE
  {
    LittleEndian32(size % TWO_32)
  }

  /** The length announced by a buffer that starts with a header. */
  function Announced(b: bytes): (n: int)
    requires |b| >= HEADER_SIZE
    ensures -TWO_31 <= n < TWO_31
  {
    Signed32(Unsigned32(b))
  }

  lemma AnnouncedHeader(size: nat, more: bytes)
    ensures Announced(Header(size) + more) == ToInt32(size)
  {
    Unsigned32Prefix(Header(size), more);
  }

  /** The length announced by four bytes: little-endian, in two's complement. */
  lemma AnnouncedBytes(b: bytes)
    requires |b| >= 4
    ensures Announced(b) ==
              b[0] as int + 0x100 * b[1] as int + 0x1_0000 * b[2] as int + 0x100_0000 * b[3] as int
              - if b[3] >= 128 then 0x1_0000_0000 else 0
  {
  }

  /** A buffer that does not yet hold a whole frame; one announcing a negative length never will. */
  predicate Incomplete(b: bytes) {
    |b| < HEADER_SIZE || Announced(b) < 0 || |b| < HEADER_SIZE + Announced(b)
  }

  datatype Decoded = Decoded(messages: seq<Message>, rest: bytes)

  /** The complete messages at the front of a stream, and what is left over. */
  function Decode(stream: bytes): Decoded
    decreases |stream|
  {
    if Incomplete(stream) then
      Decoded([], stream)
    else
      var size := HEADER_SIZE + Announced(stream);
      var tail := Decode(stream[size..]);
      Decoded([stream[HEADER_SIZE..size]] + tail.messages, tail.rest)
  }

  lemma {:induction false} DecodeRestIncomplete(s: bytes)
    ensures Incomplete(Decode(s).rest)
    decreases |s|
  {
    if !Incomplete(s) {
      DecodeRestIncomplete(s[HEADER_SIZE + Announced(s)..]);
    }
  }

  lemma AnnouncedPrefix(a: bytes, b: bytes)
    requires |a| >= HEADER_SIZE
    ensures Announced(a + b) == Announced(a)
  {
    Unsigned32Prefix(a, b);
  }

  /** Exactly one frame of non-negative length. */
  predicate Whole(a: bytes) {
    |a| >= HEADER_SIZE && Announced(a) >= 0 && |a| == HEADER_SIZE + Announced(a)
  }

  /** A whole frame in front is decoded first, whatever follows it. */
  lemma DecodeFirst(a: bytes, b: bytes)
    requires Whole(a)
    ensures Decode(a + b) == Decoded([a[HEADER_SIZE..]] + Decode(b).messages, Decode(b).rest)
  {
    AnnouncedPrefix(a, b);
    assert (a + b)[|a|..] == b;
    assert (a + b)[HEADER_SIZE..|a|] == a[HEADER_SIZE..];
  }

  /** A decodable stream starts with a whole frame. */
  lemma SplitFirst(a: bytes) returns (front: bytes, tail: bytes)
    requires !Incomplete(a)
    ensures a == front + tail && Whole(front)
  {
    var size := HEADER_SIZE + Announced(a);
    front, tail := a[..size], a[size..];
    AnnouncedPrefix(front, tail);
  }

  /** More bytes after a partly decoded stream: decoding resumes from the left-over bytes alone. */
  function Feed(d: Decoded, chunk: bytes): Decoded {
    var e := Decode(d.rest + chunk);
    Decoded(d.messages + e.messages, e.rest)
  }

  lemma FeedAfterMessage(d: Decoded, m: Message, chunk: bytes)
    ensures Feed(Decoded([m] + d.messages, d.rest), chunk)
         == Decoded([m] + Feed(d, chunk).messages, Feed(d, chunk).rest)
  {
    var e := Decode(d.rest + chunk);
    assert ([m] + d.messages) + e.messages == [m] + (d.messages + e.messages);
  }

  /** Decoding a stream in two parts is decoding it at once. */
  lemma {:induction false} DecodeAppend(a: bytes, b: bytes)
    ensures Decode(a + b) == Feed(Decode(a), b)
    decreases |a|
  {
    if Incomplete(a) {
      assert Feed(Decoded([], a), b) == Decode(a + b);
    } else {
      var front, tail := SplitFirst(a);
      calc {
        Decode(a + b);
        { assert a + b == front + (tail + b); }
        Decode(front + (tail + b));
        { DecodeFirst(front, tail + b); }
        Decoded([front[HEADER_SIZE..]] + Decode(tail + b).messages, Decode(tail + b).rest);
        { DecodeAppend(tail, b); }
        Decoded([front[HEADER_SIZE..]] + Feed(Decode(tail), b).messages, Feed(Decode(tail), b).rest);
        { FeedAfterMessage(Decode(tail), front[HEADER_SIZE..], b); }
        Feed(Decoded([front[HEADER_SIZE..]] + Decode(tail).messages, Decode(tail).rest), b);
        { DecodeFirst(front, tail); }
        Feed(Decode(a), b);
      }
    }
  }

  function Frame(m: Message): bytes {
    Header(|m|) + m
  }

  /** The messages as they are queued: a header and a body each. */
  function Pieces(ms: seq<Message>): seq<bytes> {
    if ms == [] then []
    else var n := |ms| - 1; Pieces(ms[..n]) + [Header(|ms[n]|), ms[n]]
  }

  /** The byte stream that carries the messages. */
  function Frames(ms: seq<Message>): bytes {
    Concat(Pieces(ms))
  }

  lemma PiecesSnoc(ms: seq<Message>, m: Message)
    ensures Pieces(ms + [m]) == Pieces(ms) + [Header(|m|), m]
  {
    assert (ms + [m])[..|ms|] == ms;
  }

  lemma FramesSnoc(ms: seq<Message>, m: Message)
    ensures Frames(ms + [m]) == Frames(ms) + Frame(m)
  {
    PiecesSnoc(ms, m);
    ConcatSnoc(Pieces(ms), Header(|m|));
    ConcatSnoc(Pieces(ms) + [Header(|m|)], m);
    assert Pieces(ms + [m]) == Pieces(ms) + [Header(|m|)] + [m];
    assert Frames(ms) + Header(|m|) + m == Frames(ms) + Frame(m);
  }

  lemma DecodeFrame(m: Message)
    requires Fits(m)
    ensures Decode(Frame(m)) == Decoded([m], [])
  {
    AnnouncedHeader(|m|, m);
    DecodeFirst(Frame(m), []);
    assert Frame(m) + [] == Frame(m);
  }

  /** A frame is decoded to its message exactly when the length fits `int32_t`. */
  lemma FrameRoundTripExactly(m: Message)
    ensures Decode(Frame(m)) == Decoded([m], []) <==> Fits(m)
  {
    if Fits(m) {
      DecodeFrame(m);
    } else {
      AnnouncedHeader(|m|, m);
      if Announced(Frame(m)) >= 0 {
        assert |Decode(Frame(m)).messages[0]| == Announced(Frame(m)) < |m|;
      }
    }
  }

  /** A stream headed by a negative length yields no message, whatever follows. */
  lemma NegativeLengthWedges(s: bytes, more: bytes)
    requires |s| >= HEADER_SIZE && Announced(s) < 0
    ensures Decode(s + more) == Decoded([], s + more)
  {
    Unsigned32Prefix(s, more);
  }

  function Zeros(n: nat): (b: bytes)
    ensures |b| == n
  {
    seq(n, _ => 0)
  }

  /** With a zero as its highest byte a length is not negative. */
  lemma ZeroOnTop(b: bytes)
    requires |b| < HEADER_SIZE
    ensures Announced(b + Zeros(HEADER_SIZE - |b|)) >= 0
  {
    assert (b + Zeros(HEADER_SIZE - |b|))[3] == 0;
  }

  lemma CompletedByZeros(b: bytes)
    requires Incomplete(b) && |b| >= HEADER_SIZE && Announced(b) >= 0
    ensures Decode(b + Zeros(HEADER_SIZE + Announced(b) - |b|)).messages != []
  {
    Unsigned32Prefix(b, Zeros(HEADER_SIZE + Announced(b) - |b|));
  }

  /** A buffer that cannot be continued to a message is exactly one that announces a negative length. */
  lemma WedgedExactly(b: bytes)
    requires Incomplete(b)
    ensures (exists more :: Decode(b + more).messages != []) <==> !(|b| >= HEADER_SIZE && Announced(b) < 0)
  {
    if |b| >= HEADER_SIZE && Announced(b) < 0 {
      forall more ensures Decode(b + more).messages == [] {
        NegativeLengthWedges(b, more);
      }
    } else if |b| >= HEADER_SIZE {
      CompletedByZeros(b);
    } else {
      var pad := Zeros(HEADER_SIZE - |b|);
      ZeroOnTop(b);
      var tail := Zeros(Announced(b + pad));
      if Incomplete(b + pad) {
        CompletedByZeros(b + pad);
      } else {
        assert tail == [] && b + pad + tail == b + pad;
      }
      assert b + pad + tail == b + (pad + tail);
    }
  }

  /** Decoding inverts framing. */
  lemma {:induction false} DecodeFrames(ms: seq<Message>)
    requires forall m :: m in ms ==> Fits(m)
    ensures Decode(Frames(ms)) == Decoded(ms, [])
  {
    if ms != [] {
      var n := |ms| - 1;
      DecodeFrames(ms[..n]);
      assert ms[..n] + [ms[n]] == ms;
      FramesSnoc(ms[..n], ms[n]);
      DecodeAppend(Frames(ms[..n]), Frame(ms[n]));
      DecodeFrame(ms[n]);
      assert [] + Frame(ms[n]) == Frame(ms[n]);
    }
  }

  lemma {:induction false} PiecesCons(m: Message, ms: seq<Message>)
    ensures Pieces([m] + ms) == [Header(|m|), m] + Pieces(ms)
    decreases |ms|
  {
    if ms == [] {
      assert [m] + ms == [] + [m];
      PiecesSnoc([], m);
    } else {
      var n := |ms| - 1;
      assert ms == ms[..n] + [ms[n]] && [m] + ms == ([m] + ms[..n]) + [ms[n]];
      PiecesCons(m, ms[..n]);
      PiecesSnoc([m] + ms[..n], ms[n]);
    }
  }

  lemma FramesCons(m: Message, ms: seq<Message>)
    ensures Frames([m] + ms) == Frame(m) + Frames(ms)
  {
    PiecesCons(m, ms);
    ConcatAppend([Header(|m|), m], Pieces(ms));
    ConcatSnoc([Header(|m|)], m);
    ConcatSnoc([], Header(|m|));
    assert [] + [Header(|m|)] == [Header(|m|)] && [Header(|m|)] + [m] == [Header(|m|), m];
  }

  /** A whole frame in a buffer is the frame of its body. */
  lemma WholeIsFrame(a: bytes)
    requires Whole(a)
    ensures Fits(a[HEADER_SIZE..]) && a == Frame(a[HEADER_SIZE..])
  {
    var head, body := a[..HEADER_SIZE], a[HEADER_SIZE..];
    assert a == head + body;
    AnnouncedPrefix(head, body);
    HeaderOf(head);
  }

  /** Four bytes that announce a length are the header of that length. */
  lemma HeaderOf(head: bytes)
    requires |head| == HEADER_SIZE && Announced(head) >= 0
    ensures Announced(head) < TWO_31 && Header(Announced(head)) == head
  {
    LittleEndian32Injective(head);
  }

  /** Decoding loses nothing of any stream: the frames of the messages, and then what is left over. */
  lemma {:induction false} DecodeSplits(s: bytes)
    ensures s == Frames(Decode(s).messages) + Decode(s).rest
    ensures forall m :: m in Decode(s).messages ==> Fits(m)
    decreases |s|
  {
    if Incomplete(s) {
      assert Frames([]) == [];
    } else {
      var front, tail := SplitFirst(s);
      DecodeSplits(tail);
      DecodeFirst(front, tail);
      WholeIsFrame(front);
      FramesCons(front[HEADER_SIZE..], Decode(tail).messages);
      Regroup(front, Frames(Decode(tail).messages), Decode(tail).rest);
    }
  }

  /**
   What the decoding of any stream is, without reference to how it is computed: the one way in which
   the stream is frames, of messages that fit, followed by less than a frame.
   */
  lemma DecodeExactly(s: bytes, ms: seq<Message>, rest: bytes)
    ensures Decode(s) == Decoded(ms, rest) <==>
              s == Frames(ms) + rest && Incomplete(rest) && forall m :: m in ms ==> Fits(m)
  {
    DecodeSplits(s);
    DecodeRestIncomplete(s);
    if s == Frames(ms) + rest && Incomplete(rest) && forall m :: m in ms ==> Fits(m) {
      DecodeFrames(ms);
      DecodeAppend(Frames(ms), rest);
      assert [] + rest == rest && ms + [] == ms;
    }
  }

  /** A proper prefix of a frame is incomplete. */
  lemma FramePrefixIncomplete(m: Message, p: bytes)
    requires Fits(m) && p <= Frame(m) && p != Frame(m)
    ensures Incomplete(p)
  {
    if |p| >= HEADER_SIZE {
      var more := Frame(m)[|p|..];
      assert p + more == Frame(m);
      Unsigned32Prefix(p, more);
      AnnouncedHeader(|m|, m);
    }
  }

  /** All frames whole but the last. */
  lemma DecodeIntoLast(ms: seq<Message>, last: Message, q: bytes)
    requires (forall m :: m in ms ==> Fits(m)) && Fits(last)
    requires q <= Frame(last)
    ensures Decode(Frames(ms) + q) == if q == Frame(last) then Decoded(ms + [last], []) else Decoded(ms, q)
  {
    DecodeFrames(ms);
    DecodeAppend(Frames(ms), q);
    assert [] + q == q;
    if q == Frame(last) {
      DecodeFrame(last);
    } else {
      FramePrefixIncomplete(last, q);
    }
  }

  /**
   Cut a stream of frames anywhere: what decodes is the longest list of messages that arrived
   whole, and the rest is a proper prefix of the next frame.
   */
  lemma {:induction false} DecodePrefix(ms: seq<Message>, p: bytes) returns (k: nat)
    requires forall m :: m in ms ==> Fits(m)
    requires p <= Frames(ms)
    ensures k <= |ms|
    ensures Decode(p).messages == ms[..k]
    ensures p == Frames(ms[..k]) + Decode(p).rest
    ensures k == |ms| ==> Decode(p).rest == []
    ensures k < |ms| ==> Decode(p).rest <= Frame(ms[k]) && Decode(p).rest != Frame(ms[k])
  {
    if ms == [] {
      k := 0;
    } else {
      var n := |ms| - 1;
      var front := Frames(ms[..n]);
      assert ms[..n] + [ms[n]] == ms;
      FramesSnoc(ms[..n], ms[n]);
      if |p| < |front| {
        assert p <= front by {
          assert p == Frames(ms)[..|p|] == front[..|p|];
        }
        k := DecodePrefix(ms[..n], p);
        assert ms[..n][..k] == ms[..k] && ms[..n][k] == ms[k];
      } else {
        k := DecodePrefixIntoLast(ms[..n], ms[n], p);
      }
    }
  }

  lemma DecodePrefixIntoLast(ms: seq<Message>, last: Message, p: bytes) returns (k: nat)
    requires (forall m :: m in ms ==> Fits(m)) && Fits(last)
    requires |p| >= |Frames(ms)| && p <= Frames(ms) + Frame(last)
    ensures |ms| <= k <= |ms| + 1
    ensures Decode(p).messages == (ms + [last])[..k]
    ensures p == Frames((ms + [last])[..k]) + Decode(p).rest
    ensures k == |ms| + 1 ==> Decode(p).rest == []
    ensures k == |ms| ==> Decode(p).rest <= Frame(last) && Decode(p).rest != Frame(last)
  {
    var q := p[|Frames(ms)|..];
    assert p == Frames(ms) + q && q <= Frame(last);
    DecodeIntoLast(ms, last, q);
    if q == Frame(last) {
      k := |ms| + 1;
      FramesSnoc(ms, last);
      assert (ms + [last])[..k] == ms + [last];
      assert p + [] == p;
    } else {
      k := |ms|;
      assert (ms + [last])[..k] == ms;
    }
  }
}
