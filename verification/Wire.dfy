/** Bytes, little-endian integers and the 6-byte binary form of an endpoint (net_common.h). */
module Wire {

  type byte = x: int | 0 <= x < 256
  type bytes = seq<byte>

  const TWO_31: int := 0x8000_0000
  const TWO_32: int := 0x1_0000_0000
  const TWO_63: int := 0x8000_0000_0000_0000
  const TWO_64: int := 0x1_0000_0000_0000_0000

  function LittleEndian16(n: nat): (b: bytes)
    requires n < 0x1_0000
    ensures |b| == 2 && Unsigned16(b) == n
  {
    [n % 256, n / 256]
  }

  function Unsigned16(b: bytes): (n: nat)
    requires |b| >= 2
    ensures n < 0x1_0000
  {
    var lo: int, hi: int := b[0], b[1];
    lo + 256 * hi
  }

  function LittleEndian32(n: nat): (b: bytes)
    requires n < TWO_32
    ensures |b| == 4 && Unsigned32(b) == n
  {
    LittleEndian16(n % 0x1_0000) + LittleEndian16(n / 0x1_0000)
  }

  /** The four bytes, the lowest first. */
  lemma LittleEndian32Bytes(n: nat)
    requires n < TWO_32
    ensures LittleEndian32(n) == [n % 0x100, n / 0x100 % 0x100, n / 0x1_0000 % 0x100, n / 0x100_0000]
  {
    var lo, hi := n % 0x1_0000, n / 0x1_0000;
    var l0, l1, h0, h1 := lo % 0x100, lo / 0x100, hi % 0x100, hi / 0x100;
    LowByte(0x100 * hi + l1, l0);
    LowByte(hi, l1);
    HighByte(h1, lo + 0x1_0000 * h0);
  }

  lemma LowByte(x: nat, low: nat)
    requires low < 0x100
    ensures (0x100 * x + low) % 0x100 == low && (0x100 * x + low) / 0x100 == x
  {
  }

  lemma HighByte(x: nat, low: nat)
    requires low < 0x100_0000
    ensures (0x100_0000 * x + low) / 0x100_0000 == x
  {
  }

  function Unsigned32(b: bytes): (n: nat)
    requires |b| >= 4
    ensures n < TWO_32
  {
    var b0: int, b1: int, b2: int, b3: int := b[0], b[1], b[2], b[3];
    b0 + 0x100 * b1 + 0x1_0000 * b2 + 0x100_0000 * b3
  }

  /** The two's complement reading of 32 bits. */
  function Signed32(n: nat): int
    requires n < TWO_32
  {
    if n < TWO_31 then n else n - TWO_32
  }

  /** The conversion of an unsigned value to `int32_t`: its low 32 bits in two's complement. */
  function ToInt32(n: nat): int {
    Signed32(n % TWO_32)
  }

  /** Only the bytes that are read matter. */
  lemma Unsigned32Prefix(b: bytes, more: bytes)
    requires |b| >= 4
    ensures Unsigned32(b + more) == Unsigned32(b)
  {
  }

  lemma LittleEndian32Injective(b: bytes)
    requires |b| == 4
    ensures LittleEndian32(Unsigned32(b)) == b
  {
    var lo, hi := Unsigned16(b), Unsigned16(b[2..]);
    HalvesOf(lo, hi);
    assert Unsigned32(b) == lo + 0x1_0000 * hi;
    assert LittleEndian16(lo) == b[..2] && LittleEndian16(hi) == b[2..];
    assert b[..2] + b[2..] == b;
  }

  lemma HalvesOf(lo: nat, hi: nat)
    requires lo < 0x1_0000
    ensures (lo + 0x1_0000 * hi) % 0x1_0000 == lo && (lo + 0x1_0000 * hi) / 0x1_0000 == hi
  {
  }

  /** An IPv4 endpoint; `port` is a `size_t`, wider than its 16 bits on the wire. */
  datatype Endpoint = Endpoint(addr: nat, port: nat) {
    predicate Valid() {
      addr < TWO_32
    }

    /** What a UDP socket uses of the endpoint. */
    function Narrowed(): Endpoint {
      Endpoint(addr, port % 0x1_0000)
    }
  }

  const ENDPOINT_SIZE: nat := 6

  function Serialize(point: Endpoint): (b: bytes)
    requires point.Valid()
    ensures |b| == ENDPOINT_SIZE
  {
    LittleEndian32(point.addr) + LittleEndian16(point.port % 0x1_0000)
  }

  function ParseEndpoint(b: bytes): (point: Endpoint)
    requires |b| >= ENDPOINT_SIZE
    ensures point.Valid() && point.port < 0x1_0000
  {
    Endpoint(Unsigned32(b), Unsigned16(b[4..]))
  }

  /** Reading back what was written, whatever follows it, gives the endpoint with its port narrowed to 16 bits. */
  lemma SerializeRoundTrip(point: Endpoint, more: bytes)
    requires point.Valid()
    ensures ParseEndpoint(Serialize(point) + more) == point.Narrowed()
  {
    var a, p := LittleEndian32(point.addr), LittleEndian16(point.port % 0x1_0000);
    assert Serialize(point) + more == a + (p + more);
    Unsigned32Prefix(a, p + more);
    assert (Serialize(point) + more)[4..] == p + more;
  }

  lemma ParsedFrom(addr: bytes, port: bytes)
    requires |addr| == 4 && |port| == 2
    ensures ParseEndpoint(addr + port) == Endpoint(Unsigned32(addr), Unsigned16(port))
  {
    Unsigned32Prefix(addr, port);
    assert (addr + port)[4..] == port;
  }

  lemma SerializedTo(addr: bytes, port: bytes)
    requires |addr| == 4 && |port| == 2
    ensures Serialize(Endpoint(Unsigned32(addr), Unsigned16(port))) == addr + port
  {
    LittleEndian32Injective(addr);
    LittleEndian16Injective(port);
  }

  /** Every six bytes are the form of exactly one endpoint with a 16-bit port. */
  lemma ParseRoundTrip(b: bytes)
    requires |b| == ENDPOINT_SIZE
    ensures Serialize(ParseEndpoint(b)) == b
  {
    ParsedFrom(b[..4], b[4..]);
    SerializedTo(b[..4], b[4..]);
    assert b[..4] + b[4..] == b;
  }

  lemma LittleEndian16Injective(b: bytes)
    requires |b| == 2
    ensures LittleEndian16(Unsigned16(b)) == b
  {
  }
}
