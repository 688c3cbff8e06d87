/** The ICMP header and its Internet checksum (icmp_header.h; section 1 of RFC 1071, the Echo message of RFC 792). */
module IcmpChecksum {
  import opened Sequences
  import opened Wire

  // ----- one's complement sums -----

  /** The bytes as 16-bit words in network order; an odd last byte is padded with zero. */
  function Words(b: bytes): seq<nat> {
    if b == [] then []
    else if |b| == 1 then [0x100 * b[0] as nat]
    else [0x100 * b[0] as nat + b[1] as nat] + Words(b[2..])
  }

  /** The `k`-th word: two bytes, the first one higher; after an odd last byte a zero. */
  lemma {:induction false} WordAt(b: bytes, k: nat)
    requires 2 * k < |b|
    ensures |Words(b)| == (|b| + 1) / 2
    ensures Words(b)[k] == 0x100 * b[2 * k] as nat + if 2 * k + 1 < |b| then b[2 * k + 1] as nat else 0
    decreases |b|
  {
    if |b| > 2 {
      WordAt(b[2..], if k == 0 then 0 else k - 1);
    }
  }

  function Sum(ws: seq<nat>): nat {
    if ws == [] then 0 else ws[0] + Sum(ws[1..])
  }

  function SumOf(b: bytes): nat {
    Sum(Words(b))
  }

  lemma SumStep(b: bytes)
    ensures SumOf([]) == 0
    ensures |b| == 1 ==> SumOf(b) == 0x100 * b[0] as nat
    ensures |b| >= 2 ==> SumOf(b) == 0x100 * b[0] as nat + b[1] as nat + SumOf(b[2..])
  {
    if |b| >= 2 {
      assert Words(b)[1..] == Words(b[2..]);
    } else if |b| == 1 {
      assert Words(b)[1..] == [];
    }
  }

  /** End-around carry, repeated until 16 bits are left: the one's complement sum of words that add up to `n`. */
  function Fold(n: nat): nat {
    if n < 0x1_0000 then n else Fold(n / 0x1_0000 + n % 0x1_0000)
  }

  /** The fixpoint is the 16-bit representative modulo 65535, and zero only for zero. */
  lemma {:induction false} FoldIsResidue(n: nat)
    ensures Fold(n) == if n == 0 then 0 else 1 + (n - 1) % 0xFFFF
    decreases n
  {
    if n >= 0x1_0000 {
      var q, r := n / 0x1_0000, n % 0x1_0000;
      FoldIsResidue(q + r);
      assert n - 1 == 0xFFFF * q + (q + r - 1);
      ResidueShift(q + r - 1, q);
    }
  }

  lemma ResidueShift(x: nat, q: nat)
    ensures (0xFFFF * q + x) % 0xFFFF == x % 0xFFFF
  {
  }

  /** `sum = (sum >> 16) + (sum & 0xFFFF); sum += (sum >> 16);` in 32 bits. */
  function TwoFolds(sum: nat): nat
    requires sum < TWO_32
  {
    var once := sum / 0x1_0000 + sum % 0x1_0000;
    (once + once / 0x1_0000) % TWO_32
  }

  lemma SecondFold(once: nat)
    requires once <= 0x1_FFFE
    ensures ((once + once / 0x1_0000) % TWO_32) % 0x1_0000 == Fold(once)
  {
    if once >= 0x1_0000 {
      assert once / 0x1_0000 == 1 && once % 0x1_0000 == once - 0x1_0000;
      assert Fold(once) == once - 0xFFFF;
    }
  }

  lemma ResidueOfFold(n: nat)
    ensures (if n == 0 then 0 else 1 + (n - 1) % 0xFFFF) % 0xFFFF == n % 0xFFFF
  {
  }

  /** Two folds are enough for any 32-bit sum. */
  lemma TwoFoldsSuffice(sum: nat)
    requires sum < TWO_32
    ensures TwoFolds(sum) % 0x1_0000 == Fold(sum)
    ensures Fold(sum) % 0xFFFF == sum % 0xFFFF && (Fold(sum) == 0 <==> sum == 0)
  {
    SecondFold(sum / 0x1_0000 + sum % 0x1_0000);
    assert sum < 0x1_0000 ==> sum / 0x1_0000 + sum % 0x1_0000 == sum;
    FoldIsResidue(sum);
    ResidueOfFold(sum);
  }

  /** The one's complement sum of all words of header and body is all ones. */
  predicate Verifies(header: bytes, body: bytes) {
    Fold(SumOf(header) + SumOf(body)) == 0xFFFF
  }

  // ----- the checksum -----

  /** The words that are added up: type and code, identifier, sequence number, and the body. */
  function Total(header: bytes, body: bytes): nat
    requires |header| == 8
  {
    SumOf(header[..2]) + SumOf(header[4..]) + SumOf(body)
  }

  /** The checksum as the program computes it from a sum kept in 32 bits. */
  function ChecksumOf(total: nat): (c: nat)
    ensures c < 0x1_0000
  {
    FoldIsResidue(total % TWO_32);
    0xFFFF - Fold(total % TWO_32)
  }

  function WithChecksum(header: bytes, c: nat): bytes
    requires |header| == 8 && c < 0x1_0000
  {
    header[2 := c / 0x100][3 := c % 0x100]
  }

  lemma WordsOfHeader(header: bytes, c: nat)
    requires |header| == 8 && c < 0x1_0000
    ensures SumOf(WithChecksum(header, c)) == SumOf(header[..2]) + c + SumOf(header[4..])
  {
    var head, field, tail := header[..2], Field(c), header[4..];
    assert WithChecksum(header, c) == head + field + tail;
    SumOfCut(head + field, tail);
    SumOfCut(head, field);
    SumStep(field);
    assert field[2..] == [];
  }

  function Field(c: nat): (f: bytes)
    requires c < 0x1_0000
  {
    [c / 0x100, c % 0x100]
  }

  lemma SumOfCut(a: bytes, b: bytes)
    requires |a| % 2 == 0
    ensures SumOf(a + b) == SumOf(a) + SumOf(b)
  {
    WordsAppend(a, b);
    SumAppend(Words(a), Words(b));
  }

  /**
   When the checksum is right. The header with the checksum in place verifies exactly if the carries
   out of the 32-bit sum cancel out; with fewer than 65535 of them, exactly if there was none.
   */
  lemma VerifiesExactly(header: bytes, body: bytes)
    requires |header| == 8
    ensures var total := Total(header, body);
            && (Verifies(WithChecksum(header, ChecksumOf(total)), body) <==> (total / TWO_32) % 0xFFFF == 0)
            && (total < TWO_32 ==> Verifies(WithChecksum(header, ChecksumOf(total)), body))
  {
    var total := Total(header, body);
    WordsOfHeader(header, ChecksumOf(total));
    Completes(total);
  }

  /** The checksum brings the sum to all ones, unless carries were lost. */
  lemma Completes(total: nat)
    ensures Fold(total + ChecksumOf(total)) == 0xFFFF <==> (total / TWO_32) % 0xFFFF == 0
    ensures total < TWO_32 ==> (total / TWO_32) % 0xFFFF == 0
  {
    FoldIsResidue(total % TWO_32);
    AllOnes(total + ChecksumOf(total));
    ResidueOfWrapped(total, ChecksumOf(total));
  }

  lemma AllOnes(n: nat)
    ensures Fold(n) == 0xFFFF <==> n > 0 && n % 0xFFFF == 0
  {
    FoldIsResidue(n);
    Predecessor(n);
  }

  /** The residue of `n - 1`, from quotient and remainder of `n`. */
  lemma Predecessor(n: nat)
    ensures n > 0 ==> (n - 1) % 0xFFFF == if n % 0xFFFF == 0 then 0xFFFE else n % 0xFFFF - 1
  {
    var q, r := n / 0xFFFF, n % 0xFFFF;
    if n > 0 {
      if r == 0 {
        assert n - 1 == 0xFFFF * (q - 1) + 0xFFFE;
        ResidueShift(0xFFFE, q - 1);
      } else {
        assert n - 1 == 0xFFFF * q + (r - 1);
        ResidueShift(r - 1, q);
      }
    }
  }

  /** 2^32 leaves 1 modulo 65535, so each lost carry is off by one. */
  lemma ResidueOfWrapped(total: nat, c: nat)
    requires var low := total % TWO_32; c == 0xFFFF - (if low == 0 then 0 else 1 + (low - 1) % 0xFFFF)
    ensures (total / TWO_32) % 0xFFFF == 0 <==> total + c > 0 && (total + c) % 0xFFFF == 0
  {
    var k, low := total / TWO_32, total % TWO_32;
    var m := if low == 0 then 0 else (low - 1) / 0xFFFF;
    assert total + c == k + 0xFFFF * (0x1_0001 * k + m + 1) by {
      assert TWO_32 == 0xFFFF * 0x1_0001 + 1;
      if low > 0 { assert low - 1 == 0xFFFF * m + (low - 1) % 0xFFFF; }
    }
    ResidueShift(k, 0x1_0001 * k + m + 1);
  }

  // ----- how long a body may be -----

  lemma {:induction false} SumBound(b: bytes)
    ensures SumOf(b) <= 0xFFFF * ((|b| + 1) / 2)
    decreases |b|
  {
    SumStep(b);
    if |b| >= 2 {
      SumBound(b[2..]);
    }
  }

  const LONGEST_SAFE_BODY: nat := 131068

  /** Up to this length no header and no body make the sum overflow. */
  lemma SafeBody(header: bytes, body: bytes)
    requires |header| == 8 && |body| <= LONGEST_SAFE_BODY
    ensures Total(header, body) < TWO_32
  {
    SumBound(header[..2]);
    SumBound(header[4..]);
    SumBound(body);
  }

  function Repeat(b: byte, n: nat): bytes {
    seq(n, _ => b)
  }

  lemma {:induction false} SumOfRepeat(b: byte, n: nat)
    ensures SumOf(Repeat(b, 2 * n)) == 0x101 * b as nat * n
  {
    SumStep(Repeat(b, 2 * n));
    if n > 0 {
      SumOfRepeat(b, n - 1);
      assert Repeat(b, 2 * n)[2..] == Repeat(b, 2 * (n - 1));
    }
  }

  /** A header and a body of all ones, one byte longer than `half` words: the sum of the words. */
  lemma OverflowWitness(half: nat, n: nat) returns (header: bytes, body: bytes)
    requires n > 2 * half
    ensures |header| == 8 && |body| == n
    ensures Total(header, body) == 0xFFFF * (half + 3) + 0xFF00
  {
    header := [0xFF, 0xFF, 0xFF, 0xFF, 0xFF, 0xFF, 0xFF, 0xFF];
    StartOfSum(header);
    var ones, tail := Repeat(0xFF, 2 * half), [0xFF] + Repeat(0, n - 2 * half - 1);
    body := ones + tail;
    SumOfRepeat(0xFF, half);
    SumOfTail(n - 2 * half - 1);
    SumOfCut(ones, tail);
  }

  lemma SumOfTail(n: nat)
    ensures SumOf([0xFF] + Repeat(0, n)) == 0xFF00
  {
    var tail := [0xFF] + Repeat(0, n);
    SumStep(tail);
    if n > 0 {
      assert tail[2..] == Repeat(0, n - 1);
      SumOfZeros(n - 1);
    }
  }

  lemma {:induction false} SumOfZeros(n: nat)
    ensures SumOf(Repeat(0, n)) == 0
  {
    SumStep(Repeat(0, n));
    if n > 1 {
      assert Repeat(0, n)[2..] == Repeat(0, n - 2);
      SumOfZeros(n - 2);
    }
  }

  /** The receiver accepts what the sender computed. */
  predicate RightFor(header: bytes, body: bytes)
    requires |header| == 8
  {
    Verifies(WithChecksum(header, ChecksumOf(Total(header, body))), body)
  }

  lemma ShortBodyRight(header: bytes, body: bytes)
    requires |header| == 8 && |body| <= LONGEST_SAFE_BODY
    ensures RightFor(header, body)
  {
    SafeBody(header, body);
    VerifiesExactly(header, body);
  }

  lemma LongBodyWrong(n: nat) returns (header: bytes, body: bytes)
    requires n > LONGEST_SAFE_BODY
    ensures |header| == 8 && |body| == n && !RightFor(header, body)
  {
    header, body := OverflowWitness(LONGEST_SAFE_BODY / 2, n);
    VerifiesExactly(header, body);
  }

  /** The bound is sharp: for each length, the checksum is right for all headers and bodies exactly up to it. */
  lemma SharpBound(n: nat)
    ensures n <= LONGEST_SAFE_BODY <==>
              forall header: bytes, body: bytes :: |header| == 8 && |body| == n ==> RightFor(header, body)
  {
    if n <= LONGEST_SAFE_BODY {
      forall header: bytes, body: bytes | |header| == 8 && |body| == n ensures RightFor(header, body) {
        ShortBodyRight(header, body);
      }
    } else {
      var header, body := LongBodyWrong(n);
    }
  }

  // ----- algebra -----

  lemma {:induction false} SumAppend(a: seq<nat>, b: seq<nat>)
    ensures Sum(a + b) == Sum(a) + Sum(b)
  {
    if a == [] {
      assert a + b == b;
    } else {
      SumAppend(a[1..], b);
      assert (a + b)[1..] == a[1..] + b;
    }
  }

  lemma {:induction false} WordsAppend(a: bytes, b: bytes)
    requires |a| % 2 == 0
    ensures Words(a + b) == Words(a) + Words(b)
    decreases |a|
  {
    if a == [] {
      assert a + b == b;
    } else {
      FirstWord(a);
      FirstWord(a + b);
      WordsAppend(a[2..], b);
      assert (a + b)[2..] == a[2..] + b;
      Regroup([0x100 * a[0] as nat + a[1] as nat], Words(a[2..]), Words(b));
    }
  }

  lemma FirstWord(b: bytes)
    requires |b| >= 2
    ensures Words(b) == [0x100 * b[0] as nat + b[1] as nat] + Words(b[2..])
  {
  }

  /**
   Section 2 of RFC 1071: the sum of a body cut at an even offset is the one's complement sum of the
   sums of its parts.
   */
  lemma SumOfParts(a: bytes, b: bytes)
    requires |a| % 2 == 0
    ensures Fold(SumOf(a + b)) == Fold(Fold(SumOf(a)) + Fold(SumOf(b)))
  {
    SumOfCut(a, b);
    FoldOfSum(SumOf(a), SumOf(b));
  }

  lemma FoldOfSum(x: nat, y: nat)
    ensures Fold(x + y) == Fold(Fold(x) + Fold(y))
  {
    FoldIsResidue(x);
    FoldIsResidue(y);
    FoldIsResidue(x + y);
    FoldIsResidue(Fold(x) + Fold(y));
    if x > 0 && y > 0 {
      ModOfSum(x - 1, y - 1);
    }
  }

  lemma ModOfSum(x: nat, y: nat)
    ensures (x + y + 1) % 0xFFFF == (x % 0xFFFF + y % 0xFFFF + 1) % 0xFFFF
  {
    ResidueShift(x % 0xFFFF + y % 0xFFFF + 1, x / 0xFFFF + y / 0xFFFF);
    assert x + y + 1 == 0xFFFF * (x / 0xFFFF + y / 0xFFFF) + (x % 0xFFFF + y % 0xFFFF + 1);
  }

  lemma TakeOut(b: seq<nat>, n: nat)
    requires n < |b|
    ensures multiset(b) == multiset(b[..n] + b[n + 1..]) + multiset{b[n]}
  {
    assert b == b[..n] + [b[n]] + b[n + 1..];
  }

  lemma SumWithout(b: seq<nat>, n: nat)
    requires n < |b|
    ensures Sum(b) == Sum(b[..n] + b[n + 1..]) + b[n]
  {
    var front, back := b[..n], b[n + 1..];
    assert b == front + b[n..];
    SumAppend(front, b[n..]);
    assert b[n..][1..] == back;
    SumAppend(front, back);
  }

  lemma {:induction false} SumOfPermutation(a: seq<nat>, b: seq<nat>)
    requires multiset(a) == multiset(b)
    ensures Sum(a) == Sum(b)
    decreases |a|
  {
    assert |a| == |multiset(a)| == |multiset(b)| == |b|;
    if a != [] {
      assert a[0] in multiset(b);
      var n :| 0 <= n < |b| && b[n] == a[0];
      var rest := b[..n] + b[n + 1..];
      assert multiset(a[1..]) == multiset(rest) by {
        TakeOut(b, n);
        assert a == [a[0]] + a[1..];
        Cancel(multiset(a[1..]), multiset(rest), a[0]);
      }
      SumOfPermutation(a[1..], rest);
      SumWithout(b, n);
    }
  }

  lemma Cancel(x: multiset<nat>, y: multiset<nat>, e: nat)
    requires x + multiset{e} == y + multiset{e}
    ensures x == y
  {
    assert x == (x + multiset{e}) - multiset{e};
    assert y == (y + multiset{e}) - multiset{e};
  }

  /** Section 2 of RFC 1071: the checksum does not depend on the order of the words of the body. */
  lemma OrderOfWordsIrrelevant(header: bytes, body: bytes, body': bytes, received: bytes)
    requires |header| == 8 && multiset(Words(body)) == multiset(Words(body'))
    ensures ChecksumOf(Total(header, body)) == ChecksumOf(Total(header, body'))
    ensures Verifies(received, body) <==> Verifies(received, body')
  {
    SumOfPermutation(Words(body), Words(body'));
    SumDecides(header, body, body', received);
  }

  /** All that matters of a body is its sum. */
  lemma SumDecides(header: bytes, body: bytes, body': bytes, received: bytes)
    requires |header| == 8 && SumOf(body) == SumOf(body')
    ensures ChecksumOf(Total(header, body)) == ChecksumOf(Total(header, body'))
    ensures Verifies(received, body) <==> Verifies(received, body')
  {
  }

  // ----- the program -----

  class IcmpHeader {
    const rep: array<byte>

    ghost predicate Valid() {
      rep.Length == 8
    }

    constructor ()
      ensures Valid() && fresh(rep) && forall i :: 0 <= i < 8 ==> rep[i] == 0
    {
      rep := new byte[8](_ => 0);
    }

    function Decode(a: nat, b: nat): (n: nat)
      requires Valid() && a < 8 && b < 8
      reads rep
      ensures n < 0x1_0000
    {
      0x100 * rep[a] as nat + rep[b] as nat
    }

    method Encode(a: nat, b: nat, n: nat)
      requires Valid() && a < b < 8 && n < 0x1_0000
      modifies rep
      ensures rep[..] == old(rep[..])[a := n / 0x100][b := n % 0x100]
      ensures Decode(a, b) == n
    {
      rep[a] := n / 0x100;
      rep[b] := n % 0x100;
    }

    /** Adds up in 32 bits; the header's own checksum is left out of the sum. */
    method ComputeChecksum(body: bytes)
      requires Valid()
      modifies rep
      ensures rep[..] == WithChecksum(old(rep[..]), ChecksumOf(Total(old(rep[..]), body)))
      ensures Verifies(rep[..], body) <==> (Total(old(rep[..]), body) / TWO_32) % 0xFFFF == 0
      ensures |body| <= LONGEST_SAFE_BODY ==> Verifies(rep[..], body)
    {
      ghost var header := rep[..];
      StartOfSum(header);
      var sum := AddUp(Decode(0, 1) + Decode(4, 5) + Decode(6, 7), body);
      FromSum(header, body, sum);
      sum := sum / 0x1_0000 + sum % 0x1_0000;
      sum := (sum + sum / 0x1_0000) % TWO_32;
      Encode(2, 3, 0xFFFF - sum % 0x1_0000);
    }

    /** The loop over the body, from the sum of the header's words. */
    method AddUp(start: nat, body: bytes) returns (sum: nat)
      requires start < TWO_32
      ensures sum == (start + SumOf(body)) % TWO_32
    {
      sum := start;
      var i: nat := 0;
      SumStep([]);
      while i != |body|
        invariant i <= |body| && (i % 2 == 0 || i == |body|)
        invariant sum == (start + SumOf(body[..i])) % TWO_32
      {
        ghost var j, before := i, sum;
        sum := (sum + 0x100 * body[i] as nat) % TWO_32;
        i := i + 1;
        if i != |body| {
          sum := (sum + body[i] as nat) % TWO_32;
          i := i + 1;
        }
        StepOfSum(body, j, i, start, before);
      }
      assert body[..i] == body;
    }
  }

  /** What the checksum folded from the sum does. */
  lemma FromSum(header: bytes, body: bytes, sum: nat)
    requires |header| == 8 && sum == Total(header, body) % TWO_32
    ensures var c := 0xFFFF - TwoFolds(sum) % 0x1_0000;
            && c == ChecksumOf(Total(header, body))
            && (Verifies(WithChecksum(header, c), body) <==> (Total(header, body) / TWO_32) % 0xFFFF == 0)
            && (|body| <= LONGEST_SAFE_BODY ==> Verifies(WithChecksum(header, c), body))
  {
    TwoFoldsSuffice(sum);
    VerifiesExactly(header, body);
    if |body| <= LONGEST_SAFE_BODY {
      SafeBody(header, body);
    }
  }

  lemma StartOfSum(header: bytes)
    requires |header| == 8
    ensures SumOf(header[..2]) == 0x100 * header[0] as nat + header[1] as nat
    ensures SumOf(header[4..])
         == 0x100 * header[4] as nat + header[5] as nat + 0x100 * header[6] as nat + header[7] as nat
    ensures SumOf(header[..2]) + SumOf(header[4..]) < TWO_32
  {
    SumStep(header[..2]);
    SumStep(header[4..]);
    SumStep(header[6..]);
    assert header[..2][2..] == [] && header[4..][2..] == header[6..] && header[6..][2..] == [];
  }

  lemma Wrapped(x: nat, y: nat, z: nat)
    ensures (x % TWO_32 + y) % TWO_32 == (x + y) % TWO_32
    ensures ((x % TWO_32 + y) % TWO_32 + z) % TWO_32 == (x + y + z) % TWO_32
  {
    WrapOnce(x, y);
    WrapOnce(x + y, z);
  }

  lemma WrapOnce(x: nat, y: nat)
    ensures (x % TWO_32 + y) % TWO_32 == (x + y) % TWO_32
  {
    var q, r := x / TWO_32, x % TWO_32;
    assert x + y == TWO_32 * q + (r + y);
    WrapShift(r + y, q);
  }

  lemma WrapShift(x: nat, q: nat)
    ensures (TWO_32 * q + x) % TWO_32 == x % TWO_32
  {
  }

  /** One pass of the loop, over the bytes from `j` to `i`. */
  lemma StepOfSum(body: bytes, j: nat, i: nat, start: nat, sum: nat)
    requires j < i <= |body| && j % 2 == 0 && (i == j + 2 || i == j + 1 == |body|)
    requires sum == (start + SumOf(body[..j])) % TWO_32
    ensures i == j + 2 ==>
              ((sum + 0x100 * body[j] as nat) % TWO_32 + body[j + 1] as nat) % TWO_32
              == (start + SumOf(body[..i])) % TWO_32
    ensures i == j + 1 ==> (sum + 0x100 * body[j] as nat) % TWO_32 == (start + SumOf(body[..i])) % TWO_32
  {
    var last := body[j..i];
    assert body[..i] == body[..j] + last;
    SumOfCut(body[..j], last);
    SumStep(last);
    Wrapped(start + SumOf(body[..j]), 0x100 * body[j] as nat, if i == j + 2 then body[j + 1] as nat else 0);
    if i == j + 2 {
      assert last[2..] == [];
    }
  }
}
