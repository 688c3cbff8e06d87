/** Concatenation, pointwise views and the subsequence order used by the delivery theorems. */
module Sequences {

  /** The concatenation of all the parts, in order. */
  function Concat<T>(parts: seq<seq<T>>): seq<T> {
    if parts == [] then [] else Concat(parts[..|parts| - 1]) + parts[|parts| - 1]
  }

  lemma {:induction false} ConcatAppend<T>(a: seq<seq<T>>, b: seq<seq<T>>)
    ensures Concat(a + b) == Concat(a) + Concat(b)
    decreases |b|
  {
    if b == [] {
      assert a + b == a;
    } else {
      var n := |b| - 1;
      assert (a + b)[..|a + b| - 1] == a + b[..n];
      ConcatAppend(a, b[..n]);
    }
  }

  lemma Regroup<T>(a: seq<T>, b: seq<T>, c: seq<T>)
    ensures (a + b) + c == a + (b + c)
  {
  }

  lemma ConcatSnoc<T>(a: seq<seq<T>>, part: seq<T>)
    ensures Concat(a + [part]) == Concat(a) + part
  {
    assert (a + [part])[..|a|] == a;
  }

  /** Growing the last part appends to the whole. */
  lemma ConcatGrowLast<T>(parts: seq<seq<T>>, parts': seq<seq<T>>, more: seq<T>)
    requires |parts| == |parts'| > 0
    requires parts'[..|parts| - 1] == parts[..|parts| - 1]
    requires parts'[|parts| - 1] == parts[|parts| - 1] + more
    ensures Concat(parts') == Concat(parts) + more
  {
  }

  /** Empty parts at the end do not matter. */
  lemma {:induction false} ConcatEmptyTail<T>(parts: seq<seq<T>>, n: nat)
    requires n <= |parts|
    requires forall j :: n <= j < |parts| ==> parts[j] == []
    ensures Concat(parts) == Concat(parts[..n])
    decreases |parts|
  {
    if n == |parts| {
      assert parts[..n] == parts;
    } else {
      var m := |parts| - 1;
      assert parts[..m][..n] == parts[..n];
      ConcatEmptyTail(parts[..m], n);
    }
  }

  /** `at` names, in increasing order, the positions of `b` where the elements of `a` are found. */
  ghost predicate Embeds<T>(at: seq<nat>, a: seq<T>, b: seq<T>) {
    && |at| == |a|
    && (forall n :: 0 <= n < |a| ==> at[n] < |b| && a[n] == b[at[n]])
    && (forall m, n :: 0 <= m < n < |a| ==> at[m] < at[n])
  }

  /** `a` is an in-order selection of `b`, no position of `b` being used twice. */
  ghost predicate Subsequence<T>(a: seq<T>, b: seq<T>) {
    exists at: seq<nat> :: Embeds(at, a, b)
  }

  lemma PrefixIsSubsequence<T>(a: seq<T>, b: seq<T>)
    requires a <= b
    ensures Subsequence(a, b)
  {
    var at := seq(|a|, (n: nat) => n);
    assert Embeds(at, a, b);
  }

  lemma SubsequenceTransitive<T>(a: seq<T>, b: seq<T>, c: seq<T>)
    requires Subsequence(a, b) && Subsequence(b, c)
    ensures Subsequence(a, c)
  {
    var f: seq<nat> :| Embeds(f, a, b);
    var g: seq<nat> :| Embeds(g, b, c);
    var h: seq<nat> := seq(|a|, n requires 0 <= n < |a| => g[f[n]]);
    assert Embeds(h, a, c);
  }

  lemma SubsequenceConcat<T>(a: seq<T>, b: seq<T>, c: seq<T>, d: seq<T>)
    requires Subsequence(a, b) && Subsequence(c, d)
    ensures Subsequence(a + c, b + d)
  {
    var f: seq<nat> :| Embeds(f, a, b);
    var g: seq<nat> :| Embeds(g, c, d);
    var g': seq<nat> := seq(|c|, n requires 0 <= n < |c| => |b| + g[n]);
    assert Embeds(f + g', a + c, b + d);
  }

  /** Elements of the longer sequence may be skipped. */
  lemma SubsequenceSkip<T>(a: seq<T>, b: seq<T>, more: seq<T>)
    requires Subsequence(a, b)
    ensures Subsequence(a, b + more)
  {
    PrefixIsSubsequence([], more);
    SubsequenceConcat(a, b, [], more);
    assert a + [] == a;
  }

  /**
   Parts received through links taken in increasing order: each received part is a prefix of
   the part sent on its link, so the whole is a subsequence of everything sent.
   */
  lemma {:induction false} PrefixesAlongLinks<T>(received: seq<seq<T>>, sent: seq<seq<T>>, link: seq<nat>)
    requires |link| == |received|
    requires forall i :: 0 <= i < |link| ==> link[i] < |sent| && received[i] <= sent[link[i]]
    requires forall i, j :: 0 <= i < j < |link| ==> link[i] < link[j]
    ensures Subsequence(Concat(received), Concat(sent))
    decreases |received|
  {
    if received == [] {
      PrefixIsSubsequence<T>([], Concat(sent));
    } else {
      var n := |received| - 1;
      var k := link[n];
      PrefixesAlongLinks(received[..n], sent[..k], link[..n]);
      PrefixIsSubsequence(received[n], sent[k]);
      SubsequenceConcat(Concat(received[..n]), Concat(sent[..k]), received[n], sent[k]);
      assert sent[..k + 1][..k] == sent[..k];
      assert sent == sent[..k + 1] + sent[k + 1..];
      ConcatAppend(sent[..k + 1], sent[k + 1..]);
      SubsequenceSkip(Concat(received), Concat(sent[..k + 1]), Concat(sent[k + 1..]));
    }
  }

  /** The same when the links are recorded at the sending side and unlinked slots received nothing. */
  lemma {:induction false} PrefixesAgainstLinks<T>(received: seq<seq<T>>, sent: seq<seq<T>>, link: seq<nat>)
    requires |link| == |sent|
    requires forall i :: 0 <= i < |link| ==> link[i] < |received| && received[link[i]] <= sent[i]
    requires forall i, j :: 0 <= i < j < |link| ==> link[i] < link[j]
    requires forall k :: 0 <= k < |received| && k !in link ==> received[k] == []
    ensures Subsequence(Concat(received), Concat(sent))
    decreases |sent|
  {
    if sent == [] {
      ConcatEmptyTail(received, 0);
      PrefixIsSubsequence<T>([], []);
    } else {
      var n := |sent| - 1;
      var k := link[n];
      forall j | 0 <= j < k && j !in link[..n] ensures received[..k][j] == [] {
        assert j !in link;
      }
      PrefixesAgainstLinks(received[..k], sent[..n], link[..n]);
      PrefixIsSubsequence(received[k], sent[n]);
      SubsequenceConcat(Concat(received[..k]), Concat(sent[..n]), received[k], sent[n]);
      assert received[..k + 1][..k] == received[..k];
      forall j | k + 1 <= j < |received| ensures received[j] == [] {
        assert j !in link;
      }
      ConcatEmptyTail(received, k + 1);
    }
  }
}
