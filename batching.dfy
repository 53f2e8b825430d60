/**
 * Slicing a sequence into consecutive chunks of at most `b` elements, as
 * `[s[i:i + b] for i in range(0, len(s), b)]` does for `b > 0`, with the
 * facts the loaders rely on: how many chunks there are, how large each one
 * is, where each one starts, and that together they give back the input.
 */
module Batching {
  import opened Common

  function Chunks<T>(s: seq<T>, b: nat): (cs: seq<seq<T>>)
    requires b > 0
    ensures forall k :: 0 <= k < |cs| ==> 0 < |cs[k]| <= b
    decreases |s|
  {
    if |s| == 0 then [] else [s[..Min(b, |s|)]] + Chunks(s[Min(b, |s|)..], b)
  }

  function Flatten<T>(cs: seq<seq<T>>): seq<T> {
    if |cs| == 0 then [] else cs[0] + Flatten(cs[1..])
  }

  /** The number of elements in the first chunks: Python's running `total_inserted`. */
  function SumSizes<T>(cs: seq<seq<T>>): nat {
    if |cs| == 0 then 0 else |cs[0]| + SumSizes(cs[1..])
  }

  /** Python's `(n + b - 1) // b` for `n >= 0` and `b > 0`. */
  function CeilDiv(n: nat, b: nat): nat
    requires b > 0
  {
    (n + b - 1) / b
  }

  /** Concatenating the chunks gives the sequence back. */
  lemma {:induction false} FlattenChunks<T>(s: seq<T>, b: nat)
    requires b > 0
    ensures Flatten(Chunks(s, b)) == s
    decreases |s|
  {
    if |s| > 0 {
      var m := Min(b, |s|);
      FlattenChunks(s[m..], b);
      assert Chunks(s, b)[1..] == Chunks(s[m..], b);
      assert s == s[..m] + s[m..];
    }
  }

  /** Chunk `k` is the slice `s[k*b : (k+1)*b]`, cut off at the end of `s`. */
  lemma {:induction false} ChunkAt<T>(s: seq<T>, b: nat, k: nat)
    requires b > 0 && k < |Chunks(s, b)|
    ensures k * b < |s|
    ensures Chunks(s, b)[k] == s[k * b .. Min(k * b + b, |s|)]
    decreases |s|
  {
    var m := Min(b, |s|);
    if k > 0 {
      var t := s[m..];
      assert Chunks(s, b)[k] == Chunks(t, b)[k - 1];
      ChunkAt(t, b, k - 1);
      ChunkAtShift(s, b, k, Chunks(t, b)[k - 1]);
    } else {
      assert Chunks(s, b)[0] == s[..m];
    }
  }

  /** The inductive step of `ChunkAt`: chunk `k-1` of `s[b..]` sits at `k*b` in `s`. */
  lemma ChunkAtShift<T>(s: seq<T>, b: nat, k: nat, c: seq<T>)
    requires 0 < b < |s| && k > 0
    requires (k - 1) * b < |s| - b
    requires c == s[b..][(k - 1) * b .. Min((k - 1) * b + b, |s| - b)]
    ensures k * b < |s|
    ensures c == s[k * b .. Min(k * b + b, |s|)]
  {
    var p := (k - 1) * b;
    assert p + b == k * b;
    var q := Min(p + b, |s| - b);
    assert q + b == Min(k * b + b, |s|);
    SliceShift(s, b, p, q);
  }

  /** Element `i` of chunk `k` is element `k*b + i` of `s`. */
  lemma ChunkElement<T>(s: seq<T>, b: nat, k: nat, i: nat)
    requires b > 0 && k < |Chunks(s, b)| && i < |Chunks(s, b)[k]|
    ensures i < b && k * b + i < |s| && Chunks(s, b)[k][i] == s[k * b + i]
  {
    ChunkAt(s, b, k);
  }

  /** A slice of `s[m..]` is the slice of `s` shifted by `m`. */
  lemma SliceShift<T>(s: seq<T>, m: nat, p: nat, q: nat)
    requires m <= |s| && p <= q <= |s| - m
    ensures s[m..][p..q] == s[p + m .. q + m]
  {
  }

  /** Every chunk but the last is full; the last holds what is left. */
  lemma {:induction false} ChunkSizes<T>(s: seq<T>, b: nat, k: nat)
    requires b > 0 && k < |Chunks(s, b)|
    ensures k < |Chunks(s, b)| - 1 ==> |Chunks(s, b)[k]| == b
    ensures k == |Chunks(s, b)| - 1 ==> |Chunks(s, b)[k]| == |s| - k * b
    decreases |s|
  {
    var m := Min(b, |s|);
    if k > 0 {
      assert Chunks(s, b)[k] == Chunks(s[m..], b)[k - 1];
      ChunkSizes(s[m..], b, k - 1);
      assert (k - 1) * b + b == k * b;
    } else if |Chunks(s, b)| > 1 {
      assert |s[m..]| > 0;
    } else {
      assert |Chunks(s[m..], b)| == 0;
      assert |s[m..]| == 0;
    }
  }

  /**
   * The chunk count is the least `c` with `c*b >= |s|`, which is
   * `ceil(|s| / b)`.
   */
  lemma {:induction false} ChunkCount<T>(s: seq<T>, b: nat)
    requires b > 0
    ensures |Chunks(s, b)| * b >= |s|
    ensures |s| > 0 ==> (|Chunks(s, b)| - 1) * b < |s|
    ensures |s| == 0 <==> |Chunks(s, b)| == 0
    decreases |s|
  {
    if |s| > 0 {
      var m := Min(b, |s|);
      ChunkCount(s[m..], b);
      var c := |Chunks(s[m..], b)|;
      assert |Chunks(s, b)| == c + 1;
      assert (c + 1) * b == c * b + b;
    }
  }

  lemma CeilDivUnique(n: nat, b: nat, c: nat)
    requires b > 0 && c * b >= n && (n == 0 ==> c == 0) && (n > 0 ==> (c - 1) * b < n)
    ensures c == CeilDiv(n, b)
  {
    var x := n + b - 1;
    var q, r := x / b, x % b;
    assert x == q * b + r && 0 <= r < b;
    if n == 0 {
      assert q == 0;
    } else {
      assert (c - 1) * b + 1 <= n;
      assert c * b <= x;
      assert x < (c + 1) * b;
      if q < c {
        MulMonotone(q + 1, c, b);
      } else if q > c {
        MulMonotone(c + 1, q, b);
      }
    }
  }

  lemma MulMonotone(x: nat, y: nat, b: nat)
    requires x <= y
    ensures x * b <= y * b
  {
    assert y * b == x * b + (y - x) * b;
  }

  /** The count equals Python's `len(range(0, len(s), b))`. */
  lemma ChunkCountIsCeilDiv<T>(s: seq<T>, b: nat)
    requires b > 0
    ensures |Chunks(s, b)| == CeilDiv(|s|, b)
  {
    ChunkCount(s, b);
    CeilDivUnique(|s|, b, |Chunks(s, b)|);
  }

  /** The first `k` chunks hold the first `min(k*b, |s|)` elements. */
  lemma {:induction false} SumSizesPrefix<T>(s: seq<T>, b: nat, k: nat)
    requires b > 0 && k <= |Chunks(s, b)|
    ensures SumSizes(Chunks(s, b)[..k]) == Min(k * b, |s|)
    decreases |s|
  {
    if k > 0 {
      var m := Min(b, |s|);
      PrefixSizesSplit(s, b, k);
      SumSizesPrefix(s[m..], b, k - 1);
      MinShift(k, b, |s|);
    }
  }

  /** The first `k` chunks are the first chunk and the first `k - 1` chunks of the rest. */
  lemma PrefixSizesSplit<T>(s: seq<T>, b: nat, k: nat)
    requires b > 0 && 0 < k <= |Chunks(s, b)|
    ensures k - 1 <= |Chunks(s[Min(b, |s|)..], b)|
    ensures SumSizes(Chunks(s, b)[..k]) == Min(b, |s|) + SumSizes(Chunks(s[Min(b, |s|)..], b)[..k - 1])
  {
    var m := Min(b, |s|);
    var cs, rest := Chunks(s, b), Chunks(s[m..], b);
    assert cs == [s[..m]] + rest;
    assert cs[..k] == [s[..m]] + rest[..k - 1];
  }

  /** Taking `b` more from the front of `n` elements: arithmetic for `SumSizesPrefix`. */
  lemma MinShift(k: nat, b: nat, n: nat)
    requires k > 0
    ensures Min(b, n) + Min((k - 1) * b, n - Min(b, n)) == Min(k * b, n)
  {
    assert (k - 1) * b + b == k * b;
  }

  lemma {:induction false} SumSizesAppend<T>(cs: seq<seq<T>>, c: seq<T>)
    ensures SumSizes(cs + [c]) == SumSizes(cs) + |c|
    decreases |cs|
  {
    if |cs| > 0 {
      assert (cs + [c])[1..] == cs[1..] + [c];
      SumSizesAppend(cs[1..], c);
    }
  }

  lemma {:induction false} FlattenAppend<T>(cs: seq<seq<T>>, c: seq<T>)
    ensures Flatten(cs + [c]) == Flatten(cs) + c
    decreases |cs|
  {
    if |cs| > 0 {
      assert (cs + [c])[1..] == cs[1..] + [c];
      FlattenAppend(cs[1..], c);
    }
  }

  lemma {:induction false} FlattenLength<T>(cs: seq<seq<T>>)
    ensures |Flatten(cs)| == SumSizes(cs)
    decreases |cs|
  {
    if |cs| > 0 {
      FlattenLength(cs[1..]);
    }
  }

  /** Python's `i // b + 1` at the start `i = k*b` of chunk `k` is `k + 1`. */
  lemma BatchNumberAt(k: nat, b: nat)
    requires b > 0
    ensures (k * b) / b + 1 == k + 1
  {
    var q, r := (k * b) / b, (k * b) % b;
    assert k * b == q * b + r && 0 <= r < b;
    if q < k {
      MulMonotone(q + 1, k, b);
    } else if q > k {
      MulMonotone(k + 1, q, b);
    }
  }
}
