/** Splitting a candidate set into the contiguous groups that are dispatched
    together: `records.slice(i, i + chunkSize)` for i = 0, chunkSize, 2 * chunkSize, ... */
module Chunking {

  function Min(a: int, b: int): int
  {
    if a <= b then a else b
  }

  /** The chunks, front to back; `slice` clamps the last one to what is left. */
  function Chunks<T>(xs: seq<T>, size: nat): seq<seq<T>>
    requires size > 0
    decreases |xs|
  {
    if xs == [] then [] else [xs[..Min(size, |xs|)]] + Chunks(xs[Min(size, |xs|)..], size)
  }

  function Flatten<T>(xss: seq<seq<T>>): seq<T>
  {
    if xss == [] then [] else xss[0] + Flatten(xss[1..])
  }

  lemma FlattenAppend<T>(xss: seq<seq<T>>, yss: seq<seq<T>>)
    ensures Flatten(xss + yss) == Flatten(xss) + Flatten(yss)
  {
    if xss != [] {
      var zss := xss + yss;
      assert zss != [] && zss[0] == xss[0] && zss[1..] == xss[1..] + yss;
      FlattenAppend(xss[1..], yss);
      calc {
        Flatten(zss);
        zss[0] + Flatten(zss[1..]);
        xss[0] + (Flatten(xss[1..]) + Flatten(yss));
        (xss[0] + Flatten(xss[1..])) + Flatten(yss);
      }
    } else {
      assert xss + yss == yss;
    }
  }

  lemma MulAtLeast(d: int, k: int)
    requires d >= 1 && k > 0
    ensures d * k >= k
  {
  }

  /** Euclidean division is determined by any quotient/remainder pair. */
  lemma DivUnique(a: int, k: int, q: int, r: int)
    requires k > 0 && 0 <= r < k && a == q * k + r
    ensures a / k == q
  {
    var q', r' := a / k, a % k;
    assert (q - q') * k == r' - r;
    if q > q' {
      MulAtLeast(q - q', k);
    } else if q < q' {
      MulAtLeast(q' - q, k);
    }
  }

  lemma CeilDivStep(n: int, k: int)
    requires k > 0 && n >= 0
    ensures (n + k + k - 1) / k == (n + k - 1) / k + 1
  {
    var q, r := (n + k - 1) / k, (n + k - 1) % k;
    assert n + k + k - 1 == (q + 1) * k + r;
    DivUnique(n + k + k - 1, k, q + 1, r);
  }

  lemma CeilDivSmall(n: int, k: int)
    requires 0 < n <= k
    ensures (n + k - 1) / k == 1
  {
    DivUnique(n + k - 1, k, 1, n - 1);
  }

  /** The chunks concatenate back to the input; each is non-empty and at most
      `size` long, every one but the last is exactly `size` long, and there are
      ceil(|xs| / size) of them. */
  lemma {:induction false} ChunksPartition<T>(xs: seq<T>, size: nat)
    requires size > 0
    ensures Flatten(Chunks(xs, size)) == xs
    ensures forall j :: 0 <= j < |Chunks(xs, size)| ==> 0 < |Chunks(xs, size)[j]| <= size
    ensures forall j :: 0 <= j < |Chunks(xs, size)| - 1 ==> |Chunks(xs, size)[j]| == size
    ensures |Chunks(xs, size)| == (|xs| + size - 1) / size
    decreases |xs|
  {
    if xs == [] {
      DivUnique(size - 1, size, 0, size - 1);
    } else {
      var n := Min(size, |xs|);
      var rest := xs[n..];
      ChunksPartition(rest, size);
      var cs := Chunks(xs, size);
      assert cs == [xs[..n]] + Chunks(rest, size);
      assert Flatten(cs) == xs[..n] + Flatten(Chunks(rest, size));
      assert xs[..n] + rest == xs;
      if |xs| <= size {
        assert rest == [];
        CeilDivSmall(|xs|, size);
      } else {
        assert |rest| > 0 && |Chunks(rest, size)| > 0;
        CeilDivStep(|rest|, size);
      }
    }
  }

  /** The chunks from offset `i` on: the slice `[i, i + size)`, clamped, then
      the chunks from `i + size` on. */
  lemma ChunksFrom<T>(xs: seq<T>, size: nat, i: nat)
    requires size > 0 && i < |xs|
    ensures Chunks(xs[i..], size)
         == [xs[i..Min(i + size, |xs|)]] + (if i + size < |xs| then Chunks(xs[i + size..], size) else [])
  {
    var n := Min(size, |xs| - i);
    assert xs[i..][..n] == xs[i..Min(i + size, |xs|)];
    assert xs[i..][n..] == xs[i + n..];
  }

  /** The worked example: 7 candidates in chunks of 3 give sizes 3, 3, 1. */
  lemma SevenInThrees<T>(xs: seq<T>)
    requires |xs| == 7
    ensures |Chunks(xs, 3)| == 3
    ensures |Chunks(xs, 3)[0]| == 3 && |Chunks(xs, 3)[1]| == 3 && |Chunks(xs, 3)[2]| == 1
  {
    var ys, zs := xs[3..], xs[6..];
    assert ys[3..] == zs && zs[..1] == zs && zs[1..] == [];
    assert Chunks(zs, 3) == [zs];
    assert Chunks(ys, 3) == [ys[..3]] + Chunks(zs, 3);
    assert Chunks(xs, 3) == [xs[..3]] + Chunks(ys, 3);
  }
}
