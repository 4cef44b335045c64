/** Python's `for i in range(0, len(s), size): s[i:i+size]` batching, and distinctness of sequences. */
module Batching {
  import opened Common

  /** The slices s[i:i+size] for i in range(0, |s|, size), in order. */
  function Chunks<T>(s: seq<T>, size: nat): seq<seq<T>>
    requires size > 0
    decreases |s|
  {
    if s == [] then []
    else
      var k := Min(|s|, size);
      [s[..k]] + Chunks(s[k..], size)
  }

  /** Every batch is non-empty and holds at most size elements. */
  lemma {:induction false} ChunksSizes<T>(s: seq<T>, size: nat)
    requires size > 0
    ensures forall i :: 0 <= i < |Chunks(s, size)| ==> 0 < |Chunks(s, size)[i]| <= size
    decreases |s|
  {
    if s != [] {
      var k := Min(|s|, size);
      ChunksSizes(s[k..], size);
      assert Chunks(s, size) == [s[..k]] + Chunks(s[k..], size);
    }
  }

  /** The concatenation of a sequence of sequences. */
  function Flatten<T>(ss: seq<seq<T>>): seq<T>
    decreases |ss|
  {
    if ss == [] then [] else ss[0] + Flatten(ss[1..])
  }

  /** The batches put back together give the input, in order. */
  lemma {:induction false} FlattenChunks<T>(s: seq<T>, size: nat)
    requires size > 0
    ensures Flatten(Chunks(s, size)) == s
    decreases |s|
  {
    if s != [] {
      var k := Min(|s|, size);
      FlattenChunks(s[k..], size);
      assert Chunks(s, size)[1..] == Chunks(s[k..], size);
      assert s[..k] + s[k..] == s;
    }
  }

  /** There are ceil(|s| / size) batches: enough to hold |s| elements, and one fewer would not be. */
  lemma {:induction false} ChunksCount<T>(s: seq<T>, size: nat)
    requires size > 0
    ensures |s| <= |Chunks(s, size)| * size
    ensures |s| > 0 ==> (|Chunks(s, size)| - 1) * size < |s|
    ensures |s| == 0 ==> |Chunks(s, size)| == 0
    decreases |s|
  {
    if s != [] {
      var k := Min(|s|, size);
      ChunksCount(s[k..], size);
      var c' := |Chunks(s[k..], size)|;
      assert |Chunks(s, size)| == c' + 1;
      assert (c' + 1) * size == c' * size + size;
      assert |s| <= size ==> c' == 0;
    }
  }

  /** j * size, the offset range(0, n, size) reaches at its j-th step, counted up by size. */
  function Offset(j: nat, size: nat): (offset: nat)
    decreases j
  {
    if j == 0 then 0 else Offset(j - 1, size) + size
  }

  lemma {:induction false} OffsetIsProduct(j: nat, size: nat)
    ensures Offset(j, size) == j * size
    decreases j
  {
    if j > 0 {
      OffsetIsProduct(j - 1, size);
      assert (j - 1) * size + size == j * size;
    }
  }

  lemma ChunksUnfold<T>(s: seq<T>, size: nat)
    requires size > 0 && s != []
    ensures Chunks(s, size) == [s[..Min(|s|, size)]] + Chunks(s[Min(|s|, size)..], size)
  {
  }

  lemma SliceOfSlice<T>(s: seq<T>, k: nat, lo: nat, hi: nat)
    requires k <= |s| && lo <= hi <= |s| - k
    ensures s[k..][lo..hi] == s[k + lo .. k + hi]
  {
  }

  /** Batch j is the slice [j*size, min((j+1)*size, |s|)). */
  lemma {:induction false} ChunkAt<T>(s: seq<T>, size: nat, j: nat)
    requires size > 0
    requires j < |Chunks(s, size)|
    ensures Offset(j, size) < |s|
    ensures Chunks(s, size)[j] == s[Offset(j, size) .. Min(Offset(j + 1, size), |s|)]
    decreases |s|
  {
    var k := Min(|s|, size);
    var rest := s[k..];
    ChunksUnfold(s, size);
    if j == 0 {
      assert Offset(0, size) == 0 && Offset(1, size) == size && Min(size, |s|) == k;
      assert Chunks(s, size)[0] == s[0..k];
    } else {
      assert Chunks(s, size)[j] == Chunks(rest, size)[j - 1];
      ChunkAt(rest, size, j - 1);
      var lo, hi := Offset(j - 1, size), Min(Offset(j, size), |rest|);
      assert Offset(j, size) == lo + size;
      assert Offset(j + 1, size) == Offset(j, size) + size;
      assert k == size && |rest| == |s| - size;
      assert k + hi == Min(Offset(j + 1, size), |s|);
      SliceOfSlice(s, k, lo, hi);
      assert Chunks(s, size)[j] == s[k + lo .. k + hi];
      assert Offset(j, size) == k + lo < |s|;
    }
  }

  /** The batches from offset i on: the slice [i, end) and then the batches from end on. */
  lemma ChunksAfter<T>(s: seq<T>, size: nat, i: nat, end: nat)
    requires size > 0 && i < |s| && end == Min(i + size, |s|)
    ensures Chunks(s[i..], size) == [s[i..end]] + Chunks(s[end..], size)
  {
    var rest := s[i..];
    assert rest[..end - i] == s[i..end] && rest[end - i..] == s[end..];
  }

  /** No element occurs twice. */
  predicate Distinct<T(==)>(s: seq<T>)
  {
    forall i, j :: 0 <= i < j < |s| ==> s[i] != s[j]
  }

  function Elements<T>(s: seq<T>): set<T>
  {
    set x | x in s
  }

  /** A sequence without repetitions has as many distinct elements as positions. */
  lemma {:induction false} DistinctCardinality<T>(s: seq<T>)
    requires Distinct(s)
    ensures |Elements(s)| == |s|
    decreases |s|
  {
    if s != [] {
      var last := |s| - 1;
      DistinctCardinality(s[..last]);
      assert Elements(s) == Elements(s[..last]) + {s[last]};
      assert s[last] !in Elements(s[..last]);
    }
  }
}
