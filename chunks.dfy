/** `chunks(iterable, size)`: the consecutive slices `iterable[i:i+size]`
    for i = 0, size, 2*size, ... below the length; the dimension loaders
    submit each slice as one batch insert. */
module Chunking {
  import opened Common

  /** Reference definition: a full piece of `size` elements, then the
      pieces of the rest; the last piece holds what remains. */
  function ChunksOf<T>(xs: seq<T>, size: int): seq<seq<T>>
    requires size > 0
    decreases |xs|
  {
    if xs == [] then []
    else if |xs| <= size then [xs]
    else [xs[..size]] + ChunksOf(xs[size..], size)
  }

  /** Submitting the pieces one after another inserts exactly xs, in order. */
  lemma {:induction false} ChunksOfFlatten<T>(xs: seq<T>, size: int)
    requires size > 0
    ensures Flatten(ChunksOf(xs, size)) == xs
    decreases |xs|
  {
    if xs == [] {
    } else if |xs| <= size {
      assert Flatten([xs]) == xs + Flatten([xs][1..]);
    } else {
      var rest := ChunksOf(xs[size..], size);
      ChunksOfFlatten(xs[size..], size);
      assert ([xs[..size]] + rest)[1..] == rest;
      assert xs == xs[..size] + xs[size..];
    }
  }

  /** No piece is empty or longer than size, and every piece but the last is
      exactly size long. */
  lemma {:induction false} ChunksOfSizes<T>(xs: seq<T>, size: int)
    requires size > 0
    ensures forall k :: 0 <= k < |ChunksOf(xs, size)| ==> 0 < |ChunksOf(xs, size)[k]| <= size
    ensures forall k :: 0 <= k < |ChunksOf(xs, size)| - 1 ==> |ChunksOf(xs, size)[k]| == size
    decreases |xs|
  {
    if |xs| > size {
      ChunksOfSizes(xs[size..], size);
      var rest := ChunksOf(xs[size..], size);
      assert ChunksOf(xs, size) == [xs[..size]] + rest;
      assert forall k :: 1 <= k < |rest| + 1 ==> ChunksOf(xs, size)[k] == rest[k - 1];
    }
  }

  /** There are ceil(|xs| / size) pieces. */
  lemma {:induction false} ChunksOfCount<T>(xs: seq<T>, size: int)
    requires size > 0
    ensures |ChunksOf(xs, size)| == (|xs| + size - 1) / size
    decreases |xs|
  {
    if xs == [] {
      DivUnique(size - 1, size, 0, size - 1);
    } else if |xs| <= size {
      DivUnique(|xs| + size - 1, size, 1, |xs| - 1);
    } else {
      ChunksOfCount(xs[size..], size);
      CeilDivStep(|xs|, size);
    }
  }

  /** One more full piece adds one to the rounded-up quotient. */
  lemma CeilDivStep(n: int, k: int)
    requires 0 < k < n
    ensures (n + k - 1) / k == (n - k + k - 1) / k + 1
  {
    var q, r := (n - 1) / k, (n - 1) % k;
    assert n - 1 == k * q + r;
    DivUnique(n - 1, k, q, r);
    DivUnique(n + k - 1, k, q + 1, r);
  }

  /** `chunks` as the script runs it. A step of 0 makes `range` raise
      ValueError; a negative step gives an empty range, so no pieces. */
  method Chunks<T>(xs: seq<T>, size: int) returns (r: Result<seq<seq<T>>>)
    ensures size == 0 ==> r == Failure(ValueError)
    ensures size < 0 ==> r == Ok([])
    ensures size > 0 ==> r == Ok(ChunksOf(xs, size))
  {
    if size == 0 {
      return Failure(ValueError);
    }
    if size < 0 {
      return Ok([]);
    }
    var pieces: seq<seq<T>> := [];
    var i := 0;
    while i < |xs|
      invariant 0 <= i
      invariant pieces + ChunksOf(xs[Min(i, |xs|)..], size) == ChunksOf(xs, size)
      decreases |xs| - i
    {
      var rest := xs[i..];
      var piece := xs[i..Min(i + size, |xs|)];
      if |rest| <= size {
        assert piece == rest;
        assert ChunksOf(rest, size) == [piece];
        assert xs[Min(i + size, |xs|)..] == [];
      } else {
        assert piece == rest[..size];
        assert rest[size..] == xs[i + size..];
        assert ChunksOf(rest, size) == [piece] + ChunksOf(xs[Min(i + size, |xs|)..], size);
      }
      pieces := pieces + [piece];
      i := i + size;
    }
    assert xs[Min(i, |xs|)..] == [];
    assert pieces + [] == pieces;
    return Ok(pieces);
  }
}
