/**
  The sliding-window enumerator `List<T>.rollingBatches(batchSize)`, which the
  four example programs define identically.

  For every start index i in 0..size (both ends included) it takes
  `subList(i, min(i + batchSize, size))` and keeps only the sublists whose size
  is exactly `batchSize`. The end index `i + batchSize` is a 32-bit `Int`
  sum: when it wraps around it becomes negative, and `subList` throws just
  as it does for a negative batch size. A throw is modelled as `None`.
*/
module Rolling {
  import opened Options

  /**
    The candidate sublists for start indices i, i+1, .., |xs|, with the
    short ones (those clipped by the end of the list) filtered out.
  */
  function Candidates<T>(xs: seq<T>, k: nat, i: nat): (r: seq<seq<T>>)
    requires i <= |xs| + 1
    ensures |r| == (if i + k <= |xs| then |xs| - k + 1 - i else 0)
    ensures forall j :: 0 <= j < |r| ==> r[j] == xs[i + j..i + j + k]
    decreases |xs| + 1 - i
  {
    if i > |xs| then []
    else
      var end := if i + k > |xs| then |xs| else i + k;
      var batch := xs[i..end];
      (if |batch| == k then [batch] else []) + Candidates(xs, k, i + 1)
  }

  /** The largest and smallest values of Kotlin's `Int`. */
  const IntMax: int := 0x7fff_ffff
  const IntMin: int := -0x8000_0000

  /**
    All full-length windows of `xs`, in increasing start order: for
    k <= |xs| there are |xs| - k + 1 of them and the i-th is xs[i..i+k];
    for k > |xs| there are none.
  */
  function Batches<T>(xs: seq<T>, k: nat): (r: seq<seq<T>>)
    ensures |r| == (if k <= |xs| then |xs| - k + 1 else 0)
    ensures forall i :: 0 <= i < |r| ==> |r[i]| == k && r[i] == xs[i..i + k]
  {
    Candidates(xs, k, 0)
  }

  /** Kotlin's `Int` addition result: x reduced into IntMin..IntMax modulo 2^32. */
  function Wrap(x: int): (r: int)
    ensures IntMin <= r <= IntMax
    ensures IntMin <= x <= IntMax ==> r == x
    ensures IntMax < x <= IntMax - IntMin + IntMax ==> r == x - 0x1_0000_0000
  {
    (x - IntMin) % 0x1_0000_0000 + IntMin
  }

  /** The end index `(i + batchSize).let { if (it > size) size else it }`, with the sum taken in `Int`. */
  function EndIndex(size: nat, i: nat, k: int): int
  {
    var e := Wrap(i + k);
    if e > size then size else e
  }

  /**
    `subList(i, end)` with 0 <= i <= size throws exactly when end < i: the
    end index never exceeds the size, and a negative end lies below i.
  */
  predicate SubListThrows(size: nat, i: nat, k: int)
  {
    EndIndex(size, i, k) < i
  }

  /** Some start index i in 0..size makes its `subList` call throw. */
  predicate Throws(size: nat, k: int)
  {
    exists i: nat :: i <= size && SubListThrows(size, i, k)
  }

  /**
    `rollingBatches(batchSize)` on a list of at most `Int.MAX_VALUE`
    elements: `None` when the `subList` call of some start index throws,
    otherwise the full-length windows. The mapped sequence is consumed to
    the end, so every start index in 0..size is reached.
  */
  function RollingBatches<T>(xs: seq<T>, k: int): (r: Option<seq<seq<T>>>)
    requires |xs| <= IntMax && IntMin <= k <= IntMax
    ensures r.None? <==> k < 0 || |xs| + k > IntMax
    ensures r.Some? ==> |r.value| == (if k <= |xs| then |xs| - k + 1 else 0)
    ensures r.Some? ==> forall i :: 0 <= i < |r.value| ==> |r.value[i]| == k && r.value[i] == xs[i..i + k]
  {
    ThrowsExactly(|xs|, k);
    if Throws(|xs|, k) then None else Some(Batches(xs, k))
  }

  /**
    Some `subList` call throws exactly when the batch size is negative (start
    0 already throws) or when size plus batch size exceeds `Int.MAX_VALUE`
    (the sum wraps to a negative end index).
  */
  lemma ThrowsExactly(size: nat, k: int)
    requires size <= IntMax && IntMin <= k <= IntMax
    ensures Throws(size, k) <==> k < 0 || size + k > IntMax
  {
    if k < 0 {
      assert SubListThrows(size, 0, k);
    } else if size + k > IntMax {
      FirstWrap(size, k);
    } else {
      forall i: nat | i <= size
        ensures !SubListThrows(size, i, k)
      {
        assert Wrap(i + k) == i + k;
      }
    }
  }

  /**
    For a non-negative batch size with size + k beyond `Int.MAX_VALUE`, the
    first start index whose `subList` call throws is `Int.MAX_VALUE - k + 1`:
    every earlier start has an end index of at least itself.
  */
  lemma FirstWrap(size: nat, k: int)
    requires size <= IntMax && 0 <= k <= IntMax && size + k > IntMax
    ensures var first := IntMax - k + 1;
      && first <= size && SubListThrows(size, first, k)
      && forall i: nat :: i < first ==> !SubListThrows(size, i, k)
  {
    var first := IntMax - k + 1;
    assert Wrap(first + k) == first + k - 0x1_0000_0000;
    forall i: nat | i < first
      ensures !SubListThrows(size, i, k)
    {
      assert Wrap(i + k) == i + k;
    }
  }

  /** The k elements of xs from index i on (empty when they run past the end). */
  function Sublist<T>(xs: seq<T>, i: nat, k: nat): seq<T>
  {
    if i + k <= |xs| then xs[i..i + k] else []
  }

  /**
    The batches are exactly the contiguous sublists of length k: a list is
    a batch when it is the k elements from some index i with i + k <= |xs|,
    and only then.
  */
  lemma BatchesAreSublists<T>(xs: seq<T>, k: nat, ys: seq<T>)
    ensures ys in Batches(xs, k) <==>
      exists i: nat :: i + k <= |xs| && ys == Sublist(xs, i, k)
  {
    var r := Batches(xs, k);
    if ys in r {
      var j :| 0 <= j < |r| && r[j] == ys;
      assert ys == Sublist(xs, j, k);
    }
    if exists i: nat :: i + k <= |xs| && ys == Sublist(xs, i, k) {
      var i: nat :| i + k <= |xs| && ys == Sublist(xs, i, k);
      assert r[i] == ys;
    }
  }

  /** Consecutive batches slide by one element: batch i+1 drops the head of batch i and appends xs[i+k]. */
  lemma BatchesSlide<T>(xs: seq<T>, k: nat, i: nat)
    requires k >= 1 && i + 1 < |Batches(xs, k)|
    ensures Batches(xs, k)[i + 1] == Batches(xs, k)[i][1..] + [xs[i + k]]
  {
  }

}
