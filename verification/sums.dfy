/**
  Sums of integer sequences, 0/1 sequences and runs of ones.

  A row of occupancy values (one per number of the timeline) is a `seq<int>`;
  every linear constraint of the model is a statement about sums of such rows
  or of slices of them. The lemmas here are the arithmetic facts that the
  encoding proofs rely on.
*/
module Sums {

  function Sum(xs: seq<int>): int
  {
    if |xs| == 0 then 0 else xs[0] + Sum(xs[1..])
  }

  /** Every entry is 0 or 1, as for the values of binary variables. */
  predicate IsBinary(xs: seq<int>)
  {
    forall i :: 0 <= i < |xs| ==> xs[i] == 0 || xs[i] == 1
  }

  /** No two distinct positions both hold 1. */
  predicate AtMostOneSet(xs: seq<int>)
  {
    forall i, j :: 0 <= i < |xs| && 0 <= j < |xs| && xs[i] == 1 && xs[j] == 1 ==> i == j
  }

  /**
    The row of `n` cells in which exactly the cells of the numbers
    s, s+1, .., s+k-1 hold 1. Numbers are 1-based, cells 0-based, so cell j
    belongs to number j+1.
  */
  function Run(n: nat, s: int, k: int): seq<int>
  {
    seq(n, j => if s - 1 <= j < s - 1 + k then 1 else 0)
  }

  /** The length of the intersection of the half-open intervals [i, j) and [p, q). */
  function Overlap(i: int, j: int, p: int, q: int): int
  {
    var lo := if i < p then p else i;
    var hi := if j < q then j else q;
    if lo < hi then hi - lo else 0
  }

  lemma {:induction false} SumAppend(xs: seq<int>, ys: seq<int>)
    ensures Sum(xs + ys) == Sum(xs) + Sum(ys)
  {
    if |xs| == 0 {
      assert xs + ys == ys;
    } else {
      assert (xs + ys)[1..] == xs[1..] + ys;
      SumAppend(xs[1..], ys);
    }
  }

  lemma {:induction false} SumBinaryBounds(xs: seq<int>)
    requires IsBinary(xs)
    ensures 0 <= Sum(xs) <= |xs|
  {
    if |xs| > 0 {
      SumBinaryBounds(xs[1..]);
    }
  }

  /** A 0/1 sequence sums to its length exactly when it is all ones. */
  lemma {:induction false} SumFull(xs: seq<int>)
    requires IsBinary(xs)
    ensures Sum(xs) == |xs| <==> forall i :: 0 <= i < |xs| ==> xs[i] == 1
  {
    if |xs| > 0 {
      var rest := xs[1..];
      SumBinaryBounds(rest);
      SumFull(rest);
      if forall i :: 0 <= i < |rest| ==> rest[i] == 1 {
        assert Sum(rest) == |rest|;
      }
      if Sum(xs) == |xs| {
        forall i | 0 <= i < |xs|
          ensures xs[i] == 1
        {
          if i > 0 {
            assert xs[i] == rest[i - 1];
          }
        }
      }
    }
  }

  /** A 0/1 sequence sums to zero exactly when it is all zeros. */
  lemma {:induction false} SumZero(xs: seq<int>)
    requires IsBinary(xs)
    ensures Sum(xs) == 0 <==> forall i :: 0 <= i < |xs| ==> xs[i] == 0
  {
    if |xs| > 0 {
      var rest := xs[1..];
      SumBinaryBounds(rest);
      SumZero(rest);
      if forall i :: 0 <= i < |rest| ==> rest[i] == 0 {
        assert Sum(rest) == 0;
      }
      if Sum(xs) == 0 {
        forall i | 0 <= i < |xs|
          ensures xs[i] == 0
        {
          if i > 0 {
            assert xs[i] == rest[i - 1];
          }
        }
      }
    }
  }

  /** A 0/1 sequence summing to 1 is the indicator of a single position. */
  lemma {:induction false} SumOne(xs: seq<int>)
    requires IsBinary(xs) && Sum(xs) == 1
    ensures exists s :: 1 <= s <= |xs| && xs == Run(|xs|, s, 1)
  {
    var rest := xs[1..];
    SumBinaryBounds(rest);
    if xs[0] == 1 {
      SumZero(rest);
      assert xs == Run(|xs|, 1, 1);
    } else {
      SumOne(rest);
      var s :| 1 <= s <= |rest| && rest == Run(|rest|, s, 1);
      assert xs == Run(|xs|, s + 1, 1);
    }
  }

  /** For 0/1 sequences, "sum at most one" and "at most one entry set" coincide. */
  lemma {:induction false} SumAtMostOne(xs: seq<int>)
    requires IsBinary(xs)
    ensures Sum(xs) <= 1 <==> AtMostOneSet(xs)
  {
    if |xs| > 0 {
      var rest := xs[1..];
      SumBinaryBounds(rest);
      SumAtMostOne(rest);
      SumZero(rest);
      if xs[0] == 1 {
        if Sum(rest) == 0 {
          forall i | 0 < i < |xs|
            ensures xs[i] == 0
          {
            assert xs[i] == rest[i - 1];
          }
        } else {
          var j :| 0 <= j < |rest| && rest[j] != 0;
          assert xs[j + 1] == 1;
        }
      } else {
        if AtMostOneSet(rest) {
          forall i, j | 0 <= i < |xs| && 0 <= j < |xs| && xs[i] == 1 && xs[j] == 1
            ensures i == j
          {
            assert i > 0 && j > 0;
            assert rest[i - 1] == 1 && rest[j - 1] == 1;
          }
        }
        if AtMostOneSet(xs) {
          forall i, j | 0 <= i < |rest| && 0 <= j < |rest| && rest[i] == 1 && rest[j] == 1
            ensures i == j
          {
            assert xs[i + 1] == 1 && xs[j + 1] == 1;
          }
        }
      }
    }
  }

  /**
    The sum of any slice of a run counts the cells the slice shares with it:
    Sum(Run(n, s, k)[i..j]) is the overlap of [i, j) with [s-1, s-1+k).
  */
  lemma {:induction false} SumRunSlice(n: nat, s: int, k: int, i: nat, j: nat)
    requires i <= j <= n
    ensures Sum(Run(n, s, k)[i..j]) == Overlap(i, j, s - 1, s - 1 + k)
    decreases j - i
  {
    var x := Run(n, s, k);
    if i < j {
      SumRunSlice(n, s, k, i, j - 1);
      assert x[i..j] == x[i..j - 1] + [x[j - 1]];
      SumAppend(x[i..j - 1], [x[j - 1]]);
    }
  }

  /** A run with positive length and within bounds sums to its length. */
  lemma RunSum(n: nat, s: int, k: int)
    requires 1 <= s && s + k - 1 <= n && k >= 0
    ensures Sum(Run(n, s, k)) == k
  {
    SumRunSlice(n, s, k, 0, n);
    assert Run(n, s, k)[0..n] == Run(n, s, k);
  }

}
