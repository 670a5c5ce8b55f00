/**
  The at-most-once programs (Example1, Example2): every letter is a
  once-letter (`upper(1)` on its slots), so a placement is a partial
  matching between letters and numbers.

  A matching gives each letter a number 1..N, or 0 for "not placed", and no
  two placed letters share a number.
*/
module Matching {
  import opened Sums
  import opened Linear
  import opened Slots
  import opened Builders
  import opened Encoding
  import opened Placement

  /** L letters, each to be placed at most once. */
  function OnceLetters(L: nat): (r: seq<Letter>)
    ensures |r| == L && forall l :: 0 <= l < L ==> r[l] == OnceLetter
  {
    seq(L, _ => OnceLetter)
  }

  /** A once-letter's only expression is `<= 1` over the variables of its row, numbers 1..N in order. */
  lemma OnceLetterExpression(L: nat, N: nat, c: Counters, l: nat)
    requires l < L
    ensures LetterConstraints(Filter(AllSlots(L, N), OfLetter(l)), OnceLetter, c).constraints ==
      [Constraint(c.funcs + 1, Ones(Occupied(Row(l, N))), Le, 1)]
  {
    LetterSlotsOfAll(L, N, l);
  }

  /** An injective partial map from the L letters to the numbers 1..N (0 = not placed). */
  predicate IsMatching(L: nat, N: nat, m: seq<int>)
  {
    && |m| == L
    && (forall l :: 0 <= l < L ==> 0 <= m[l] <= N)
    && (forall l1, l2 :: 0 <= l1 < l2 < L && m[l1] != 0 ==> m[l1] != m[l2])
  }

  /** For once-letters, valid placements are exactly the partial matchings. */
  lemma MatchingIsPlacement(L: nat, N: nat, m: seq<int>)
    ensures ValidPlacement(OnceLetters(L), N, m) <==> IsMatching(L, N, m)
  {
    var letters := OnceLetters(L);
    if |m| == L && forall l :: 0 <= l < L ==> 0 <= m[l] <= N {
      forall l1, l2 | 0 <= l1 < l2 < L
        ensures Overlap(m[l1], m[l1] + Span(letters[l1], m[l1]), m[l2], m[l2] + Span(letters[l2], m[l2])) == 0
          <==> (m[l1] != 0 ==> m[l1] != m[l2])
      {
      }
    }
  }

  /**
    The solutions of an at-most-once model, read through their occupancy
    grids, are exactly the grids of partial matchings.
  */
  lemma MatchingSolutions(L: nat, N: nat, g: seq<seq<int>>)
    ensures (exists a :: Feasible(BuildModel(OnceLetters(L), N), a) && Occupancy(a, L, N) == g) <==>
      (exists m :: IsMatching(L, N, m) && g == PlacementGrid(OnceLetters(L), N, m))
  {
    Characterization(OnceLetters(L), N, g);
    if exists m :: ValidPlacement(OnceLetters(L), N, m) && g == PlacementGrid(OnceLetters(L), N, m) {
      var m :| ValidPlacement(OnceLetters(L), N, m) && g == PlacementGrid(OnceLetters(L), N, m);
      MatchingIsPlacement(L, N, m);
    }
    if exists m :: IsMatching(L, N, m) && g == PlacementGrid(OnceLetters(L), N, m) {
      var m :| IsMatching(L, N, m) && g == PlacementGrid(OnceLetters(L), N, m);
      MatchingIsPlacement(L, N, m);
    }
  }

  /** The assignment that sets every variable to 0. */
  function Nothing(): Assignment
  {
    _ => 0
  }

  lemma NothingEncoded(L: nat, N: nat)
    ensures LettersEncoded(OnceLetters(L), N, Nothing())
  {
    var letters := OnceLetters(L);
    forall i | 0 <= i < L
      ensures RowEncoding(letters[i], Values(Occupied(Row(i, N)), Nothing()), Values(GroupIds(letters, N, i), Nothing()))
    {
      SumZero(Values(Occupied(Row(i, N)), Nothing()));
    }
  }

  lemma NothingFree(L: nat, N: nat)
    ensures FreeFrom(Nothing(), L, N, 0)
  {
    forall n | 0 < n <= N
      ensures NumberFree(Nothing(), L, N, n)
    {
      SumZero(Values(Occupied(ColumnSlots(L, N, n)), Nothing()));
    }
  }

  /** Placing no letter at all satisfies every expression of an at-most-once model: all of them are `<= 1`. */
  lemma NothingPlaced(L: nat, N: nat)
    ensures Feasible(BuildModel(OnceLetters(L), N), Nothing())
  {
    var letters := OnceLetters(L);
    var a := Nothing();
    assert BinaryUpTo(a, VarCount(letters, N));
    NothingEncoded(L, N);
    NothingFree(L, N);
    ModelMeaning(letters, N, a);
  }

}
