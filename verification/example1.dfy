/**
  Example1: five once-letters A..E on the numbers 1..5. Every letter and
  every number gets `upper(1)` over its five slots, and nothing else is
  added. Letter l of the enum is letter index l of the model.
*/
module Example1 {
  import opened Linear
  import opened Slots
  import opened Builders
  import opened Placement
  import opened Matching

  const N: nat := 5
  const L: nat := 5

  /** The model `main` hands to the solver. */
  function MainModel(): Model
  {
    BuildModel(OnceLetters(L), N)
  }

  /**
    `Slot.all` has 25 slots, letter-major: the slot of letter l and number n
    sits at position 5l + n - 1 and owns variable 5l + n, so every pair
    occurs once and variables 1..25 are the slots.
  */
  lemma Shape()
    ensures |AllSlots(L, N)| == 25
    ensures forall l, n :: 0 <= l < L && 1 <= n <= N ==> AllSlots(L, N)[SlotVar(N, l, n) - 1] == Slot(l, n, SlotVar(N, l, n))
    ensures forall i, j :: 0 <= i < j < 25 ==>
      (AllSlots(L, N)[i].letter, AllSlots(L, N)[i].number) != (AllSlots(L, N)[j].letter, AllSlots(L, N)[j].number)
  {
    AllSlotsOrdered(L, N);
    forall l, n | 0 <= l < L && 1 <= n <= N
      ensures AllSlots(L, N)[SlotVar(N, l, n) - 1] == Slot(l, n, SlotVar(N, l, n))
    {
      AllSlotsAt(L, N, l, n);
    }
  }

  /**
    A letter's expression is `<= 1` over the variables of the letter's five
    slots, numbers 1..5 in order.
  */
  lemma LetterExpression(c: Counters, l: nat)
    requires l < L
    ensures LetterConstraints(Filter(AllSlots(L, N), OfLetter(l)), OnceLetter, c).constraints ==
      [Constraint(c.funcs + 1, Ones(Occupied(Row(l, N))), Le, 1)]
    ensures |Row(l, N)| == 5 && forall j :: 0 <= j < 5 ==> Occupied(Row(l, N))[j] == 5 * l + j + 1
  {
    RowVariables(l);
    OnceLetterExpression(L, N, c, l);
  }

  lemma RowVariables(l: nat)
    ensures |Row(l, N)| == 5 && forall j :: 0 <= j < 5 ==> Occupied(Row(l, N))[j] == 5 * l + j + 1
  {
  }

  /**
    A number's expression is `<= 1` over the variables of the number's five
    slots, letters A..E in order.
  */
  lemma NumberExpression(c: Counters, n: nat)
    requires 1 <= n <= N
    ensures var e := NumberConstraint(Filter(AllSlots(L, N), OfNumber(n)), c);
      && e.kind == Le && e.bound == 1
      && |e.terms| == 5
      && forall l :: 0 <= l < 5 ==> e.terms[l] == Term(SlotVar(N, l, n), 1)
  {
    NumberSlotsOfAll(L, N, n);
  }

  /**
    The solutions of Example1, read through their occupancy grids, are
    exactly the grids of partial matchings between the letters A..E and the
    numbers 1..5.
  */
  lemma Solutions(g: seq<seq<int>>)
    ensures (exists a :: Feasible(MainModel(), a) && Occupancy(a, L, N) == g) <==>
      (exists m :: IsMatching(L, N, m) && g == PlacementGrid(OnceLetters(L), N, m))
  {
    MatchingSolutions(L, N, g);
  }

  /** The all-zero assignment is a solution: every expression is an upper bound of 1. */
  lemma ZeroIsSolution()
    ensures Feasible(MainModel(), Nothing())
  {
    NothingPlaced(L, N);
  }

}
