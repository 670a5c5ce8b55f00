/**
  Example2: five once-letters A..E on the numbers 1..5 (each letter and each
  number `upper(1)`), and the same two side expressions as Example3, each
  `level(1)`: over C's slots at numbers >= 3 and over D's slots at
  numbers <= 2. Letter l of the enum is letter index l of the model.
*/
module Example2 {
  import opened Sums
  import opened Linear
  import opened Slots
  import opened Builders
  import opened Placement
  import opened Matching
  import opened Sides

  const N: nat := 5
  const L: nat := 5
  const C: nat := 2
  const D: nat := 3

  /** The model `main` hands to the solver. */
  function MainModel(): Model
  {
    var slots := AllSlots(L, N);
    var withC := AddSide(BuildModel(OnceLetters(L), N), Filter(slots, OfLetter(C)), NumberAtLeast(3));
    AddSide(withC, Filter(slots, OfLetter(D)), NumberAtMost(2))
  }

  /** The matchings the side expressions leave: C placed at 3, 4 or 5, and D placed at 1 or 2. */
  predicate Allowed(m: seq<int>)
  {
    IsMatching(L, N, m) && 3 <= m[C] && 1 <= m[D] <= 2
  }

  /** `Slot.all` has 25 slots, one per (letter, number) pair; every letter's slots run over the numbers 1..5 in order. */
  lemma Shape()
    ensures |AllSlots(L, N)| == 25
    ensures forall i, j :: 0 <= i < j < 25 ==>
      (AllSlots(L, N)[i].letter, AllSlots(L, N)[i].number) != (AllSlots(L, N)[j].letter, AllSlots(L, N)[j].number)
    ensures forall l :: 0 <= l < L ==> Filter(AllSlots(L, N), OfLetter(l)) == Row(l, N)
    ensures forall n :: 1 <= n <= N ==> Filter(AllSlots(L, N), OfNumber(n)) == ColumnSlots(L, N, n)
  {
    AllSlotsOrdered(L, N);
    forall l | 0 <= l < L
      ensures Filter(AllSlots(L, N), OfLetter(l)) == Row(l, N)
    {
      LetterSlotsOfAll(L, N, l);
    }
    forall n | 1 <= n <= N
      ensures Filter(AllSlots(L, N), OfNumber(n)) == ColumnSlots(L, N, n)
    {
      NumberSlotsOfAll(L, N, n);
    }
  }

  /**
    On a solution whose grid is a matching's, the C side expression holds
    exactly when C is placed at 3 or later, and the D side expression
    exactly when D is placed at 1 or 2.
  */
  lemma SideFacts(a: Assignment, m: seq<int>)
    requires IsMatching(L, N, m)
    requires Occupancy(a, L, N) == PlacementGrid(OnceLetters(L), N, m)
    ensures Sum(Values(Occupied(Filter(Filter(AllSlots(L, N), OfLetter(C)), NumberAtLeast(3))), a)) == 1
      <==> m[C] >= 3
    ensures Sum(Values(Occupied(Filter(Filter(AllSlots(L, N), OfLetter(D)), NumberAtMost(2))), a)) == 1
      <==> 1 <= m[D] <= 2
  {
    assert Occupancy(a, L, N)[C] == Run(N, m[C], Span(OnceLetter, m[C]));
    AtLeastCount(L, N, C, 3, a, m[C], Span(OnceLetter, m[C]));
    OnceAtLeast(N, 3, m[C]);
    assert Occupancy(a, L, N)[D] == Run(N, m[D], Span(OnceLetter, m[D]));
    AtMostCount(L, N, D, 2, a, m[D], Span(OnceLetter, m[D]));
    OnceAtMost(2, m[D]);
  }

  /** The model's solutions before and after the side expressions. */
  lemma MainModelMeaning(a: Assignment)
    ensures Feasible(MainModel(), a) <==>
      && Feasible(BuildModel(OnceLetters(L), N), a)
      && Sum(Values(Occupied(Filter(Filter(AllSlots(L, N), OfLetter(C)), NumberAtLeast(3))), a)) == 1
      && Sum(Values(Occupied(Filter(Filter(AllSlots(L, N), OfLetter(D)), NumberAtMost(2))), a)) == 1
  {
    var slots := AllSlots(L, N);
    var withC := AddSide(BuildModel(OnceLetters(L), N), Filter(slots, OfLetter(C)), NumberAtLeast(3));
    SideMeaning(withC, Filter(slots, OfLetter(D)), NumberAtMost(2), a);
    SideMeaning(BuildModel(OnceLetters(L), N), Filter(slots, OfLetter(C)), NumberAtLeast(3), a);
  }

  /**
    The solutions of Example2, read through their occupancy grids, are
    exactly the grids of partial matchings with C at 3..5 and D at 1..2.
  */
  lemma Solutions(g: seq<seq<int>>)
    ensures (exists a :: Feasible(MainModel(), a) && Occupancy(a, L, N) == g) <==>
      (exists m :: Allowed(m) && g == PlacementGrid(OnceLetters(L), N, m))
  {
    var letters := OnceLetters(L);
    if exists a :: Feasible(MainModel(), a) && Occupancy(a, L, N) == g {
      var a :| Feasible(MainModel(), a) && Occupancy(a, L, N) == g;
      MainModelMeaning(a);
      Sound(letters, N, a);
      var m :| ValidPlacement(letters, N, m) && Occupancy(a, L, N) == PlacementGrid(letters, N, m);
      MatchingIsPlacement(L, N, m);
      SideFacts(a, m);
      assert Allowed(m);
    }
    if exists m :: Allowed(m) && g == PlacementGrid(letters, N, m) {
      var m :| Allowed(m) && g == PlacementGrid(letters, N, m);
      MatchingIsPlacement(L, N, m);
      Complete(letters, N, m);
      var a := PlacementAssignment(letters, N, m);
      SideFacts(a, m);
      MainModelMeaning(a);
      assert Feasible(MainModel(), a) && Occupancy(a, L, N) == g;
    }
  }

  /** In every solution C occupies exactly one number, in 3..5, and D exactly one number, in 1..2. */
  lemma SolutionShape(a: Assignment)
    requires Feasible(MainModel(), a)
    ensures exists s :: 3 <= s <= 5 && Occupancy(a, L, N)[C] == Run(N, s, 1)
    ensures exists s :: 1 <= s <= 2 && Occupancy(a, L, N)[D] == Run(N, s, 1)
  {
    var g := Occupancy(a, L, N);
    Solutions(g);
    var m :| Allowed(m) && g == PlacementGrid(OnceLetters(L), N, m);
    assert g[C] == Run(N, m[C], 1);
    assert g[D] == Run(N, m[D], 1);
  }

  /** The grid with C at 3, D at 1 and no other letter placed. */
  function OnlyCAndD(): seq<seq<int>>
  {
    PlacementGrid(OnceLetters(L), N, [0, 0, 3, 1, 0])
  }

  /** In that grid, C's row marks number 3, D's row number 1, and the rows of A, B and E are empty. */
  lemma OnlyCAndDRows()
    ensures OnlyCAndD()[0] == OnlyCAndD()[1] == OnlyCAndD()[4] == [0, 0, 0, 0, 0]
    ensures OnlyCAndD()[C] == [0, 0, 1, 0, 0] && OnlyCAndD()[D] == [1, 0, 0, 0, 0]
  {
    var g := OnlyCAndD();
    assert g[0] == Run(N, 0, 0) && g[1] == Run(N, 0, 0) && g[4] == Run(N, 0, 0);
    assert g[C] == Run(N, 3, 1) && g[D] == Run(N, 1, 1);
  }

  /**
    The letter expressions are upper bounds, not equalities: some solution
    has the grid `OnlyCAndD`, leaving A, B and E off every number.
  */
  lemma OthersMayBeUnplaced()
    ensures exists a :: Feasible(MainModel(), a) && Occupancy(a, L, N) == OnlyCAndD()
  {
    var m := [0, 0, 3, 1, 0];
    assert IsMatching(L, N, m);
    Solutions(OnlyCAndD());
  }

}
