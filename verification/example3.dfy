/**
  Example3: the letters A, B, C, D, E need 1, 2, 1, 3 and 1 consecutive
  numbers on the numbers 1..9. After the letters' and the numbers'
  expressions, `main` adds two side expressions, each `level(1)`:
  - over C's slots at numbers >= 3;
  - over D's slots at numbers <= 2.
  Letter l of the enum is letter index l of the model (A = 0, .., E = 4).
*/
module Example3 {
  import opened Sums
  import opened Linear
  import opened Slots
  import opened Builders
  import opened Placement
  import opened Sides

  const N: nat := 9
  const B: nat := 1
  const C: nat := 2
  const D: nat := 3

  /** The enum `Letter(slotsNeeded)`: A, C, E need one number, B two, D three. */
  const Letters: seq<Letter> := [RunLetter(1), RunLetter(2), RunLetter(1), RunLetter(3), RunLetter(1)]

  /** The model `main` hands to the solver. */
  function MainModel(): Model
  {
    var slots := AllSlots(|Letters|, N);
    var withC := AddSide(BuildModel(Letters, N), Filter(slots, OfLetter(C)), NumberAtLeast(3));
    AddSide(withC, Filter(slots, OfLetter(D)), NumberAtMost(2))
  }

  /** The placements the side expressions leave: C starts at 3 or later, D occupies exactly 2, 3, 4. */
  predicate Allowed(starts: seq<int>)
  {
    ValidPlacement(Letters, N, starts) && starts[C] >= 3 && starts[D] == 2
  }

  /** `Slot.all` has 45 slots, one per (letter, number) pair. */
  lemma Shape()
    ensures |AllSlots(|Letters|, N)| == 45
    ensures forall i, j :: 0 <= i < j < 45 ==>
      (AllSlots(|Letters|, N)[i].letter, AllSlots(|Letters|, N)[i].number) !=
      (AllSlots(|Letters|, N)[j].letter, AllSlots(|Letters|, N)[j].number)
  {
    AllSlotsOrdered(|Letters|, N);
  }

  /**
    B and D get 8 and 7 group binaries, one per rolling batch of their 9
    sorted slots; A, C and E, needing one number, get none.
  */
  lemma Groups(c: Counters)
    ensures |LetterConstraints(Filter(AllSlots(|Letters|, N), OfLetter(B)), Letters[B], c).created| == 8
    ensures |LetterConstraints(Filter(AllSlots(|Letters|, N), OfLetter(D)), Letters[D], c).created| == 7
    ensures |LetterConstraints(Filter(AllSlots(|Letters|, N), OfLetter(0)), Letters[0], c).created| == 0
    ensures |LetterConstraints(Filter(AllSlots(|Letters|, N), OfLetter(C)), Letters[C], c).created| == 0
    ensures |LetterConstraints(Filter(AllSlots(|Letters|, N), OfLetter(4)), Letters[4], c).created| == 0
  {
    forall l | 0 <= l < |Letters|
      ensures |Filter(AllSlots(|Letters|, N), OfLetter(l))| == N
    {
      LetterSlotsOfAll(|Letters|, N, l);
    }
  }

  /** A, C and E need one number and create no group binary; B creates 8 and D 7. */
  lemma GroupTotal()
    ensures GroupsBefore(Letters, N, |Letters|) == 15
  {
    assert GroupsBefore(Letters, N, 1) == 0;
    assert GroupsBefore(Letters, N, 2) == 8;
    assert GroupsBefore(Letters, N, 3) == 8;
    assert GroupsBefore(Letters, N, 4) == 15;
  }

  /** The model has 45 slot variables and 8 + 7 group binaries. */
  lemma VariableTotal()
    ensures MainModel().counters.vars == 60
  {
    assert MainModel().counters.vars == BuildModel(Letters, N).counters.vars;
    VariableCount(Letters, N);
    GroupTotal();
  }

  /**
    On a solution whose grid is a placement's, the C side expression holds
    exactly when C starts at 3 or later, and the D side expression exactly
    when D's run of three starts at 2: a run starting at 1 covers both 1 and
    2, one starting at 3 or later covers neither.
  */
  lemma SideFacts(a: Assignment, starts: seq<int>)
    requires ValidPlacement(Letters, N, starts)
    requires Occupancy(a, |Letters|, N) == PlacementGrid(Letters, N, starts)
    ensures Sum(Values(Occupied(Filter(Filter(AllSlots(|Letters|, N), OfLetter(C)), NumberAtLeast(3))), a)) == 1
      <==> starts[C] >= 3
    ensures Sum(Values(Occupied(Filter(Filter(AllSlots(|Letters|, N), OfLetter(D)), NumberAtMost(2))), a)) == 1
      <==> starts[D] == 2
  {
    var g := Occupancy(a, |Letters|, N);
    assert StartOk(Letters[C], N, starts[C]) && StartOk(Letters[D], N, starts[D]);
    assert g[C] == Run(N, starts[C], 1);
    AtLeastCount(|Letters|, N, C, 3, a, starts[C], 1);
    CFromThree(starts[C]);
    assert g[D] == Run(N, starts[D], 3);
    AtMostCount(|Letters|, N, D, 2, a, starts[D], 3);
    DUpToTwo(starts[D]);
  }

  /** C's single number lies in 3..9 exactly when C starts at 3 or later. */
  lemma CFromThree(s: int)
    requires 1 <= s <= N
    ensures Overlap(2, N, s - 1, s) == 1 <==> s >= 3
  {
  }

  /** D's run of three meets the numbers 1..2 in exactly one number only when it starts at 2. */
  lemma DUpToTwo(s: int)
    requires 1 <= s
    ensures Overlap(0, 2, s - 1, s + 2) == 1 <==> s == 2
  {
  }

  /** The model's solutions before and after the side expressions. */
  lemma MainModelMeaning(a: Assignment)
    ensures Feasible(MainModel(), a) <==>
      && Feasible(BuildModel(Letters, N), a)
      && Sum(Values(Occupied(Filter(Filter(AllSlots(|Letters|, N), OfLetter(C)), NumberAtLeast(3))), a)) == 1
      && Sum(Values(Occupied(Filter(Filter(AllSlots(|Letters|, N), OfLetter(D)), NumberAtMost(2))), a)) == 1
  {
    var slots := AllSlots(|Letters|, N);
    var withC := AddSide(BuildModel(Letters, N), Filter(slots, OfLetter(C)), NumberAtLeast(3));
    SideMeaning(withC, Filter(slots, OfLetter(D)), NumberAtMost(2), a);
    SideMeaning(BuildModel(Letters, N), Filter(slots, OfLetter(C)), NumberAtLeast(3), a);
  }

  /**
    The solutions of Example3, read through their occupancy grids, are
    exactly the grids of valid placements with C at 3 or later and D on
    2, 3, 4.
  */
  lemma Solutions(g: seq<seq<int>>)
    ensures (exists a :: Feasible(MainModel(), a) && Occupancy(a, |Letters|, N) == g) <==>
      (exists starts :: Allowed(starts) && g == PlacementGrid(Letters, N, starts))
  {
    if exists a :: Feasible(MainModel(), a) && Occupancy(a, |Letters|, N) == g {
      var a :| Feasible(MainModel(), a) && Occupancy(a, |Letters|, N) == g;
      MainModelMeaning(a);
      Sound(Letters, N, a);
      var starts :| ValidPlacement(Letters, N, starts) && Occupancy(a, |Letters|, N) == PlacementGrid(Letters, N, starts);
      SideFacts(a, starts);
      assert Allowed(starts);
    }
    if exists starts :: Allowed(starts) && g == PlacementGrid(Letters, N, starts) {
      var starts :| Allowed(starts) && g == PlacementGrid(Letters, N, starts);
      Complete(Letters, N, starts);
      var a := PlacementAssignment(Letters, N, starts);
      SideFacts(a, starts);
      MainModelMeaning(a);
      assert Feasible(MainModel(), a) && Occupancy(a, |Letters|, N) == g;
    }
  }

  /**
    In every solution B occupies two consecutive numbers, C one number in
    3..9, and D exactly the numbers 2, 3, 4 (never 1, 2, 3, although
    "less than or equal to TWO" admits 1).
  */
  lemma SolutionShape(a: Assignment)
    requires Feasible(MainModel(), a)
    ensures exists s :: 1 <= s <= 8 && Occupancy(a, |Letters|, N)[B] == Run(N, s, 2)
    ensures exists s :: 3 <= s <= 9 && Occupancy(a, |Letters|, N)[C] == Run(N, s, 1)
    ensures Occupancy(a, |Letters|, N)[D] == Run(N, 2, 3)
  {
    var g := Occupancy(a, |Letters|, N);
    Solutions(g);
    var starts :| Allowed(starts) && g == PlacementGrid(Letters, N, starts);
    assert g[B] == Run(N, starts[B], 2);
    assert g[C] == Run(N, starts[C], 1);
  }

  /** A sample placement: A at 1, D on 2..4, B on 5..6, C at 7, E at 8. */
  const Sample: seq<int> := [1, 5, 7, 2, 8]

  /** The sample placement is valid and meets both side expressions. */
  lemma SampleAllowed()
    ensures Allowed(Sample)
  {
    assert forall l :: 0 <= l < |Letters| ==> StartOk(Letters[l], N, Sample[l]);
  }

  /** Example3 has solutions, among them the sample placement's grid. */
  lemma Satisfiable()
    ensures exists a :: Feasible(MainModel(), a) && Occupancy(a, |Letters|, N) == PlacementGrid(Letters, N, Sample)
  {
    SampleAllowed();
    Solutions(PlacementGrid(Letters, N, Sample));
  }

}
