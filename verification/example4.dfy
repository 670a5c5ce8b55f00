/**
  Example4: twenty letters A..T on the numbers 1..100, every letter needing
  1 or 2 consecutive numbers as drawn by `nextInt(1, maxContiguousBlocks + 1)`.
  The draws are a parameter `ks` here: `ks[l]` is letter l's `slotsNeeded`.
  There are no side expressions.
*/
module Example4 {
  import opened Sums
  import opened Linear
  import opened Builders
  import opened Placement

  const LetterCount: nat := 20
  const NumberCount: nat := 100
  const MaxContiguousBlocks: nat := 2

  /** What the random draws may return: one value in 1..maxContiguousBlocks per letter. */
  predicate Drawn(ks: seq<int>)
  {
    |ks| == LetterCount && forall l :: 0 <= l < |ks| ==> 1 <= ks[l] <= MaxContiguousBlocks
  }

  /** `Letter.all`: letter l needs `ks[l]` consecutive numbers. */
  function LettersOf(ks: seq<int>): (r: seq<Letter>)
    ensures |r| == |ks| && forall l :: 0 <= l < |ks| ==> r[l] == RunLetter(ks[l])
  {
    seq(|ks|, l requires 0 <= l < |ks| => RunLetter(ks[l]))
  }

  /** The model `main` hands to the solver for the draws `ks`. */
  function MainModel(ks: seq<int>): Model
  {
    BuildModel(LettersOf(ks), NumberCount)
  }

  /** How many of the first i letters drew 2. */
  function Twos(ks: seq<int>, i: nat): (r: nat)
    requires i <= |ks|
    ensures r <= i
  {
    if i == 0 then 0 else Twos(ks, i - 1) + (if ks[i - 1] == 2 then 1 else 0)
  }

  /**
    A letter that drew 2 gets one group binary per rolling batch of its 100
    sorted slots, 99 of them; a letter that drew 1 gets none.
  */
  lemma {:induction false} GroupsOfDraws(ks: seq<int>, i: nat)
    requires i <= |ks|
    requires forall l :: 0 <= l < |ks| ==> 1 <= ks[l] <= MaxContiguousBlocks
    ensures GroupsBefore(LettersOf(ks), NumberCount, i) == (NumberCount - 1) * Twos(ks, i)
  {
    if i > 0 {
      GroupsOfDraws(ks, i - 1);
    }
  }

  /**
    `model.countVariables()`: the 2000 slot binaries and 99 group binaries per
    letter that drew 2, so between 2000 and 3980 variables.
  */
  lemma VariableCount(ks: seq<int>)
    requires Drawn(ks)
    ensures MainModel(ks).counters.vars == LetterCount * NumberCount + (NumberCount - 1) * Twos(ks, LetterCount)
    ensures 2000 <= MainModel(ks).counters.vars <= 3980
  {
    Placement.VariableCount(LettersOf(ks), NumberCount);
    GroupsOfDraws(ks, LetterCount);
  }

  /**
    A schedule for the draws: letter l occupies the numbers
    starts[l] .. starts[l] + ks[l] - 1, inside 1..100, and no two letters
    share a number.
  */
  predicate Schedule(ks: seq<int>, starts: seq<int>)
    requires Drawn(ks)
  {
    && |starts| == LetterCount
    && (forall l :: 0 <= l < LetterCount ==> 1 <= starts[l] && starts[l] + ks[l] - 1 <= NumberCount)
    && (forall l1, l2 :: 0 <= l1 < l2 < LetterCount ==>
          starts[l1] + ks[l1] <= starts[l2] || starts[l2] + ks[l2] <= starts[l1])
  }

  /** For run letters of width 1 or 2, valid placements are exactly the schedules. */
  lemma ScheduleIsPlacement(ks: seq<int>, starts: seq<int>)
    requires Drawn(ks)
    ensures ValidPlacement(LettersOf(ks), NumberCount, starts) <==> Schedule(ks, starts)
  {
    var letters := LettersOf(ks);
    if |starts| == LetterCount {
      forall l1, l2 | 0 <= l1 < l2 < LetterCount
        ensures Overlap(starts[l1], starts[l1] + Span(letters[l1], starts[l1]),
                        starts[l2], starts[l2] + Span(letters[l2], starts[l2])) == 0
          <==> (starts[l1] + ks[l1] <= starts[l2] || starts[l2] + ks[l2] <= starts[l1])
      {
      }
    }
  }

  /**
    The solutions of Example4, read through their occupancy grids, are
    exactly the grids of schedules: every letter on its drawn number of
    consecutive numbers, no number used twice.
  */
  lemma Solutions(ks: seq<int>, g: seq<seq<int>>)
    requires Drawn(ks)
    ensures (exists a :: Feasible(MainModel(ks), a) && Occupancy(a, LetterCount, NumberCount) == g) <==>
      (exists starts :: Schedule(ks, starts) && g == PlacementGrid(LettersOf(ks), NumberCount, starts))
  {
    var letters := LettersOf(ks);
    Characterization(letters, NumberCount, g);
    if exists starts :: ValidPlacement(letters, NumberCount, starts) && g == PlacementGrid(letters, NumberCount, starts) {
      var starts :| ValidPlacement(letters, NumberCount, starts) && g == PlacementGrid(letters, NumberCount, starts);
      ScheduleIsPlacement(ks, starts);
    }
    if exists starts :: Schedule(ks, starts) && g == PlacementGrid(letters, NumberCount, starts) {
      var starts :| Schedule(ks, starts) && g == PlacementGrid(letters, NumberCount, starts);
      ScheduleIsPlacement(ks, starts);
    }
  }

  /** In every solution letter l occupies exactly `ks[l]` consecutive numbers. */
  lemma SolutionShape(ks: seq<int>, a: Assignment, l: nat)
    requires Drawn(ks) && l < LetterCount
    requires Feasible(MainModel(ks), a)
    ensures exists s :: 1 <= s && s + ks[l] - 1 <= NumberCount && Occupancy(a, LetterCount, NumberCount)[l] == Run(NumberCount, s, ks[l])
  {
    var g := Occupancy(a, LetterCount, NumberCount);
    Solutions(ks, g);
    var starts :| Schedule(ks, starts) && g == PlacementGrid(LettersOf(ks), NumberCount, starts);
    assert g[l] == Run(NumberCount, starts[l], ks[l]);
  }

  /** Letter l at 2l + 1: each letter gets the pair of numbers 2l + 1, 2l + 2 to itself. */
  function Packed(): (r: seq<int>)
    ensures |r| == LetterCount && forall l :: 0 <= l < LetterCount ==> r[l] == 2 * l + 1
  {
    seq(LetterCount, l => 2 * l + 1)
  }

  /** Whatever the draws, Example4 has a solution: packing the letters from 1 on uses at most 40 numbers. */
  lemma Satisfiable(ks: seq<int>)
    requires Drawn(ks)
    ensures Schedule(ks, Packed())
    ensures exists a :: Feasible(MainModel(ks), a)
  {
    var starts := Packed();
    assert Schedule(ks, starts);
    Solutions(ks, PlacementGrid(LettersOf(ks), NumberCount, starts));
  }

}
