/**
  The side constraints `main` adds in Example2 and Example3: `level(1)` over
  those of one letter's sorted slots whose number is at least (or at most) a
  bound. On a placed letter such an expression counts how much of the
  letter's run falls on the selected numbers.
*/
module Sides {
  import opened Sums
  import opened Linear
  import opened Slots
  import opened Builders
  import opened Encoding
  import opened Placement

  /** Adding a side constraint keeps a model's solutions that occupy exactly one of the selected slots. */
  lemma SideMeaning(m: Model, letterSlots: seq<Slot>, where: Select, a: Assignment)
    ensures Feasible(AddSide(m, letterSlots, where), a) <==>
      Feasible(m, a) && Sum(Values(Occupied(Filter(letterSlots, where)), a)) == 1
  {
    var side := Constraint(m.counters.funcs + 1, Ones(Occupied(Filter(letterSlots, where))), Eq, 1);
    AllHoldAppend(m.constraints, [side], a);
    AllHoldCons(side, [], a);
    assert [side] + [] == [side];
    OnesMeaning(m.counters.funcs + 1, Occupied(Filter(letterSlots, where)), Eq, 1, a);
  }

  /**
    `Letter.slots.filter { number >= low }` on letter l: when the letter's
    row is the run of w numbers from s, the selected occupancy is the part of
    the run at numbers low .. N.
  */
  lemma AtLeastCount(L: nat, N: nat, l: nat, low: int, a: Assignment, s: int, w: int)
    requires l < L && 1 <= low <= N + 1
    requires Occupancy(a, L, N)[l] == Run(N, s, w)
    ensures Sum(Values(Occupied(Filter(Filter(AllSlots(L, N), OfLetter(l)), NumberAtLeast(low))), a)) ==
      Overlap(low - 1, N, s - 1, s - 1 + w)
  {
    var row := Row(l, N);
    assert Values(Occupied(row), a) == Run(N, s, w);
    LetterSlotsOfAll(L, N, l);
    RowAtLeast(l, N, low);
    assert row[low - 1..] == row[low - 1..N];
    ValuesSlice(row, low - 1, N, a);
    assert Run(N, s, w)[low - 1..] == Run(N, s, w)[low - 1..N];
    SumRunSlice(N, s, w, low - 1, N);
  }

  /**
    `Letter.slots.filter { number <= high }` on letter l: when the letter's
    row is the run of w numbers from s, the selected occupancy is the part of
    the run at numbers 1 .. high.
  */
  lemma AtMostCount(L: nat, N: nat, l: nat, high: int, a: Assignment, s: int, w: int)
    requires l < L && 0 <= high <= N
    requires Occupancy(a, L, N)[l] == Run(N, s, w)
    ensures Sum(Values(Occupied(Filter(Filter(AllSlots(L, N), OfLetter(l)), NumberAtMost(high))), a)) ==
      Overlap(0, high, s - 1, s - 1 + w)
  {
    var row := Row(l, N);
    assert Values(Occupied(row), a) == Run(N, s, w);
    LetterSlotsOfAll(L, N, l);
    RowAtMost(l, N, high);
    assert row[..high] == row[0..high];
    ValuesSlice(row, 0, high, a);
    assert Run(N, s, w)[..high] == Run(N, s, w)[0..high];
    SumRunSlice(N, s, w, 0, high);
  }

  /** A once-letter at s (0 = not placed) meets the numbers low..N exactly when it is placed at low or later. */
  lemma OnceAtLeast(N: nat, low: int, s: int)
    requires 1 <= low && 0 <= s <= N
    ensures Overlap(low - 1, N, s - 1, s - 1 + Span(OnceLetter, s)) == if low <= s then 1 else 0
  {
  }

  /** A once-letter at s (0 = not placed) meets the numbers 1..high exactly when it is placed at high or earlier. */
  lemma OnceAtMost(high: int, s: int)
    requires 0 <= high && 0 <= s
    ensures Overlap(0, high, s - 1, s - 1 + Span(OnceLetter, s)) == if 1 <= s <= high then 1 else 0
  {
  }

}
