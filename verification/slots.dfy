/**
  The slot space: one `Slot(letter, number)` per pair of the Cartesian
  product Letters x Numbers, each owning one binary occupancy variable.

  Letters are identified by their position 0..L-1 in the letter list (enum
  ordinal, or position in `Letter.all`), numbers by their value 1..N.
  `Slot.all` is built letter-major (`flatMap` over letters, `map` over
  numbers) and every `Slot` constructor calls `variable()`, and nothing calls
  `variable()` before `Slot.all` is first touched, so the slot of letter l and
  number n owns variable id l * N + n.
*/
module Slots {

  datatype Slot = Slot(letter: nat, number: nat, occupied: nat)

  /** Id of the occupancy variable of letter l at number n (1 <= n <= N). */
  function SlotVar(N: nat, l: nat, n: nat): nat
  {
    l * N + n
  }

  /** The slots of letter l, for numbers 1..N in ascending order. */
  function Row(l: nat, N: nat): seq<Slot>
  {
    seq(N, j requires 0 <= j < N => Slot(l, j + 1, SlotVar(N, l, j + 1)))
  }

  /** The slots at number n, for letters 0..L-1 in ascending order. */
  function ColumnSlots(L: nat, N: nat, n: nat): seq<Slot>
  {
    seq(L, l requires 0 <= l < L => Slot(l, n, SlotVar(N, l, n)))
  }

  /**
    `Slot.all`: L * N slots, letter-major, each pair once, the i-th slot
    owning variable i + 1.
  */
  function AllSlots(L: nat, N: nat): (r: seq<Slot>)
    ensures |r| == L * N
    ensures forall i :: 0 <= i < |r| ==> r[i].occupied == i + 1
    ensures forall i :: 0 <= i < |r| ==> r[i].letter < L && 1 <= r[i].number <= N
  {
    if L == 0 then []
    else
      assert L * N == (L - 1) * N + N;
      AllSlots(L - 1, N) + Row(L - 1, N)
  }

  /** `Slot.all` is strictly increasing in (letter, number), so no pair occurs twice. */
  lemma {:induction false} AllSlotsOrdered(L: nat, N: nat)
    ensures forall i, j :: 0 <= i < j < |AllSlots(L, N)| ==>
      var r := AllSlots(L, N);
      r[i].letter < r[j].letter || (r[i].letter == r[j].letter && r[i].number < r[j].number)
  {
    if L > 0 {
      var prefix := AllSlots(L - 1, N);
      var r := AllSlots(L, N);
      assert r == prefix + Row(L - 1, N);
      AllSlotsOrdered(L - 1, N);
      forall i, j | 0 <= i < j < |r|
        ensures r[i].letter < r[j].letter || (r[i].letter == r[j].letter && r[i].number < r[j].number)
      {
        if j < |prefix| {
          assert r[i] == prefix[i] && r[j] == prefix[j];
        } else if i < |prefix| {
          assert r[i] == prefix[i] && r[j].letter == L - 1;
        }
      }
    }
  }

  /** The slot of every pair (l, n) sits at index l * N + n - 1 of `Slot.all`. */
  lemma {:induction false} AllSlotsAt(L: nat, N: nat, l: nat, n: nat)
    requires l < L && 1 <= n <= N
    ensures SlotVar(N, l, n) <= L * N
    ensures AllSlots(L, N)[SlotVar(N, l, n) - 1] == Slot(l, n, SlotVar(N, l, n))
  {
    assert L * N == (L - 1) * N + N;
    if l < L - 1 {
      AllSlotsAt(L - 1, N, l, n);
    }
  }

  /** The filter predicates the programs apply to slot lists. */
  datatype Select =
    | OfLetter(letter: nat)      // it.letter == this
    | OfNumber(number: nat)      // it.number == this
    | NumberAtLeast(low: int)    // it.number.value >= low
    | NumberAtMost(high: int)    // it.number.value <= high

  predicate Keeps(p: Select, s: Slot)
  {
    match p
    case OfLetter(l) => s.letter == l
    case OfNumber(n) => s.number == n
    case NumberAtLeast(m) => s.number >= m
    case NumberAtMost(m) => s.number <= m
  }

  /** Kotlin's order-preserving `filter`. */
  function Filter(slots: seq<Slot>, p: Select): (r: seq<Slot>)
    ensures |r| <= |slots|
  {
    if |slots| == 0 then []
    else if Keeps(p, slots[0]) then [slots[0]] + Filter(slots[1..], p)
    else Filter(slots[1..], p)
  }

  /** The occupancy variables of `slots`, in order. */
  function Occupied(slots: seq<Slot>): seq<nat>
  {
    seq(|slots|, i requires 0 <= i < |slots| => slots[i].occupied)
  }

  lemma {:induction false} FilterAppend(xs: seq<Slot>, ys: seq<Slot>, p: Select)
    ensures Filter(xs + ys, p) == Filter(xs, p) + Filter(ys, p)
  {
    if |xs| == 0 {
      assert xs + ys == ys;
    } else {
      assert (xs + ys)[0] == xs[0];
      assert (xs + ys)[1..] == xs[1..] + ys;
      FilterAppend(xs[1..], ys, p);
      if Keeps(p, xs[0]) {
        calc {
          Filter(xs + ys, p);
          [xs[0]] + Filter(xs[1..] + ys, p);
          [xs[0]] + (Filter(xs[1..], p) + Filter(ys, p));
          ([xs[0]] + Filter(xs[1..], p)) + Filter(ys, p);
        }
      }
    }
  }

  lemma {:induction false} FilterKeepsAll(xs: seq<Slot>, p: Select)
    requires forall i :: 0 <= i < |xs| ==> Keeps(p, xs[i])
    ensures Filter(xs, p) == xs
  {
    if |xs| > 0 {
      FilterKeepsAll(xs[1..], p);
    }
  }

  lemma {:induction false} FilterDropsAll(xs: seq<Slot>, p: Select)
    requires forall i :: 0 <= i < |xs| ==> !Keeps(p, xs[i])
    ensures Filter(xs, p) == []
  {
    if |xs| > 0 {
      FilterDropsAll(xs[1..], p);
    }
  }

  /** `Slot.all` for L letters is the one for L - 1 letters followed by the last letter's row. */
  lemma AllSlotsSplit(L: nat, N: nat)
    requires L > 0
    ensures AllSlots(L, N) == AllSlots(L - 1, N) + Row(L - 1, N)
  {
  }

  lemma EarlierLettersDropped(L: nat, N: nat)
    requires L > 0
    ensures Filter(AllSlots(L - 1, N), OfLetter(L - 1)) == []
  {
    var prefix := AllSlots(L - 1, N);
    assert forall i :: 0 <= i < |prefix| ==> prefix[i].letter < L - 1;
    FilterDropsAll(prefix, OfLetter(L - 1));
  }

  /**
    `Letter.slots` (Slot.all filtered by letter, then sorted by number): the
    filter alone already yields the letter's N slots in ascending number, so
    the stable sort leaves it unchanged.
  */
  lemma {:induction false} LetterSlotsOfAll(L: nat, N: nat, l: nat)
    requires l < L
    ensures Filter(AllSlots(L, N), OfLetter(l)) == Row(l, N)
  {
    AllSlotsSplit(L, N);
    FilterAppend(AllSlots(L - 1, N), Row(L - 1, N), OfLetter(l));
    if l == L - 1 {
      EarlierLettersDropped(L, N);
      FilterKeepsAll(Row(l, N), OfLetter(l));
    } else {
      LetterSlotsOfAll(L - 1, N, l);
      FilterDropsAll(Row(L - 1, N), OfLetter(l));
    }
  }

  /** A letter's row holds exactly one slot for each number 1..N. */
  lemma RowAtNumber(l: nat, N: nat, n: nat)
    requires 1 <= n <= N
    ensures Filter(Row(l, N), OfNumber(n)) == [Slot(l, n, SlotVar(N, l, n))]
  {
    var r := Row(l, N);
    assert r == r[..n - 1] + [r[n - 1]] + r[n..];
    FilterAppend(r[..n - 1] + [r[n - 1]], r[n..], OfNumber(n));
    FilterAppend(r[..n - 1], [r[n - 1]], OfNumber(n));
    FilterDropsAll(r[..n - 1], OfNumber(n));
    FilterDropsAll(r[n..], OfNumber(n));
  }

  /**
    `Number.slots` (Slot.all filtered by number): one slot per letter, in
    ascending letter order, so sorting by letter leaves it unchanged.
  */
  lemma {:induction false} NumberSlotsOfAll(L: nat, N: nat, n: nat)
    requires 1 <= n <= N
    ensures Filter(AllSlots(L, N), OfNumber(n)) == ColumnSlots(L, N, n)
  {
    if L > 0 {
      AllSlotsSplit(L, N);
      FilterAppend(AllSlots(L - 1, N), Row(L - 1, N), OfNumber(n));
      NumberSlotsOfAll(L - 1, N, n);
      RowAtNumber(L - 1, N, n);
      assert ColumnSlots(L, N, n) == ColumnSlots(L - 1, N, n) + [Slot(L - 1, n, SlotVar(N, L - 1, n))];
    }
  }

  /** Filtering a letter's row by `number >= m` keeps the suffix from number m on. */
  lemma RowAtLeast(l: nat, N: nat, m: int)
    requires 1 <= m <= N + 1
    ensures Filter(Row(l, N), NumberAtLeast(m)) == Row(l, N)[m - 1..]
  {
    var r := Row(l, N);
    assert r == r[..m - 1] + r[m - 1..];
    FilterAppend(r[..m - 1], r[m - 1..], NumberAtLeast(m));
    FilterDropsAll(r[..m - 1], NumberAtLeast(m));
    FilterKeepsAll(r[m - 1..], NumberAtLeast(m));
  }

  /** Filtering a letter's row by `number <= m` keeps the prefix up to number m. */
  lemma RowAtMost(l: nat, N: nat, m: int)
    requires 0 <= m <= N
    ensures Filter(Row(l, N), NumberAtMost(m)) == Row(l, N)[..m]
  {
    var r := Row(l, N);
    assert r == r[..m] + r[m..];
    FilterAppend(r[..m], r[m..], NumberAtMost(m));
    FilterKeepsAll(r[..m], NumberAtMost(m));
    FilterDropsAll(r[m..], NumberAtMost(m));
  }

}
