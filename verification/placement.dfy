/**
  The whole model `main` builds before the solver call, and what its
  solutions are.

  A placement gives every letter a start number: a run letter needing k
  numbers occupies s, s+1, .., s+k-1; a once-letter occupies s, or nothing
  when s = 0. A placement is valid when every run lies within 1..N and no two
  letters share a number. The central results: the occupancy grid of every
  solution is the grid of a valid placement (`Sound`), every valid placement
  extends to a solution with its grid (`Complete`), and so a grid is the
  occupancy grid of some solution exactly when it is the grid of a valid
  placement (`Characterization`). A solution is more than its grid: a run
  letter's only set group binary must also be its run's start.
*/
module Placement {
  import opened Sums
  import opened Linear
  import opened Slots
  import opened Builders
  import opened Encoding

  /** Number of group binaries the letters before letter i create, each letter having N slots. */
  function GroupsBefore(letters: seq<Letter>, N: nat, i: nat): nat
    requires i <= |letters|
  {
    if i == 0 then 0 else GroupsBefore(letters, N, i - 1) + WindowCount(letters[i - 1], N)
  }

  /** The id after which letter i's group binaries start: the L*N slot variables and the earlier letters' groups come first. */
  function GroupBase(letters: seq<Letter>, N: nat, i: nat): nat
    requires i <= |letters|
  {
    |letters| * N + GroupsBefore(letters, N, i)
  }

  /** Ids of letter i's group binaries: they follow the slot variables and the earlier letters' groups. */
  function GroupIds(letters: seq<Letter>, N: nat, i: nat): seq<nat>
    requires i < |letters|
  {
    var base := GroupBase(letters, N, i);
    seq(WindowCount(letters[i], N), j requires 0 <= j => base + j + 1)
  }

  /** The occupancy grid of an assignment: row l holds letter l's values at numbers 1..N. */
  function Occupancy(a: Assignment, L: nat, N: nat): seq<seq<int>>
  {
    seq(L, l requires 0 <= l => Values(Occupied(Row(l, N)), a))
  }

  /** Column j of a grid (number j+1): one value per letter. */
  function Column(g: seq<seq<int>>, j: nat): seq<int>
  {
    seq(|g|, l requires 0 <= l < |g| => if j < |g[l]| then g[l][j] else 0)
  }

  lemma {:induction false} GroupsMonotone(letters: seq<Letter>, N: nat, i: nat, j: nat)
    requires i <= j <= |letters|
    ensures GroupsBefore(letters, N, i) <= GroupsBefore(letters, N, j)
    decreases j - i
  {
    if i < j {
      GroupsMonotone(letters, N, i, j - 1);
    }
  }

  /**
    Group ids are distinct across letters: each letter's ids lie strictly
    above the slot variables and the earlier letters' ids, and at or below the
    variable count of the model.
  */
  lemma GroupIdsRange(letters: seq<Letter>, N: nat, i: nat)
    requires i < |letters|
    ensures forall j :: 0 <= j < |GroupIds(letters, N, i)| ==>
      GroupBase(letters, N, i) < GroupIds(letters, N, i)[j] <= GroupBase(letters, N, i + 1)
    ensures GroupsBefore(letters, N, i + 1) <= GroupsBefore(letters, N, |letters|)
  {
    GroupsMonotone(letters, N, i + 1, |letters|);
  }

  /** Letters l.. each satisfy their `RowEncoding`, with the group binaries `GroupIds` assigns them. */
  predicate EncodedFrom(letters: seq<Letter>, N: nat, a: Assignment, l: nat)
  {
    forall i :: l <= i < |letters| ==>
      RowEncoding(letters[i], Values(Occupied(Row(i, N)), a), Values(GroupIds(letters, N, i), a))
  }

  /**
    Letter l's own expressions, built over its filtered slots with the
    counters left by the letters before it: they create exactly its group
    binaries `GroupIds`, and they hold when its row and those binaries meet
    its encoding, and only then.
  */
  lemma OwnBlockMeaning(letters: seq<Letter>, N: nat, l: nat, c: Counters, a: Assignment)
    requires l < |letters|
    requires c.vars == GroupBase(letters, N, l)
    ensures var own := LetterConstraints(Filter(AllSlots(|letters|, N), OfLetter(l)), letters[l], c);
      && own.next.vars == GroupBase(letters, N, l + 1)
      && (AllHold(own.constraints, a) <==>
          RowEncoding(letters[l], Values(Occupied(Row(l, N)), a), Values(GroupIds(letters, N, l), a)))
  {
    LetterSlotsOfAll(|letters|, N, l);
    OwnBlockIds(letters, N, l, c);
    LetterMeaning(Row(l, N), letters[l], c, a);
  }

  /** Letter l's expressions over its row create exactly its ids `GroupIds`, ending at the next letter's base. */
  lemma OwnBlockIds(letters: seq<Letter>, N: nat, l: nat, c: Counters)
    requires l < |letters|
    requires c.vars == GroupBase(letters, N, l)
    ensures var own := LetterConstraints(Row(l, N), letters[l], c);
      own.created == GroupIds(letters, N, l) && own.next.vars == GroupBase(letters, N, l + 1)
  {
    var own := LetterConstraints(Row(l, N), letters[l], c);
    var ids := GroupIds(letters, N, l);
    assert |Row(l, N)| == N;
    assert |own.created| == WindowCount(letters[l], N) == |ids|;
    assert GroupBase(letters, N, l + 1) == GroupBase(letters, N, l) + WindowCount(letters[l], N);
    forall j | 0 <= j < |ids|
      ensures own.created[j] == ids[j]
    {
    }
  }

  /** The letters from l on create the group binaries of exactly those letters. */
  lemma {:induction false} LetterBlocksCreated(letters: seq<Letter>, N: nat, l: nat, c: Counters)
    requires l <= |letters|
    requires c.vars == GroupBase(letters, N, l)
    ensures |LetterBlocks(AllSlots(|letters|, N), letters, l, c).created| + GroupsBefore(letters, N, l) ==
      GroupsBefore(letters, N, |letters|)
    decreases |letters| - l
  {
    if l < |letters| {
      var own := LetterConstraints(Filter(AllSlots(|letters|, N), OfLetter(l)), letters[l], c);
      assert own.next.vars == GroupBase(letters, N, l + 1) && |own.created| == |GroupIds(letters, N, l)| by {
        LetterSlotsOfAll(|letters|, N, l);
        OwnBlockIds(letters, N, l, c);
      }
      LetterBlocksCreated(letters, N, l + 1, own.next);
    }
  }

  /** Letters l.. meet their encodings exactly when letter l does and letters l+1.. do. */
  lemma EncodedFromStep(letters: seq<Letter>, N: nat, a: Assignment, l: nat)
    requires l < |letters|
    ensures EncodedFrom(letters, N, a, l) ==
      (RowEncoding(letters[l], Values(Occupied(Row(l, N)), a), Values(GroupIds(letters, N, l), a))
       && EncodedFrom(letters, N, a, l + 1))
  {
  }

  /**
    The letters' expressions from letter l on all hold exactly when every
    such letter's row and group binaries satisfy `RowEncoding`.
  */
  lemma {:induction false} LetterBlocksMeaning(letters: seq<Letter>, N: nat, l: nat, c: Counters, a: Assignment)
    requires l <= |letters|
    requires c.vars == GroupBase(letters, N, l)
    ensures AllHold(LetterBlocks(AllSlots(|letters|, N), letters, l, c).constraints, a) ==
      EncodedFrom(letters, N, a, l)
    decreases |letters| - l
  {
    if l < |letters| {
      var slots := AllSlots(|letters|, N);
      var own := LetterConstraints(Filter(slots, OfLetter(l)), letters[l], c);
      var rest := LetterBlocks(slots, letters, l + 1, own.next);
      var ownOk := RowEncoding(letters[l], Values(Occupied(Row(l, N)), a), Values(GroupIds(letters, N, l), a));
      assert own.next.vars == GroupBase(letters, N, l + 1) && AllHold(own.constraints, a) == ownOk by {
        OwnBlockMeaning(letters, N, l, c, a);
      }
      assert AllHold(rest.constraints, a) == EncodedFrom(letters, N, a, l + 1) by {
        LetterBlocksMeaning(letters, N, l + 1, own.next, a);
      }
      assert AllHold(own.constraints + rest.constraints, a) == (AllHold(own.constraints, a) && AllHold(rest.constraints, a)) by {
        AllHoldAppend(own.constraints, rest.constraints, a);
      }
      EncodedFromStep(letters, N, a, l);
    }
  }

  /** Number n holds at most one letter: its slots' occupancy sums to at most 1. */
  predicate NumberFree(a: Assignment, L: nat, N: nat, n: nat)
  {
    Sum(Values(Occupied(ColumnSlots(L, N, n)), a)) <= 1
  }

  /** Each of the numbers j+1 .. N holds at most one letter. */
  predicate FreeFrom(a: Assignment, L: nat, N: nat, j: nat)
  {
    forall n :: j < n <= N ==> NumberFree(a, L, N, n)
  }

  /** The numbers' expressions from number j+1 on hold exactly when each of those numbers holds at most one letter. */
  lemma {:induction false} NumberBlocksMeaning(L: nat, N: nat, j: nat, c: Counters, a: Assignment)
    requires j <= N
    ensures AllHold(NumberBlocks(AllSlots(L, N), j, N, c).constraints, a) ==
      FreeFrom(a, L, N, j)
    decreases N - j
  {
    if j < N {
      var slots := AllSlots(L, N);
      var next := Counters(c.vars, c.funcs + 1);
      var own := NumberConstraint(ColumnSlots(L, N, j + 1), c);
      var rest := NumberBlocks(slots, j + 1, N, next);
      NumberBlocksUnfold(L, N, j, c);
      assert Holds(own, a) == NumberFree(a, L, N, j + 1) by {
        NumberMeaning(ColumnSlots(L, N, j + 1), c, a);
      }
      assert AllHold(rest.constraints, a) == FreeFrom(a, L, N, j + 1) by {
        NumberBlocksMeaning(L, N, j + 1, next, a);
      }
      assert AllHold([own] + rest.constraints, a) == (Holds(own, a) && AllHold(rest.constraints, a)) by {
        AllHoldCons(own, rest.constraints, a);
      }
      FreeFromStep(a, L, N, j);
    }
  }

  /** The numbers' expressions from number j+1 on: number j+1's own over its column, then the rest. */
  lemma NumberBlocksUnfold(L: nat, N: nat, j: nat, c: Counters)
    requires j < N
    ensures NumberBlocks(AllSlots(L, N), j, N, c).constraints ==
      [NumberConstraint(ColumnSlots(L, N, j + 1), c)] + NumberBlocks(AllSlots(L, N), j + 1, N, Counters(c.vars, c.funcs + 1)).constraints
  {
    NumberSlotsOfAll(L, N, j + 1);
  }

  /** Numbers j+1 .. N are free exactly when number j+1 is and numbers j+2 .. N are. */
  lemma FreeFromStep(a: Assignment, L: nat, N: nat, j: nat)
    requires j < N
    ensures FreeFrom(a, L, N, j) == (NumberFree(a, L, N, j + 1) && FreeFrom(a, L, N, j + 1))
  {
  }

  /** How many variables the model declares: the L*N slot variables and every letter's group binaries. */
  function VarCount(letters: seq<Letter>, N: nat): nat
  {
    GroupBase(letters, N, |letters|)
  }

  /** The model's variables: the L*N slot variables, then every letter's group binaries. */
  lemma VariableCount(letters: seq<Letter>, N: nat)
    ensures BuildModel(letters, N).counters.vars == |letters| * N + GroupsBefore(letters, N, |letters|)
  {
    LetterBlocksCreated(letters, N, 0, Counters(|letters| * N, 0));
  }

  /** The model's expressions all hold exactly when every letter meets its encoding and every number holds at most one letter. */
  lemma ModelHolds(letters: seq<Letter>, N: nat, a: Assignment)
    ensures AllHold(BuildModel(letters, N).constraints, a) <==> LettersEncoded(letters, N, a) && FreeFrom(a, |letters|, N, 0)
  {
    var slots := AllSlots(|letters|, N);
    var lb := LetterBlocks(slots, letters, 0, Counters(|letters| * N, 0));
    LetterBlocksMeaning(letters, N, 0, Counters(|letters| * N, 0), a);
    NumberBlocksMeaning(|letters|, N, 0, lb.next, a);
    AllHoldAppend(lb.constraints, NumberBlocks(slots, 0, N, lb.next).constraints, a);
  }

  /**
    What it takes to satisfy the model: binary values on every variable
    (the L*N slots and all group binaries), every letter's `RowEncoding`, and
    at most one occupied slot per number.
  */
  lemma ModelMeaning(letters: seq<Letter>, N: nat, a: Assignment)
    ensures BuildModel(letters, N).counters.vars == VarCount(letters, N)
    ensures Feasible(BuildModel(letters, N), a) <==>
      (BinaryUpTo(a, VarCount(letters, N)) && LettersEncoded(letters, N, a) && FreeFrom(a, |letters|, N, 0))
  {
    VariableCount(letters, N);
    ModelHolds(letters, N, a);
  }

  /** The values at one number's slots are that number's column of the occupancy grid. */
  lemma ColumnValues(a: Assignment, L: nat, N: nat, n: nat)
    requires 1 <= n <= N
    ensures Values(Occupied(ColumnSlots(L, N, n)), a) == Column(Occupancy(a, L, N), n - 1)
  {
  }

  /** Numbers a letter placed at s covers: k for a run letter; one for a once-letter, none when s = 0. */
  function Span(letter: Letter, s: int): int
  {
    match letter
    case RunLetter(k) => k
    case OnceLetter => if s == 0 then 0 else 1
  }

  /** s is an admissible start for the letter on the numbers 1..N. */
  predicate StartOk(letter: Letter, N: nat, s: int)
  {
    match letter
    case RunLetter(k) => k >= 0 && 1 <= s && s + k - 1 <= N
    case OnceLetter => 0 <= s <= N
  }

  /** One start per letter, each admissible, and no two letters covering a common number. */
  predicate ValidPlacement(letters: seq<Letter>, N: nat, starts: seq<int>)
  {
    && |starts| == |letters|
    && (forall l :: 0 <= l < |letters| ==> StartOk(letters[l], N, starts[l]))
    && (forall l1, l2 :: 0 <= l1 < l2 < |letters| ==>
          Overlap(starts[l1], starts[l1] + Span(letters[l1], starts[l1]),
                  starts[l2], starts[l2] + Span(letters[l2], starts[l2])) == 0)
  }

  /** The occupancy grid of a placement: each letter's row is 1 exactly on the numbers it covers. */
  function PlacementGrid(letters: seq<Letter>, N: nat, starts: seq<int>): seq<seq<int>>
    requires |starts| == |letters|
  {
    seq(|letters|, l requires 0 <= l < |letters| => Run(N, starts[l], Span(letters[l], starts[l])))
  }

  /**
    One letter's row, read back: binary values satisfying the letter's
    expressions are the row of the letter placed at some admissible start.
  */
  lemma RowStart(letter: Letter, x: seq<int>, bv: seq<int>)
    requires IsBinary(x) && IsBinary(bv) && |bv| == WindowCount(letter, |x|)
    requires RowEncoding(letter, x, bv)
    ensures exists s :: StartOk(letter, |x|, s) && x == Run(|x|, s, Span(letter, s))
  {
    match letter
    case RunLetter(k) =>
      SumBinaryBounds(x);
      EncodingSound(x, bv, k);
      var s :| 1 <= s && s + k - 1 <= |x| && x == Run(|x|, s, k) && (k > 1 ==> bv == Run(|bv|, s, 1));
      assert StartOk(letter, |x|, s) && Span(letter, s) == k;
    case OnceLetter =>
      SumBinaryBounds(x);
      if Sum(x) == 0 {
        SumZero(x);
        assert x == Run(|x|, 0, Span(letter, 0));
      } else {
        SumOne(x);
        var s :| 1 <= s <= |x| && x == Run(|x|, s, 1);
        assert StartOk(letter, |x|, s) && Span(letter, s) == 1;
      }
  }

  /** Two runs sharing no number never both cover cell j. */
  lemma RunsDisjoint(N: nat, s1: int, w1: int, s2: int, w2: int, j: nat)
    requires j < N && Overlap(s1, s1 + w1, s2, s2 + w2) == 0
    ensures !(Run(N, s1, w1)[j] == 1 && Run(N, s2, w2)[j] == 1)
  {
  }

  /** Two runs within 1..N that never both cover a cell share no number. */
  lemma RunsApart(N: nat, s1: int, w1: int, s2: int, w2: int)
    requires (w1 > 0 ==> s1 >= 1) && s1 + w1 - 1 <= N
    requires (w2 > 0 ==> s2 >= 1) && s2 + w2 - 1 <= N
    requires forall j :: 0 <= j < N ==> !(Run(N, s1, w1)[j] == 1 && Run(N, s2, w2)[j] == 1)
    ensures Overlap(s1, s1 + w1, s2, s2 + w2) == 0
  {
    var j := (if s1 < s2 then s2 else s1) - 1;
    if 0 <= j < N {
      assert !(Run(N, s1, w1)[j] == 1 && Run(N, s2, w2)[j] == 1);
    }
  }

  /** An admissible start keeps the letter's run within 1..N. */
  lemma StartBounds(letter: Letter, N: nat, s: int)
    requires StartOk(letter, N, s)
    ensures (Span(letter, s) > 0 ==> s >= 1) && s + Span(letter, s) - 1 <= N
  {
  }

  /**
    For admissible starts, "no number holds two letters" on the placement's
    grid is the same as pairwise disjointness of the letters' runs.
  */
  lemma ColumnsIffApart(letters: seq<Letter>, N: nat, starts: seq<int>)
    requires |starts| == |letters|
    requires forall l :: 0 <= l < |letters| ==> StartOk(letters[l], N, starts[l])
    ensures (forall j :: 0 <= j < N ==> AtMostOneSet(Column(PlacementGrid(letters, N, starts), j))) <==>
      ValidPlacement(letters, N, starts)
  {
    var g := PlacementGrid(letters, N, starts);
    if ValidPlacement(letters, N, starts) {
      forall j | 0 <= j < N
        ensures AtMostOneSet(Column(g, j))
      {
        forall l1, l2 | 0 <= l1 < l2 < |g|
          ensures !(Column(g, j)[l1] == 1 && Column(g, j)[l2] == 1)
        {
          var s1, s2 := starts[l1], starts[l2];
          RunsDisjoint(N, s1, Span(letters[l1], s1), s2, Span(letters[l2], s2), j);
        }
      }
    }
    if forall j :: 0 <= j < N ==> AtMostOneSet(Column(g, j)) {
      forall l1, l2 | 0 <= l1 < l2 < |letters|
        ensures Overlap(starts[l1], starts[l1] + Span(letters[l1], starts[l1]),
                        starts[l2], starts[l2] + Span(letters[l2], starts[l2])) == 0
      {
        var s1, s2 := starts[l1], starts[l2];
        var w1, w2 := Span(letters[l1], s1), Span(letters[l2], s2);
        forall j | 0 <= j < N
          ensures !(Run(N, s1, w1)[j] == 1 && Run(N, s2, w2)[j] == 1)
        {
          assert Column(g, j)[l1] == Run(N, s1, w1)[j] && Column(g, j)[l2] == Run(N, s2, w2)[j];
        }
        StartBounds(letters[l1], N, s1);
        StartBounds(letters[l2], N, s2);
        RunsApart(N, s1, w1, s2, w2);
      }
    }
  }

  /** The group binaries' values a placement induces: 1 exactly on the window where a letter's run starts. */
  function GroupVal(letters: seq<Letter>, N: nat, starts: seq<int>, i: nat, base: int, v: int): (r: int)
    ensures r == 0 || r == 1
    decreases |letters| - i
  {
    if i >= |letters| || i >= |starts| || v <= base then 0
    else
      var w := WindowCount(letters[i], N);
      if v <= base + w then (if v - base == starts[i] then 1 else 0)
      else GroupVal(letters, N, starts, i + 1, base + w, v)
  }

  /** The value of slot variable v (1 <= v <= L*N) under a placement. */
  function CellVal(letters: seq<Letter>, N: nat, starts: seq<int>, v: int): (r: int)
    ensures r == 0 || r == 1
  {
    if N == 0 || v < 1 then 0
    else
      var l, j := (v - 1) / N, (v - 1) % N;
      if l < |letters| && l < |starts| then Run(N, starts[l], Span(letters[l], starts[l]))[j] else 0
  }

  /** The assignment a placement induces: its grid on the slot variables, its windows on the group binaries. */
  function PlacementAssignment(letters: seq<Letter>, N: nat, starts: seq<int>): Assignment
  {
    v => if v <= |letters| * N then CellVal(letters, N, starts, v)
         else GroupVal(letters, N, starts, 0, |letters| * N, v)
  }

  /** Slot variable l * N + j + 1 belongs to letter l and cell j. */
  lemma DivMod(l: nat, N: nat, j: nat)
    requires j < N
    ensures (l * N + j) / N == l && (l * N + j) % N == j
  {
    var q, r := (l * N + j) / N, (l * N + j) % N;
    assert l * N + j == q * N + r;
    var d := l - q;
    assert d * N == r - j;
    assert d * N == (d - 1) * N + N;
    assert d * N == (d + 1) * N - N;
    assert d >= 1 ==> (d - 1) * N >= 0;
    assert d <= -1 ==> (d + 1) * N <= 0;
  }

  lemma {:induction false} GroupValFrom(letters: seq<Letter>, N: nat, starts: seq<int>, i0: nat, i: nat, j: nat)
    requires i0 <= i < |letters| == |starts|
    requires j < WindowCount(letters[i], N)
    ensures GroupVal(letters, N, starts, i0, |letters| * N + GroupsBefore(letters, N, i0),
                     |letters| * N + GroupsBefore(letters, N, i) + j + 1)
            == if j + 1 == starts[i] then 1 else 0
    decreases i - i0
  {
    if i0 < i {
      GroupsMonotone(letters, N, i0 + 1, i);
      GroupValFrom(letters, N, starts, i0 + 1, i, j);
    }
  }

  /** Under a placement's assignment, letter i's group binaries mark the window its run starts at. */
  lemma GroupValues(letters: seq<Letter>, N: nat, starts: seq<int>, i: nat)
    requires i < |letters| == |starts|
    ensures Values(GroupIds(letters, N, i), PlacementAssignment(letters, N, starts)) ==
      Run(WindowCount(letters[i], N), starts[i], 1)
  {
    var a := PlacementAssignment(letters, N, starts);
    var ids := GroupIds(letters, N, i);
    forall j | 0 <= j < |ids|
      ensures a(ids[j]) == Run(WindowCount(letters[i], N), starts[i], 1)[j]
    {
      GroupValFrom(letters, N, starts, 0, i, j);
    }
  }

  /** Under a placement's assignment, the slot of letter l and number j+1 holds cell j of the letter's run. */
  lemma CellAt(letters: seq<Letter>, N: nat, starts: seq<int>, l: nat, j: nat)
    requires l < |letters| == |starts| && j < N
    ensures PlacementAssignment(letters, N, starts)(SlotVar(N, l, j + 1)) == Run(N, starts[l], Span(letters[l], starts[l]))[j]
  {
    AllSlotsAt(|letters|, N, l, j + 1);
    DivMod(l, N, j);
    assert CellVal(letters, N, starts, l * N + j + 1) == Run(N, starts[l], Span(letters[l], starts[l]))[j];
  }

  /** Under a placement's assignment, letter l's slots hold the placement's row. */
  lemma RowValues(letters: seq<Letter>, N: nat, starts: seq<int>, l: nat)
    requires l < |letters| == |starts|
    ensures Values(Occupied(Row(l, N)), PlacementAssignment(letters, N, starts)) ==
      Run(N, starts[l], Span(letters[l], starts[l]))
  {
    var a := PlacementAssignment(letters, N, starts);
    forall j | 0 <= j < N
      ensures a(SlotVar(N, l, j + 1)) == Run(N, starts[l], Span(letters[l], starts[l]))[j]
    {
      CellAt(letters, N, starts, l, j);
    }
  }

  /** Under binary values, every letter's row, every number's column and every group binary is 0/1. */
  lemma GridBinary(letters: seq<Letter>, N: nat, a: Assignment)
    requires BinaryUpTo(a, VarCount(letters, N))
    ensures forall l :: 0 <= l < |letters| ==> IsBinary(Values(Occupied(Row(l, N)), a))
    ensures forall l :: 0 <= l < |letters| ==> IsBinary(Values(GroupIds(letters, N, l), a))
    ensures forall j :: 0 <= j < N ==> IsBinary(Column(Occupancy(a, |letters|, N), j))
  {
    var L := |letters|;
    var total := L * N + GroupsBefore(letters, N, L);
    forall l, n | 0 <= l < L && 1 <= n <= N
      ensures a(SlotVar(N, l, n)) == 0 || a(SlotVar(N, l, n)) == 1
    {
      AllSlotsAt(L, N, l, n);
    }
    forall l | 0 <= l < L
      ensures IsBinary(Values(GroupIds(letters, N, l), a))
    {
      GroupIdsRange(letters, N, l);
    }
    forall j | 0 <= j < N
      ensures IsBinary(Column(Occupancy(a, L, N), j))
    {
      forall l | 0 <= l < L
        ensures Column(Occupancy(a, L, N), j)[l] == a(SlotVar(N, l, j + 1))
      {
      }
    }
  }

  /** Every letter's row satisfies its `RowEncoding`, with the group binaries `GroupIds` assigns it. */
  predicate LettersEncoded(letters: seq<Letter>, N: nat, a: Assignment)
  {
    EncodedFrom(letters, N, a, 0)
  }

  /** Letter l's row is the run starting at s, and s is admissible for it. */
  predicate PlacedAt(letters: seq<Letter>, N: nat, a: Assignment, l: nat, s: int)
    requires l < |letters|
  {
    StartOk(letters[l], N, s) && Values(Occupied(Row(l, N)), a) == Run(N, s, Span(letters[l], s))
  }

  /** Letter l's row is the run of some admissible start. */
  ghost predicate Placeable(letters: seq<Letter>, N: nat, a: Assignment, l: nat)
    requires l < |letters|
  {
    exists s :: PlacedAt(letters, N, a, l, s)
  }

  /** Reading one row of a solution back as a start. */
  lemma RowStartAt(letters: seq<Letter>, N: nat, a: Assignment, l: nat)
    requires l < |letters|
    requires IsBinary(Values(Occupied(Row(l, N)), a)) && IsBinary(Values(GroupIds(letters, N, l), a))
    requires RowEncoding(letters[l], Values(Occupied(Row(l, N)), a), Values(GroupIds(letters, N, l), a))
    ensures Placeable(letters, N, a, l)
  {
    var x := Values(Occupied(Row(l, N)), a);
    RowStart(letters[l], x, Values(GroupIds(letters, N, l), a));
    var s :| StartOk(letters[l], |x|, s) && x == Run(|x|, s, Span(letters[l], s));
    assert PlacedAt(letters, N, a, l, s);
  }

  /** Collecting one start per letter. */
  lemma ChooseStarts(letters: seq<Letter>, N: nat, a: Assignment)
    requires forall l :: 0 <= l < |letters| ==> Placeable(letters, N, a, l)
    ensures exists starts: seq<int> :: |starts| == |letters| && forall l :: 0 <= l < |letters| ==> PlacedAt(letters, N, a, l, starts[l])
  {
    var starts: seq<int> := [];
    for l := 0 to |letters|
      invariant |starts| == l
      invariant forall i :: 0 <= i < l ==> PlacedAt(letters, N, a, i, starts[i])
    {
      assert Placeable(letters, N, a, l);
      var s :| PlacedAt(letters, N, a, l, s);
      starts := starts + [s];
    }
  }

  /**
    Soundness: a solution of the model puts every letter on an admissible
    run (a run letter on exactly k consecutive numbers, a once-letter on at
    most one number) and no number under two letters. Its occupancy grid is
    the grid of a valid placement.
  */
  lemma Sound(letters: seq<Letter>, N: nat, a: Assignment)
    requires Feasible(BuildModel(letters, N), a)
    ensures exists starts :: ValidPlacement(letters, N, starts) && Occupancy(a, |letters|, N) == PlacementGrid(letters, N, starts)
  {
    var L := |letters|;
    ModelMeaning(letters, N, a);
    GridBinary(letters, N, a);
    forall l | 0 <= l < L
      ensures Placeable(letters, N, a, l)
    {
      RowStartAt(letters, N, a, l);
    }
    ChooseStarts(letters, N, a);
    var starts: seq<int> :| |starts| == L && forall l :: 0 <= l < L ==> PlacedAt(letters, N, a, l, starts[l]);
    var g := PlacementGrid(letters, N, starts);
    assert Occupancy(a, L, N) == g;
    FreeColumns(letters, N, a, g);
    ColumnsIffApart(letters, N, starts);
  }

  /** Under binary values with every number free, each column of the occupancy grid has at most one 1. */
  lemma FreeColumns(letters: seq<Letter>, N: nat, a: Assignment, g: seq<seq<int>>)
    requires BinaryUpTo(a, VarCount(letters, N)) && FreeFrom(a, |letters|, N, 0)
    requires g == Occupancy(a, |letters|, N)
    ensures forall j :: 0 <= j < N ==> AtMostOneSet(Column(g, j))
  {
    GridBinary(letters, N, a);
    forall j | 0 <= j < N
      ensures AtMostOneSet(Column(g, j))
    {
      ColumnValues(a, |letters|, N, j + 1);
      assert NumberFree(a, |letters|, N, j + 1);
      SumAtMostOne(Column(g, j));
    }
  }

  /** A valid placement's assignment satisfies every letter's `RowEncoding`. */
  lemma PlacementEncoded(letters: seq<Letter>, N: nat, starts: seq<int>)
    requires ValidPlacement(letters, N, starts)
    ensures LettersEncoded(letters, N, PlacementAssignment(letters, N, starts))
  {
    var a := PlacementAssignment(letters, N, starts);
    forall i | 0 <= i < |letters|
      ensures RowEncoding(letters[i], Values(Occupied(Row(i, N)), a), Values(GroupIds(letters, N, i), a))
    {
      GroupValues(letters, N, starts, i);
      RowValues(letters, N, starts, i);
      var s := starts[i];
      match letters[i]
      case RunLetter(k) =>
        EncodingComplete(N, s, k);
      case OnceLetter =>
        SumRunSlice(N, s, Span(letters[i], s), 0, N);
        assert Run(N, s, Span(letters[i], s))[0..N] == Run(N, s, Span(letters[i], s));
    }
  }

  /** The model's requirements, met, make an assignment a solution. */
  lemma Satisfied(letters: seq<Letter>, N: nat, a: Assignment)
    requires BinaryUpTo(a, VarCount(letters, N))
    requires LettersEncoded(letters, N, a)
    requires FreeFrom(a, |letters|, N, 0)
    ensures Feasible(BuildModel(letters, N), a)
  {
    ModelMeaning(letters, N, a);
  }

  /** A placement's assignment gives every variable of the model the value 0 or 1. */
  lemma PlacementBinary(letters: seq<Letter>, N: nat, starts: seq<int>, n: nat)
    ensures BinaryUpTo(PlacementAssignment(letters, N, starts), n)
  {
  }

  /** A placement's assignment has the placement's grid as its occupancy. */
  lemma PlacementRows(letters: seq<Letter>, N: nat, starts: seq<int>)
    requires |starts| == |letters|
    ensures Occupancy(PlacementAssignment(letters, N, starts), |letters|, N) == PlacementGrid(letters, N, starts)
  {
    var a := PlacementAssignment(letters, N, starts);
    var g := PlacementGrid(letters, N, starts);
    forall l | 0 <= l < |letters|
      ensures Occupancy(a, |letters|, N)[l] == g[l]
    {
      RowValues(letters, N, starts, l);
    }
  }

  /** Under a valid placement's assignment no number holds two letters. */
  lemma PlacementFree(letters: seq<Letter>, N: nat, starts: seq<int>)
    requires ValidPlacement(letters, N, starts)
    ensures FreeFrom(PlacementAssignment(letters, N, starts), |letters|, N, 0)
  {
    var a := PlacementAssignment(letters, N, starts);
    var g := PlacementGrid(letters, N, starts);
    PlacementRows(letters, N, starts);
    ColumnsIffApart(letters, N, starts);
    forall n | 0 < n <= N
      ensures NumberFree(a, |letters|, N, n)
    {
      ColumnValues(a, |letters|, N, n);
      SumAtMostOne(Column(g, n - 1));
    }
  }

  /**
    Completeness: every valid placement extends to a solution of the model,
    with the placement's grid on the slot variables and, for every run
    letter with k > 1, only the group binary of its run's window set.
  */
  lemma Complete(letters: seq<Letter>, N: nat, starts: seq<int>)
    requires ValidPlacement(letters, N, starts)
    ensures Feasible(BuildModel(letters, N), PlacementAssignment(letters, N, starts))
    ensures Occupancy(PlacementAssignment(letters, N, starts), |letters|, N) == PlacementGrid(letters, N, starts)
  {
    var a := PlacementAssignment(letters, N, starts);
    PlacementBinary(letters, N, starts, VarCount(letters, N));
    PlacementEncoded(letters, N, starts);
    PlacementFree(letters, N, starts);
    Satisfied(letters, N, a);
    PlacementRows(letters, N, starts);
  }

  /**
    The solutions of the model, read through their occupancy grids, are
    exactly the grids of valid placements.
  */
  lemma Characterization(letters: seq<Letter>, N: nat, g: seq<seq<int>>)
    ensures (exists a :: Feasible(BuildModel(letters, N), a) && Occupancy(a, |letters|, N) == g) <==>
      (exists starts :: ValidPlacement(letters, N, starts) && g == PlacementGrid(letters, N, starts))
  {
    if exists a :: Feasible(BuildModel(letters, N), a) && Occupancy(a, |letters|, N) == g {
      var a :| Feasible(BuildModel(letters, N), a) && Occupancy(a, |letters|, N) == g;
      Sound(letters, N, a);
    }
    if exists starts :: ValidPlacement(letters, N, starts) && g == PlacementGrid(letters, N, starts) {
      var starts :| ValidPlacement(letters, N, starts) && g == PlacementGrid(letters, N, starts);
      Complete(letters, N, starts);
    }
  }

}
