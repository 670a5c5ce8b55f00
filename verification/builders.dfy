/**
  The constraint builders of the four programs, as pure functions that thread
  the two id counters instead of mutating a global ojAlgo model.

  Letters come in two kinds:
  - `RunLetter(k)` (Example3, Example4): `level(k)` on the letter's slots and,
    when k > 1, the windowed-indicator contiguity encoding;
  - `OnceLetter` (Example1, Example2): `upper(1)` on the letter's slots.
  Every number gets `upper(1)` on its slots. Example2 and Example3 then add
  two side constraints with `level(1)`.
*/
module Builders {
  import opened Sums
  import opened Rolling
  import opened Linear
  import opened Slots

  datatype Letter = RunLetter(slotsNeeded: int) | OnceLetter

  /** What one builder call adds: its expressions in creation order, the variables it created, and the counters after it. */
  datatype Emitted = Emitted(constraints: seq<Constraint>, created: seq<nat>, next: Counters)

  /** Number of group binaries `addConstraints` creates for a letter with `n` slots. */
  function WindowCount(letter: Letter, n: nat): nat
  {
    match letter
    case RunLetter(k) => if 1 < k <= n then n - k + 1 else 0
    case OnceLetter => 0
  }

  /**
    The per-window part of the contiguity encoding: for each batch, a fresh
    binary b (`variable().binary()`) and the expression
    `sum of the batch's occupancy - k * b >= 0` (`addExpression().lower(0)`).
    Window j gets variable id vars + j + 1 and expression id funcs + j + 1.
  */
  function Windows(batches: seq<seq<Slot>>, k: int, c: Counters): (e: Emitted)
    ensures |e.constraints| == |batches| && |e.created| == |batches|
    ensures e.next == Counters(c.vars + |batches|, c.funcs + |batches|)
    ensures forall j :: 0 <= j < |batches| ==> e.created[j] == c.vars + j + 1
    ensures forall j :: 0 <= j < |batches| ==> e.constraints[j].name == c.funcs + j + 1
    decreases |batches|
  {
    if |batches| == 0 then Emitted([], [], c)
    else
      var b := c.vars + 1;
      var window := Constraint(c.funcs + 1, Ones(Occupied(batches[0])) + [Term(b, -k)], Ge, 0);
      var rest := Windows(batches[1..], k, Counters(b, c.funcs + 1));
      Emitted([window] + rest.constraints, [b] + rest.created, rest.next)
  }

  /** Window j: Func<funcs + j + 1> is `occupancy of batch j - k * Variable<vars + j + 1> >= 0`. */
  lemma {:induction false} WindowAt(batches: seq<seq<Slot>>, k: int, c: Counters, j: nat)
    requires j < |batches|
    ensures Windows(batches, k, c).constraints[j] ==
      Constraint(c.funcs + j + 1, Ones(Occupied(batches[j])) + [Term(c.vars + j + 1, -k)], Ge, 0)
    decreases j
  {
    if j > 0 {
      WindowAt(batches[1..], k, Counters(c.vars + 1, c.funcs + 1), j - 1);
    }
  }

  /**
    `Letter.addConstraints` for a letter whose sorted slots are `slots`.
    A run letter gets its total (= k); when k > 1 also the shared
    `allGroupSlots` expression (sum of the group binaries = 1), created before
    the groups, and one window expression per rolling batch. The batches are
    `Batches`, what `rollingBatches` returns when it does not throw: the
    slot count plus k is taken to fit in an `Int`.
  */
  function LetterConstraints(slots: seq<Slot>, letter: Letter, c: Counters): (e: Emitted)
    ensures |e.created| == WindowCount(letter, |slots|)
    ensures forall j :: 0 <= j < |e.created| ==> e.created[j] == c.vars + j + 1
    ensures e.next.vars == c.vars + |e.created|
    ensures e.next.funcs == c.funcs + |e.constraints|
    ensures forall i :: 0 <= i < |e.constraints| ==> e.constraints[i].name == c.funcs + i + 1
  {
    match letter
    case OnceLetter =>
      Emitted([Constraint(c.funcs + 1, Ones(Occupied(slots)), Le, 1)], [], Counters(c.vars, c.funcs + 1))
    case RunLetter(k) =>
      var total := Constraint(c.funcs + 1, Ones(Occupied(slots)), Eq, k);
      if k > 1 then
        var w := Windows(Batches(slots, k), k, Counters(c.vars, c.funcs + 2));
        var groups := Constraint(c.funcs + 2, Ones(w.created), Eq, 1);
        Emitted([total, groups] + w.constraints, w.created, w.next)
      else
        Emitted([total], [], Counters(c.vars, c.funcs + 1))
  }

  /**
    `Letter.all.forEach { it.addConstraints() }` from letter l on, each letter
    using its own filtered slots. All group binaries created are consecutive
    ids above `c.vars`; all expressions get consecutive ids above `c.funcs`.
  */
  function LetterBlocks(slots: seq<Slot>, letters: seq<Letter>, l: nat, c: Counters): (e: Emitted)
    ensures e.next.vars == c.vars + |e.created|
    ensures forall j :: 0 <= j < |e.created| ==> e.created[j] == c.vars + j + 1
    ensures e.next.funcs == c.funcs + |e.constraints|
    ensures forall i :: 0 <= i < |e.constraints| ==> e.constraints[i].name == c.funcs + i + 1
    decreases |letters| - l
  {
    if l >= |letters| then Emitted([], [], c)
    else
      var own := LetterConstraints(Filter(slots, OfLetter(l)), letters[l], c);
      var rest := LetterBlocks(slots, letters, l + 1, own.next);
      Emitted(own.constraints + rest.constraints, own.created + rest.created, rest.next)
  }

  /** `Number.addConstraints`: the occupancy of the number's slots is at most 1. */
  function NumberConstraint(slots: seq<Slot>, c: Counters): (r: Constraint)
    ensures r.name == c.funcs + 1 && r.kind == Le && r.bound == 1
    ensures |r.terms| == |slots| && forall i :: 0 <= i < |slots| ==> r.terms[i] == Term(slots[i].occupied, 1)
    ensures forall a: Assignment :: Holds(r, a) <==> Sum(Values(Occupied(slots), a)) <= 1
  {
    var r := Constraint(c.funcs + 1, Ones(Occupied(slots)), Le, 1);
    assert forall a: Assignment :: Holds(r, a) <==> Sum(Values(Occupied(slots), a)) <= 1 by {
      forall a: Assignment
        ensures Holds(r, a) <==> Sum(Values(Occupied(slots), a)) <= 1
      {
        EvalOnes(Occupied(slots), a);
      }
    }
    r
  }

  /** `Number.all.forEach { it.addConstraints() }` for the numbers j+1 .. N. */
  function NumberBlocks(slots: seq<Slot>, j: nat, N: nat, c: Counters): (e: Emitted)
    ensures e.created == [] && e.next.vars == c.vars
    ensures |e.constraints| == (if j <= N then N - j else 0)
    ensures e.next.funcs == c.funcs + |e.constraints|
    ensures forall i :: 0 <= i < |e.constraints| ==> e.constraints[i].name == c.funcs + i + 1
    decreases N - j
  {
    if j >= N then Emitted([], [], c)
    else
      var own := NumberConstraint(Filter(slots, OfNumber(j + 1)), c);
      var rest := NumberBlocks(slots, j + 1, N, Counters(c.vars, c.funcs + 1));
      Emitted([own] + rest.constraints, [], rest.next)
  }

  /**
    The model `main` builds before any side constraint: Slot.all first
    (variables 1..L*N), then the letters' expressions, then the numbers'.
    Expressions are named Func1, Func2, .. in creation order, and every
    variable created after the slots is a group binary.
  */
  function BuildModel(letters: seq<Letter>, N: nat): (m: Model)
    ensures m.counters.vars >= |letters| * N
    ensures m.counters.funcs == |m.constraints|
    ensures forall i :: 0 <= i < |m.constraints| ==> m.constraints[i].name == i + 1
  {
    var slots := AllSlots(|letters|, N);
    var lb := LetterBlocks(slots, letters, 0, Counters(|letters| * N, 0));
    var nb := NumberBlocks(slots, 0, N, lb.next);
    Model(lb.constraints + nb.constraints, nb.next)
  }

  /**
    A side constraint of `main`: `level(1)` over those of a letter's slots
    whose number passes `where`.
  */
  function AddSide(m: Model, letterSlots: seq<Slot>, where: Select): (r: Model)
    ensures r.counters == Counters(m.counters.vars, m.counters.funcs + 1)
    ensures |r.constraints| == |m.constraints| + 1 && r.constraints[..|m.constraints|] == m.constraints
    ensures var side := r.constraints[|m.constraints|];
      && side.name == m.counters.funcs + 1 && side.kind == Eq && side.bound == 1
      && |side.terms| == |Filter(letterSlots, where)|
      && forall i :: 0 <= i < |side.terms| ==> side.terms[i].coef == 1 && side.terms[i].v == Filter(letterSlots, where)[i].occupied
  {
    var side := Constraint(m.counters.funcs + 1, Ones(Occupied(Filter(letterSlots, where))), Eq, 1);
    Model(m.constraints + [side], Counters(m.counters.vars, m.counters.funcs + 1))
  }

}
