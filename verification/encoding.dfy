/**
  What the expressions of one letter mean, and the correctness of the
  windowed-indicator contiguity encoding for a single letter.

  For a letter with k > 1 the program emits
    - sum of the letter's occupancy                    = k
    - sum of the group binaries b_0 .. b_{m-1}         = 1
    - for every window j: occupancy of window j - k*b_j >= 0
  where window j is the j-th rolling batch of the letter's sorted slots, i.e.
  the numbers j+1 .. j+k. With all variables binary, these hold exactly when
  the letter occupies one run of k consecutive numbers and the only group
  binary set is that run's.
*/
module Encoding {
  import opened Sums
  import opened Rolling
  import opened Linear
  import opened Slots
  import opened Builders

  /**
    The letter's expressions restated over its row `x` of occupancy values
    (one per number, ascending) and the values `bv` of its group binaries.
  */
  predicate RowEncoding(letter: Letter, x: seq<int>, bv: seq<int>)
  {
    match letter
    case OnceLetter => Sum(x) <= 1
    case RunLetter(k) =>
      && Sum(x) == k
      && (k > 1 ==>
            && Sum(bv) == 1
            && WindowsCovered(x, bv, k))
  }

  /** Every window j..j+k-1 of `x` holds at least k occupied numbers when its binary `bv[j]` is set. */
  predicate WindowsCovered(x: seq<int>, bv: seq<int>, k: int)
    requires k >= 0
  {
    forall j :: 0 <= j < |bv| && j + k <= |x| ==> Sum(x[j..j + k]) - k * bv[j] >= 0
  }

  /** A window expression evaluates to the window's occupancy minus k times its binary. */
  lemma WindowValue(batch: seq<Slot>, b: nat, k: int, a: Assignment)
    ensures Eval(Ones(Occupied(batch)) + [Term(b, -k)], a) == Sum(Values(Occupied(batch), a)) - k * a(b)
  {
    EvalAppend(Ones(Occupied(batch)), [Term(b, -k)], a);
    EvalOnes(Occupied(batch), a);
  }

  /** Window j's expression holds exactly when the row's numbers j+1 .. j+k cover k times window j's group binary. */
  lemma WindowHolds(slots: seq<Slot>, k: int, c: Counters, a: Assignment, j: nat)
    requires k > 1 && j + k <= |slots|
    ensures var w := Windows(Batches(slots, k), k, c);
      j < |w.constraints| &&
      (Holds(w.constraints[j], a) <==> Sum(Values(Occupied(slots), a)[j..j + k]) - k * a(w.created[j]) >= 0)
  {
    var batches := Batches(slots, k);
    assert j < |batches| && batches[j] == slots[j..j + k];
    var w := Windows(batches, k, c);
    BatchHolds(batches, k, c, a, j);
    assert Values(Occupied(batches[j]), a) == Values(Occupied(slots), a)[j..j + k] by {
      ValuesSlice(slots, j, j + k, a);
    }
  }

  /** Window j's expression holds exactly when batch j's occupancy is at least k times window j's binary. */
  lemma BatchHolds(batches: seq<seq<Slot>>, k: int, c: Counters, a: Assignment, j: nat)
    requires j < |batches|
    ensures var w := Windows(batches, k, c);
      Holds(w.constraints[j], a) <==> Sum(Values(Occupied(batches[j]), a)) - k * a(w.created[j]) >= 0
  {
    WindowAt(batches, k, c, j);
    WindowValue(batches[j], c.vars + j + 1, k, a);
  }

  /** The values of a slice of slots are the slice of their values. */
  lemma ValuesSlice(slots: seq<Slot>, i: nat, j: nat, a: Assignment)
    requires i <= j <= |slots|
    ensures Values(Occupied(slots[i..j]), a) == Values(Occupied(slots), a)[i..j]
  {
  }

  /** The window expressions of a letter hold exactly when every window's inequality holds on the row. */
  lemma WindowsMeaning(slots: seq<Slot>, k: int, c: Counters, a: Assignment)
    requires k > 1
    ensures var w := Windows(Batches(slots, k), k, c);
      var x := Values(Occupied(slots), a);
      var bv := Values(w.created, a);
      AllHold(w.constraints, a) <==> WindowsCovered(x, bv, k)
  {
    var batches := Batches(slots, k);
    var w := Windows(batches, k, c);
    var x := Values(Occupied(slots), a);
    var bv := Values(w.created, a);
    forall j | 0 <= j < |batches|
      ensures Holds(w.constraints[j], a) <==> Sum(x[j..j + k]) - k * bv[j] >= 0
    {
      WindowHolds(slots, k, c, a, j);
    }
  }

  /** A letter that emits a single expression: a once-letter, or a run letter with k <= 1. */
  lemma SingleMeaning(slots: seq<Slot>, letter: Letter, c: Counters, a: Assignment)
    requires !(letter.RunLetter? && letter.slotsNeeded > 1)
    ensures var e := LetterConstraints(slots, letter, c);
      AllHold(e.constraints, a) <==> RowEncoding(letter, Values(Occupied(slots), a), Values(e.created, a))
  {
    EvalOnes(Occupied(slots), a);
    var e := LetterConstraints(slots, letter, c);
    assert |e.constraints| == 1;
    assert AllHold(e.constraints, a) <==> Holds(e.constraints[0], a);
  }

  /** The expressions of a run letter with k > 1: total, group sum, then the windows. */
  lemma RunShape(slots: seq<Slot>, k: int, c: Counters)
    requires k > 1
    ensures var w := Windows(Batches(slots, k), k, Counters(c.vars, c.funcs + 2));
      LetterConstraints(slots, RunLetter(k), c) ==
        Emitted([Constraint(c.funcs + 1, Ones(Occupied(slots)), Eq, k), Constraint(c.funcs + 2, Ones(w.created), Eq, 1)]
                + w.constraints, w.created, w.next)
  {
  }

  /** A number's expression holds exactly when at most one of its slots is occupied. */
  lemma NumberMeaning(slots: seq<Slot>, c: Counters, a: Assignment)
    ensures Holds(NumberConstraint(slots, c), a) <==> Sum(Values(Occupied(slots), a)) <= 1
  {
    OnesMeaning(c.funcs + 1, Occupied(slots), Le, 1, a);
  }

  /** An expression with coefficient 1 on each of `vs` holds when the sum of their values is within the bound. */
  lemma OnesMeaning(name: nat, vs: seq<nat>, kind: Kind, bound: int, a: Assignment)
    ensures Holds(Constraint(name, Ones(vs), kind, bound), a) <==>
      match kind
      case Eq => Sum(Values(vs, a)) == bound
      case Le => Sum(Values(vs, a)) <= bound
      case Ge => Sum(Values(vs, a)) >= bound
  {
    EvalOnes(vs, a);
  }

  /** A run letter's expressions hold when its total, its `allGroupSlots` and all its windows hold. */
  lemma RunHolds(slots: seq<Slot>, k: int, c: Counters, a: Assignment)
    requires k > 1
    ensures var e := LetterConstraints(slots, RunLetter(k), c);
      var w := Windows(Batches(slots, k), k, Counters(c.vars, c.funcs + 2));
      && e.created == w.created
      && AllHold(e.constraints, a) ==
        (&& Holds(Constraint(c.funcs + 1, Ones(Occupied(slots)), Eq, k), a)
         && Holds(Constraint(c.funcs + 2, Ones(w.created), Eq, 1), a)
         && AllHold(w.constraints, a))
  {
    var e := LetterConstraints(slots, RunLetter(k), c);
    var w := Windows(Batches(slots, k), k, Counters(c.vars, c.funcs + 2));
    var total := Constraint(c.funcs + 1, Ones(Occupied(slots)), Eq, k);
    var groups := Constraint(c.funcs + 2, Ones(w.created), Eq, 1);
    assert e.constraints == [total, groups] + w.constraints && e.created == w.created by {
      RunShape(slots, k, c);
    }
    AllHoldPair(total, groups, w.constraints, a);
  }

  /** A run letter with k > 1: its total, its group sum and its window expressions hold exactly when its row meets `RowEncoding`. */
  lemma RunMeaning(slots: seq<Slot>, k: int, c: Counters, a: Assignment)
    requires k > 1
    ensures var e := LetterConstraints(slots, RunLetter(k), c);
      AllHold(e.constraints, a) <==> RowEncoding(RunLetter(k), Values(Occupied(slots), a), Values(e.created, a))
  {
    var e := LetterConstraints(slots, RunLetter(k), c);
    var w := Windows(Batches(slots, k), k, Counters(c.vars, c.funcs + 2));
    var total := Constraint(c.funcs + 1, Ones(Occupied(slots)), Eq, k);
    var groups := Constraint(c.funcs + 2, Ones(w.created), Eq, 1);
    var x := Values(Occupied(slots), a);
    var bv := Values(w.created, a);
    var windowsOk := WindowsCovered(x, bv, k);
    RunHolds(slots, k, c, a);
    assert Holds(total, a) == (Sum(x) == k) by {
      OnesMeaning(c.funcs + 1, Occupied(slots), Eq, k, a);
    }
    assert Holds(groups, a) == (Sum(bv) == 1) by {
      OnesMeaning(c.funcs + 2, w.created, Eq, 1, a);
    }
    assert AllHold(w.constraints, a) == windowsOk by {
      WindowsMeaning(slots, k, Counters(c.vars, c.funcs + 2), a);
    }
    assert RowEncoding(RunLetter(k), x, bv) == (Sum(x) == k && Sum(bv) == 1 && windowsOk);
  }

  /**
    The expressions `Letter.addConstraints` emits for a letter hold exactly
    when its row and group binaries satisfy `RowEncoding`.
  */
  lemma LetterMeaning(slots: seq<Slot>, letter: Letter, c: Counters, a: Assignment)
    ensures var e := LetterConstraints(slots, letter, c);
      AllHold(e.constraints, a) <==> RowEncoding(letter, Values(Occupied(slots), a), Values(e.created, a))
  {
    if letter.RunLetter? && letter.slotsNeeded > 1 {
      RunMeaning(slots, letter.slotsNeeded, c, a);
    } else {
      SingleMeaning(slots, letter, c, a);
    }
  }

  /** When window j..j+k-1 of a 0/1 row holds the row's whole sum, nothing outside the window is set. */
  lemma OutsideWindow(x: seq<int>, j: nat, k: nat)
    requires IsBinary(x) && j + k <= |x|
    requires Sum(x) == Sum(x[j..j + k])
    ensures IsBinary(x[..j]) && IsBinary(x[j..j + k]) && IsBinary(x[j + k..])
    ensures Sum(x[..j]) == 0 && Sum(x[j + k..]) == 0
  {
    var pre, win, post := x[..j], x[j..j + k], x[j + k..];
    BinarySlice(x, 0, j);
    BinarySlice(x, j, j + k);
    BinarySlice(x, j + k, |x|);
    assert x == pre + win + post;
    EmptyAround(pre, win, post);
  }

  /** When a middle part carries the whole sum of a 0/1 sequence, the parts around it sum to 0. */
  lemma EmptyAround(pre: seq<int>, win: seq<int>, post: seq<int>)
    requires IsBinary(pre) && IsBinary(post)
    requires Sum(pre + win + post) == Sum(win)
    ensures Sum(pre) == 0 && Sum(post) == 0
  {
    SumAppend(pre + win, post);
    SumAppend(pre, win);
    SumBinaryBounds(pre);
    SumBinaryBounds(post);
  }

  /** A slice of a 0/1 row is a 0/1 row. */
  lemma BinarySlice(x: seq<int>, i: nat, j: nat)
    requires IsBinary(x) && i <= j <= |x|
    ensures IsBinary(x[i..j])
  {
    assert forall t :: 0 <= t < j - i ==> x[i..j][t] == x[i + t];
  }

  /**
    A 0/1 row summing to k whose window j..j+k-1 already sums to k is the run
    of k numbers starting at number j+1, and is empty everywhere else.
  */
  lemma ConcentratedRun(x: seq<int>, j: nat, k: nat)
    requires IsBinary(x) && j + k <= |x|
    requires Sum(x) == k && Sum(x[j..j + k]) == k
    ensures x == Run(|x|, j + 1, k)
  {
    var pre, win, post := x[..j], x[j..j + k], x[j + k..];
    OutsideWindow(x, j, k);
    SumZero(pre);
    SumZero(post);
    SumFull(win);
    forall i | 0 <= i < |x|
      ensures x[i] == Run(|x|, j + 1, k)[i]
    {
      if i < j {
        assert x[i] == pre[i];
      } else if i < j + k {
        assert x[i] == win[i - j];
      } else {
        assert x[i] == post[i - j - k];
      }
    }
  }

  /**
    Soundness for one letter: binary values satisfying the letter's
    expressions put the letter on exactly one run of k consecutive numbers,
    and the only group binary set is that run's window.
  */
  lemma EncodingSound(x: seq<int>, bv: seq<int>, k: int)
    requires k >= 0 && IsBinary(x) && IsBinary(bv)
    requires |bv| == WindowCount(RunLetter(k), |x|)
    requires RowEncoding(RunLetter(k), x, bv)
    ensures exists s :: 1 <= s && s + k - 1 <= |x| && x == Run(|x|, s, k) && (k > 1 ==> bv == Run(|bv|, s, 1))
  {
    if k == 0 {
      SumZero(x);
      assert x == Run(|x|, 1, 0);
    } else if k == 1 {
      SumOne(x);
    } else {
      SumOne(bv);
      var s :| 1 <= s <= |bv| && bv == Run(|bv|, s, 1);
      var j := s - 1;
      assert bv[j] == 1;
      var win := x[j..j + k];
      assert IsBinary(win);
      SumBinaryBounds(win);
      ConcentratedRun(x, j, k);
    }
  }

  /**
    Completeness for one letter: the run of k numbers starting at s, with
    only that window's group binary set, satisfies every expression the
    letter emits.
  */
  lemma EncodingComplete(n: nat, s: int, k: int)
    requires k >= 0 && 1 <= s && s + k - 1 <= n
    ensures RowEncoding(RunLetter(k), Run(n, s, k), Run(WindowCount(RunLetter(k), n), s, 1))
  {
    RunSum(n, s, k);
    if k > 1 {
      var m := n - k + 1;
      var x := Run(n, s, k);
      var bv := Run(m, s, 1);
      RunSum(m, s, 1);
      forall j | 0 <= j < m && j + k <= n
        ensures Sum(x[j..j + k]) - k * bv[j] >= 0
      {
        SumRunSlice(n, s, k, j, j + k);
      }
    }
  }

}
