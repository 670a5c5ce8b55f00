/**
  Linear constraints over integer variables, as the programs build them with
  ojAlgo's expression DSL, and their meaning under an assignment.

  `addExpression()` names an expression Func<n> from one counter, and
  `variable()` names a variable Variable<n> from another; both counters start
  at 0 and are incremented before use, so the first id handed out is 1. An
  expression gets coefficients with `set(variable, c)` and one bound:
  `level(k)` (= k), `upper(k)` (<= k) or `lower(k)` (>= k). Every variable the
  programs create is declared `binary()`.
*/
module Linear {
  import opened Sums

  datatype Kind = Eq | Le | Ge

  datatype Term = Term(v: nat, coef: int)

  /** An expression named Func<name>: sum of coef * variable over `terms`, bounded by `bound`. */
  datatype Constraint = Constraint(name: nat, terms: seq<Term>, kind: Kind, bound: int)

  /** The two id counters: how many variables and expressions exist so far. */
  datatype Counters = Counters(vars: nat, funcs: nat)

  /** The expressions added so far and the final state of the counters. */
  datatype Model = Model(constraints: seq<Constraint>, counters: Counters)

  /** A value for every variable id. */
  type Assignment = nat -> int

  function Eval(ts: seq<Term>, a: Assignment): int
  {
    if |ts| == 0 then 0 else ts[0].coef * a(ts[0].v) + Eval(ts[1..], a)
  }

  predicate Holds(c: Constraint, a: Assignment)
  {
    var e := Eval(c.terms, a);
    match c.kind
    case Eq => e == c.bound
    case Le => e <= c.bound
    case Ge => e >= c.bound
  }

  predicate AllHold(cs: seq<Constraint>, a: Assignment)
  {
    forall i :: 0 <= i < |cs| ==> Holds(cs[i], a)
  }

  /** Every variable handed out so far (ids 1..n) is 0 or 1. */
  predicate BinaryUpTo(a: Assignment, n: nat)
  {
    forall v: nat :: 1 <= v <= n ==> a(v) == 0 || a(v) == 1
  }

  /** `a` is a solution of `m`: binary on every declared variable, every expression within its bound. */
  predicate Feasible(m: Model, a: Assignment)
  {
    BinaryUpTo(a, m.counters.vars) && AllHold(m.constraints, a)
  }

  /** The terms `set(v, 1)` for each v of `vs`, in order. */
  function Ones(vs: seq<nat>): seq<Term>
  {
    seq(|vs|, i requires 0 <= i < |vs| => Term(vs[i], 1))
  }

  /** The values `a` gives to the variables `vs`, in order. */
  function Values(vs: seq<nat>, a: Assignment): seq<int>
  {
    seq(|vs|, i requires 0 <= i < |vs| => a(vs[i]))
  }

  lemma {:induction false} EvalAppend(ts: seq<Term>, us: seq<Term>, a: Assignment)
    ensures Eval(ts + us, a) == Eval(ts, a) + Eval(us, a)
  {
    if |ts| == 0 {
      assert ts + us == us;
    } else {
      assert (ts + us)[1..] == ts[1..] + us;
      EvalAppend(ts[1..], us, a);
    }
  }

  /** An expression with coefficient 1 on each of `vs` evaluates to the sum of their values. */
  lemma {:induction false} EvalOnes(vs: seq<nat>, a: Assignment)
    ensures Eval(Ones(vs), a) == Sum(Values(vs, a))
  {
    if |vs| > 0 {
      assert Ones(vs)[1..] == Ones(vs[1..]);
      assert Values(vs, a)[1..] == Values(vs[1..], a);
      EvalOnes(vs[1..], a);
    }
  }

  lemma AllHoldAppend(cs: seq<Constraint>, ds: seq<Constraint>, a: Assignment)
    ensures AllHold(cs + ds, a) <==> AllHold(cs, a) && AllHold(ds, a)
  {
    if AllHold(cs, a) && AllHold(ds, a) {
      forall i | 0 <= i < |cs + ds|
        ensures Holds((cs + ds)[i], a)
      {
        if i >= |cs| {
          assert (cs + ds)[i] == ds[i - |cs|];
        }
      }
    }
    if AllHold(cs + ds, a) {
      forall i | 0 <= i < |cs|
        ensures Holds(cs[i], a)
      {
        assert (cs + ds)[i] == cs[i];
      }
      forall i | 0 <= i < |ds|
        ensures Holds(ds[i], a)
      {
        assert (cs + ds)[|cs| + i] == ds[i];
      }
    }
  }

  lemma AllHoldCons(c0: Constraint, ds: seq<Constraint>, a: Assignment)
    ensures AllHold([c0] + ds, a) <==> Holds(c0, a) && AllHold(ds, a)
  {
    AllHoldAppend([c0], ds, a);
    assert [c0][0] == c0;
  }

  lemma AllHoldPair(c0: Constraint, c1: Constraint, ds: seq<Constraint>, a: Assignment)
    ensures AllHold([c0, c1] + ds, a) <==> Holds(c0, a) && Holds(c1, a) && AllHold(ds, a)
  {
    AllHoldAppend([c0, c1], ds, a);
    assert [c0, c1][0] == c0 && [c0, c1][1] == c1;
  }
}
