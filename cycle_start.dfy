/** The start of the n-th repetition of a cycle, as the solver expression the
    cycle builds for it. */
module CycleStart {
  import opened Symbolic

  /** ITE(index >= 1, firstCycleStart + cycleDuration * index, firstCycleStart):
      repetition 0, and defensively any index below 1, starts at the first
      start; later ones are whole multiples of the duration after it. */
  function NthCycleStart(firstCycleStart: Expr, cycleDuration: Expr, index: Expr): (r: Expr)
    ensures forall v :: Eval(r, v) == if Eval(index, v) >= 1.0
                                      then Eval(firstCycleStart, v) + Eval(cycleDuration, v) * Eval(index, v)
                                      else Eval(firstCycleStart, v)
  {
    var later := Add(firstCycleStart, Mul(cycleDuration, index));
    assert forall v :: Eval(later, v) == Eval(firstCycleStart, v) + Eval(cycleDuration, v) * Eval(index, v);
    var atLeastOne := Ge(index, Lit(1.0));
    assert forall v :: Holds(atLeastOne, v) == (Eval(index, v) >= 1.0);
    Ite(atLeastOne, later, firstCycleStart)
  }

  /** For a known integer index the expression is the first start for n < 1 and
      n durations after it otherwise. */
  lemma NthCycleStartAt(firstCycleStart: Expr, cycleDuration: Expr, n: int, v: Valuation)
    ensures Eval(NthCycleStart(firstCycleStart, cycleDuration, Lit(n as real)), v)
         == if n < 1 then Eval(firstCycleStart, v)
            else Eval(firstCycleStart, v) + Eval(cycleDuration, v) * n as real
  {
  }

  /** Consecutive repetitions after the anchor are exactly one duration apart. */
  lemma NthCycleStartPeriodic(firstCycleStart: Expr, cycleDuration: Expr, n: int, v: Valuation)
    requires n >= 1
    ensures Eval(NthCycleStart(firstCycleStart, cycleDuration, Lit((n + 1) as real)), v)
         == Eval(NthCycleStart(firstCycleStart, cycleDuration, Lit(n as real)), v) + Eval(cycleDuration, v)
  {
    NthCycleStartAt(firstCycleStart, cycleDuration, n, v);
    NthCycleStartAt(firstCycleStart, cycleDuration, n + 1, v);
    var d := Eval(cycleDuration, v);
    assert d * (n + 1) as real == d * n as real + d;
  }

  /** With a non-negative duration, later repetitions never start earlier. */
  lemma NthCycleStartMonotone(firstCycleStart: Expr, cycleDuration: Expr, m: int, n: int, v: Valuation)
    requires Eval(cycleDuration, v) >= 0.0
    requires m <= n
    ensures Eval(NthCycleStart(firstCycleStart, cycleDuration, Lit(m as real)), v)
         <= Eval(NthCycleStart(firstCycleStart, cycleDuration, Lit(n as real)), v)
  {
    NthCycleStartAt(firstCycleStart, cycleDuration, m, v);
    NthCycleStartAt(firstCycleStart, cycleDuration, n, v);
    var d := Eval(cycleDuration, v);
    if m >= 1 {
      assert d * n as real == d * m as real + d * (n - m) as real;
      assert d * (n - m) as real >= 0.0;
    } else if n >= 1 {
      assert d * n as real >= 0.0;
    }
  }
}
