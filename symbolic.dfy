/** The narrow slice of the SMT solver the cycle uses: named real unknowns,
    real literals, addition, multiplication, a greater-or-equal test, if-then-else,
    and a solver that collects asserted equalities. Solving itself is not modelled;
    a valuation of the unknowns stands for a model the solver might produce. */
module Symbolic {

  /** A real value for every unknown name: a candidate model. */
  type Valuation = string -> real

  datatype Expr =
    | Const(name: string)              // ctx.mkRealConst(name)
    | Lit(value: real)                 // ctx.mkReal(...)
    | Add(left: Expr, right: Expr)     // ctx.mkAdd
    | Mul(left: Expr, right: Expr)     // ctx.mkMul
    | Ite(cond: Cond, thn: Expr, els: Expr)  // ctx.mkITE

  datatype Cond = Ge(left: Expr, right: Expr)  // ctx.mkGe

  function Eval(e: Expr, v: Valuation): real
    decreases e
  {
    match e
    case Const(n) => v(n)
    case Lit(x) => x
    case Add(l, r) => Eval(l, v) + Eval(r, v)
    case Mul(l, r) => Eval(l, v) * Eval(r, v)
    case Ite(c, t, f) => if Holds(c, v) then Eval(t, v) else Eval(f, v)
  }

  predicate Holds(c: Cond, v: Valuation)
    decreases c
  {
    match c
    case Ge(l, r) => Eval(l, v) >= Eval(r, v)
  }

  /** ctx.mkEq(lhs, rhs), as handed to solver.add. */
  datatype Equation = Eq(lhs: Expr, rhs: Expr)

  /** The valuation makes every asserted equality true. */
  predicate Satisfies(v: Valuation, eqs: seq<Equation>)
  {
    forall k :: 0 <= k < |eqs| ==> Eval(eqs[k].lhs, v) == Eval(eqs[k].rhs, v)
  }

  /** A solving session: the equalities asserted into it, in order. */
  class Solver {
    var assertions: seq<Equation>

    constructor ()
      ensures assertions == []
    {
      assertions := [];
    }

    /** solver.add(ctx.mkEq(lhs, rhs)) */
    method Add(eq: Equation)
      modifies this
      ensures assertions == old(assertions) + [eq]
    {
      assertions := assertions + [eq];
    }
  }
}
