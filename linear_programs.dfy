/** The input and output of an LP solver in the form `scipy.optimize.linprog`
    takes them: minimise `c . x` subject to `aUb x <= bUb`, `aEq x == bEq` and
    one `[lower, upper]` bound per variable. The solver itself is an oracle; only
    what a solved vector has to satisfy is defined here. */
module LinearPrograms {

  datatype Bound = Bound(lower: real, upper: real)

  datatype LinearProgram = LinearProgram(
    c: seq<real>,
    aUb: seq<seq<real>>,
    bUb: seq<real>,
    aEq: seq<seq<real>>,
    bEq: seq<real>,
    bounds: seq<Bound>)

  /** What the solver reports: `result.success` false, or true with `result.x`. */
  datatype SolveOutcome = Failed | Solved(x: seq<real>)

  /** Sum of a sequence, accumulated left to right as Python's `sum` does. */
  function Sum(s: seq<real>): real
  {
    if |s| == 0 then 0.0 else Sum(s[..|s| - 1]) + s[|s| - 1]
  }

  /** Inner product of a constraint row with a point. */
  function Dot(a: seq<real>, x: seq<real>): real
    requires |a| == |x|
  {
    if |a| == 0 then 0.0 else Dot(a[..|a| - 1], x[..|x| - 1]) + a[|a| - 1] * x[|x| - 1]
  }

  /** `x` satisfies every constraint and every bound of `lp`. */
  predicate Feasible(lp: LinearProgram, x: seq<real>)
  {
    && |x| == |lp.c| == |lp.bounds|
    && |lp.aEq| == |lp.bEq|
    && |lp.aUb| == |lp.bUb|
    && (forall r :: 0 <= r < |lp.aEq| ==> |lp.aEq[r]| == |x| && Dot(lp.aEq[r], x) == lp.bEq[r])
    && (forall r :: 0 <= r < |lp.aUb| ==> |lp.aUb[r]| == |x| && Dot(lp.aUb[r], x) <= lp.bUb[r])
    && (forall i :: 0 <= i < |x| ==> lp.bounds[i].lower <= x[i] <= lp.bounds[i].upper)
  }

  /** The only promise taken from the solver: a reported solution is feasible.
      Optimality with respect to `c` is not part of the model. */
  predicate Sound(lp: LinearProgram, outcome: SolveOutcome)
  {
    outcome.Solved? ==> Feasible(lp, outcome.x)
  }

  /** An LP solver (HiGHS behind `linprog`) seen as an oracle. */
  type Solver = f: LinearProgram -> SolveOutcome | forall lp :: Sound(lp, f(lp))
    witness (lp: LinearProgram) => Failed

  /** A row of ones picks out the plain sum of the variables. */
  lemma {:induction false} DotOnes(a: seq<real>, x: seq<real>)
    requires |a| == |x|
    requires forall i :: 0 <= i < |a| ==> a[i] == 1.0
    ensures Dot(a, x) == Sum(x)
  {
    if |a| > 0 {
      DotOnes(a[..|a| - 1], x[..|x| - 1]);
    }
  }
}
