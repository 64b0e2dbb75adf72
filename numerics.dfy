/** Vocabulary shared by the reaction models and the simulators: optional
    values, results that may be errors, the outcome of a floating-point division that may leave the reals,
    Python's `int()` on a real, numpy's `linspace` over exact reals, and the
    request and answer of the external initial-value solver. */
module Numerics {

  datatype Option<+T> = None | Some(value: T)

  /** A value, or the error the source would raise instead. */
  datatype Result<+T, +E> = Ok(value: T) | Err(error: E)

  /** The value of a quotient computed on numpy floats: a real number, or
      nan/inf when the divisor is zero (numpy does not raise there). */
  datatype Quotient = Finite(value: real) | NonFinite

  /** numpy-style division `a / b`. */
  function Divide(a: real, b: real): (q: Quotient)
    ensures q.Finite? <==> b != 0.0
    ensures q.Finite? ==> q.value * b == a
  {
    if b == 0.0 then NonFinite else Finite(a / b)
  }

  /** Python's `int(x)` on a real: truncation toward zero. */
  function Trunc(x: real): (n: int)
    ensures x >= 0.0 ==> 0 <= n && n as real <= x < n as real + 1.0
    ensures x < 0.0 ==> n <= 0 && n as real - 1.0 < x <= n as real
  {
    if x >= 0.0 then x.Floor else -((-x).Floor)
  }

  /** `numpy.linspace(start, stop, num)` with exact real arithmetic: `num`
      points, the first at `start`, the last at `stop`, evenly spaced. */
  function Linspace(start: real, stop: real, num: nat): (r: seq<real>)
    ensures |r| == num
    ensures num >= 1 ==> r[0] == start
    ensures num >= 2 ==> r[num - 1] == stop
    ensures num >= 2 ==> forall i :: 0 <= i < num - 1 ==>
      r[i + 1] - r[i] == (stop - start) / ((num - 1) as real)
  {
    if num <= 1 then seq(num, i requires 0 <= i < num => start)
    else
      var step := (stop - start) / ((num - 1) as real);
      var r := seq(num, i requires 0 <= i < num => start + (i as real) * step);
      assert r[num - 1] == stop by {
        assert ((num - 1) as real) * step == stop - start;
      }
      r
  }

  /** What is handed to scipy's `solve_ivp`: the model the right-hand side is
      bound to, the time span, the initial state, the requested sample times
      (None: the solver chooses them) and the integration method's name. */
  datatype IvpRequest<M> = IvpRequest(
    model: M,
    tSpan: (real, real),
    y0: seq<real>,
    tEval: Option<seq<real>>,
    solverMethod: string)

  /** What `solve_ivp` returns and the core reads: the success flag, the sample
      times, and one row of samples per state entry (`sol.y`). */
  datatype IvpSolution = IvpSolution(success: bool, t: seq<real>, y: seq<seq<real>>)

  /** The shape `solve_ivp` promises on success: one row per entry of the
      initial state, each with one sample per time point. */
  ghost predicate WellShaped(sol: IvpSolution, width: nat)
  {
    |sol.y| == width && forall row :: row in sol.y ==> |row| == |sol.t|
  }

  /** The integrator is outside the model; it is any function from requests
      to solutions that keeps the shape promise whenever it reports success. */
  ghost predicate SolverContract<M(!new)>(solver: IvpRequest<M> -> IvpSolution)
  {
    forall q :: solver(q).success ==> WellShaped(solver(q), |q.y0|)
  }
}
