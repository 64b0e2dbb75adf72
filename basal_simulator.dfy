/** The solve_ivp-based simulator of the unified basal model
    (notebooks/Basal_model/simulacia.py): the right-hand side handed to the
    solver, the defaults `simulate` substitutes, and the quasi-steady-state
    gene curve drawn beside the simulated one. The solver itself is a
    parameter; plotting is not modelled. */
module BasalSimulator {
  import opened Numerics
  import opened BasalParameters
  import opened BasalEquations
  import opened BasalLayout

  /** The five rates at one state, each in the slot of its own species. */
  function Derivative(q: Parameters, s: BasalState): (ds: BasalState)
    ensures s.K == 0.0 ==> ds.K == 0.0
    ensures s.G == 0.0 ==> ds.G == q.t1 * s.N
    ensures s.G == 1.0 ==> ds.G == -q.t2 * s.I
  {
    BasalState(DK(q, s.K), DN(q, s.N, s.K, s.I), DI(q, s.N, s.K, s.I, s.R), DR(q, s.R, s.G), DG(q, s.N, s.G, s.I))
  }

  /** `_rhs(t, y)`: a state of any length but five fails to unpack;
      otherwise five derivatives which, read with the state's own layout
      [K, N, I, R, G], are each species' rate. The time is not read. */
  function Rhs(q: Parameters, t: real, y: seq<real>): (r: Option<seq<real>>)
    ensures r.Some? <==> |y| == 5
    ensures r.Some? ==> (|r.value| == 5 && UnpackBasal(r.value) == Derivative(q, UnpackBasal(y)))
  {
    if |y| != 5 then None
    else
      var s := UnpackBasal(y);
      BasalLayoutRoundTrip(Derivative(q, s), y);
      Some(PackBasal(Derivative(q, s)))
  }

  /** The right-hand side is autonomous: the same state gives the same
      derivatives at every time. */
  lemma RhsIgnoresTime(q: Parameters, t1: real, t2: real, y: seq<real>)
    ensures Rhs(q, t1, y) == Rhs(q, t2, y)
  {
  }

  /** At a state whose gene fraction is the quasi-steady value for its N and
      I, the gene entry of the right-hand side is zero, and only there. */
  lemma {:induction false} RhsGeneAtRestIff(q: Parameters, t: real, y: seq<real>)
    requires |y| == 5
    requires q.t1 * y[1] + q.t2 * y[2] != 0.0
    ensures Rhs(q, t, y).value[4] == 0.0 <==> QuasiSteadyGene(q, y[1], y[2]) == Finite(y[4])
  {
    var s := UnpackBasal(y);
    var ds := Derivative(q, s);
    assert UnpackBasal(Rhs(q, t, y).value) == ds;
    assert Rhs(q, t, y).value[4] == ds.G == DG(q, y[1], y[4], y[2]);
  }

  // ---------------------------------------------------------------------
  // simulate
  // ---------------------------------------------------------------------

  /** The initial state the source's notebook used: K0 = 1, I0 = 0.65. */
  const DefaultInitialState: seq<real> := [1.0, 0.0, 0.65, 0.0, 0.0]

  /** The number of sample times when the caller gives none. */
  const DefaultSampleCount: nat := 500

  /** What `simulate(t_span=(0, 5.0), y0=None, t_eval=None)` hands to the
      solver: missing initial state and sample times are replaced by the
      defaults, anything the caller supplies passes through unchanged. */
  function SolveRequest(q: Parameters, tSpan: (real, real) := (0.0, 5.0),
                        y0: Option<seq<real>> := None, tEval: Option<seq<real>> := None)
    : (req: IvpRequest<Parameters>)
    ensures req.model == q && req.tSpan == tSpan && req.solverMethod == "LSODA"
    ensures y0.Some? ==> req.y0 == y0.value
    ensures y0.None? ==> |req.y0| == 5 && UnpackBasal(req.y0) == BasalState(1.0, 0.0, 0.65, 0.0, 0.0)
    ensures tEval.Some? ==> req.tEval == tEval
    ensures tEval.None? ==> (
      && req.tEval.Some? && |req.tEval.value| == 500
      && req.tEval.value[0] == tSpan.0 && req.tEval.value[499] == tSpan.1
      && forall i :: 0 <= i < 499 ==>
           req.tEval.value[i + 1] - req.tEval.value[i] == (tSpan.1 - tSpan.0) / 499.0)
  {
    IvpRequest(
      q, tSpan,
      if y0.None? then DefaultInitialState else y0.value,
      if tEval.None? then Some(Linspace(tSpan.0, tSpan.1, DefaultSampleCount)) else tEval,
      "LSODA")
  }

  /** `simulate`: the solver's answer to that request. */
  function Simulate(solver: IvpRequest<Parameters> -> IvpSolution, q: Parameters,
                    tSpan: (real, real) := (0.0, 5.0),
                    y0: Option<seq<real>> := None, tEval: Option<seq<real>> := None): IvpSolution
  {
    solver(SolveRequest(q, tSpan, y0, tEval))
  }

  /** Called with no arguments, `simulate` integrates the notebook's initial
      state over (0, 5) sampled at 500 evenly spaced times. */
  lemma SimulateDefaults(solver: IvpRequest<Parameters> -> IvpSolution, q: Parameters)
    ensures Simulate(solver, q) == solver(IvpRequest(q, (0.0, 5.0), DefaultInitialState,
                                                     Some(Linspace(0.0, 5.0, 500)), "LSODA"))
  {
  }

  // ---------------------------------------------------------------------
  // The quasi-steady-state curve of plot_results
  // ---------------------------------------------------------------------

  /** `G_mm = (t1 * N) / (t1 * N + t2 * I)` sample by sample on numpy
      arrays: a sample is nan/inf exactly where the denominator vanishes, and
      every other sample is the gene fraction at which dG is zero there. */
  function QuasiSteadyCurve(q: Parameters, N: seq<real>, I: seq<real>): (g: seq<Quotient>)
    requires |N| == |I|
    ensures |g| == |N|
    ensures forall k :: 0 <= k < |g| ==> (g[k].Finite? <==> q.t1 * N[k] + q.t2 * I[k] != 0.0)
    ensures forall k :: 0 <= k < |g| && g[k].Finite? ==> DG(q, N[k], g[k].value, I[k]) == 0.0
  {
    seq(|N|, k requires 0 <= k < |N| => QuasiSteadyGene(q, N[k], I[k]))
  }
}
