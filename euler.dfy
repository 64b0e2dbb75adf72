/** The fixed-step forward-Euler simulator of the legacy basal model
    (notebooks/simulacia.py). The simulator object keeps its initial state,
    step and horizon, and `run` fills one array per species, the
    quasi-steady gene fraction and the time grid. The trajectory it writes is
    specified by the pure functions `Step` and `Trajectory`. */
module EulerSimulation {
  import opened Numerics
  import opened BasalLayout
  import opened LegacyParameters
  import opened LegacyEquations

  // ---------------------------------------------------------------------
  // The trajectory as a function
  // ---------------------------------------------------------------------

  /** Every rate of the basal model vanishes at `s`. */
  predicate AtRest(q: Parameters, s: BasalState)
  {
    && DK(q, s.K) == 0.0 && DN(q, s.N, s.K, s.I) == 0.0 && DI(q, s.N, s.K, s.I, s.R) == 0.0
    && DR(q, s.R, s.G) == 0.0 && DG(q, s.N, s.G, s.I) == 0.0
  }

  /** One Euler step: every species moves by its rate at the old state
      times dt. */
  function Step(q: Parameters, s: BasalState, dt: real): BasalState
  {
    BasalState(
      s.K + DK(q, s.K) * dt,
      s.N + DN(q, s.N, s.K, s.I) * dt,
      s.I + DI(q, s.N, s.K, s.I, s.R) * dt,
      s.R + DR(q, s.R, s.G) * dt,
      s.G + DG(q, s.N, s.G, s.I) * dt)
  }

  /** Under a step IKK decays geometrically, by the factor 1 - d_K*dt. */
  lemma StepScalesKinase(q: Parameters, s: BasalState, dt: real)
    ensures Step(q, s, dt).K == s.K * (1.0 - q.d_K * dt)
  {
    assert Step(q, s, dt).K == s.K + DK(q, s.K) * dt;
    DecayStep(s.K, q.d_K, dt);
  }

  lemma DecayStep(x: real, rate: real, dt: real)
    ensures x + (-rate * x) * dt == x * (1.0 - rate * dt)
  {
  }

  lemma EulerUpdateFixed(x: real, rate: real, dt: real)
    requires dt != 0.0
    ensures x + rate * dt == x <==> rate == 0.0
  {
    if rate * dt == 0.0 {
      assert rate == 0.0;
    }
  }

  /** A state is left unchanged by a step exactly when it is a rest state of
      the model (for a non-zero step; a rest state is fixed for every step). */
  lemma {:induction false} StepFixedIff(q: Parameters, s: BasalState, dt: real)
    ensures AtRest(q, s) ==> Step(q, s, dt) == s
    ensures dt != 0.0 ==> (Step(q, s, dt) == s <==> AtRest(q, s))
  {
    if dt != 0.0 {
      EulerUpdateFixed(s.K, DK(q, s.K), dt);
      EulerUpdateFixed(s.N, DN(q, s.N, s.K, s.I), dt);
      EulerUpdateFixed(s.I, DI(q, s.N, s.K, s.I, s.R), dt);
      EulerUpdateFixed(s.R, DR(q, s.R, s.G), dt);
      EulerUpdateFixed(s.G, DG(q, s.N, s.G, s.I), dt);
    }
  }

  /** The state after `i` Euler steps from `s0`. */
  function StateAt(q: Parameters, s0: BasalState, dt: real, i: nat): BasalState
  {
    if i == 0 then s0 else Step(q, StateAt(q, s0, dt, i - 1), dt)
  }

  /** The first `n` states of the Euler scheme from `s0`. */
  function Trajectory(q: Parameters, s0: BasalState, dt: real, n: nat): (tr: seq<BasalState>)
    ensures |tr| == n
    ensures forall i {:trigger tr[i]} :: 0 <= i < n ==> tr[i] == StateAt(q, s0, dt, i)
    ensures n >= 1 ==> tr[0] == s0
  {
    seq(n, i requires 0 <= i < n => StateAt(q, s0, dt, i))
  }

  /** The trajectory starts at `s0` and each later state is one Euler step
      from the state before it. */
  lemma TrajectoryRecurrence(q: Parameters, s0: BasalState, dt: real, n: nat, i: nat)
    requires i < n
    ensures i == 0 ==> Trajectory(q, s0, dt, n)[i] == s0
    ensures i >= 1 ==> Trajectory(q, s0, dt, n)[i] == Step(q, Trajectory(q, s0, dt, n)[i - 1], dt)
  {
  }

  function Pow(x: real, n: nat): real
  {
    if n == 0 then 1.0 else x * Pow(x, n - 1)
  }

  /** `x0` multiplied by `r`, `i` times over. */
  function Scaled(x0: real, r: real, i: nat): real
  {
    if i == 0 then x0 else Scaled(x0, r, i - 1) * r
  }

  /** Repeated scaling is scaling by a power. */
  lemma {:induction false} ScaledIsPower(x0: real, r: real, i: nat)
    ensures Scaled(x0, r, i) == x0 * Pow(r, i)
  {
    if i > 0 {
      ScaledIsPower(x0, r, i - 1);
      assert Scaled(x0, r, i) == x0 * Pow(r, i - 1) * r;
    }
  }

  /** IKK after `i` steps is K0 scaled `i` times by 1 - d_K*dt. */
  lemma {:induction false} StateAtKinase(q: Parameters, s0: BasalState, dt: real, i: nat)
    ensures StateAt(q, s0, dt, i).K == Scaled(s0.K, 1.0 - q.d_K * dt, i)
  {
    if i > 0 {
      var prev := StateAt(q, s0, dt, i - 1);
      var r := 1.0 - q.d_K * dt;
      StateAtKinase(q, s0, dt, i - 1);
      assert StateAt(q, s0, dt, i) == Step(q, prev, dt);
      StepScalesKinase(q, prev, dt);
      assert Scaled(s0.K, r, i) == Scaled(s0.K, r, i - 1) * r;
    }
  }

  /** IKK in closed form along the trajectory: K[i] = K0 * (1 - d_K*dt)^i. */
  lemma KClosedForm(q: Parameters, s0: BasalState, dt: real, i: nat)
    ensures StateAt(q, s0, dt, i).K == s0.K * Pow(1.0 - q.d_K * dt, i)
  {
    StateAtKinase(q, s0, dt, i);
    ScaledIsPower(s0.K, 1.0 - q.d_K * dt, i);
  }

  /** Started at a rest state, the scheme stays there. */
  lemma {:induction false} RestStateIsStationary(q: Parameters, s0: BasalState, dt: real, i: nat)
    requires AtRest(q, s0)
    ensures StateAt(q, s0, dt, i) == s0
  {
    if i > 0 {
      RestStateIsStationary(q, s0, dt, i - 1);
      StepFixedIff(q, s0, dt);
    }
  }

  /** The G_mm column: entry 0 is the quasi-steady gene fraction of the
      initial state, entry i >= 1 that of state i - 1. */
  function GeneLag(q: Parameters, tr: seq<BasalState>): (g: seq<Quotient>)
    requires |tr| >= 1
    ensures |g| == |tr|
    ensures g[0] == QuasiSteadyGene(q, tr[0].N, tr[0].I)
    ensures forall i :: 1 <= i < |tr| ==> g[i] == QuasiSteadyGene(q, tr[i - 1].N, tr[i - 1].I)
  {
    [QuasiSteadyGene(q, tr[0].N, tr[0].I)]
      + seq(|tr| - 1, i requires 0 <= i < |tr| - 1 => QuasiSteadyGene(q, tr[i].N, tr[i].I))
  }

  /** G_mm lags one step behind: its first two entries are both computed from
      the initial state, and every finite entry i >= 1 is the rest point of
      the gene switch at state i - 1, not at state i. */
  lemma {:induction false} GeneLagsOneStep(q: Parameters, tr: seq<BasalState>)
    requires |tr| >= 2
    ensures GeneLag(q, tr)[1] == GeneLag(q, tr)[0]
    ensures forall i :: 1 <= i < |tr| && GeneLag(q, tr)[i].Finite? ==>
      DG(q, tr[i - 1].N, GeneLag(q, tr)[i].value, tr[i - 1].I) == 0.0
  {
    var g := GeneLag(q, tr);
    assert g[1] == QuasiSteadyGene(q, tr[0].N, tr[0].I);
  }

  /** With the defaults dt = 0.01 and t_max = 5 there are 500 steps, and the
      time grid is spaced by 5/499, not by dt. */
  lemma DefaultTimeGridIsNotDtSpaced()
    ensures Trunc(5.0 / 0.01) == 500
    ensures var t := Linspace(0.0, 5.0, 500); t[1] - t[0] == 5.0 / 499.0 && t[1] - t[0] != 0.01
  {
    var n := Trunc(5.0 / 0.01);
    assert 5.0 / 0.01 == 500.0;
  }

  // ---------------------------------------------------------------------
  // The simulator object
  // ---------------------------------------------------------------------

  /** Five equally long species columns read together as a sequence of states. */
  function Zip(k: seq<real>, n: seq<real>, i: seq<real>, r: seq<real>, g: seq<real>): (ss: seq<BasalState>)
    requires |n| == |k| && |i| == |k| && |r| == |k| && |g| == |k|
    ensures |ss| == |k|
    ensures forall j :: 0 <= j < |k| ==> ss[j] == BasalState(k[j], n[j], i[j], r[j], g[j])
  {
    seq(|k|, j requires 0 <= j < |k| => BasalState(k[j], n[j], i[j], r[j], g[j]))
  }

  /** The columns hold the Euler trajectory from `s0` and, in `gm`, its G_mm
      column lagging one step behind. */
  predicate Simulated(q: Parameters, s0: BasalState, dt: real, k: seq<real>, n: seq<real>,
                      i: seq<real>, r: seq<real>, g: seq<real>, gm: seq<Quotient>)
  {
    && |k| >= 1
    && |n| == |k| && |i| == |k| && |r| == |k| && |g| == |k| && |gm| == |k|
    && Zip(k, n, i, r, g) == Trajectory(q, s0, dt, |k|)
    && gm == GeneLag(q, Trajectory(q, s0, dt, |k|))
  }

  /** Read entry by entry, simulated columns start at `s0`, take one Euler
      step per index from the values at the index before, and carry in G_mm
      the quasi-steady gene fraction of the state one index earlier (of `s0`
      itself at index 0). */
  lemma SimulatedEntries(q: Parameters, s0: BasalState, dt: real, k: seq<real>, n: seq<real>,
                         i: seq<real>, r: seq<real>, g: seq<real>, gm: seq<Quotient>, j: nat)
    requires Simulated(q, s0, dt, k, n, i, r, g, gm)
    requires j < |k|
    ensures j == 0 ==> BasalState(k[0], n[0], i[0], r[0], g[0]) == s0
    ensures j == 0 ==> gm[0] == QuasiSteadyGene(q, s0.N, s0.I)
    ensures j >= 1 ==> BasalState(k[j], n[j], i[j], r[j], g[j])
                       == Step(q, BasalState(k[j - 1], n[j - 1], i[j - 1], r[j - 1], g[j - 1]), dt)
    ensures j >= 1 ==> gm[j] == QuasiSteadyGene(q, n[j - 1], i[j - 1])
  {
    var tr := Trajectory(q, s0, dt, |k|);
    assert Zip(k, n, i, r, g)[j] == tr[j];
    if j >= 1 {
      assert Zip(k, n, i, r, g)[j - 1] == tr[j - 1];
    }
  }

  /** The K column of a simulation is K0 * (1 - d_K*dt)^j at index j. */
  lemma SimulatedKinase(q: Parameters, s0: BasalState, dt: real, k: seq<real>, n: seq<real>,
                        i: seq<real>, r: seq<real>, g: seq<real>, gm: seq<Quotient>, j: nat)
    requires Simulated(q, s0, dt, k, n, i, r, g, gm)
    requires j < |k|
    ensures k[j] == s0.K * Pow(1.0 - q.d_K * dt, j)
  {
    assert Zip(k, n, i, r, g)[j] == Trajectory(q, s0, dt, |k|)[j];
    KClosedForm(q, s0, dt, j);
  }

  /** The loop of `run`: from the state and G_mm value stored at index 0,
      each index i >= 1 receives G_mm from state i - 1 and the Euler step of
      state i - 1 (the five rates at i - 1 times dt, added to the five values
      at i - 1); every write reads only index i - 1. Afterwards the arrays
      hold the trajectory and its lagged G_mm column. */
  method Integrate(q: Parameters, dt: real, k: array<real>, n: array<real>, i: array<real>,
                   r: array<real>, g: array<real>, gm: array<Quotient>)
    requires k.Length >= 1
    requires n.Length == k.Length && i.Length == k.Length && r.Length == k.Length && g.Length == k.Length
    requires gm.Length == k.Length
    requires k != n && k != i && k != r && k != g && n != i && n != r && n != g && i != r && i != g && r != g
    requires gm[0] == QuasiSteadyGene(q, n[0], i[0])
    modifies k, n, i, r, g, gm
    ensures Simulated(q, BasalState(old(k[0]), old(n[0]), old(i[0]), old(r[0]), old(g[0])), dt,
                      k[..], n[..], i[..], r[..], g[..], gm[..])
  {
    ghost var tr := Trajectory(q, BasalState(k[0], n[0], i[0], r[0], g[0]), dt, k.Length);
    ghost var lag := GeneLag(q, tr);
    for step := 1 to k.Length
      invariant forall j :: 0 <= j < step ==> BasalState(k[j], n[j], i[j], r[j], g[j]) == tr[j]
      invariant forall j :: 0 <= j < step ==> gm[j] == lag[j]
    {
      var prev := BasalState(k[step - 1], n[step - 1], i[step - 1], r[step - 1], g[step - 1]);
      assert prev == tr[step - 1];
      var next := Step(q, prev, dt);
      assert next == tr[step];
      gm[step] := QuasiSteadyGene(q, prev.N, prev.I);
      k[step], n[step], i[step], r[step], g[step] := next.K, next.N, next.I, next.R, next.G;
    }
    assert Zip(k[..], n[..], i[..], r[..], g[..]) == tr;
  }

  /** `np.linspace(0, t_max, n)` stored in a new array. */
  method TimeGrid(tMax: real, n: nat) returns (t: array<real>)
    ensures fresh(t) && t[..] == Linspace(0.0, tMax, n)
  {
    var grid := Linspace(0.0, tMax, n);
    t := new real[n](j requires 0 <= j < n => grid[j]);
  }

  datatype RunError =
    | NegativeDimensions  // np.zeros with a negative step count
    | IndexOutOfBounds    // writing index 0 of an empty array
    | ZeroDivision        // G_mm[0] on Python floats with k_ON*N0 + k_OFF*I0 == 0

  const Origin := BasalState(0.0, 0.0, 0.0, 0.0, 0.0)

  function Repeat<T>(x: T, n: nat): (s: seq<T>)
    ensures |s| == n && forall j :: 0 <= j < n ==> s[j] == x
  {
    seq(n, j => x)
  }

  /** Index 0 holds `s0` and everything else is still zero: the columns as
      `run` leaves them when G_mm[0] raises. */
  predicate InitialOnly(s0: BasalState, k: seq<real>, n: seq<real>, i: seq<real>,
                        r: seq<real>, g: seq<real>, gm: seq<Quotient>)
  {
    && |k| >= 1
    && |n| == |k| && |i| == |k| && |r| == |k| && |g| == |k|
    && Zip(k, n, i, r, g) == [s0] + Repeat(Origin, |k| - 1)
    && gm == Repeat(Finite(0.0), |gm|)
  }

  /** `np.zeros(n)` for the five species and G_mm. */
  method Zeros(n: nat) returns (k: array<real>, nn: array<real>, i: array<real>, r: array<real>, g: array<real>,
                                gm: array<Quotient>)
    ensures fresh(k) && fresh(nn) && fresh(i) && fresh(r) && fresh(g) && fresh(gm)
    ensures k != nn && k != i && k != r && k != g && nn != i && nn != r && nn != g && i != r && i != g && r != g
    ensures k.Length == n && nn.Length == n && i.Length == n && r.Length == n && g.Length == n
    ensures gm.Length == n
    ensures Zip(k[..], nn[..], i[..], r[..], g[..]) == Repeat(Origin, n)
    ensures gm[..] == Repeat(Finite(0.0), n)
  {
    k := new real[n](j => 0.0);
    nn := new real[n](j => 0.0);
    i := new real[n](j => 0.0);
    r := new real[n](j => 0.0);
    g := new real[n](j => 0.0);
    gm := new Quotient[n](j => Finite(0.0));
  }

  /** The part of `run` after allocation: store the initial state at index
      0, compute G_mm[0] on Python floats (a zero denominator raises, with
      index 0 already written and everything else still zero), then run the
      loop. */
  method Fill(q: Parameters, s0: BasalState, dt: real, k: array<real>, n: array<real>, i: array<real>,
              r: array<real>, g: array<real>, gm: array<Quotient>)
    returns (err: Option<RunError>)
    requires k.Length >= 1
    requires n.Length == k.Length && i.Length == k.Length && r.Length == k.Length && g.Length == k.Length
    requires gm.Length == k.Length
    requires k != n && k != i && k != r && k != g && n != i && n != r && n != g && i != r && i != g && r != g
    requires Zip(k[..], n[..], i[..], r[..], g[..]) == Repeat(Origin, k.Length)
    requires gm[..] == Repeat(Finite(0.0), gm.Length)
    modifies k, n, i, r, g, gm
    ensures err.None? || err == Some(ZeroDivision)
    ensures err == Some(ZeroDivision) <==> QuasiSteadyGene(q, s0.N, s0.I).NonFinite?
    ensures err.Some? ==> InitialOnly(s0, k[..], n[..], i[..], r[..], g[..], gm[..])
    ensures err.None? ==> Simulated(q, s0, dt, k[..], n[..], i[..], r[..], g[..], gm[..])
  {
    k[0] := s0.K;
    n[0] := s0.N;
    i[0] := s0.I;
    r[0] := s0.R;
    g[0] := s0.G;
    var gm0 := QuasiSteadyGene(q, n[0], i[0]);
    if gm0.NonFinite? {
      return Some(ZeroDivision);
    }
    gm[0] := gm0;
    Integrate(q, dt, k, n, i, r, g, gm);
    return None;
  }

  /** The arrays `run` builds for a non-negative step count `n`: six fresh
      zero-filled arrays of length `n`; for `n = 0` the write to index 0
      fails; a zero G_mm[0] denominator fails with only index 0 written;
      otherwise the arrays hold the simulation and a fresh time grid is
      returned beside them. */
  method RunColumns(q: Parameters, s0: BasalState, dt: real, tMax: real, n: nat)
    returns (err: Option<RunError>, k: array<real>, nn: array<real>, i: array<real>, r: array<real>,
             g: array<real>, gm: array<Quotient>, t: array?<real>)
    ensures fresh(k) && fresh(nn) && fresh(i) && fresh(r) && fresh(g) && fresh(gm)
    ensures k.Length == n && nn.Length == n && i.Length == n && r.Length == n && g.Length == n
    ensures gm.Length == n
    ensures n == 0 ==> err == Some(IndexOutOfBounds) && t == null
    ensures n >= 1 && QuasiSteadyGene(q, s0.N, s0.I).NonFinite? ==>
      (&& err == Some(ZeroDivision) && t == null
       && InitialOnly(s0, k[..], nn[..], i[..], r[..], g[..], gm[..]))
    ensures n >= 1 && QuasiSteadyGene(q, s0.N, s0.I).Finite? ==>
      (&& err == None && t != null && fresh(t) && t[..] == Linspace(0.0, tMax, n)
       && Simulated(q, s0, dt, k[..], nn[..], i[..], r[..], g[..], gm[..]))
  {
    k, nn, i, r, g, gm := Zeros(n);
    t := null;
    if n == 0 {
      return Some(IndexOutOfBounds), k, nn, i, r, g, gm, t;
    }
    err := Fill(q, s0, dt, k, nn, i, r, g, gm);
    if err.None? {
      t := TimeGrid(tMax, n);
    }
  }

  class SimulateBasalSystem {
    const K0: real
    const N0: real
    const I0: real
    const R0: real
    const G0: real
    const dt: real
    const tMax: real
    const params: Parameters
    const nSteps: int

    var t: array?<real>
    var K: array?<real>
    var N: array?<real>
    var I: array?<real>
    var R: array?<real>
    var G: array?<real>
    var Gmm: array?<Quotient>

    /** The object as constructed: the given initial state, step and horizon,
        the default parameters, `int(t_max / dt)` steps, and no results. */
    constructor(K0: real := 1.0, N0: real := 0.0, I0: real := 0.65, R0: real := 0.0, G0: real := 0.0,
                dt: real := 0.01, tMax: real := 5.0)
      requires dt != 0.0
      ensures this.K0 == K0 && this.N0 == N0 && this.I0 == I0 && this.R0 == R0 && this.G0 == G0
      ensures this.dt == dt && this.tMax == tMax
      ensures params == Bind(None) && nSteps == Trunc(tMax / dt)
      ensures t == null && K == null && N == null && I == null && R == null && G == null && Gmm == null
    {
      this.K0, this.N0, this.I0, this.R0, this.G0 := K0, N0, I0, R0, G0;
      this.dt, this.tMax := dt, tMax;
      params := Bind(None);
      nSteps := Trunc(tMax / dt);
      t, K, N, I, R, G, Gmm := null, null, null, null, null, null, null;
    }

    function Initial(): BasalState
    {
      BasalState(K0, N0, I0, R0, G0)
    }

    /** The five species arrays have been allocated with `nSteps` entries. */
    predicate Allocated()
      reads this
    {
      && K != null && N != null && I != null && R != null && G != null && Gmm != null
      && K.Length == nSteps && N.Length == nSteps && I.Length == nSteps
      && R.Length == nSteps && G.Length == nSteps && Gmm.Length == nSteps
    }

    /** `run`. Errors are those Python raises part-way: a negative step count
        fails before anything is stored; zero steps store six empty arrays and
        then fail writing index 0; a zero G_mm denominator at the initial
        state fails after index 0 is written. On success every array holds
        `nSteps` entries: the Euler trajectory from the initial state, G_mm
        one step behind it, and the evenly spaced time grid from 0 to t_max. */
    method Run() returns (err: Option<RunError>)
      modifies this
      ensures nSteps < 0 ==> err == Some(NegativeDimensions) && unchanged(this)
      ensures nSteps >= 0 ==> (Allocated() && fresh(K) && fresh(N) && fresh(I) && fresh(R) && fresh(G) && fresh(Gmm))
      ensures nSteps == 0 ==> err == Some(IndexOutOfBounds) && t == old(t)
      ensures nSteps >= 1 && QuasiSteadyGene(params, N0, I0).NonFinite? ==>
        (&& err == Some(ZeroDivision) && t == old(t)
         && InitialOnly(Initial(), K[..], N[..], I[..], R[..], G[..], Gmm[..]))
      ensures nSteps >= 1 && QuasiSteadyGene(params, N0, I0).Finite? ==>
        (&& err == None
         && t != null && fresh(t) && t[..] == Linspace(0.0, tMax, nSteps)
         && Simulated(params, Initial(), dt, K[..], N[..], I[..], R[..], G[..], Gmm[..]))
    {
      if nSteps < 0 {
        return Some(NegativeDimensions);
      }
      var kk, nn, ii, rr, gg, gm, grid;
      err, kk, nn, ii, rr, gg, gm, grid := RunColumns(params, Initial(), dt, tMax, nSteps);
      K, N, I, R, G, Gmm := kk, nn, ii, rr, gg, gm;
      if err.None? {
        t := grid;
      }
    }

    /** `get_results`: the time grid and the six result arrays. */
    function Results(): (r: (array?<real>, array?<real>, array?<real>, array?<real>, array?<real>,
                             array?<real>, array?<Quotient>))
      reads this
    {
      (t, K, N, I, R, G, Gmm)
    }
  }
}
