/** The legacy reaction models of notebooks/rovnice.py: the 5-species basal
    system (active IKK K, NF-kB fraction N, free IkBa I, IkBa mRNA R, active
    gene fraction G) and the 9-species compartmental system. Both are pure:
    each derivative is a polynomial in the state and the bound rates. */
module LegacyEquations {
  import opened Numerics
  import opened LegacyParameters

  // ---------------------------------------------------------------------
  // BasalSystem
  // ---------------------------------------------------------------------

  /** `BasalSystem(params)`: a missing parameter object means the defaults. */
  function Bind(params: Option<Parameters>): (q: Parameters)
    ensures params.Some? ==> q == params.value
    ensures params.None? ==> AllPositive(q) && q == Default()
  {
    if params.Some? then params.value else Default()
  }

  /** dK/dt: IKK decays at rate d_K. */
  function DK(q: Parameters, K: real): real
  {
    -q.d_K * K
  }

  /** dN/dt: NF-kB release (dissociation, complex decay, IKK-driven) and
      binding to IkBa. */
  function DN(q: Parameters, N: real, K: real, I: real): real
  {
    q.d * (1.0 - N) + q.gamma * q.d_I * (1.0 - N) + q.p * K * (1.0 - N) - q.A * N * I
  }

  /** dI/dt: free IkBa. */
  function DI(q: Parameters, N: real, K: real, I: real, R: real): real
  {
    q.d * (1.0 - N) - q.kappa * q.p * K * I - q.A * N * I + q.K_P * R - q.d_I * I
  }

  /** dR/dt: IkBa mRNA relaxes toward the gene state. */
  function DR(q: Parameters, R: real, G: real): real
  {
    q.d_R * (G - R)
  }

  /** dG/dt: the gene switch. */
  function DG(q: Parameters, N: real, G: real, I: real): real
  {
    q.k_ON * N * (1.0 - G) - q.k_OFF * I * G
  }

  /** IKK does not change without IKK and is lost when there is some. */
  lemma {:induction false} KinaseRateSigns(q: Parameters, K: real)
    ensures K == 0.0 ==> DK(q, K) == 0.0
    ensures q.d_K > 0.0 && K > 0.0 ==> DK(q, K) < 0.0
    ensures q.d_K > 0.0 && K < 0.0 ==> DK(q, K) > 0.0
  {
    if q.d_K > 0.0 && K > 0.0 {
      assert q.d_K * K > 0.0;
    }
    if q.d_K > 0.0 && K < 0.0 {
      assert q.d_K * (-K) > 0.0;
    }
  }

  /** At N = 1 only binding to IkBa remains, at N = 0 only release. */
  lemma {:induction false} FactorRateEdges(q: Parameters, K: real, I: real)
    ensures DN(q, 1.0, K, I) == -q.A * I
    ensures DN(q, 0.0, K, I) == q.d + q.gamma * q.d_I + q.p * K
  {
    assert DN(q, 1.0, K, I) == q.d * 0.0 + q.gamma * q.d_I * 0.0 + q.p * K * 0.0 - q.A * 1.0 * I;
  }

  /** Without free IkBa its rate is the dissociation supply plus
      translation, non-negative for N <= 1, R >= 0. */
  lemma {:induction false} InhibitorRateAtZero(q: Parameters, N: real, K: real, R: real)
    ensures DI(q, N, K, 0.0, R) == q.d * (1.0 - N) + q.K_P * R
    ensures N <= 1.0 && R >= 0.0 && q.d >= 0.0 && q.K_P >= 0.0 ==> DI(q, N, K, 0.0, R) >= 0.0
  {
    assert DI(q, N, K, 0.0, R) == q.d * (1.0 - N) - q.kappa * q.p * K * 0.0 - q.A * N * 0.0 + q.K_P * R - q.d_I * 0.0;
    if N <= 1.0 && R >= 0.0 && q.d >= 0.0 && q.K_P >= 0.0 {
      assert q.d * (1.0 - N) >= 0.0;
      assert q.K_P * R >= 0.0;
    }
  }

  /** mRNA is at rest exactly when it matches the gene state. */
  lemma {:induction false} MrnaRestIff(q: Parameters, R: real, G: real)
    requires q.d_R != 0.0
    ensures DR(q, R, G) == 0.0 <==> R == G
  {
    if q.d_R * (G - R) == 0.0 {
      assert G - R == 0.0;
    }
  }

  /** At G = 0 only activation, at G = 1 only inactivation, so with
      non-negative rates and levels the switch points into [0, 1]. */
  lemma {:induction false} GeneRateEdges(q: Parameters, N: real, I: real)
    ensures DG(q, N, 0.0, I) == q.k_ON * N
    ensures DG(q, N, 1.0, I) == -q.k_OFF * I
    ensures q.k_ON >= 0.0 && N >= 0.0 ==> DG(q, N, 0.0, I) >= 0.0
    ensures q.k_OFF >= 0.0 && I >= 0.0 ==> DG(q, N, 1.0, I) <= 0.0
  {
    assert DG(q, N, 0.0, I) == q.k_ON * N * 1.0 - q.k_OFF * I * 0.0;
    assert DG(q, N, 1.0, I) == q.k_ON * N * 0.0 - q.k_OFF * I * 1.0;
    if q.k_ON >= 0.0 && N >= 0.0 {
      assert q.k_ON * N >= 0.0;
    }
    if q.k_OFF >= 0.0 && I >= 0.0 {
      assert q.k_OFF * I >= 0.0;
    }
  }

  /** The quasi-steady-state gene fraction k_ON*N / (k_ON*N + k_OFF*I) on
      numpy floats: nan/inf when the denominator vanishes, otherwise the
      value at which the gene switch is at rest. */
  function QuasiSteadyGene(q: Parameters, N: real, I: real): (g: Quotient)
    ensures g.Finite? <==> q.k_ON * N + q.k_OFF * I != 0.0
    ensures g.Finite? ==> DG(q, N, g.value, I) == 0.0
    ensures g.Finite? ==> forall G :: DG(q, N, G, I) == 0.0 ==> G == g.value
  {
    var g := Divide(q.k_ON * N, q.k_ON * N + q.k_OFF * I);
    if g.Finite? then
      assert forall G :: DG(q, N, G, I) == 0.0 <==> G == g.value by {
        forall G ensures DG(q, N, G, I) == 0.0 <==> G == g.value {
          GeneRestIff(q, N, G, I);
        }
      }
      g
    else g
  }

  /** The gene switch is at rest at exactly one fraction, the quasi-steady
      one, whenever k_ON*N + k_OFF*I is non-zero. */
  lemma {:induction false} GeneRestIff(q: Parameters, N: real, G: real, I: real)
    requires q.k_ON * N + q.k_OFF * I != 0.0
    ensures DG(q, N, G, I) == 0.0 <==> G == q.k_ON * N / (q.k_ON * N + q.k_OFF * I)
  {
    var den := q.k_ON * N + q.k_OFF * I;
    assert DG(q, N, G, I) == q.k_ON * N - G * den;
    assert G * den == q.k_ON * N <==> G == q.k_ON * N / den;
  }

  // ---------------------------------------------------------------------
  // CompartmentalSystem
  // ---------------------------------------------------------------------

  /** The rates `ode_equations` reads, and only those. */
  datatype CompartmentalParameters = CompartmentalParameters(
    k_IKK: real, d_K: real,
    k_imp_N: real, k_exp_NI: real, k_imp_NI: real, k_imp_I: real, k_exp_I: real,
    k_A: real, k_A_N: real, d: real, p: real, p_I: real, gamma: real, d_I: real,
    K_P: real, k_ON: real, k_OFF: real, d_R: real)

  /** The state, in the order of `y`: IKK, cytoplasmic / nuclear NF-kB,
      cytoplasmic / nuclear IkBa, cytoplasmic / nuclear complex, gene, mRNA. */
  datatype CompartmentalState = CompartmentalState(
    K: real, N_C: real, N_N: real, I_C: real, I_N: real,
    NI_C: real, NI_N: real, G: real, R: real)

  function UnpackCompartmental(y: seq<real>): (s: CompartmentalState)
    requires |y| == 9
  {
    CompartmentalState(y[0], y[1], y[2], y[3], y[4], y[5], y[6], y[7], y[8])
  }

  function PackCompartmental(s: CompartmentalState): (y: seq<real>)
  {
    [s.K, s.N_C, s.N_N, s.I_C, s.I_N, s.NI_C, s.NI_N, s.G, s.R]
  }

  /** Unpacking and packing the state vector are inverse to each other. */
  lemma CompartmentalLayoutRoundTrip(s: CompartmentalState, y: seq<real>)
    ensures |PackCompartmental(s)| == 9 && UnpackCompartmental(PackCompartmental(s)) == s
    ensures |y| == 9 ==> PackCompartmental(UnpackCompartmental(y)) == y
  {
  }

  // The nine rates of `ode_equations`, one function per species, so that a
  // property of some species is proved from those species' rates alone.

  /** dK_dt: IKK synthesis and decay. */
  function KinaseRate(q: CompartmentalParameters, s: CompartmentalState): real
  {
    q.k_IKK - q.d_K * s.K
  }

  /** dN_C_dt: cytoplasmic NF-kB. */
  function CytosolicFactorRate(q: CompartmentalParameters, s: CompartmentalState): real
  {
    q.k_exp_NI * s.NI_N + q.d * s.NI_C + q.p * s.K * s.NI_C - q.k_imp_N * s.N_C - q.k_A * s.N_C * s.I_C
  }

  /** dN_N_dt: nuclear NF-kB. */
  function NuclearFactorRate(q: CompartmentalParameters, s: CompartmentalState): real
  {
    q.k_imp_N * s.N_C - q.k_A_N * s.N_N * s.I_N
  }

  /** dI_C_dt: cytoplasmic IkBa. */
  function CytosolicInhibitorRate(q: CompartmentalParameters, s: CompartmentalState): real
  {
    q.K_P * s.R - q.k_A * s.N_C * s.I_C - q.k_imp_I * s.I_C + q.k_exp_I * s.I_N - q.d_I * s.I_C + q.p_I * s.K * s.I_C
  }

  /** dI_N_dt: nuclear IkBa. */
  function NuclearInhibitorRate(q: CompartmentalParameters, s: CompartmentalState): real
  {
    -q.k_A_N * s.N_N * s.I_N + q.k_imp_I * s.I_C - q.k_exp_I * s.I_N + q.d_I * s.NI_N + q.d * s.NI_N
  }

  /** dNI_C_dt: cytoplasmic complex. */
  function CytosolicComplexRate(q: CompartmentalParameters, s: CompartmentalState): real
  {
    q.k_A * s.N_C * s.I_C - q.d * s.NI_C - q.p * s.K * s.NI_C - q.gamma * s.NI_C - q.k_imp_NI * s.NI_C + q.k_exp_NI * s.NI_N
  }

  /** dNI_N_dt: nuclear complex. */
  function NuclearComplexRate(q: CompartmentalParameters, s: CompartmentalState): real
  {
    q.k_A_N * s.N_N * s.I_N + q.k_imp_NI * s.NI_C - q.k_exp_NI * s.NI_N - q.d * s.NI_N - q.d_I * s.NI_N
  }

  /** dG_dt: gene state switched by nuclear NF-kB and nuclear IkBa. */
  function GeneRate(q: CompartmentalParameters, s: CompartmentalState): real
  {
    q.k_ON * s.N_N * (1.0 - s.G) - q.k_OFF * s.I_N * s.G
  }

  /** dR_dt: IkBa mRNA. */
  function MrnaRate(q: CompartmentalParameters, s: CompartmentalState): real
  {
    s.G - q.d_R * s.R
  }

  /** The nine derivatives, in the state's own layout. */
  function CompartmentalDerivative(q: CompartmentalParameters, s: CompartmentalState): CompartmentalState
  {
    CompartmentalState(
      KinaseRate(q, s), CytosolicFactorRate(q, s), NuclearFactorRate(q, s),
      CytosolicInhibitorRate(q, s), NuclearInhibitorRate(q, s),
      CytosolicComplexRate(q, s), NuclearComplexRate(q, s),
      GeneRate(q, s), MrnaRate(q, s))
  }

  /** The rate bookkeeping behind the NF-kB balance of the compartmental
      model, with each binding flux and each IKK-driven rate taken as a whole. */
  lemma NuclearFactorBalance(exportNI: real, d: real, pK: real, gamma: real, dI: real,
                             importN: real, importNI: real, bindC: real, bindN: real,
                             NC: real, NIC: real, NIN: real)
    ensures (exportNI * NIN + d * NIC + pK * NIC - importN * NC - bindC)
          + (importN * NC - bindN)
          + (bindC - d * NIC - pK * NIC - gamma * NIC - importNI * NIC + exportNI * NIN)
          + (bindN + importNI * NIC - exportNI * NIN - d * NIN - dI * NIN)
         == exportNI * NIN - gamma * NIC - (d + dI) * NIN
  {
  }

  /** Total NF-kB (free and bound, both compartments) is NOT conserved in this
      variant. Nuclear complex export is credited both to cytosolic NF-kB and
      to the cytosolic complex, nuclear complex loss at rate d frees IkBa but
      no NF-kB, and gamma and d_I degrade complex. */
  lemma {:induction false} CompartmentalNuclearFactorRate(q: CompartmentalParameters, s: CompartmentalState)
    ensures CytosolicFactorRate(q, s) + NuclearFactorRate(q, s)
          + CytosolicComplexRate(q, s) + NuclearComplexRate(q, s)
         == q.k_exp_NI * s.NI_N - q.gamma * s.NI_C - (q.d + q.d_I) * s.NI_N
  {
    NuclearFactorBalance(q.k_exp_NI, q.d, q.p * s.K, q.gamma, q.d_I, q.k_imp_N, q.k_imp_NI,
                         q.k_A * s.N_C * s.I_C, q.k_A_N * s.N_N * s.I_N, s.N_C, s.NI_C, s.NI_N);
  }

  /** Even with no degradation (gamma = d_I = 0) total NF-kB changes at
      (k_exp_NI - d) * NI_N: the doubly credited export and the unreturned
      complex loss alone break conservation. */
  lemma {:induction false} CompartmentalFactorDriftWithoutDegradation(q: CompartmentalParameters, s: CompartmentalState)
    requires q.gamma == 0.0 && q.d_I == 0.0
    ensures CytosolicFactorRate(q, s) + NuclearFactorRate(q, s)
          + CytosolicComplexRate(q, s) + NuclearComplexRate(q, s)
         == (q.k_exp_NI - q.d) * s.NI_N
    ensures q.k_exp_NI != q.d && s.NI_N != 0.0 ==>
      CytosolicFactorRate(q, s) + NuclearFactorRate(q, s)
      + CytosolicComplexRate(q, s) + NuclearComplexRate(q, s) != 0.0
  {
    CompartmentalNuclearFactorRate(q, s);
    assert (q.k_exp_NI - q.d) * s.NI_N == q.k_exp_NI * s.NI_N - q.d * s.NI_N;
  }

  /** The nuclear gene switch points into [0, 1]: at G = 0 only activation by
      nuclear NF-kB, at G = 1 only inactivation by nuclear IkBa. */
  lemma {:induction false} CompartmentalGeneEdges(q: CompartmentalParameters, s: CompartmentalState)
    ensures s.G == 0.0 ==> GeneRate(q, s) == q.k_ON * s.N_N
    ensures s.G == 1.0 ==> GeneRate(q, s) == -q.k_OFF * s.I_N
  {
  }

  /** IKK is at rest exactly at the level k_IKK / d_K. */
  lemma {:induction false} CompartmentalKinaseRest(q: CompartmentalParameters, s: CompartmentalState)
    requires q.d_K != 0.0
    ensures KinaseRate(q, s) == 0.0 <==> s.K == q.k_IKK / q.d_K
  {
    LinearRest(q.k_IKK, q.d_K, s.K);
  }

  /** A linear decay toward a source level is at rest at exactly one level. */
  lemma LinearRest(source: real, rate: real, x: real)
    requires rate != 0.0
    ensures source - rate * x == 0.0 <==> x == source / rate
  {
  }

  /** `ode_equations(t, y)`: a state of any length but nine fails to unpack;
      otherwise the result has nine entries and, read with the state's own
      layout, holds each species' derivative. The time is not read. */
  function OdeEquations(q: CompartmentalParameters, t: real, y: seq<real>): (r: Option<seq<real>>)
    ensures r.Some? <==> |y| == 9
    ensures r.Some? ==> (|r.value| == 9 &&
      UnpackCompartmental(r.value) == CompartmentalDerivative(q, UnpackCompartmental(y)))
  {
    if |y| != 9 then None
    else Some(PackCompartmental(CompartmentalDerivative(q, UnpackCompartmental(y))))
  }
}
