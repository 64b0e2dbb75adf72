/** The basal model with unified parameter names
    (notebooks/Basal_model/rovnice.py), and how it relates to the legacy
    basal model of notebooks/rovnice.py under the renaming recorded in the
    comments of notebooks/Basal_model/parametre.py. */
module BasalEquations {
  import opened Numerics
  import opened BasalParameters
  import LegacyParameters
  import LegacyEquations

  /** `BasalSystem(params)`: a missing parameter object means the defaults. */
  function Bind(params: Option<Parameters>): (q: Parameters)
    ensures params.Some? ==> q == params.value
    ensures params.None? ==> AllPositive(q) && q == Default()
  {
    if params.Some? then params.value else Default()
  }

  /** IKK decays at rate d6: at rest exactly when there is no IKK. */
  function DK(q: Parameters, K: real): (r: real)
    ensures q.d6 != 0.0 ==> (r == 0.0 <==> K == 0.0)
    ensures q.d6 > 0.0 && K > 0.0 ==> r < 0.0
  {
    -q.d6 * K
  }

  /** NF-kB: at N = 1 only binding to IkBa remains, at N = 0 only release. */
  function DN(q: Parameters, N: real, K: real, I: real): (r: real)
    ensures N == 1.0 ==> r == -q.a1 * I
    ensures N == 0.0 ==> r == q.a2 + q.d4 * q.d3 + q.d1 * K
  {
    q.a2 * (1.0 - N) + q.d4 * q.d3 * (1.0 - N) + q.d1 * K * (1.0 - N) - q.a1 * N * I
  }

  /** Free IkBa: without free IkBa the rate is dissociation plus translation,
      non-negative for N <= 1 and R >= 0. */
  function DI(q: Parameters, N: real, K: real, I: real, R: real): (r: real)
    ensures I == 0.0 ==> r == q.a2 * (1.0 - N) + q.t4 * R
    ensures I == 0.0 && N <= 1.0 && R >= 0.0 && q.a2 >= 0.0 && q.t4 >= 0.0 ==> r >= 0.0
  {
    q.a2 * (1.0 - N) - q.d2 * q.d1 * K * I - q.a1 * N * I + q.t4 * R - q.d3 * I
  }

  /** IkBa mRNA: transcribed from the active gene at t3, degraded at d5; at
      rest exactly at R = t3 * G / d5. */
  function DR(q: Parameters, R: real, G: real): (r: real)
    ensures q.d5 != 0.0 ==> (r == 0.0 <==> R == q.t3 * G / q.d5)
  {
    var r := q.t3 * G - q.d5 * R;
    if q.d5 != 0.0 then LegacyEquations.LinearRest(q.t3 * G, q.d5, R); r else r
  }

  /** The gene switch: at G = 0 only activation, at G = 1 only inactivation. */
  function DG(q: Parameters, N: real, G: real, I: real): (r: real)
    ensures G == 0.0 ==> r == q.t1 * N
    ensures G == 1.0 ==> r == -q.t2 * I
    ensures G == 0.0 && q.t1 >= 0.0 && N >= 0.0 ==> r >= 0.0
    ensures G == 1.0 && q.t2 >= 0.0 && I >= 0.0 ==> r <= 0.0
  {
    q.t1 * N * (1.0 - G) - q.t2 * I * G
  }

  // ---------------------------------------------------------------------
  // The renaming between the unified and the legacy names
  // ---------------------------------------------------------------------

  /** The legacy record carrying the unified values under their legacy names;
      fields with no unified counterpart are taken from `base`. The new
      transcription constant t3 has no legacy field. */
  function ToLegacy(q: Parameters, base: LegacyParameters.Parameters): (l: LegacyParameters.Parameters)
  {
    base.(A := q.a1, d := q.a2, p := q.d1, kappa := q.d2, d_I := q.d3, gamma := q.d4,
          d_R := q.d5, d_K := q.d6, k_ON := q.t1, k_OFF := q.t2, K_P := q.t4)
  }

  /** Under the renaming, dK, dN, dI and dG are the legacy rates. */
  lemma {:induction false} RenamedRatesAgree(q: Parameters, base: LegacyParameters.Parameters,
                                             K: real, N: real, I: real, R: real, G: real)
    ensures var l := ToLegacy(q, base);
      && DK(q, K) == LegacyEquations.DK(l, K)
      && DN(q, N, K, I) == LegacyEquations.DN(l, N, K, I)
      && DI(q, N, K, I, R) == LegacyEquations.DI(l, N, K, I, R)
      && DG(q, N, G, I) == LegacyEquations.DG(l, N, G, I)
  {
  }

  /** The new mRNA rate t3*G - d5*R is the legacy d_R*(G - R) for every state
      exactly when t3 = d5. */
  lemma {:induction false} MrnaRateAgreesIff(q: Parameters, base: LegacyParameters.Parameters)
    ensures (forall R, G :: DR(q, R, G) == LegacyEquations.DR(ToLegacy(q, base), R, G))
        <==> q.t3 == q.d5
  {
    var l := ToLegacy(q, base);
    if q.t3 == q.d5 {
      forall R, G ensures DR(q, R, G) == LegacyEquations.DR(l, R, G) {
        assert q.t3 * G - q.d5 * R == q.d5 * (G - R);
      }
    }
    if forall R, G :: DR(q, R, G) == LegacyEquations.DR(l, R, G) {
      assert DR(q, 0.0, 1.0) == LegacyEquations.DR(l, 0.0, 1.0);
    }
  }

  /** Each unified default is the legacy default its comment names. */
  lemma DefaultsMatchLegacy()
    ensures ToLegacy(Default(), LegacyParameters.Default()) == LegacyParameters.Default()
  {
  }

  /** With the defaults t3 = 2.5 and d5 = 2.7 the two mRNA rates differ: an
      active gene without mRNA gives 2.5 here and 2.7 in the legacy model. */
  lemma DefaultMrnaRatesDiffer()
    ensures DR(Default(), 0.0, 1.0) != LegacyEquations.DR(LegacyParameters.Default(), 0.0, 1.0)
  {
  }

  // ---------------------------------------------------------------------
  // The quasi-steady-state gene fraction
  // ---------------------------------------------------------------------

  /** `G_mm = t1*N / (t1*N + t2*I)` on numpy floats: nan/inf when the
      denominator vanishes, otherwise the one fraction at which dG is zero. */
  function QuasiSteadyGene(q: Parameters, N: real, I: real): (g: Quotient)
    ensures g.Finite? <==> q.t1 * N + q.t2 * I != 0.0
    ensures g.Finite? ==> DG(q, N, g.value, I) == 0.0
    ensures g.Finite? ==> forall G :: DG(q, N, G, I) == 0.0 ==> G == g.value
  {
    var den := q.t1 * N + q.t2 * I;
    var g := Divide(q.t1 * N, den);
    if g.Finite? then
      assert forall G :: DG(q, N, G, I) == 0.0 <==> G == g.value by {
        forall G ensures DG(q, N, G, I) == 0.0 <==> G == g.value {
          GeneRestIff(q, N, G, I);
        }
      }
      g
    else g
  }

  /** The gene switch is at rest at exactly t1*N / (t1*N + t2*I), proved by
      carrying the legacy result across the renaming. */
  lemma {:induction false} GeneRestIff(q: Parameters, N: real, G: real, I: real)
    requires q.t1 * N + q.t2 * I != 0.0
    ensures DG(q, N, G, I) == 0.0 <==> G == q.t1 * N / (q.t1 * N + q.t2 * I)
  {
    var l := ToLegacy(q, LegacyParameters.Default());
    RenamedRatesAgree(q, LegacyParameters.Default(), 0.0, N, I, 0.0, G);
    LegacyEquations.GeneRestIff(l, N, G, I);
  }
}
