/** The cytoplasm/nucleus model with the article's equations
    (notebooks/CytoNuclei_model/CytoNuc_rovnice.py): free NF-kB N / Nn,
    free IkB I / In, IkB mRNA Im, and the NF-kB:IkB complex NI / NIn, in the
    cytoplasm and the nucleus. The record below holds exactly the rates
    `NFkBSystemExact.rhs` reads; CytoNucParamsExact, the record the source
    ships beside it, does not define them. */
module CytoNucEquations {
  import opened Numerics

  datatype Rates = Rates(
    k1: real,  // NF-kB import
    k2: real,  // IkB import
    k3: real,  // IkB export
    k4: real,  // complex export
    a1: real,  // cytoplasmic binding
    a2: real,  // cytoplasmic dissociation
    a3: real,  // nuclear binding
    a4: real,  // nuclear dissociation
    d1: real,  // IKK-dependent complex degradation
    d5: real,  // mRNA degradation
    t3: real,  // transcription by nuclear NF-kB
    t4: real)  // translation

  /** The state, in the order of `y`. */
  datatype CytoNucState = CytoNucState(N: real, Nn: real, I: real, In: real, Im: real, NI: real, NIn: real)

  /** The species names in state order (the order `y` is unpacked in). */
  const StateNames: seq<string> := ["N", "Nn", "I", "In", "Im", "NI", "NIn"]

  const Zero: CytoNucState := CytoNucState(0.0, 0.0, 0.0, 0.0, 0.0, 0.0, 0.0)

  function Unpack(y: seq<real>): (s: CytoNucState)
    requires |y| == 7
  {
    CytoNucState(y[0], y[1], y[2], y[3], y[4], y[5], y[6])
  }

  function Pack(s: CytoNucState): (y: seq<real>)
  {
    [s.N, s.Nn, s.I, s.In, s.Im, s.NI, s.NIn]
  }

  /** Unpacking and packing the state vector are inverse to each other. */
  lemma LayoutRoundTrip(s: CytoNucState, y: seq<real>)
    ensures |Pack(s)| == 7 && Unpack(Pack(s)) == s
    ensures |y| == 7 ==> Pack(Unpack(y)) == y
  {
  }

  // The seven rates of `rhs`, one function per species, so that a property
  // of some species is proved from those species' rates alone.

  /** dN/dt: free cytoplasmic NF-kB. */
  function FactorRate(q: Rates, s: CytoNucState): real
  {
    -q.a1 * s.N * s.I + (q.a2 + q.d1) * s.NI - q.k1 * s.N
  }

  /** dNn/dt: free nuclear NF-kB. */
  function NuclearFactorRate(q: Rates, s: CytoNucState): real
  {
    q.k1 * s.N - q.a3 * s.Nn * s.In + q.a4 * s.NIn
  }

  /** dI/dt: free cytoplasmic IkB. */
  function InhibitorRate(q: Rates, s: CytoNucState): real
  {
    q.t4 * s.Im - q.a1 * s.N * s.I + q.a2 * s.NI - q.k2 * s.I + q.k3 * s.In
  }

  /** dIn/dt: free nuclear IkB. */
  function NuclearInhibitorRate(q: Rates, s: CytoNucState): real
  {
    q.k2 * s.I - q.k3 * s.In - q.a3 * s.Nn * s.In + q.a4 * s.NIn
  }

  /** dIm/dt: IkB mRNA. */
  function MrnaRate(q: Rates, s: CytoNucState): real
  {
    q.t3 * (s.Nn * s.Nn) - q.d5 * s.Im
  }

  /** dNI/dt: cytoplasmic complex. */
  function ComplexRate(q: Rates, s: CytoNucState): real
  {
    q.a1 * s.N * s.I - (q.a2 + q.d1) * s.NI + q.k4 * s.NIn
  }

  /** dNIn/dt: nuclear complex. */
  function NuclearComplexRate(q: Rates, s: CytoNucState): real
  {
    q.a3 * s.Nn * s.In - (q.a4 + q.k4) * s.NIn
  }

  /** The seven derivatives, in the state's own layout. */
  function Derivative(q: Rates, s: CytoNucState): CytoNucState
  {
    CytoNucState(FactorRate(q, s), NuclearFactorRate(q, s), InhibitorRate(q, s),
                 NuclearInhibitorRate(q, s), MrnaRate(q, s), ComplexRate(q, s),
                 NuclearComplexRate(q, s))
  }

  /** The rate bookkeeping behind the balances below, with each binding flux
      taken as a whole. */
  lemma FluxBalance(bindC: real, bindN: real, a2: real, a4: real, d1: real, k1: real, k4: real,
                    N: real, NI: real, NIn: real)
    ensures (-bindC + (a2 + d1) * NI - k1 * N) + (k1 * N - bindN + a4 * NIn)
          + (bindC - (a2 + d1) * NI + k4 * NIn) + (bindN - (a4 + k4) * NIn) == 0.0
    ensures (k1 * N - bindN + a4 * NIn) + (bindN - (a4 + k4) * NIn) == k1 * N - k4 * NIn
  {
  }

  /** Complex formation, dissociation and transport only move NF-kB around,
      so total NF-kB is conserved exactly; total IkB changes only by
      translation and IKK-driven complex degradation; the nuclear pool of
      NF-kB changes only by import of free and export of bound NF-kB. */
  lemma {:induction false} DerivativeBalances(q: Rates, s: CytoNucState)
    ensures var ds := Derivative(q, s); ds.N + ds.Nn + ds.NI + ds.NIn == 0.0
    ensures var ds := Derivative(q, s); ds.I + ds.In + ds.NI + ds.NIn == q.t4 * s.Im - q.d1 * s.NI
    ensures var ds := Derivative(q, s); ds.Nn + ds.NIn == q.k1 * s.N - q.k4 * s.NIn
  {
    FluxBalance(q.a1 * s.N * s.I, q.a3 * s.Nn * s.In, q.a2, q.a4, q.d1, q.k1, q.k4, s.N, s.NI, s.NIn);
    InhibitorBalance(q.a1 * s.N * s.I, q.a3 * s.Nn * s.In, q.t4 * s.Im, q.a2, q.a4, q.d1, q.k2, q.k3, q.k4,
                     s.I, s.In, s.NI, s.NIn);
  }

  lemma InhibitorBalance(bindC: real, bindN: real, translation: real, a2: real, a4: real, d1: real,
                         k2: real, k3: real, k4: real, I: real, In: real, NI: real, NIn: real)
    ensures (translation - bindC + a2 * NI - k2 * I + k3 * In) + (k2 * I - k3 * In - bindN + a4 * NIn)
          + (bindC - (a2 + d1) * NI + k4 * NIn) + (bindN - (a4 + k4) * NIn) == translation - d1 * NI
  {
  }

  /** Boundary signs: without mRNA its rate is transcription alone (never
      negative for t3 >= 0); without nuclear complex, only nuclear binding
      feeds it; without cytoplasmic complex, binding and export feed it. */
  lemma {:induction false} EmptySpeciesRates(q: Rates, s: CytoNucState)
    ensures s.Im == 0.0 ==> Derivative(q, s).Im == q.t3 * (s.Nn * s.Nn)
    ensures s.Im == 0.0 && q.t3 >= 0.0 ==> Derivative(q, s).Im >= 0.0
    ensures s.NIn == 0.0 ==> Derivative(q, s).NIn == q.a3 * s.Nn * s.In
    ensures s.NI == 0.0 ==> Derivative(q, s).NI == q.a1 * s.N * s.I + q.k4 * s.NIn
  {
    if s.Im == 0.0 && q.t3 >= 0.0 {
      NonNegativeScaledSquare(q.t3, s.Nn);
    }
  }

  lemma NonNegativeScaledSquare(c: real, x: real)
    requires c >= 0.0
    ensures c * (x * x) >= 0.0
  {
    assert x * x >= 0.0;
  }

  /** The empty cell is at rest for every rate record. */
  lemma ZeroIsEquilibrium(q: Rates)
    ensures Derivative(q, Zero) == Zero
  {
  }

  /** `rhs(t, y)`: a state of any length but seven fails to unpack; otherwise
      seven derivatives which, read with the state's own layout
      [N, Nn, I, In, Im, NI, NIn], are each species' rate. The time is not
      read. */
  function Rhs(q: Rates, t: real, y: seq<real>): (r: Option<seq<real>>)
    ensures r.Some? <==> |y| == 7
    ensures r.Some? ==> (|r.value| == 7 && Unpack(r.value) == Derivative(q, Unpack(y)))
  {
    if |y| != 7 then None
    else
      LayoutRoundTrip(Derivative(q, Unpack(y)), y);
      Some(Pack(Derivative(q, Unpack(y))))
  }

  /** The model is autonomous: the same state gives the same derivatives at
      every time, and the same call always gives the same answer. */
  lemma RhsIgnoresTime(q: Rates, t1: real, t2: real, y: seq<real>)
    ensures Rhs(q, t1, y) == Rhs(q, t2, y)
  {
  }

  /** Conservation read off the solver's own vector: the NF-kB entries
      (slots 0, 1, 5, 6) of the right-hand side sum to zero. */
  lemma {:induction false} RhsConservesNuclearFactor(q: Rates, t: real, y: seq<real>)
    requires |y| == 7
    ensures var d := Rhs(q, t, y).value; d[0] + d[1] + d[5] + d[6] == 0.0
  {
    var ds := Derivative(q, Unpack(y));
    DerivativeBalances(q, Unpack(y));
    assert Unpack(Rhs(q, t, y).value) == ds;
  }

  // ---------------------------------------------------------------------
  // Overriding one rate by name, as `setattr` does
  // ---------------------------------------------------------------------

  const RateNames: set<string> :=
    {"k1", "k2", "k3", "k4", "a1", "a2", "a3", "a4", "d1", "d5", "t3", "t4"}

  /** `getattr(params, name)` for the rates the model reads. */
  function Rate(q: Rates, name: string): (v: Option<real>)
    ensures v.Some? <==> name in RateNames
  {
    match name
    case "k1" => Some(q.k1)
    case "k2" => Some(q.k2)
    case "k3" => Some(q.k3)
    case "k4" => Some(q.k4)
    case "a1" => Some(q.a1)
    case "a2" => Some(q.a2)
    case "a3" => Some(q.a3)
    case "a4" => Some(q.a4)
    case "d1" => Some(q.d1)
    case "d5" => Some(q.d5)
    case "t3" => Some(q.t3)
    case "t4" => Some(q.t4)
    case _ => None
  }

  /** `setattr(params, name, v)` on a fresh copy: the named rate reads back
      `v`, every other rate is untouched, and a name the model does not read
      changes nothing the model sees. */
  function WithRate(q: Rates, name: string, v: real): (r: Rates)
    ensures name in RateNames ==> Rate(r, name) == Some(v)
    ensures forall m :: m != name ==> Rate(r, m) == Rate(q, m)
    ensures name !in RateNames ==> r == q
  {
    match name
    case "k1" => q.(k1 := v)
    case "k2" => q.(k2 := v)
    case "k3" => q.(k3 := v)
    case "k4" => q.(k4 := v)
    case "a1" => q.(a1 := v)
    case "a2" => q.(a2 := v)
    case "a3" => q.(a3 := v)
    case "a4" => q.(a4 := v)
    case "d1" => q.(d1 := v)
    case "d5" => q.(d5 := v)
    case "t3" => q.(t3 := v)
    case "t4" => q.(t4 := v)
    case _ => q
  }
}
