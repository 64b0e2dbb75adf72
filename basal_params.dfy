/** The parameter record of the basal model with unified names
    (notebooks/Basal_model/parametre.py): association constants a*,
    degradation constants d*, transcription / translation constants t*. */
module BasalParameters {

  datatype Parameters = Parameters(
    a1: real,  // NF-kB / IkBa association (legacy A)
    a2: real,  // complex dissociation (legacy d)
    d1: real,  // IKK activity in induced IkBa degradation (legacy p)
    d2: real,  // scaling of induced free IkBa degradation (legacy kappa)
    d3: real,  // spontaneous free IkBa degradation (legacy d_I)
    d4: real,  // spontaneous complex degradation (legacy gamma)
    d5: real,  // IkBa mRNA degradation (legacy d_R)
    d6: real,  // IKK degradation (legacy d_K)
    t1: real,  // gene activation (legacy k_ON)
    t2: real,  // gene inactivation (legacy k_OFF)
    t3: real,  // gene transcription into mRNA (new)
    t4: real)  // mRNA translation (legacy K_P)

  predicate AllPositive(q: Parameters)
  {
    && q.a1 > 0.0 && q.a2 > 0.0
    && q.d1 > 0.0 && q.d2 > 0.0 && q.d3 > 0.0 && q.d4 > 0.0 && q.d5 > 0.0 && q.d6 > 0.0
    && q.t1 > 0.0 && q.t2 > 0.0 && q.t3 > 0.0 && q.t4 > 0.0
  }

  /** `Parameters()`: all defaults are strictly positive, and the new
      transcription constant t3 is not the mRNA degradation constant d5. */
  function Default(): (q: Parameters)
    ensures AllPositive(q)
    ensures q.t3 < q.d5
  {
    Parameters(
      a1 := 200.0, a2 := 3.0,
      d1 := 9.0, d2 := 0.2, d3 := 0.24, d4 := 0.2, d5 := 2.7, d6 := 0.15,
      t1 := 7.5, t2 := 15.0, t3 := 2.5, t4 := 16.0)
  }
}
