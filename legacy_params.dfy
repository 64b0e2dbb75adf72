/** The parameter record of the legacy basal model (notebooks/parametre.py):
    an immutable value built once with constant defaults. Three fields are
    Python integers there and stay integers here. */
module LegacyParameters {

  datatype Parameters = Parameters(
    // basal model
    d_K: real,      // IKKa degradation
    d: real,        // NF-kB:IkBa complex dissociation
    gamma: real,    // spontaneous complex degradation
    d_I: real,      // spontaneous free IkBa degradation
    p: real,        // IKKa activity in induced IkBa degradation
    A: real,        // NF-kB / IkBa association
    kappa: real,    // scaling of IKKa-induced free IkBa degradation
    K_P: real,      // IkBa mRNA translation
    d_R: real,      // IkBa mRNA degradation
    k_ON: real,     // gene activation by nuclear NF-kB
    k_OFF: real,    // gene inactivation by nuclear IkBa
    k_imp_N: real,  // NF-kB import
    n_assoc: int,   // nuclear complex association
    // compartmental additions
    kdeg: real,
    k_bind_I: real,
    k_bind: real,
    k_imp_I: real,  // IkBa import
    k_exp_I: real,  // IkBa export
    k_export_complex: real,
    k_dissociate: real,
    k_trans: real,
    k_transc: real,
    k_mRNA_export: real,
    Vc: int,        // cytoplasm volume
    Vn: int)        // nucleus volume

  /** Every rate, volume and count in the record is strictly positive. */
  predicate AllPositive(q: Parameters)
  {
    && q.d_K > 0.0 && q.d > 0.0 && q.gamma > 0.0 && q.d_I > 0.0 && q.p > 0.0
    && q.A > 0.0 && q.kappa > 0.0 && q.K_P > 0.0 && q.d_R > 0.0
    && q.k_ON > 0.0 && q.k_OFF > 0.0 && q.k_imp_N > 0.0 && q.n_assoc > 0
    && q.kdeg > 0.0 && q.k_bind_I > 0.0 && q.k_bind > 0.0
    && q.k_imp_I > 0.0 && q.k_exp_I > 0.0 && q.k_export_complex > 0.0
    && q.k_dissociate > 0.0 && q.k_trans > 0.0 && q.k_transc > 0.0
    && q.k_mRNA_export > 0.0 && q.Vc > 0 && q.Vn > 0
  }

  /** `Parameters()`: the constructor's constants. The alternative gene-switch
      constants of the source are commented out, so k_ON and k_OFF keep the
      basal values. */
  function Default(): (q: Parameters)
    ensures AllPositive(q)
    ensures q.k_imp_I > q.k_exp_I   // IkBa import outpaces export
    ensures q.Vc > q.Vn             // the cytoplasm is the larger compartment
  {
    Parameters(
      d_K := 0.15, d := 3.0, gamma := 0.2, d_I := 0.24, p := 9.0, A := 200.0,
      kappa := 0.2, K_P := 16.0, d_R := 2.7, k_ON := 7.5, k_OFF := 15.0,
      k_imp_N := 0.1, n_assoc := 500,
      kdeg := 0.125, k_bind_I := 0.2, k_bind := 0.5,
      k_imp_I := 0.28, k_exp_I := 0.07,
      k_export_complex := 0.02, k_dissociate := 0.05,
      k_trans := 1.0, k_transc := 0.5, k_mRNA_export := 0.1,
      Vc := 5, Vn := 1)
  }
}
