/** The parameter record of the cytoplasm/nucleus model as published
    (notebooks/CytoNuclei_model/CytoNuc_params.py), rates in min^-1 or
    uM^-1 min^-1. It is a value built once; `alpha` is derived from `IKK`
    at construction and is not kept in step afterwards. */
module CytoNucParams {
  import opened Numerics

  datatype CytoNucParamsExact = CytoNucParamsExact(
    k_in: real,     // NF-kB import
    k_Iin: real,    // IkB import
    k_Iout: real,   // IkB export
    k_NIout: real,  // complex export
    k_t: real,      // transcription
    k_tl: real,     // translation
    k_f: real,      // cytoplasmic binding
    k_fn: real,     // nuclear binding
    k_b: real,      // cytoplasmic dissociation
    k_bn: real,     // nuclear dissociation
    IKK: real,      // IKK level
    alpha: real,    // IKK-dependent degradation, 1.05 * IKK at construction
    gamma_m: real)  // mRNA degradation

  predicate AllPositive(q: CytoNucParamsExact)
  {
    && q.k_in > 0.0 && q.k_Iin > 0.0 && q.k_Iout > 0.0 && q.k_NIout > 0.0
    && q.k_t > 0.0 && q.k_tl > 0.0
    && q.k_f > 0.0 && q.k_fn > 0.0 && q.k_b > 0.0 && q.k_bn > 0.0
    && q.IKK > 0.0 && q.alpha > 0.0 && q.gamma_m > 0.0
  }

  /** `CytoNucParamsExact()`: every default is strictly positive, binding
      and dissociation are the same in both compartments, and alpha is
      1.05 times the IKK level. */
  function Default(): (q: CytoNucParamsExact)
    ensures AllPositive(q)
    ensures q.k_f == q.k_fn && q.k_b == q.k_bn
    ensures q.alpha == 1.05 * q.IKK
  {
    var IKK := 0.5;
    CytoNucParamsExact(
      k_in := 5.4, k_Iin := 0.018, k_Iout := 0.012, k_NIout := 0.83,
      k_t := 1.03, k_tl := 0.24,
      k_f := 30.0, k_fn := 30.0, k_b := 0.03, k_bn := 0.03,
      IKK := IKK, alpha := 1.05 * IKK,
      gamma_m := 0.017)
  }

  /** The field names of the record. */
  const FieldNames: set<string> :=
    {"k_in", "k_Iin", "k_Iout", "k_NIout", "k_t", "k_tl", "k_f", "k_fn",
     "k_b", "k_bn", "IKK", "alpha", "gamma_m"}

  /** `getattr(params, name)` for the record's fields. */
  function Field(q: CytoNucParamsExact, name: string): (v: Option<real>)
    ensures v.Some? <==> name in FieldNames
  {
    match name
    case "k_in" => Some(q.k_in)
    case "k_Iin" => Some(q.k_Iin)
    case "k_Iout" => Some(q.k_Iout)
    case "k_NIout" => Some(q.k_NIout)
    case "k_t" => Some(q.k_t)
    case "k_tl" => Some(q.k_tl)
    case "k_f" => Some(q.k_f)
    case "k_fn" => Some(q.k_fn)
    case "k_b" => Some(q.k_b)
    case "k_bn" => Some(q.k_bn)
    case "IKK" => Some(q.IKK)
    case "alpha" => Some(q.alpha)
    case "gamma_m" => Some(q.gamma_m)
    case _ => None
  }

  /** `setattr(params, name, v)` as copy-with-override: the named field reads
      back `v`, every other field is untouched, and a name that is not a
      field leaves the record as it was (Python adds an attribute nothing
      reads). */
  function SetField(q: CytoNucParamsExact, name: string, v: real): (r: CytoNucParamsExact)
    ensures name in FieldNames ==> Field(r, name) == Some(v)
    ensures forall m :: m != name ==> Field(r, m) == Field(q, m)
    ensures name !in FieldNames ==> r == q
  {
    match name
    case "k_in" => q.(k_in := v)
    case "k_Iin" => q.(k_Iin := v)
    case "k_Iout" => q.(k_Iout := v)
    case "k_NIout" => q.(k_NIout := v)
    case "k_t" => q.(k_t := v)
    case "k_tl" => q.(k_tl := v)
    case "k_f" => q.(k_f := v)
    case "k_fn" => q.(k_fn := v)
    case "k_b" => q.(k_b := v)
    case "k_bn" => q.(k_bn := v)
    case "IKK" => q.(IKK := v)
    case "alpha" => q.(alpha := v)
    case "gamma_m" => q.(gamma_m := v)
    case _ => q
  }

  /** alpha is computed once: overriding IKK on a default record leaves
      alpha at 0.525, which is 1.05 * IKK only if the new IKK is 0.5. */
  lemma {:induction false} AlphaIsNotRecomputed(v: real)
    ensures var r := SetField(Default(), "IKK", v);
      r.IKK == v && r.alpha == 0.525 && (r.alpha == 1.05 * r.IKK <==> v == 0.5)
  {
    var r := SetField(Default(), "IKK", v);
    assert Field(r, "IKK") == Some(v);
    assert Field(r, "alpha") == Field(Default(), "alpha");
  }
}
