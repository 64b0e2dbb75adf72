/** The basal state vector shared by both basal simulators. */
module BasalLayout {

  /** The basal state vector in the order the simulators use: active IKK K,
      NF-kB fraction N, free IkBa I, IkBa mRNA R, active gene fraction G. */
  datatype BasalState = BasalState(K: real, N: real, I: real, R: real, G: real)

  function UnpackBasal(y: seq<real>): (s: BasalState)
    requires |y| == 5
  {
    BasalState(y[0], y[1], y[2], y[3], y[4])
  }

  function PackBasal(s: BasalState): (y: seq<real>)
  {
    [s.K, s.N, s.I, s.R, s.G]
  }

  /** Unpacking and packing the basal state vector are inverse to each other. */
  lemma BasalLayoutRoundTrip(s: BasalState, y: seq<real>)
    ensures |PackBasal(s)| == 5 && UnpackBasal(PackBasal(s)) == s
    ensures |y| == 5 ==> PackBasal(UnpackBasal(y)) == y
  {
  }
}
