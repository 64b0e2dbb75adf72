/** The bifurcation sweep of the cytoplasm/nucleus model
    (notebooks/CytoNuclei_model/CytoNuc_bifurcation_analysis.py): for each
    value of one rate, solve the model, and record the minimum and maximum of
    the last half of one observed species. Points whose solve fails are
    skipped. The solver is the opaque `solver` function. Each point starts
    from a `base` rate record: the `CytoNucParamsExact()` record the source
    builds there names none of the rates `rhs` reads (see
    `ShippedRecordLacksRates`). */
module Bifurcation {
  import opened Numerics
  import opened CytoNucEquations
  import CytoNucParams

  datatype BifurcationError =
    | UnknownVariable(name: string)  // the observed name is not a species
    | StateLengthMismatch            // the right-hand side cannot unpack y0
    | EmptyTail                      // np.min / np.max of an empty tail

  /** The three index-aligned lists the sweep returns. */
  datatype Diagram = Diagram(paramValues: seq<real>, minValues: seq<real>, maxValues: seq<real>)

  const EmptyDiagram := Diagram([], [], [])

  /** None of the twelve rates the right-hand side reads is a field of the
      published parameter record, so a record built by `CytoNucParamsExact()`
      with one attribute set cannot serve `rhs` on its own. */
  lemma ShippedRecordLacksRates()
    ensures forall name :: name in RateNames ==> name !in CytoNucParams.FieldNames
    ensures forall name :: name in RateNames ==> CytoNucParams.Field(CytoNucParams.Default(), name).None?
  {
  }

  /** Species name to its row in the solver's samples. */
  const VariableMap: map<string, nat> :=
    map["N" := 0, "Nn" := 1, "I" := 2, "In" := 3, "Im" := 4, "NI" := 5, "NIn" := 6]

  /** The map names every species and sends it to its slot in the state
      vector the right-hand side unpacks. */
  lemma VariableMapFollowsStateOrder()
    ensures forall name :: name in VariableMap <==> name in StateNames
    ensures forall i :: 0 <= i < |StateNames| ==> VariableMap[StateNames[i]] == i
    ensures forall name :: name in VariableMap ==> VariableMap[name] < |StateNames|
  {
  }

  // ---------------------------------------------------------------------
  // The tail of a series and its extremes
  // ---------------------------------------------------------------------

  /** `int(n * 0.5)`: half the sample count, rounded down. */
  function TailLength(n: nat): (k: nat)
    ensures k == n / 2
  {
    var x := (n as real) * 0.5;
    var k := x.Floor;
    assert k == n / 2 by {
      var h := n / 2;
      assert n == 2 * h || n == 2 * h + 1;
      assert h as real <= x < (h + 1) as real;
    }
    k
  }

  /** `series[-int(len * 0.5):]`: the last half of the samples, except that a
      count of zero gives `[-0:]`, which is the whole series. */
  function Tail(series: seq<real>): (tail: seq<real>)
    ensures |series| >= 2 ==> |tail| == |series| / 2
    ensures |series| < 2 ==> tail == series
    ensures tail == series[|series| - |tail|..]
  {
    var k := TailLength(|series|);
    if k == 0 then series else series[|series| - k..]
  }

  /** `np.min` of a non-empty series. */
  function SeqMin(s: seq<real>): (m: real)
    requires |s| > 0
    ensures m in s
    ensures forall x :: x in s ==> m <= x
  {
    if |s| == 1 then s[0]
    else
      var rest := SeqMin(s[1..]);
      assert forall x :: x in s ==> x == s[0] || x in s[1..];
      if s[0] <= rest then s[0] else rest
  }

  /** `np.max` of a non-empty series. */
  function SeqMax(s: seq<real>): (m: real)
    requires |s| > 0
    ensures m in s
    ensures forall x :: x in s ==> x <= m
  {
    if |s| == 1 then s[0]
    else
      var rest := SeqMax(s[1..]);
      assert forall x :: x in s ==> x == s[0] || x in s[1..];
      if s[0] >= rest then s[0] else rest
  }

  // ---------------------------------------------------------------------
  // The sweep as a function of the parameter range
  // ---------------------------------------------------------------------

  /** What every point of one sweep shares. */
  datatype Setup = Setup(
    base: Rates,             // the record each point starts again from
    paramName: string,       // the rate that is varied
    observed: nat,           // the row of the observed species
    y0: seq<real>,
    tSpan: (real, real),
    tEval: Option<seq<real>>)

  /** The solve of one point: a fresh copy of the base record with only the
      varied rate replaced, integrated with LSODA. */
  function PointRequest(setup: Setup, v: real): (req: IvpRequest<Rates>)
    ensures req.model == WithRate(setup.base, setup.paramName, v)
    ensures req.y0 == setup.y0 && req.tSpan == setup.tSpan && req.tEval == setup.tEval
    ensures req.solverMethod == "LSODA"
  {
    IvpRequest(WithRate(setup.base, setup.paramName, v), setup.tSpan, setup.y0, setup.tEval, "LSODA")
  }

  /** The record a point solves reads the point's value for the varied rate
      and the base record's value for every other rate, so nothing of one
      point carries over to the next. */
  lemma PointRequestOverridesOnlyParam(setup: Setup, v: real)
    ensures setup.paramName in RateNames ==> Rate(PointRequest(setup, v).model, setup.paramName) == Some(v)
    ensures forall m :: m != setup.paramName ==> Rate(PointRequest(setup, v).model, m) == Rate(setup.base, m)
  {
  }

  predicate Succeeded(solver: IvpRequest<Rates> -> IvpSolution, setup: Setup, v: real)
  {
    solver(PointRequest(setup, v)).success
  }

  /** The observed row of a successful solve (empty otherwise). */
  function ObservedSeries(solver: IvpRequest<Rates> -> IvpSolution, setup: Setup, v: real): seq<real>
  {
    var sol := solver(PointRequest(setup, v));
    if sol.success && setup.observed < |sol.y| then sol.y[setup.observed] else []
  }

  /** One pass of the loop body on the lists built so far. */
  function Visit(solver: IvpRequest<Rates> -> IvpSolution, setup: Setup, acc: Diagram, v: real)
    : Result<Diagram, BifurcationError>
  {
    if |setup.y0| != 7 then Err(StateLengthMismatch)
    else if !Succeeded(solver, setup, v) then Ok(acc)
    else
      var tail := Tail(ObservedSeries(solver, setup, v));
      if tail == [] then Err(EmptyTail)
      else Ok(Diagram(acc.paramValues + [v], acc.minValues + [SeqMin(tail)], acc.maxValues + [SeqMax(tail)]))
  }

  /** The loop over a prefix of the range, stopping at the first error. */
  function Scan(solver: IvpRequest<Rates> -> IvpSolution, setup: Setup, range: seq<real>)
    : Result<Diagram, BifurcationError>
  {
    if range == [] then Ok(EmptyDiagram)
    else
      match Scan(solver, setup, range[..|range| - 1])
      case Err(e) => Err(e)
      case Ok(acc) => Visit(solver, setup, acc, range[|range| - 1])
  }

  /** An error stops the sweep: once a prefix of the range fails, the whole
      range fails with the same error. */
  lemma {:induction false} ScanErrorPersists(solver: IvpRequest<Rates> -> IvpSolution, setup: Setup,
                                             range: seq<real>, j: nat)
    requires j <= |range|
    requires Scan(solver, setup, range[..j]).Err?
    ensures Scan(solver, setup, range) == Scan(solver, setup, range[..j])
    decreases |range| - j
  {
    if j < |range| {
      var longer := range[..j + 1];
      assert longer[..|longer| - 1] == range[..j];
      ScanErrorPersists(solver, setup, range, j + 1);
    } else {
      assert range[..j] == range;
    }
  }

  /** `run_bifurcation_analysis`: an unknown observed name fails before any
      solve; otherwise the scan over the whole range. */
  function BifurcationAnalysis(solver: IvpRequest<Rates> -> IvpSolution, base: Rates,
                               observedVariable: string, bifurcationParam: string,
                               paramRange: seq<real>, y0: seq<real>,
                               tSpan: (real, real), tEval: Option<seq<real>>)
    : Result<Diagram, BifurcationError>
  {
    if observedVariable !in VariableMap then Err(UnknownVariable(observedVariable))
    else Scan(solver, Setup(base, bifurcationParam, VariableMap[observedVariable], y0, tSpan, tEval), paramRange)
  }

  // ---------------------------------------------------------------------
  // What the sweep promises
  // ---------------------------------------------------------------------

  /** The points of a range whose solve succeeds, in their order. */
  function Kept(solver: IvpRequest<Rates> -> IvpSolution, setup: Setup, range: seq<real>): seq<real>
  {
    if range == [] then []
    else
      var v := range[|range| - 1];
      Kept(solver, setup, range[..|range| - 1]) + (if Succeeded(solver, setup, v) then [v] else [])
  }

  /** The three lists have one entry per kept point. */
  predicate Aligned(d: Diagram)
  {
    |d.minValues| == |d.paramValues| && |d.maxValues| == |d.paramValues|
  }

  /** `lo` and `hi` are the minimum and maximum of the (non-empty) tail of the
      observed series at parameter value `v`. */
  predicate PointRecorded(solver: IvpRequest<Rates> -> IvpSolution, setup: Setup, v: real, lo: real, hi: real)
  {
    var tail := Tail(ObservedSeries(solver, setup, v));
    tail != [] && lo == SeqMin(tail) && hi == SeqMax(tail)
  }

  predicate RecordsTailExtremes(solver: IvpRequest<Rates> -> IvpSolution, setup: Setup, d: Diagram)
    requires Aligned(d)
  {
    forall k :: 0 <= k < |d.paramValues| ==>
      PointRecorded(solver, setup, d.paramValues[k], d.minValues[k], d.maxValues[k])
  }

  /** A finished sweep: the parameter list is the in-order subsequence of the
      range whose solves succeeded, the three lists are aligned, and entry k
      of the minima and maxima is the minimum and maximum of the tail of the
      observed series of the k-th kept point. */
  lemma {:induction false} ScanShape(solver: IvpRequest<Rates> -> IvpSolution, setup: Setup, range: seq<real>)
    requires Scan(solver, setup, range).Ok?
    ensures var d := Scan(solver, setup, range).value;
      && d.paramValues == Kept(solver, setup, range)
      && Aligned(d)
      && RecordsTailExtremes(solver, setup, d)
  {
    if range != [] {
      var prefix := range[..|range| - 1];
      var v := range[|range| - 1];
      var prev := Scan(solver, setup, prefix);
      assert prev.Ok?;
      ScanShape(solver, setup, prefix);
      var acc := prev.value;
      var d := Scan(solver, setup, range).value;
      assert Scan(solver, setup, range) == Visit(solver, setup, acc, v);
      if Succeeded(solver, setup, v) {
        var tail := Tail(ObservedSeries(solver, setup, v));
        assert d == Diagram(acc.paramValues + [v], acc.minValues + [SeqMin(tail)], acc.maxValues + [SeqMax(tail)]);
        forall k | 0 <= k < |d.paramValues|
          ensures PointRecorded(solver, setup, d.paramValues[k], d.minValues[k], d.maxValues[k])
        {
          if k < |acc.paramValues| {
            assert PointRecorded(solver, setup, acc.paramValues[k], acc.minValues[k], acc.maxValues[k]);
          }
        }
      } else {
        assert d == acc;
      }
    }
  }

  /** Each recorded minimum is at most the maximum beside it, and both are
      samples of that point's tail. */
  lemma {:induction false} DiagramPointsAreTailExtremes(solver: IvpRequest<Rates> -> IvpSolution,
                                                        setup: Setup, range: seq<real>)
    requires Scan(solver, setup, range).Ok?
    ensures var d := Scan(solver, setup, range).value;
      && Aligned(d)
      && forall k :: 0 <= k < |d.paramValues| ==>
        var tail := Tail(ObservedSeries(solver, setup, d.paramValues[k]));
        && d.minValues[k] <= d.maxValues[k]
        && d.minValues[k] in tail && d.maxValues[k] in tail
  {
    ScanShape(solver, setup, range);
    var d := Scan(solver, setup, range).value;
    forall k | 0 <= k < |d.paramValues|
      ensures var tail := Tail(ObservedSeries(solver, setup, d.paramValues[k]));
        && d.minValues[k] <= d.maxValues[k]
        && d.minValues[k] in tail && d.maxValues[k] in tail
    {
      assert PointRecorded(solver, setup, d.paramValues[k], d.minValues[k], d.maxValues[k]);
      var tail := Tail(ObservedSeries(solver, setup, d.paramValues[k]));
      assert d.minValues[k] <= tail[0] <= d.maxValues[k];
    }
  }

  /** Every kept point is a point of the range whose solve succeeded. */
  lemma {:induction false} KeptPointsSucceeded(solver: IvpRequest<Rates> -> IvpSolution, setup: Setup,
                                               range: seq<real>)
    ensures forall v :: v in Kept(solver, setup, range) ==> v in range && Succeeded(solver, setup, v)
  {
    if range != [] {
      var prefix := range[..|range| - 1];
      KeptPointsSucceeded(solver, setup, prefix);
      assert forall v :: v in prefix ==> v in range;
    }
  }

  /** A successful solve at `v` returned at least one sample. */
  predicate HasSamples(solver: IvpRequest<Rates> -> IvpSolution, setup: Setup, v: real)
  {
    Succeeded(solver, setup, v) ==> |solver(PointRequest(setup, v)).t| > 0
  }

  /** One point fails the sweep exactly when its solve succeeds with no
      samples. */
  lemma VisitSucceedsIff(solver: IvpRequest<Rates> -> IvpSolution, setup: Setup, acc: Diagram, v: real)
    requires SolverContract(solver)
    requires |setup.y0| == 7 && setup.observed < 7
    ensures Visit(solver, setup, acc, v).Ok? <==> HasSamples(solver, setup, v)
  {
    var sol := solver(PointRequest(setup, v));
    if sol.success {
      assert WellShaped(sol, 7);
      assert sol.y[setup.observed] in sol.y;
      assert |ObservedSeries(solver, setup, v)| == |sol.t|;
    }
  }

  /** With a well-formed state and a solver that keeps its shape promise,
      the sweep fails exactly when some successful solve returns no samples
      (the tail is then empty and np.min raises). */
  lemma {:induction false} ScanSucceedsIff(solver: IvpRequest<Rates> -> IvpSolution, setup: Setup,
                                           range: seq<real>)
    requires SolverContract(solver)
    requires |setup.y0| == 7 && setup.observed < 7
    ensures Scan(solver, setup, range).Ok? <==>
      forall i :: 0 <= i < |range| ==> HasSamples(solver, setup, range[i])
  {
    if range != [] {
      var prefix := range[..|range| - 1];
      var v := range[|range| - 1];
      ScanSucceedsIff(solver, setup, prefix);
      assert forall i :: 0 <= i < |prefix| ==> prefix[i] == range[i];
      var prev := Scan(solver, setup, prefix);
      if prev.Ok? {
        VisitSucceedsIff(solver, setup, prev.value, v);
      }
      if forall i :: 0 <= i < |range| ==> HasSamples(solver, setup, range[i]) {
        assert HasSamples(solver, setup, range[|range| - 1]);
      }
    }
  }

  /** When no solve succeeds, the sweep returns three empty lists. */
  lemma {:induction false} AllFailedGivesEmpty(solver: IvpRequest<Rates> -> IvpSolution, setup: Setup,
                                               range: seq<real>)
    requires |setup.y0| == 7
    requires forall i :: 0 <= i < |range| ==> !Succeeded(solver, setup, range[i])
    ensures Scan(solver, setup, range) == Ok(EmptyDiagram)
  {
    if range != [] {
      var prefix := range[..|range| - 1];
      assert forall i :: 0 <= i < |prefix| ==> prefix[i] == range[i];
      AllFailedGivesEmpty(solver, setup, prefix);
    }
  }

  predicate StrictlyDecreasing(s: seq<real>)
  {
    forall i, j :: 0 <= i < j < |s| ==> s[i] > s[j]
  }

  /** The minimum of a strictly decreasing series is its last sample. */
  lemma MinOfDecreasing(t: seq<real>)
    requires |t| > 0 && StrictlyDecreasing(t)
    ensures SeqMin(t) == t[|t| - 1]
  {
    var a :| 0 <= a < |t| && t[a] == SeqMin(t);
    assert SeqMin(t) <= t[|t| - 1];
  }

  /** The maximum of a strictly decreasing series is its first sample. */
  lemma MaxOfDecreasing(t: seq<real>)
    requires |t| > 0 && StrictlyDecreasing(t)
    ensures SeqMax(t) == t[0]
  {
    var b :| 0 <= b < |t| && t[b] == SeqMax(t);
    assert SeqMax(t) >= t[0];
  }

  /** Every suffix of a strictly decreasing series is strictly decreasing. */
  lemma SuffixDecreasing(s: seq<real>, off: nat)
    requires off <= |s| && StrictlyDecreasing(s)
    ensures StrictlyDecreasing(s[off..])
  {
    var t := s[off..];
    forall i, j | 0 <= i < j < |t|
      ensures t[i] > t[j]
    {
      assert t[i] == s[off + i] && t[j] == s[off + j];
    }
  }

  /** The tail of a non-empty series is non-empty. */
  lemma TailNonEmpty(s: seq<real>)
    requires |s| > 0
    ensures Tail(s) != []
  {
    if |s| >= 2 {
      assert |s| / 2 >= 1;
    }
  }

  /** For a strictly decreasing series the tail's minimum is the last sample
      and its maximum the first sample of the tail. */
  lemma {:induction false} DecreasingTailExtremes(s: seq<real>)
    requires |s| > 0 && StrictlyDecreasing(s)
    ensures Tail(s) != []
    ensures SeqMin(Tail(s)) == s[|s| - 1]
    ensures SeqMax(Tail(s)) == Tail(s)[0]
  {
    var t := Tail(s);
    TailNonEmpty(s);
    var off := |s| - |t|;
    assert t == s[off..];
    SuffixDecreasing(s, off);
    MinOfDecreasing(t);
    MaxOfDecreasing(t);
    assert t[|t| - 1] == s[|s| - 1];
  }

  // ---------------------------------------------------------------------
  // The loop itself
  // ---------------------------------------------------------------------

  /** One more point of the range: the scan of the longer prefix is the
      scan of the shorter one followed by one visit, unless that already
      failed. */
  lemma ScanExtends(solver: IvpRequest<Rates> -> IvpSolution, setup: Setup, range: seq<real>, i: nat)
    requires i < |range|
    ensures var prev := Scan(solver, setup, range[..i]);
      Scan(solver, setup, range[..i + 1])
        == if prev.Err? then prev else Visit(solver, setup, prev.value, range[i])
  {
    assert range[..i + 1][..i] == range[..i];
  }

  /** A successful solve of a seven-species state has the observed row, one
      sample per time point, and that row is the observed series. */
  lemma SolvedRow(solver: IvpRequest<Rates> -> IvpSolution, setup: Setup, v: real)
    requires SolverContract(solver)
    requires |setup.y0| == 7 && setup.observed < 7 && Succeeded(solver, setup, v)
    ensures var sol := solver(PointRequest(setup, v));
      && setup.observed < |sol.y| && |sol.y[setup.observed]| == |sol.t|
      && ObservedSeries(solver, setup, v) == sol.y[setup.observed]
  {
    var sol := solver(PointRequest(setup, v));
    assert WellShaped(sol, |PointRequest(setup, v).y0|);
    assert sol.y[setup.observed] in sol.y;
  }

  /** One pass of the loop body: a state of the wrong length fails; a failed
      solve skips the point; otherwise the minimum and maximum of the
      observed series' tail, or a failure when that tail is empty. */
  method SolvePoint(solver: IvpRequest<Rates> -> IvpSolution, setup: Setup, pVal: real)
    returns (r: Result<Option<(real, real)>, BifurcationError>)
    requires SolverContract(solver)
    requires setup.observed < 7
    ensures |setup.y0| != 7 ==> r == Err(StateLengthMismatch)
    ensures |setup.y0| == 7 && !Succeeded(solver, setup, pVal) ==> r == Ok(None)
    ensures |setup.y0| == 7 && Succeeded(solver, setup, pVal) ==>
      var tail := Tail(ObservedSeries(solver, setup, pVal));
      && (tail == [] ==> r == Err(EmptyTail))
      && (tail != [] ==> r == Ok(Some((SeqMin(tail), SeqMax(tail)))))
  {
    var params := WithRate(setup.base, setup.paramName, pVal);
    if |setup.y0| != 7 {
      return Err(StateLengthMismatch);
    }
    var sol := solver(IvpRequest(params, setup.tSpan, setup.y0, setup.tEval, "LSODA"));
    assert IvpRequest(params, setup.tSpan, setup.y0, setup.tEval, "LSODA") == PointRequest(setup, pVal);
    if !sol.success {
      return Ok(None);
    }
    SolvedRow(solver, setup, pVal);
    var numPointsInTail := TailLength(|sol.t|);
    var row := sol.y[setup.observed];
    var variableTail := if numPointsInTail == 0 then row else row[|sol.t| - numPointsInTail..];
    assert variableTail == Tail(ObservedSeries(solver, setup, pVal));
    if |variableTail| == 0 {
      return Err(EmptyTail);
    }
    var minVal := SeqMin(variableTail);
    var maxVal := SeqMax(variableTail);
    return Ok(Some((minVal, maxVal)));
  }

  /** The sweep as the source runs it: a loop that appends to three lists and
      skips failed solves. It returns exactly what the scan describes. */
  method RunBifurcationAnalysis(solver: IvpRequest<Rates> -> IvpSolution, base: Rates,
                                observedVariable: string, bifurcationParam: string,
                                paramRange: seq<real>, y0: seq<real>,
                                tSpan: (real, real), tEval: Option<seq<real>>)
    returns (r: Result<Diagram, BifurcationError>)
    requires SolverContract(solver)
    ensures r == BifurcationAnalysis(solver, base, observedVariable, bifurcationParam,
                                     paramRange, y0, tSpan, tEval)
  {
    if observedVariable !in VariableMap {
      return Err(UnknownVariable(observedVariable));
    }
    var observedIdx := VariableMap[observedVariable];
    VariableMapFollowsStateOrder();
    assert observedIdx < 7;
    var setup := Setup(base, bifurcationParam, observedIdx, y0, tSpan, tEval);
    var paramValues, minValues, maxValues := [], [], [];
    for i := 0 to |paramRange|
      invariant Scan(solver, setup, paramRange[..i]) == Ok(Diagram(paramValues, minValues, maxValues))
    {
      ScanExtends(solver, setup, paramRange, i);
      var pVal := paramRange[i];
      var outcome := SolvePoint(solver, setup, pVal);
      match outcome
      case Err(e) =>
        ScanErrorPersists(solver, setup, paramRange, i + 1);
        return Err(e);
      case Ok(None) =>
      case Ok(Some(extremes)) =>
        paramValues := paramValues + [pVal];
        minValues := minValues + [extremes.0];
        maxValues := maxValues + [extremes.1];
    }
    assert paramRange[..|paramRange|] == paramRange;
    return Ok(Diagram(paramValues, minValues, maxValues));
  }
}
