# NF-κB signalling dynamics — a verified model of the equations, the simulators and the bifurcation sweep

This project models the computational core of a small repository that studies
the NF-κB / IκBα feedback loop. It covers:

- **Three reaction-rate models.**
  - The 5-species basal model (IKK `K`, NF-κB fraction `N`, free IκBα `I`,
    IκBα mRNA `R`, active gene fraction `G`). It appears twice: once with
    the legacy parameter names (`LegacyEquations`) and once with the unified
    a/d/t names (`BasalEquations`).
  - The 9-species compartmental model of `CompartmentalSystem.ode_equations`
    (`LegacyEquations`).
  - The 7-species cytoplasm/nucleus model of the article's equations
    (`CytoNucEquations`).
- **The default parameter records** of the three models: `LegacyParameters`,
  `BasalParameters` and `CytoNucParams`.
- **The fixed-step forward-Euler simulator** (`EulerSimulation`). It is a
  class with the source's fields. Its `Run` method allocates arrays, writes
  index 0 and fills the rest in a loop. The method is proved against the pure
  functions `Step`, `StateAt` and `Trajectory`.
- **The solver-based basal simulator** (`BasalSimulator`): the right-hand side
  handed to the solver, the defaults `simulate` substitutes, and the
  quasi-steady gene curve `G_mm` drawn beside the solution.
- **The bifurcation sweep** (`Bifurcation`). It is a loop that appends to
  three lists, proved equal to a recursive `Scan` over the parameter range.

All arithmetic is over exact `real`. The external integrator (`solve_ivp`) is
a parameter of the model: any function from requests to solutions that keeps
its shape promise on success (`Numerics.SolverContract`). A numpy division by
zero gives `Quotient.NonFinite` (nan/inf). The Euler simulator also divides
Python floats in two places, and there a zero divisor raises:

- `int(t_max / dt)` at notebooks/simulacia.py:18 is excluded by the
  constructor's `requires dt != 0.0`;
- `G_mm[0]` at notebooks/simulacia.py:45 is reported as
  `RunError.ZeroDivision`.

Where the code leaves a behaviour implicit or inconsistent, the model takes
the following decisions:

- **Overriding an unknown parameter name.** `setattr` with a name that is not
  a field adds an attribute that nothing reads. `CytoNucParams.SetField` and
  `CytoNucEquations.WithRate` therefore leave the record unchanged for such a
  name.
- **The parameter set of each sweep point.** The sweep builds
  `CytoNucParamsExact()` for every point. That record defines none of the
  twelve rates `NFkBSystemExact.rhs` reads
  (`Bifurcation.ShippedRecordLacksRates`). The model therefore starts every
  point from a caller-supplied `base` rate record, and replaces only the varied
  rate (`Bifurcation.PointRequestOverridesOnlyParam`).
- **Default sample times.** The docstring of `simulate` says that with no
  `t_eval` the solver chooses the sample times. The code substitutes 500
  evenly spaced points, and `BasalSimulator.SolveRequest` states that.
- **Total NF-κB in the compartmental model.** Total NF-κB (N_C + N_N + NI_C
  + NI_N) is not conserved there. `LegacyEquations.CompartmentalNuclearFactorRate`
  proves that it changes at k_exp_NI*NI_N - gamma*NI_C - (d + d_I)*NI_N. Besides
  the two degradation terms gamma and d_I, two terms of the code cause this:
  - nuclear complex export k_exp_NI*NI_N is added both to N_C
    (notebooks/rovnice.py:96) and to NI_C (notebooks/rovnice.py:108);
  - nuclear complex loss d*NI_N frees IκBα (notebooks/rovnice.py:105) but
    returns no NF-κB to N_N.

  Even with gamma = d_I = 0 the total changes at (k_exp_NI - d)*NI_N
  (`LegacyEquations.CompartmentalFactorDriftWithoutDegradation`).
- **The compartmental parameter record.** notebooks/rovnice.py imports a
  `CompartmentalParameters` class that notebooks/parametre.py does not define.
  `LegacyEquations.CompartmentalParameters` holds exactly the eighteen rates
  `ode_equations` reads.

## Model

| member | source | states |
|---|---|---|
| Numerics.Divide | notebooks/Basal_model/simulacia.py:156 | a numpy quotient is finite exactly when the divisor is non-zero, and then times the divisor gives the dividend |
| Numerics.Trunc | notebooks/simulacia.py:18 | `int(x)` truncates toward zero: within one of `x`, on the side of zero |
| Numerics.Linspace | notebooks/simulacia.py:63 | `np.linspace(a, b, n)` has `n` points, starts at `a`, ends at `b` and is evenly spaced by (b-a)/(n-1) |
| LegacyParameters.Default | notebooks/parametre.py:3-39 | every default is strictly positive; IκBα import (0.28) outpaces export (0.07); the cytoplasm (5) is larger than the nucleus (1) |
| LegacyEquations.Bind | notebooks/rovnice.py:6-8 | a supplied parameter record is used as given; a missing one means exactly the defaults, which are all positive |
| LegacyEquations.DK | notebooks/rovnice.py:10-11 | no contract of its own; `LegacyEquations.KinaseRateSigns` states its signs |
| LegacyEquations.DN | notebooks/rovnice.py:13-16 | no contract of its own; `LegacyEquations.FactorRateEdges` states its values at N = 1 and N = 0 |
| LegacyEquations.DI | notebooks/rovnice.py:18-22 | no contract of its own; `LegacyEquations.InhibitorRateAtZero` states its value and sign at I = 0 |
| LegacyEquations.DR | notebooks/rovnice.py:24-25 | no contract of its own; `LegacyEquations.MrnaRestIff` states where it vanishes |
| LegacyEquations.DG | notebooks/rovnice.py:27-28 | no contract of its own; `LegacyEquations.GeneRateEdges` and `LegacyEquations.GeneRestIff` state its edges and its rest point |
| LegacyEquations.KinaseRateSigns | notebooks/rovnice.py:10-11 | dK is zero without IKK, negative for K > 0 and positive for K < 0 when d_K > 0 |
| LegacyEquations.FactorRateEdges | notebooks/rovnice.py:13-16 | dN is -A*I at N = 1 and d + gamma*d_I + p*K at N = 0 |
| LegacyEquations.InhibitorRateAtZero | notebooks/rovnice.py:18-22 | without free IκBα, dI is d*(1-N) + K_P*R, non-negative for N <= 1, R >= 0 and non-negative d, K_P |
| LegacyEquations.MrnaRestIff | notebooks/rovnice.py:24-25 | for d_R ≠ 0, dR is zero exactly when R = G |
| LegacyEquations.GeneRateEdges | notebooks/rovnice.py:27-28 | dG is k_ON*N at G = 0 (non-negative for N >= 0) and -k_OFF*I at G = 1 (non-positive for I >= 0), so it points into [0, 1] |
| LegacyEquations.GeneRestIff | notebooks/rovnice.py:27-28 | when k_ON*N + k_OFF*I ≠ 0, dG is zero exactly at G = k_ON*N/(k_ON*N + k_OFF*I) |
| LegacyEquations.QuasiSteadyGene | notebooks/simulacia.py:45-55 | the G_mm ratio is finite exactly when its denominator is non-zero, and is then the one and only zero of dG |
| LegacyEquations.CompartmentalLayoutRoundTrip | notebooks/rovnice.py:89 | unpacking `[K, N_C, N_N, I_C, I_N, NI_C, NI_N, G, R]` and packing it back are inverse to each other |
| LegacyEquations.KinaseRate | notebooks/rovnice.py:93 | no contract of its own; `LegacyEquations.CompartmentalKinaseRest` states its rest level |
| LegacyEquations.CytosolicFactorRate | notebooks/rovnice.py:96 | no contract of its own; `LegacyEquations.CompartmentalNuclearFactorRate` states the NF-κB total it contributes to |
| LegacyEquations.NuclearFactorRate | notebooks/rovnice.py:99 | no contract of its own; `LegacyEquations.CompartmentalNuclearFactorRate` states the NF-κB total it contributes to |
| LegacyEquations.CytosolicInhibitorRate | notebooks/rovnice.py:102 | no contract of its own; `LegacyEquations.OdeEquations` places it in slot 3 |
| LegacyEquations.NuclearInhibitorRate | notebooks/rovnice.py:105 | no contract of its own; `LegacyEquations.OdeEquations` places it in slot 4 |
| LegacyEquations.CytosolicComplexRate | notebooks/rovnice.py:108 | no contract of its own; `LegacyEquations.CompartmentalNuclearFactorRate` states the NF-κB total it contributes to |
| LegacyEquations.NuclearComplexRate | notebooks/rovnice.py:111 | no contract of its own; `LegacyEquations.CompartmentalNuclearFactorRate` states the NF-κB total it contributes to |
| LegacyEquations.GeneRate | notebooks/rovnice.py:114 | no contract of its own; `LegacyEquations.CompartmentalGeneEdges` states its edges |
| LegacyEquations.MrnaRate | notebooks/rovnice.py:117 | no contract of its own; `LegacyEquations.OdeEquations` places it in slot 8 |
| LegacyEquations.CompartmentalDerivative | notebooks/rovnice.py:93-117 | no contract of its own; `LegacyEquations.OdeEquations` states the vector it becomes |
| LegacyEquations.OdeEquations | notebooks/rovnice.py:78-119 | the result exists exactly for a 9-entry state; it has nine entries, each in its own species' slot; the time is not read |
| LegacyEquations.CompartmentalKinaseRest | notebooks/rovnice.py:93 | for d_K ≠ 0, dK_dt is zero exactly at K = k_IKK/d_K |
| LegacyEquations.CompartmentalNuclearFactorRate | notebooks/rovnice.py:96-111 | the summed rates of N_C, N_N, NI_C and NI_N equal k_exp_NI*NI_N - gamma*NI_C - (d + d_I)*NI_N, so total NF-κB is not conserved |
| LegacyEquations.CompartmentalFactorDriftWithoutDegradation | notebooks/rovnice.py:96-111 | even with gamma = d_I = 0 total NF-κB changes at (k_exp_NI - d)*NI_N, and so is not conserved whenever k_exp_NI ≠ d and NI_N ≠ 0 |
| LegacyEquations.CompartmentalGeneEdges | notebooks/rovnice.py:114 | the nuclear gene switch is k_ON*N_N at G = 0 and -k_OFF*I_N at G = 1 |
| BasalParameters.Default | notebooks/Basal_model/parametre.py:24-44 | every unified default is strictly positive, and the new transcription constant t3 is below the mRNA degradation d5 |
| BasalEquations.Bind | notebooks/Basal_model/rovnice.py:38-40 | a supplied record is used as given; a missing one means the defaults |
| BasalEquations.DK | notebooks/Basal_model/rovnice.py:42-43 | for d6 ≠ 0, dK is zero exactly when K = 0, and negative for K > 0 when d6 > 0 |
| BasalEquations.DN | notebooks/Basal_model/rovnice.py:45-48 | dN is -a1*I at N = 1 and a2 + d4*d3 + d1*K at N = 0 |
| BasalEquations.DI | notebooks/Basal_model/rovnice.py:50-54 | without free IκBα, dI is a2*(1-N) + t4*R, non-negative for N <= 1 and R >= 0 |
| BasalEquations.DR | notebooks/Basal_model/rovnice.py:56-57 | for d5 ≠ 0, dR is zero exactly at R = t3*G/d5 |
| BasalEquations.DG | notebooks/Basal_model/rovnice.py:59-60 | dG is t1*N at G = 0 and -t2*I at G = 1, with the signs that keep G in [0, 1] |
| BasalEquations.RenamedRatesAgree | notebooks/Basal_model/rovnice.py:42-60 | under the renaming a1=A, a2=d, d1=p, d2=kappa, d3=d_I, d4=gamma, d6=d_K, t1=k_ON, t2=k_OFF, t4=K_P, dK, dN, dI and dG equal the legacy rates for every state |
| BasalEquations.MrnaRateAgreesIff | notebooks/Basal_model/rovnice.py:56-57 | the new dR equals the legacy d_R*(G-R) at every state exactly when t3 = d5 |
| BasalEquations.DefaultsMatchLegacy | notebooks/Basal_model/parametre.py:29-44 | each unified default is the legacy default its comment names |
| BasalEquations.DefaultMrnaRatesDiffer | notebooks/Basal_model/parametre.py:37-43 | with the defaults t3 = 2.5 and d5 = 2.7, the new and legacy dR differ |
| BasalEquations.QuasiSteadyGene | notebooks/Basal_model/simulacia.py:156 | t1*N/(t1*N + t2*I) is finite exactly when the denominator is non-zero, and is then the one and only zero of dG |
| BasalEquations.GeneRestIff | notebooks/Basal_model/rovnice.py:59-60 | when t1*N + t2*I ≠ 0, dG is zero exactly at G = t1*N/(t1*N + t2*I) |
| BasalLayout.BasalLayoutRoundTrip | notebooks/Basal_model/simulacia.py:103 | unpacking `[K, N, I, R, G]` and packing it back are inverse to each other |
| BasalSimulator.Derivative | notebooks/Basal_model/simulacia.py:105-109 | IKK is at rest without IKK, and the gene rate is t1*N at G = 0 and -t2*I at G = 1 |
| BasalSimulator.Rhs | notebooks/Basal_model/simulacia.py:91-111 | `_rhs` has a result exactly for a 5-entry state; it has five entries, each its own species' rate |
| BasalSimulator.RhsIgnoresTime | notebooks/Basal_model/simulacia.py:91-111 | `_rhs` gives the same answer at every time |
| BasalSimulator.RhsGeneAtRestIff | notebooks/Basal_model/simulacia.py:109 | the gene entry of `_rhs` is zero exactly when G is the quasi-steady value for that N and I |
| BasalSimulator.SolveRequest | notebooks/Basal_model/simulacia.py:113-140 | LSODA is used over the given span; a missing y0 becomes [1, 0, 0.65, 0, 0]; missing sample times become 500 evenly spaced points from start to end; supplied values pass through unchanged |
| BasalSimulator.Simulate | notebooks/Basal_model/simulacia.py:113-141 | no contract of its own; `BasalSimulator.SimulateDefaults` states the call made without arguments |
| BasalSimulator.SimulateDefaults | notebooks/Basal_model/simulacia.py:113-140 | with no arguments, `simulate` solves the notebook's initial state over (0, 5) at 500 evenly spaced times |
| BasalSimulator.QuasiSteadyCurve | notebooks/Basal_model/simulacia.py:156 | G_mm has one sample per time; a sample is nan/inf exactly where t1*N + t2*I vanishes, and is otherwise a zero of dG |
| CytoNucParams.Default | notebooks/CytoNuclei_model/CytoNuc_params.py:1-24 | every default is strictly positive; cytoplasmic and nuclear binding and dissociation constants are equal; alpha is 1.05*IKK |
| CytoNucParams.Field | notebooks/CytoNuclei_model/CytoNuc_params.py:1-24 | reading a name has a value exactly when it is one of the thirteen fields |
| CytoNucParams.SetField | notebooks/CytoNuclei_model/CytoNuc_bifurcation_analysis.py:41 | the overridden field reads back the new value, every other field is unchanged, and an unknown name leaves the record as it was |
| CytoNucParams.AlphaIsNotRecomputed | notebooks/CytoNuclei_model/CytoNuc_params.py:20-21 | overriding IKK leaves alpha at 0.525, which equals 1.05*IKK only when the new IKK is 0.5 |
| CytoNucEquations.LayoutRoundTrip | notebooks/CytoNuclei_model/CytoNuc_rovnice.py:9 | unpacking `[N, Nn, I, In, Im, NI, NIn]` and packing it back are inverse to each other |
| CytoNucEquations.FactorRate | notebooks/CytoNuclei_model/CytoNuc_rovnice.py:15 | no contract of its own; `CytoNucEquations.DerivativeBalances` states the NF-κB balance it takes part in |
| CytoNucEquations.NuclearFactorRate | notebooks/CytoNuclei_model/CytoNuc_rovnice.py:12 | no contract of its own; `CytoNucEquations.DerivativeBalances` states the NF-κB balances it takes part in |
| CytoNucEquations.InhibitorRate | notebooks/CytoNuclei_model/CytoNuc_rovnice.py:14 | no contract of its own; `CytoNucEquations.DerivativeBalances` states the IκB balance it takes part in |
| CytoNucEquations.NuclearInhibitorRate | notebooks/CytoNuclei_model/CytoNuc_rovnice.py:18 | no contract of its own; `CytoNucEquations.DerivativeBalances` states the IκB balance it takes part in |
| CytoNucEquations.MrnaRate | notebooks/CytoNuclei_model/CytoNuc_rovnice.py:13 | no contract of its own; `CytoNucEquations.EmptySpeciesRates` states its value at Im = 0 |
| CytoNucEquations.ComplexRate | notebooks/CytoNuclei_model/CytoNuc_rovnice.py:16 | no contract of its own; `CytoNucEquations.EmptySpeciesRates` states its value at NI = 0 |
| CytoNucEquations.NuclearComplexRate | notebooks/CytoNuclei_model/CytoNuc_rovnice.py:17 | no contract of its own; `CytoNucEquations.EmptySpeciesRates` states its value at NIn = 0 |
| CytoNucEquations.Derivative | notebooks/CytoNuclei_model/CytoNuc_rovnice.py:12-18 | no contract of its own; `CytoNucEquations.DerivativeBalances`, `CytoNucEquations.ZeroIsEquilibrium` and `CytoNucEquations.Rhs` state its balances, its zero rest state and its layout |
| CytoNucEquations.DerivativeBalances | notebooks/CytoNuclei_model/CytoNuc_rovnice.py:12-18 | total NF-κB is conserved exactly; total IκB changes by t4*Im - d1*NI; the nuclear NF-κB pool changes by k1*N - k4*NIn |
| CytoNucEquations.EmptySpeciesRates | notebooks/CytoNuclei_model/CytoNuc_rovnice.py:13-17 | with no mRNA its rate is t3*Nn² (non-negative for t3 >= 0); with no nuclear complex it is fed by a3*Nn*In only; with no cytoplasmic complex it is fed by a1*N*I + k4*NIn |
| CytoNucEquations.ZeroIsEquilibrium | notebooks/CytoNuclei_model/CytoNuc_rovnice.py:12-18 | the empty cell is at rest for every rate record |
| CytoNucEquations.Rhs | notebooks/CytoNuclei_model/CytoNuc_rovnice.py:8-20 | `rhs` has a result exactly for a 7-entry state; it has seven entries in the order `[dN, dNn, dI, dIn, dIm, dNI, dNIn]`, each its own species' rate |
| CytoNucEquations.RhsIgnoresTime | notebooks/CytoNuclei_model/CytoNuc_rovnice.py:8-20 | `rhs` gives the same answer at every time |
| CytoNucEquations.RhsConservesNuclearFactor | notebooks/CytoNuclei_model/CytoNuc_rovnice.py:12-20 | the NF-κB entries (slots 0, 1, 5, 6) of the returned vector sum to zero |
| CytoNucEquations.Rate | notebooks/CytoNuclei_model/CytoNuc_rovnice.py:12-18 | reading a rate has a value exactly when it is one of the twelve rates `rhs` reads |
| CytoNucEquations.WithRate | notebooks/CytoNuclei_model/CytoNuc_bifurcation_analysis.py:40-42 | the overridden rate reads back the new value, every other rate is unchanged, and an unknown name changes nothing |
| Bifurcation.ShippedRecordLacksRates | notebooks/CytoNuclei_model/CytoNuc_bifurcation_analysis.py:40 | none of the twelve rates `rhs` reads is a field of `CytoNucParamsExact()` |
| Bifurcation.VariableMapFollowsStateOrder | notebooks/CytoNuclei_model/CytoNuc_bifurcation_analysis.py:30 | the map names exactly the seven species and sends each to its slot in the state `rhs` unpacks |
| Bifurcation.TailLength | notebooks/CytoNuclei_model/CytoNuc_bifurcation_analysis.py:49-50 | `int(n * 0.5)` is n/2 rounded down |
| Bifurcation.Tail | notebooks/CytoNuclei_model/CytoNuc_bifurcation_analysis.py:49-51 | the tail is a suffix of the series; it holds the last half of the samples, and the whole series when that count is zero (`[-0:]`) |
| Bifurcation.SeqMin | notebooks/CytoNuclei_model/CytoNuc_bifurcation_analysis.py:53 | `np.min` of a non-empty series is one of its samples and at most every sample |
| Bifurcation.SeqMax | notebooks/CytoNuclei_model/CytoNuc_bifurcation_analysis.py:54 | `np.max` of a non-empty series is one of its samples and at least every sample |
| Bifurcation.PointRequest | notebooks/CytoNuclei_model/CytoNuc_bifurcation_analysis.py:40-44 | the request for one point; `Bifurcation.PointRequestOverridesOnlyParam` states what its record holds |
| Bifurcation.PointRequestOverridesOnlyParam | notebooks/CytoNuclei_model/CytoNuc_bifurcation_analysis.py:40-44 | the record a point solves reads the point's value for the varied rate and the base record's value for every other rate, so nothing carries over between points |
| Bifurcation.ScanErrorPersists | notebooks/CytoNuclei_model/CytoNuc_bifurcation_analysis.py:39-58 | an error at some point ends the sweep with that error |
| Bifurcation.Visit | notebooks/CytoNuclei_model/CytoNuc_bifurcation_analysis.py:40-58 | one pass of the loop on values; `Bifurcation.VisitSucceedsIff` states when it fails |
| Bifurcation.Scan | notebooks/CytoNuclei_model/CytoNuc_bifurcation_analysis.py:37-58 | the sweep on values; `Bifurcation.ScanShape` and `Bifurcation.ScanSucceedsIff` state its result and when it fails |
| Bifurcation.BifurcationAnalysis | notebooks/CytoNuclei_model/CytoNuc_bifurcation_analysis.py:12-58 | no contract of its own; `Bifurcation.RunBifurcationAnalysis` is proved equal to it |
| Bifurcation.ScanShape | notebooks/CytoNuclei_model/CytoNuc_bifurcation_analysis.py:37-58 | the parameter list is the in-order subsequence of the range whose solves succeeded; the three lists are aligned; entry k holds the tail minimum and maximum of the k-th kept point |
| Bifurcation.DiagramPointsAreTailExtremes | notebooks/CytoNuclei_model/CytoNuc_bifurcation_analysis.py:53-58 | each recorded minimum is at most its maximum, and both are samples of that point's tail |
| Bifurcation.KeptPointsSucceeded | notebooks/CytoNuclei_model/CytoNuc_bifurcation_analysis.py:46-47 | every kept point is a point of the range whose solve succeeded |
| Bifurcation.VisitSucceedsIff | notebooks/CytoNuclei_model/CytoNuc_bifurcation_analysis.py:44-58 | one point fails the sweep exactly when its solve succeeds with no samples |
| Bifurcation.ScanSucceedsIff | notebooks/CytoNuclei_model/CytoNuc_bifurcation_analysis.py:39-58 | for a 7-entry state and a shape-keeping solver, the sweep succeeds exactly when every successful solve returned samples |
| Bifurcation.AllFailedGivesEmpty | notebooks/CytoNuclei_model/CytoNuc_bifurcation_analysis.py:46-47 | when no solve succeeds, the sweep returns three empty lists |
| Bifurcation.DecreasingTailExtremes | notebooks/CytoNuclei_model/CytoNuc_bifurcation_analysis.py:51-54 | for a strictly decreasing series, the tail minimum is the last sample and the tail maximum is the first tail sample |
| Bifurcation.ScanExtends | notebooks/CytoNuclei_model/CytoNuc_bifurcation_analysis.py:39-58 | one more point of the range is one more pass of the loop body, unless the sweep has already failed |
| Bifurcation.SolvedRow | notebooks/CytoNuclei_model/CytoNuc_bifurcation_analysis.py:44-51 | a successful solve has the observed row, with one sample per time point |
| Bifurcation.SolvePoint | notebooks/CytoNuclei_model/CytoNuc_bifurcation_analysis.py:40-54 | one pass of the loop body: a state of the wrong length fails; a failed solve skips the point; otherwise the tail's minimum and maximum, or a failure when the tail is empty |
| Bifurcation.RunBifurcationAnalysis | notebooks/CytoNuclei_model/CytoNuc_bifurcation_analysis.py:12-58 | the loop returns exactly the recursive scan: an unknown observed name fails before any solve, failed solves are skipped, and the three lists grow together |
| EulerSimulation.Step | notebooks/simulacia.py:49-61 | no contract of its own; `EulerSimulation.StepScalesKinase` and `EulerSimulation.StepFixedIff` state its effect on IKK and its fixed points |
| EulerSimulation.StateAt | notebooks/simulacia.py:39-61 | no contract of its own; `EulerSimulation.StateAtKinase` and `EulerSimulation.RestStateIsStationary` state its IKK entry and its rest states |
| EulerSimulation.Trajectory | notebooks/simulacia.py:39-61 | the states after 0, 1, … steps; `EulerSimulation.TrajectoryRecurrence` states its recurrence |
| EulerSimulation.StepScalesKinase | notebooks/simulacia.py:49-57 | one Euler step multiplies IKK by 1 - d_K*dt |
| EulerSimulation.StepFixedIff | notebooks/simulacia.py:57-61 | a rest state is fixed by a step, and for dt ≠ 0 only rest states are |
| EulerSimulation.TrajectoryRecurrence | notebooks/simulacia.py:39-61 | the trajectory (`Trajectory`) starts at the initial state, and each later state is one Euler step from the state before it |
| EulerSimulation.ScaledIsPower | notebooks/simulacia.py:57 | scaling i times by r is scaling by r to the power i |
| EulerSimulation.StateAtKinase | notebooks/simulacia.py:49-57 | IKK after i steps is K0 scaled i times by 1 - d_K*dt |
| EulerSimulation.KClosedForm | notebooks/simulacia.py:49-57 | K[i] = K0*(1 - d_K*dt)^i |
| EulerSimulation.RestStateIsStationary | notebooks/simulacia.py:48-61 | started at a rest state, the scheme stays there |
| EulerSimulation.GeneLag | notebooks/simulacia.py:45-55 | the G_mm column on values; `EulerSimulation.GeneLagsOneStep` states its one-step lag |
| EulerSimulation.GeneLagsOneStep | notebooks/simulacia.py:45-55 | in the G_mm column (`GeneLag`), G_mm[1] repeats G_mm[0], and every finite G_mm[i] is the rest point of the gene switch at state i-1, not at state i |
| EulerSimulation.DefaultTimeGridIsNotDtSpaced | notebooks/simulacia.py:7-63 | with the defaults there are 500 steps, and the time grid is spaced by 5/499, not by dt |
| EulerSimulation.SimulatedEntries | notebooks/simulacia.py:39-61 | simulated columns hold the initial state at index 0, one Euler step of index i-1 at index i, and the G_mm of index i-1 at index i |
| EulerSimulation.SimulatedKinase | notebooks/simulacia.py:49-57 | the simulated K column is K0*(1 - d_K*dt)^j at index j |
| EulerSimulation.Integrate | notebooks/simulacia.py:48-61 | the loop leaves the arrays holding the Euler trajectory from index 0 and the G_mm column one step behind |
| EulerSimulation.TimeGrid | notebooks/simulacia.py:63 | the time array is `np.linspace(0, t_max, n)` |
| EulerSimulation.Zeros | notebooks/simulacia.py:31-36 | six fresh, distinct, zero-filled arrays of length n |
| EulerSimulation.Fill | notebooks/simulacia.py:39-61 | index 0 receives the initial state; a zero G_mm[0] denominator raises with only index 0 written; otherwise the columns are the simulation |
| EulerSimulation.RunColumns | notebooks/simulacia.py:29-63 | six fresh arrays of `n_steps` entries; zero steps fail writing index 0; a zero G_mm[0] denominator fails with only index 0 written; otherwise the arrays hold the simulation, with a fresh time grid beside them |
| EulerSimulation.SimulateBasalSystem.constructor | notebooks/simulacia.py:7-27 | the given initial state, step and horizon, the default parameters, `int(t_max/dt)` steps and no results |
| EulerSimulation.SimulateBasalSystem.Run | notebooks/simulacia.py:29-63 | a negative step count fails before allocation; zero steps fail writing index 0; a zero G_mm[0] denominator fails after index 0; otherwise all seven arrays have `n_steps` entries holding the trajectory, the lagged G_mm and the time grid |

## Left out

- Plotting, printing and progress bars (`plot_results` apart from its `G_mm` formula, `plot_all`, the visualisation modules, `tqdm` and `print` in the sweep): they are presentation only.
- The integrator `solve_ivp` (LSODA), its step control and tolerances: it is a foreign numerical library. It is the `solver` parameter, constrained only by its shape promise on success.
- Floating-point rounding, overflow and nan propagation: the model is over exact reals. A numpy division by zero is `NonFinite`, and `np.linspace` is exact even spacing.
- notebooks/CytoNuclei_model/CytoNuc_simulacia.py is not part of this model: it is a thin solver wrapper with plotting.
- Commented-out code (the earlier basal simulator, the earlier equations and parameters, and the alternative `k_ON`/`k_OFF` constants) is not modelled.
- Import-time failures are not reproduced: notebooks/rovnice.py imports a `CompartmentalParameters` that notebooks/parametre.py lacks. Each equation set reads its own record holding exactly the fields it uses.
- The call-time AttributeError of the sweep is not reproduced: `rhs` reads rates that `CytoNucParamsExact()` lacks, so the first `solve_ivp` call (notebooks/CytoNuclei_model/CytoNuc_bifurcation_analysis.py:44) raises. The model solves each point from a `base` rate record instead.
- Exceptions raised inside `solve_ivp` are not modelled: the solver parameter is total and can only report `success = false`. In the code, such an exception (a `t_eval` outside `t_span`, or one raised by the right-hand side) propagates out of `simulate` and out of the sweep, which has no `try` around notebooks/CytoNuclei_model/CytoNuc_bifurcation_analysis.py:44.
- Bifurcation.RunBifurcationAnalysis: every point starts from a caller-supplied `base` rate record rather than from `CytoNucParamsExact()`, because the shipped record has no rates `rhs` could read (`Bifurcation.ShippedRecordLacksRates`).
- CytoNucParams.SetField and CytoNucEquations.WithRate: an unknown name leaves the record unchanged, whereas Python adds an attribute that nothing reads.
- EulerSimulation.SimulateBasalSystem.constructor requires dt ≠ 0, because `int(t_max / dt)` raises ZeroDivisionError there and the object is never built.
- EulerSimulation.SimulateBasalSystem.constructor takes `int(t_max / dt)` over exact reals, so a quotient that rounds just below an integer in floating point can give one step more here than in Python.
- EulerSimulation.SimulateBasalSystem.Results has no contract: `get_results` only returns the seven fields as a tuple.
- EulerSimulation.SimulateBasalSystem.Run: `G_mm[0]` raises only on a zero denominator, as with Python floats; later `G_mm` entries are numpy divisions, which give nan/inf (`NonFinite`) without raising.
- LegacyEquations.Bind and BasalEquations.Bind: `params if params else Parameters()` is modelled as an optional record; a parameter object is always truthy, so only a missing one selects the defaults.
- BasalEquations.ToLegacy: the new transcription constant t3 has no legacy counterpart, so the renaming cannot carry dR across; `MrnaRateAgreesIff` states when the two mRNA rates coincide.
- Sensitivity and pathology scans are not modelled: no file of the repository implements them.
