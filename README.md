# Monte Carlo option pricer: a verified model of the sequential core

This project models the simulation-and-accumulation engine of a Monte Carlo
option pricer written in C++, and proves properties of that model in Dafny.
The engine has these parts:
- an option's parameter set and its call/put payoff;
- two stochastic processes (geometric Brownian motion and constant
  elasticity of variance), plus the bridge that forwards their coefficients;
- a uniform time mesh and two one-step discretisation schemes (Euler and
  exact lognormal);
- the mediator that builds one path per simulation and hands it to a
  callback;
- three payoff accumulators (European, Asian, Barrier) that turn the paths
  into discounted prices;
- the stopwatch that times the run.

The model reads the engine sequentially: every call happens one after the
other.

Modules, one per part of the program:

- `Numerics` (numerics.dfy): the `Libm` record of uninterpreted `sqrt`,
  `exp`, `log` and `pow`, `Max`, and an `Option` type.
- `OptionData` (option_data.dfy): the parameter record, its default values
  and the payoff.
- `SdeConcrete` (sde_concrete.dfy): GBM and CEV coefficients.
- `SdeBase` (sde_base.dfy): the forwarding bridge over a record of
  coefficient functions.
- `Fdm` (fdm.dfy): a class that owns the mesh array, which its constructor
  fills with the source's loop, and the Euler/Exact `Advance` rule.
- `PathStats` (path_stats.dfy): the path folds (sum, average, geometric
  average, minimum and maximum) and the barrier conditions.
- `Pricers` (pricers.dfy): the shared pricer state and the three pricers, as
  classes whose methods update fields in place.
- `Mediator` (mediator.dfy): the path buffer as an array and the nested
  simulation loops as methods. Each callback invocation that has an effect
  is recorded as an event in a log, and the log is specified by a function of the inputs.
- `Timing` (stopwatch.dfy): the stopwatch state machine.

Doubles are `real`. Clock readings and random variates are inputs:
`variates[i - 1]` holds the draws consumed by path i, two per step, so step j
uses draws 2j and 2j + 1.

Each pricer's path counter starts at the `nSim` given to its constructor, not
at zero. Every processed path adds one, so the divisor in `post_process` is
nSim plus the number of paths processed. The model keeps this behaviour:
- each pricer's `Valid()` states it;
- every `PostProcess` contract states the price in that form;
- `PriceOfConstantPayoff` shows its effect. The price is the discounted
  payoff when the counter starts at zero, and, when that discounted payoff is
  not zero, only then. It is half of it when the counter starts at the
  number of paths.

Which value the program passes for `nSim` is decided in the assembly code
(MCBuilder.cpp), which is not part of this model.

## Model

| member | source | states |
|---|---|---|
| Numerics.Max | include/OptionData.hpp:43 | `std::max` of two doubles is at least both arguments and equals one of them |
| OptionData.Default | include/OptionData.hpp:13-15 | the default parameter set has every numeric field 0 and type Call |
| OptionData.PayOff | include/OptionData.hpp:37-50 | the payoff is never negative; a call pays max(S − K, 0) and a put pays max(K − S, 0), each stated as the one non-negative value among {0, the intrinsic amount} that is at least the intrinsic amount |
| OptionData.PutCallParity | include/OptionData.hpp:40-49 | for the same S and K, call payoff − put payoff = S − K, and at least one of the two is 0 |
| SdeConcrete.GbmCoefficients | src/SDEConcrete.cpp:20-50 | GBM: expiry T, initial level S0, drift (r − q)S independent of t, diffusion vol·S, diffusion derivative vol for every S, corrected drift (r − q)S − B·vol²·S |
| SdeConcrete.CevSharesGbmDrift | src/SDEConcrete.cpp:57-70 | CEV's expiry, initial condition and drift equal GBM's for the same data |
| SdeConcrete.Concrete.Expiry | src/SDEConcrete.cpp:20-23 | the maturity T of the shared data, for GBM and for CEV (see GbmCoefficients, CevSharesGbmDrift) |
| SdeConcrete.Concrete.InitialCondition | src/SDEConcrete.cpp:25-28 | the initial level S0 of the shared data (see GbmCoefficients, CevSharesGbmDrift) |
| SdeConcrete.Concrete.Drift | src/SDEConcrete.cpp:30-34 | (r − q)·S for both processes, whatever t (see GbmCoefficients, CevSharesGbmDrift) |
| SdeConcrete.Concrete.Diffusion | src/SDEConcrete.cpp:72-75 | vol·S for GBM and vol·S^β for CEV (see GbmCoefficients, CevAtUnitElasticity) |
| SdeConcrete.Concrete.DiffusionDerivative | src/SDEConcrete.cpp:82-92 | vol for GBM; for CEV the case split on β > 1, whose two branches agree (see CevDiffusionDerivative) |
| SdeConcrete.Concrete.DriftCorrected | src/SDEConcrete.cpp:77-80 | drift − B·diffusion·derivative for both processes (see GbmCoefficients, CevDriftCorrected) |
| SdeConcrete.CevDiffusionDerivative | src/SDEConcrete.cpp:82-92 | the two branches of CEV's derivative are one quantity: where S^(1−β) and S^(β−1) are reciprocal, the level is admissible and the derivative is vol·β·S^(β−1) for every β, on either side of β = 1 |
| SdeConcrete.CevDriftCorrected | src/SDEConcrete.cpp:77-80 | where S^(1−β) and S^(β−1) are reciprocal, CEV's corrected drift is (r − q)S − B·(vol·S^β)·(vol·β·S^(β−1)) |
| SdeConcrete.CevAtUnitElasticity | src/SDEConcrete.cpp:72-92 | at β = 1, where S^1 = S and S^0 = 1, CEV has GBM's diffusion, diffusion derivative and corrected drift |
| SdeBase.AsProcess | src/SDEBase.cpp:17-21 | the bridge's copy of GBM or CEV has the same expiry and initial level and no jump, convection or reaction term |
| SdeBase.SdeBase.Expiry | src/SDEBase.cpp:23-28 | the wrapped process's expiry (see BridgeForwardsConcrete) |
| SdeBase.SdeBase.InitialCondition | src/SDEBase.cpp:30-36 | the wrapped process's initial level (see BridgeForwardsConcrete) |
| SdeBase.SdeBase.Diffusion | src/SDEBase.cpp:38-44 | the wrapped diffusion at the same (S, t) (see BridgeForwardsConcrete) |
| SdeBase.SdeBase.Drift | src/SDEBase.cpp:46-52 | the wrapped drift at the same (S, t) (see BridgeForwardsConcrete) |
| SdeBase.SdeBase.Jump | src/SDEBase.cpp:54-60 | the wrapped jump term, only for a process that has one (see BridgeForwardsOptionalTerms) |
| SdeBase.SdeBase.Convection | src/SDEBase.cpp:62-68 | the wrapped convection term, only for a process that has one (see BridgeForwardsOptionalTerms) |
| SdeBase.SdeBase.Reaction | src/SDEBase.cpp:71-77 | the wrapped reaction term, only for a process that has one (see BridgeForwardsOptionalTerms) |
| SdeBase.BridgeForwardsConcrete | src/SDEBase.cpp:23-52 | through the bridge, expiry, initial condition, drift(S, t) and diffusion(S, t) are the wrapped process's own values at the same arguments |
| SdeBase.BridgeForwardsOptionalTerms | src/SDEBase.cpp:54-77 | jump, convection and reaction forward (S, t) unchanged to a process that has them |
| Fdm.UniformMesh | src/FDMAbstract.cpp:16-23 | the constructor's loop over a zero-filled array of NT + 1 points leaves point k equal to k·meshSize |
| Fdm.Fdm.constructor | src/FDMAbstract.cpp:16-23 | stores the process, the scheme and NT (NT ≥ 1 demanded), sets meshSize = expiry / NT, and establishes the mesh invariant on a fresh array |
| Fdm.MeshSteps | src/FDMAbstract.cpp:19-22 | in a constructed mesh, point 0 is 0 and each later point is the previous one plus meshSize |
| Fdm.LastPoint | src/FDMAbstract.cpp:17 | NT spacings of expiry / NT add up to the expiry (exact arithmetic) |
| Fdm.Fdm.GetNT | src/FDMAbstract.cpp:25-29 | the stored NT, at least 1, one less than the mesh length |
| Fdm.Fdm.GetMesh | src/FDMAbstract.cpp:31-35 | a copy of NT + 1 points, from 0 to the expiry, point i being i·meshSize |
| Fdm.Fdm.GetMeshSize | src/FDMAbstract.cpp:37-41 | NT mesh sizes make up the expiry |
| Fdm.Fdm.Advance | src/FDMDerived.cpp:24-43 | one step of the chosen scheme: Euler from xn, Exact from the stored S0 at tn + dt (see EulerStep, ExactStep, ExactAbsoluteTime) |
| Fdm.LognormalLevel | src/FDMDerived.cpp:41-42 | the exact lognormal level S0·exp((r − vol²/2)T + vol·sqrt(T)·z) (see ExactStep) |
| Fdm.EulerStep | src/FDMDerived.cpp:24-28 | Euler's increment over the drift part is diffusion·sqrt(dt)·z; the second variate is ignored; with z = 0 the step is xn + drift·dt |
| Fdm.ExactStep | src/FDMDerived.cpp:37-43 | Exact ignores the carried level xn and the second variate; with z = 0 it is S0·exp((r − vol²/2)(tn + dt)) |
| Fdm.ExactAbsoluteTime | src/FDMDerived.cpp:41-42 | Exact depends on tn and dt only through tn + dt |
| PathStats.SumOf | src/PricerDerived.cpp:79 | the left fold of `std::accumulate` from 0 (see SumOfAppend, SumOfConstant, SumOfBounds) |
| PathStats.SumOfAppend | src/PricerDerived.cpp:79 | the accumulated sum of a path extended by one point is the old sum plus that point's image |
| PathStats.SumOfConstant | src/PricerDerived.cpp:23 | k payoffs of value v accumulate to k·v |
| PathStats.SumOfBounds | src/PricerDerived.cpp:79 | pointwise bounds lo ≤ f ≤ hi bound the sum of k images between k·lo and k·hi |
| PathStats.Last | src/PricerDerived.cpp:23 | `path.back()` is a point of the path |
| PathStats.Average | src/PricerDerived.cpp:77-82 | the arithmetic average times the number of points is the sum of the points |
| PathStats.GeometricAverage | src/PricerDerived.cpp:84-93 | exp of the mean of the logarithms (see GeometricAverageOfConstant) |
| PathStats.AverageOfConstant | src/PricerDerived.cpp:77-82 | a constant path averages to its constant |
| PathStats.AverageBounds | src/PricerDerived.cpp:77-82 | the average of a non-empty path lies between its minimum and its maximum |
| PathStats.AverageWithin | src/PricerDerived.cpp:79-81 | bounds on every point of a path bound its average |
| PathStats.MeanWithin | src/PricerDerived.cpp:79-81 | bounds on every image bound the mean of the images |
| PathStats.GeometricAverageOfConstant | src/PricerDerived.cpp:84-93 | the geometric average of a constant path c is exp(log c), which is c wherever exp inverts log |
| PathStats.MaxOf | src/PricerDerived.cpp:95-100 | the maximum is a point of the path and no point exceeds it |
| PathStats.MinOf | src/PricerDerived.cpp:110 | the minimum is a point of the path and no point is below it |
| PathStats.Pays | src/PricerDerived.cpp:112-142 | the barrier switch as a condition on the path's extrema (see PaysMeaning, InOutComplementary) |
| PathStats.PaysMeaning | src/PricerDerived.cpp:112-142 | up-and-in pays iff some point is ≥ H, up-and-out iff every point is < H, down-and-in iff some point is ≤ H, down-and-out iff every point is > H |
| PathStats.InOutComplementary | src/PricerDerived.cpp:114-141 | for the same path and H, exactly one of Up_and_In / Up_and_Out pays, and exactly one of Down_and_In / Down_and_Out |
| PathStats.Lasts | src/PricerDerived.cpp:117-118 | the terminal levels of a sequence of paths, one per path, in order |
| PathStats.InPlusOutIsEuropean | src/PricerDerived.cpp:108-145 | over any sequence of paths, the knock-in sum plus the knock-out sum of the same direction equals the European terminal-payoff sum |
| Pricers.PricerState.constructor | include/PricerAbstract.hpp:17-20 | stores the payoffs, the discounter and nSim; call and put sums and prices are 0; the counter starts at nSim |
| Pricers.PricerState.DiscountFactor | include/PricerAbstract.hpp:23 | returns the injected discounter itself |
| Pricers.PricerState.CallPrice | include/PricerAbstract.hpp:24 | returns the stored call price and reads nothing else |
| Pricers.PricerState.PutPrice | include/PricerAbstract.hpp:25 | returns the stored put price and reads nothing else |
| Pricers.Price | src/PricerDerived.cpp:32-33 | the price `post_process` computes: price times the counter is the discount times the sum |
| Pricers.PriceOfConstantPayoff | include/PricerAbstract.hpp:19 | with the counter started at nSim and k paths each paying v, price·(nSim + k) = d·v·k; the price is d·v when nSim = 0, and d·v/2 when nSim = k; with d·v ≠ 0 a price of d·v forces nSim = 0 |
| Pricers.PriceWithinPayoffs | src/PricerDerived.cpp:32-33 | with a counter that starts at 0 and a non-negative discount, the price lies between the discounted least and greatest payoff |
| Pricers.EuropeanPricer.constructor | src/PricerDerived.cpp:17-19 | a fresh shared state as above, with no path processed |
| Pricers.EuropeanPricer.ProcessPath | src/PricerDerived.cpp:21-26 | adds callPayoff(last) and putPayoff(last) to the two sums and 1 to the counter, and changes no other field; the sums stay the folds over all processed terminal levels and the counter stays nSim plus their number |
| Pricers.EuropeanPricer.PostProcess | src/PricerDerived.cpp:28-33 | sets each price to discount·sum / counter, which is the discounted payoff sum over the processed paths divided by nSim plus their number; sums and counter unchanged |
| Pricers.AsianPricer.constructor | src/PricerDerived.cpp:45-47 | the shared state plus four geometric sums and prices at 0 |
| Pricers.AsianPricer.ProcessPath | src/PricerDerived.cpp:49-60 | adds the payoffs at the arithmetic average to the plain sums and the payoffs at the geometric average to the geometric sums, and 1 to the counter; all four sums stay folds over the processed averages |
| Pricers.AsianPricer.PostProcess | src/PricerDerived.cpp:62-67 | the four prices are discount·sum / counter for their own sums, each also stated as the discounted fold over the processed averages divided by nSim plus their number; sums and counter unchanged |
| Pricers.BarrierPricer.constructor | src/PricerDerived.cpp:104-106 | the shared state, barrier level 0 and the first barrier kind |
| Pricers.BarrierPricer.ProcessPath | src/PricerDerived.cpp:108-145 | when the barrier condition of the current kind and level holds, both terminal payoffs are added; otherwise both sums are unchanged; the counter rises by 1 either way |
| Pricers.BarrierPricer.ProcessPaths | src/PricerDerived.cpp:108-145 | the path callback applied to a sequence of paths in order: the paying levels gathered are exactly `Paid` of those paths for the current kind and level, and every path is counted |
| Pricers.KnockInPlusOutIsEuropean | src/PricerDerived.cpp:108-145 | a knock-in and a knock-out pricer of the same direction and level that have seen the same paths hold call and put sums adding up to the European sums over the terminal levels |
| Pricers.BarrierPricer.PostProcess | src/PricerDerived.cpp:147-152 | prices are discount·sum / counter: each is the paying paths' discounted payoff sum over nSim plus all processed paths; sums and counter unchanged |
| Pricers.BarrierPricer.SetBarrierType | src/PricerDerived.cpp:162-165 | changes the barrier kind and no other field |
| Pricers.BarrierPricer.SetBarrierAmount | src/PricerDerived.cpp:167-170 | changes the barrier level and no other field |
| Mediator.ProgressOutput | include/MCMediator.hpp:60-66 | the progress callback shows i exactly when i is a multiple of 10000, and shows nothing otherwise |
| Mediator.MCMediator.constructor | include/MCMediator.hpp:55-58 | stores the process, the discretiser and the simulation count as given; the buffer is NT + 1 zeros |
| Mediator.Simulate | include/MCMediator.hpp:89-95 | the first n + 1 levels of a path, starting at x0 |
| Mediator.SimulateStep | include/MCMediator.hpp:93 | level j + 1 is the step from level j at mesh time j over one mesh size with draws 2j and 2j + 1 |
| Mediator.SimulatePrefix | src/MCMediator.cpp:57-63 | a longer simulation with the same draws extends a shorter one |
| Mediator.MCMediator.FillPath | src/MCMediator.cpp:57-63 | with index 0 holding x0, the step loop leaves the whole buffer equal to the simulated path of NT steps |
| Mediator.MCMediator.PathTask | include/MCMediator.hpp:81-97 | one iteration: the progress output for i, then the delivery of the simulated path; buffer index 0 keeps x0 |
| Mediator.MCMediator.RunPaths | include/MCMediator.hpp:76-99 | buffer index 0 is set to the initial level once; the callbacks then see, for i = 1..nSim in order, the progress output and the delivery of path i |
| Mediator.MCMediator.Start | include/MCMediator.hpp:70-104 | the whole run: the events of paths 1..nSim followed by exactly one finish event carrying the time between the two clock readings |
| Mediator.RunEvents | src/MCMediator.cpp:47-66 | the callback invocations of paths 1..k in order (see PathsDelivered, ProgressAndFinish) |
| Mediator.Paths | src/MCMediator.cpp:47-48 | the k paths built from the first k blocks of draws, in order |
| Mediator.DeliveriesStep | src/MCMediator.cpp:65 | one more iteration delivers exactly one more path, its own |
| Mediator.PathsDelivered | src/MCMediator.cpp:47-66 | after k iterations the delivered paths are exactly the k simulated paths, path i from the i-th block of draws |
| Mediator.DeliveredPathShape | src/MCMediator.cpp:44-65 | every delivered path has NT + 1 levels and starts at the initial condition |
| Mediator.ProgressAndFinish | src/MCMediator.cpp:28-34 | among the events of paths 1..k, progress shows n iff 1 ≤ n ≤ k and n is a multiple of 10000, and no finish event occurs |
| Timing.StopWatch.constructor | include/StopWatch.hpp:89-91 | a new stopwatch is stopped, with duration 0 and start = end = the clock reading |
| Timing.StopWatch.Named | include/StopWatch.hpp:93-95 | the same state, with the given name |
| Timing.StopWatch.Start | src/StopWatch.cpp:17-25 | when stopped, records the start and runs; when running, nothing changes |
| Timing.StopWatch.SetName | include/StopWatch.hpp:107-110 | changes the name and nothing else |
| Timing.StopWatch.Stop | include/StopWatch.hpp:112-122 | when running, records the end, adds now − start to the duration and stops; when stopped, nothing changes; with a clock that does not run backwards the duration never decreases |
| Timing.StopWatch.Reset | src/StopWatch.cpp:39-44 | duration 0, start = end = now, running flag untouched |
| Timing.StopWatch.GetTime | include/StopWatch.hpp:131-140 | while running, the duration plus the live interval since the start; while stopped, the duration alone; nothing is modified |

## Left out

- Random variate generators (RNGDerived, RNGAbstract): library engines with thread-local state and rejection loops. Variates are an input sequence, one block per path.
- IEEE-754 rounding: doubles are exact reals. For example, mesh[NT] = expiry holds only in exact arithmetic.
- `sqrt`, `exp`, `log` and `pow` are uninterpreted. This makes `GeometricAverage` an abstract function of the path.
- Division by a zero counter in `post_process`: it would give an IEEE infinity or NaN. Each `PostProcess` demands a positive counter instead.
- Concurrency: the parallel `for_each` (`par` / `par_unseq`), the mutexes and the atomic counter are not modelled. So are the races on the shared path buffer and on the unlocked European and Barrier sums. Every call happens in sequence, in iteration order.
- Order of the two variate draws in one step: C++ leaves the evaluation order of the two `generate_rn()` arguments unspecified. The model takes the first draw of each pair as the first argument.
- Console output: the `std::cout` calls in `post_process` and in the progress lambda, the Interface and the Singleton are display glue. The progress callback is modelled by what it would show.
- The `duration` argument of each `PostProcess` only reaches the display, so it has no effect in the model.
- Assembly: MCBuilder and `main` are not part of this model. The mediator's path and finish callbacks are recorded as events rather than wired to a pricer.
- `Timer`, `ScopedTimer` and `StopWatch::display_time`: they read the clock directly and print.
- `SDEBase::drift_corrected` and `SDEBase::diffusion_derivative` (src/SDEBase.cpp:79-93) are not modelled. They drop arguments that the concrete processes require, so they cannot be instantiated. The concrete processes' own versions are modelled.
- Fixed-width integers: `size_t` wrap-around of the counter and the `(int)m_NSim` cast in `start` are not modelled. Counts are unbounded naturals.
- Fdm.Fdm.constructor: demands NT ≥ 1, because the source divides by NT without a guard.
- SdeConcrete.Concrete.DiffusionDerivative: demands a level at which S^(1 − β) is non-zero, because the source divides by it without a guard.
- Pricers.BarrierPricer.constructor: the barrier kind starts at Up_and_In. The source value-initialises an enumeration declared in PricerDerived.hpp, which is not part of this model, and Up_and_In is taken to be its first enumerator.
- Duplicate sources: the StopWatch implementations in include/StopWatch.hpp and src/StopWatch.cpp agree, and so do the two MCMediator implementations. Each is modelled once. The two MCMediator copies differ only in the execution policy and in how `j` is incremented.
