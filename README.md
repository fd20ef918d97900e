# Pumped pipe network: hydraulic core in Dafny

This project models the calculation engine of `apppumpsr1v2.py`, a calculator for
pumped pipe networks. A network has three parts, in flow order:

- an optional run of series segments ("trechos antes");
- a group of named parallel branches ("ramais paralelos");
- a second optional run of series segments ("trechos depois").

For a given total flow and fluid the engine computes:

- the Darcy–Weisbach friction loss of each segment;
- the loss of each series run;
- the split of the flow across the parallel branches, found by a root finder from the equal-loss condition;
- the total manometric head;
- the pump's electric power and its annual cost.

The model also covers the session callbacks that add and remove segments and branches.

Modules:

- `Fluids` (`fluids.dfy`): the table of the two fluids.
- `Network` (`network.dfy`): segments, branches, and the insertion-ordered branch dictionary with its `d[k] = v` and `popitem`.
- `Friction` (`friction.dfy`): `calcular_perdas_trecho`. Velocity, Reynolds number, friction factor per regime, and the early exits for no flow and for a non-positive diameter.
- `Series` (`series.dfy`): `calcular_perda_serie`. It is an accumulator loop, written as a `method` with a loop invariant and proved against the function `SeriesLoss`.
- `Parallel` (`parallel.dfy`): `calcular_perdas_paralelo` and its inner `equacoes_perda`. The root finder is a parameter. Branch losses enter through a `BranchLossFn`; the calculator's own is `BranchLosses(fluid, law)`.
- `Energy` (`energy.dfy`): `calcular_analise_energetica`.
- `Session` (`session.dfy`): the session state as a class `NetworkSession`. Its methods are the four callbacks. Its invariant is that the branch keys are exactly "Ramal 1" … "Ramal n", with n ≥ 1.
- `Analysis` (`analysis.dfy`): the run at lines 208-219. It computes the three losses, stops on a failed parallel solve, and otherwise computes head and energy.

Python floats are modelled as Dafny `real`, so every equation holds exactly over the reals.

Two things have no closed form over the reals. Both are parameters:

- The Swamee–Jain friction factor, with its `log10` and `** 0.9`, is a parameter of type `TurbulentLaw`. The model knows only that it is never negative.
- `scipy.optimize.root` is a parameter of type `RootFinder`. It receives the residual function and the initial guess. It returns `(success, x)`, and `x` has the length of the guess.

π is the constant 3.141592653589793.

Where the code departs from the physical model, the model follows the code:

- The feasibility guard of the residual checks only the implied flow of the last branch. A split that sends negative flow through one of the first N−1 branches can still zero the residual and be reported. `Parallel.NegativeFlowPassesGuard` exhibits such a split. It needs a last branch that loses nothing at its flow: its segment has length 0. With positive lengths, a positive viscosity, a positive turbulent factor and a positive total this cannot happen: a branch with negative flow loses 0, while some branch with positive flow loses more. `Parallel.ZeroResidualOnRealPipeHasNoNegativeFlow` proves this. Every branch the callbacks create has exactly one segment. A physically valid split has every flow non-negative; the code checks only the last branch's flow.
- A "parallel group" of one branch contributes loss 0 and no distribution (line 63). The branch's own resistance is dropped from the head.
- The form does not constrain segment lengths. So non-negativity of losses is proved under the hypothesis that lengths are non-negative.
- The failure value of the parallel loss is −1, and the caller tests `== -1` (line 213). `Parallel.ParallelFailureIsUnambiguous` shows that on branch 1 of non-negative length the test is exact. A converged split never yields −1 there, because its loss is not negative.

## Model

| member | source | states |
|---|---|---|
| Fluids.TableFluidsArePhysical | apppumpsr1v2.py:18 | both tabulated fluids have positive density and positive kinematic viscosity |
| Network.Assign | apppumpsr1v2.py:31 | dict key assignment: an existing key keeps its position and gets the new value, a new key is appended last; distinct keys stay distinct |
| Network.PopItem | apppumpsr1v2.py:34 | `popitem` removes exactly the most recently inserted entry and keeps keys distinct |
| Friction.Area | apppumpsr1v2.py:49 | the cross-section π d²/4 of a pipe of positive diameter is positive, so the velocity division is defined |
| Friction.Velocity | apppumpsr1v2.py:46-50 | velocity times cross-section is the flow in m³/s; a positive flow gives a positive velocity |
| Friction.Reynolds | apppumpsr1v2.py:51 | 0 without positive viscosity; otherwise Re·ν = v·d, so Re is positive for a flowing fluid in a real pipe |
| Friction.FrictionFactor | apppumpsr1v2.py:52-57 | factor 0 for Re ≤ 0, f·Re = 64 for 0 < Re ≤ 4000, the turbulent law above 4000; never negative |
| Friction.DarcyWeisbach | apppumpsr1v2.py:58 | the head loss f (L/d) v²/(2g) is not negative for a non-negative factor and length; the Hagen–Poiseuille form of it is `Friction.LaminarIsHagenPoiseuille` |
| Friction.SegmentLoss | apppumpsr1v2.py:44-59 | no flow gives zeros (checked before the diameter); a non-positive diameter gives loss 1e12 and velocity 0; otherwise no fitting entry and a positive velocity |
| Friction.SegmentLossNonNegative | apppumpsr1v2.py:51-58 | on a segment of non-negative length the friction loss is never negative |
| Friction.SegmentLossPositive | apppumpsr1v2.py:44-59 | a positive flow of a fluid of positive viscosity, under a positive turbulent law, loses positive head in every segment of positive length (1e12 for a degenerate diameter) |
| Friction.ZeroLengthLosesNothing | apppumpsr1v2.py:58 | a segment of zero length and positive diameter loses nothing, at any flow and in any regime |
| Friction.InviscidFluidLosesNothing | apppumpsr1v2.py:51-58 | with viscosity ≤ 0, in a pipe of positive diameter, the Reynolds number is 0, the factor is 0 and the loss is 0 even when flowing |
| Friction.LaminarIsHagenPoiseuille | apppumpsr1v2.py:53-58 | for 0 < Re ≤ 4000 the loss satisfies h·g·d² = 32 ν L v (Hagen–Poiseuille) |
| Series.Accumulated | apppumpsr1v2.py:38-41 | the accumulator's value after the given segments: 0 for none, the one contribution for a single segment; concatenation is `Series.AccumulatedAppend` |
| Series.SeriesLoss | apppumpsr1v2.py:37-42 | an empty run loses 0; a run of one flowing segment of positive diameter loses its friction loss; the loop computes it (`Series.ComputeSeriesLoss`) |
| Series.SeriesLossOfOneSegment | apppumpsr1v2.py:38-41 | a run of one segment loses exactly that segment's friction loss, at every flow and diameter (both early exits add principal + 0) |
| Series.ComputeSeriesLoss | apppumpsr1v2.py:37-42 | the accumulator loop returns the series loss of the whole list; an empty list gives 0 |
| Series.AccumulatedAppend | apppumpsr1v2.py:38-41 | the accumulated loss of a concatenation is the sum of the two parts' losses |
| Series.AccumulatedIsFrictionSum | apppumpsr1v2.py:41 | when no segment reports a fitting loss, the accumulated total equals the front-to-back sum of friction losses |
| Series.SeriesLossIsFrictionSum | apppumpsr1v2.py:41 | the default 0 of `get("localizada", 0)` always applies, so fittings never add loss: series loss is the sum of friction losses |
| Series.AccumulatedNonNegative | apppumpsr1v2.py:38-41 | non-negative contributions accumulate to a non-negative total |
| Series.AccumulatedOfNothing | apppumpsr1v2.py:38-41 | contributions of 0 accumulate to 0 |
| Series.SeriesLossWithoutFlow | apppumpsr1v2.py:45 | at flow ≤ 0 every series run loses nothing, whatever its geometry |
| Series.SeriesLossNonNegative | apppumpsr1v2.py:37-42 | on segments of non-negative length the series loss is never negative |
| Series.SeriesLossPositive | apppumpsr1v2.py:37-42 | a positive flow of a viscous fluid through a non-empty run of positive lengths loses positive head, under a positive turbulent law |
| Series.DegenerateSegmentDominates | apppumpsr1v2.py:48 | a flowing run of segments of non-negative length containing a segment of non-positive diameter loses at least 1e12 |
| Parallel.Residual | apppumpsr1v2.py:65-71 | the residual has N−1 entries, and all of them are 1e12 when the implied last flow is negative |
| Parallel.Sum | apppumpsr1v2.py:66 | Python's `sum` from the left; non-negative flows sum to a non-negative total |
| Parallel.EqualSplit | apppumpsr1v2.py:72 | the initial guess has N−1 entries, each of which times N is the total |
| Parallel.Solve | apppumpsr1v2.py:73 | the root finder's iterate holds one flow for each branch but the last |
| Parallel.ParallelLosses | apppumpsr1v2.py:61-78 | fewer than two branches give (0, {}); non-convergence gives (−1, {}); otherwise one share per branch in branch order, the first N−1 flows from the solver, flows summing to the total, and branch 1's loss reported |
| Parallel.ResidualVanishesIffEqualLosses | apppumpsr1v2.py:65-71 | the residual is zero exactly when the last flow is not negative and every branch loses what the last one does |
| Parallel.ZeroLastFlowIsFeasible | apppumpsr1v2.py:67-70 | a last flow of exactly 0 passes the guard, and each residual entry is then that branch's own loss |
| Parallel.ResidualAgainstIdleBranch | apppumpsr1v2.py:66-70 | with a last flow of 0 and a last branch that loses nothing at 0, each residual entry is the branch's own loss |
| Parallel.SumOfConstant | apppumpsr1v2.py:66 | the sum of k copies of c is k·c |
| Parallel.SumNonPositive | apppumpsr1v2.py:66 | non-positive entries sum to a non-positive value |
| Parallel.EqualSplitLeavesEqualShare | apppumpsr1v2.py:72 | the initial guess has N−1 entries and leaves the last branch the same share total/N |
| Parallel.IdenticalBranchesStartAtRoot | apppumpsr1v2.py:66-72 | for branches with identical segments and a non-negative total, the initial equal split already zeroes the residual |
| Parallel.ConvergedSplitHasEqualLosses | apppumpsr1v2.py:73-77 | at a converged split with zero residual every branch loses exactly the reported loss and the last flow is not negative |
| Parallel.NegativeFlowPassesGuard | apppumpsr1v2.py:66-67 | the guard is one-sided: a split with a negative flow in branch 1 has zero residual |
| Parallel.ZeroResidualOnRealPipeHasNoNegativeFlow | apppumpsr1v2.py:65-71 | on branches of real pipe (non-empty, positive lengths), a viscous fluid, a positive turbulent law and a positive total, a zero residual gives every branch a non-negative flow |
| Parallel.ParallelFailureIsUnambiguous | apppumpsr1v2.py:74-76 | on branch 1 of non-negative length the loss is −1 exactly when there is a group and the solver failed |
| Energy.EnergyAnalysis | apppumpsr1v2.py:80-84 | efficiency product ≤ 0 gives power 0; otherwise power × efficiency × 1000 is the hydraulic power ρ g Q H; cost is power × (hours × 360) × tariff |
| Energy.HydraulicPower | apppumpsr1v2.py:82 | ρ g Q H is 0 without head and not negative at non-negative flow, density and head |
| Energy.ZeroHeadCostsNothing | apppumpsr1v2.py:82-83 | zero head gives zero power and zero cost |
| Energy.EnergyNonNegative | apppumpsr1v2.py:82-83 | at non-negative flow, head, density, hours and tariff, power and cost are not negative |
| Energy.PowerMonotoneInHead | apppumpsr1v2.py:82 | more head never needs less power |
| Session.Digit | apppumpsr1v2.py:29 | a decimal digit is a character between '0' and '9' |
| Session.NatToString | apppumpsr1v2.py:29 | decimal notation has at least one digit, and at least two from 10 on |
| Session.NatToStringInjective | apppumpsr1v2.py:29 | distinct numbers have distinct decimal notations |
| Session.BranchName | apppumpsr1v2.py:29 | the key `f"Ramal {n}"` is "Ramal " followed by at least one digit; distinct numbers give distinct keys (`Session.BranchNameInjective`) |
| Session.BranchNameInjective | apppumpsr1v2.py:29 | distinct numbers give distinct keys "Ramal n" |
| Session.NextBranchNameIsFresh | apppumpsr1v2.py:29-31 | on keys "Ramal 1" … "Ramal n" the key "Ramal n+1" is not taken |
| Session.CanonicalBranchesAreDistinct | apppumpsr1v2.py:28-31 | the keys "Ramal 1" … "Ramal n" are pairwise distinct, as dictionary keys must be |
| Session.PopKeepsCanonical | apppumpsr1v2.py:34 | removing the newest of more than one branch keeps keys "Ramal 1" … "Ramal n−1", at least one |
| Session.AddKeepsCanonical | apppumpsr1v2.py:28-31 | adding "Ramal n+1" keeps the keys canonical and makes the table one longer |
| Session.NetworkSession.constructor | apppumpsr1v2.py:147-153 | empty series lists and branches "Ramal 1" and "Ramal 2", each one 50 m, 80 mm, 0.15 mm segment |
| Session.NetworkSession.AddItem | apppumpsr1v2.py:21-23 | appends a 10 m, 100 mm, 0.15 mm segment to the chosen list; nothing else changes |
| Session.NetworkSession.RemoveLastItem | apppumpsr1v2.py:25-26 | removes only the last segment of a non-empty list; an empty list stays empty; nothing else changes |
| Session.NetworkSession.AddParallelBranch | apppumpsr1v2.py:28-31 | assigns a one-segment branch (50 m, 80 mm, 0.15 mm) to "Ramal n+1"; that key is new, so the branch is appended |
| Session.NetworkSession.RemoveLastBranch | apppumpsr1v2.py:33-34 | pops the newest branch only when more than one exists, so at least one always remains |
| Analysis.Compose | apppumpsr1v2.py:213-219 | the run stops exactly when the parallel loss is −1; otherwise the total loss is the three losses added, the head exceeds the geometric head by that total, the distribution is the group's, and the energy analysis is made at that head with the efficiencies divided by 100 |
| Analysis.Evaluate | apppumpsr1v2.py:209-219 | the run on a network stops exactly when the group reports −1; otherwise the head is the geometric head plus the series losses before and after and the group's loss, and the energy analysis is made at that head; its consequences are `Analysis.RunFailsOnlyOnSolverFailure` and `Analysis.NoParallelGroupIsOneSeriesRun` |
| Analysis.Analyse | apppumpsr1v2.py:208-219 | the run computes the losses before, across and after the group and composes them as `Evaluate` states |
| Analysis.NoParallelGroupIsOneSeriesRun | apppumpsr1v2.py:209-218 | with fewer than two branches the run never fails and the head is the geometric head plus the loss of before and after as one run |
| Analysis.RunFailsOnlyOnSolverFailure | apppumpsr1v2.py:213-218 | on non-negative lengths the run stops exactly when the solver fails on a group; otherwise the total loss is not negative and the head is at least the geometric head |
| Analysis.ComposedCostIsNonNegative | apppumpsr1v2.py:216-219 | when the composed head is not negative and flow, density, hours and tariff are not negative, a completed run reports neither negative power nor negative cost |
| Analysis.RunCostIsNonNegative | apppumpsr1v2.py:209-219 | at inputs the form admits (flow ≥ 0.1 and geometric head ≥ 0 at lines 163-164, hours ≥ 1 and tariff ≥ 0.10 at line 205) and on pipe of non-negative length, a completed run costs nothing negative |

## Left out

- Streamlit widgets, layout, metrics and error display (lines 156-240) are user interface. The velocity shown per branch (line 236) is `Friction.SegmentLoss` applied again and is not modelled separately.
- The graphviz diagram `gerar_diagrama_rede` (lines 87-143) is rendering through a foreign library.
- The internals of `scipy.optimize.root` with `method='hybr'` (line 73) are a foreign numeric solver. The model takes it as a parameter. Convergence, and the equal-loss property of what it returns, are not claimed. They are proved only under the hypothesis that the returned residual is zero.
- Friction.FrictionFactor: the Swamee–Jain value (lines 55-56) uses `log10` and `** 0.9`, which have no closed form over the reals. It is the parameter `TurbulentLaw`, known only to be non-negative. Its own `ValueError` (logarithm of a non-positive number) and `ZeroDivisionError` cases are not modelled.
- Floating-point rounding is not modelled. Sums of flows and equal losses hold exactly over the reals, not within float tolerance. π is its decimal value.
- `time.time()` identifiers (lines 22, 30, 151-152) come from a clock. They are parameters of the callbacks and of the constructor.
- The `K_FACTORS` table (lines 11-17) is never used by any loss. Segments keep their fittings list only as data.
- The broad `try`/`except` (line 239) is exception plumbing. `Analysis.Analyse` requires that the fluid name is in the table, which the select box guarantees. Other Python exceptions are not modelled.
- `st.stop()` after a failed parallel solve (line 215) is modelled as the outcome `ParallelSolveFailed`.
- The file has no diameter-scaling sensitivity sweep, so none is modelled.
