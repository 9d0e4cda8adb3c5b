# Rigid-body equilibrium tutorial: the evaluation engine in Dafny

This project models the equilibrium evaluation engine of a three-step tutorial on
the static equilibrium of a beam. The beam has a pin support B at 20 % of its
length, a roller support D at 80 % and a movable point mass of weight 100. The
learner works through three steps:

1. identify the four forces;
2. set the reactions so the force sums balance;
3. pick a pivot and move the mass so the moments balance.

The engine is one state record. Each action writes some input fields and then
recomputes the derived fields at once. The model states that record as an
immutable `State` datatype and each action as a pure `State -> State` function.
Quantities are Dafny `real`s. The source only adds, subtracts, multiplies,
divides by 100, takes absolute values, min/max, and compares, so exact reals
match it.

Modules, leaf first:

- `Tiers` (`tiers.dfy`): the `unbalanced | almost | balanced` classification and `Math.abs`/`min`/`max`.
- `ForceRegistry` (`forces.dfy`): the four-force catalogue, the flag raised by `identifyForce`, and `every(f => f.identified)`.
- `Moments` (`moments.dfy`): the fixed geometry, the net moment about a pivot, the clamped tilt and the moment classification. It also holds a corrected, direction-signed net moment (see Findings).
- `Simulator` (`simulator.dfy`): the store's state, every store action, the invariant every reachable state satisfies, and what it means to act on the store over time.
- `Navigation` (`navigation.dfy`): the step counter of the application shell (`canProceed`, `handleNext`, `handleBack`, `handleReset`, `allStepsComplete`).

The model follows what the code does, including three places where it differs from
what one might expect:

- The creation literal and the reset literal hard-code `forceBalanceY = unbalanced` and `step2Complete = false`, although 50 + 50 equals the weight. So "the derived fields are the evaluation of the inputs" does not hold at the start. `Simulator.InitialForceFieldsNotEvaluated` states this.
- The two vertical-reaction setters recompute only the force balance. The tilt, the moment classification and step 3 therefore go stale. `Simulator.ReactionSetterLeavesTiltStale` shows a concrete case.
- Without a pivot, `checkMomentBalance` writes the tilt and the classification but leaves `step3Complete` alone.

Still, every reachable state satisfies `Simulator.Consistent`. Each completion flag
agrees with its classifications, the tilt lies in [-10, 10], and step 1 is complete
exactly when every force is identified.

## Model

| member | source | states |
|---|---|---|
| `Tiers.ClassifyTiers` | src/store/simulatorStore.ts:139-141 | With ordered thresholds, the three tiers partition the residuals: below `tight` balanced, from `tight` below `loose` almost, from `loose` on unbalanced. |
| `Tiers.ClassifyMonotone` | src/store/simulatorStore.ts:139-141 | A larger residual never gets a better classification. |
| `ForceRegistry.InitialForcesShape` | src/store/simulatorStore.ts:45-82 | The catalogue holds four forces with the four distinct ids `weight`, `reaction-b-v`, `reaction-b-h` and `reaction-d`, in that order, all unidentified. |
| `ForceRegistry.EveryIdentified` | src/store/simulatorStore.ts:111 | The element-by-element `every` is true exactly when every force of the list is identified. |
| `ForceRegistry.Identify` | src/store/simulatorStore.ts:104-108 | Length is kept. A force's flag afterwards is its old flag or "its id matches". No other field of any force changes. |
| `ForceRegistry.IdentifyKeepsRegistry` | src/store/simulatorStore.ts:104-108 | Identifying keeps the list's length, order, ids and all non-flag fields equal to the catalogue. |
| `ForceRegistry.IdentifyUnknownIsNoOp` | src/store/simulatorStore.ts:105-107 | An id that names no force leaves the list exactly unchanged. |
| `ForceRegistry.IdentifyIdempotent` | src/store/simulatorStore.ts:105-107 | Identifying the same id twice gives the same list as identifying it once. |
| `ForceRegistry.IdentifyCommutes` | src/store/simulatorStore.ts:105-107 | Identifying two ids in either order gives the same list. |
| `ForceRegistry.RegistryIdAt` | src/store/simulatorStore.ts:45-82 | In a registry, the force at position i carries the k-th catalogue id iff i = k, so each id names exactly one force. |
| `ForceRegistry.RegistryAllIdentified` | src/store/simulatorStore.ts:111 | In a registry, every force is identified iff, for each of the four catalogue ids, the force carrying that id is identified. |
| `Moments.ReactionMoment` | src/store/simulatorStore.ts:182-189 | The three per-pivot branches are one formula: bv·(20 − pivot) + d·(80 − pivot). Each reaction's magnitude is multiplied by its distance right of the pivot. |
| `Moments.NetMoment` | src/store/simulatorStore.ts:176-191 | For every pivot, the store's net moment equals 100·(mass − pivot) + bv·(20 − pivot) + d·(80 − pivot). Each force's magnitude is multiplied by its distance right of the pivot, whatever its direction. |
| `Moments.Tilt` | src/store/simulatorStore.ts:194 | The tilt lies in [−10, 10]. It equals net/100 when net/100 is in that band, and equals +10 above it and −10 below it. |
| `Moments.MomentBalance` | src/store/simulatorStore.ts:197-200 | Balanced iff abs(net) < 50, almost iff 50 ≤ abs(net) < 150, unbalanced iff abs(net) ≥ 150. |
| `Moments.TiltFollowsNetMoment` | src/store/simulatorStore.ts:194 | The tilt has the sign of the net moment and is zero exactly when the net moment is. |
| `Moments.TiltMonotone` | src/store/simulatorStore.ts:194 | The tilt never decreases as the net moment grows. |
| `Moments.PivotBScenario` | src/store/simulatorStore.ts:180-200 | Pivot B, mass 40, D = 50 gives net 5000, tilt exactly 10, unbalanced, whatever B's vertical reaction. |
| `Moments.NetMomentFlipsReactions` | src/store/simulatorStore.ts:182-189 | The store's net moment is the clockwise moment with both reactions negated. |
| `Moments.NetMomentSignCounterexample` | src/store/simulatorStore.ts:182-200 | Mass at 50 and 50 at each support is in clockwise equilibrium. The store still reads net 6000 about B and −6000 about D, both unbalanced. |
| `Moments.ClockwiseMomentPivotIndependent` | src/store/simulatorStore.ts:180-191 | When the reactions sum to the weight, the corrected clockwise net moment and its classification are the same about every pivot. |
| `Moments.ClockwiseMomentBalancedAtCenter` | src/store/simulatorStore.ts:180-191 | With the mass at the centre and the weight shared equally, the corrected net moment is 0 and balanced about every pivot. |
| `Simulator.HorizontalBalance` | src/store/simulatorStore.ts:137-141 | Horizontal: balanced iff −5 < h < 5, almost iff 5 ≤ abs(h) < 15, unbalanced iff abs(h) ≥ 15. |
| `Simulator.VerticalBalance` | src/store/simulatorStore.ts:144-148 | Vertical: the same tiers on abs(bv + d − 100); balanced iff 95 < bv + d < 105. |
| `Simulator.VerticalDependsOnlyOnSum` | src/store/simulatorStore.ts:144 | Two reaction pairs with the same sum get the same vertical classification. |
| `Simulator.IdentifyForce` | src/store/simulatorStore.ts:103-115 | Only the matching forces' flags are raised, and no other field of any force changes. Step 1 afterwards is its old value or "all identified", so it is never cleared. No other state field changes. |
| `Simulator.IdentifyForceNoOp` | src/store/simulatorStore.ts:103-115 | In a reachable store, an id that names no force, or names a force already identified, leaves the whole state unchanged. |
| `Simulator.CheckForceBalance` | src/store/simulatorStore.ts:132-153 | Both classifications are those of the current reactions, and step 2 is true iff both are balanced. Nothing else changes. |
| `Simulator.SetReactionBHorizontal` | src/store/simulatorStore.ts:117-120 | Stores the value and recomputes the force-balance fields from the new reactions. Forces, moment fields, mass and pivot are unchanged. |
| `Simulator.SetReactionBVertical` | src/store/simulatorStore.ts:122-125 | Stores the value and recomputes only the force-balance fields. The tilt, moment classification and step 3 are left as they were. |
| `Simulator.SetReactionD` | src/store/simulatorStore.ts:127-130 | Same as the B-vertical setter, for the reaction at D. |
| `Simulator.CheckMomentBalance` | src/store/simulatorStore.ts:165-205 | No pivot: tilt 0, unbalanced, step 3 kept. With a pivot: tilt and classification are those of the net moment, and step 3 is true iff balanced. The tilt is in [−10, 10]. Nothing else changes. |
| `Simulator.SetSelectedPivot` | src/store/simulatorStore.ts:155-158 | Stores the pivot and evaluates the moment about it. Only the pivot and the moment fields change. |
| `Simulator.SetMassPosition` | src/store/simulatorStore.ts:160-163 | Stores the position and evaluates the moment with it, including the no-pivot branch. Only the mass and the moment fields change. |
| `Simulator.ResetSimulation` | src/store/simulatorStore.ts:207-223 | Reset yields exactly the creation state, from any state. |
| `Simulator.InitialForceFieldsNotEvaluated` | src/store/simulatorStore.ts:89-94 | At creation the reactions balance vertically, but `forceBalanceY` reads unbalanced. One reaction setter call makes the fields agree and completes step 2. |
| `Simulator.ReactionSetterLeavesTiltStale` | src/store/simulatorStore.ts:122-130 | With pivot C, moving D from 50 to 60 leaves the tilt at −10, although the new net moment gives −7. |
| `Simulator.Initial` | src/store/simulatorStore.ts:84-100 | In the creation state no force is identified, and the state satisfies the reachable-state invariant. |
| `Simulator.ApplyKeepsConsistent` | src/store/simulatorStore.ts:103-223 | Every store action preserves the invariant. |
| `Simulator.RunKeepsConsistent` | src/store/simulatorStore.ts:103-223 | Every sequence of store actions preserves the invariant. |
| `Simulator.ReachableFlagsAgree` | src/store/simulatorStore.ts:110-204 | After any history, step 1 is true iff every force is identified, step 2 is true iff both force balances are balanced, step 3 is true iff the moment is balanced, and the tilt is in [−10, 10]. |
| `Simulator.ApplyLatches` | src/store/simulatorStore.ts:110-114 | No single action other than reset clears step 1 or any force's flag. |
| `Simulator.Step1Latched` | src/store/simulatorStore.ts:110-114 | Without a reset, step 1 once true stays true, and an identified force stays identified. |
| `Simulator.RunClicks` | src/store/simulatorStore.ts:103-115 | Clicking a list of ids raises exactly the flags of the clicked forces. After at least one click, step 1 is true iff it was already, or every force is identified. |
| `Simulator.Step1CompleteIffAllClicked` | src/store/simulatorStore.ts:103-115 | From a fresh store, step 1 completes iff each of the four ids was clicked at least once, in any order, with repeats or unknown ids allowed. |
| `Navigation.CanProceed` | src/App.tsx:15-26 | Steps 1, 2 and 3 give their completion flags, and every other number gives false. |
| `Navigation.HandleNext` | src/App.tsx:28-32 | The step goes up by one iff it is below 3 and the step can proceed; otherwise it is unchanged. The store is untouched. |
| `Navigation.HandleBack` | src/App.tsx:34-38 | The step goes down by one iff it is above 1; otherwise it is unchanged. The store is untouched. |
| `Navigation.HandleReset` | src/App.tsx:40-43 | The result is the starting application: step 1 and the creation store. |
| `Navigation.AllStepsComplete` | src/App.tsx:45 | True iff all three steps can proceed, i.e. all three completion flags are set. |
| `Navigation.DispatchKeepsValid` | src/App.tsx:28-43 | Each event keeps the step in 1..3 and the store consistent. |
| `Navigation.ReplayKeepsValid` | src/App.tsx:28-43 | Any event sequence keeps the step in 1..3 and the store consistent. |
| `Navigation.StepAlwaysInRange` | src/App.tsx:12-38 | Starting from step 1, the step stays in 1..3 after any events. |
| `Navigation.NextFromReachable` | src/App.tsx:28-32 | In a reachable state: leaving step 1 needs all forces identified, and leaving step 2 needs both force balances balanced. Next at step 3 does nothing. |
| `Navigation.NextBlockedAtStart` | src/App.tsx:12-32 | On a fresh start, Next changes nothing. |

## Left out

- Rendering is not modelled: the SVG beam, arrows, scaling and the tilt transform string, the step screens, sliders, indicator, header and completion summary. They only display engine outputs or forward events to the actions modelled here.
- The reactive store plumbing (subscription and `set`/`get` merging) and animation timing are not modelled. Each action is one state transition, which is what a synchronous single-writer store does.
- IEEE-754 rounding of JavaScript numbers is not modelled. Quantities are exact reals. Slider inputs are integers, and the engine only adds, multiplies and divides by 100.
- The input setters take any value, as the source does. The slider ranges ([−50, 50], [0, 150], [10, 90]) are enforced by the widgets, not by the engine, so no precondition restricts them.
- The display-only `name`, `category`, `direction`, `magnitude` and `position` fields of a force are kept as data, but nothing in the engine reads them.
- React's stale-closure behaviour of the handlers is not modelled. `HandleNext` and `HandleBack` read the step and the flags current at the time of the event.

## Findings

| source | as written | input that shows it | evidently intended | confidence | as-written member | corrected member |
|---|---|---|---|---|---|---|
| src/store/simulatorStore.ts:182-189 | Reaction moments are added with the sign of the clockwise weight moment. An upward reaction right of the pivot counts clockwise. | pivot B, mass 50, B vertical 50, D 50: a beam in equilibrium reads net 6000, unbalanced (and −6000 about D). | Upward reactions count counter-clockwise right of the pivot, as the comments ("counter moment") and the "clockwise = positive" convention say. Then, with the forces balanced, the verdict does not depend on the pivot. | medium, not executed | `Moments.NetMomentSignCounterexample` | `Moments.ClockwiseMomentPivotIndependent` |

The store model (`Simulator.CheckMomentBalance`) keeps the as-written formula,
because that is what the code computes. The corrected `Moments.ClockwiseNetMoment`
sits beside it, and `Moments.NetMomentFlipsReactions` states the exact
relationship between the two.
