# HELIOS planner of LIMES, modelled in Dafny

LIMES discovers links between the resources of a source and a target
knowledge base. A *link specification* is a boolean tree. Its leaves are
atomic similarity conditions (a measure expression and a threshold), and its
inner nodes combine them with AND, OR, XOR and MINUS. `HeliosPlanner` turns
a specification into a `NestedPlan` tree. Every plan node carries a runtime
cost, an estimated mapping size and a selectivity, which is the size as a
fraction of the cross product |S|·|T|.

The model covers the whole planner:

- **Atomic plans** (`Helios.AtomicPlan`, `Helios.PlanAtomic`). An atomic
  condition becomes one RUN instruction. Its runtime and size come from a
  mapper chosen by measure name (`Estimates.RuntimeMapper`,
  `Estimates.SizeMapper`), and its selectivity is size / (|S|·|T|).
- **OR, MINUS and XOR** (`Helios.CombinedPlan`, the loops `Helios.FoldUnion`,
  `Helios.FoldDifference` and `Helios.FoldXor`). The children's
  selectivities are combined with the independence formulas of module
  `Selectivity`. The children are kept in order and the node's own FILTER is
  attached last.
- **The pairwise AND combiner** (`Conjunction.BestPair`). It compares three
  strategies and takes the cheapest, with ties going to strategy 1 and then
  to strategy 2:
  - run both sides and intersect;
  - run the left side and filter with the right side's measures;
  - run the right side and filter with the left side's measures.
- **The n-ary AND reduction** (`Conjunction.BestOfList`,
  `Conjunction.BestAgainst`, and the methods that shorten the caller's list
  in place). It nests the children to the right, in sibling order.
- **The recursive planner itself**. `Helios.PlanOf` is the specification
  function. `Helios.Plan` is the method with the source's loops, proved
  equal to `PlanOf`. Lemmas about the whole tree cover order, failure,
  cost and the selectivity range.

Costs, sizes and selectivities are exact `real`s. Plans and specifications
are values (datatypes). The planner's collaborators are function-valued
fields of `Estimates.Planner`. These collaborators are the mappers' estimates,
`MeasureFactory`, `Parser`, `MeasureProcessor.getCosts`,
`NestedPlan.getAllMeasures` and `NestedPlan.getEquivalentMeasure`. The state
of a plan made by `new NestedPlan()` is the field `freshPlan`. The exception
Java throws on the null dereference in strategies 2 and 3 becomes
`Err(MissingFilteringInstruction)`. It happens when the absorbed side is
neither flat nor carries a filtering instruction.

Modules: `Wrappers` (Option, Result), `LinkSpecs`, `Plans`, `Estimates`,
`Selectivity`, `Conjunction`, `Helios`.

## Model

Every row cites lines of the planner's one source file. In the table,
"cross-product size" stands for |S|·|T|.

| member | source | states |
|---|---|---|
| Estimates.RuntimeMapper | limes-core/src/main/java/org/aksw/limes/core/execution/planning/planner/HeliosPlanner.java:64-78 | the runtime estimate comes from EDJoin, TotalOrderBlockingMapper, FastNGram or JaroMapper exactly when the measure name equals levenshtein, euclidean, qgrams or jaro ignoring case, and from PPJoinPlusPlus exactly when it equals none of them |
| Estimates.SizeMapper | limes-core/src/main/java/org/aksw/limes/core/execution/planning/planner/HeliosPlanner.java:90-106 | the size estimate comes from FastNGram exactly for qgrams, JaroMapper exactly for jaro, PPJoinPlusPlus for every other name, and never from EDJoin or TotalOrderBlockingMapper |
| Estimates.GetAtomicMappingSizes | limes-core/src/main/java/org/aksw/limes/core/execution/planning/planner/HeliosPlanner.java:90-108 | the statement-by-statement method returns the estimate of SizeMapper's mapper; for a levenshtein measure that is the PPJoinPlusPlus estimate, because the final if/else overwrites the first assignment |
| Estimates.SizeDispatchOverwrite | limes-core/src/main/java/org/aksw/limes/core/execution/planning/planner/HeliosPlanner.java:64-106 | for levenshtein and euclidean the size and runtime dispatches pick different mappers, and the size uses PPJoinPlusPlus; for every other name they pick the same mapper |
| Estimates.DispatchIgnoresCase | limes-core/src/main/java/org/aksw/limes/core/execution/planning/planner/HeliosPlanner.java:64-106 | names equal up to case are dispatched to the same mappers |
| Estimates.GetFilterCosts | limes-core/src/main/java/org/aksw/limes/core/execution/planning/planner/HeliosPlanner.java:119-126 | the loop returns the per-measure runtime estimates added up in list order (0 for an empty list) |
| Estimates.FilterCostsAppend | limes-core/src/main/java/org/aksw/limes/core/execution/planning/planner/HeliosPlanner.java:119-126 | the filter cost of a concatenation of measure lists is the sum of their filter costs |
| Estimates.FilterCostsNonNegative | limes-core/src/main/java/org/aksw/limes/core/execution/planning/planner/HeliosPlanner.java:119-126 | with non-negative per-measure estimates a filter costs nothing negative |
| Estimates.Ceil | limes-core/src/main/java/org/aksw/limes/core/execution/planning/planner/HeliosPlanner.java:324-328 | `(int) Math.ceil(x)` is the least integer not below x |
| Plans.SumCostsCons | limes-core/src/main/java/org/aksw/limes/core/execution/planning/planner/HeliosPlanner.java:171-175 | the running sum of child costs equals the head's cost plus the sum of the rest |
| Plans.SumCostsNonNegative | limes-core/src/main/java/org/aksw/limes/core/execution/planning/planner/HeliosPlanner.java:171-175 | non-negative child costs sum to a non-negative cost |
| Selectivity.ProductIsProbability | limes-core/src/main/java/org/aksw/limes/core/execution/planning/planner/HeliosPlanner.java:234-240 | the AND product of probabilities is a probability |
| Selectivity.ComplementProductIsProbability | limes-core/src/main/java/org/aksw/limes/core/execution/planning/planner/HeliosPlanner.java:183-186 | the product of the complements 1 − selᵢ of probabilities is a probability |
| Selectivity.OrIsProbability | limes-core/src/main/java/org/aksw/limes/core/execution/planning/planner/HeliosPlanner.java:181-195 | OR selectivity 1 − Π(1 − selᵢ) lies in [0, 1] when every selᵢ does |
| Selectivity.MinusIsProbability | limes-core/src/main/java/org/aksw/limes/core/execution/planning/planner/HeliosPlanner.java:196-210 | MINUS selectivity sel₀ · Π_{i≥1}(1 − selᵢ) lies in [0, sel₀] when every selᵢ lies in [0, 1] |
| Selectivity.XorStepIsProbability | limes-core/src/main/java/org/aksw/limes/core/execution/planning/planner/HeliosPlanner.java:216-217 | one XOR step of two probabilities is a probability |
| Selectivity.XorIsProbability | limes-core/src/main/java/org/aksw/limes/core/execution/planning/planner/HeliosPlanner.java:211-226 | the XOR fold from sel₀ lies in [0, 1] when every selᵢ does |
| Selectivity.XorStepExcess | limes-core/src/main/java/org/aksw/limes/core/execution/planning/planner/HeliosPlanner.java:216-217 | the XOR step exceeds the exact symmetric-difference probability s + x − 2sx by s·x·(1 − s)·(1 − x) |
| Selectivity.OrGrowsWithChild | limes-core/src/main/java/org/aksw/limes/core/execution/planning/planner/HeliosPlanner.java:181-195 | adding a child never lowers the OR selectivity |
| Selectivity.MinusShrinksWithChild | limes-core/src/main/java/org/aksw/limes/core/execution/planning/planner/HeliosPlanner.java:196-210 | adding a child never raises the MINUS selectivity |
| Selectivity.AndShrinksWithChild | limes-core/src/main/java/org/aksw/limes/core/execution/planning/planner/HeliosPlanner.java:234-240 | adding a child never raises the AND product |
| Conjunction.AbsorbedFilter | limes-core/src/main/java/org/aksw/limes/core/execution/planning/planner/HeliosPlanner.java:340-359 | an absorbed side yields a FILTER on its equivalent measure exactly when it is flat or has a filtering instruction, and throws otherwise. The threshold is that of the plan's first instruction when the plan is flat and that of its filtering instruction otherwise, and the positional fields are -1, -1 and 0 |
| Conjunction.BestPair | limes-core/src/main/java/org/aksw/limes/core/execution/planning/planner/HeliosPlanner.java:315-370 | the cost is min(r1, r2, r3), where r1 = cost(L) + cost(R), r2 = cost(L) + filterCost(measures(R), ⌈size·sel(R)⌉), and r3 = cost(R) + filterCost(measures(L), ⌈size·sel(L)⌉). If r1 is minimal the result is an INTERSECTION of [L, R] with no filter. Otherwise, if r2 is minimal, the result is [L] filtered by R, and it fails exactly when R is neither flat nor filtered. Otherwise it is [R] filtered by L, under the same condition on L. Whichever wins, the result carries the given selectivity and mapping size cross-product size · selectivity |
| Conjunction.BestOfList | limes-core/src/main/java/org/aksw/limes/core/execution/planning/planner/HeliosPlanner.java:258-275 | an empty list gives a fresh plan, a one-element list its element unchanged, and two or more the given selectivity and matching mapping size |
| Conjunction.BestAgainst | limes-core/src/main/java/org/aksw/limes/core/execution/planning/planner/HeliosPlanner.java:289-302 | an empty list gives `left` unchanged; a non-empty one the given selectivity and matching mapping size |
| Conjunction.ReductionNestsToTheRight | limes-core/src/main/java/org/aksw/limes/core/execution/planning/planner/HeliosPlanner.java:258-302 | reducing two or more plans gives pair(c1, pair(c2, … pair(cₙ₋₁, cₙ))) in the given order |
| Conjunction.AbsorbingAnIntersectionThrows | limes-core/src/main/java/org/aksw/limes/core/execution/planning/planner/HeliosPlanner.java:289-359 | when the inner pair of three plans intersects and the outer pair then prefers to filter by it, the reduction throws, because an intersection is neither flat nor filtered |
| Conjunction.ThreePlanConjunctionCanThrow | limes-core/src/main/java/org/aksw/limes/core/execution/planning/planner/HeliosPlanner.java:258-359 | some planner and three plans make the reduction throw |
| Conjunction.ReductionNoCostlierThanRunningAll | limes-core/src/main/java/org/aksw/limes/core/execution/planning/planner/HeliosPlanner.java:258-370 | the reduced plan never costs more than running every plan and intersecting |
| Conjunction.RightNestedNoCostlierThanRunningAll | limes-core/src/main/java/org/aksw/limes/core/execution/planning/planner/HeliosPlanner.java:289-370 | the same bound for the right-nested pairing |
| Conjunction.PairCostNonNegative | limes-core/src/main/java/org/aksw/limes/core/execution/planning/planner/HeliosPlanner.java:315-330 | a pair of non-negative plans costs nothing negative under non-negative estimates |
| Conjunction.ReductionCostNonNegative | limes-core/src/main/java/org/aksw/limes/core/execution/planning/planner/HeliosPlanner.java:258-302 | the reduction of non-negative plans costs nothing negative |
| Conjunction.RightNestedCostNonNegative | limes-core/src/main/java/org/aksw/limes/core/execution/planning/planner/HeliosPlanner.java:289-302 | the same for the right-nested pairing |
| Conjunction.BestConjunctivePlanOfList | limes-core/src/main/java/org/aksw/limes/core/execution/planning/planner/HeliosPlanner.java:258-275 | the method returns BestOfList of the list it was given, and leaves the caller's list without its first n − 2 elements and otherwise unchanged |
| Conjunction.BestConjunctivePlanAgainst | limes-core/src/main/java/org/aksw/limes/core/execution/planning/planner/HeliosPlanner.java:289-302 | the method returns BestAgainst of the list it was given, with the same effect on the list |
| Helios.AtomicPlan | limes-core/src/main/java/org/aksw/limes/core/execution/planning/planner/HeliosPlanner.java:152-162 | the plan has exactly one instruction, RUN with the spec's expression and threshold, and the fresh plan's sub-plans (so it is flat when a fresh plan has none). Its cost is the runtime estimate and its size the size estimate for the parser's measure, its selectivity times the cross-product size is its size, and the selectivity is in [0, 1] when size estimates are |
| Helios.PlanAtomic | limes-core/src/main/java/org/aksw/limes/core/execution/planning/planner/HeliosPlanner.java:150-162 | the setter sequence of the atomic branch yields AtomicPlan |
| Helios.CombinedPlan | limes-core/src/main/java/org/aksw/limes/core/execution/planning/planner/HeliosPlanner.java:168-229 | an OR, MINUS or XOR plan has the children as sub-plans in order, operator UNION, DIFF or XOR, and the node's own FILTER. When a fresh plan has no filtering instruction, its cost is the first child's for OR and Σ child costs + (n − 1) for MINUS and XOR |
| Helios.CombinedSelectivityIsProbability | limes-core/src/main/java/org/aksw/limes/core/execution/planning/planner/HeliosPlanner.java:181-227 | the OR, MINUS and XOR selectivities of probabilities are probabilities |
| Helios.OrRunningClosedForm | limes-core/src/main/java/org/aksw/limes/core/execution/planning/planner/HeliosPlanner.java:183-186 | the OR loop's running value after child k is Π_{i≤k}(1 − selᵢ) |
| Helios.MinusRunningClosedForm | limes-core/src/main/java/org/aksw/limes/core/execution/planning/planner/HeliosPlanner.java:199-201 | the MINUS loop's running value after child k is sel₀ · Π_{1≤i≤k}(1 − selᵢ) |
| Helios.XorRunningClosedForm | limes-core/src/main/java/org/aksw/limes/core/execution/planning/planner/HeliosPlanner.java:214-217 | the XOR loop's running value after child k is the XOR fold of the first k + 1 selectivities |
| Helios.RunningSelectivityLast | limes-core/src/main/java/org/aksw/limes/core/execution/planning/planner/HeliosPlanner.java:195-226 | after the last child the running value gives the node's selectivity (its complement for OR) |
| Helios.FilterAccrualNonNegative | limes-core/src/main/java/org/aksw/limes/core/execution/planning/planner/HeliosPlanner.java:189-224 | the filter costs added inside the loops are non-negative under non-negative estimates |
| Helios.FoldUnion | limes-core/src/main/java/org/aksw/limes/core/execution/planning/planner/HeliosPlanner.java:181-195 | the OR loop sets UNION, resets the cost to the first child's plus the guarded filter costs, and sets selectivity 1 − Π(1 − selᵢ), changing nothing else |
| Helios.FoldDifference | limes-core/src/main/java/org/aksw/limes/core/execution/planning/planner/HeliosPlanner.java:196-210 | the MINUS loop sets DIFF, adds the guarded filter costs to the cost so far, and sets selectivity sel₀ · Π_{i≥1}(1 − selᵢ), changing nothing else |
| Helios.FoldXor | limes-core/src/main/java/org/aksw/limes/core/execution/planning/planner/HeliosPlanner.java:211-226 | the XOR loop sets XOR, adds the guarded filter costs, and sets the XOR fold of the selectivities, changing nothing else |
| Helios.PlansOfChildren | limes-core/src/main/java/org/aksw/limes/core/execution/planning/planner/HeliosPlanner.java:171-175 | planning the first n children gives n plans unless one of them throws |
| Helios.ChildPlanAt | limes-core/src/main/java/org/aksw/limes/core/execution/planning/planner/HeliosPlanner.java:171-173 | the i-th child plan collected is the plan of the i-th child |
| Helios.ChildErrorAt | limes-core/src/main/java/org/aksw/limes/core/execution/planning/planner/HeliosPlanner.java:171-172 | a child whose planning throws makes the collection throw |
| Helios.ErrorHasCause | limes-core/src/main/java/org/aksw/limes/core/execution/planning/planner/HeliosPlanner.java:171-172 | a collection that throws has a child that threw the same exception |
| Helios.ChildErrorPersists | limes-core/src/main/java/org/aksw/limes/core/execution/planning/planner/HeliosPlanner.java:171-172 | after a child has thrown, later children change nothing |
| Helios.NonConjunctiveKeepsChildOrder | limes-core/src/main/java/org/aksw/limes/core/execution/planning/planner/HeliosPlanner.java:168-178 | an OR, MINUS or XOR plan has one sub-plan per child, the i-th being the i-th child's plan |
| Helios.NonConjunctiveFailsIffChildFails | limes-core/src/main/java/org/aksw/limes/core/execution/planning/planner/HeliosPlanner.java:168-175 | planning an OR, MINUS or XOR node throws exactly when planning one of its children throws |
| Helios.ConjunctionReducesChildPlans | limes-core/src/main/java/org/aksw/limes/core/execution/planning/planner/HeliosPlanner.java:231-241 | an AND node collects exactly one plan per child, the i-th being the plan of the i-th child, and its plan is the list reduction of those plans with the product of their selectivities |
| Helios.ConjunctionSelectivity | limes-core/src/main/java/org/aksw/limes/core/execution/planning/planner/HeliosPlanner.java:234-241 | an AND node has selectivity Π selᵢ of its children's plans, whichever strategy wins |
| Helios.ConjunctionNestsChildPlans | limes-core/src/main/java/org/aksw/limes/core/execution/planning/planner/HeliosPlanner.java:241-302 | an AND over two or more children is pair(c1, pair(c2, … pair(cₙ₋₁, cₙ))) of the children's plans, in specification order |
| Helios.PlanCostNonNegative | limes-core/src/main/java/org/aksw/limes/core/execution/planning/planner/HeliosPlanner.java:148-245 | under non-negative estimates every plan of every specification costs nothing negative |
| Helios.PlanSelectivityIsProbability | limes-core/src/main/java/org/aksw/limes/core/execution/planning/planner/HeliosPlanner.java:148-245 | when size estimates lie within the cross product, every plan's selectivity lies in [0, 1] |
| Helios.PlanChildren | limes-core/src/main/java/org/aksw/limes/core/execution/planning/planner/HeliosPlanner.java:170-175 | the children loop plans each child in order, stops at the first exception, and sums the costs of the plans collected |
| Helios.MultiplySelectivities | limes-core/src/main/java/org/aksw/limes/core/execution/planning/planner/HeliosPlanner.java:234-239 | the AND running product equals Π selᵢ of the children's plans |
| Helios.PlanCombination | limes-core/src/main/java/org/aksw/limes/core/execution/planning/planner/HeliosPlanner.java:177-229 | the OR, MINUS and XOR branch after the children loop yields CombinedPlan |
| Helios.Plan | limes-core/src/main/java/org/aksw/limes/core/execution/planning/planner/HeliosPlanner.java:148-245 | the recursive method, with the source's loops and setters, returns PlanOf |

## Notes on the source

Five behaviours of `HeliosPlanner.java` are easy to misread. The model
keeps each of them as written.

- **AND reduction order.** Lines 258-302 peel the head and pair it with the
  reduction of the rest, so four children become
  pair(c1, pair(c2, pair(c3, c4))). The nesting is to the right, and the
  children are never reordered. See `Conjunction.ReductionNestsToTheRight`
  and `Helios.ConjunctionNestsChildPlans`.
- **OR cost.** Lines 170-177 compute Σ child costs + (n − 1), but line 184
  then resets the OR plan's cost to the first child's cost. MINUS and XOR
  keep the sum. See `Helios.FoldUnion` and `Helios.CombinedPlan`.
- **When filter costs are added.** The loops add a filter cost only when
  the plan being built already has a filtering instruction (lines 189, 204
  and 220). The node's own FILTER is attached only after the loops
  (line 228). So the additions depend on what `new NestedPlan()` holds, and
  they vanish when it holds no filtering instruction. See
  `Helios.GuardedAccrual` and `Helios.CombinedPlan`.
- **XOR filter size.** Line 223 sizes the XOR filter by |S|·|T| times the
  running XOR selectivity. OR and MINUS (lines 192 and 207) use
  1 − the running value.
- **Absorbing an intersection.** In an AND of three or more children an
  inner pair can choose INTERSECTION, which leaves its filtering
  instruction null (lines 333-338). If the enclosing pair then chooses to
  filter by that node (lines 340-347), lines 345-346 dereference the null
  filtering instruction and the planner throws. The model returns
  `Err(MissingFilteringInstruction)` there. See
  `Conjunction.AbsorbingAnIntersectionThrows` and
  `Conjunction.ThreePlanConjunctionCanThrow`.

## Left out

- Logging (lines 79 and 124) only produces diagnostics.
- The bodies of EDJoin, TotalOrderBlockingMapper, FastNGram, JaroMapper,
  PPJoinPlusPlus, MeasureFactory, MeasureProcessor and Parser are not part
  of this model. They are uninterpreted function fields of
  `Estimates.Planner`. Their non-negativity (`NonNegativeCosts`) and the
  size bound (`SizesWithinCrossProduct`) are hypotheses of the lemmas that
  need them.
- `NestedPlan`, `Instruction` and `LinkSpecification` are not part of this
  model:
  - `isFlat` is taken as "exactly one instruction and no sub-plans";
  - `isAtomic` is taken as "no children";
  - `getAllMeasures` and `getEquivalentMeasure` are function fields;
  - the default state of `new NestedPlan()` is the field `freshPlan`;
  - the threshold that `threshold + ""` turns into a string is kept as the
    number.
- IEEE doubles are replaced by exact reals, so there is no rounding, NaN or
  Infinity. Empty caches would make line 162 divide by zero, so the planner
  requires |S|, |T| > 0 (`PositiveSizes`).
- The `(int)` cast after `Math.ceil` (lines 324 and 328) is modelled without
  int saturation.
- The Java `int` product `source.size() * target.size()` (lines 162, 192,
  207, 223, 318, 327 and 367) is computed on unbounded integers, without
  overflow.
- `null` list arguments (lines 259-261 and 290-292) are left out, because
  the planner never passes one.
- The unused `sourceMapping` and `targetMapping` parameters are left out.
- The AND branch plans children through the one-argument `plan(child)` on
  the planner's own caches (line 236). With the caches reduced to their two
  sizes this is the same call.
- `String.equalsIgnoreCase` is modelled for ASCII letters only.
- Helios.Plan: the loops are split into helper methods
  (`Helios.PlanChildren`, `Helios.MultiplySelectivities`,
  `Helios.PlanCombination` and the three fold methods). The AND running
  product (line 239) is computed in a second loop over the collected child
  plans rather than inside the children loop. It multiplies the same factors
  in the same order. The AND branch's running cost (lines 233 and 238) is
  computed and then discarded, as line 241 discards it.
- Selectivity.OrGrowsWithChild is stated for a child added after the
  existing ones, not at an arbitrary position.
- Selectivity.MinusShrinksWithChild is stated for a child added after the
  existing ones, not at an arbitrary position.
- Selectivity.AndShrinksWithChild is stated for a child added after the
  existing ones, not at an arbitrary position.
- Helios.ConjunctionSelectivity states the selectivity only. The mapping
  size |S|·|T|·selectivity of each pairwise node is stated by
  `Conjunction.BestPair`, `Conjunction.BestOfList` and
  `Conjunction.BestAgainst`.
- Plans are values. The source shares child plan objects between parent
  plans but never mutates a plan after it has been returned, so aliasing is
  not modelled.
