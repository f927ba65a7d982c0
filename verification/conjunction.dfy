/** The conjunctive optimiser: the pairwise combiner that picks the
    cheapest of three strategies, and the mutually recursive reduction of
    an n-ary AND to pairs. */
module Conjunction {
  import opened Wrappers
  import opened Plans
  import opened Estimates

  /** The exception Java throws on a null dereference when a plan that is neither flat
      nor carries a filtering instruction is absorbed as a filter. */
  datatype PlanError = MissingFilteringInstruction

  /** `Math.min` on reals. */
  function Min(a: real, b: real): (m: real) {
    if a <= b then a else b
  }

  /** `(int) Math.ceil(|S| * |T| * sel(p))`: the candidate-set size used
      when p is applied as a filter. */
  function FilterInputSize(pl: Planner, p: NestedPlan): (size: int) {
    Ceil(CrossSize(pl) * p.selectivity)
  }

  /** Strategy 1: run both sides and intersect. */
  function RunBothCost(left: NestedPlan, right: NestedPlan): (cost: real) {
    left.runtimeCost + right.runtimeCost
  }

  /** Strategy 2: run the left side and filter with the right side's measures. */
  function FilterByRightCost(pl: Planner, left: NestedPlan, right: NestedPlan): (cost: real) {
    left.runtimeCost + FilterCosts(pl, pl.allMeasures(right), FilterInputSize(pl, right))
  }

  /** Strategy 3: run the right side and filter with the left side's measures. */
  function FilterByLeftCost(pl: Planner, left: NestedPlan, right: NestedPlan): (cost: real) {
    right.runtimeCost + FilterCosts(pl, pl.allMeasures(left), FilterInputSize(pl, left))
  }

  /** The FILTER instruction that stands for an absorbed plan: its
      equivalent measure, with the threshold of its only instruction when it
      is flat and of its filtering instruction otherwise. */
  function AbsorbedFilter(pl: Planner, p: NestedPlan): (r: Result<Instruction, PlanError>)
    ensures r.Ok? <==> IsFlat(p) || p.filteringInstruction.Some?
    ensures r.Ok? ==> r.value.command == FILTER && r.value.measureExpression == pl.equivalentMeasure(p)
    ensures r.Ok? ==>
      r.value.threshold ==
        if IsFlat(p) then p.instructionList[0].threshold else p.filteringInstruction.value.threshold
    ensures r.Ok? ==> r.value.sourceMapping == -1 && r.value.targetMapping == -1 && r.value.resultIndex == 0
  {
    if IsFlat(p) then
      Ok(MakeInstruction(FILTER, pl.equivalentMeasure(p), p.instructionList[0].threshold))
    else if p.filteringInstruction.Some? then
      Ok(MakeInstruction(FILTER, pl.equivalentMeasure(p), p.filteringInstruction.value.threshold))
    else
      Err(MissingFilteringInstruction)
  }

  /** `getBestConjunctivePlan(left, right, selectivity)`: the cheapest of
      the three strategies, ties going to strategy 1 and then to strategy 2;
      whichever wins, the result carries the conjunction's overall
      selectivity and the matching mapping size. */
  function BestPair(pl: Planner, left: NestedPlan, right: NestedPlan, selectivity: real)
    : (r: Result<NestedPlan, PlanError>)
    ensures
      var r1, r2, r3 := RunBothCost(left, right), FilterByRightCost(pl, left, right),
                        FilterByLeftCost(pl, left, right);
      && (r.Ok? ==> r.value.runtimeCost <= r1 && r.value.runtimeCost <= r2 && r.value.runtimeCost <= r3)
      && (r1 <= r2 && r1 <= r3 ==>
            && r.Ok? && r.value.runtimeCost == r1
            && r.value.operator == Some(INTERSECTION)
            && r.value.filteringInstruction == None
            && r.value.subPlans == [left, right])
      && (r2 < r1 && r2 <= r3 ==>
            && (r.Err? <==> !IsFlat(right) && right.filteringInstruction.None?)
            && (r.Ok? ==>
                  && r.value.runtimeCost == r2
                  && r.value.operator == None
                  && r.value.filteringInstruction == Some(AbsorbedFilter(pl, right).value)
                  && r.value.subPlans == [left]))
      && (r3 < r1 && r3 < r2 ==>
            && (r.Err? <==> !IsFlat(left) && left.filteringInstruction.None?)
            && (r.Ok? ==>
                  && r.value.runtimeCost == r3
                  && r.value.operator == None
                  && r.value.filteringInstruction == Some(AbsorbedFilter(pl, left).value)
                  && r.value.subPlans == [right]))
    ensures r.Ok? ==> r.value.selectivity == selectivity && r.value.mappingSize == CrossSize(pl) * selectivity
    ensures r.Ok? ==> r.value.instructionList == pl.freshPlan.instructionList
  {
    var runtime1 := RunBothCost(left, right);
    var runtime2 := FilterByRightCost(pl, left, right);
    var runtime3 := FilterByLeftCost(pl, left, right);
    var min := Min(Min(runtime3, runtime2), runtime1);
    var result := pl.freshPlan.(runtimeCost := min, selectivity := selectivity,
                                mappingSize := CrossSize(pl) * selectivity);
    if min == runtime1 then
      Ok(result.(operator := Some(INTERSECTION), filteringInstruction := None, subPlans := [left, right]))
    else if min == runtime2 then
      match AbsorbedFilter(pl, right)
      case Err(e) => Err(e)
      case Ok(f) => Ok(result.(filteringInstruction := Some(f), operator := None, subPlans := [left]))
    else
      match AbsorbedFilter(pl, left)
      case Err(e) => Err(e)
      case Ok(f) => Ok(result.(filteringInstruction := Some(f), operator := None, subPlans := [right]))
  }

  // ---------------------------------------------------------------------
  // Reduction of an n-ary AND

  /** `getBestConjunctivePlan(plans, selectivity)`. */
  function BestOfList(pl: Planner, plans: seq<NestedPlan>, selectivity: real)
    : (r: Result<NestedPlan, PlanError>)
    ensures |plans| == 0 ==> r == Ok(pl.freshPlan)
    ensures |plans| == 1 ==> r == Ok(plans[0])
    ensures |plans| >= 2 && r.Ok? ==>
      r.value.selectivity == selectivity && r.value.mappingSize == CrossSize(pl) * selectivity
    decreases |plans|, 0
  {
    if |plans| == 0 then Ok(pl.freshPlan)
    else if |plans| == 1 then Ok(plans[0])
    else if |plans| == 2 then BestPair(pl, plans[0], plans[1], selectivity)
    else BestAgainst(pl, plans[0], plans[1..], selectivity)
  }

  /** `getBestConjunctivePlan(left, plans, selectivity)`. */
  function BestAgainst(pl: Planner, left: NestedPlan, plans: seq<NestedPlan>, selectivity: real)
    : (r: Result<NestedPlan, PlanError>)
    ensures |plans| == 0 ==> r == Ok(left)
    ensures |plans| >= 1 && r.Ok? ==>
      r.value.selectivity == selectivity && r.value.mappingSize == CrossSize(pl) * selectivity
    decreases |plans|, 1
  {
    if |plans| == 0 then Ok(left)
    else if |plans| == 1 then BestPair(pl, left, plans[0], selectivity)
    else
      match BestOfList(pl, plans, selectivity)
      case Err(e) => Err(e)
      case Ok(right) => BestPair(pl, left, right, selectivity)
  }

  /** The right-nested shape pair(c1, pair(c2, ... pair(c(n-1), cn))), in
      sibling order. */
  function RightNested(pl: Planner, plans: seq<NestedPlan>, selectivity: real)
    : (r: Result<NestedPlan, PlanError>)
    requires |plans| >= 2
    decreases |plans|
  {
    if |plans| == 2 then BestPair(pl, plans[0], plans[1], selectivity)
    else
      match RightNested(pl, plans[1..], selectivity)
      case Err(e) => Err(e)
      case Ok(rest) => BestPair(pl, plans[0], rest, selectivity)
  }

  /** The reduction of two or more plans nests them to the right, in the
      order given, and never reorders them. */
  lemma {:induction false} ReductionNestsToTheRight(pl: Planner, plans: seq<NestedPlan>, selectivity: real)
    requires |plans| >= 2
    ensures BestOfList(pl, plans, selectivity) == RightNested(pl, plans, selectivity)
    decreases |plans|
  {
    if |plans| > 2 {
      ReductionNestsToTheRight(pl, plans[1..], selectivity);
    }
  }

  /** An inner pair that chose to intersect is neither flat nor filtered,
      so an enclosing pair that then chooses to absorb it as a filter
      throws: reducing three plans fails although each pairing took its
      cheapest strategy. */
  lemma AbsorbingAnIntersectionThrows(pl: Planner, a: NestedPlan, b: NestedPlan, c: NestedPlan, selectivity: real)
    requires RunBothCost(b, c) <= FilterByRightCost(pl, b, c) && RunBothCost(b, c) <= FilterByLeftCost(pl, b, c)
    requires
      var inner := BestPair(pl, b, c, selectivity).value;
      FilterByRightCost(pl, a, inner) < RunBothCost(a, inner) && FilterByRightCost(pl, a, inner) <= FilterByLeftCost(pl, a, inner)
    ensures BestOfList(pl, [a, b, c], selectivity) == Err(MissingFilteringInstruction)
  {
    var inner := BestPair(pl, b, c, selectivity).value;
    assert [a, b, c][1..] == [b, c];
    assert BestOfList(pl, [b, c], selectivity) == Ok(inner);
    assert !IsFlat(inner) && inner.filteringInstruction.None?;
  }

  /** The exception of `AbsorbingAnIntersectionThrows` is reachable: three
      plans of cost 3, filters on a plain measure costing 10 and on a
      composite one costing 1. The inner pair intersects (6 against 13 and
      13) and the outer pair then absorbs it (4 against 9 and 16). */
  lemma ThreePlanConjunctionCanThrow()
    ensures exists pl: Planner, a: NestedPlan, b: NestedPlan, c: NestedPlan ::
      BestOfList(pl, [a, b, c], 0.5) == Err(MissingFilteringInstruction)
  {
    var blank := NestedPlan([], None, None, [], 0.0, 0.0, 1.0);
    var pl := Planner(1, 1, NULL, name => name, (expr, t) => expr,
      (m, x, y, t, l) => 0.0, (m, x, y, t, l) => 0.0,
      (measure, n) => if measure == "x" then 10.0 else 1.0,
      (expr, size) => 0.0,
      (p: NestedPlan) => if p.subPlans == [] then ["x"] else ["y"],
      p => "y",
      blank);
    var leaf := NestedPlan([MakeInstruction(RUN, "x", 0.5)], None, None, [], 3.0, 0.0, 0.5);
    assert FilterCosts(pl, ["x"], FilterInputSize(pl, leaf)) == 10.0;
    var inner := BestPair(pl, leaf, leaf, 0.5).value;
    assert inner.runtimeCost == 6.0 && inner.subPlans == [leaf, leaf];
    assert FilterCosts(pl, ["y"], FilterInputSize(pl, inner)) == 1.0;
    AbsorbingAnIntersectionThrows(pl, leaf, leaf, leaf, 0.5);
  }

  /** The reduction never costs more than running every plan and
      intersecting. */
  lemma ReductionNoCostlierThanRunningAll(pl: Planner, plans: seq<NestedPlan>, selectivity: real)
    requires |plans| >= 1
    ensures BestOfList(pl, plans, selectivity).Ok? ==>
      BestOfList(pl, plans, selectivity).value.runtimeCost <= SumCosts(plans)
  {
    if |plans| == 1 {
      assert plans[..0] == [];
    } else {
      ReductionNestsToTheRight(pl, plans, selectivity);
      RightNestedNoCostlierThanRunningAll(pl, plans, selectivity);
    }
  }

  lemma {:induction false} RightNestedNoCostlierThanRunningAll(pl: Planner, plans: seq<NestedPlan>, selectivity: real)
    requires |plans| >= 2
    ensures RightNested(pl, plans, selectivity).Ok? ==>
      RightNested(pl, plans, selectivity).value.runtimeCost <= SumCosts(plans)
    decreases |plans|
  {
    SumCostsCons(plans);
    if |plans| == 2 {
      SumCostsCons(plans[1..]);
      assert plans[1..][1..] == [];
    } else {
      RightNestedNoCostlierThanRunningAll(pl, plans[1..], selectivity);
    }
  }

  /** With non-negative costs everywhere, a pair costs nothing negative. */
  lemma PairCostNonNegative(pl: Planner, left: NestedPlan, right: NestedPlan, selectivity: real)
    requires NonNegativeCosts(pl) && left.runtimeCost >= 0.0 && right.runtimeCost >= 0.0
    ensures BestPair(pl, left, right, selectivity).Ok? ==>
      BestPair(pl, left, right, selectivity).value.runtimeCost >= 0.0
  {
    FilterCostsNonNegative(pl, pl.allMeasures(right), FilterInputSize(pl, right));
    FilterCostsNonNegative(pl, pl.allMeasures(left), FilterInputSize(pl, left));
  }

  /** With non-negative costs everywhere, the reduction of a non-empty list
      costs nothing negative. */
  lemma ReductionCostNonNegative(pl: Planner, plans: seq<NestedPlan>, selectivity: real)
    requires NonNegativeCosts(pl) && |plans| >= 1
    requires forall i :: 0 <= i < |plans| ==> plans[i].runtimeCost >= 0.0
    ensures BestOfList(pl, plans, selectivity).Ok? ==>
      BestOfList(pl, plans, selectivity).value.runtimeCost >= 0.0
  {
    if |plans| >= 2 {
      ReductionNestsToTheRight(pl, plans, selectivity);
      RightNestedCostNonNegative(pl, plans, selectivity);
    }
  }

  lemma {:induction false} RightNestedCostNonNegative(pl: Planner, plans: seq<NestedPlan>, selectivity: real)
    requires NonNegativeCosts(pl) && |plans| >= 2
    requires forall i :: 0 <= i < |plans| ==> plans[i].runtimeCost >= 0.0
    ensures RightNested(pl, plans, selectivity).Ok? ==>
      RightNested(pl, plans, selectivity).value.runtimeCost >= 0.0
    decreases |plans|
  {
    if |plans| == 2 {
      PairCostNonNegative(pl, plans[0], plans[1], selectivity);
    } else {
      RightNestedCostNonNegative(pl, plans[1..], selectivity);
      var rest := RightNested(pl, plans[1..], selectivity);
      if rest.Ok? {
        PairCostNonNegative(pl, plans[0], rest.value, selectivity);
      }
    }
  }

  // ---------------------------------------------------------------------
  // The list overloads as the source runs them

  /** The `List<NestedPlan>` handed to the list overload, which shortens it
      in place. */
  class PlanList {
    var items: seq<NestedPlan>

    constructor (items: seq<NestedPlan>)
      ensures this.items == items
    {
      this.items := items;
    }
  }

  /** What the reduction leaves in the caller's list: the last two plans of
      a list of two or more, a shorter list unchanged. */
  function Survivors(plans: seq<NestedPlan>): (rest: seq<NestedPlan>) {
    if |plans| >= 2 then plans[|plans| - 2..] else plans
  }

  /** `getBestConjunctivePlan(plans, selectivity)`, removing the head of the
      caller's list before recursing: the list loses its first n - 2
      elements and nothing else. */
  method BestConjunctivePlanOfList(pl: Planner, plans: PlanList, selectivity: real)
    returns (r: Result<NestedPlan, PlanError>)
    modifies plans
    ensures r == BestOfList(pl, old(plans.items), selectivity)
    ensures plans.items == Survivors(old(plans.items))
    decreases |plans.items|, 0
  {
    if |plans.items| == 0 {
      return Ok(pl.freshPlan);
    }
    if |plans.items| == 1 {
      return Ok(plans.items[0]);
    }
    if |plans.items| == 2 {
      assert plans.items[0..] == plans.items;
      return BestPair(pl, plans.items[0], plans.items[1], selectivity);
    }
    var left := plans.items[0];
    plans.items := plans.items[1..];
    r := BestConjunctivePlanAgainst(pl, left, plans, selectivity);
  }

  /** `getBestConjunctivePlan(left, plans, selectivity)` on the caller's list. */
  method BestConjunctivePlanAgainst(pl: Planner, left: NestedPlan, plans: PlanList, selectivity: real)
    returns (r: Result<NestedPlan, PlanError>)
    modifies plans
    ensures r == BestAgainst(pl, left, old(plans.items), selectivity)
    ensures plans.items == Survivors(old(plans.items))
    decreases |plans.items|, 1
  {
    if |plans.items| == 0 {
      return Ok(left);
    }
    if |plans.items| == 1 {
      return BestPair(pl, left, plans.items[0], selectivity);
    }
    var right := BestConjunctivePlanOfList(pl, plans, selectivity);
    if right.Err? {
      return Err(right.error);
    }
    r := BestPair(pl, left, right.value, selectivity);
  }
}
