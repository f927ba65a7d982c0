/** `HeliosPlanner.plan`: the recursive construction of a plan for a link
    specification, as a specification function (`PlanOf`) and as the
    source's step-by-step method (`Plan`), with what they guarantee. */
module Helios {
  import opened Wrappers
  import opened LinkSpecs
  import opened Plans
  import opened Estimates
  import opened Selectivity
  import opened Conjunction

  // ---------------------------------------------------------------------
  // Atomic specifications

  /** The plan of an atomic specification: one RUN instruction, the
      runtime and size estimates for the measure the parser extracts, and
      the size as a fraction of the cross product. */
  function AtomicPlan(pl: Planner, s: LinkSpec): (p: NestedPlan)
    requires PositiveSizes(pl)
    ensures p.instructionList == [MakeInstruction(RUN, s.filterExpression, s.threshold)]
    ensures pl.freshPlan.subPlans == [] ==> IsFlat(p)
    ensures p.selectivity * CrossSize(pl) == p.mappingSize
    ensures p.subPlans == pl.freshPlan.subPlans
    ensures p.runtimeCost ==
      AtomicRuntimeCosts(pl, pl.parserOperator(s.filterExpression, s.threshold), s.threshold)
    ensures p.mappingSize ==
      AtomicMappingSizes(pl, pl.parserOperator(s.filterExpression, s.threshold), s.threshold)
    ensures SizesWithinCrossProduct(pl) ==> 0.0 <= p.selectivity <= 1.0
  {
    var measure := pl.parserOperator(s.filterExpression, s.threshold);
    var size := AtomicMappingSizes(pl, measure, s.threshold);
    assert CrossSize(pl) > 0.0 by {
      assert pl.sourceSize * pl.targetSize > 0;
    }
    assert SizesWithinCrossProduct(pl) ==> 0.0 <= size / CrossSize(pl) <= 1.0 by {
      if SizesWithinCrossProduct(pl) {
        FractionIsProbability(size, CrossSize(pl));
      }
    }
    pl.freshPlan.(
      instructionList := [MakeInstruction(RUN, s.filterExpression, s.threshold)],
      runtimeCost := AtomicRuntimeCosts(pl, measure, s.threshold),
      mappingSize := size,
      selectivity := size / CrossSize(pl))
  }

  /** A size no larger than a positive whole is a fraction of it in [0, 1]. */
  lemma FractionIsProbability(part: real, whole: real)
    requires whole > 0.0 && 0.0 <= part <= whole
    ensures 0.0 <= part / whole <= 1.0
  {
    assert part / whole * whole == part;
  }

  // ---------------------------------------------------------------------
  // OR, MINUS and XOR

  /** The plan operator for a non-AND specification operator. */
  function OperatorCommand(op: Operator): (c: Command)
    requires op != AND
  {
    if op == OR then UNION else if op == MINUS then DIFF else Command.XOR
  }

  /** The selectivity of an OR, MINUS or XOR node. */
  function CombinedSelectivity(op: Operator, xs: seq<real>): (sel: real)
    requires op != AND && |xs| >= 1
  {
    if op == OR then OrSelectivity(xs)
    else if op == MINUS then MinusSelectivity(xs)
    else XorSelectivity(xs)
  }

  /** The loop's running `selectivity` once child k has been folded in:
      it starts from child 0 (its complement for OR) and each later child
      multiplies in its complement (OR, MINUS) or applies one XOR step. */
  function RunningSelectivity(op: Operator, xs: seq<real>, k: nat): (sel: real)
    requires op != AND && k < |xs|
  {
    if k == 0 then (if op == OR then 1.0 - xs[0] else xs[0])
    else if op == Operator.XOR then XorStep(RunningSelectivity(op, xs, k - 1), xs[k])
    else RunningSelectivity(op, xs, k - 1) * (1.0 - xs[k])
  }

  /** The candidate-set size the loop hands to `MeasureProcessor.getCosts`:
      the union part for OR and MINUS, the running XOR part for XOR. */
  function AccrualInputSize(pl: Planner, op: Operator, running: real): (size: real) {
    if op == Operator.XOR then CrossSize(pl) * running else CrossSize(pl) * (1.0 - running)
  }

  /** The filter costs the loop adds for children 1 .. k-1 when the plan
      already carries a filtering instruction with expression `expr`. */
  function FilterAccrual(pl: Planner, op: Operator, expr: string, xs: seq<real>, k: nat): (cost: real)
    requires op != AND && 1 <= k <= |xs|
  {
    if k == 1 then 0.0
    else FilterAccrual(pl, op, expr, xs, k - 1)
         + pl.processorCost(expr, AccrualInputSize(pl, op, RunningSelectivity(op, xs, k - 1)))
  }

  /** The guarded additions: they happen only if the plan being built
      already has a filtering instruction, as a fresh plan might; the node's
      own FILTER is attached only after the loop. */
  function GuardedAccrual(pl: Planner, filtering: Option<Instruction>, op: Operator, xs: seq<real>, k: nat): (cost: real)
    requires op != AND && 1 <= k <= |xs|
  {
    match filtering
    case None => 0.0
    case Some(f) => FilterAccrual(pl, op, f.measureExpression, xs, k)
  }

  lemma {:induction false} FilterAccrualNonNegative(pl: Planner, op: Operator, expr: string, xs: seq<real>, k: nat)
    requires NonNegativeCosts(pl) && op != AND && 1 <= k <= |xs|
    ensures FilterAccrual(pl, op, expr, xs, k) >= 0.0
    decreases k
  {
    if k > 1 {
      FilterAccrualNonNegative(pl, op, expr, xs, k - 1);
    }
  }

  /** The OR loop's running value is the product of the complements of
      the children so far. */
  lemma {:induction false} OrRunningClosedForm(xs: seq<real>, k: nat)
    requires k < |xs|
    ensures RunningSelectivity(OR, xs, k) == ComplementProduct(xs[..k + 1])
    decreases k
  {
    if k == 0 {
      assert xs[..1] == [] + [xs[0]];
      ComplementProductAppend([], xs[0]);
    } else {
      OrRunningClosedForm(xs, k - 1);
      assert xs[..k + 1] == xs[..k] + [xs[k]];
      ComplementProductAppend(xs[..k], xs[k]);
    }
  }

  /** The MINUS loop's running value is child 0's selectivity times the
      complements of the later children so far. */
  lemma {:induction false} MinusRunningClosedForm(xs: seq<real>, k: nat)
    requires k < |xs|
    ensures RunningSelectivity(MINUS, xs, k) == xs[0] * ComplementProduct(xs[1..k + 1])
    decreases k
  {
    if k == 0 {
      assert xs[1..1] == [];
    } else {
      MinusRunningClosedForm(xs, k - 1);
      assert xs[1..k + 1] == xs[1..k] + [xs[k]];
      ComplementProductAppend(xs[1..k], xs[k]);
      SwapFactors(xs[0], ComplementProduct(xs[1..k]), 1.0 - xs[k]);
    }
  }

  lemma SwapFactors(a: real, b: real, c: real)
    ensures (a * b) * c == a * (b * c)
  {
  }

  /** The XOR loop's running value is the XOR fold of the children so far. */
  lemma {:induction false} XorRunningClosedForm(xs: seq<real>, k: nat)
    requires k < |xs|
    ensures RunningSelectivity(Operator.XOR, xs, k) == XorSelectivity(xs[..k + 1])
    decreases k
  {
    if k > 0 {
      XorRunningClosedForm(xs, k - 1);
      assert xs[..k + 1][..k] == xs[..k];
    }
  }

  /** After the last child the running selectivity gives the node's. */
  lemma RunningSelectivityLast(op: Operator, xs: seq<real>)
    requires op != AND && |xs| >= 1
    ensures CombinedSelectivity(op, xs) ==
      (if op == OR then 1.0 - RunningSelectivity(op, xs, |xs| - 1) else RunningSelectivity(op, xs, |xs| - 1))
  {
    assert xs[..|xs|] == xs;
    assert xs[1..|xs|] == xs[1..];
    if op == OR {
      OrRunningClosedForm(xs, |xs| - 1);
    } else if op == MINUS {
      MinusRunningClosedForm(xs, |xs| - 1);
    } else {
      XorRunningClosedForm(xs, |xs| - 1);
    }
  }

  /** One more child adds one guarded filter cost, computed from the
      running selectivity after that child. */
  lemma GuardedAccrualStep(pl: Planner, filtering: Option<Instruction>, op: Operator, xs: seq<real>, j: nat, running: real)
    requires op != AND && 1 <= j < |xs| && running == RunningSelectivity(op, xs, j)
    ensures filtering.None? ==>
      GuardedAccrual(pl, filtering, op, xs, j + 1) == GuardedAccrual(pl, filtering, op, xs, j)
    ensures filtering.Some? && op != Operator.XOR ==>
      GuardedAccrual(pl, filtering, op, xs, j + 1) == GuardedAccrual(pl, filtering, op, xs, j)
        + pl.processorCost(filtering.value.measureExpression, CrossSize(pl) * (1.0 - running))
    ensures filtering.Some? && op == Operator.XOR ==>
      GuardedAccrual(pl, filtering, op, xs, j + 1) == GuardedAccrual(pl, filtering, op, xs, j)
        + pl.processorCost(filtering.value.measureExpression, CrossSize(pl) * running)
  {
    match filtering
    case None =>
    case Some(f) =>
      assert FilterAccrual(pl, op, f.measureExpression, xs, j + 1) ==
        FilterAccrual(pl, op, f.measureExpression, xs, j)
        + pl.processorCost(f.measureExpression, AccrualInputSize(pl, op, running));
      assert AccrualInputSize(pl, op, running) ==
        if op == Operator.XOR then CrossSize(pl) * running else CrossSize(pl) * (1.0 - running);
  }

  /** OR, MINUS and XOR of probabilities are probabilities. */
  lemma CombinedSelectivityIsProbability(op: Operator, xs: seq<real>)
    requires op != AND && |xs| >= 1 && AllProbabilities(xs)
    ensures 0.0 <= CombinedSelectivity(op, xs) <= 1.0
  {
    if op == OR {
      OrIsProbability(xs);
    } else if op == MINUS {
      MinusIsProbability(xs);
    } else {
      XorIsProbability(xs);
    }
  }

  /** The plan of an OR, MINUS or XOR node over its children's plans: the
      children as sub-plans in order, the operator, the node's own FILTER,
      and, when a fresh plan has no filtering instruction, the first child's
      cost for OR and the children's costs plus one per extra child for
      MINUS and XOR. */
  function CombinedPlan(pl: Planner, s: LinkSpec, children: seq<NestedPlan>): (p: NestedPlan)
    requires s.op != AND && |children| >= 1
    ensures p.subPlans == children
    ensures p.operator == Some(OperatorCommand(s.op))
    ensures p.filteringInstruction == Some(MakeInstruction(FILTER, s.filterExpression, s.threshold))
    ensures pl.freshPlan.filteringInstruction.None? ==>
      p.runtimeCost == if s.op == OR then children[0].runtimeCost
                       else SumCosts(children) + (|children| - 1) as real
  {
    var xs := Selectivities(children);
    var cost := if s.op == OR then children[0].runtimeCost
                else SumCosts(children) + (|children| - 1) as real;
    pl.freshPlan.(
      runtimeCost := cost + GuardedAccrual(pl, pl.freshPlan.filteringInstruction, s.op, xs, |xs|),
      subPlans := children,
      operator := Some(OperatorCommand(s.op)),
      selectivity := CombinedSelectivity(s.op, xs),
      filteringInstruction := Some(MakeInstruction(FILTER, s.filterExpression, s.threshold)))
  }

  // ---------------------------------------------------------------------
  // The whole tree

  /** `plan(spec)`: the plan of a specification, or the exception a
      pairwise combination throws. */
  function PlanOf(pl: Planner, s: LinkSpec): (r: Result<NestedPlan, PlanError>)
    requires PositiveSizes(pl)
    decreases s, 1
  {
    if s.IsAtomic() then Ok(AtomicPlan(pl, s))
    else
      match PlansOfChildren(pl, s, |s.children|)
      case Err(e) => Err(e)
      case Ok(children) =>
        if s.op == AND then BestOfList(pl, children, Product(Selectivities(children)))
        else Ok(CombinedPlan(pl, s, children))
  }

  /** The plans of the first n children, in specification order; the first
      child whose planning throws decides the outcome. */
  function PlansOfChildren(pl: Planner, s: LinkSpec, n: nat): (r: Result<seq<NestedPlan>, PlanError>)
    requires PositiveSizes(pl) && n <= |s.children|
    ensures r.Ok? ==> |r.value| == n
    decreases s, 0, n
  {
    if n == 0 then Ok([])
    else
      match PlansOfChildren(pl, s, n - 1)
      case Err(e) => Err(e)
      case Ok(plans) =>
        match PlanOf(pl, s.children[n - 1])
        case Err(e) => Err(e)
        case Ok(p) => Ok(plans + [p])
  }

  /** The children's plans come out in specification order: the i-th
      plan is the plan of the i-th child. */
  lemma {:induction false} ChildPlanAt(pl: Planner, s: LinkSpec, n: nat, i: nat)
    requires PositiveSizes(pl) && i < n <= |s.children|
    requires PlansOfChildren(pl, s, n).Ok?
    ensures PlanOf(pl, s.children[i]) == Ok(PlansOfChildren(pl, s, n).value[i])
    decreases n
  {
    var prev := PlansOfChildren(pl, s, n - 1);
    assert prev.Ok?;
    if i < n - 1 {
      ChildPlanAt(pl, s, n - 1, i);
      assert PlansOfChildren(pl, s, n).value[i] == prev.value[i];
    }
  }

  /** A child whose planning throws makes the planning of the node throw. */
  lemma {:induction false} ChildErrorAt(pl: Planner, s: LinkSpec, n: nat, i: nat)
    requires PositiveSizes(pl) && i < n <= |s.children|
    requires PlanOf(pl, s.children[i]).Err?
    ensures PlansOfChildren(pl, s, n).Err?
    decreases n
  {
    if i < n - 1 {
      ChildErrorAt(pl, s, n - 1, i);
    }
  }

  /** A failed planning of the children has a child that threw, and the
      error is that child's. */
  lemma {:induction false} ErrorHasCause(pl: Planner, s: LinkSpec, n: nat) returns (i: nat)
    requires PositiveSizes(pl) && n <= |s.children|
    requires PlansOfChildren(pl, s, n).Err?
    ensures i < n && PlanOf(pl, s.children[i]) == Err(PlansOfChildren(pl, s, n).error)
    decreases n
  {
    if PlansOfChildren(pl, s, n - 1).Err? {
      i := ErrorHasCause(pl, s, n - 1);
    } else {
      i := n - 1;
    }
  }

  /** Once a child has thrown, planning the following children changes
      nothing. */
  lemma {:induction false} ChildErrorPersists(pl: Planner, s: LinkSpec, m: nat, n: nat)
    requires PositiveSizes(pl) && m <= n <= |s.children|
    requires PlansOfChildren(pl, s, m).Err?
    ensures PlansOfChildren(pl, s, n) == PlansOfChildren(pl, s, m)
    decreases n - m
  {
    if m < n {
      ChildErrorPersists(pl, s, m, n - 1);
    }
  }

  /** An OR, MINUS or XOR plan has the children's plans as sub-plans, one
      per child and in specification order. */
  lemma NonConjunctiveKeepsChildOrder(pl: Planner, s: LinkSpec)
    requires PositiveSizes(pl) && !s.IsAtomic() && s.op != AND
    requires PlanOf(pl, s).Ok?
    ensures |PlanOf(pl, s).value.subPlans| == |s.children|
    ensures forall i :: 0 <= i < |s.children| ==>
      PlanOf(pl, s.children[i]) == Ok(PlanOf(pl, s).value.subPlans[i])
  {
    var n := |s.children|;
    assert PlansOfChildren(pl, s, n).Ok?;
    forall i | 0 <= i < n
      ensures PlanOf(pl, s.children[i]) == Ok(PlanOf(pl, s).value.subPlans[i])
    {
      ChildPlanAt(pl, s, n, i);
    }
  }

  /** Planning an OR, MINUS or XOR node throws exactly when planning one of
      its children throws. */
  lemma NonConjunctiveFailsIffChildFails(pl: Planner, s: LinkSpec)
    requires PositiveSizes(pl) && !s.IsAtomic() && s.op != AND
    ensures PlanOf(pl, s).Err? <==>
      exists i :: 0 <= i < |s.children| && PlanOf(pl, s.children[i]).Err?
  {
    var n := |s.children|;
    if PlansOfChildren(pl, s, n).Err? {
      var i := ErrorHasCause(pl, s, n);
    }
    if exists i :: 0 <= i < n && PlanOf(pl, s.children[i]).Err? {
      var i :| 0 <= i < n && PlanOf(pl, s.children[i]).Err?;
      ChildErrorAt(pl, s, n, i);
    }
  }

  /** A composite AND hands its children's plans, in order, and the product
      of their selectivities to the list reduction. */
  lemma ConjunctionReducesChildPlans(pl: Planner, s: LinkSpec, plans: seq<NestedPlan>)
    requires PositiveSizes(pl) && s.op == AND && !s.IsAtomic()
    requires PlansOfChildren(pl, s, |s.children|) == Ok(plans)
    ensures |plans| == |s.children|
    ensures forall i :: 0 <= i < |s.children| ==> PlanOf(pl, s.children[i]) == Ok(plans[i])
    ensures PlanOf(pl, s) == BestOfList(pl, plans, Product(Selectivities(plans)))
  {
    forall i | 0 <= i < |s.children|
      ensures PlanOf(pl, s.children[i]) == Ok(plans[i])
    {
      ChildPlanAt(pl, s, |s.children|, i);
    }
  }

  /** An AND node carries the product of its children's selectivities,
      whichever strategy each pairing picks. */
  lemma ConjunctionSelectivity(pl: Planner, s: LinkSpec, plans: seq<NestedPlan>, p: NestedPlan)
    requires PositiveSizes(pl) && s.op == AND && !s.IsAtomic()
    requires PlansOfChildren(pl, s, |s.children|) == Ok(plans)
    requires PlanOf(pl, s) == Ok(p)
    ensures p.selectivity == Product(Selectivities(plans))
  {
    ConjunctionReducesChildPlans(pl, s, plans);
    if |plans| == 1 {
      assert Selectivities(plans) == [] + [p.selectivity];
      ProductAppend([], p.selectivity);
    }
  }

  /** An AND over two or more children is the right-nested pairing
      pair(c1, pair(c2, ... pair(c(n-1), cn))) of the children's plans, in
      specification order. */
  lemma ConjunctionNestsChildPlans(pl: Planner, s: LinkSpec, plans: seq<NestedPlan>)
    requires PositiveSizes(pl) && s.op == AND && |s.children| >= 2
    requires PlansOfChildren(pl, s, |s.children|) == Ok(plans)
    ensures PlanOf(pl, s) == RightNested(pl, plans, Product(Selectivities(plans)))
  {
    ConjunctionReducesChildPlans(pl, s, plans);
    ReductionNestsToTheRight(pl, plans, Product(Selectivities(plans)));
  }

  /** With non-negative estimates, every plan costs nothing negative. */
  lemma {:induction false} PlanCostNonNegative(pl: Planner, s: LinkSpec)
    requires PositiveSizes(pl) && NonNegativeCosts(pl)
    ensures PlanOf(pl, s).Ok? ==> PlanOf(pl, s).value.runtimeCost >= 0.0
    decreases s
  {
    if !s.IsAtomic() && PlansOfChildren(pl, s, |s.children|).Ok? {
      var n := |s.children|;
      var plans := PlansOfChildren(pl, s, n).value;
      forall i | 0 <= i < n
        ensures plans[i].runtimeCost >= 0.0
      {
        ChildPlanAt(pl, s, n, i);
        PlanCostNonNegative(pl, s.children[i]);
      }
      if s.op == AND {
        ReductionCostNonNegative(pl, plans, Product(Selectivities(plans)));
      } else {
        SumCostsNonNegative(plans);
        match pl.freshPlan.filteringInstruction
        case None =>
        case Some(f) =>
          FilterAccrualNonNegative(pl, s.op, f.measureExpression, Selectivities(plans), n);
      }
    }
  }

  /** With mapping-size estimates within the cross product, every plan's
      selectivity is a probability. */
  lemma {:induction false} PlanSelectivityIsProbability(pl: Planner, s: LinkSpec)
    requires PositiveSizes(pl) && SizesWithinCrossProduct(pl)
    ensures PlanOf(pl, s).Ok? ==> 0.0 <= PlanOf(pl, s).value.selectivity <= 1.0
    decreases s
  {
    if !s.IsAtomic() && PlansOfChildren(pl, s, |s.children|).Ok? {
      var n := |s.children|;
      var plans := PlansOfChildren(pl, s, n).value;
      forall i | 0 <= i < n
        ensures 0.0 <= plans[i].selectivity <= 1.0
      {
        ChildPlanAt(pl, s, n, i);
        PlanSelectivityIsProbability(pl, s.children[i]);
      }
      assert AllProbabilities(Selectivities(plans));
      if s.op == AND {
        ProductIsProbability(Selectivities(plans));
      } else {
        CombinedSelectivityIsProbability(s.op, Selectivities(plans));
      }
    }
  }

  // ---------------------------------------------------------------------
  // The loops of the OR, MINUS and XOR branches

  /** The OR loop of `plan`: operator UNION, the cost reset to the first
      child's, the guarded filter costs, and selectivity 1 - prod(1 - sel_i). */
  method FoldUnion(pl: Planner, children: seq<NestedPlan>, plan0: NestedPlan) returns (plan: NestedPlan)
    requires |children| >= 1
    ensures plan == plan0.(
      operator := Some(UNION),
      runtimeCost := children[0].runtimeCost
        + GuardedAccrual(pl, plan0.filteringInstruction, OR, Selectivities(children), |children|),
      selectivity := OrSelectivity(Selectivities(children)))
  {
    ghost var xs := Selectivities(children);
    plan := plan0.(operator := Some(UNION));
    var selectivity := 1.0 - children[0].selectivity;
    plan := plan.(runtimeCost := children[0].runtimeCost);
    var i := 1;
    while i < |children|
      invariant 1 <= i <= |children|
      invariant selectivity == RunningSelectivity(OR, xs, i - 1)
      invariant plan == plan0.(operator := Some(UNION), runtimeCost := plan.runtimeCost)
      invariant plan.runtimeCost == children[0].runtimeCost + GuardedAccrual(pl, plan0.filteringInstruction, OR, xs, i)
    {
      selectivity := selectivity * (1.0 - children[i].selectivity);
      GuardedAccrualStep(pl, plan0.filteringInstruction, OR, xs, i, selectivity);
      if plan.filteringInstruction.Some? {
        plan := plan.(runtimeCost := plan.runtimeCost
          + pl.processorCost(plan.filteringInstruction.value.measureExpression,
                             CrossSize(pl) * (1.0 - selectivity)));
      }
      i := i + 1;
    }
    RunningSelectivityLast(OR, xs);
    assert i == |xs| && 1.0 - selectivity == OrSelectivity(xs);
    plan := plan.(selectivity := 1.0 - selectivity);
  }

  /** The MINUS loop of `plan`: operator DIFF, the guarded filter costs on
      top of the cost so far, and selectivity sel_0 * prod_{i>=1}(1 - sel_i). */
  method FoldDifference(pl: Planner, children: seq<NestedPlan>, plan0: NestedPlan) returns (plan: NestedPlan)
    requires |children| >= 1
    ensures plan == plan0.(
      operator := Some(DIFF),
      runtimeCost := plan0.runtimeCost
        + GuardedAccrual(pl, plan0.filteringInstruction, MINUS, Selectivities(children), |children|),
      selectivity := MinusSelectivity(Selectivities(children)))
  {
    ghost var xs := Selectivities(children);
    plan := plan0.(operator := Some(DIFF));
    var selectivity := children[0].selectivity;
    var i := 1;
    while i < |children|
      invariant 1 <= i <= |children|
      invariant selectivity == RunningSelectivity(MINUS, xs, i - 1)
      invariant plan == plan0.(operator := Some(DIFF), runtimeCost := plan.runtimeCost)
      invariant plan.runtimeCost == plan0.runtimeCost + GuardedAccrual(pl, plan0.filteringInstruction, MINUS, xs, i)
    {
      selectivity := selectivity * (1.0 - children[i].selectivity);
      GuardedAccrualStep(pl, plan0.filteringInstruction, MINUS, xs, i, selectivity);
      if plan.filteringInstruction.Some? {
        plan := plan.(runtimeCost := plan.runtimeCost
          + pl.processorCost(plan.filteringInstruction.value.measureExpression,
                             CrossSize(pl) * (1.0 - selectivity)));
      }
      i := i + 1;
    }
    RunningSelectivityLast(MINUS, xs);
    assert i == |xs| && selectivity == MinusSelectivity(xs);
    plan := plan.(selectivity := selectivity);
  }

  /** The XOR loop of `plan`: operator XOR, the guarded filter costs on top
      of the cost so far, and the XOR step folded from sel_0. */
  method FoldXor(pl: Planner, children: seq<NestedPlan>, plan0: NestedPlan) returns (plan: NestedPlan)
    requires |children| >= 1
    ensures plan == plan0.(
      operator := Some(Command.XOR),
      runtimeCost := plan0.runtimeCost
        + GuardedAccrual(pl, plan0.filteringInstruction, Operator.XOR, Selectivities(children), |children|),
      selectivity := XorSelectivity(Selectivities(children)))
  {
    ghost var xs := Selectivities(children);
    plan := plan0.(operator := Some(Command.XOR));
    var selectivity := children[0].selectivity;
    var i := 1;
    while i < |children|
      invariant 1 <= i <= |children|
      invariant selectivity == RunningSelectivity(Operator.XOR, xs, i - 1)
      invariant plan == plan0.(operator := Some(Command.XOR), runtimeCost := plan.runtimeCost)
      invariant plan.runtimeCost == plan0.runtimeCost + GuardedAccrual(pl, plan0.filteringInstruction, Operator.XOR, xs, i)
    {
      selectivity := (1.0 - (1.0 - selectivity) * (1.0 - children[i].selectivity))
                     * (1.0 - selectivity * children[i].selectivity);
      GuardedAccrualStep(pl, plan0.filteringInstruction, Operator.XOR, xs, i, selectivity);
      if plan.filteringInstruction.Some? {
        plan := plan.(runtimeCost := plan.runtimeCost
          + pl.processorCost(plan.filteringInstruction.value.measureExpression,
                             CrossSize(pl) * selectivity));
      }
      i := i + 1;
    }
    RunningSelectivityLast(Operator.XOR, xs);
    assert i == |xs| && selectivity == XorSelectivity(xs);
    plan := plan.(selectivity := selectivity);
  }

  // ---------------------------------------------------------------------
  // The method as the source runs it

  /** The atomic branch of `plan`: one RUN instruction, the estimated
      runtime and mapping size, and their ratio to |S| * |T| as selectivity. */
  method PlanAtomic(pl: Planner, s: LinkSpec) returns (plan: NestedPlan)
    requires PositiveSizes(pl) && s.IsAtomic()
    ensures plan == AtomicPlan(pl, s)
  {
    var measure := pl.parserOperator(s.filterExpression, s.threshold);
    plan := pl.freshPlan;
    plan := plan.(instructionList := []);
    plan := plan.(instructionList := plan.instructionList
                    + [MakeInstruction(RUN, s.filterExpression, s.threshold)]);
    plan := plan.(runtimeCost := AtomicRuntimeCosts(pl, measure, s.threshold));
    var size := GetAtomicMappingSizes(pl, measure, s.threshold);
    plan := plan.(mappingSize := size);
    assert CrossSize(pl) > 0.0 by {
      assert pl.sourceSize * pl.targetSize > 0;
    }
    plan := plan.(selectivity := plan.mappingSize / CrossSize(pl));
    assert plan.instructionList == AtomicPlan(pl, s).instructionList;
  }

  /** Appending one plan adds its cost to the sum and its selectivity to
      the end of the list of selectivities. */
  lemma AppendOnePlan(ps: seq<NestedPlan>, p: NestedPlan)
    ensures SumCosts(ps + [p]) == SumCosts(ps) + p.runtimeCost
    ensures Selectivities(ps + [p]) == Selectivities(ps) + [p.selectivity]
  {
    assert (ps + [p])[..|ps|] == ps;
  }

  /** The loop over the children shared by both composite branches of
      `plan`: each child is planned in order and their costs are summed. */
  method PlanChildren(pl: Planner, s: LinkSpec) returns (r: Result<seq<NestedPlan>, PlanError>, cost: real)
    requires PositiveSizes(pl)
    ensures r == PlansOfChildren(pl, s, |s.children|)
    ensures r.Ok? ==> cost == SumCosts(r.value)
    decreases s, 0
  {
    var children: seq<NestedPlan> := [];
    cost := 0.0;
    var i := 0;
    while i < |s.children|
      invariant 0 <= i <= |s.children|
      invariant PlansOfChildren(pl, s, i) == Ok(children)
      invariant cost == SumCosts(children)
    {
      var childPlan := Plan(pl, s.children[i]);
      if childPlan.Err? {
        ChildErrorPersists(pl, s, i + 1, |s.children|);
        return Err(childPlan.error), cost;
      }
      assert (children + [childPlan.value])[..|children|] == children;
      AppendOnePlan(children, childPlan.value);
      children := children + [childPlan.value];
      cost := cost + childPlan.value.runtimeCost;
      i := i + 1;
    }
    r := Ok(children);
  }

  /** One more child multiplies its selectivity into the product of the
      selectivities of the children before it. */
  lemma ProductOfPrefix(children: seq<NestedPlan>, i: nat)
    requires i < |children|
    ensures Product(Selectivities(children[..i + 1]))
         == Product(Selectivities(children[..i])) * children[i].selectivity
  {
    assert children[..i + 1] == children[..i] + [children[i]];
    AppendOnePlan(children[..i], children[i]);
    ProductAppend(Selectivities(children[..i]), children[i].selectivity);
  }

  /** The running product of the children's selectivities that the AND
      branch of `plan` keeps. */
  method MultiplySelectivities(children: seq<NestedPlan>) returns (selectivity: real)
    ensures selectivity == Product(Selectivities(children))
  {
    selectivity := 1.0;
    var i := 0;
    while i < |children|
      invariant 0 <= i <= |children|
      invariant selectivity == Product(Selectivities(children[..i]))
    {
      ProductOfPrefix(children, i);
      selectivity := selectivity * children[i].selectivity;
      i := i + 1;
    }
    assert children[..i] == children;
  }

  /** The OR, MINUS and XOR branch of `plan` after the children's loop:
      the summed cost plus one per extra child, the children as sub-plans,
      the operator's loop, and the node's own FILTER instruction. */
  method PlanCombination(pl: Planner, s: LinkSpec, children: seq<NestedPlan>, cost: real) returns (plan: NestedPlan)
    requires s.op != AND && |children| >= 1 && cost == SumCosts(children)
    ensures plan == CombinedPlan(pl, s, children)
  {
    plan := pl.freshPlan.(runtimeCost := cost + (|children| - 1) as real);
    plan := plan.(subPlans := children);
    if s.op == OR {
      plan := FoldUnion(pl, children, plan);
    } else if s.op == MINUS {
      plan := FoldDifference(pl, children, plan);
    } else {
      plan := FoldXor(pl, children, plan);
    }
    plan := plan.(filteringInstruction := Some(MakeInstruction(FILTER, s.filterExpression, s.threshold)));
  }

  /** `plan(spec, source, target, ...)`: builds the plan through updates of
      a fresh plan, with the source's loops. */
  method Plan(pl: Planner, s: LinkSpec) returns (r: Result<NestedPlan, PlanError>)
    requires PositiveSizes(pl)
    ensures r == PlanOf(pl, s)
    decreases s, 1
  {
    if s.IsAtomic() {
      var plan := PlanAtomic(pl, s);
      return Ok(plan);
    }
    var children, cost := PlanChildren(pl, s);
    if children.Err? {
      return Err(children.error);
    }
    if s.op != AND {
      var plan := PlanCombination(pl, s, children.value, cost);
      return Ok(plan);
    } else {
      var selectivity := MultiplySelectivities(children.value);
      var list := new PlanList(children.value);
      r := BestConjunctivePlanOfList(pl, list, selectivity);
    }
  }
}
