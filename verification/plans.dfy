/** The output of the planner: `Instruction` and `NestedPlan`. */
module Plans {
  import opened Wrappers

  /** The instruction commands and plan operators the planner emits. */
  datatype Command = RUN | FILTER | UNION | DIFF | XOR | INTERSECTION

  /** One execution step. The last three fields are the positional indices
      the planner always fills with -1, -1 and 0. The threshold is kept as
      the number the source turns into a string. */
  datatype Instruction = Instruction(
    command: Command,
    measureExpression: string,
    threshold: real,
    sourceMapping: int,
    targetMapping: int,
    resultIndex: int)

  /** The instruction `new Instruction(command, expression, threshold + "", -1, -1, 0)`. */
  function MakeInstruction(command: Command, expression: string, threshold: real): (i: Instruction)
  {
    Instruction(command, expression, threshold, -1, -1, 0)
  }

  /** A plan node: its own instructions, the operator combining its
      sub-plans (`None` for Java `null`), the filter applied afterwards,
      the sub-plans in order, and the three estimates. */
  datatype NestedPlan = NestedPlan(
    instructionList: seq<Instruction>,
    operator: Option<Command>,
    filteringInstruction: Option<Instruction>,
    subPlans: seq<NestedPlan>,
    runtimeCost: real,
    mappingSize: real,
    selectivity: real)

  /** `NestedPlan.isFlat` is not part of this model: a plan is taken to be
      flat when it is a single instruction with no sub-plans. */
  predicate IsFlat(p: NestedPlan) {
    |p.instructionList| == 1 && p.subPlans == []
  }

  /** The selectivities of a list of plans, in order. */
  function Selectivities(ps: seq<NestedPlan>): (xs: seq<real>)
  {
    seq(|ps|, i requires 0 <= i < |ps| => ps[i].selectivity)
  }

  /** The runtime costs of a list of plans added up from the left. */
  function SumCosts(ps: seq<NestedPlan>): (sum: real)
  {
    if ps == [] then 0.0 else SumCosts(ps[..|ps| - 1]) + ps[|ps| - 1].runtimeCost
  }

  /** Adding up from the left equals taking the head plus the rest. */
  lemma {:induction false} SumCostsCons(ps: seq<NestedPlan>)
    requires |ps| >= 1
    ensures SumCosts(ps) == ps[0].runtimeCost + SumCosts(ps[1..])
    decreases |ps|
  {
    if |ps| > 1 {
      SumCostsCons(ps[..|ps| - 1]);
      assert ps[..|ps| - 1][1..] == ps[1..][..|ps[1..]| - 1];
    }
  }

  /** With non-negative costs the sum is non-negative. */
  lemma {:induction false} SumCostsNonNegative(ps: seq<NestedPlan>)
    requires forall i :: 0 <= i < |ps| ==> ps[i].runtimeCost >= 0.0
    ensures SumCosts(ps) >= 0.0
    decreases |ps|
  {
    if ps != [] {
      SumCostsNonNegative(ps[..|ps| - 1]);
    }
  }
}
