/** The planner's view of its collaborators and the cost oracles it
    consults: atomic runtime and mapping-size estimates dispatched on the
    measure name, and the cost of applying measures as a filter. */
module Estimates {
  import opened Plans

  /** `IMapper.Language`; the planner's constructor sets `NULL`. */
  datatype Language = NULL | Named(name: string)

  /** The atomic mappers whose estimates the planner consults. */
  datatype Mapper = EDJoin | TotalOrderBlockingMapper | FastNGram | JaroMapper | PPJoinPlusPlus

  /** A `HeliosPlanner`: the sizes of its source and target caches, its
      language, and every collaborator whose code is not part of this
      model, as a function:
      - measureName(m): `MeasureFactory.getMeasure(m).getName()`;
      - parserOperator(e, t): `new Parser(e, t).getOperator()`;
      - runtimeApproximation / mappingSizeApproximation: the mappers'
        `getRuntimeApproximation` / `getMappingSizeApproximation`;
      - measureRuntime(m, n): `MeasureFactory.getMeasure(m).getRuntimeApproximation(n)`;
      - processorCost(e, x): `MeasureProcessor.getCosts(e, x)`;
      - allMeasures / equivalentMeasure: `NestedPlan.getAllMeasures` and
        `NestedPlan.getEquivalentMeasure`;
      - freshPlan: the state of a plan made by `new NestedPlan()`. */
  datatype Planner = Planner(
    sourceSize: nat,
    targetSize: nat,
    lang: Language,
    measureName: string -> string,
    parserOperator: (string, real) -> string,
    runtimeApproximation: (Mapper, nat, nat, real, Language) -> real,
    mappingSizeApproximation: (Mapper, nat, nat, real, Language) -> real,
    measureRuntime: (string, int) -> real,
    processorCost: (string, real) -> real,
    allMeasures: NestedPlan -> seq<string>,
    equivalentMeasure: NestedPlan -> string,
    freshPlan: NestedPlan)

  /** |source| * |target|, the size of the cross product. */
  function CrossSize(pl: Planner): (size: real) {
    (pl.sourceSize * pl.targetSize) as real
  }

  /** Both caches are non-empty, so that selectivities are defined. */
  predicate PositiveSizes(pl: Planner) {
    pl.sourceSize > 0 && pl.targetSize > 0
  }

  /** Every cost the collaborators report for this planner is non-negative. */
  ghost predicate NonNegativeCosts(pl: Planner) {
    && (forall m: Mapper, t: real ::
          pl.runtimeApproximation(m, pl.sourceSize, pl.targetSize, t, pl.lang) >= 0.0)
    && (forall ms: string, n: int :: pl.measureRuntime(ms, n) >= 0.0)
    && (forall e: string, x: real :: pl.processorCost(e, x) >= 0.0)
  }

  /** Every mapping size the mappers estimate for this planner lies between
      0 and the size of the cross product. */
  ghost predicate SizesWithinCrossProduct(pl: Planner) {
    forall m: Mapper, t: real ::
      0.0 <= pl.mappingSizeApproximation(m, pl.sourceSize, pl.targetSize, t, pl.lang) <= CrossSize(pl)
  }

  // ---------------------------------------------------------------------
  // Case-insensitive names

  /** ASCII lower-casing of one character. */
  function ToLower(c: char): (lower: char) {
    if 'A' <= c <= 'Z' then (c as int + 32) as char else c
  }

  /** `String.equalsIgnoreCase`, restricted to ASCII case. */
  predicate EqualsIgnoreCase(a: string, b: string) {
    |a| == |b| && forall i :: 0 <= i < |a| ==> ToLower(a[i]) == ToLower(b[i])
  }

  /** Case-insensitive equality is transitive. */
  lemma EqualsIgnoreCaseTransitive(a: string, b: string, c: string)
    requires EqualsIgnoreCase(a, b) && EqualsIgnoreCase(b, c)
    ensures EqualsIgnoreCase(a, c)
  {
  }

  // ---------------------------------------------------------------------
  // Atomic estimates

  /** The mapper `getAtomicRuntimeCosts` consults for a measure name: one
      of the four known families, matched ignoring case, or the
      PPJoinPlusPlus default for every other name. */
  function RuntimeMapper(name: string): (m: Mapper)
    ensures m == EDJoin <==> EqualsIgnoreCase(name, "levenshtein")
    ensures m == TotalOrderBlockingMapper <==> EqualsIgnoreCase(name, "euclidean")
    ensures m == FastNGram <==> EqualsIgnoreCase(name, "qgrams")
    ensures m == JaroMapper <==> EqualsIgnoreCase(name, "jaro")
    ensures m == PPJoinPlusPlus <==>
      !EqualsIgnoreCase(name, "levenshtein") && !EqualsIgnoreCase(name, "euclidean") &&
      !EqualsIgnoreCase(name, "qgrams") && !EqualsIgnoreCase(name, "jaro")
  {
    if EqualsIgnoreCase(name, "levenshtein") then EDJoin
    else if EqualsIgnoreCase(name, "euclidean") then TotalOrderBlockingMapper
    else if EqualsIgnoreCase(name, "qgrams") then FastNGram
    else if EqualsIgnoreCase(name, "jaro") then JaroMapper
    else PPJoinPlusPlus
  }


  /** The mapper whose estimate `getAtomicMappingSizes` returns. The source
      assigns in two independent `if`s for levenshtein and euclidean and
      then in an `if/else if/else` that always assigns, so only the last
      statement decides. */
  function SizeMapper(name: string): (m: Mapper)
    ensures m == FastNGram <==> EqualsIgnoreCase(name, "qgrams")
    ensures m == JaroMapper <==> EqualsIgnoreCase(name, "jaro")
    ensures m == PPJoinPlusPlus <==> !EqualsIgnoreCase(name, "qgrams") && !EqualsIgnoreCase(name, "jaro")
    ensures m != EDJoin && m != TotalOrderBlockingMapper
  {
    if EqualsIgnoreCase(name, "qgrams") then FastNGram
    else if EqualsIgnoreCase(name, "jaro") then JaroMapper
    else PPJoinPlusPlus
  }

  /** The overwrite in the size dispatch: for levenshtein and euclidean the
      size estimate comes from PPJoinPlusPlus although the runtime estimate
      comes from the family's own mapper; for every other name the two
      dispatches agree. */
  lemma SizeDispatchOverwrite(name: string)
    ensures EqualsIgnoreCase(name, "levenshtein") || EqualsIgnoreCase(name, "euclidean") ==>
      SizeMapper(name) == PPJoinPlusPlus && RuntimeMapper(name) != SizeMapper(name)
    ensures !EqualsIgnoreCase(name, "levenshtein") && !EqualsIgnoreCase(name, "euclidean") ==>
      SizeMapper(name) == RuntimeMapper(name)
  {
  }

  /** Both dispatches depend on the name only up to case. */
  lemma DispatchIgnoresCase(a: string, b: string)
    requires EqualsIgnoreCase(a, b)
    ensures RuntimeMapper(a) == RuntimeMapper(b)
    ensures SizeMapper(a) == SizeMapper(b)
  {
    forall lit: string | EqualsIgnoreCase(b, lit)
      ensures EqualsIgnoreCase(a, lit)
    {
      EqualsIgnoreCaseTransitive(a, b, lit);
    }
    forall lit: string | EqualsIgnoreCase(a, lit)
      ensures EqualsIgnoreCase(b, lit)
    {
      EqualsIgnoreCaseTransitive(b, a, lit);
    }
  }

  /** `getAtomicRuntimeCosts(measure, threshold)`. */
  function AtomicRuntimeCosts(pl: Planner, measure: string, threshold: real): (cost: real) {
    pl.runtimeApproximation(RuntimeMapper(pl.measureName(measure)),
                            pl.sourceSize, pl.targetSize, threshold, pl.lang)
  }

  /** `getAtomicMappingSizes(measure, threshold)`, as its statements decide it. */
  function AtomicMappingSizes(pl: Planner, measure: string, threshold: real): (size: real) {
    pl.mappingSizeApproximation(SizeMapper(pl.measureName(measure)),
                                pl.sourceSize, pl.targetSize, threshold, pl.lang)
  }

  /** `getAtomicMappingSizes`, statement by statement. */
  method GetAtomicMappingSizes(pl: Planner, measure: string, threshold: real) returns (size: real)
    ensures size == pl.mappingSizeApproximation(SizeMapper(pl.measureName(measure)),
                                                pl.sourceSize, pl.targetSize, threshold, pl.lang)
    ensures EqualsIgnoreCase(pl.measureName(measure), "levenshtein") ==>
      size == pl.mappingSizeApproximation(PPJoinPlusPlus, pl.sourceSize, pl.targetSize, threshold, pl.lang)
  {
    var name := pl.measureName(measure);
    if EqualsIgnoreCase(name, "levenshtein") {
      size := pl.mappingSizeApproximation(EDJoin, pl.sourceSize, pl.targetSize, threshold, pl.lang);
    }
    if EqualsIgnoreCase(name, "euclidean") {
      size := pl.mappingSizeApproximation(TotalOrderBlockingMapper, pl.sourceSize, pl.targetSize, threshold, pl.lang);
    }
    if EqualsIgnoreCase(name, "qgrams") {
      size := pl.mappingSizeApproximation(FastNGram, pl.sourceSize, pl.targetSize, threshold, pl.lang);
    } else if EqualsIgnoreCase(name, "jaro") {
      size := pl.mappingSizeApproximation(JaroMapper, pl.sourceSize, pl.targetSize, threshold, pl.lang);
    } else {
      size := pl.mappingSizeApproximation(PPJoinPlusPlus, pl.sourceSize, pl.targetSize, threshold, pl.lang);
    }
  }

  // ---------------------------------------------------------------------
  // Filter costs

  /** The cost of applying `measures` as a filter over `mappingSize`
      candidate pairs: the per-measure costs added up from the left. */
  function FilterCosts(pl: Planner, measures: seq<string>, mappingSize: int): (cost: real)
  {
    if measures == [] then 0.0
    else FilterCosts(pl, measures[..|measures| - 1], mappingSize)
         + pl.measureRuntime(measures[|measures| - 1], mappingSize)
  }

  /** `getFilterCosts(measures, mappingSize)`. */
  method GetFilterCosts(pl: Planner, measures: seq<string>, mappingSize: int) returns (cost: real)
    ensures cost == FilterCosts(pl, measures, mappingSize)
  {
    cost := 0.0;
    var i := 0;
    while i < |measures|
      invariant 0 <= i <= |measures|
      invariant cost == FilterCosts(pl, measures[..i], mappingSize)
    {
      assert measures[..i + 1][..i] == measures[..i];
      cost := cost + pl.measureRuntime(measures[i], mappingSize);
      i := i + 1;
    }
    assert measures[..i] == measures;
  }

  /** The filter cost of a concatenation is the sum of the two filter costs. */
  lemma {:induction false} FilterCostsAppend(pl: Planner, a: seq<string>, b: seq<string>, n: int)
    ensures FilterCosts(pl, a + b, n) == FilterCosts(pl, a, n) + FilterCosts(pl, b, n)
    decreases |b|
  {
    if b == [] {
      assert a + b == a;
    } else {
      assert (a + b)[..|a + b| - 1] == a + b[..|b| - 1];
      FilterCostsAppend(pl, a, b[..|b| - 1], n);
    }
  }

  /** Filtering with non-negative per-measure costs costs nothing negative. */
  lemma {:induction false} FilterCostsNonNegative(pl: Planner, measures: seq<string>, n: int)
    requires NonNegativeCosts(pl)
    ensures FilterCosts(pl, measures, n) >= 0.0
    decreases |measures|
  {
    if measures != [] {
      FilterCostsNonNegative(pl, measures[..|measures| - 1], n);
    }
  }

  /** Java's `Math.ceil` of a real, as an integer. */
  function Ceil(x: real): (c: int)
    ensures c as real - 1.0 < x <= c as real
  {
    -((-x).Floor)
  }
}
