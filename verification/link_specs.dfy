/** The input of the planner: a boolean link-specification tree. */
module LinkSpecs {

  /** The boolean operators a composite specification node can carry. */
  datatype Operator = AND | OR | XOR | MINUS

  /** One node of a link specification. `children` keeps the order in which
      the specification lists them. The operator of an atomic node is never
      read. */
  datatype LinkSpec = LinkSpec(
    op: Operator,
    children: seq<LinkSpec>,
    filterExpression: string,
    threshold: real)
  {
    /** `LinkSpecification.isAtomic` is not part of this model: a node is
        taken to be atomic exactly when it has no children. */
    predicate IsAtomic() {
      |children| == 0
    }
  }
}
