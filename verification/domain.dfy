/** The planning problem of the knapsack solver: ingots that may be put in one
    knapsack of bounded capacity. */
module Domain {

  /** A gold ingot. `selected` is the only planning variable: the solver flips
      it, everything else is fixed input. */
  datatype Ingot = Ingot(weight: int, value: int, selected: bool)

  /** The knapsack problem fact: the largest total weight it may carry. */
  datatype Knapsack = Knapsack(maxWeight: int)
}
