# Knapsack scoring model

A Dafny model of the scoring logic of the knapsack solver service: the
constraint provider that turns a candidate selection of gold ingots into a
hard/soft score. The provider declares two constraints.

- **Max Weight** filters the ingots on `selected` and groups them under one
  weight-sum collector. It joins the sum with the knapsack and keeps the tuple
  only when the sum exceeds `maxWeight`. It then penalises one hard point per
  unit of excess weight.
- **Max Value** filters the ingots on `selected` and rewards each one with
  one soft point per unit of its value.

Each constraint stream is modelled by the sequence of matches it produces
(`ConstraintProvider.ConstraintMatch`: constraint name and score impact).
The score is the sum of the impacts of all matches of both constraints.
`Totals` gives independent reference definitions of the selected weight,
the selected value and the expected hard score, written directly over the
ingot sequence. `ScoreProperties` connects the two and proves what the
score promises. `Scorer.CalculateScore` computes the same score in one
pass with running totals.

Files: `domain.dfy` (ingot and knapsack), `scores.dfy` (hard/soft score
arithmetic), `totals.dfy` (reference sums and their algebra),
`constraint_provider.dfy` (the two constraint streams),
`score_properties.dfy` (the properties), `scorer.dfy` (one-pass scorer).

### Where the code departs from the usual penalty formula

A capacity penalty is commonly written as `min(0, maxWeight - totalWeight)`.
The code groups the *selected* ingots before it compares their sum with
`maxWeight`, and grouping an empty stream produces no tuple at all. So with
nothing selected the hard score is 0 even when `maxWeight` is negative,
where the formula gives `maxWeight`. The model follows the code.
`ScoreProperties.HardIsCappedSlack` proves the formula exactly where the two
agree: something is selected, or the capacity is not negative.
`ScoreProperties.EmptySelectionUnderNegativeCapacity` shows one input where
they part. The code does not reject negative weights, values or capacities,
so the model accepts any integers.

## Model

| member | source | states |
|---|---|---|
| ConstraintProvider.SelectedIngots | src/main/java/com/redhat/knapsackoptaplanner/solver/KnapsackConstraintProvider.java:32 | the filtered stream holds every selected ingot exactly as many times as the input does, and no unselected ingot |
| ConstraintProvider.GroupBySumOfWeights | src/main/java/com/redhat/knapsackoptaplanner/solver/KnapsackConstraintProvider.java:33 | grouping yields no tuple exactly when the stream is empty |
| ConstraintProvider.MaxWeight | src/main/java/com/redhat/knapsackoptaplanner/solver/KnapsackConstraintProvider.java:31-36 | the weight constraint yields at most one match, named "Max Weight", with a strictly negative hard impact and no soft impact |
| ConstraintProvider.RewardByValue | src/main/java/com/redhat/knapsackoptaplanner/solver/KnapsackConstraintProvider.java:45 | one reward match per ingot of the stream, each named "Max Value" and with no hard impact |
| ConstraintProvider.MaxValue | src/main/java/com/redhat/knapsackoptaplanner/solver/KnapsackConstraintProvider.java:42-46 | the value constraint yields one match per selected ingot, all named "Max Value" with no hard impact |
| ConstraintProvider.DefineConstraints | src/main/java/com/redhat/knapsackoptaplanner/solver/KnapsackConstraintProvider.java:15-20 | the provider declares exactly two constraints: every match of the first is named "Max Weight", every match of the second "Max Value" |
| ScoreProperties.GroupedWeightIsSelectedWeight | src/main/java/com/redhat/knapsackoptaplanner/solver/KnapsackConstraintProvider.java:32-33 | the sum collector over the filtered stream equals the reference selected weight |
| ScoreProperties.SelectedStreamEmptyIff | src/main/java/com/redhat/knapsackoptaplanner/solver/KnapsackConstraintProvider.java:32-33 | the filtered stream is empty iff no ingot is selected |
| ScoreProperties.MaxWeightTotal | src/main/java/com/redhat/knapsackoptaplanner/solver/KnapsackConstraintProvider.java:33-35 | the weight constraint's total impact is minus the excess when something is selected and overloaded, zero otherwise, never soft |
| ScoreProperties.MaxValueTotal | src/main/java/com/redhat/knapsackoptaplanner/solver/KnapsackConstraintProvider.java:43-45 | the value constraint's total impact is the selected value on the soft level and zero on the hard level |
| ScoreProperties.ScoreMatchesReference | src/main/java/com/redhat/knapsackoptaplanner/solver/KnapsackConstraintProvider.java:15-46 | the score equals (reference hard score, reference selected value) for every input |
| ScoreProperties.ScoreIsSumOfTheTwoConstraints | src/main/java/com/redhat/knapsackoptaplanner/solver/KnapsackConstraintProvider.java:16-19 | the score is the sum of the two constraints' totals; the hard level equals the weight constraint's, the soft level the value constraint's |
| ScoreProperties.OnlyTheTwoConstraintsMatch | src/main/java/com/redhat/knapsackoptaplanner/solver/KnapsackConstraintProvider.java:16-19 | every match contributing to the score is named "Max Weight" or "Max Value" |
| ScoreProperties.HardZeroWithinCapacity | src/main/java/com/redhat/knapsackoptaplanner/solver/KnapsackConstraintProvider.java:34 | a selected weight within capacity gives hard score 0 |
| ScoreProperties.HardPenalisesExcess | src/main/java/com/redhat/knapsackoptaplanner/solver/KnapsackConstraintProvider.java:33-35 | an overloaded non-empty selection gives hard score exactly minus the excess weight |
| ScoreProperties.HardNeverPositive | src/main/java/com/redhat/knapsackoptaplanner/solver/KnapsackConstraintProvider.java:35 | the hard score is never positive |
| ScoreProperties.FeasibleIff | src/main/java/com/redhat/knapsackoptaplanner/solver/KnapsackConstraintProvider.java:32-35 | hard score 0 iff nothing is selected or the selected weight fits (both directions) |
| ScoreProperties.SoftIsSelectedValue | src/main/java/com/redhat/knapsackoptaplanner/solver/KnapsackConstraintProvider.java:42-45 | the soft score is the sum of values of the selected ingots |
| ScoreProperties.NothingSelectedScoresZero | src/main/java/com/redhat/knapsackoptaplanner/solver/KnapsackConstraintProvider.java:31-46 | with no ingot selected the score is (0, 0) for every capacity, negative ones included |
| ScoreProperties.ToggleChangesTotals | src/main/java/com/redhat/knapsackoptaplanner/solver/KnapsackConstraintProvider.java:32-44 | flipping one ingot's flag adds or removes exactly its weight and its value from the selected totals |
| ScoreProperties.UnselectedIngotIsIgnored | src/main/java/com/redhat/knapsackoptaplanner/solver/KnapsackConstraintProvider.java:32-44 | replacing an unselected ingot by any other unselected ingot leaves the score unchanged |
| ScoreProperties.ScoreIsOrderIndependent | src/main/java/com/redhat/knapsackoptaplanner/solver/KnapsackConstraintProvider.java:33-45 | two orderings of the same ingots get the same score |
| ScoreProperties.HardIsCappedSlack | src/main/java/com/redhat/knapsackoptaplanner/solver/KnapsackConstraintProvider.java:33-35 | when something is selected or the capacity is not negative, the hard score is min(0, capacity - selected weight) |
| ScoreProperties.EmptySelectionUnderNegativeCapacity | src/main/java/com/redhat/knapsackoptaplanner/solver/KnapsackConstraintProvider.java:32-35 | one unselected ingot (weight 4) with capacity -2 scores (0, 0), while capacity minus selected weight is -2 |
| Scorer.CalculateScore | src/main/java/com/redhat/knapsackoptaplanner/solver/KnapsackConstraintProvider.java:31-46 | a one-pass computation with running totals returns the reference hard and soft scores, equal to the constraint-stream score |
| Totals.SelectedSumPermutation | src/main/java/com/redhat/knapsackoptaplanner/solver/KnapsackConstraintProvider.java:33 | a selected sum is the same for any permutation of the ingots |
| Totals.SelectedSumUpdate | src/main/java/com/redhat/knapsackoptaplanner/solver/KnapsackConstraintProvider.java:32-33 | replacing one ingot changes a selected sum by the difference of the two ingots' contributions |

## Left out

- The HTTP endpoint `KnapsackController.java`. It creates a random job id, submits the problem to the injected solver manager and blocks for the final solution. It is transport and job plumbing with no logic of its own.
- The metaheuristic search (move selection, acceptance, termination). It belongs to the external planning library, which is not part of this model, and there is nothing in the repository to compare a search loop against.
- Lexicographic comparison of hard/soft scores and the incremental mechanics of constraint streams. These are library internals; only the net effect of `filter`, `groupBy`, `join`, `penalize` and `reward` on the score is modelled.
- The commented-out rule-language versions of both constraints. They are dead code.
- Java's 32-bit `int` arithmetic. Sums and the excess are unbounded integers, so overflow of the weight sum or of the score is not modelled.
- Any number of knapsack facts other than one. The join with `Knapsack` is modelled for exactly one knapsack. With none, the join yields nothing and there is never a hard penalty. With several, the constraint would penalise once per knapsack.
- JSON (de)serialisation of the solution and the domain classes' accessors. The domain classes are not part of this model; they are reduced to the datatypes `Domain.Ingot` and `Domain.Knapsack`.
