/** The knapsack constraint provider: two constraint streams whose matches
    add up to the hard/soft score of a candidate selection.

    A constraint stream is modelled by the sequence of matches it produces,
    each match carrying the impact it has on the score. */
module ConstraintProvider {
  import opened Domain
  import opened Scores

  datatype Option<T> = None | Some(value: T)

  /** One tuple that reached the end of a constraint stream. */
  datatype ConstraintMatch = ConstraintMatch(constraintName: string, impact: Score)

  const MaxWeightName: string := "Max Weight"
  const MaxValueName: string := "Max Value"

  /** The stream of ingots filtered on their `selected` flag. */
  function SelectedIngots(items: seq<Ingot>): (r: seq<Ingot>)
    ensures forall x :: x in r ==> x.selected
    ensures forall x :: x in items && x.selected ==> x in r
    ensures forall x {:trigger multiset(r)[x]} :: multiset(r)[x] == if x.selected then multiset(items)[x] else 0
  {
    if items == [] then []
    else
      assert items == [items[0]] + items[1..];
      (if items[0].selected then [items[0]] else []) + SelectedIngots(items[1..])
  }

  /** The weight-sum collector applied to a stream of ingots. */
  function SumOfWeights(stream: seq<Ingot>): int {
    if stream == [] then 0 else stream[0].weight + SumOfWeights(stream[1..])
  }

  /** Grouping a stream under one sum collector: a single tuple holding the sum
      when the stream has any element, no tuple at all when it is empty. */
  function GroupBySumOfWeights(stream: seq<Ingot>): (r: Option<int>)
    ensures r.None? <==> stream == []
  {
    if stream == [] then None else Some(SumOfWeights(stream))
  }

  /** The "Max Weight" constraint: penalise one hard point per unit of weight
      over the knapsack's capacity. */
  function MaxWeight(items: seq<Ingot>, k: Knapsack): (r: seq<ConstraintMatch>)
    ensures |r| <= 1
    ensures forall m :: m in r ==>
      m.constraintName == MaxWeightName && m.impact.hard < 0 && m.impact.soft == 0
  {
    match GroupBySumOfWeights(SelectedIngots(items))
    case None => []
    case Some(ws) =>
      if ws > k.maxWeight
      then [ConstraintMatch(MaxWeightName, Penalty(OneHard, ws - k.maxWeight))]
      else []
  }

  /** Reward every ingot of a stream by its value on the soft level. */
  function RewardByValue(stream: seq<Ingot>): (r: seq<ConstraintMatch>)
    ensures |r| == |stream|
    ensures forall m :: m in r ==> m.constraintName == MaxValueName && m.impact.hard == 0
  {
    if stream == [] then []
    else [ConstraintMatch(MaxValueName, Reward(OneSoft, stream[0].value))] + RewardByValue(stream[1..])
  }

  /** The "Max Value" constraint: one soft reward per selected ingot. */
  function MaxValue(items: seq<Ingot>): (r: seq<ConstraintMatch>)
    ensures |r| == |SelectedIngots(items)|
    ensures forall m :: m in r ==> m.constraintName == MaxValueName && m.impact.hard == 0
  {
    RewardByValue(SelectedIngots(items))
  }

  /** The constraints of the provider, in declaration order. */
  function DefineConstraints(items: seq<Ingot>, k: Knapsack): (r: seq<seq<ConstraintMatch>>)
    ensures |r| == 2
    ensures forall m :: m in r[0] ==> m.constraintName == MaxWeightName
    ensures forall m :: m in r[1] ==> m.constraintName == MaxValueName
  {
    [MaxWeight(items, k), MaxValue(items)]
  }

  /** The score impact of all matches of one constraint. */
  function TotalImpact(matches: seq<ConstraintMatch>): Score {
    if matches == [] then Zero else Add(matches[0].impact, TotalImpact(matches[1..]))
  }

  /** The score of all constraints together. */
  function ScoreOf(constraints: seq<seq<ConstraintMatch>>): Score {
    if constraints == [] then Zero else Add(TotalImpact(constraints[0]), ScoreOf(constraints[1..]))
  }

  /** The score a candidate selection gets. */
  function ComputeScore(items: seq<Ingot>, k: Knapsack): Score {
    ScoreOf(DefineConstraints(items, k))
  }
}
