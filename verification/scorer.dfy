/** The knapsack score computed in one pass over the ingots with running
    totals, the way a score director evaluates the two constraints without
    materialising their matches. */
module Scorer {
  import opened Domain
  import opened Scores
  import opened Totals
  import opened ConstraintProvider
  import ScoreProperties

  method CalculateScore(items: seq<Ingot>, k: Knapsack) returns (score: Score)
    ensures score.hard == ExpectedHard(items, k)
    ensures score.soft == SelectedValue(items)
    ensures score == ComputeScore(items, k)
  {
    var weight, value, any := 0, 0, false;
    for i := 0 to |items|
      invariant weight == SelectedWeight(items[..i])
      invariant value == SelectedValue(items[..i])
      invariant any <==> AnySelected(items[..i])
    {
      SelectedSumSnoc(items, i, Weight);
      SelectedSumSnoc(items, i, Value);
      if items[i].selected {
        weight, value, any := weight + items[i].weight, value + items[i].value, true;
        assert items[..i + 1][i].selected;
      } else {
        assert forall j :: 0 <= j < i + 1 && items[..i + 1][j].selected ==> items[..i][j].selected;
      }
    }
    assert items[..|items|] == items;
    var hard := if any && weight > k.maxWeight then k.maxWeight - weight else 0;
    score := Score(hard, value);
    ScoreProperties.ScoreMatchesReference(items, k);
  }
}
