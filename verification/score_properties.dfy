/** What the constraint provider's score means: each stream is related to the
    reference totals, and the promised properties of the score follow. */
module ScoreProperties {
  import opened Domain
  import opened Scores
  import opened Totals
  import opened ConstraintProvider

  /** The weight collector over the filtered stream sums exactly the weights
      of the selected ingots. */
  lemma {:induction false} GroupedWeightIsSelectedWeight(items: seq<Ingot>)
    ensures SumOfWeights(SelectedIngots(items)) == SelectedWeight(items)
  {
    if items != [] {
      GroupedWeightIsSelectedWeight(items[1..]);
      var rest := SelectedIngots(items[1..]);
      if items[0].selected {
        assert SelectedIngots(items) == [items[0]] + rest;
        assert ([items[0]] + rest)[1..] == rest;
      } else {
        assert SelectedIngots(items) == rest;
      }
    }
  }

  /** The filtered stream is empty exactly when no ingot is selected. */
  lemma SelectedStreamEmptyIff(items: seq<Ingot>)
    ensures SelectedIngots(items) == [] <==> !AnySelected(items)
  {}

  /** The "Max Weight" constraint contributes minus the excess weight on the
      hard level when something is selected and the knapsack is overloaded,
      and nothing otherwise. */
  lemma MaxWeightTotal(items: seq<Ingot>, k: Knapsack)
    ensures TotalImpact(MaxWeight(items, k)) == Score(ExpectedHard(items, k), 0)
  {
    SelectedStreamEmptyIff(items);
    GroupedWeightIsSelectedWeight(items);
  }

  /** The "Max Value" constraint contributes the summed value of the selected
      ingots on the soft level. */
  lemma {:induction false} MaxValueTotal(items: seq<Ingot>)
    ensures TotalImpact(MaxValue(items)) == Score(0, SelectedValue(items))
  {
    if items != [] {
      MaxValueTotal(items[1..]);
      var rest := SelectedIngots(items[1..]);
      if items[0].selected {
        assert SelectedIngots(items) == [items[0]] + rest;
        assert ([items[0]] + rest)[1..] == rest;
        var m := ConstraintMatch(MaxValueName, Reward(OneSoft, items[0].value));
        assert RewardByValue([items[0]] + rest) == [m] + RewardByValue(rest);
        assert ([m] + RewardByValue(rest))[1..] == RewardByValue(rest);
      } else {
        assert SelectedIngots(items) == rest;
      }
    }
  }

  /** The whole score, stated against the reference totals. */
  lemma ScoreMatchesReference(items: seq<Ingot>, k: Knapsack)
    ensures ComputeScore(items, k) == Score(ExpectedHard(items, k), SelectedValue(items))
  {
    MaxWeightTotal(items, k);
    MaxValueTotal(items);
    ScoreOfTwoConstraints(MaxWeight(items, k), MaxValue(items));
  }

  /** Scoring a pair of constraints adds their totals. */
  lemma ScoreOfTwoConstraints(c0: seq<ConstraintMatch>, c1: seq<ConstraintMatch>)
    ensures ScoreOf([c0, c1]) == Add(TotalImpact(c0), TotalImpact(c1))
  {
    ScoreOfCons(c0, c1);
    ScoreOfOne(c1);
  }

  lemma ScoreOfCons(c0: seq<ConstraintMatch>, c1: seq<ConstraintMatch>)
    ensures ScoreOf([c0, c1]) == Add(TotalImpact(c0), ScoreOf([c1]))
  {}

  lemma ScoreOfOne(c: seq<ConstraintMatch>)
    ensures ScoreOf([c]) == TotalImpact(c)
  {}

  /** A sequence of matches with no soft impact has no soft total, and one
      with no hard impact has no hard total. */
  lemma {:induction false} TotalImpactLevels(matches: seq<ConstraintMatch>)
    ensures (forall m :: m in matches ==> m.impact.soft == 0) ==> TotalImpact(matches).soft == 0
    ensures (forall m :: m in matches ==> m.impact.hard == 0) ==> TotalImpact(matches).hard == 0
  {
    if matches != [] {
      TotalImpactLevels(matches[1..]);
      assert forall m :: m in matches[1..] ==> m in matches;
    }
  }

  /** The score is the sum of exactly the two constraints; the hard level comes
      only from "Max Weight", the soft level only from "Max Value". */
  lemma ScoreIsSumOfTheTwoConstraints(items: seq<Ingot>, k: Knapsack)
    ensures ComputeScore(items, k) == Add(TotalImpact(MaxWeight(items, k)), TotalImpact(MaxValue(items)))
    ensures ComputeScore(items, k).hard == TotalImpact(MaxWeight(items, k)).hard
    ensures ComputeScore(items, k).soft == TotalImpact(MaxValue(items)).soft
  {
    ScoreOfTwoConstraints(MaxWeight(items, k), MaxValue(items));
    TotalImpactLevels(MaxWeight(items, k));
    TotalImpactLevels(MaxValue(items));
  }

  /** Every match that reaches the score comes from one of the two named
      constraints. */
  lemma OnlyTheTwoConstraintsMatch(items: seq<Ingot>, k: Knapsack)
    ensures forall c, m :: c in DefineConstraints(items, k) && m in c ==>
      m.constraintName == MaxWeightName || m.constraintName == MaxValueName
  {}

  /** Within capacity the hard score is zero. */
  lemma HardZeroWithinCapacity(items: seq<Ingot>, k: Knapsack)
    requires SelectedWeight(items) <= k.maxWeight
    ensures ComputeScore(items, k).hard == 0
  {
    ScoreMatchesReference(items, k);
  }

  /** Over capacity the hard score is minus the excess weight. */
  lemma HardPenalisesExcess(items: seq<Ingot>, k: Knapsack)
    requires AnySelected(items)
    requires SelectedWeight(items) > k.maxWeight
    ensures ComputeScore(items, k).hard == -(SelectedWeight(items) - k.maxWeight)
  {
    ScoreMatchesReference(items, k);
  }

  /** The hard score only ever penalises. */
  lemma HardNeverPositive(items: seq<Ingot>, k: Knapsack)
    ensures ComputeScore(items, k).hard <= 0
  {
    ScoreMatchesReference(items, k);
  }

  /** A selection is feasible (hard score zero) exactly when nothing is selected
      or the selected weight fits the knapsack. */
  lemma FeasibleIff(items: seq<Ingot>, k: Knapsack)
    ensures ComputeScore(items, k).hard == 0
        <==> !AnySelected(items) || SelectedWeight(items) <= k.maxWeight
  {
    ScoreMatchesReference(items, k);
  }

  /** The soft score is the total value of the selected ingots. */
  lemma SoftIsSelectedValue(items: seq<Ingot>, k: Knapsack)
    ensures ComputeScore(items, k).soft == SelectedValue(items)
  {
    ScoreMatchesReference(items, k);
  }

  /** With nothing selected the score is zero on both levels, whatever the
      capacity, even a negative one. */
  lemma {:induction false} NothingSelectedScoresZero(items: seq<Ingot>, k: Knapsack)
    requires forall i :: 0 <= i < |items| ==> !items[i].selected
    ensures ComputeScore(items, k) == Zero
  {
    ScoreMatchesReference(items, k);
    NothingSelectedSumsZero(items, Value);
  }

  lemma {:induction false} NothingSelectedSumsZero(items: seq<Ingot>, a: Attribute)
    requires forall i :: 0 <= i < |items| ==> !items[i].selected
    ensures SelectedSum(items, a) == 0
  {
    if items != [] {
      assert !items[0].selected;
      NothingSelectedSumsZero(items[1..], a);
    }
  }

  /** Flipping one ingot's `selected` flag moves its weight and its value into
      or out of the selected totals, and nothing else. */
  lemma ToggleChangesTotals(items: seq<Ingot>, i: int)
    requires 0 <= i < |items|
    ensures var x := items[i];
            var t := items[i := x.(selected := !x.selected)];
            && SelectedWeight(t) == SelectedWeight(items) + (if x.selected then -x.weight else x.weight)
            && SelectedValue(t) == SelectedValue(items) + (if x.selected then -x.value else x.value)
  {
    var x := items[i];
    SelectedSumUpdate(items, i, x.(selected := !x.selected), Weight);
    SelectedSumUpdate(items, i, x.(selected := !x.selected), Value);
  }

  /** An unselected ingot has no say in the score: replacing it with any other
      unselected ingot leaves the score unchanged. */
  lemma UnselectedIngotIsIgnored(items: seq<Ingot>, i: int, x: Ingot, k: Knapsack)
    requires 0 <= i < |items|
    requires !items[i].selected && !x.selected
    ensures ComputeScore(items[i := x], k) == ComputeScore(items, k)
  {
    var t := items[i := x];
    SelectedSumUpdate(items, i, x, Weight);
    SelectedSumUpdate(items, i, x, Value);
    AnySelectedUnselectedUpdate(items, i, x);
    ScoreMatchesReference(items, k);
    ScoreMatchesReference(t, k);
  }

  lemma AnySelectedUnselectedUpdate(items: seq<Ingot>, i: int, x: Ingot)
    requires 0 <= i < |items|
    requires !items[i].selected && !x.selected
    ensures AnySelected(items[i := x]) <==> AnySelected(items)
  {
    var t := items[i := x];
    if AnySelected(t) {
      var j :| 0 <= j < |t| && t[j].selected;
      assert items[j].selected;
    }
    if AnySelected(items) {
      var j :| 0 <= j < |items| && items[j].selected;
      assert t[j].selected;
    }
  }

  /** The score does not depend on the order of the ingots. */
  lemma ScoreIsOrderIndependent(s: seq<Ingot>, t: seq<Ingot>, k: Knapsack)
    requires multiset(s) == multiset(t)
    ensures ComputeScore(s, k) == ComputeScore(t, k)
  {
    SelectedSumPermutation(s, t, Weight);
    SelectedSumPermutation(s, t, Value);
    AnySelectedPermutation(s, t);
    ScoreMatchesReference(s, k);
    ScoreMatchesReference(t, k);
  }

  /** When something is selected, or the capacity is not negative, the hard
      score is min(0, capacity - selected weight). */
  lemma HardIsCappedSlack(items: seq<Ingot>, k: Knapsack)
    requires AnySelected(items) || k.maxWeight >= 0
    ensures ComputeScore(items, k).hard
         == (if k.maxWeight - SelectedWeight(items) < 0 then k.maxWeight - SelectedWeight(items) else 0)
  {
    ScoreMatchesReference(items, k);
    if !AnySelected(items) {
      NothingSelectedSumsZero(items, Weight);
    }
  }

  /** Outside that case the two formulas part: one unselected ingot of weight
      4 and a capacity of -2 give hard score 0, where
      min(0, capacity - selected weight) would be -2. */
  lemma EmptySelectionUnderNegativeCapacity(items: seq<Ingot>, k: Knapsack)
    requires items == [Ingot(4, 7, false)] && k == Knapsack(-2)
    ensures ComputeScore(items, k) == Zero
    ensures k.maxWeight - SelectedWeight(items) == -2
  {
    NothingSelectedScoresZero(items, k);
    NothingSelectedSumsZero(items, Weight);
  }
}
