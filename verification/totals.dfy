/** Reference definitions of the quantities the score is about, stated
    directly over the whole ingot sequence (no streams, no matches). */
module Totals {
  import opened Domain

  /** The two numeric attributes of an ingot that get summed. */
  datatype Attribute = Weight | Value

  function Of(x: Ingot, a: Attribute): int {
    match a
    case Weight => x.weight
    case Value => x.value
  }

  /** What one ingot adds to a selected total: its attribute when selected,
      nothing otherwise. */
  function Contribution(x: Ingot, a: Attribute): int {
    if x.selected then Of(x, a) else 0
  }

  /** The sum of attribute `a` over the selected ingots. */
  function SelectedSum(items: seq<Ingot>, a: Attribute): int {
    if items == [] then 0 else Contribution(items[0], a) + SelectedSum(items[1..], a)
  }

  function SelectedWeight(items: seq<Ingot>): int {
    SelectedSum(items, Weight)
  }

  function SelectedValue(items: seq<Ingot>): int {
    SelectedSum(items, Value)
  }

  predicate AnySelected(items: seq<Ingot>) {
    exists i :: 0 <= i < |items| && items[i].selected
  }

  /** The hard score the weight constraint should produce: minus the excess
      weight when something is selected and the knapsack is overloaded. */
  function ExpectedHard(items: seq<Ingot>, k: Knapsack): int {
    if AnySelected(items) && SelectedWeight(items) > k.maxWeight
    then k.maxWeight - SelectedWeight(items)
    else 0
  }

  /** Selected sums are additive over concatenation. */
  lemma {:induction false} SelectedSumAppend(s: seq<Ingot>, t: seq<Ingot>, a: Attribute)
    ensures SelectedSum(s + t, a) == SelectedSum(s, a) + SelectedSum(t, a)
  {
    if s == [] {
      assert s + t == t;
    } else {
      assert (s + t)[1..] == s[1..] + t;
      SelectedSumAppend(s[1..], t, a);
    }
  }

  /** Reading the sequence one more element at a time. */
  lemma SelectedSumSnoc(items: seq<Ingot>, i: int, a: Attribute)
    requires 0 <= i < |items|
    ensures SelectedSum(items[..i + 1], a) == SelectedSum(items[..i], a) + Contribution(items[i], a)
  {
    assert items[..i + 1] == items[..i] + [items[i]];
    SelectedSumAppend(items[..i], [items[i]], a);
  }

  /** Replacing one ingot changes a selected sum by exactly the difference of
      the two ingots' contributions. */
  lemma {:induction false} SelectedSumUpdate(items: seq<Ingot>, i: int, x: Ingot, a: Attribute)
    requires 0 <= i < |items|
    ensures SelectedSum(items[i := x], a)
         == SelectedSum(items, a) - Contribution(items[i], a) + Contribution(x, a)
  {
    if i > 0 {
      assert items[i := x][1..] == items[1..][i - 1 := x];
      SelectedSumUpdate(items[1..], i - 1, x, a);
    } else {
      assert items[i := x][1..] == items[1..];
    }
  }

  /** Taking one ingot out of a sequence takes its contribution out of the sum. */
  lemma SelectedSumRemove(t: seq<Ingot>, j: int, a: Attribute)
    requires 0 <= j < |t|
    ensures SelectedSum(t, a) == Contribution(t[j], a) + SelectedSum(t[..j] + t[j + 1..], a)
  {
    assert t == t[..j] + ([t[j]] + t[j + 1..]);
    SelectedSumAppend(t[..j], [t[j]] + t[j + 1..], a);
    SelectedSumAppend([t[j]], t[j + 1..], a);
    SelectedSumAppend(t[..j], t[j + 1..], a);
  }

  /** Selected sums do not depend on the order of the ingots. */
  lemma {:induction false} SelectedSumPermutation(s: seq<Ingot>, t: seq<Ingot>, a: Attribute)
    requires multiset(s) == multiset(t)
    ensures SelectedSum(s, a) == SelectedSum(t, a)
    decreases |s|
  {
    if s == [] {
      assert |t| == |multiset(t)| == 0;
    } else {
      var x := s[0];
      assert s == [x] + s[1..];
      assert x in multiset(t);
      var j :| 0 <= j < |t| && t[j] == x;
      var rest := t[..j] + t[j + 1..];
      assert multiset(s[1..]) == multiset(rest) by {
        assert t == t[..j] + [x] + t[j + 1..];
        assert multiset(t) == multiset(t[..j]) + multiset{x} + multiset(t[j + 1..]);
        assert multiset(rest) == multiset(t[..j]) + multiset(t[j + 1..]);
        assert multiset(s) == multiset{x} + multiset(s[1..]);
        assert multiset(s[1..]) == multiset(s) - multiset{x};
        assert multiset(rest) == multiset(t) - multiset{x};
      }
      SelectedSumPermutation(s[1..], rest, a);
      SelectedSumRemove(t, j, a);
    }
  }

  /** Whether anything is selected does not depend on the order either. */
  lemma AnySelectedPermutation(s: seq<Ingot>, t: seq<Ingot>)
    requires multiset(s) == multiset(t)
    ensures AnySelected(s) <==> AnySelected(t)
  {
    if AnySelected(s) {
      var i :| 0 <= i < |s| && s[i].selected;
      assert s[i] in multiset(t);
    }
    if AnySelected(t) {
      var i :| 0 <= i < |t| && t[i].selected;
      assert t[i] in multiset(s);
    }
  }
}
