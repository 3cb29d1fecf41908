/** Two-level hard/soft scores, reduced to their arithmetic. */
module Scores {

  /** A hard/soft score: the hard level counts broken hard constraints
      (0 means feasible), the soft level is the objective. */
  datatype Score = Score(hard: int, soft: int)

  const Zero: Score := Score(0, 0)

  /** The constraint weights a constraint may carry: one point on one level. */
  const OneHard: Score := Score(1, 0)
  const OneSoft: Score := Score(0, 1)

  function Add(a: Score, b: Score): Score {
    Score(a.hard + b.hard, a.soft + b.soft)
  }

  /** The impact of one match: the constraint weight scaled by the match weight. */
  function Scale(constraintWeight: Score, matchWeight: int): Score {
    Score(constraintWeight.hard * matchWeight, constraintWeight.soft * matchWeight)
  }

  /** A penalty lowers the score by the match weight, a reward raises it. */
  function Penalty(constraintWeight: Score, matchWeight: int): Score {
    Scale(constraintWeight, -matchWeight)
  }

  function Reward(constraintWeight: Score, matchWeight: int): Score {
    Scale(constraintWeight, matchWeight)
  }
}
