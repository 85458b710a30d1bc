/** The difficulty controller of `handleAnswer`: the counter update driven by
    one answer, the score increment, and the choice of the next tier by three
    fixed rules checked in order, with the external predictor consulted only
    when none of them applies. */
module Controller {
  import opened QuizTypes

  /** The visible streak, the hidden streak that drives promotion, and the
      number of wrong answers in a row. */
  datatype Counters = Counters(actualStreak: nat, innerStreak: nat, consecutiveWrong: nat)

  /** What the predictor is given: the hidden streak after the answer and the
      tier the answer was given at. */
  datatype PlayerStats = PlayerStats(streak: nat, currentDifficulty: Tier)

  /** The next tier and the counters the transition leaves behind. */
  datatype Step = Step(tier: Tier, counters: Counters)

  /** The verdict of the three local rules: a fixed step, or "ask the predictor". */
  datatype Decision = Rule(step: Step) | Consult

  /** Points for a correct answer, given the visible streak after counting it:
      one point, plus one more for every three answers of that streak. */
  function ScoreIncrement(newActualStreak: nat): (r: nat)
    ensures r >= 1
    ensures 3 * (r - 1) <= newActualStreak < 3 * r
  {
    1 + newActualStreak / 3
  }

  /** The counters after one answer, before any rule looks at them. */
  function UpdateCounters(c: Counters, isCorrect: bool): Counters {
    if isCorrect then
      Counters(c.actualStreak + 1, c.innerStreak + 1, 0)
    else
      Counters(0, 0, c.consecutiveWrong + 1)
  }

  /** The three local rules, first match wins: promote after a hidden streak
      of three, demote from hard on a wrong answer, demote from normal after
      two wrong answers in a row. `c` holds the counters already updated. */
  function Decide(current: Tier, isCorrect: bool, c: Counters): Decision {
    if c.innerStreak >= 3 then
      Rule(Step(Up(current), c.(innerStreak := 0)))
    else if current == Hard && !isCorrect then
      Rule(Step(Normal, c.(innerStreak := 0)))
    else if current == Normal && c.consecutiveWrong >= 2 then
      Rule(Step(Easy, c.(innerStreak := 0, consecutiveWrong := 0)))
    else
      Consult
  }

  /** The full transition: a rule's step, or else the predictor's tier with the
      counters left as updated; None when the predictor fails. */
  function Transition(current: Tier, isCorrect: bool, c: Counters,
                      predict: PlayerStats -> Option<Tier>): Option<Step> {
    match Decide(current, isCorrect, c)
    case Rule(step) => Some(step)
    case Consult =>
      match predict(PlayerStats(c.innerStreak, current))
      case None => None
      case Some(t) => Some(Step(t, c))
  }

  /** Rule 1: once the hidden streak reaches three the tier goes one step up
      (hard stays hard), the hidden streak is reset, and the predictor plays
      no part. */
  lemma Promotion(current: Tier, isCorrect: bool, c: Counters, predict: PlayerStats -> Option<Tier>)
    requires c.innerStreak >= 3
    ensures Transition(current, isCorrect, c, predict)
         == Some(Step(Up(current), c.(innerStreak := 0)))
  {
  }

  /** Rule 2: at hard any wrong answer gives normal with the hidden streak at
      zero, whatever the streak was before the answer. */
  lemma HardDemotion(c: Counters, predict: PlayerStats -> Option<Tier>)
    ensures var u := UpdateCounters(c, false);
      Transition(Hard, false, u, predict) == Some(Step(Normal, u)) && u.innerStreak == 0
  {
  }

  /** Rule 3: at normal, two or more wrong answers in a row give easy with both
      the hidden streak and the wrong-answer count reset. */
  lemma NormalDemotion(isCorrect: bool, c: Counters, predict: PlayerStats -> Option<Tier>)
    requires c.innerStreak < 3 && c.consecutiveWrong >= 2
    ensures Transition(Normal, isCorrect, c, predict)
         == Some(Step(Easy, c.(innerStreak := 0, consecutiveWrong := 0)))
  {
  }

  /** The predictor is consulted exactly when none of the three rules applies,
      with the updated hidden streak and the current tier; its tier is taken
      as is, its failure is the transition's failure, and the counters stay
      as updated. */
  lemma PredictorFallback(current: Tier, isCorrect: bool, c: Counters,
                          predict: PlayerStats -> Option<Tier>)
    ensures Decide(current, isCorrect, c) == Consult <==>
      (c.innerStreak < 3 && !(current == Hard && !isCorrect) &&
       !(current == Normal && c.consecutiveWrong >= 2))
    ensures Decide(current, isCorrect, c) == Consult ==>
      Transition(current, isCorrect, c, predict) ==
        match predict(PlayerStats(c.innerStreak, current))
        case None => None
        case Some(t) => Some(Step(t, c))
  {
  }

  /** Whenever a rule applies, the transition is the same for every predictor. */
  lemma RuleIgnoresPredictor(current: Tier, isCorrect: bool, c: Counters,
                             p1: PlayerStats -> Option<Tier>, p2: PlayerStats -> Option<Tier>)
    requires Decide(current, isCorrect, c).Rule?
    ensures Transition(current, isCorrect, c, p1) == Transition(current, isCorrect, c, p2)
  {
  }

  /** A rule step never leaves a hidden streak of three or more, and a
      demotion only ever moves one tier down, to normal or to easy. */
  lemma RuleStepShape(current: Tier, isCorrect: bool, c: Counters)
    requires Decide(current, isCorrect, c).Rule?
    ensures var s := Decide(current, isCorrect, c).step;
      s.counters.innerStreak == 0 && s.counters.actualStreak == c.actualStreak &&
      (Rank(s.tier) >= Rank(current) || Rank(s.tier) + 1 == Rank(current))
  {
  }
}
