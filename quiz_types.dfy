/** Vocabulary shared by the difficulty controller, the question selector and
    the game session: difficulty tiers, presentation modes, optional values,
    errors surfaced to the player, and the scaling of a `Math.random()` draw
    to an index. */
module QuizTypes {

  datatype Option<+T> = None | Some(value: T)

  /** The three difficulty tiers, in increasing order. */
  datatype Tier = Easy | Normal | Hard

  /** The two ways a question can be presented. */
  datatype Mode = MultipleChoice | FillInTheBlank

  /** The modes in the order of the `modes` array the mode draw indexes. */
  const Modes: seq<Mode> := [MultipleChoice, FillInTheBlank]

  /** Errors the game shows instead of a question. */
  datatype GameError =
    | QuestionsNotFound(mode: Mode, tier: Tier)  // no pool entry for the drawn mode and tier
    | PredictionFailed                            // the difficulty predictor rejected

  /** Position of a tier in the order easy < normal < hard. */
  function Rank(t: Tier): (r: nat)
    ensures r <= 2
  {
    match t
    case Easy => 0
    case Normal => 1
    case Hard => 2
  }

  /** One step up: easy to normal, normal to hard; hard stays hard. */
  function Up(t: Tier): (r: Tier)
    ensures t != Hard ==> Rank(r) == Rank(t) + 1
    ensures t == Hard ==> r == Hard
  {
    match t
    case Easy => Normal
    case Normal => Hard
    case Hard => Hard
  }

  /** A result of `Math.random()`: a real in [0, 1). */
  type Fraction = r: real | 0.0 <= r < 1.0

  /** A stream of `Math.random()` results: the k-th call returns rand(k). */
  type Random = nat -> Fraction

  lemma ScaledBelow(r: real, n: nat)
    requires 0.0 <= r < 1.0 && n > 0
    ensures 0.0 <= r * n as real < n as real
  {
    assert (n as real) - r * (n as real) == (1.0 - r) * (n as real);
  }

  /** `Math.floor(r * n)`: the index a draw r selects among n candidates. */
  function Pick(r: Fraction, n: nat): (i: nat)
    requires n > 0
    ensures i < n
  {
    ScaledBelow(r, n);
    (r * n as real).Floor
  }
}
