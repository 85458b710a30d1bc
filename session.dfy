/** The game session: the state `Game` keeps between rounds, the effect of
    loading the next question and of answering one, stated as functions on a
    snapshot of that state, and the `Session` class whose methods update the
    state in place the way `loadNextQuestion` and `handleAnswer` do. */
module GameSession {
  import opened QuizTypes
  import opened Controller
  import opened Selection

  /** One entry of the player log: the question on screen and the verdict. */
  datatype AnswerRecord<Q> = AnswerRecord(question: Option<Q>, correct: bool)

  /** A snapshot of everything a round reads or writes. `asked` holds every
      question of the game so far, `previous` those since the last change of
      tier. */
  datatype State<Q> = State(
    score: nat,
    actualStreak: nat,
    innerStreak: nat,
    consecutiveWrong: nat,
    difficulty: Tier,
    asked: seq<Q>,
    previous: seq<Q>,
    currentQuestion: Option<Q>,
    gameMode: Option<Mode>,
    gameOver: bool,
    error: Option<GameError>,
    playerData: seq<AnswerRecord<Q>>)

  /** A new game: every counter at zero, easy, nothing asked. */
  function Initial<Q>(): State<Q> {
    State(0, 0, 0, 0, Easy, [], [], None, None, false, None, [])
  }

  /** No element occurs twice. */
  ghost predicate NoDuplicates<Q(!new)>(s: seq<Q>) {
    forall i, j :: 0 <= i < j < |s| ==> s[i] != s[j]
  }

  ghost predicate IsSuffix<Q>(p: seq<Q>, a: seq<Q>) {
    |p| <= |a| && p == a[|a| - |p|..]
  }

  lemma SuffixAppend<Q>(p: seq<Q>, a: seq<Q>, q: Q)
    requires IsSuffix(p, a)
    ensures IsSuffix(p + [q], a + [q])
  {
  }

  lemma NoDuplicatesAppend<Q(!new)>(a: seq<Q>, q: Q)
    requires NoDuplicates(a) && q !in a
    ensures NoDuplicates(a + [q])
  {
  }

  /** What every round keeps: no question asked twice, the questions since the
      last change of tier are the latest ones asked, the hidden streak never
      exceeds the visible one, and a pending wrong answer means no streak. */
  ghost predicate Invariant<Q(!new)>(s: State<Q>) {
    NoDuplicates(s.asked) && IsSuffix(s.previous, s.asked) &&
    s.innerStreak <= s.actualStreak &&
    (s.consecutiveWrong > 0 ==> s.actualStreak == 0)
  }

  /** Moving to another tier and clearing `previous` keeps the invariant. */
  lemma InvariantOnTierChange<Q(!new)>(s: State<Q>, t: Tier)
    requires Invariant(s)
    ensures Invariant(s.(difficulty := t, previous := []))
  {
  }

  /** The effect of `loadNextQuestion(tier)` drawing from `rand(draw)` on:
      draw a mode; without a pool entry record the error; with nothing unseen
      move up a tier (clearing `previous`) and start over, or at hard end the
      game; otherwise append one unseen question, picked by the next draw, to
      `asked` and `previous` and put it on screen. */
  function Load<Q(==,!new)>(pool: Pool<Q>, s: State<Q>, tier: Tier,
                            rand: Random, draw: nat): State<Q>
    decreases 2 - Rank(tier)
  {
    var mode := DrawMode(rand, draw);
    if !HasEntry(pool, mode, tier) then
      s.(error := Some(QuestionsNotFound(mode, tier)))
    else
      var available := Available(pool[mode][tier], s.asked);
      if |available| == 0 then
        if tier == Hard then s.(gameOver := true)
        else Load(pool, s.(difficulty := Up(tier), previous := []), Up(tier), rand, draw + 1)
      else
        var q := available[Pick(rand(draw + 1), |available|)];
        s.(asked := s.asked + [q], previous := s.previous + [q],
           gameMode := Some(mode), currentQuestion := Some(q))
  }

  /** The state after the answer has been counted: score, counters and the
      player log, before any rule is applied. */
  function Counted<Q>(s: State<Q>, isCorrect: bool): State<Q> {
    var c := UpdateCounters(Counters(s.actualStreak, s.innerStreak, s.consecutiveWrong), isCorrect);
    s.(score := s.score + (if isCorrect then ScoreIncrement(c.actualStreak) else 0),
       actualStreak := c.actualStreak, innerStreak := c.innerStreak,
       consecutiveWrong := c.consecutiveWrong,
       playerData := s.playerData + [AnswerRecord(s.currentQuestion, isCorrect)])
  }

  function CountersOf<Q>(s: State<Q>): Counters {
    Counters(s.actualStreak, s.innerStreak, s.consecutiveWrong)
  }

  /** Move to tier `next`, clearing `previous` if that is a change of tier. */
  function MoveTo<Q>(s: State<Q>, next: Tier): State<Q> {
    if next != s.difficulty then s.(difficulty := next, previous := []) else s
  }

  /** Commit the counters a transition step leaves and move to its tier. */
  function Commit<Q>(s: State<Q>, step: Step): State<Q> {
    MoveTo(s.(innerStreak := step.counters.innerStreak,
              consecutiveWrong := step.counters.consecutiveWrong), step.tier)
  }

  /** One answered round: count the answer, take the controller's transition,
      commit the counters that transition leaves, and load the next question;
      a failing predictor records the error and loads nothing. */
  function AfterAnswer<Q(==,!new)>(pool: Pool<Q>, s: State<Q>, isCorrect: bool,
                                   predict: PlayerStats -> Option<Tier>, rand: Random): State<Q>
  {
    var counted := Counted(s, isCorrect);
    match Transition(s.difficulty, isCorrect, CountersOf(counted), predict)
    case None => counted.(error := Some(PredictionFailed))
    case Some(step) =>
      Load(pool, Commit(counted, step), step.tier, rand, 0)
  }

  /** `AfterAnswer` as the source commits it: the counters are stored before
      the rules run, so the resets a rule makes never reach the state, and
      the stored counters are those of the answer alone, whatever rule fires. */
  function AfterAnswerAsWritten<Q(==,!new)>(pool: Pool<Q>, s: State<Q>, isCorrect: bool,
                                            predict: PlayerStats -> Option<Tier>,
                                            rand: Random): (r: State<Q>)
    ensures CountersOf(r) == UpdateCounters(CountersOf(s), isCorrect)
  {
    var counted := Counted(s, isCorrect);
    match Transition(s.difficulty, isCorrect, CountersOf(counted), predict)
    case None => counted.(error := Some(PredictionFailed))
    case Some(step) =>
      LoadFollowsSelection(pool, MoveTo(counted, step.tier), step.tier, rand, 0);
      Load(pool, MoveTo(counted, step.tier), step.tier, rand, 0)
  }

  // ---------------------------------------------------------------------------
  // Loading a question

  /** A load is the selector's outcome written into the state: a selection
      appends the question to `asked` and `previous` and puts it on screen,
      game over raises the flag, a missing entry records the error, the tier
      becomes the last one tried when that is not `tier` (and then `previous`
      starts empty), and the counters, score and player log stay as they were. */
  lemma {:induction false} LoadFollowsSelection<Q(!new)>(
    pool: Pool<Q>, s: State<Q>, tier: Tier, rand: Random, draw: nat)
    ensures var r := Load(pool, s, tier, rand, draw);
      var o := SelectFrom(pool, tier, s.asked, rand, draw);
      CountersOf(r) == CountersOf(s) && r.score == s.score && r.playerData == s.playerData &&
      r.difficulty == (if o.tier == tier then s.difficulty else o.tier) &&
      r.asked == s.asked + (if o.Selected? then [o.question] else []) &&
      r.previous == (if o.tier == tier then s.previous else []) +
                    (if o.Selected? then [o.question] else []) &&
      r.currentQuestion == (if o.Selected? then Some(o.question) else s.currentQuestion) &&
      r.gameMode == (if o.Selected? then Some(o.mode) else s.gameMode) &&
      r.gameOver == (s.gameOver || o.Exhausted?) &&
      r.error == (if o.Missing? then Some(QuestionsNotFound(o.mode, o.tier)) else s.error)
    decreases 2 - Rank(tier)
  {
    var mode := DrawMode(rand, draw);
    var o := SelectFrom(pool, tier, s.asked, rand, draw);
    if !HasEntry(pool, mode, tier) {
      LoadMissing(pool, s, tier, rand, draw);
      assert o == Missing(mode, tier, 1);
    } else if Available(pool[mode][tier], s.asked) == [] {
      if tier == Hard {
        LoadGameOver(pool, s, rand, draw);
        assert o == Exhausted(mode, Hard, 1);
      } else {
        var next := s.(difficulty := Up(tier), previous := []);
        LoadEscalates(pool, s, tier, rand, draw);
        LoadFollowsSelection(pool, next, Up(tier), rand, draw + 1);
        Escalates(pool, tier, s.asked, rand, draw);
      }
    } else {
      LoadSelects(pool, s, tier, rand, draw);
      var available := Available(pool[mode][tier], s.asked);
      assert o == Selected(mode, available[Pick(rand(draw + 1), |available|)], tier, 1);
    }
  }

  // The four branches of `Load`, one lemma each, for the proof of the method.

  lemma LoadMissing<Q(!new)>(pool: Pool<Q>, s: State<Q>, tier: Tier, rand: Random, draw: nat)
    requires !HasEntry(pool, DrawMode(rand, draw), tier)
    ensures Load(pool, s, tier, rand, draw)
         == s.(error := Some(QuestionsNotFound(DrawMode(rand, draw), tier)))
  {
  }

  lemma LoadGameOver<Q(!new)>(pool: Pool<Q>, s: State<Q>, rand: Random, draw: nat)
    requires HasEntry(pool, DrawMode(rand, draw), Hard)
    requires Available(pool[DrawMode(rand, draw)][Hard], s.asked) == []
    ensures Load(pool, s, Hard, rand, draw) == s.(gameOver := true)
  {
  }

  lemma LoadEscalates<Q(!new)>(pool: Pool<Q>, s: State<Q>, tier: Tier, rand: Random, draw: nat)
    requires tier != Hard && HasEntry(pool, DrawMode(rand, draw), tier)
    requires Available(pool[DrawMode(rand, draw)][tier], s.asked) == []
    ensures Load(pool, s, tier, rand, draw)
         == Load(pool, s.(difficulty := Up(tier), previous := []), Up(tier), rand, draw + 1)
  {
  }

  lemma LoadSelects<Q(!new)>(pool: Pool<Q>, s: State<Q>, tier: Tier, rand: Random, draw: nat)
    requires HasEntry(pool, DrawMode(rand, draw), tier)
    requires Available(pool[DrawMode(rand, draw)][tier], s.asked) != []
    ensures var available := Available(pool[DrawMode(rand, draw)][tier], s.asked);
      var q := available[Pick(rand(draw + 1), |available|)];
      Load(pool, s, tier, rand, draw)
        == s.(asked := s.asked + [q], previous := s.previous + [q],
              gameMode := Some(DrawMode(rand, draw)), currentQuestion := Some(q))
  {
  }

  /** A load adds at most one question to `asked`, one not asked before, and
      that question also ends `previous`. */
  lemma LoadAppendsFresh<Q(!new)>(pool: Pool<Q>, s: State<Q>, tier: Tier, rand: Random, draw: nat)
    ensures var r := Load(pool, s, tier, rand, draw);
      r.asked == s.asked ||
      (|r.asked| == |s.asked| + 1 && r.asked[..|s.asked|] == s.asked &&
       r.asked[|s.asked|] !in s.asked &&
       |r.previous| > 0 && r.previous[|r.previous| - 1] == r.asked[|s.asked|] &&
       r.currentQuestion == Some(r.asked[|s.asked|]))
  {
    LoadFollowsSelection(pool, s, tier, rand, draw);
    var o := SelectFrom(pool, tier, s.asked, rand, draw);
    if o.Selected? {
      assert (s.asked + [o.question])[..|s.asked|] == s.asked;
    }
  }

  /** How a load can end: the tier moves only upward from `tier`, and when it
      moves `previous` holds at most the new question; game over comes only at
      hard and selects nothing; a missing entry selects nothing either. */
  lemma LoadOutcomes<Q(!new)>(pool: Pool<Q>, s: State<Q>, tier: Tier, rand: Random, draw: nat)
    ensures var r := Load(pool, s, tier, rand, draw);
      (r.difficulty == s.difficulty || (Rank(tier) < Rank(r.difficulty) && |r.previous| <= 1)) &&
      |r.previous| <= |s.previous| + 1 &&
      (r.gameOver && !s.gameOver ==>
         r.asked == s.asked && (r.difficulty == Hard || (tier == Hard && r.difficulty == s.difficulty))) &&
      (r.error != s.error ==> r.asked == s.asked && r.error.Some? && r.error.value.QuestionsNotFound?)
  {
    LoadFollowsSelection(pool, s, tier, rand, draw);
  }

  lemma LoadKeepsInvariant<Q(!new)>(pool: Pool<Q>, s: State<Q>, tier: Tier, rand: Random, draw: nat)
    requires Invariant(s)
    ensures Invariant(Load(pool, s, tier, rand, draw))
  {
    LoadFollowsSelection(pool, s, tier, rand, draw);
    var o := SelectFrom(pool, tier, s.asked, rand, draw);
    var kept := if o.tier == tier then s.previous else [];
    assert IsSuffix(kept, s.asked);
    if o.Selected? {
      NoDuplicatesAppend(s.asked, o.question);
      SuffixAppend(kept, s.asked, o.question);
    }
  }

  // ---------------------------------------------------------------------------
  // Answering a question

  /** A correct answer raises the visible streak by one, adds exactly
      `ScoreIncrement` of the raised streak to the score, clears the
      wrong-answer count, and raises the hidden streak by one unless that
      reaches three, in which case the promotion resets it. */
  lemma CorrectAnswer<Q(!new)>(pool: Pool<Q>, s: State<Q>,
                               predict: PlayerStats -> Option<Tier>, rand: Random)
    ensures var r := AfterAnswer(pool, s, true, predict, rand);
      r.actualStreak == s.actualStreak + 1 &&
      r.score == s.score + ScoreIncrement(s.actualStreak + 1) &&
      r.consecutiveWrong == 0 &&
      r.innerStreak == (if s.innerStreak + 1 >= 3 then 0 else s.innerStreak + 1) &&
      r.playerData == s.playerData + [AnswerRecord(s.currentQuestion, true)]
  {
    var counted := Counted(s, true);
    match Transition(s.difficulty, true, CountersOf(counted), predict)
    case None =>
    case Some(step) =>
      var moved := Commit(counted, step);
      LoadFollowsSelection(pool, moved, step.tier, rand, 0);
  }

  /** A wrong answer leaves the score alone and clears both streaks; the
      wrong-answer count goes up by one, unless at normal it reaches two, in
      which case the demotion to easy resets it. */
  lemma WrongAnswer<Q(!new)>(pool: Pool<Q>, s: State<Q>,
                             predict: PlayerStats -> Option<Tier>, rand: Random)
    ensures var r := AfterAnswer(pool, s, false, predict, rand);
      r.score == s.score && r.actualStreak == 0 && r.innerStreak == 0 &&
      r.consecutiveWrong ==
        (if s.difficulty == Normal && s.consecutiveWrong + 1 >= 2 then 0 else s.consecutiveWrong + 1) &&
      r.playerData == s.playerData + [AnswerRecord(s.currentQuestion, false)]
  {
    var counted := Counted(s, false);
    match Transition(s.difficulty, false, CountersOf(counted), predict)
    case None =>
    case Some(step) =>
      var moved := Commit(counted, step);
      LoadFollowsSelection(pool, moved, step.tier, rand, 0);
  }

  /** The score never goes down. */
  lemma ScoreNeverDecreases<Q(!new)>(pool: Pool<Q>, s: State<Q>, isCorrect: bool,
                                     predict: PlayerStats -> Option<Tier>, rand: Random)
    ensures AfterAnswer(pool, s, isCorrect, predict, rand).score >= s.score
  {
    if isCorrect {
      CorrectAnswer(pool, s, predict, rand);
    } else {
      WrongAnswer(pool, s, predict, rand);
    }
  }

  /** When one of the three rules applies, the round is the same whatever the
      predictor would have said: it is not consulted. */
  lemma PredictorNotConsulted<Q(!new)>(pool: Pool<Q>, s: State<Q>, isCorrect: bool,
                                       p1: PlayerStats -> Option<Tier>,
                                       p2: PlayerStats -> Option<Tier>, rand: Random)
    requires Decide(s.difficulty, isCorrect, CountersOf(Counted(s, isCorrect))).Rule?
    ensures AfterAnswer(pool, s, isCorrect, p1, rand) == AfterAnswer(pool, s, isCorrect, p2, rand)
  {
  }

  /** When the predictor is consulted and fails, the counted answer stays
      committed, the error is recorded, and the tier, the asked questions and
      the question on screen are left as they were: no question is loaded. */
  lemma PredictorFailure<Q(!new)>(pool: Pool<Q>, s: State<Q>, isCorrect: bool,
                                  predict: PlayerStats -> Option<Tier>, rand: Random)
    requires Decide(s.difficulty, isCorrect, CountersOf(Counted(s, isCorrect))) == Consult
    requires predict(PlayerStats(Counted(s, isCorrect).innerStreak, s.difficulty)).None?
    ensures var r := AfterAnswer(pool, s, isCorrect, predict, rand);
      r.error == Some(PredictionFailed) &&
      r.difficulty == s.difficulty && r.asked == s.asked && r.previous == s.previous &&
      r.currentQuestion == s.currentQuestion && r.gameOver == s.gameOver &&
      CountersOf(r) == UpdateCounters(CountersOf(s), isCorrect)
  {
  }

  /** The round ends at the transition's tier or, if the drawn modes were used
      up, higher; and whenever the tier has changed, `previous` holds at most
      the one question just loaded. */
  lemma TierChangeClearsPrevious<Q(!new)>(pool: Pool<Q>, s: State<Q>, isCorrect: bool,
                                          predict: PlayerStats -> Option<Tier>, rand: Random)
    requires Transition(s.difficulty, isCorrect, CountersOf(Counted(s, isCorrect)), predict).Some?
    ensures var step := Transition(s.difficulty, isCorrect, CountersOf(Counted(s, isCorrect)), predict).value;
      var r := AfterAnswer(pool, s, isCorrect, predict, rand);
      Rank(r.difficulty) >= Rank(step.tier) &&
      (r.difficulty != s.difficulty ==> |r.previous| <= 1)
  {
    var counted := Counted(s, isCorrect);
    var step := Transition(s.difficulty, isCorrect, CountersOf(counted), predict).value;
    var moved := Commit(counted, step);
    assert AfterAnswer(pool, s, isCorrect, predict, rand) == Load(pool, moved, step.tier, rand, 0);
    LoadOutcomes(pool, moved, step.tier, rand, 0);
  }

  lemma AnswerKeepsInvariant<Q(!new)>(pool: Pool<Q>, s: State<Q>, isCorrect: bool,
                                      predict: PlayerStats -> Option<Tier>, rand: Random)
    requires Invariant(s)
    ensures Invariant(AfterAnswer(pool, s, isCorrect, predict, rand))
  {
    var counted := Counted(s, isCorrect);
    match Transition(s.difficulty, isCorrect, CountersOf(counted), predict)
    case None =>
    case Some(step) =>
      var moved := Commit(counted, step);
      assert Invariant(moved);
      LoadKeepsInvariant(pool, moved, step.tier, rand, 0);
  }

  // ---------------------------------------------------------------------------
  // A whole game

  /** The inputs of one round: the player's verdict, the predictor, and the
      `Math.random()` values the round draws. */
  datatype Round = Round(isCorrect: bool, predict: PlayerStats -> Option<Tier>, rand: Random)

  /** The state after answering `rounds` one after another. */
  function Play<Q(==,!new)>(pool: Pool<Q>, s: State<Q>, rounds: seq<Round>): State<Q>
    decreases |rounds|
  {
    if rounds == [] then s
    else
      var next := AfterAnswer(pool, s, rounds[0].isCorrect, rounds[0].predict, rounds[0].rand);
      Play(pool, next, rounds[1..])
  }

  /** Over any number of rounds no question is asked twice, the asked list
      only grows, the score never goes down, and the invariant holds. */
  lemma {:induction false} PlayNeverRepeats<Q(!new)>(pool: Pool<Q>, s: State<Q>, rounds: seq<Round>)
    requires Invariant(s)
    ensures var r := Play(pool, s, rounds);
      Invariant(r) && NoDuplicates(r.asked) && s.asked <= r.asked && r.score >= s.score
    decreases |rounds|
  {
    if rounds != [] {
      var round := rounds[0];
      var next := AfterAnswer(pool, s, round.isCorrect, round.predict, round.rand);
      AnswerKeepsInvariant(pool, s, round.isCorrect, round.predict, round.rand);
      ScoreNeverDecreases(pool, s, round.isCorrect, round.predict, round.rand);
      AnswerGrowsAsked(pool, s, round.isCorrect, round.predict, round.rand);
      PlayNeverRepeats(pool, next, rounds[1..]);
    }
  }

  /** One round only ever appends to `asked`. */
  lemma AnswerGrowsAsked<Q(!new)>(pool: Pool<Q>, s: State<Q>, isCorrect: bool,
                                  predict: PlayerStats -> Option<Tier>, rand: Random)
    ensures s.asked <= AfterAnswer(pool, s, isCorrect, predict, rand).asked
  {
    var counted := Counted(s, isCorrect);
    match Transition(s.difficulty, isCorrect, CountersOf(counted), predict)
    case None =>
    case Some(step) =>
      var moved := Commit(counted, step);
      LoadFollowsSelection(pool, moved, step.tier, rand, 0);
  }

  // ---------------------------------------------------------------------------
  // The round as the source commits it

  /** A load never touches the hidden streak or the wrong-answer count, so
      setting them before or after the load comes to the same state. */
  lemma {:induction false} LoadIgnoresCounters<Q(!new)>(
    pool: Pool<Q>, s: State<Q>, tier: Tier, rand: Random, draw: nat, inner: nat, wrong: nat)
    ensures Load(pool, s.(innerStreak := inner, consecutiveWrong := wrong), tier, rand, draw)
         == Load(pool, s, tier, rand, draw).(innerStreak := inner, consecutiveWrong := wrong)
    decreases 2 - Rank(tier)
  {
    var t := s.(innerStreak := inner, consecutiveWrong := wrong);
    var mode := DrawMode(rand, draw);
    if HasEntry(pool, mode, tier) && Available(pool[mode][tier], s.asked) == [] && tier != Hard {
      var up := s.(difficulty := Up(tier), previous := []);
      assert t.(difficulty := Up(tier), previous := []) == up.(innerStreak := inner, consecutiveWrong := wrong);
      LoadIgnoresCounters(pool, up, Up(tier), rand, draw + 1, inner, wrong);
    }
  }

  /** The round as written ends in the state of the corrected round except
      for the hidden streak and the wrong-answer count, which keep the values
      the answer gave them before any rule ran. */
  lemma AsWrittenDiffersOnlyInCounters<Q(!new)>(pool: Pool<Q>, s: State<Q>, isCorrect: bool,
                                                predict: PlayerStats -> Option<Tier>, rand: Random)
    ensures var counted := Counted(s, isCorrect);
      AfterAnswerAsWritten(pool, s, isCorrect, predict, rand)
        == AfterAnswer(pool, s, isCorrect, predict, rand).(innerStreak := counted.innerStreak,
                                                           consecutiveWrong := counted.consecutiveWrong)
  {
    var counted := Counted(s, isCorrect);
    match Transition(s.difficulty, isCorrect, CountersOf(counted), predict)
    case None =>
    case Some(step) =>
      var moved := Commit(counted, step);
      assert moved.(innerStreak := counted.innerStreak, consecutiveWrong := counted.consecutiveWrong)
          == MoveTo(counted, step.tier);
      LoadIgnoresCounters(pool, moved, step.tier, rand, 0, counted.innerStreak, counted.consecutiveWrong);
  }

  /** The round as written keeps the session invariant too. */
  lemma AsWrittenKeepsInvariant<Q(!new)>(pool: Pool<Q>, s: State<Q>, isCorrect: bool,
                                         predict: PlayerStats -> Option<Tier>, rand: Random)
    requires Invariant(s)
    ensures Invariant(AfterAnswerAsWritten(pool, s, isCorrect, predict, rand))
  {
    var counted := Counted(s, isCorrect);
    assert Invariant(counted);
    match Transition(s.difficulty, isCorrect, CountersOf(counted), predict)
    case None =>
    case Some(step) =>
      if step.tier != counted.difficulty {
        InvariantOnTierChange(counted, step.tier);
      }
      LoadKeepsInvariant(pool, MoveTo(counted, step.tier), step.tier, rand, 0);
  }

  /** The state after answering `rounds` one after another as written. */
  function PlayAsWritten<Q(==,!new)>(pool: Pool<Q>, s: State<Q>, rounds: seq<Round>): State<Q>
    decreases |rounds|
  {
    if rounds == [] then s
    else
      var next := AfterAnswerAsWritten(pool, s, rounds[0].isCorrect, rounds[0].predict, rounds[0].rand);
      PlayAsWritten(pool, next, rounds[1..])
  }

  /** The lost reset does not touch the no-repeat rule or the score: over any
      number of rounds as written no question is asked twice, the asked list
      only grows, the score never goes down, and the invariant holds. */
  lemma {:induction false} PlayAsWrittenNeverRepeats<Q(!new)>(pool: Pool<Q>, s: State<Q>, rounds: seq<Round>)
    requires Invariant(s)
    ensures var r := PlayAsWritten(pool, s, rounds);
      Invariant(r) && NoDuplicates(r.asked) && s.asked <= r.asked && r.score >= s.score
    decreases |rounds|
  {
    if rounds != [] {
      var round := rounds[0];
      var next := AfterAnswerAsWritten(pool, s, round.isCorrect, round.predict, round.rand);
      AsWrittenKeepsInvariant(pool, s, round.isCorrect, round.predict, round.rand);
      AsWrittenDiffersOnlyInCounters(pool, s, round.isCorrect, round.predict, round.rand);
      ScoreNeverDecreases(pool, s, round.isCorrect, round.predict, round.rand);
      AnswerGrowsAsked(pool, s, round.isCorrect, round.predict, round.rand);
      PlayAsWrittenNeverRepeats(pool, next, rounds[1..]);
    }
  }

  // ---------------------------------------------------------------------------
  // The lost reset

  /** A pool for the two traces below: multiple choice has two questions per
      tier, fill in the blank has empty lists. Every draw is 0, so the mode
      drawn is multiple choice and the first unseen question is picked. */
  function SamplePool(): Pool<int> {
    map[MultipleChoice := map[Easy := [1, 2], Normal := [3, 4], Hard := [5, 6]],
        FillInTheBlank := map[Easy := [], Normal := [], Hard := []]]
  }

  /** As written, a promotion leaves the hidden streak at three, so the very
      next correct answer promotes again: with question 1 of easy on screen
      and a hidden streak of two, two correct answers reach hard. With the
      reset committed, the second answer goes to the predictor and (with a
      predictor that keeps the tier) the game stays at normal. No error
      occurs on either trace, so both answers can be given. */
  lemma PromotionResetLost()
    ensures var s := Initial<int>().(actualStreak := 2, innerStreak := 2, asked := [1],
                                     previous := [1], currentQuestion := Some(1),
                                     gameMode := Some(MultipleChoice));
      var keep := (st: PlayerStats) => Some(st.currentDifficulty);
      var rand := (k: nat) => 0.0;
      var w1 := AfterAnswerAsWritten(SamplePool(), s, true, keep, rand);
      var w2 := AfterAnswerAsWritten(SamplePool(), w1, true, keep, rand);
      var c1 := AfterAnswer(SamplePool(), s, true, keep, rand);
      var c2 := AfterAnswer(SamplePool(), c1, true, keep, rand);
      w1.difficulty == Normal && w1.innerStreak == 3 && w1.currentQuestion == Some(3) &&
      w2.difficulty == Hard && w2.currentQuestion == Some(5) &&
      c1.difficulty == Normal && c1.innerStreak == 0 && c1.currentQuestion == Some(3) &&
      c2.difficulty == Normal && c2.currentQuestion == Some(4) &&
      w1.error == None && w2.error == None && c1.error == None && c2.error == None
  {
  }

  /** As written, a demotion from normal leaves the wrong-answer count at two;
      with the reset committed it is zero. The trace starts with question 3
      of normal on screen and loads question 1 of easy. */
  lemma DemotionResetLost()
    ensures var s := Initial<int>().(difficulty := Normal, consecutiveWrong := 1, asked := [3],
                                     previous := [3], currentQuestion := Some(3),
                                     gameMode := Some(MultipleChoice));
      var keep := (st: PlayerStats) => Some(st.currentDifficulty);
      var rand := (k: nat) => 0.0;
      var w := AfterAnswerAsWritten(SamplePool(), s, false, keep, rand);
      var c := AfterAnswer(SamplePool(), s, false, keep, rand);
      w.difficulty == Easy && w.consecutiveWrong == 2 && w.currentQuestion == Some(1) &&
      c.difficulty == Easy && c.consecutiveWrong == 0 && c.currentQuestion == Some(1) &&
      w.error == None && c.error == None
  {
  }

  // ---------------------------------------------------------------------------
  // The session object

  /** The state of one `Game`, updated in place by its two operations. */
  class Session<Q(==,!new)> {
    const pool: Pool<Q>
    var score: nat
    var actualStreak: nat
    var innerStreak: nat
    var consecutiveWrong: nat
    var difficulty: Tier
    var askedQuestions: seq<Q>
    var previousQuestions: seq<Q>
    var currentQuestion: Option<Q>
    var gameMode: Option<Mode>
    var gameOver: bool
    var error: Option<GameError>
    var playerData: seq<AnswerRecord<Q>>

    ghost function Snapshot(): State<Q>
      reads this
    {
      State(score, actualStreak, innerStreak, consecutiveWrong, difficulty,
            askedQuestions, previousQuestions, currentQuestion, gameMode,
            gameOver, error, playerData)
    }

    ghost predicate Valid()
      reads this
    {
      Invariant(Snapshot())
    }

    /** A new game over the given pool. */
    constructor (pool: Pool<Q>)
      ensures this.pool == pool && Snapshot() == Initial() && Valid()
    {
      this.pool := pool;
      score, actualStreak, innerStreak, consecutiveWrong := 0, 0, 0, 0;
      difficulty := Easy;
      askedQuestions, previousQuestions := [], [];
      currentQuestion, gameMode := None, None;
      gameOver, error := false, None;
      playerData := [];
    }

    /** Load a question for `tier`, drawing `Math.random()` values from
        `rand(draw)` on; on an empty draw move up a tier and retry. */
    method LoadNextQuestion(tier: Tier, rand: Random, draw: nat)
      modifies this
      ensures Snapshot() == Load(pool, old(Snapshot()), tier, rand, draw)
      decreases 2 - Rank(tier)
    {
      ghost var s0 := Snapshot();
      var selectedMode := Modes[Pick(rand(draw), |Modes|)];
      if selectedMode !in pool || tier !in pool[selectedMode] {
        LoadMissing(pool, s0, tier, rand, draw);
        error := Some(QuestionsNotFound(selectedMode, tier));
        return;
      }
      var questionsByDifficulty := pool[selectedMode][tier];
      var availableQuestions := Available(questionsByDifficulty, askedQuestions);
      if |availableQuestions| == 0 {
        var nextDifficulty;
        if tier == Easy {
          nextDifficulty := Normal;
        } else if tier == Normal {
          nextDifficulty := Hard;
        } else {
          LoadGameOver(pool, s0, rand, draw);
          gameOver := true;
          return;
        }
        LoadEscalates(pool, s0, tier, rand, draw);
        difficulty := nextDifficulty;
        previousQuestions := [];
        assert Snapshot() == s0.(difficulty := Up(tier), previous := []);
        LoadNextQuestion(nextDifficulty, rand, draw + 1);
        return;
      }
      LoadSelects(pool, s0, tier, rand, draw);
      var randomIndex := Pick(rand(draw + 1), |availableQuestions|);
      var newQuestion := availableQuestions[randomIndex];
      Present(selectedMode, newQuestion);
    }

    /** Put `q`, drawn in `mode`, on screen and record it as asked. */
    method Present(mode: Mode, q: Q)
      modifies this
      ensures Snapshot() == old(Snapshot()).(asked := old(askedQuestions) + [q],
                                             previous := old(previousQuestions) + [q],
                                             gameMode := Some(mode), currentQuestion := Some(q))
    {
      askedQuestions := askedQuestions + [q];
      previousQuestions := previousQuestions + [q];
      gameMode := Some(mode);
      currentQuestion := Some(q);
    }

    /** Count the answer: the streaks, the wrong-answer count, the score and
        the player log; returns the counters as the rules will see them. */
    method CountAnswer(isCorrect: bool) returns (c: Counters)
      modifies this
      ensures Snapshot() == Counted(old(Snapshot()), isCorrect)
      ensures c == CountersOf(Snapshot())
    {
      var newActualStreak := actualStreak;
      var newInnerStreak := innerStreak;
      var newConsecutiveWrong := consecutiveWrong;
      if isCorrect {
        newActualStreak := newActualStreak + 1;
        newInnerStreak := newInnerStreak + 1;
        newConsecutiveWrong := 0;
        score := score + ScoreIncrement(newActualStreak);
      } else {
        newActualStreak := 0;
        newInnerStreak := 0;
        newConsecutiveWrong := newConsecutiveWrong + 1;
      }
      actualStreak := newActualStreak;
      innerStreak := newInnerStreak;
      consecutiveWrong := newConsecutiveWrong;
      playerData := playerData + [AnswerRecord(currentQuestion, isCorrect)];
      c := Counters(newActualStreak, newInnerStreak, newConsecutiveWrong);
    }

    /** The next tier for counters `c` already updated by the answer: the
        first of the three rules that applies, or else the predictor, asked
        with the hidden streak and the current tier; None if it fails. */
    method NextDifficulty(isCorrect: bool, c: Counters, predict: PlayerStats -> Option<Tier>)
      returns (next: Option<Step>)
      ensures next == Transition(difficulty, isCorrect, c, predict)
    {
      var playerStats := PlayerStats(c.innerStreak, difficulty);
      var newInnerStreak := c.innerStreak;
      var newConsecutiveWrong := c.consecutiveWrong;
      var nextDifficulty := difficulty;
      if newInnerStreak >= 3 {
        if difficulty == Easy {
          nextDifficulty := Normal;
        } else if difficulty == Normal {
          nextDifficulty := Hard;
        }
        newInnerStreak := 0;
      } else if difficulty == Hard && !isCorrect {
        nextDifficulty := Normal;
        newInnerStreak := 0;
      } else if difficulty == Normal && newConsecutiveWrong >= 2 {
        nextDifficulty := Easy;
        newInnerStreak := 0;
        newConsecutiveWrong := 0;
      } else {
        var predicted := predict(playerStats);
        if predicted.None? {
          return None;
        }
        nextDifficulty := predicted.value;
      }
      next := Some(Step(nextDifficulty, c.(innerStreak := newInnerStreak,
                                          consecutiveWrong := newConsecutiveWrong)));
    }

    /** Score the answer, choose the next tier by the three rules or else the
        predictor, and load the next question for it; a failing predictor
        records the error and loads nothing. */
    method HandleAnswer(isCorrect: bool, predict: PlayerStats -> Option<Tier>, rand: Random)
      requires Valid()
      modifies this
      ensures Valid()
      ensures Snapshot() == AfterAnswer(pool, old(Snapshot()), isCorrect, predict, rand)
    {
      ghost var s0 := Snapshot();
      var c := CountAnswer(isCorrect);
      var next := NextDifficulty(isCorrect, c, predict);
      if next.None? {
        error := Some(PredictionFailed);
        AnswerKeepsInvariant(pool, s0, isCorrect, predict, rand);
        return;
      }
      var step := next.value;
      ApplyStep(step);
      LoadNextQuestion(step.tier, rand, 0);
      AnswerKeepsInvariant(pool, s0, isCorrect, predict, rand);
    }

    /** Commit the counters of `step`, the resets a rule made included, and
        move to its tier, starting `previousQuestions` afresh on a change. */
    method ApplyStep(step: Step)
      modifies this
      ensures Snapshot() == Commit(old(Snapshot()), step)
    {
      innerStreak := step.counters.innerStreak;
      consecutiveWrong := step.counters.consecutiveWrong;
      if step.tier != difficulty {
        difficulty := step.tier;
        previousQuestions := [];
      }
    }
  }
}
