/** The question selector of `loadNextQuestion`: draw a mode, look up the
    pool for that mode and tier, drop the questions already asked, and either
    pick one of the rest or, when none is left, move one tier up and try again
    with a fresh mode draw; at hard an empty draw ends the game. */
module Selection {
  import opened QuizTypes

  /** The question pool: mode, then tier, then the questions in pool order.
      A missing entry at either level is a configuration error. */
  type Pool<Q> = map<Mode, map<Tier, seq<Q>>>

  /** What one call of the selector comes to. `tier` is the tier of the last
      attempt and `attempts` the number of mode draws it took. */
  datatype Outcome<Q> =
    | Selected(mode: Mode, question: Q, tier: Tier, attempts: nat)
    | Missing(mode: Mode, tier: Tier, attempts: nat)
    | Exhausted(mode: Mode, tier: Tier, attempts: nat)

  predicate HasEntry<Q>(pool: Pool<Q>, mode: Mode, tier: Tier) {
    mode in pool && tier in pool[mode]
  }

  /** The questions of `qs` not yet in `asked`, in their pool order (the
      `filter` of the source). */
  function Available<Q(==)>(qs: seq<Q>, asked: seq<Q>): (r: seq<Q>)
    ensures |r| <= |qs|
  {
    if qs == [] then []
    else if qs[0] in asked then Available(qs[1..], asked)
    else [qs[0]] + Available(qs[1..], asked)
  }

  /** A question is available exactly when it is in the pool entry and has
      not been asked. */
  lemma {:induction false} AvailableMembers<Q>(qs: seq<Q>, asked: seq<Q>, q: Q)
    ensures q in Available(qs, asked) <==> q in qs && q !in asked
  {
    if qs != [] {
      AvailableMembers(qs[1..], asked, q);
      assert qs == [qs[0]] + qs[1..];
    }
  }

  /** The mode chosen by the draw `rand(draw)`. */
  function DrawMode(rand: Random, draw: nat): Mode
  {
    Modes[Pick(rand(draw), |Modes|)]
  }

  /** The selector started at `tier`, taking its random draws from position
      `draw` on: one mode draw per attempt, then one index draw for the pick. */
  function SelectFrom<Q(==,!new)>(pool: Pool<Q>, tier: Tier, asked: seq<Q>,
                             rand: Random, draw: nat): (o: Outcome<Q>)
    ensures Rank(tier) <= Rank(o.tier)
    ensures 1 <= o.attempts == Rank(o.tier) - Rank(tier) + 1 <= 3
    ensures o.Selected? ==>
      HasEntry(pool, o.mode, o.tier) && o.question in pool[o.mode][o.tier] && o.question !in asked
    ensures o.Exhausted? ==>
      o.tier == Hard && HasEntry(pool, o.mode, Hard) && Available(pool[o.mode][Hard], asked) == []
    ensures o.Missing? ==> !HasEntry(pool, o.mode, o.tier)
    decreases 2 - Rank(tier)
  {
    var mode := DrawMode(rand, draw);
    if !HasEntry(pool, mode, tier) then
      Missing(mode, tier, 1)
    else
      var available := Available(pool[mode][tier], asked);
      if |available| == 0 then
        if tier == Hard then
          Exhausted(mode, tier, 1)
        else
          var o := SelectFrom(pool, Up(tier), asked, rand, draw + 1);
          o.(attempts := o.attempts + 1)
      else
        var q := available[Pick(rand(draw + 1), |available|)];
        AvailableMembers(pool[mode][tier], asked, q);
        Selected(mode, q, tier, 1)
  }

  /** The selector stays at its tier exactly when the drawn mode has an entry
      with an unseen question; it then picks one of those unseen questions. */
  lemma StaysAtTier<Q(!new)>(pool: Pool<Q>, tier: Tier, asked: seq<Q>, rand: Random, draw: nat)
    ensures var o := SelectFrom(pool, tier, asked, rand, draw);
      var mode := DrawMode(rand, draw);
      (o.Selected? && o.tier == tier) <==>
        (HasEntry(pool, mode, tier) && Available(pool[mode][tier], asked) != [])
  {
  }

  /** When the drawn mode has an entry but nothing unseen below hard, the call
      is the call one tier up with the next draw, plus one attempt. */
  lemma Escalates<Q(!new)>(pool: Pool<Q>, tier: Tier, asked: seq<Q>, rand: Random, draw: nat)
    requires tier != Hard
    requires HasEntry(pool, DrawMode(rand, draw), tier)
    requires Available(pool[DrawMode(rand, draw)][tier], asked) == []
    ensures var o := SelectFrom(pool, Up(tier), asked, rand, draw + 1);
      SelectFrom(pool, tier, asked, rand, draw) == o.(attempts := o.attempts + 1)
  {
  }

  /** Game over is reached only through an empty draw at hard; if the very
      first draw already finds nothing at hard, that is the whole story. */
  lemma ExhaustedAtHard<Q(!new)>(pool: Pool<Q>, asked: seq<Q>, rand: Random, draw: nat)
    requires HasEntry(pool, DrawMode(rand, draw), Hard)
    requires Available(pool[DrawMode(rand, draw)][Hard], asked) == []
    ensures SelectFrom(pool, Hard, asked, rand, draw) == Exhausted(DrawMode(rand, draw), Hard, 1)
  {
  }

  /** If every question of the pool has been asked, a selector started at any
      tier ends in game over or in a missing entry, never in a selection. */
  lemma NothingLeftNothingSelected<Q(!new)>(
    pool: Pool<Q>, tier: Tier, asked: seq<Q>, rand: Random, draw: nat)
    requires forall m, t, q :: m in pool && t in pool[m] && q in pool[m][t] ==> q in asked
    ensures !SelectFrom(pool, tier, asked, rand, draw).Selected?
  {
  }

  /** The selector looks at one drawn mode only: at hard it ends the game when
      that mode is used up even though the other mode still has an unseen
      question. */
  lemma ExhaustedWhileOtherModeHasQuestions()
    ensures var pool: Pool<int> := map[MultipleChoice := map[Hard := [1]],
                                       FillInTheBlank := map[Hard := [2]]];
      var o := SelectFrom(pool, Hard, [1], k => 0.0, 0);
      o.Exhausted? && Available(pool[FillInTheBlank][Hard], [1]) == [2]
  {
  }
}
