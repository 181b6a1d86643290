/** The table of difficulty tiers (DIFFICULTY_LEVELS): a fixed record of
    timing and scoring parameters per tier, keyed by "easy", "medium", "hard". */
module Difficulty {
  import opened Wrappers

  datatype Tier = Easy | Medium | Hard

  datatype Profile = Profile(
    name: string,
    timeLimit: nat,         // seconds of guessing time per game
    revealTime: nat,        // seconds the target is shown before each round
    pointsPerCorrect: nat,  // score added for each correct guess
    colorVariation: nat,    // spread of hard-tier distractors (used as colorVariation * 0.25)
    optionCount: nat        // number of colour buttons per round
  )

  /** The profile of a tier, exactly as the table defines it. */
  function Level(t: Tier): Profile {
    match t
    case Easy => Profile("Easy", 45, 6, 1, 60, 6)
    case Medium => Profile("Medium", 30, 3, 2, 40, 6)
    case Hard => Profile("Hard", 20, 2, 3, 10, 6)
  }

  /** The key under which a tier is stored in the table. */
  function Key(t: Tier): string {
    match t
    case Easy => "easy"
    case Medium => "medium"
    case Hard => "hard"
  }

  /** Looking a key up in the table: a key outside the three yields nothing
      (the table lookup gives `undefined`). */
  function TierOf(key: string): (r: Option<Tier>)
    ensures r.Some? ==> Key(r.value) == key
  {
    if key == "easy" then Some(Easy)
    else if key == "medium" then Some(Medium)
    else if key == "hard" then Some(Hard)
    else None
  }

  /** Every tier is found under its own key, so the lookup and the keys are
      inverse; together with TierOf's contract, TierOf(k) is a tier exactly
      when k is one of the three keys. */
  lemma {:induction false} TierOfKey(t: Tier)
    ensures TierOf(Key(t)) == Some(t)
  {
    match t
    case Easy =>
    case Medium =>
      assert "medium" != "easy" by { assert "medium"[0] != "easy"[0]; }
    case Hard =>
      assert "hard" != "easy" by { assert "hard"[0] != "easy"[0]; }
      assert "hard" != "medium" by { assert "hard"[0] != "medium"[0]; }
  }

  /** Every profile has a positive time limit, reveal time and reward, and at
      least two options (so a round always has a distractor). */
  lemma ProfilesWellFormed(t: Tier)
    ensures Level(t).timeLimit > 0 && Level(t).revealTime > 0
    ensures Level(t).pointsPerCorrect > 0 && Level(t).optionCount >= 2
    ensures Level(t).revealTime < Level(t).timeLimit
  {
  }
}
