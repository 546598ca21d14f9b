/** The difficulty table and the scoring formula of day3/advanced-script.js. */
module Scoring {
  import opened Wrappers

  /** The value of the module-level `difficulty` string. Only the three keys of
      the settings table are recognised; any other key is kept as it was given. */
  datatype Difficulty = Easy | Medium | Hard | Unrecognised(key: string)

  /** The string the script stores and shows for a difficulty. */
  function Key(d: Difficulty): string
  {
    match d
    case Easy => "easy"
    case Medium => "medium"
    case Hard => "hard"
    case Unrecognised(k) => k
  }

  /** Reading a difficulty button's `data-difficulty` value. */
  function ParseDifficulty(key: string): (d: Difficulty)
    ensures Key(d) == key
    ensures d.Unrecognised? <==> key != "easy" && key != "medium" && key != "hard"
  {
    if key == "easy" then Easy
    else if key == "medium" then Medium
    else if key == "hard" then Hard
    else Unrecognised(key)
  }

  /** A closed interval of admissible guesses. */
  datatype Range = Range(min: int, max: int)

  /** `difficultySettings[difficulty]`; `None` where the lookup yields
      `undefined`, so that reading `.min` throws. */
  function Settings(d: Difficulty): (r: Option<Range>)
    ensures r.None? <==> d.Unrecognised?
    ensures r.Some? ==> r.value.min == 1 && r.value.min < r.value.max
  {
    match d
    case Easy => Some(Range(1, 50))
    case Medium => Some(Range(1, 100))
    case Hard => Some(Range(1, 200))
    case Unrecognised(_) => None
  }

  /** The three rows of the settings table, whatever difficulty selected them. */
  predicate IsTableRange(r: Range)
  {
    r == Range(1, 50) || r == Range(1, 100) || r == Range(1, 200)
  }

  /** `1000 * difficultyMultiplier`, with the multipliers 1, 1.5 and 2 and the
      `default` multiplier 1; 1000 * 1.5 is exactly 1500. */
  function BaseScore(d: Difficulty): nat
  {
    match d
    case Easy => 1000
    case Medium => 1500
    case Hard => 2000
    case Unrecognised(_) => 1000
  }

  /** Everything that is taken off the base score: 50 per attempt, 100 per
      hint and 10 per completed five seconds. */
  function Penalty(attempts: nat, hints: nat, time: nat): nat
  {
    attempts * 50 + hints * 100 + (time / 5) * 10
  }

  /** `calculateScore`: the base score less the penalties, but never below 0. */
  function CalculateScore(attempts: nat, hints: nat, time: nat, d: Difficulty): (score: nat)
    ensures score <= BaseScore(d)
    ensures score == 0 <==> Penalty(attempts, hints, time) >= BaseScore(d)
    ensures score > 0 ==> score + Penalty(attempts, hints, time) == BaseScore(d)
  {
    var finalScore := BaseScore(d) - attempts * 50 - hints * 100 - (time / 5) * 10;
    if finalScore > 0 then finalScore else 0
  }

  /** More attempts, more hints or more time never raise the score. */
  lemma ScoreMonotone(a1: nat, h1: nat, t1: nat, a2: nat, h2: nat, t2: nat, d: Difficulty)
    requires a1 <= a2 && h1 <= h2 && t1 <= t2
    ensures CalculateScore(a2, h2, t2, d) <= CalculateScore(a1, h1, t1, d)
  {
    assert t1 / 5 <= t2 / 5;
  }

  /** A perfect hard round is worth 2000. */
  lemma PerfectHardScore()
    ensures CalculateScore(0, 0, 0, Hard) == 2000
  {
  }

  /** Ten attempts, two hints and 65 seconds on medium are worth
      1500 - 500 - 200 - 130 = 670. */
  lemma MediumScoreExample()
    ensures CalculateScore(10, 2, 65, Medium) == 670
  {
  }

  /** The `default` branch: an unrecognised difficulty scores like easy. */
  lemma UnrecognisedScoresAsEasy(attempts: nat, hints: nat, time: nat, key: string)
    ensures CalculateScore(attempts, hints, time, Unrecognised(key)) == CalculateScore(attempts, hints, time, Easy)
  {
  }
}
