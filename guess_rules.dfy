/** The validation and the three-way comparison that both guessing games
    (day3/script.js and day3/advanced-script.js) apply to a submitted guess. */
module GuessRules {
  import opened Wrappers

  /** How a counted guess compares with the target. */
  datatype Verdict = Correct | TooLow | TooHigh

  /** The validity test of `handleGuess`: the parsed input is a number (not NaN)
      and lies in the closed interval [lo, hi]. */
  predicate Accepts(input: Option<int>, lo: int, hi: int)
  {
    input.Some? && lo <= input.value <= hi
  }

  /** The `===` / `<` / else chain that classifies a counted guess. */
  function Classify(guess: int, target: int): (v: Verdict)
    ensures v == Correct <==> guess == target
    ensures v == TooLow <==> guess < target
    ensures v == TooHigh <==> guess > target
  {
    if guess == target then Correct
    else if guess < target then TooLow
    else TooHigh
  }
}
