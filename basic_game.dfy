/** The round state of day3/script.js: a fixed range of 1 to 100, and a submit
    button whose label doubles as the "Play Again" control. */
module BasicGame {
  import opened Wrappers
  import opened GuessRules

  const MinGuess: int := 1
  const MaxGuess: int := 100
  const SubmitLabel: string := "Submit Guess"
  const PlayAgainLabel: string := "Play Again"

  /** What a call of `handleGuess` did: started a new round, rejected the
      input, or counted and judged the guess. */
  datatype GuessResult = Restarted | Rejected | Judged(verdict: Verdict)

  class Game {
    var targetNumber: int
    var attempts: nat
    var gameOver: bool
    /** The text of the submit button. */
    var buttonLabel: string

    /** The target lies in [1, 100], the label is one of the two the script
        writes, and it reads "Play Again" exactly when the round is over. */
    ghost predicate Valid()
      reads this
    {
      && MinGuess <= targetNumber <= MaxGuess
      && (buttonLabel == SubmitLabel || buttonLabel == PlayAgainLabel)
      && (gameOver <==> buttonLabel == PlayAgainLabel)
    }

    /** The state `initGame` leaves with draw `k` (`Math.floor(Math.random() * 100)`). */
    ghost predicate StartedRound(k: nat)
      reads this
    {
      targetNumber == k + 1 && attempts == 0 && !gameOver && buttonLabel == SubmitLabel
    }

    /** Page load: the module-level initial values, then the `initGame` of the
        DOMContentLoaded handler. */
    constructor (k: nat)
      requires k < 100
      ensures Valid() && StartedRound(k)
    {
      targetNumber := k + 1;
      attempts := 0;
      gameOver := false;
      buttonLabel := SubmitLabel;
    }

    /** The first half of the guard at the top of `handleGuess`; under the
        invariant it is the same test as `gameOver` alone. */
    predicate PlayAgainRequested()
      reads this
      requires Valid()
      ensures PlayAgainRequested() <==> gameOver
    {
      gameOver && buttonLabel == PlayAgainLabel
    }

    /** `initGame`: a new target in [1, 100], no attempts, the round open and
        the button labelled "Submit Guess". */
    method InitGame(k: nat)
      requires k < 100
      modifies this
      ensures Valid() && StartedRound(k)
    {
      targetNumber := k + 1;
      attempts := 0;
      gameOver := false;
      buttonLabel := SubmitLabel;
    }

    /** `handleGuess`. A finished round starts a new one with draw `k`; a NaN
        or a number outside [1, 100] changes nothing; any other guess is
        counted and judged, and ends the round exactly when it hits the target. */
    method HandleGuess(input: Option<int>, k: nat) returns (result: GuessResult)
      requires Valid() && k < 100
      modifies this
      ensures Valid()
      ensures old(gameOver) ==> result == Restarted && StartedRound(k)
      ensures !old(gameOver) && !Accepts(input, MinGuess, MaxGuess) ==> result == Rejected && unchanged(this)
      ensures !old(gameOver) && Accepts(input, MinGuess, MaxGuess) ==>
                && result == Judged(Classify(input.value, targetNumber))
                && attempts == old(attempts) + 1
                && targetNumber == old(targetNumber)
                && (gameOver <==> input.value == targetNumber)
                && (buttonLabel == PlayAgainLabel <==> input.value == targetNumber)
    {
      if PlayAgainRequested() {
        InitGame(k);
        return Restarted;
      }
      if input.None? || input.value < MinGuess || input.value > MaxGuess {
        return Rejected;
      }
      var userGuess := input.value;
      attempts := attempts + 1;
      if userGuess == targetNumber {
        gameOver := true;
        buttonLabel := PlayAgainLabel;
        result := Judged(Correct);
      } else if userGuess < targetNumber {
        result := Judged(TooLow);
      } else {
        result := Judged(TooHigh);
      }
    }
  }

  /** Two rounds in a row: a miss, a hit that relabels the button, and the
      click on "Play Again" that starts the next round. */
  method PlayAgainScenario()
  {
    var game := new Game(41);
    var miss := game.HandleGuess(Some(50), 0);
    assert miss == Judged(TooHigh) && game.buttonLabel == SubmitLabel;
    var bad := game.HandleGuess(Some(101), 0);
    assert bad == Rejected && game.attempts == 1;
    var hit := game.HandleGuess(Some(42), 0);
    assert hit == Judged(Correct) && game.buttonLabel == PlayAgainLabel && game.attempts == 2;
    var again := game.HandleGuess(None, 6);
    assert again == Restarted && game.targetNumber == 7 && game.attempts == 0 && !game.gameOver;
  }
}
