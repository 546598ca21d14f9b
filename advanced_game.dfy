/** The round state of day3/advanced-script.js: the module-level variables as
    the fields of one object, and the event handlers as its methods. The text
    fields that the script reads back (the timer and the final score) are
    fields too; every other DOM write is presentation and is not modelled. */
module AdvancedGame {
  import opened Wrappers
  import opened DecimalText
  import opened GuessRules
  import opened Scoring
  import opened Hints
  import opened Clock
  import opened Leaderboard

  /** What a call of `handleGuess` did: nothing (the round is over), rejected
      the input, or counted and judged the guess. */
  datatype GuessResult = Ignored | Rejected | Judged(verdict: Verdict)

  /** `k` is a possible value of `Math.floor(Math.random() * (max - min + 1))`
      for the range that difficulty `d` selects. */
  predicate IsDraw(d: Difficulty, k: nat)
  {
    Settings(d).Some? ==> k <= Settings(d).value.max - Settings(d).value.min
  }

  class Game {
    var targetNumber: int
    var minRange: int
    var maxRange: int
    var attempts: nat
    var hintsUsed: nat
    var gameOver: bool
    var difficulty: Difficulty
    /** Whether the one-second interval that calls `updateTimer` is set. */
    var timerRunning: bool
    /** The two timer fields, "mm" and "ss". */
    var minutesText: string
    var secondsText: string
    /** The score shown in the win dialog. */
    var finalScoreText: string
    /** The "numberGameHighScores" storage slot; `None` when it is absent. */
    var savedScores: Option<seq<Entry>>

    /** The range is a row of the settings table, and the row of the current
        difficulty when that is recognised. */
    ghost predicate Valid()
      reads this
    {
      ValidRound() && RangeOfDifficulty()
    }

    /** What holds even between `difficulty = newDifficulty` and the `initGame`
        that follows it: the round invariant and numerals in the timer fields. */
    ghost predicate ValidRound()
      reads this
    {
      RoundInvariant() && TimerShown()
    }

    /** The range is a row of the settings table; the target lies in the
        range; the timer runs exactly while the round is not over; the score
        text is a numeral. */
    ghost predicate RoundInvariant()
      reads this`minRange, this`maxRange, this`targetNumber, this`timerRunning,
            this`gameOver, this`finalScoreText
    {
      && IsTableRange(Range(minRange, maxRange))
      && minRange <= targetNumber <= maxRange
      && timerRunning == !gameOver
      && IsDigits(finalScoreText)
    }

    /** A recognised difficulty selects the current range. */
    ghost predicate RangeOfDifficulty()
      reads this`difficulty, this`minRange, this`maxRange
    {
      Settings(difficulty).Some? ==> Settings(difficulty).value == Range(minRange, maxRange)
    }

    /** Both timer fields are numerals. */
    ghost predicate TimerShown()
      reads this`minutesText, this`secondsText
    {
      IsDigits(minutesText) && IsDigits(secondsText)
    }

    /** The elapsed seconds that the timer fields show. */
    function ElapsedShown(): nat
      reads this`minutesText, this`secondsText
      requires TimerShown()
    {
      ReadBack(minutesText, secondsText)
    }

    /** The state `initGame` leaves with draw `k`: the range of the difficulty,
        the target `k` above its minimum, all counters zero, the round open and
        the timer restarted at "00:00". */
    ghost predicate StartedRound(k: nat)
      reads this
    {
      && Settings(difficulty) == Some(Range(minRange, maxRange))
      && targetNumber == minRange + k
      && attempts == 0 && hintsUsed == 0
      && !gameOver && timerRunning
      && minutesText == "00" && secondsText == "00"
    }

    /** Page load: the module-level initial values (difficulty "medium"),
        followed by the `initGame` of the DOMContentLoaded handler. The dialog's
        score text before any win comes from the page, and is taken as "0". */
    constructor (k: nat, stored: Option<seq<Entry>>)
      requires k < 100
      ensures Valid() && StartedRound(k)
      ensures difficulty == Medium && savedScores == stored && finalScoreText == "0"
    {
      difficulty := Medium;
      minRange, maxRange := 1, 100;
      targetNumber := 1 + k;
      attempts, hintsUsed := 0, 0;
      gameOver := false;
      minutesText, secondsText := "00", "00";
      timerRunning := true;
      finalScoreText := "0";
      savedScores := stored;
      new;
      assert IsDigits("00");
    }

    /** `initGame`. The settings lookup throws for an unrecognised difficulty
        before anything is assigned: then nothing changes and `started` is false. */
    method InitGame(k: nat) returns (started: bool)
      requires ValidRound() && IsDraw(difficulty, k)
      modifies this
      ensures ValidRound()
      ensures started <==> Settings(difficulty).Some?
      ensures started ==> Valid() && StartedRound(k)
      ensures !started ==> unchanged(this)
      ensures difficulty == old(difficulty) && savedScores == old(savedScores)
      ensures finalScoreText == old(finalScoreText)
    {
      var settings := Settings(difficulty);
      if settings.None? {
        return false;
      }
      minRange := settings.value.min;
      maxRange := settings.value.max;
      targetNumber := k + minRange;
      attempts := 0;
      hintsUsed := 0;
      gameOver := false;
      // resetTimer, then startTimer
      minutesText, secondsText := "00", "00";
      assert IsDigits("00");
      timerRunning := true;
      started := true;
    }

    /** `updateTimer`, called by the interval while it is set, with the whole
        seconds elapsed since the round started. The fields then read back as
        exactly that many seconds. */
    method UpdateTimer(elapsed: nat)
      requires Valid() && timerRunning
      modifies this`minutesText, this`secondsText
      ensures Valid()
      ensures minutesText == MinutesText(elapsed) && secondsText == SecondsText(elapsed)
      ensures ElapsedShown() == elapsed
    {
      var m, sec := MinutesText(elapsed), SecondsText(elapsed);
      assert IsDigits(m) && IsDigits(sec) && ReadBack(m, sec) == elapsed by {
        ReadBackShown(elapsed);
      }
      minutesText := m;
      secondsText := sec;
    }

    /** `getElapsedTimeString`. */
    function ElapsedTimeText(): string
      reads this
    {
      ElapsedTimeString(minutesText, secondsText)
    }

    /** `handleGuess`. A finished round ignores the guess; a NaN or a number
        outside the range is rejected and changes nothing; any other guess is
        counted and judged, and ends the round exactly when it hits the target. */
    method HandleGuess(input: Option<int>) returns (result: GuessResult)
      requires Valid()
      modifies this
      ensures Valid()
      ensures old(gameOver) ==> result == Ignored && unchanged(this)
      ensures !old(gameOver) && !Accepts(input, minRange, maxRange) ==> result == Rejected && unchanged(this)
      ensures !old(gameOver) && Accepts(input, minRange, maxRange) ==>
                && result == Judged(Classify(input.value, targetNumber))
                && attempts == old(attempts) + 1
                && (gameOver <==> input.value == targetNumber)
      ensures result == Judged(Correct) ==>
                ParseDecimal(finalScoreText) == CalculateScore(attempts, hintsUsed, old(ElapsedShown()), difficulty)
      ensures result != Judged(Correct) ==> gameOver == old(gameOver) && finalScoreText == old(finalScoreText)
      ensures old(gameOver) ==> gameOver
      ensures attempts >= old(attempts)
      ensures targetNumber == old(targetNumber) && minRange == old(minRange) && maxRange == old(maxRange)
      ensures hintsUsed == old(hintsUsed) && difficulty == old(difficulty) && savedScores == old(savedScores)
      ensures minutesText == old(minutesText) && secondsText == old(secondsText)
    {
      if gameOver {
        return Ignored;
      }
      if input.None? || input.value < minRange || input.value > maxRange {
        return Rejected;
      }
      var userGuess := input.value;
      attempts := attempts + 1;
      if userGuess == targetNumber {
        var _ := HandleCorrectGuess();
        result := Judged(Correct);
      } else if userGuess < targetNumber {
        result := Judged(TooLow);
      } else {
        result := Judged(TooHigh);
      }
    }

    /** `handleCorrectGuess`: stops the timer, ends the round and shows the
        score computed from the elapsed time read back from the timer fields. */
    method HandleCorrectGuess() returns (score: nat)
      requires Valid() && !gameOver
      modifies this`gameOver, this`timerRunning, this`finalScoreText
      ensures Valid() && gameOver && !timerRunning
      ensures score == CalculateScore(attempts, hintsUsed, ElapsedShown(), difficulty)
      ensures ParseDecimal(finalScoreText) == score
    {
      timerRunning := false;
      gameOver := true;
      var elapsedTime := ElapsedShown();
      score := CalculateScore(attempts, hintsUsed, elapsedTime, difficulty);
      finalScoreText := ToDecimal(score);
      ParseToDecimal(score);
    }

    /** `getHint`. A finished round gives no hint; otherwise one more hint is
        counted and the interval around the target is reported. */
    method GetHint() returns (hint: Option<Interval>)
      requires Valid()
      modifies this`hintsUsed
      ensures Valid()
      ensures old(gameOver) ==> hint == None && hintsUsed == old(hintsUsed)
      ensures !old(gameOver) ==> hintsUsed == old(hintsUsed) + 1 && hint == Some(Hint(minRange, maxRange, targetNumber))
      ensures hint.Some? ==> minRange <= hint.value.lo <= targetNumber <= hint.value.hi <= maxRange
    {
      if gameOver {
        return None;
      }
      hintsUsed := hintsUsed + 1;
      hint := Some(Hint(minRange, maxRange, targetNumber));
    }

    /** The entry `saveScore` builds from the name box, the score shown in the
        win dialog, the attempts, the timer text and the difficulty. */
    function NewEntry(nameInput: string, date: string): (e: Entry)
      reads this
      requires Valid()
      ensures e.name != [] && e.score == ParseDecimal(finalScoreText)
    {
      Entry(PlayerName(nameInput), ParseDecimal(finalScoreText), attempts,
            ElapsedTimeText(), difficulty, date)
    }

    /** `saveScore`: writes the top ten of the stored list and the new entry
        back to storage, then starts a new round (which throws, changing
        nothing more, when the difficulty is unrecognised). */
    method SaveScore(nameInput: string, date: string, k: nat) returns (restarted: bool)
      requires Valid() && IsDraw(difficulty, k)
      modifies this
      ensures Valid()
      ensures savedScores == Some(TopScores(Load(old(savedScores)), old(NewEntry(nameInput, date))))
      ensures restarted <==> Settings(difficulty).Some?
      ensures restarted ==> StartedRound(k)
      ensures !restarted ==>
                && targetNumber == old(targetNumber) && minRange == old(minRange) && maxRange == old(maxRange)
                && attempts == old(attempts) && hintsUsed == old(hintsUsed) && gameOver == old(gameOver)
                && timerRunning == old(timerRunning)
                && minutesText == old(minutesText) && secondsText == old(secondsText)
      ensures difficulty == old(difficulty) && finalScoreText == old(finalScoreText)
    {
      var gameData := NewEntry(nameInput, date);
      var highScores := Load(savedScores);
      savedScores := Some(TopScores(highScores, gameData));
      restarted := InitGame(k);
    }

    /** `changeDifficulty`: records the key, then starts a new round. */
    method ChangeDifficulty(key: string, k: nat) returns (started: bool)
      requires Valid() && IsDraw(ParseDifficulty(key), k)
      modifies this
      ensures Valid()
      ensures difficulty == ParseDifficulty(key) && Key(difficulty) == key
      ensures started <==> !difficulty.Unrecognised?
      ensures started ==> StartedRound(k)
      ensures !started ==>
                && targetNumber == old(targetNumber) && minRange == old(minRange) && maxRange == old(maxRange)
                && attempts == old(attempts) && hintsUsed == old(hintsUsed) && gameOver == old(gameOver)
                && timerRunning == old(timerRunning)
                && minutesText == old(minutesText) && secondsText == old(secondsText)
      ensures savedScores == old(savedScores) && finalScoreText == old(finalScoreText)
    {
      difficulty := ParseDifficulty(key);
      started := InitGame(k);
    }
  }

  /** An easy round whose target is drawn as 27: the guesses 10, 40 and 27 are judged too low, too high and
      correct, after which the round is over with three attempts. */
  method EasyRoundScenario()
  {
    var game := new Game(49, None);
    var started := game.ChangeDifficulty("easy", 26);
    assert started && game.targetNumber == 27 && game.maxRange == 50;
    var first := game.HandleGuess(Some(10));
    var second := game.HandleGuess(Some(40));
    assert first == Judged(TooLow) && second == Judged(TooHigh) && !game.gameOver;
    var third := game.HandleGuess(Some(27));
    assert third == Judged(Correct) && game.gameOver && game.attempts == 3;
    var late := game.HandleGuess(Some(27));
    assert late == Ignored && game.attempts == 3;
  }
}
