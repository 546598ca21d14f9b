/** The timer display of day3/advanced-script.js: elapsed seconds split into
    two zero-padded text fields, and read back from them when the round is won. */
module Clock {
  import opened DecimalText

  /** `updateTimer`: whole minutes and the seconds left over. */
  function Split(elapsed: nat): (ms: (nat, nat))
    ensures ms.1 < 60
    ensures ms.0 * 60 + ms.1 == elapsed
  {
    (elapsed / 60, elapsed % 60)
  }

  /** The minutes field as `updateTimer` writes it. */
  function MinutesText(elapsed: nat): string
  {
    TwoDigits(Split(elapsed).0)
  }

  /** The seconds field as `updateTimer` writes it. */
  function SecondsText(elapsed: nat): string
  {
    TwoDigits(Split(elapsed).1)
  }

  /** `handleCorrectGuess`: minutes times 60 plus seconds, parsed from the fields. */
  function ReadBack(minutesText: string, secondsText: string): nat
    requires IsDigits(minutesText) && IsDigits(secondsText)
  {
    ParseDecimal(minutesText) * 60 + ParseDecimal(secondsText)
  }

  /** `getElapsedTimeString`: "mm:ss". */
  function ElapsedTimeString(minutesText: string, secondsText: string): (t: string)
    ensures |t| == |minutesText| + 1 + |secondsText|
    ensures t[|minutesText|] == ':'
    ensures t[..|minutesText|] == minutesText && t[|minutesText| + 1..] == secondsText
  {
    minutesText + ":" + secondsText
  }

  /** What the score is computed from is exactly the elapsed time last shown;
      the seconds field always reads as less than 60. */
  lemma ReadBackShown(elapsed: nat)
    ensures IsDigits(MinutesText(elapsed)) && IsDigits(SecondsText(elapsed))
    ensures ParseDecimal(SecondsText(elapsed)) < 60
    ensures ReadBack(MinutesText(elapsed), SecondsText(elapsed)) == elapsed
  {
    ParseTwoDigits(Split(elapsed).0);
    ParseTwoDigits(Split(elapsed).1);
  }

  /** The split is the only one with fewer than 60 seconds. */
  lemma SplitUnique(elapsed: nat, minutes: nat, seconds: nat)
    requires seconds < 60 && minutes * 60 + seconds == elapsed
    ensures (minutes, seconds) == Split(elapsed)
  {
    var (m, s) := Split(elapsed);
    assert (minutes - m) * 60 == s - seconds;
  }
}
