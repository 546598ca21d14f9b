# Guess-the-number games and the Markdown title, in Dafny

This project models the logic of three browser scripts:

- **The advanced guessing game** (`day3/advanced-script.js`). A round has a difficulty (easy 1–50, medium 1–100, hard 1–200), a target, an attempt counter, a hint counter, a game-over flag and a one-second timer shown as "mm:ss". A counted guess is judged too low, too high or correct. A hint reports an interval around the target. A win is scored from the attempts, the hints and the time shown. The score can be saved to a top-ten list kept in browser storage.
- **The basic guessing game** (`day3/script.js`). The range is fixed at 1–100. The submit button's label changes to "Play Again" when the round is won, and a click on it then starts a new round.
- **The Markdown viewer's title** (`md-to-html.js`). The title of a rendered file is derived from its path.

Each game's module-level variables are the fields of a class (`AdvancedGame.Game`, `BasicGame.Game`). Its event handlers are methods of that class. Each method's postcondition gives the new state in terms of the old one.

The pure parts are functions with lemmas about them:
- the scoring formula (`Scoring`)
- the hint interval (`Hints`)
- the timer text (`Clock`, `DecimalText`)
- the high-score list (`Leaderboard`)
- the title (`MarkdownTitle`)

Both games share the guess check and the three-way comparison (`GuessRules`).

Inputs the scripts get from outside the program are parameters:
- The draw `Math.floor(Math.random() * n)` is a number `k` with `0 <= k < n`.
- The parsed guess is an `Option<int>`, where `None` stands for NaN.
- The seconds elapsed since the round started are passed to `UpdateTimer`.
- The player's name box and the date string are passed to `SaveScore`.

Behaviour of the code that the model keeps:
- **Unknown difficulty.** `initGame` throws at the settings lookup (`day3/advanced-script.js:46`); it has no fallback range. The model returns `false` and leaves the round as it was.
- **Score arithmetic.** The time penalty counts whole five-second steps: 65 seconds are 13 steps, a penalty of 130, so 10 attempts, 2 hints and 65 seconds on medium score 670.
- **Corrupt stored list.** An unparsable stored list makes `JSON.parse` throw; it is not read as empty. This case is left out (see below).
- **Hint corrections.** The corrections at lines 241–242 never take effect. `Hints.Hint` proves that the interval is always `[max(min, t − w), min(max, t + w)]`.

The functions below model single source expressions. They carry no contract of their own; the members in the table below state their properties:
- `GuessRules.Accepts`: the guess check of `day3/advanced-script.js:124` and `day3/script.js:49`.
- `DecimalText.ParseDecimal`: `parseInt` of a digit string (`day3/advanced-script.js:180-182` and `:269`).
- `DecimalText.TwoDigits`, `Clock.MinutesText` and `Clock.SecondsText`: the timer fields as written at `day3/advanced-script.js:98-102`.
- `Clock.ReadBack`: the elapsed time read back from the fields at `day3/advanced-script.js:180-182`. `AdvancedGame.Game.ElapsedShown` applies it to the game's fields.
- `Scoring.BaseScore`: the multiplier switch and the base score (`day3/advanced-script.js:199-217`).
- `Scoring.Penalty`: the three penalties (`day3/advanced-script.js:218-220`).
- `Scoring.Key`: the difficulty string that is stored in an entry (`day3/advanced-script.js:275`) and shown in the list (`:313`).
- `Leaderboard.EntryLine`: one line of the high-score list (`day3/advanced-script.js:313`).
- `AdvancedGame.Game.ElapsedTimeText`: `getElapsedTimeString` (`day3/advanced-script.js:111-113`), used for the entry's time at `:274`.

## Model

| member | source | states |
|---|---|---|
| `GuessRules.Classify` | day3/advanced-script.js:143-156 | a counted guess is judged correct iff it equals the target, too low iff it is smaller, too high iff it is larger |
| `DecimalText.ToDecimal` | day3/advanced-script.js:101-102 | `toString` of a non-negative integer is a non-empty digit string. Its first digit is 0 only for 0. It has one digit exactly below 10 |
| `DecimalText.PadTwo` | day3/advanced-script.js:101-102 | `padStart(2, "0")` gives length max(2, \|s\|). It ends with `s` and prepends only zeros |
| `DecimalText.ParseToDecimal` | day3/advanced-script.js:180-182 | `parseInt` of what `toString` wrote gives back the number |
| `DecimalText.ParseLeadingZero` | day3/advanced-script.js:180-182 | a leading "0" does not change what `parseInt` reads |
| `DecimalText.ParseTwoDigits` | day3/advanced-script.js:101-102 | a zero-padded timer field reads back as the number that was written |
| `Scoring.ParseDifficulty` | day3/advanced-script.js:325-326 | the stored difficulty keeps the key it was given. It is unrecognised exactly when the key is not "easy", "medium" or "hard" |
| `Scoring.Settings` | day3/advanced-script.js:37-47 | the lookup fails exactly for an unrecognised difficulty. Every row starts at 1 and has min < max |
| `Scoring.CalculateScore` | day3/advanced-script.js:199-225 | the score is at most the base (1000/1500/2000, default 1000). It is 0 exactly when the penalties 50·attempts + 100·hints + 10·⌊time/5⌋ reach the base. Otherwise score + penalties = base |
| `Scoring.ScoreMonotone` | day3/advanced-script.js:216-225 | more attempts, hints or seconds never raise the score |
| `Scoring.PerfectHardScore` | day3/advanced-script.js:199-225 | on hard, 0 attempts, 0 hints and 0 seconds score the full base of 2000 |
| `Scoring.MediumScoreExample` | day3/advanced-script.js:199-225 | a medium round with 10 attempts, 2 hints and 65 seconds scores 1500 − 500 − 200 − 130 = 670 |
| `Scoring.UnrecognisedScoresAsEasy` | day3/advanced-script.js:212-213 | the `default` multiplier scores an unrecognised difficulty like easy |
| `Hints.HintRange` | day3/advanced-script.js:236 | the half-width is at least 10 and at least a quarter of the range's width, less the rounding |
| `Hints.Hint` | day3/advanced-script.js:236-242 | the two corrections never change a bound: the interval is [max(min, t−w), min(max, t+w)]. For a target in range it satisfies min ≤ lo ≤ target ≤ hi ≤ max |
| `Hints.HintWidth` | day3/advanced-script.js:236-242 | for a target in range the interval is at least min(max − min, 10) wide |
| `Clock.Split` | day3/advanced-script.js:97-99 | the seconds are below 60 and minutes·60 + seconds is the elapsed time |
| `Clock.SplitUnique` | day3/advanced-script.js:98-99 | no other minutes/seconds pair with seconds below 60 gives the same total |
| `Clock.ElapsedTimeString` | day3/advanced-script.js:111-113 | the time string is the minutes field, ":", then the seconds field |
| `Clock.ReadBackShown` | day3/advanced-script.js:180-183 | the elapsed time parsed back from the two timer fields is exactly the elapsed time that was shown, and the seconds field reads below 60 |
| `Leaderboard.LeadingSpace` | day3/advanced-script.js:268 | counts the leading white space: everything before it is white space and the next character is not |
| `Leaderboard.TrailingSpace` | day3/advanced-script.js:268 | the same for the trailing white space |
| `Leaderboard.Trim` | day3/advanced-script.js:268 | `trim()` is empty iff the input is all white space. Otherwise it is the input between the leading and trailing white space, and it starts and ends with a non-space |
| `Leaderboard.PlayerName` | day3/advanced-script.js:268 | the name is never empty. It is "Anonymous" when the trimmed input is empty, and the trimmed input otherwise |
| `Leaderboard.Load` | day3/advanced-script.js:280-281 | an absent storage slot reads as the empty list |
| `Leaderboard.Insert` | day3/advanced-script.js:287 | inserting into a list sorted by descending score keeps it sorted and adds exactly the new entry |
| `Leaderboard.SortByScore` | day3/advanced-script.js:287 | the sort yields a list in descending score order that is a permutation of its input |
| `Leaderboard.SortedPrefixKeepsHighest` | day3/advanced-script.js:289-290 | a prefix of a sorted list is sorted, and no entry cut off scores above an entry kept |
| `Leaderboard.TopScores` | day3/advanced-script.js:283-290 | the saved list has min(old length + 1, 10) entries and is sorted by descending score. Its entries come from old ++ [new], all of them while fewer than 10 were stored. Every dropped entry scores at most every kept one |
| `Leaderboard.DisplayLines` | day3/advanced-script.js:306-321 | the display shows "No high scores yet" alone for an empty or absent list. Otherwise it shows one "name: score (difficulty)" line for each of the first min(length, 5) entries, in order |
| `AdvancedGame.Game.constructor` | day3/advanced-script.js:394-397 | page load leaves a valid medium round started with the given draw and the stored list as it was |
| `AdvancedGame.Game.InitGame` | day3/advanced-script.js:44-87 | a recognised difficulty gives its table range, target min + k, zero attempts and hints, an open round and the timer at "00:00". An unrecognised one throws and changes nothing |
| `AdvancedGame.Game.UpdateTimer` | day3/advanced-script.js:95-103 | the timer fields show the split of the elapsed seconds and read back as exactly that many seconds |
| `AdvancedGame.Game.HandleGuess` | day3/advanced-script.js:116-161 | a finished round changes nothing. A NaN or out-of-range guess changes nothing. A valid guess adds exactly one attempt and is classified, and the round ends iff it hits the target. The shown score is then CalculateScore of the attempts, hints and elapsed time shown. The target, range, hints and stored list never change |
| `AdvancedGame.Game.HandleCorrectGuess` | day3/advanced-script.js:164-196 | the round ends, the timer stops, and the dialog's score text reads back as the score of the attempts, hints and time shown |
| `AdvancedGame.Game.GetHint` | day3/advanced-script.js:229-252 | a finished round gives no hint and counts none. Otherwise exactly one hint is counted, and the reported interval is `Hint` of the range and target, inside the range and around the target |
| `AdvancedGame.Game.NewEntry` | day3/advanced-script.js:267-277 | the saved entry has a non-empty name and the score shown in the win dialog |
| `AdvancedGame.Game.SaveScore` | day3/advanced-script.js:267-303 | storage then holds `TopScores` of the old list (absent = empty) and the new entry. A new round follows, unless the difficulty is unrecognised, in which case the round state is untouched |
| `AdvancedGame.Game.ChangeDifficulty` | day3/advanced-script.js:325-339 | the difficulty takes the key. A recognised key starts a new round in its range. An unrecognised one leaves the round as it was |
| `BasicGame.Game.constructor` | day3/script.js:104-105 | page load leaves a valid open round with target k + 1, no attempts and the label "Submit Guess" |
| `BasicGame.Game.PlayAgainRequested` | day3/script.js:40 | under the invariant gameOver ⇔ label = "Play Again", the two-part guard is equivalent to gameOver alone |
| `BasicGame.Game.InitGame` | day3/script.js:14-35 | target in [1,100] (k + 1), zero attempts, round open, label "Submit Guess", and the invariant holds |
| `BasicGame.Game.HandleGuess` | day3/script.js:38-93 | a finished round restarts. A NaN or a guess outside [1,100] changes nothing. A valid guess adds exactly one attempt, keeps the target, and is classified. gameOver and the "Play Again" label both become true iff it hits the target. The invariant is preserved |
| `MarkdownTitle.LastSegment` | md-to-html.js:29 | `split("/").pop()` is the longest "/"-free suffix of the path: it is the whole path or is preceded by "/" |
| `MarkdownTitle.FindExtension` | md-to-html.js:29 | finds the first index where ".md" starts, or reports that there is none |
| `MarkdownTitle.RemoveExtension` | md-to-html.js:29 | `replace(".md", "")` removes only the first ".md" and leaves a name without one unchanged |
| `MarkdownTitle.FileName` | md-to-html.js:29 | every character of the file name comes from the path and is not "/" |
| `MarkdownTitle.LastSegmentAfterSlash` | md-to-html.js:29 | the last segment of "dir/name" is `name` when `name` has no "/" |
| `MarkdownTitle.FileNameAfterSlash` | md-to-html.js:29 | the file name of "dir/name" is `name` less its first ".md" |
| `MarkdownTitle.FirstExtensionRemoved` | md-to-html.js:29 | "stem.md…" loses exactly that ".md" when `stem` has none, so "a.md.md" becomes "a.md" |
| `MarkdownTitle.UpperAscii` | md-to-html.js:31 | `toUpperCase` maps "a"–"z" to "A"–"Z" and keeps every other 7-bit character |
| `MarkdownTitle.HyphensToSpaces` | md-to-html.js:32 | `replace(/-/g, " ")` keeps the length, turns every "-" into a space and keeps everything else |
| `MarkdownTitle.TitleCase` | md-to-html.js:30-32 | the title made from a file name is as long as the name. Its first character is the upper-cased first character, never turned into a space. Each later "-" becomes a space and each other later character is kept. It holds a "/" only if the name does |
| `MarkdownTitle.Title` | md-to-html.js:29-32 | the title is as long as the file name. Its first character is the upper-cased first character, never turned into a space. Each later "-" becomes a space and each other later character is kept. It has no "/" |
| `MarkdownTitle.EmptyTitleForDirectory` | md-to-html.js:29-32 | a path ending in "/" yields an empty title |

## Left out

- All DOM output is presentation and is not modelled. That covers messages and their CSS classes, the guess history list, `disabled` flags, placeholders, the win dialog's display and the focus calls.
- The temperature gauge (`updateTemperatureGauge`) is not modelled. It only computes a floating-point percentage for a CSS position.
- The confetti effect and the `setTimeout` that shows the dialog are not modelled. They are presentation only.
- `setInterval`, `clearInterval` and `new Date()` are not modelled. The interval is the field `timerRunning`, and the elapsed seconds are a parameter of `UpdateTimer`.
- AdvancedGame.Game.UpdateTimer: requires `timerRunning`, because the interval calls `updateTimer` only while it is set.
- AdvancedGame.Game.UpdateTimer: elapsed seconds are a `nat`. This assumes the wall clock does not go back during a round. With a negative difference, `/` floors at line 98 but `%` truncates at line 99, so the fields do not read back as the elapsed time (−61 shows "-2" and "-1", read back as −121). The time penalty at line 220 then becomes negative, and the score can exceed the base.
- Clock.Split: the elapsed time is a `nat`, so the mixed floor/truncation split of a negative time is not modelled.
- Scoring.CalculateScore: the time is a `nat`. With a negative time, the penalty at line 220 is negative and the score exceeds the base; that case is not modelled.
- The `console.log` of the target in `initGame` (`day3/advanced-script.js:86`, `day3/script.js:34`) is debugging output and is not modelled.
- `Math.random` is not modelled. Each draw is a parameter `k` in the range the expression can produce.
- `parseInt` of the text typed by the player is not modelled. A guess arrives already parsed as an `Option<int>`, with `None` for NaN. Partial parses such as "12abc" → 12 are the caller's business.
- `localStorage`, `JSON.parse` and `JSON.stringify` are not modelled. The storage slot is the field `savedScores`. A slot holding invalid JSON would make `JSON.parse` throw, and that case is not modelled. Every stored entry is assumed to have the shape this script writes, with a non-negative score.
- Leaderboard.SortByScore: it is a stable insertion sort, but only sortedness and permutation are stated. The order of entries with equal scores is not part of the contract.
- The date from `toLocaleDateString` is an opaque string parameter.
- Looking up an inherited key such as "constructor" in `difficultySettings` yields a value instead of throwing. The model treats every key other than the three table keys as throwing. Difficulty buttons only carry table keys.
- AdvancedGame.Game.constructor: the win dialog's score text before any win comes from the HTML page, which is not part of this model. The constructor takes it to be "0".
- Scoring.CalculateScore: scores are exact integers. JavaScript computes them in double precision, which is exact for these magnitudes, below 2^53.
- MarkdownTitle.TitleCase: requires a 7-bit name, for the reason given for Title.
- MarkdownTitle.Title: requires a 7-bit path, because `toUpperCase` of other characters can change length (for example "ß" becomes "SS"). That case is not modelled.
- The rest of md-to-html.js is not modelled. That covers `fetch` and its error alert, `marked.parse`, `hljs`, the overlay and its close handlers, and the `md` URL parameter. These are network, foreign-library and UI calls.
- Event-listener wiring is not modelled; it only dispatches to the modelled handlers. The "Play Again" button of the advanced game calls `initGame`, which is `InitGame`.
