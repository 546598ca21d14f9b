/** The high-score list of day3/advanced-script.js: the entry `saveScore`
    builds, the top-ten list it writes back, and what `displayHighScores` shows. */
module Leaderboard {
  import opened Wrappers
  import opened DecimalText
  import opened Scoring

  /** One saved result: the `gameData` object. */
  datatype Entry = Entry(name: string, score: nat, attempts: nat, time: string,
                         difficulty: Difficulty, date: string)

  /** Entries kept in storage. */
  const Capacity: nat := 10
  /** Entries shown in the list. */
  const Shown: nat := 5
  const AnonymousName: string := "Anonymous"
  const NoScoresLine: string := "No high scores yet"

  /** The characters `String.prototype.trim` removes: white space and line
      terminators. */
  predicate IsWhitespace(c: char)
  {
    c == ' ' || c == '\t' || c == '\n' || c == '\r' || c == '\U{000B}' || c == '\U{000C}'
    || c == '\U{00A0}' || c == '\U{1680}' || ('\U{2000}' <= c <= '\U{200A}')
    || c == '\U{2028}' || c == '\U{2029}' || c == '\U{202F}' || c == '\U{205F}'
    || c == '\U{3000}' || c == '\U{FEFF}'
  }

  /** The number of white-space characters at the start of `s`. */
  function LeadingSpace(s: string): (n: nat)
    ensures n <= |s|
    ensures forall i :: 0 <= i < n ==> IsWhitespace(s[i])
    ensures n < |s| ==> !IsWhitespace(s[n])
  {
    if s == [] || !IsWhitespace(s[0]) then 0 else 1 + LeadingSpace(s[1..])
  }

  /** The number of white-space characters at the end of `s`. */
  function TrailingSpace(s: string): (n: nat)
    ensures n <= |s|
    ensures forall i :: |s| - n <= i < |s| ==> IsWhitespace(s[i])
    ensures n < |s| ==> !IsWhitespace(s[|s| - 1 - n])
  {
    if s == [] || !IsWhitespace(s[|s| - 1]) then 0 else 1 + TrailingSpace(s[..|s| - 1])
  }

  /** `s.trim()`: the input without its leading and trailing white space. It is
      empty exactly when the input is all white space. */
  function Trim(s: string): (r: string)
    ensures r == [] <==> forall i :: 0 <= i < |s| ==> IsWhitespace(s[i])
    ensures r != [] ==> !IsWhitespace(r[0]) && !IsWhitespace(r[|r| - 1])
    ensures r != [] ==> r == s[LeadingSpace(s)..|s| - TrailingSpace(s)]
  {
    var t := s[LeadingSpace(s)..];
    t[..|t| - TrailingSpace(t)]
  }

  /** `playerNameInput.value.trim() || "Anonymous"`: never empty. */
  function PlayerName(input: string): (name: string)
    ensures name != []
    ensures Trim(input) == [] ==> name == AnonymousName
    ensures Trim(input) != [] ==> name == Trim(input)
  {
    var trimmed := Trim(input);
    if trimmed == [] then AnonymousName else trimmed
  }

  /** `JSON.parse(localStorage.getItem(...)) || []`: an absent slot reads as
      the empty list. */
  function Load(slot: Option<seq<Entry>>): (s: seq<Entry>)
    ensures slot.None? ==> s == []
    ensures slot.Some? ==> s == slot.value
  {
    if slot.Some? then slot.value else []
  }

  /** Non-increasing by score, highest first. */
  predicate SortedByScore(s: seq<Entry>)
  {
    forall i, j :: 0 <= i < j < |s| ==> s[i].score >= s[j].score
  }

  /** An entry scoring at least the head of a sorted list may go in front of it. */
  lemma SortedCons(x: Entry, t: seq<Entry>)
    requires SortedByScore(t) && (t != [] ==> t[0].score <= x.score)
    ensures SortedByScore([x] + t)
  {
    var r := [x] + t;
    forall i, j | 0 <= i < j < |r| ensures r[i].score >= r[j].score {
      if i == 0 && j > 1 {
        assert r[j] == t[j - 1] && t[0].score >= t[j - 1].score;
      }
    }
  }

  /** The step of `Insert` that keeps the head: when `e` scores no more than
      the head of `s`, the head followed by `e` inserted into the rest is
      sorted and holds `s` and `e`. */
  lemma InsertBelowHead(e: Entry, s: seq<Entry>, rest: seq<Entry>)
    requires SortedByScore(s) && s != [] && e.score <= s[0].score
    requires SortedByScore(rest) && multiset(rest) == multiset(s[1..]) + multiset{e}
    requires rest != [] && (rest[0] == e || (s[1..] != [] && rest[0] == s[1..][0]))
    ensures SortedByScore([s[0]] + rest)
    ensures multiset([s[0]] + rest) == multiset(s) + multiset{e}
  {
    SortedCons(s[0], rest);
    assert s == [s[0]] + s[1..];
  }

  /** Inserts `e` into a sorted list after every entry that scores at least as
      much, so that equal scores keep their order. */
  function Insert(e: Entry, s: seq<Entry>): (r: seq<Entry>)
    requires SortedByScore(s)
    ensures SortedByScore(r)
    ensures multiset(r) == multiset(s) + multiset{e}
    ensures |r| == |s| + 1 && (r[0] == e || (s != [] && r[0] == s[0]))
  {
    if s == [] || s[0].score < e.score then
      SortedCons(e, s);
      [e] + s
    else
      var rest := Insert(e, s[1..]);
      InsertBelowHead(e, s, rest);
      [s[0]] + rest
  }

  /** `highScores.sort((a, b) => b.score - a.score)`, as an insertion sort. */
  function SortByScore(s: seq<Entry>): (r: seq<Entry>)
    ensures SortedByScore(r)
    ensures multiset(r) == multiset(s)
    ensures |r| == |s|
  {
    if s == [] then []
    else
      assert s == s[..|s| - 1] + [s[|s| - 1]];
      Insert(s[|s| - 1], SortByScore(s[..|s| - 1]))
  }

  /** The list `saveScore` writes back: the stored entries and the new one,
      sorted, cut to the first ten. It keeps the highest scores: every entry
      dropped scores no more than every entry kept. */
  function TopScores(stored: seq<Entry>, e: Entry): (r: seq<Entry>)
    ensures |r| == if |stored| + 1 < Capacity then |stored| + 1 else Capacity
    ensures SortedByScore(r)
    ensures multiset(r) <= multiset(stored + [e])
    ensures |stored| < Capacity ==> multiset(r) == multiset(stored + [e])
    ensures forall x, y :: x in multiset(stored + [e]) - multiset(r) && y in r ==> x.score <= y.score
  {
    var all := SortByScore(stored + [e]);
    var n := if |all| < Capacity then |all| else Capacity;
    assert n == |all| ==> all[..n] == all;
    SortedPrefixKeepsHighest(all, n);
    all[..n]
  }

  /** What a prefix leaves of a list is its suffix. */
  lemma PrefixRemainder(all: seq<Entry>, n: nat)
    requires n <= |all|
    ensures multiset(all[..n]) <= multiset(all)
    ensures multiset(all) - multiset(all[..n]) == multiset(all[n..])
  {
    assert all == all[..n] + all[n..];
  }

  /** A prefix of a sorted list holds its highest scores. */
  lemma SortedPrefixKeepsHighest(all: seq<Entry>, n: nat)
    requires SortedByScore(all) && n <= |all|
    ensures SortedByScore(all[..n])
    ensures multiset(all[..n]) <= multiset(all)
    ensures forall x, y :: x in multiset(all) - multiset(all[..n]) && y in all[..n] ==> x.score <= y.score
  {
    PrefixRemainder(all, n);
    forall x, y | x in multiset(all) - multiset(all[..n]) && y in all[..n]
      ensures x.score <= y.score
    {
      assert x in all[n..];
      var i :| n <= i < |all| && all[i] == x;
      var j :| 0 <= j < n && all[j] == y;
    }
  }

  /** The line shown for one entry: "name: score (difficulty)". */
  function EntryLine(e: Entry): string
  {
    e.name + ": " + ToDecimal(e.score) + " (" + Key(e.difficulty) + ")"
  }

  /** The lines of the high-score list: one per entry for the first five, or
      the single "No high scores yet" line when there is none. */
  function DisplayLines(slot: Option<seq<Entry>>): (lines: seq<string>)
    ensures 1 <= |lines| <= Shown
    ensures Load(slot) == [] ==> lines == [NoScoresLine]
    ensures Load(slot) != [] ==> |lines| == (if |Load(slot)| < Shown then |Load(slot)| else Shown)
    ensures Load(slot) != [] ==> forall i :: 0 <= i < |lines| ==> lines[i] == EntryLine(Load(slot)[i])
  {
    var s := Load(slot);
    var first := s[..if |s| < Shown then |s| else Shown];
    seq(|first|, i requires 0 <= i < |first| => EntryLine(first[i]))
      + (if |s| == 0 then [NoScoresLine] else [])
  }
}
