/** The schedule-intent test of a chat turn (src/server.ts): the user text
    matches `\b(remind|schedule|later|in \d+ (minutes?|hours?|days?))\b`
    case-insensitively. Only when it does are the scheduling tools offered
    to the model.

    The pattern is described by its two word lists: the plain keywords and
    the time units that may follow `in <digits> `. The proofs hold for any
    word lists; `Schedule` is the one the agent uses. */
module Intent {
  import opened Text

  datatype Pattern = Pattern(keywords: seq<string>, units: seq<string>)

  const Schedule := Pattern(["remind", "schedule", "later"], ["minute", "minutes", "hour", "hours", "day", "days"])

  /** `\w`: an ASCII letter, digit or underscore. */
  predicate IsWordChar(c: char) {
    'a' <= c <= 'z' || 'A' <= c <= 'Z' || '0' <= c <= '9' || c == '_'
  }

  predicate IsDigit(c: char) {
    '0' <= c <= '9'
  }

  /** Position `i` holds a word character; positions outside `s` do not. */
  predicate WordAt(s: string, i: int) {
    0 <= i < |s| && IsWordChar(s[i])
  }

  /** `\b` at position `i`: a word character on exactly one side. */
  predicate Boundary(s: string, i: int) {
    WordAt(s, i - 1) != WordAt(s, i)
  }

  /** The literal `w` occurs in `s` at position `p`. */
  predicate LiteralAt(s: string, p: int, w: string) {
    0 <= p && p + |w| <= |s| && s[p..p + |w|] == w
  }

  predicate AllDigits(s: string, a: int, b: int)
    requires 0 <= a <= b <= |s|
  {
    forall k | a <= k < b :: IsDigit(s[k])
  }

  /** `in \d+ (unit)` spans `s[p..q]`, with the digits ending at `d`. */
  predicate RelativeTimeAt(pat: Pattern, s: string, p: int, d: int, q: int) {
    0 <= p && p + 3 < d < q <= |s|
    && LiteralAt(s, p, "in ") && AllDigits(s, p + 3, d) && s[d] == ' '
    && exists u | u in pat.units :: q == d + 1 + |u| && LiteralAt(s, d + 1, u)
  }

  /** One alternative of the group spans `s[p..q]`. */
  predicate AlternativeAt(pat: Pattern, s: string, p: int, q: int) {
    0 <= p <= q <= |s|
    && ((exists w | w in pat.keywords :: q == p + |w| && LiteralAt(s, p, w))
        || (exists d | p + 3 < d < q :: RelativeTimeAt(pat, s, p, d, q)))
  }

  /** The regular expression, as a statement about the lower-cased text:
      some alternative lies between two word boundaries. */
  predicate WantsSchedule(text: string) {
    var t := Lower(text);
    exists p, q | 0 <= p <= q <= |t| :: Boundary(t, p) && AlternativeAt(Schedule, t, p, q) && Boundary(t, q)
  }

  /** Some alternative between two boundaries starts at `p`. */
  predicate MatchesAt(pat: Pattern, s: string, p: int) {
    exists q | p <= q <= |s| :: Boundary(s, p) && AlternativeAt(pat, s, p, q) && Boundary(s, q)
  }

  // ---------------------------------------------------------------------
  // A scanner that decides the test
  // ---------------------------------------------------------------------

  /** The end of the run of digits that starts at `i`. */
  function DigitRunEnd(s: string, i: nat): (d: nat)
    requires i <= |s|
    ensures i <= d <= |s| && AllDigits(s, i, d)
    ensures d == |s| || !IsDigit(s[d])
    decreases |s| - i
  {
    if i < |s| && IsDigit(s[i]) then DigitRunEnd(s, i + 1) else i
  }

  /** The word `w` occurs at `p` and is followed by a boundary. */
  predicate WordMatch(s: string, p: int, w: string) {
    LiteralAt(s, p, w) && Boundary(s, p + |w|)
  }

  /** Some alternative, followed by a boundary, starts at `p`; only the
      finitely many candidate ends are tried. */
  predicate MatchAt(pat: Pattern, s: string, p: nat)
    requires p <= |s|
  {
    Boundary(s, p)
    && ((exists w | w in pat.keywords :: WordMatch(s, p, w))
        || (LiteralAt(s, p, "in ")
            && var d := DigitRunEnd(s, p + 3);
               d > p + 3 && d < |s| && s[d] == ' '
               && exists u | u in pat.units :: WordMatch(s, d + 1, u)))
  }

  /** The first start position from `p` up to `n` at which `test` holds,
      tried in turn as a regular-expression engine does. */
  function ScanWith(test: nat -> bool, n: nat, p: nat): bool
    decreases n - p
  {
    p <= n && (test(p) || (p < n && ScanWith(test, n, p + 1)))
  }

  /** The scan succeeds exactly when the test holds somewhere in range. */
  lemma {:induction false} ScanWithIff(test: nat -> bool, n: nat, p: nat)
    requires p <= n
    ensures ScanWith(test, n, p) <==> exists i | p <= i <= n :: test(i)
    decreases n - p
  {
    if p < n {
      ScanWithIff(test, n, p + 1);
      if exists i | p <= i <= n :: test(i) {
        var i :| p <= i <= n && test(i);
        if i > p {
          assert p + 1 <= i <= n && test(i);
        }
      }
    }
  }

  /** Digits followed by a space end where the run of digits ends. */
  lemma DigitsEndAtRunEnd(s: string, a: nat, d: nat)
    requires a <= d < |s| && AllDigits(s, a, d) && s[d] == ' '
    ensures DigitRunEnd(s, a) == d
    decreases d - a
  {
    if a < d {
      DigitsEndAtRunEnd(s, a + 1, d);
    }
  }

  /** The scanner's test at one position only accepts matches. */
  lemma MatchAtSound(pat: Pattern, s: string, p: nat)
    requires p <= |s| && MatchAt(pat, s, p)
    ensures MatchesAt(pat, s, p)
  {
    if exists w | w in pat.keywords :: WordMatch(s, p, w) {
      var w :| w in pat.keywords && WordMatch(s, p, w);
      KeywordIsAlternative(pat, s, p, w);
    } else {
      var d := DigitRunEnd(s, p + 3);
      var u :| u in pat.units && WordMatch(s, d + 1, u);
      RelativeTimeIsAlternative(pat, s, p, d, u);
    }
  }

  lemma KeywordIsAlternative(pat: Pattern, s: string, p: nat, w: string)
    requires p <= |s| && w in pat.keywords && Boundary(s, p) && WordMatch(s, p, w)
    ensures MatchesAt(pat, s, p)
  {
    assert AlternativeAt(pat, s, p, p + |w|);
  }

  lemma RelativeTimeIsAlternative(pat: Pattern, s: string, p: nat, d: nat, u: string)
    requires p <= |s| && Boundary(s, p) && LiteralAt(s, p, "in ")
    requires p + 3 < d < |s| && AllDigits(s, p + 3, d) && s[d] == ' '
    requires u in pat.units && WordMatch(s, d + 1, u)
    ensures MatchesAt(pat, s, p)
  {
    assert RelativeTimeAt(pat, s, p, d, d + 1 + |u|);
    assert AlternativeAt(pat, s, p, d + 1 + |u|);
  }

  /** The scanner's test at one position finds every match. */
  lemma MatchAtComplete(pat: Pattern, s: string, p: nat)
    requires p <= |s| && MatchesAt(pat, s, p)
    ensures MatchAt(pat, s, p)
  {
    var q :| p <= q <= |s| && Boundary(s, p) && AlternativeAt(pat, s, p, q) && Boundary(s, q);
    if exists w | w in pat.keywords :: q == p + |w| && LiteralAt(s, p, w) {
      var w :| w in pat.keywords && q == p + |w| && LiteralAt(s, p, w);
      assert WordMatch(s, p, w);
      KeywordFound(pat, s, p, w);
    } else {
      assert exists d | p + 3 < d < q :: RelativeTimeAt(pat, s, p, d, q);
      var d :| p + 3 < d < q && RelativeTimeAt(pat, s, p, d, q);
      RelativeTimeFound(pat, s, p, d, q);
    }
  }

  lemma KeywordFound(pat: Pattern, s: string, p: nat, w: string)
    requires p <= |s| && w in pat.keywords && Boundary(s, p) && WordMatch(s, p, w)
    ensures MatchAt(pat, s, p)
  {
  }

  lemma RelativeTimeFound(pat: Pattern, s: string, p: nat, d: int, q: int)
    requires p <= |s| && Boundary(s, p) && Boundary(s, q) && RelativeTimeAt(pat, s, p, d, q)
    ensures MatchAt(pat, s, p)
  {
    DigitsEndAtRunEnd(s, p + 3, d);
    var u :| u in pat.units && q == d + 1 + |u| && LiteralAt(s, d + 1, u);
    assert WordMatch(s, d + 1, u);
  }

  /** The regular expression holds of `t` exactly when the scanner's test
      holds at some position. */
  lemma SpecAsMatches(pat: Pattern, t: string)
    ensures (exists p, q | 0 <= p <= q <= |t| :: Boundary(t, p) && AlternativeAt(pat, t, p, q) && Boundary(t, q))
        <==> (exists p | 0 <= p <= |t| :: MatchAt(pat, t, p))
  {
    if exists p, q | 0 <= p <= q <= |t| :: Boundary(t, p) && AlternativeAt(pat, t, p, q) && Boundary(t, q) {
      var p, q :| 0 <= p <= q <= |t| && Boundary(t, p) && AlternativeAt(pat, t, p, q) && Boundary(t, q);
      assert MatchesAt(pat, t, p);
      MatchAtComplete(pat, t, p);
    }
    if exists p | 0 <= p <= |t| :: MatchAt(pat, t, p) {
      var p :| 0 <= p <= |t| && MatchAt(pat, t, p);
      MatchAtSound(pat, t, p);
    }
  }

  /** The scanner's test for the agent's pattern on `t`. */
  function ScheduleTest(t: string): nat -> bool {
    (i: nat) => i <= |t| && MatchAt(Schedule, t, i)
  }

  /** The scan's test holds somewhere exactly when the regular expression
      matches. */
  lemma ScheduleTestIff(t: string)
    ensures (exists i | 0 <= i <= |t| :: ScheduleTest(t)(i))
        <==> (exists p, q | 0 <= p <= q <= |t| :: Boundary(t, p) && AlternativeAt(Schedule, t, p, q) && Boundary(t, q))
  {
    SpecAsMatches(Schedule, t);
    if exists i | 0 <= i <= |t| :: ScheduleTest(t)(i) {
      var i :| 0 <= i <= |t| && ScheduleTest(t)(i);
      assert MatchAt(Schedule, t, i);
    }
    if exists p | 0 <= p <= |t| :: MatchAt(Schedule, t, p) {
      var p :| 0 <= p <= |t| && MatchAt(Schedule, t, p);
      assert ScheduleTest(t)(p);
    }
  }

  /** `wantsSchedule`: a scan of the lower-cased text decides the regular
      expression. */
  function ScheduleIntent(text: string): (r: bool)
    ensures r <==> WantsSchedule(text)
  {
    var t := Lower(text);
    ScanWithIff(ScheduleTest(t), |t|, 0);
    ScheduleTestIff(t);
    ScanWith(ScheduleTest(t), |t|, 0)
  }

  // ---------------------------------------------------------------------
  // Two turns
  // ---------------------------------------------------------------------

  const ReminderText := "remind me in 10 minutes to update"
  const QuestionText := "what package manager should I use"

  /** A reminder request offers the tools: "remind" stands between two
      boundaries at the very start. */
  lemma ReminderWantsSchedule()
    ensures ScheduleIntent(ReminderText)
  {
    var t := Lower(ReminderText);
    assert t[..6] == "remind" && t[6] == ' ';
    assert "remind" in Schedule.keywords;
    assert AlternativeAt(Schedule, t, 0, 6);
    assert Boundary(t, 0) && Boundary(t, 6);
  }

  /** The first two characters of an alternative. */
  predicate StartPair(a: char, b: char) {
    (a == 'r' && b == 'e') || (a == 's' && b == 'c') || (a == 'l' && b == 'a') || (a == 'i' && b == 'n')
  }

  /** Every alternative of the agent's pattern begins with one of four pairs. */
  lemma AlternativeStartsWithPair(t: string, p: int, q: int)
    requires AlternativeAt(Schedule, t, p, q)
    ensures p + 1 < |t| && StartPair(t[p], t[p + 1])
  {
    if exists w | w in Schedule.keywords :: q == p + |w| && LiteralAt(t, p, w) {
      var w :| w in Schedule.keywords && q == p + |w| && LiteralAt(t, p, w);
      KeywordStartsWithPair(w);
      LiteralStart(t, p, w);
    } else {
      var d :| p + 3 < d < q && RelativeTimeAt(Schedule, t, p, d, q);
      LiteralStart(t, p, "in ");
    }
  }

  lemma KeywordStartsWithPair(w: string)
    requires w in Schedule.keywords
    ensures |w| >= 2 && StartPair(w[0], w[1])
  {
  }

  /** A literal's first two characters are the text's at its position. */
  lemma LiteralStart(t: string, p: int, w: string)
    requires |w| >= 2 && LiteralAt(t, p, w)
    ensures p + 1 < |t| && t[p] == w[0] && t[p + 1] == w[1]
  {
    assert t[p..p + |w|][0] == t[p] && t[p..p + |w|][1] == t[p + 1];
  }

  /** A plain question does not offer the tools: no two neighbouring
      characters of its lower-cased text begin an alternative. */
  lemma QuestionWantsNoSchedule()
    ensures !ScheduleIntent(QuestionText)
  {
    var t := Lower(QuestionText);
    assert t == "what package manager should i use";
    NoStartPairLow(t);
    NoStartPairHigh(t);
    forall p, q | 0 <= p <= q <= |t|
      ensures !(Boundary(t, p) && AlternativeAt(Schedule, t, p, q) && Boundary(t, q))
    {
      if AlternativeAt(Schedule, t, p, q) {
        AlternativeStartsWithPair(t, p, q);
      }
    }
  }

  lemma NoStartPairLow(t: string)
    requires t == "what package manager should i use"
    ensures forall p | 0 <= p < 16 :: !StartPair(t[p], t[p + 1])
  {
  }

  lemma NoStartPairHigh(t: string)
    requires t == "what package manager should i use"
    ensures forall p | 16 <= p < |t| - 1 :: !StartPair(t[p], t[p + 1])
  {
  }
}
