/**
 What the parser measures and what it makes of case: the specificity of a rule is its
 length without stars, so the longest matching rule decides, and neither the case of an
 agent in the document nor that of the crawler's own name plays a part.
 */
module RobotsMeasure {
  import opened Text
  import opened Wrappers
  import opened RobotsMatch
  import opened RobotsEvaluate
  import opened RobotsParse

  // ---- Bytes ----

  /** The bytes of one character in UTF-8 (section 3 of RFC 3629): six bits of it in each byte after the first. */
  function Utf8(c: char): seq<int> {
    var n := c as int;
    if n <= 0x7F then [n]
    else if n <= 0x7FF then [0xC0 + n / 0x40, 0x80 + n % 0x40]
    else if n <= 0xFFFF then [0xE0 + n / 0x1000, 0x80 + n / 0x40 % 0x40, 0x80 + n % 0x40]
    else [0xF0 + n / 0x40000, 0x80 + n / 0x1000 % 0x40, 0x80 + n / 0x40 % 0x40, 0x80 + n % 0x40]
  }

  /** What the first byte tells of the length, and the character that the bytes make up. */
  function FirstOf(b: seq<int>): (int, nat) {
    if |b| >= 1 && b[0] < 0x80 then (b[0], 1)
    else if |b| >= 2 && b[0] < 0xE0 then ((b[0] - 0xC0) * 0x40 + b[1] - 0x80, 2)
    else if |b| >= 3 && b[0] < 0xF0 then (((b[0] - 0xE0) * 0x40 + b[1] - 0x80) * 0x40 + b[2] - 0x80, 3)
    else if |b| >= 4 then ((((b[0] - 0xF0) * 0x40 + b[1] - 0x80) * 0x40 + b[2] - 0x80) * 0x40 + b[3] - 0x80, 4)
    else (0, 0)
  }

  function Utf8All(s: string): seq<int> { if s == "" then [] else Utf8(s[0]) + Utf8All(s[1..]) }

  /** The bytes are bytes, and whatever follows them they give the character back. */
  lemma Utf8Reads(c: char, rest: seq<int>)
    ensures forall i | 0 <= i < |Utf8(c)| :: 0 <= Utf8(c)[i] < 0x100
    ensures FirstOf(Utf8(c) + rest) == (c as int, |Utf8(c)|)
  {
    var n, b := c as int, Utf8(c) + rest;
    assert n / 0x40 / 0x40 == n / 0x1000 && n / 0x1000 / 0x40 == n / 0x40000;
    assert n == n / 0x40 * 0x40 + n % 0x40;
    assert n / 0x40 == n / 0x1000 * 0x40 + n / 0x40 % 0x40;
    assert n / 0x1000 == n / 0x40000 * 0x40 + n / 0x1000 % 0x40;
    assert forall i | 0 <= i < |Utf8(c)| :: b[i] == Utf8(c)[i];
  }

  /** The length of a string is the number of its bytes in UTF-8. */
  lemma {:induction false} Utf8LenCountsBytes(s: string)
    ensures Utf8Len(s) == |Utf8All(s)|
  {
    if s != "" {
      Utf8LenCountsBytes(s[1..]);
    }
  }

  // ---- Specificity ----

  /** The specificity of a pattern is its length in bytes less its stars. */
  lemma {:induction false} SpecificityCounts(pattern: string)
    ensures Specificity(pattern) + Stars(pattern) == Utf8Len(pattern)
  {
    if pattern != "" {
      SpecificityCounts(pattern[1..]);
      var first := [pattern[0]];
      assert first[1..] == "" && Utf8Len("") == 0;
      assert Utf8Len(first) + Utf8Len(pattern[1..]) == Utf8Len(pattern);
    }
  }

  predicate Ascii(s: string) { forall c <- s :: c < '\U{0080}' }

  lemma AsciiTail(s: string)
    requires s != ""
    ensures Ascii(s) <==> s[0] < '\U{0080}' && Ascii(s[1..])
  {
    assert s == [s[0]] + s[1..];
    assert s[0] in s && forall c :: c in s <==> c == s[0] || c in s[1..];
  }

  /** A byte for each ASCII character, and no more than four for any. */
  lemma {:induction false} Utf8Lengths(s: string)
    ensures |s| <= Utf8Len(s) <= 4 * |s|
    ensures Ascii(s) <==> Utf8Len(s) == |s|
  {
    if s != "" {
      Utf8Lengths(s[1..]);
      AsciiTail(s);
    }
  }

  /** A value stands for the rule with its text, without the final `$` that anchors it; an empty
      pattern stands for none. */
  lemma RuleMeansItsText(allow: bool, value: string)
    ensures RuleOf(allow, value).None? <==> value == "" || value == "$"
    ensures RuleOf(allow, value).Some? ==>
              var r := RuleOf(allow, value).value;
              r.allow == allow && r.pattern + (if r.anchored then "$" else "") == value && (r.anchored <==> value[|value| - 1] == '$')
  {}

  predicate Measured(r: Rule) { r.specificity + Stars(r.pattern) == Utf8Len(r.pattern) }

  ghost predicate AllMeasured(groups: seq<Group>) { forall g <- groups, r <- g.rules :: Measured(r) }

  ghost predicate ParserMeasured(p: Parser) {
    AllMeasured(p.groups) && (p.current.Some? ==> AllMeasured([p.current.value]))
  }

  lemma ReadKeepsMeasured(p: Parser, line: Line, decode: Decoder)
    requires ParserMeasured(p) && Read(p, line, decode).Ok?
    ensures ParserMeasured(Read(p, line, decode).value)
  {
    hide HasControl, Lower, Stars, Utf8Len, Specificity;
    if line.RuleLine? {
      var rule := RuleOf(line.allow, line.value);
      if rule.Some? { SpecificityCounts(rule.value.pattern); }
    }
  }

  lemma {:induction false} ReadAllMeasured(p: Parser, lines: seq<Line>, decode: Decoder)
    requires ParserMeasured(p) && ReadAll(p, lines, decode).Ok?
    ensures ParserMeasured(ReadAll(p, lines, decode).value)
    decreases |lines|
  {
    hide Read, ParserMeasured;
    if lines != [] {
      ReadKeepsMeasured(p, lines[0], decode);
      ReadAllMeasured(Read(p, lines[0], decode).value, lines[1..], decode);
    }
  }

  lemma ParsedMeasured(body: string, decode: Decoder)
    requires Parse(body, decode).Ok?
    ensures AllMeasured(Parse(body, decode).value)
  {
    hide ReadAll, ClassifyAll, Lines, Measured;
    var lines := ClassifyAll(Lines(StripBom(body)));
    ReadAllMeasured(START, lines, decode);
  }

  // The length of a pattern without its stars.
  function Letters(pattern: string): int { Utf8Len(pattern) - Stars(pattern) }

  /** In a parsed document a path is allowed exactly when every matching disallow has a matching
      allow that is at least as long, not counting stars. */
  lemma LongestRuleDecides(body: string, decode: Decoder, active: string, path: string, e: Evaluation)
    requires Parse(body, decode).Ok?
    requires IsEvaluation(Parsed(Parse(body, decode).value), active, path, e)
    ensures var groups := Parse(body, decode).value;
            e.allowed <==>
              forall s: Rule | Applies(groups, active, path, s) && !s.allow ::
                exists r: Rule :: Applies(groups, active, path, r) && r.allow && Letters(r.pattern) >= Letters(s.pattern)
  {
    var groups := Parse(body, decode).value;
    ParsedMeasured(body, decode);
    forall r: Rule | Applies(groups, active, path, r) ensures r.specificity == Letters(r.pattern) {
      assert Measured(r);
    }
    hide Applies, Letters, Parse, Measured, AllMeasured;
  }

  /** Without stars the longest matching rule decides. */
  lemma LongerPatternWins(body: string, decode: Decoder, active: string, path: string, e: Evaluation, winner: Rule)
    requires Parse(body, decode).Ok?
    requires IsEvaluation(Parsed(Parse(body, decode).value), active, path, e)
    requires Applies(Parse(body, decode).value, active, path, winner)
    requires forall r: Rule | Applies(Parse(body, decode).value, active, path, r) :: '*' !in r.pattern
    requires forall r: Rule | Applies(Parse(body, decode).value, active, path, r) && r.allow != winner.allow ::
               Utf8Len(r.pattern) < Utf8Len(winner.pattern)
    ensures e.allowed == winner.allow
  {
    LongestRuleDecides(body, decode, active, path, e);
    var groups := Parse(body, decode).value;
    forall r: Rule | Applies(groups, active, path, r) ensures Letters(r.pattern) == Utf8Len(r.pattern) {
      NoStars(r.pattern);
    }
    hide Applies, Letters, Parse, IsEvaluation;
    if winner.allow {
      forall s: Rule | Applies(groups, active, path, s) && !s.allow
        ensures exists r: Rule :: Applies(groups, active, path, r) && r.allow && Letters(r.pattern) >= Letters(s.pattern)
      {
        assert Letters(winner.pattern) >= Letters(s.pattern);
      }
    }
  }

  lemma {:induction false} NoStars(pattern: string)
    requires '*' !in pattern
    ensures Stars(pattern) == 0
  {
    if pattern != "" { NoStars(pattern[1..]); }
  }

  // ---- Case ----

  const UPPER := "ABCDEFGHIJKLMNOPQRSTUVWXYZ"
  const LOWER := "abcdefghijklmnopqrstuvwxyz"

  // The two characters are the same letter of the alphabet, or the same character.
  predicate SameLetter(c: char, d: char) {
    c == d || exists i | 0 <= i < 26 :: (c == UPPER[i] || c == LOWER[i]) && (d == UPPER[i] || d == LOWER[i])
  }

  predicate SameButCase(s: string, t: string) {
    |s| == |t| && forall i | 0 <= i < |s| :: SameLetter(s[i], t[i])
  }

  lemma LettersMatch()
    ensures |UPPER| == |LOWER| == 26
    ensures forall i | 0 <= i < 26 :: UPPER[i] == 'A' + i as char && LOWER[i] == 'a' + i as char
  {}

  lemma SameLetterLowers(c: char, d: char)
    ensures SameLetter(c, d) <==> LowerChar(c) == LowerChar(d)
  {
    hide UPPER, LOWER;
    LettersMatch();
    if LowerChar(c) == LowerChar(d) && c != d {
      var i := (LowerChar(c) - 'a') as int;
      assert 0 <= i < 26 && (c == UPPER[i] || c == LOWER[i]) && (d == UPPER[i] || d == LOWER[i]);
    }
  }

  /** Lower-casing forgets the case of ASCII letters and nothing else. */
  lemma {:induction false} LowerForgetsCase(s: string, t: string)
    ensures Lower(s) == Lower(t) <==> SameButCase(s, t)
  {
    if s != "" && t != "" {
      SameLetterLowers(s[0], t[0]);
      LowerForgetsCase(s[1..], t[1..]);
      hide LowerChar, SameLetter;
      assert Lower(s)[1..] == Lower(s[1..]) && Lower(t)[1..] == Lower(t[1..]);
      if SameButCase(s[1..], t[1..]) && SameLetter(s[0], t[0]) && |s| == |t| {
        forall i | 0 <= i < |s| ensures SameLetter(s[i], t[i]) {
          if i > 0 { assert s[i] == s[1..][i - 1] && t[i] == t[1..][i - 1]; }
        }
      }
      if SameButCase(s, t) {
        forall i | 0 <= i < |s[1..]| ensures SameLetter(s[1..][i], t[1..][i]) {
          assert SameLetter(s[i + 1], t[i + 1]);
        }
      }
    }
  }

  /** The case in which the crawler writes its own name does not matter. */
  lemma CrawlerCaseDoesNotMatter(doc: Document, crawler: string, other: string, path: string, e: Evaluation)
    requires SameButCase(crawler, other)
    ensures IsEvaluation(doc, Lower(crawler), path, e) <==> IsEvaluation(doc, Lower(other), path, e)
  {
    LowerForgetsCase(crawler, other);
    hide IsEvaluation, Lower;
  }

  /** Nor does the case in which the document writes it. */
  lemma DocumentCaseDoesNotMatter(p: Parser, agent: string, other: string)
    requires SameButCase(agent, other) && !HasControl(agent) && !HasControl(other)
    ensures ReadAgent(p, agent) == ReadAgent(p, other)
  {
    LowerForgetsCase(agent, other);
    hide Lower;
  }
}
