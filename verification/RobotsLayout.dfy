/**
 How a robots document may be laid out: indentation, spaces around the colon, the case of a
 directive's name, comments, byte order marks and line ends play no part.
 */
module RobotsLayout {
  import opened Text
  import opened Wrappers
  import opened RobotsEvaluate
  import opened RobotsMeasure
  import opened RobotsParse
  import opened RobotsPrint

  predicate Blankish(s: string) { forall i | 0 <= i < |s| :: White(s[i]) }

  // Nothing to trim at either end.
  predicate Tight(s: string) { s == "" || (!White(s[0]) && !White(s[|s| - 1])) }

  lemma {:induction false} DropsLead(lead: string, s: string)
    requires Blankish(lead)
    ensures TrimStart(lead + s) == TrimStart(s)
  {
    hide White;
    if lead == "" {
      assert lead + s == s;
    } else {
      assert (lead + s)[1..] == lead[1..] + s;
      DropsLead(lead[1..], s);
    }
  }

  lemma {:induction false} DropsTrail(s: string, trail: string)
    requires Blankish(trail)
    ensures TrimEnd(s + trail) == TrimEnd(s)
    decreases |trail|
  {
    hide White;
    if trail == "" {
      assert s + trail == s;
    } else {
      var n := |trail| - 1;
      assert (s + trail)[..|s| + n] == s + trail[..n];
      DropsTrail(s, trail[..n]);
    }
  }

  /** Trimming takes the padding of a text away, and no more. */
  lemma TrimsPadding(lead: string, s: string, trail: string)
    requires Blankish(lead) && Blankish(trail) && Tight(s)
    ensures Trim(lead + s + trail) == s
  {
    hide White;
    assert lead + s + trail == lead + (s + trail);
    DropsLead(lead, s + trail);
    if s == "" {
      assert s + trail == trail && trail + "" == trail;
      DropsLead(trail, "");
    } else {
      assert (s + trail)[0] == s[0] && TrimStart(s + trail) == s + trail;
      DropsTrail(s, trail);
    }
  }

  lemma BlankishLacks(s: string, c: char)
    requires Blankish(s) && !White(c)
    ensures c !in s
  {}

  /** What a directive means: its name counts in any case. */
  function Meaning(name: string, value: string): Line {
    if SameButCase(name, "user-agent") then AgentLine(value)
    else if SameButCase(name, "allow") then RuleLine(true, value)
    else if SameButCase(name, "disallow") then RuleLine(false, value)
    else if SameButCase(name, "crawl-delay") then DelayLine(value)
    else Ignored
  }

  lemma NamesDecided(name: string, directive: string)
    requires forall i | 0 <= i < |directive| :: !('A' <= directive[i] <= 'Z')
    ensures Lower(name) == directive <==> SameButCase(name, directive)
  {
    LowerForgetsCase(name, directive);
    assert forall c <- directive :: !('A' <= c <= 'Z');
    LowerKeeps(directive);
  }

  // The line, with a comment or without.
  function Commented(line: string, comment: Option<string>): string {
    if comment.Some? then line + "#" + comment.value else line
  }

  lemma CommentIsCut(line: string, comment: Option<string>)
    requires '#' !in line
    ensures SplitOnce(Commented(line, comment), '#').0 == line
  {
    if comment.Some? { SplitAt(line, '#', comment.value); } else { NoSplit(line, '#'); }
  }

  // The parts of a directive between its name and the end of the line.
  datatype Layout = Layout(lead: string, gap: string, pad: string, trail: string, comment: Option<string>)

  predicate LayoutOk(l: Layout) { Blankish(l.lead) && Blankish(l.gap) && Blankish(l.pad) && Blankish(l.trail) }

  function Lay(l: Layout, name: string, value: string): string {
    Commented(l.lead + (name + l.gap + ":" + l.pad + value) + l.trail, l.comment)
  }

  // What classifying comes to once the parts of a line are known.
  lemma PartsDecide(raw: string, line: string, name: string, value: string)
    requires line != "" && Trim(SplitOnce(raw, '#').0) == line && SplitOnce(line, ':').1.Some?
    requires Trim(SplitOnce(line, ':').0) == name && Trim(SplitOnce(line, ':').1.value) == value
    ensures Classify(raw) == Meaning(name, value)
  {
    hide Trim, SplitOnce, Lower, SameButCase;
    NamesDecided(name, "user-agent");
    NamesDecided(name, "allow");
    NamesDecided(name, "disallow");
    NamesDecided(name, "crawl-delay");
  }

  /** However a directive is laid out, it means what its name and its value say. */
  lemma LayoutDoesNotMatter(l: Layout, name: string, value: string)
    requires LayoutOk(l) && name != "" && Tight(name) && ':' !in name && '#' !in name && Tight(value) && '#' !in value
    ensures Classify(Lay(l, name, value)) == Meaning(name, value)
  {
    hide Trim, SplitOnce, Lay, Classify, Meaning, LayoutOk, Tight;
    BodyTrims(l, name, value);
    BodySplits(l, name, value);
    PartsDecide(Lay(l, name, value), if value == "" then name + l.gap + ":" else name + l.gap + ":" + (l.pad + value), name, value);
  }

  // The line without its comment and padding.
  lemma BodyTrims(l: Layout, name: string, value: string)
    requires LayoutOk(l) && name != "" && Tight(name) && ':' !in name && '#' !in name && Tight(value) && '#' !in value
    ensures var t := Trim(SplitOnce(Lay(l, name, value), '#').0);
            t != "" && t == (if value == "" then name + l.gap + ":" else name + l.gap + ":" + (l.pad + value))
  {
    var line := l.lead + (name + l.gap + ":" + l.pad + value) + l.trail;
    assert !White('#') && !White(':');
    hide White, Trim, SplitOnce;
    BlankishLacks(l.lead, '#');
    BlankishLacks(l.gap, '#');
    BlankishLacks(l.pad, '#');
    BlankishLacks(l.trail, '#');
    assert '#' !in line;
    CommentIsCut(line, l.comment);
    if value == "" {
      var body := name + l.gap + ":";
      assert line == l.lead + body + (l.pad + l.trail);
      TrimsPadding(l.lead, body, l.pad + l.trail);
    } else {
      var body := name + l.gap + ":" + (l.pad + value);
      assert line == l.lead + body + l.trail;
      assert body[0] == name[0] && body[|body| - 1] == value[|value| - 1];
      TrimsPadding(l.lead, body, l.trail);
    }
  }

  lemma BodySplits(l: Layout, name: string, value: string)
    requires LayoutOk(l) && Tight(name) && ':' !in name && Tight(value)
    ensures var body := if value == "" then name + l.gap + ":" else name + l.gap + ":" + (l.pad + value);
            var (before, after) := SplitOnce(body, ':');
            Trim(before) == name && after.Some? && Trim(after.value) == value
  {
    assert !White(':');
    hide White, Trim, SplitOnce;
    BlankishLacks(l.gap, ':');
    var rest := if value == "" then "" else l.pad + value;
    assert name + l.gap + ":" + rest == (name + l.gap) + [':'] + rest;
    SplitAt(name + l.gap, ':', rest);
    assert "" + name + l.gap == name + l.gap;
    TrimsPadding("", name, l.gap);
    if value == "" {
      assert name + l.gap + ":" == name + l.gap + ":" + rest;
      assert "" + "" + "" == "";
      TrimsPadding("", "", "");
    } else {
      assert l.pad + value + "" == l.pad + value;
      TrimsPadding(l.pad, value, "");
    }
  }

  /** A line with nothing but padding and perhaps a comment is blank. */
  lemma BlankLines(s: string, comment: Option<string>)
    requires Blankish(s)
    ensures Classify(Commented(s, comment)) == Blank
  {
    assert !White('#');
    hide White, Trim, SplitOnce;
    BlankishLacks(s, '#');
    CommentIsCut(s, comment);
    assert s + "" + "" == s;
    TrimsPadding(s, "", "");
  }

  /** A line without a colon says nothing. */
  lemma NoColonNoDirective(lead: string, s: string, trail: string, comment: Option<string>)
    requires Blankish(lead) && Blankish(trail) && s != "" && Tight(s) && ':' !in s && '#' !in s
    ensures Classify(Commented(lead + s + trail, comment)) == Ignored
  {
    assert !White('#');
    hide White, Trim, SplitOnce;
    BlankishLacks(lead, '#');
    BlankishLacks(trail, '#');
    CommentIsCut(lead + s + trail, comment);
    TrimsPadding(lead, s, trail);
    NoSplit(s, ':');
  }

  /** Byte order marks before the document do not matter. */
  lemma MarksDoNotMatter(body: string, decode: Decoder)
    ensures Parse("\U{FEFF}" + body, decode) == Parse(body, decode)
  {
    assert ("\U{FEFF}" + body)[1..] == body;
    hide Lines, ReadAll, ClassifyAll;
  }

  /** Neither does it matter how a line ends: after a carriage return the line is the same. */
  lemma LineEndsDoNotMatter(line: string)
    ensures Classify(line + "\r") == Classify(line)
  {
    CutEnds(line);
    TrimsReturn(SplitOnce(line, '#').0);
    hide Trim, SplitOnce, Lower;
  }

  lemma CutEnds(line: string)
    ensures var cut := SplitOnce(line, '#').0;
            SplitOnce(line + "\r", '#').0 == if '#' in line then cut else cut + "\r"
  {
    hide SplitOnce;
    if '#' in line {
      HashCuts(line, "\r");
    } else {
      NoSplit(line, '#');
      NoSplit(line + "\r", '#');
    }
  }

  // What follows a line with a comment belongs to the comment.
  lemma {:induction false} HashCuts(line: string, more: string)
    requires '#' in line
    ensures SplitOnce(line + more, '#').0 == SplitOnce(line, '#').0
  {
    if line[0] != '#' {
      assert (line + more)[1..] == line[1..] + more;
      HashCuts(line[1..], more);
    }
  }

  lemma StripsReturn(line: string)
    ensures Classify(StripCr(line)) == Classify(line)
  {
    if line != "" && line[|line| - 1] == '\r' {
      assert StripCr(line) + "\r" == line;
      LineEndsDoNotMatter(StripCr(line));
    }
    hide Classify;
  }

  lemma {:induction false} StripsReturns(lines: seq<string>)
    ensures ClassifyAll(StripAll(lines)) == ClassifyAll(lines)
  {
    hide Classify, StripCr;
    if lines != [] {
      StripsReturn(lines[0]);
      StripsReturns(lines[1..]);
      assert StripAll(lines)[1..] == StripAll(lines[1..]);
    }
  }

  // A text, cut at its line feeds, with one more at the end.
  lemma {:induction false} SplitEnded(s: string)
    ensures Split(s + "\n", '\n') == Split(s, '\n') + [""]
  {
    if s == "" {
      assert s + "\n" == "\n";
    } else {
      assert (s + "\n")[1..] == s[1..] + "\n";
      SplitEnded(s[1..]);
    }
  }

  /** The lines of a document are the pieces between its line feeds, up to the last that holds anything. */
  lemma LinesOfDocument(body: string)
    ensures var parts := Split(body, '\n');
            var last := |parts| - 1;
            ClassifyAll(Lines(body)) == ClassifyAll(if parts[last] == "" then parts[..last] else parts)
  {
    hide Classify, Split;
    var parts := Split(body, '\n');
    var last := |parts| - 1;
    StripsReturns(parts[..last]);
    if parts[last] == "" {
      assert StripAll(parts[..last]) + [] == StripAll(parts[..last]);
    } else {
      ClassifyJoins(StripAll(parts[..last]), [parts[last]]);
      ClassifyJoins(parts[..last], [parts[last]]);
      assert parts[..last] + [parts[last]] == parts;
    }
  }

  /** The last line of a document counts with its line feed and without it. */
  lemma LastLineCounts(body: string)
    requires body != "" && body[|body| - 1] != '\n'
    ensures ClassifyAll(Lines(body + "\n")) == ClassifyAll(Lines(body))
  {
    SplitEnded(body);
    LastPiece(body);
    hide Classify, Split, Lines;
    LinesOfDocument(body);
    LinesOfDocument(body + "\n");
    var parts := Split(body, '\n');
    assert (parts + [""])[..|parts|] == parts;
  }

  lemma {:induction false} LastPiece(s: string)
    requires s != "" && s[|s| - 1] != '\n'
    ensures var parts := Split(s, '\n'); parts[|parts| - 1] != ""
  {
    if |s| > 1 {
      LastPiece(s[1..]);
    }
  }

  lemma {:induction false} TrimsReturn(s: string)
    ensures Trim(s + "\r") == Trim(s)
  {
    if s == "" {
      assert ("" + "\r")[1..] == "";
    } else if White(s[0]) {
      assert (s + "\r")[1..] == s[1..] + "\r";
      TrimsReturn(s[1..]);
    } else {
      assert TrimStart(s + "\r") == s + "\r" && TrimStart(s) == s;
      DropsTrail(s, "\r");
    }
  }

  /** A selector names the crawler exactly when it is its whole name, or the part of it before a
      slash or a space. */
  lemma SelectorsMatch(active: string, selector: string)
    ensures AgentMatches(active, selector) <==>
              active == selector || exists c: char, rest: string :: c in "/ \t\n\r\U{000C}" && active == selector + [c] + rest
  {
    if selector < active {
      var n := |selector|;
      assert active == selector + [active[n]] + active[n + 1..];
    }
    if c: char, rest: string :| c in "/ \t\n\r\U{000C}" && active == selector + [c] + rest {
      assert active[|selector|] == c && selector < active;
    }
  }

  /** An agent line names the crawler: it is its whole name or the part before a slash or a space,
      and neither empty nor the star that stands for everyone. */
  ghost predicate Names(active: string, agent: string) {
    && agent != "" && agent != "*"
    && (active == agent || exists c: char, rest: string :: c in "/ \t\n\r\U{000C}" && active == agent + [c] + rest)
  }

  lemma NamingDecided(active: string, agent: string)
    ensures Names(active, agent) <==> Selects(active, agent) && Utf8Len(agent) > 0
  {
    SelectorsMatch(active, agent);
    Utf8Lengths(agent);
    hide AgentMatches, Utf8Len;
  }

  /** A group is selected exactly when an agent of it names the crawler and no agent that names the
      crawler in any group is longer; or, if there is none in any group, when it is for everyone. */
  lemma SelectedExactly(groups: seq<Group>, active: string, g: Group)
    ensures IsSelected(groups, active, g) <==>
              if exists h <- groups, b <- h.agents :: Names(active, b) then
                exists a <- g.agents :: Names(active, a) && forall h <- groups, b <- h.agents | Names(active, b) :: Utf8Len(b) <= Utf8Len(a)
              else "*" in g.agents
  {
    forall a: string ensures Names(active, a) <==> Selects(active, a) && Utf8Len(a) > 0 { NamingDecided(active, a); }
    hide Names, Selects, Utf8Len;
  }

  /** Allowing everything is what a document without groups does, and denying everything is what one
      rule on the root for everyone does. */
  lemma TotalDocuments(active: string, path: string, e: Evaluation)
    ensures IsEvaluation(AllowAll, active, path, e) <==> IsEvaluation(Parsed([]), active, path, e)
    ensures path != "" && path[0] == '/' ==>
              (IsEvaluation(DenyAll, active, path, e) <==>
                 IsEvaluation(Parsed([Group(["*"], [Rule("/", false, 1, false)], [])]), active, path, e))
  {
  }
}
