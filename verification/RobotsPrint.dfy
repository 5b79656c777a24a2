/**
 A printer for parsed robots groups and the round trip through the parser: agents,
 then rules, then delays, then a blank line per group.  `show` writes a delay the
 way `decode` reads it back.
 */
module RobotsPrint {
  import opened Text
  import opened Wrappers
  import opened RobotsMatch
  import opened RobotsEvaluate
  import opened RobotsParse

  type Shower = Duration -> string

  // Text that a line can carry as a value and that comes back unchanged.
  predicate Clean(s: string) {
    s != "" && !White(s[0]) && !White(s[|s| - 1]) && '#' !in s && '\n' !in s
  }

  /** Every delay the decoder can produce is shown as clean text that decodes to it. */
  ghost predicate Codec(decode: Decoder, show: Shower) {
    forall v: string :: decode(v).Some? ==> Clean(show(decode(v).value)) && decode(show(decode(v).value)) == decode(v)
  }

  ghost predicate Shown(d: Duration, decode: Decoder, show: Shower) {
    Clean(show(d)) && decode(show(d)) == Some(d)
  }

  function RuleText(r: Rule): string { r.pattern + if r.anchored then "$" else "" }

  predicate AgentOk(a: string) { Clean(a) && !HasControl(a) && Lower(a) == a }

  predicate RuleOk(r: Rule) {
    Clean(RuleText(r)) && !HasControl(RuleText(r)) && RuleOf(r.allow, RuleText(r)) == Some(r)
  }

  ghost predicate GroupOk(g: Group, decode: Decoder, show: Shower) {
    && g.agents != []
    && (forall a <- g.agents :: AgentOk(a))
    && (forall r <- g.rules :: RuleOk(r))
    && (forall d <- g.delays :: Shown(d, decode, show))
  }

  // ---- Everything the parser produces is printable ----

  lemma {:induction false} LowerTwice(s: string)
    ensures Lower(Lower(s)) == Lower(s)
    ensures forall i | 0 <= i < |s| :: Lower(s)[i] == LowerChar(s[i])
  {
    if s != "" {
      LowerTwice(s[1..]);
      forall i | 0 <= i < |s| ensures Lower(s)[i] == LowerChar(s[i]) {
        if i > 0 { assert Lower(s)[i] == Lower(s[1..])[i - 1]; }
      }
    }
  }

  // Lower-casing neither makes nor breaks white space, control characters or separators.
  predicate LowerKeepsClass(c: char) {
    var d := LowerChar(c);
    (White(d) <==> White(c)) && (Control(d) <==> Control(c)) && (d == '#' <==> c == '#') && (d == '\n' <==> c == '\n')
  }

  lemma LowerClass(c: char)
    ensures LowerKeepsClass(c)
  {}

  lemma LoweredAgent(v: string)
    requires Clean(v) && !HasControl(v)
    ensures AgentOk(Lower(v))
  {
    LowerTwice(v);
    forall c: char ensures LowerKeepsClass(c) { LowerClass(c); }
    hide White, Control, LowerChar;
    forall c <- Lower(v) ensures c != '#' && c != '\n' && !Control(c) {
      var i :| 0 <= i < |v| && Lower(v)[i] == c;
      assert v[i] in v;
    }
  }

  lemma Absent(s: string, part: string, c: char)
    requires c !in s && forall x <- part :: x in s
    ensures c !in part
  {}

  lemma CutLacks(raw: string, c: char)
    requires c !in raw
    ensures c !in SplitOnce(raw, '#').0
  {
    var (cut, rest) := SplitOnce(raw, '#');
  }

  lemma AfterLacks(line: string, c: char)
    requires c !in line && SplitOnce(line, ':').1.Some?
    ensures c !in SplitOnce(line, ':').1.value
  {
    var (name, after) := SplitOnce(line, ':');
  }

  lemma ValueLacks(raw: string, c: char)
    requires c !in SplitOnce(raw, '#').0
    requires SplitOnce(Trim(SplitOnce(raw, '#').0), ':').1.Some?
    ensures c !in Trim(SplitOnce(Trim(SplitOnce(raw, '#').0), ':').1.value)
  {
    hide SplitOnce, Trim;
    var line := Trim(SplitOnce(raw, '#').0);
    Absent(SplitOnce(raw, '#').0, line, c);
    AfterLacks(line, c);
    Absent(SplitOnce(line, ':').1.value, Trim(SplitOnce(line, ':').1.value), c);
  }

  // A directive's value is what follows the colon, trimmed.
  lemma ValueOf(raw: string, v: string)
    requires Classify(raw) == AgentLine(v) || Classify(raw) == DelayLine(v)
             || Classify(raw) == RuleLine(true, v) || Classify(raw) == RuleLine(false, v)
    ensures var after := SplitOnce(Trim(SplitOnce(raw, '#').0), ':').1;
            after.Some? && Trim(after.value) == v
  {
    hide SplitOnce, Lower, Trim;
  }

  lemma ValueIsClean(raw: string, v: string)
    requires '\n' !in raw && v != ""
    requires Classify(raw) == AgentLine(v) || Classify(raw) == DelayLine(v)
             || Classify(raw) == RuleLine(true, v) || Classify(raw) == RuleLine(false, v)
    ensures Clean(v)
  {
    hide SplitOnce, Lower, White, Trim, Classify;
    ValueOf(raw, v);
    CutLacks(raw, '\n');
    ValueLacks(raw, '\n');
    ValueLacks(raw, '#');
  }

  lemma RuleOfText(allow: bool, v: string)
    requires Clean(v) && !HasControl(v) && RuleOf(allow, v).Some?
    ensures RuleOk(RuleOf(allow, v).value)
  {
    assert RuleText(RuleOf(allow, v).value) == v;
  }

  // What holds of the parser between two lines.
  ghost predicate ParserOk(p: Parser, decode: Decoder, show: Shower) {
    && (forall g <- p.groups :: GroupOk(g, decode, show))
    && (p.current.Some? ==> GroupOk(p.current.value, decode, show))
  }

  lemma ReadKeepsOk(p: Parser, raw: string, decode: Decoder, show: Shower)
    requires Codec(decode, show) && ParserOk(p, decode, show) && '\n' !in raw
    requires Read(p, Classify(raw), decode).Ok?
    ensures ParserOk(Read(p, Classify(raw), decode).value, decode, show)
  {
    hide Clean, HasControl, Lower, RuleOf, Classify, RuleText, AgentOk, RuleOk, Codec;
    match Classify(raw)
    case AgentLine(v) =>
      ValueIsClean(raw, v);
      LoweredAgent(v);
    case RuleLine(allow, v) =>
      if v != "" && RuleOf(allow, v).Some? {
        ValueIsClean(raw, v);
        RuleOfText(allow, v);
      }
    case DelayLine(v) => assert Shown(decode(v).value, decode, show) by { CodecShows(v, decode, show); }
    case _ =>
  }

  lemma CodecShows(v: string, decode: Decoder, show: Shower)
    requires Codec(decode, show) && decode(v).Some?
    ensures Shown(decode(v).value, decode, show)
  {}

  lemma {:induction false} ReadAllKeepsOk(p: Parser, raw: seq<string>, decode: Decoder, show: Shower)
    requires Codec(decode, show) && ParserOk(p, decode, show) && forall l <- raw :: '\n' !in l
    requires ReadAll(p, ClassifyAll(raw), decode).Ok?
    ensures ParserOk(ReadAll(p, ClassifyAll(raw), decode).value, decode, show)
    decreases |raw|
  {
    hide ParserOk, Read, Classify, Codec;
    if raw != [] {
      ReadKeepsOk(p, raw[0], decode, show);
      ReadAllKeepsOk(Read(p, Classify(raw[0]), decode).value, raw[1..], decode, show);
    }
  }

  lemma {:induction false} StripLeavesOut(lines: seq<string>)
    requires forall l <- lines :: '\n' !in l
    ensures forall l <- StripAll(lines) :: '\n' !in l
  {
    if lines != [] {
      assert lines[0] in lines && forall l <- lines[1..] :: l in lines;
      StripLeavesOut(lines[1..]);
    }
  }

  lemma LinesLeaveOut(body: string)
    ensures forall l <- Lines(body) :: '\n' !in l
  {
    PiecesLack(body, '\n');
    var parts := Split(body, '\n');
    StripLeavesOut(parts[..|parts| - 1]);
  }

  /** Every group the parser returns names at least one agent, and is printable: agents lower
      case, patterns not empty with their specificity, delays as decoded. */
  lemma ParsedGroupsOk(body: string, decode: Decoder, show: Shower)
    requires Codec(decode, show) && Parse(body, decode).Ok?
    ensures forall g <- Parse(body, decode).value :: g.agents != [] && GroupOk(g, decode, show)
  {
    hide Codec, Lines, ReadAll, ClassifyAll, GroupOk, Close;
    var raw := Lines(StripBom(body));
    LinesLeaveOut(StripBom(body));
    assert ParserOk(START, decode, show);
    ReadAllKeepsOk(START, raw, decode, show);
    CloseOk(ReadAll(START, ClassifyAll(raw), decode).value, decode, show);
  }

  lemma CloseOk(p: Parser, decode: Decoder, show: Shower)
    requires ParserOk(p, decode, show)
    ensures forall g <- Close(p).groups :: g.agents != [] && GroupOk(g, decode, show)
  {
    hide AgentOk, RuleOk, Shown;
  }

  // ---- Printing ----

  function AgentLines(agents: seq<string>): seq<string> {
    if agents == [] then [] else ["user-agent" + ": " + agents[0]] + AgentLines(agents[1..])
  }

  function RuleLines(rules: seq<Rule>): seq<string> {
    if rules == [] then []
    else [(if rules[0].allow then "allow" else "disallow") + ": " + RuleText(rules[0])] + RuleLines(rules[1..])
  }

  function DelayLines(delays: seq<Duration>, show: Shower): seq<string> {
    if delays == [] then [] else ["crawl-delay" + ": " + show(delays[0])] + DelayLines(delays[1..], show)
  }

  function GroupLines(g: Group, show: Shower): seq<string> {
    AgentLines(g.agents) + RuleLines(g.rules) + DelayLines(g.delays, show) + [""]
  }

  function DocumentLines(groups: seq<Group>, show: Shower): seq<string> {
    if groups == [] then [] else GroupLines(groups[0], show) + DocumentLines(groups[1..], show)
  }

  function Unlines(lines: seq<string>): string {
    if lines == [] then "" else lines[0] + "\n" + Unlines(lines[1..])
  }

  function Print(groups: seq<Group>, show: Shower): string { Unlines(DocumentLines(groups, show)) }

  // ---- Lines survive ----

  predicate LineOk(l: string) { '\n' !in l && (l == "" || l[|l| - 1] != '\r') }

  lemma {:induction false} SplitUnlines(lines: seq<string>)
    requires forall l <- lines :: LineOk(l)
    ensures Split(Unlines(lines), '\n') == lines + [""]
  {
    if lines != [] {
      SplitUnlines(lines[1..]);
      assert lines[0] in lines;
      SplitPiece(lines[0], Unlines(lines[1..]), '\n');
    }
  }

  lemma {:induction false} NothingToStrip(lines: seq<string>)
    requires forall l <- lines :: LineOk(l)
    ensures StripAll(lines) == lines
  {
    if lines != [] {
      NothingToStrip(lines[1..]);
      assert lines[0] in lines;
      assert lines == [lines[0]] + lines[1..];
    }
  }

  lemma LinesOfUnlines(lines: seq<string>)
    requires forall l <- lines :: LineOk(l)
    ensures Lines(Unlines(lines)) == lines
  {
    SplitUnlines(lines);
    assert (lines + [""])[..|lines|] == lines;
    NothingToStrip(lines);
  }

  // ---- One printed line ----

  lemma {:induction false} NoSplit(s: string, sep: char)
    requires sep !in s
    ensures SplitOnce(s, sep) == (s, None)
  {
    if s != "" {
      assert s[0] in s;
      NoSplit(s[1..], sep);
      assert [s[0]] + s[1..] == s;
    }
  }

  lemma {:induction false} SplitAt(before: string, sep: char, after: string)
    requires sep !in before
    ensures SplitOnce(before + [sep] + after, sep) == (before, Some(after))
  {
    if before == "" {
      assert before + [sep] + after == [sep] + after;
    } else {
      assert before[0] in before;
      assert (before + [sep] + after)[1..] == before[1..] + [sep] + after;
      SplitAt(before[1..], sep, after);
      assert [before[0]] + before[1..] == before;
    }
  }

  lemma NothingToTrim(s: string)
    requires s == "" || (!White(s[0]) && !White(s[|s| - 1]))
    ensures Trim(s) == s
  {}

  lemma {:induction false} LowerKeeps(s: string)
    requires forall c <- s :: !('A' <= c <= 'Z')
    ensures Lower(s) == s
  {
    if s != "" {
      assert s[0] in s && forall c <- s[1..] :: c in s;
      LowerKeeps(s[1..]);
      assert [s[0]] + s[1..] == s;
    }
  }

  predicate NameOk(name: string) {
    name != "" && forall c <- name :: ('a' <= c <= 'z' || c == '-')
  }

  // How a printed directive is read.
  function Directive(name: string, value: string): Line {
    if name == "user-agent" then AgentLine(value)
    else if name == "allow" then RuleLine(true, value)
    else if name == "disallow" then RuleLine(false, value)
    else if name == "crawl-delay" then DelayLine(value)
    else Ignored
  }

  lemma NameTrims(name: string)
    requires NameOk(name)
    ensures Trim(name) == name && Lower(name) == name
    ensures !White(name[0]) && ':' !in name && '#' !in name && '\n' !in name
  {
    assert name[0] in name && name[|name| - 1] in name;
    NothingToTrim(name);
    LowerKeeps(name);
  }

  lemma ValueTrims(value: string)
    requires Clean(value)
    ensures Trim(" " + value) == value
  {
    assert (" " + value)[1..] == value;
    assert TrimStart(" " + value) == TrimStart(value) == value;
    NothingToTrim(value);
  }

  lemma LineLacks(name: string, value: string, c: char)
    requires c !in name && c !in value && c != ':' && c != ' '
    ensures c !in name + ": " + value
  {}

  // A printed line has no comment and nothing to trim.
  lemma LineIsWhole(name: string, value: string)
    requires NameOk(name) && Clean(value)
    ensures var line := name + ": " + value;
            line != "" && Trim(SplitOnce(line, '#').0) == line && LineOk(line)
  {
    var line := name + ": " + value;
    NameTrims(name);
    LineLacks(name, value, '#');
    LineLacks(name, value, '\n');
    assert line[|line| - 1] == value[|value| - 1] && line[0] == name[0];
    hide NameOk, SplitOnce, Trim, Lower;
    NoSplit(line, '#');
    NothingToTrim(line);
  }

  lemma PrintedLine(name: string, value: string)
    requires NameOk(name) && Clean(value)
    ensures Classify(name + ": " + value) == Directive(name, value)
    ensures LineOk(name + ": " + value)
  {
    hide NameOk, SplitOnce, Trim, Lower, Clean, White, LineOk;
    var line := name + ": " + value;
    LineIsWhole(name, value);
    NameTrims(name);
    assert line == name + [':'] + (" " + value);
    SplitAt(name, ':', " " + value);
    ValueTrims(value);
  }

  // ---- Reading what was printed ----

  lemma {:induction false} ReadAllJoins(p: Parser, a: seq<Line>, b: seq<Line>, decode: Decoder)
    requires ReadAll(p, a, decode).Ok?
    ensures ReadAll(p, a + b, decode) == ReadAll(ReadAll(p, a, decode).value, b, decode)
    decreases |a|
  {
    hide Read;
    if a == [] {
      assert a + b == b;
    } else {
      assert (a + b)[1..] == a[1..] + b;
      ReadAllJoins(Read(p, a[0], decode).value, a[1..], b, decode);
    }
  }

  lemma {:induction false} ClassifyJoins(a: seq<string>, b: seq<string>)
    ensures ClassifyAll(a + b) == ClassifyAll(a) + ClassifyAll(b)
  {
    hide Classify;
    if a == [] {
      assert a + b == b;
    } else {
      assert (a + b)[1..] == a[1..] + b;
      ClassifyJoins(a[1..], b);
    }
  }

  // The printed agents add themselves to the group that is open, or open one.
  lemma {:induction false} ReadsAgents(done: seq<Group>, before: seq<string>, agents: seq<string>, decode: Decoder)
    requires forall a <- agents :: AgentOk(a)
    ensures ReadAll(Parser(done, if before == [] then None else Some(Group(before, [], [])), false),
                    ClassifyAll(AgentLines(agents)), decode)
         == Ok(Parser(done, if before + agents == [] then None else Some(Group(before + agents, [], [])), false))
    decreases |agents|
  {
    hide Classify, Clean, HasControl;
    if agents == [] {
      assert before + agents == before;
    } else {
      assert AgentOk(agents[0]);
      PrintedLine("user-agent", agents[0]);
      CleanHasText(agents[0]);
      var lines := AgentLines(agents);
      assert lines[1..] == AgentLines(agents[1..]);
      assert ClassifyAll(lines)[1..] == ClassifyAll(lines[1..]);
      assert before + agents == before + [agents[0]] + agents[1..];
      ReadsAgents(done, before + [agents[0]], agents[1..], decode);
    }
  }

  lemma CleanHasText(s: string)
    requires Clean(s)
    ensures s != ""
  {}

  lemma {:induction false} ReadsRules(done: seq<Group>, agents: seq<string>, before: seq<Rule>, rules: seq<Rule>,
                                      policy: bool, decode: Decoder)
    requires forall r <- rules :: RuleOk(r)
    ensures ReadAll(Parser(done, Some(Group(agents, before, [])), policy), ClassifyAll(RuleLines(rules)), decode)
         == Ok(Parser(done, Some(Group(agents, before + rules, [])), policy || rules != []))
    decreases |rules|
  {
    hide Classify, Clean, HasControl, RuleText, RuleOf;
    if rules == [] {
      assert before + rules == before;
    } else {
      assert RuleOk(rules[0]);
      PrintedLine("allow", RuleText(rules[0]));
      PrintedLine("disallow", RuleText(rules[0]));
      CleanHasText(RuleText(rules[0]));
      var lines := RuleLines(rules);
      assert lines[1..] == RuleLines(rules[1..]);
      assert ClassifyAll(lines)[1..] == ClassifyAll(lines[1..]);
      assert before + rules == before + [rules[0]] + rules[1..];
      ReadsRules(done, agents, before + [rules[0]], rules[1..], true, decode);
    }
  }

  lemma {:induction false} ReadsDelays(done: seq<Group>, agents: seq<string>, rules: seq<Rule>, before: seq<Duration>,
                                       delays: seq<Duration>, policy: bool, decode: Decoder, show: Shower)
    requires forall d <- delays :: Shown(d, decode, show)
    ensures ReadAll(Parser(done, Some(Group(agents, rules, before)), policy), ClassifyAll(DelayLines(delays, show)), decode)
         == Ok(Parser(done, Some(Group(agents, rules, before + delays)), policy || delays != []))
    decreases |delays|
  {
    hide Classify, Clean;
    if delays == [] {
      assert before + delays == before;
    } else {
      assert Shown(delays[0], decode, show);
      PrintedLine("crawl-delay", show(delays[0]));
      var lines := DelayLines(delays, show);
      assert lines[1..] == DelayLines(delays[1..], show);
      assert ClassifyAll(lines)[1..] == ClassifyAll(lines[1..]);
      assert before + delays == before + [delays[0]] + delays[1..];
      ReadsDelays(done, agents, rules, before + [delays[0]], delays[1..], true, decode, show);
    }
  }

  lemma ReadsGroup(done: seq<Group>, g: Group, decode: Decoder, show: Shower)
    requires GroupOk(g, decode, show)
    ensures ReadAll(Parser(done, None, false), ClassifyAll(GroupLines(g, show)), decode) == Ok(Parser(done + [g], None, false))
  {
    hide AgentOk, RuleOk, Shown, Classify;
    var a, r, d := AgentLines(g.agents), RuleLines(g.rules), DelayLines(g.delays, show);
    ReadsAgents(done, [], g.agents, decode);
    assert [] + g.agents == g.agents && [] + g.rules == g.rules && [] + g.delays == g.delays;
    ReadsRules(done, g.agents, [], g.rules, false, decode);
    ReadsDelays(done, g.agents, g.rules, [], g.delays, g.rules != [], decode, show);
    BlankLine();
    ClassifyJoins(a + r + d, [""]);
    ClassifyJoins(a + r, d);
    ClassifyJoins(a, r);
    assert ClassifyAll([""]) == [Blank];
    var p := Parser(done, None, false);
    ReadAllJoins(p, ClassifyAll(a), ClassifyAll(r), decode);
    ReadAllJoins(p, ClassifyAll(a) + ClassifyAll(r), ClassifyAll(d), decode);
    ReadAllJoins(p, ClassifyAll(a) + ClassifyAll(r) + ClassifyAll(d), [Blank], decode);
  }

  lemma BlankLine()
    ensures Classify("") == Blank
  {}

  lemma {:induction false} ReadsDocument(done: seq<Group>, groups: seq<Group>, decode: Decoder, show: Shower)
    requires forall g <- groups :: GroupOk(g, decode, show)
    ensures ReadAll(Parser(done, None, false), ClassifyAll(DocumentLines(groups, show)), decode)
         == Ok(Parser(done + groups, None, false))
    decreases |groups|
  {
    hide GroupOk, GroupLines, Classify, Read;
    if groups == [] {
      assert done + groups == done;
    } else {
      ReadsGroup(done, groups[0], decode, show);
      ReadsDocument(done + [groups[0]], groups[1..], decode, show);
      assert done + groups == done + [groups[0]] + groups[1..];
      ClassifyJoins(GroupLines(groups[0], show), DocumentLines(groups[1..], show));
      ReadAllJoins(Parser(done, None, false), ClassifyAll(GroupLines(groups[0], show)),
                   ClassifyAll(DocumentLines(groups[1..], show)), decode);
    }
  }

  // ---- The printed text is made of proper lines and has no byte-order mark ----

  lemma {:induction false} AgentLinesOk(agents: seq<string>)
    requires forall a <- agents :: AgentOk(a)
    ensures forall l <- AgentLines(agents) :: LineOk(l)
  {
    hide LineOk, Clean, Classify, HasControl, Lower;
    if agents != [] {
      assert AgentOk(agents[0]);
      PrintedLine("user-agent", agents[0]);
      AgentLinesOk(agents[1..]);
    }
  }

  lemma {:induction false} RuleLinesOk(rules: seq<Rule>)
    requires forall r <- rules :: RuleOk(r)
    ensures forall l <- RuleLines(rules) :: LineOk(l)
  {
    hide LineOk, Clean, RuleText, Classify, HasControl, RuleOf;
    if rules != [] {
      assert RuleOk(rules[0]);
      PrintedLine("allow", RuleText(rules[0]));
      PrintedLine("disallow", RuleText(rules[0]));
      RuleLinesOk(rules[1..]);
    }
  }

  lemma {:induction false} DelayLinesOk(delays: seq<Duration>, decode: Decoder, show: Shower)
    requires forall d <- delays :: Shown(d, decode, show)
    ensures forall l <- DelayLines(delays, show) :: LineOk(l)
  {
    hide LineOk, Clean, Classify, HasControl, Lower;
    if delays != [] {
      assert Shown(delays[0], decode, show);
      PrintedLine("crawl-delay", show(delays[0]));
      DelayLinesOk(delays[1..], decode, show);
    }
  }

  lemma {:induction false} DocumentLinesOk(groups: seq<Group>, decode: Decoder, show: Shower)
    requires forall g <- groups :: GroupOk(g, decode, show)
    ensures forall l <- DocumentLines(groups, show) :: LineOk(l)
  {
    hide AgentOk, RuleOk, Shown;
    if groups != [] {
      var g := groups[0];
      assert GroupOk(g, decode, show);
      AgentLinesOk(g.agents);
      RuleLinesOk(g.rules);
      DelayLinesOk(g.delays, decode, show);
      assert LineOk("");
      DocumentLinesOk(groups[1..], decode, show);
    }
  }

  lemma NoBom(groups: seq<Group>, decode: Decoder, show: Shower)
    requires forall g <- groups :: GroupOk(g, decode, show)
    ensures StripBom(Print(groups, show)) == Print(groups, show)
  {
    if groups != [] {
      var g := groups[0];
      assert GroupOk(g, decode, show);
      assert AgentLines(g.agents)[0][0] == 'u';
      assert DocumentLines(groups, show)[0] == AgentLines(g.agents)[0];
      assert Print(groups, show)[0] == 'u';
    }
  }

  /** Printable groups survive printing and parsing, in order. */
  lemma PrintThenParse(groups: seq<Group>, decode: Decoder, show: Shower)
    requires forall g <- groups :: GroupOk(g, decode, show)
    ensures Parse(Print(groups, show), decode) == Ok(groups)
  {
    hide GroupOk, ReadAll, Lines, StripBom, ClassifyAll, DocumentLines;
    NoBom(groups, decode, show);
    DocumentLinesOk(groups, decode, show);
    LinesOfUnlines(DocumentLines(groups, show));
    ReadsDocument([], groups, decode, show);
    assert [] + groups == groups;
  }

  /** Printing what was parsed and parsing it again gives the same groups. */
  lemma ParseRoundTrip(body: string, decode: Decoder, show: Shower)
    requires Codec(decode, show) && Parse(body, decode).Ok?
    ensures Parse(Print(Parse(body, decode).value, show), decode) == Parse(body, decode)
  {
    hide Codec, GroupOk, Parse, Print;
    ParsedGroupsOk(body, decode, show);
    PrintThenParse(Parse(body, decode).value, decode, show);
  }
}
