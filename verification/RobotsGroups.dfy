/**
 The groups of a robots document as its grammar gives them (section 2.2.1 of RFC 9309): one
 or more user-agent lines, then the rules and delays up to a blank line or the next
 user-agent line.  The parser, which knows only one flag and an open group, agrees.
 */
module RobotsGroups {
  import opened Wrappers
  import opened Text
  import opened RobotsEvaluate
  import opened RobotsParse

  // The user-agent lines a group begins with, and the lines after them.
  function TakeAgents(lines: seq<Line>): (r: (seq<string>, seq<Line>))
    ensures |r.1| <= |lines|
  {
    if lines != [] && lines[0].AgentLine? then
      var (agents, rest) := TakeAgents(lines[1..]);
      ([Lower(lines[0].value)] + agents, rest)
    else if lines != [] && lines[0].Ignored? then TakeAgents(lines[1..])
    else ([], lines)
  }

  // The rules and delays that follow, and the lines after them.
  function TakeBody(lines: seq<Line>, decode: Decoder): (r: (seq<Rule>, seq<Duration>, seq<Line>))
    ensures |r.2| <= |lines|
  {
    if lines == [] then ([], [], lines)
    else
      match lines[0]
      case Blank => ([], [], lines)
      case AgentLine(_) => ([], [], lines)
      case Ignored => TakeBody(lines[1..], decode)
      case RuleLine(allow, value) =>
        var (rules, delays, rest) := TakeBody(lines[1..], decode);
        (if RuleOf(allow, value).Some? then [RuleOf(allow, value).value] + rules else rules, delays, rest)
      case DelayLine(value) =>
        var (rules, delays, rest) := TakeBody(lines[1..], decode);
        (rules, if decode(value).Some? then [decode(value).value] + delays else delays, rest)
  }

  /** The groups of a document, in order. */
  function GroupsOf(lines: seq<Line>, decode: Decoder): seq<Group>
    decreases |lines|
  {
    if lines == [] then []
    else if lines[0].AgentLine? then
      var (agents, body) := TakeAgents(lines);
      var (rules, delays, rest) := TakeBody(body, decode);
      assert TakeAgents(lines).1 == TakeAgents(lines[1..]).1;
      [Group(agents, rules, delays)] + GroupsOf(rest, decode)
    else GroupsOf(lines[1..], decode)
  }

  // What a group comes to that has these parts so far.
  function Finish(agents: seq<string>, rules: seq<Rule>, delays: seq<Duration>, lines: seq<Line>, decode: Decoder): seq<Group> {
    var (more, waits, rest) := TakeBody(lines, decode);
    [Group(agents, rules + more, delays + waits)] + GroupsOf(rest, decode)
  }

  // The parser between groups.
  lemma {:induction false} ReadsClosed(done: seq<Group>, lines: seq<Line>, decode: Decoder)
    requires ReadAll(Parser(done, None, false), lines, decode).Ok?
    ensures Close(ReadAll(Parser(done, None, false), lines, decode).value).groups == done + GroupsOf(lines, decode)
    decreases |lines|, 0
  {
    hide Lower, HasControl, RuleOf;
    if lines == [] {
      assert done + [] == done;
    } else {
      var p := Parser(done, None, false);
      var q := Read(p, lines[0], decode);
      assert ReadAll(q.value, lines[1..], decode) == ReadAll(p, lines, decode);
      if lines[0].AgentLine? {
        var a := Lower(lines[0].value);
        assert [] + [a] == [a];
        assert q.value == Parser(done, Some(Group([a], [], [])), false);
        ReadsAgentsThen(done, [a], lines[1..], decode);
        assert lines != [] && lines[0].AgentLine?;
        assert TakeAgents(lines) == ([a] + TakeAgents(lines[1..]).0, TakeAgents(lines[1..]).1);
        var (rules, delays, rest) := TakeBody(TakeAgents(lines).1, decode);
        assert [] + rules == rules && [] + delays == delays;
      } else {
        assert q.value == p;
        ReadsClosed(done, lines[1..], decode);
      }
    }
  }

  // The parser with a group open that has agents only.
  lemma {:induction false} ReadsAgentsThen(done: seq<Group>, agents: seq<string>, lines: seq<Line>, decode: Decoder)
    requires agents != [] && ReadAll(Parser(done, Some(Group(agents, [], [])), false), lines, decode).Ok?
    ensures Close(ReadAll(Parser(done, Some(Group(agents, [], [])), false), lines, decode).value).groups
         == done + Finish(agents + TakeAgents(lines).0, [], [], TakeAgents(lines).1, decode)
    decreases |lines|, 2
  {
    hide Lower, HasControl, RuleOf;
    var p := Parser(done, Some(Group(agents, [], [])), false);
    if lines != [] && lines[0].AgentLine? {
      var a := Lower(lines[0].value);
      var q := Read(p, lines[0], decode);
      assert ReadAll(q.value, lines[1..], decode) == ReadAll(p, lines, decode);
      assert q.value == Parser(done, Some(Group(agents + [a], [], [])), false);
      ReadsAgentsThen(done, agents + [a], lines[1..], decode);
      assert agents + [a] + TakeAgents(lines[1..]).0 == agents + TakeAgents(lines).0;
    } else if lines != [] && lines[0].Ignored? {
      assert ReadAll(p, lines[1..], decode) == ReadAll(p, lines, decode);
      ReadsAgentsThen(done, agents, lines[1..], decode);
    } else {
      assert agents + [] == agents;
      ReadsBody(done, Group(agents, [], []), lines, false, decode);
    }
  }

  // The parser with a group open and no user-agent line to come that would still belong to it.
  lemma {:induction false} ReadsBody(done: seq<Group>, g: Group, lines: seq<Line>, policy: bool, decode: Decoder)
    requires g.agents != [] && ReadAll(Parser(done, Some(g), policy), lines, decode).Ok?
    requires policy || lines == [] || !(lines[0].AgentLine? || lines[0].Ignored?)
    ensures Close(ReadAll(Parser(done, Some(g), policy), lines, decode).value).groups
         == done + Finish(g.agents, g.rules, g.delays, lines, decode)
    decreases |lines|, 1
  {
    hide Lower, HasControl, RuleOf;
    var p := Parser(done, Some(g), policy);
    if lines == [] {
      assert g.rules + [] == g.rules && g.delays + [] == g.delays;
      assert [g] + [] == [g];
    } else {
      var q := Read(p, lines[0], decode);
      assert ReadAll(q.value, lines[1..], decode) == ReadAll(p, lines, decode);
      match lines[0]
      case Blank =>
        ReadsClosed(done + [g], lines[1..], decode);
        GroupEnds(done, g, lines, decode);
      case AgentLine(v) =>
        OpensNext(done, g, lines, decode);
        ReadsClosed(done + [g], lines, decode);
        GroupEnds(done, g, lines, decode);
      case Ignored =>
        ReadsBody(done, g, lines[1..], true, decode);
      case RuleLine(allow, v) =>
        RuleNext(done, g, lines, policy, decode);
      case DelayLine(v) =>
        var d := decode(v).value;
        ReadsBody(done, g.(delays := g.delays + [d]), lines[1..], true, decode);
        assert g.delays + [d] + TakeBody(lines[1..], decode).1 == g.delays + ([d] + TakeBody(lines[1..], decode).1);
    }
  }

  lemma {:induction false} RuleNext(done: seq<Group>, g: Group, lines: seq<Line>, policy: bool, decode: Decoder)
    requires g.agents != [] && lines != [] && lines[0].RuleLine? && ReadAll(Parser(done, Some(g), policy), lines, decode).Ok?
    ensures Close(ReadAll(Parser(done, Some(g), policy), lines, decode).value).groups
         == done + Finish(g.agents, g.rules, g.delays, lines, decode)
    decreases |lines|, 0
  {
    hide Lower, HasControl;
    var p := Parser(done, Some(g), policy);
    var q := Read(p, lines[0], decode);
    assert ReadAll(q.value, lines[1..], decode) == ReadAll(p, lines, decode);
    var rule := RuleOf(lines[0].allow, lines[0].value);
    var h := if rule.Some? then g.(rules := g.rules + [rule.value]) else g;
    assert q.value == Parser(done, Some(h), true);
    ReadsBody(done, h, lines[1..], true, decode);
    if rule.Some? {
      assert g.rules + [rule.value] + TakeBody(lines[1..], decode).0 == g.rules + ([rule.value] + TakeBody(lines[1..], decode).0);
    }
  }

  // At a line that ends the group nothing is added to it.
  lemma GroupEnds(done: seq<Group>, g: Group, lines: seq<Line>, decode: Decoder)
    requires lines != [] && (lines[0].Blank? || lines[0].AgentLine?)
    ensures done + Finish(g.agents, g.rules, g.delays, lines, decode) == done + [g] + GroupsOf(lines, decode)
    ensures lines[0].Blank? ==> GroupsOf(lines, decode) == GroupsOf(lines[1..], decode)
  {
    assert g.rules + [] == g.rules && g.delays + [] == g.delays;
    assert done + ([g] + GroupsOf(lines, decode)) == done + [g] + GroupsOf(lines, decode);
  }

  // A user-agent line after a policy line closes the group first.
  lemma OpensNext(done: seq<Group>, g: Group, lines: seq<Line>, decode: Decoder)
    requires g.agents != [] && lines != [] && lines[0].AgentLine?
    ensures ReadAll(Parser(done, Some(g), true), lines, decode) == ReadAll(Parser(done + [g], None, false), lines, decode)
  {
    hide Lower, HasControl;
  }

  /** An accepted document has exactly the groups that its grammar gives it. */
  lemma ParsedByGrammar(body: string, decode: Decoder)
    requires Parse(body, decode).Ok?
    ensures Parse(body, decode).value == GroupsOf(ClassifyAll(Lines(StripBom(body))), decode)
  {
    hide ReadAll, ClassifyAll, Lines, GroupsOf, Close;
    var lines := ClassifyAll(Lines(StripBom(body)));
    ReadsClosed([], lines, decode);
    assert [] + GroupsOf(lines, decode) == GroupsOf(lines, decode);
  }
}
