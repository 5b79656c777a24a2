/**
 The robots document parser (crates/erabi-crawler/src/robots.rs, parse_robots_document).
 Comments are cut, lines trimmed, and a blank or comment-only line closes a group;
 a user-agent line after a policy line opens a new one.  The text form of a
 crawl delay is a parameter: `decode` stands for parse_crawl_delay.
 */
module RobotsParse {
  import opened Text
  import opened Wrappers
  import opened RobotsMatch
  import opened RobotsEvaluate

  datatype InvalidPolicy = MalformedDirective | InvalidCrawlDelay

  type Decoder = string -> Option<Duration>

  // ---- Characters ----

  predicate HasControl(s: string) { exists c <- s :: Control(c) }

  function TrimStart(s: string): (r: string)
    ensures r == "" || !White(r[0])
    ensures forall c <- r :: c in s
  {
    if s == "" || !White(s[0]) then s else TrimStart(s[1..])
  }

  function TrimEnd(s: string): (r: string)
    ensures r <= s && (r == "" || !White(r[|r| - 1]))
    decreases |s|
  {
    if s == "" || !White(s[|s| - 1]) then s else TrimEnd(s[..|s| - 1])
  }

  function Trim(s: string): (r: string)
    ensures r == "" || (!White(r[0]) && !White(r[|r| - 1]))
    ensures forall c <- r :: c in s
  {
    TrimEnd(TrimStart(s))
  }

  /** The text before the first `sep`, and the text after it if there is one. */
  function SplitOnce(s: string, sep: char): (r: (string, Option<string>))
    ensures sep !in r.0
    ensures s == r.0 + (if r.1.Some? then [sep] + r.1.value else "")
  {
    if s == "" then ("", None)
    else if s[0] == sep then ("", Some(s[1..]))
    else
      var (before, after) := SplitOnce(s[1..], sep);
      ([s[0]] + before, after)
  }

  function StripBom(s: string): string {
    if s != "" && s[0] == '\U{FEFF}' then StripBom(s[1..]) else s
  }

  function StripCr(s: string): string {
    if s != "" && s[|s| - 1] == '\r' then s[..|s| - 1] else s
  }

  /** str::lines: the last, unterminated line counts only if it is not empty. */
  function Lines(body: string): seq<string> {
    var parts := Split(body, '\n');
    var last := parts[|parts| - 1];
    StripAll(parts[..|parts| - 1]) + if last == "" then [] else [last]
  }

  function StripAll(lines: seq<string>): seq<string> {
    if lines == [] then [] else [StripCr(lines[0])] + StripAll(lines[1..])
  }

  // ---- Lines ----

  datatype Line = Blank | Ignored | AgentLine(value: string) | RuleLine(allow: bool, value: string) | DelayLine(value: string)

  function Classify(raw: string): Line {
    var line := Trim(SplitOnce(raw, '#').0);
    if line == "" then Blank
    else
      var (before, after) := SplitOnce(line, ':');
      if after.None? then Ignored
      else
        var name, value := Lower(Trim(before)), Trim(after.value);
        if name == "user-agent" then AgentLine(value)
        else if name == "allow" then RuleLine(true, value)
        else if name == "disallow" then RuleLine(false, value)
        else if name == "crawl-delay" then DelayLine(value)
        else Ignored
  }

  /** The number of bytes of a pattern other than `*`. */
  function Specificity(pattern: string): nat {
    if pattern == "" then 0
    else (if pattern[0] == '*' then 0 else Utf8Len([pattern[0]])) + Specificity(pattern[1..])
  }

  /** The rule a value stands for; none if the pattern is empty. */
  function RuleOf(allow: bool, value: string): Option<Rule> {
    var anchored := value != "" && value[|value| - 1] == '$';
    var pattern := if anchored then value[..|value| - 1] else value;
    if pattern == "" then None else Some(Rule(pattern, allow, Specificity(pattern), anchored))
  }

  // ---- The parser ----

  datatype Parser = Parser(groups: seq<Group>, current: Option<Group>, policy: bool)

  const START := Parser([], None, false)
  const NO_GROUP := Group([], [], [])

  function Close(p: Parser): Parser {
    Parser(if p.current.Some? && p.current.value.agents != [] then p.groups + [p.current.value] else p.groups, None, false)
  }

  function ReadAgent(p: Parser, value: string): Result<Parser, InvalidPolicy> {
    if value == "" || HasControl(value) then Err(MalformedDirective)
    else
      var q := if p.policy then Close(p) else p;
      var g := if q.current.Some? then q.current.value else NO_GROUP;
      Ok(q.(current := Some(g.(agents := g.agents + [Lower(value)]))))
  }

  function ReadRule(p: Parser, allow: bool, value: string): Result<Parser, InvalidPolicy> {
    if p.current.None? then Err(MalformedDirective)
    else if value == "" then Ok(p.(policy := true))
    else if HasControl(value) then Err(MalformedDirective)
    else
      var g := p.current.value;
      var rule := RuleOf(allow, value);
      Ok(p.(policy := true, current := Some(if rule.Some? then g.(rules := g.rules + [rule.value]) else g)))
  }

  function ReadDelay(p: Parser, value: string, decode: Decoder): Result<Parser, InvalidPolicy> {
    if p.current.None? then Err(MalformedDirective)
    else
      var d := decode(value);
      if d.None? then Err(InvalidCrawlDelay)
      else Ok(p.(policy := true, current := Some(p.current.value.(delays := p.current.value.delays + [d.value]))))
  }

  function Read(p: Parser, line: Line, decode: Decoder): Result<Parser, InvalidPolicy> {
    match line
    case Blank => Ok(Close(p))
    case Ignored => Ok(p)
    case AgentLine(value) => ReadAgent(p, value)
    case RuleLine(allow, value) => ReadRule(p, allow, value)
    case DelayLine(value) => ReadDelay(p, value, decode)
  }

  function ReadAll(p: Parser, lines: seq<Line>, decode: Decoder): Result<Parser, InvalidPolicy>
    decreases |lines|
  {
    if lines == [] then Ok(p)
    else
      var q := Read(p, lines[0], decode);
      if q.Err? then q else ReadAll(q.value, lines[1..], decode)
  }

  function ClassifyAll(raw: seq<string>): seq<Line> {
    if raw == [] then [] else [Classify(raw[0])] + ClassifyAll(raw[1..])
  }

  function Parse(body: string, decode: Decoder): Result<seq<Group>, InvalidPolicy> {
    var p := ReadAll(START, ClassifyAll(Lines(StripBom(body))), decode);
    if p.Err? then Err(p.error) else Ok(Close(p.value).groups)
  }

  /** parse_robots_document */
  method ParseRobotsDocument(body: string, decode: Decoder) returns (r: Result<seq<Group>, InvalidPolicy>)
    ensures r == Parse(body, decode)
  {
    hide Classify, HasControl, RuleOf, Lines;
    var groups: seq<Group> := [];
    var current: Option<Group> := None;
    var policy := false;
    var lines := Lines(StripBom(body));
    for i := 0 to |lines|
      invariant ReadAll(START, ClassifyAll(lines), decode)
             == ReadAll(Parser(groups, current, policy), ClassifyAll(lines[i..]), decode)
    {
      assert lines[i..][1..] == lines[i + 1..];
      match Classify(lines[i]) {
        case Blank =>
          if current.Some? && current.value.agents != [] {
            groups := groups + [current.value];
          }
          current, policy := None, false;
        case Ignored =>
        case AgentLine(value) =>
          if value == "" || HasControl(value) {
            return Err(MalformedDirective);
          }
          if policy {
            if current.Some? && current.value.agents != [] {
              groups := groups + [current.value];
            }
            current, policy := None, false;
          }
          var group := if current.Some? then current.value else NO_GROUP;
          current := Some(group.(agents := group.agents + [Lower(value)]));
        case RuleLine(allow, value) =>
          if current.None? {
            return Err(MalformedDirective);
          }
          policy := true;
          if value != "" {
            if HasControl(value) {
              return Err(MalformedDirective);
            }
            var rule := RuleOf(allow, value);
            if rule.Some? {
              current := Some(current.value.(rules := current.value.rules + [rule.value]));
            }
          }
        case DelayLine(value) =>
          if current.None? {
            return Err(MalformedDirective);
          }
          policy := true;
          var delay := decode(value);
          if delay.None? {
            return Err(InvalidCrawlDelay);
          }
          current := Some(current.value.(delays := current.value.delays + [delay.value]));
      }
    }
    assert lines[|lines|..] == [];
    if current.Some? && current.value.agents != [] {
      groups := groups + [current.value];
    }
    return Ok(groups);
  }

  // ---- When a document is rejected ----

  /** A group is open before line `k` when some user-agent line has no blank line after it. */
  predicate OpenBefore(lines: seq<Line>, k: nat)
    requires k <= |lines|
  {
    exists i | 0 <= i < k :: lines[i].AgentLine? && forall j | i < j < k :: !lines[j].Blank?
  }

  // A control character somewhere: C0, DEL or C1.
  predicate Garbled(v: string) {
    exists i | 0 <= i < |v| :: v[i] as int < 32 || 127 <= v[i] as int <= 159
  }

  lemma GarbledExactly(v: string)
    ensures HasControl(v) <==> Garbled(v)
    ensures v == "" ==> !Garbled(v)
  {
    if c :| c in v && Control(c) {
      var i :| 0 <= i < |v| && v[i] == c;
    }
    if i :| 0 <= i < |v| && (v[i] as int < 32 || 127 <= v[i] as int <= 159) {
      assert v[i] in v && Control(v[i]);
    }
  }

  function Offence(lines: seq<Line>, k: nat, decode: Decoder): Option<InvalidPolicy>
    requires k < |lines|
  {
    match lines[k]
    case AgentLine(v) => if v == "" || Garbled(v) then Some(MalformedDirective) else None
    case RuleLine(_, v) => if !OpenBefore(lines, k) || Garbled(v) then Some(MalformedDirective) else None
    case DelayLine(v) =>
      if !OpenBefore(lines, k) then Some(MalformedDirective) else if decode(v).None? then Some(InvalidCrawlDelay) else None
    case _ => None
  }

  lemma OpenSnoc(lines: seq<Line>, k: nat)
    requires k < |lines|
    ensures OpenBefore(lines, k + 1) <==> lines[k].AgentLine? || (OpenBefore(lines, k) && !lines[k].Blank?)
  {
    if lines[k].AgentLine? {
      assert OpenBefore(lines, k + 1);
    }
  }

  // Reading from line `k` on, with a group open exactly when one should be.
  lemma {:induction false} RejectedFrom(p: Parser, lines: seq<Line>, k: nat, decode: Decoder)
    requires k <= |lines| && (p.current.Some? <==> OpenBefore(lines, k))
    ensures ReadAll(p, lines[k..], decode).Err? <==> exists n | k <= n < |lines| :: Offence(lines, n, decode).Some?
    ensures forall n | k <= n < |lines| ::
              Offence(lines, n, decode).Some? && (forall m | k <= m < n :: Offence(lines, m, decode).None?)
              ==> ReadAll(p, lines[k..], decode) == Err(Offence(lines, n, decode).value)
    decreases |lines| - k
  {
    hide HasControl, Garbled, OpenBefore, RuleOf, Lower;
    if k < |lines| {
      OpenSnoc(lines, k);
      if lines[k].AgentLine? || lines[k].RuleLine? { GarbledExactly(lines[k].value); }
      assert lines[k..][0] == lines[k] && lines[k..][1..] == lines[k + 1..];
      var q := Read(p, lines[k], decode);
      assert q.Err? <==> Offence(lines, k, decode).Some?;
      if q.Ok? {
        RejectedFrom(q.value, lines, k + 1, decode);
      }
    }
  }

  /** A document is rejected exactly when some line offends, with the error of the first: a rule
      or delay line with no group open, a bad user agent, a control character, a bad delay. */
  lemma RejectedExactly(body: string, decode: Decoder)
    ensures var lines := ClassifyAll(Lines(StripBom(body)));
            && (Parse(body, decode).Err? <==> exists n | 0 <= n < |lines| :: Offence(lines, n, decode).Some?)
            && forall n | 0 <= n < |lines| ::
                 Offence(lines, n, decode).Some? && (forall m | 0 <= m < n :: Offence(lines, m, decode).None?)
                 ==> Parse(body, decode) == Err(Offence(lines, n, decode).value)
  {
    hide Offence, ClassifyAll, Lines;
    var lines := ClassifyAll(Lines(StripBom(body)));
    assert lines[0..] == lines;
    RejectedFrom(START, lines, 0, decode);
  }
}
