/**
 Evaluating a parsed robots document for one crawler and one path
 (crates/erabi-crawler/src/robots.rs): the groups of the most specific matching
 user agent are selected, and among their matching rules the most specific one
 decides, allow before disallow (sections 2.2.1 and 2.2.2 of RFC 9309).
 */
module RobotsEvaluate {
  import opened Text
  import opened Wrappers
  import opened RobotsMatch
  import opened SetFacts

  type Duration = nat

  datatype Rule = Rule(pattern: string, allow: bool, specificity: nat, anchored: bool)
  datatype Group = Group(agents: seq<string>, rules: seq<Rule>, delays: seq<Duration>)
  datatype Document = Parsed(groups: seq<Group>) | AllowAll | DenyAll
  datatype Evaluation = Evaluation(allowed: bool, delay: Option<Duration>)

  // ---- User agents ----

  function Utf8Len(s: string): nat {
    if s == "" then 0
    else (if s[0] < '\U{80}' then 1 else if s[0] < '\U{800}' then 2 else if s[0] < '\U{10000}' then 3 else 4) + Utf8Len(s[1..])
  }

  predicate AsciiSpace(c: char) {
    c == ' ' || c == '\t' || c == '\n' || c == '\U{c}' || c == '\r'
  }

  /** user_agent_matches: the whole product token, or a prefix of it ending at `/` or a space. */
  predicate AgentMatches(active: string, selector: string) {
    active == selector
    || (selector < active && (active[|selector|] == '/' || AsciiSpace(active[|selector|])))
  }

  predicate Selects(active: string, agent: string) { agent != "*" && AgentMatches(active, agent) }

  // No agent of the group that selects `active` is longer than `n`.
  predicate ScoreAtMost(g: Group, active: string, n: nat) {
    forall a <- g.agents :: Selects(active, a) ==> Utf8Len(a) <= n
  }

  predicate NoneAbove(groups: seq<Group>, active: string, n: nat) {
    forall g <- groups :: ScoreAtMost(g, active, n)
  }

  predicate Scores(g: Group, active: string, n: nat) {
    exists a <- g.agents :: Selects(active, a) && Utf8Len(a) == n
  }

  predicate Named(groups: seq<Group>, active: string) {
    exists g <- groups, a <- g.agents :: Selects(active, a) && Utf8Len(a) > 0
  }

  /** A group is selected if it names the crawler as specifically as any group does, or, when
      none names it, if it speaks to everyone. */
  predicate IsSelected(groups: seq<Group>, active: string, g: Group) {
    if Named(groups, active) then
      exists a <- g.agents :: Selects(active, a) && Utf8Len(a) > 0 && NoneAbove(groups, active, Utf8Len(a))
    else "*" in g.agents
  }

  function Keep(groups: seq<Group>, all: seq<Group>, active: string): seq<Group> {
    if groups == [] then []
    else (if IsSelected(all, active, groups[0]) then [groups[0]] else []) + Keep(groups[1..], all, active)
  }

  lemma {:induction false} KeepMembers(groups: seq<Group>, all: seq<Group>, active: string, g: Group)
    ensures g in Keep(groups, all, active) <==> g in groups && IsSelected(all, active, g)
  {
    if groups != [] {
      KeepMembers(groups[1..], all, active, g);
    }
  }

  lemma {:induction false} KeepSnoc(groups: seq<Group>, k: nat, all: seq<Group>, active: string)
    requires k < |groups|
    ensures Keep(groups[..k + 1], all, active) ==
            Keep(groups[..k], all, active) + (if IsSelected(all, active, groups[k]) then [groups[k]] else [])
  {
    hide IsSelected;
    if k == 0 {
      assert groups[..1] == [groups[0]];
    } else {
      assert groups[..k + 1][1..] == groups[1..][..k];
      assert groups[..k][1..] == groups[1..][..k - 1];
      KeepSnoc(groups[1..], k - 1, all, active);
    }
  }

  // The longest agent of the group that selects the crawler, 0 if none does.
  method Score(g: Group, active: string) returns (n: nat)
    ensures ScoreAtMost(g, active, n)
    ensures n > 0 ==> Scores(g, active, n)
  {
    hide AgentMatches, Utf8Len;
    n := 0;
    for i := 0 to |g.agents|
      invariant forall k | 0 <= k < i :: Selects(active, g.agents[k]) ==> Utf8Len(g.agents[k]) <= n
      invariant n > 0 ==> Scores(g, active, n)
    {
      if Selects(active, g.agents[i]) && Utf8Len(g.agents[i]) > n {
        n := Utf8Len(g.agents[i]);
      }
    }
  }

  // With the highest score known, a group is selected exactly when its own score reaches it.
  lemma SelectedByScore(groups: seq<Group>, active: string, g: Group, n: nat, highest: nat)
    requires g in groups && ScoreAtMost(g, active, n) && (n > 0 ==> Scores(g, active, n))
    requires NoneAbove(groups, active, highest)
    requires highest > 0 ==> exists h <- groups :: Scores(h, active, highest)
    ensures IsSelected(groups, active, g) <==> if highest > 0 then n == highest else "*" in g.agents
    ensures Named(groups, active) <==> highest > 0
  {
    hide Selects, Utf8Len;
  }

  /** select_groups keeps the selected groups in document order. */
  method SelectGroups(groups: seq<Group>, userAgent: string) returns (selected: seq<Group>)
    ensures selected == Keep(groups, groups, Lower(userAgent))
  {
    hide IsSelected, Named, ScoreAtMost, Scores;
    var active := Lower(userAgent);
    var scores: seq<nat> := [];
    var highest := 0;
    for i := 0 to |groups|
      invariant |scores| == i
      invariant forall k | 0 <= k < i :: ScoreAtMost(groups[k], active, scores[k]) && scores[k] <= highest
      invariant forall k | 0 <= k < i :: scores[k] > 0 ==> Scores(groups[k], active, scores[k])
      invariant highest > 0 ==> exists k | 0 <= k < i :: scores[k] == highest
    {
      var n := Score(groups[i], active);
      scores := scores + [n];
      if n > highest {
        highest := n;
        assert scores[i] == highest;
      }
    }
    HighestScore(groups, active, scores, highest);
    selected := [];
    for i := 0 to |groups|
      invariant selected == Keep(groups[..i], groups, active)
    {
      SelectedByScore(groups, active, groups[i], scores[i], highest);
      KeepSnoc(groups, i, groups, active);
      if (if highest > 0 then scores[i] == highest else "*" in groups[i].agents) {
        selected := selected + [groups[i]];
      }
    }
    assert groups[..|groups|] == groups;
  }

  lemma HighestScore(groups: seq<Group>, active: string, scores: seq<nat>, highest: nat)
    requires |scores| == |groups|
    requires forall k | 0 <= k < |groups| :: ScoreAtMost(groups[k], active, scores[k]) && scores[k] <= highest
    requires forall k | 0 <= k < |groups| :: scores[k] > 0 ==> Scores(groups[k], active, scores[k])
    requires highest > 0 ==> exists k | 0 <= k < |groups| :: scores[k] == highest
    ensures NoneAbove(groups, active, highest)
    ensures highest > 0 ==> exists h <- groups :: Scores(h, active, highest)
  {
    hide Selects, Utf8Len;
    forall k | 0 <= k < |groups| ensures ScoreAtMost(groups[k], active, highest) {
      assert ScoreAtMost(groups[k], active, scores[k]);
    }
    if highest > 0 {
      var k :| 0 <= k < |groups| && scores[k] == highest;
      assert groups[k] in groups && Scores(groups[k], active, highest);
    }
  }

  // ---- Rules and delays ----

  ghost predicate Applies(groups: seq<Group>, active: string, path: string, r: Rule) {
    exists g <- groups :: IsSelected(groups, active, g) && r in g.rules && Matches(r.pattern, r.anchored, path)
  }

  predicate Outweighs(r: Rule, s: Rule) {
    r.specificity > s.specificity || (r.specificity == s.specificity && (r.allow || !s.allow))
  }

  /** The path is allowed when every applicable disallow is outweighed by an applicable allow. */
  ghost predicate Allowed(groups: seq<Group>, active: string, path: string) {
    forall s: Rule | Applies(groups, active, path, s) && !s.allow ::
      exists r: Rule :: Applies(groups, active, path, r) && r.allow && Outweighs(r, s)
  }

  ghost predicate Delays(groups: seq<Group>, active: string, d: Duration) {
    exists g <- groups :: IsSelected(groups, active, g) && d in g.delays
  }

  /** The longest delay of the selected groups, if there is one. */
  ghost predicate IsDelay(groups: seq<Group>, active: string, delay: Option<Duration>) {
    && (forall d: Duration | Delays(groups, active, d) :: delay.Some? && d <= delay.value)
    && (delay.Some? ==> Delays(groups, active, delay.value))
  }

  ghost predicate IsEvaluation(doc: Document, active: string, path: string, e: Evaluation) {
    match doc
    case AllowAll => e == Evaluation(true, None)
    case DenyAll => e == Evaluation(false, None)
    case Parsed(groups) => (e.allowed <==> Allowed(groups, active, path)) && IsDelay(groups, active, e.delay)
  }

  // `best` weighs at least as much as every matching rule seen so far, and is one of them.
  ghost predicate IsBest(seen: set<Rule>, path: string, best: Option<Rule>) {
    && (forall r <- seen :: Matches(r.pattern, r.anchored, path) ==> best.Some? && Outweighs(best.value, r))
    && (best.Some? ==> best.value in seen && Matches(best.value.pattern, best.value.anchored, path))
  }

  method BestInGroup(g: Group, path: string, before: Option<Rule>, ghost seen: set<Rule>) returns (best: Option<Rule>)
    requires IsBest(seen, path, before)
    ensures IsBest(seen + Members(g.rules), path, best)
  {
    hide Matches;
    best := before;
    ghost var now := seen;
    for i := 0 to |g.rules|
      invariant IsBest(now, path, best)
      invariant now == seen + Members(g.rules[..i])
    {
      var rule := g.rules[i];
      var m := RuleMatches(rule.pattern, rule.anchored, path);
      if m {
        if best.Some? && (best.value.specificity > rule.specificity
                          || (best.value.specificity == rule.specificity && best.value.allow)) {
        } else {
          best := Some(rule);
        }
      }
      now := now + {rule};
      assert g.rules[..i + 1] == g.rules[..i] + [rule];
    }
    assert g.rules[..|g.rules|] == g.rules;
  }

  // `d` is the longest of the delays seen so far.
  predicate IsLongest(seen: set<Duration>, d: Option<Duration>) {
    (d.None? <==> seen == {}) && (d.Some? ==> d.value in seen && forall x <- seen :: x <= d.value)
  }

  method LongestDelay(delays: seq<Duration>, before: Option<Duration>, ghost seen: set<Duration>) returns (d: Option<Duration>)
    requires IsLongest(seen, before)
    ensures IsLongest(seen + Members(delays), d)
  {
    d := before;
    ghost var now := seen;
    for i := 0 to |delays|
      invariant IsLongest(now, d)
      invariant now == seen + Members(delays[..i])
    {
      d := Some(if d.None? || delays[i] > d.value then delays[i] else d.value);
      now := now + {delays[i]};
      assert delays[..i + 1] == delays[..i] + [delays[i]];
    }
    assert delays[..|delays|] == delays;
  }

  // All rules, and all delays, of a list of groups.
  function RulesIn(groups: seq<Group>): set<Rule> { set g, r | g in groups && r in g.rules :: r }
  function DelaysIn(groups: seq<Group>): set<Duration> { set g, d | g in groups && d in g.delays :: d }

  /** RobotsDocument::evaluate */
  method Evaluate(doc: Document, userAgent: string, path: string) returns (e: Evaluation)
    ensures IsEvaluation(doc, Lower(userAgent), path, e)
  {
    hide Matches, IsSelected, Lower, IsBest, IsLongest, RulesIn, DelaysIn, Allowed, IsDelay;
    if doc.AllowAll? { return Evaluation(true, None); }
    if doc.DenyAll? { return Evaluation(false, None); }
    var selected := SelectGroups(doc.groups, userAgent);
    var best: Option<Rule> := None;
    var delay: Option<Duration> := None;
    NoneYet(path);
    for i := 0 to |selected|
      invariant IsBest(RulesIn(selected[..i]), path, best)
      invariant IsLongest(DelaysIn(selected[..i]), delay)
    {
      OneMoreGroup(selected, i);
      best := BestInGroup(selected[i], path, best, RulesIn(selected[..i]));
      delay := LongestDelay(selected[i].delays, delay, DelaysIn(selected[..i]));
    }
    assert selected[..|selected|] == selected;
    BestDecides(doc.groups, Lower(userAgent), path, best);
    DelayDecides(doc.groups, Lower(userAgent), delay);
    return Evaluation(best.None? || best.value.allow, delay);
  }

  lemma NoneYet(path: string)
    ensures IsBest(RulesIn([]), path, None) && IsLongest(DelaysIn([]), None)
  {}

  lemma OneMoreGroup(groups: seq<Group>, i: nat)
    requires i < |groups|
    ensures RulesIn(groups[..i + 1]) == RulesIn(groups[..i]) + Members(groups[i].rules)
    ensures DelaysIn(groups[..i + 1]) == DelaysIn(groups[..i]) + Members(groups[i].delays)
  {
    forall g: Group ensures g in groups[..i + 1] <==> g in groups[..i] || g == groups[i] {}
  }

  lemma BestDecides(groups: seq<Group>, active: string, path: string, best: Option<Rule>)
    requires IsBest(RulesIn(Keep(groups, groups, active)), path, best)
    ensures Allowed(groups, active, path) <==> best.None? || best.value.allow
  {
    hide Matches, IsSelected;
    forall g: Group ensures g in Keep(groups, groups, active) <==> g in groups && IsSelected(groups, active, g) {
      KeepMembers(groups, groups, active, g);
    }
    forall r: Rule ensures Applies(groups, active, path, r) <==>
        r in RulesIn(Keep(groups, groups, active)) && Matches(r.pattern, r.anchored, path) {}
    hide Applies, RulesIn, Keep;
  }

  lemma DelayDecides(groups: seq<Group>, active: string, delay: Option<Duration>)
    requires IsLongest(DelaysIn(Keep(groups, groups, active)), delay)
    ensures IsDelay(groups, active, delay)
  {
    hide IsSelected;
    forall g: Group ensures g in Keep(groups, groups, active) <==> g in groups && IsSelected(groups, active, g) {
      KeepMembers(groups, groups, active, g);
    }
    forall d: Duration ensures Delays(groups, active, d) <==> d in DelaysIn(Keep(groups, groups, active)) {}
    hide Delays, DelaysIn, Keep;
  }

  // ---- What the evaluation depends on ----

  function Facts(groups: seq<Group>): set<(seq<string>, Rule)> { set g, r | g in groups && r in g.rules :: (g.agents, r) }
  function Waits(groups: seq<Group>): set<(seq<string>, Duration)> { set g, d | g in groups && d in g.delays :: (g.agents, d) }
  function Agents(groups: seq<Group>): set<seq<string>> { set g | g in groups :: g.agents }

  // The same rules and delays, each under the same agents, whatever their order and grouping.
  predicate SameFacts(a: seq<Group>, b: seq<Group>) {
    Facts(a) == Facts(b) && Waits(a) == Waits(b) && Agents(a) == Agents(b)
  }

  lemma SelectionDependsOnAgents(a: seq<Group>, b: seq<Group>, active: string, g: Group, h: Group)
    requires Agents(a) <= Agents(b) && Agents(b) <= Agents(a) && g.agents == h.agents
    ensures IsSelected(a, active, g) <==> IsSelected(b, active, h)
  {
    hide Selects, Utf8Len;
    forall n: nat ensures NoneAbove(a, active, n) <==> NoneAbove(b, active, n) {
      ScoresSame(a, b, active, n);
      ScoresSame(b, a, active, n);
    }
    assert Named(a, active) <==> Named(b, active) by {
      if Named(a, active) { NamedSame(a, b, active); }
      if Named(b, active) { NamedSame(b, a, active); }
    }
  }

  lemma ScoresSame(a: seq<Group>, b: seq<Group>, active: string, n: nat)
    requires Agents(a) <= Agents(b)
    ensures NoneAbove(b, active, n) ==> NoneAbove(a, active, n)
  {
    hide Selects, Utf8Len;
    forall x <- a | NoneAbove(b, active, n) ensures ScoreAtMost(x, active, n) {
      assert x.agents in Agents(b);
      var y :| y in b && y.agents == x.agents;
      assert ScoreAtMost(y, active, n);
    }
  }

  lemma NamedSame(a: seq<Group>, b: seq<Group>, active: string)
    requires Agents(a) <= Agents(b) && Named(a, active)
    ensures Named(b, active)
  {
    hide Selects, Utf8Len;
    var x, s :| x in a && s in x.agents && Selects(active, s) && Utf8Len(s) > 0;
    assert x.agents in Agents(b);
    var y :| y in b && y.agents == x.agents;
    assert s in y.agents;
  }

  lemma AppliesSame(a: seq<Group>, b: seq<Group>, active: string, path: string, r: Rule)
    requires SameFacts(a, b) && Applies(a, active, path, r)
    ensures Applies(b, active, path, r)
  {
    hide Matches, IsSelected;
    var g :| g in a && IsSelected(a, active, g) && r in g.rules;
    assert (g.agents, r) in Facts(b);
    var h :| h in b && r in h.rules && h.agents == g.agents;
    SelectionDependsOnAgents(a, b, active, g, h);
  }

  lemma DelaysSame(a: seq<Group>, b: seq<Group>, active: string, d: Duration)
    requires SameFacts(a, b) && Delays(a, active, d)
    ensures Delays(b, active, d)
  {
    hide IsSelected;
    var g :| g in a && IsSelected(a, active, g) && d in g.delays;
    assert (g.agents, d) in Waits(b);
    var h :| h in b && d in h.delays && h.agents == g.agents;
    SelectionDependsOnAgents(a, b, active, g, h);
  }

  /** The evaluation depends only on which rules and delays stand under which agents: any
      reordering of groups and rules, and any splitting or joining of groups with the same
      agents, leaves it unchanged. */
  lemma OrderAndGroupingDoNotMatter(a: seq<Group>, b: seq<Group>, active: string, path: string, e: Evaluation)
    requires SameFacts(a, b)
    ensures IsEvaluation(Parsed(a), active, path, e) <==> IsEvaluation(Parsed(b), active, path, e)
  {
    forall r: Rule ensures Applies(a, active, path, r) <==> Applies(b, active, path, r) {
      if Applies(a, active, path, r) { AppliesSame(a, b, active, path, r); }
      if Applies(b, active, path, r) { AppliesSame(b, a, active, path, r); }
    }
    forall d: Duration ensures Delays(a, active, d) <==> Delays(b, active, d) {
      if Delays(a, active, d) { DelaysSame(a, b, active, d); }
      if Delays(b, active, d) { DelaysSame(b, a, active, d); }
    }
    hide Applies, Delays, SameFacts;
  }

  /** There is only one evaluation. */
  lemma EvaluationIsUnique(doc: Document, active: string, path: string, e: Evaluation, f: Evaluation)
    requires IsEvaluation(doc, active, path, e) && IsEvaluation(doc, active, path, f)
    ensures e == f
  {
    hide Allowed, Delays;
    if doc.Parsed? {
      assert e.delay.Some? ==> Delays(doc.groups, active, e.delay.value);
      assert f.delay.Some? ==> Delays(doc.groups, active, f.delay.value);
    }
  }

  /** Permuting groups. */
  lemma PermutedGroups(a: seq<Group>, b: seq<Group>)
    requires multiset(a) == multiset(b)
    ensures SameFacts(a, b)
  {
    forall g: Group ensures g in a <==> g in b {
      assert g in a <==> g in multiset(a);
      assert g in b <==> g in multiset(b);
    }
  }

  /** Splitting a group into two with the same agents. */
  lemma SplitGroup(before: seq<Group>, g: Group, i: nat, k: nat, after: seq<Group>)
    requires i <= |g.rules| && k <= |g.delays|
    ensures SameFacts(before + [g] + after,
                      before + [Group(g.agents, g.rules[..i], g.delays[..k]), Group(g.agents, g.rules[i..], g.delays[k..])] + after)
  {
    var x, y := Group(g.agents, g.rules[..i], g.delays[..k]), Group(g.agents, g.rules[i..], g.delays[k..]);
    var a, b := before + [g] + after, before + [x, y] + after;
    assert g.rules == g.rules[..i] + g.rules[i..] && g.delays == g.delays[..k] + g.delays[k..];
    forall h: Group ensures h in a <==> h in before || h == g || h in after {}
    forall h: Group ensures h in b <==> h in before || h == x || h == y || h in after {}
    assert forall r :: r in g.rules <==> r in x.rules || r in y.rules;
    assert forall d :: d in g.delays <==> d in x.delays || d in y.delays;
    assert x in b && y in b && g in a;
    assert Facts(a) == Facts(b);
    assert Waits(a) == Waits(b);
    assert Agents(a) == Agents(b);
  }
}
