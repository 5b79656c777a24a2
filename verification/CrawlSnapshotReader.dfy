/**
 The JSON of a run snapshot read back by name, as deserialization does: the canonical text of a
 draft gives the draft again.
 */
module CrawlSnapshotReader {
  import opened CrawlRun
  import opened CanonicalJson
  import opened CanonicalPrint
  import opened CrawlSnapshot
  import opened JsonReader
  import opened Wrappers

  // ---- Reading by name ----

  function Part(j: Json, key: string): Option<Json> {
    if j.Obj? && HasKey(j.fields, key) then Some(Get(j.fields, key)) else None
  }

  function TextOf(j: Option<Json>): Option<string> {
    if j.Some? && j.value.Str? then Some(j.value.s) else None
  }

  // A missing value counts as null.
  function OptionalText(j: Option<Json>): Option<Option<string>> {
    if j.None? || j.value.Null? then Some(None) else if j.value.Str? then Some(Some(j.value.s)) else None
  }

  function ReadRunType(s: Option<string>): Option<RunType> {
    if s == Some("QUICK_SCRAPE") then Some(QuickScrape)
    else if s == Some("TEST_RUN") then Some(TestRun)
    else if s == Some("DISCOVERY_PREVIEW") then Some(DiscoveryPreview)
    else if s == Some("PRODUCTION_RUN") then Some(ProductionRun)
    else None
  }

  function ReadConfiguration(j: Json): Option<Configuration> {
    var kind := TextOf(Part(j, "kind"));
    if kind == Some("CRAWLER_VERSION") then
      var crawler, version := TextOf(Part(j, "crawler_id")), TextOf(Part(j, "crawler_version_id"));
      var hash := TextOf(Part(j, "semantic_config_hash"));
      if crawler.Some? && version.Some? && hash.Some? then Some(CrawlerVersion(crawler.value, version.value, hash.value)) else None
    else if kind == Some("QUICK_SCRAPE") then
      var target, adHoc := TextOf(Part(j, "target_url")), Part(j, "ad_hoc_configuration");
      if target.Some? && adHoc.Some? && adHoc.value.Obj? then Some(AdHoc(target.value, adHoc.value.fields)) else None
    else None
  }

  function ReadDecision(j: Json): Option<Decision> {
    var tag, reason := TextOf(Part(j, "decision")), TextOf(Part(j, "reason"));
    if tag == Some("RESPECT") then Some(Respect)
    else if tag == Some("OVERRIDE") && reason.Some? then Some(Override(reason.value))
    else None
  }

  function ReadRobots(j: Json): Option<Robots> {
    var decision := Part(j, "decision");
    var actor, decidedAt := TextOf(Part(j, "actor")), TextOf(Part(j, "decided_at"));
    var scope, userAgent := TextOf(Part(j, "affected_scope")), TextOf(Part(j, "user_agent"));
    var version := OptionalText(Part(j, "crawler_version_id"));
    if decision.Some? && ReadDecision(decision.value).Some? && actor.Some? && decidedAt.Some? && scope.Some? && userAgent.Some? && version.Some? then
      Some(Robots(ReadDecision(decision.value).value, actor.value, decidedAt.value, scope.value, userAgent.value, version.value))
    else None
  }

  function Without(f: List<Field>, key: string): List<Field> {
    if f.Nil? then Nil else if f.head.key == key then Without(f.tail, key) else Cons(f.head, Without(f.tail, key))
  }

  function ReadSettings(j: Json): Option<Settings> {
    var agent := Part(j, "user_agent");
    if agent.None? then None
    else
      var value, source := TextOf(Part(agent.value, "value")), TextOf(Part(agent.value, "source"));
      if value.Some? && source.Some? then Some(Settings(value.value, source.value, Without(j.fields, "user_agent"))) else None
  }

  // A part of a record that has to be there and to read well.
  function At<T>(j: Json, key: string, read: Json -> Option<T>): Option<T> {
    if Part(j, key).Some? then read(Part(j, key).value) else None
  }

  function ReadDraft(j: Json): Option<Draft> {
    var runType := ReadRunType(TextOf(Part(j, "run_type")));
    var configuration, settings, robots := At(j, "configuration", ReadConfiguration), At(j, "settings", ReadSettings), At(j, "robots", ReadRobots);
    var seeds, profile := Part(j, "selected_seed_ids"), OptionalText(Part(j, "run_profile_id"));
    var actor, createdAt := TextOf(Part(j, "actor")), TextOf(Part(j, "created_at"));
    if && runType.Some? && configuration.Some? && settings.Some? && robots.Some? && seeds.Some? && seeds.value.Arr?
       && profile.Some? && actor.Some? && createdAt.Some?
    then Some(Draft(runType.value, configuration.value, seeds.value.items, profile.value, settings.value, robots.value, actor.value, createdAt.value))
    else None
  }

  // ---- What equal values read as ----

  lemma PartsAgree(v: Json, w: Json, key: string)
    requires v.Obj? && Equivalent(v, w)
    ensures Part(v, key).Some? <==> Part(w, key).Some?
    ensures Part(v, key).Some? ==> Equivalent(Part(v, key).value, Part(w, key).value)
  {}

  lemma {:induction false} FieldAt(keys: seq<string>, values: seq<Json>, i: nat)
    requires |keys| == |values| && NoRepeat(keys) && i < |keys|
    ensures Part(Obj(Fields(keys, values)), keys[i]) == Some(values[i])
  {
    if i > 0 {
      assert keys[0] != keys[i];
      FieldAt(keys[1..], values[1..], i - 1);
    }
  }

  // The part of an equal record is equal to the value that was put there.
  lemma ReadsAt(keys: seq<string>, values: seq<Json>, w: Json, i: nat)
    requires |keys| == |values| && NoRepeat(keys) && i < |keys| && Equivalent(Obj(Fields(keys, values)), w)
    ensures Part(w, keys[i]).Some? && Equivalent(values[i], Part(w, keys[i]).value)
  {
    FieldAt(keys, values, i);
    PartsAgree(Obj(Fields(keys, values)), w, keys[i]);
  }

  lemma ReadsText(keys: seq<string>, values: seq<Json>, w: Json, i: nat)
    requires |keys| == |values| && NoRepeat(keys) && i < |keys| && Equivalent(Obj(Fields(keys, values)), w)
    ensures values[i].Str? ==> TextOf(Part(w, keys[i])) == Some(values[i].s)
    ensures values[i].Str? || values[i].Null? ==> OptionalText(Part(w, keys[i])) == Some(if values[i].Str? then Some(values[i].s) else None)
  {
    ReadsAt(keys, values, w, i);
    hide Fields, NoRepeat, HasKey, Get, Part;
  }

  lemma ConfigurationReads(c: Configuration, w: Json)
    requires Equivalent(ConfigurationJson(c), w)
    ensures ReadConfiguration(w).Some? && SameConfiguration(c, ReadConfiguration(w).value)
  {
    KeysDoNotRepeat();
    hide NoRepeat, Fields, Part;
    match c
    case CrawlerVersion(i, v, h) =>
      var x := [Str("CRAWLER_VERSION"), Str(i), Str(v), Str(h)];
      ReadsText(VERSION_KEYS, x, w, 0);
      ReadsText(VERSION_KEYS, x, w, 1);
      ReadsText(VERSION_KEYS, x, w, 2);
      ReadsText(VERSION_KEYS, x, w, 3);
    case AdHoc(u, a) =>
      var x := [Str("QUICK_SCRAPE"), Str(u), Obj(a)];
      ReadsText(AD_HOC_KEYS, x, w, 0);
      ReadsText(AD_HOC_KEYS, x, w, 1);
      ReadsAt(AD_HOC_KEYS, x, w, 2);
      assert "QUICK_SCRAPE"[0] != "CRAWLER_VERSION"[0];
  }

  lemma DecisionReads(d: Decision, w: Json)
    requires Equivalent(DecisionJson(d), w)
    ensures ReadDecision(w) == Some(d)
  {
    KeysDoNotRepeat();
    if d.Override? {
      var x := [Str("OVERRIDE"), Str(d.reason)];
      ReadsText(OVERRIDE_KEYS, x, w, 0);
      ReadsText(OVERRIDE_KEYS, x, w, 1);
      assert "OVERRIDE"[0] != "RESPECT"[0];
    } else {
      ReadsText(["decision"], [Str("RESPECT")], w, 0);
    }
  }

  lemma RobotsReads(r: Robots, w: Json)
    requires Equivalent(RobotsJson(r), w)
    ensures ReadRobots(w) == Some(r)
  {
    KeysDoNotRepeat();
    hide NoRepeat, Fields, Part, DecisionJson, ReadDecision, Equivalent, TextOf, OptionalText;
    var x := [DecisionJson(r.decision), Str(r.actor), Str(r.decidedAt), Str(r.scope), Str(r.userAgent), OrNull(r.versionId)];
    ReadsAt(ROBOTS_KEYS, x, w, 0);
    DecisionReads(r.decision, Part(w, "decision").value);
    ReadsText(ROBOTS_KEYS, x, w, 1);
    ReadsText(ROBOTS_KEYS, x, w, 2);
    ReadsText(ROBOTS_KEYS, x, w, 3);
    ReadsText(ROBOTS_KEYS, x, w, 4);
    ReadsText(ROBOTS_KEYS, x, w, 5);
  }

  lemma {:induction false} WithoutKeepsTheRest(f: List<Field>, key: string, k: string)
    ensures HasKey(Without(f, key), k) <==> HasKey(f, k) && k != key
    ensures HasKey(Without(f, key), k) ==> Get(Without(f, key), k) == Get(f, k)
  {
    if f.Cons? { WithoutKeepsTheRest(f.tail, key, k); }
  }

  lemma SettingsReads(s: Settings, w: Json)
    requires !HasKey(s.others, "user_agent") && Equivalent(SettingsJson(s), w)
    ensures ReadSettings(w).Some? && SameSettings(s, ReadSettings(w).value)
  {
    KeysDoNotRepeat();
    var x := [Str(s.userAgent), Str(s.agentSource)];
    var f := SettingsJson(s).fields;
    PartsAgree(SettingsJson(s), w, "user_agent");
    var agent := Part(w, "user_agent").value;
    assert Equivalent(Obj(Fields(VALUE_KEYS, x)), agent);
    ReadsText(VALUE_KEYS, x, agent, 0);
    ReadsText(VALUE_KEYS, x, agent, 1);
    OthersRead(s, w);
  }

  lemma OthersRead(s: Settings, w: Json)
    requires !HasKey(s.others, "user_agent") && Equivalent(SettingsJson(s), w)
    ensures w.Obj? && EquivalentMaps(s.others, Without(w.fields, "user_agent"))
  {
    var f, g := SettingsJson(s).fields, Without(w.fields, "user_agent");
    hide Equivalent, Without, Fields;
    forall k: string
      ensures HasKey(s.others, k) <==> HasKey(g, k)
      ensures HasKey(s.others, k) && HasKey(g, k) ==> Equivalent(Get(s.others, k), Get(g, k))
    {
      WithoutKeepsTheRest(w.fields, "user_agent", k);
      assert HasKey(f, k) <==> HasKey(w.fields, k);
    }
  }

  lemma RunTypeReads(t: RunType)
    ensures ReadRunType(Some(RunTypeText(t))) == Some(t)
  {
    assert |"QUICK_SCRAPE"| == 12 && |"TEST_RUN"| == 8 && |"DISCOVERY_PREVIEW"| == 17 && |"PRODUCTION_RUN"| == 14;
  }

  /** Any value equal to the JSON of a draft, whatever the order of its entries, reads back as a draft
      that agrees with it in every field. */
  lemma DraftReads(d: Draft, w: Json)
    requires DraftOk(d) && Equivalent(DraftJson(d), w)
    ensures ReadDraft(w).Some? && SameDraft(d, ReadDraft(w).value)
  {
    KeysDoNotRepeat();
    RunTypeReads(d.runType);
    hide NoRepeat, Fields, Part, TextOf, OptionalText, ReadRunType, ReadConfiguration, ReadSettings, ReadRobots, RunTypeText;
    hide ConfigurationJson, SettingsJson, RobotsJson, SameConfiguration, SameSettings, HasKey, FieldsWellFormed, Distinct;
    var x := [Str(RunTypeText(d.runType)), ConfigurationJson(d.configuration), Arr(d.seeds), OrNull(d.profile),
              SettingsJson(d.settings), RobotsJson(d.robots), Str(d.actor), Str(d.createdAt)];
    assert Equivalent(Obj(Fields(DRAFT_KEYS, x)), w);
    ReadsText(DRAFT_KEYS, x, w, 0);
    ReadsAt(DRAFT_KEYS, x, w, 1);
    ConfigurationReads(d.configuration, Part(w, "configuration").value);
    ReadsAt(DRAFT_KEYS, x, w, 2);
    ReadsText(DRAFT_KEYS, x, w, 3);
    ReadsAt(DRAFT_KEYS, x, w, 4);
    SettingsReads(d.settings, Part(w, "settings").value);
    ReadsAt(DRAFT_KEYS, x, w, 5);
    RobotsReads(d.robots, Part(w, "robots").value);
    ReadsText(DRAFT_KEYS, x, w, 6);
    ReadsText(DRAFT_KEYS, x, w, 7);
    hide Equivalent;
  }

  /** The canonical text of a draft, over which its hash is taken, reads back as the draft. */
  lemma DraftTextReads(d: Draft) returns (w: Json)
    requires DraftOk(d) && NumbersOk(DraftJson(d))
    ensures ReadValue(Print(DraftJson(d))) == Some((w, ""))
    ensures ReadDraft(w).Some? && SameDraft(d, ReadDraft(w).value)
  {
    hide DraftOk, DraftJson, Print, ReadValue, Equivalent, ReadDraft, SameDraft;
    DraftJsonOk(d);
    w := CanonicalTextIsJson(DraftJson(d));
    DraftReads(d, w);
  }

  const COMPATIBILITY_NAMES := {"run_type", "configuration", "selected_seed_ids", "settings", "robots_decision", "robots_scope", "user_agent"}

  /** The JSON for resuming has these seven entries and reads back as the parts of the draft they name. */
  lemma CompatibilityReads(d: Draft, w: Json)
    requires DraftOk(d) && Equivalent(CompatibilityJson(d), w)
    ensures w.Obj? && forall k: string :: HasKey(w.fields, k) <==> k in COMPATIBILITY_NAMES
    ensures ReadRunType(TextOf(Part(w, "run_type"))) == Some(d.runType)
    ensures At(w, "configuration", ReadConfiguration).Some? && SameConfiguration(d.configuration, At(w, "configuration", ReadConfiguration).value)
    ensures Part(w, "selected_seed_ids").Some? && Equivalent(Arr(d.seeds), Part(w, "selected_seed_ids").value)
    ensures At(w, "settings", ReadSettings).Some? && SameSettings(d.settings, At(w, "settings", ReadSettings).value)
    ensures At(w, "robots_decision", ReadDecision) == Some(d.robots.decision)
    ensures TextOf(Part(w, "robots_scope")) == Some(d.robots.scope) && TextOf(Part(w, "user_agent")) == Some(d.robots.userAgent)
  {
    KeysDoNotRepeat();
    RunTypeReads(d.runType);
    hide NoRepeat, Fields, Part, TextOf, OptionalText, ReadRunType, ReadConfiguration, ReadSettings, ReadDecision, RunTypeText;
    hide ConfigurationJson, SettingsJson, DecisionJson, SameConfiguration, SameSettings, HasKey, FieldsWellFormed, Distinct;
    var x := [Str(RunTypeText(d.runType)), ConfigurationJson(d.configuration), Arr(d.seeds), SettingsJson(d.settings),
              DecisionJson(d.robots.decision), Str(d.robots.scope), Str(d.robots.userAgent)];
    assert Equivalent(Obj(Fields(COMPATIBILITY_KEYS, x)), w);
    ReadsText(COMPATIBILITY_KEYS, x, w, 0);
    ReadsAt(COMPATIBILITY_KEYS, x, w, 1);
    ConfigurationReads(d.configuration, Part(w, "configuration").value);
    ReadsAt(COMPATIBILITY_KEYS, x, w, 2);
    ReadsAt(COMPATIBILITY_KEYS, x, w, 3);
    SettingsReads(d.settings, Part(w, "settings").value);
    ReadsAt(COMPATIBILITY_KEYS, x, w, 4);
    DecisionReads(d.robots.decision, Part(w, "robots_decision").value);
    ReadsText(COMPATIBILITY_KEYS, x, w, 5);
    ReadsText(COMPATIBILITY_KEYS, x, w, 6);
    forall k: string ensures HasKey(w.fields, k) <==> k in COMPATIBILITY_NAMES { NamesOf(x, w, k); }
  }

  lemma NamesOf(x: seq<Json>, w: Json, k: string)
    requires |x| == |COMPATIBILITY_KEYS| && Equivalent(Obj(Fields(COMPATIBILITY_KEYS, x)), w)
    ensures HasKey(w.fields, k) <==> k in COMPATIBILITY_NAMES
  {
    hide Fields, Equivalent;
    KeysOfFields(COMPATIBILITY_KEYS, x, k);
    SameNames(Fields(COMPATIBILITY_KEYS, x), w, k);
  }

  lemma SameNames(f: List<Field>, w: Json, k: string)
    requires Equivalent(Obj(f), w)
    ensures w.Obj? && (HasKey(f, k) <==> HasKey(w.fields, k))
  {}
}
