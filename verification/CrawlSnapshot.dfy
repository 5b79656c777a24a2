/**
 Crawl run snapshots (crates/erabi-domain/src/crawl_snapshot.rs): a validated draft
 is frozen with the hash of its canonical JSON and a second hash of the parts that
 matter for resuming.  `hash` stands for SHA-256 in hexadecimal; identifiers and
 times are text, and the nine operational settings besides the user agent are the
 JSON fields they serialize to.
 */
module CrawlSnapshot {
  import opened CrawlRun
  import opened CanonicalJson
  import opened CanonicalPrint
  import opened Text
  import opened Wrappers

  const MAX_ROBOTS_OVERRIDE_REASON_CHARS: nat := 1_000

  datatype Configuration =
    | CrawlerVersion(crawlerId: string, versionId: string, semanticHash: string)
    | AdHoc(targetUrl: string, adHoc: List<Field>)

  datatype Decision = Respect | Override(reason: string)
  datatype Robots = Robots(decision: Decision, actor: string, decidedAt: string, scope: string,
                           userAgent: string, versionId: Option<string>)
  datatype Settings = Settings(userAgent: string, agentSource: string, others: List<Field>)

  datatype Draft = Draft(runType: RunType, configuration: Configuration, seeds: List<Json>, profile: Option<string>,
                         settings: Settings, robots: Robots, actor: string, createdAt: string)

  datatype Problem = EmptyText | ReasonTooLong | AgentMismatch | WrongConfiguration | WrongVersion | BadSemanticHash
                   | SnapshotHashMismatch | CompatibilityHashMismatch

  datatype Snapshot = Snapshot(draft: Draft, hash: string, compatibilityHash: string)

  type Hash = string -> string

  // ---- validate_draft ----

  function First(a: Option<Problem>, b: Option<Problem>): Option<Problem> { if a.Some? then a else b }
  function Require(ok: bool, p: Problem): Option<Problem> { if ok then None else Some(p) }

  function ValidateRobots(r: Robots): Option<Problem> {
    First(Require(Filled(r.actor) && Filled(r.decidedAt) && Filled(r.scope) && Filled(r.userAgent), EmptyText),
          if r.decision.Respect? then None
          else First(Require(Filled(r.decision.reason), EmptyText),
                     Require(|r.decision.reason| <= MAX_ROBOTS_OVERRIDE_REASON_CHARS, ReasonTooLong)))
  }

  predicate HexChar(c: char) { '0' <= c <= '9' || 'a' <= c <= 'f' || 'A' <= c <= 'F' }

  function ValidateKind(d: Draft): Option<Problem> {
    match d.configuration
    case AdHoc(_, _) =>
      if !d.runType.QuickScrape? then Some(WrongConfiguration) else Require(d.robots.versionId.None?, WrongVersion)
    case CrawlerVersion(_, versionId, semanticHash) =>
      if d.runType.QuickScrape? then Some(WrongConfiguration)
      else First(Require(d.robots.versionId == Some(versionId), WrongVersion),
                 Require(|semanticHash| == 64 && forall c <- semanticHash :: HexChar(c), BadSemanticHash))
  }

  function Validate(d: Draft): Option<Problem> {
    First(Require(Filled(d.actor) && Filled(d.createdAt) && Filled(d.settings.userAgent), EmptyText),
    First(ValidateRobots(d.robots),
    First(Require(d.settings.userAgent == d.robots.userAgent, AgentMismatch), ValidateKind(d))))
  }

  // ---- Serialization ----

  function Fields(keys: seq<string>, values: seq<Json>): List<Field>
    requires |keys| == |values|
  {
    if keys == [] then Nil else Cons(Field(keys[0], values[0]), Fields(keys[1..], values[1..]))
  }

  function OrNull(s: Option<string>): Json { if s.Some? then Str(s.value) else Null }

  function RunTypeText(t: RunType): string {
    match t
    case QuickScrape => "QUICK_SCRAPE"
    case TestRun => "TEST_RUN"
    case DiscoveryPreview => "DISCOVERY_PREVIEW"
    case ProductionRun => "PRODUCTION_RUN"
  }

  const VERSION_KEYS := ["kind", "crawler_id", "crawler_version_id", "semantic_config_hash"]
  const AD_HOC_KEYS := ["kind", "target_url", "ad_hoc_configuration"]
  const OVERRIDE_KEYS := ["decision", "reason"]
  const ROBOTS_KEYS := ["decision", "actor", "decided_at", "affected_scope", "user_agent", "crawler_version_id"]
  const VALUE_KEYS := ["value", "source"]
  const DRAFT_KEYS := ["run_type", "configuration", "selected_seed_ids", "run_profile_id", "settings", "robots", "actor", "created_at"]
  const COMPATIBILITY_KEYS := ["run_type", "configuration", "selected_seed_ids", "settings", "robots_decision", "robots_scope", "user_agent"]

  function ConfigurationJson(c: Configuration): Json {
    match c
    case CrawlerVersion(i, v, h) => Obj(Fields(VERSION_KEYS, [Str("CRAWLER_VERSION"), Str(i), Str(v), Str(h)]))
    case AdHoc(u, a) => Obj(Fields(AD_HOC_KEYS, [Str("QUICK_SCRAPE"), Str(u), Obj(a)]))
  }

  function DecisionJson(d: Decision): Json {
    match d
    case Respect => Obj(Fields(["decision"], [Str("RESPECT")]))
    case Override(r) => Obj(Fields(OVERRIDE_KEYS, [Str("OVERRIDE"), Str(r)]))
  }

  function RobotsJson(r: Robots): Json {
    Obj(Fields(ROBOTS_KEYS, [DecisionJson(r.decision), Str(r.actor), Str(r.decidedAt), Str(r.scope), Str(r.userAgent), OrNull(r.versionId)]))
  }

  function SettingsJson(s: Settings): Json {
    Obj(Cons(Field("user_agent", Obj(Fields(VALUE_KEYS, [Str(s.userAgent), Str(s.agentSource)]))), s.others))
  }

  function DraftJson(d: Draft): Json {
    Obj(Fields(DRAFT_KEYS, [Str(RunTypeText(d.runType)), ConfigurationJson(d.configuration), Arr(d.seeds), OrNull(d.profile),
                            SettingsJson(d.settings), RobotsJson(d.robots), Str(d.actor), Str(d.createdAt)]))
  }

  function CompatibilityJson(d: Draft): Json {
    Obj(Fields(COMPATIBILITY_KEYS, [Str(RunTypeText(d.runType)), ConfigurationJson(d.configuration), Arr(d.seeds),
                                    SettingsJson(d.settings), DecisionJson(d.robots.decision), Str(d.robots.scope), Str(d.robots.userAgent)]))
  }

  /** The parts of a draft that are JSON are well formed, as their types make them. */
  predicate DraftOk(d: Draft) {
    && (d.configuration.AdHoc? ==> Distinct(d.configuration.adHoc) && FieldsWellFormed(d.configuration.adHoc))
    && Distinct(d.settings.others) && FieldsWellFormed(d.settings.others) && !HasKey(d.settings.others, "user_agent")
    && ItemsWellFormed(d.seeds)
  }

  // ---- Snapshots ----

  /** CrawlRunSnapshot::new */
  function New(d: Draft, hash: Hash): Result<Snapshot, Problem> {
    var p := Validate(d);
    if p.Some? then Err(p.value)
    else Ok(Snapshot(d, hash(Print(DraftJson(d))), hash(Print(CompatibilityJson(d)))))
  }

  /** CrawlRunSnapshot::rehydrate */
  function Rehydrate(d: Draft, storedHash: string, storedCompatibility: string, hash: Hash): Result<Snapshot, Problem> {
    var s := New(d, hash);
    if s.Err? then s
    else if s.value.hash != storedHash then Err(SnapshotHashMismatch)
    else if s.value.compatibilityHash != storedCompatibility then Err(CompatibilityHashMismatch)
    else s
  }

  ghost predicate Injective(hash: Hash) {
    forall a: string, b: string :: hash(a) == hash(b) ==> a == b
  }

  // ---- What the JSON of a draft determines ----

  // The same configuration, up to the order of ad-hoc entries.
  ghost predicate SameConfiguration(c: Configuration, d: Configuration) {
    if c.AdHoc? then d.AdHoc? && c.targetUrl == d.targetUrl && EquivalentMaps(c.adHoc, d.adHoc) else c == d
  }

  ghost predicate SameSettings(s: Settings, t: Settings) {
    s.userAgent == t.userAgent && s.agentSource == t.agentSource && EquivalentMaps(s.others, t.others)
  }

  /** Every field agrees. */
  ghost predicate SameDraft(d: Draft, e: Draft) {
    && d.runType == e.runType && SameConfiguration(d.configuration, e.configuration)
    && EquivalentItems(d.seeds, e.seeds) && d.profile == e.profile && SameSettings(d.settings, e.settings)
    && d.robots == e.robots && d.actor == e.actor && d.createdAt == e.createdAt
  }

  /** The fields that matter for resuming agree: not who started the run, when, or with which
      profile, nor who decided about robots and when. */
  ghost predicate Resumable(d: Draft, e: Draft) {
    && d.runType == e.runType && SameConfiguration(d.configuration, e.configuration)
    && EquivalentItems(d.seeds, e.seeds) && SameSettings(d.settings, e.settings)
    && d.robots.decision == e.robots.decision && d.robots.scope == e.robots.scope && d.robots.userAgent == e.robots.userAgent
  }

  // Values equivalent place by place.
  ghost predicate Pairwise(v: seq<Json>, w: seq<Json>) {
    |v| == |w| && forall i | 0 <= i < |v| :: Equivalent(v[i], w[i])
  }

  predicate NoRepeat(keys: seq<string>) {
    forall i, j | 0 <= i < j < |keys| :: keys[i] != keys[j]
  }

  lemma {:induction false} KeysOfFields(keys: seq<string>, values: seq<Json>, k: string)
    requires |keys| == |values|
    ensures HasKey(Fields(keys, values), k) <==> k in keys
  {
    if keys != [] {
      KeysOfFields(keys[1..], values[1..], k);
    }
  }

  lemma {:induction false} FieldsDistinct(keys: seq<string>, values: seq<Json>)
    requires |keys| == |values| && NoRepeat(keys)
    ensures Distinct(Fields(keys, values))
    ensures (forall v <- values :: WellFormed(v)) ==> FieldsWellFormed(Fields(keys, values))
  {
    hide WellFormed;
    if keys != [] {
      KeysOfFields(keys[1..], values[1..], keys[0]);
      FieldsDistinct(keys[1..], values[1..]);
      assert forall v <- values[1..] :: v in values;
      assert values[0] in values;
    }
  }

  lemma {:induction false} FieldsPairwise(keys: seq<string>, v: seq<Json>, w: seq<Json>)
    requires |keys| == |v| == |w|
    ensures SameKeys(Fields(keys, v), Fields(keys, w))
    ensures EquivalentFields(Fields(keys, v), Fields(keys, w)) <==> Pairwise(v, w)
  {
    hide Equivalent;
    if keys != [] {
      FieldsPairwise(keys[1..], v[1..], w[1..]);
      assert Pairwise(v, w) ==> Pairwise(v[1..], w[1..]);
      assert v == [v[0]] + v[1..] && w == [w[0]] + w[1..];
    }
  }

  /** Two objects with the same fixed keys are equivalent exactly when their values are, pairwise. */
  lemma RecordsDecide(keys: seq<string>, v: seq<Json>, w: seq<Json>)
    requires |keys| == |v| == |w| && NoRepeat(keys)
    ensures Equivalent(Obj(Fields(keys, v)), Obj(Fields(keys, w))) <==> Pairwise(v, w)
  {
    FieldsPairwise(keys, v, w);
    FieldsDistinct(keys, v);
    FieldsDistinct(keys, w);
    FieldsByPlace(Fields(keys, v), Fields(keys, w));
  }

  lemma KeysDoNotRepeat()
    ensures NoRepeat(VERSION_KEYS) && NoRepeat(AD_HOC_KEYS) && NoRepeat(OVERRIDE_KEYS) && NoRepeat(VALUE_KEYS)
    ensures NoRepeat(ROBOTS_KEYS) && NoRepeat(DRAFT_KEYS) && NoRepeat(COMPATIBILITY_KEYS)
  {
    assert VALUE_KEYS[0][0] != VALUE_KEYS[1][0];
    assert ROBOTS_KEYS[2][0] != ROBOTS_KEYS[4][0];
    assert DRAFT_KEYS[0][0] != DRAFT_KEYS[4][0];
    assert COMPATIBILITY_KEYS[0][0] != COMPATIBILITY_KEYS[3][0];
  }

  // Objects whose first keys agree but whose first values differ are not equivalent.
  lemma TagsDiffer(k: string, a: string, b: string, f: List<Field>, g: List<Field>)
    requires a != b
    ensures !Equivalent(Obj(Cons(Field(k, Str(a)), f)), Obj(Cons(Field(k, Str(b)), g)))
  {
    var x, y := Cons(Field(k, Str(a)), f), Cons(Field(k, Str(b)), g);
    assert HasKey(x, k) && HasKey(y, k);
    assert Get(x, k) == Str(a) && Get(y, k) == Str(b);
    assert !Equivalent(Str(a), Str(b));
  }

  lemma ConfigurationDecides(c: Configuration, d: Configuration)
    ensures Equivalent(ConfigurationJson(c), ConfigurationJson(d)) <==> SameConfiguration(c, d)
  {
    KeysDoNotRepeat();
    match (c, d)
    case (CrawlerVersion(i, v, h), CrawlerVersion(j, w, g)) =>
      var x, y := [Str("CRAWLER_VERSION"), Str(i), Str(v), Str(h)], [Str("CRAWLER_VERSION"), Str(j), Str(w), Str(g)];
      RecordsDecide(VERSION_KEYS, x, y);
      assert Pairwise(x, y) <==> Equivalent(x[1], y[1]) && Equivalent(x[2], y[2]) && Equivalent(x[3], y[3]);
    case (AdHoc(u, a), AdHoc(v, b)) =>
      var x, y := [Str("QUICK_SCRAPE"), Str(u), Obj(a)], [Str("QUICK_SCRAPE"), Str(v), Obj(b)];
      RecordsDecide(AD_HOC_KEYS, x, y);
      assert Pairwise(x, y) <==> Equivalent(x[1], y[1]) && Equivalent(x[2], y[2]);
    case (CrawlerVersion(i, v, h), AdHoc(u, a)) =>
      TagsDiffer("kind", "CRAWLER_VERSION", "QUICK_SCRAPE",
                 Fields(VERSION_KEYS[1..], [Str("CRAWLER_VERSION"), Str(i), Str(v), Str(h)][1..]),
                 Fields(AD_HOC_KEYS[1..], [Str("QUICK_SCRAPE"), Str(u), Obj(a)][1..]));
    case (AdHoc(u, a), CrawlerVersion(i, v, h)) =>
      TagsDiffer("kind", "QUICK_SCRAPE", "CRAWLER_VERSION",
                 Fields(AD_HOC_KEYS[1..], [Str("QUICK_SCRAPE"), Str(u), Obj(a)][1..]),
                 Fields(VERSION_KEYS[1..], [Str("CRAWLER_VERSION"), Str(i), Str(v), Str(h)][1..]));
  }

  lemma DecisionDecides(c: Decision, d: Decision)
    ensures Equivalent(DecisionJson(c), DecisionJson(d)) <==> c == d
  {
    KeysDoNotRepeat();
    if c.Override? && d.Override? {
      var x, y := [Str("OVERRIDE"), Str(c.reason)], [Str("OVERRIDE"), Str(d.reason)];
      RecordsDecide(OVERRIDE_KEYS, x, y);
      assert Pairwise(x, y) <==> Equivalent(x[1], y[1]);
    } else if c.Respect? && d.Respect? {
      var x := [Str("RESPECT")];
      RecordsDecide(["decision"], x, x);
      assert Pairwise(x, x);
    } else {
      var reason := if c.Override? then c.reason else d.reason;
      var respect := Fields(["decision"][1..], [Str("RESPECT")][1..]);
      var override := Fields(OVERRIDE_KEYS[1..], [Str("OVERRIDE"), Str(reason)][1..]);
      TagsDiffer("decision", "RESPECT", "OVERRIDE", respect, override);
      TagsDiffer("decision", "OVERRIDE", "RESPECT", override, respect);
    }
  }

  lemma RobotsDecides(r: Robots, t: Robots)
    ensures Equivalent(RobotsJson(r), RobotsJson(t)) <==> r == t
  {
    hide DecisionJson;
    KeysDoNotRepeat();
    DecisionDecides(r.decision, t.decision);
    var x := [DecisionJson(r.decision), Str(r.actor), Str(r.decidedAt), Str(r.scope), Str(r.userAgent), OrNull(r.versionId)];
    var y := [DecisionJson(t.decision), Str(t.actor), Str(t.decidedAt), Str(t.scope), Str(t.userAgent), OrNull(t.versionId)];
    RecordsDecide(ROBOTS_KEYS, x, y);
    assert Pairwise(x, y) <==> Equivalent(x[0], y[0]) && Equivalent(x[1], y[1]) && Equivalent(x[2], y[2])
                               && Equivalent(x[3], y[3]) && Equivalent(x[4], y[4]) && Equivalent(x[5], y[5]);
  }

  // A field of its own key can be compared on its own.
  lemma OneField(k: string, a: Json, b: Json, f: List<Field>, g: List<Field>)
    requires !HasKey(f, k) && !HasKey(g, k)
    ensures EquivalentMaps(Cons(Field(k, a), f), Cons(Field(k, b), g)) <==> Equivalent(a, b) && EquivalentMaps(f, g)
  {
    hide Equivalent;
    var x, y := Cons(Field(k, a), f), Cons(Field(k, b), g);
    assert HasKey(x, k) && HasKey(y, k) && Get(x, k) == a && Get(y, k) == b;
    forall j: string | j != k
      ensures HasKey(x, j) <==> HasKey(f, j)
      ensures HasKey(y, j) <==> HasKey(g, j)
    {}
    if EquivalentMaps(x, y) {
      forall j: string ensures HasKey(f, j) <==> HasKey(g, j) {
        assert HasKey(x, j) <==> HasKey(y, j);
      }
      forall j: string | HasKey(f, j) && HasKey(g, j) ensures Equivalent(Get(f, j), Get(g, j)) {
        assert HasKey(x, j) && HasKey(y, j);
      }
    }
    if Equivalent(a, b) && EquivalentMaps(f, g) {
      forall j: string | HasKey(x, j) && HasKey(y, j) ensures Equivalent(Get(x, j), Get(y, j)) {}
    }
  }

  lemma SettingsDecides(s: Settings, t: Settings)
    requires !HasKey(s.others, "user_agent") && !HasKey(t.others, "user_agent")
    ensures Equivalent(SettingsJson(s), SettingsJson(t)) <==> SameSettings(s, t)
  {
    KeysDoNotRepeat();
    var x, y := [Str(s.userAgent), Str(s.agentSource)], [Str(t.userAgent), Str(t.agentSource)];
    RecordsDecide(VALUE_KEYS, x, y);
    assert Pairwise(x, y) <==> Equivalent(x[0], y[0]) && Equivalent(x[1], y[1]);
    OneField("user_agent", Obj(Fields(VALUE_KEYS, x)), Obj(Fields(VALUE_KEYS, y)), s.others, t.others);
  }

  lemma RunTypesDecide(a: RunType, b: RunType)
    ensures RunTypeText(a) == RunTypeText(b) <==> a == b
  {
    assert |"QUICK_SCRAPE"| == 12 && |"TEST_RUN"| == 8 && |"DISCOVERY_PREVIEW"| == 17 && |"PRODUCTION_RUN"| == 14;
  }

  lemma LeavesDecide()
    ensures forall a: string, b: string :: Equivalent(Str(a), Str(b)) <==> a == b
    ensures forall a: Option<string>, b: Option<string> :: Equivalent(OrNull(a), OrNull(b)) <==> a == b
    ensures forall l: List<Json>, m: List<Json> :: Equivalent(Arr(l), Arr(m)) <==> EquivalentItems(l, m)
  {}

  /** The JSON of two drafts is equivalent exactly when every field agrees. */
  lemma DraftJsonDecides(d: Draft, e: Draft)
    requires DraftOk(d) && DraftOk(e)
    ensures Equivalent(DraftJson(d), DraftJson(e)) <==> SameDraft(d, e)
  {
    hide ConfigurationJson, SettingsJson, RobotsJson, RunTypeText, SameConfiguration, SameSettings, Equivalent, Fields, NoRepeat, OrNull;
    KeysDoNotRepeat();
    LeavesDecide();
    RunTypesDecide(d.runType, e.runType);
    ConfigurationDecides(d.configuration, e.configuration);
    SettingsDecides(d.settings, e.settings);
    RobotsDecides(d.robots, e.robots);
    var x := [Str(RunTypeText(d.runType)), ConfigurationJson(d.configuration), Arr(d.seeds), OrNull(d.profile),
              SettingsJson(d.settings), RobotsJson(d.robots), Str(d.actor), Str(d.createdAt)];
    var y := [Str(RunTypeText(e.runType)), ConfigurationJson(e.configuration), Arr(e.seeds), OrNull(e.profile),
              SettingsJson(e.settings), RobotsJson(e.robots), Str(e.actor), Str(e.createdAt)];
    RecordsDecide(DRAFT_KEYS, x, y);
    assert Pairwise(x, y) <==> (Equivalent(x[0], y[0]) && Equivalent(x[1], y[1]) && Equivalent(x[2], y[2]) && Equivalent(x[3], y[3])
                                && Equivalent(x[4], y[4]) && Equivalent(x[5], y[5]) && Equivalent(x[6], y[6]) && Equivalent(x[7], y[7]));
  }

  lemma CompatibilityJsonDecides(d: Draft, e: Draft)
    requires DraftOk(d) && DraftOk(e)
    ensures Equivalent(CompatibilityJson(d), CompatibilityJson(e)) <==> Resumable(d, e)
  {
    hide ConfigurationJson, SettingsJson, DecisionJson, RunTypeText, SameConfiguration, SameSettings, Equivalent, Fields, NoRepeat;
    KeysDoNotRepeat();
    LeavesDecide();
    RunTypesDecide(d.runType, e.runType);
    ConfigurationDecides(d.configuration, e.configuration);
    SettingsDecides(d.settings, e.settings);
    DecisionDecides(d.robots.decision, e.robots.decision);
    var x := [Str(RunTypeText(d.runType)), ConfigurationJson(d.configuration), Arr(d.seeds), SettingsJson(d.settings),
              DecisionJson(d.robots.decision), Str(d.robots.scope), Str(d.robots.userAgent)];
    var y := [Str(RunTypeText(e.runType)), ConfigurationJson(e.configuration), Arr(e.seeds), SettingsJson(e.settings),
              DecisionJson(e.robots.decision), Str(e.robots.scope), Str(e.robots.userAgent)];
    RecordsDecide(COMPATIBILITY_KEYS, x, y);
    assert Pairwise(x, y) <==> (Equivalent(x[0], y[0]) && Equivalent(x[1], y[1]) && Equivalent(x[2], y[2]) && Equivalent(x[3], y[3])
                                && Equivalent(x[4], y[4]) && Equivalent(x[5], y[5]) && Equivalent(x[6], y[6]));
  }

  // ---- The serialized values are well formed ----

  lemma RecordOk(keys: seq<string>, values: seq<Json>)
    requires |keys| == |values| && NoRepeat(keys) && forall v <- values :: WellFormed(v)
    ensures WellFormed(Obj(Fields(keys, values)))
  {
    FieldsDistinct(keys, values);
  }

  lemma ConfigurationOk(d: Draft)
    requires DraftOk(d)
    ensures WellFormed(ConfigurationJson(d.configuration))
  {
    KeysDoNotRepeat();
    match d.configuration
    case CrawlerVersion(i, v, h) => RecordOk(VERSION_KEYS, [Str("CRAWLER_VERSION"), Str(i), Str(v), Str(h)]);
    case AdHoc(u, a) =>
      assert WellFormed(Obj(a));
      RecordOk(AD_HOC_KEYS, [Str("QUICK_SCRAPE"), Str(u), Obj(a)]);
  }

  lemma SettingsOk(d: Draft)
    requires DraftOk(d)
    ensures WellFormed(SettingsJson(d.settings))
  {
    KeysDoNotRepeat();
    RecordOk(VALUE_KEYS, [Str(d.settings.userAgent), Str(d.settings.agentSource)]);
  }

  lemma RobotsOk(r: Robots)
    ensures WellFormed(RobotsJson(r)) && WellFormed(DecisionJson(r.decision))
  {
    KeysDoNotRepeat();
    RecordOk(["decision"], [Str("RESPECT")]);
    if r.decision.Override? {
      RecordOk(OVERRIDE_KEYS, [Str("OVERRIDE"), Str(r.decision.reason)]);
    }
    RecordOk(ROBOTS_KEYS, [DecisionJson(r.decision), Str(r.actor), Str(r.decidedAt), Str(r.scope), Str(r.userAgent), OrNull(r.versionId)]);
  }

  lemma DraftJsonOk(d: Draft)
    requires DraftOk(d)
    ensures WellFormed(DraftJson(d)) && WellFormed(CompatibilityJson(d))
  {
    ConfigurationOk(d);
    SettingsOk(d);
    RobotsOk(d.robots);
    KeysDoNotRepeat();
    assert WellFormed(Arr(d.seeds));
    hide ConfigurationJson, SettingsJson, RobotsJson, DecisionJson, RunTypeText;
    RecordOk(DRAFT_KEYS, [Str(RunTypeText(d.runType)), ConfigurationJson(d.configuration), Arr(d.seeds), OrNull(d.profile),
                          SettingsJson(d.settings), RobotsJson(d.robots), Str(d.actor), Str(d.createdAt)]);
    RecordOk(COMPATIBILITY_KEYS, [Str(RunTypeText(d.runType)), ConfigurationJson(d.configuration), Arr(d.seeds), SettingsJson(d.settings),
                                  DecisionJson(d.robots.decision), Str(d.robots.scope), Str(d.robots.userAgent)]);
  }

  // ---- Theorems ----

  /** Two snapshots have the same hash exactly when every field of their drafts agrees. */
  lemma HashDecides(d: Draft, e: Draft, hash: Hash)
    requires DraftOk(d) && DraftOk(e) && Injective(hash)
    ensures hash(Print(DraftJson(d))) == hash(Print(DraftJson(e))) <==> SameDraft(d, e)
  {
    DraftJsonOk(d);
    DraftJsonOk(e);
    hide DraftOk, DraftJson, SameDraft, Print, Equivalent, WellFormed;
    CanonicalTextDecides(DraftJson(d), DraftJson(e));
    DraftJsonDecides(d, e);
  }

  /** The compatibility hash ignores who, when and with which profile, and nothing else. */
  lemma CompatibilityHashDecides(d: Draft, e: Draft, hash: Hash)
    requires DraftOk(d) && DraftOk(e) && Injective(hash)
    ensures hash(Print(CompatibilityJson(d))) == hash(Print(CompatibilityJson(e))) <==> Resumable(d, e)
  {
    DraftJsonOk(d);
    DraftJsonOk(e);
    hide DraftOk, CompatibilityJson, Resumable, Print, Equivalent, WellFormed;
    CanonicalTextDecides(CompatibilityJson(d), CompatibilityJson(e));
    CompatibilityJsonDecides(d, e);
  }

  /** A stored draft is accepted under the hashes of a snapshot exactly when every field agrees
      with the draft the snapshot was created from. */
  lemma RehydratesOnlyItsOwn(d: Draft, e: Draft, hash: Hash)
    requires DraftOk(d) && DraftOk(e) && Injective(hash) && New(d, hash).Ok?
    ensures Rehydrate(e, New(d, hash).value.hash, New(d, hash).value.compatibilityHash, hash).Ok? <==> SameDraft(d, e)
  {
    HashDecides(d, e, hash);
    CompatibilityHashDecides(d, e, hash);
    hide DraftOk, DraftJson, CompatibilityJson, Print, Equivalent, EquivalentMaps, EquivalentItems, Validate;
    if SameDraft(d, e) {
      SameDraftValidates(d, e);
    }
  }

  // Validation looks only at what equal drafts share.
  lemma SameDraftValidates(d: Draft, e: Draft)
    requires SameDraft(d, e)
    ensures Validate(e) == Validate(d)
  {
    hide EquivalentMaps, EquivalentItems, ValidateRobots, Filled;
  }
}
