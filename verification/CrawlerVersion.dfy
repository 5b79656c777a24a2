/**
 Crawler versions (crates/erabi-domain/src/crawler_version.rs and guardrails.rs):
 a Draft is edited by checked setters, published, and never changed again; a new
 Draft is cloned from a Published version with every identity renamed.  Identities
 of all kinds come from one supply that never repeats itself; `valid` in a scope
 stands for DomainScopePolicy::validate.
 */
module CrawlerVersion {
  import opened QueryCanonicalization
  import opened Wrappers

  type Id = nat

  const GUARDRAIL_POLICY_VERSION: nat := 1

  datatype Lifecycle = Draft | Published
  datatype Seed = Seed(id: Id, body: string, hint: Option<Id>)
  datatype Budget = Budget(pageType: Id, pages: Option<nat>, healthVersion: Option<nat>)
  datatype Guardrails = Guardrails(version: nat, maxPages: nat, maxDepth: nat, maxDurationSeconds: nat, maxDownloadedBytes: nat,
                                   maxConcurrent: nat, minDelay: nat, pageTypes: seq<Budget>)
  datatype Scope = Scope(body: string, valid: bool)

  datatype Version = Version(id: Id, crawler: Id, state: Lifecycle, seeds: seq<Seed>, pageTypes: seq<Id>, transitions: seq<Id>,
                             policyId: Option<Id>, scopeId: Option<Id>, policy: Policy, scope: Scope, guardrails: Guardrails)

  datatype VersionError = Conflict | InvalidPolicy | InvalidScope | InvalidGuardrails | InvalidPageTypeBudget

  const DEFAULT_GUARDRAILS := Guardrails(GUARDRAIL_POLICY_VERSION, 1_000, 16, 3_600, 100 * 1024 * 1024, 1, 100, [])
  const DEFAULT_POLICY := Policy(CANONICALIZATION_POLICY_VERSION, {}, {})
  const DEFAULT_SCOPE := Scope("SEED_DOMAINS_ONLY", true)

  function NewDraft(id: Id, crawler: Id): Version {
    Version(id, crawler, Draft, [], [], [], None, None, DEFAULT_POLICY, DEFAULT_SCOPE, DEFAULT_GUARDRAILS)
  }

  // ---- Validation ----

  predicate BudgetsUnique(b: seq<Budget>) {
    forall i, k | 0 <= i < k < |b| :: b[i].pageType != b[k].pageType
  }

  predicate BudgetOk(b: Budget) { b.pages != Some(0) && (b.healthVersion.Some? ==> b.healthVersion.value == 1) }

  /** CrawlerVersionGuardrails::validate */
  function ValidateGuardrails(g: Guardrails): Option<VersionError> {
    if g.version != GUARDRAIL_POLICY_VERSION || g.maxPages == 0 || g.maxDepth == 0 || g.maxDurationSeconds == 0
       || g.maxDownloadedBytes == 0 || g.maxConcurrent == 0 then Some(InvalidGuardrails)
    else if !BudgetsUnique(g.pageTypes) || exists b <- g.pageTypes :: !BudgetOk(b) then Some(InvalidPageTypeBudget)
    else None
  }

  /** Every page-type guardrail is about a page type of the version. */
  predicate Fits(budgets: seq<Budget>, pageTypes: seq<Id>) {
    forall b <- budgets :: b.pageType in pageTypes
  }

  /** validate_semantic_contract */
  function ValidateContract(v: Version): Option<VersionError> {
    if Validate(v.policy).Some? then Some(InvalidPolicy)
    else if !v.scope.valid then Some(InvalidScope)
    else if ValidateGuardrails(v.guardrails).Some? then ValidateGuardrails(v.guardrails)
    else if !Fits(v.guardrails.pageTypes, v.pageTypes) then Some(InvalidPageTypeBudget)
    else None
  }

  // ---- Setters ----

  datatype Edit =
    | AddSeed(seed: Seed) | SetPageTypes(ids: seq<Id>) | SetTransitions(ids: seq<Id>)
    | SetPolicyId(id: Option<Id>) | SetScopeId(id: Option<Id>) | SetPolicy(policy: Policy) | SetScope(scope: Scope)
    | SetGuardrails(guardrails: Guardrails) | Publish

  // The check of a setter on a draft.
  function Check(v: Version, e: Edit): Option<VersionError> {
    match e
    case SetPageTypes(ids) => if Fits(v.guardrails.pageTypes, ids) then None else Some(InvalidPageTypeBudget)
    case SetPolicy(p) => if Validate(p).Some? then Some(InvalidPolicy) else None
    case SetScope(s) => if s.valid then None else Some(InvalidScope)
    case SetGuardrails(g) =>
      if ValidateGuardrails(g).Some? then ValidateGuardrails(g)
      else if Fits(g.pageTypes, v.pageTypes) then None else Some(InvalidPageTypeBudget)
    case _ => None
  }

  function Change(v: Version, e: Edit): Version {
    match e
    case AddSeed(s) => v.(seeds := v.seeds + [s])
    case SetPageTypes(ids) => v.(pageTypes := ids)
    case SetTransitions(ids) => v.(transitions := ids)
    case SetPolicyId(id) => v.(policyId := id)
    case SetScopeId(id) => v.(scopeId := id)
    case SetPolicy(p) => v.(policy := p)
    case SetScope(s) => v.(scope := s)
    case SetGuardrails(g) => v.(guardrails := g)
    case Publish => v.(state := Published)
  }

  function Perform(v: Version, e: Edit): (Version, Option<VersionError>) {
    if v.state.Published? then (v, Some(Conflict))
    else if Check(v, e).Some? then (v, Check(v, e))
    else (Change(v, e), None)
  }

  // ---- Cloning ----

  function IndexOf(ids: seq<Id>, id: Id): (i: nat)
    requires id in ids
    ensures i < |ids| && ids[i] == id && forall k | 0 <= k < i :: ids[k] != id
  {
    if ids[0] == id then 0 else 1 + IndexOf(ids[1..], id)
  }

  // `count` identities from `next` on.
  function Range(next: Id, count: nat): (r: seq<Id>)
    ensures |r| == count && forall i | 0 <= i < count :: r[i] == next + i
  {
    seq(count, i requires 0 <= i < count => next + i)
  }

  predicate MissingHint(v: Version) {
    exists s <- v.seeds :: s.hint.Some? && s.hint.value !in v.pageTypes
  }

  // An old page type id as the new id at the same place.
  function Renamed(source: seq<Id>, made: seq<Id>, id: Id): Id
    requires |source| == |made| && id in source
  {
    made[IndexOf(source, id)]
  }

  function CloneSeed(s: Seed, id: Id, source: seq<Id>, made: seq<Id>): Seed
    requires |source| == |made| && (s.hint.Some? ==> s.hint.value in source)
  {
    s.(id := id, hint := if s.hint.Some? then Some(Renamed(source, made, s.hint.value)) else None)
  }

  function CloneSeeds(seeds: seq<Seed>, next: Id, source: seq<Id>, made: seq<Id>): (r: seq<Seed>)
    requires |source| == |made| && forall s <- seeds :: s.hint.Some? ==> s.hint.value in source
    ensures |r| == |seeds| && forall i | 0 <= i < |seeds| :: seeds[i] in seeds && r[i] == CloneSeed(seeds[i], next + i, source, made)
  {
    if seeds == [] then []
    else [CloneSeed(seeds[0], next, source, made)] + CloneSeeds(seeds[1..], next + 1, source, made)
  }

  function CloneBudget(b: Budget, source: seq<Id>, made: seq<Id>): Budget
    requires |source| == |made| && b.pageType in source
  {
    b.(pageType := Renamed(source, made, b.pageType))
  }

  function CloneBudgets(b: seq<Budget>, source: seq<Id>, made: seq<Id>): (r: seq<Budget>)
    requires |source| == |made| && Fits(b, source)
    ensures |r| == |b| && forall i | 0 <= i < |b| :: b[i] in b && r[i] == CloneBudget(b[i], source, made)
  {
    if b == [] then []
    else
      assert b[0] in b && forall x <- b[1..] :: x in b;
      [CloneBudget(b[0], source, made)] + CloneBudgets(b[1..], source, made)
  }

  /** draft_from_published: the clone takes its identities from `next` on, in the order version,
      seeds, page types, transitions. */
  function Clone(v: Version, next: Id): Result<(Version, Id), VersionError> {
    if ValidateContract(v).Some? then Err(ValidateContract(v).value)
    else if !v.state.Published? || MissingHint(v) then Err(Conflict)
    else
      var n, p := |v.seeds|, |v.pageTypes|;
      var made := Range(next + 1 + n, p);
      Ok((v.(id := next, state := Draft, seeds := CloneSeeds(v.seeds, next + 1, v.pageTypes, made), pageTypes := made,
             transitions := Range(next + 1 + n + p, |v.transitions|),
             guardrails := v.guardrails.(pageTypes := CloneBudgets(v.guardrails.pageTypes, v.pageTypes, made))),
          next + 1 + n + p + |v.transitions|))
  }

  // ---- The program ----

  /** The supply of identities. */
  class IdSource {
    var next: Id

    method New() returns (id: Id)
      modifies this
      ensures id == old(next) && next == old(next) + 1
    {
      id := next;
      next := next + 1;
    }

    method Many(count: nat) returns (ids: seq<Id>)
      modifies this
      ensures ids == Range(old(next), count) && next == old(next) + count
    {
      ids := [];
      for i := 0 to count
        invariant ids == Range(old(next), i) && next == old(next) + i
      {
        var id := New();
        ids := ids + [id];
      }
    }
  }

  class CrawlerVersion {
    const id: Id
    const crawler: Id
    var state: Lifecycle
    var seeds: seq<Seed>
    var pageTypes: seq<Id>
    var transitions: seq<Id>
    var policyId: Option<Id>
    var scopeId: Option<Id>
    var policy: Policy
    var scope: Scope
    var guardrails: Guardrails

    function View(): Version
      reads this
    {
      Version(id, crawler, state, seeds, pageTypes, transitions, policyId, scopeId, policy, scope, guardrails)
    }

    constructor (id: Id, crawler: Id)
      ensures View() == NewDraft(id, crawler)
    {
      this.id, this.crawler, state := id, crawler, Draft;
      seeds, pageTypes, transitions, policyId, scopeId := [], [], [], None, None;
      policy, scope, guardrails := DEFAULT_POLICY, DEFAULT_SCOPE, DEFAULT_GUARDRAILS;
    }

    constructor FromView(v: Version)
      ensures View() == v
    {
      id, crawler, state, seeds, pageTypes, transitions := v.id, v.crawler, v.state, v.seeds, v.pageTypes, v.transitions;
      policyId, scopeId, policy, scope, guardrails := v.policyId, v.scopeId, v.policy, v.scope, v.guardrails;
    }

    method DoAddSeed(seed: Seed) returns (r: Option<VersionError>)
      modifies this
      ensures (View(), r) == Perform(old(View()), AddSeed(seed))
    {
      if state.Published? { return Some(Conflict); }
      seeds := seeds + [seed];
      return None;
    }

    // Some budget names a page type that is not in `ids`.
    method Misfits(budgets: seq<Budget>, ids: seq<Id>) returns (bad: bool)
      ensures bad <==> !Fits(budgets, ids)
    {
      for i := 0 to |budgets|
        invariant forall k | 0 <= k < i :: budgets[k].pageType in ids
      {
        if budgets[i].pageType !in ids {
          assert budgets[i] in budgets;
          return true;
        }
      }
      return false;
    }

    method DoSetPageTypes(ids: seq<Id>) returns (r: Option<VersionError>)
      modifies this
      ensures (View(), r) == Perform(old(View()), SetPageTypes(ids))
    {
      if state.Published? { return Some(Conflict); }
      var bad := Misfits(guardrails.pageTypes, ids);
      if bad { return Some(InvalidPageTypeBudget); }
      pageTypes := ids;
      return None;
    }

    method DoSetTransitions(ids: seq<Id>) returns (r: Option<VersionError>)
      modifies this
      ensures (View(), r) == Perform(old(View()), SetTransitions(ids))
    {
      if state.Published? { return Some(Conflict); }
      transitions := ids;
      return None;
    }

    method DoSetPolicy(p: Policy) returns (r: Option<VersionError>)
      modifies this
      ensures (View(), r) == Perform(old(View()), SetPolicy(p))
    {
      if state.Published? { return Some(Conflict); }
      if Validate(p).Some? { return Some(InvalidPolicy); }
      policy := p;
      return None;
    }

    method DoSetScope(s: Scope) returns (r: Option<VersionError>)
      modifies this
      ensures (View(), r) == Perform(old(View()), SetScope(s))
    {
      if state.Published? { return Some(Conflict); }
      if !s.valid { return Some(InvalidScope); }
      scope := s;
      return None;
    }

    method DoSetPolicyId(p: Option<Id>) returns (r: Option<VersionError>)
      modifies this
      ensures (View(), r) == Perform(old(View()), SetPolicyId(p))
    {
      if state.Published? { return Some(Conflict); }
      policyId := p;
      return None;
    }

    method DoSetScopeId(s: Option<Id>) returns (r: Option<VersionError>)
      modifies this
      ensures (View(), r) == Perform(old(View()), SetScopeId(s))
    {
      if state.Published? { return Some(Conflict); }
      scopeId := s;
      return None;
    }

    method DoSetGuardrails(g: Guardrails) returns (r: Option<VersionError>)
      modifies this
      ensures (View(), r) == Perform(old(View()), SetGuardrails(g))
    {
      if state.Published? { return Some(Conflict); }
      if ValidateGuardrails(g).Some? { return ValidateGuardrails(g); }
      var bad := Misfits(g.pageTypes, pageTypes);
      if bad { return Some(InvalidPageTypeBudget); }
      guardrails := g;
      return None;
    }

    method DoPublish() returns (r: Option<VersionError>)
      modifies this
      ensures (View(), r) == Perform(old(View()), Publish)
    {
      if state.Published? { return Some(Conflict); }
      state := Published;
      return None;
    }

    /** draft_from_published: clones, then renames seeds, page types, guardrail entries, seed hints
        and transitions in loops over the clone. */
    method DraftFromPublished(ids: IdSource) returns (r: Result<CrawlerVersion, VersionError>)
      modifies ids
      ensures match Clone(View(), old(ids.next))
              case Ok((w, n)) => r.Ok? && fresh(r.value) && r.value.View() == w && ids.next == n
              case Err(e) => r == Err(e) && ids.next == old(ids.next)
    {
      hide ValidateContract, Fits, MissingHint, CloneSeeds, CloneBudgets, CloneSeed;
      var v := View();
      var invalid := ValidateContract(v);
      if invalid.Some? { return Err(invalid.value); }
      if state.Draft? { return Err(Conflict); }
      if MissingHint(v) { return Err(Conflict); }
      ContractFits(v);
      var newId := ids.New();
      var seedIds := ids.Many(|seeds|);
      var made := ids.Many(|pageTypes|);
      HintsAreThere(v);
      var budgets := RenameBudgets(guardrails.pageTypes, pageTypes, made);
      var clonedSeeds := RenameSeeds(seeds, seedIds, pageTypes, made);
      CloneSeedsAre(seeds, clonedSeeds, newId + 1, seedIds, pageTypes, made);
      var newTransitions := ids.Many(|transitions|);
      var clone := new CrawlerVersion.FromView(
        v.(id := newId, state := Draft, seeds := clonedSeeds, pageTypes := made, transitions := newTransitions,
           guardrails := guardrails.(pageTypes := budgets)));
      return Ok(clone);
    }
  }

  lemma HintsAreThere(v: Version)
    requires !MissingHint(v)
    ensures forall s <- v.seeds :: s.hint.Some? ==> s.hint.value in v.pageTypes
  {}

  /** Iterator::position over the source's page types. */
  method Position(ids: seq<Id>, id: Id) returns (i: nat)
    requires id in ids
    ensures i == IndexOf(ids, id)
  {
    i := 0;
    while ids[i] != id
      invariant i <= IndexOf(ids, id)
      decreases |ids| - i
    {
      i := i + 1;
    }
  }

  method RenameBudgets(b: seq<Budget>, source: seq<Id>, made: seq<Id>) returns (r: seq<Budget>)
    requires |source| == |made| && Fits(b, source)
    ensures r == CloneBudgets(b, source, made)
  {
    hide IndexOf, CloneBudgets;
    r := [];
    for i := 0 to |b|
      invariant |r| == i && forall k | 0 <= k < i :: b[k] in b && r[k] == CloneBudget(b[k], source, made)
    {
      assert b[i] in b;
      var index := Position(source, b[i].pageType);
      r := r + [b[i].(pageType := made[index])];
    }
    hide CloneBudget;
    assert r == CloneBudgets(b, source, made);
  }

  method RenameSeeds(seeds: seq<Seed>, ids: seq<Id>, source: seq<Id>, made: seq<Id>) returns (r: seq<Seed>)
    requires |source| == |made| && |ids| == |seeds| && forall s <- seeds :: s.hint.Some? ==> s.hint.value in source
    ensures |r| == |seeds| && forall i | 0 <= i < |seeds| :: seeds[i] in seeds && r[i] == CloneSeed(seeds[i], ids[i], source, made)
  {
    hide IndexOf;
    r := [];
    for i := 0 to |seeds|
      invariant |r| == i && forall k | 0 <= k < i :: seeds[k] in seeds && r[k] == CloneSeed(seeds[k], ids[k], source, made)
    {
      assert seeds[i] in seeds;
      var hint: Option<Id> := None;
      if seeds[i].hint.Some? {
        var index := Position(source, seeds[i].hint.value);
        hint := Some(made[index]);
      }
      r := r + [seeds[i].(id := ids[i], hint := hint)];
    }
  }

  lemma CloneSeedsAre(seeds: seq<Seed>, r: seq<Seed>, next: Id, ids: seq<Id>, source: seq<Id>, made: seq<Id>)
    requires |source| == |made| && |ids| == |seeds| == |r| && forall s <- seeds :: s.hint.Some? ==> s.hint.value in source
    requires forall i | 0 <= i < |seeds| :: seeds[i] in seeds && r[i] == CloneSeed(seeds[i], ids[i], source, made)
    requires forall i | 0 <= i < |seeds| :: ids[i] == next + i
    ensures r == CloneSeeds(seeds, next, source, made)
  {
    hide CloneSeed, IndexOf, Renamed, CloneSeeds;
    var c := CloneSeeds(seeds, next, source, made);
    forall i | 0 <= i < |seeds| ensures r[i] == c[i] {
      assert ids[i] == next + i;
    }
    hide Range;
    assert r == c;
  }

  lemma ContractFits(v: Version)
    requires ValidateContract(v).None?
    ensures Fits(v.guardrails.pageTypes, v.pageTypes)
  {}
}
