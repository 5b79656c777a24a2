/**
 What editing does to a crawler version: which edits are accepted, what is kept of them,
 and what every version that can be reached is safe from.
 */
module CrawlerVersionEdits {
  import opened CrawlerVersion
  import opened CrawlerVersionTheorems
  import opened QueryCanonicalization
  import opened Wrappers

  // ---- Which edits are accepted ----

  /** Every limit is positive. */
  predicate Limited(g: Guardrails) {
    && g.version == 1
    && g.maxPages > 0 && g.maxDepth > 0 && g.maxDurationSeconds > 0 && g.maxDownloadedBytes > 0 && g.maxConcurrent > 0
  }

  /** Page-type guardrails are about different page types of the list, allow a page or more, and
      use the one health contract there is. */
  ghost predicate Budgeted(b: seq<Budget>, pageTypes: seq<Id>) {
    && (forall i, k | 0 <= i < |b| && 0 <= k < |b| && i != k :: b[i].pageType != b[k].pageType)
    && (forall i | 0 <= i < |b| :: b[i].pageType in pageTypes)
    && (forall i | 0 <= i < |b| && b[i].pages.Some? :: b[i].pages.value > 0)
    && (forall i | 0 <= i < |b| && b[i].healthVersion.Some? :: b[i].healthVersion.value == 1)
  }

  /** What an edit of a draft must satisfy. */
  ghost predicate Acceptable(v: Version, e: Edit) {
    match e
    case SetPageTypes(ids) => forall i | 0 <= i < |v.guardrails.pageTypes| :: v.guardrails.pageTypes[i].pageType in ids
    case SetPolicy(p) => Validate(p).None?
    case SetScope(s) => s.valid
    case SetGuardrails(g) => Limited(g) && Budgeted(g.pageTypes, v.pageTypes)
    case _ => true
  }

  // The error that names the edited part.
  function Blame(e: Edit): VersionError {
    match e
    case SetPolicy(_) => InvalidPolicy
    case SetScope(_) => InvalidScope
    case SetGuardrails(g) => if Limited(g) then InvalidPageTypeBudget else InvalidGuardrails
    case _ => InvalidPageTypeBudget
  }

  lemma BudgetsDecided(b: seq<Budget>, pageTypes: seq<Id>)
    ensures Budgeted(b, pageTypes) <==> BudgetsUnique(b) && Fits(b, pageTypes) && forall x <- b :: BudgetOk(x)
  {
    if Budgeted(b, pageTypes) {
      forall x <- b ensures BudgetOk(x) && x.pageType in pageTypes {
        var i :| 0 <= i < |b| && b[i] == x;
      }
    }
    if BudgetsUnique(b) && Fits(b, pageTypes) && forall x <- b :: BudgetOk(x) {
      forall i | 0 <= i < |b| ensures BudgetOk(b[i]) && b[i].pageType in pageTypes {
        assert b[i] in b;
      }
    }
  }

  lemma GuardrailsDecided(g: Guardrails, pageTypes: seq<Id>)
    ensures ValidateGuardrails(g).None? && Fits(g.pageTypes, pageTypes) <==> Limited(g) && Budgeted(g.pageTypes, pageTypes)
    ensures ValidateGuardrails(g).Some? ==>
              ValidateGuardrails(g).value == if Limited(g) then InvalidPageTypeBudget else InvalidGuardrails
  {
    BudgetsDecided(g.pageTypes, pageTypes);
    hide BudgetsUnique, Budgeted, BudgetOk, Fits;
  }

  /** An edit of a draft is accepted exactly when it is acceptable, and otherwise changes nothing
      and names the part it would have changed. */
  lemma AcceptedExactly(v: Version, e: Edit)
    requires v.state.Draft?
    ensures Perform(v, e).1.None? <==> Acceptable(v, e)
    ensures !Acceptable(v, e) ==> Perform(v, e) == (v, Some(Blame(e)))
  {
    if e.SetGuardrails? {
      GuardrailsDecided(e.guardrails, v.pageTypes);
    } else if e.SetPageTypes? {
      var b := v.guardrails.pageTypes;
      assert Fits(b, e.ids) <==> forall i | 0 <= i < |b| :: b[i].pageType in e.ids by {
        if Fits(b, e.ids) { forall i | 0 <= i < |b| ensures b[i].pageType in e.ids { assert b[i] in b; } }
      }
    }
    hide Validate, ValidateGuardrails, Fits, Budgeted, Limited;
  }

  // ---- What is kept of them ----

  function After(v: Version, edits: seq<Edit>): Version
    decreases |edits|
  {
    if edits == [] then v else After(Perform(v, edits[0]).0, edits[1..])
  }

  // The edits that were accepted, in order.
  function Accepted(v: Version, edits: seq<Edit>): seq<Edit>
    decreases |edits|
  {
    if edits == [] then []
    else
      var (w, error) := Perform(v, edits[0]);
      (if error.None? then [edits[0]] else []) + Accepted(w, edits[1..])
  }

  // The last value that some edit gives, or the value there was.
  function Last<T>(edits: seq<Edit>, give: Edit -> Option<T>, before: T): T
    decreases |edits|
  {
    if edits == [] then before
    else Last(edits[1..], give, if give(edits[0]).Some? then give(edits[0]).value else before)
  }

  function PageTypesOf(e: Edit): Option<seq<Id>> { if e.SetPageTypes? then Some(e.ids) else None }
  function TransitionsOf(e: Edit): Option<seq<Id>> { if e.SetTransitions? then Some(e.ids) else None }
  function PolicyIdOf(e: Edit): Option<Option<Id>> { if e.SetPolicyId? then Some(e.id) else None }
  function ScopeIdOf(e: Edit): Option<Option<Id>> { if e.SetScopeId? then Some(e.id) else None }
  function PolicyOf(e: Edit): Option<Policy> { if e.SetPolicy? then Some(e.policy) else None }
  function ScopeOf(e: Edit): Option<Scope> { if e.SetScope? then Some(e.scope) else None }
  function GuardrailsOf(e: Edit): Option<Guardrails> { if e.SetGuardrails? then Some(e.guardrails) else None }

  function SeedsOf(edits: seq<Edit>): seq<Seed> {
    if edits == [] then [] else (if edits[0].AddSeed? then [edits[0].seed] else []) + SeedsOf(edits[1..])
  }

  // `w` is `v` with every part as the edits last gave it.
  ghost predicate Holds(v: Version, edits: seq<Edit>, w: Version) {
    && w.id == v.id && w.crawler == v.crawler
    && w.seeds == v.seeds + SeedsOf(edits)
    && w.pageTypes == Last(edits, PageTypesOf, v.pageTypes)
    && w.transitions == Last(edits, TransitionsOf, v.transitions)
    && w.policyId == Last(edits, PolicyIdOf, v.policyId)
    && w.scopeId == Last(edits, ScopeIdOf, v.scopeId)
    && w.policy == Last(edits, PolicyOf, v.policy)
    && w.scope == Last(edits, ScopeOf, v.scope)
    && w.guardrails == Last(edits, GuardrailsOf, v.guardrails)
    && (w.state.Published? <==> v.state.Published? || Publish in edits)
  }

  lemma HoldsFirst(v: Version, e: Edit, rest: seq<Edit>, w: Version)
    requires Perform(v, e).1.None? && Holds(Perform(v, e).0, rest, w)
    ensures Holds(v, [e] + rest, w)
  {
    var all := [e] + rest;
    assert all[0] == e && all[1..] == rest;
    assert Publish in all <==> e == Publish || Publish in rest;
    hide Check;
    if e.AddSeed? { assert v.seeds + ([e.seed] + SeedsOf(rest)) == (v.seeds + [e.seed]) + SeedsOf(rest); }
    if !e.AddSeed? { assert [] + SeedsOf(rest) == SeedsOf(rest); }
  }

  /** After any edits, each part of the version is what the last accepted edit of it gave, the
      accepted seeds follow those there were, and it is published exactly when a publication was
      accepted or it already was. */
  lemma {:induction false} AcceptedEditsAreKept(v: Version, edits: seq<Edit>)
    ensures Holds(v, Accepted(v, edits), After(v, edits))
    decreases |edits|
  {
    if edits == [] {
      assert v.seeds + [] == v.seeds;
    } else {
      var e, rest := edits[0], edits[1..];
      AcceptedEditsAreKept(Perform(v, e).0, rest);
      if Perform(v, e).1.None? {
        HoldsFirst(v, e, Accepted(Perform(v, e).0, rest), After(v, edits));
      } else {
        assert Perform(v, e).0 == v;
        assert [] + Accepted(v, rest) == Accepted(v, rest);
      }
      hide Perform, Holds;
    }
  }

  // ---- What every version is safe from ----

  /** A version that satisfies the semantic contract is limited in every way. */
  lemma SoundExactly(v: Version)
    ensures Sound(v) <==> Validate(v.policy).None? && v.scope.valid && Limited(v.guardrails) && Budgeted(v.guardrails.pageTypes, v.pageTypes)
  {
    GuardrailsDecided(v.guardrails, v.pageTypes);
    hide Validate, ValidateGuardrails, Fits, Budgeted, Limited;
  }

  /** Whatever is done to a version and its clones, it stays with its crawler, every limit stays
      positive and every page-type guardrail is about a page type of the version. */
  lemma DescentIsLimited(crawler: Id, id: Id, next: Id, acts: seq<Act>)
    ensures var v := Run(State(NewDraft(id, crawler), next), acts).version;
            && v.crawler == crawler && Validate(v.policy).None? && v.scope.valid
            && Limited(v.guardrails) && Budgeted(v.guardrails.pageTypes, v.pageTypes)
  {
    CrawlerStays(State(NewDraft(id, crawler), next), acts);
    DraftIsSound(id, crawler);
    DescentIsSound(State(NewDraft(id, crawler), next), acts);
    SoundExactly(Run(State(NewDraft(id, crawler), next), acts).version);
    hide Sound, Run;
  }

  lemma {:induction false} CrawlerStays(s: State, acts: seq<Act>)
    ensures Run(s, acts).version.crawler == s.version.crawler
    decreases |acts|
  {
    if acts != [] {
      StepKeepsCrawler(s, acts[0]);
      hide Step;
      CrawlerStays(Step(s, acts[0]), acts[1..]);
    }
  }

  lemma StepKeepsCrawler(s: State, a: Act)
    ensures Step(s, a).version.crawler == s.version.crawler
  {
    if a.Cloned? && Clone(s.version, s.next).Ok? { CloneKeepsTheRest(s.version, s.next); }
    hide Check, Clone;
  }

  /** A clone differs from its original in its state, its own identities and the references to
      them, and in nothing else. */
  lemma CloneKeepsTheRest(v: Version, next: Id)
    requires Clone(v, next).Ok?
    ensures var w := Clone(v, next).value.0;
            && w.(id := v.id, state := Published, seeds := v.seeds, pageTypes := v.pageTypes, transitions := v.transitions,
                  guardrails := w.guardrails.(pageTypes := v.guardrails.pageTypes)) == v
            && |w.seeds| == |v.seeds| && forall i | 0 <= i < |v.seeds| ::
                 w.seeds[i].(id := v.seeds[i].id, hint := v.seeds[i].hint) == v.seeds[i]
  {
    CloneParts(v, next);
    hide Validate, ValidateGuardrails, Fits, MissingHint, Range, CloneBudget, Renamed;
  }

  /** Why a version cannot be cloned: the first part of its semantic contract that fails, or else
      a conflict. */
  lemma CloneBlames(v: Version, next: Id)
    ensures Clone(v, next).Err? ==>
              Clone(v, next).error ==
                if Validate(v.policy).Some? then InvalidPolicy
                else if !v.scope.valid then InvalidScope
                else if !Limited(v.guardrails) then InvalidGuardrails
                else if !Budgeted(v.guardrails.pageTypes, v.pageTypes) then InvalidPageTypeBudget
                else Conflict
    ensures Clone(v, next).Ok? <==>
              Sound(v) && v.state.Published? && forall i | 0 <= i < |v.seeds| ::
                v.seeds[i].hint.Some? ==> v.seeds[i].hint.value in v.pageTypes
  {
    GuardrailsDecided(v.guardrails, v.pageTypes);
    assert MissingHint(v) <==> exists i | 0 <= i < |v.seeds| :: v.seeds[i].hint.Some? && v.seeds[i].hint.value !in v.pageTypes by {
      if MissingHint(v) {
        var s :| s in v.seeds && s.hint.Some? && s.hint.value !in v.pageTypes;
        var i :| 0 <= i < |v.seeds| && v.seeds[i] == s;
      }
    }
    hide Validate, ValidateGuardrails, Fits, Budgeted, Limited, MissingHint, CloneSeeds, CloneBudgets;
  }
}
