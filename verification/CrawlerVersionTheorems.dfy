/** What holds of every crawler version that editing, publishing and cloning can lead to. */
module CrawlerVersionTheorems {
  import opened CrawlerVersion
  import opened QueryCanonicalization
  import opened Wrappers

  // ---- Lines of descent ----

  // Edit the current version, or go on with a clone of it.
  datatype Act = Edited(edit: Edit) | Cloned

  // The current version and the next free identity.
  datatype State = State(version: Version, next: Id)

  function Step(s: State, a: Act): State {
    match a
    case Edited(e) => s.(version := Perform(s.version, e).0)
    case Cloned =>
      var c := Clone(s.version, s.next);
      if c.Ok? then State(c.value.0, c.value.1) else s
  }

  function Run(s: State, acts: seq<Act>): State
    decreases |acts|
  {
    if acts == [] then s else Run(Step(s, acts[0]), acts[1..])
  }

  /** The semantic contract holds: above all, every page-type guardrail is about a page type of
      the version. */
  predicate Sound(v: Version) { ValidateContract(v).None? }

  lemma DraftIsSound(id: Id, crawler: Id)
    ensures Sound(NewDraft(id, crawler))
  {}

  lemma PerformKeepsSound(v: Version, e: Edit)
    requires Sound(v)
    ensures Sound(Perform(v, e).0)
  {
    hide Validate, ValidateGuardrails, Fits;
  }

  /** No edit changes a published version, and each is refused. */
  lemma PublishedIsImmutable(v: Version, e: Edit)
    requires v.state.Published?
    ensures Perform(v, e) == (v, Some(Conflict))
  {}

  lemma {:induction false} PublishedStaysFor(s: State, acts: seq<Act>)
    requires s.version.state.Published? && forall a <- acts :: a.Edited?
    ensures Run(s, acts) == s
    decreases |acts|
  {
    if acts != [] {
      assert acts[0] in acts && forall a <- acts[1..] :: a in acts;
      PublishedIsImmutable(s.version, acts[0].edit);
      PublishedStaysFor(s, acts[1..]);
    }
  }

  // ---- Clones ----

  ghost predicate Distinct(ids: seq<Id>) { forall i, k | 0 <= i < k < |ids| :: ids[i] != ids[k] }

  function SeedIds(seeds: seq<Seed>): (r: seq<Id>)
    ensures |r| == |seeds| && forall i | 0 <= i < |seeds| :: r[i] == seeds[i].id
  {
    seq(|seeds|, i requires 0 <= i < |seeds| => seeds[i].id)
  }

  // The identities a version owns, itself first.
  function Owned(v: Version): seq<Id> { [v.id] + SeedIds(v.seeds) + v.pageTypes + v.transitions }

  /** A clone is a draft whose own identities are all new and all different. */
  lemma CloneIsFresh(v: Version, next: Id)
    requires Clone(v, next).Ok?
    ensures var (w, n) := Clone(v, next).value;
            && w.state.Draft? && Distinct(Owned(w)) && |Owned(w)| == |Owned(v)|
            && forall i | 0 <= i < |Owned(w)| :: next <= Owned(w)[i] < n
  {
    var (w, n) := Clone(v, next).value;
    hide Validate, ValidateGuardrails, Fits, MissingHint;
    forall i | 0 <= i < |Owned(w)| ensures Owned(w)[i] == next + i {
      OwnedAt(v, next, i);
    }
  }

  lemma OwnedAt(v: Version, next: Id, i: nat)
    requires Clone(v, next).Ok? && i < |Owned(Clone(v, next).value.0)|
    ensures Owned(Clone(v, next).value.0)[i] == next + i
    ensures |Owned(v)| == |Owned(Clone(v, next).value.0)| && Clone(v, next).value.1 == next + |Owned(v)|
  {
    var w := Clone(v, next).value.0;
    hide Validate, ValidateGuardrails, IndexOf, Fits;
    var n, p := |v.seeds|, |v.pageTypes|;
    if 1 <= i < 1 + n {
      assert Owned(w)[i] == w.seeds[i - 1].id;
    }
  }

  // What a page type reference points to, as a place among the version's page types.
  function PlaceOf(pageTypes: seq<Id>, id: Option<Id>): Option<nat> {
    if id.Some? && id.value in pageTypes then Some(IndexOf(pageTypes, id.value)) else None
  }

  /** References point to the same places as before: every seed hint and guardrail entry of the
      clone names the page type at the place its original named; all else about them is equal. */
  lemma CloneKeepsPlaces(v: Version, next: Id)
    requires Clone(v, next).Ok?
    ensures var w := Clone(v, next).value.0;
            && |w.seeds| == |v.seeds| && |w.pageTypes| == |v.pageTypes| && |w.transitions| == |v.transitions|
            && |w.guardrails.pageTypes| == |v.guardrails.pageTypes|
            && (forall i | 0 <= i < |v.seeds| ::
                  PlaceOf(w.pageTypes, w.seeds[i].hint) == PlaceOf(v.pageTypes, v.seeds[i].hint)
                  && (w.seeds[i].hint.None? <==> v.seeds[i].hint.None?)
                  && w.seeds[i].body == v.seeds[i].body)
            && (forall i | 0 <= i < |v.guardrails.pageTypes| ::
                  var x, y := v.guardrails.pageTypes[i], w.guardrails.pageTypes[i];
                  PlaceOf(w.pageTypes, Some(y.pageType)) == PlaceOf(v.pageTypes, Some(x.pageType)) && y == x.(pageType := y.pageType))
  {
    var w := Clone(v, next).value.0;
    CloneParts(v, next);
    hide Clone, IndexOf, Renamed, Range, CloneSeed, CloneBudget;
    forall i | 0 <= i < |v.seeds|
      ensures PlaceOf(w.pageTypes, w.seeds[i].hint) == PlaceOf(v.pageTypes, v.seeds[i].hint)
      ensures (w.seeds[i].hint.None? <==> v.seeds[i].hint.None?) && w.seeds[i].body == v.seeds[i].body
    {
      SeedKeepsPlace(v.seeds[i], next + 1 + i, v.pageTypes, w.pageTypes);
    }
    forall i | 0 <= i < |v.guardrails.pageTypes|
      ensures var x, y := v.guardrails.pageTypes[i], w.guardrails.pageTypes[i];
              PlaceOf(w.pageTypes, Some(y.pageType)) == PlaceOf(v.pageTypes, Some(x.pageType)) && y == x.(pageType := y.pageType)
    {
      BudgetKeepsPlace(v.guardrails.pageTypes[i], v.pageTypes, w.pageTypes);
    }
  }

  // The parts of a clone, one by one.
  lemma CloneParts(v: Version, next: Id)
    requires Clone(v, next).Ok?
    ensures var w := Clone(v, next).value.0;
            && |w.pageTypes| == |v.pageTypes| && |w.transitions| == |v.transitions| && Distinct(w.pageTypes)
            && |w.seeds| == |v.seeds| && |w.guardrails.pageTypes| == |v.guardrails.pageTypes|
            && (forall i | 0 <= i < |v.seeds| ::
                  (v.seeds[i].hint.Some? ==> v.seeds[i].hint.value in v.pageTypes)
                  && w.seeds[i] == CloneSeed(v.seeds[i], next + 1 + i, v.pageTypes, w.pageTypes))
            && (forall i | 0 <= i < |v.guardrails.pageTypes| ::
                  v.guardrails.pageTypes[i].pageType in v.pageTypes
                  && w.guardrails.pageTypes[i] == CloneBudget(v.guardrails.pageTypes[i], v.pageTypes, w.pageTypes))
            && w.guardrails == v.guardrails.(pageTypes := w.guardrails.pageTypes)
            && w.policy == v.policy && w.scope == v.scope
  {
    hide Validate, ValidateGuardrails, CloneSeed, CloneBudget;
    HintsAreThere(v);
    ContractFits(v);
  }

  lemma DistinctPlace(ids: seq<Id>, i: nat)
    requires i < |ids| && Distinct(ids)
    ensures ids[i] in ids && IndexOf(ids, ids[i]) == i
  {
    var k := IndexOf(ids, ids[i]);
  }

  lemma SeedKeepsPlace(s: Seed, id: Id, source: seq<Id>, made: seq<Id>)
    requires |source| == |made| && Distinct(made) && (s.hint.Some? ==> s.hint.value in source)
    ensures var t := CloneSeed(s, id, source, made);
            PlaceOf(made, t.hint) == PlaceOf(source, s.hint) && (t.hint.None? <==> s.hint.None?) && t.body == s.body
  {
    if s.hint.Some? {
      DistinctPlace(made, IndexOf(source, s.hint.value));
    }
  }

  lemma BudgetKeepsPlace(b: Budget, source: seq<Id>, made: seq<Id>)
    requires |source| == |made| && Distinct(made) && b.pageType in source
    ensures var c := CloneBudget(b, source, made);
            && c.pageType in made && c == b.(pageType := c.pageType)
            && PlaceOf(made, Some(c.pageType)) == PlaceOf(source, Some(b.pageType))
  {
    DistinctPlace(made, IndexOf(source, b.pageType));
  }

  /** Different guardrail targets stay different, so a clone of a sound version is sound. */
  lemma CloneIsSound(v: Version, next: Id)
    requires Clone(v, next).Ok?
    ensures Sound(Clone(v, next).value.0)
  {
    var w := Clone(v, next).value.0;
    var b, c := v.guardrails.pageTypes, w.guardrails.pageTypes;
    CloneParts(v, next);
    assert ValidateContract(v).None?;
    assert ValidateGuardrails(v.guardrails).None?;
    hide Clone, Range, Validate, IndexOf;
    forall i | 0 <= i < |c| ensures c[i].pageType in w.pageTypes && BudgetOk(c[i]) {
      BudgetKeepsPlace(b[i], v.pageTypes, w.pageTypes);
      assert b[i] in b;
    }
    forall i, k | 0 <= i < k < |c| ensures c[i].pageType != c[k].pageType {
      BudgetKeepsPlace(b[i], v.pageTypes, w.pageTypes);
      BudgetKeepsPlace(b[k], v.pageTypes, w.pageTypes);
      SamePlaceSameId(v.pageTypes, b[i].pageType, b[k].pageType);
    }
    assert Fits(c, w.pageTypes);
    assert BudgetsUnique(c);
  }

  lemma SamePlaceSameId(ids: seq<Id>, x: Id, y: Id)
    requires x in ids && y in ids && x != y
    ensures IndexOf(ids, x) != IndexOf(ids, y)
  {}

  /** Whatever is done to a version and its clones, the semantic contract holds. */
  lemma {:induction false} DescentIsSound(s: State, acts: seq<Act>)
    requires Sound(s.version)
    ensures Sound(Run(s, acts).version)
    decreases |acts|
  {
    hide Sound, Perform, Clone;
    if acts != [] {
      match acts[0] {
        case Edited(e) => PerformKeepsSound(s.version, e);
        case Cloned => if Clone(s.version, s.next).Ok? { CloneIsSound(s.version, s.next); }
      }
      DescentIsSound(Step(s, acts[0]), acts[1..]);
    }
  }

  /** A version that can be reached cannot be cloned exactly when it is a draft or one of its
      seeds hints at a page type it does not have. */
  lemma CloneFailsExactly(crawler: Id, id: Id, next: Id, acts: seq<Act>)
    ensures var s := Run(State(NewDraft(id, crawler), next), acts);
            Clone(s.version, s.next).Err? <==> s.version.state.Draft? || MissingHint(s.version)
  {
    DraftIsSound(id, crawler);
    DescentIsSound(State(NewDraft(id, crawler), next), acts);
    hide MissingHint, ValidateContract, Run;
  }

  /** Publishing does not look at seed hints, so a version can be published that can never be
      edited or cloned again. */
  lemma DeadEnd(crawler: Id, id: Id, next: Id)
    ensures exists acts: seq<Act> ::
              var s := Run(State(NewDraft(id, crawler), next), acts);
              s.version.state.Published? && Clone(s.version, s.next).Err?
              && forall a: Act :: Step(s, a) == s
  {
    var seed := Seed(0, "seed", Some(1));
    var first := State(NewDraft(id, crawler), next);
    var a, b := Edited(AddSeed(seed)), Edited(Publish);
    var middle := Step(first, a);
    var s := Step(middle, b);
    assert [a, b][1..] == [b] && [b][1..] == [];
    assert Run(middle, [b]) == Run(s, []) == s;
    assert Run(first, [a, b]) == s;
    assert s.version.seeds == [seed] && s.version.pageTypes == [];
    assert seed in s.version.seeds;
    assert MissingHint(s.version);
    forall act: Act ensures Step(s, act) == s {}
  }
}
