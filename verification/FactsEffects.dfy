/**
 What single records do to the facts: with the facts of no evidence and the independence of
 order and repetition, this determines them.
 */
module FactsEffects {
  import opened CompleteSnapshot
  import opened CrawlRun
  import opened StructuralFacts
  import opened Wrappers

  function If<T>(c: bool, x: T): set<T> { if c then {x} else {} }

  /** Without records nothing is planned, completed, unresolved or ambiguous. */
  lemma NothingYet(control: Option<Control>, logical: bool)
    ensures var x := Evidence([], [], control, if logical then Some([]) else None);
            Planned(x) == {} && Completed(x) == {} && Unresolved(x) == {} && Ambiguous(x) == {}
  {}

  /** A discovered page counts as planned if it was admitted and there is no logical work, and as
      ambiguous if its page type was. */
  lemma DiscoveryCounts(x: Evidence, d: Discovered)
    ensures var y := x.(discovered := x.discovered + [d]);
            && Planned(y) == Planned(x) + If(x.work.None? && d.status == "ADMITTED", d.canonical)
            && Completed(y) == Completed(x) && Unresolved(y) == Unresolved(x)
            && Ambiguous(y) == Ambiguous(x) + If(d.status == "AMBIGUOUS_PAGE_TYPE", d.canonical)
  {
    var y := x.(discovered := x.discovered + [d]);
    assert forall c :: c in y.discovered <==> c in x.discovered || c == d;
    forall u ensures u in Ambiguous(y) <==> u in Ambiguous(x) + If(d.status == "AMBIGUOUS_PAGE_TYPE", d.canonical) {}
  }

  /** Admitted work counts as planned; completed in full or in part it counts as completed, and
      short of completed in full as unresolved. */
  lemma WorkCounts(x: Evidence, w: Work)
    requires x.work.Some?
    ensures var y := x.(work := Some(x.work.value + [w]));
            && Planned(y) == Planned(x) + If(w.admitted, w.canonical)
            && Completed(y) == Completed(x) + If(w.admitted && w.state in {Some(WorkCompleted), Some(WorkPartial)}, w.canonical)
            && Unresolved(y) == Unresolved(x) + If(w.admitted && w.state != Some(WorkCompleted), w.canonical)
            && Ambiguous(y) == Ambiguous(x) + If(w.preserve == Some("AMBIGUOUS_PAGE_TYPE"), w.canonical)
  {
    var y := x.(work := Some(x.work.value + [w]));
    assert forall v :: v in y.work.value <==> v in x.work.value || v == w;
    assert WorkList(y) == y.work.value && WorkList(x) == x.work.value;
  }

  /** An attempt makes its page planned.  Without logical work the best attempt on a page decides:
      completed if some attempt came through in full or in part, unresolved unless one did in full. */
  lemma AttemptCounts(x: Evidence, e: Execution)
    ensures var y := x.(executions := x.executions + [e]);
            && Planned(y) == Planned(x) + {e.canonical}
            && Ambiguous(y) == Ambiguous(x)
            && (x.work.Some? ==> Completed(y) == Completed(x) && Unresolved(y) == Unresolved(x))
            && (x.work.None? ==>
                  && Completed(y) == Completed(x) + If(e.outcome.OutcomeCompleted? || e.outcome.OutcomePartial?, e.canonical)
                  && Unresolved(y) == if e.outcome.OutcomeCompleted? then Unresolved(x) - {e.canonical}
                                      else Unresolved(x) + If(!InFull(x, e.canonical), e.canonical))
  {
    var y := x.(executions := x.executions + [e]);
    assert forall f :: f in y.executions <==> f in x.executions || f == e;
    forall u ensures EverCompleted(y.executions, u) <==> EverCompleted(x.executions, u) || (u == e.canonical && e.outcome.OutcomeCompleted?) {}
    InFullMeans(x, e.canonical);
    hide EverCompleted, InFull;
  }

  // Some attempt on the page so far came through in full.
  ghost predicate InFull(x: Evidence, u: Url) {
    exists i | 0 <= i < |x.executions| :: x.executions[i].canonical == u && x.executions[i].outcome == OutcomeCompleted
  }

  lemma InFullMeans(x: Evidence, u: Url)
    ensures InFull(x, u) <==> EverCompleted(x.executions, u)
  {
    if e :| e in x.executions && e.canonical == u && e.outcome.OutcomeCompleted? {
      var i :| 0 <= i < |x.executions| && x.executions[i] == e;
    }
  }

  // ---- Coherence ----

  // The runs that the records speak of.
  ghost function RunsOf(x: Evidence): set<RunId> {
    (set i | 0 <= i < |x.executions| :: x.executions[i].run) + (set i | 0 <= i < |x.discovered| :: x.discovered[i].run)
    + (if x.control.Some? then {x.control.value.run} else {})
    + (if x.work.Some? then set i | 0 <= i < |x.work.value| :: x.work.value[i].run else {})
  }

  // The URLs that must parse, and that must have no fragment.
  ghost predicate UrlsOk(x: Evidence, parses: Parses) {
    && (forall i | 0 <= i < |x.executions| ::
          parses(x.executions[i].requested) && parses(x.executions[i].canonical)
          && '#' !in x.executions[i].requested && '#' !in x.executions[i].canonical
          && (x.executions[i].final.Some? ==> '#' !in x.executions[i].final.value))
    && (forall i | 0 <= i < |x.discovered| ::
          parses(x.discovered[i].original) && parses(x.discovered[i].canonical)
          && '#' !in x.discovered[i].original && '#' !in x.discovered[i].canonical)
  }

  lemma UrlsDecided(x: Evidence, parses: Parses)
    ensures UrlsOk(x, parses) <==> (forall e <- x.executions :: ExecutionOk(e, parses)) && (forall d <- x.discovered :: DiscoveredOk(d, parses))
  {
    if (forall e <- x.executions :: ExecutionOk(e, parses)) && (forall d <- x.discovered :: DiscoveredOk(d, parses)) {
      forall i | 0 <= i < |x.executions| ensures ExecutionOk(x.executions[i], parses) { assert x.executions[i] in x.executions; }
      forall i | 0 <= i < |x.discovered| ensures DiscoveredOk(x.discovered[i], parses) { assert x.discovered[i] in x.discovered; }
    }
  }

  /** Evidence is accepted exactly when it speaks of one run at most and its URLs are in order. */
  lemma CoherentExactly(x: Evidence, parses: Parses)
    ensures Coherent(x, parses) <==> UrlsOk(x, parses) && forall a, b | a in RunsOf(x) && b in RunsOf(x) :: a == b
  {
    UrlsDecided(x, parses);
    OneRun(x);
    hide UrlsOk, ExecutionOk, DiscoveredOk, RunsOf, AllRun;
  }

  lemma RunsListed(x: Evidence, run: RunId)
    ensures AllRun(x, run) <==> forall r | r in RunsOf(x) :: r == run
  {
    forall e <- x.executions ensures e.run in RunsOf(x) { var i :| 0 <= i < |x.executions| && x.executions[i] == e; }
    forall d <- x.discovered ensures d.run in RunsOf(x) { var i :| 0 <= i < |x.discovered| && x.discovered[i] == d; }
    forall w <- WorkList(x) ensures w.run in RunsOf(x) { var i :| 0 <= i < |x.work.value| && x.work.value[i] == w; }
    if x.control.Some? { assert x.control.value.run in RunsOf(x); }
    if AllRun(x, run) {
      forall i | 0 <= i < |x.executions| ensures x.executions[i].run == run { assert x.executions[i] in x.executions; }
      forall i | 0 <= i < |x.discovered| ensures x.discovered[i].run == run { assert x.discovered[i] in x.discovered; }
      forall i | 0 <= i < |WorkList(x)| ensures WorkList(x)[i].run == run { assert WorkList(x)[i] in WorkList(x); }
    }
  }

  lemma OneRun(x: Evidence)
    ensures (exists run: RunId :: AllRun(x, run)) <==> forall a, b | a in RunsOf(x) && b in RunsOf(x) :: a == b
  {
    var run: RunId := if run :| run in RunsOf(x) then run else 0;
    hide AllRun, RunsOf;
    if forall a, b | a in RunsOf(x) && b in RunsOf(x) :: a == b {
      RunsListed(x, run);
      assert AllRun(x, run);
    }
    if run: RunId :| AllRun(x, run) {
      RunsListed(x, run);
    }
  }

  // ---- The facts ----

  // Some admitted work is in that state.
  ghost predicate Admitted(x: Evidence, s: WorkState) {
    exists i | 0 <= i < |WorkList(x)| :: WorkList(x)[i].admitted && WorkList(x)[i].state == Some(s)
  }

  // Something planned, counted or truncated is missing.
  ghost predicate Missing(x: Evidence) {
    || Completed(x) != Planned(x) || Unresolved(x) != {} || Ambiguous(x) != {}
    || (x.control.Some? && (x.control.value.truncations > 0 || x.control.value.durationWorkNotExpanded))
  }

  /** The status of a run that was already cancelled, failed or partial stays.  Otherwise a quick
      scrape ends as its admitted work did if some failed or, failing that, was cancelled; and any
      run is partial if something is missing, and succeeded if nothing is. */
  lemma StatusExactly(runType: RunType, current: RunStatus, x: Evidence, parses: Parses, f: Facts)
    requires Reconstruct(runType, current, x, parses) == Ok(f)
    ensures f.status ==
              if current in {Cancelled, Failed, PartialResult} then current
              else if runType == QuickScrape && Admitted(x, WorkFailed) then Failed
              else if runType == QuickScrape && Admitted(x, WorkCancelled) then Cancelled
              else if Missing(x) then PartialResult else Succeeded
    ensures f.unresolved == |Unresolved(x)| + (if x.control.Some? && x.control.value.durationWorkNotExpanded then 1 else 0)
    ensures f.truncations == (if x.control.Some? then x.control.value.truncations else 0) && f.ambiguous == |Ambiguous(x)|
  {
    CompletedIsPlanned(x);
    var c, p := Completed(x), Planned(x);
    AdmittedMeans(x, WorkFailed);
    AdmittedMeans(x, WorkCancelled);
    hide Coherent, Planned, Completed, Unresolved, Ambiguous, SomeAdmitted, Admitted;
    if |c| == |p| { SameSize(c, p); }
    assert |Unresolved(x)| == 0 <==> Unresolved(x) == {};
    assert |Ambiguous(x)| == 0 <==> Ambiguous(x) == {};
  }

  lemma AdmittedMeans(x: Evidence, s: WorkState)
    ensures Admitted(x, s) <==> x.work.Some? && SomeAdmitted(x.work.value, s)
  {
    if x.work.Some? && SomeAdmitted(x.work.value, s) {
      var w :| w in x.work.value && w.admitted && w.state == Some(s);
      var i :| 0 <= i < |x.work.value| && x.work.value[i] == w;
      assert WorkList(x)[i] == w;
    }
    if Admitted(x, s) {
      var i :| 0 <= i < |WorkList(x)| && WorkList(x)[i].admitted && WorkList(x)[i].state == Some(s);
      assert WorkList(x)[i] in x.work.value;
    }
  }

  // ---- The decision ----

  const ALL_REASONS := [NonProductionRun, RunNotSuccessful, InScopeWorkIncomplete, PaginationTruncated, UnresolvedPartialWork,
                        PageTypeAmbiguity, ExtractionHealthNotEvaluated, CriticalExtractionFailure, SchemaDrift]

  /** The decision lists the reasons in one fixed order. */
  lemma ReasonsInOrder(reasons: seq<Reason>, runType: RunType, f: Facts, health: Health, i: nat, k: nat)
    requires Lists(reasons, runType, f, health) && i < |ALL_REASONS| && k < |ALL_REASONS|
    requires ALL_REASONS[i] in reasons && ALL_REASONS[k] in reasons
    ensures i < k <==> exists x, y | 0 <= x < y < |reasons| :: reasons[x] == ALL_REASONS[i] && reasons[y] == ALL_REASONS[k]
  {
    PlaceIsListed(ALL_REASONS[i]);
    PlaceIsListed(ALL_REASONS[k]);
    ListedIsPlace(i);
    ListedIsPlace(k);
    hide Place, Holds;
    var x :| 0 <= x < |reasons| && reasons[x] == ALL_REASONS[i];
    var y :| 0 <= y < |reasons| && reasons[y] == ALL_REASONS[k];
    assert y < x ==> Place(reasons[y]) < Place(reasons[x]);
    if a, b :| 0 <= a < b < |reasons| && reasons[a] == ALL_REASONS[i] && reasons[b] == ALL_REASONS[k] {
      assert Place(reasons[a]) < Place(reasons[b]);
    }
  }

  lemma PlaceIsListed(r: Reason)
    ensures Place(r) < |ALL_REASONS| && ALL_REASONS[Place(r)] == r
  {}

  lemma ListedIsPlace(i: nat)
    requires i < |ALL_REASONS|
    ensures Place(ALL_REASONS[i]) == i
  {}

  // Which reasons are listed, one by one.
  lemma EachReason(reasons: seq<Reason>, runType: RunType, f: Facts, health: Health)
    requires Lists(reasons, runType, f, health) && f.completed <= f.planned
    ensures (NonProductionRun in reasons <==> runType != ProductionRun) && (RunNotSuccessful in reasons <==> f.status != Succeeded)
    ensures (InScopeWorkIncomplete in reasons <==> f.completed != f.planned) && (PaginationTruncated in reasons <==> f.truncations != 0)
    ensures (UnresolvedPartialWork in reasons <==> f.unresolved != 0) && (PageTypeAmbiguity in reasons <==> f.ambiguous != 0)
    ensures (ExtractionHealthNotEvaluated in reasons <==> health == NotEvaluated)
         && (CriticalExtractionFailure in reasons <==> health == CriticalFailure)
         && (SchemaDrift in reasons <==> health == ProductionBreakingSchemaDrift)
  {
    hide Place;
  }

  // A list without any of them is empty.
  lemma NoOtherReason(reasons: seq<Reason>)
    ensures reasons != [] ==> exists r: Reason :: r in reasons
    ensures forall r: Reason | r in reasons :: r in ALL_REASONS
  {
    if reasons != [] { assert reasons[0] in reasons; }
    forall r: Reason | r in reasons ensures r in ALL_REASONS { PlaceIsListed(r); }
  }

  /** A snapshot is complete exactly for a production run that succeeded with every planned page
      completed, nothing truncated, unresolved or ambiguous, and a healthy or unneeded extraction;
      for each of these that fails, its reason is listed. */
  lemma CompleteExactly(reasons: seq<Reason>, runType: RunType, f: Facts, health: Health)
    requires Lists(reasons, runType, f, health) && f.completed <= f.planned
    ensures reasons == [] <==>
              runType == ProductionRun && f.status == Succeeded && f.completed == f.planned
              && f.truncations == 0 && f.unresolved == 0 && f.ambiguous == 0 && health in {NotRequired, Healthy}
    ensures (NonProductionRun in reasons <==> runType != ProductionRun) && (RunNotSuccessful in reasons <==> f.status != Succeeded)
    ensures (InScopeWorkIncomplete in reasons <==> f.completed != f.planned) && (PaginationTruncated in reasons <==> f.truncations != 0)
    ensures (UnresolvedPartialWork in reasons <==> f.unresolved != 0) && (PageTypeAmbiguity in reasons <==> f.ambiguous != 0)
    ensures (ExtractionHealthNotEvaluated in reasons <==> health == NotEvaluated)
         && (CriticalExtractionFailure in reasons <==> health == CriticalFailure)
         && (SchemaDrift in reasons <==> health == ProductionBreakingSchemaDrift)
  {
    EachReason(reasons, runType, f, health);
    NoOtherReason(reasons);
    hide Lists;
    if reasons != [] {
      var r: Reason :| r in reasons;
      assert r in ALL_REASONS;
    }
  }
}
