/**
 The complete-snapshot decision (crates/erabi-domain/src/complete_snapshot.rs) and what
 it comes to on facts reconstructed from durable evidence.
 */
module CompleteSnapshot {
  import opened CrawlRun
  import opened SetFacts
  import opened StructuralFacts
  import opened Wrappers

  datatype Health = NotRequired | NotEvaluated | Healthy | CriticalFailure | ProductionBreakingSchemaDrift

  datatype Reason =
    | NonProductionRun | RunNotSuccessful | InScopeWorkIncomplete | PaginationTruncated | UnresolvedPartialWork
    | PageTypeAmbiguity | ExtractionHealthNotEvaluated | CriticalExtractionFailure | SchemaDrift

  datatype DecisionError = CompletedExceedsPlanned
  datatype Decision = Complete | Incomplete(reasons: seq<Reason>)

  predicate Holds(r: Reason, runType: RunType, f: Facts, health: Health) {
    match r
    case NonProductionRun => !runType.ProductionRun?
    case RunNotSuccessful => !f.status.Succeeded?
    case InScopeWorkIncomplete => f.completed < f.planned
    case PaginationTruncated => f.truncations > 0
    case UnresolvedPartialWork => f.unresolved > 0
    case PageTypeAmbiguity => f.ambiguous > 0
    case ExtractionHealthNotEvaluated => health.NotEvaluated?
    case CriticalExtractionFailure => health.CriticalFailure?
    case SchemaDrift => health.ProductionBreakingSchemaDrift?
  }

  function Place(r: Reason): nat {
    match r
    case NonProductionRun => 0 case RunNotSuccessful => 1 case InScopeWorkIncomplete => 2 case PaginationTruncated => 3
    case UnresolvedPartialWork => 4 case PageTypeAmbiguity => 5 case ExtractionHealthNotEvaluated => 6
    case CriticalExtractionFailure => 7 case SchemaDrift => 8
  }

  // Exactly the reasons that hold, each once, in a fixed order.
  ghost predicate Lists(reasons: seq<Reason>, runType: RunType, f: Facts, health: Health) {
    && (forall r: Reason :: r in reasons <==> Holds(r, runType, f, health))
    && (forall i, k | 0 <= i < k < |reasons| :: Place(reasons[i]) < Place(reasons[k]))
  }

  // The reasons that hold among those before `place`.
  ghost predicate ListsBefore(reasons: seq<Reason>, place: nat, runType: RunType, f: Facts, health: Health) {
    && (forall r: Reason :: r in reasons <==> Holds(r, runType, f, health) && Place(r) < place)
    && (forall i, k | 0 <= i < k < |reasons| :: Place(reasons[i]) < Place(reasons[k]))
  }

  lemma OneMoreReason(reasons: seq<Reason>, r: Reason, runType: RunType, f: Facts, health: Health)
    requires ListsBefore(reasons, Place(r), runType, f, health)
    ensures ListsBefore(if Holds(r, runType, f, health) then reasons + [r] else reasons, Place(r) + 1, runType, f, health)
  {
    hide Holds;
    forall s: Reason ensures Place(s) == Place(r) <==> s == r {}
    forall s: Reason ensures s in reasons + [r] <==> s in reasons || s == r {}
    hide Place;
  }

  /** CompleteSnapshotStructuralInput::decide: the reasons that hold, and only they, in order. */
  method Decide(runType: RunType, f: Facts, health: Health) returns (r: Result<Decision, DecisionError>)
    ensures r.Err? <==> f.completed > f.planned
    ensures r.Ok? && r.value.Complete? ==> Lists([], runType, f, health)
    ensures r.Ok? && r.value.Incomplete? ==> r.value.reasons != [] && Lists(r.value.reasons, runType, f, health)
  {
    if f.completed > f.planned {
      return Err(CompletedExceedsPlanned);
    }
    hide Lists, ListsBefore;
    var reasons := StructuralReasons(runType, f, health);
    HealthReason(reasons, runType, f, health);
    match health {
      case NotRequired =>
      case Healthy =>
      case NotEvaluated => reasons := reasons + [ExtractionHealthNotEvaluated];
      case CriticalFailure => reasons := reasons + [CriticalExtractionFailure];
      case ProductionBreakingSchemaDrift => reasons := reasons + [SchemaDrift];
    }
    return Ok(if reasons == [] then Complete else Incomplete(reasons));
  }

  method StructuralReasons(runType: RunType, f: Facts, ghost health: Health) returns (reasons: seq<Reason>)
    ensures ListsBefore(reasons, 6, runType, f, health)
  {
    hide ListsBefore;
    reasons := [];
    NoReason(runType, f, health);
    reasons := PushIf(reasons, !runType.ProductionRun?, NonProductionRun, 0, runType, f, health);
    reasons := PushIf(reasons, !f.status.Succeeded?, RunNotSuccessful, 1, runType, f, health);
    reasons := PushIf(reasons, f.completed < f.planned, InScopeWorkIncomplete, 2, runType, f, health);
    reasons := PushIf(reasons, f.truncations > 0, PaginationTruncated, 3, runType, f, health);
    reasons := PushIf(reasons, f.unresolved > 0, UnresolvedPartialWork, 4, runType, f, health);
    reasons := PushIf(reasons, f.ambiguous > 0, PageTypeAmbiguity, 5, runType, f, health);
  }

  method PushIf(before: seq<Reason>, holds: bool, r: Reason, ghost place: nat, ghost runType: RunType, ghost f: Facts, ghost health: Health)
    returns (reasons: seq<Reason>)
    requires place == Place(r) && holds == Holds(r, runType, f, health) && ListsBefore(before, place, runType, f, health)
    ensures ListsBefore(reasons, place + 1, runType, f, health)
  {
    OneMoreReason(before, r, runType, f, health);
    hide ListsBefore;
    reasons := before;
    if holds {
      reasons := reasons + [r];
    }
  }

  lemma NoReason(runType: RunType, f: Facts, health: Health)
    ensures ListsBefore([], 0, runType, f, health)
  {}

  lemma AllListed(reasons: seq<Reason>, runType: RunType, f: Facts, health: Health)
    requires ListsBefore(reasons, 9, runType, f, health)
    ensures Lists(reasons, runType, f, health)
  {
    forall r: Reason ensures Place(r) < 9 {}
    hide Place, Holds;
  }

  // At most one reason comes from the extraction health, and it comes last.
  lemma HealthReason(reasons: seq<Reason>, runType: RunType, f: Facts, health: Health)
    requires ListsBefore(reasons, 6, runType, f, health)
    ensures Lists(match health
                  case NotEvaluated => reasons + [ExtractionHealthNotEvaluated]
                  case CriticalFailure => reasons + [CriticalExtractionFailure]
                  case ProductionBreakingSchemaDrift => reasons + [SchemaDrift]
                  case _ => reasons, runType, f, health)
  {
    hide ListsBefore, Lists;
    OneMoreReason(reasons, ExtractionHealthNotEvaluated, runType, f, health);
    var a := if health.NotEvaluated? then reasons + [ExtractionHealthNotEvaluated] else reasons;
    OneMoreReason(a, CriticalExtractionFailure, runType, f, health);
    var b := if health.CriticalFailure? then a + [CriticalExtractionFailure] else a;
    OneMoreReason(b, SchemaDrift, runType, f, health);
    AllListed(if health.ProductionBreakingSchemaDrift? then b + [SchemaDrift] else b, runType, f, health);
  }

  // ---- On reconstructed facts ----

  /** Every completed page is planned, whatever the evidence. */
  lemma CompletedIsPlanned(x: Evidence)
    ensures Completed(x) <= Planned(x) && |Completed(x)| <= |Planned(x)|
  {
    SubsetSize(Completed(x), Planned(x));
  }

  // The counts fit their 64-bit fields.
  ghost predicate CountsFit(x: Evidence) {
    |Planned(x)| <= U64_MAX && |Unresolved(x)| + NotExpanded(x) <= U64_MAX && |Ambiguous(x)| <= U64_MAX
  }

  /** Reconstruction fails only on evidence that is not about one run or has a bad URL (or a
      count too large): the coherence check on the counts never fires. */
  lemma FailsExactlyOnBadEvidence(runType: RunType, current: RunStatus, x: Evidence, parses: Parses)
    ensures Reconstruct(runType, current, x, parses).Err? <==> !Coherent(x, parses) || !CountsFit(x)
    ensures var r := Reconstruct(runType, current, x, parses);
            r.Ok? ==> r.value.completed == |Completed(x)| <= r.value.planned == |Planned(x)|
  {
    CompletedIsPlanned(x);
    hide Coherent, Planned, Completed, Unresolved, Ambiguous;
  }

  /** The facts depend only on which records there are, not on their order or repetition. */
  lemma OrderAndRepetitionDoNotMatter(runType: RunType, current: RunStatus, x: Evidence, y: Evidence, parses: Parses)
    requires Members(x.executions) == Members(y.executions) && Members(x.discovered) == Members(y.discovered)
    requires x.control == y.control && (x.work.Some? <==> y.work.Some?) && Members(WorkList(x)) == Members(WorkList(y))
    ensures Reconstruct(runType, current, x, parses) == Reconstruct(runType, current, y, parses)
  {
    hide Coherent, Planned, Completed, Unresolved, Ambiguous, QuickStatus, Members;
    SameMembers(x.executions, y.executions);
    SameMembers(x.discovered, y.discovered);
    SameMembers(WorkList(x), WorkList(y));
    SameEvidence(x, y, parses);
  }

  lemma SameMembers<T>(a: seq<T>, b: seq<T>)
    requires Members(a) == Members(b)
    ensures forall e :: e in a <==> e in b
  {
    forall e ensures e in a <==> e in b {
      assert e in Members(a) <==> e in Members(b);
    }
  }

  lemma SameEvidence(x: Evidence, y: Evidence, parses: Parses)
    requires forall e :: e in x.executions <==> e in y.executions
    requires forall d :: d in x.discovered <==> d in y.discovered
    requires forall w :: w in WorkList(x) <==> w in WorkList(y)
    requires x.control == y.control && (x.work.Some? <==> y.work.Some?)
    ensures Coherent(x, parses) <==> Coherent(y, parses)
    ensures Planned(x) == Planned(y) && Completed(x) == Completed(y)
    ensures Unresolved(x) == Unresolved(y) && Ambiguous(x) == Ambiguous(y)
    ensures QuickStatus(x.work) == QuickStatus(y.work)
  {
    hide Coherent, Planned, Completed, Unresolved, Ambiguous, QuickStatus;
    if Coherent(x, parses) {
      SameCoherence(x, y, parses);
    }
    if Coherent(y, parses) {
      SameCoherence(y, x, parses);
    }
    SameSets(x, y);
    SameQuick(x, y);
  }

  lemma SameCoherence(x: Evidence, y: Evidence, parses: Parses)
    requires forall e :: e in x.executions <==> e in y.executions
    requires forall d :: d in x.discovered <==> d in y.discovered
    requires forall w :: w in WorkList(x) <==> w in WorkList(y)
    requires x.control == y.control && Coherent(x, parses)
    ensures Coherent(y, parses)
  {
    hide ExecutionOk, DiscoveredOk;
    var run: RunId :| AllRun(x, run);
    assert AllRun(y, run);
  }

  lemma SameSets(x: Evidence, y: Evidence)
    requires forall e :: e in x.executions <==> e in y.executions
    requires forall d :: d in x.discovered <==> d in y.discovered
    requires forall w :: w in WorkList(x) <==> w in WorkList(y)
    requires x.work.Some? <==> y.work.Some?
    ensures Planned(x) == Planned(y) && Completed(x) == Completed(y)
    ensures Unresolved(x) == Unresolved(y) && Ambiguous(x) == Ambiguous(y)
  {
    if x.work.Some? { assert WorkList(x) == x.work.value && WorkList(y) == y.work.value; }
    forall u ensures EverCompleted(x.executions, u) <==> EverCompleted(y.executions, u) {}
  }

  lemma SameQuick(x: Evidence, y: Evidence)
    requires forall w :: w in WorkList(x) <==> w in WorkList(y)
    requires x.work.Some? <==> y.work.Some?
    ensures QuickStatus(x.work) == QuickStatus(y.work)
  {
    if x.work.Some? {
      assert WorkList(x) == x.work.value && WorkList(y) == y.work.value;
      assert SomeAdmitted(x.work.value, WorkFailed) <==> SomeAdmitted(y.work.value, WorkFailed);
      assert SomeAdmitted(x.work.value, WorkCancelled) <==> SomeAdmitted(y.work.value, WorkCancelled);
    }
  }

  /** Where there is logical work, one more valid attempt of the same run on a page already
      planned changes nothing. */
  lemma ExtraAttemptsDoNotMatter(runType: RunType, current: RunStatus, x: Evidence, e: Execution, i: nat, parses: Parses)
    requires x.work.Some? && i <= |x.executions| && e.canonical in Planned(x)
    requires ExecutionOk(e, parses) && (ExpectedRun(x).Some? ==> e.run == ExpectedRun(x).value)
    ensures var y := x.(executions := x.executions[..i] + [e] + x.executions[i..]);
            Reconstruct(runType, current, y, parses) == Reconstruct(runType, current, x, parses)
  {
    hide Coherent, Planned, Completed, Unresolved, Ambiguous, QuickStatus, ExecutionOk, ExpectedRun;
    var y := x.(executions := x.executions[..i] + [e] + x.executions[i..]);
    Inserted(x.executions, e, i);
    MoreExecutions(x, y, e, parses);
  }

  lemma Inserted<T>(s: seq<T>, x: T, i: nat)
    requires i <= |s|
    ensures forall y :: y in s[..i] + [x] + s[i..] <==> y in s || y == x
  {
    assert s == s[..i] + s[i..];
  }

  lemma MoreExecutions(x: Evidence, y: Evidence, e: Execution, parses: Parses)
    requires x.work.Some? && e.canonical in Planned(x) && y == x.(executions := y.executions)
    requires forall f :: f in y.executions <==> f in x.executions || f == e
    requires ExecutionOk(e, parses) && (ExpectedRun(x).Some? ==> e.run == ExpectedRun(x).value)
    ensures Coherent(x, parses) <==> Coherent(y, parses)
    ensures Planned(x) == Planned(y) && Completed(x) == Completed(y)
    ensures Unresolved(x) == Unresolved(y) && Ambiguous(x) == Ambiguous(y)
  {
    hide ExecutionOk, DiscoveredOk, FragmentFree;
    if Coherent(x, parses) {
      var run: RunId :| AllRun(x, run);
      PlannedHasRun(x, e.canonical);
      ExpectedIsTheRun(x);
      assert AllRun(y, run);
    }
    if Coherent(y, parses) {
      var run: RunId :| AllRun(y, run);
      assert AllRun(x, run);
    }
  }

  lemma PlannedHasRun(x: Evidence, u: Url)
    requires x.work.Some? && u in Planned(x)
    ensures ExpectedRun(x).Some?
  {}

  /** For a production run, reconstruction as succeeded leaves only the extraction health in
      question, and the decision never fails. */
  lemma SucceededLeavesOnlyHealth(current: RunStatus, x: Evidence, parses: Parses, f: Facts, health: Health, reasons: seq<Reason>)
    requires Reconstruct(ProductionRun, current, x, parses) == Ok(f) && f.status.Succeeded?
    requires Lists(reasons, ProductionRun, f, health)
    ensures f.completed == f.planned
    ensures forall r <- reasons :: Place(r) >= Place(ExtractionHealthNotEvaluated)
    ensures reasons == [] <==> health.NotRequired? || health.Healthy?
  {
    CompletedIsPlanned(x);
    hide Coherent, Planned, Completed, Unresolved, Ambiguous, Lists;
    assert f.completed == f.planned && f.truncations == 0 && f.unresolved == 0 && f.ambiguous == 0;
    OnlyHealth(f, health, reasons);
  }

  lemma OnlyHealth(f: Facts, health: Health, reasons: seq<Reason>)
    requires f.status.Succeeded? && f.completed == f.planned && f.truncations == 0 && f.unresolved == 0 && f.ambiguous == 0
    requires Lists(reasons, ProductionRun, f, health)
    ensures forall r <- reasons :: Place(r) >= Place(ExtractionHealthNotEvaluated)
    ensures reasons == [] <==> health.NotRequired? || health.Healthy?
  {
    assert Holds(ExtractionHealthNotEvaluated, ProductionRun, f, health) ==> ExtractionHealthNotEvaluated in reasons;
    assert Holds(CriticalExtractionFailure, ProductionRun, f, health) ==> CriticalExtractionFailure in reasons;
    assert Holds(SchemaDrift, ProductionRun, f, health) ==> SchemaDrift in reasons;
    if reasons != [] { assert reasons[0] in reasons; }
  }

  /** A run that was not already cancelled, failed or partial is reconstructed as succeeded
      exactly when nothing is missing: every planned page completed and resolved, nothing
      truncated or ambiguous (and, for a quick scrape, no admitted work cancelled or failed). */
  lemma SucceededExactly(runType: RunType, current: RunStatus, x: Evidence, parses: Parses, f: Facts)
    requires Reconstruct(runType, current, x, parses) == Ok(f)
    ensures f.status.Succeeded? <==>
              && !current.Cancelled? && !current.Failed? && !current.PartialResult?
              && Completed(x) == Planned(x) && Unresolved(x) == {} && Ambiguous(x) == {}
              && Truncations(x) == 0 && NotExpanded(x) == 0
  {
    CompletedIsPlanned(x);
    var c, p := Completed(x), Planned(x);
    hide Coherent, Planned, Completed, Unresolved, Ambiguous, QuickStatus;
    if |c| == |p| { SameSize(c, p); }
    if Unresolved(x) == {} { NoQuickFailure(x); }
    assert |Unresolved(x)| == 0 <==> Unresolved(x) == {};
    assert |Ambiguous(x)| == 0 <==> Ambiguous(x) == {};
  }

  lemma SameSize<T>(a: set<T>, b: set<T>)
    requires a <= b && |a| == |b|
    ensures a == b
  {
    if x :| x in b && x !in a {
      SubsetSize(a, b - {x});
    }
  }

  lemma NoQuickFailure(x: Evidence)
    requires Unresolved(x) == {}
    ensures QuickStatus(x.work).None?
  {
    if x.work.Some? {
      forall w <- x.work.value | w.admitted ensures w.state == Some(WorkCompleted) {
        assert w.canonical !in Unresolved(x);
      }
    }
  }
}
