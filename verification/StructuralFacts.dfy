/**
 Reconstruction of a crawl's structural facts from durable evidence
 (crates/erabi-crawler/src/finalization.rs) and the complete-snapshot decision over
 them (crates/erabi-domain/src/complete_snapshot.rs).  `parses` stands for
 url::Url::parse succeeding.
 */
module StructuralFacts {
  import opened CrawlRun
  import opened Wrappers


  datatype RunStatus = Queued | Running | Succeeded | PartialResult | Failed | Cancelled
  datatype Outcome = OutcomeCompleted | OutcomePartial | OutcomeFailed | OutcomeCancelled
  datatype WorkState = Pending | InProgress | WorkCompleted | WorkPartial | WorkFailed | WorkCancelled

  type RunId = nat
  type Url = string

  datatype Execution = Execution(run: RunId, requested: Url, canonical: Url, final: Option<Url>, outcome: Outcome)
  datatype Discovered = Discovered(run: RunId, original: Url, canonical: Url, status: string)
  datatype Work = Work(run: RunId, canonical: Url, admitted: bool, state: Option<WorkState>, preserve: Option<string>)
  datatype Control = Control(run: RunId, truncations: nat, durationWorkNotExpanded: bool)

  datatype Evidence = Evidence(executions: seq<Execution>, discovered: seq<Discovered>, control: Option<Control>, work: Option<seq<Work>>)

  datatype Facts = Facts(status: RunStatus, planned: nat, completed: nat, truncations: nat, unresolved: nat, ambiguous: nat)
  datatype FactsError = InconsistentDurableState

  type Parses = string -> bool

  // ---- Valid evidence ----

  predicate FragmentFree(u: Url, parses: Parses) { '#' !in u && parses(u) }

  predicate ExecutionOk(e: Execution, parses: Parses) {
    FragmentFree(e.requested, parses) && FragmentFree(e.canonical, parses) && (e.final.Some? ==> '#' !in e.final.value)
  }

  predicate DiscoveredOk(d: Discovered, parses: Parses) {
    FragmentFree(d.original, parses) && FragmentFree(d.canonical, parses)
  }

  function WorkList(x: Evidence): seq<Work> { if x.work.Some? then x.work.value else [] }

  predicate AllRun(x: Evidence, run: RunId) {
    && (forall e <- x.executions :: e.run == run)
    && (forall d <- x.discovered :: d.run == run)
    && (x.control.Some? ==> x.control.value.run == run)
    && (forall w <- WorkList(x) :: w.run == run)
  }

  function ExpectedRun(x: Evidence): Option<RunId> {
    if WorkList(x) != [] then Some(WorkList(x)[0].run)
    else if x.executions != [] then Some(x.executions[0].run)
    else if x.discovered != [] then Some(x.discovered[0].run)
    else if x.control.Some? then Some(x.control.value.run)
    else None
  }

  /** All evidence is about one run, and its URLs parse and carry no fragment. */
  ghost predicate Coherent(x: Evidence, parses: Parses) {
    && (forall e <- x.executions :: ExecutionOk(e, parses))
    && (forall d <- x.discovered :: DiscoveredOk(d, parses))
    && exists run: RunId :: AllRun(x, run)
  }

  // ---- The sets that are counted ----

  predicate Resolved(w: Work) { w.state == Some(WorkCompleted) || w.state == Some(WorkPartial) }

  ghost function Planned(x: Evidence): set<Url> {
    (set e <- x.executions :: e.canonical)
    + if x.work.Some? then set w | w in x.work.value && w.admitted :: w.canonical
      else set d | d in x.discovered && d.status == "ADMITTED" :: d.canonical
  }

  /** With logical work: admitted and completed, at least in part.  Without: some attempt was. */
  ghost function Completed(x: Evidence): set<Url> {
    if x.work.Some? then set w | w in x.work.value && w.admitted && Resolved(w) :: w.canonical
    else set e | e in x.executions && (e.outcome.OutcomeCompleted? || e.outcome.OutcomePartial?) :: e.canonical
  }

  predicate EverCompleted(executions: seq<Execution>, u: Url) {
    exists e <- executions :: e.canonical == u && e.outcome.OutcomeCompleted?
  }

  /** With logical work: admitted and not completed in full.  Without: no attempt completed in full. */
  ghost function Unresolved(x: Evidence): set<Url> {
    if x.work.Some? then set w | w in x.work.value && w.admitted && w.state != Some(WorkCompleted) :: w.canonical
    else set e | e in x.executions && !EverCompleted(x.executions, e.canonical) :: e.canonical
  }

  ghost function Ambiguous(x: Evidence): set<Url> {
    (set w | w in WorkList(x) && w.preserve == Some("AMBIGUOUS_PAGE_TYPE") :: w.canonical)
    + set d | d in x.discovered && d.status == "AMBIGUOUS_PAGE_TYPE" :: d.canonical
  }

  predicate SomeAdmitted(work: seq<Work>, s: WorkState) { exists w <- work :: w.admitted && w.state == Some(s) }

  /** quick_scrape_current_terminal_status */
  function QuickStatus(work: Option<seq<Work>>): (r: Option<RunStatus>)
    ensures r.Some? ==> r.value.Failed? || r.value.Cancelled?
  {
    if work.None? then None
    else if SomeAdmitted(work.value, WorkFailed) then Some(Failed)
    else if SomeAdmitted(work.value, WorkCancelled) then Some(Cancelled)
    else None
  }

  function StatusOf(runType: RunType, current: RunStatus, work: Option<seq<Work>>, incomplete: bool): RunStatus {
    if current.Cancelled? || current.Failed? || current.PartialResult? then current
    else
      var quick := if runType.QuickScrape? then QuickStatus(work) else None;
      if quick.Some? then quick.value else if incomplete then PartialResult else Succeeded
  }

  function Truncations(x: Evidence): nat { if x.control.Some? then x.control.value.truncations else 0 }
  function NotExpanded(x: Evidence): nat { if x.control.Some? && x.control.value.durationWorkNotExpanded then 1 else 0 }

  function FactsOf(runType: RunType, current: RunStatus, x: Evidence, planned: nat, completed: nat, unresolved: nat, ambiguous: nat):
    Result<Facts, FactsError>
  {
    if planned > U64_MAX || completed > U64_MAX || completed > planned then Err(InconsistentDurableState)
    else if unresolved + NotExpanded(x) > U64_MAX || ambiguous > U64_MAX then Err(InconsistentDurableState)
    else
      var u := unresolved + NotExpanded(x);
      var incomplete := completed < planned || u > 0 || Truncations(x) > 0 || ambiguous > 0;
      Ok(Facts(StatusOf(runType, current, x.work, incomplete), planned, completed, Truncations(x), u, ambiguous))
  }

  /** The facts of coherent evidence, as counts of sets of canonical URLs. */
  ghost function Reconstruct(runType: RunType, current: RunStatus, x: Evidence, parses: Parses): Result<Facts, FactsError> {
    if !Coherent(x, parses) then Err(InconsistentDurableState)
    else FactsOf(runType, current, x, |Planned(x)|, |Completed(x)|, |Unresolved(x)|, |Ambiguous(x)|)
  }

  // ---- The program ----

  method CheckEvidence(x: Evidence, parses: Parses) returns (ok: bool)
    ensures ok <==> Coherent(x, parses)
  {
    var expected := ExpectedRun(x);
    hide FragmentFree, AllRun, ExecutionOk, DiscoveredOk;
    if expected.None? {
      NoEvidence(x);
      return true;
    }
    var run := expected.value;
    ExpectedIsTheRun(x);
    for i := 0 to |x.executions|
      invariant forall k | 0 <= k < i :: ExecutionOk(x.executions[k], parses) && x.executions[k].run == run
    {
      if !ExecutionOk(x.executions[i], parses) || x.executions[i].run != run {
        BadExecution(x, parses, i, run);
        return false;
      }
    }
    for i := 0 to |x.discovered|
      invariant forall k | 0 <= k < i :: DiscoveredOk(x.discovered[k], parses) && x.discovered[k].run == run
    {
      if x.discovered[i].run != run || !DiscoveredOk(x.discovered[i], parses) {
        BadDiscovered(x, parses, i, run);
        return false;
      }
    }
    if x.control.Some? && x.control.value.run != run {
      BadControl(x, parses, run);
      return false;
    }
    var work := WorkList(x);
    for i := 0 to |work|
      invariant forall k | 0 <= k < i :: work[k].run == run
    {
      if work[i].run != run {
        BadWork(x, parses, i, run);
        return false;
      }
    }
    AllGood(x, run);
    return true;
  }

  lemma NoEvidence(x: Evidence)
    requires ExpectedRun(x).None?
    ensures AllRun(x, 0) && x.executions == [] && x.discovered == []
  {}

  lemma ExpectedIsTheRun(x: Evidence)
    requires ExpectedRun(x).Some?
    ensures forall run: RunId | AllRun(x, run) :: run == ExpectedRun(x).value
  {
    forall run: RunId | AllRun(x, run) ensures run == ExpectedRun(x).value {
      if WorkList(x) != [] { assert WorkList(x)[0] in WorkList(x); }
      else if x.executions != [] { assert x.executions[0] in x.executions; }
      else if x.discovered != [] { assert x.discovered[0] in x.discovered; }
    }
  }

  lemma BadExecution(x: Evidence, parses: Parses, i: nat, run: RunId)
    requires i < |x.executions| && (!ExecutionOk(x.executions[i], parses) || x.executions[i].run != run)
    requires forall r: RunId | AllRun(x, r) :: r == run
    ensures !Coherent(x, parses)
  {
    hide ExecutionOk;
    assert x.executions[i] in x.executions;
  }

  lemma BadDiscovered(x: Evidence, parses: Parses, i: nat, run: RunId)
    requires i < |x.discovered| && (!DiscoveredOk(x.discovered[i], parses) || x.discovered[i].run != run)
    requires forall r: RunId | AllRun(x, r) :: r == run
    ensures !Coherent(x, parses)
  {
    hide DiscoveredOk;
    assert x.discovered[i] in x.discovered;
  }

  lemma BadControl(x: Evidence, parses: Parses, run: RunId)
    requires x.control.Some? && x.control.value.run != run
    requires forall r: RunId | AllRun(x, r) :: r == run
    ensures !Coherent(x, parses)
  {}

  lemma BadWork(x: Evidence, parses: Parses, i: nat, run: RunId)
    requires i < |WorkList(x)| && WorkList(x)[i].run != run
    requires forall r: RunId | AllRun(x, r) :: r == run
    ensures !Coherent(x, parses)
  {
    assert WorkList(x)[i] in WorkList(x);
  }

  lemma AllGood(x: Evidence, run: RunId)
    requires forall k | 0 <= k < |x.executions| :: x.executions[k].run == run
    requires forall k | 0 <= k < |x.discovered| :: x.discovered[k].run == run
    requires forall k | 0 <= k < |WorkList(x)| :: WorkList(x)[k].run == run
    requires x.control.Some? ==> x.control.value.run == run
    ensures AllRun(x, run)
  {}

  method CollectPlanned(x: Evidence) returns (planned: set<Url>)
    ensures planned == Planned(x)
  {
    planned := {};
    for i := 0 to |x.executions|
      invariant planned == set k | 0 <= k < i :: x.executions[k].canonical
    {
      planned := planned + {x.executions[i].canonical};
    }
    ghost var attempts := planned;
    if x.work.Some? {
      var work := x.work.value;
      for i := 0 to |work|
        invariant planned == attempts + set k | 0 <= k < i && work[k].admitted :: work[k].canonical
      {
        if work[i].admitted { planned := planned + {work[i].canonical}; }
      }
    } else {
      for i := 0 to |x.discovered|
        invariant planned == attempts + set k | 0 <= k < i && x.discovered[k].status == "ADMITTED" :: x.discovered[k].canonical
      {
        if x.discovered[i].status == "ADMITTED" { planned := planned + {x.discovered[i].canonical}; }
      }
    }
  }

  method CollectFromWork(x: Evidence) returns (completed: set<Url>, unresolved: set<Url>)
    requires x.work.Some?
    ensures completed == Completed(x) && unresolved == Unresolved(x)
  {
    completed, unresolved := {}, {};
    var work := x.work.value;
    for i := 0 to |work|
      invariant completed == set k | 0 <= k < i && work[k].admitted && Resolved(work[k]) :: work[k].canonical
      invariant unresolved == set k | 0 <= k < i && work[k].admitted && work[k].state != Some(WorkCompleted) :: work[k].canonical
    {
      var url := work[i].canonical;
      if work[i].admitted {
        match work[i].state {
          case Some(WorkCompleted) => completed := completed + {url};
          case Some(WorkPartial) => completed, unresolved := completed + {url}, unresolved + {url};
          case _ => unresolved := unresolved + {url};
        }
      }
    }
  }

  datatype PageOutcome = PageFailed | PagePartial | PageCompleted

  function OutcomeOf(o: Outcome): PageOutcome {
    match o case OutcomeCompleted => PageCompleted case OutcomePartial => PagePartial case _ => PageFailed
  }

  function Rank(o: PageOutcome): nat {
    match o case PageFailed => 0 case PagePartial => 1 case PageCompleted => 2
  }

  // `best` holds the best outcome of each URL among the first `n` attempts.
  ghost predicate BestOutcomes(executions: seq<Execution>, n: nat, best: map<Url, PageOutcome>)
    requires n <= |executions|
  {
    && (forall k | 0 <= k < n :: executions[k].canonical in best
                                 && Rank(OutcomeOf(executions[k].outcome)) <= Rank(best[executions[k].canonical]))
    && (forall u <- best :: exists k | 0 <= k < n :: executions[k].canonical == u && OutcomeOf(executions[k].outcome) == best[u])
  }

  method BestAttempts(executions: seq<Execution>) returns (best: map<Url, PageOutcome>)
    ensures BestOutcomes(executions, |executions|, best)
  {
    best := map[];
    for i := 0 to |executions|
      invariant BestOutcomes(executions, i, best)
    {
      var url, outcome := executions[i].canonical, OutcomeOf(executions[i].outcome);
      ghost var was := best;
      if url !in best || Rank(outcome) > Rank(best[url]) {
        best := best[url := outcome];
        forall u <- best
          ensures exists k | 0 <= k < i + 1 :: executions[k].canonical == u && OutcomeOf(executions[k].outcome) == best[u]
        {
          if u != url {
            var k :| 0 <= k < i && executions[k].canonical == u && OutcomeOf(executions[k].outcome) == was[u];
          }
        }
      }
    }
  }

  lemma BestDecides(x: Evidence, best: map<Url, PageOutcome>, u: Url)
    requires x.work.None? && BestOutcomes(x.executions, |x.executions|, best)
    ensures u in Completed(x) <==> u in best && !best[u].PageFailed?
    ensures u in Unresolved(x) <==> u in best && !best[u].PageCompleted?
  {
    var es := x.executions;
    if u in best {
      var k :| 0 <= k < |es| && es[k].canonical == u && OutcomeOf(es[k].outcome) == best[u];
      assert es[k] in es;
    }
  }

  method CollectFromAttempts(x: Evidence) returns (completed: set<Url>, unresolved: set<Url>)
    requires x.work.None?
    ensures completed == Completed(x) && unresolved == Unresolved(x)
  {
    hide BestOutcomes, Completed, Unresolved;
    var best := BestAttempts(x.executions);
    completed, unresolved := {}, {};
    var todo := best.Keys;
    while todo != {}
      invariant todo <= best.Keys
      invariant forall u :: u in completed <==> u in best && u !in todo && !best[u].PageFailed?
      invariant forall u :: u in unresolved <==> u in best && u !in todo && !best[u].PageCompleted?
      decreases |todo|
    {
      var u :| u in todo;
      todo := todo - {u};
      match best[u] {
        case PageCompleted => completed := completed + {u};
        case PagePartial => completed, unresolved := completed + {u}, unresolved + {u};
        case PageFailed => unresolved := unresolved + {u};
      }
    }
    forall u: Url
      ensures u in Completed(x) <==> u in best && !best[u].PageFailed?
      ensures u in Unresolved(x) <==> u in best && !best[u].PageCompleted?
    {
      BestDecides(x, best, u);
    }
  }

  method CollectAmbiguous(x: Evidence) returns (ambiguous: set<Url>)
    ensures ambiguous == Ambiguous(x)
  {
    ambiguous := {};
    var work := WorkList(x);
    for i := 0 to |work|
      invariant ambiguous == set k | 0 <= k < i && work[k].preserve == Some("AMBIGUOUS_PAGE_TYPE") :: work[k].canonical
    {
      if work[i].preserve == Some("AMBIGUOUS_PAGE_TYPE") { ambiguous := ambiguous + {work[i].canonical}; }
    }
    ghost var before := ambiguous;
    for i := 0 to |x.discovered|
      invariant ambiguous == before + set k | 0 <= k < i && x.discovered[k].status == "AMBIGUOUS_PAGE_TYPE" :: x.discovered[k].canonical
    {
      if x.discovered[i].status == "AMBIGUOUS_PAGE_TYPE" { ambiguous := ambiguous + {x.discovered[i].canonical}; }
    }
  }

  /** reconstruct_crawl_structural_facts */
  method ReconstructFacts(runType: RunType, current: RunStatus, x: Evidence, parses: Parses)
    returns (r: Result<Facts, FactsError>)
    ensures r == Reconstruct(runType, current, x, parses)
  {
    hide Coherent, Planned, Completed, Unresolved, Ambiguous, QuickStatus;
    var ok := CheckEvidence(x, parses);
    if !ok {
      return Err(InconsistentDurableState);
    }
    var planned := CollectPlanned(x);
    var completed, unresolved;
    if x.work.Some? {
      completed, unresolved := CollectFromWork(x);
    } else {
      completed, unresolved := CollectFromAttempts(x);
    }
    var ambiguous := CollectAmbiguous(x);
    return FactsOf(runType, current, x, |planned|, |completed|, |unresolved|, |ambiguous|);
  }
}
