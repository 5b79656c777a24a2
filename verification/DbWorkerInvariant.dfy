/**
 The inductive invariant of the worker protocol, kept by every step of every
 interleaving of callers, shutdown threads, operation panics, worker panics and
 lock poisoning.  Everything is stated by position in admission order: the first
 `Taken` jobs left the queue through the worker, the rest wait in the queue or,
 once the lifecycle is Panicked, in the batch of one terminalizing thread.
 */
module DbWorkerInvariant {
  import opened Wrappers
  import opened DbWorker

  // What the worker thread is doing to the job it dequeued last.
  datatype Grip = Nothing | Untouched | Executing | Sent | Broken

  predicate HasCurrent(w: WorkerPhase) {
    (w.Unwinding? || w.FailCurrent?) && w.current.Some?
  }

  function GripOf(w: WorkerPhase, lost: nat): Grip {
    if w.Dequeued? then Untouched
    else if w.Invoked? then Executing
    else if w.Replied? then Sent
    else if HasCurrent(w) then (if lost == 0 then Sent else Broken)
    else Nothing
  }

  function InHand(g: Grip): nat {
    if g.Untouched? || g.Executing? then 1 else 0
  }

  function Taken(l: Ledger, g: Grip): nat { l.served + l.lost + InHand(g) }

  function CoreGrip(s: Core): Grip { GripOf(s.worker, s.ledger.lost) }

  // Jobs that left the queue and no longer wait in a batch.
  function Settled(s: Core): nat { Taken(s.ledger, CoreGrip(s)) + s.ledger.drained }

  // The jobs admitted from place `n` on, in order.
  ghost predicate IsRest(q: seq<CallId>, admitted: seq<CallId>, n: nat) {
    n + |q| == |admitted| && forall i | 0 <= i < |q| :: q[i] == admitted[n + i]
  }

  ghost predicate Order(s: Core) {
    && Settled(s) <= |s.ledger.admitted|
    && (s.lifecycle != Panicked ==> IsRest(s.queue, s.ledger.admitted, Settled(s)))
    && (s.lifecycle != Panicked ==> s.ledger.drained == 0 && s.owner == None)
    && (s.lifecycle != Panicked ==> forall a :: a !in s.batches)
    && (s.lifecycle == Panicked ==> s.queue == [])
    && (forall a <- s.batches ::
          if s.owner == Some(a) then IsRest(s.batches[a], s.ledger.admitted, Settled(s)) else s.batches[a] == [])
    && (s.lifecycle == Panicked && Settled(s) < |s.ledger.admitted| ==>
          s.owner.Some? && s.owner.value in s.batches)
  }

  ghost predicate Held(s: Core) {
    var l := s.ledger;
    && l.lost <= 1
    && (s.worker.Dequeued? || s.worker.Invoked? ==>
          l.lost == 0 && l.served < |l.admitted| && l.admitted[l.served] == s.worker.job)
    && (s.worker.Replied? ==>
          l.lost == 0 && 0 < l.served <= |l.admitted| && l.admitted[l.served - 1] == s.worker.job)
    && (HasCurrent(s.worker) && l.lost == 1 ==>
          l.served < |l.admitted| && l.admitted[l.served] == s.worker.current.value)
    && (HasCurrent(s.worker) && l.lost == 0 ==>
          0 < l.served <= |l.admitted| && l.admitted[l.served - 1] == s.worker.current.value)
    && (l.lost == 1 ==> HasCurrent(s.worker) || s.worker.FailQueued? || s.worker == Finished(Panicked))
  }

  ghost predicate Phases(s: Core) {
    && (s.lifecycle == Starting <==> s.worker.Initializing? || s.worker.NotStarted?)
    && (s.lifecycle == Starting ==> s.ledger.admitted == [] && !s.poisoned)
    && (s.closed <==> s.lifecycle == Closing || s.lifecycle == Closed || s.lifecycle == Panicked)
    && (s.worker.FailCurrent? || s.worker.FailQueued? || s.worker == Finished(Panicked) ==>
          s.lifecycle == Panicked)
    && (WorkerThread in s.batches <==> s.worker.FailCurrent? || s.worker.FailQueued?)
    && (s.worker.Finished? ==> s.worker.result == Closed || s.worker.result == Panicked)
    && (s.worker == Finished(Closed) ==>
          s.ledger.served == |s.ledger.admitted| && (s.lifecycle == Closed || s.lifecycle == Panicked))
    && (s.lifecycle == Closed ==> s.worker == Finished(Closed))
    && (s.worker == Parked(false) && !s.poisoned ==> s.lifecycle == Running && s.queue == [])
  }

  ghost predicate CoreInv(s: Core) {
    Order(s) && Held(s) && Phases(s)
  }

  function FailedUnrun(position: nat): Job {
    Job(false, false, false, position, 0, [Failed(WorkerPanicked)])
  }

  // What has happened to a job, by its position in admission order.
  predicate JobOk(j: Job, l: Ledger, g: Grip) {
    var i := j.position;
    if i < l.served then
      && j.(permit := false) == Job(false, false, false, i, 1, [Real])
      && (j.permit <==> g.Sent? && i == l.served - 1)
    else if i < l.served + l.lost then
      && j.runs <= 1
      && (if g.Broken?
          then j.responder && j.permit && j.replies == [] && (j.operation ==> j.runs == 0)
          else j.(runs := 0) == FailedUnrun(i))
    else if i < Taken(l, g) then
      j == if g.Untouched? then FreshJob(i) else Job(false, true, true, i, 1, [])
    else if i < Taken(l, g) + l.drained then j == FailedUnrun(i)
    else j == FreshJob(i)
  }

  ghost predicate Positions(jobs: map<CallId, Job>, admitted: seq<CallId>) {
    && (forall c <- jobs :: jobs[c].position < |admitted| && admitted[jobs[c].position] == c)
    && (forall i | 0 <= i < |admitted| :: admitted[i] in jobs && jobs[admitted[i]].position == i)
  }

  ghost predicate Jobs(jobs: map<CallId, Job>, l: Ledger, g: Grip) {
    && Positions(jobs, l.admitted)
    && (forall c <- jobs :: JobOk(jobs[c], l, g))
  }

  predicate CallOk(p: CallPhase, c: CallId, jobs: map<CallId, Job>) {
    match p
    case Awaiting => c in jobs
    case Abandoned => true
    case Returned(Real) => c in jobs && jobs[c].replies == [Real]
    case Returned(Failed(ShuttingDown)) => c !in jobs
    case Returned(Failed(WorkerPanicked)) => c in jobs ==> jobs[c].replies == [Failed(WorkerPanicked)]
    case _ => c !in jobs
  }

  ghost predicate Calls(calls: map<CallId, CallPhase>, jobs: map<CallId, Job>,
                        failing: set<Actor>)
  {
    && (forall c <- jobs :: c in calls)
    && (forall c <- calls :: CallOk(calls[c], c, jobs))
    && (forall c <- calls :: calls[c].Terminalizing? ==> Caller(c) in failing)
    && (forall a <- failing :: a.Caller? ==> a.call in calls && calls[a.call].Terminalizing?)
  }

  predicate HoldsPermit(p: CallPhase) { p == Holding || p == Terminalizing(true) }

  ghost function Holders(calls: map<CallId, CallPhase>): set<CallId> {
    set c | c in calls && HoldsPermit(calls[c])
  }

  ghost function PermitJobs(jobs: map<CallId, Job>): set<CallId> {
    set c | c in jobs && jobs[c].permit
  }

  ghost predicate Permits(capacity: nat, free: nat, calls: map<CallId, CallPhase>, jobs: map<CallId, Job>) {
    free + |Holders(calls)| + |PermitJobs(jobs)| == capacity
  }

  ghost predicate Inv(s: State) {
    && CoreInv(s.core)
    && Jobs(s.jobs, s.core.ledger, CoreGrip(s.core))
    && Calls(s.calls, s.jobs, s.core.batches.Keys)
    && Permits(s.capacity, s.free, s.calls, s.jobs)
  }

  // ---- The mutex-protected part ----

  lemma TerminalizeKeepsCore(s: Core, a: Actor)
    requires CoreInv(s) && a !in s.batches && a != WorkerThread && s.lifecycle != Starting
    ensures CoreInv(Terminalize(s, a))
  {}

  lemma TransitionKeepsCore(s: Core)
    requires CoreInv(s) && s.worker.Unwinding?
    ensures CoreInv(Terminalize(s, WorkerThread).(worker := FailCurrent(s.worker.current)))
  {}

  lemma DequeueKeepsCore(s: Core)
    requires CoreInv(s) && (s.worker.Top? || s.worker.Parked?) && s.queue != []
    ensures CoreInv(s.(queue := s.queue[1..], worker := Dequeued(s.queue[0])))
  {}

  lemma InspectKeepsCore(s: Core)
    requires CoreInv(s) && (s.worker.Top? || s.worker.Parked?)
    ensures CoreInv(InspectNext(s))
  {
    if !s.poisoned && s.queue != [] {
      DequeueKeepsCore(s);
    } else if s.poisoned {
      PoisonedInspectKeepsCore(s);
    } else {
      EmptyInspectKeepsCore(s);
    }
  }

  lemma PoisonedInspectKeepsCore(s: Core)
    requires CoreInv(s) && (s.worker.Top? || s.worker.Parked?)
    ensures CoreInv(Terminalize(s, WorkerThread).(worker := FailQueued))
  {
    var t := Terminalize(s, WorkerThread).(worker := FailQueued);
    assert Order(t);
    assert Held(t) && Phases(t);
  }

  lemma EmptyInspectKeepsCore(s: Core)
    requires CoreInv(s) && (s.worker.Top? || s.worker.Parked?) && !s.poisoned && s.queue == []
    ensures CoreInv(InspectNext(s))
  {
    hide Order, Held, Phases, InspectNext;
    EmptyInspectKeepsOrder(s);
    if s.lifecycle == Closing { AllServed(s); }
    EmptyInspectKeepsPhases(s);
  }

  lemma EmptyInspectKeepsOrder(s: Core)
    requires Order(s) && Phases(s) && (s.worker.Top? || s.worker.Parked?) && !s.poisoned && s.queue == []
    ensures Order(InspectNext(s))
  {}

  lemma AllServed(s: Core)
    requires Order(s) && Held(s) && (s.worker.Top? || s.worker.Parked?) && s.queue == [] && s.lifecycle == Closing
    ensures s.ledger.served == |s.ledger.admitted|
  {}

  lemma EmptyInspectKeepsPhases(s: Core)
    requires Held(s) && Phases(s) && (s.worker.Top? || s.worker.Parked?) && !s.poisoned && s.queue == []
    requires s.lifecycle == Closing ==> s.ledger.served == |s.ledger.admitted|
    ensures Held(InspectNext(s)) && Phases(InspectNext(s))
  {}

  lemma PushKeepsCore(s: Core, c: CallId)
    requires CoreInv(s) && s.lifecycle == Running
    ensures CoreInv(Push(s, c).(worker := Wake(s.worker)))
  {
    assert Order(Push(s, c).(worker := Wake(s.worker)));
  }

  lemma PoisonedPushKeepsCore(s: Core, c: CallId)
    requires CoreInv(s) && s.lifecycle == Running
    ensures CoreInv(Push(s, c).(poisoned := true))
  {
    assert Order(Push(s, c).(poisoned := true));
  }

  lemma CloseKeepsCore(s: Core)
    requires CoreInv(s) && s.lifecycle != Starting
    ensures CoreInv(CloseAdmission(s).(worker := Wake(s.worker)))
    ensures CoreInv(CloseAdmission(s).(poisoned := true))
  {
    var t, u := CloseAdmission(s).(worker := Wake(s.worker)), CloseAdmission(s).(poisoned := true);
    assert Order(t) && Order(u);
    hide Order;
    assert Held(t) && Held(u);
  }

  lemma PoisonKeepsCore(s: Core)
    requires CoreInv(s) && s.lifecycle != Starting
    ensures CoreInv(s.(poisoned := true))
  {}

  lemma StartKeepsCore(s: Core)
    requires CoreInv(s) && s.worker.Initializing?
    ensures CoreInv(s.(lifecycle := Running, worker := Top))
  {
    var t := s.(lifecycle := Running, worker := Top);
    assert Order(t);
    hide Order;
    assert Held(t);
  }

  lemma FailedStartKeepsCore(s: Core)
    requires CoreInv(s) && s.worker.Initializing?
    ensures CoreInv(s.(worker := NotStarted))
  {
    var t := s.(worker := NotStarted);
    assert Order(t);
    hide Order;
    assert Held(t);
  }

  lemma InvokeKeepsCore(s: Core)
    requires CoreInv(s) && s.worker.Dequeued?
    ensures CoreInv(s.(worker := Invoked(s.worker.job)))
  {}

  lemma ReturnKeepsCore(s: Core)
    requires CoreInv(s) && s.worker.Invoked?
    ensures CoreInv(s.(worker := Replied(s.worker.job),
                       ledger := s.ledger.(served := s.ledger.served + 1)))
  {}

  lemma ReleaseKeepsCore(s: Core)
    requires CoreInv(s) && s.worker.Replied?
    ensures CoreInv(s.(worker := Top))
  {}

  lemma FailCurrentKeepsCore(s: Core)
    requires CoreInv(s) && s.worker.FailCurrent?
    ensures CoreInv(s.(worker := FailQueued))
  {}

  lemma UnwindKeepsCore(s: Core, p: bool)
    requires CoreInv(s)
    requires s.worker.Top? || s.worker.Parked? || s.worker.Dequeued? || s.worker.Replied?
    ensures CoreInv(Unwind(s, p))
  {
    hide CoreInv, Lose;
    if s.worker.Dequeued? { LoseKeepsCore(s, p); } else { IdleUnwindKeepsCore(s, p); }
  }

  lemma IdleUnwindKeepsCore(s: Core, p: bool)
    requires CoreInv(s) && (s.worker.Top? || s.worker.Parked? || s.worker.Replied?)
    ensures CoreInv(Unwind(s, p))
  {
    hide Order, Held, Phases, Unwind;
    IdleUnwindKeepsOrder(s, p);
    IdleUnwindKeepsPhases(s, p);
  }

  lemma IdleUnwindKeepsOrder(s: Core, p: bool)
    requires Order(s) && Held(s) && Phases(s) && (s.worker.Top? || s.worker.Parked? || s.worker.Replied?)
    ensures Order(Unwind(s, p))
  {}

  lemma IdleUnwindKeepsPhases(s: Core, p: bool)
    requires Held(s) && Phases(s) && (s.worker.Top? || s.worker.Parked? || s.worker.Replied?)
    ensures Held(Unwind(s, p)) && Phases(Unwind(s, p))
  {}

  lemma LoseKeepsCore(s: Core, p: bool)
    requires CoreInv(s) && (s.worker.Invoked? || s.worker.Dequeued?)
    ensures CoreInv(Lose(s, p))
  {}

  lemma FailNextKeepsCore(s: Core, a: Actor)
    requires CoreInv(s) && a in s.batches && s.batches[a] != []
    requires a == WorkerThread ==> s.worker.FailQueued?
    ensures Settled(s) < |s.ledger.admitted| && s.batches[a][0] == s.ledger.admitted[Settled(s)]
    ensures CoreInv(s.(batches := s.batches[a := s.batches[a][1..]],
                       ledger := s.ledger.(drained := s.ledger.drained + 1)))
  {}

  lemma FinishKeepsCore(s: Core, a: Actor)
    requires CoreInv(s) && a in s.batches && s.batches[a] == []
    requires a == WorkerThread ==> s.worker.FailQueued?
    ensures CoreInv(s.(batches := s.batches - {a},
                       worker := if a == WorkerThread then Finished(Panicked) else s.worker))
  {}

  // ---- The envelopes ----

  lemma PushKeepsJobs(jobs: map<CallId, Job>, l: Ledger, g: Grip, c: CallId)
    requires Jobs(jobs, l, g) && l.drained == 0 && Taken(l, g) <= |l.admitted| && c !in jobs
    ensures Jobs(jobs[c := FreshJob(|l.admitted|)], l.(admitted := l.admitted + [c]), g)
  {}

  lemma DequeueKeepsJobs(jobs: map<CallId, Job>, l: Ledger)
    requires Jobs(jobs, l, Nothing) && l.drained == 0
    ensures Jobs(jobs, l, Untouched)
  {}

  // The job in the worker's hands.
  predicate InHands(l: Ledger, c: CallId) {
    l.served < |l.admitted| && c == l.admitted[l.served]
  }

  predicate LastServed(l: Ledger, c: CallId) {
    0 < l.served <= |l.admitted| && c == l.admitted[l.served - 1]
  }

  lemma InvokeKeepsJobs(jobs: map<CallId, Job>, l: Ledger, c: CallId)
    requires Jobs(jobs, l, Untouched) && InHands(l, c) && l.lost == 0
    ensures jobs[c].operation
    ensures Jobs(jobs[c := jobs[c].(operation := false, runs := jobs[c].runs + 1)], l, Executing)
  {}

  lemma ReturnKeepsJobs(jobs: map<CallId, Job>, l: Ledger, c: CallId)
    requires Jobs(jobs, l, Executing) && InHands(l, c) && l.lost == 0
    ensures jobs[c].responder && jobs[c].permit && jobs[c].replies == []
    ensures Jobs(jobs[c := AnsweredJob(jobs[c])], l.(served := l.served + 1), Sent)
  {}

  lemma ReleaseKeepsJobs(jobs: map<CallId, Job>, l: Ledger, c: CallId)
    requires Jobs(jobs, l, Sent) && LastServed(l, c)
    ensures jobs[c].permit && !jobs[c].responder
    ensures Jobs(jobs[c := jobs[c].(permit := false)], l, Nothing)
  {}

  lemma LoseKeepsJobs(jobs: map<CallId, Job>, l: Ledger, g: Grip)
    requires Jobs(jobs, l, g) && (g == Untouched || g == Executing) && l.lost == 0
    ensures Jobs(jobs, l.(lost := 1), Broken)
  {}

  lemma FailSentKeepsJobs(jobs: map<CallId, Job>, l: Ledger, c: CallId)
    requires Jobs(jobs, l, Sent) && LastServed(l, c)
    ensures !jobs[c].responder
    ensures Jobs(jobs[c := FailedJob(jobs[c])], l, Nothing)
  {}

  lemma FailBrokenKeepsJobs(jobs: map<CallId, Job>, l: Ledger, c: CallId)
    requires Jobs(jobs, l, Broken) && InHands(l, c) && l.lost == 1
    ensures jobs[c].responder && jobs[c].replies == []
    ensures Jobs(jobs[c := FailedJob(jobs[c])], l, Nothing)
  {}

  lemma DrainKeepsJobs(jobs: map<CallId, Job>, l: Ledger, g: Grip, c: CallId)
    requires Jobs(jobs, l, g)
    requires Taken(l, g) + l.drained < |l.admitted| && c == l.admitted[Taken(l, g) + l.drained]
    ensures jobs[c].responder && jobs[c].replies == []
    ensures Jobs(jobs[c := FailedJob(jobs[c])], l.(drained := l.drained + 1), g)
  {}

  // ---- The semaphore and the calls ----

  function One(b: bool): nat { if b then 1 else 0 }

  lemma CountOne<T>(a: set<T>, b: set<T>, x: T)
    requires a - {x} == b - {x}
    ensures |a| + One(x in b) == |b| + One(x in a)
  {
    assert x in a ==> |a - {x}| == |a| - 1;
    assert x in b ==> |b - {x}| == |b| - 1;
    assert x !in a ==> a - {x} == a;
    assert x !in b ==> b - {x} == b;
  }

  lemma CountHolders(calls: map<CallId, CallPhase>, c: CallId, p: CallPhase)
    ensures |Holders(calls[c := p])| + One(c in calls && HoldsPermit(calls[c]))
         == |Holders(calls)| + One(HoldsPermit(p))
  {
    CountOne(Holders(calls[c := p]), Holders(calls), c);
  }

  lemma CountPermitJobs(jobs: map<CallId, Job>, c: CallId, j: Job)
    ensures |PermitJobs(jobs[c := j])| + One(c in jobs && jobs[c].permit)
         == |PermitJobs(jobs)| + One(j.permit)
  {
    CountOne(PermitJobs(jobs[c := j]), PermitJobs(jobs), c);
  }

  // An envelope changes: its permit may go back, and no call was told otherwise.
  lemma UpdateKeepsRest(s: State, c: CallId, j: Job)
    requires Permits(s.capacity, s.free, s.calls, s.jobs) && Calls(s.calls, s.jobs, s.core.batches.Keys)
    requires c in s.jobs && (j.permit ==> s.jobs[c].permit)
    requires j.replies == s.jobs[c].replies || s.jobs[c].replies == []
    ensures Permits(s.capacity, Update(s, c, j).free, s.calls, s.jobs[c := j])
    ensures Calls(s.calls, s.jobs[c := j], s.core.batches.Keys)
  {
    CountPermitJobs(s.jobs, c, j);
  }

  lemma PhaseKeepsPermits(s: State, c: CallId, p: CallPhase, free: nat)
    requires Permits(s.capacity, s.free, s.calls, s.jobs)
    requires free + One(HoldsPermit(p)) == s.free + One(c in s.calls && HoldsPermit(s.calls[c]))
    ensures Permits(s.capacity, free, s.calls[c := p], s.jobs)
  {
    CountHolders(s.calls, c, p);
  }

  // A call moves to another phase; `failing` gains it if it terminalized the worker.
  lemma PhaseKeepsCalls(calls: map<CallId, CallPhase>, jobs: map<CallId, Job>,
                        failing: set<Actor>, c: CallId, p: CallPhase, failing': set<Actor>)
    requires Calls(calls, jobs, failing) && CallOk(p, c, jobs)
    requires failing' - {Caller(c)} == failing - {Caller(c)}
    requires p.Terminalizing? <==> Caller(c) in failing'
    ensures Calls(calls[c := p], jobs, failing')
  {
    forall a <- failing' ensures a.Caller? ==> a.call in calls[c := p] && calls[c := p][a.call].Terminalizing? {
      if a != Caller(c) {
        assert a in failing' - {Caller(c)};
      }
    }
    forall d <- calls[c := p] ensures calls[c := p][d].Terminalizing? ==> Caller(d) in failing' {
      if d != c && calls[d].Terminalizing? {
        assert Caller(d) in failing - {Caller(c)};
      }
    }
  }

  lemma KeysKeepCalls(calls: map<CallId, CallPhase>, jobs: map<CallId, Job>,
                      failing: set<Actor>, failing': set<Actor>, a: Actor)
    requires Calls(calls, jobs, failing) && !a.Caller?
    requires failing' == failing || failing' == failing + {a} || failing' == failing - {a}
    ensures Calls(calls, jobs, failing')
  {}
}
