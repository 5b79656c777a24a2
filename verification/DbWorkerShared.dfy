/**
 The worker's shared state as the program keeps it: fields updated in place by
 one method per critical section or envelope operation.  Every method is tied to
 a step of the transition system; `WorkerLoop` runs the worker thread to its end
 after begin_shutdown.
 */
module DbWorkerShared {
  import opened Wrappers
  import opened DbWorker
  import opened DbWorkerInvariant
  import opened DbWorkerSteps
  import opened DbWorkerTheorems

  class WorkerShared {
    const capacity: nat
    var lifecycle: Lifecycle
    var poisoned: bool
    var closed: bool
    var queue: seq<CallId>
    var free: nat
    var worker: WorkerPhase
    var batches: map<Actor, seq<CallId>>
    var jobs: map<CallId, Job>
    var calls: map<CallId, CallPhase>
    var owner: Option<Actor>
    var ledger: Ledger

    function View(): State
      reads this
    {
      State(capacity, free, Core(lifecycle, poisoned, closed, queue, worker, batches, owner, ledger), jobs, calls)
    }

    constructor (capacity: nat)
      ensures View() == Init(capacity)
    {
      this.capacity := capacity;
      lifecycle, poisoned, closed, queue, free := Starting, false, false, [], capacity;
      worker, batches, jobs, calls := Initializing, map[], map[], map[];
      owner, ledger := None, Ledger([], 0, 0, 0);
    }

    /** Condvar::notify_all: only a parked worker notices. */
    method Notify()
      modifies this`worker
      ensures worker == Wake(old(worker))
    {
      if worker.Parked? {
        worker := Parked(true);
      }
    }

    method TerminalizeLocked(a: Actor)
      modifies this
      ensures View() == old(View()).(core := Terminalize(old(View()).core, a))
    {
      lifecycle := Panicked;
      closed := true;
      if queue != [] {
        owner := Some(a);
      }
      batches, queue := batches[a := queue], [];
      Notify();
    }

    /** The critical section of call, with the permit already acquired. */
    method Admit(c: CallId)
      requires Phase(View(), c, Holding)
      modifies this
      ensures View() == Apply(old(View()), Step.Admit(c))
    {
      if poisoned {
        TerminalizeLocked(Caller(c));
        calls := calls[c := Terminalizing(true)];
        return;
      }
      if lifecycle != Running {
        free := free + 1;
        calls := calls[c := Returned(Failed(FailureFor(lifecycle)))];
        return;
      }
      jobs := jobs[c := FreshJob(|ledger.admitted|)];
      queue := queue + [c];
      ledger := ledger.(admitted := ledger.admitted + [c]);
      Notify();
      calls := calls[c := Awaiting];
    }

    method ObservedFailure(c: CallId)
      requires Phase(View(), c, Refused)
      modifies this
      ensures View() == Apply(old(View()), Observe(c))
    {
      if poisoned {
        TerminalizeLocked(Caller(c));
        calls := calls[c := Terminalizing(false)];
      } else {
        calls := calls[c := Returned(Failed(FailureFor(lifecycle)))];
      }
    }

    method BeginShutdown(n: nat)
      requires Enabled(View(), Shutdown(n))
      modifies this
      ensures View() == Apply(old(View()), Shutdown(n))
    {
      if poisoned {
        TerminalizeLocked(Closer(n));
        return;
      }
      if lifecycle == Running {
        lifecycle := Closing;
      }
      closed := true;
      Notify();
    }

    /** One pass of worker_loop with the lock held. */
    method InspectQueue()
      requires Enabled(View(), Inspect)
      modifies this
      ensures View() == Apply(old(View()), Inspect)
    {
      if poisoned {
        TerminalizeLocked(WorkerThread);
        worker := FailQueued;
        return;
      }
      if queue != [] {
        worker, queue := Dequeued(queue[0]), queue[1..];
        return;
      }
      match lifecycle
      case Running => worker := Parked(false);
      case Starting => worker := Parked(false);
      case Closing => lifecycle, worker := Closed, Finished(Closed);
      case Closed => worker := Finished(Closed);
      case Panicked => batches, worker := batches[WorkerThread := queue], FailQueued;
    }

    /** JobEnvelope::execute on the dequeued job; the operation panics or returns. */
    method Execute(panics: bool) returns (completed: bool)
      requires worker.Dequeued? && worker.job in jobs && jobs[worker.job].operation
      modifies this`jobs, this`free, this`worker, this`ledger
      ensures completed == !panics
      ensures View() == ExecuteNext(old(View()), panics)
    {
      var c := worker.job;
      var j := jobs[c].(operation := false, runs := jobs[c].runs + 1);
      if panics {
        jobs, worker := jobs[c := j], Unwinding(Some(c));
        ledger := ledger.(lost := ledger.lost + 1);
        return false;
      }
      if j.responder {
        j := j.(responder := false, replies := j.replies + [Real]);
      }
      if j.permit {
        free := free + 1;
        j := j.(permit := false);
      }
      jobs, worker := jobs[c := j], Top;
      ledger := ledger.(served := ledger.served + 1);
      return true;
    }

    /** JobEnvelope::fail */
    method FailJob(c: CallId)
      requires c in jobs
      modifies this`jobs, this`free
      ensures jobs == old(jobs)[c := FailedJob(old(jobs)[c])]
      ensures free == old(free) + One(old(jobs)[c].permit)
    {
      var j := jobs[c].(operation := false);
      if j.permit {
        free := free + 1;
        j := j.(permit := false);
      }
      if j.responder {
        j := j.(responder := false, replies := j.replies + [Failed(WorkerPanicked)]);
      }
      jobs := jobs[c := j];
    }

    /** transition_to_panicked and the failing of the current job. */
    method FailCurrent()
      requires worker.Unwinding? && (worker.current.Some? ==> worker.current.value in jobs)
      modifies this
      ensures View() == FailCurrentNext(TransitionNext(old(View())))
    {
      var current := worker.current;
      TerminalizeLocked(WorkerThread);
      worker := FailQueued;
      if current.Some? {
        FailJob(current.value);
      }
    }

    /** One turn of the loop in fail_jobs. */
    method FailOne(a: Actor)
      requires a in batches && batches[a] != [] && batches[a][0] in jobs
      modifies this`jobs, this`free, this`batches, this`ledger
      ensures View() == FailNextJob(old(View()), a)
    {
      FailJob(batches[a][0]);
      batches := batches[a := batches[a][1..]];
      ledger := ledger.(drained := ledger.drained + 1);
    }

    /** fail_jobs on the batch of one thread. */
    method FailJobs(a: Actor)
      requires Inv(View()) && a in batches && (a == WorkerThread ==> worker.FailQueued?)
      modifies this`jobs, this`free, this`batches, this`ledger
      ensures Inv(View()) && batches == old(batches)[a := []]
      ensures ledger == old(ledger).(drained := old(ledger.drained + |batches[a]|))
    {
      hide Inv, FailNextJob;
      while batches[a] != []
        invariant Inv(View()) && a in batches && batches == old(batches)[a := batches[a]]
        invariant ledger == old(ledger).(drained := ledger.drained)
        invariant ledger.drained + |batches[a]| == old(ledger.drained + |batches[a]|)
        decreases |batches[a]|
      {
        FailNextFacts(View(), a);
        FailOne(a);
      }
    }

    /** What worker_loop does after an operation panicked. */
    method FailAll()
      requires Inv(View()) && worker.Unwinding? && batches == map[]
      modifies this
      ensures Inv(View()) && AllAnswered(View())
      ensures worker == Finished(Panicked)
      ensures ledger == old(ledger).(drained := ledger.drained)
    {
      hide Inv, FailCurrentNext, Terminalize, AllAnswered;
      FailCurrentFacts(View());
      FailCurrent();
      FailJobs(WorkerThread);
      FinishKeeps(View(), WorkerThread);
      ghost var s := View();
      batches, worker := batches - {WorkerThread}, Finished(Panicked);
      assert View() == FinishNext(s, WorkerThread);
      FinishedAnswered(View());
    }

    /** One turn of worker_loop's outer loop; `panics` tells which operations will panic. */
    method Turn(panics: set<CallId>)
      requires Inv(View()) && Looping(View().core)
      modifies this
      ensures Inv(View()) && ledger == old(ledger).(served := ledger.served, lost := ledger.lost, drained := ledger.drained)
      ensures if old(ledger.served) == |ledger.admitted| then
                ledger.served == old(ledger.served) && worker == Finished(Closed) && AllAnswered(View())
              else if old(ledger.served) < |ledger.admitted| && ledger.admitted[old(ledger.served)] in panics then
                ledger.served == old(ledger.served) && worker == Finished(Panicked) && AllAnswered(View())
              else
                ledger.served == old(ledger.served) + 1 <= |ledger.admitted| && Looping(View().core)
    {
      hide Inv, Enabled, Apply, ExecuteNext, AllAnswered;
      InspectFacts(View());
      InspectQueue();
      if worker.Finished? {
        FinishedAnswered(View());
        return;
      }
      var c := worker.job;
      ExecuteFacts(View(), c in panics);
      var completed := Execute(c in panics);
      if !completed {
        FailAll();
      }
    }

    /** worker_loop from its top to its end, once begin_shutdown has run and no other
        thread interferes: it serves accepted jobs in order up to the first that panics,
        and ends Closed if and only if none does. */
    method WorkerLoop(panics: set<CallId>) returns (result: Lifecycle)
      requires Inv(View()) && Looping(View().core)
      modifies this
      ensures Inv(View()) && AllAnswered(View()) && worker == Finished(result)
      ensures ServedSoFar(old(ledger), ledger, panics) && StoppedAt(ledger, panics, result)
    {
      hide Inv, AllAnswered;
      LedgerBounds(View());
      ghost var was := ledger;
      while !worker.Finished?
        invariant Inv(View()) && ServedSoFar(was, ledger, panics)
        invariant if worker.Finished? then AllAnswered(View()) && StoppedAt(ledger, panics, worker.result)
                  else Looping(View().core)
        decreases !worker.Finished?, |ledger.admitted| - ledger.served
      {
        Turn(panics);
      }
      result := worker.result;
    }
  }

  // From `was` to `now` the worker served a run of jobs that did not panic.
  ghost predicate ServedSoFar(was: Ledger, now: Ledger, panics: set<CallId>) {
    && now.admitted == was.admitted
    && was.served <= now.served <= |now.admitted|
    && forall i | was.served <= i < now.served :: now.admitted[i] !in panics
  }

  ghost predicate StoppedAt(l: Ledger, panics: set<CallId>, result: Lifecycle) {
    if l.served >= |l.admitted| then result == Closed
    else result == Panicked && l.admitted[l.served] in panics
  }

  function ExecutedJob(j: Job, panics: bool): Job {
    var k := j.(operation := false, runs := j.runs + 1);
    if panics then k else AnsweredJob(k).(permit := false)
  }

  /** JobEnvelope::execute as one function of the state before it. */
  function ExecuteNext(s: State, panics: bool): State
    requires s.core.worker.Dequeued? && s.core.worker.job in s.jobs
  {
    var c := s.core.worker.job;
    var l := s.core.ledger;
    Update(s, c, ExecutedJob(s.jobs[c], panics)).(
      core := if panics then s.core.(worker := Unwinding(Some(c)), ledger := l.(lost := l.lost + 1))
              else s.core.(worker := Top, ledger := l.(served := l.served + 1)))
  }

  lemma PanickedExecution(s: State)
    requires Enabled(s, Invoke) && s.jobs[s.core.worker.job].operation
    ensures Run(s, [Invoke, OperationPanics]) == Some(ExecuteNext(s, true))
  {
    assert [Invoke, OperationPanics][1..] == [OperationPanics];
    assert Run(Apply(s, Invoke), [OperationPanics]) == Some(ExecuteNext(s, true));
  }

  lemma Composed(s: State)
    requires Enabled(s, Invoke) && s.jobs[s.core.worker.job].operation
    ensures Enabled(InvokeNext(s), Return) && Enabled(ReturnNext(InvokeNext(s)), Release)
    ensures ReleaseNext(ReturnNext(InvokeNext(s))) == ExecuteNext(s, false)
  {
    assert ReleaseNext(ReturnNext(InvokeNext(s))).jobs == ExecuteNext(s, false).jobs;
  }

  lemma ThreeSteps(s: State, a: Step, b: Step, c: Step)
    requires Enabled(s, a) && Enabled(Apply(s, a), b) && Enabled(Apply(Apply(s, a), b), c)
    ensures Run(s, [a, b, c]) == Some(Apply(Apply(Apply(s, a), b), c))
  {
    hide Enabled, Apply;
    assert [a, b, c][1..][1..] == [c];
    assert Run(Apply(Apply(s, a), b), [c]) == Some(Apply(Apply(Apply(s, a), b), c));
  }

  lemma CompletedExecution(s: State)
    requires Enabled(s, Invoke) && s.jobs[s.core.worker.job].operation
    ensures Run(s, [Invoke, Return, Release]) == Some(ExecuteNext(s, false))
  {
    Composed(s);
    hide InvokeNext, ReturnNext, ReleaseNext, ExecuteNext, Enabled, Run;
    ThreeSteps(s, Invoke, Return, Release);
  }

  /** Execute is a sequence of steps that other threads may interleave with. */
  lemma ExecuteIsSteps(s: State, panics: bool)
    requires Enabled(s, Invoke) && s.jobs[s.core.worker.job].operation
    ensures Run(s, if panics then [Invoke, OperationPanics] else [Invoke, Return, Release])
         == Some(ExecuteNext(s, panics))
  {
    hide *;
    if panics { PanickedExecution(s); } else { CompletedExecution(s); }
  }

  lemma FailNextFacts(s: State, a: Actor)
    requires Inv(s) && a in s.core.batches && s.core.batches[a] != []
    requires a == WorkerThread ==> s.core.worker.FailQueued?
    ensures s.core.batches[a][0] in s.jobs
    ensures Inv(FailNextJob(s, a))
    ensures var t := FailNextJob(s, a);
            && t.core.batches == s.core.batches[a := s.core.batches[a][1..]]
            && t.core.ledger == s.core.ledger.(drained := s.core.ledger.drained + 1)
  {
    BatchHeadInJobs(s, a);
    hide Order, Held, Phases, Jobs, Calls, Permits;
    FailNextKeeps(s, a);
  }

  lemma BatchHeadInJobs(s: State, a: Actor)
    requires Inv(s) && a in s.core.batches && s.core.batches[a] != []
    requires a == WorkerThread ==> s.core.worker.FailQueued?
    ensures s.core.batches[a][0] in s.jobs && Enabled(s, FailNext(a))
  {
    hide Order, Held, Phases, Calls, Permits;
    FailNextKeepsCore(s.core, a);
  }

  lemma LedgerBounds(s: State)
    requires Inv(s)
    ensures s.core.ledger.served <= |s.core.ledger.admitted|
  {
    hide Phases, Jobs, Calls, Permits;
  }

  predicate Looping(s: Core) { s.lifecycle == Closing && !s.poisoned && s.worker == Top }

  lemma InspectCoreFacts(s: Core)
    requires CoreInv(s) && Looping(s)
    ensures var t := InspectNext(s);
            && t.ledger == s.ledger && t.poisoned == s.poisoned && t.batches == s.batches == map[]
            && (if t.worker.Finished?
                then t.worker == Finished(Closed) && s.ledger.served == |s.ledger.admitted|
                else t.lifecycle == Closing && t.worker.Dequeued? && s.ledger.served < |s.ledger.admitted|
                     && t.worker.job == s.ledger.admitted[s.ledger.served])
  {}

  lemma InspectFacts(s: State)
    requires Inv(s) && Looping(s.core)
    ensures Enabled(s, Inspect)
    ensures var t := Apply(s, Inspect);
            && Inv(t)
            && t.core.ledger == s.core.ledger && !t.core.poisoned && t.core.batches == map[]
            && (if t.core.worker.Finished?
                then t.core.worker == Finished(Closed) && s.core.ledger.served == |s.core.ledger.admitted|
                else t.core.lifecycle == Closing && Enabled(t, Invoke)
                     && t.core.worker.Dequeued? && t.core.worker.job in t.jobs && s.core.ledger.served < |s.core.ledger.admitted|
                     && t.core.worker.job == s.core.ledger.admitted[s.core.ledger.served]
                     && t.jobs[t.core.worker.job].operation)
  {
    InspectKeeps(s);
    InspectCoreFacts(s.core);
    hide CoreInv, Calls, Permits, InspectNext;
    var t := Apply(s, Inspect);
    if t.core.worker.Dequeued? {
      InvokeDrains(t) by { hide Jobs; DequeuedInJobs(t); }
    }
  }

  lemma DequeuedInJobs(s: State)
    requires Inv(s) && s.core.worker.Dequeued?
    ensures Enabled(s, Invoke)
  {
    hide Order, Phases, Calls, Permits;
  }

  lemma ExecuteFacts(s: State, panics: bool)
    requires Inv(s) && Enabled(s, Invoke) && s.jobs[s.core.worker.job].operation
    ensures var t := ExecuteNext(s, panics);
            && Inv(t)
            && t.core.lifecycle == s.core.lifecycle && t.core.poisoned == s.core.poisoned
            && t.core.ledger.admitted == s.core.ledger.admitted
            && (if panics then t.core.worker == Unwinding(Some(s.core.worker.job)) && t.core.ledger.served == s.core.ledger.served
                else t.core.worker == Top && t.core.ledger.served == s.core.ledger.served + 1)
  {
    ExecuteIsSteps(s, panics);
    RunKeepsInv(s, if panics then [Invoke, OperationPanics] else [Invoke, Return, Release]);
    hide Inv;
  }

  lemma FailCurrentFacts(s: State)
    requires Inv(s) && s.core.worker.Unwinding?
    ensures s.core.worker.current.Some? ==> s.core.worker.current.value in s.jobs
    ensures var t := FailCurrentNext(TransitionNext(s));
            && Inv(t) && t.core.worker == FailQueued && WorkerThread in t.core.batches
            && t.core.ledger == s.core.ledger
            && (s.core.batches == map[] ==> t.core.batches.Keys == {WorkerThread})
  {
    hide CoreInv, Jobs, Calls, Permits;
    UnwindingInJobs(s);
    TransitionKeeps(s);
    var t := TransitionNext(s);
    FailCurrentKeeps(t);
    assert t.core.batches == s.core.batches[WorkerThread := s.core.queue];
  }

  lemma UnwindingInJobs(s: State)
    requires Inv(s) && s.core.worker.Unwinding?
    ensures s.core.worker.current.Some? ==> s.core.worker.current.value in s.jobs
  {
    hide Order, Phases, Calls, Permits;
  }

  lemma FinishedAnswered(s: State)
    requires Inv(s) && s.core.worker.Finished? && s.core.batches == map[]
    ensures AllAnswered(s)
  {
    EndedCore(s.core);
    forall c <- s.jobs ensures Answered(s, c) {
      assert JobOk(s.jobs[c], s.core.ledger, CoreGrip(s.core));
    }
  }
}
