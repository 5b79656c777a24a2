/**
 worker_loop as the worker thread runs it, from the start or after any wake-up to its
 end, with the other threads acting wherever it does not hold the lock.  What they do
 is read from a finite script; when the script is used up they are idle.
 */
module DbWorkerLoop {
  import opened Wrappers
  import opened DbWorker
  import opened DbWorkerInvariant
  import opened DbWorkerSteps
  import opened DbWorkerTheorems
  import opened DbWorkerShared

  predicate OfOthers(st: Step) { CallerStep(st) || ((st.FailNext? || st.FinishBatch?) && st.a != WorkerThread) }

  // What holds between two steps of the worker: `steps` led here.
  ghost predicate Led(first: State, steps: seq<Step>, s: State) { Run(first, steps) == Some(s) && Inv(s) }

  lemma OneMore(first: State, steps: seq<Step>, s: State, st: Step)
    requires Led(first, steps, s) && Enabled(s, st)
    ensures Led(first, steps + [st], Apply(s, st))
  {
    hide Inv, Enabled, Apply;
    StepKeepsInv(s, st);
    Unrolls(first, steps, [st], s);
    assert [st][1..] == [];
  }

  // ---- What the other threads leave alone ----

  // The worker's own part of the state, but for a wake-up.
  ghost predicate WorkerKept(s: State, t: State) {
    && (t.core.worker == s.core.worker || t.core.worker == Wake(s.core.worker))
    && (WorkerThread in s.core.batches ==>
          WorkerThread in t.core.batches && t.core.batches[WorkerThread] == s.core.batches[WorkerThread])
    && t.capacity == s.capacity
  }

  lemma OthersKeepWorker(s: State, st: Step)
    requires Enabled(s, st) && OfOthers(st)
    ensures WorkerKept(s, Apply(s, st))
  {
    if CallerStep(st) { CallersKeepWorker(s, st); } else { BatchesKeepWorker(s, st); }
    hide Apply, Enabled, WorkerKept;
  }

  lemma CallersKeepWorker(s: State, st: Step)
    requires Enabled(s, st) && CallerStep(st)
    ensures WorkerKept(s, Apply(s, st))
  {}

  lemma BatchesKeepWorker(s: State, st: Step)
    requires Enabled(s, st) && (st.FailNext? || st.FinishBatch?) && st.a != WorkerThread
    ensures WorkerKept(s, Apply(s, st))
  {}

  lemma KeptTwice(s: State, t: State, u: State)
    requires WorkerKept(s, t) && WorkerKept(t, u)
    ensures WorkerKept(s, u)
  {}

  method Become(w: WorkerShared, s: State)
    requires s.capacity == w.capacity
    modifies w
    ensures w.View() == s
  {
    w.lifecycle, w.poisoned, w.closed, w.queue := s.core.lifecycle, s.core.poisoned, s.core.closed, s.core.queue;
    w.worker, w.batches, w.owner, w.ledger := s.core.worker, s.core.batches, s.core.owner, s.core.ledger;
    w.free, w.jobs, w.calls := s.free, s.jobs, s.calls;
  }

  /** The other threads act while the worker does not hold the lock. */
  method LetOthersAct(w: WorkerShared, script: seq<seq<Step>>, ghost first: State, ghost before: seq<Step>)
    returns (rest: seq<seq<Step>>, ghost steps: seq<Step>)
    requires Led(first, before, w.View())
    modifies w
    ensures Led(first, steps, w.View()) && WorkerKept(old(w.View()), w.View())
    ensures if script == [] then rest == [] && w.View() == old(w.View()) else |rest| < |script|
  {
    hide Led, Enabled, Apply, WorkerKept;
    steps, rest := before, script;
    ghost var was := w.View();
    assert WorkerKept(was, was) by { SameKept(was); }
    if script == [] {
      return;
    }
    rest := script[1..];
    var i := 0;
    while i < |script[0]|
      invariant i <= |script[0]| && Led(first, steps, w.View()) && WorkerKept(was, w.View())
    {
      var st, s := script[0][i], w.View();
      if OfOthers(st) && Enabled(s, st) {
        OneMore(first, steps, s, st);
        OthersKeepWorker(s, st);
        KeptTwice(was, s, Apply(s, st));
        SameCapacity(s, st);
        Become(w, Apply(s, st));
        steps := steps + [st];
      }
      i := i + 1;
    }
  }

  lemma SameKept(s: State)
    ensures WorkerKept(s, s)
  {}

  lemma SameCapacity(s: State, st: Step)
    requires Enabled(s, st) && OfOthers(st)
    ensures Apply(s, st).capacity == s.capacity
  {}

  // ---- The worker's own steps ----

  /** JobEnvelope::execute up to the call of the operation. */
  method TakeOperation(w: WorkerShared)
    requires w.worker.Dequeued? && w.worker.job in w.jobs && w.jobs[w.worker.job].operation
    modifies w`jobs, w`worker
    ensures w.View() == Apply(old(w.View()), Invoke) && w.worker == Invoked(old(w.worker.job))
  {
    var c := w.worker.job;
    w.jobs := w.jobs[c := w.jobs[c].(operation := false, runs := w.jobs[c].runs + 1)];
    w.worker := Invoked(c);
  }

  method Reply(w: WorkerShared)
    requires w.worker.Invoked? && w.worker.job in w.jobs
    modifies w`jobs, w`free, w`worker, w`ledger
    ensures w.View() == Apply(old(w.View()), Return) && w.worker == Replied(old(w.worker.job))
  {
    var c := w.worker.job;
    var j := w.jobs[c];
    if j.responder {
      w.jobs := w.jobs[c := j.(responder := false, replies := j.replies + [Real])];
    }
    assert w.jobs == old(w.jobs)[c := AnsweredJob(j)];
    w.worker := Replied(c);
    w.ledger := w.ledger.(served := w.ledger.served + 1);
  }

  method ReleasePermit(w: WorkerShared)
    requires w.worker.Replied? && w.worker.job in w.jobs
    modifies w`jobs, w`free, w`worker
    ensures w.View() == Apply(old(w.View()), Release) && w.worker == Top
  {
    var c := w.worker.job;
    if w.jobs[c].permit {
      w.free := w.free + 1;
    }
    w.jobs := w.jobs[c := w.jobs[c].(permit := false)];
    w.worker := Top;
  }

  method CatchPanic(w: WorkerShared)
    requires w.worker.Invoked?
    modifies w`worker, w`ledger
    ensures w.View() == Apply(old(w.View()), OperationPanics) && w.worker == Unwinding(Some(old(w.worker.job)))
  {
    w.worker := Unwinding(Some(w.worker.job));
    w.ledger := w.ledger.(lost := w.ledger.lost + 1);
  }

  /** transition_to_panicked */
  method TransitionToPanicked(w: WorkerShared)
    requires w.worker.Unwinding?
    modifies w
    ensures w.View() == Apply(old(w.View()), Transition) && w.worker == FailCurrent(old(w.worker.current))
  {
    var current := w.worker.current;
    w.TerminalizeLocked(WorkerThread);
    w.worker := FailCurrent(current);
  }

  method FailCurrentJob(w: WorkerShared)
    requires w.worker.FailCurrent? && (w.worker.current.Some? ==> w.worker.current.value in w.jobs)
    modifies w
    ensures w.View() == Apply(old(w.View()), Step.FailCurrentJob) && w.worker == FailQueued
  {
    if w.worker.current.Some? {
      w.FailJob(w.worker.current.value);
    }
    w.worker := FailQueued;
  }

  // The job in the worker's hands is there, with its operation until it is invoked.
  lemma InHand(s: State)
    requires Inv(s)
    ensures s.core.worker.Dequeued? ==> s.core.worker.job in s.jobs && s.jobs[s.core.worker.job].operation
    ensures s.core.worker.Invoked? || s.core.worker.Replied? ==> s.core.worker.job in s.jobs
    ensures s.core.worker.FailCurrent? && s.core.worker.current.Some? ==> s.core.worker.current.value in s.jobs
  {
    hide Order, Phases, Calls, Permits;
    if s.core.worker.Dequeued? { InvokeKeepsJobs(s.jobs, s.core.ledger, s.core.worker.job); }
  }

  lemma FailQueuedBatch(s: State)
    requires Inv(s) && s.core.worker.FailQueued?
    ensures WorkerThread in s.core.batches
    ensures s.core.batches[WorkerThread] != [] ==> Enabled(s, FailNext(WorkerThread))
  {
    assert Phases(s.core);
    if s.core.batches[WorkerThread] != [] { BatchHeadInJobs(s, WorkerThread); }
    hide Inv;
  }

  /** fail_jobs on the worker's own batch, and the end of the thread. */
  method FailOwnBatch(w: WorkerShared, script: seq<seq<Step>>, ghost first: State, ghost before: seq<Step>)
    returns (ghost steps: seq<Step>)
    requires Led(first, before, w.View()) && w.worker.FailQueued?
    modifies w
    ensures Led(first, steps, w.View()) && w.worker == Finished(Panicked)
  {
    hide Inv, Run, Apply, Enabled, FailNextJob;
    var rest := script;
    steps := before;
    FailQueuedBatch(w.View());
    while w.batches[WorkerThread] != []
      invariant Led(first, steps, w.View()) && w.worker.FailQueued? && WorkerThread in w.batches
      decreases |w.batches[WorkerThread]|
    {
      rest, steps := LetOthersAct(w, rest, first, steps);
      FailQueuedBatch(w.View());
      OneMore(first, steps, w.View(), FailNext(WorkerThread));
      FailNextResult(w.View());
      w.FailOne(WorkerThread);
      steps := steps + [FailNext(WorkerThread)];
    }
    ghost var s := w.View();
    FinishResult(s);
    OneMore(first, steps, s, FinishBatch(WorkerThread));
    w.batches, w.worker := w.batches - {WorkerThread}, Finished(Panicked);
    steps := steps + [FinishBatch(WorkerThread)];
  }

  lemma FailNextResult(s: State)
    requires Enabled(s, FailNext(WorkerThread))
    ensures s.core.batches[WorkerThread][0] in s.jobs
    ensures Apply(s, FailNext(WorkerThread)) == FailNextJob(s, WorkerThread)
    ensures var t := FailNextJob(s, WorkerThread);
            && t.core.worker == s.core.worker
            && t.core.batches == s.core.batches[WorkerThread := s.core.batches[WorkerThread][1..]]
  {}

  lemma FinishResult(s: State)
    requires s.core.worker.FailQueued? && WorkerThread in s.core.batches && s.core.batches[WorkerThread] == []
    ensures Enabled(s, FinishBatch(WorkerThread))
    ensures Apply(s, FinishBatch(WorkerThread)) ==
            s.(core := s.core.(batches := s.core.batches - {WorkerThread}, worker := Finished(Panicked)))
  {}

  lemma WorkerEnabled(s: State)
    requires Inv(s)
    ensures s.core.worker.Top? || s.core.worker.Parked? ==> Enabled(s, Inspect)
    ensures s.core.worker.Dequeued? ==> Enabled(s, Invoke)
    ensures s.core.worker.Invoked? ==> Enabled(s, Return) && Enabled(s, OperationPanics)
    ensures s.core.worker.Replied? ==> Enabled(s, Release)
    ensures s.core.worker.Unwinding? ==> Enabled(s, Transition)
    ensures s.core.worker.FailCurrent? ==> Enabled(s, Step.FailCurrentJob)
  {
    hide Inv;
    InHand(s);
  }

  /** The dequeued job is executed, and if its operation panics everything is failed. */
  method Serve(w: WorkerShared, script: seq<seq<Step>>, panics: set<CallId>, ghost first: State, ghost before: seq<Step>)
    returns (rest: seq<seq<Step>>, ghost steps: seq<Step>)
    requires Led(first, before, w.View()) && w.worker.Dequeued?
    modifies w
    ensures Led(first, steps, w.View())
    ensures w.worker == Finished(Panicked) || w.worker == Top
    ensures w.worker == Top ==> |rest| < |script| || (rest == script == [] && w.queue == old(w.queue))
  {
    hide Inv, Run, Apply, Enabled;
    rest, steps := LetOthersAct(w, script, first, before);
    WorkerEnabled(w.View());
    InHand(w.View());
    OneMore(first, steps, w.View(), Invoke);
    TakeOperation(w);
    steps := steps + [Invoke];
    rest, steps := LetOthersAct(w, rest, first, steps);
    WorkerEnabled(w.View());
    InHand(w.View());
    if w.worker.job in panics {
      OneMore(first, steps, w.View(), OperationPanics);
      CatchPanic(w);
      steps := FailAll(w, rest, first, steps + [OperationPanics]);
      return;
    }
    OneMore(first, steps, w.View(), Return);
    Reply(w);
    steps := steps + [Return];
    rest, steps := LetOthersAct(w, rest, first, steps);
    WorkerEnabled(w.View());
    InHand(w.View());
    OneMore(first, steps, w.View(), Release);
    ReleasePermit(w);
    steps := steps + [Release];
  }

  /** What worker_loop does after an operation panicked. */
  method FailAll(w: WorkerShared, script: seq<seq<Step>>, ghost first: State, ghost before: seq<Step>)
    returns (ghost steps: seq<Step>)
    requires Led(first, before, w.View()) && w.worker.Unwinding?
    modifies w
    ensures Led(first, steps, w.View()) && w.worker == Finished(Panicked)
  {
    hide Inv, Run, Apply, Enabled;
    var rest;
    rest, steps := LetOthersAct(w, script, first, before);
    WorkerEnabled(w.View());
    OneMore(first, steps, w.View(), Transition);
    TransitionToPanicked(w);
    steps := steps + [Transition];
    rest, steps := LetOthersAct(w, rest, first, steps);
    WorkerEnabled(w.View());
    InHand(w.View());
    OneMore(first, steps, w.View(), Step.FailCurrentJob);
    FailCurrentJob(w);
    steps := FailOwnBatch(w, rest, first, steps + [Step.FailCurrentJob]);
  }

  // What one look at the queue leads to.
  lemma InspectResult(s: State)
    requires Enabled(s, Inspect)
    ensures var t := Apply(s, Inspect).core;
            || t.worker.Finished? || t.worker.FailQueued?
            || (t.worker.Dequeued? && |t.queue| + 1 == |s.core.queue|)
            || (t.worker == Parked(false) && t.queue == s.core.queue)
  {}

  function Rank(p: WorkerPhase): nat { if p == Parked(false) then 0 else 1 }

  /** worker_loop.  Whatever the other threads do in between, it does nothing but steps of the
      transition system, returns only when the thread has ended, and waits only on the condvar
      with no notification to come. */
  method RunLoop(w: WorkerShared, script: seq<seq<Step>>, panics: set<CallId>) returns (ended: bool, ghost steps: seq<Step>)
    requires Inv(w.View()) && (w.worker.Top? || w.worker.Parked?)
    modifies w
    ensures Run(old(w.View()), steps) == Some(w.View()) && Inv(w.View())
    ensures if ended then w.worker.Finished? else w.worker == Parked(false)
  {
    hide Inv, Run, Apply, Enabled;
    ghost var first := w.View();
    var rest := script;
    steps := [];
    assert Led(first, steps, first) by { Begins(first); }
    while true
      invariant Led(first, steps, w.View()) && (w.worker.Top? || w.worker.Parked?)
      decreases |rest|, |w.queue|, Rank(w.worker)
    {
      rest, steps := LetOthersAct(w, rest, first, steps);
      if w.worker == Parked(false) {
        var spurious := *;
        if rest == [] {
          return false, steps;
        }
        if !spurious { continue; }
      }
      WorkerEnabled(w.View());
      InspectResult(w.View());
      OneMore(first, steps, w.View(), Inspect);
      w.InspectQueue();
      steps := steps + [Inspect];
      if w.worker.FailQueued? {
        steps := FailOwnBatch(w, rest, first, steps);
      } else if w.worker.Dequeued? {
        rest, steps := Serve(w, rest, panics, first, steps);
      }
      if w.worker.Finished? {
        return true, steps;
      }
    }
  }

  lemma Begins(s: State)
    requires Inv(s)
    ensures Led(s, [], s)
  {}
}
