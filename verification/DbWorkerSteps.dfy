/** Every step of the worker system keeps the invariant. */
module DbWorkerSteps {
  import opened Wrappers
  import opened DbWorker
  import opened DbWorkerInvariant

  lemma CallerStepKeeps(s: State, st: Step)
    requires Inv(s) && Enabled(s, st)
    requires st.Call? || st.Acquire? || st.AcquireClosed? || st.Respond? || st.Abandon?
    ensures Inv(Apply(s, st))
  {
    hide CoreInv, Positions;
    var t := Apply(s, st);
    PhaseKeepsPermits(s, st.c, t.calls[st.c], t.free);
    if st.Respond? {
      assert JobOk(s.jobs[st.c], s.core.ledger, CoreGrip(s.core));
    }
    PhaseKeepsCalls(s.calls, s.jobs, s.core.batches.Keys, st.c, t.calls[st.c], s.core.batches.Keys);
  }

  // A caller finds the lock poisoned and takes the queue away.
  lemma PoisonFoundKeeps(s: State, c: CallId, p: CallPhase)
    requires Inv(s) && s.core.poisoned
    requires Phase(s, c, Holding) || Phase(s, c, Refused)
    requires p == Terminalizing(HoldsPermit(s.calls[c]))
    ensures Inv(Phased(s.(core := Terminalize(s.core, Caller(c))), c, p))
  {
    hide Order, Held, Jobs, Permits;
    var t := Terminalize(s.core, Caller(c));
    TerminalizeKeepsCore(s.core, Caller(c));
    PhaseKeepsPermits(s, c, p, s.free);
    assert t.batches.Keys == s.core.batches.Keys + {Caller(c)};
    PhaseKeepsCalls(s.calls, s.jobs, s.core.batches.Keys, c, p, t.batches.Keys);
  }

  // A job is pushed; `core` says how the critical section ended.
  lemma PushedKeeps(s: State, c: CallId, core: Core, p: CallPhase)
    requires Inv(s) && Phase(s, c, Holding) && s.core.lifecycle == Running
    requires p == Awaiting || p == Abandoned
    requires core == Push(s.core, c).(worker := Wake(s.core.worker)) || core == Push(s.core, c).(poisoned := true)
    ensures Inv(State(s.capacity, s.free, core, s.jobs[c := FreshJob(|s.core.ledger.admitted|)], s.calls[c := p]))
  {
    hide Held, Phases, Jobs;
    var j := FreshJob(|s.core.ledger.admitted|);
    PushKeepsCore(s.core, c);
    PoisonedPushKeepsCore(s.core, c);
    PushKeepsJobs(s.jobs, s.core.ledger, CoreGrip(s.core), c);
    CountPermitJobs(s.jobs, c, j);
    CountHolders(s.calls, c, p);
    PhaseKeepsCalls(s.calls, s.jobs, s.core.batches.Keys, c, Abandoned, s.core.batches.Keys);
  }

  lemma AdmitKeeps(s: State, c: CallId)
    requires Inv(s) && Phase(s, c, Holding)
    ensures Inv(AdmitNext(s, c))
  {
    hide CoreInv, Jobs, Permits;
    var t := AdmitNext(s, c);
    if s.core.poisoned {
      PoisonFoundKeeps(s, c, t.calls[c]);
    } else if s.core.lifecycle == Running {
      PushedKeeps(s, c, t.core, Awaiting);
    } else {
      PhaseKeepsPermits(s, c, t.calls[c], t.free);
      PhaseKeepsCalls(s.calls, s.jobs, s.core.batches.Keys, c, t.calls[c], s.core.batches.Keys);
    }
  }

  lemma PanicAdmittingKeeps(s: State, c: CallId, pushed: bool)
    requires Inv(s) && Enabled(s, PanicAdmitting(c, pushed))
    ensures Inv(Apply(s, PanicAdmitting(c, pushed)))
  {
    hide Order, Held, Jobs, Permits;
    var t := Apply(s, PanicAdmitting(c, pushed));
    if pushed {
      PushedKeeps(s, c, t.core, Abandoned);
    } else {
      PhaseKeepsPermits(s, c, Abandoned, t.free);
      PhaseKeepsCalls(s.calls, s.jobs, s.core.batches.Keys, c, Abandoned, s.core.batches.Keys);
      PoisonKeepsCore(s.core);
    }
  }

  lemma ObserveKeeps(s: State, c: CallId)
    requires Inv(s) && Phase(s, c, Refused)
    ensures Inv(ObserveNext(s, c))
  {
    hide CoreInv, Jobs, Permits;
    var t := ObserveNext(s, c);
    if s.core.poisoned {
      PoisonFoundKeeps(s, c, t.calls[c]);
    } else {
      PhaseKeepsPermits(s, c, t.calls[c], t.free);
      PhaseKeepsCalls(s.calls, s.jobs, s.core.batches.Keys, c, t.calls[c], s.core.batches.Keys);
    }
  }

  lemma ClosingKeeps(s: State, st: Step)
    requires Inv(s) && Enabled(s, st) && (st.Shutdown? || st.Poison? || st.PanicClosing?)
    ensures Inv(Apply(s, st))
  {
    hide CoreInv, Jobs, Permits;
    CloseKeepsCore(s.core);
    PoisonKeepsCore(s.core);
    if st.Shutdown? && s.core.poisoned {
      TerminalizeKeepsCore(s.core, Closer(st.n));
      KeysKeepCalls(s.calls, s.jobs, s.core.batches.Keys, Apply(s, st).core.batches.Keys, Closer(st.n));
    }
  }

  lemma QueueMeansSound(s: Core)
    requires Order(s) && s.queue != []
    ensures s.ledger.drained == 0
  {}

  lemma InspectKeeps(s: State)
    requires Inv(s) && Enabled(s, Inspect)
    ensures Inv(Apply(s, Inspect))
  {
    hide Held, Phases, Jobs, Permits, Order;
    var t := InspectNext(s.core);
    InspectKeepsCore(s.core);
    KeysKeepCalls(s.calls, s.jobs, s.core.batches.Keys, t.batches.Keys, WorkerThread);
    if !s.core.poisoned && s.core.queue != [] {
      QueueMeansSound(s.core);
      DequeueKeepsJobs(s.jobs, s.core.ledger);
    }
  }

  lemma EnvelopeKeeps(s: State, c: CallId, j: Job, core: Core)
    requires Inv(s) && c in s.jobs && (j.permit ==> s.jobs[c].permit)
    requires j.replies == s.jobs[c].replies || s.jobs[c].replies == []
    requires CoreInv(core) && Jobs(s.jobs[c := j], core.ledger, CoreGrip(core))
    requires core.batches.Keys == s.core.batches.Keys
    ensures Inv(Update(s, c, j).(core := core))
  {
    hide CoreInv, Jobs, Permits, Calls;
    UpdateKeepsRest(s, c, j);
  }

  lemma InvokeKeeps(s: State)
    requires Inv(s) && Enabled(s, Invoke)
    ensures Inv(InvokeNext(s))
  {
    hide Order, Phases, Jobs, Calls, Permits;
    var c := s.core.worker.job;
    InvokeKeepsCore(s.core);
    InvokeKeepsJobs(s.jobs, s.core.ledger, c);
    EnvelopeKeeps(s, c, InvokeNext(s).jobs[c], InvokeNext(s).core);
  }

  lemma ReturnKeeps(s: State)
    requires Inv(s) && Enabled(s, Return)
    ensures Inv(ReturnNext(s))
  {
    hide Order, Phases, Jobs, Calls, Permits;
    var c := s.core.worker.job;
    ReturnKeepsCore(s.core);
    ReturnKeepsJobs(s.jobs, s.core.ledger, c);
    EnvelopeKeeps(s, c, AnsweredJob(s.jobs[c]), ReturnNext(s).core);
  }

  lemma ReleaseKeeps(s: State)
    requires Inv(s) && Enabled(s, Release)
    ensures Inv(ReleaseNext(s))
  {
    hide Order, Phases, Jobs, Calls, Permits;
    var c := s.core.worker.job;
    ReleaseKeepsCore(s.core);
    ReleaseKeepsJobs(s.jobs, s.core.ledger, c);
    EnvelopeKeeps(s, c, s.jobs[c].(permit := false), ReleaseNext(s).core);
  }

  lemma PanicKeeps(s: State, st: Step)
    requires Inv(s) && Enabled(s, st) && (st.OperationPanics? || st.WorkerPanics?)
    ensures Inv(Apply(s, st))
  {
    hide Order, Phases, Jobs, Calls, Permits;
    if st.OperationPanics? {
      LoseKeepsCore(s.core, false);
    } else {
      UnwindKeepsCore(s.core, st.poison);
    }
    if s.core.worker.Dequeued? || s.core.worker.Invoked? {
      LoseKeepsJobs(s.jobs, s.core.ledger, CoreGrip(s.core));
    }
  }

  lemma TransitionKeeps(s: State)
    requires Inv(s) && Enabled(s, Transition)
    ensures Inv(TransitionNext(s))
  {
    hide CoreInv, Jobs, Permits;
    TransitionKeepsCore(s.core);
    KeysKeepCalls(s.calls, s.jobs, s.core.batches.Keys, TransitionNext(s).core.batches.Keys, WorkerThread);
  }

  lemma FailCurrentKeeps(s: State)
    requires Inv(s) && Enabled(s, FailCurrentJob)
    ensures Inv(FailCurrentNext(s))
  {
    hide Order, Phases, Jobs, Calls, Permits;
    FailCurrentKeepsCore(s.core);
    if s.core.worker.current.Some? {
      var c := s.core.worker.current.value;
      if s.core.ledger.lost == 0 {
        FailSentKeepsJobs(s.jobs, s.core.ledger, c);
      } else {
        FailBrokenKeepsJobs(s.jobs, s.core.ledger, c);
      }
      EnvelopeKeeps(s, c, FailedJob(s.jobs[c]), FailCurrentNext(s).core);
    }
  }

  lemma FailNextKeeps(s: State, a: Actor)
    requires Inv(s) && Enabled(s, FailNext(a))
    ensures Inv(FailNextJob(s, a))
  {
    hide Order, Held, Phases, Jobs, Calls, Permits;
    var c := s.core.batches[a][0];
    FailNextKeepsCore(s.core, a);
    DrainKeepsJobs(s.jobs, s.core.ledger, CoreGrip(s.core), c);
    assert FailNextJob(s, a).core.batches.Keys == s.core.batches.Keys;
    EnvelopeKeeps(s, c, FailedJob(s.jobs[c]), FailNextJob(s, a).core);
  }

  lemma FinishKeeps(s: State, a: Actor)
    requires Inv(s) && Enabled(s, FinishBatch(a))
    ensures Inv(FinishNext(s, a))
  {
    hide CoreInv, Jobs, Permits;
    var t := FinishNext(s, a);
    FinishKeepsCore(s.core, a);
    assert t.core.batches.Keys == s.core.batches.Keys - {a};
    if a.Caller? {
      PhaseKeepsPermits(s, a.call, t.calls[a.call], t.free);
      PhaseKeepsCalls(s.calls, s.jobs, s.core.batches.Keys, a.call, t.calls[a.call], t.core.batches.Keys);
    } else {
      KeysKeepCalls(s.calls, s.jobs, s.core.batches.Keys, t.core.batches.Keys, a);
    }
  }

  lemma StartKeeps(s: State, t: State)
    requires Inv(s) && s.core.worker.Initializing?
    requires t == s.(core := s.core.(lifecycle := Running, worker := Top)) || t == s.(core := s.core.(worker := NotStarted))
    ensures Inv(t)
  {
    hide Order, Held, Phases, Jobs, Calls, Permits;
    StartKeepsCore(s.core);
    FailedStartKeepsCore(s.core);
  }

  lemma StepKeepsInv(s: State, st: Step)
    requires Inv(s) && Enabled(s, st)
    ensures Inv(Apply(s, st))
  {
    hide Inv;
    match st
    case Start => StartKeeps(s, Apply(s, st));
    case StartFails => StartKeeps(s, Apply(s, st));
    case Observe(c) => ObserveKeeps(s, c);
    case Admit(c) => AdmitKeeps(s, c);
    case Shutdown(_) => ClosingKeeps(s, st);
    case Poison => ClosingKeeps(s, st);
    case PanicClosing => ClosingKeeps(s, st);
    case Inspect => InspectKeeps(s);
    case Invoke => InvokeKeeps(s);
    case Return => ReturnKeeps(s);
    case Release => ReleaseKeeps(s);
    case OperationPanics => PanicKeeps(s, st);
    case WorkerPanics(_) => PanicKeeps(s, st);
    case Transition => TransitionKeeps(s);
    case FailCurrentJob => FailCurrentKeeps(s);
    case FailNext(a) => FailNextKeeps(s, a);
    case FinishBatch(a) => FinishKeeps(s, a);
    case PanicAdmitting(c, pushed) => PanicAdmittingKeeps(s, c, pushed);
    case _ => CallerStepKeeps(s, st);
  }

  lemma InitInv(capacity: nat, s: State)
    requires s == Init(capacity)
    ensures Inv(s)
  {
    hide Jobs;
    assert Holders(s.calls) == {} && PermitJobs(s.jobs) == {};
    assert Jobs(map[], Ledger([], 0, 0, 0), Nothing) by { NoJobs(); }
  }

  lemma NoJobs()
    ensures Jobs(map[], Ledger([], 0, 0, 0), Nothing)
  {}

  /** The invariant holds at the end of every run. */
  lemma {:induction false} RunKeepsInv(s: State, steps: seq<Step>)
    requires Inv(s) && Run(s, steps).Some?
    ensures Inv(Run(s, steps).value)
    decreases |steps|
  {
    hide Inv, Enabled, Apply;
    if steps != [] {
      StepKeepsInv(s, steps[0]);
      RunKeepsInv(Apply(s, steps[0]), steps[1..]);
    }
  }
}
