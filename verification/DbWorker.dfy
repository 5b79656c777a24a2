/**
 The bounded database worker (crates/erabi-db/src/worker.rs) as a transition
 system with one step per critical section or take-once effect.

 A call is named by a number and its job by the same number.  The state holds
 what the program holds: the mutex-protected part, the poison flag, the wake-up
 of the parked worker and the batches of queued jobs that terminalizing threads
 are failing outside the lock (`Core`), the envelopes, the phase of every call
 and the semaphore.  `Ledger` and the last three fields of a `Job` only record
 history.
 */
module DbWorker {
  import opened Wrappers

  type CallId = nat

  datatype Lifecycle = Starting | Running | Closing | Closed | Panicked

  datatype Failure = ShuttingDown | WorkerPanicked

  // `Real` stands for whatever the operation of that very job returned.
  datatype Answer = Real | Failed(failure: Failure)

  // A JobEnvelope: three take-once fields, then what happened to the job.
  datatype Job = Job(operation: bool, responder: bool, permit: bool,
                     position: nat, runs: nat, replies: seq<Answer>)

  datatype Actor = WorkerThread | Caller(call: CallId) | Closer(id: nat)

  datatype CallPhase =
    | Waiting                      // in acquire_owned().await
    | Refused                      // the semaphore was closed
    | Holding                      // permit acquired, lock not yet taken
    | Terminalizing(permit: bool)  // found the lock poisoned, failing its batch
    | Awaiting                     // admitted
    | Returned(answer: Answer)
    | Abandoned                    // the future was dropped or unwound

  datatype WorkerPhase =
    | Initializing
    | NotStarted                          // initialization failed, no handle exists
    | Top                                 // about to lock
    | Parked(woken: bool)                 // in Condvar::wait
    | Dequeued(job: CallId)
    | Invoked(job: CallId)                // the operation is running
    | Replied(job: CallId)                // the result was sent, permit still held
    | Unwinding(current: Option<CallId>)  // a panic was caught
    | FailCurrent(current: Option<CallId>)
    | FailQueued                          // failing the batch of WorkerThread
    | Finished(result: Lifecycle)

  datatype Ledger = Ledger(
    admitted: seq<CallId>,  // every push, in order
    served: nat,            // jobs that got a real answer
    lost: nat,              // dequeued jobs whose execution panicked
    drained: nat)           // queued jobs failed by a terminalizing thread

  datatype Core = Core(
    lifecycle: Lifecycle,
    poisoned: bool,
    closed: bool,           // the semaphore
    queue: seq<CallId>,
    worker: WorkerPhase,
    batches: map<Actor, seq<CallId>>,
    owner: Option<Actor>,   // the thread that took a non-empty queue away
    ledger: Ledger)

  datatype State = State(
    capacity: nat,
    free: nat,
    core: Core,
    jobs: map<CallId, Job>,
    calls: map<CallId, CallPhase>)

  datatype Step =
    | Start | StartFails
    | Call(c: CallId) | Acquire(c: CallId) | AcquireClosed(c: CallId)
    | Observe(c: CallId) | Admit(c: CallId)
    | Respond(c: CallId) | Abandon(c: CallId)
    | Shutdown(n: nat)
    | Inspect | Invoke | Return | Release | OperationPanics
    | WorkerPanics(poison: bool) | Transition | FailCurrentJob
    | FailNext(a: Actor) | FinishBatch(a: Actor)
    | Poison | PanicAdmitting(c: CallId, pushed: bool) | PanicClosing

  function Init(capacity: nat): State {
    State(capacity, capacity,
          Core(Starting, false, false, [], Initializing, map[], None, Ledger([], 0, 0, 0)),
          map[], map[])
  }

  function Wake(w: WorkerPhase): WorkerPhase {
    if w.Parked? then Parked(true) else w
  }

  function FailureFor(l: Lifecycle): Failure {
    if l == Panicked then WorkerPanicked else ShuttingDown
  }

  function FreshJob(position: nat): Job {
    Job(true, true, true, position, 0, [])
  }

  /** JobEnvelope::fail */
  function FailedJob(j: Job): Job {
    j.(operation := false, responder := false, permit := false,
       replies := if j.responder then j.replies + [Failed(WorkerPanicked)] else j.replies)
  }

  /** The reply half of JobEnvelope::execute. */
  function AnsweredJob(j: Job): Job {
    j.(responder := false, replies := if j.responder then j.replies + [Real] else j.replies)
  }

  function TakeQueue(s: Core, a: Actor): Core {
    s.(queue := [], batches := s.batches[a := s.queue],
       owner := if s.queue != [] then Some(a) else s.owner)
  }

  /** terminalize_locked: what a thread does to the shared state under the lock. */
  function Terminalize(s: Core, a: Actor): Core {
    TakeQueue(s, a).(lifecycle := Panicked, closed := true, worker := Wake(s.worker))
  }

  function Push(s: Core, c: CallId): Core {
    s.(queue := s.queue + [c], ledger := s.ledger.(admitted := s.ledger.admitted + [c]))
  }

  function CloseAdmission(s: Core): Core {
    s.(lifecycle := if s.lifecycle == Running then Closing else s.lifecycle, closed := true)
  }

  /** begin_shutdown */
  function ShutdownNext(s: Core, n: nat): Core {
    if s.poisoned then Terminalize(s, Closer(n))
    else CloseAdmission(s).(worker := Wake(s.worker))
  }

  /** One pass of worker_loop under the lock, at the top or after a wake-up. */
  function InspectNext(s: Core): Core {
    if s.poisoned then
      Terminalize(s, WorkerThread).(worker := FailQueued)
    else if s.queue != [] then
      s.(queue := s.queue[1..], worker := Dequeued(s.queue[0]))
    else
      match s.lifecycle
      case Running => s.(worker := Parked(false))
      case Starting => s.(worker := Parked(false))
      case Closing => s.(lifecycle := Closed, worker := Finished(Closed))
      case Closed => s.(worker := Finished(Closed))
      case Panicked => TakeQueue(s, WorkerThread).(worker := FailQueued)
  }

  function Lose(s: Core, poison: bool): Core
    requires s.worker.Dequeued? || s.worker.Invoked?
  {
    s.(poisoned := s.poisoned || poison, worker := Unwinding(Some(s.worker.job)),
       ledger := s.ledger.(lost := s.ledger.lost + 1))
  }

  function Unwind(s: Core, poison: bool): Core {
    match s.worker
    case Dequeued(_) => Lose(s, poison)
    case Replied(c) => s.(worker := Unwinding(Some(c)))
    case _ => s.(poisoned := s.poisoned || poison, worker := Unwinding(None))
  }

  function Phased(s: State, c: CallId, p: CallPhase): State {
    s.(calls := s.calls[c := p])
  }

  /** Replaces one envelope; a permit taken out of it goes back to the semaphore. */
  function Update(s: State, c: CallId, j: Job): State
    requires c in s.jobs
  {
    s.(jobs := s.jobs[c := j], free := if s.jobs[c].permit && !j.permit then s.free + 1 else s.free)
  }

  /** The critical section of DbWorkerHandle::call. */
  function AdmitNext(s: State, c: CallId): State {
    if s.core.poisoned then
      Phased(s.(core := Terminalize(s.core, Caller(c))), c, Terminalizing(true))
    else if s.core.lifecycle != Running then
      Phased(s.(free := s.free + 1), c, Returned(Failed(FailureFor(s.core.lifecycle))))
    else
      Phased(s.(core := Push(s.core, c).(worker := Wake(s.core.worker)),
                jobs := s.jobs[c := FreshJob(|s.core.ledger.admitted|)]), c, Awaiting)
  }

  /** observed_failure */
  function ObserveNext(s: State, c: CallId): State {
    if s.core.poisoned then
      Phased(s.(core := Terminalize(s.core, Caller(c))), c, Terminalizing(false))
    else
      Phased(s, c, Returned(Failed(FailureFor(s.core.lifecycle))))
  }

  /** JobEnvelope::execute up to the call of the operation. */
  function InvokeNext(s: State): State
    requires s.core.worker.Dequeued? && s.core.worker.job in s.jobs
  {
    var c := s.core.worker.job;
    var j := s.jobs[c];
    if j.operation then
      Update(s, c, j.(operation := false, runs := j.runs + 1)).(core := s.core.(worker := Invoked(c)))
    else
      s.(core := Lose(s.core, false))
  }

  function ReturnNext(s: State): State
    requires s.core.worker.Invoked? && s.core.worker.job in s.jobs
  {
    var c := s.core.worker.job;
    Update(s, c, AnsweredJob(s.jobs[c])).(
      core := s.core.(worker := Replied(c), ledger := s.core.ledger.(served := s.core.ledger.served + 1)))
  }

  function ReleaseNext(s: State): State
    requires s.core.worker.Replied? && s.core.worker.job in s.jobs
  {
    var c := s.core.worker.job;
    Update(s, c, s.jobs[c].(permit := false)).(core := s.core.(worker := Top))
  }

  /** transition_to_panicked, which does not mind a poisoned lock. */
  function TransitionNext(s: State): State
    requires s.core.worker.Unwinding?
  {
    s.(core := Terminalize(s.core, WorkerThread).(worker := FailCurrent(s.core.worker.current)))
  }

  function FailCurrentNext(s: State): State
    requires s.core.worker.FailCurrent?
    requires s.core.worker.current.Some? ==> s.core.worker.current.value in s.jobs
  {
    match s.core.worker.current
    case None => s.(core := s.core.(worker := FailQueued))
    case Some(c) => Update(s, c, FailedJob(s.jobs[c])).(core := s.core.(worker := FailQueued))
  }

  /** One turn of the loop in fail_jobs. */
  function FailNextJob(s: State, a: Actor): State
    requires a in s.core.batches && s.core.batches[a] != [] && s.core.batches[a][0] in s.jobs
  {
    var b := s.core.batches[a];
    Update(s, b[0], FailedJob(s.jobs[b[0]])).(
      core := s.core.(batches := s.core.batches[a := b[1..]],
                      ledger := s.core.ledger.(drained := s.core.ledger.drained + 1)))
  }

  function FinishNext(s: State, a: Actor): State {
    var t := s.(core := s.core.(batches := s.core.batches - {a}));
    match a
    case WorkerThread => t.(core := t.core.(worker := Finished(Panicked)))
    case Closer(_) => t
    case Caller(c) =>
      Phased(if Phase(s, c, Terminalizing(true)) then t.(free := t.free + 1) else t,
             c, Returned(Failed(WorkerPanicked)))
  }

  predicate Phase(s: State, c: CallId, p: CallPhase) {
    c in s.calls && s.calls[c] == p
  }

  // A handle exists once the worker has published readiness.
  predicate Published(s: State) { s.core.lifecycle != Starting }

  predicate Enabled(s: State, st: Step) {
    var w := s.core.worker;
    match st
    case Start => w.Initializing?
    case StartFails => w.Initializing?
    case Call(c) => Published(s) && c !in s.calls
    case Acquire(c) => Phase(s, c, Waiting) && !s.core.closed && s.free > 0
    case AcquireClosed(c) => Phase(s, c, Waiting) && s.core.closed
    case Observe(c) => Phase(s, c, Refused)
    case Admit(c) => Phase(s, c, Holding)
    case Respond(c) => Phase(s, c, Awaiting) && c in s.jobs && s.jobs[c].replies != []
    case Abandon(c) => Phase(s, c, Waiting) || Phase(s, c, Awaiting)
    case Shutdown(n) => Published(s) && Closer(n) !in s.core.batches
    case Inspect => w.Top? || w.Parked?
    case Invoke => w.Dequeued? && w.job in s.jobs
    case Return => w.Invoked? && w.job in s.jobs
    case OperationPanics => w.Invoked?
    case Release => w.Replied? && w.job in s.jobs
    case WorkerPanics(poison) => w.Top? || w.Parked? || w.Dequeued? || (w.Replied? && !poison)
    case Transition => w.Unwinding?
    case FailCurrentJob => w.FailCurrent? && (w.current.Some? ==> w.current.value in s.jobs)
    case FailNext(a) =>
      && a in s.core.batches && s.core.batches[a] != [] && s.core.batches[a][0] in s.jobs
      && (a == WorkerThread ==> w.FailQueued?)
    case FinishBatch(a) =>
      a in s.core.batches && s.core.batches[a] == [] && (a == WorkerThread ==> w.FailQueued?)
    case Poison => Published(s)
    case PanicAdmitting(c, _) =>
      Phase(s, c, Holding) && !s.core.poisoned && s.core.lifecycle == Running
    case PanicClosing => Published(s) && !s.core.poisoned
  }

  function Apply(s: State, st: Step): State
    requires Enabled(s, st)
  {
    match st
    case Start => s.(core := s.core.(lifecycle := Running, worker := Top))
    case StartFails => s.(core := s.core.(worker := NotStarted))
    case Call(c) => Phased(s, c, Waiting)
    case Acquire(c) => Phased(s.(free := s.free - 1), c, Holding)
    case AcquireClosed(c) => Phased(s, c, Refused)
    case Observe(c) => ObserveNext(s, c)
    case Admit(c) => AdmitNext(s, c)
    case Respond(c) => Phased(s, c, Returned(s.jobs[c].replies[0]))
    case Abandon(c) => Phased(s, c, Abandoned)
    case Shutdown(n) => s.(core := ShutdownNext(s.core, n))
    case Inspect => s.(core := InspectNext(s.core))
    case Invoke => InvokeNext(s)
    case Return => ReturnNext(s)
    case OperationPanics => s.(core := Lose(s.core, false))
    case Release => ReleaseNext(s)
    case WorkerPanics(poison) => s.(core := Unwind(s.core, poison))
    case Transition => TransitionNext(s)
    case FailCurrentJob => FailCurrentNext(s)
    case FailNext(a) => FailNextJob(s, a)
    case FinishBatch(a) => FinishNext(s, a)
    case Poison => s.(core := s.core.(poisoned := true))
    case PanicAdmitting(c, pushed) =>
      if pushed
      then Phased(s.(core := Push(s.core, c).(poisoned := true),
                     jobs := s.jobs[c := FreshJob(|s.core.ledger.admitted|)]), c, Abandoned)
      else Phased(s.(free := s.free + 1, core := s.core.(poisoned := true)), c, Abandoned)
    case PanicClosing => s.(core := CloseAdmission(s.core).(poisoned := true))
  }

  function Run(s: State, steps: seq<Step>): Option<State>
    decreases |steps|
  {
    if steps == [] then Some(s)
    else if Enabled(s, steps[0]) then Run(Apply(s, steps[0]), steps[1..])
    else None
  }
}
