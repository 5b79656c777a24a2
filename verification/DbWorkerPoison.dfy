/**
 What a poisoned lock can and cannot do.  A thread that panics while it holds the
 lock may have changed the shared state without notifying the condvar; that is the
 only way a parked worker misses its wake-up.
 */
module DbWorkerPoison {
  import opened Wrappers
  import opened DbWorker
  import opened DbWorkerInvariant
  import opened DbWorkerSteps
  import opened DbWorkerTheorems

  predicate Idle(s: Core) { s.queue == [] && s.lifecycle == Running }

  // The worker is parked, nobody has notified it, and it has something to do.
  predicate Lost(s: Core) { s.worker == Parked(false) && !Idle(s) }

  /** A panic after the push or the closing and before the notification. */
  predicate Wakeless(st: Step) { (st.PanicAdmitting? && st.pushed) || st.PanicClosing? }

  // ---- One step ----

  /** A wake-up is lost, or stays lost, exactly when the worker is still parked and either it
      was lost before or the step is a wakeless panic under a parked worker. */
  lemma LostStep(s: State, st: Step)
    requires Inv(s) && Enabled(s, st)
    ensures var t := Apply(s, st);
            Lost(t.core) <==> t.core.worker == Parked(false)
                              && (Lost(s.core) || (s.core.worker == Parked(false) && Wakeless(st)))
  {
    hide Held, Jobs, Calls, Permits;
    if CallerStep(st) {
      LostCallerStep(s, st);
      hide Apply, Order, Phases;
    } else {
      LostWorkerStep(s, st);
      hide Apply, Order, Phases;
    }
  }

  lemma LostCallerStep(s: State, st: Step)
    requires Order(s.core) && Phases(s.core) && Enabled(s, st) && CallerStep(st)
    ensures var t := Apply(s, st);
            Lost(t.core) <==> t.core.worker == Parked(false)
                              && (Lost(s.core) || (s.core.worker == Parked(false) && Wakeless(st)))
  {
    hide Order;
  }

  lemma LostWorkerStep(s: State, st: Step)
    requires Order(s.core) && Phases(s.core) && Enabled(s, st) && !CallerStep(st)
    ensures var t := Apply(s, st);
            Lost(t.core) <==> t.core.worker == Parked(false)
                              && (Lost(s.core) || (s.core.worker == Parked(false) && Wakeless(st)))
  {}

  /** From a parked idle worker, the steps that lose the wake-up are exactly the two panics. */
  lemma WakeLostExactlyBy(s: State, st: Step)
    requires Inv(s) && Enabled(s, st) && s.core.worker == Parked(false) && Idle(s.core)
    ensures Lost(Apply(s, st).core) <==> Wakeless(st)
  {
    LostStep(s, st);
    hide Inv;
  }

  // ---- Runs ----

  // The worker is parked and not notified from step `i` on.
  ghost predicate ParkedFrom(first: State, steps: seq<Step>, i: nat)
    requires i <= |steps|
  {
    forall j | i <= j <= |steps| ::
      Run(first, steps[..j]).Some? && Run(first, steps[..j]).value.core.worker == Parked(false)
  }

  /** Some wakeless panic happened under the parked worker, and nothing notified it since. */
  ghost predicate WakeLost(first: State, steps: seq<Step>) {
    exists i | 0 <= i < |steps| :: Wakeless(steps[i]) && ParkedFrom(first, steps, i)
  }

  lemma {:induction false} RunSnoc(s: State, steps: seq<Step>)
    requires steps != [] && Run(s, steps).Some?
    ensures var front, last := steps[..|steps| - 1], steps[|steps| - 1];
            && Run(s, front).Some? && Enabled(Run(s, front).value, last)
            && Run(s, steps).value == Apply(Run(s, front).value, last)
    decreases |steps|
  {
    hide Enabled, Apply;
    var front := steps[..|steps| - 1];
    if |steps| == 1 {
      assert steps[1..] == [];
    } else {
      assert steps[1..][..|steps| - 2] == front[1..];
      RunSnoc(Apply(s, steps[0]), steps[1..]);
    }
  }

  // What one more step does to the history.
  lemma WakeLostSnoc(first: State, steps: seq<Step>)
    requires steps != [] && Run(first, steps).Some?
    ensures var front, last := steps[..|steps| - 1], steps[|steps| - 1];
            && Run(first, front).Some?
            && (WakeLost(first, steps) <==>
                  Run(first, steps).value.core.worker == Parked(false)
                  && (WakeLost(first, front)
                      || (Run(first, front).value.core.worker == Parked(false) && Wakeless(last))))
  {
    hide Enabled, Apply, Run, Wakeless;
    RunSnoc(first, steps);
    var n := |steps| - 1;
    var front := steps[..n];
    assert steps[..n + 1] == steps;
    forall i | 0 <= i <= n
      ensures ParkedFrom(first, steps, i) <==> ParkedFrom(first, front, i) && Run(first, steps).value.core.worker == Parked(false)
    {
      forall j | i <= j <= n ensures front[..j] == steps[..j] {}
    }
    assert front[..n] == front;
    assert ParkedFrom(first, front, n) <==> Run(first, front).value.core.worker == Parked(false);
  }

  lemma {:induction false} LostExactly(first: State, steps: seq<Step>)
    requires Inv(first) && !Lost(first.core) && Run(first, steps).Some?
    ensures Lost(Run(first, steps).value.core) <==> WakeLost(first, steps)
    decreases |steps|
  {
    hide Inv, Enabled, Apply, Lost, WakeLost;
    if steps == [] {
      NothingLost(first);
    } else {
      var front := steps[..|steps| - 1];
      RunSnoc(first, steps);
      WakeLostSnoc(first, steps);
      LostExactly(first, front);
      RunKeepsInv(first, front);
      LostStep(Run(first, front).value, steps[|steps| - 1]);
    }
  }

  lemma NothingLost(first: State)
    ensures !WakeLost(first, [])
  {}

  /** No lost wake-up, exactly: a worker parked with no pending wake has an empty queue and a
      Running lifecycle if and only if no thread panicked, since the worker parked, between
      changing the shared state and notifying.  In particular it has one whenever the lock is
      sound, and after poisoning of any other kind. */
  lemma ParkedMeansIdle(capacity: nat, steps: seq<Step>, s: State)
    requires Reaches(capacity, steps, s) && s.core.worker == Parked(false)
    ensures Idle(s.core) <==> !WakeLost(Init(capacity), steps)
    ensures !s.core.poisoned ==> Idle(s.core)
    ensures (forall st <- steps :: !Wakeless(st)) ==> Idle(s.core)
  {
    hide Inv, Run, Wakeless, WakeLost;
    var first := Init(capacity);
    ReachesInv(capacity, steps, s);
    InitInv(capacity, first);
    LostExactly(first, steps);
    if !s.core.poisoned { SoundParkedIsIdle(s); }
    if forall st <- steps :: !Wakeless(st) { NothingWakeless(first, steps); }
  }

  lemma SoundParkedIsIdle(s: State)
    requires Inv(s) && s.core.worker == Parked(false) && !s.core.poisoned
    ensures Idle(s.core)
  {
    hide Order, Held, Jobs, Calls, Permits;
  }

  lemma NothingWakeless(first: State, steps: seq<Step>)
    requires forall st <- steps :: !Wakeless(st)
    ensures !WakeLost(first, steps)
  {
    hide Wakeless, ParkedFrom;
  }

  /** Such a run exists: a caller pushed its job and panicked before it notified, and the
      parked worker does not know. */
  lemma WakeUpLost()
    ensures exists steps, s :: Reaches(1, steps, s) && s.core.worker == Parked(false)
              && s.core.queue == [0] && s.core.lifecycle == Running
  {
    var a, b := ParkedRun();
    var st := PanicAdmitting(0, true);
    var t := Apply(b, st);
    assert [st][1..] == [];
    assert Run(b, [st]) == Some(t);
    hide Apply, Enabled;
    Unrolls(Init(1), a, [st], b);
    assert Reaches(1, a + [st], t);
  }

  // The worker parked and then call 0 acquired a permit.
  lemma ParkedRun() returns (steps: seq<Step>, s: State)
    ensures Reaches(1, steps, s)
    ensures Phase(s, 0, Holding) && !s.core.poisoned && s.core.lifecycle == Running
    ensures s.core.worker == Parked(false) && s.core.queue == []
  {
    hide Run;
    steps := [Start, Inspect, Call(0), Acquire(0)];
    var s1 := Apply(Init(1), Start);
    var s2 := Apply(s1, Inspect);
    var s3 := Apply(s2, Call(0));
    s := Apply(s3, Acquire(0));
    FourSteps(Init(1), Start, Inspect, Call(0), Acquire(0), s1, s2, s3, s);
  }

  // ---- The end of the worker ----

  // Only the worker takes the queue away while the lock is sound.
  predicate OnlyWorkerDrains(s: Core) {
    !s.poisoned ==> forall a <- s.batches :: a == WorkerThread
  }

  lemma OnlyWorkerStep(s: State, st: Step)
    requires OnlyWorkerDrains(s.core) && Enabled(s, st)
    ensures OnlyWorkerDrains(Apply(s, st).core)
  {
    if CallerStep(st) { CallersDrainNothing(s, st); } else { OthersDrainNothing(s, st); }
    hide Apply, Enabled, OnlyWorkerDrains;
  }

  lemma CallersDrainNothing(s: State, st: Step)
    requires OnlyWorkerDrains(s.core) && Enabled(s, st) && CallerStep(st)
    ensures OnlyWorkerDrains(Apply(s, st).core)
  {}

  lemma OthersDrainNothing(s: State, st: Step)
    requires OnlyWorkerDrains(s.core) && Enabled(s, st) && !CallerStep(st)
    ensures OnlyWorkerDrains(Apply(s, st).core)
  {}

  lemma {:induction false} OnlyWorkerRun(s: State, steps: seq<Step>)
    requires OnlyWorkerDrains(s.core) && Run(s, steps).Some?
    ensures OnlyWorkerDrains(Run(s, steps).value.core)
    decreases |steps|
  {
    hide OnlyWorkerDrains, Enabled, Apply;
    if steps != [] {
      OnlyWorkerStep(s, steps[0]);
      OnlyWorkerRun(Apply(s, steps[0]), steps[1..]);
    }
  }

  /** While the lock is sound, the end of the worker means that every accepted job has been
      answered: no other thread can be holding a part of the queue. */
  lemma EndedSoundMeansAnswered(capacity: nat, steps: seq<Step>, s: State)
    requires Reaches(capacity, steps, s) && s.core.worker.Finished? && !s.core.poisoned
    ensures AllAnswered(s)
  {
    ReachesInv(capacity, steps, s);
    OnlyWorkerRun(Init(capacity), steps);
    assert Phases(s.core);
    EndedMeansAnswered(capacity, steps, s);
    hide Inv, Run, AllAnswered;
  }
}
