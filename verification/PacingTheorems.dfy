/** What pacing guarantees over every run, across registrations, retirement and re-creation. */
module PacingTheorems {
  import opened Wrappers
  import opened Pacing
  import opened PacingSystem
  import opened PacingInvariant
  import opened PacingSteps

  ghost predicate ReachesState(capacity: nat, horizon: Time, steps: seq<Step>, s: State) {
    Run(Init(capacity, horizon), steps) == Some(s)
  }

  lemma ReachesInv(capacity: nat, horizon: Time, steps: seq<Step>, s: State)
    requires ReachesState(capacity, horizon, steps, s)
    ensures Inv(s)
  {
    InitInv(capacity, horizon);
    RunKeepsInv(Init(capacity, horizon), steps);
  }

  // ---- Timing ----

  /** Two grants at one origin, whatever happened to its state in between, are apart by at least the
      delay that the earlier one's registration asked for, and by at least its robots delay. */
  lemma GrantsAreSpaced(capacity: nat, horizon: Time, steps: seq<Step>, s: State, i: nat, k: nat)
    requires ReachesState(capacity, horizon, steps, s) && i < k < |s.history|
    requires s.history[i].Granted? && s.history[k].Granted? && s.history[i].origin == s.history[k].origin
    ensures s.history[i].time + s.history[i].configured <= s.history[k].time
    ensures s.history[i].robots.Some? ==> s.history[i].time + s.history[i].robots.value <= s.history[k].time
  {
    ReachesInv(capacity, horizon, steps, s);
    hide Counts, Linked, LockOk, Ids, Floors;
    assert FloorOf(s.history[i]) <= s.history[k].time;
  }

  /** After a recorded rate limit no grant comes before its backoff and its retry time are over. */
  lemma RateLimitIsHonored(capacity: nat, horizon: Time, steps: seq<Step>, s: State, i: nat, k: nat)
    requires ReachesState(capacity, horizon, steps, s) && i < k < |s.history|
    requires s.history[i].Limited? && s.history[k].Granted? && s.history[i].origin == s.history[k].origin
    ensures s.history[i].time + s.history[i].backoff <= s.history[k].time
    ensures s.history[i].retryAfter.Some? ==> s.history[i].time + s.history[i].retryAfter.value <= s.history[k].time
  {
    ReachesInv(capacity, horizon, steps, s);
    hide Counts, Linked, LockOk, Ids, Floors;
    assert FloorOf(s.history[i]) <= s.history[k].time;
  }

  // ---- Identity ----

  ghost predicate Current(s: State, x: ObjectId) {
    x in s.objects && s.objects[x].origin in s.states && s.states[s.objects[x].origin] == x
  }

  /** Every live registration, waiter and permit refers to the state object the registry now
      maps for its origin, and the registry never exceeds its capacity. */
  lemma HandlesAreCurrent(capacity: nat, horizon: Time, steps: seq<Step>, s: State)
    requires ReachesState(capacity, horizon, steps, s)
    ensures forall id <- s.handles.registrations :: Current(s, s.handles.registrations[id].obj)
    ensures forall w <- s.handles.waiters :: Current(s, s.handles.waiters[w].obj)
    ensures forall p <- s.handles.permits :: Current(s, s.handles.permits[p].obj)
    ensures |s.states| <= capacity
  {
    ReachesInv(capacity, horizon, steps, s);
    RunKeepsCapacity(Init(capacity, horizon), steps);
    hide Counts, LockOk, Ids, Floors, Spaced, Past;
    forall id <- s.handles.registrations ensures Current(s, s.handles.registrations[id].obj) {
      RegistrationCounted(s.objects, s.handles, id);
    }
    forall w <- s.handles.waiters ensures Current(s, s.handles.waiters[w].obj) {
      WaiterCounted(s.objects, s.handles, w);
    }
    forall p <- s.handles.permits ensures Current(s, s.handles.permits[p].obj) {
      PermitCounted(s.objects, s.handles, p);
    }
  }

  lemma ApplyKeepsCapacity(s: State, st: Step)
    requires Enabled(s, st)
    ensures Apply(s, st).capacity == s.capacity && Apply(s, st).horizon == s.horizon
    ensures s.issued <= Apply(s, st).issued
  {
    hide Normalize, AdmitNext, RecordNext, Prune, HandlesAfter;
  }

  lemma {:induction false} RunKeepsCapacity(s: State, steps: seq<Step>)
    requires Run(s, steps).Some?
    ensures Run(s, steps).value.capacity == s.capacity
    decreases |steps|
  {
    hide Enabled, Apply;
    if steps != [] {
      ApplyKeepsCapacity(s, steps[0]);
      RunKeepsCapacity(Apply(s, steps[0]), steps[1..]);
    }
  }

  /** Registration ids are handed out in strictly increasing order, so none is ever reused. */
  lemma IdsNeverReused(capacity: nat, horizon: Time, steps: seq<Step>, s: State, i: nat, k: nat)
    requires ReachesState(capacity, horizon, steps, s) && i < k < |s.issued|
    ensures 1 <= s.issued[i] < s.issued[k] <= U64_MAX
    ensures forall id <- s.handles.registrations :: id in s.issued
  {
    ReachesInv(capacity, horizon, steps, s);
    hide Counts, Linked, LockOk, Floors, Spaced, Past;
    assert s.issued[i] in s.issued && s.issued[k] in s.issued;
  }

  // ---- Counters ----

  /** in_flight is the number of live permits plus the admissions that overflowed the clock,
      and waiting_admissions is the number of live waiter guards. */
  lemma CountersAreExact(capacity: nat, horizon: Time, steps: seq<Step>, s: State, x: ObjectId)
    requires ReachesState(capacity, horizon, steps, s) && x in s.objects
    ensures s.objects[x].pacing.inFlight == |PermitsOn(s.handles.permits, x)| + s.handles.leaks[x]
    ensures s.objects[x].pacing.waiting == |WaitersOn(s.handles.waiters, x)|
    ensures s.objects[x].pacing.inFlight == |PermitsOn(s.handles.permits, x)| <==> x !in s.handles.leaks
  {
    ReachesInv(capacity, horizon, steps, s);
    hide Linked, LockOk, Ids, Floors, Spaced, Past;
    assert CountsAt(s.objects[x].pacing, x, s.handles);
  }

  // An attempt is granted room by every registration and every deadline, but the clock
  // cannot represent its next request time.
  predicate Overflows(s: State, w: HandleId)
    requires w in s.handles.waiters && s.handles.waiters[w].obj in s.objects
  {
    var g := s.handles.waiters[w];
    var p := s.objects[g.obj].pacing;
    && p.registrations != map[] && HasRoom(p) && AllPassed(p, s.now)
    && s.now + g.Delay() > s.horizon
  }

  /** A step leaks an admission if and only if it is an attempt that overflows the clock. */
  lemma LeaksExactlyOnOverflow(s: State, st: Step)
    requires Enabled(s, st)
    ensures Apply(s, st).handles.leaks != s.handles.leaks <==> st.TryAcquire? && Overflows(s, st.w)
  {
    hide Normalize, AdmitNext, RecordNext, Prune;
    if st.TryAcquire? && Overflows(s, st.w) {
      assert Apply(s, st).handles.leaks[s.handles.waiters[st.w].obj] == s.handles.leaks[s.handles.waiters[st.w].obj] + 1;
    }
  }

  /** Every grant fits under the bound of every registration live at that instant: nothing
      is granted until in_flight has fallen below the strictest of them. */
  lemma GrantFitsEveryRegistration(s: State, w: HandleId, p: HandleId, id: RegistrationId)
    requires Inv(s) && w in s.handles.waiters && s.handles.waiters[w].obj in s.objects
    requires p !in s.handles.permits && p in TryAcquireNext(s, w, p).handles.permits
    requires id in s.handles.registrations && s.handles.registrations[id].obj == s.handles.waiters[w].obj
    ensures var x := s.handles.waiters[w].obj;
            && s.objects[x].pacing.inFlight < s.handles.registrations[id].concurrency
            && TryAcquireNext(s, w, p).objects[x].pacing.inFlight <= s.handles.registrations[id].concurrency
  {
    hide Counts, Linked, LockOk, Ids, Floors, Spaced, Past, AllPassed, AttemptOf, AdmitNext;
    var x := s.handles.waiters[w].obj;
    AdmitFrame(s.objects[x].pacing, s.now, s.handles.waiters[w].Delay(), s.horizon);
    RegistrationBound(s.objects, s.handles, id);
  }

  lemma RegistrationBound(objects: map<ObjectId, Object>, h: Handles, id: RegistrationId)
    requires Counts(objects, h) && id in h.registrations
    ensures var x := h.registrations[id].obj;
            && x in objects && id in objects[x].pacing.registrations
            && objects[x].pacing.registrations[id] == h.registrations[id].concurrency
  {
    var x := h.registrations[id].obj;
    assert CountsAt(objects[x].pacing, x, h);
    assert id in RegistrationsOn(h.registrations, x);
  }

  // ---- Capacity ----

  /** A new origin is refused for capacity exactly when the registry is full and every state
      in it was found protected; otherwise at most the least removable origin leaves. */
  lemma RefusedExactlyWhenProtected(s: State, made: ObjectId)
    requires Inv(s) && Enabled(s, CommitRegister(made))
    ensures var t := Apply(s, CommitRegister(made));
            var r, o := s.lock.removable, s.lock.request.origin;
            && (o !in t.states <==> |s.states| == s.capacity && r == [])
            && (|s.states| == s.capacity ==> forall k <- s.states :: k in s.lock.scanned)
            && t.states == (if o !in t.states then s.states
                            else if |s.states| < s.capacity then s.states[o := made]
                            else (s.states - {r[0]})[o := made])
  {
    hide Counts, Linked, Ids, Floors, Spaced, Past, Prune, SafeToRetire;
    var r := s.lock.removable;
    assert r + s.lock.todo == r;
    PruneOne(s.states, r, s.capacity);
    if |s.states| == s.capacity && r != [] {
      assert (s.states - {r[0]}).Keys == s.states.Keys - {r[0]};
      assert |s.states - {r[0]}| == |(s.states - {r[0]}).Keys| == |s.states.Keys| - 1;
    }
  }

  /** A scanned origin is removable exactly when it has no registration, permit, waiter or
      deadline after the instant the caller sampled, and the least removable key comes first. */
  lemma ScanMeaning(s: State)
    requires Inv(s) && Enabled(s, ScanOne)
    ensures var o := s.lock.todo[0];
            var p := s.objects[s.states[o]].pacing;
            o in ScanNext(s).lock.removable <==>
              !Busy(p) && AllPassed(p, s.lock.request.sampled)
    ensures Ascending(ScanNext(s).lock.removable)
  {
    hide Counts, Bounds, Linked, Ids, Floors, Spaced, Past, Reaches;
    var l := s.lock;
    forall i | 0 <= i < |l.removable| ensures l.removable[i] < l.todo[0] {
      assert (l.removable + l.todo)[i] < (l.removable + l.todo)[|l.removable|];
    }
    forall i, k | 0 <= i < k < |l.removable| ensures l.removable[i] < l.removable[k] {
      assert (l.removable + l.todo)[i] < (l.removable + l.todo)[k];
    }
    hide LockOk;
  }

  // ---- Overflow ----

  /** The counter is not the number of live permits in every run: an attempt whose next request
      time overflows the clock fails, and leaves the counter up with no permit to release it. */
  lemma OverflowLeaks()
    ensures exists steps, s, x :: ReachesState(1, 100, steps, s) && x in s.objects
              && s.objects[x].pacing.inFlight == 1 && PermitsOn(s.handles.permits, x) == {}
  {
    hide Enabled, Apply;
    var first, s := RegisteredRun();
    var second, t := OverflownRun(s);
    Unrolls(Init(1, 100), first, second, s);
    assert ReachesState(1, 100, first + second, t);
  }

  lemma RegisteredRun() returns (steps: seq<Step>, s: State)
    ensures ReachesState(1, 100, steps, s)
    ensures 0 in s.objects && s.objects[0].pacing == FreshOrigin.(registrations := map[1 := 1])
    ensures s.handles.registrations == map[1 := PacingSystem.Registration(0, 1, 0)]
    ensures s.handles.waiters == map[] && s.handles.permits == map[] && s.now == 0 && s.horizon == 100
  {
    var r := Request(7, 1, 0, 0);
    steps := [BeginRegister(r, []), CommitRegister(0), Attach];
    var s1 := Apply(Init(1, 100), BeginRegister(r, []));
    var s2 := Apply(s1, CommitRegister(0));
    s := Apply(s2, Attach);
    assert steps[1..][1..] == [Attach];
    assert Run(s2, [Attach]) == Some(s);
  }

  lemma OverflownRun(s: State) returns (steps: seq<Step>, t: State)
    requires 0 in s.objects && s.objects[0].pacing == FreshOrigin.(registrations := map[1 := 1])
    requires s.handles.registrations == map[1 := PacingSystem.Registration(0, 1, 0)]
    requires s.handles.waiters == map[] && s.handles.permits == map[] && s.now == 0 && s.horizon == 100
    ensures Run(s, steps) == Some(t)
    ensures 0 in t.objects && t.objects[0].pacing.inFlight == 1 && PermitsOn(t.handles.permits, 0) == {}
  {
    steps := [StartAcquire(0, 1, Some(200)), TryAcquire(0, 0)];
    var u := Apply(s, StartAcquire(0, 1, Some(200)));
    t := Apply(u, TryAcquire(0, 0));
    assert steps[1..] == [TryAcquire(0, 0)];
    assert Run(u, [TryAcquire(0, 0)]) == Some(t);
  }

  lemma {:induction false} Unrolls(s: State, first: seq<Step>, rest: seq<Step>, t: State)
    requires Run(s, first) == Some(t)
    ensures Run(s, first + rest) == Run(t, rest)
    decreases |first|
  {
    hide Enabled, Apply;
    if first == [] {
      assert first + rest == rest;
    } else {
      assert (first + rest)[1..] == first[1..] + rest;
      Unrolls(Apply(s, first[0]), first[1..], rest, t);
    }
  }

  lemma LeaksGrow(s: State, st: Step)
    requires Enabled(s, st)
    ensures s.handles.leaks <= Apply(s, st).handles.leaks
  {
    hide Normalize, AdmitNext, RecordNext, Prune;
  }

  /** A leaked admission pins its origin: that state object is never retired again. */
  lemma {:induction false} LeakPinsOrigin(s: State, steps: seq<Step>, x: ObjectId)
    requires Inv(s) && x in s.handles.leaks && Run(s, steps).Some?
    ensures Current(Run(s, steps).value, x) && Run(s, steps).value.objects[x].pacing.inFlight > 0
    decreases |steps|
  {
    if steps == [] {
      LeakedIsCurrent(s, x);
    } else {
      hide Inv, Enabled, Apply, Current;
      StepKeepsInv(s, steps[0]);
      LeaksGrow(s, steps[0]);
      LeakPinsOrigin(Apply(s, steps[0]), steps[1..], x);
    }
  }

  lemma LeakedIsCurrent(s: State, x: ObjectId)
    requires Inv(s) && x in s.handles.leaks
    ensures Current(s, x) && s.objects[x].pacing.inFlight > 0
  {
    hide LockOk, Ids, Floors, Spaced, Past;
    assert CountsAt(s.objects[x].pacing, x, s.handles);
  }

  // ---- Outcomes and deadline bounds ----

  /** A permit contributes at most one outcome. */
  lemma SecondOutcomeIgnored(s: State, p: HandleId, first: Outcome, second: Outcome, t1: Time, t2: Time)
    requires p in s.handles.permits && s.handles.permits[p].obj in s.objects
    ensures var once := RecordOnce(s, p, first, t1);
            && p in once.handles.permits && once.handles.permits[p].obj in once.objects
            && RecordOnce(once, p, second, t2) == once
  {
    hide RecordNext;
  }

  // What the public constructors of RetryAfterTiming make.
  ghost predicate Built(r: RetryAfterTiming) { r.Absent? || r.Invalid? || exists d: Duration :: r == FromDuration(d) }

  // Retry times built by their constructors, and robots delays within the bound that robots evaluation enforces.
  ghost predicate Tame(st: Step) {
    match st
    case StartAcquire(_, _, d) => d.Some? ==> d.value <= MAX_PACING_DELAY
    case Record(_, RateLimited(r), _) => Built(r)
    case _ => true
  }

  lemma BuiltIsBounded(r: RetryAfterTiming)
    requires Built(r)
    ensures DelayOf(r).Some? ==> DelayOf(r).value <= MAX_PACING_DELAY
  {}

  predicate Within(p: OriginState, t: Time) {
    && Passed(p.nextRequestAt, t) && Passed(p.backoffUntil, t) && Passed(p.retryAfterUntil, t)
  }

  ghost predicate Near(s: State) {
    && (forall x <- s.objects :: Within(s.objects[x].pacing, s.now + MAX_PACING_DELAY))
    && (forall w <- s.handles.waiters :: s.handles.waiters[w].Delay() <= MAX_PACING_DELAY)
  }

  lemma RecordWithin(p: OriginState, outcome: Outcome, t: Time, horizon: Time, now: Time)
    requires t <= now && Within(p, now + MAX_PACING_DELAY)
    requires outcome.RateLimited? && DelayOf(outcome.retryAfter).Some? ==> DelayOf(outcome.retryAfter).value <= MAX_PACING_DELAY
    ensures Within(RecordNext(p, outcome, t, horizon).0, now + MAX_PACING_DELAY)
  {
    forall k: nat ensures BoundedBackoff(k) <= MAX_PACING_DELAY { BackoffBounds(0, k); }
  }

  lemma AdmitWithin(p: OriginState, now: Time, delay: Duration, horizon: Time)
    requires Within(p, now + MAX_PACING_DELAY) && delay <= MAX_PACING_DELAY
    ensures Within(AdmitNext(p, now, delay, horizon), now + MAX_PACING_DELAY)
  {}

  // One object changed, and a new waiter has a bounded delay.
  lemma NearAfter(s: State, t: State, x: ObjectId)
    requires Near(s) && x in s.objects && x in t.objects && t.now == s.now
    requires t.objects == s.objects[x := t.objects[x]]
    requires Within(t.objects[x].pacing, s.now + MAX_PACING_DELAY)
    requires forall w <- t.handles.waiters :: t.handles.waiters[w].Delay() <= MAX_PACING_DELAY
    ensures Near(t)
  {}

  lemma TryAcquireNear(s: State, w: HandleId, p: HandleId)
    requires Near(s) && w in s.handles.waiters && s.handles.waiters[w].obj in s.objects
    ensures Near(TryAcquireNext(s, w, p))
  {
    hide Within, AdmitNext, AttemptOf;
    var g := s.handles.waiters[w];
    AdmitWithin(s.objects[g.obj].pacing, s.now, g.Delay(), s.horizon);
    NearAfter(s, TryAcquireNext(s, w, p), g.obj);
  }

  lemma RecordNear(s: State, p: HandleId, o: Outcome, t: Time)
    requires Near(s) && p in s.handles.permits && s.handles.permits[p].obj in s.objects
    requires t <= s.now && Tame(Record(p, o, t))
    ensures Near(RecordOnce(s, p, o, t))
  {
    hide Within, RecordNext;
    var x := s.handles.permits[p].obj;
    if o.RateLimited? { BuiltIsBounded(o.retryAfter); }
    RecordWithin(s.objects[x].pacing, o, t, s.horizon, s.now);
    if !s.handles.permits[p].recorded {
      NearAfter(s, RecordOnce(s, p, o, t), x);
    }
  }

  lemma RegistryStepNear(s: State, st: Step)
    requires Near(s) && Enabled(s, st)
    requires st.Tick? || st.BeginRegister? || st.ScanOne? || st.CommitRegister? || st.Attach?
    ensures Near(Apply(s, st))
  {
    hide Prune, InOrder, SafeToRetire;
  }

  // Registrations and counters do not touch a deadline.
  lemma SameDeadlinesNear(s: State, t: State, x: ObjectId)
    requires Near(s) && x in s.objects && x in t.objects && t.now == s.now
    requires t.objects == s.objects[x := t.objects[x]]
    requires var p, q := s.objects[x].pacing, t.objects[x].pacing;
             p.nextRequestAt == q.nextRequestAt && p.backoffUntil == q.backoffUntil && p.retryAfterUntil == q.retryAfterUntil
    requires forall w <- t.handles.waiters :: t.handles.waiters[w].Delay() <= MAX_PACING_DELAY
    ensures Near(t)
  {
    NearAfter(s, t, x);
  }

  lemma DropRegistrationNear(s: State, id: RegistrationId)
    requires Near(s) && id in s.handles.registrations && s.handles.registrations[id].obj in s.objects
    ensures Near(DropRegistrationNext(s, id))
  {
    hide Within;
    SameDeadlinesNear(s, DropRegistrationNext(s, id), s.handles.registrations[id].obj);
  }

  lemma StartAcquireNear(s: State, w: HandleId, id: RegistrationId, d: Option<Duration>)
    requires Near(s) && id in s.handles.registrations && s.handles.registrations[id].obj in s.objects
    requires s.handles.registrations[id].delay <= MAX_PACING_DELAY && (d.Some? ==> d.value <= MAX_PACING_DELAY)
    ensures Near(StartAcquireNext(s, w, id, d))
  {
    hide Within;
    SameDeadlinesNear(s, StartAcquireNext(s, w, id, d), s.handles.registrations[id].obj);
  }

  lemma DropWaiterNear(s: State, w: HandleId)
    requires Near(s) && w in s.handles.waiters && s.handles.waiters[w].obj in s.objects
    ensures Near(DropWaiterNext(s, w))
  {
    hide Within;
    SameDeadlinesNear(s, DropWaiterNext(s, w), s.handles.waiters[w].obj);
  }

  lemma DropPermitNear(s: State, p: HandleId)
    requires Near(s) && p in s.handles.permits && s.handles.permits[p].obj in s.objects
    ensures Near(DropPermitNext(s, p))
  {
    hide Within;
    SameDeadlinesNear(s, DropPermitNext(s, p), s.handles.permits[p].obj);
  }

  lemma NearStep(s: State, st: Step)
    requires Inv(s) && Near(s) && Enabled(s, st) && Tame(st)
    ensures Near(Apply(s, st))
  {
    hide Near, RecordOnce, TryAcquireNext, DropRegistrationNext, StartAcquireNext, DropWaiterNext, DropPermitNext;
    assert Bounds(s);
    hide Inv;
    match st
    case TryAcquire(w, p) => TryAcquireNear(s, w, p);
    case Record(p, o, t) => RecordNear(s, p, o, t);
    case DropRegistration(id) => DropRegistrationNear(s, id);
    case StartAcquire(w, id, d) => StartAcquireNear(s, w, id, d);
    case DropWaiter(w) => DropWaiterNear(s, w);
    case DropPermit(p) => DropPermitNear(s, p);
    case _ => RegistryStepNear(s, st);
  }

  lemma {:induction false} RunStaysNear(s: State, steps: seq<Step>)
    requires Inv(s) && Near(s) && Run(s, steps).Some?
    requires forall st <- steps :: Tame(st)
    ensures Near(Run(s, steps).value)
    decreases |steps|
  {
    hide Inv, Enabled, Apply, Near, Tame;
    if steps != [] {
      NearStep(s, steps[0]);
      StepKeepsInv(s, steps[0]);
      RunStaysNear(Apply(s, steps[0]), steps[1..]);
    }
  }

  /** With retry times built by their constructors, in every run no deadline lies more than five
      minutes ahead. */
  lemma DeadlinesStayNear(capacity: nat, horizon: Time, steps: seq<Step>, s: State)
    requires ReachesState(capacity, horizon, steps, s) && forall st <- steps :: Tame(st)
    ensures forall x <- s.objects :: Within(s.objects[x].pacing, s.now + MAX_PACING_DELAY)
  {
    InitInv(capacity, horizon);
    hide Inv, Tame;
    RunStaysNear(Init(capacity, horizon), steps);
  }
}
