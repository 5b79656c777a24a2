/**
 Where grants come from: every grant in the history is an attempt of an acquisition that
 some registration began, and what spaces it from later grants is what the caller of
 `register` and the robots document asked for.
 */
module PacingProvenance {
  import opened Wrappers
  import opened Pacing
  import opened PacingSystem
  import opened PacingInvariant
  import opened PacingSteps
  import opened PacingTheorems

  // ---- Single steps ----

  /** An acquisition begins with its registration's delay and the robots delay it was given, and
      observes the longer of the two. */
  lemma AcquisitionTakesBoth(s: State, w: HandleId, id: RegistrationId, robots: Option<Duration>)
    requires Enabled(s, StartAcquire(w, id, robots))
    ensures var g := Apply(s, StartAcquire(w, id, robots)).handles.waiters[w];
            var delay := s.handles.registrations[id].delay;
            && g.configured == delay && g.robots == robots && !g.done && g.obj == s.handles.registrations[id].obj
            && delay <= g.Delay() && (robots.Some? ==> robots.value <= g.Delay())
            && (g.Delay() == delay || robots == Some(g.Delay()))
  {}

  /** A registration is attached with the concurrency and the delay that were asked for. */
  lemma AttachmentTakesRequest(s: State)
    requires Enabled(s, Attach)
    ensures var t, r := Apply(s, Attach), s.lock.request;
            t.handles.registrations == s.handles.registrations[s.lock.id := Registration(s.lock.obj, r.concurrency, r.delay)]
            && t.objects[s.lock.obj].pacing.registrations == s.objects[s.lock.obj].pacing.registrations[s.lock.id := r.concurrency]
  {}

  /** A permit appears exactly when a grant is recorded: for the waiter's origin, now, and with the
      delays its acquisition began with. */
  lemma PermitMeansGrant(s: State, st: Step)
    requires Enabled(s, st)
    ensures var t := Apply(s, st);
            && (t.handles.permits.Keys > s.handles.permits.Keys <==>
                  |t.history| > |s.history| && t.history[|t.history| - 1].Granted?)
            && (t.handles.permits.Keys > s.handles.permits.Keys ==>
                  st.TryAcquire? && var g := s.handles.waiters[st.w];
                  && t.handles.permits == s.handles.permits[st.p := Permit(g.obj, false)]
                  && t.history == s.history + [Granted(s.objects[g.obj].origin, s.now, g.configured, g.robots)])
  {
    hide Normalize, AdmitNext, AttemptOf, RecordNext, Prune, SafeToRetire, Valid, InOrder;
    if st.TryAcquire? { assert st.p !in s.handles.permits && st.p in s.handles.permits[st.p := Permit(0, false)]; }
  }

  /** An attempt that has to wait changes no handle; one that is granted or refused settles its
      acquisition, and touches no other. */
  lemma AttemptSettles(s: State, w: HandleId, p: HandleId)
    requires Enabled(s, TryAcquire(w, p))
    ensures var t, g := Apply(s, TryAcquire(w, p)).handles, s.handles.waiters[w];
            var a := AttemptOf(s.objects[g.obj].pacing, s.now, g.Delay(), s.horizon);
            && (a.Wait? ==> t == s.handles)
            && (!a.Wait? ==> t.waiters[w].done && t.waiters == s.handles.waiters[w := t.waiters[w]])
            && t.registrations == s.handles.registrations
  {
    hide AttemptOf, AdmitNext;
  }

  /** An acquisition that is settled makes no further attempt: all that is left of it is its guard. */
  lemma SettledStays(s: State, st: Step, w: HandleId)
    requires Enabled(s, st) && w in s.handles.waiters && s.handles.waiters[w].done
    ensures st.TryAcquire? || st.StartAcquire? ==> st.w != w
    ensures w in Apply(s, st).handles.waiters ==> Apply(s, st).handles.waiters[w] == s.handles.waiters[w]
    ensures w !in Apply(s, st).handles.waiters ==> st == DropWaiter(w)
  {
    hide Normalize, AdmitNext, AttemptOf, RecordNext, Prune, SafeToRetire, Valid, InOrder;
  }

  /** The clock moves when time passes, by as much, and at no other step. */
  lemma OnlyTimePasses(s: State, st: Step)
    requires Enabled(s, st)
    ensures Apply(s, st).now == if st.Tick? then s.now + st.d else s.now
  {
    hide Normalize, AdmitNext, AttemptOf, RecordNext, Prune, SafeToRetire, Valid, InOrder, HandlesAfter;
  }

  /** A first rate limit on a permit whose deadlines the clock can represent is recorded for the
      permit's origin, with a backoff of at least a second and with its retry time; no other outcome
      is. */
  lemma LimitIsRecorded(s: State, p: HandleId, outcome: Outcome, sampled: Time)
    requires Enabled(s, Record(p, outcome, sampled)) && !s.handles.permits[p].recorded
    ensures var t, o := Apply(s, Record(p, outcome, sampled)), s.objects[s.handles.permits[p].obj];
            var backoff := BoundedBackoff(Min(o.pacing.consecutive + 1, U8_MAX));
            && t.handles.permits[p].recorded
            && (!outcome.RateLimited? ==> t.history == s.history)
            && (outcome.RateLimited? && sampled + backoff <= s.horizon
                && (DelayOf(outcome.retryAfter).Some? ==> sampled + DelayOf(outcome.retryAfter).value <= s.horizon) ==>
                  t.history == s.history + [Limited(o.origin, sampled, backoff, DelayOf(outcome.retryAfter))])
  {
    hide BoundedBackoff, DelayOf;
  }

  // ---- Runs ----

  ghost function At(capacity: nat, horizon: Time, steps: seq<Step>, j: nat): Option<State>
    requires j <= |steps|
  {
    Run(Init(capacity, horizon), steps[..j])
  }

  lemma {:induction false} RunLast(s: State, steps: seq<Step>)
    requires steps != [] && Run(s, steps).Some?
    ensures var front, last := steps[..|steps| - 1], steps[|steps| - 1];
            && Run(s, front).Some? && Enabled(Run(s, front).value, last)
            && Run(s, steps).value == Apply(Run(s, front).value, last)
    decreases |steps|
  {
    hide Enabled, Apply;
    var front := steps[..|steps| - 1];
    if |steps| == 1 {
      assert steps[1..] == [];
    } else {
      assert steps[1..][..|steps| - 2] == front[1..];
      RunLast(Apply(s, steps[0]), steps[1..]);
    }
  }

  // Step `j` asked for a registration like this one.
  predicate Asked(steps: seq<Step>, j: nat, origin: Origin, concurrency: nat, delay: Duration) {
    && j < |steps| && steps[j].BeginRegister?
    && steps[j].request.origin == origin && steps[j].request.concurrency == concurrency && steps[j].request.delay == delay
  }

  ghost predicate RequestsKnown(steps: seq<Step>, s: State) {
    && (!s.lock.Idle? ==> Requested(steps, s.lock.request.origin, s.lock.request.concurrency, s.lock.request.delay))
    && (forall id <- s.handles.registrations :: s.handles.registrations[id].obj in s.objects
          && Requested(steps, s.objects[s.handles.registrations[id].obj].origin,
                       s.handles.registrations[id].concurrency, s.handles.registrations[id].delay))
  }

  // The request that the lock holds is that of the call that took it.
  lemma RequestFrame(s: State, st: Step)
    requires Enabled(s, st)
    ensures var l, m := s.lock, Apply(s, st).lock;
            !m.Idle? ==> (if st.BeginRegister? then m.request == st.request else !l.Idle? && m.request == l.request)
  {
    hide Normalize, AdmitNext, AttemptOf, RecordNext, Prune, SafeToRetire, HandlesAfter, Valid, InOrder;
  }

  lemma RegistryOriginFrame(s: State, st: Step)
    requires Enabled(s, st) && OfRegistry(st)
    ensures forall x <- s.objects :: x in Apply(s, st).objects && Apply(s, st).objects[x].origin == s.objects[x].origin
  {
    hide Normalize, Prune, SafeToRetire, Valid, InOrder;
  }

  lemma HandleOriginFrame(s: State, st: Step)
    requires Enabled(s, st) && !OfRegistry(st)
    ensures forall x <- s.objects :: x in Apply(s, st).objects && Apply(s, st).objects[x].origin == s.objects[x].origin
  {
    hide AdmitNext, AttemptOf, RecordNext, HandlesAfter, Valid, InOrder;
  }

  lemma OriginFrame(s: State, st: Step)
    requires Enabled(s, st)
    ensures forall x <- s.objects :: x in Apply(s, st).objects && Apply(s, st).objects[x].origin == s.objects[x].origin
  {
    hide Enabled, Apply, OfRegistry;
    if OfRegistry(st) { RegistryOriginFrame(s, st); } else { HandleOriginFrame(s, st); }
  }

  // Registrations only go, but for the one that is attached.
  lemma RegistrationFrame(s: State, st: Step, id: RegistrationId)
    requires Enabled(s, st) && id in Apply(s, st).handles.registrations
    ensures var r, rs := Apply(s, st).handles.registrations[id], s.handles.registrations;
            (id in rs && r == rs[id])
            || (st.Attach? && r == Registration(s.lock.obj, s.lock.request.concurrency, s.lock.request.delay))
  {
    hide Normalize, AdmitNext, AttemptOf, RecordNext, Prune, SafeToRetire, Valid, InOrder;
  }

  // What the lock is about to attach to is a state of the origin that was asked for.
  lemma LockedOrigin(s: State)
    requires Inv(s) && s.lock.Attaching?
    ensures s.lock.obj in s.objects && s.objects[s.lock.obj].origin == s.lock.request.origin
  {
    hide Counts, Bounds, Ids, Floors, Spaced, Past;
  }

  // Some step asked for a registration like this one.
  ghost predicate Requested(steps: seq<Step>, o: Origin, concurrency: nat, delay: Duration) {
    exists j: nat :: Asked(steps, j, o, concurrency, delay)
  }

  lemma RequestedLonger(steps: seq<Step>, st: Step, o: Origin, c: nat, d: Duration)
    ensures Requested(steps, o, c, d) ==> Requested(steps + [st], o, c, d)
    ensures st.BeginRegister? && st.request.origin == o && st.request.concurrency == c && st.request.delay == d ==>
              Requested(steps + [st], o, c, d)
  {
    if j: nat :| Asked(steps, j, o, c, d) { assert Asked(steps + [st], j, o, c, d); }
    if st.BeginRegister? && st.request.origin == o && st.request.concurrency == c && st.request.delay == d {
      assert Asked(steps + [st], |steps|, o, c, d);
    }
  }

  lemma RegistrationStaysKnown(steps: seq<Step>, s: State, st: Step, id: RegistrationId)
    requires Inv(s) && RequestsKnown(steps, s) && Enabled(s, st) && id in Apply(s, st).handles.registrations
    ensures var t := Apply(s, st); var r := t.handles.registrations[id];
            r.obj in t.objects && Requested(steps + [st], t.objects[r.obj].origin, r.concurrency, r.delay)
  {
    hide Inv, Enabled, Apply, Requested;
    RegistrationFrame(s, st, id);
    OriginFrame(s, st);
    if st.Attach? { AttachIsLocked(s, st); LockedOrigin(s); }
    var r := Apply(s, st).handles.registrations[id];
    if id in s.handles.registrations && r == s.handles.registrations[id] {
      RequestedLonger(steps, st, s.objects[r.obj].origin, r.concurrency, r.delay);
    } else {
      RequestedLonger(steps, st, s.lock.request.origin, r.concurrency, r.delay);
    }
  }

  lemma AttachIsLocked(s: State, st: Step)
    requires Enabled(s, st) && st.Attach?
    ensures s.lock.Attaching?
  {}

  lemma RequestsStayKnown(steps: seq<Step>, s: State, st: Step)
    requires Inv(s) && RequestsKnown(steps, s) && Enabled(s, st)
    ensures RequestsKnown(steps + [st], Apply(s, st))
  {
    RequestFrame(s, st);
    hide Inv, Enabled, Apply, Requested;
    var t := Apply(s, st);
    if !t.lock.Idle? { RequestedLonger(steps, st, t.lock.request.origin, t.lock.request.concurrency, t.lock.request.delay); }
    forall id <- t.handles.registrations
      ensures t.handles.registrations[id].obj in t.objects
      ensures Requested(steps + [st], t.objects[t.handles.registrations[id].obj].origin,
                        t.handles.registrations[id].concurrency, t.handles.registrations[id].delay)
    {
      RegistrationStaysKnown(steps, s, st, id);
    }
  }

  lemma {:induction false} RequestsAreKnown(capacity: nat, horizon: Time, steps: seq<Step>, s: State)
    requires ReachesState(capacity, horizon, steps, s)
    ensures RequestsKnown(steps, s)
    decreases |steps|
  {
    if steps != [] {
      hide RequestsKnown, Enabled, Apply;
      var front, last := steps[..|steps| - 1], steps[|steps| - 1];
      RunLast(Init(capacity, horizon), steps);
      var before := Run(Init(capacity, horizon), front).value;
      RequestsAreKnown(capacity, horizon, front, before);
      ReachesInv(capacity, horizon, front, before);
      RequestsStayKnown(front, before, last);
      assert front + [last] == steps;
    }
  }

  // At step `j` the acquisition of `w` began with these delays, by a registration for `origin`.
  ghost predicate BeganAt(capacity: nat, horizon: Time, steps: seq<Step>, j: nat, w: HandleId, g: Waiter) {
    && j < |steps| && steps[j].StartAcquire? && steps[j].w == w && steps[j].robots == g.robots
    && At(capacity, horizon, steps, j).Some?
    && var t := At(capacity, horizon, steps, j).value;
       && steps[j].id in t.handles.registrations
       && t.handles.registrations[steps[j].id].delay == g.configured && t.handles.registrations[steps[j].id].obj == g.obj
  }

  ghost predicate WaitersKnown(capacity: nat, horizon: Time, steps: seq<Step>, s: State) {
    forall w <- s.handles.waiters :: exists j: nat :: BeganAt(capacity, horizon, steps, j, w, s.handles.waiters[w].(done := false))
  }

  lemma BeganLonger(capacity: nat, horizon: Time, steps: seq<Step>, st: Step, j: nat, w: HandleId, g: Waiter)
    requires BeganAt(capacity, horizon, steps, j, w, g)
    ensures BeganAt(capacity, horizon, steps + [st], j, w, g)
  {
    assert (steps + [st])[..j] == steps[..j];
  }

  // A step leaves a waiter's delays alone, or begins it.
  lemma WaiterFrame(s: State, st: Step, w: HandleId)
    requires Enabled(s, st) && w in Apply(s, st).handles.waiters
    ensures var g := Apply(s, st).handles.waiters[w];
            if st.StartAcquire? && st.w == w then
              var r := s.handles.registrations[st.id]; g == Waiter(r.obj, r.delay, st.robots, false)
            else w in s.handles.waiters && g.(done := false) == s.handles.waiters[w].(done := false)
  {
    hide Normalize, AdmitNext, AttemptOf, RecordNext, Prune, SafeToRetire, Valid, InOrder;
  }

  lemma {:induction false} WaitersAreKnown(capacity: nat, horizon: Time, steps: seq<Step>, s: State)
    requires ReachesState(capacity, horizon, steps, s)
    ensures WaitersKnown(capacity, horizon, steps, s)
    decreases |steps|
  {
    if steps != [] {
      hide Enabled, Apply, BeganAt;
      var front, last := steps[..|steps| - 1], steps[|steps| - 1];
      RunLast(Init(capacity, horizon), steps);
      var before := Run(Init(capacity, horizon), front).value;
      WaitersAreKnown(capacity, horizon, front, before);
      assert front + [last] == steps;
      hide Run, ReachesState;
      forall w <- s.handles.waiters
        ensures exists j: nat :: BeganAt(capacity, horizon, steps, j, w, s.handles.waiters[w].(done := false))
      {
        WaiterFrame(before, last, w);
        if last.StartAcquire? && last.w == w {
          JustBegan(capacity, horizon, front, before, last);
        } else {
          var j: nat :| BeganAt(capacity, horizon, front, j, w, before.handles.waiters[w].(done := false));
          BeganLonger(capacity, horizon, front, last, j, w, before.handles.waiters[w].(done := false));
        }
      }
    }
  }

  lemma JustBegan(capacity: nat, horizon: Time, steps: seq<Step>, s: State, st: Step)
    requires ReachesState(capacity, horizon, steps, s) && Enabled(s, st) && st.StartAcquire?
    ensures var r := s.handles.registrations[st.id];
            BeganAt(capacity, horizon, steps + [st], |steps|, st.w, Waiter(r.obj, r.delay, st.robots, false))
  {
    assert (steps + [st])[..|steps|] == steps;
  }

  // Event `i` of the history is the grant that attempt `m` made.
  ghost predicate GrantedBy(capacity: nat, horizon: Time, steps: seq<Step>, i: nat, m: nat, e: Event) {
    && m < |steps| && steps[m].TryAcquire? && At(capacity, horizon, steps, m).Some?
    && var t := At(capacity, horizon, steps, m).value;
       && |t.history| == i && Enabled(t, steps[m])
       && var g := t.handles.waiters[steps[m].w];
          e == Granted(t.objects[g.obj].origin, t.now, g.configured, g.robots)
  }

  lemma {:induction false} GrantsAreTraced(capacity: nat, horizon: Time, steps: seq<Step>, s: State, i: nat) returns (m: nat)
    requires ReachesState(capacity, horizon, steps, s) && i < |s.history| && s.history[i].Granted?
    ensures GrantedBy(capacity, horizon, steps, i, m, s.history[i])
    decreases |steps|
  {
    if steps == [] {
      assert false;
    }
    var front, last := steps[..|steps| - 1], steps[|steps| - 1];
    RunLast(Init(capacity, horizon), steps);
    var before := Run(Init(capacity, horizon), front).value;
    HistoryFrame(before, last);
    hide Enabled, Apply;
    if i < |before.history| {
      m := GrantsAreTraced(capacity, horizon, front, before, i);
      assert steps[..m] == front[..m];
    } else {
      m := |steps| - 1;
    }
    hide Run;
  }

  lemma HistoryFrame(s: State, st: Step)
    requires Enabled(s, st)
    ensures var h, h' := s.history, Apply(s, st).history;
            && h <= h' && |h'| <= |h| + 1
            && (|h'| > |h| && h'[|h|].Granted? ==>
                  (st.TryAcquire? && var g := s.handles.waiters[st.w];
                   h'[|h|] == Granted(s.objects[g.obj].origin, s.now, g.configured, g.robots)))
  {
    hide Normalize, AdmitNext, AttemptOf, RecordNext, Prune, SafeToRetire, Valid, InOrder;
  }

  /** A grant honors what was asked for: it is an attempt `m` of an acquisition that began at `j` by
      a registration for the grant's origin that was asked for at `l`, and every later grant at the
      origin comes at least the delay asked for at `l` and the robots delay given at `j` after it. */
  lemma GrantsHonorRequests(capacity: nat, horizon: Time, steps: seq<Step>, s: State, i: nat, k: nat)
    returns (l: nat, j: nat, m: nat)
    requires ReachesState(capacity, horizon, steps, s) && i < k < |s.history|
    requires s.history[i].Granted? && s.history[k].Granted? && s.history[i].origin == s.history[k].origin
    ensures l < j < m < |steps| && steps[l].BeginRegister? && steps[j].StartAcquire? && steps[m].TryAcquire?
    ensures steps[m].w == steps[j].w && steps[l].request.origin == s.history[i].origin
    ensures At(capacity, horizon, steps, m).Some? && At(capacity, horizon, steps, m).value.now == s.history[i].time
    ensures s.history[i].time + steps[l].request.delay <= s.history[k].time
    ensures steps[j].robots.Some? ==> s.history[i].time + steps[j].robots.value <= s.history[k].time
  {
    hide Run, Inv;
    GrantsAreSpaced(capacity, horizon, steps, s, i, k);
    m := GrantsAreTraced(capacity, horizon, steps, s, i);
    var t := At(capacity, horizon, steps, m).value;
    var w := steps[m].w;
    var g := t.handles.waiters[w];
    WaitersAreKnown(capacity, horizon, steps[..m], t);
    j :| BeganAt(capacity, horizon, steps[..m], j, w, g.(done := false));
    assert steps[..m][..j] == steps[..j];
    var u := At(capacity, horizon, steps, j).value;
    var r := u.handles.registrations[steps[j].id];
    RequestsAreKnown(capacity, horizon, steps[..j], u);
    assert Requested(steps[..j], u.objects[r.obj].origin, r.concurrency, r.delay);
    l :| Asked(steps[..j], l, u.objects[r.obj].origin, r.concurrency, r.delay);
    OriginStays(capacity, horizon, steps, j, m, r.obj);
  }

  // An object is of one origin for good.
  lemma {:induction false} OriginStays(capacity: nat, horizon: Time, steps: seq<Step>, j: nat, m: nat, x: ObjectId)
    requires j <= m <= |steps| && At(capacity, horizon, steps, j).Some? && At(capacity, horizon, steps, m).Some?
    requires x in At(capacity, horizon, steps, j).value.objects
    ensures x in At(capacity, horizon, steps, m).value.objects
    ensures At(capacity, horizon, steps, m).value.objects[x].origin == At(capacity, horizon, steps, j).value.objects[x].origin
    decreases m - j
  {
    if j < m {
      hide Enabled, Apply, Inv;
      var first := Init(capacity, horizon);
      RunLast(first, steps[..m]);
      assert steps[..m][..m - 1] == steps[..m - 1];
      OriginStays(capacity, horizon, steps, j, m - 1, x);
      var before := At(capacity, horizon, steps, m - 1).value;
      OriginFrame(before, steps[m - 1]);
    }
  }

  // ---- Ids ----

  // The ids given out so far are 1, 2 and so on, and the next one follows until there is none left.
  ghost predicate Numbered(s: State) {
    && |s.issued| <= U64_MAX && (forall i | 0 <= i < |s.issued| :: s.issued[i] == i + 1)
    && s.nextId == (if |s.issued| < U64_MAX then Some(|s.issued| + 1) else None)
  }

  lemma StepKeepsNumbers(s: State, st: Step)
    requires Numbered(s) && Enabled(s, st)
    ensures Numbered(Apply(s, st))
  {
    hide Normalize, AdmitNext, RecordNext, Prune, HandlesAfter, SafeToRetire;
  }

  lemma {:induction false} RunKeepsNumbers(s: State, steps: seq<Step>)
    requires Numbered(s) && Run(s, steps).Some?
    ensures Numbered(Run(s, steps).value)
    decreases |steps|
  {
    hide Enabled, Apply, Numbered;
    if steps != [] {
      StepKeepsNumbers(s, steps[0]);
      RunKeepsNumbers(Apply(s, steps[0]), steps[1..]);
    }
  }

  /** In every run the registration ids are consecutive from 1 on, and they run out only after U64_MAX of them. */
  lemma IdsAreConsecutive(capacity: nat, horizon: Time, steps: seq<Step>, s: State)
    requires ReachesState(capacity, horizon, steps, s)
    ensures forall i | 0 <= i < |s.issued| :: s.issued[i] == i + 1
    ensures s.nextId.None? <==> |s.issued| == U64_MAX
  {
    hide Run;
    RunKeepsNumbers(Init(capacity, horizon), steps);
  }

  /** A registration for a new origin scans every state, in key order, exactly when the registry is full. */
  lemma ScanOnlyWhenFull(s: State, r: Request, keys: seq<Origin>)
    requires Enabled(s, BeginRegister(r, keys)) && r.origin !in s.states
    ensures var l := Apply(s, BeginRegister(r, keys)).lock;
            && l.Scanning? && l.request == r && l.removable == [] && l.scanned == {}
            && (if |s.states| < s.capacity then l.todo == [] else InOrder(l.todo, s.states))
  {}

  /** A registration whose origin has a state, found or made, gets the next id while there is one;
      one that is refused for capacity or for want of an id gives the registry's lock back. */
  lemma RegistrationGetsNext(s: State, st: Step)
    requires Inv(s) && Numbered(s) && Enabled(s, st)
    requires st.CommitRegister? || (st.BeginRegister? && st.request.origin in s.states)
    ensures var t := Apply(s, st);
            var r := if st.BeginRegister? then st.request else s.lock.request;
            && (t.lock == if r.origin in t.states && |s.issued| < U64_MAX
                          then Attaching(r, t.states[r.origin], |s.issued| + 1) else Idle)
            && (t.issued == if t.lock.Idle? then s.issued else s.issued + [|s.issued| + 1])
            && t.handles == s.handles
  {
    if st.CommitRegister? { CommitAllocates(s, st.made); } else { BeginAllocates(s, st.request, st.keys); }
    hide Inv, Apply, Enabled, Numbered;
  }

  // What allocating an id gives.
  lemma Allocates(s: State, r: Request, x: ObjectId)
    requires Numbered(s) && s.lock.Idle?
    ensures var t := Allocate(s, r, x);
            && t.lock == (if |s.issued| < U64_MAX then Attaching(r, x, |s.issued| + 1) else Idle)
            && t.issued == (if t.lock.Idle? then s.issued else s.issued + [|s.issued| + 1])
            && t.handles == s.handles && t.states == s.states
  {}

  lemma BeginAllocates(s: State, r: Request, keys: seq<Origin>)
    requires Numbered(s) && Enabled(s, BeginRegister(r, keys)) && r.origin in s.states
    ensures var t := Apply(s, BeginRegister(r, keys));
            && t.states == s.states && t.handles == s.handles
            && t.lock == (if |s.issued| < U64_MAX then Attaching(r, s.states[r.origin], |s.issued| + 1) else Idle)
            && t.issued == (if t.lock.Idle? then s.issued else s.issued + [|s.issued| + 1])
  {
    Allocates(s, r, s.states[r.origin]);
    hide Allocate, Numbered, Valid, InOrder;
  }

  lemma CommitAllocates(s: State, made: ObjectId)
    requires Inv(s) && Numbered(s) && Enabled(s, CommitRegister(made))
    ensures s.lock.Scanning?
    ensures var t, r := Apply(s, CommitRegister(made)), s.lock.request;
            && t.handles == s.handles
            && (r.origin in t.states ==> t.states[r.origin] == made)
            && t.lock == (if r.origin in t.states && |s.issued| < U64_MAX then Attaching(r, made, |s.issued| + 1) else Idle)
            && t.issued == (if t.lock.Idle? then s.issued else s.issued + [|s.issued| + 1])
  {
    assert s.lock.Scanning?;
    hide Inv, Prune, Apply, Enabled, Allocate, Numbered;
    NewOriginStaysOut(s, made);
    CommitIs(s, made);
    StaysNumbered(s, made);
    Allocates(Entered(s, made), s.lock.request, made);
  }

  // The registry with the new origin's state in it, before an id is asked for.
  function Entered(s: State, made: ObjectId): State
    requires s.lock.Scanning?
  {
    var r, kept := s.lock.request, Prune(s.states, s.lock.removable, s.capacity);
    s.(lock := Idle, states := kept[r.origin := made], objects := s.objects[made := Object(r.origin, FreshOrigin)])
  }

  lemma CommitIs(s: State, made: ObjectId)
    requires Enabled(s, CommitRegister(made))
    ensures var kept := Prune(s.states, s.lock.removable, s.capacity);
            Apply(s, CommitRegister(made)) ==
              if |kept| >= s.capacity then s.(states := kept, lock := Idle) else Allocate(Entered(s, made), s.lock.request, made)
  {
    hide Prune, Allocate;
  }

  lemma StaysNumbered(s: State, made: ObjectId)
    requires Numbered(s) && s.lock.Scanning?
    ensures Numbered(Entered(s, made))
  {
    hide Prune;
  }

  lemma NewOriginStaysOut(s: State, made: ObjectId)
    requires Inv(s) && Enabled(s, CommitRegister(made))
    ensures s.lock.request.origin !in Prune(s.states, s.lock.removable, s.capacity)
  {
    hide Counts, Linked, Ids, Floors, Spaced, Past, Prune, SafeToRetire;
    assert s.lock.removable + s.lock.todo == s.lock.removable;
    PruneOne(s.states, s.lock.removable, s.capacity);
  }
}
