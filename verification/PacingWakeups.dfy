/**
 Waiters asleep (acquire_with_delay_inner, crates/erabi-crawler/src/pacing.rs): a waiter
 first registers interest in the origin's notifier, then inspects the state under its
 lock, and then sleeps until it is notified or its deadline comes.  Every task that
 releases something changes the state under the lock and notifies the waiters after
 it has let the lock go; in between the notification is owed.
 */
module PacingWakeups {
  import opened Wrappers
  import opened Pacing
  import opened PacingSystem
  import opened PacingInvariant
  import opened PacingSteps

  // Where a waiter is in its turn; one that is not in `sleepers` is between turns.
  datatype Sleeper = Armed(notified: bool) | Parked(until: Option<Time>, notified: bool)

  // `owed` holds one entry for every state change whose notification is still to come.
  datatype Sleepy = Sleepy(s: State, owed: multiset<ObjectId>, sleepers: map<HandleId, Sleeper>)

  datatype Act =
    | Base(st: Step)
    | Arm(w: HandleId)
    | Inspect(w: HandleId, p: HandleId)
    | Notify(x: ObjectId)
    | Wake(w: HandleId)

  /** The origin object whose waiters a critical section notifies when it is over; `register`
      notifies them twice, of which the first counts. */
  ghost function Owes(s: State, st: Step): Option<ObjectId>
    requires Enabled(s, st)
  {
    match st
    case Attach => Some(s.lock.obj)
    case DropRegistration(id) => Some(s.handles.registrations[id].obj)
    case DropWaiter(w) => Some(s.handles.waiters[w].obj)
    case DropPermit(p) => Some(s.handles.permits[p].obj)
    case Record(p, outcome, sampled) =>
      var h := s.handles.permits[p];
      if !h.recorded && RecordNext(s.objects[h.obj].pacing, outcome, sampled, s.horizon).1 then Some(h.obj) else None
    case _ => None
  }

  ghost predicate CanAct(v: Sleepy, a: Act) {
    match a
    case Base(st) => Enabled(v.s, st) && !st.TryAcquire?
    case Arm(w) => w in v.s.handles.waiters && !v.s.handles.waiters[w].done && w !in v.sleepers
    case Inspect(w, p) => w in v.sleepers && v.sleepers[w].Armed? && Enabled(v.s, TryAcquire(w, p))
    case Notify(x) => x in v.owed
    case Wake(w) => w in v.sleepers && v.sleepers[w].Parked? && Awake(v.sleepers[w], v.s.now)
  }

  // Notified, or past its deadline.
  predicate Awake(z: Sleeper, now: Time)
    requires z.Parked?
  {
    z.notified || (z.until.Some? && z.until.value <= now)
  }

  ghost function BaseNext(v: Sleepy, st: Step): Sleepy
    requires Enabled(v.s, st)
  {
    var owes := Owes(v.s, st);
    Sleepy(Apply(v.s, st), if owes.Some? then v.owed + multiset{owes.value} else v.owed,
           if st.DropWaiter? then v.sleepers - {st.w} else v.sleepers)
  }

  ghost function InspectNext(v: Sleepy, w: HandleId, p: HandleId): Sleepy
    requires w in v.sleepers && Enabled(v.s, TryAcquire(w, p))
  {
    var g := v.s.handles.waiters[w];
    var a := AttemptOf(v.s.objects[g.obj].pacing, v.s.now, g.Delay(), v.s.horizon);
    v.(s := Apply(v.s, TryAcquire(w, p)),
       sleepers := if a.Wait? then v.sleepers[w := Parked(a.until, v.sleepers[w].notified)] else v.sleepers - {w})
  }

  predicate WaitsOn(s: State, w: HandleId, x: ObjectId) { w in s.handles.waiters && s.handles.waiters[w].obj == x }

  /** notify_waiters reaches every waiter that has registered interest. */
  function NotifyNext(v: Sleepy, x: ObjectId): Sleepy {
    v.(owed := v.owed - multiset{x},
       sleepers := map w | w in v.sleepers :: if WaitsOn(v.s, w, x) then v.sleepers[w].(notified := true) else v.sleepers[w])
  }

  ghost function Next(v: Sleepy, a: Act): Sleepy
    requires CanAct(v, a)
  {
    match a
    case Base(st) => BaseNext(v, st)
    case Arm(w) => v.(sleepers := v.sleepers[w := Armed(false)])
    case Inspect(w, p) => InspectNext(v, w, p)
    case Notify(x) => NotifyNext(v, x)
    case Wake(w) => v.(sleepers := v.sleepers - {w})
  }

  ghost function RunAll(v: Sleepy, acts: seq<Act>): Option<Sleepy>
    decreases |acts|
  {
    if acts == [] then Some(v)
    else if CanAct(v, acts[0]) then RunAll(Next(v, acts[0]), acts[1..])
    else None
  }

  // ---- Invariant ----

  // Asleep, not notified, and with no notification of its origin to come.
  ghost predicate Unattended(v: Sleepy, w: HandleId) {
    && w in v.sleepers && v.sleepers[w].Parked? && !v.sleepers[w].notified
    && w in v.s.handles.waiters && v.s.handles.waiters[w].obj !in v.owed
  }

  ghost predicate RightToSleep(v: Sleepy, w: HandleId) {
    && w in v.sleepers && v.sleepers[w].Parked? && w in v.s.handles.waiters
    && v.s.handles.waiters[w].obj in v.s.objects
    && MustWait(v.s.objects[v.s.handles.waiters[w].obj].pacing, v.s.now, v.sleepers[w].until)
  }

  ghost predicate SleepOk(v: Sleepy) {
    && Inv(v.s)
    && (forall w <- v.sleepers :: w in v.s.handles.waiters)
    && (forall w | Unattended(v, w) :: RightToSleep(v, w))
  }

  lemma ScanReleasesNothing(s: State, x: ObjectId)
    requires Inv(s) && Enabled(s, ScanOne) && x in s.objects
    ensures x in ScanNext(s).objects
    ensures NotReleased(s.objects[x].pacing, ScanNext(s).objects[x].pacing, s.now)
  {
    hide Counts, Bounds, Ids, Floors, Spaced, Past;
  }

  lemma RecordReleasesNothing(p: OriginState, outcome: Outcome, sampled: Time, now: Time, horizon: Time)
    requires sampled <= now
    ensures NotReleased(p, RecordNext(p, outcome, sampled, horizon).0, now)
  {
    var q := RecordNext(p, outcome, sampled, horizon).0;
    RecordFrame(p, outcome, sampled, horizon);
    forall t: Time | now < t && Reaches(p, t) ensures Reaches(q, t) {
      RecordKeepsDeadlines(p, outcome, sampled, horizon, t);
    }
    hide RecordNext, Reaches;
  }

  lemma AdmitReleasesNothing(p: OriginState, now: Time, delay: Duration, horizon: Time)
    requires p.inFlight <= U32_MAX
    ensures NotReleased(p, AdmitNext(p, now, delay, horizon), now)
  {
    var q := AdmitNext(p, now, delay, horizon);
    forall t: Time | now < t && Reaches(p, t) ensures Reaches(q, t) {
      AdmitKeepsDeadlines(p, now, delay, horizon, t);
    }
    hide Reaches;
  }

  lemma SameReleasesNothing(p: OriginState, q: OriginState, now: Time)
    requires q == p.(waiting := q.waiting)
    ensures NotReleased(p, q, now)
  {}

  lemma RecordSilent(s: State, h: HandleId, outcome: Outcome, sampled: Time, x: ObjectId)
    requires Enabled(s, Record(h, outcome, sampled)) && x in s.objects
    ensures x in RecordOnce(s, h, outcome, sampled).objects && RecordOnce(s, h, outcome, sampled).now == s.now
    ensures NotReleased(s.objects[x].pacing, RecordOnce(s, h, outcome, sampled).objects[x].pacing, s.now)
  {
    hide NotReleased, RecordNext;
    SameReleasesNothing(s.objects[x].pacing, s.objects[x].pacing, s.now);
    RecordReleasesNothing(s.objects[x].pacing, outcome, sampled, s.now, s.horizon);
  }

  lemma TryAcquireSilent(s: State, w: HandleId, h: HandleId, x: ObjectId)
    requires Enabled(s, TryAcquire(w, h)) && x in s.objects && s.objects[x].pacing.inFlight <= U32_MAX
    ensures x in TryAcquireNext(s, w, h).objects && TryAcquireNext(s, w, h).now == s.now
    ensures NotReleased(s.objects[x].pacing, TryAcquireNext(s, w, h).objects[x].pacing, s.now)
  {
    hide NotReleased, AdmitNext, AttemptOf, HandlesAfter;
    SameReleasesNothing(s.objects[x].pacing, s.objects[x].pacing, s.now);
    AdmitReleasesNothing(s.objects[x].pacing, s.now, s.handles.waiters[w].Delay(), s.horizon);
  }

  lemma StartAcquireSilent(s: State, w: HandleId, id: RegistrationId, d: Option<Duration>, x: ObjectId)
    requires Enabled(s, StartAcquire(w, id, d)) && x in s.objects
    ensures x in StartAcquireNext(s, w, id, d).objects && StartAcquireNext(s, w, id, d).now == s.now
    ensures NotReleased(s.objects[x].pacing, StartAcquireNext(s, w, id, d).objects[x].pacing, s.now)
  {
    hide NotReleased;
    SameReleasesNothing(s.objects[x].pacing, s.objects[x].pacing, s.now);
    SameReleasesNothing(s.objects[x].pacing, AddWaiter(s.objects[x].pacing), s.now);
  }

  // The other steps leave the object alone, or notify its waiters.
  lemma OthersSilent(s: State, st: Step, x: ObjectId)
    requires Enabled(s, st) && x in s.objects && Owes(s, st) != Some(x)
    requires !st.Record? && !st.TryAcquire? && !st.StartAcquire? && !st.ScanOne?
    ensures s.now <= Apply(s, st).now && x in Apply(s, st).objects
    ensures NotReleased(s.objects[x].pacing, Apply(s, st).objects[x].pacing, Apply(s, st).now)
  {
    hide NotReleased, Prune;
    SameReleasesNothing(s.objects[x].pacing, s.objects[x].pacing, Apply(s, st).now);
  }

  /** A critical section that notifies nobody releases nothing of the origin. */
  lemma SilentStepsReleaseNothing(s: State, st: Step, x: ObjectId)
    requires Inv(s) && Enabled(s, st) && x in s.objects && Owes(s, st) != Some(x)
    ensures s.now <= Apply(s, st).now && x in Apply(s, st).objects
    ensures NotReleased(s.objects[x].pacing, Apply(s, st).objects[x].pacing, Apply(s, st).now)
  {
    hide NotReleased, RecordOnce, TryAcquireNext, StartAcquireNext, Linked, Counts, LockOk, Ids, Floors, Spaced, Past;
    match st
    case ScanOne => ScanReleasesNothing(s, x);
    case Record(h, outcome, sampled) => RecordSilent(s, h, outcome, sampled, x);
    case TryAcquire(w, h) => TryAcquireSilent(s, w, h, x);
    case StartAcquire(w, id, d) => StartAcquireSilent(s, w, id, d, x);
    case _ => OthersSilent(s, st, x);
  }

  lemma WaitersStay(s: State, st: Step, w: HandleId)
    requires Enabled(s, st) && w in s.handles.waiters && st != DropWaiter(w)
    ensures w in Apply(s, st).handles.waiters && Apply(s, st).handles.waiters[w].obj == s.handles.waiters[w].obj
  {
    hide RecordNext, AdmitNext, AttemptOf, Prune;
  }

  // A sleeper that stays asleep while a critical section runs stays right to sleep.
  lemma StillRight(v: Sleepy, v': Sleepy, st: Step, w: HandleId)
    requires SleepOk(v) && Enabled(v.s, st) && v'.s == Apply(v.s, st) && Unattended(v', w) && st != DropWaiter(w)
    requires v'.owed == BaseNext(v, st).owed && w in v.sleepers && v'.sleepers[w] == v.sleepers[w]
    ensures RightToSleep(v', w)
  {
    hide Inv, Enabled, Apply, Owes, MustWait;
    WaitersStay(v.s, st, w);
    var x := v.s.handles.waiters[w].obj;
    assert Unattended(v, w);
    assert RightToSleep(v, w);
    SilentStepsReleaseNothing(v.s, st, x);
    MustStay(v.s.objects[x].pacing, v'.s.objects[x].pacing, v.s.now, v'.s.now, v.sleepers[w].until);
  }

  lemma BaseKeeps(v: Sleepy, st: Step)
    requires SleepOk(v) && Enabled(v.s, st)
    ensures SleepOk(BaseNext(v, st))
  {
    hide Inv, Enabled, Apply, RightToSleep, Owes;
    var v' := BaseNext(v, st);
    StepKeepsInv(v.s, st);
    forall w <- v'.sleepers ensures w in v'.s.handles.waiters { WaitersStay(v.s, st, w); }
    forall w | Unattended(v', w) ensures RightToSleep(v', w) { StillRight(v, v', st, w); }
  }

  // What a waiter sees under the lock is reason enough to sleep.
  lemma InspectionParks(q: OriginState, now: Time, delay: Duration, horizon: Time)
    requires AttemptOf(q, now, delay, horizon).Wait? && q.inFlight <= U32_MAX
    ensures MustWait(AdmitNext(q, now, delay, horizon), now, AttemptOf(q, now, delay, horizon).until)
  {
    hide AttemptOf, AdmitNext, MustWait, NotReleased;
    WaitNames(q, now, delay, horizon);
    AdmitReleasesNothing(q, now, delay, horizon);
    MustStay(q, AdmitNext(q, now, delay, horizon), now, now, AttemptOf(q, now, delay, horizon).until);
  }

  lemma Inspected(v: Sleepy, w: HandleId, p: HandleId)
    requires CanAct(v, Inspect(w, p)) && v.s.objects[v.s.handles.waiters[w].obj].pacing.inFlight <= U32_MAX
    ensures var v' := InspectNext(v, w, p); w in v'.sleepers ==> RightToSleep(v', w)
  {
    hide AttemptOf, AdmitNext, MustWait;
    var g := v.s.handles.waiters[w];
    var q := v.s.objects[g.obj].pacing;
    if AttemptOf(q, v.s.now, g.Delay(), v.s.horizon).Wait? { InspectionParks(q, v.s.now, g.Delay(), v.s.horizon); }
  }

  lemma ObjectBounded(s: State, w: HandleId, p: HandleId)
    requires Inv(s) && Enabled(s, TryAcquire(w, p))
    ensures s.objects[s.handles.waiters[w].obj].pacing.inFlight <= U32_MAX
  {
    hide Counts, Linked, LockOk, Ids, Floors, Spaced, Past;
  }

  lemma InspectKeeps(v: Sleepy, w: HandleId, p: HandleId)
    requires SleepOk(v) && CanAct(v, Inspect(w, p))
    ensures SleepOk(InspectNext(v, w, p))
  {
    hide Inv, Enabled, Apply, RightToSleep, AttemptOf;
    var v', st := InspectNext(v, w, p), TryAcquire(w, p);
    ObjectBounded(v.s, w, p);
    Inspected(v, w, p);
    StepKeepsInv(v.s, st);
    forall u <- v'.sleepers ensures u in v'.s.handles.waiters { WaitersStay(v.s, st, u); }
    forall u | Unattended(v', u) ensures RightToSleep(v', u) {
      if u != w { StillRight(v, v', st, u); }
    }
  }

  lemma QuietActKeeps(v: Sleepy, a: Act)
    requires SleepOk(v) && CanAct(v, a) && !a.Base? && !a.Inspect?
    ensures SleepOk(Next(v, a))
  {
    hide Inv, Enabled, MustWait, Apply, BaseNext, InspectNext;
    forall w | Unattended(Next(v, a), w) ensures RightToSleep(Next(v, a), w) {
      assert Unattended(v, w);
    }
  }

  lemma ActKeeps(v: Sleepy, a: Act)
    requires SleepOk(v) && CanAct(v, a)
    ensures SleepOk(Next(v, a))
  {
    hide SleepOk, BaseNext, InspectNext, Enabled;
    match a
    case Base(st) => BaseKeeps(v, st);
    case Inspect(w, p) => InspectKeeps(v, w, p);
    case _ => QuietActKeeps(v, a);
  }

  lemma {:induction false} RunKeepsSleepOk(v: Sleepy, acts: seq<Act>)
    requires SleepOk(v) && RunAll(v, acts).Some?
    ensures SleepOk(RunAll(v, acts).value)
    decreases |acts|
  {
    hide SleepOk, CanAct, Next;
    if acts != [] {
      ActKeeps(v, acts[0]);
      RunKeepsSleepOk(Next(v, acts[0]), acts[1..]);
    }
  }

  // ---- Theorems ----

  function Start(capacity: nat, horizon: Time): Sleepy { Sleepy(Init(capacity, horizon), multiset{}, map[]) }

  /** No wake-up is lost: in every run, a sleeping waiter whose attempt would now be granted or
      refused has been notified, has a notification to come, or is past its deadline. */
  lemma NoLostWakeUp(capacity: nat, horizon: Time, acts: seq<Act>, v: Sleepy, w: HandleId)
    requires RunAll(Start(capacity, horizon), acts) == Some(v) && w in v.sleepers && v.sleepers[w].Parked?
    ensures w in v.s.handles.waiters && v.s.handles.waiters[w].obj in v.s.objects
    ensures var g := v.s.handles.waiters[w];
            AttemptOf(v.s.objects[g.obj].pacing, v.s.now, g.Delay(), v.s.horizon).Wait?
            || Awake(v.sleepers[w], v.s.now) || g.obj in v.owed
  {
    assert SleepOk(Start(capacity, horizon)) by { InitInv(capacity, horizon); }
    RunKeepsSleepOk(Start(capacity, horizon), acts);
    var g := v.s.handles.waiters[w];
    assert g.obj in v.s.objects by { assert Counts(v.s.objects, v.s.handles); }
    hide Inv, AttemptOf, MustWait;
    if Unattended(v, w) && !Awake(v.sleepers[w], v.s.now) {
      assert RightToSleep(v, w);
      StaysWaiting(v.s.objects[g.obj].pacing, v.s.now, v.sleepers[w].until, g.Delay(), v.s.horizon);
    }
  }

  /** A notification that is owed wakes every sleeper of its origin when it comes. */
  lemma NotificationWakes(v: Sleepy, x: ObjectId, w: HandleId)
    requires CanAct(v, Notify(x)) && w in v.sleepers && v.sleepers[w].Parked? && WaitsOn(v.s, w, x)
    ensures CanAct(Next(v, Notify(x)), Wake(w))
  {}
}
