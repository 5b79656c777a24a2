/** Every step of the pacing system keeps the invariant. */
module PacingSteps {
  import opened Wrappers
  import opened Pacing
  import opened PacingSystem
  import opened PacingInvariant

  // ---- Steps through a live handle ----

  lemma DropRegistrationKeeps(s: State, id: RegistrationId)
    requires Inv(s) && Enabled(s, DropRegistration(id))
    ensures Inv(DropRegistrationNext(s, id))
  {
    hide Counts, LockOk, Linked, Ids, Floors, Spaced, Past, Mapped, Reaches;
    var x := s.handles.registrations[id].obj;
    var p := s.objects[x].pacing;
    RegistrationCounted(s.objects, s.handles, id);
    RemoveRegistrationCounts(s.objects, s.handles, id);
    assert Outlives(p, p.(registrations := p.registrations - {id}), s.now) by { SameDeadlines(p, p.(registrations := p.registrations - {id}), s.now); }
    ObjectStepKeeps(s, x, p.(registrations := p.registrations - {id}),
                    s.handles.(registrations := s.handles.registrations - {id}), s.history);
  }

  lemma SameDeadlines(p: OriginState, q: OriginState, now: Time)
    requires p.nextRequestAt == q.nextRequestAt && p.backoffUntil == q.backoffUntil
    requires p.retryAfterUntil == q.retryAfterUntil
    ensures Outlives(p, q, now)
  {}

  lemma StartAcquireCounts(s: State, w: HandleId, id: RegistrationId, d: Option<Duration>)
    requires Counts(s.objects, s.handles) && |s.handles.waiters| < U32_MAX && w !in s.handles.waiters
    requires id in s.handles.registrations && s.handles.registrations[id].obj in s.objects
    ensures Counts(StartAcquireNext(s, w, id, d).objects, StartAcquireNext(s, w, id, d).handles)
  {
    hide Counts;
    var x := s.handles.registrations[id].obj;
    var t := StartAcquireNext(s, w, id, d);
    WaitersFit(s.objects, s.handles, x);
    CountsKept(s.objects, s.handles, x, t.objects[x].pacing, t.handles, w, 0);
  }

  lemma StartAcquireKeeps(s: State, w: HandleId, id: RegistrationId, d: Option<Duration>)
    requires Inv(s) && Enabled(s, StartAcquire(w, id, d))
    ensures Inv(StartAcquireNext(s, w, id, d))
  {
    hide Counts, LockOk, Linked, Ids, Floors, Spaced, Past, Mapped, Reaches, Outlives;
    var x := s.handles.registrations[id].obj;
    var t := StartAcquireNext(s, w, id, d);
    RegistrationCounted(s.objects, s.handles, id);
    StartAcquireCounts(s, w, id, d);
    SameDeadlines(s.objects[x].pacing, t.objects[x].pacing, s.now);
    ObjectStepKeeps(s, x, t.objects[x].pacing, t.handles, s.history);
  }

  lemma DropWaiterKeeps(s: State, w: HandleId)
    requires Inv(s) && Enabled(s, DropWaiter(w))
    ensures Inv(DropWaiterNext(s, w))
  {
    hide Counts, LockOk, Linked, Ids, Floors, Spaced, Past, Mapped, Reaches, Outlives;
    var x := s.handles.waiters[w].obj;
    var t := DropWaiterNext(s, w);
    WaiterCounted(s.objects, s.handles, w);
    CountsKept(s.objects, s.handles, x, t.objects[x].pacing, t.handles, w, 0);
    SameDeadlines(s.objects[x].pacing, t.objects[x].pacing, s.now);
    ObjectStepKeeps(s, x, t.objects[x].pacing, t.handles, s.history);
  }

  lemma DropPermitKeeps(s: State, p: HandleId)
    requires Inv(s) && Enabled(s, DropPermit(p))
    ensures Inv(DropPermitNext(s, p))
  {
    hide Counts, LockOk, Linked, Ids, Floors, Spaced, Past, Mapped, Reaches, Outlives;
    var x := s.handles.permits[p].obj;
    var t := DropPermitNext(s, p);
    PermitCounted(s.objects, s.handles, p);
    CountsKept(s.objects, s.handles, x, t.objects[x].pacing, t.handles, 0, p);
    SameDeadlines(s.objects[x].pacing, t.objects[x].pacing, s.now);
    ObjectStepKeeps(s, x, t.objects[x].pacing, t.handles, s.history);
  }

  lemma RecordCounts(s: State, p: HandleId, q: OriginState)
    requires Counts(s.objects, s.handles) && p in s.handles.permits && s.handles.permits[p].obj in s.objects
    requires var o := s.objects[s.handles.permits[p].obj].pacing;
             q.registrations == o.registrations && q.waiting == o.waiting && q.inFlight == o.inFlight
    ensures Counts(Touch(s, s.handles.permits[p].obj, q).objects,
                   s.handles.(permits := s.handles.permits[p := s.handles.permits[p].(recorded := true)]))
  {
    hide Counts;
    var h' := s.handles.(permits := s.handles.permits[p := s.handles.permits[p].(recorded := true)]);
    assert SameBut(s.handles.permits, h'.permits, p);
    CountsKept(s.objects, s.handles, s.handles.permits[p].obj, q, h', 0, p);
  }

  lemma RecordExtends(s: State, p: HandleId, outcome: Outcome, sampled: Time)
    requires p in s.handles.permits && s.handles.permits[p].obj in s.objects
    requires sampled <= s.now && !s.handles.permits[p].recorded
    ensures var x := s.handles.permits[p].obj;
            var t := RecordOnce(s, p, outcome, sampled);
            Extends(s, x, t.objects[x].pacing, t.history)
  {
    hide Reaches, RecordNext;
    RecordKeepsDeadlines(s.objects[s.handles.permits[p].obj].pacing, outcome, sampled, s.horizon, 0);
  }

  lemma RecordKeeps(s: State, p: HandleId, outcome: Outcome, sampled: Time)
    requires Inv(s) && p in s.handles.permits && s.handles.permits[p].obj in s.objects && sampled <= s.now
    ensures Inv(RecordOnce(s, p, outcome, sampled))
  {
    hide Counts, LockOk, Linked, Ids, Floors, Spaced, Past, Mapped, Reaches, Outlives, Extends, RecordNext;
    if !s.handles.permits[p].recorded {
      var x := s.handles.permits[p].obj;
      var t := RecordOnce(s, p, outcome, sampled);
      PermitCounted(s.objects, s.handles, p);
      RecordFrame(s.objects[x].pacing, outcome, sampled, s.horizon);
      RecordCounts(s, p, t.objects[x].pacing);
      RecordOutlives(s.objects[x].pacing, outcome, sampled, s.horizon, s.now);
      RecordExtends(s, p, outcome, sampled);
      ObjectStepKeeps(s, x, t.objects[x].pacing, t.handles, t.history);
    }
  }

  lemma RecordFrame(p: OriginState, outcome: Outcome, now: Time, horizon: Time)
    ensures var q := RecordNext(p, outcome, now, horizon).0;
            q.registrations == p.registrations && q.waiting == p.waiting && q.inFlight == p.inFlight
  {}

  lemma TryAcquireCounts(objects: map<ObjectId, Object>, h: Handles, w: HandleId, p: HandleId, a: Attempt, q: OriginState)
    requires Counts(objects, h) && w in h.waiters && p !in h.permits && h.waiters[w].obj in objects
    requires var o := objects[h.waiters[w].obj].pacing;
             && q.registrations == o.registrations && q.waiting == o.waiting
             && q.inFlight == o.inFlight + One(a.Acquired? || a == Refuse(ClockOverflow))
    ensures var x := h.waiters[w].obj;
            Counts(objects[x := objects[x].(pacing := q)], HandlesAfter(h, w, p, a))
  {
    hide Counts;
    var h' := HandlesAfter(h, w, p, a);
    assert !a.Wait? ==> SameBut(h.waiters, h'.waiters, w);
    assert a.Acquired? ==> SameBut(h.permits, h'.permits, p);
    CountsKept(objects, h, h.waiters[w].obj, q, h', w, p);
  }

  lemma TryAcquireKeeps(s: State, w: HandleId, p: HandleId)
    requires Inv(s) && w in s.handles.waiters && !s.handles.waiters[w].done
    requires s.handles.waiters[w].obj in s.objects && p !in s.handles.permits
    ensures Inv(TryAcquireNext(s, w, p))
  {
    hide Counts, LockOk, Linked, Ids, Floors, Spaced, Past, Mapped, Reaches, Outlives, AdmitNext, AttemptOf, AllPassed, HasRoom;
    var g := s.handles.waiters[w];
    var o := s.objects[g.obj];
    var t := TryAcquireNext(s, w, p);
    WaiterCounted(s.objects, s.handles, w);
    AdmitFrame(o.pacing, s.now, g.Delay(), s.horizon);
    var a := AttemptOf(o.pacing, s.now, g.Delay(), s.horizon);
    if a.Acquired? || a == Refuse(ClockOverflow) {
      RoomBounded(s, g.obj);
    }
    TryAcquireCounts(s.objects, s.handles, w, p, a, t.objects[g.obj].pacing);
    AdmitOutlives(o.pacing, s.now, g.Delay(), s.horizon);
    ObjectStepKeeps(s, g.obj, t.objects[g.obj].pacing, t.handles, t.history);
  }

  lemma AdmitFrame(p: OriginState, now: Time, delay: Duration, horizon: Time)
    ensures var q := AdmitNext(p, now, delay, horizon);
            var a := AttemptOf(p, now, delay, horizon);
            && q.registrations == p.registrations && q.waiting == p.waiting
            && q.inFlight == (if a.Acquired? || a == Refuse(ClockOverflow) then Min(p.inFlight + 1, U32_MAX) else p.inFlight)
            && (a.Acquired? ==> Reaches(q, now + delay))
            && (a.Acquired? || a == Refuse(ClockOverflow) ==>
                  HasRoom(p) && p.registrations != map[] && AllPassed(p, now))
  {}

  // ---- Steps of the registry ----

  lemma TickKeeps(s: State, d: Duration)
    requires Inv(s)
    ensures Inv(s.(now := s.now + d))
  {
    hide Counts, Linked, Spaced, SafeToRetire, Reaches;
    var t := s.(now := s.now + d);
    assert Floors(t) && Past(t);
  }

  // A registration id is handed out, or none is left and the call fails.
  lemma AllocateKeeps(s: State, r: Request, x: ObjectId)
    requires Counts(s.objects, s.handles) && Bounds(s) && Linked(s.states, s.objects)
    requires Floors(s) && Spaced(s.history) && Past(s) && Ids(s) && s.lock.Idle?
    requires x in s.objects && s.objects[x].origin == r.origin && Mapped(s.states, s.objects, x) && Valid(s, r)
    ensures Inv(Allocate(s, r, x))
  {
    hide Counts, Linked, Spaced, Reaches, Ids, Floors, Past;
    var t := Allocate(s, r, x);
    AllocateIds(s, r, x);
    AllocateHistory(s, t);
    assert LockOk(t.lock, t.now, t.capacity, t.states, t.objects);
    assert Bounds(t);
  }

  lemma AllocateHistory(s: State, t: State)
    requires Floors(s) && Past(s) && t == s.(lock := t.lock, nextId := t.nextId, issued := t.issued)
    ensures Floors(t) && Past(t)
  {}

  lemma AllocateIds(s: State, r: Request, x: ObjectId)
    requires Ids(s) && s.lock.Idle?
    ensures Ids(Allocate(s, r, x))
  {
    var t := Allocate(s, r, x);
    forall id <- t.issued ensures 1 <= id <= U64_MAX && (t.nextId.Some? ==> id < t.nextId.value) {
      if id in s.issued {}
    }
    forall i, k | 0 <= i < k < |t.issued| ensures t.issued[i] < t.issued[k] {
      assert t.issued[i] == s.issued[i] && s.issued[i] in s.issued;
    }
  }

  // The registry lock changes hands or moves on; nothing else does.
  lemma RelockKeeps(s: State, l: Lock)
    requires Inv(s) && !s.lock.Attaching? && !l.Attaching?
    requires LockOk(l, s.now, s.capacity, s.states, s.objects)
    ensures Inv(s.(lock := l))
  {
    hide Counts, Spaced, Reaches, Linked, LockOk;
    var t := s.(lock := l);
    assert Floors(t) && Past(t) && Ids(t);
  }

  lemma BeginKeeps(s: State, r: Request, keys: seq<Origin>)
    requires Inv(s) && s.lock.Idle? && Valid(s, r) && InOrder(keys, s.states)
    ensures Inv(BeginNext(s, r, keys))
  {
    hide Counts, Bounds, Spaced, Reaches, Floors, Past, Ids, Allocate;
    if r.origin in s.states {
      AllocateKeeps(s, r, s.states[r.origin]);
    } else {
      var l := BeginNext(s, r, keys).lock;
      assert [] + l.todo == l.todo;
      RelockKeeps(s, l);
    }
  }

  lemma NormalizeFacts(p: OriginState, sampled: Time, now: Time)
    requires sampled <= now
    ensures var q := Normalize(p, sampled);
            && Outlives(p, q, now) && (SafeToRetire(p) ==> SafeToRetire(q))
            && q.registrations == p.registrations && q.waiting == p.waiting && q.inFlight == p.inFlight
  {}

  // Locking one state while the registry is held, whatever the state is.
  lemma NormalizeKeeps(s: State, o: Origin, sampled: Time)
    requires Inv(s) && o in s.states && s.states[o] in s.objects && sampled <= s.now
    ensures Inv(Touch(s, s.states[o], Normalize(s.objects[s.states[o]].pacing, sampled)))
  {
    hide Counts, Spaced, Reaches, Outlives, Normalize, Floors, Past, LockOk, Ids, SafeToRetire;
    var x := s.states[o];
    var q := Normalize(s.objects[x].pacing, sampled);
    NormalizeFacts(s.objects[x].pacing, sampled, s.now);
    CountsKept(s.objects, s.handles, x, q, s.handles, 0, 0);
    TouchKeepsRegistry(s, x, q);
    TouchKeepsFloors(s, x, q);
    TouchFrame(s, x, q);
  }

  lemma TouchFrame(s: State, x: ObjectId, q: OriginState)
    requires x in s.objects
    ensures Past(s) ==> Past(Touch(s, x, q))
    ensures Ids(s) ==> Ids(Touch(s, x, q))
  {}

  lemma ScanKeeps(s: State)
    requires Inv(s) && s.lock.Scanning? && s.lock.todo != [] && s.lock.todo[0] in s.states
    requires s.states[s.lock.todo[0]] in s.objects
    ensures Inv(ScanNext(s))
  {
    hide Counts, Spaced, Reaches, Outlives, Normalize, Floors, Past, Ids, SafeToRetire;
    var l := s.lock;
    NormalizeKeeps(s, l.todo[0], l.request.sampled);
    var x := s.states[l.todo[0]];
    var t := Touch(s, x, Normalize(s.objects[x].pacing, l.request.sampled));
    var m := ScanNext(s).lock;
    assert l.removable + l.todo == (l.removable + [l.todo[0]]) + l.todo[1..];
    assert forall o <- t.states :: o in l.todo ==> o == l.todo[0] || o in l.todo[1..];
    DropOne(l.removable, l.todo);
    assert LockOk(m, t.now, t.capacity, t.states, t.objects);
    RelockKeeps(t, m);
  }

  lemma DropOne(a: seq<Origin>, b: seq<Origin>)
    requires Ascending(a + b) && b != []
    ensures Ascending(a + b[1..])
  {
    forall i, k | 0 <= i < k < |a + b[1..]| ensures (a + b[1..])[i] < (a + b[1..])[k] {
      assert (a + b[1..])[i] == (a + b)[if i < |a| then i else i + 1];
      assert (a + b[1..])[k] == (a + b)[if k < |a| then k else k + 1];
    }
  }

  /** At most one state is pruned: the one with the least removable key. */
  lemma PruneOne(states: map<Origin, ObjectId>, removable: seq<Origin>, capacity: nat)
    requires |states| <= capacity
    requires forall o <- removable :: o in states
    ensures Prune(states, removable, capacity)
         == if |states| < capacity || removable == [] then states else states - {removable[0]}
  {
    if |states| == capacity && removable != [] {
      var rest := states - {removable[0]};
      assert rest.Keys == states.Keys - {removable[0]};
      assert |rest| == |rest.Keys| == |states.Keys| - 1;
    }
  }

  // A state object that is safe to retire leaves the registry.
  lemma RetireKeeps(s: State, o: Origin)
    requires Inv(s) && s.lock.Scanning? && o in s.states && SafeToRetire(s.objects[s.states[o]].pacing)
    ensures var t := s.(states := s.states - {o}, lock := Idle); Inv(t) && |t.states| < s.capacity
  {
    hide Counts, Spaced;
    var t := s.(states := s.states - {o}, lock := Idle);
    assert t.states.Keys == s.states.Keys - {o};
    assert |t.states| == |t.states.Keys| == |s.states.Keys| - 1;
    assert Linked(t.states, t.objects);
    assert Floors(t) && Past(t) && Ids(t);
  }

  lemma InsertCounts(objects: map<ObjectId, Object>, h: Handles, made: ObjectId, o: Origin)
    requires Counts(objects, h) && made !in objects
    ensures Counts(objects[made := Object(o, FreshOrigin)], h)
  {
    assert RegistrationsOn(h.registrations, made) == map[];
    assert WaitersOn(h.waiters, made) == {} && PermitsOn(h.permits, made) == {};
    forall x <- objects ensures CountsAt(objects[x].pacing, x, h) {}
  }

  lemma InsertLinked(s: State, t: State, made: ObjectId, o: Origin)
    requires Linked(s.states, s.objects) && made !in s.objects && o !in s.states
    requires t == s.(states := s.states[o := made], objects := s.objects[made := Object(o, FreshOrigin)])
    ensures Linked(t.states, t.objects) && Mapped(t.states, t.objects, made)
  {}

  lemma InsertRest(s: State, t: State, made: ObjectId, o: Origin)
    requires Linked(s.states, s.objects) && Floors(s) && Past(s) && Ids(s) && Bounds(s)
    requires made !in s.objects && o !in s.states && |s.states| < s.capacity
    requires t == s.(states := s.states[o := made], objects := s.objects[made := Object(o, FreshOrigin)])
    ensures Floors(t) && Past(t) && Ids(t) && Bounds(t)
  {
    hide Reaches, Busy, Mapped, Ascending;
    forall e <- t.history ensures FloorOf(e) <= t.now || Held(t.states, t.objects, e.origin, FloorOf(e)) {
      assert e in s.history;
    }
  }

  // A new state object enters the registry and gets its registration id.
  lemma InsertKeeps(s: State, r: Request, made: ObjectId)
    requires Inv(s) && s.lock.Idle? && Valid(s, r) && made !in s.objects
    requires r.origin !in s.states && |s.states| < s.capacity
    ensures Inv(Allocate(s.(states := s.states[r.origin := made],
                            objects := s.objects[made := Object(r.origin, FreshOrigin)]), r, made))
  {
    hide Counts, Spaced, Reaches, Floors, Past, Ids, Bounds, Linked, Mapped, Allocate;
    var t := s.(states := s.states[r.origin := made], objects := s.objects[made := Object(r.origin, FreshOrigin)]);
    InsertCounts(s.objects, s.handles, made, r.origin);
    InsertLinked(s, t, made, r.origin);
    InsertRest(s, t, made, r.origin);
    AllocateKeeps(t, r, made);
  }

  lemma CommitKeeps(s: State, made: ObjectId)
    requires Inv(s) && s.lock.Scanning? && s.lock.todo == [] && made !in s.objects
    ensures Inv(Commit(s, s.lock.request, s.lock.removable, made))
  {
    hide Counts, Spaced, Floors, Past, Ids, SafeToRetire, Prune, Allocate;
    var l := s.lock;
    assert l.removable + l.todo == l.removable;
    PruneOne(s.states, l.removable, s.capacity);
    RelockKeeps(s, Idle);
    if |s.states| == s.capacity && l.removable != [] {
      RetireKeeps(s, l.removable[0]);
      InsertKeeps(s.(states := s.states - {l.removable[0]}, lock := Idle), l.request, made);
    } else if |s.states| < s.capacity {
      InsertKeeps(s.(lock := Idle), l.request, made);
    }
  }

  lemma AttachKeeps(s: State)
    requires Inv(s) && s.lock.Attaching? && s.lock.obj in s.objects
    ensures Inv(AttachNext(s))
  {
    hide Counts, Spaced, Reaches, Floors, Past, Outlives, SafeToRetire;
    var x, id, r := s.lock.obj, s.lock.id, s.lock.request;
    var p := s.objects[x].pacing;
    var q := p.(registrations := p.registrations[id := r.concurrency]);
    var t := AttachNext(s);
    AddRegistrationCounts(s.objects, s.handles, id, Registration(x, r.concurrency, r.delay));
    AttachRegistry(s, q);
    SameDeadlines(p, q, s.now);
    TouchKeepsFloors(s, x, q);
    TouchFrame(s, x, q);
    AttachHistory(Touch(s, x, q), t);
    assert Ids(t) && Bounds(t) by { hide *; AttachIds(s); }
  }

  lemma AttachHistory(s: State, t: State)
    requires Floors(s) && Past(s) && t == s.(lock := t.lock, handles := t.handles)
    ensures Floors(t) && Past(t)
  {}

  lemma AttachRegistry(s: State, q: OriginState)
    requires s.lock.Attaching? && s.lock.obj in s.objects && Linked(s.states, s.objects)
    requires LockOk(s.lock, s.now, s.capacity, s.states, s.objects)
    ensures Linked(s.states, Touch(s, s.lock.obj, q).objects)
    ensures 0 < s.lock.request.concurrency <= U32_MAX && s.lock.request.delay <= MAX_PACING_DELAY
  {}

  lemma AttachIds(s: State)
    requires Inv(s) && s.lock.Attaching? && s.lock.obj in s.objects
    ensures Ids(AttachNext(s)) && Bounds(AttachNext(s))
  {
    hide Counts, Spaced, Floors, Past, Linked;
  }

  /** Every enabled step keeps the invariant. */
  lemma StepKeepsInv(s: State, st: Step)
    requires Inv(s) && Enabled(s, st)
    ensures Inv(Apply(s, st))
  {
    hide Inv;
    match st
    case Tick(d) => TickKeeps(s, d);
    case BeginRegister(r, keys) => BeginKeeps(s, r, keys);
    case ScanOne => ScanKeeps(s);
    case CommitRegister(made) => CommitKeeps(s, made);
    case Attach => AttachKeeps(s);
    case DropRegistration(id) => DropRegistrationKeeps(s, id);
    case StartAcquire(w, id, d) => StartAcquireKeeps(s, w, id, d);
    case TryAcquire(w, p) => TryAcquireKeeps(s, w, p);
    case DropWaiter(w) => DropWaiterKeeps(s, w);
    case Record(p, outcome, sampled) => RecordKeeps(s, p, outcome, sampled);
    case DropPermit(p) => DropPermitKeeps(s, p);
  }

  lemma InitInv(capacity: nat, horizon: Time)
    ensures Inv(Init(capacity, horizon))
  {}

  lemma {:induction false} RunKeepsInv(s: State, steps: seq<Step>)
    requires Inv(s) && Run(s, steps).Some?
    ensures Inv(Run(s, steps).value)
    decreases |steps|
  {
    hide Inv, Enabled, Apply;
    if steps != [] {
      StepKeepsInv(s, steps[0]);
      RunKeepsInv(Apply(s, steps[0]), steps[1..]);
    }
  }
}
