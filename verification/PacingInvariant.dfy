/**
 The inductive invariant of the pacing system.  The counters of every state
 object count its live handles, every object with a live handle is the one the
 registry maps for its origin, and every safety time promised in the past has
 passed or is still held by a deadline of the origin's current state object.
 */
module PacingInvariant {
  import opened Wrappers
  import opened Pacing
  import opened PacingSystem

  // ---- Counting handles ----

  ghost function RegistrationsOn(m: map<RegistrationId, Registration>, x: ObjectId): map<RegistrationId, nat> {
    map id | id in m && m[id].obj == x :: m[id].concurrency
  }

  ghost function WaitersOn(m: map<HandleId, Waiter>, x: ObjectId): set<HandleId> {
    set w | w in m && m[w].obj == x
  }

  ghost function PermitsOn(m: map<HandleId, Permit>, x: ObjectId): set<HandleId> {
    set p | p in m && m[p].obj == x
  }

  ghost predicate CountsAt(p: OriginState, x: ObjectId, h: Handles) {
    && p.registrations == RegistrationsOn(h.registrations, x)
    && p.waiting == |WaitersOn(h.waiters, x)|
    && p.inFlight == |PermitsOn(h.permits, x)| + h.leaks[x]
  }

  ghost predicate Counts(objects: map<ObjectId, Object>, h: Handles) {
    && (forall x <- objects :: CountsAt(objects[x].pacing, x, h))
    && (forall id <- h.registrations :: h.registrations[id].obj in objects)
    && (forall w <- h.waiters :: h.waiters[w].obj in objects)
    && (forall p <- h.permits :: h.permits[p].obj in objects)
    && (forall x <- h.leaks :: x in objects)
  }

  ghost predicate Bounds(s: State) {
    && |s.handles.waiters| <= U32_MAX
    && (forall x <- s.objects :: s.objects[x].pacing.inFlight <= U32_MAX)
    && (forall id <- s.handles.registrations ::
          0 < s.handles.registrations[id].concurrency <= U32_MAX
          && s.handles.registrations[id].delay <= MAX_PACING_DELAY)
    && |s.states| <= s.capacity
  }

  // ---- The registry ----

  predicate Busy(p: OriginState) { p.registrations != map[] || p.inFlight > 0 || p.waiting > 0 }

  predicate Mapped(states: map<Origin, ObjectId>, objects: map<ObjectId, Object>, x: ObjectId)
    requires x in objects
  {
    objects[x].origin in states && states[objects[x].origin] == x
  }

  ghost predicate Linked(states: map<Origin, ObjectId>, objects: map<ObjectId, Object>) {
    && (forall o <- states :: states[o] in objects && objects[states[o]].origin == o)
    && (forall x <- objects :: Busy(objects[x].pacing) ==> Mapped(states, objects, x))
  }

  // What a register call knows while it holds the registry lock.
  ghost predicate LockOk(l: Lock, now: Time, capacity: nat,
                         states: map<Origin, ObjectId>, objects: map<ObjectId, Object>)
    requires Linked(states, objects)
  {
    match l
    case Idle => true
    case Attaching(r, x, id) =>
      && x in objects && objects[x].origin == r.origin && Mapped(states, objects, x)
      && 0 < r.concurrency <= U32_MAX && r.delay <= MAX_PACING_DELAY
    case Scanning(r, todo, removable, scanned) =>
      && r.origin !in states && r.sampled <= now
      && 0 < r.concurrency <= U32_MAX && r.delay <= MAX_PACING_DELAY
      && Ascending(removable + todo)
      && (forall o <- todo :: o in states)
      && (|states| >= capacity ==> forall o <- states :: o in todo || o in scanned)
      && (forall o <- removable :: o in states && SafeToRetire(objects[states[o]].pacing))
  }

  ghost predicate Ids(s: State) {
    && (forall i, k | 0 <= i < k < |s.issued| :: s.issued[i] < s.issued[k])
    && (forall id <- s.issued :: 1 <= id <= U64_MAX && (s.nextId.Some? ==> id < s.nextId.value))
    && (s.nextId.Some? ==> 1 <= s.nextId.value <= U64_MAX)
    && (s.nextId.None? ==> s.issued != [])
    && (forall id <- s.handles.registrations :: id in s.issued)
    && (s.lock.Attaching? ==> s.issued != [] && s.lock.id == s.issued[|s.issued| - 1]
                              && s.lock.id !in s.handles.registrations)
  }

  // ---- Safety times ----

  function FloorOf(e: Event): Time {
    match e
    case Granted(_, t, configured, robots) => t + (if robots.Some? then Max(configured, robots.value) else configured)
    case Limited(_, t, b, r) => t + (if r.Some? then Max(b, r.value) else b)
  }

  // The origin's current state object still holds `t`.
  ghost predicate Held(states: map<Origin, ObjectId>, objects: map<ObjectId, Object>, o: Origin, t: Time) {
    o in states && states[o] in objects && Reaches(objects[states[o]].pacing, t)
  }

  ghost predicate Floors(s: State) {
    forall e <- s.history :: FloorOf(e) <= s.now || Held(s.states, s.objects, e.origin, FloorOf(e))
  }

  // Every grant respects every safety time promised before it.
  ghost predicate Spaced(history: seq<Event>) {
    forall i, k | 0 <= i < k < |history| && history[k].Granted? && history[i].origin == history[k].origin ::
      FloorOf(history[i]) <= history[k].time
  }

  ghost predicate Past(s: State) {
    forall e <- s.history :: e.time <= s.now
  }

  ghost predicate Inv(s: State) {
    && Counts(s.objects, s.handles)
    && Bounds(s)
    && Linked(s.states, s.objects)
    && LockOk(s.lock, s.now, s.capacity, s.states, s.objects)
    && Ids(s)
    && Floors(s) && Spaced(s.history) && Past(s)
  }

  // ---- Counting lemmas ----

  function One(b: bool): nat { if b then 1 else 0 }

  lemma CountOne<T>(a: set<T>, b: set<T>, x: T)
    requires a - {x} == b - {x}
    ensures |a| + One(x in b) == |b| + One(x in a)
  {
    assert x in a ==> |a - {x}| == |a| - 1;
    assert x in b ==> |b - {x}| == |b| - 1;
    assert x !in a ==> a - {x} == a;
    assert x !in b ==> b - {x} == b;
  }

  ghost predicate SameBut<T>(m: map<nat, T>, m': map<nat, T>, k: nat) {
    m - {k} == m' - {k}
  }

  lemma CountWaiters(m: map<HandleId, Waiter>, m': map<HandleId, Waiter>, w: HandleId, x: ObjectId)
    requires SameBut(m, m', w)
    ensures |WaitersOn(m', x)| + One(w in m && m[w].obj == x) == |WaitersOn(m, x)| + One(w in m' && m'[w].obj == x)
  {
    forall v | v != w ensures v in WaitersOn(m, x) <==> v in WaitersOn(m', x) {
      assert v in m - {w} <==> v in m' - {w};
      assert v in m - {w} ==> (m - {w})[v] == (m' - {w})[v];
    }
    CountOne(WaitersOn(m', x), WaitersOn(m, x), w);
  }

  lemma CountPermits(m: map<HandleId, Permit>, m': map<HandleId, Permit>, p: HandleId, x: ObjectId)
    requires SameBut(m, m', p)
    ensures |PermitsOn(m', x)| + One(p in m && m[p].obj == x) == |PermitsOn(m, x)| + One(p in m' && m'[p].obj == x)
  {
    forall v | v != p ensures v in PermitsOn(m, x) <==> v in PermitsOn(m', x) {
      assert v in m - {p} <==> v in m' - {p};
      assert v in m - {p} ==> (m - {p})[v] == (m' - {p})[v];
    }
    CountOne(PermitsOn(m', x), PermitsOn(m, x), p);
  }

  // One waiter and one permit may change, both on object x.
  ghost predicate Swaps(x: ObjectId, h: Handles, h': Handles, w: HandleId, k: HandleId) {
    && h'.registrations == h.registrations
    && (h.waiters == h'.waiters
        || (SameBut(h.waiters, h'.waiters, w)
            && (w in h.waiters ==> h.waiters[w].obj == x) && (w in h'.waiters ==> h'.waiters[w].obj == x)))
    && (h.permits == h'.permits
        || (SameBut(h.permits, h'.permits, k)
            && (k in h.permits ==> h.permits[k].obj == x) && (k in h'.permits ==> h'.permits[k].obj == x)))
    && (forall y | y != x :: h'.leaks[y] == h.leaks[y])
  }

  lemma OthersKept(x: ObjectId, h: Handles, h': Handles, w: HandleId, k: HandleId, p: OriginState, y: ObjectId)
    requires Swaps(x, h, h', w, k) && y != x && CountsAt(p, y, h)
    ensures CountsAt(p, y, h')
  {
    CountWaiters(h.waiters, h'.waiters, w, y);
    CountPermits(h.permits, h'.permits, k, y);
  }

  lemma HandlesStayInside(objects: map<ObjectId, Object>, x: ObjectId, h: Handles, h': Handles, w: HandleId, k: HandleId)
    requires Counts(objects, h) && x in objects && Swaps(x, h, h', w, k)
    ensures forall v <- h'.waiters :: h'.waiters[v].obj in objects
    ensures forall v <- h'.permits :: h'.permits[v].obj in objects
    ensures forall y <- h'.leaks :: y in objects
  {
    forall v <- h'.waiters ensures h'.waiters[v].obj in objects {
      if h.waiters != h'.waiters && v != w { assert v in h'.waiters - {w}; assert v in h.waiters - {w}; }
    }
    forall v <- h'.permits ensures h'.permits[v].obj in objects {
      if h.permits != h'.permits && v != k { assert v in h'.permits - {k}; assert v in h.permits - {k}; }
    }
  }

  lemma CountsKept(objects: map<ObjectId, Object>, h: Handles, x: ObjectId, p: OriginState, h': Handles,
                   w: HandleId, k: HandleId)
    requires Counts(objects, h) && x in objects && Swaps(x, h, h', w, k)
    requires p.registrations == objects[x].pacing.registrations
    requires p.waiting + One(w in h.waiters) == objects[x].pacing.waiting + One(w in h'.waiters)
    requires p.inFlight + One(k in h.permits) + h.leaks[x]
          == objects[x].pacing.inFlight + One(k in h'.permits) + h'.leaks[x]
    ensures Counts(objects[x := objects[x].(pacing := p)], h')
  {
    HandlesStayInside(objects, x, h, h', w, k);
    var objects' := objects[x := objects[x].(pacing := p)];
    forall y <- objects' ensures CountsAt(objects'[y].pacing, y, h') {
      assert CountsAt(objects[y].pacing, y, h);
      if y == x {
        CountWaiters(h.waiters, h'.waiters, w, x);
        CountPermits(h.permits, h'.permits, k, x);
      } else {
        OthersKept(x, h, h', w, k, objects[y].pacing, y);
      }
    }
  }

  lemma AddedOn(m: map<RegistrationId, Registration>, id: RegistrationId, r: Registration, y: ObjectId)
    requires id !in m
    ensures RegistrationsOn(m[id := r], y)
         == if y == r.obj then RegistrationsOn(m, y)[id := r.concurrency] else RegistrationsOn(m, y)
  {}

  lemma RemovedOn(m: map<RegistrationId, Registration>, id: RegistrationId, y: ObjectId)
    requires id in m
    ensures RegistrationsOn(m - {id}, y)
         == if y == m[id].obj then RegistrationsOn(m, y) - {id} else RegistrationsOn(m, y)
  {}

  lemma AddRegistrationCounts(objects: map<ObjectId, Object>, h: Handles, id: RegistrationId, r: Registration)
    requires Counts(objects, h) && r.obj in objects && id !in h.registrations
    ensures var p := objects[r.obj].pacing;
            Counts(objects[r.obj := objects[r.obj].(pacing := p.(registrations := p.registrations[id := r.concurrency]))],
                   h.(registrations := h.registrations[id := r]))
  {
    forall y <- objects ensures CountsAt(objects[y].pacing, y, h) {}
    hide RegistrationsOn, WaitersOn, PermitsOn;
    forall y { AddedOn(h.registrations, id, r, y); }
  }

  lemma RemoveRegistrationCounts(objects: map<ObjectId, Object>, h: Handles, id: RegistrationId)
    requires Counts(objects, h) && id in h.registrations
    ensures var x := h.registrations[id].obj;
            var p := objects[x].pacing;
            Counts(objects[x := objects[x].(pacing := p.(registrations := p.registrations - {id}))],
                   h.(registrations := h.registrations - {id}))
  {
    forall y <- objects ensures CountsAt(objects[y].pacing, y, h) {}
    hide RegistrationsOn, WaitersOn, PermitsOn;
    forall y { RemovedOn(h.registrations, id, y); }
  }

  // A live handle is counted by its object.
  lemma RegistrationCounted(objects: map<ObjectId, Object>, h: Handles, id: RegistrationId)
    requires Counts(objects, h) && id in h.registrations
    ensures h.registrations[id].obj in objects
    ensures id in objects[h.registrations[id].obj].pacing.registrations
    ensures Busy(objects[h.registrations[id].obj].pacing)
  {
    var x := h.registrations[id].obj;
    assert CountsAt(objects[x].pacing, x, h);
    assert id in RegistrationsOn(h.registrations, x);
  }

  lemma WaiterCounted(objects: map<ObjectId, Object>, h: Handles, w: HandleId)
    requires Counts(objects, h) && w in h.waiters
    ensures h.waiters[w].obj in objects && objects[h.waiters[w].obj].pacing.waiting > 0
  {
    var x := h.waiters[w].obj;
    assert CountsAt(objects[x].pacing, x, h);
    assert w in WaitersOn(h.waiters, x);
  }

  lemma PermitCounted(objects: map<ObjectId, Object>, h: Handles, p: HandleId)
    requires Counts(objects, h) && p in h.permits
    ensures h.permits[p].obj in objects && objects[h.permits[p].obj].pacing.inFlight > 0
  {
    var x := h.permits[p].obj;
    assert CountsAt(objects[x].pacing, x, h);
    assert p in PermitsOn(h.permits, x);
  }

  lemma {:induction false} Subset<T>(a: set<T>, b: set<T>)
    requires a <= b
    ensures |a| <= |b|
  {
    if a != {} {
      var x :| x in a;
      Subset(a - {x}, b - {x});
    }
  }

  lemma WaitersFit(objects: map<ObjectId, Object>, h: Handles, x: ObjectId)
    requires Counts(objects, h) && x in objects
    ensures objects[x].pacing.waiting <= |h.waiters|
  {
    assert CountsAt(objects[x].pacing, x, h);
    Subset(WaitersOn(h.waiters, x), h.waiters.Keys);
  }

  // A concurrency bound is a 32-bit number, so the counter never saturates.
  lemma RoomBounded(s: State, x: ObjectId)
    requires Counts(s.objects, s.handles) && Bounds(s) && x in s.objects
    requires HasRoom(s.objects[x].pacing) && s.objects[x].pacing.registrations != map[]
    ensures s.objects[x].pacing.inFlight < U32_MAX
  {
    var r := s.objects[x].pacing.registrations;
    var id :| id in r;
    assert CountsAt(s.objects[x].pacing, x, s.handles);
    assert id in RegistrationsOn(s.handles.registrations, x);
  }

  // ---- One object changes ----

  // Every deadline of `p` that lies after `now` survives in `q`.
  ghost predicate Outlives(p: OriginState, q: OriginState, now: Time) {
    forall t: Time :: Reaches(p, t) ==> t <= now || Reaches(q, t)
  }

  lemma TouchKeepsRegistry(s: State, x: ObjectId, p: OriginState)
    requires Linked(s.states, s.objects) && LockOk(s.lock, s.now, s.capacity, s.states, s.objects) && x in s.objects
    requires Busy(s.objects[x].pacing) || (SafeToRetire(s.objects[x].pacing) ==> SafeToRetire(p))
    requires Busy(p) ==> Mapped(s.states, s.objects, x)
    ensures Linked(s.states, Touch(s, x, p).objects)
    ensures LockOk(s.lock, s.now, s.capacity, s.states, Touch(s, x, p).objects)
  {}

  lemma TouchKeepsFloors(s: State, x: ObjectId, p: OriginState)
    requires Floors(s) && x in s.objects && Outlives(s.objects[x].pacing, p, s.now)
    ensures Floors(Touch(s, x, p))
  {
    var t := Touch(s, x, p);
    forall e <- t.history ensures FloorOf(e) <= t.now || Held(t.states, t.objects, e.origin, FloorOf(e)) {
      assert FloorOf(e) <= s.now || Held(s.states, s.objects, e.origin, FloorOf(e));
    }
  }

  lemma AdmitOutlives(p: OriginState, now: Time, delay: Duration, horizon: Time)
    ensures Outlives(p, AdmitNext(p, now, delay, horizon), now)
  {
    forall t: Time | Reaches(p, t) ensures t <= now || Reaches(AdmitNext(p, now, delay, horizon), t) {
      AdmitKeepsDeadlines(p, now, delay, horizon, t);
    }
  }

  lemma RecordOutlives(p: OriginState, outcome: Outcome, sampled: Time, horizon: Time, now: Time)
    requires sampled <= now
    ensures Outlives(p, RecordNext(p, outcome, sampled, horizon).0, now)
  {
    forall t: Time | Reaches(p, t) ensures t <= now || Reaches(RecordNext(p, outcome, sampled, horizon).0, t) {
      RecordKeepsDeadlines(p, outcome, sampled, horizon, t);
    }
  }

  // ---- Steps ----

  // What one step on object x may add to the history.
  ghost predicate Extends(s: State, x: ObjectId, p: OriginState, history: seq<Event>)
    requires x in s.objects
  {
    || history == s.history
    || (&& |history| == |s.history| + 1 && history[..|s.history|] == s.history
        && (var e := history[|s.history|];
            && e.origin == s.objects[x].origin && e.time <= s.now
            && (FloorOf(e) <= s.now || Reaches(p, FloorOf(e)))
            && (e.Granted? ==> e.time == s.now && AllPassed(s.objects[x].pacing, s.now))))
  }

  lemma PassedMeansNoLater(p: OriginState, now: Time, t: Time)
    requires AllPassed(p, now) && Reaches(p, t)
    ensures t <= now
  {}

  lemma HistoryKept(s: State, x: ObjectId, p: OriginState, history: seq<Event>)
    requires Floors(s) && Spaced(s.history) && Past(s)
    requires x in s.objects && Mapped(s.states, s.objects, x)
    requires Outlives(s.objects[x].pacing, p, s.now) && Extends(s, x, p, history)
    ensures var t := Touch(s, x, p).(history := history);
            Floors(t) && Spaced(history) && Past(t)
  {
    var t := Touch(s, x, p).(history := history);
    TouchKeepsFloors(s, x, p);
    forall e <- history ensures FloorOf(e) <= t.now || Held(t.states, t.objects, e.origin, FloorOf(e)) {
      if e in s.history {
        assert e in Touch(s, x, p).history;
      }
    }
    if history != s.history && history[|s.history|].Granted? {
      forall i | 0 <= i < |s.history| && history[i].origin == history[|s.history|].origin
        ensures FloorOf(history[i]) <= s.now
      {
        assert history[i] == s.history[i];
        if FloorOf(history[i]) > s.now {
          PassedMeansNoLater(s.objects[x].pacing, s.now, FloorOf(history[i]));
        }
      }
    }
    forall i, k | 0 <= i < k < |history| && history[k].Granted? && history[i].origin == history[k].origin
      ensures FloorOf(history[i]) <= history[k].time
    {
      assert history[i] == s.history[i];
      assert k < |s.history| ==> history[k] == s.history[k];
    }
  }

  // One step through a live handle on object x.
  lemma ObjectStepKeeps(s: State, x: ObjectId, p: OriginState, h: Handles, history: seq<Event>)
    requires Inv(s) && x in s.objects && Busy(s.objects[x].pacing)
    requires Counts(Touch(s, x, p).objects, h)
    requires Outlives(s.objects[x].pacing, p, s.now) && Extends(s, x, p, history)
    requires p.inFlight <= U32_MAX && |h.waiters| <= U32_MAX
    requires forall id <- h.registrations :: id in s.handles.registrations && h.registrations[id] == s.handles.registrations[id]
    ensures Inv(Touch(s, x, p).(handles := h, history := history))
  {
    hide Counts, Outlives, Extends, Floors, Past, Spaced, LockOk, Reaches;
    HistoryKept(s, x, p, history);
    TouchKeepsRegistry(s, x, p);
    var t := Touch(s, x, p).(handles := h, history := history);
    assert Floors(t) && Past(t) by {
      HistoryFrame(Touch(s, x, p).(history := history), h);
    }
  }

  lemma HistoryFrame(s: State, h: Handles)
    requires Floors(s) && Past(s)
    ensures Floors(s.(handles := h)) && Past(s.(handles := h))
  {}
}
