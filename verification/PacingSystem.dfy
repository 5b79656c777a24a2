/**
 The process-wide pacing registry and every live handle on it: registrations,
 waiters and permits each hold a reference (`ObjectId`) to the state object they
 were given.  One step per critical section; `register` takes the registry lock,
 locks each origin in turn while it looks for states to retire, and attaches the
 new registration before it lets the registry go.  Origins are numbered by their
 place in the order of OriginKey.
 */
module PacingSystem {
  import opened Wrappers
  import opened Pacing

  type Origin = nat
  type ObjectId = nat
  type HandleId = nat

  datatype Object = Object(origin: Origin, pacing: OriginState)

  datatype Registration = Registration(obj: ObjectId, concurrency: nat, delay: Duration)
  // The registration's own delay and that of robots, as they were when the acquisition began.
  datatype Waiter = Waiter(obj: ObjectId, configured: Duration, robots: Option<Duration>, done: bool) {
    function Delay(): Duration { EffectiveDelay(configured, robots) }
  }
  datatype Permit = Permit(obj: ObjectId, recorded: bool)

  // `leaks` counts admissions that overflowed the clock after the counter went up.
  datatype Handles = Handles(
    registrations: map<RegistrationId, Registration>,
    waiters: map<HandleId, Waiter>,
    permits: map<HandleId, Permit>,
    leaks: multiset<ObjectId>)

  datatype Request = Request(origin: Origin, concurrency: nat, delay: Duration, sampled: Time)

  // The registry mutex: free, or held by one `register` call and how far it is.
  datatype Lock =
    | Idle
    | Scanning(request: Request, todo: seq<Origin>, removable: seq<Origin>, scanned: set<Origin>)
    | Attaching(request: Request, obj: ObjectId, id: RegistrationId)

  datatype Event =
    | Granted(origin: Origin, time: Time, configured: Duration, robots: Option<Duration>)
    | Limited(origin: Origin, time: Time, backoff: Duration, retryAfter: Option<Duration>)

  datatype State = State(
    capacity: nat,
    horizon: Time,
    now: Time,
    states: map<Origin, ObjectId>,
    nextId: Option<RegistrationId>,
    lock: Lock,
    objects: map<ObjectId, Object>,
    handles: Handles,
    history: seq<Event>,
    issued: seq<RegistrationId>)

  datatype Step =
    | Tick(d: Duration)
    | BeginRegister(request: Request, keys: seq<Origin>)
    | ScanOne | CommitRegister(made: ObjectId) | Attach
    | DropRegistration(id: RegistrationId)
    | StartAcquire(w: HandleId, id: RegistrationId, robots: Option<Duration>)
    | TryAcquire(w: HandleId, p: HandleId)
    | DropWaiter(w: HandleId)
    | Record(p: HandleId, outcome: Outcome, sampled: Time)
    | DropPermit(p: HandleId)

  // The steps of registrations and of the registry's lock.
  predicate OfRegistry(st: Step) {
    st.Tick? || st.BeginRegister? || st.ScanOne? || st.CommitRegister? || st.Attach? || st.DropRegistration?
  }

  function Init(capacity: nat, horizon: Time): State {
    State(capacity, horizon, 0, map[], Some(1), Idle, map[],
          Handles(map[], map[], map[], multiset{}), [], [])
  }

  ghost predicate Ascending(keys: seq<Origin>) {
    forall i, k | 0 <= i < k < |keys| :: keys[i] < keys[k]
  }

  // The iteration order of the BTreeMap.
  ghost predicate InOrder(keys: seq<Origin>, states: map<Origin, ObjectId>) {
    Ascending(keys) && forall o :: o in keys <==> o in states
  }

  function Touch(s: State, x: ObjectId, p: OriginState): State
    requires x in s.objects
  {
    s.(objects := s.objects[x := s.objects[x].(pacing := p)])
  }

  /** Allocates the next registration id, if one is left. */
  function Allocate(s: State, request: Request, x: ObjectId): State {
    match s.nextId
    case None => s.(lock := Idle)
    case Some(id) =>
      s.(lock := Attaching(request, x, id), nextId := if id < U64_MAX then Some(id + 1) else None,
         issued := s.issued + [id])
  }

  /** The loop of prune_safe_states over the removable origins, in key order. */
  function Prune<T>(states: map<Origin, T>, removable: seq<Origin>, capacity: nat): map<Origin, T> {
    if removable == [] || |states| < capacity then states
    else Prune(states - {removable[0]}, removable[1..], capacity)
  }

  function Commit(s: State, request: Request, removable: seq<Origin>, made: ObjectId): State {
    var kept := Prune(s.states, removable, s.capacity);
    if |kept| >= s.capacity then s.(states := kept, lock := Idle)
    else Allocate(s.(lock := Idle, states := kept[request.origin := made],
                     objects := s.objects[made := Object(request.origin, FreshOrigin)]), request, made)
  }

  predicate Valid(s: State, r: Request) {
    && FromSnapshot(r.concurrency, r.delay) == None && r.concurrency <= U32_MAX
    && r.sampled <= s.now
  }

  ghost predicate Enabled(s: State, st: Step) {
    match st
    case Tick(_) => true
    case BeginRegister(r, keys) => s.lock.Idle? && Valid(s, r) && InOrder(keys, s.states)
    case ScanOne => s.lock.Scanning? && s.lock.todo != [] && s.lock.todo[0] in s.states
                    && s.states[s.lock.todo[0]] in s.objects
    case CommitRegister(made) => s.lock.Scanning? && s.lock.todo == [] && made !in s.objects
    case Attach => s.lock.Attaching? && s.lock.obj in s.objects
    case DropRegistration(id) =>
      id in s.handles.registrations && s.handles.registrations[id].obj in s.objects
    case StartAcquire(w, id, _) =>
      && id in s.handles.registrations && s.handles.registrations[id].obj in s.objects
      && w !in s.handles.waiters && |s.handles.waiters| < U32_MAX
    case TryAcquire(w, p) =>
      && w in s.handles.waiters && !s.handles.waiters[w].done && s.handles.waiters[w].obj in s.objects
      && p !in s.handles.permits
    case DropWaiter(w) => w in s.handles.waiters && s.handles.waiters[w].obj in s.objects
    case Record(p, _, sampled) =>
      p in s.handles.permits && s.handles.permits[p].obj in s.objects && sampled <= s.now
    case DropPermit(p) => p in s.handles.permits && s.handles.permits[p].obj in s.objects
  }

  function BeginNext(s: State, r: Request, keys: seq<Origin>): State {
    if r.origin in s.states then Allocate(s, r, s.states[r.origin])
    else s.(lock := Scanning(r, if |s.states| >= s.capacity then keys else [], [], {}))
  }

  function ScanNext(s: State): State
    requires s.lock.Scanning? && s.lock.todo != [] && s.lock.todo[0] in s.states
    requires s.states[s.lock.todo[0]] in s.objects
  {
    var o := s.lock.todo[0];
    var x := s.states[o];
    var p := Normalize(s.objects[x].pacing, s.lock.request.sampled);
    Touch(s, x, p).(lock := s.lock.(todo := s.lock.todo[1..], scanned := s.lock.scanned + {o},
      removable := if SafeToRetire(p) then s.lock.removable + [o] else s.lock.removable))
  }

  function AttachNext(s: State): State
    requires s.lock.Attaching? && s.lock.obj in s.objects
  {
    var r, x, id := s.lock.request, s.lock.obj, s.lock.id;
    var p := s.objects[x].pacing;
    Touch(s, x, p.(registrations := p.registrations[id := r.concurrency])).(lock := Idle,
      handles := s.handles.(registrations :=
        s.handles.registrations[id := Registration(x, r.concurrency, r.delay)]))
  }

  function DropRegistrationNext(s: State, id: RegistrationId): State
    requires id in s.handles.registrations && s.handles.registrations[id].obj in s.objects
  {
    var x := s.handles.registrations[id].obj;
    var p := s.objects[x].pacing;
    Touch(s, x, p.(registrations := p.registrations - {id})).(
      handles := s.handles.(registrations := s.handles.registrations - {id}))
  }

  function StartAcquireNext(s: State, w: HandleId, id: RegistrationId, robots: Option<Duration>): State
    requires id in s.handles.registrations && s.handles.registrations[id].obj in s.objects
  {
    var r := s.handles.registrations[id];
    var p := s.objects[r.obj].pacing;
    Touch(s, r.obj, AddWaiter(p)).(
      handles := s.handles.(waiters := s.handles.waiters[w := Waiter(r.obj, r.delay, robots, false)]))
  }

  // A waiter that was granted or refused only has its guard left to drop.
  function HandlesAfter(h: Handles, w: HandleId, p: HandleId, a: Attempt): Handles
    requires w in h.waiters
  {
    var done := h.waiters[w := h.waiters[w].(done := true)];
    match a
    case Wait(_) => h
    case Acquired => h.(waiters := done, permits := h.permits[p := Permit(h.waiters[w].obj, false)])
    case Refuse(e) =>
      h.(waiters := done, leaks := if e == ClockOverflow then h.leaks + multiset{h.waiters[w].obj} else h.leaks)
  }

  /** One turn of the retry loop of acquire_with_delay_inner. */
  function TryAcquireNext(s: State, w: HandleId, p: HandleId): State
    requires w in s.handles.waiters && s.handles.waiters[w].obj in s.objects
  {
    var g := s.handles.waiters[w];
    var o := s.objects[g.obj];
    var a := AttemptOf(o.pacing, s.now, g.Delay(), s.horizon);
    Touch(s, g.obj, AdmitNext(o.pacing, s.now, g.Delay(), s.horizon)).(
      handles := HandlesAfter(s.handles, w, p, a),
      history := if a.Acquired? then s.history + [Granted(o.origin, s.now, g.configured, g.robots)] else s.history)
  }

  function DropWaiterNext(s: State, w: HandleId): State
    requires w in s.handles.waiters && s.handles.waiters[w].obj in s.objects
  {
    var x := s.handles.waiters[w].obj;
    var p := s.objects[x].pacing;
    Touch(s, x, ReleaseWaiter(p)).(
      handles := s.handles.(waiters := s.handles.waiters - {w}))
  }

  /** AdmissionPermit::record_outcome: only the first call does anything. */
  function RecordOnce(s: State, p: HandleId, outcome: Outcome, sampled: Time): State
    requires p in s.handles.permits && s.handles.permits[p].obj in s.objects
  {
    var h := s.handles.permits[p];
    if h.recorded then s
    else
      var o := s.objects[h.obj];
      var (n, done) := RecordNext(o.pacing, outcome, sampled, s.horizon);
      Touch(s, h.obj, n).(
        handles := s.handles.(permits := s.handles.permits[p := h.(recorded := true)]),
        history := if outcome.RateLimited? && done
                   then s.history + [Limited(o.origin, sampled, BoundedBackoff(n.consecutive), DelayOf(outcome.retryAfter))]
                   else s.history)
  }

  function DropPermitNext(s: State, p: HandleId): State
    requires p in s.handles.permits && s.handles.permits[p].obj in s.objects
  {
    var x := s.handles.permits[p].obj;
    var o := s.objects[x].pacing;
    Touch(s, x, o.(inFlight := if o.inFlight == 0 then 0 else o.inFlight - 1)).(
      handles := s.handles.(permits := s.handles.permits - {p}))
  }

  ghost function Apply(s: State, st: Step): State
    requires Enabled(s, st)
  {
    match st
    case Tick(d) => s.(now := s.now + d)
    case BeginRegister(r, keys) => BeginNext(s, r, keys)
    case ScanOne => ScanNext(s)
    case CommitRegister(made) => Commit(s, s.lock.request, s.lock.removable, made)
    case Attach => AttachNext(s)
    case DropRegistration(id) => DropRegistrationNext(s, id)
    case StartAcquire(w, id, robots) => StartAcquireNext(s, w, id, robots)
    case TryAcquire(w, p) => TryAcquireNext(s, w, p)
    case DropWaiter(w) => DropWaiterNext(s, w)
    case Record(p, outcome, sampled) => RecordOnce(s, p, outcome, sampled)
    case DropPermit(p) => DropPermitNext(s, p)
  }

  ghost function Run(s: State, steps: seq<Step>): Option<State>
    decreases |steps|
  {
    if steps == [] then Some(s)
    else if Enabled(s, steps[0]) then Run(Apply(s, steps[0]), steps[1..])
    else None
  }
}
