/**
 The pacing state as the program keeps it: one mutable object per origin, changed
 in place under its mutex, and the registry that maps origins to those objects.
 Every method is tied to the functions the transition system is built from.
 */
module PacingShared {
  import opened Wrappers
  import opened Pacing
  import opened PacingSystem
  import opened PacingInvariant

  // One turn of the retry loop: the state other tasks left, whether the signal was set, the clock.
  datatype Turn = Turn(left: OriginState, cancelled: bool, now: Time)

  datatype Exit = StillWaiting | Admitted | GaveUp(error: AdmissionError)

  predicate Waits(t: Turn, delay: Duration, horizon: Time) {
    !t.cancelled && AttemptOf(t.left, t.now, delay, horizon).Wait?
  }

  /** How a turn that ends the loop ends it, and the state it leaves. */
  predicate Leaves(t: Turn, delay: Duration, horizon: Time, exit: Exit, after: OriginState) {
    if t.cancelled then exit == GaveUp(Cancelled) && after == ReleaseWaiter(t.left)
    else
      && after == ReleaseWaiter(AdmitNext(t.left, t.now, delay, horizon))
      && match AttemptOf(t.left, t.now, delay, horizon)
         case Acquired => exit == Admitted
         case Refuse(e) => exit == GaveUp(e)
         case Wait(_) => false
  }

  class OriginPacing {
    var inFlight: nat
    var registrations: map<RegistrationId, nat>
    var waiting: nat
    var nextRequestAt: Option<Time>
    var backoffUntil: Option<Time>
    var retryAfterUntil: Option<Time>
    var consecutive: nat

    function View(): OriginState
      reads this
    {
      OriginState(inFlight, registrations, waiting, nextRequestAt, backoffUntil, retryAfterUntil, consecutive)
    }

    constructor ()
      ensures View() == FreshOrigin
    {
      inFlight, registrations, waiting, consecutive := 0, map[], 0, 0;
      nextRequestAt, backoffUntil, retryAfterUntil := None, None, None;
    }

    method NormalizeExpiredSafety(now: Time)
      modifies this
      ensures View() == Normalize(old(View()), now)
    {
      if nextRequestAt.Some? && nextRequestAt.value <= now { nextRequestAt := None; }
      if backoffUntil.Some? && backoffUntil.value <= now { backoffUntil := None; }
      if retryAfterUntil.Some? && retryAfterUntil.value <= now { retryAfterUntil := None; }
    }

    /** The minimum over the live registrations. */
    method EffectiveConcurrency() returns (r: Option<nat>)
      ensures r.None? <==> registrations == map[]
      ensures r.Some? ==> exists id :: id in registrations && registrations[id] == r.value
      ensures r.Some? ==> forall id <- registrations :: r.value <= registrations[id]
    {
      r := None;
      var todo := registrations.Keys;
      ghost var least: RegistrationId := 0;
      while todo != {}
        invariant todo <= registrations.Keys
        invariant r.None? ==> todo == registrations.Keys
        invariant r.Some? ==> least in registrations && registrations[least] == r.value
        invariant r.Some? ==> forall id <- registrations.Keys - todo :: r.value <= registrations[id]
        decreases |todo|
      {
        var id :| id in todo;
        if r.None? || registrations[id] < r.value {
          r := Some(registrations[id]);
          least := id;
        }
        todo := todo - {id};
      }
    }

    method AddRegistration(id: RegistrationId, concurrency: nat)
      modifies this
      ensures View() == old(View()).(registrations := old(registrations)[id := concurrency])
    {
      registrations := registrations[id := concurrency];
    }

    method ReleaseRegistration(id: RegistrationId)
      modifies this
      ensures View() == old(View()).(registrations := old(registrations) - {id})
    {
      registrations := registrations - {id};
    }

    /** One turn of the retry loop of acquire_with_delay_inner, under the origin lock. */
    method TryAdmit(now: Time, delay: Duration, horizon: Time) returns (a: Attempt)
      modifies this
      ensures a == AttemptOf(old(View()), now, delay, horizon)
      ensures View() == AdmitNext(old(View()), now, delay, horizon)
    {
      NormalizeExpiredSafety(now);
      var effective := EffectiveConcurrency();
      if effective.None? {
        return Refuse(RegistrationReleased);
      }
      var notBefore := LatestDeadline(View());
      if inFlight < effective.value && (notBefore.None? || notBefore.value <= now) {
        inFlight := if inFlight < U32_MAX then inFlight + 1 else U32_MAX;
        if now + delay > horizon {
          return Refuse(ClockOverflow);
        }
        nextRequestAt := Some(now + delay);
        return Acquired;
      }
      return Wait(if notBefore.Some? && notBefore.value > now then notBefore else None);
    }

    // What other tasks left of the state while this one was not holding the lock.
    method Interfere(left: OriginState)
      modifies this
      ensures View() == left
    {
      inFlight, registrations, waiting, consecutive := left.inFlight, left.registrations, left.waiting, left.consecutive;
      nextRequestAt, backoffUntil, retryAfterUntil := left.nextRequestAt, left.backoffUntil, left.retryAfterUntil;
    }

    /** acquire_with_delay_inner: one guard around a retry loop.  Turn by turn it waits until it
        is admitted, refused or cancelled, and the guard is released once on every way out. */
    method Acquire(configured: Duration, robots: Option<Duration>, horizon: Time, turns: seq<Turn>)
      returns (delay: Duration, exit: Exit, k: nat)
      modifies this
      ensures delay == EffectiveDelay(configured, robots)
      ensures k <= |turns| && forall i | 0 <= i < k :: Waits(turns[i], delay, horizon)
      ensures exit.StillWaiting? ==> k == |turns|
      ensures exit.StillWaiting? ==>
                View() == if k == 0 then AddWaiter(old(View())) else AdmitNext(turns[k - 1].left, turns[k - 1].now, delay, horizon)
      ensures !exit.StillWaiting? ==> k < |turns| && Leaves(turns[k], delay, horizon, exit, View())
    {
      hide AttemptOf, AdmitNext;
      delay := if robots.Some? && configured < robots.value then robots.value else configured;
      waiting := if waiting < U32_MAX then waiting + 1 else U32_MAX;
      k := 0;
      while k < |turns|
        invariant k <= |turns| && forall i | 0 <= i < k :: Waits(turns[i], delay, horizon)
        invariant View() == if k == 0 then AddWaiter(old(View())) else AdmitNext(turns[k - 1].left, turns[k - 1].now, delay, horizon)
      {
        Interfere(turns[k].left);
        if turns[k].cancelled {
          DropGuard();
          return delay, GaveUp(Cancelled), k;
        }
        var a := TryAdmit(turns[k].now, delay, horizon);
        match a {
          case Acquired =>
            DropGuard();
            return delay, Admitted, k;
          case Refuse(e) =>
            DropGuard();
            return delay, GaveUp(e), k;
          case Wait(_) =>
        }
        k := k + 1;
      }
      return delay, StillWaiting, k;
    }

    method DropGuard()
      modifies this`waiting
      ensures View() == ReleaseWaiter(old(View()))
    {
      waiting := if waiting == 0 then 0 else waiting - 1;
    }

    method RecordOutcome(outcome: Outcome, now: Time, horizon: Time) returns (done: bool)
      requires consecutive <= U8_MAX
      modifies this
      ensures (View(), done) == RecordNext(old(View()), outcome, now, horizon)
    {
      NormalizeExpiredSafety(now);
      match outcome {
      case Success => consecutive := 0;
      case Failed =>
      case RateLimited(retry) =>
        if consecutive < U8_MAX { consecutive := consecutive + 1; }
        var backoff := BoundedBackoff(consecutive);
        if now + backoff > horizon { return false; }
        backoffUntil := Some(LaterDeadline(backoffUntil, now + backoff));
        var delay := DelayOf(retry);
        if delay.Some? {
          if now + delay.value > horizon { return false; }
          retryAfterUntil := Some(LaterDeadline(retryAfterUntil, now + delay.value));
        }
      }
      return true;
    }

    method IsSafeToRetire(now: Time) returns (safe: bool)
      modifies this
      ensures View() == Normalize(old(View()), now)
      ensures safe == SafeToRetire(View())
    {
      NormalizeExpiredSafety(now);
      safe := registrations == map[] && inFlight == 0 && waiting == 0
              && nextRequestAt.None? && backoffUntil.None? && retryAfterUntil.None?;
    }
  }

  predicate IsLeast(o: Origin, s: set<Origin>) {
    o in s && forall k <- s :: o <= k
  }

  ghost predicate Below(removable: seq<Origin>, todo: set<Origin>) {
    forall o <- removable, k <- todo :: o < k
  }

  lemma {:induction false} LeastExists(s: set<nat>) returns (least: nat)
    requires s != {}
    ensures IsLeast(least, s)
    decreases |s|
  {
    least :| least in s;
    var rest := s - {least};
    if rest != {} {
      var k := LeastExists(rest);
      assert forall i <- s :: i == least || i in rest;
      least := if least <= k then least else k;
    } else {
      assert forall i <- s :: i != least ==> i in rest;
    }
  }

  // Every state outside `todo` has been normalized, and nothing else happened.
  ghost predicate NormalizedBut(was: map<Origin, OriginState>, v: map<Origin, OriginState>, todo: set<Origin>, now: Time) {
    v.Keys == was.Keys && forall o <- was :: v[o] == if o in todo then was[o] else Normalize(was[o], now)
  }

  ghost function NormalizeAll(v: map<Origin, OriginState>, now: Time): map<Origin, OriginState> {
    map o | o in v :: Normalize(v[o], now)
  }

  // The origins of `v` outside `todo` that may retire, in key order.
  ghost predicate IsRemovable(removable: seq<Origin>, v: map<Origin, OriginState>, todo: set<Origin>) {
    && Ascending(removable)
    && (forall o :: o in removable <==> o in v && o !in todo && SafeToRetire(v[o]))
  }

  class OriginRegistry {
    const capacity: nat
    var states: map<Origin, OriginPacing>
    var nextId: Option<RegistrationId>
    ghost var Repr: set<OriginPacing>

    ghost predicate Valid()
      reads this
    {
      Owned(states, Repr) && (nextId.Some? ==> nextId.value <= U64_MAX)
    }

    ghost function Views(): (v: map<Origin, OriginState>)
      requires Owned(states, Repr)
      reads this`states, this`Repr, Repr
      ensures v.Keys == states.Keys
    {
      map o | o in states :: states[o].View()
    }

    constructor (capacity: nat)
      ensures Valid() && this.capacity == capacity && states == map[] && nextId == Some(1) && Repr == {}
    {
      this.capacity, states, nextId, Repr := capacity, map[], Some(1), {};
    }

    method Check(o: Origin, now: Time) returns (safe: bool)
      requires Valid() && o in states
      modifies Repr
      ensures Valid()
      ensures Views() == old(Views())[o := Normalize(old(Views())[o], now)]
      ensures safe == SafeToRetire(Views()[o])
    {
      safe := states[o].IsSafeToRetire(now);
    }

    /** The origins that may retire at `now`, least key first.  Every state is normalized. */
    method Removable(now: Time) returns (removable: seq<Origin>)
      requires Valid()
      modifies Repr
      ensures Valid() && Views() == NormalizeAll(old(Views()), now)
      ensures IsRemovable(removable, Views(), {})
    {
      hide SafeToRetire, Normalize, Ascending, Owned, Views, IsRemovable, Below, NormalizedBut;
      removable := [];
      var todo := states.Keys;
      Nothing(Views(), now);
      while todo != {}
        invariant Valid() && todo <= states.Keys && Views().Keys == states.Keys
        invariant NormalizedBut(old(Views()), Views(), todo, now)
        invariant IsRemovable(removable, Views(), todo)
        invariant Below(removable, todo)
        decreases |todo|
      {
        ghost var least := LeastExists(todo);
        var o: Origin :| o in todo && IsLeast(o, todo);
        ghost var was := Views();
        var safe := Check(o, now);
        OneMore(old(Views()), removable, was, Views(), todo, o, now);
        todo := todo - {o};
        if safe {
          removable := removable + [o];
        }
      }
      AllNormalized(old(Views()), Views(), now);
    }

    /** Retires origins, least key first, until there is room for one more. */
    method PruneSafeStates(now: Time) returns (removable: seq<Origin>)
      requires Valid()
      modifies this`states, Repr
      ensures Valid()
      ensures IsRemovable(removable, NormalizeAll(old(Views()), now), {})
      ensures Views() == Prune(NormalizeAll(old(Views()), now), removable, capacity)
      ensures Submap(states, old(states)) && states == Prune(old(states), removable, capacity)
    {
      hide SafeToRetire, Normalize, Ascending, IsRemovable, Prune, Owned;
      removable := Removable(now);
      ghost var v := Views();
      RemoveAll(removable);
      PruneSameKeys(old(states), v, removable, capacity);
      PruneRestricts(v, removable, capacity);
      assert Views() == Prune(v, removable, capacity);
    }

    // The entry for `origin`: the one there is, or a new one if there is room.
    method FindOrInsert(origin: Origin, now: Time) returns (found: bool, ghost removable: seq<Origin>)
      requires Valid()
      modifies this`states, this`Repr, Repr
      ensures Valid() && fresh(Repr - old(Repr))
      ensures IsRemovable(removable, NormalizeAll(old(Views()), now), {})
      ensures Views() == FindNext(old(Views()), origin, now, capacity, removable)
      ensures found <==> origin in Views()
      ensures origin in old(states) ==> states == old(states)
    {
      hide Prune, SafeToRetire, Normalize, IsRemovable, Owned, Views, NormalizeAll, Submap;
      removable := LeastFirst(NormalizeAll(Views(), now));
      if origin in states {
        return true, removable;
      }
      if |states| >= capacity {
        removable := PruneSafeStates(now);
        PruneShrinks(old(Views()), now, removable, capacity);
      }
      assert |Views()| == |Views().Keys| == |states.Keys| == |states|;
      if |states| >= capacity {
        return false, removable;
      }
      Insert(origin);
      return true, removable;
    }

    method Insert(origin: Origin)
      requires Valid() && origin !in states
      modifies this`states, this`Repr
      ensures Valid() && fresh(Repr - old(Repr))
      ensures Views() == old(Views())[origin := FreshOrigin]
    {
      var made := new OriginPacing();
      states, Repr := states[origin := made], Repr + {made};
    }

    method Attach(origin: Origin, id: RegistrationId, concurrency: nat)
      requires Valid() && origin in states
      modifies Repr
      ensures Valid()
      ensures Views() == old(Views())[origin := WithRegistration(old(Views())[origin], id, concurrency)]
    {
      states[origin].AddRegistration(id, concurrency);
    }

    /** OriginRegistry::register: reuse, or prune when full and insert, then allocate an id
        and attach the registration. */
    method Register(origin: Origin, concurrency: nat, now: Time)
      returns (r: Result<RegistrationId, AdmissionError>, ghost removable: seq<Origin>)
      requires Valid()
      modifies this, Repr
      ensures Valid() && fresh(Repr - old(Repr))
      ensures IsRemovable(removable, NormalizeAll(old(Views()), now), {})
      ensures Registers(old(Views()), old(nextId), RegisterRequest(origin, concurrency, now), capacity, removable,
                        Views(), nextId, r)
      ensures origin in old(states) ==> states == old(states)
    {
      hide Prune, SafeToRetire, Normalize, IsRemovable, Owned, FindNext, Views, WithRegistration;
      var found;
      found, removable := FindOrInsert(origin, now);
      if !found {
        return Err(OriginCapacityExhausted), removable;
      }
      if nextId.None? {
        return Err(RegistrationIdExhausted), removable;
      }
      var id := nextId.value;
      nextId := if id < U64_MAX then Some(id + 1) else None;
      Attach(origin, id, concurrency);
      return Ok(id), removable;
    }

    // The second loop of prune_safe_states.
    method RemoveAll(removable: seq<Origin>)
      requires Valid()
      modifies this`states
      ensures Valid() && Submap(states, old(states)) && states == Prune(old(states), removable, capacity)
    {
      hide Prune, Owned;
      ghost var all := states;
      assert removable[0..] == removable;
      var i := 0;
      while i < |removable| && |states| >= capacity
        invariant 0 <= i <= |removable|
        invariant Prune(all, removable, capacity) == Prune(states, removable[i..], capacity)
        invariant Submap(states, all)
      {
        PruneStep(states, removable, i, capacity);
        states := states - {removable[i]};
        i := i + 1;
      }
      PruneStep(states, removable, i, capacity);
      StillOwned(all, states, Repr);
    }
  }

  datatype RegisterRequest = RegisterRequest(origin: Origin, concurrency: nat, now: Time)

  function WithRegistration(p: OriginState, id: RegistrationId, concurrency: nat): OriginState {
    p.(registrations := p.registrations[id := concurrency])
  }

  // The views after looking `origin` up, pruning and inserting as needed.
  ghost function FindNext(was: map<Origin, OriginState>, origin: Origin, now: Time, capacity: nat,
                          removable: seq<Origin>): map<Origin, OriginState>
  {
    if origin in was then was
    else
      var kept := if |was| < capacity then was else Prune(NormalizeAll(was, now), removable, capacity);
      if |kept| < capacity then kept[origin := FreshOrigin] else kept
  }

  /** What `register` does to the views of all origins and to the id counter. */
  ghost predicate Registers(was: map<Origin, OriginState>, wasId: Option<RegistrationId>, q: RegisterRequest, capacity: nat,
                            removable: seq<Origin>, v: map<Origin, OriginState>, nextId: Option<RegistrationId>,
                            r: Result<RegistrationId, AdmissionError>)
  {
    var found := FindNext(was, q.origin, q.now, capacity, removable);
    if q.origin !in found then
      r == Err(OriginCapacityExhausted) && v == found && nextId == wasId
    else if wasId.None? then
      r == Err(RegistrationIdExhausted) && v == found && nextId == None
    else
      && r == Ok(wasId.value) && nextId == (if wasId.value < U64_MAX then Some(wasId.value + 1) else None)
      && v == found[q.origin := WithRegistration(found[q.origin], wasId.value, q.concurrency)]
  }

  // There is room for one more state, or a state that may retire.
  ghost predicate CanMakeRoom(was: map<Origin, OriginState>, now: Time, capacity: nat) {
    |was| < capacity || exists o <- was :: SafeToRetire(Normalize(was[o], now))
  }

  lemma RoomAfterPruning(was: map<Origin, OriginState>, now: Time, capacity: nat, removable: seq<Origin>)
    requires |was| <= capacity && IsRemovable(removable, NormalizeAll(was, now), {})
    ensures var kept := if |was| < capacity then was else Prune(NormalizeAll(was, now), removable, capacity);
            |kept| < capacity <==> CanMakeRoom(was, now, capacity)
  {
    hide SafeToRetire, Normalize, Ascending;
    var v := NormalizeAll(was, now);
    assert v.Keys == was.Keys;
    assert |v| == |v.Keys| == |was.Keys| == |was|;
    if removable != [] {
      var o := removable[0];
      assert o in removable;
      assert o in v && SafeToRetire(v[o]);
      assert (v - {o}).Keys == v.Keys - {o};
      assert |v - {o}| == |(v - {o}).Keys| == |v| - 1;
    } else {
      forall o <- was ensures !SafeToRetire(Normalize(was[o], now)) { assert o in v && o !in removable; }
    }
  }

  /** A `register` that fails adds its origin exactly when the origin is new, there is room for it
      or a state that may retire, and no id is left; the added state is a fresh one. */
  lemma FailureAddsOrigin(was: map<Origin, OriginState>, wasId: Option<RegistrationId>, q: RegisterRequest, capacity: nat,
                          removable: seq<Origin>, v: map<Origin, OriginState>, nextId: Option<RegistrationId>,
                          r: Result<RegistrationId, AdmissionError>)
    requires Registers(was, wasId, q, capacity, removable, v, nextId, r)
    requires |was| <= capacity && IsRemovable(removable, NormalizeAll(was, q.now), {})
    ensures (r.Err? && q.origin in v && q.origin !in was) <==>
            (q.origin !in was && CanMakeRoom(was, q.now, capacity) && wasId.None?)
    ensures r.Err? && q.origin in v && q.origin !in was ==> r == Err(RegistrationIdExhausted) && v[q.origin] == FreshOrigin
  {
    RoomAfterPruning(was, q.now, capacity, removable);
    PruneShrinks(was, q.now, removable, capacity);
    hide Prune, CanMakeRoom, NormalizeAll, IsRemovable, WithRegistration;
  }

  /** Such a call: an empty registry whose ids are used up. */
  lemma FailureMayAddOrigin()
    ensures IsRemovable([], NormalizeAll(map[], 0), {})
    ensures Registers(map[], None, RegisterRequest(7, 1, 0), 1, [], map[7 := FreshOrigin], None, Err(RegistrationIdExhausted))
  {}

  lemma {:induction false} LeastFirst(v: map<Origin, OriginState>) returns (removable: seq<Origin>)
    ensures IsRemovable(removable, v, {})
  {
    removable := SortedSafe(v, set o | o in v && SafeToRetire(v[o]));
  }

  lemma {:induction false} SortedSafe(v: map<Origin, OriginState>, s: set<Origin>) returns (keys: seq<Origin>)
    ensures Ascending(keys) && forall o :: o in keys <==> o in s
    decreases |s|
  {
    keys := [];
    if s != {} {
      var least := LeastExists(s);
      var rest := SortedSafe(v, s - {least});
      keys := [least] + rest;
      forall i, k | 0 <= i < k < |keys| ensures keys[i] < keys[k] {
        assert keys[k] in rest;
      }
    }
  }

  lemma {:induction false} PruneSameKeys<A, B>(m: map<Origin, A>, v: map<Origin, B>, removable: seq<Origin>, capacity: nat)
    requires m.Keys == v.Keys
    ensures Prune(m, removable, capacity).Keys == Prune(v, removable, capacity).Keys
    decreases |removable|
  {
    assert |m| == |m.Keys| && |v| == |v.Keys|;
    if removable != [] && |m| >= capacity {
      assert (m - {removable[0]}).Keys == (v - {removable[0]}).Keys;
      PruneSameKeys(m - {removable[0]}, v - {removable[0]}, removable[1..], capacity);
    }
  }

  lemma {:induction false} PruneRestricts<T>(m: map<Origin, T>, removable: seq<Origin>, capacity: nat)
    ensures forall o <- Prune(m, removable, capacity) :: o in m && Prune(m, removable, capacity)[o] == m[o]
    decreases |removable|
  {
    if removable != [] && |m| >= capacity {
      PruneRestricts(m - {removable[0]}, removable[1..], capacity);
    }
  }

  lemma PruneShrinks(v: map<Origin, OriginState>, now: Time, removable: seq<Origin>, capacity: nat)
    ensures Prune(NormalizeAll(v, now), removable, capacity).Keys <= v.Keys
  {
    hide Prune;
    PruneRestricts(NormalizeAll(v, now), removable, capacity);
  }

  // Every state object belongs to the registry, and origins do not share one.
  ghost predicate Owned(states: map<Origin, OriginPacing>, repr: set<OriginPacing>) {
    && (forall o <- states :: states[o] in repr)
    && (forall o, k | o in states && k in states && o != k :: states[o] != states[k])
  }

  ghost predicate Submap(m: map<Origin, OriginPacing>, all: map<Origin, OriginPacing>) {
    forall o <- m :: o in all && m[o] == all[o]
  }

  lemma StillOwned(all: map<Origin, OriginPacing>, m: map<Origin, OriginPacing>, repr: set<OriginPacing>)
    requires Owned(all, repr) && Submap(m, all)
    ensures Owned(m, repr)
  {}

  lemma AllNormalized(first: map<Origin, OriginState>, v: map<Origin, OriginState>, now: Time)
    requires NormalizedBut(first, v, {}, now)
    ensures v == NormalizeAll(first, now)
  {
    hide Normalize;
  }

  lemma Nothing(v: map<Origin, OriginState>, now: Time)
    ensures IsRemovable([], v, v.Keys) && Below([], v.Keys) && NormalizedBut(v, v, v.Keys, now)
  {}

  lemma OneMore(first: map<Origin, OriginState>, removable: seq<Origin>, was: map<Origin, OriginState>,
                v: map<Origin, OriginState>, todo: set<Origin>, o: Origin, now: Time)
    requires IsRemovable(removable, was, todo) && Below(removable, todo) && NormalizedBut(first, was, todo, now)
    requires o in was && IsLeast(o, todo) && v == was[o := Normalize(was[o], now)]
    ensures var more := if SafeToRetire(v[o]) then removable + [o] else removable;
            IsRemovable(more, v, todo - {o}) && Below(more, todo - {o}) && NormalizedBut(first, v, todo - {o}, now)
  {
    hide SafeToRetire, Normalize;
    var more := removable + [o];
    assert forall k :: k in more <==> k in removable || k == o;
    assert forall k <- removable :: k < o;
    forall i, k | 0 <= i < k < |more| ensures more[i] < more[k] {
      assert more[i] in removable;
    }
  }

  lemma PruneStep<T>(m: map<Origin, T>, removable: seq<Origin>, i: nat, capacity: nat)
    requires i <= |removable|
    ensures Prune(m, removable[i..], capacity) ==
            if i < |removable| && |m| >= capacity then Prune(m - {removable[i]}, removable[i + 1..], capacity) else m
  {
    if i < |removable| {
      assert removable[i..][1..] == removable[i + 1..];
    }
  }
}
