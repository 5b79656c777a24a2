/**
 Single-flight robots fetching (crates/erabi-crawler/src/robots.rs,
 cached_or_fetch_document and RobotsFetchFlight).  A caller checks the cache, then
 in a second critical section either becomes the origin's leader or follows the
 flight it finds.  A leader that fetches the document writes it to the cache, and when
 it is done, by success, failure or cancellation, its flight is removed in a further
 critical section and every follower wakes and starts over.
 */
module RobotsFlights {
  import opened Wrappers

  type Origin = nat
  type FlightId = nat
  type CallerId = nat

  datatype Phase =
    | Checking(origin: Origin)
    | Missed(origin: Origin)
    | Leading(origin: Origin, flight: FlightId, stored: bool)
    | Following(origin: Origin, flight: FlightId)
    | Returned(hit: bool)

  // `completed` holds the flights whose channel was told, `cached` the origins with a live
  // cache entry, and `leaders` who leads which origin.
  datatype State = State(
    inFlight: map<Origin, FlightId>,
    completed: set<FlightId>,
    cached: set<Origin>,
    callers: map<CallerId, Phase>,
    leaders: map<Origin, CallerId>,
    made: nat)

  datatype Step =
    | Call(c: CallerId, origin: Origin)
    | Check(c: CallerId)
    | Enter(c: CallerId)
    | Wake(c: CallerId)
    | Cancel(c: CallerId)
    | Store(c: CallerId)
    | Land(c: CallerId)
    | Expire(origin: Origin)

  const INIT := State(map[], {}, {}, map[], map[], 0)

  /** Dropping a RobotsFetchFlight: the entry for its origin is removed, whoever's it is, and told. */
  function Complete(inFlight: map<Origin, FlightId>, completed: set<FlightId>, o: Origin): (map<Origin, FlightId>, set<FlightId>) {
    if o in inFlight then (inFlight - {o}, completed + {inFlight[o]}) else (inFlight, completed)
  }

  predicate Enabled(s: State, st: Step) {
    match st
    case Call(c, _) => c !in s.callers
    case Check(c) => c in s.callers && s.callers[c].Checking?
    case Enter(c) => c in s.callers && s.callers[c].Missed?
    case Wake(c) => c in s.callers && s.callers[c].Following? && s.callers[c].flight in s.completed
    case Cancel(c) => c in s.callers && s.callers[c].Following?
    case Store(c) => c in s.callers && s.callers[c].Leading? && !s.callers[c].stored
    case Land(c) => c in s.callers && s.callers[c].Leading?
    case Expire(_) => true
  }

  function To(s: State, c: CallerId, p: Phase): State { s.(callers := s.callers[c := p]) }

  function EnterNext(s: State, c: CallerId): State
    requires c in s.callers && s.callers[c].Missed?
  {
    var o := s.callers[c].origin;
    if o in s.inFlight then To(s, c, Following(o, s.inFlight[o]))
    else To(s, c, Leading(o, s.made, false)).(inFlight := s.inFlight[o := s.made], leaders := s.leaders[o := c], made := s.made + 1)
  }

  function LandNext(s: State, c: CallerId): State
    requires c in s.callers && s.callers[c].Leading?
  {
    var o := s.callers[c].origin;
    var (inFlight, completed) := Complete(s.inFlight, s.completed, o);
    To(s, c, Returned(false)).(inFlight := inFlight, completed := completed, leaders := s.leaders - {o})
  }

  function Apply(s: State, st: Step): State
    requires Enabled(s, st)
  {
    match st
    case Call(c, o) => To(s, c, Checking(o))
    case Check(c) =>
      var o := s.callers[c].origin;
      To(s, c, if o in s.cached then Returned(true) else Missed(o))
    case Enter(c) => EnterNext(s, c)
    case Wake(c) => To(s, c, Checking(s.callers[c].origin))
    case Cancel(c) => To(s, c, Returned(false))
    case Store(c) => To(s, c, s.callers[c].(stored := true)).(cached := s.cached + {s.callers[c].origin})
    case Land(c) => LandNext(s, c)
    case Expire(o) => s.(cached := s.cached - {o})
  }

  function Run(s: State, steps: seq<Step>): Option<State>
    decreases |steps|
  {
    if steps == [] then Some(s)
    else if Enabled(s, steps[0]) then Run(Apply(s, steps[0]), steps[1..])
    else None
  }

  // ---- Invariant ----

  ghost predicate Leads(s: State, c: CallerId, o: Origin) { c in s.callers && s.callers[c].Leading? && s.callers[c].origin == o }

  ghost predicate LeadersOk(s: State) {
    && s.leaders.Keys == s.inFlight.Keys
    && (forall o <- s.leaders :: Leads(s, s.leaders[o], o) && s.callers[s.leaders[o]].flight == s.inFlight[o])
    && (forall c <- s.callers | s.callers[c].Leading? :: s.callers[c].origin in s.leaders && s.leaders[s.callers[c].origin] == c)
  }

  ghost predicate FollowersOk(s: State) {
    forall c <- s.callers | s.callers[c].Following? ::
      s.callers[c].flight in s.completed
      || (s.callers[c].origin in s.inFlight && s.inFlight[s.callers[c].origin] == s.callers[c].flight)
  }

  ghost predicate FlightsOk(s: State) {
    && (forall f <- s.completed :: f < s.made)
    && (forall o <- s.inFlight :: s.inFlight[o] < s.made && s.inFlight[o] !in s.completed)
    && (forall o, k | o in s.inFlight && k in s.inFlight && o != k :: s.inFlight[o] != s.inFlight[k])
  }

  ghost predicate Inv(s: State) { LeadersOk(s) && FollowersOk(s) && FlightsOk(s) }

  lemma EnterKeeps(s: State, c: CallerId)
    requires Inv(s) && c in s.callers && s.callers[c].Missed?
    ensures Inv(EnterNext(s, c))
  {
    var o, t := s.callers[c].origin, EnterNext(s, c);
    if o !in s.inFlight {
      assert t.leaders.Keys == s.leaders.Keys + {o};
    }
    assert LeadersOk(t);
    hide LeadersOk;
    assert FollowersOk(t);
    hide FollowersOk;
  }

  lemma LandKeeps(s: State, c: CallerId)
    requires Inv(s) && c in s.callers && s.callers[c].Leading?
    ensures Inv(LandNext(s, c))
  {
    var t, o := LandNext(s, c), s.callers[c].origin;
    assert t.leaders.Keys == s.leaders.Keys - {o};
    assert t.inFlight.Keys == s.inFlight.Keys - {o};
    assert FollowersOk(t) && FlightsOk(t);
    hide FollowersOk, FlightsOk;
  }

  lemma StepKeepsInv(s: State, st: Step)
    requires Inv(s) && Enabled(s, st)
    ensures Inv(Apply(s, st))
  {
    match st
    case Enter(c) => EnterKeeps(s, c);
    case Land(c) => LandKeeps(s, c);
    case _ =>
  }

  lemma {:induction false} RunKeepsInv(s: State, steps: seq<Step>)
    requires Inv(s) && Run(s, steps).Some?
    ensures Inv(Run(s, steps).value)
    decreases |steps|
  {
    hide Inv, Enabled, Apply;
    if steps != [] {
      StepKeepsInv(s, steps[0]);
      RunKeepsInv(Apply(s, steps[0]), steps[1..]);
    }
  }

  // ---- Theorems ----

  /** At most one fetch per origin is in flight. */
  lemma OneLeaderPerOrigin(steps: seq<Step>, s: State, o: Origin, c: CallerId, d: CallerId)
    requires Run(INIT, steps) == Some(s) && Leads(s, c, o) && Leads(s, d, o)
    ensures c == d
  {
    RunKeepsInv(INIT, steps);
  }

  /** A follower is never stranded: it can wake, or the flight it follows has a leader. */
  lemma FollowersHaveLeaders(steps: seq<Step>, s: State, c: CallerId)
    requires Run(INIT, steps) == Some(s) && c in s.callers && s.callers[c].Following?
    ensures var o := s.callers[c].origin;
            Enabled(s, Wake(c)) ||
            (o in s.leaders && Leads(s, s.leaders[o], o) && s.callers[s.leaders[o]].flight == s.callers[c].flight)
  {
    RunKeepsInv(INIT, steps);
  }

  /** However a leader ends, it removes its own flight and no other, and every follower of the
      origin can wake. */
  lemma LandingWakesEveryone(steps: seq<Step>, s: State, c: CallerId)
    requires Run(INIT, steps) == Some(s) && Enabled(s, Land(c))
    ensures var t, o := Apply(s, Land(c)), s.callers[c].origin;
            && t.inFlight == s.inFlight - {o}
            && t.completed == s.completed + {s.callers[c].flight}
            && forall d <- t.callers | t.callers[d].Following? && t.callers[d].origin == o :: Enabled(t, Wake(d))
  {
    RunKeepsInv(INIT, steps);
    var t, o := Apply(s, Land(c)), s.callers[c].origin;
    forall d <- t.callers | t.callers[d].Following? && t.callers[d].origin == o ensures Enabled(t, Wake(d)) {
      assert d in s.callers && s.callers[d] == t.callers[d];
    }
  }

  /** A caller is served from the cache exactly by looking at it while its origin is cached; one that is
      cancelled or lands its own flight returns without it. */
  lemma HitsAreCached(s: State, st: Step, c: CallerId)
    requires Enabled(s, st) && (c in s.callers ==> s.callers[c] != Returned(true))
    ensures (c in Apply(s, st).callers && Apply(s, st).callers[c] == Returned(true)) <==>
              (st == Check(c) && s.callers[c].origin in s.cached)
    ensures st == Cancel(c) || st == Land(c) ==> c in Apply(s, st).callers && Apply(s, st).callers[c] == Returned(false)
  {}

  /** While the flight it follows is in the air a follower does not wake. */
  lemma FollowersWait(steps: seq<Step>, s: State, c: CallerId)
    requires Run(INIT, steps) == Some(s) && c in s.callers && s.callers[c].Following?
    ensures Enabled(s, Wake(c)) <==>
              !(s.callers[c].origin in s.inFlight && s.inFlight[s.callers[c].origin] == s.callers[c].flight)
  {
    RunKeepsInv(INIT, steps);
  }

  predicate HasReturned(s: State, c: CallerId) { c in s.callers && s.callers[c].Returned? }

  lemma RunFrom(s: State, st: Step, rest: seq<Step>)
    requires Enabled(s, st)
    ensures Run(s, [st] + rest) == Run(Apply(s, st), rest)
    ensures Run(s, [st]) == Some(Apply(s, st))
  {
    hide Enabled, Apply;
    assert ([st] + rest)[1..] == rest && [st][1..] == [];
  }

  lemma MissedReturns(s: State, c: CallerId) returns (steps: seq<Step>, t: State)
    requires c in s.callers && s.callers[c].Missed? && s.callers[c].origin !in s.inFlight
    ensures Run(s, steps) == Some(t) && HasReturned(t, c) && steps == [Enter(c), Land(c)]
  {
    var u := Apply(s, Enter(c));
    RunFrom(u, Land(c), []);
    RunFrom(s, Enter(c), [Land(c)]);
    steps, t := [Enter(c), Land(c)], Apply(u, Land(c));
    assert [Enter(c)] + [Land(c)] == steps;
    hide Run;
  }

  lemma CheckingReturns(s: State, c: CallerId) returns (steps: seq<Step>, t: State)
    requires c in s.callers && s.callers[c].Checking? && s.callers[c].origin !in s.inFlight
    ensures Run(s, steps) == Some(t) && HasReturned(t, c) && |steps| <= 3
    ensures forall st <- steps :: st in {Check(c), Enter(c), Land(c)}
  {
    var u := Apply(s, Check(c));
    if u.callers[c].Returned? {
      RunFrom(s, Check(c), []);
      steps, t := [Check(c)], u;
    } else {
      var rest;
      rest, t := MissedReturns(u, c);
      RunFrom(s, Check(c), rest);
      steps := [Check(c)] + rest;
      hide Run;
    }
  }

  // A caller whose origin is not in flight gets through on its own.
  lemma ClearReturns(s: State, c: CallerId) returns (steps: seq<Step>, t: State)
    requires Inv(s) && c in s.callers && !s.callers[c].Returned? && s.callers[c].origin !in s.inFlight
    ensures Run(s, steps) == Some(t) && HasReturned(t, c) && |steps| <= 4
    ensures forall st <- steps :: st in {Check(c), Enter(c), Wake(c), Land(c)}
  {
    match s.callers[c]
    case Checking(_) => steps, t := CheckingReturns(s, c);
    case Missed(_) => steps, t := MissedReturns(s, c);
    case Following(_, _) =>
      var rest;
      rest, t := CheckingReturns(Apply(s, Wake(c)), c);
      RunFrom(s, Wake(c), rest);
      steps := [Wake(c)] + rest;
      hide Run, Inv;
    case _ =>
      assert false;
  }

  // The steps of one caller, and the landing of the leader it waits for.
  predicate BringsHome(st: Step, c: CallerId, leader: CallerId) {
    st in {Check(c), Enter(c), Wake(c), Land(c), Land(leader)}
  }

  /** No caller is stranded: wherever it is, once the leader of its origin lands, if there is one, it
      returns by at most four steps of its own. */
  lemma CallerReturns(before: seq<Step>, s: State, c: CallerId) returns (steps: seq<Step>, t: State)
    requires Run(INIT, before) == Some(s) && c in s.callers && !s.callers[c].Returned?
    ensures Run(s, steps) == Some(t) && HasReturned(t, c) && |steps| <= 5
    ensures var o := s.callers[c].origin;
            forall st <- steps :: BringsHome(st, c, if o in s.leaders then s.leaders[o] else c)
  {
    RunKeepsInv(INIT, before);
    var o := s.callers[c].origin;
    if o !in s.inFlight {
      hide Run;
      steps, t := ClearReturns(s, c);
    } else {
      var leader := s.leaders[o];
      var u := Apply(s, Land(leader));
      StepKeepsInv(s, Land(leader));
      if leader == c {
        RunFrom(s, Land(c), []);
        steps, t := [Land(c)], u;
      } else {
        hide Run, Inv;
        var rest;
        rest, t := ClearReturns(u, c);
        RunFrom(s, Land(leader), rest);
        steps := [Land(leader)] + rest;
      }
    }
  }

  // ---- When a cached origin is fetched again ----

  /** The caller is fetching an origin that has a live cache entry it did not write. */
  ghost predicate Refetches(s: State, c: CallerId) {
    c in s.callers && s.callers[c].Leading? && !s.callers[c].stored && s.callers[c].origin in s.cached
  }

  /** A caller starts to fetch a cached origin in one step only: entering, after it missed, while
      the origin is cached and not in flight. */
  lemma RefetchStarts(s: State, st: Step, c: CallerId)
    requires Inv(s) && Enabled(s, st) && !Refetches(s, c)
    ensures Refetches(Apply(s, st), c) <==>
            (st == Enter(c) && s.callers[c].origin in s.cached && s.callers[c].origin !in s.inFlight)
  {
    if st.Store? && c in s.callers && s.callers[c].Leading? {
      assert Leads(s, c, s.callers[c].origin);
    }
  }

  /** An origin is cached after a step exactly when its leader has just stored it, or it was cached
      and does not expire. */
  lemma CachedByStore(s: State, st: Step, o: Origin)
    requires Enabled(s, st)
    ensures o in Apply(s, st).cached <==> ((st.Store? && Leads(s, st.c, o)) || (o in s.cached && st != Expire(o)))
  {}

  // The step at place `j` of a run stores the document of the origin.
  ghost predicate StoredAt(s: State, steps: seq<Step>, j: nat, o: Origin) {
    j < |steps| && steps[j].Store? && Run(s, steps[..j]).Some? && Leads(Run(s, steps[..j]).value, steps[j].c, o)
  }

  /** In the run the origin was stored, and it has not expired since. */
  ghost predicate StoredAndKept(s: State, steps: seq<Step>, o: Origin) {
    exists j | 0 <= j < |steps| :: StoredAt(s, steps, j, o) && Expire(o) !in steps[j..]
  }

  lemma {:induction false} RunSnoc(s: State, steps: seq<Step>, st: Step)
    ensures Run(s, steps + [st]) ==
            if Run(s, steps).Some? && Enabled(Run(s, steps).value, st) then Some(Apply(Run(s, steps).value, st)) else None
    decreases |steps|
  {
    hide Enabled, Apply;
    if steps == [] {
      assert [] + [st] == [st] && [st][1..] == [];
    } else {
      assert (steps + [st])[1..] == steps[1..] + [st];
      if Enabled(s, steps[0]) { RunSnoc(Apply(s, steps[0]), steps[1..], st); }
    }
  }

  lemma StoredSnoc(s: State, steps: seq<Step>, st: Step, o: Origin)
    requires Run(s, steps).Some?
    ensures StoredAndKept(s, steps + [st], o) <==>
            ((st.Store? && Leads(Run(s, steps).value, st.c, o)) || (StoredAndKept(s, steps, o) && st != Expire(o)))
  {
    hide Run, Leads;
    var longer, n := steps + [st], |steps|;
    assert longer[..n] == steps && longer[n..] == [st];
    assert StoredAt(s, longer, n, o) <==> st.Store? && Leads(Run(s, steps).value, st.c, o);
    forall j | 0 <= j < n ensures StoredAt(s, longer, j, o) <==> StoredAt(s, steps, j, o) {
      assert longer[..j] == steps[..j];
    }
    forall j | 0 <= j < n ensures Expire(o) !in longer[j..] <==> Expire(o) !in steps[j..] && st != Expire(o) {
      assert longer[j..] == steps[j..] + [st];
    }
    hide StoredAt;
  }

  /** Over any run that starts with the origin uncached, it is cached at the end exactly when it
      was stored and has not expired since. */
  lemma {:induction false} CachedExactly(s: State, steps: seq<Step>, o: Origin)
    requires Run(s, steps).Some? && o !in s.cached
    ensures o in Run(s, steps).value.cached <==> StoredAndKept(s, steps, o)
    decreases |steps|
  {
    if steps != [] {
      var before, st := steps[..|steps| - 1], steps[|steps| - 1];
      assert steps == before + [st];
      hide Enabled, Apply, StoredAndKept, Leads;
      RunSnoc(s, before, st);
      CachedExactly(s, before, o);
      CachedByStore(Run(s, before).value, st, o);
      StoredSnoc(s, before, st, o);
    }
  }

  // A caller that missed stays where it is until it enters.
  lemma {:induction false} MissedWaits(s: State, steps: seq<Step>, c: CallerId)
    requires Run(s, steps).Some? && c in s.callers && s.callers[c].Missed? && Enter(c) !in steps
    ensures var t := Run(s, steps).value; c in t.callers && t.callers[c] == s.callers[c]
    decreases |steps|
  {
    if steps != [] {
      assert steps[0] in steps && steps[0] != Enter(c);
      assert forall st <- steps[1..] :: st in steps;
      MissedWaits(Apply(s, steps[0]), steps[1..], c);
    }
  }

  /** A caller that found its origin uncached fetches it although it is cached by then, exactly
      when between its look at the cache and its look at the flights the origin was stored and has
      not expired, and the flight that stored it has ended and no other has begun. */
  lemma RefetchedExactly(before: seq<Step>, looked: State, between: seq<Step>, s: State, c: CallerId, o: Origin)
    requires Run(INIT, before) == Some(looked) && Enabled(looked, Check(c)) && looked.callers[c].origin == o && o !in looked.cached
    requires Run(Apply(looked, Check(c)), between) == Some(s) && Enter(c) !in between
    ensures Enabled(s, Enter(c))
    ensures Refetches(Apply(s, Enter(c)), c) <==> (StoredAndKept(Apply(looked, Check(c)), between, o) && o !in s.inFlight)
  {
    var missed := Apply(looked, Check(c));
    hide Run, StoredAndKept, Inv;
    RunKeepsInv(INIT, before) by { assert Inv(INIT) by { InitInv(); } }
    StepKeepsInv(looked, Check(c));
    RunKeepsInv(missed, between);
    MissedWaits(missed, between, c);
    CachedExactly(missed, between, o);
    RefetchStarts(s, Enter(c), c);
  }

  lemma InitInv()
    ensures Inv(INIT)
  {}

  /** One such run: the second caller looks at the cache before the first one stores, and at the
      flights after the first one has landed. */
  lemma CachedOriginMayBeFetchedAgain()
    ensures exists steps, s, c :: Run(INIT, steps) == Some(s) && Refetches(s, c)
  {
    var a := Apply(Apply(INIT, Call(0, 7)), Check(0));
    var b := Apply(Apply(a, Enter(0)), Call(1, 7));
    var d := Apply(Apply(b, Check(1)), Store(0));
    var s := Apply(Apply(d, Land(0)), Enter(1));
    var last := [Check(1), Store(0)] + ([Land(0), Enter(1)] + []);
    var more := [Enter(0), Call(1, 7)] + last;
    var steps := [Call(0, 7), Check(0)] + more;
    RunsTwo(d, Land(0), Enter(1), s, [], s);
    RunsTwo(b, Check(1), Store(0), d, [Land(0), Enter(1)] + [], s);
    RunsTwo(a, Enter(0), Call(1, 7), b, last, s);
    RunsTwo(INIT, Call(0, 7), Check(0), a, more, s);
    assert Run(INIT, steps) == Some(s) && Refetches(s, 1);
  }

  lemma RunsTwo(s: State, st: Step, su: Step, t: State, rest: seq<Step>, end: State)
    requires Enabled(s, st) && Enabled(Apply(s, st), su) && Apply(Apply(s, st), su) == t && Run(t, rest) == Some(end)
    ensures Run(s, [st, su] + rest) == Some(end)
  {
    hide Enabled, Apply;
    assert ([st, su] + rest)[1..] == [su] + rest;
    assert ([su] + rest)[1..] == rest;
  }

  /** The two critical sections over the in-flight map, as the program keeps it. */
  class Flights {
    var inFlight: map<Origin, FlightId>
    var completed: set<FlightId>
    var made: nat

    /** Subscribes to the flight of the origin, or starts one and leads it. */
    method Join(o: Origin) returns (flight: FlightId, leads: bool)
      modifies this
      ensures completed == old(completed) && leads == (o !in old(inFlight))
      ensures if leads then flight == old(made) && made == old(made) + 1 && inFlight == old(inFlight)[o := flight]
              else flight == old(inFlight)[o] && made == old(made) && inFlight == old(inFlight)
    {
      if o in inFlight {
        return inFlight[o], false;
      }
      flight, leads := made, true;
      made := made + 1;
      inFlight := inFlight[o := flight];
    }

    /** Drop for RobotsFetchFlight. */
    method DropFlight(o: Origin)
      modifies this
      ensures made == old(made) && (inFlight, completed) == Complete(old(inFlight), old(completed), o)
    {
      if o in inFlight {
        completed := completed + {inFlight[o]};
        inFlight := inFlight - {o};
      }
    }
  }
}
