/**
 The timing state of one origin (crates/erabi-crawler/src/pacing.rs): concurrency
 counters, three safety deadlines and the exponential rate-limit backoff.  Time is
 a natural number of milliseconds on a monotone clock; `horizon` is the last
 instant that `Instant::checked_add` can represent.
 */
module Pacing {
  import opened Wrappers

  type Time = nat
  type Duration = nat
  type RegistrationId = nat

  const MAX_PACING_DELAY: Duration := 300_000
  const RATE_LIMIT_BACKOFF_BASE: Duration := 1_000
  const MAX_RATE_LIMIT_BACKOFF: Duration := 60_000

  datatype AdmissionError =
    | Cancelled | InvalidConcurrency | RequestDelayTooLarge | RegistrationReleased
    | OriginCapacityExhausted | RegistrationIdExhausted | ClockOverflow

  datatype RetryAfterTiming = Absent | Honored(delay: Duration) | Clamped(delay: Duration) | Invalid

  datatype Outcome = Success | Failed | RateLimited(retryAfter: RetryAfterTiming)

  datatype OriginState = OriginState(
    inFlight: nat,
    registrations: map<RegistrationId, nat>,
    waiting: nat,
    nextRequestAt: Option<Time>,
    backoffUntil: Option<Time>,
    retryAfterUntil: Option<Time>,
    consecutive: nat)

  const FreshOrigin := OriginState(0, map[], 0, None, None, None, 0)

  function Min(a: nat, b: nat): nat { if a <= b then a else b }
  function Max(a: nat, b: nat): nat { if a <= b then b else a }

  /** ResolvedPacingConfiguration::from_snapshot */
  function FromSnapshot(concurrency: nat, delay: Duration): Option<AdmissionError> {
    if concurrency == 0 then Some(InvalidConcurrency)
    else if delay > MAX_PACING_DELAY then Some(RequestDelayTooLarge)
    else None
  }

  /** The delay an acquisition observes: the longer of the registration's and that of robots. */
  function EffectiveDelay(configured: Duration, robots: Option<Duration>): (delay: Duration)
    ensures configured <= delay && (robots.Some? ==> robots.value <= delay)
    ensures delay == configured || robots == Some(delay)
  {
    if robots.Some? then Max(configured, robots.value) else configured
  }

  /** RetryAfterTiming::from_duration, behind both public constructors. */
  function FromDuration(d: Duration): RetryAfterTiming {
    if d > MAX_PACING_DELAY then Clamped(MAX_PACING_DELAY) else Honored(d)
  }

  function DelayOf(r: RetryAfterTiming): Option<Duration> {
    if r.Honored? || r.Clamped? then Some(r.delay) else None
  }

  function Pow2(n: nat): nat { if n == 0 then 1 else 2 * Pow2(n - 1) }

  function BoundedBackoff(consecutive: nat): Duration {
    var exponent := Min(if consecutive == 0 then 0 else consecutive - 1, 6);
    Min(RATE_LIMIT_BACKOFF_BASE * Pow2(exponent), MAX_RATE_LIMIT_BACKOFF)
  }

  function Unexpired(d: Option<Time>, now: Time): Option<Time> {
    if d.Some? && d.value <= now then None else d
  }

  function Normalize(s: OriginState, now: Time): OriginState {
    s.(nextRequestAt := Unexpired(s.nextRequestAt, now),
       backoffUntil := Unexpired(s.backoffUntil, now),
       retryAfterUntil := Unexpired(s.retryAfterUntil, now))
  }

  predicate NoDeadline(s: OriginState) {
    s.nextRequestAt.None? && s.backoffUntil.None? && s.retryAfterUntil.None?
  }

  /** is_safe_to_retire, after normalization */
  predicate SafeToRetire(s: OriginState) {
    s.registrations == map[] && s.inFlight == 0 && s.waiting == 0 && NoDeadline(s)
  }

  predicate Passed(d: Option<Time>, now: Time) { d.None? || d.value <= now }

  // No deadline lies after `now`.
  predicate AllPassed(s: OriginState, now: Time) {
    Passed(s.nextRequestAt, now) && Passed(s.backoffUntil, now) && Passed(s.retryAfterUntil, now)
  }

  predicate UntilAtLeast(d: Option<Time>, t: Time) { d.Some? && d.value >= t }

  // Some deadline reaches `t`.
  predicate Reaches(s: OriginState, t: Time) {
    UntilAtLeast(s.nextRequestAt, t) || UntilAtLeast(s.backoffUntil, t) || UntilAtLeast(s.retryAfterUntil, t)
  }

  function LaterDeadline(current: Option<Time>, candidate: Time): Time {
    if current.None? then candidate else Max(current.value, candidate)
  }

  /** `in_flight < effective_concurrency`, the minimum over the live registrations. */
  predicate HasRoom(s: OriginState) {
    forall id <- s.registrations :: s.inFlight < s.registrations[id]
  }

  // A waiting attempt sleeps until the latest deadline, or, with no deadline ahead, for a permit.
  datatype Attempt = Acquired | Wait(until: Option<Time>) | Refuse(error: AdmissionError)

  function Latest(a: Option<Time>, b: Option<Time>): Option<Time> {
    if a.None? then b else Some(LaterDeadline(b, a.value))
  }

  /** latest_deadline */
  function LatestDeadline(s: OriginState): Option<Time> {
    Latest(s.nextRequestAt, Latest(s.backoffUntil, s.retryAfterUntil))
  }

  function AttemptOf(s: OriginState, now: Time, delay: Duration, horizon: Time): Attempt {
    if s.registrations == map[] then Refuse(RegistrationReleased)
    else if HasRoom(s) && AllPassed(s, now) then
      if now + delay <= horizon then Acquired else Refuse(ClockOverflow)
    else Wait(LatestDeadline(Normalize(s, now)))
  }

  /** The critical section of acquire_with_delay_inner.  The counter goes up before the
      new deadline is checked, so an overflow leaves it up. */
  function AdmitNext(s: OriginState, now: Time, delay: Duration, horizon: Time): OriginState {
    var n := Normalize(s, now);
    match AttemptOf(s, now, delay, horizon)
    case Acquired => n.(inFlight := Min(s.inFlight + 1, U32_MAX), nextRequestAt := Some(now + delay))
    case Refuse(ClockOverflow) => n.(inFlight := Min(s.inFlight + 1, U32_MAX))
    case _ => n
  }

  /** record_outcome */
  function RecordNext(s: OriginState, outcome: Outcome, now: Time, horizon: Time): (OriginState, bool) {
    var n := Normalize(s, now);
    match outcome
    case Success => (n.(consecutive := 0), true)
    case Failed => (n, true)
    case RateLimited(retry) =>
      var counted := n.(consecutive := Min(n.consecutive + 1, U8_MAX));
      var backoff := BoundedBackoff(counted.consecutive);
      if now + backoff > horizon then (counted, false)
      else
        var backedOff := counted.(backoffUntil := Some(LaterDeadline(counted.backoffUntil, now + backoff)));
        match DelayOf(retry)
        case None => (backedOff, true)
        case Some(delay) =>
          if now + delay > horizon then (backedOff, false)
          else (backedOff.(retryAfterUntil := Some(LaterDeadline(backedOff.retryAfterUntil, now + delay))), true)
  }

  /** register_waiter and release_waiter */
  function AddWaiter(s: OriginState): OriginState { s.(waiting := Min(s.waiting + 1, U32_MAX)) }
  function ReleaseWaiter(s: OriginState): OriginState { s.(waiting := if s.waiting == 0 then 0 else s.waiting - 1) }

  // ---- Facts about one origin ----

  /** The backoff never shrinks as rate limits repeat and stays between one second and one minute. */
  lemma BackoffBounds(j: nat, k: nat)
    requires j <= k
    ensures RATE_LIMIT_BACKOFF_BASE <= BoundedBackoff(j) <= BoundedBackoff(k) <= MAX_RATE_LIMIT_BACKOFF
  {
    Pow2Monotone(Min(if j == 0 then 0 else j - 1, 6), Min(if k == 0 then 0 else k - 1, 6));
  }

  lemma {:induction false} Pow2Monotone(m: nat, n: nat)
    requires m <= n
    ensures 1 <= Pow2(m) <= Pow2(n)
    decreases n
  {
    if n == 0 {
    } else if m == n {
      Pow2Monotone(m - 1, n - 1);
    } else {
      Pow2Monotone(m, n - 1);
    }
  }

  /** Four rate limits in a row wait 1, 2, 4 and 8 seconds; seven and more wait a minute. */
  lemma BackoffSchedule(k: nat)
    requires 1 <= k
    ensures k <= 6 ==> BoundedBackoff(k) == 1_000 * Pow2(k - 1)
    ensures k >= 7 ==> BoundedBackoff(k) == MAX_RATE_LIMIT_BACKOFF
  {
    assert Pow2(5) == 32 && Pow2(6) == 64;
    if k <= 6 {
      Pow2Monotone(k - 1, 5);
    }
  }

  /** An admission attempt drops no deadline after `now`, and a grant reaches its own delay. */
  lemma AdmitKeepsDeadlines(s: OriginState, now: Time, delay: Duration, horizon: Time, t: Time)
    requires Reaches(s, t)
    ensures t <= now || Reaches(AdmitNext(s, now, delay, horizon), t)
    ensures AttemptOf(s, now, delay, horizon).Acquired? ==>
              t <= now && Reaches(AdmitNext(s, now, delay, horizon), now + delay)
  {}

  /** What an attempt comes to: an origin without registrations refuses it, one with room under every
      registration and no deadline ahead grants it, or refuses it if the clock cannot represent the
      next request time, and any other makes it wait. */
  lemma AttemptExactly(s: OriginState, now: Time, delay: Duration, horizon: Time)
    ensures var a := AttemptOf(s, now, delay, horizon);
            var free := s.registrations != map[] && (forall id <- s.registrations :: s.inFlight < s.registrations[id])
                        && forall t: Time | now < t :: !Reaches(s, t);
            && (a == Refuse(RegistrationReleased) <==> s.registrations == map[])
            && (a == Acquired <==> free && now + delay <= horizon)
            && (a == Refuse(ClockOverflow) <==> free && now + delay > horizon)
            && (a.Wait? <==> s.registrations != map[] && !free)
  {
    DeadlinesAhead(s, now);
    hide Reaches, AllPassed;
  }

  lemma DeadlinesAhead(s: OriginState, now: Time)
    ensures AllPassed(s, now) <==> forall t: Time | now < t :: !Reaches(s, t)
  {
    if !AllPassed(s, now) {
      var t := if !Passed(s.nextRequestAt, now) then s.nextRequestAt.value
               else if !Passed(s.backoffUntil, now) then s.backoffUntil.value else s.retryAfterUntil.value;
      assert Reaches(s, t);
    }
  }

  /** What an attempt changes: the counter, if it got as far as the clock, and the deadlines ahead, if
      it was granted. */
  lemma AttemptChanges(s: OriginState, now: Time, delay: Duration, horizon: Time, t: Time)
    requires now < t
    ensures var a, n := AttemptOf(s, now, delay, horizon), AdmitNext(s, now, delay, horizon);
            && n.inFlight == (if a == Acquired || a == Refuse(ClockOverflow) then Min(s.inFlight + 1, U32_MAX) else s.inFlight)
            && (Reaches(n, t) <==> Reaches(s, t) || (a == Acquired && t <= now + delay))
            && n.registrations == s.registrations && n.waiting == s.waiting && n.consecutive == s.consecutive
  {}

  /** Recording an outcome never shortens a deadline; a rate limit that is recorded in full
      reaches both the backoff and the retry time. */
  lemma RecordKeepsDeadlines(s: OriginState, outcome: Outcome, now: Time, horizon: Time, t: Time)
    ensures Reaches(s, t) ==> t <= now || Reaches(RecordNext(s, outcome, now, horizon).0, t)
    ensures var (n, done) := RecordNext(s, outcome, now, horizon);
            outcome.RateLimited? && done ==>
              Reaches(n, now + BoundedBackoff(n.consecutive))
              && (DelayOf(outcome.retryAfter).Some? ==> Reaches(n, now + DelayOf(outcome.retryAfter).value))
    ensures var (n, done) := RecordNext(s, outcome, now, horizon);
            !outcome.RateLimited? ==> done && (now < t ==> (Reaches(n, t) <==> Reaches(s, t)))
  {}

  /** What others may leave of a state without releasing anything: the registrations still bind,
      no permit is gone, and every deadline after `later` is still held. */
  ghost predicate NotReleased(s: OriginState, t: OriginState, later: Time) {
    && (forall id <- s.registrations :: id in t.registrations && t.registrations[id] <= s.registrations[id])
    && s.inFlight <= t.inFlight
    && (forall x: Time :: later < x && Reaches(s, x) ==> Reaches(t, x))
  }

  /** A waiting attempt is right to wait: unless something was released meanwhile, no attempt
      before the deadline it names is granted or refused, and none at all when it names no
      deadline; at its deadline only concurrency can still be in the way. */
  lemma WaitIsRight(s: OriginState, t: OriginState, now: Time, delay: Duration, horizon: Time, later: Time)
    requires AttemptOf(s, now, delay, horizon).Wait? && now <= later && NotReleased(s, t, later)
    ensures var until := AttemptOf(s, now, delay, horizon).until;
            && (until.None? ==> AllPassed(s, now) && AttemptOf(t, later, delay, horizon).Wait?)
            && (until.Some? ==> now < until.value)
            && (until.Some? && later < until.value ==> AttemptOf(t, later, delay, horizon).Wait?)
            && (until.Some? && until.value <= later ==> AllPassed(s, later))
  {
    WaitNames(s, now, delay, horizon);
    var until := AttemptOf(s, now, delay, horizon).until;
    MustStay(s, t, now, later, until);
    if until.None? || later < until.value { StaysWaiting(t, later, until, delay, horizon); }
  }

  // No attempt on the state gets anywhere before `until`, or at all when there is none.
  predicate MustWait(s: OriginState, now: Time, until: Option<Time>) {
    s.registrations != map[] && if until.None? then !HasRoom(s) else now < until.value ==> Reaches(s, until.value)
  }

  lemma WaitNames(s: OriginState, now: Time, delay: Duration, horizon: Time)
    requires AttemptOf(s, now, delay, horizon).Wait?
    ensures var until := AttemptOf(s, now, delay, horizon).until;
            && MustWait(s, now, until) && (until.None? ==> AllPassed(s, now))
            && (until.Some? ==> now < until.value && forall later | until.value <= later :: AllPassed(s, later))
  {}

  lemma MustStay(s: OriginState, t: OriginState, now: Time, later: Time, until: Option<Time>)
    requires MustWait(s, now, until) && now <= later && NotReleased(s, t, later)
    ensures MustWait(t, later, until)
  {
    var id :| id in s.registrations;
    assert id in t.registrations;
    if until.None? {
      var full :| full in s.registrations && s.inFlight >= s.registrations[full];
      assert t.inFlight >= t.registrations[full];
    }
  }

  lemma StaysWaiting(s: OriginState, now: Time, until: Option<Time>, delay: Duration, horizon: Time)
    requires MustWait(s, now, until) && (until.Some? ==> now < until.value)
    ensures AttemptOf(s, now, delay, horizon).Wait?
  {}
}
