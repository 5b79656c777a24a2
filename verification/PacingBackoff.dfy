/**
 How repeated rate limits add up: the backoff follows the number of rate limits since the
 last success, and only outcomes change that number.
 */
module PacingBackoff {
  import opened Wrappers
  import opened Pacing
  import opened PacingSystem

  datatype Recorded = Recorded(outcome: Outcome, sampled: Time)

  // The state after the outcomes were recorded in order.
  function After(s: OriginState, records: seq<Recorded>, horizon: Time): OriginState
    decreases |records|
  {
    if records == [] then s
    else
      var last := records[|records| - 1];
      RecordNext(After(s, records[..|records| - 1], horizon), last.outcome, last.sampled, horizon).0
  }

  /** The rate limits since the last success; other failures neither count nor end the streak. */
  function Streak(records: seq<Recorded>, before: nat): nat
    decreases |records|
  {
    if records == [] then before
    else
      match records[|records| - 1].outcome
      case Success => 0
      case Failed => Streak(records[..|records| - 1], before)
      case RateLimited(_) => Streak(records[..|records| - 1], before) + 1
  }

  lemma {:induction false} CounterIsStreak(s: OriginState, records: seq<Recorded>, horizon: Time)
    requires s.consecutive <= U8_MAX
    ensures After(s, records, horizon).consecutive == Min(Streak(records, s.consecutive), U8_MAX)
    decreases |records|
  {
    if records != [] { CounterIsStreak(s, records[..|records| - 1], horizon); }
  }

  // 1, 2, 4, 8, 16 and 32 seconds, then a minute.
  function Table(streak: nat): Duration {
    if streak <= 1 then 1_000 else if streak == 2 then 2_000 else if streak == 3 then 4_000 else if streak == 4 then 8_000
    else if streak == 5 then 16_000 else if streak == 6 then 32_000 else 60_000
  }

  lemma BackoffIsTable(k: nat)
    ensures BoundedBackoff(k) == Table(k)
  {
    assert Pow2(0) == 1 && Pow2(1) == 2 && Pow2(2) == 4 && Pow2(3) == 8 && Pow2(4) == 16 && Pow2(5) == 32 && Pow2(6) == 64;
  }

  /** Whatever outcomes were recorded, the next rate limit backs the origin off by what the streak
      it makes calls for, counted from the last success, and reaches its retry time. */
  lemma BackoffFollowsStreak(s: OriginState, records: seq<Recorded>, retry: RetryAfterTiming, now: Time, horizon: Time)
    requires s.consecutive <= U8_MAX
    ensures var backoff := Table(Streak(records, s.consecutive) + 1);
            var (t, done) := RecordNext(After(s, records, horizon), RateLimited(retry), now, horizon);
            && (done <==> now + backoff <= horizon && (DelayOf(retry).Some? ==> now + DelayOf(retry).value <= horizon))
            && (done ==> Reaches(t, now + backoff) && (DelayOf(retry).Some? ==> Reaches(t, now + DelayOf(retry).value)))
            && (now + backoff <= horizon ==> UntilAtLeast(t.backoffUntil, now + backoff))
  {
    var u := After(s, records, horizon);
    CounterIsStreak(s, records, horizon);
    BackoffIsTable(Min(u.consecutive + 1, U8_MAX));
    hide BoundedBackoff;
  }

  lemma RegistryCountsNothing(s: State, st: Step, x: ObjectId)
    requires Enabled(s, st) && x in s.objects && OfRegistry(st)
    ensures x in Apply(s, st).objects && Apply(s, st).objects[x].pacing.consecutive == s.objects[x].pacing.consecutive
  {
    hide SafeToRetire, Prune, Valid, InOrder;
  }

  lemma HandlesCountNothing(s: State, st: Step, x: ObjectId)
    requires Enabled(s, st) && x in s.objects && !OfRegistry(st) && !st.Record?
    ensures x in Apply(s, st).objects && Apply(s, st).objects[x].pacing.consecutive == s.objects[x].pacing.consecutive
  {
    hide AttemptOf, HandlesAfter;
  }

  /** Only outcomes change the count of an origin's state. */
  lemma OnlyOutcomesCount(s: State, st: Step, x: ObjectId)
    requires Enabled(s, st) && x in s.objects && !st.Record?
    ensures x in Apply(s, st).objects && Apply(s, st).objects[x].pacing.consecutive == s.objects[x].pacing.consecutive
  {
    hide Enabled, Apply, OfRegistry;
    if OfRegistry(st) { RegistryCountsNothing(s, st, x); } else { HandlesCountNothing(s, st, x); }
  }

  /** Retry times: kept up to five minutes and clamped beyond. */
  lemma RetryTimes(d: Duration)
    ensures DelayOf(FromDuration(d)) == Some(if d <= 300_000 then d else 300_000)
    ensures FromDuration(d).Honored? <==> d <= 300_000
    ensures DelayOf(Absent) == None && DelayOf(Invalid) == None
  {}

  /** Configurations: a positive concurrency and a delay of no more than five minutes. */
  lemma ConfigurationsAccepted(concurrency: nat, delay: Duration)
    ensures FromSnapshot(concurrency, delay) ==
              if concurrency == 0 then Some(InvalidConcurrency) else if delay > 300_000 then Some(RequestDelayTooLarge) else None
  {}
}
