/** When a progress stream ends: not for anything that the live channel does. */
module ProgressEnd {
  import opened Wrappers
  import opened ProgressLog
  import opened ProgressStream
  import opened ProgressInvariant
  import opened ProgressTheorems

  /** Neither a failed query, nor an event that cannot be encoded, nor the hub going away. */
  predicate Healthy(st: Step) {
    match st
    case InitialReplay(ok) => ok
    case Refill(ok) => ok
    case Take(encodes) => encodes
    case CloseHub => false
    case _ => true
  }

  // The job has a log and the first cursor can be asked for.
  predicate Askable(s: State) { s.client.job in s.world.logs && s.client.start <= I64_MAX }

  predicate HasTerminal(received: seq<Event>) { received != [] && received[|received| - 1].terminal }

  // The hub is open, and a stream that has ended has given a terminal event.
  predicate EndsWell(s: State) {
    && Askable(s) && !s.world.closed
    && (s.stream.phase.Ended? ==> HasTerminal(s.client.received))
  }

  // While a stream lives its cursor can be asked for.
  lemma CursorInRange(s: State)
    requires Inv(s) && Askable(s) && Live(s.stream)
    ensures s.stream.cursor <= I64_MAX
  {
    var log, c := LogOf(s.world, s.client.job), s.client;
    assert LogOk(log, c.job) && StreamOk(s.stream, c, log);
    hide LogsOk, BusOk, BusCovered, SeenCovered;
    if c.received != [] {
      var last := c.received[|c.received| - 1];
      assert last in After(log, c.start);
      InAfter(log, c.start, last);
    }
  }

  lemma DoneMeansTerminal(s: State)
    requires Inv(s) && s.stream.phase.Looping? && s.stream.done
    ensures HasTerminal(s.client.received)
  {
    hide LogsOk, BusOk, BusCovered, SeenCovered;
  }

  lemma HealthyStep(s: State, st: Step)
    requires Inv(s) && EndsWell(s) && Enabled(s, st) && Healthy(st)
    ensures EndsWell(Apply(s, st))
  {
    if Live(s.stream) { CursorInRange(s); }
    if s.stream.phase.Looping? && s.stream.done { DoneMeansTerminal(s); }
    if st.Take? { TakenTerminal(s); }
    hide Inv, After, PageOf, Newer, MaxSeqno;
  }

  lemma TakenTerminal(s: State)
    requires Enabled(s, Take(true))
    ensures Apply(s, Take(true)).stream.phase.Looping?
  {}

  lemma {:induction false} HealthyRun(s: State, steps: seq<Step>)
    requires Inv(s) && EndsWell(s) && Run(s, steps).Some? && forall st <- steps :: Healthy(st)
    ensures EndsWell(Run(s, steps).value)
    decreases |steps|
  {
    hide Inv, EndsWell, Enabled, Apply, Healthy;
    if steps != [] {
      HealthyStep(s, steps[0]);
      StepKeepsInv(s, steps[0]);
      HealthyRun(Apply(s, steps[0]), steps[1..]);
    }
  }

  /** However the live channel loses, repeats or lags, a stream over a known job ends only after
      its terminal event, unless a query or an encoding fails or the hub goes away. */
  lemma EndsOnlyWhenComplete(first: State, steps: seq<Step>, s: State)
    requires Reaches(first, steps, s) && Askable(first) && (forall st <- steps :: Healthy(st))
    requires s.stream.phase.Ended?
    ensures HasTerminal(s.client.received)
    ensures s.client.received == After(LogNow(s), s.client.start)
  {
    assert Inv(first);
    hide Run, Healthy;
    HealthyRun(first, steps);
    hide Inv;
    TerminalIsComplete(first, steps, s);
  }

  // The same for a stretch of a run, from a stream that has not ended.
  lemma EndsForAReason(first: State, steps: seq<Step>, s: State)
    requires Inv(first) && Run(first, steps) == Some(s) && !first.stream.phase.Ended?
    requires Askable(first) && !first.world.closed && (forall st <- steps :: Healthy(st))
    ensures s.stream.phase.Ended? ==> HasTerminal(s.client.received)
  {
    hide Inv, Run, Healthy;
    HealthyRun(first, steps);
  }

  // ---- What single steps do ----

  /** The next pending row is emitted if it can be encoded, and then the stream is done exactly when
      the row is terminal; if it cannot, nothing is emitted and the stream ends. */
  lemma TakeEmits(s: State, encodes: bool)
    requires Inv(s) && Enabled(s, Take(encodes))
    ensures var t, e := Apply(s, Take(encodes)), s.stream.pending[0];
            && t.world == s.world && t.stream.pending == s.stream.pending[1..]
            && t.client.received == (if encodes then s.client.received + [e] else s.client.received)
            && (if encodes then t.stream.phase.Looping? && t.stream.cursor == e.seqno && (t.stream.done <==> e.terminal)
                else t.stream.phase.Ended?)
  {
    PendingAhead(s);
    hide Inv;
  }

  lemma PendingAhead(s: State)
    requires Inv(s) && s.stream.phase.Looping? && s.stream.pending != []
    ensures s.stream.pending[0].seqno > s.stream.cursor
  {
    hide LogsOk, BusOk, BusCovered, SeenCovered;
    InAfter(LogOf(s.world, s.client.job), s.stream.cursor, s.stream.pending[0]);
  }

  /** A stream that is done has nothing left to do but to end. */
  lemma DoneOnlyEnds(s: State, st: Step)
    requires s.stream.phase.Looping? && s.stream.done && Enabled(s, st)
    ensures Enabled(s, Finish) && Apply(s, Finish).stream.phase.Ended?
    ensures st in {CloseHub, Connect, Finish} || st.Append? || st.Publish?
  {}

  /** What the receiver gives: the next row of the log is taken as it is, with no query; a row
      further ahead is fetched with those before it, and so is everything after a lag, which skips to
      the oldest event that the channel still has; rows of other jobs and rows already emitted are
      passed over. */
  lemma ReceiveTakes(s: State)
    requires Inv(s) && Enabled(s, Receive) && s.stream.next < |s.world.bus|
    ensures var t, u, w := s.stream, Apply(s, Receive).stream, s.world;
            var lag, e := |w.bus| - t.next > s.client.capacity, w.bus[t.next];
            && (lag ==> u == t.(phase := Refilling(Lagged), next := |w.bus| - s.client.capacity))
            && (!lag ==> u.next == t.next + 1 && u.cursor == t.cursor)
            && (!lag && (e.job != s.client.job || e.seqno <= t.cursor) ==> u == t.(next := t.next + 1))
            && (!lag && e.job == s.client.job && e.seqno == t.cursor + 1 ==> u == t.(next := t.next + 1, pending := [e]))
            && (!lag && e.job == s.client.job && e.seqno > t.cursor + 1 ==> u == t.(next := t.next + 1, phase := Refilling(Jump(e))))
    ensures Apply(s, Receive).client == s.client
  {
    var e := s.world.bus[s.stream.next];
    if e.job == s.client.job && e.seqno == s.stream.cursor + 1 { BusInRange(s, e); }
    hide Inv;
  }

  lemma BusInRange(s: State, e: Event)
    requires Inv(s) && e in s.world.bus
    ensures e.seqno <= I64_MAX
  {
    assert e in s.world.logs[e.job] && LogOk(s.world.logs[e.job], e.job);
    hide BusCovered, SeenCovered, StreamOk;
  }

  /** Publishing a committed row puts it last on an open channel, and nowhere on a closed one. */
  lemma PublicationIsSent(s: State, job: JobId, i: nat)
    requires Enabled(s, Publish(job, i))
    ensures Apply(s, Publish(job, i)) ==
              s.(world := s.world.(bus := if s.world.closed then s.world.bus else s.world.bus + [s.world.logs[job][i]]))
  {}

  /** When the hub goes away, a stream that has given everything it knows of ends. */
  lemma ClosedHubEnds(s: State)
    requires Enabled(s, CloseHub)
    ensures var u := Apply(s, CloseHub);
            && u == s.(world := s.world.(closed := true))
            && (CanReceive(s.world, s.stream) && s.stream.next == |s.world.bus| ==>
                  Enabled(u, Receive) && Apply(u, Receive).stream.phase.Ended?)
  {}
}
