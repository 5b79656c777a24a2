/** What the progress stream promises over every run, whatever the live side does. */
module ProgressTheorems {
  import opened Wrappers
  import opened ProgressLog
  import opened ProgressStream
  import opened ProgressInvariant

  // `steps` leads from a fresh client over well-formed logs to `s`.
  ghost predicate Reaches(first: State, steps: seq<Step>, s: State) {
    && first == Init(first.world.logs, first.client.job, first.client.start, first.client.capacity)
    && LogsOk(first.world)
    && Run(first, steps) == Some(s)
  }

  lemma ReachesInv(first: State, steps: seq<Step>, s: State)
    requires Reaches(first, steps, s)
    ensures Inv(s) && AllKnown(s)
  {
    hide LogsOk;
    RunKeepsInv(first, steps);
    RunKeepsKnown(first, steps);
  }

  ghost function LogNow(s: State): seq<Event> { LogOf(s.world, s.client.job) }

  // The rows committed when the latest page was read.
  ghost function Seen(s: State): seq<Event> {
    var log := LogNow(s);
    if s.client.seen <= |log| then log[..s.client.seen] else log
  }

  /** Over all its connections a client receives a prefix of the log after its start, in
      strictly rising sequence, and nothing follows a terminal event. */
  lemma ReceivedIsPrefix(first: State, steps: seq<Step>, s: State)
    requires Reaches(first, steps, s)
    ensures s.client.received <= After(LogNow(s), s.client.start)
    ensures Ascending(s.client.received)
    ensures forall i | 0 <= i < |s.client.received| - 1 :: !s.client.received[i].terminal
  {
    ReachesInv(first, steps, s);
    var log := LogNow(s);
    assert LogOk(log, s.client.job);
    var k := AfterIsSuffix(log, s.client.start);
    forall i | 0 <= i < |s.client.received| ensures s.client.received[i] == log[k + i] {
      assert s.client.received[i] == log[k..][i];
    }
  }

  /** Two clients of one log with the same start never disagree, whatever each live channel did. */
  lemma LiveSideNeverShows(first: State, steps: seq<Step>, s: State, first': State, steps': seq<Step>, s': State)
    requires Reaches(first, steps, s) && Reaches(first', steps', s')
    requires LogNow(s) == LogNow(s') && s.client.start == s'.client.start
    ensures s.client.received <= s'.client.received || s'.client.received <= s.client.received
  {
    hide Reaches, LogNow;
    ReceivedIsPrefix(first, steps, s);
    ReceivedIsPrefix(first', steps', s');
  }

  /** A stream that blocks has emitted every published event of its job, and every event that was
      committed when it last read a page. */
  lemma BlockedMeansCaughtUp(first: State, steps: seq<Step>, s: State, e: Event)
    requires Reaches(first, steps, s) && Blocked(s.world, s.stream)
    requires e.job == s.client.job && e.seqno > s.client.start
    requires e in s.world.bus || e in Seen(s)
    ensures e in s.client.received
  {
    ReachesInv(first, steps, s);
    hide LogsOk, StreamOk;
    var log := LogNow(s);
    CoveredIsReceived(s, e);
  }

  lemma CoveredIsReceived(s: State, e: Event)
    requires Inv(s) && Blocked(s.world, s.stream) && e.job == s.client.job && e.seqno > s.client.start
    requires e in s.world.bus || e in LogOf(s.world, s.client.job)[..s.client.seen]
    ensures e in s.client.received
  {
    hide LogsOk, BusOk, StreamOk;
    var log := LogOf(s.world, s.client.job);
    assert Covered(s.stream, e);
    assert e in log by { assert e in s.world.bus ==> BusOk(s.world); EInLog(s.world, s.client.job, e, s.client.seen); }
    InAfter(log, s.client.start, e);
    BeforeCursor(s, e);
  }

  lemma EInLog(w: World, job: JobId, e: Event, seen: nat)
    requires BusOk(w) && e.job == job && seen <= |LogOf(w, job)|
    requires e in w.bus || e in LogOf(w, job)[..seen]
    ensures e in LogOf(w, job)
  {}

  // A row after the start that is not after the cursor has been received.
  lemma BeforeCursor(s: State, e: Event)
    requires Inv(s) && s.stream.phase.Looping?
    requires e in After(LogOf(s.world, s.client.job), s.client.start) && e.seqno <= s.stream.cursor
    ensures e in s.client.received
  {
    var log := LogOf(s.world, s.client.job);
    assert LogOk(log, s.client.job);
    hide LogsOk, BusOk, BusCovered, SeenCovered, LogOk;
    Splits(log, s.client.start, s.client.received);
    InAfter(log, s.stream.cursor, e);
  }

  // The newest row was published, or the latest page read saw it, or there is none to see.
  ghost predicate NewestIsOut(s: State) {
    var log := LogNow(s);
    log == [] || log[|log| - 1].seqno <= s.client.start || log[|log| - 1] in s.world.bus || s.client.seen == |log|
  }

  lemma NewestIsEnough(s: State)
    requires Inv(s) && Blocked(s.world, s.stream) && NewestIsOut(s)
    ensures s.client.received == After(LogNow(s), s.client.start)
  {
    var log, c := LogNow(s), s.client;
    assert LogOk(log, c.job);
    hide LogsOk, BusOk, LogOk, BusCovered, SeenCovered, StreamOk;
    var k := AfterIsSuffix(log, c.start);
    if k < |log| {
      var last := log[|log| - 1];
      assert last.job == c.job by { assert LogOk(log, c.job); LogJob(log, c.job); }
      if c.seen == |log| { assert last in log[..c.seen]; }
      CoveredIsReceived(s, last);
      LastReceived(log, c.start, c.received);
    }
  }

  lemma NewestIsNeeded(s: State)
    requires Inv(s) && AllKnown(s) && s.client.received == After(LogNow(s), s.client.start)
    ensures NewestIsOut(s)
  {
    var log, c := LogNow(s), s.client;
    assert LogOk(log, c.job);
    hide LogsOk, BusOk, BusCovered, SeenCovered, StreamOk;
    if log != [] && log[|log| - 1].seqno > c.start {
      var last := log[|log| - 1];
      InAfter(log, c.start, last);
      assert Known(last, c, s.world.bus, log);
      if last !in s.world.bus {
        var i :| 0 <= i < c.seen && log[i] == last;
        assert i == |log| - 1;
      }
    }
  }

  /** A blocked stream has everything committed exactly when the newest row of its log was
      published or was there when the latest page was read: earlier publications may be lost, late
      or out of order. */
  lemma CompleteExactly(first: State, steps: seq<Step>, s: State)
    requires Reaches(first, steps, s) && Blocked(s.world, s.stream)
    ensures s.client.received == After(LogNow(s), s.client.start) <==> NewestIsOut(s)
  {
    ReachesInv(first, steps, s);
    hide Inv, AllKnown, LogNow, After, NewestIsOut;
    if NewestIsOut(s) { NewestIsEnough(s); }
    if s.client.received == After(LogNow(s), s.client.start) { NewestIsNeeded(s); }
  }

  lemma LogJob(log: seq<Event>, job: JobId)
    requires LogOk(log, job)
    ensures forall e <- log :: e.job == job
  {}

  lemma LastReceived(log: seq<Event>, start: nat, received: seq<Event>)
    requires Ascending(log) && log != [] && received <= After(log, start) && log[|log| - 1] in received
    ensures received == After(log, start)
  {
    var k := AfterIsSuffix(log, start);
    var i :| 0 <= i < |received| && received[i] == log[|log| - 1];
    assert received[i] == log[k..][i] == log[k + i];
  }

  /** Commits alone are not enough: an event whose publication failed stays unseen while the
      stream blocks, until a later event or a new connection brings it in. */
  lemma SilentCommit()
    ensures exists first, steps, s :: Reaches(first, steps, s) && Blocked(s.world, s.stream)
              && s.client.received == [] && |After(LogNow(s), s.client.start)| == 1
  {
    var first := Init(map[7 := []], 7, 0, 16);
    var a := Apply(first, Connect);
    var b := Apply(a, InitialReplay(true));
    var s := Apply(b, Append(7, false, 0));
    var steps := [Connect, InitialReplay(true), Append(7, false, 0)];
    hide Run;
    ThreeSteps(first, Connect, InitialReplay(true), Append(7, false, 0), a, b, s);
    assert LogNow(s) == [Event(7, 1, false, 0)];
    assert Reaches(first, steps, s);
  }

  lemma ThreeSteps(s: State, x: Step, y: Step, z: Step, a: State, b: State, t: State)
    requires Enabled(s, x) && Apply(s, x) == a && Enabled(a, y) && Apply(a, y) == b && Enabled(b, z) && Apply(b, z) == t
    ensures Run(s, [x, y, z]) == Some(t)
  {
    hide Enabled, Apply;
    assert [x, y, z][1..] == [y, z] && [y, z][1..] == [z];
    assert Run(b, [z]) == Some(t);
  }

  /** After a terminal event the client has the whole log, and no later connection adds to it. */
  lemma TerminalIsComplete(first: State, steps: seq<Step>, s: State)
    requires Reaches(first, steps, s) && s.client.received != []
    requires s.client.received[|s.client.received| - 1].terminal
    ensures s.client.received == After(LogNow(s), s.client.start)
  {
    ReachesInv(first, steps, s);
    var log, c := LogNow(s), s.client;
    assert LogOk(log, c.job);
    var k := AfterIsSuffix(log, c.start);
    var n := |c.received|;
    assert c.received[n - 1] == log[k..][n - 1] == log[k + n - 1];
    assert log[k + n - 1].terminal;
  }

  lemma ApplyGrows(s: State, st: Step)
    requires Enabled(s, st)
    ensures s.client.received <= Apply(s, st).client.received
    ensures s.stream.done && !st.Connect? ==> Apply(s, st).client.received == s.client.received
  {
    hide AppendNext, PublishNext, RefillNext, InitialReplayNext, ReceiveNext, TakeNext, Blocked;
  }

  lemma {:induction false} ReceivedGrows(s: State, steps: seq<Step>)
    requires Run(s, steps).Some?
    ensures s.client.received <= Run(s, steps).value.client.received
    decreases |steps|
  {
    hide Enabled, Apply;
    if steps != [] {
      ApplyGrows(s, steps[0]);
      ReceivedGrows(Apply(s, steps[0]), steps[1..]);
    }
  }

  lemma {:induction false} Unrolls(s: State, before: seq<Step>, after: seq<Step>)
    requires Run(s, before).Some?
    ensures Run(s, before + after) == Run(Run(s, before).value, after)
    decreases |before|
  {
    hide Enabled, Apply;
    if before == [] {
      assert before + after == after;
    } else {
      assert (before + after)[1..] == before[1..] + after;
      Unrolls(Apply(s, before[0]), before[1..], after);
    }
  }

  lemma NothingAfterTerminal(first: State, steps: seq<Step>, s: State, more: seq<Step>, t: State)
    requires Reaches(first, steps, s) && Run(s, more) == Some(t)
    requires s.client.received != [] && s.client.received[|s.client.received| - 1].terminal
    ensures t.client.received == s.client.received
  {
    hide Enabled, Apply, LogNow;
    Unrolls(first, steps, more);
    ReceivedGrows(s, more);
    ReceivedIsPrefix(first, steps + more, t);
  }

  /** A refill after a sequence jump always finds the missing rows, so the live candidate is
      never used in their place. */
  lemma FallbackUnreachable(first: State, steps: seq<Step>, s: State)
    requires Reaches(first, steps, s) && s.stream.phase.Refilling? && s.stream.phase.why.Jump?
    requires Fetch(s.world, s.client.job, s.stream.cursor).Some?
    ensures var page := PageOf(LogNow(s), s.stream.cursor, REPLAY_PAGE_SIZE);
            && page.events != []
            && Apply(s, Refill(true)).stream.pending == page.events
  {
    ReachesInv(first, steps, s);
    hide LogsOk, BusOk, BusCovered, SeenCovered, StreamOk;
    RefillIsPage(s.world, s.stream, s.client);
  }
}
