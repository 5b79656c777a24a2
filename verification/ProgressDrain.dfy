/**
 The progress stream gets there: left to itself it takes finitely many steps, and a client that
 reconnects is given everything that was committed by then.
 */
module ProgressDrain {
  import opened Wrappers
  import opened ProgressLog
  import opened ProgressStream
  import opened ProgressInvariant
  import opened ProgressTheorems
  import opened ProgressEnd

  /** What a connected stream does next when no query and no encoding fails. */
  function NextOwn(t: Stream): Step {
    match t.phase
    case Subscribed => InitialReplay(true)
    case Refilling(_) => Refill(true)
    case _ =>
      if t.done then Finish
      else if t.pending != [] then Take(true)
      else if t.replayMore then StartRefill
      else Receive
  }

  // A step of the stream itself in which nothing fails.
  predicate Own(st: Step) { Healthy(st) && !(st.Connect? || st.Append? || st.Publish?) }

  // ---- What is left to do: rows to emit, then events to receive, then steps of the loop ----

  ghost function Rows(s: State): nat { |After(LogNow(s), s.stream.cursor)| }

  function Unread(s: State): nat {
    if s.stream.next <= |s.world.bus| then |s.world.bus| - s.stream.next else 0
  }

  function Place(t: Stream): nat {
    match t.phase
    case Subscribed => 4
    case Refilling(_) => 2
    case Looping => if !t.done && t.pending == [] && t.replayMore then 3 else 1
    case _ => 0
  }

  ghost predicate Closer(s: State, u: State) {
    || Rows(u) < Rows(s)
    || (Rows(u) == Rows(s) && (Unread(u) < Unread(s) || (Unread(u) == Unread(s) && Place(u.stream) < Place(s.stream))))
  }

  // A page was read at the length that the log now has.
  ghost predicate Fresh(s: State) {
    s.stream.phase.Subscribed? || s.client.seen == |LogNow(s)|
  }

  lemma TakeIsCloser(s: State)
    requires Inv(s) && Enabled(s, Take(true))
    ensures Closer(s, Apply(s, Take(true)))
  {
    var log, t := LogNow(s), s.stream;
    var e := t.pending[0];
    PendingAhead(s);
    PendingIsNext(s);
    hide Inv, After;
    var j := AfterIsSuffix(log, t.cursor);
    var k := AfterIsSuffix(log, e.seqno);
    assert e == log[j..][0] == log[j];
    assert j < k;
  }

  lemma PendingIsNext(s: State)
    requires Inv(s) && s.stream.phase.Looping?
    ensures Ascending(LogNow(s)) && s.stream.pending <= After(LogNow(s), s.stream.cursor)
  {
    assert LogOk(LogNow(s), s.client.job);
    hide BusOk, BusCovered, SeenCovered, After;
  }

  // A refill brings the next page, which holds rows if any are left and says whether more follow.
  lemma RefillBrings(s: State)
    requires Inv(s) && Enabled(s, Refill(true)) && Askable(s)
    ensures var u := Apply(s, Refill(true));
            && u.stream.phase.Looping? && u.stream.cursor == s.stream.cursor && u.stream.next == s.stream.next
            && u.stream.done == s.stream.done && u.world == s.world && LogNow(u) == LogNow(s)
            && (u.stream.pending == [] ==> !u.stream.replayMore)
  {
    CursorInRange(s);
    RefillIsPage(s.world, s.stream, s.client);
    PageHolds(LogNow(s), s.stream.cursor, REPLAY_PAGE_SIZE);
    hide Inv, After, PageOf, Newer, RefillNext;
  }

  lemma PageHolds(log: seq<Event>, cursor: nat, limit: nat)
    requires 0 < limit
    ensures var page := PageOf(log, cursor, limit); page.events == [] ==> page.nextAfter.None?
  {
    hide After;
  }

  lemma RefillIsCloser(s: State)
    requires Inv(s) && Enabled(s, Refill(true)) && Askable(s)
    ensures Closer(s, Apply(s, Refill(true)))
  {
    RefillBrings(s);
    hide Inv, After, Apply, LogNow;
  }

  lemma ReplayIsCloser(s: State)
    requires Inv(s) && Enabled(s, InitialReplay(true)) && Askable(s)
    ensures Closer(s, Apply(s, InitialReplay(true)))
  {
    CursorInRange(s);
    hide Inv, After, PageOf;
  }

  lemma ReceiveIsCloser(s: State)
    requires Enabled(s, Receive) && !s.world.closed
    ensures Closer(s, Apply(s, Receive))
  {
    hide After;
  }

  /** A connected stream that is not waiting for the hub can always go on, and each of its steps
      brings it closer to waiting or to its end. */
  lemma OwnStep(s: State)
    requires Inv(s) && EndsWell(s) && Live(s.stream) && !Blocked(s.world, s.stream)
    ensures var st := NextOwn(s.stream);
            && Enabled(s, st) && Own(st)
            && Apply(s, st).world == s.world && Apply(s, st).client.job == s.client.job
            && Apply(s, st).client.start == s.client.start
            && Closer(s, Apply(s, st))
  {
    var st := NextOwn(s.stream);
    assert s.stream.next <= |s.world.bus|;
    assert s.stream.phase.Looping? && s.stream.pending == [] && !s.stream.replayMore && !s.stream.done ==>
        s.stream.next < |s.world.bus|;
    match st
    case Take(_) => TakeIsCloser(s);
    case Refill(_) => RefillIsCloser(s);
    case InitialReplay(_) => ReplayIsCloser(s);
    case Receive => ReceiveIsCloser(s);
    case _ => hide Inv, After;
  }

  lemma OwnStepStaysFresh(s: State)
    requires Inv(s) && EndsWell(s) && Live(s.stream) && Fresh(s) && Enabled(s, NextOwn(s.stream))
    ensures Fresh(Apply(s, NextOwn(s.stream)))
  {
    CursorInRange(s);
    hide Inv, After, PageOf, Newer;
  }

  /** Left to itself, a connected stream ends, after a terminal event, or waits for the hub. */
  lemma {:induction false} Drains(s: State) returns (steps: seq<Step>, t: State)
    requires Inv(s) && EndsWell(s) && Live(s.stream)
    ensures Run(s, steps) == Some(t) && (forall st <- steps :: Own(st)) && Inv(t)
    ensures t.world == s.world && t.client.job == s.client.job && t.client.start == s.client.start
    ensures Blocked(t.world, t.stream) || (t.stream.phase.Ended? && HasTerminal(t.client.received))
    ensures Fresh(s) ==> Fresh(t)
    decreases Rows(s), Unread(s), Place(s.stream)
  {
    if Blocked(s.world, s.stream) {
      steps, t := [], s;
    } else {
      var st := NextOwn(s.stream);
      OwnStep(s);
      StepKeepsInv(s, st);
      HealthyStep(s, st);
      if Fresh(s) { OwnStepStaysFresh(s); }
      var u := Apply(s, st);
      GoesOn(s);
      hide Inv, EndsWell, Enabled, Apply, Own, NextOwn, Fresh, Blocked, Rows, Unread, Place, Live;
      if Live(u.stream) {
        steps, t := Drains(u);
        steps := [st] + steps;
      } else {
        steps, t := [st], u;
        EndedWell(u);
        assert steps[1..] == [];
      }
      assert Run(u, steps[1..]) == Some(t);
    }
  }

  lemma GoesOn(s: State)
    requires Live(s.stream) && Enabled(s, NextOwn(s.stream))
    ensures var t := Apply(s, NextOwn(s.stream)).stream; Live(t) || t.phase.Ended?
  {
    hide PageOf, Newer, Fetch;
  }

  lemma EndedWell(s: State)
    requires EndsWell(s) && s.stream.phase.Ended?
    ensures HasTerminal(s.client.received)
  {}

  /** From anywhere in any run, while the hub is open: a client of a known job that connects again and
      is left alone has, after finitely many steps, every row of the log after its start. */
  lemma ReconnectGivesAll(first: State, steps: seq<Step>, s: State) returns (more: seq<Step>, t: State)
    requires Reaches(first, steps, s) && Askable(s) && !s.world.closed
    ensures Run(s, more) == Some(t) && more != [] && more[0] == Connect
    ensures forall st <- more[1..] :: Own(st)
    ensures t.world == s.world && t.client.received == After(LogNow(s), s.client.start)
  {
    ReachesInv(first, steps, s);
    Connected(s);
    var u := Apply(s, Connect);
    hide Inv, EndsWell, Fresh, Blocked, Own, Enabled, Apply, HasTerminal;
    more, t := Drains(u);
    AllReceived(t);
    var own := more;
    more := [Connect] + own;
    assert more[1..] == own;
  }

  lemma Connected(s: State)
    requires Inv(s) && Askable(s) && !s.world.closed
    ensures var u := Apply(s, Connect);
            && Inv(u) && EndsWell(u) && Live(u.stream) && Fresh(u) && Enabled(s, Connect)
            && u.world == s.world && u.client == s.client
  {
    StepKeepsInv(s, Connect);
    hide Inv;
  }

  lemma AllReceived(t: State)
    requires Inv(t) && Fresh(t)
    requires Blocked(t.world, t.stream) || (t.stream.phase.Ended? && HasTerminal(t.client.received))
    ensures t.client.received == After(LogNow(t), t.client.start)
  {
    hide LogsOk, BusOk, BusCovered, SeenCovered;
    if t.stream.phase.Ended? {
      TerminalIsLast(t);
    } else {
      NewestIsEnough(t);
    }
  }

  lemma TerminalIsLast(t: State)
    requires Inv(t) && HasTerminal(t.client.received)
    ensures t.client.received == After(LogNow(t), t.client.start)
  {
    var log, c := LogNow(t), t.client;
    assert LogOk(log, c.job);
    hide LogsOk, BusOk, BusCovered, SeenCovered, StreamOk;
    var k := AfterIsSuffix(log, c.start);
    var n := |c.received|;
    assert c.received[n - 1] == log[k..][n - 1] == log[k + n - 1];
  }
}
