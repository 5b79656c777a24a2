/**
 The inductive invariant of the progress stream: what the client received is a
 prefix of the log after its start, what is pending is the next stretch of that
 log, and no published event the receiver is past has been lost.
 */
module ProgressInvariant {
  import opened Wrappers
  import opened ProgressLog
  import opened ProgressStream

  ghost predicate LogsOk(w: World) {
    forall j <- w.logs :: LogOk(w.logs[j], j)
  }

  // Everything on the bus was committed first.
  ghost predicate BusOk(w: World) {
    forall e <- w.bus :: e.job in w.logs && e in w.logs[e.job]
  }

  predicate Live(t: Stream) { t.phase.Subscribed? || t.phase.Looping? || t.phase.Refilling? }

  ghost predicate StreamOk(t: Stream, c: Client, log: seq<Event>) {
    && t.cursor == Resume(c.start, c.received)
    && t.pending <= After(log, t.cursor)
    && (!t.phase.Looping? ==> t.pending == [] && !t.done)
    && (t.done ==> c.received != [] && c.received[|c.received| - 1].terminal)
    && (t.phase.Refilling? && t.phase.why.Jump? ==>
          t.phase.why.candidate in log && t.phase.why.candidate.seqno > t.cursor)
  }

  // Still to be emitted for certain, or emitted, or before the start.
  predicate Covered(t: Stream, e: Event) {
    e.seqno <= t.cursor || e in t.pending || t.replayMore
  }

  ghost predicate BusCovered(t: Stream, c: Client, bus: seq<Event>) {
    t.phase.Looping? ==> forall i | 0 <= i < t.next && i < |bus| && bus[i].job == c.job :: Covered(t, bus[i])
  }

  ghost predicate SeenCovered(t: Stream, c: Client, log: seq<Event>) {
    c.seen <= |log| && (t.phase.Looping? ==> forall i | 0 <= i < c.seen :: Covered(t, log[i]))
  }

  ghost predicate Inv(s: State) {
    var w, t, c := s.world, s.stream, s.client;
    var log := LogOf(w, c.job);
    && LogsOk(w) && BusOk(w)
    && c.received <= After(log, c.start)
    && t.next <= |w.bus|
    && (Live(t) ==> StreamOk(t, c, log))
    && BusCovered(t, c, w.bus)
    && SeenCovered(t, c, log)
  }

  // ---- Pages ----

  /** A page of an ordered log needs no filtering, and holds something unless nothing follows. */
  lemma PageIsNext(log: seq<Event>, cursor: nat, limit: nat)
    requires 0 < limit
    ensures var page := PageOf(log, cursor, limit);
            && page.events <= After(log, cursor)
            && Newer(page.events, cursor) == page.events
            && (page.nextAfter.None? ==> page.events == After(log, cursor))
            && (page.events == [] <==> After(log, cursor) == [])
  {
    forall e <- PageOf(log, cursor, limit).events ensures e.seqno > cursor {
      InAfter(log, cursor, e);
    }
    NewerAll(PageOf(log, cursor, limit).events, cursor);
  }

  lemma {:induction false} NewerAll(events: seq<Event>, cursor: nat)
    requires forall e <- events :: e.seqno > cursor
    ensures Newer(events, cursor) == events
  {
    if events != [] {
      NewerAll(events[1..], cursor);
    }
  }

  lemma PageCovers(log: seq<Event>, cursor: nat, limit: nat, e: Event)
    requires 0 < limit && e in log
    ensures var page := PageOf(log, cursor, limit);
            e.seqno <= cursor || e in page.events || page.nextAfter.Some?
  {
    InAfter(log, cursor, e);
  }

  // ---- Steps of the environment ----

  // The client's part of the invariant survives rows added at the end.
  lemma GrowthKeeps(t: Stream, c: Client, log: seq<Event>, e: Event)
    requires (Live(t) ==> StreamOk(t, c, log)) && SeenCovered(t, c, log) && c.received <= After(log, c.start)
    ensures (Live(t) ==> StreamOk(t, c, log + [e])) && SeenCovered(t, c, log + [e]) && c.received <= After(log + [e], c.start)
  {
    hide Covered;
    AfterAppend(log, e, c.start);
    AfterAppend(log, e, t.cursor);
    hide After;
  }

  // The logs and the bus survive a row added at the end of one log.
  lemma AppendKeepsWorld(w: World, job: JobId, terminal: bool, body: nat)
    requires LogsOk(w) && BusOk(w) && job in w.logs && AppendRow(w.logs[job], job, terminal, body).Ok?
    ensures LogsOk(AppendNext(w, job, terminal, body)) && BusOk(AppendNext(w, job, terminal, body))
  {
    hide AppendRow, LogOk;
    AppendKeepsLog(w.logs[job], job, terminal, body);
  }

  lemma AppendKeeps(s: State, job: JobId, terminal: bool, body: nat)
    requires Inv(s) && job in s.world.logs
    ensures Inv(s.(world := AppendNext(s.world, job, terminal, body)))
  {
    hide LogsOk, BusOk, StreamOk, SeenCovered, BusCovered, AppendRow, After, AppendNext;
    var w, t, c := s.world, s.stream, s.client;
    var row := AppendRow(w.logs[job], job, terminal, body);
    AppendResult(w, job, terminal, body);
    if row.Ok? {
      AppendKeepsWorld(w, job, terminal, body);
      if job == c.job { GrowthKeeps(t, c, w.logs[job], row.value); }
    }
  }

  lemma AppendResult(w: World, job: JobId, terminal: bool, body: nat)
    requires job in w.logs
    ensures var row, x := AppendRow(w.logs[job], job, terminal, body), AppendNext(w, job, terminal, body);
            && x == (if row.Ok? then w.(logs := w.logs[job := w.logs[job] + [row.value]]) else w)
            && x.bus == w.bus && forall k | k != job :: LogOf(x, k) == LogOf(w, k)
  {
    hide AppendRow;
  }

  lemma PublishKeeps(s: State, job: JobId, i: nat)
    requires Inv(s) && job in s.world.logs && i < |s.world.logs[job]|
    ensures Inv(s.(world := PublishNext(s.world, s.world.logs[job][i])))
  {
    hide StreamOk, Covered, SeenCovered;
    assert LogOk(s.world.logs[job], job);
  }

  // ---- Steps of the stream ----

  // After a replay everything in the log is covered.
  lemma ReplayCovers(w: World, t: Stream, c: Client, log: seq<Event>)
    requires BusOk(w) && log == LogOf(w, c.job) && c.seen <= |log|
    requires forall e <- log :: Covered(t, e)
    ensures BusCovered(t, c, w.bus) && SeenCovered(t, c, log)
  {
    hide Covered;
    forall i | 0 <= i < |w.bus| && w.bus[i].job == c.job ensures Covered(t, w.bus[i]) {
      assert w.bus[i] in w.bus;
    }
  }

  lemma InitialReplayKeeps(s: State, ok: bool)
    requires Inv(s) && s.stream.phase.Subscribed?
    ensures Inv(Apply(s, InitialReplay(ok)))
  {
    hide LogsOk, BusOk, PageOf, BusCovered, StreamOk, Covered;
    var w, t, c := s.world, s.stream, s.client;
    var u, d := InitialReplayNext(w, t, c, ok), ReadNext(w, t, c, ok);
    if ok && Fetch(w, c.job, t.cursor).Some? {
      var log := w.logs[c.job];
      PageIsNext(log, t.cursor, REPLAY_PAGE_SIZE);
      ReplayStream(t, u, c, d, log, PageOf(log, t.cursor, REPLAY_PAGE_SIZE));
      ReplayCovers(w, u, d, log);
    } else {
      StoppedCovers(u, d, w.bus, LogOf(w, c.job));
    }
  }

  lemma StoppedCovers(t: Stream, c: Client, bus: seq<Event>, log: seq<Event>)
    requires t.phase.Ended? && c.seen <= |log|
    ensures BusCovered(t, c, bus) && SeenCovered(t, c, log) && !Live(t)
  {}

  lemma ReplayStream(t: Stream, u: Stream, c: Client, d: Client, log: seq<Event>, page: Page)
    requires StreamOk(t, c, log) && !t.phase.Looping? && page == PageOf(log, t.cursor, REPLAY_PAGE_SIZE)
    requires d == c.(seen := d.seen)
    requires u == t.(phase := Looping, pending := page.events, replayMore := page.nextAfter.Some?)
    ensures StreamOk(u, d, log)
    ensures forall e <- log :: Covered(u, e)
  {
    hide PageOf;
    PageIsNext(log, t.cursor, REPLAY_PAGE_SIZE);
    forall e <- log ensures Covered(u, e) {
      PageCovers(log, t.cursor, REPLAY_PAGE_SIZE, e);
    }
  }

  /** A refill takes the page as it is: nothing is filtered out, and the live candidate of a
      sequence jump is never pushed, for the page is not empty. */
  lemma RefillIsPage(w: World, t: Stream, c: Client)
    requires StreamOk(t, c, LogOf(w, c.job)) && t.phase.Refilling? && Fetch(w, c.job, t.cursor).Some?
    ensures var page := PageOf(LogOf(w, c.job), t.cursor, REPLAY_PAGE_SIZE);
            && RefillNext(w, t, c, true) == t.(phase := Looping, pending := page.events, replayMore := page.nextAfter.Some?)
            && (t.phase.why.Jump? ==> page.events != [])
  {
    hide PageOf;
    var log := LogOf(w, c.job);
    PageIsNext(log, t.cursor, REPLAY_PAGE_SIZE);
    if t.phase.why.Jump? {
      InAfter(log, t.cursor, t.phase.why.candidate);
    }
  }

  lemma RefillKeeps(s: State, ok: bool)
    requires Inv(s) && s.stream.phase.Refilling?
    ensures Inv(Apply(s, Refill(ok)))
  {
    hide LogsOk, BusOk, PageOf, BusCovered, StreamOk, Covered;
    var w, t, c := s.world, s.stream, s.client;
    var u, d := RefillNext(w, t, c, ok), ReadNext(w, t, c, ok);
    if ok && Fetch(w, c.job, t.cursor).Some? {
      var log := w.logs[c.job];
      RefillIsPage(w, t, c);
      ReplayStream(t, u, c, d, log, PageOf(log, t.cursor, REPLAY_PAGE_SIZE));
      ReplayCovers(w, u, d, log);
    } else {
      StoppedCovers(u, d, w.bus, LogOf(w, c.job));
    }
  }

  // Taking the next row of the log extends what was received by it.
  lemma TakeExtends(log: seq<Event>, start: nat, received: seq<Event>, e: Event)
    requires Ascending(log) && received <= After(log, start)
    requires [e] <= After(log, Resume(start, received))
    ensures received + [e] <= After(log, start)
    ensures After(log, Resume(start, received)) == [e] + After(log, e.seqno)
    ensures e.seqno > Resume(start, received)
  {
    var cursor := Resume(start, received);
    InAfter(log, cursor, e);
    Splits(log, start, received);
    assert received + [e] <= After(log, start);
    Splits(log, start, received + [e]);
    assert After(log, cursor) == After(log, start)[|received|..];
  }

  lemma TakeKeeps(s: State, encodes: bool)
    requires Inv(s) && s.stream.phase.Looping? && !s.stream.done && s.stream.pending != []
    ensures Inv(Apply(s, Take(encodes)))
  {
    var w, t, c := s.world, s.stream, s.client;
    var log := LogOf(w, c.job);
    var e := t.pending[0];
    assert LogOk(log, c.job) by { if c.job in w.logs {} }
    hide LogsOk, LogOk, BusOk;
    TakeExtends(log, c.start, c.received, e);
  }

  // What is known of the event the receiver gives next.
  lemma NextOnBus(w: World, t: Stream, c: Client, e: Event)
    requires LogsOk(w) && BusOk(w) && e in w.bus && e.job == c.job && e.seqno > t.cursor
    ensures e in LogOf(w, c.job)
    ensures e.seqno == t.cursor + 1 ==> [e] <= After(LogOf(w, c.job), t.cursor)
  {
    var log := w.logs[c.job];
    assert LogOk(log, c.job);
    if e.seqno == t.cursor + 1 {
      NextIsFirst(log, t.cursor, e);
    }
  }

  // Nothing consumed so far is lost, and the event consumed now is in `u`.
  lemma ConsumeCovers(t: Stream, u: Stream, c: Client, bus: seq<Event>, log: seq<Event>)
    requires t.next < |bus| && u.next == t.next + 1 && u.cursor == t.cursor && t.pending <= u.pending
    requires u.replayMore == t.replayMore && t.phase.Looping?
    requires BusCovered(t, c, bus) && SeenCovered(t, c, log)
    requires bus[t.next].job == c.job ==> Covered(u, bus[t.next])
    ensures BusCovered(u, c, bus) && SeenCovered(u, c, log)
  {
    forall e: Event | Covered(t, e) ensures Covered(u, e) {}
    hide Covered;
  }

  lemma ReceiveKeeps(s: State)
    requires Inv(s) && Enabled(s, Receive)
    ensures Inv(Apply(s, Receive))
  {
    hide LogsOk, BusOk, BusCovered, After;
    var w, t, c := s.world, s.stream, s.client;
    var u := ReceiveNext(w, t, c);
    var log := LogOf(w, c.job);
    if t.next == |w.bus| || |w.bus| - t.next > c.capacity {
      NotLooping(u, c, w.bus);
    } else {
      var e := w.bus[t.next];
      assert e in w.bus;
      if e.job == c.job && e.seqno > t.cursor {
        NextOnBus(w, t, c, e);
      }
      if u.phase.Looping? {
        ConsumeCovers(t, u, c, w.bus, log);
      } else {
        NotLooping(u, c, w.bus);
      }
    }
  }

  lemma NotLooping(t: Stream, c: Client, bus: seq<Event>)
    requires !t.phase.Looping?
    ensures BusCovered(t, c, bus)
  {}

  // No row fits between a cursor and the sequence after it.
  lemma NextIsFirst(log: seq<Event>, cursor: nat, e: Event)
    requires Ascending(log) && e in log && e.seqno == cursor + 1
    ensures [e] <= After(log, cursor)
  {
    var k := AfterIsSuffix(log, cursor);
    var i :| 0 <= i < |log| && log[i] == e;
    assert k <= i && cursor < log[k].seqno <= log[i].seqno;
  }

  lemma StepKeepsInv(s: State, st: Step)
    requires Inv(s) && Enabled(s, st)
    ensures Inv(Apply(s, st))
  {
    match st
    case Append(job, terminal, body) => AppendKeeps(s, job, terminal, body);
    case Publish(job, i) => PublishKeeps(s, job, i);
    case InitialReplay(ok) => InitialReplayKeeps(s, ok);
    case Take(encodes) => TakeKeeps(s, encodes);
    case Refill(ok) => RefillKeeps(s, ok);
    case Receive => ReceiveKeeps(s);
    case _ => hide LogsOk, BusOk;
  }

  lemma {:induction false} RunKeepsInv(s: State, steps: seq<Step>)
    requires Inv(s) && Run(s, steps).Some?
    ensures Inv(Run(s, steps).value)
    decreases |steps|
  {
    hide Inv, Enabled, Apply;
    if steps != [] {
      StepKeepsInv(s, steps[0]);
      RunKeepsInv(Apply(s, steps[0]), steps[1..]);
    }
  }

  // ---- Where the events came from ----

  // Published, or in the log when its latest page was read.
  predicate Known(e: Event, c: Client, bus: seq<Event>, log: seq<Event>) {
    e in bus || (c.seen <= |log| && e in log[..c.seen])
  }

  /** Nothing is received or pending that was neither published nor read. */
  ghost predicate AllKnown(s: State) {
    var log := LogOf(s.world, s.client.job);
    && s.client.seen <= |log|
    && (forall e <- s.client.received :: Known(e, s.client, s.world.bus, log))
    && (forall e <- s.stream.pending :: Known(e, s.client, s.world.bus, log))
  }

  lemma AppendKeepsKnown(s: State, job: JobId, terminal: bool, body: nat)
    requires AllKnown(s) && job in s.world.logs
    ensures AllKnown(s.(world := AppendNext(s.world, job, terminal, body)))
  {
    var log, c := LogOf(s.world, s.client.job), s.client;
    var longer := LogOf(AppendNext(s.world, job, terminal, body), c.job);
    assert log <= longer && longer[..c.seen] == log[..c.seen];
  }

  // After a page was read, everything in the log is known.
  lemma ReadKnows(s: State, t: State)
    requires Inv(s) && t.world == s.world && t.client == s.client.(seen := |LogOf(s.world, s.client.job)|)
    requires forall e <- t.stream.pending :: e in LogOf(s.world, s.client.job)
    ensures AllKnown(t)
  {
    var log := LogOf(s.world, s.client.job);
    assert log[..|log|] == log;
    forall e <- t.client.received ensures e in log {
      assert e in After(log, s.client.start);
      InAfter(log, s.client.start, e);
    }
  }

  lemma PageKnown(log: seq<Event>, cursor: nat, e: Event)
    requires e in PageOf(log, cursor, REPLAY_PAGE_SIZE).events
    ensures e in log
  {
    assert e in After(log, cursor);
    InAfter(log, cursor, e);
  }

  lemma ReplayKeepsKnown(s: State, st: Step)
    requires Inv(s) && AllKnown(s) && Enabled(s, st) && (st.InitialReplay? || st.Refill?)
    ensures AllKnown(Apply(s, st))
  {
    var w, t, c := s.world, s.stream, s.client;
    var log := LogOf(w, c.job);
    if st.ok && Fetch(w, c.job, t.cursor).Some? {
      if st.Refill? { RefillIsPage(w, t, c); }
      hide Inv, AllKnown, RefillNext, PageOf, StreamOk;
      var page := PageOf(log, t.cursor, REPLAY_PAGE_SIZE);
      assert Apply(s, st).stream.pending == page.events;
      forall e <- page.events ensures e in log { PageKnown(log, t.cursor, e); }
      ReadKnows(s, Apply(s, st));
    }
  }

  lemma EventsKeepKnown(s: State, st: Step)
    requires AllKnown(s) && Enabled(s, st) && (st.Take? || st.Receive?)
    ensures AllKnown(Apply(s, st))
  {
    var w, t, c := s.world, s.stream, s.client;
    hide Blocked, Fetch, LogOf;
    if st.Take? {
      var e := t.pending[0];
      assert e in t.pending && forall x <- t.pending[1..] :: x in t.pending;
    } else if t.next < |w.bus| {
      assert w.bus[t.next] in w.bus;
    }
  }

  lemma StepKeepsKnown(s: State, st: Step)
    requires Inv(s) && AllKnown(s) && Enabled(s, st)
    ensures AllKnown(Apply(s, st))
  {
    hide Inv, PageOf;
    match st
    case Append(job, terminal, body) => AppendKeepsKnown(s, job, terminal, body);
    case InitialReplay(_) => ReplayKeepsKnown(s, st);
    case Refill(_) => ReplayKeepsKnown(s, st);
    case Take(_) => EventsKeepKnown(s, st);
    case Receive => EventsKeepKnown(s, st);
    case _ =>
  }

  lemma {:induction false} RunKeepsKnown(s: State, steps: seq<Step>)
    requires Inv(s) && AllKnown(s) && Run(s, steps).Some?
    ensures AllKnown(Run(s, steps).value)
    decreases |steps|
  {
    hide Inv, AllKnown, Enabled, Apply;
    if steps != [] {
      StepKeepsInv(s, steps[0]);
      StepKeepsKnown(s, steps[0]);
      RunKeepsKnown(Apply(s, steps[0]), steps[1..]);
    }
  }
}
