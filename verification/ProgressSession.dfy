/**
 The stream as the program runs it: a state record that `next_progress_item` and
 `refill_from_durable` change in place.  Other tasks act at every await; what they
 do is read from a finite script, and when the script is used up they are idle.
 Database and encoding faults may happen at any time.
 */
module ProgressSession {
  import opened Wrappers
  import opened ProgressLog
  import opened ProgressStream
  import opened ProgressInvariant
  import opened ProgressTheorems
  import opened ProgressEnd

  // `Waiting`: the receiver is empty and nobody acts any more.
  datatype Item = Emitted(event: Event) | EndOfStream | Waiting

  predicate FromOutside(st: Step) { st.Append? || st.Publish? || st.CloseHub? }

  lemma Extend(s: State, steps: seq<Step>, t: State, st: Step)
    requires Run(s, steps) == Some(t) && Enabled(t, st)
    ensures Run(s, steps + [st]) == Some(Apply(t, st))
  {
    hide Enabled, Apply;
    Unrolls(s, steps, [st]);
    assert [st][1..] == [];
  }

  method KeepNewer(events: seq<Event>, cursor: nat) returns (r: seq<Event>)
    ensures r == Newer(events, cursor)
  {
    r := [];
    var i := 0;
    while i < |events|
      invariant i <= |events|
      invariant Newer(events, cursor) == r + Newer(events[i..], cursor)
    {
      assert events[i..][1..] == events[i + 1..];
      if events[i].seqno > cursor {
        r := r + [events[i]];
      }
      i := i + 1;
    }
  }

  /** The measure of the loop once the other tasks are idle: events left on the bus, then how
      far this pass is from a pending event. */
  function Rank(t: Stream): nat {
    if t.pending != [] then 0 else if t.replayMore then 2 else 1
  }

  // The client's history but for the pages it read.
  predicate SameButSeen(c: Client, d: Client) { c == d.(seen := c.seen) }

  // What holds between two turns of the loop.
  ghost predicate Between(first: State, steps: seq<Step>, s: State) {
    && Inv(first) && Run(first, steps) == Some(s) && Inv(s)
    && s.stream.cursor == first.stream.cursor && SameButSeen(s.client, first.client)
  }

  /** What one call of next_progress_item does: it runs `steps`, emits at most one event, and
      that event is the next row of the log after the cursor it began with. */
  ghost predicate Returns(first: State, steps: seq<Step>, s: State, item: Item) {
    && Run(first, steps) == Some(s) && Inv(s)
    && match item
       case Emitted(e) =>
         [e] <= After(LogOf(s.world, s.client.job), first.stream.cursor)
         && SameButSeen(s.client, first.client.(received := first.client.received + [e]))
       case EndOfStream => s.stream.phase.Ended? && SameButSeen(s.client, first.client)
       case Waiting => Blocked(s.world, s.stream) && SameButSeen(s.client, first.client)
  }

  lemma Starts(s: State)
    requires Inv(s)
    ensures Between(s, [], s) && s.stream.next <= |s.world.bus|
  {}

  lemma StartBetween(first: State, steps: seq<Step>, s: State)
    requires Between(first, steps, s) && s.stream.phase.Looping?
    requires !s.stream.done && s.stream.pending == [] && s.stream.replayMore
    ensures Between(first, steps + [StartRefill], s.(stream := s.stream.(phase := Refilling(More))))
  {
    hide Inv, Run, Apply;
    TurnBetween(first, steps, s, StartRefill);
    StartResult(s);
  }

  lemma StillWaiting(first: State, steps: seq<Step>, s: State)
    requires Between(first, steps, s) && Blocked(s.world, s.stream)
    ensures Returns(first, steps, s, Waiting)
  {
    hide Inv, Run;
  }

  lemma Stopped(first: State, steps: seq<Step>, s: State)
    requires Between(first, steps, s) && s.stream.phase.Ended?
    ensures Returns(first, steps, s, EndOfStream)
  {
    hide Inv, Run;
  }

  // A call that ends the stream without a failure ends it after the terminal event.
  lemma EndHasReason(first: State, steps: seq<Step>, s: State, item: Item)
    requires Inv(first) && first.stream.phase.Looping? && Returns(first, steps, s, item)
    ensures item.EndOfStream? && Askable(first) && !first.world.closed && (forall st <- steps :: Healthy(st)) ==>
              HasTerminal(s.client.received)
  {
    hide Inv, Run, Askable, Healthy, HasTerminal;
    if item.EndOfStream? && Askable(first) && !first.world.closed && (forall st <- steps :: Healthy(st)) {
      EndsForAReason(first, steps, s);
    }
  }

  lemma BetweenPlace(first: State, steps: seq<Step>, s: State)
    requires Between(first, steps, s)
    ensures s.stream.next <= |s.world.bus|
  {}

  lemma RefillEnabled(s: State, ok: bool)
    requires s.stream.phase.Refilling?
    ensures Enabled(s, Refill(ok))
  {}

  // A pending event is the next row of the log.
  lemma PendingIsNext(s: State)
    requires Inv(s) && s.stream.phase.Looping? && s.stream.pending != []
    ensures s.stream.pending[0].seqno > s.stream.cursor
    ensures [s.stream.pending[0]] <= After(LogOf(s.world, s.client.job), s.stream.cursor)
  {
    InAfter(LogOf(s.world, s.client.job), s.stream.cursor, s.stream.pending[0]);
  }

  lemma PlaceOnBus(s: State)
    requires Inv(s)
    ensures s.stream.next <= |s.world.bus|
  {}

  lemma MorePagesHaveEvents(log: seq<Event>, cursor: nat, limit: nat)
    requires 0 < limit
    ensures PageOf(log, cursor, limit).nextAfter.Some? ==> PageOf(log, cursor, limit).events != []
  {}

  // A refill leaves something pending or learns that nothing follows.
  lemma RefillRank(s: State, ok: bool)
    requires Inv(s) && s.stream.phase.Refilling?
    ensures var t := Apply(s, Refill(ok)).stream;
            t.phase.Looping? && t.replayMore ==> t.pending != []
  {
    hide LogsOk, BusOk, BusCovered, SeenCovered, PageOf, After, StreamOk;
    var log := LogOf(s.world, s.client.job);
    if ok && Fetch(s.world, s.client.job, s.stream.cursor).Some? {
      MorePagesHaveEvents(log, s.stream.cursor, REPLAY_PAGE_SIZE);
      RefillIsPage(s.world, s.stream, s.client);
    }
  }

  lemma TakeResult(s: State, encodes: bool)
    requires Enabled(s, Take(encodes)) && s.stream.pending[0].seqno > s.stream.cursor
    ensures var t, e := Apply(s, Take(encodes)), TakeNext(s.stream, encodes).1;
            && (e.Some? <==> encodes) && (e.Some? ==> e.value == s.stream.pending[0])
            && t.world == s.world && t.stream.phase == (if encodes then s.stream.phase else Ended)
            && t.client == (if encodes then s.client.(received := s.client.received + [e.value]) else s.client)
  {}

  lemma Ends(s: State)
    requires Enabled(s, Finish)
    ensures Apply(s, Finish) == s.(stream := s.stream.(phase := Ended))
  {}

  lemma StartResult(s: State)
    requires Enabled(s, StartRefill)
    ensures Apply(s, StartRefill) == s.(stream := s.stream.(phase := Refilling(More)))
  {}

  lemma TurnBetween(first: State, steps: seq<Step>, s: State, st: Step)
    requires Between(first, steps, s) && Enabled(s, st) && !st.Connect?
    ensures Run(first, steps + [st]) == Some(Apply(s, st)) && Inv(Apply(s, st))
  {
    hide Inv, Run, Enabled, Apply;
    Extend(first, steps, s, st);
    StepKeepsInv(s, st);
  }

  class ProgressSession {
    var world: World
    var script: seq<seq<Step>>
    var client: Client
    var phase: Phase
    var next: nat
    var cursor: nat
    var pending: seq<Event>
    var replayMore: bool
    var done: bool

    function View(): State
      reads this
    {
      State(world, Stream(phase, next, cursor, pending, replayMore, done), client)
    }

    // Lets the other tasks run while this one waits.
    method Await(ghost first: State, ghost before: seq<Step>) returns (ghost steps: seq<Step>)
      requires Run(first, before) == Some(View())
      modifies this`world, this`script
      ensures Run(first, steps) == Some(View())
      ensures if old(script) == [] then script == [] && world == old(world) else |script| < |old(script)|
      ensures next <= |old(world).bus| ==> next <= |world.bus|
    {
      hide Run;
      steps := before;
      if script == [] {
        return;
      }
      var acts := script[0];
      script := script[1..];
      var i := 0;
      while i < |acts|
        invariant 0 <= i <= |acts|
        invariant Run(first, steps) == Some(View()) && script == old(script)[1..]
        invariant |old(world).bus| <= |world.bus|
      {
        if FromOutside(acts[i]) && Enabled(View(), acts[i]) {
          Extend(first, steps, View(), acts[i]);
          steps := steps + [acts[i]];
          world := Apply(View(), acts[i]).world;
        }
        i := i + 1;
      }
    }

    /** refill_from_durable, with the caller's use of the live candidate. */
    method RefillFromDurable() returns (ok: bool)
      requires phase.Refilling?
      modifies this`phase, this`pending, this`replayMore, this`client
      ensures View() == Apply(old(View()), Refill(ok))
      ensures phase.Ended? || phase.Looping?
      ensures cursor == old(cursor) && world == old(world) && SameButSeen(client, old(client))
    {
      hide PageOf, Newer, After;
      ok := *;
      if !ok || client.job !in world.logs || cursor > I64_MAX {
        phase := Ended;
        return;
      }
      var page := Replay(world.logs[client.job], cursor, REPLAY_PAGE_SIZE);
      client := client.(seen := |world.logs[client.job]|);
      replayMore := page.nextAfter.Some?;
      var newer := KeepNewer(page.events, cursor);
      pending := pending + newer;
      var why := phase.why;
      if why.Jump? && pending == [] && why.candidate.seqno > cursor {
        pending := pending + [why.candidate];
      }
      phase := Looping;
    }

    /** The pop_front branch. */
    method TakePending() returns (encodes: bool, e: Option<Event>)
      requires phase.Looping? && !done && pending != []
      modifies this
      ensures View() == Apply(old(View()), Take(encodes))
      ensures e == TakeNext(old(View()).stream, encodes).1 && script == old(script)
    {
      encodes := *;
      var head := pending[0];
      pending := pending[1..];
      if head.seqno <= cursor {
        return encodes, None;
      }
      cursor := head.seqno;
      if !encodes {
        phase := Ended;
        return encodes, None;
      }
      done := head.terminal;
      client := client.(received := client.received + [head]);
      return encodes, Some(head);
    }

    /** receiver.recv() on a receiver that has something to give, or whose hub is closed. */
    method Receive()
      requires Enabled(View(), Step.Receive)
      modifies this`phase, this`next, this`pending
      ensures View() == Apply(old(View()), Step.Receive)
      ensures phase.Ended? || (next > old(next) && (phase.Looping? || phase.Refilling?)
                               && (client.capacity < |world.bus| - old(next) || next <= |world.bus|))
    {
      if next == |world.bus| {
        phase := Ended;
      } else if |world.bus| - next > client.capacity {
        next := |world.bus| - client.capacity;
        phase := Refilling(Lagged);
      } else {
        var e := world.bus[next];
        next := next + 1;
        if e.job != client.job || e.seqno <= cursor {
          return;
        }
        if cursor < U64_MAX && e.seqno == cursor + 1 {
          pending := pending + [e];
        } else {
          phase := Refilling(Jump(e));
        }
      }
    }

    // Waits for the replay page and takes it.
    method RefillTurn(ghost first: State, ghost before: seq<Step>) returns (ghost steps: seq<Step>)
      requires Between(first, before, View()) && phase.Refilling?
      modifies this
      ensures Between(first, steps, View()) && (phase.Ended? || phase.Looping?) && next == old(next)
      ensures if old(script) == [] then script == [] && world == old(world) else |script| < |old(script)|
      ensures phase.Looping? && replayMore ==> pending != []
    {
      hide Inv, Run, Apply, Enabled, LogOf;
      steps := Await(first, before);
      RunKeepsInv(first, steps);
      ghost var was := View();
      var ok := RefillFromDurable();
      RefillRank(was, ok);
      ghost var refill := Refill(ok);
      assert Enabled(was, refill) by { RefillEnabled(was, ok); }
      TurnBetween(first, steps, was, refill);
      steps := steps + [refill];
    }

    // Waits for the receiver and takes what it gives; `blocked` if it stays empty.
    method ReceiveTurn(ghost first: State, ghost before: seq<Step>) returns (blocked: bool, ghost steps: seq<Step>)
      requires Between(first, before, View()) && CanReceive(world, View().stream)
      modifies this
      ensures Between(first, steps, View()) && next <= |world.bus|
      ensures if old(script) == [] then script == [] && world == old(world) else |script| < |old(script)|
      ensures blocked ==> phase.Looping? && Blocked(world, View().stream)
      ensures !blocked ==> phase.Ended? || (next > old(next) && (phase.Looping? || phase.Refilling?))
    {
      hide Inv, Run, Apply, LogOf, ReceiveNext;
      steps := Await(first, before);
      RunKeepsInv(first, steps);
      ghost var was := View();
      PlaceOnBus(was);
      blocked := next == |world.bus| && !world.closed;
      if !blocked {
        Receive();
        TurnBetween(first, steps, was, Step.Receive);
        steps := steps + [Step.Receive];
        PlaceOnBus(View());
      }
    }

    // The branches that return without waiting.
    method TakeTurn(ghost first: State, ghost before: seq<Step>) returns (item: Item, ghost steps: seq<Step>)
      requires Between(first, before, View()) && phase.Looping? && (done || pending != [])
      modifies this
      ensures Returns(first, steps, View(), item) && !item.Waiting?
    {
      hide Inv, Run, Apply, After, LogOf, TakeNext;
      ghost var was := View();
      if done {
        TurnBetween(first, before, was, Finish);
        Ends(was);
        phase := Ended;
        return EndOfStream, before + [Finish];
      }
      PendingIsNext(was);
      var encodes, e := TakePending();
      TurnBetween(first, before, was, Take(encodes));
      TakeResult(was, encodes);
      return (if e.Some? then Emitted(e.value) else EndOfStream), before + [Take(encodes)];
    }

    /** next_progress_item: every emitted item is the next row of the log after the cursor the
        call began with, and the call waits only when there is nothing to learn. */
    method NextItem() returns (item: Item, ghost steps: seq<Step>)
      requires Inv(View()) && phase.Looping?
      modifies this
      ensures Returns(old(View()), steps, View(), item)
      ensures item.Waiting? ==> script == []
      ensures item.EndOfStream? && Askable(old(View())) && !old(world).closed && (forall st <- steps :: Healthy(st)) ==>
                HasTerminal(client.received)
    {
      hide Inv, Run, Apply, Enabled, After, LogOf, Between;
      steps := [];
      ghost var first := View();
      Starts(first);
      while true
        invariant Between(first, steps, View()) && phase.Looping? && next <= |world.bus|
        decreases |script|, |world.bus| - next, Rank(View().stream)
      {
        if done || pending != [] {
          item, steps := TakeTurn(first, steps);
          EndHasReason(first, steps, View(), item);
          return;
        }
        if replayMore {
          StartBetween(first, steps, View());
          steps := steps + [StartRefill];
          phase := Refilling(More);
        } else {
          var blocked;
          blocked, steps := ReceiveTurn(first, steps);
          if blocked {
            if script == [] {
              StillWaiting(first, steps, View());
              return Waiting, steps;
            }
            continue;
          }
        }
        if phase.Refilling? {
          steps := RefillTurn(first, steps);
        }
        if phase.Ended? {
          Stopped(first, steps, View());
          EndHasReason(first, steps, View(), EndOfStream);
          return EndOfStream, steps;
        }
        BetweenPlace(first, steps, View());
      }
    }
  }
}
