/**
 One client's replay-plus-live progress stream (crates/erabi-api/src/progress.rs)
 as a transition system.  The environment appends to the durable logs, publishes
 committed events in any order and number, and closes the hub; the receiver is
 bounded and drops its oldest events.  The stream takes one step per await point.
 A client may drop its connection at any time and reconnect with the sequence of
 the last event it received.
 */
module ProgressStream {
  import opened Wrappers
  import opened ProgressLog

  // The durable logs and the broadcast channel.
  datatype World = World(logs: map<JobId, seq<Event>>, bus: seq<Event>, closed: bool)

  datatype Why = More | Lagged | Jump(candidate: Event)
  datatype Phase = Idle | Subscribed | Looping | Refilling(why: Why) | Ended

  // `next` is the receiver's place in `bus`.
  datatype Stream = Stream(phase: Phase, next: nat, cursor: nat, pending: seq<Event>, replayMore: bool, done: bool)

  // `start` is the first Last-Event-ID (0 for none), `capacity` the live buffer, and
  // `seen` the length that the log had when its latest page was read.
  datatype Client = Client(job: JobId, start: nat, capacity: nat, received: seq<Event>, seen: nat)

  datatype State = State(world: World, stream: Stream, client: Client)

  datatype Step =
    | Append(job: JobId, terminal: bool, body: nat)
    | Publish(job: JobId, index: nat)
    | CloseHub
    | Connect
    | InitialReplay(ok: bool)
    | Take(encodes: bool)
    | StartRefill
    | Refill(ok: bool)
    | Receive
    | Finish

  const NoStream := Stream(Idle, 0, 0, [], false, false)

  function Init(logs: map<JobId, seq<Event>>, job: JobId, start: nat, capacity: nat): State {
    State(World(logs, [], false), NoStream, Client(job, start, capacity, [], 0))
  }

  function LogOf(w: World, job: JobId): seq<Event> {
    if job in w.logs then w.logs[job] else []
  }

  // ---- The environment ----

  function AppendNext(w: World, job: JobId, terminal: bool, body: nat): World
    requires job in w.logs
  {
    match AppendRow(w.logs[job], job, terminal, body)
    case Ok(e) => w.(logs := w.logs[job := w.logs[job] + [e]])
    case Err(_) => w
  }

  function PublishNext(w: World, e: Event): World {
    if w.closed then w else w.(bus := w.bus + [e])
  }

  // ---- The stream ----

  /** replay_request and the repository's checks: the job exists and the cursor is in range. */
  function Fetch(w: World, job: JobId, cursor: nat): Option<Page> {
    if job in w.logs && cursor <= I64_MAX then Some(PageOf(w.logs[job], cursor, REPLAY_PAGE_SIZE)) else None
  }

  function ConnectNext(w: World, c: Client): Stream {
    Stream(Subscribed, |w.bus|, Resume(c.start, c.received), [], false, false)
  }

  // The history after an attempt to read a page.
  function ReadNext(w: World, t: Stream, c: Client, ok: bool): Client {
    if ok && Fetch(w, c.job, t.cursor).Some? then c.(seen := |LogOf(w, c.job)|) else c
  }

  function InitialReplayNext(w: World, t: Stream, c: Client, ok: bool): Stream {
    var page := Fetch(w, c.job, t.cursor);
    if !ok || page.None? then t.(phase := Ended)
    else t.(phase := Looping, pending := page.value.events, replayMore := page.value.nextAfter.Some?)
  }

  function Newer(events: seq<Event>, cursor: nat): seq<Event> {
    if events == [] then []
    else (if events[0].seqno > cursor then [events[0]] else []) + Newer(events[1..], cursor)
  }

  /** refill_from_durable, and what follows it in the loop. */
  function RefillNext(w: World, t: Stream, c: Client, ok: bool): Stream
    requires t.phase.Refilling?
  {
    var page := Fetch(w, c.job, t.cursor);
    if !ok || page.None? then t.(phase := Ended)
    else
      var pending := t.pending + Newer(page.value.events, t.cursor);
      var candidate := t.phase.why;
      t.(phase := Looping, replayMore := page.value.nextAfter.Some?,
         pending := if candidate.Jump? && pending == [] && candidate.candidate.seqno > t.cursor
                    then [candidate.candidate] else pending)
  }

  /** pop_front and what is done with the event: the stream after it, and the event if it is emitted. */
  function TakeNext(t: Stream, encodes: bool): (Stream, Option<Event>)
    requires t.pending != []
  {
    var e := t.pending[0];
    var rest := t.(pending := t.pending[1..]);
    if e.seqno <= t.cursor then (rest, None)
    else if !encodes then (rest.(cursor := e.seqno, phase := Ended), None)
    else (rest.(cursor := e.seqno, done := e.terminal), Some(e))
  }

  predicate CanReceive(w: World, t: Stream) {
    t.phase.Looping? && !t.done && t.pending == [] && !t.replayMore
  }

  // The receiver has nothing to give and the hub is open.
  predicate Blocked(w: World, t: Stream) {
    CanReceive(w, t) && t.next == |w.bus| && !w.closed
  }

  function ReceiveNext(w: World, t: Stream, c: Client): Stream
    requires t.next <= |w.bus|
  {
    if t.next == |w.bus| then t.(phase := Ended)
    else if |w.bus| - t.next > c.capacity then t.(next := |w.bus| - c.capacity, phase := Refilling(Lagged))
    else
      var e := w.bus[t.next];
      var u := t.(next := t.next + 1);
      if e.job != c.job || e.seqno <= t.cursor then u
      else if t.cursor < U64_MAX && e.seqno == t.cursor + 1 then u.(pending := t.pending + [e])
      else u.(phase := Refilling(Jump(e)))
  }

  predicate Enabled(s: State, st: Step) {
    var w, t := s.world, s.stream;
    match st
    case Append(job, _, _) => job in w.logs
    case Publish(job, i) => job in w.logs && i < |w.logs[job]|
    case CloseHub => true
    case Connect => true
    case InitialReplay(_) => t.phase.Subscribed?
    case Take(_) => t.phase.Looping? && !t.done && t.pending != []
    case StartRefill => t.phase.Looping? && !t.done && t.pending == [] && t.replayMore
    case Refill(_) => t.phase.Refilling?
    case Receive => CanReceive(w, t) && t.next <= |w.bus| && !Blocked(w, t)
    case Finish => t.phase.Looping? && t.done
  }

  function Apply(s: State, st: Step): State
    requires Enabled(s, st)
  {
    var w, t, c := s.world, s.stream, s.client;
    match st
    case Append(job, terminal, body) => s.(world := AppendNext(w, job, terminal, body))
    case Publish(job, i) => s.(world := PublishNext(w, w.logs[job][i]))
    case CloseHub => s.(world := w.(closed := true))
    case Connect => s.(stream := ConnectNext(w, c))
    case InitialReplay(ok) => s.(stream := InitialReplayNext(w, t, c, ok), client := ReadNext(w, t, c, ok))
    case Take(encodes) =>
      var (u, e) := TakeNext(t, encodes);
      s.(stream := u, client := if e.Some? then c.(received := c.received + [e.value]) else c)
    case StartRefill => s.(stream := t.(phase := Refilling(More)))
    case Refill(ok) => s.(stream := RefillNext(w, t, c, ok), client := ReadNext(w, t, c, ok))
    case Receive => s.(stream := ReceiveNext(w, t, c))
    case Finish => s.(stream := t.(phase := Ended))
  }

  function Run(s: State, steps: seq<Step>): Option<State>
    decreases |steps|
  {
    if steps == [] then Some(s)
    else if Enabled(s, steps[0]) then Run(Apply(s, steps[0]), steps[1..])
    else None
  }
}
