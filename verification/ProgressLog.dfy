/**
 The durable progress log of one job (crates/erabi-db/src/repositories/progress.rs):
 rows in sequence order, appended with the next sequence number until a terminal
 event closes the stream, and read back in bounded pages after a cursor.
 */
module ProgressLog {
  import opened Wrappers

  type JobId = nat
  const REPLAY_PAGE_SIZE: nat := 256

  // `body` stands for the event's id, key, metadata and time.
  datatype Event = Event(job: JobId, seqno: nat, terminal: bool, body: nat)

  datatype AppendError = TerminalStreamClosed | ProgressInvariant

  // `nextAfter` is set when more rows follow the page.
  datatype Page = Page(events: seq<Event>, nextAfter: Option<nat>)

  ghost predicate Ascending(log: seq<Event>) {
    forall i, k | 0 <= i < k < |log| :: log[i].seqno < log[k].seqno
  }

  /** Sequences rise within their range, every row belongs to the job, and only the last may be terminal. */
  ghost predicate LogOk(log: seq<Event>, job: JobId) {
    && Ascending(log)
    && (forall i | 0 <= i < |log| :: 1 <= log[i].seqno <= I64_MAX && log[i].job == job)
    && (forall i | 0 <= i < |log| - 1 :: !log[i].terminal)
  }

  /** COALESCE(MAX(sequence), 0) */
  function MaxSeqno(log: seq<Event>): nat {
    if log == [] then 0
    else
      var m := MaxSeqno(log[1..]);
      if log[0].seqno > m then log[0].seqno else m
  }

  /** append_in_transaction, after the job and attempt checks */
  function AppendRow(log: seq<Event>, job: JobId, terminal: bool, body: nat): Result<Event, AppendError> {
    if log != [] && log[|log| - 1].terminal then Err(TerminalStreamClosed)
    else if MaxSeqno(log) >= I64_MAX then Err(ProgressInvariant)
    else Ok(Event(job, MaxSeqno(log) + 1, terminal, body))
  }

  /** The rows with a sequence strictly after `cursor`. */
  function After(log: seq<Event>, cursor: nat): seq<Event> {
    if log == [] then []
    else if log[0].seqno > cursor then [log[0]] + After(log[1..], cursor)
    else After(log[1..], cursor)
  }

  function PageOf(log: seq<Event>, cursor: nat, limit: nat): Page
    requires 0 < limit
  {
    var rows := After(log, cursor);
    if |rows| > limit then Page(rows[..limit], Some(rows[limit - 1].seqno)) else Page(rows, None)
  }

  // ---- Lemmas ----

  lemma {:induction false} MaxIsLast(log: seq<Event>)
    requires Ascending(log) && log != []
    ensures MaxSeqno(log) == log[|log| - 1].seqno
  {
    if |log| > 1 {
      assert Ascending(log[1..]);
      MaxIsLast(log[1..]);
    }
  }

  /** Appending keeps the log well formed; the new row is larger than every older one. */
  lemma AppendKeepsLog(log: seq<Event>, job: JobId, terminal: bool, body: nat)
    requires LogOk(log, job) && AppendRow(log, job, terminal, body).Ok?
    ensures LogOk(log + [AppendRow(log, job, terminal, body).value], job)
    ensures forall e <- log :: e.seqno < AppendRow(log, job, terminal, body).value.seqno
  {
    if log != [] {
      MaxIsLast(log);
    }
  }

  /** What appending gives, for any log that is in order: nothing after a terminal row, nothing past
      the largest sequence, and else the row asked for, one after the last. */
  lemma AppendExactly(log: seq<Event>, job: JobId, terminal: bool, body: nat)
    requires LogOk(log, job)
    ensures var r := AppendRow(log, job, terminal, body);
            var last := if log == [] then 0 else log[|log| - 1].seqno;
            && (r == Err(TerminalStreamClosed) <==> exists e <- log :: e.terminal)
            && (r == Err(ProgressInvariant) <==> (forall e <- log :: !e.terminal) && last == I64_MAX)
            && (r.Ok? ==> r.value == Event(job, last + 1, terminal, body))
  {
    if log != [] {
      MaxIsLast(log);
      assert log[|log| - 1] in log;
    }
  }

  /** In an ordered log the rows after a cursor are a suffix. */
  lemma {:induction false} AfterIsSuffix(log: seq<Event>, cursor: nat) returns (k: nat)
    requires Ascending(log)
    ensures k <= |log| && After(log, cursor) == log[k..]
    ensures forall i | 0 <= i < |log| :: log[i].seqno > cursor <==> k <= i
  {
    if log == [] {
      k := 0;
    } else {
      assert Ascending(log[1..]);
      var j := AfterIsSuffix(log[1..], cursor);
      if log[0].seqno > cursor {
        if |log| > 1 { assert log[1..][0].seqno > log[0].seqno; }
        k := 0;
      } else {
        k := j + 1;
        forall i | 0 <= i < |log| ensures log[i].seqno > cursor <==> k <= i {
          if i > 0 { assert log[i] == log[1..][i - 1]; }
        }
      }
    }
  }

  lemma {:induction false} AfterAppend(log: seq<Event>, e: Event, cursor: nat)
    ensures After(log + [e], cursor) == After(log, cursor) + (if e.seqno > cursor then [e] else [])
  {
    if log == [] {
    } else {
      assert (log + [e])[1..] == log[1..] + [e];
      AfterAppend(log[1..], e, cursor);
    }
  }

  lemma {:induction false} InAfter(log: seq<Event>, cursor: nat, e: Event)
    ensures e in After(log, cursor) <==> e in log && e.seqno > cursor
  {
    if log != [] {
      InAfter(log[1..], cursor, e);
    }
  }

  function Resume(start: nat, received: seq<Event>): nat {
    if received == [] then start else received[|received| - 1].seqno
  }

  /** What a client has received and what follows its last event make up the whole log after its start. */
  lemma Splits(log: seq<Event>, start: nat, received: seq<Event>)
    requires Ascending(log) && received <= After(log, start)
    ensures After(log, start) == received + After(log, Resume(start, received))
  {
    var k := AfterIsSuffix(log, start);
    var j := AfterIsSuffix(log, Resume(start, received));
    if received != [] {
      var n := |received|;
      assert received[n - 1] == log[k..][n - 1] == log[k + n - 1];
      assert log[k + n - 1].seqno == Resume(start, received);
      assert log[k + n - 1].seqno > Resume(start, received) <==> j <= k + n - 1;
      if k + n < |log| { assert log[k + n].seqno > log[k + n - 1].seqno; }
      assert j == k + n;
    } else {
      assert k == j;
    }
  }

  // ---- Reading all pages ----

  /** A page never exceeds its limit; its mark says where the rest begins, and that there is a rest. */
  lemma PageThenRest(log: seq<Event>, cursor: nat, limit: nat)
    requires Ascending(log) && 0 < limit
    ensures var page := PageOf(log, cursor, limit);
            && |page.events| <= limit
            && (page.nextAfter.None? ==> page.events == After(log, cursor))
            && (page.nextAfter.Some? ==>
                  (&& |page.events| == limit && After(log, page.nextAfter.value) != []
                   && After(log, cursor) == page.events + After(log, page.nextAfter.value)))
  {
    var rows := After(log, cursor);
    if |rows| > limit {
      Splits(log, cursor, rows[..limit]);
      assert |rows[..limit] + After(log, rows[limit - 1].seqno)| == |rows|;
    }
  }

  // What a reader collects that follows the marks from page to page.
  ghost function FollowPages(log: seq<Event>, cursor: nat, limit: nat): seq<Event>
    requires Ascending(log) && 0 < limit
    decreases |After(log, cursor)|
  {
    PageThenRest(log, cursor, limit);
    var page := PageOf(log, cursor, limit);
    page.events + if page.nextAfter.Some? then FollowPages(log, page.nextAfter.value, limit) else []
  }

  /** Whatever the page size, following the marks gives every row after the cursor once, in order. */
  lemma {:induction false} PagesGiveAll(log: seq<Event>, cursor: nat, limit: nat)
    requires Ascending(log) && 0 < limit
    ensures FollowPages(log, cursor, limit) == After(log, cursor)
    decreases |After(log, cursor)|
  {
    hide PageOf, After;
    PageThenRest(log, cursor, limit);
    var page := PageOf(log, cursor, limit);
    if page.nextAfter.Some? {
      PagesGiveAll(log, page.nextAfter.value, limit);
    } else {
      assert page.events + [] == page.events;
    }
  }

  /** replay: the query reads one row more than the page holds to learn whether more follow. */
  method Replay(log: seq<Event>, cursor: nat, limit: nat) returns (page: Page)
    requires 0 < limit
    ensures page == PageOf(log, cursor, limit)
  {
    var rows := Query(log, cursor, limit + 1);
    var events, hasMore, i := [], false, 0;
    while i < |rows|
      invariant i <= |rows| && !hasMore
      invariant events == rows[..i] && |events| <= limit
    {
      if |events| == limit {
        hasMore := true;
        break;
      }
      events := events + [rows[i]];
      i := i + 1;
    }
    return Page(events, if hasMore then Some(events[|events| - 1].seqno) else None);
  }

  // WHERE sequence > cursor ORDER BY sequence LIMIT n, over rows kept in sequence order
  method Query(log: seq<Event>, cursor: nat, n: nat) returns (rows: seq<Event>)
    ensures rows == After(log, cursor)[..if |After(log, cursor)| < n then |After(log, cursor)| else n]
  {
    rows := [];
    var i := 0;
    assert log[0..] == log;
    while i < |log| && |rows| < n
      invariant i <= |log| && |rows| <= n
      invariant After(log, cursor) == rows + After(log[i..], cursor)
    {
      assert log[i..][1..] == log[i + 1..];
      if log[i].seqno > cursor {
        rows := rows + [log[i]];
      }
      i := i + 1;
    }
  }
}
