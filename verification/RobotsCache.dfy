/**
 The bounded robots cache (crates/erabi-crawler/src/robots.rs, RobotsCache).  Both
 operations first drop what has expired at the caller's instant; a full cache
 evicts the entry that expires first, least origin first.  Callers' instants need
 not be in order.  Origins are numbered by key order.
 */
module RobotsCache {
  import opened Wrappers
  import opened RobotsEvaluate
  import opened SetFacts

  type Origin = nat
  type Time = nat

  const MAX_ROBOTS_CACHE_ENTRIES: nat := 256

  datatype Evidence = NetworkPolicy | Cached | NotFound | AccessDenied
  datatype Entry = Entry(document: Document, evidence: Evidence, expiresAt: Time)
  type Entries = map<Origin, Entry>

  datatype Op = Get(origin: Origin, now: Time) | Insert(origin: Origin, entry: Entry, now: Time)

  function Retain(m: Entries, now: Time): Entries {
    map o | o in m && m[o].expiresAt > now :: m[o]
  }

  // The order of eviction: by expiry, then by key.
  predicate Sooner(m: Entries, o: Origin, k: Origin)
    requires o in m && k in m
  {
    m[o].expiresAt < m[k].expiresAt || (m[o].expiresAt == m[k].expiresAt && o <= k)
  }

  predicate IsVictim(m: Entries, v: Origin) {
    v in m && forall k <- m :: Sooner(m, v, k)
  }

  predicate Overflows(kept: Entries, o: Origin) { o !in kept && |kept| >= MAX_ROBOTS_CACHE_ENTRIES }

  // `after` is the cache after one operation.
  ghost predicate Follows(m: Entries, op: Op, after: Entries) {
    var kept := Retain(m, op.now);
    match op
    case Get(_, _) => after == kept
    case Insert(o, e, _) =>
      if Overflows(kept, o) then exists v: Origin :: IsVictim(kept, v) && after == (kept - {v})[o := e]
      else after == kept[o := e]
  }

  class RobotsCache {
    var entries: Entries

    constructor ()
      ensures entries == map[]
    {
      entries := map[];
    }

    method RetainUnexpired(now: Time)
      modifies this
      ensures entries == Retain(old(entries), now)
    {
      var todo := entries.Keys;
      ghost var all := entries;
      while todo != {}
        invariant todo <= entries.Keys <= all.Keys
        invariant forall o <- entries :: entries[o] == all[o]
        invariant forall o <- all :: o in entries <==> o in todo || all[o].expiresAt > now
        decreases |todo|
      {
        var o :| o in todo;
        todo := todo - {o};
        if entries[o].expiresAt <= now {
          entries := entries - {o};
        }
      }
    }

    method Get(origin: Origin, now: Time) returns (r: Option<Entry>)
      modifies this
      ensures Follows(old(entries), Op.Get(origin, now), entries)
      ensures r == if origin in entries then Some(entries[origin]) else None
    {
      RetainUnexpired(now);
      return if origin in entries then Some(entries[origin]) else None;
    }

    /** min_by_key over (expires_at, key) */
    method EarliestExpiring() returns (v: Origin)
      requires entries != map[]
      ensures IsVictim(entries, v)
    {
      var todo := entries.Keys;
      assert exists o :: o in todo by { var o :| o in entries; }
      v :| v in todo;
      while todo != {}
        invariant todo <= entries.Keys && v in entries
        invariant forall k <- entries :: k in todo || Sooner(entries, v, k)
        decreases |todo|
      {
        var k :| k in todo;
        todo := todo - {k};
        if entries[k].expiresAt < entries[v].expiresAt || (entries[k].expiresAt == entries[v].expiresAt && k < v) {
          v := k;
        }
      }
    }

    method Insert(origin: Origin, entry: Entry, now: Time)
      modifies this
      ensures Follows(old(entries), Op.Insert(origin, entry, now), entries)
    {
      RetainUnexpired(now);
      if origin !in entries && |entries| >= MAX_ROBOTS_CACHE_ENTRIES {
        var victim := EarliestExpiring();
        entries := entries - {victim};
      }
      entries := entries[origin := entry];
    }
  }

  // ---- Runs ----

  // `trace` lists the cache before, between and after `ops`, starting from the empty one.
  ghost predicate Leads(ops: seq<Op>, trace: seq<Entries>) {
    && |trace| == |ops| + 1 && trace[0] == map[]
    && forall i | 0 <= i < |ops| :: Follows(trace[i], ops[i], trace[i + 1])
  }

  /** What an unbounded map that keeps the last write until it has expired at some later
      operation would hold for `o`. */
  function Live(ops: seq<Op>, o: Origin): Option<Entry>
    decreases |ops|
  {
    if ops == [] then None
    else
      var last, w := ops[|ops| - 1], Live(ops[..|ops| - 1], o);
      if last.Insert? && last.origin == o then Some(last.entry)
      else if w.Some? && w.value.expiresAt > last.now then w
      else None
  }

  function LastWrite(ops: seq<Op>, o: Origin): Option<Entry>
    decreases |ops|
  {
    if ops == [] then None
    else
      var last := ops[|ops| - 1];
      if last.Insert? && last.origin == o then Some(last.entry) else LastWrite(ops[..|ops| - 1], o)
  }

  function Written(ops: seq<Op>): set<Origin> { set p | p in ops && p.Insert? :: p.origin }

  lemma {:induction false} LiveIsLastWrite(ops: seq<Op>, o: Origin)
    requires Live(ops, o).Some?
    ensures LastWrite(ops, o) == Live(ops, o) && o in Written(ops)
    decreases |ops|
  {
    var last := ops[|ops| - 1];
    assert last in ops;
    if !(last.Insert? && last.origin == o) {
      LiveIsLastWrite(ops[..|ops| - 1], o);
    }
  }

  lemma StepAgrees(ops: seq<Op>, before: Entries, m: Entries)
    requires ops != [] && Follows(before, ops[|ops| - 1], m)
    requires forall o <- before :: Live(ops[..|ops| - 1], o) == Some(before[o])
    requires |before| <= MAX_ROBOTS_CACHE_ENTRIES
    ensures forall o <- m :: Live(ops, o) == Some(m[o])
    ensures |m| <= MAX_ROBOTS_CACHE_ENTRIES
  {
    var op := ops[|ops| - 1];
    var kept := Retain(before, op.now);
    KeptIsSmaller(before, op.now);
    if op.Insert? {
      if Overflows(kept, op.origin) {
        var v :| IsVictim(kept, v) && m == (kept - {v})[op.origin := op.entry];
        Sizes(kept, v, op.origin, op.entry);
      } else {
        Sizes(kept, op.origin, op.origin, op.entry);
      }
    }
  }

  lemma KeptIsSmaller(m: Entries, now: Time)
    ensures |Retain(m, now)| <= |m|
  {
    var kept := Retain(m, now);
    SubsetSize(kept.Keys, m.Keys);
    assert |kept| == |kept.Keys| && |m| == |m.Keys|;
  }

  lemma Sizes(kept: Entries, v: Origin, o: Origin, e: Entry)
    ensures v in kept && v != o && o !in kept ==> |(kept - {v})[o := e]| == |kept|
    ensures |kept[o := e]| == |kept| + (if o in kept then 0 else 1)
  {
    assert kept[o := e].Keys == kept.Keys + {o};
    assert (kept - {v})[o := e].Keys == (kept.Keys - {v}) + {o};
    assert |kept| == |kept.Keys| && |kept[o := e]| == |kept[o := e].Keys|;
    assert |(kept - {v})[o := e]| == |(kept - {v})[o := e].Keys|;
  }

  lemma Shorter(ops: seq<Op>, trace: seq<Entries>)
    requires Leads(ops, trace) && ops != []
    ensures var n := |ops| - 1;
            && Leads(ops[..n], trace[..n + 1]) && trace[..n + 1][n] == trace[n]
            && Follows(trace[n], ops[n], trace[n + 1])
  {
    hide Follows;
  }

  lemma {:induction false} CacheAgrees(ops: seq<Op>, trace: seq<Entries>)
    requires Leads(ops, trace)
    ensures forall o <- trace[|ops|] :: Live(ops, o) == Some(trace[|ops|][o])
    ensures |trace[|ops|]| <= MAX_ROBOTS_CACHE_ENTRIES
    decreases |ops|
  {
    if ops != [] {
      hide Follows, Live, Leads;
      var n := |ops| - 1;
      assert |trace| == |ops| + 1 by { Shorter(ops, trace); Sized(ops, trace); }
      Shorter(ops, trace);
      CacheAgrees(ops[..n], trace[..n + 1]);
      StepAgrees(ops, trace[n], trace[n + 1]);
    }
  }

  lemma Sized(ops: seq<Op>, trace: seq<Entries>)
    requires Leads(ops, trace)
    ensures |trace| == |ops| + 1
  {}

  /** After any operations, at any instants, a hit is the last entry written for the origin,
      not expired at any later operation nor now; and the cache never exceeds its bound. */
  lemma HitsAgree(ops: seq<Op>, trace: seq<Entries>, o: Origin, now: Time, after: Entries)
    requires Leads(ops, trace) && Follows(trace[|ops|], Get(o, now), after) && o in after
    ensures LastWrite(ops, o) == Some(after[o]) == Live(ops, o) && after[o].expiresAt > now
    ensures |trace[|ops|]| <= MAX_ROBOTS_CACHE_ENTRIES
  {
    CacheAgrees(ops, trace);
    hide Leads;
    LiveIsLastWrite(ops, o);
  }

  /** Only eviction makes a live entry miss: while no more than 256 origins have been written,
      the cache hits exactly where the unbounded map does. */
  lemma {:induction false} NothingElseIsLost(ops: seq<Op>, trace: seq<Entries>)
    requires Leads(ops, trace) && |Written(ops)| <= MAX_ROBOTS_CACHE_ENTRIES
    ensures forall o :: Live(ops, o).Some? ==> o in trace[|ops|]
    decreases |ops|
  {
    if ops != [] {
      Sized(ops, trace);
      hide Follows, Live, Leads, Overflows, Written;
      var n := |ops| - 1;
      Shorter(ops, trace);
      WrittenGrows(ops);
      NothingElseIsLost(ops[..n], trace[..n + 1]);
      if ops[n].Insert? && Overflows(Retain(trace[n], ops[n].now), ops[n].origin) {
        FullOfWritten(ops[..n], trace[..n + 1], ops[n]);
        SubsetSize(Written(ops[..n]) + {ops[n].origin}, Written(ops));
        assert false;
      }
      CacheAgrees(ops[..n], trace[..n + 1]);
      KeepsTheRest(ops, trace[n], trace[n + 1]);
    }
  }

  lemma WrittenGrows(ops: seq<Op>)
    requires ops != []
    ensures var front, op := ops[..|ops| - 1], ops[|ops| - 1];
            && |Written(front)| <= |Written(ops)|
            && (op.Insert? ==> Written(front) + {op.origin} <= Written(ops))
  {
    var front, op := ops[..|ops| - 1], ops[|ops| - 1];
    assert op in ops;
    forall p | p in front ensures p in ops {}
    SubsetSize(Written(front), Written(ops));
  }

  lemma KeepsTheRest(ops: seq<Op>, before: Entries, m: Entries)
    requires ops != [] && Follows(before, ops[|ops| - 1], m)
    requires ops[|ops| - 1].Insert? ==> !Overflows(Retain(before, ops[|ops| - 1].now), ops[|ops| - 1].origin)
    requires forall o :: Live(ops[..|ops| - 1], o).Some? ==> o in before
    requires forall o <- before :: Live(ops[..|ops| - 1], o) == Some(before[o])
    ensures forall o :: Live(ops, o).Some? ==> o in m
  {}

  lemma FullOfWritten(front: seq<Op>, trace: seq<Entries>, op: Op)
    requires Leads(front, trace) && op.Insert?
    requires Overflows(Retain(trace[|front|], op.now), op.origin)
    ensures |Written(front) + {op.origin}| > MAX_ROBOTS_CACHE_ENTRIES
  {
    var kept := Retain(trace[|front|], op.now);
    CacheAgrees(front, trace);
    hide Leads, Follows, Live;
    forall o <- kept ensures o in Written(front) {
      LiveIsLastWrite(front, o);
    }
    assert |kept| == |kept.Keys| && op.origin !in kept.Keys;
    assert |kept.Keys + {op.origin}| == |kept| + 1;
    SubsetSize(kept.Keys + {op.origin}, Written(front) + {op.origin});
  }

  /** An entry that has not expired leaves only when 256 such entries leave no room for a new origin; it
      expires no later than anything that stays, and no entry that expires with it has a smaller key. */
  lemma EvictsTheEarliest(m: Entries, o: Origin, e: Entry, now: Time, after: Entries, gone: Origin)
    requires Follows(m, Insert(o, e, now), after) && gone in m && m[gone].expiresAt > now && gone !in after
    ensures o !in m || m[o].expiresAt <= now
    ensures |Retain(m, now)| >= MAX_ROBOTS_CACHE_ENTRIES
    ensures forall k <- after | k != o :: k in m && m[gone].expiresAt <= m[k].expiresAt
    ensures forall k <- after | k != o && m[k].expiresAt == m[gone].expiresAt :: gone < k
  {
    var kept := Retain(m, now);
    assert gone in kept;
    if Overflows(kept, o) {
      var v :| IsVictim(kept, v) && after == (kept - {v})[o := e];
      assert gone == v;
      forall k <- after | k != o
        ensures k in m && m[gone].expiresAt <= m[k].expiresAt && (m[k].expiresAt == m[gone].expiresAt ==> gone < k)
      {
        assert Sooner(kept, v, k);
      }
    }
  }

  /** An insertion stores its entry, evicts at most one that has not expired, and keeps the others as they were. */
  lemma InsertKeepsTheRest(m: Entries, o: Origin, e: Entry, now: Time, after: Entries)
    requires Follows(m, Insert(o, e, now), after)
    ensures o in after && after[o] == e
    ensures forall k <- after | k != o :: k in m && after[k] == m[k] && m[k].expiresAt > now
    ensures forall j <- m, k <- m | j !in after && m[j].expiresAt > now && k !in after && m[k].expiresAt > now :: j == k
  {}
}
