/** What the migration runner guarantees over every sequence of calls. */
module MigrationTheorems {
  import opened Migrations
  import opened Text
  import opened Wrappers

  /** The product state after the scripts of a plan, in order, each once. */
  function RunAll<P>(plan: Plan, first: P, run: Runner<P>): Option<P>
    decreases |plan|
  {
    if plan == [] then Some(first)
    else
      var before := RunAll(plan[..|plan| - 1], first, run);
      if before.None? then None else run(plan[|plan| - 1].sql, before.value)
  }

  /** The database after the first `k` migrations of the plan and nothing else. */
  ghost predicate AtPrefix<P>(db: Db<P>, plan: Plan, k: nat, first: P, run: Runner<P>, checksum: Checksum) {
    && k <= |plan| && !db.locked
    && db.rows == RowsOf(plan[..k], checksum)
    && RunAll(plan[..k], first, run) == Some(db.product)
  }

  // How many migrations lie at or before the requested last version.
  function Target(plan: Plan, last: Option<string>): (n: nat)
    ensures n <= |plan|
  {
    if plan == [] || (last.Some? && KeyLess(last.value, plan[0].version)) then 0 else 1 + Target(plan[1..], last)
  }

  function Max(a: nat, b: nat): nat { if a < b then b else a }

  function Versions(plan: Plan): (r: seq<string>)
    ensures |r| == |plan|
  {
    seq(|plan|, i requires 0 <= i < |plan| => plan[i].version)
  }

  // ---- Lemmas about prefixes ----

  lemma RunOneMore<P>(plan: Plan, m: nat, first: P, run: Runner<P>)
    requires m < |plan|
    ensures RunAll(plan[..m + 1], first, run) ==
            var before := RunAll(plan[..m], first, run);
            if before.None? then None else run(plan[m].sql, before.value)
  {
    assert plan[..m + 1][..m] == plan[..m];
  }

  lemma {:induction false} FailureLasts<P>(plan: Plan, m: nat, n: nat, first: P, run: Runner<P>)
    requires m <= n <= |plan| && RunAll(plan[..m], first, run).None?
    ensures RunAll(plan[..n], first, run).None?
    decreases n
  {
    if m < n {
      FailureLasts(plan, m, n - 1, first, run);
      RunOneMore(plan, n - 1, first, run);
    }
  }

  lemma {:induction false} InsertLast(rows: seq<Row>, r: Row)
    requires forall x <- rows :: KeyLess(x.version, r.version)
    ensures InsertRow(rows, r) == rows + [r]
  {
    hide KeyLess;
    if rows != [] {
      assert rows[0] in rows && forall x <- rows[1..] :: x in rows;
      InsertLast(rows[1..], r);
      assert rows == [rows[0]] + rows[1..];
    }
  }

  lemma InsertNext(plan: Plan, m: nat, checksum: Checksum)
    requires Increasing(plan) && m < |plan|
    ensures InsertRow(RowsOf(plan[..m], checksum), RowOf(plan[m], checksum)) == RowsOf(plan[..m + 1], checksum)
  {
    hide KeyLess;
    InsertLast(RowsOf(plan[..m], checksum), RowOf(plan[m], checksum));
  }

  lemma {:induction false} FindAt(rows: seq<Row>, version: string)
    ensures Find(rows, version).None? <==> forall r <- rows :: r.version != version
    ensures Find(rows, version).Some? ==> Find(rows, version).value in rows && Find(rows, version).value.version == version
  {
    if rows != [] {
      FindAt(rows[1..], version);
      assert rows == [rows[0]] + rows[1..];
    }
  }

  lemma VersionsDiffer(plan: Plan, i: nat, k: nat)
    requires Increasing(plan) && i < |plan| && k < |plan| && plan[i].version == plan[k].version
    ensures i == k
  {
    KeyTrichotomy(plan[i].version, plan[k].version);
  }

  // What the runner finds for migration `i` when the first `k` are recorded.
  lemma FindRecorded(plan: Plan, k: nat, i: nat, checksum: Checksum)
    requires Increasing(plan) && k <= |plan| && i < |plan|
    ensures Find(RowsOf(plan[..k], checksum), plan[i].version) == if i < k then Some(RowOf(plan[i], checksum)) else None
  {
    var rows := RowsOf(plan[..k], checksum);
    FindAt(rows, plan[i].version);
    if i < k {
      assert rows[i] in rows;
      var r := Find(rows, plan[i].version).value;
      var j :| 0 <= j < |rows| && rows[j] == r;
      VersionsDiffer(plan, i, j);
    } else {
      forall r <- rows ensures r.version != plan[i].version {
        var j :| 0 <= j < |rows| && rows[j] == r;
        if r.version == plan[i].version { VersionsDiffer(plan, i, j); }
      }
    }
  }

  lemma PrefixSupported(plan: Plan, k: nat, checksum: Checksum)
    requires k <= |plan|
    ensures Supported(plan, RowsOf(plan[..k], checksum))
  {
    var rows := RowsOf(plan[..k], checksum);
    forall r <- rows ensures Planned(plan, r.version) {
      var i :| 0 <= i < |rows| && rows[i] == r;
      assert plan[i] in plan;
    }
  }

  // ---- One call ----

  // The state of the loop before migration `i`, with the first `k` recorded at its start.
  ghost predicate LoopAt<P>(db: Db<P>, plan: Plan, k: nat, i: nat, first: P, run: Runner<P>, checksum: Checksum) {
    k <= |plan| && i <= |plan| && db.rows == RowsOf(plan[..Max(k, i)], checksum)
    && RunAll(plan[..Max(k, i)], first, run) == Some(db.product)
  }

  // What the rest of the loop must come to, from there.
  ghost predicate LoopEnds<P>(r: Result<(Db<P>, seq<string>), MigrationError>, locked: bool, plan: Plan, from: nat, to: nat,
                              first: P, run: Runner<P>, checksum: Checksum)
    requires from <= to <= |plan|
  {
    var end := RunAll(plan[..to], first, run);
    if end.Some? then r == Ok((Db(RowsOf(plan[..to], checksum), locked, end.value), Versions(plan[from..to]))) else r.Err?
  }

  // One turn: stop, skip what is recorded, or run the script.
  lemma LoopTurn<P>(plan: Plan, db: Db<P>, k: nat, i: nat, last: Option<string>, run: Runner<P>, checksum: Checksum)
    requires Increasing(plan) && k <= |plan| && i < |plan|
    ensures var applied := RowsOf(plan[..k], checksum);
            var r := ApplyLoop(plan[i..], applied, db, last, run, checksum);
            if last.Some? && KeyLess(last.value, plan[i].version) then r == Ok((db, [])) && Target(plan[i..], last) == 0
            else
              && Target(plan[i..], last) == 1 + Target(plan[i + 1..], last)
              && (i < k ==> r == ApplyLoop(plan[i + 1..], applied, db, last, run, checksum))
              && (i >= k ==>
                    var product := run(plan[i].sql, db.product);
                    if product.None? then r.Err?
                    else r == Prepend([plan[i].version],
                                      ApplyLoop(plan[i + 1..], applied,
                                                db.(product := product.value, rows := InsertRow(db.rows, RowOf(plan[i], checksum))),
                                                last, run, checksum)))
  {
    hide KeyLess, Find, InsertRow, Increasing;
    assert plan[i..][0] == plan[i] && plan[i..][1..] == plan[i + 1..];
    FindRecorded(plan, k, i, checksum);
  }

  lemma NothingLeft<P>(db: Db<P>, plan: Plan, k: nat, i: nat, first: P, run: Runner<P>, checksum: Checksum)
    requires LoopAt(db, plan, k, i, first, run, checksum)
    ensures LoopEnds(Ok((db, [])), db.locked, plan, Max(k, i), Max(k, i), first, run, checksum)
  {
    hide RunAll;
    assert Versions(plan[Max(k, i)..Max(k, i)]) == [];
  }

  lemma SkipTurn<P>(plan: Plan, db: Db<P>, k: nat, i: nat, first: P, run: Runner<P>, checksum: Checksum)
    requires LoopAt(db, plan, k, i, first, run, checksum) && i < k
    ensures LoopAt(db, plan, k, i + 1, first, run, checksum)
  {
    hide RunAll;
  }

  // Running the script of migration `i` leads to the next turn, or makes every longer run fail.
  lemma ScriptTurn<P>(plan: Plan, db: Db<P>, k: nat, i: nat, first: P, run: Runner<P>, checksum: Checksum)
    requires Increasing(plan) && LoopAt(db, plan, k, i, first, run, checksum) && k <= i < |plan|
    ensures var product := run(plan[i].sql, db.product);
            && RunAll(plan[..i + 1], first, run) == product
            && InsertRow(db.rows, RowOf(plan[i], checksum)) == RowsOf(plan[..i + 1], checksum)
            && (product.Some? ==> LoopAt(db.(product := product.value, rows := RowsOf(plan[..i + 1], checksum)), plan, k, i + 1, first, run, checksum))
  {
    hide KeyLess, RunAll, InsertRow, Increasing;
    RunOneMore(plan, i, first, run);
    InsertNext(plan, i, checksum);
  }

  lemma AtTheEnd<P>(plan: Plan, applied: seq<Row>, db: Db<P>, last: Option<string>, run: Runner<P>, checksum: Checksum)
    ensures Target(plan[|plan|..], last) == 0 && ApplyLoop(plan[|plan|..], applied, db, last, run, checksum) == Ok((db, []))
  {
    assert plan[|plan|..] == [];
  }

  lemma {:induction false} LoopExact<P>(plan: Plan, db: Db<P>, k: nat, i: nat, n: nat, last: Option<string>,
                                        first: P, run: Runner<P>, checksum: Checksum)
    requires Increasing(plan) && k <= |plan| && i <= |plan| && LoopAt(db, plan, k, i, first, run, checksum)
    requires n == i + Target(plan[i..], last)
    ensures LoopEnds(ApplyLoop(plan[i..], RowsOf(plan[..k], checksum), db, last, run, checksum), db.locked, plan,
                     Max(k, i), Max(k, n), first, run, checksum)
    decreases |plan| - i
  {
    hide KeyLess, Find, InsertRow, RunAll, Increasing, ApplyLoop, Target, LoopEnds, Prepend, RowsOf, LoopAt, RowOf;
    NothingLeft(db, plan, k, i, first, run, checksum);
    if i == |plan| {
      AtTheEnd(plan, RowsOf(plan[..k], checksum), db, last, run, checksum);
    } else {
      LoopTurn(plan, db, k, i, last, run, checksum);
      if last.Some? && KeyLess(last.value, plan[i].version) {
      } else if i < k {
        SkipTurn(plan, db, k, i, first, run, checksum);
        LoopExact(plan, db, k, i + 1, n, last, first, run, checksum);
      } else {
        var product := run(plan[i].sql, db.product);
        ScriptTurn(plan, db, k, i, first, run, checksum);
        if product.None? {
          FailureLasts(plan, i + 1, n, first, run);
          Fails(plan, i, n, ApplyLoop(plan[i..], RowsOf(plan[..k], checksum), db, last, run, checksum), db.locked, first, run, checksum);
        } else {
          var next := db.(product := product.value, rows := RowsOf(plan[..i + 1], checksum));
          LoopExact(plan, next, k, i + 1, n, last, first, run, checksum);
          OneMoreVersion(plan, i, n, ApplyLoop(plan[i + 1..], RowsOf(plan[..k], checksum), next, last, run, checksum),
                         db.locked, first, run, checksum);
        }
      }
    }
  }

  lemma Fails<P>(plan: Plan, from: nat, to: nat, r: Result<(Db<P>, seq<string>), MigrationError>, locked: bool,
                 first: P, run: Runner<P>, checksum: Checksum)
    requires from <= to <= |plan| && r.Err? && RunAll(plan[..to], first, run).None?
    ensures LoopEnds(r, locked, plan, from, to, first, run, checksum)
  {
    hide RunAll;
  }

  lemma OneMoreVersion<P>(plan: Plan, i: nat, n: nat, r: Result<(Db<P>, seq<string>), MigrationError>, locked: bool,
                          first: P, run: Runner<P>, checksum: Checksum)
    requires i < n <= |plan| && LoopEnds(r, locked, plan, i + 1, n, first, run, checksum)
    ensures LoopEnds(Prepend([plan[i].version], r), locked, plan, i, n, first, run, checksum)
  {
    hide RunAll;
    assert Versions(plan[i..n]) == [plan[i].version] + Versions(plan[i + 1..n]);
  }

  /** From a prefix, a call applies exactly the missing migrations up to its last version and
      reports them; if one of their scripts fails it changes nothing. */
  lemma ApplyExact<P>(plan: Plan, db: Db<P>, k: nat, last: Option<string>, first: P, run: Runner<P>, checksum: Checksum)
    requires ValidatePlan(plan).None? && AtPrefix(db, plan, k, first, run, checksum)
    ensures var n := Max(k, Target(plan, last));
            var (r, d) := ApplyUntil(plan, db, last, run, checksum, true);
            if RunAll(plan[..n], first, run).Some? then
              r == Ok(Versions(plan[k..n])) && AtPrefix(d, plan, n, first, run, checksum)
            else r.Err? && d == db
  {
    ValidPlans(plan);
    PrefixSupported(plan, k, checksum);
    assert plan[0..] == plan;
    hide ValidatePlan, Supported, Increasing, ApplyLoop, Target, RunAll;
    LoopExact(plan, db.(locked := true), k, 0, Target(plan, last), last, first, run, checksum);
  }

  // ---- Sequences of calls ----

  // Each call has its own outcome for every script: a script may fail in one call and succeed in the next.
  datatype Call<!P> = Apply(run: Runner<P>, commits: bool) | Through(version: string, run: Runner<P>, commits: bool)

  function Make<P>(plan: Plan, db: Db<P>, c: Call<P>, checksum: Checksum): (Result<seq<string>, MigrationError>, Db<P>) {
    match c
    case Apply(run, commits) => ApplyUntil(plan, db, None, run, checksum, commits)
    case Through(v, run, commits) => ApplyThrough(plan, db, v, run, checksum, commits)
  }

  function MakeAll<P>(plan: Plan, db: Db<P>, calls: seq<Call<P>>, checksum: Checksum): Db<P>
    decreases |calls|
  {
    if calls == [] then db else MakeAll(plan, Make(plan, db, calls[0], checksum).1, calls[1..], checksum)
  }

  /** `weak` fails where it likes, and does what `run` does where it succeeds. */
  ghost predicate MayFail<P(!new)>(weak: Runner<P>, run: Runner<P>) {
    forall sql: string, p: P :: weak(sql, p).Some? ==> weak(sql, p) == run(sql, p)
  }

  lemma {:induction false} FailingIsAllThatDiffers<P(!new)>(plan: Plan, applied: seq<Row>, db: Db<P>, last: Option<string>,
                                                      weak: Runner<P>, run: Runner<P>, checksum: Checksum)
    requires MayFail(weak, run) && ApplyLoop(plan, applied, db, last, weak, checksum).Ok?
    ensures ApplyLoop(plan, applied, db, last, weak, checksum) == ApplyLoop(plan, applied, db, last, run, checksum)
    decreases |plan|
  {
    hide KeyLess, Find, InsertRow;
    if plan != [] && !(last.Some? && KeyLess(last.value, plan[0].version)) {
      if Find(applied, plan[0].version).Some? {
        FailingIsAllThatDiffers(plan[1..], applied, db, last, weak, run, checksum);
      } else {
        var next := db.(product := weak(plan[0].sql, db.product).value, rows := InsertRow(db.rows, RowOf(plan[0], checksum)));
        FailingIsAllThatDiffers(plan[1..], applied, next, last, weak, run, checksum);
      }
    }
  }

  // A call that fails changes nothing, and one that succeeds does what it does when no script fails by chance.
  lemma CallSucceedsOrNothing<P(!new)>(plan: Plan, db: Db<P>, last: Option<string>, weak: Runner<P>, run: Runner<P>, checksum: Checksum, commits: bool)
    requires MayFail(weak, run)
    ensures var (r, d) := ApplyUntil(plan, db, last, weak, checksum, commits);
            if r.Err? then d == db else commits && (r, d) == ApplyUntil(plan, db, last, run, checksum, true)
  {
    if ApplyInTransaction(plan, db, last, weak, checksum).Ok? {
      FailingIsAllThatDiffers(plan, db.rows, db.(locked := true), last, weak, run, checksum);
    }
    hide ValidatePlan, ApplyLoop, Supported;
  }

  lemma CallKeepsPrefix<P(!new)>(plan: Plan, db: Db<P>, k: nat, c: Call<P>, first: P, run: Runner<P>, checksum: Checksum) returns (n: nat)
    requires AtPrefix(db, plan, k, first, run, checksum) && MayFail(c.run, run)
    ensures k <= n && AtPrefix(Make(plan, db, c, checksum).1, plan, n, first, run, checksum)
  {
    hide MayFail;
    var last := if c.Apply? then None else Some(c.version);
    n := k;
    CallSucceedsOrNothing(plan, db, last, c.run, run, checksum, c.commits);
    if ApplyUntil(plan, db, last, c.run, checksum, c.commits).0.Ok? && (c.Apply? || Planned(plan, c.version)) {
      assert ValidatePlan(plan).None?;
      ApplyExact(plan, db, k, last, first, run, checksum);
      hide AtPrefix, ApplyUntil, ValidatePlan, Target, RunAll;
      n := Max(k, Target(plan, last));
    } else {
      hide AtPrefix, ApplyUntil;
    }
  }

  /** Whatever calls are made and wherever scripts or commits fail, also a script that succeeds
      when it is tried again, the recorded versions are a prefix of the plan, the product is what
      exactly those scripts make in order, and no lock row is left. */
  lemma {:induction false} CallsKeepPrefix<P(!new)>(plan: Plan, db: Db<P>, k: nat, calls: seq<Call<P>>, first: P, run: Runner<P>, checksum: Checksum)
    returns (n: nat)
    requires AtPrefix(db, plan, k, first, run, checksum) && forall c <- calls :: MayFail(c.run, run)
    ensures k <= n && AtPrefix(MakeAll(plan, db, calls, checksum), plan, n, first, run, checksum)
    decreases |calls|
  {
    hide AtPrefix, Make, MayFail;
    n := k;
    if calls != [] {
      n := CallKeepsPrefix(plan, db, k, calls[0], first, run, checksum);
      n := CallsKeepPrefix(plan, Make(plan, db, calls[0], checksum).1, n, calls[1..], first, run, checksum);
    }
  }

  // ---- Composition ----

  lemma {:induction false} NoLimit(plan: Plan)
    ensures Target(plan, None) == |plan|
  {
    if plan != [] {
      NoLimit(plan[1..]);
    }
  }

  /** Stopping at a version and then applying the rest is the same as applying everything, and
      fails when that fails. */
  lemma ThroughThenApply<P>(plan: Plan, db: Db<P>, k: nat, v: string, first: P, run: Runner<P>, checksum: Checksum)
    requires ValidatePlan(plan).None? && AtPrefix(db, plan, k, first, run, checksum) && Planned(plan, v)
    ensures var (whole, d) := ApplyUntil(plan, db, None, run, checksum, true);
            var (part, e) := ApplyThrough(plan, db, v, run, checksum, true);
            var (rest, f) := ApplyUntil(plan, e, None, run, checksum, true);
            && (whole.Ok? ==> part.Ok? && rest.Ok? && f == d && whole.value == part.value + rest.value)
            && (whole.Err? ==> rest.Err? && f == e)
  {
    NoLimit(plan);
    ApplyExact(plan, db, k, None, first, run, checksum);
    ApplyExact(plan, db, k, Some(v), first, run, checksum);
    hide ValidatePlan, Target, RunAll, ApplyUntil, Versions;
    var n := Max(k, Target(plan, Some(v)));
    var e := ApplyThrough(plan, db, v, run, checksum, true).1;
    if RunAll(plan[..n], first, run).Some? {
      ApplyExact(plan, e, n, None, first, run, checksum);
      VersionsJoin(plan, k, n);
    } else {
      FailureLasts(plan, n, |plan|, first, run);
    }
  }

  lemma VersionsJoin(plan: Plan, k: nat, n: nat)
    requires k <= n <= |plan|
    ensures Versions(plan[k..|plan|]) == Versions(plan[k..n]) + Versions(plan[n..|plan|])
  {}

  /** A repeated apply does nothing and reports nothing. */
  lemma ApplyTwice<P>(plan: Plan, db: Db<P>, k: nat, first: P, run: Runner<P>, checksum: Checksum)
    requires ValidatePlan(plan).None? && AtPrefix(db, plan, k, first, run, checksum)
    requires ApplyUntil(plan, db, None, run, checksum, true).0.Ok?
    ensures var d := ApplyUntil(plan, db, None, run, checksum, true).1;
            ApplyUntil(plan, d, None, run, checksum, true) == (Ok([]), d)
  {
    NoLimit(plan);
    ApplyExact(plan, db, k, None, first, run, checksum);
    var d := ApplyUntil(plan, db, None, run, checksum, true).1;
    hide ValidatePlan, Target, ApplyUntil;
    ApplyExact(plan, d, |plan|, None, first, run, checksum);
    assert Versions(plan[|plan|..|plan|]) == [];
  }

  // ---- Verification ----

  lemma {:induction false} CompareMeans(plan: Plan, rows: seq<Row>, checksum: Checksum)
    ensures Compare(plan, rows, checksum).None? <==>
            forall i | 0 <= i < |plan| && i < |rows| :: rows[i] == RowOf(plan[i], checksum)
  {
    if plan != [] && rows != [] {
      CompareMeans(plan[1..], rows[1..], checksum);
      if Compare(plan, rows, checksum).None? {
        forall i | 0 <= i < |plan| && i < |rows| ensures rows[i] == RowOf(plan[i], checksum) {
          if i > 0 { assert rows[i] == rows[1..][i - 1] && plan[i] == plan[1..][i - 1]; }
        }
      } else if rows[0] == RowOf(plan[0], checksum) {
        var i :| 0 <= i < |plan[1..]| && i < |rows[1..]| && rows[1..][i] != RowOf(plan[1..][i], checksum);
        assert rows[i + 1] != RowOf(plan[i + 1], checksum);
      }
    }
  }

  /** On any database, verification succeeds exactly when the recorded rows are those of the
      whole plan: same versions, names and checksums, in order. */
  lemma VerifyExactly<P>(plan: Plan, db: Db<P>, checksum: Checksum)
    ensures Verify(plan, db, checksum).None? <==> ValidatePlan(plan).None? && db.rows == RowsOf(plan, checksum)
  {
    CompareMeans(plan, db.rows, checksum);
    PrefixSupported(plan, |plan|, checksum);
    assert plan[..|plan|] == plan;
    hide ValidatePlan, Supported, Compare;
  }

  /** At a prefix, verification succeeds exactly when every migration of the plan has been applied. */
  lemma VerifyAtPrefix<P>(plan: Plan, db: Db<P>, k: nat, first: P, run: Runner<P>, checksum: Checksum)
    requires ValidatePlan(plan).None? && AtPrefix(db, plan, k, first, run, checksum)
    ensures Verify(plan, db, checksum).None? <==> k == |plan|
  {
    VerifyExactly(plan, db, checksum);
    hide Verify, ValidatePlan, RunAll;
    assert |db.rows| == k;
    if k == |plan| { assert plan[..k] == plan; }
  }

  /** From an empty database, after any calls with any failures, the database is at some prefix of
      the plan, and verification succeeds exactly when that prefix is the whole plan. */
  lemma CallsFromEmpty<P(!new)>(plan: Plan, calls: seq<Call<P>>, first: P, run: Runner<P>, checksum: Checksum) returns (n: nat)
    requires ValidatePlan(plan).None? && forall c <- calls :: MayFail(c.run, run)
    ensures var d := MakeAll(plan, Db([], false, first), calls, checksum);
            && AtPrefix(d, plan, n, first, run, checksum)
            && (Verify(plan, d, checksum).None? <==> n == |plan|)
  {
    var empty := Db([], false, first);
    assert AtPrefix(empty, plan, 0, first, run, checksum) by { assert plan[..0] == []; }
    hide AtPrefix, MayFail, ValidatePlan, Verify, MakeAll;
    n := CallsKeepPrefix(plan, empty, 0, calls, first, run, checksum);
    VerifyAtPrefix(plan, MakeAll(plan, empty, calls, checksum), n, first, run, checksum);
  }

  // ---- Changed scripts ----

  /** A plan that changes a script already recorded is refused, and changes nothing. */
  lemma ChangedScriptIsRefused<P>(plan: Plan, changed: Plan, db: Db<P>, k: nat, i: nat, first: P, run: Runner<P>, checksum: Checksum)
    requires AtPrefix(db, plan, k, first, run, checksum) && ValidatePlan(changed).None? && Increasing(plan)
    requires |changed| == |plan| && forall j | 0 <= j < |plan| :: changed[j].version == plan[j].version
    requires i < k && checksum(changed[i].sql) != checksum(plan[i].sql)
    ensures ApplyUntil(changed, db, None, run, checksum, true).0.Err?
    ensures ApplyUntil(changed, db, None, run, checksum, true).1 == db
  {
    assert changed[0..] == changed;
    if Supported(changed, db.rows) {
      LoopRefuses(plan, changed, db.(locked := true), k, 0, i, run, checksum);
    }
    hide ApplyLoop, ValidatePlan, Supported;
  }

  lemma {:induction false} LoopRefuses<P>(plan: Plan, changed: Plan, db: Db<P>, k: nat, j: nat, i: nat, run: Runner<P>, checksum: Checksum)
    requires Increasing(plan) && k <= |plan| && j <= i < k && |changed| == |plan|
    requires forall j | 0 <= j < |plan| :: changed[j].version == plan[j].version
    requires checksum(changed[i].sql) != checksum(plan[i].sql)
    ensures ApplyLoop(changed[j..], RowsOf(plan[..k], checksum), db, None, run, checksum).Err?
    decreases i - j
  {
    hide Find, Increasing, InsertRow;
    assert changed[j..][0] == changed[j] && changed[j..][1..] == changed[j + 1..];
    FindRecorded(plan, k, j, checksum);
    if j < i && checksum(changed[j].sql) == checksum(plan[j].sql) {
      LoopRefuses(plan, changed, db, k, j + 1, i, run, checksum);
    }
  }
}
