/**
 The migration runner (crates/erabi-db/src/migrate.rs) over a transactional database:
 the table of recorded versions in version order, the lock row, and the product
 state that scripts change.  A script is a partial function on the product state and
 leaves the two bookkeeping tables alone.  `checksum` stands for canonical_sha256.
 */
module Migrations {
  import opened Text
  import opened Wrappers

  datatype Migration = Migration(version: string, name: string, sql: string)
  datatype Row = Row(version: string, name: string, checksum: string)

  datatype MigrationError =
    | EmptyPlan | EmptyVersion | NotIncreasing(version: string) | UnknownBaseline
    | LockTaken | UnsupportedSchema | ChecksumMismatch(version: string) | ScriptFailed(version: string) | CommitFailed

  type Plan = seq<Migration>
  type Checksum = string -> string
  type Runner<!P> = (string, P) -> Option<P>

  // ---- Plans ----

  // The errors of validate_plan from place `i` on.
  function PlanError(plan: Plan, i: nat): Option<MigrationError>
    requires i <= |plan|
    decreases |plan| - i
  {
    if i == |plan| then None
    else if plan[i].version == "" then Some(EmptyVersion)
    else if i > 0 && !KeyLess(plan[i - 1].version, plan[i].version) then Some(NotIncreasing(plan[i].version))
    else PlanError(plan, i + 1)
  }

  function ValidatePlan(plan: Plan): Option<MigrationError> {
    if plan == [] then Some(EmptyPlan) else PlanError(plan, 0)
  }

  ghost predicate Increasing(plan: Plan) {
    && (forall i | 0 <= i < |plan| :: plan[i].version != "")
    && (forall i, k | 0 <= i < k < |plan| :: KeyLess(plan[i].version, plan[k].version))
  }

  ghost predicate AdjacentFrom(plan: Plan, i: nat) {
    && (forall k | i <= k < |plan| :: plan[k].version != "")
    && (forall k | i <= k < |plan| && k > 0 :: KeyLess(plan[k - 1].version, plan[k].version))
  }

  lemma {:induction false} PlanErrorMeans(plan: Plan, i: nat)
    requires i <= |plan|
    ensures PlanError(plan, i).None? <==> AdjacentFrom(plan, i)
    decreases |plan| - i
  {
    if i < |plan| {
      PlanErrorMeans(plan, i + 1);
    }
  }

  lemma {:induction false} AdjacentIncreases(plan: Plan, i: nat, k: nat)
    requires AdjacentFrom(plan, 0) && i < k < |plan|
    ensures KeyLess(plan[i].version, plan[k].version)
  {
    if i + 1 < k {
      AdjacentIncreases(plan, i, k - 1);
      KeyTransitive(plan[i].version, plan[k - 1].version, plan[k].version);
    }
  }

  /** A plan is accepted exactly when it is not empty and its versions strictly increase. */
  lemma ValidPlans(plan: Plan)
    ensures ValidatePlan(plan).None? <==> plan != [] && Increasing(plan)
  {
    PlanErrorMeans(plan, 0);
    if AdjacentFrom(plan, 0) {
      forall i, k | 0 <= i < k < |plan| ensures KeyLess(plan[i].version, plan[k].version) {
        AdjacentIncreases(plan, i, k);
      }
    }
  }

  // ---- The recorded versions ----

  function RowOf(m: Migration, checksum: Checksum): Row { Row(m.version, m.name, checksum(m.sql)) }

  function RowsOf(plan: Plan, checksum: Checksum): (r: seq<Row>)
    ensures |r| == |plan| && forall i | 0 <= i < |plan| :: r[i] == RowOf(plan[i], checksum)
  {
    seq(|plan|, i requires 0 <= i < |plan| => RowOf(plan[i], checksum))
  }

  predicate Has(rows: seq<Row>, version: string) { exists r <- rows :: r.version == version }

  function Find(rows: seq<Row>, version: string): Option<Row> {
    if rows == [] then None else if rows[0].version == version then Some(rows[0]) else Find(rows[1..], version)
  }

  /** Insertion keeps the rows in version order. */
  function InsertRow(rows: seq<Row>, r: Row): seq<Row> {
    if rows == [] || !KeyLess(rows[0].version, r.version) then [r] + rows
    else [rows[0]] + InsertRow(rows[1..], r)
  }

  predicate Planned(plan: Plan, version: string) { exists m <- plan :: m.version == version }

  /** validate_applied_versions */
  predicate Supported(plan: Plan, rows: seq<Row>) { forall r <- rows :: Planned(plan, r.version) }

  // ---- The database ----

  datatype Db<!P> = Db(rows: seq<Row>, locked: bool, product: P)

  // The loop of apply_in_transaction: `applied` are the rows read at its start.
  function ApplyLoop<P>(plan: Plan, applied: seq<Row>, db: Db<P>, last: Option<string>, run: Runner<P>, checksum: Checksum):
    Result<(Db<P>, seq<string>), MigrationError>
    decreases |plan|
  {
    if plan == [] || (last.Some? && KeyLess(last.value, plan[0].version)) then Ok((db, []))
    else
      var m := plan[0];
      var found := Find(applied, m.version);
      if found.Some? then
        if found.value.checksum != checksum(m.sql) then Err(ChecksumMismatch(m.version))
        else ApplyLoop(plan[1..], applied, db, last, run, checksum)
      else
        var product := run(m.sql, db.product);
        if product.None? then Err(ScriptFailed(m.version))
        else
          var next := db.(product := product.value, rows := InsertRow(db.rows, RowOf(m, checksum)));
          Prepend([m.version], ApplyLoop(plan[1..], applied, next, last, run, checksum))
  }

  function Prepend<P>(report: seq<string>, r: Result<(Db<P>, seq<string>), MigrationError>): Result<(Db<P>, seq<string>), MigrationError> {
    if r.Err? then r else Ok((r.value.0, report + r.value.1))
  }

  lemma PrependTwice<P>(a: seq<string>, b: seq<string>, r: Result<(Db<P>, seq<string>), MigrationError>)
    ensures Prepend([], r) == r && Prepend(a, Prepend(b, r)) == Prepend(a + b, r)
  {
    if r.Ok? {
      assert [] + r.value.1 == r.value.1 && a + (b + r.value.1) == (a + b) + r.value.1;
    }
  }

  function ApplyInTransaction<P>(plan: Plan, db: Db<P>, last: Option<string>, run: Runner<P>, checksum: Checksum):
    Result<(Db<P>, seq<string>), MigrationError>
  {
    if db.locked then Err(LockTaken)
    else if !Supported(plan, db.rows) then Err(UnsupportedSchema)
    else
      var r := ApplyLoop(plan, db.rows, db.(locked := true), last, run, checksum);
      if r.Err? then r else Ok((r.value.0.(locked := false), r.value.1))
  }

  /** apply_until: the report, and the database after commit or rollback. */
  function ApplyUntil<P>(plan: Plan, db: Db<P>, last: Option<string>, run: Runner<P>, checksum: Checksum, commits: bool):
    (Result<seq<string>, MigrationError>, Db<P>)
  {
    var bad := ValidatePlan(plan);
    if bad.Some? then (Err(bad.value), db)
    else
      var r := ApplyInTransaction(plan, db, last, run, checksum);
      if r.Err? then (Err(r.error), db)
      else if !commits then (Err(CommitFailed), db)
      else (Ok(r.value.1), r.value.0)
  }

  function ApplyThrough<P>(plan: Plan, db: Db<P>, last: string, run: Runner<P>, checksum: Checksum, commits: bool):
    (Result<seq<string>, MigrationError>, Db<P>)
  {
    if !Planned(plan, last) then (Err(UnknownBaseline), db) else ApplyUntil(plan, db, Some(last), run, checksum, commits)
  }

  lemma Finished<P>(report: seq<string>, db: Db<P>, plan: Plan, applied: seq<Row>, last: Option<string>, run: Runner<P>, checksum: Checksum)
    requires plan == [] || (last.Some? && KeyLess(last.value, plan[0].version))
    ensures Prepend(report, ApplyLoop(plan, applied, db, last, run, checksum)) == Ok((db, report))
  {
    assert report + [] == report;
  }

  lemma PrependFails<P>(report: seq<string>, e: MigrationError)
    ensures Prepend<P>(report, Err(e)) == Err(e)
  {}

  // The comparison of recorded and bundled migrations, place by place.
  function Compare(plan: Plan, rows: seq<Row>, checksum: Checksum): Option<MigrationError> {
    if plan == [] || rows == [] then None
    else if rows[0].version != plan[0].version || rows[0].name != plan[0].name then Some(UnsupportedSchema)
    else if rows[0].checksum != checksum(plan[0].sql) then Some(ChecksumMismatch(rows[0].version))
    else Compare(plan[1..], rows[1..], checksum)
  }

  /** verify_with_connection */
  function Verify<P>(plan: Plan, db: Db<P>, checksum: Checksum): Option<MigrationError> {
    var bad := ValidatePlan(plan);
    if bad.Some? then bad
    else
      var differs := Compare(plan, db.rows, checksum);
      if differs.Some? then differs
      else if !Supported(plan, db.rows) || |db.rows| != |plan| then Some(UnsupportedSchema)
      else None
  }

  // ---- The runner ----

  class Database<!P> {
    var rows: seq<Row>
    var locked: bool
    var product: P

    function View(): Db<P>
      reads this
    {
      Db(rows, locked, product)
    }

    constructor (product: P)
      ensures View() == Db([], false, product)
    {
      this.rows, this.locked, this.product := [], false, product;
    }

    /** apply_until: the transaction body, then commit or rollback. */
    method Apply(plan: Plan, last: Option<string>, run: Runner<P>, checksum: Checksum)
      returns (r: Result<seq<string>, MigrationError>, ghost commits: bool)
      modifies this
      ensures (r, View()) == ApplyUntil(plan, old(View()), last, run, checksum, commits)
    {
      hide Supported, Find, InsertRow;
      var bad := ValidatePlan(plan);
      if bad.Some? {
        return Err(bad.value), true;
      }
      var rows0, locked0, product0 := rows, locked, product;
      r := ApplyBody(plan, last, run, checksum);
      var ok: bool := *;
      commits := ok;
      if r.Ok? && !ok {
        r := Err(CommitFailed);
      }
      if r.Err? {
        rows, locked, product := rows0, locked0, product0;
      }
    }

    /** apply_in_transaction */
    method ApplyBody(plan: Plan, last: Option<string>, run: Runner<P>, checksum: Checksum)
      returns (r: Result<seq<string>, MigrationError>)
      modifies this
      ensures match ApplyInTransaction(plan, old(View()), last, run, checksum)
              case Ok((db, report)) => r == Ok(report) && View() == db
              case Err(e) => r == Err(e)
    {
      hide Supported, Find, InsertRow, Prepend, KeyLess;
      if locked {
        return Err(LockTaken);
      }
      locked := true;
      var applied := rows;
      if !Supported(plan, applied) {
        return Err(UnsupportedSchema);
      }
      var report: seq<string> := [];
      var i := 0;
      ghost var whole := ApplyLoop(plan, applied, View(), last, run, checksum);
      assert plan[0..] == plan;
      PrependTwice([], [], whole);
      while i < |plan|
        invariant i <= |plan| && locked
        invariant whole == Prepend(report, ApplyLoop(plan[i..], applied, View(), last, run, checksum))
      {
        assert plan[i..][0] == plan[i] && plan[i..][1..] == plan[i + 1..];
        if last.Some? && KeyLess(last.value, plan[i].version) {
          break;
        }
        var m := plan[i];
        var sum := checksum(m.sql);
        var found := Find(applied, m.version);
        if found.Some? {
          if found.value.checksum != sum {
            PrependFails<P>(report, ChecksumMismatch(m.version));
            return Err(ChecksumMismatch(m.version));
          }
        } else {
          var changed := run(m.sql, product);
          if changed.None? {
            PrependFails<P>(report, ScriptFailed(m.version));
            return Err(ScriptFailed(m.version));
          }
          PrependTwice(report, [m.version], ApplyLoop(plan[i + 1..], applied,
            View().(product := changed.value, rows := InsertRow(rows, Row(m.version, m.name, sum))), last, run, checksum));
          product := changed.value;
          rows := InsertRow(rows, Row(m.version, m.name, sum));
          report := report + [m.version];
        }
        i := i + 1;
      }
      Finished(report, View(), plan[i..], applied, last, run, checksum);
      locked := false;
      return Ok(report);
    }
  }
}
