/** When the migration runner runs a script below a version that is already recorded. */
module MigrationGaps {
  import opened Migrations
  import opened MigrationTheorems
  import opened Text
  import opened Wrappers

  /** The versions of a plan that are not recorded, in plan order. */
  function Missing(plan: Plan, rows: seq<Row>): seq<string> {
    if plan == [] then []
    else if Has(rows, plan[0].version) then Missing(plan[1..], rows)
    else [plan[0].version] + Missing(plan[1..], rows)
  }

  lemma {:induction false} MissingMeans(plan: Plan, rows: seq<Row>, v: string)
    ensures v in Missing(plan, rows) <==> !Has(rows, v) && Planned(plan, v)
  {
    if plan != [] {
      MissingMeans(plan[1..], rows, v);
      assert plan == [plan[0]] + plan[1..];
    }
  }

  lemma {:induction false} LoopReports<P>(plan: Plan, applied: seq<Row>, db: Db<P>, last: Option<string>, run: Runner<P>, checksum: Checksum)
    requires ApplyLoop(plan, applied, db, last, run, checksum).Ok?
    ensures ApplyLoop(plan, applied, db, last, run, checksum).value.1 == Missing(plan[..Target(plan, last)], applied)
    decreases |plan|
  {
    hide KeyLess, Find, InsertRow, Has;
    if plan != [] && !(last.Some? && KeyLess(last.value, plan[0].version)) {
      var m := plan[0];
      FindAt(applied, m.version);
      assert Find(applied, m.version).Some? <==> Has(applied, m.version) by { HasMeans(applied, m.version); }
      var n := Target(plan[1..], last);
      assert plan[..n + 1][0] == m && plan[..n + 1][1..] == plan[1..][..n];
      if Find(applied, m.version).Some? {
        LoopReports(plan[1..], applied, db, last, run, checksum);
      } else {
        var next := db.(product := run(m.sql, db.product).value, rows := InsertRow(db.rows, RowOf(m, checksum)));
        LoopReports(plan[1..], applied, next, last, run, checksum);
      }
    }
  }

  lemma HasMeans(rows: seq<Row>, v: string)
    ensures !Has(rows, v) <==> forall r <- rows :: r.version != v
  {}

  /** On any database, a call that succeeds reports exactly the versions up to its last one that
      were not recorded, in plan order. */
  lemma ReportsTheMissing<P>(plan: Plan, db: Db<P>, last: Option<string>, run: Runner<P>, checksum: Checksum)
    requires ApplyUntil(plan, db, last, run, checksum, true).0.Ok?
    ensures ApplyUntil(plan, db, last, run, checksum, true).0.value == Missing(plan[..Target(plan, last)], db.rows)
  {
    LoopReports(plan, db.rows, db.(locked := true), last, run, checksum);
  }

  ghost predicate Below(v: string, rows: seq<Row>) { exists r <- rows :: KeyLess(v, r.version) }

  /** On any database, a call that succeeds runs a script below an already recorded version exactly
      when some version up to its last one is not recorded while a later one is. */
  lemma RunsBelowExactly<P>(plan: Plan, db: Db<P>, last: Option<string>, run: Runner<P>, checksum: Checksum)
    requires ApplyUntil(plan, db, last, run, checksum, true).0.Ok?
    ensures (exists v <- ApplyUntil(plan, db, last, run, checksum, true).0.value :: Below(v, db.rows)) <==>
            (exists m <- plan[..Target(plan, last)] :: !Has(db.rows, m.version) && Below(m.version, db.rows))
  {
    hide Below, Has, ApplyUntil, Target;
    ReportsTheMissing(plan, db, last, run, checksum);
    var reached := plan[..Target(plan, last)];
    forall v ensures v in Missing(reached, db.rows) <==> !Has(db.rows, v) && Planned(reached, v) {
      MissingMeans(reached, db.rows, v);
    }
    if exists v <- Missing(reached, db.rows) :: Below(v, db.rows) {
      var v :| v in Missing(reached, db.rows) && Below(v, db.rows);
      var m :| m in reached && m.version == v;
      assert !Has(db.rows, m.version) && Below(m.version, db.rows);
    }
    if exists m <- reached :: !Has(db.rows, m.version) && Below(m.version, db.rows) {
      var m :| m in reached && !Has(db.rows, m.version) && Below(m.version, db.rows);
      assert m.version in Missing(reached, db.rows);
    }
  }

  /** No sequence of calls from an empty database leads there: at a prefix nothing runs below a
      recorded version. */
  lemma PrefixHasNoGap<P>(plan: Plan, db: Db<P>, k: nat, i: nat, first: P, run: Runner<P>, checksum: Checksum)
    requires Increasing(plan) && AtPrefix(db, plan, k, first, run, checksum) && i < |plan|
    ensures Below(plan[i].version, db.rows) ==> Has(db.rows, plan[i].version)
  {
    hide KeyLess, RunAll;
    if i < k {
      assert db.rows[i].version == plan[i].version && db.rows[i] in db.rows;
    } else {
      forall r <- db.rows ensures !KeyLess(plan[i].version, r.version) {
        var j :| 0 <= j < k && db.rows[j] == r;
        KeyTrichotomy(plan[i].version, plan[j].version);
      }
    }
  }

  function SameText(s: string): string { s }
  function Logged(sql: string, done: seq<string>): Option<seq<string>> { Some(done + [sql]) }

  /** The runner does not notice a gap: when a later version is recorded without an earlier one,
      which no sequence of calls leads to, apply runs the earlier script after it. */
  lemma GapIsFilled()
    ensures ApplyUntil([Migration("1", "a", "A"), Migration("2", "b", "B")],
                       Db([Row("2", "b", "B")], false, ["B"]), None, Logged, SameText, true)
              == (Ok(["1"]), Db([Row("1", "a", "A"), Row("2", "b", "B")], false, ["B", "A"]))
  {
    var a, b := Migration("1", "a", "A"), Migration("2", "b", "B");
    var plan := [a, b];
    assert KeyLess("1", "2") && !KeyLess("2", "1") && "1" != "2" by { assert "1"[0] < "2"[0]; }
    assert ValidatePlan(plan).None? by { ValidPlans(plan); }
    var rows := [Row("2", "b", "B")];
    assert b in plan && Supported(plan, rows);
    assert rows[1..] == [];
    assert Find(rows, "1") == None && Find(rows, "2") == Some(rows[0]);
    var db := Db(rows, true, ["B"]);
    var next := Db([Row("1", "a", "A"), Row("2", "b", "B")], true, ["B", "A"]);
    assert plan[1..] == [b] && [b][1..] == [];
    assert InsertRow(rows, Row("1", "a", "A")) == next.rows;
    assert ["B"] + ["A"] == ["B", "A"];
    assert Logged("A", ["B"]) == Some(["B", "A"]);
    assert ApplyLoop([b], rows, next, None, Logged, SameText) == Ok((next, []));
    assert ApplyLoop(plan, rows, db, None, Logged, SameText) == Prepend(["1"], Ok((next, [])));
    assert ["1"] + [] == ["1"];
  }
}
