/** What a failing call of the migration runner blames, and that the blame is right. */
module MigrationFailures {
  import opened Text
  import opened Wrappers
  import opened Migrations

  // ---- The plan ----

  // Nothing is wrong before place `i`.
  ghost predicate SoundTo(plan: Plan, i: nat) {
    && i <= |plan|
    && (forall k | 0 <= k < i :: plan[k].version != "")
    && (forall k | 0 < k < i :: KeyLess(plan[k - 1].version, plan[k].version))
  }

  // What is wrong at place `i`, if anything is.
  ghost predicate WrongAt(plan: Plan, i: nat, e: MigrationError) {
    && i < |plan|
    && match e
       case EmptyVersion => plan[i].version == ""
       case NotIncreasing(v) => v == plan[i].version != "" && i > 0 && !KeyLess(plan[i - 1].version, v)
       case _ => false
  }

  lemma {:induction false} PlanErrorFrom(plan: Plan, i: nat, e: MigrationError)
    requires SoundTo(plan, i)
    ensures PlanError(plan, i) == Some(e) <==> exists k: nat :: i <= k && SoundTo(plan, k) && WrongAt(plan, k, e)
    decreases |plan| - i
  {
    if i < |plan| {
      if PlanError(plan, i) == PlanError(plan, i + 1) && plan[i].version != "" && (i == 0 || KeyLess(plan[i - 1].version, plan[i].version)) {
        PlanErrorFrom(plan, i + 1, e);
      } else {
        assert WrongAt(plan, i, PlanError(plan, i).value);
        forall k: nat | i <= k && SoundTo(plan, k) ensures k == i {}
      }
    }
  }

  /** A plan is refused for being empty, or for its first migration whose version is empty or does not
      come after the one before. */
  lemma PlanBlamed(plan: Plan, e: MigrationError)
    ensures ValidatePlan(plan) == Some(EmptyPlan) <==> plan == []
    ensures plan != [] ==> (ValidatePlan(plan) == Some(e) <==> exists k: nat :: SoundTo(plan, k) && WrongAt(plan, k, e))
  {
    PlanErrorFrom(plan, 0, e);
    PlanErrorKinds(plan, 0);
    if k: nat :| SoundTo(plan, k) && WrongAt(plan, k, e) {
      assert 0 <= k && SoundTo(plan, k) && WrongAt(plan, k, e);
    }
  }

  // ---- Applying ----

  // The call gets as far as `m`.
  predicate Wanted(m: Migration, last: Option<string>) { last.None? || !KeyLess(last.value, m.version) }

  // The reason for which a migration can stop a call.
  ghost predicate Stops<P(!new)>(m: Migration, e: MigrationError, applied: seq<Row>, run: Runner<P>, checksum: Checksum) {
    match e
    case ChecksumMismatch(v) => v == m.version && exists r <- applied :: r.version == v && r.checksum != checksum(m.sql)
    case ScriptFailed(v) => v == m.version && !Has(applied, v) && exists p: P :: run(m.sql, p) == None
    case _ => false
  }

  lemma {:induction false} FindMeans(rows: seq<Row>, version: string)
    ensures Find(rows, version).Some? <==> Has(rows, version)
    ensures Find(rows, version).Some? ==> Find(rows, version).value in rows && Find(rows, version).value.version == version
  {
    if rows != [] {
      FindMeans(rows[1..], version);
      assert rows == [rows[0]] + rows[1..];
    }
  }

  lemma {:induction false} LoopBlames<P(!new)>(plan: Plan, applied: seq<Row>, db: Db<P>, last: Option<string>, run: Runner<P>, checksum: Checksum)
    requires ApplyLoop(plan, applied, db, last, run, checksum).Err?
    ensures exists m <- plan :: Wanted(m, last) && Stops(m, ApplyLoop(plan, applied, db, last, run, checksum).error, applied, run, checksum)
    decreases |plan|
  {
    hide Find, Has, InsertRow, KeyLess;
    var m := plan[0];
    var e := ApplyLoop(plan, applied, db, last, run, checksum).error;
    FindMeans(applied, m.version);
    var found := Find(applied, m.version);
    if found.Some? && found.value.checksum == checksum(m.sql) {
      LoopBlames(plan[1..], applied, db, last, run, checksum);
    } else if found.None? && run(m.sql, db.product).Some? {
      var next := db.(product := run(m.sql, db.product).value, rows := InsertRow(db.rows, RowOf(m, checksum)));
      LoopBlames(plan[1..], applied, next, last, run, checksum);
    } else {
      assert m in plan && Wanted(m, last) && Stops(m, e, applied, run, checksum);
    }
  }

  /** Why a call fails, for any plan and any database: the plan is bad; or the lock row is there; or a
      recorded version is not in the plan; or a migration that the call gets to is recorded with another
      checksum, or is not recorded and its script fails; or the commit fails.  The first four are blamed
      exactly when they are so and none before is. */
  lemma ApplyBlames<P(!new)>(plan: Plan, db: Db<P>, last: Option<string>, run: Runner<P>, checksum: Checksum, commits: bool)
    ensures var r := ApplyUntil(plan, db, last, run, checksum, commits).0;
            var sound, known := ValidatePlan(plan).None?, forall x <- db.rows :: exists m <- plan :: m.version == x.version;
            && (!sound ==> r == Err(ValidatePlan(plan).value))
            && (r == Err(LockTaken) <==> sound && db.locked)
            && (r == Err(UnsupportedSchema) <==> sound && !db.locked && !known)
            && (r == Err(CommitFailed) ==> !commits)
            && (sound && r.Err? && !r.error.LockTaken? && !r.error.UnsupportedSchema? && !r.error.CommitFailed? ==>
                  exists m <- plan :: Wanted(m, last) && Stops(m, r.error, db.rows, run, checksum))
  {
    PlanErrorKinds(plan, 0);
    var loop := ApplyLoop(plan, db.rows, db.(locked := true), last, run, checksum);
    if loop.Err? { LoopBlames(plan, db.rows, db.(locked := true), last, run, checksum); }
    hide ApplyLoop, PlanError, Wanted;
  }

  lemma {:induction false} PlanErrorKinds(plan: Plan, i: nat)
    requires i <= |plan|
    ensures PlanError(plan, i).Some? ==> PlanError(plan, i).value.EmptyVersion? || PlanError(plan, i).value.NotIncreasing?
    decreases |plan| - i
  {
    if i < |plan| {
      PlanErrorKinds(plan, i + 1);
    }
  }

  /** Applying through a version asks for a version of the plan. */
  lemma BaselineIsKnown<P(!new)>(plan: Plan, db: Db<P>, last: string, run: Runner<P>, checksum: Checksum, commits: bool)
    ensures ApplyThrough(plan, db, last, run, checksum, commits).0 == Err(UnknownBaseline) <==> forall m <- plan :: m.version != last
    ensures ApplyThrough(plan, db, last, run, checksum, commits).0 == Err(UnknownBaseline)
         || ApplyThrough(plan, db, last, run, checksum, commits) == ApplyUntil(plan, db, Some(last), run, checksum, commits)
  {
    ApplyBlames(plan, db, Some(last), run, checksum, commits);
    PlanErrorKinds(plan, 0);
    hide ApplyUntil, PlanError;
  }

  // ---- Verifying ----

  // The rows record the first `i` migrations as they are.
  ghost predicate AgreeTo(plan: Plan, rows: seq<Row>, checksum: Checksum, i: nat) {
    i <= |plan| && i <= |rows| && forall k | 0 <= k < i :: rows[k] == RowOf(plan[k], checksum)
  }

  // The row at place `i` has the identity of the migration there and another checksum.
  ghost predicate ChangedAt(plan: Plan, rows: seq<Row>, checksum: Checksum, i: nat, v: string) {
    && i < |plan| && i < |rows|
    && rows[i].version == plan[i].version == v && rows[i].name == plan[i].name && rows[i].checksum != checksum(plan[i].sql)
  }

  lemma {:induction false} CompareBlames(plan: Plan, rows: seq<Row>, checksum: Checksum, v: string)
    ensures Compare(plan, rows, checksum) == Some(ChecksumMismatch(v)) <==>
              exists i: nat :: AgreeTo(plan, rows, checksum, i) && ChangedAt(plan, rows, checksum, i, v)
    ensures Compare(plan, rows, checksum).Some? ==>
              Compare(plan, rows, checksum).value.UnsupportedSchema? || Compare(plan, rows, checksum).value.ChecksumMismatch?
    decreases |plan|
  {
    if plan != [] && rows != [] {
      if rows[0] == RowOf(plan[0], checksum) {
        CompareBlames(plan[1..], rows[1..], checksum, v);
        if i: nat :| AgreeTo(plan, rows, checksum, i) && ChangedAt(plan, rows, checksum, i, v) {
          assert AgreeTo(plan[1..], rows[1..], checksum, i - 1) && ChangedAt(plan[1..], rows[1..], checksum, i - 1, v);
        }
        if i: nat :| AgreeTo(plan[1..], rows[1..], checksum, i) && ChangedAt(plan[1..], rows[1..], checksum, i, v) {
          assert AgreeTo(plan, rows, checksum, i + 1) && ChangedAt(plan, rows, checksum, i + 1, v);
        }
      } else {
        if ChangedAt(plan, rows, checksum, 0, v) { assert AgreeTo(plan, rows, checksum, 0); }
        forall i: nat | AgreeTo(plan, rows, checksum, i) ensures i == 0 {}
      }
    }
  }

  /** What a failing verification blames: the plan, if it is bad; a checksum exactly if all rows before
      agree and the row there has the identity of the migration in its place; and the schema otherwise. */
  lemma VerifyBlames<P(!new)>(plan: Plan, db: Db<P>, checksum: Checksum, v: string)
    ensures var r, sound := Verify(plan, db, checksum), ValidatePlan(plan).None?;
            && (!sound ==> r == ValidatePlan(plan))
            && (sound ==> r in {None, Some(UnsupportedSchema)} || r.value.ChecksumMismatch?)
            && (sound ==>
                  (r == Some(ChecksumMismatch(v)) <==>
                     exists i: nat :: AgreeTo(plan, db.rows, checksum, i) && ChangedAt(plan, db.rows, checksum, i, v)))
  {
    CompareBlames(plan, db.rows, checksum, v);
    hide Compare, ValidatePlan, AgreeTo, ChangedAt;
  }
}
