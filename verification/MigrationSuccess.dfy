/** Exactly when a start of `scripts/migrate.sh` runs to the end. */
module MigrationSuccess {
  import opened Common
  import opened Migrations

  /** Nothing fails that the script needs of a file: the lookup, if the version is
      recorded; otherwise every statement and the recording. */
  ghost predicate QuietFile(recorded: set<string>, schema: string, f: File, env: Env) {
    if f.version in recorded then env(Check(schema, f.version)) == Done
    else QuietFrom(schema, f, 0, env) && env(Record(schema, f.version)) == Done
  }

  ghost predicate QuietFrom(schema: string, f: File, k: nat, env: Env) {
    forall n :: k <= n < |f.body| ==> env(Exec(schema, f.version, n)) == Done
  }

  ghost predicate QuietFiles(recorded: set<string>, schema: string, files: seq<File>, i: nat, env: Env) {
    forall n :: i <= n < |files| ==> QuietFile(recorded, schema, files[n], env)
  }

  function RecordedIn(db: Db, schema: string): set<string> {
    if schema in db.recorded then db.recorded[schema] else {}
  }

  ghost predicate QuietService(db: Db, s: Service, env: Env) {
    s.files.Some? ==> env(Tracking(s.schema)) == Done && QuietFiles(RecordedIn(db, s.schema), s.schema, s.files.value, 0, env)
  }

  ghost predicate Quiet(db: Db, plan: seq<Service>, i: nat, env: Env) {
    forall n :: i <= n < |plan| ==> QuietService(db, plan[n], env)
  }

  // -------------------------------------------------------------- one file

  lemma {:induction false} ExecQuiet(db: Db, schema: string, f: File, k: nat, env: Env, calm: Env)
    requires k <= |f.body| && Calm(calm)
    ensures ExecFrom(db, schema, f, k, env).1 ==> QuietFrom(schema, f, k, env)
    ensures QuietFrom(schema, f, k, env) ==> ExecFrom(db, schema, f, k, env) == ExecFrom(db, schema, f, k, calm)
    decreases |f.body| - k
  {
    if k < |f.body| && f.body[k].needs <= db.objects.Keys {
      assert calm(Exec(schema, f.version, k)).Done?;
      var o := env(Exec(schema, f.version, k));
      if o == Done {
        ExecQuiet(db.(objects := AddIfAbsent(db.objects, f.body[k])), schema, f, k + 1, env, calm);
      }
    }
  }

  lemma FileQuiet(db: Db, schema: string, f: File, env: Env, calm: Env)
    requires schema in db.recorded && Calm(calm)
    ensures RunFile(db, schema, f, env).1 ==> QuietFile(db.recorded[schema], schema, f, env)
    ensures QuietFile(db.recorded[schema], schema, f, env) ==> RunFile(db, schema, f, env) == RunFile(db, schema, f, calm)
    ensures var t := RunFile(db, schema, f, env).0;
            schema in t.recorded && db.recorded[schema] <= t.recorded[schema] <= db.recorded[schema] + {f.version}
  {
    assert calm(Check(schema, f.version)).Done? && calm(Record(schema, f.version)).Done?;
    ExecQuiet(db, schema, f, 0, env, calm);
    ExecRecorded(db, schema, f, 0, env);
    ExecRecorded(db, schema, f, 0, calm);
  }

  // ------------------------------------------------------- services and the plan

  /** Recording file i says nothing about the files after it. */
  lemma QuietAfter(a: set<string>, b: set<string>, schema: string, files: seq<File>, i: nat, env: Env)
    requires i < |files| && Distinct(files) && a <= b <= a + {files[i].version}
    ensures QuietFiles(a, schema, files, i + 1, env) <==> QuietFiles(b, schema, files, i + 1, env)
  {
    forall n | i + 1 <= n < |files| ensures QuietFile(a, schema, files[n], env) <==> QuietFile(b, schema, files[n], env) {
      assert files[n].version != files[i].version;
    }
  }

  lemma {:induction false} FilesQuiet(db: Db, schema: string, files: seq<File>, i: nat, env: Env, calm: Env)
    requires schema in db.recorded && i <= |files| && Distinct(files) && Calm(calm)
    ensures RunFiles(db, schema, files, i, env).1 ==> QuietFiles(db.recorded[schema], schema, files, i, env)
    ensures QuietFiles(db.recorded[schema], schema, files, i, env) ==>
              RunFiles(db, schema, files, i, env) == RunFiles(db, schema, files, i, calm)
    decreases |files| - i
  {
    if i < |files| {
      FileQuiet(db, schema, files[i], env, calm);
      var (next, ok) := RunFile(db, schema, files[i], env);
      if ok {
        FilesQuiet(next, schema, files, i + 1, env, calm);
        QuietAfter(db.recorded[schema], next.recorded[schema], schema, files, i, env);
      }
    }
  }

  lemma ServiceQuiet(db: Db, s: Service, env: Env, calm: Env)
    requires (s.files.Some? ==> Distinct(s.files.value)) && Calm(calm)
    ensures RunService(db, s, env).1 ==> QuietService(db, s, env)
    ensures QuietService(db, s, env) ==> RunService(db, s, env) == RunService(db, s, calm)
  {
    if s.files.Some? {
      assert calm(Tracking(s.schema)).Done?;
      FilesQuiet(CreateTracking(db, s.schema), s.schema, s.files.value, 0, env, calm);
    }
  }

  lemma QuietElsewhere(db: Db, t: Db, plan: seq<Service>, i: nat, env: Env)
    requires forall n :: i <= n < |plan| ==> RecordedIn(db, plan[n].schema) == RecordedIn(t, plan[n].schema)
    ensures Quiet(db, plan, i, env) <==> Quiet(t, plan, i, env)
  {
    forall n | i <= n < |plan| ensures QuietService(db, plan[n], env) <==> QuietService(t, plan[n], env) {
    }
  }

  lemma {:induction false} FilesElsewhere(db: Db, schema: string, files: seq<File>, i: nat, env: Env, q: string)
    requires schema in db.recorded && i <= |files| && q != schema
    ensures RecordedIn(RunFiles(db, schema, files, i, env).0, q) == RecordedIn(db, q)
    decreases |files| - i
  {
    if i < |files| {
      ExecRecorded(db, schema, files[i], 0, env);
      RunFileKeepsTable(db, schema, files[i], env);
      FilesElsewhere(RunFile(db, schema, files[i], env).0, schema, files, i + 1, env, q);
    }
  }

  lemma ServiceElsewhere(db: Db, s: Service, env: Env, q: string)
    requires q != s.schema
    ensures RecordedIn(RunService(db, s, env).0, q) == RecordedIn(db, q)
  {
    if s.files.Some? {
      FilesElsewhere(CreateTracking(db, s.schema), s.schema, s.files.value, 0, env, q);
    }
  }

  lemma {:induction false} PlanQuiet(db: Db, plan: seq<Service>, i: nat, env: Env, calm: Env)
    requires i <= |plan| && WellFormed(plan) && Calm(calm)
    ensures RunFrom(db, plan, i, env).1 ==> Quiet(db, plan, i, env)
    ensures Quiet(db, plan, i, env) ==> RunFrom(db, plan, i, env) == RunFrom(db, plan, i, calm)
    decreases |plan| - i
  {
    if i < |plan| {
      var s := plan[i];
      ServiceQuiet(db, s, env, calm);
      var (next, ok) := RunService(db, s, env);
      if ok {
        PlanQuiet(next, plan, i + 1, env, calm);
        forall n | i + 1 <= n < |plan| ensures RecordedIn(db, plan[n].schema) == RecordedIn(next, plan[n].schema) {
          ServiceElsewhere(db, s, env, plan[n].schema);
        }
        QuietElsewhere(db, next, plan, i + 1, env);
      }
    }
  }

  /** A start of the script on a consistent database succeeds exactly when the
      statements' own needs are met, every tracking table can be made, every
      statement and recording of a file that was not recorded goes through, and
      the lookup of every recorded one does: a failed lookup reads as "not
      applied", and the second recording then stops the script. Whatever else
      fails does not matter, and the result is that of an undisturbed run. */
  lemma SucceedsIff(db: Db, plan: seq<Service>, env: Env, calm: Env)
    requires WellFormed(plan) && Consistent(db, plan) && Calm(calm)
    ensures Run(db, plan, env).1 <==> All(db.objects, Statements(plan)).1 && Quiet(db, plan, 0, env)
    ensures Run(db, plan, env).1 ==> Run(db, plan, env) == Run(db, plan, calm)
  {
    PlanQuiet(db, plan, 0, env, calm);
    OneStart(db, plan, env);
    OneStart(db, plan, calm);
  }
}
