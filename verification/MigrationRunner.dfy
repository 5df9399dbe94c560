/** The loops of `scripts/migrate.sh`, over a database that keeps whatever has
    been committed when the script stops. */
module MigrationRunner {
  import opened Common
  import opened Migrations

  class Migrator {
    var objects: map<Obj, Def>
    var recorded: map<string, set<string>>

    constructor (db: Db)
      ensures Snapshot() == db
    {
      objects, recorded := db.objects, db.recorded;
    }

    function Snapshot(): Db
      reads this
    {
      Db(objects, recorded)
    }

    /** psql -v ON_ERROR_STOP=1 -f. */
    method ApplyFile(schema: string, f: File, env: Env) returns (ok: bool)
      modifies this`objects
      ensures (Snapshot(), ok) == ExecFrom(old(Snapshot()), schema, f, 0, env)
    {
      var k := 0;
      while k < |f.body|
        invariant 0 <= k <= |f.body|
        invariant ExecFrom(old(Snapshot()), schema, f, 0, env) == ExecFrom(Snapshot(), schema, f, k, env)
      {
        var s := f.body[k];
        if !(s.needs <= objects.Keys) { return false; }
        var o := env(Exec(schema, f.version, k));
        if o.Effective() { objects := AddIfAbsent(objects, s); }
        if o.Failed? { return false; }
        k := k + 1;
      }
      return true;
    }

    /** One pass of the inner loop's body. */
    method MigrateFile(schema: string, f: File, env: Env) returns (ok: bool)
      requires schema in recorded
      modifies this
      ensures schema in recorded && (Snapshot(), ok) == RunFile(old(Snapshot()), schema, f, env)
    {
      var already := env(Check(schema, f.version)).Done? && f.version in recorded[schema];
      if already { return true; }
      ExecRecorded(Snapshot(), schema, f, 0, env);
      var applied := ApplyFile(schema, f, env);
      if !applied { return false; }
      if f.version in recorded[schema] { return false; }
      var o := env(Record(schema, f.version));
      if o.Effective() { recorded := recorded[schema := recorded[schema] + {f.version}]; }
      return o.Done?;
    }

    method Migrate(plan: seq<Service>, env: Env) returns (ok: bool)
      modifies this
      ensures (Snapshot(), ok) == Migrations.Run(old(Snapshot()), plan, env)
    {
      for i := 0 to |plan|
        invariant RunFrom(old(Snapshot()), plan, 0, env) == RunFrom(Snapshot(), plan, i, env)
      {
        var svc := plan[i];
        if svc.files.None? { continue; }
        ghost var start := Snapshot();
        var o := env(Tracking(svc.schema));
        if o.Effective() && svc.schema !in recorded { recorded := recorded[svc.schema := {}]; }
        if o.Failed? { return false; }
        var files := svc.files.value;
        for j := 0 to |files|
          invariant svc.schema in recorded
          invariant RunService(start, svc, env) == RunFiles(Snapshot(), svc.schema, files, j, env)
        {
          var done := MigrateFile(svc.schema, files[j], env);
          if !done { return false; }
        }
      }
      return true;
    }
  }
}
