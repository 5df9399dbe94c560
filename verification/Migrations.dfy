/** The migration runner (`scripts/migrate.sh`): per service and file it applies
    the statements one by one, each committing on its own, and then records the
    file's version. It may stop at any statement and be started again. */
module Migrations {
  import opened Common
  import Sequences

  /** A qualified object or seed row, and its definition. */
  type Obj = string
  type Def = string

  /** The forms the migrations use: CREATE TABLE / INDEX IF NOT EXISTS and INSERT
      ... ON CONFLICT DO NOTHING add what is absent; SET search_path adds nothing.
      `needs` are the tables the statement refers to. */
  datatype Stmt = Stmt(adds: map<Obj, Def>, needs: set<Obj>)

  datatype File = File(version: string, body: seq<Stmt>)

  /** The sorted *.up.sql files of one service; None if it has no directory. */
  datatype Service = Service(schema: string, files: Option<seq<File>>)

  /** recorded: the versions in each schema's schema_migrations table, where that
      table exists. */
  datatype Db = Db(objects: map<Obj, Def>, recorded: map<string, set<string>>)

  /** Where a run can be hit. */
  datatype Point = Tracking(schema: string) | Check(schema: string, version: string)
                 | Exec(schema: string, version: string, index: nat) | Record(schema: string, version: string)

  type Env = Point -> Outcome

  function AddIfAbsent(objects: map<Obj, Def>, s: Stmt): map<Obj, Def> {
    s.adds + objects
  }

  // ---------------------------------------------------------------- the script

  /** psql -f from statement k on, with ON_ERROR_STOP. */
  function ExecFrom(db: Db, schema: string, f: File, k: nat, env: Env): (Db, bool)
    requires k <= |f.body|
    decreases |f.body| - k
  {
    if k == |f.body| then (db, true)
    else if !(f.body[k].needs <= db.objects.Keys) then (db, false)
    else
      var o := env(Exec(schema, f.version, k));
      var next := if o.Effective() then db.(objects := AddIfAbsent(db.objects, f.body[k])) else db;
      if o.Failed? then (next, false) else ExecFrom(next, schema, f, k + 1, env)
  }

  /** A failed lookup reads as "not applied": the file runs again, and then the
      INSERT of a version that is there violates its primary key. */
  function RunFile(db: Db, schema: string, f: File, env: Env): (Db, bool)
    requires schema in db.recorded
  {
    if env(Check(schema, f.version)).Done? && f.version in db.recorded[schema] then (db, true)
    else
      var (next, ok) := ExecFrom(db, schema, f, 0, env);
      if !ok || schema !in next.recorded || f.version in next.recorded[schema] then (next, false)
      else
        var o := env(Record(schema, f.version));
        (if o.Effective() then next.(recorded := next.recorded[schema := next.recorded[schema] + {f.version}]) else next, o.Done?)
  }

  lemma {:induction false} ExecRecorded(db: Db, schema: string, f: File, k: nat, env: Env)
    requires k <= |f.body|
    ensures ExecFrom(db, schema, f, k, env).0.recorded == db.recorded
    decreases |f.body| - k
  {
    if k < |f.body| && f.body[k].needs <= db.objects.Keys {
      var o := env(Exec(schema, f.version, k));
      ExecRecorded(if o.Effective() then db.(objects := AddIfAbsent(db.objects, f.body[k])) else db, schema, f, k + 1, env);
    }
  }

  lemma RunFileKeepsTable(db: Db, schema: string, f: File, env: Env)
    requires schema in db.recorded
    ensures schema in RunFile(db, schema, f, env).0.recorded
  {
    ExecRecorded(db, schema, f, 0, env);
  }

  function RunFiles(db: Db, schema: string, files: seq<File>, i: nat, env: Env): (Db, bool)
    requires schema in db.recorded && i <= |files|
    decreases |files| - i
  {
    if i == |files| then (db, true)
    else
      RunFileKeepsTable(db, schema, files[i], env);
      var (next, ok) := RunFile(db, schema, files[i], env);
      if ok then RunFiles(next, schema, files, i + 1, env) else (next, false)
  }

  function CreateTracking(db: Db, schema: string): Db {
    if schema in db.recorded then db else db.(recorded := db.recorded[schema := {}])
  }

  function RunService(db: Db, s: Service, env: Env): (Db, bool) {
    if s.files.None? then (db, true)
    else
      var o := env(Tracking(s.schema));
      var next := if o.Effective() then CreateTracking(db, s.schema) else db;
      if o.Failed? then (next, false) else RunFiles(next, s.schema, s.files.value, 0, env)
  }

  function RunFrom(db: Db, plan: seq<Service>, i: nat, env: Env): (Db, bool)
    requires i <= |plan|
    decreases |plan| - i
  {
    if i == |plan| then (db, true)
    else
      var (next, ok) := RunService(db, plan[i], env);
      if ok then RunFrom(next, plan, i + 1, env) else (next, false)
  }

  /** One start of the script. */
  function Run(db: Db, plan: seq<Service>, env: Env): (Db, bool) {
    RunFrom(db, plan, 0, env)
  }

  /** The script started again and again, each start with its own failures. */
  function Restarts(db: Db, plan: seq<Service>, envs: seq<Env>): Db
    decreases |envs|
  {
    if envs == [] then db else Restarts(Run(db, plan, envs[0]).0, plan, envs[1..])
  }

  /** Nothing fails. */
  ghost predicate Calm(env: Env) {
    forall p :: env(p).Done?
  }

  // ---------------------------------------------- the meaning of the statements

  /** Applying statements in order, stopping at the first whose needs are unmet. */
  function All(o: map<Obj, Def>, ss: seq<Stmt>): (map<Obj, Def>, bool)
    decreases |ss|
  {
    if ss == [] then (o, true)
    else if ss[0].needs <= o.Keys then All(AddIfAbsent(o, ss[0]), ss[1..])
    else (o, false)
  }

  /** The statements are applied: running them again would change nothing. */
  ghost predicate Applied(o: map<Obj, Def>, ss: seq<Stmt>) {
    forall s :: s in ss ==> s.adds.Keys <= o.Keys && s.needs <= o.Keys
  }

  lemma AddGrows(o: map<Obj, Def>, s: Stmt)
    ensures o.Keys <= AddIfAbsent(o, s).Keys && s.adds.Keys <= AddIfAbsent(o, s).Keys
    ensures s.adds.Keys <= o.Keys ==> AddIfAbsent(o, s) == o
  {
  }

  /** What a statement leaves: what was there keeps its definition, what was absent
      gets the statement's, and nothing else appears. */
  lemma AddsOnlyAbsent(o: map<Obj, Def>, s: Stmt, x: Obj)
    ensures x in o ==> x in AddIfAbsent(o, s) && AddIfAbsent(o, s)[x] == o[x]
    ensures x !in o && x in s.adds ==> x in AddIfAbsent(o, s) && AddIfAbsent(o, s)[x] == s.adds[x]
    ensures x !in o && x !in s.adds ==> x !in AddIfAbsent(o, s)
  {
  }

  lemma AppliedGrows(o: map<Obj, Def>, p: map<Obj, Def>, ss: seq<Stmt>)
    requires Applied(o, ss) && o.Keys <= p.Keys
    ensures Applied(p, ss)
  {
  }

  /** Applied statements can be skipped. */
  lemma {:induction false} AllSkips(o: map<Obj, Def>, a: seq<Stmt>, b: seq<Stmt>)
    requires Applied(o, a)
    ensures All(o, a + b) == All(o, b)
    decreases |a|
  {
    if a == [] {
      assert a + b == b;
    } else {
      assert a[0] in a && (a + b)[1..] == a[1..] + b;
      AddGrows(o, a[0]);
      AllSkips(o, a[1..], b);
    }
  }

  /** Executing the next statement does not change where everything ends. */
  lemma AllStep(o: map<Obj, Def>, a: seq<Stmt>, s: Stmt, b: seq<Stmt>)
    requires Applied(o, a) && s.needs <= o.Keys
    ensures var p := AddIfAbsent(o, s); Applied(p, a + [s]) && All(p, a + ([s] + b)) == All(o, a + ([s] + b))
  {
    var p := AddIfAbsent(o, s);
    AddGrows(o, s);
    AppliedGrows(o, p, a);
    AllSkips(o, a, [s] + b);
    AllSkips(p, a, [s] + b);
    AddGrows(p, s);
    assert ([s] + b)[1..] == b;
  }

  function Bodies(files: seq<File>): seq<Stmt> {
    if files == [] then [] else Bodies(files[..|files|-1]) + files[|files|-1].body
  }

  function Statements(plan: seq<Service>): seq<Stmt> {
    if plan == [] then []
    else Statements(plan[..|plan|-1]) + (if plan[|plan|-1].files.Some? then Bodies(plan[|plan|-1].files.value) else [])
  }

  function Versions(files: seq<File>): set<string> {
    set f | f in files :: f.version
  }

  // ------------------------------------------------------------- consistency

  /** File names in a directory, and schemas, are distinct. */
  ghost predicate WellFormed(plan: seq<Service>) {
    && (forall i, j :: 0 <= i < j < |plan| ==> plan[i].schema != plan[j].schema)
    && (forall s :: s in plan && s.files.Some? ==> Distinct(s.files.value))
  }

  ghost predicate Distinct(files: seq<File>) {
    forall i, j :: 0 <= i < j < |files| ==> files[i].version != files[j].version
  }

  /** The recorded versions are exactly the first j files, all of them applied. */
  ghost predicate PrefixAt(db: Db, schema: string, files: seq<File>, j: nat) {
    && j <= |files| && schema in db.recorded
    && db.recorded[schema] == Versions(files[..j])
    && Applied(db.objects, Bodies(files[..j]))
  }

  ghost predicate ServiceOk(db: Db, s: Service) {
    s.files.Some? && s.schema in db.recorded ==> exists j :: PrefixAt(db, s.schema, s.files.value, j)
  }

  ghost predicate Consistent(db: Db, plan: seq<Service>) {
    forall s :: s in plan ==> ServiceOk(db, s)
  }

  ghost predicate Grows(a: Db, b: Db) {
    a.objects.Keys <= b.objects.Keys
  }

  lemma PrefixGrows(a: Db, b: Db, schema: string, files: seq<File>, j: nat)
    requires PrefixAt(a, schema, files, j) && Grows(a, b) && schema in b.recorded && b.recorded[schema] == a.recorded[schema]
    ensures PrefixAt(b, schema, files, j)
  {
    AppliedGrows(a.objects, b.objects, Bodies(files[..j]));
  }

  lemma {:induction false} BodiesConcat(a: seq<File>, b: seq<File>)
    ensures Bodies(a + b) == Bodies(a) + Bodies(b)
    decreases |b|
  {
    if b == [] {
      assert a + b == a;
    } else {
      assert (a + b)[..|a + b|-1] == a + b[..|b|-1];
      BodiesConcat(a, b[..|b|-1]);
    }
  }

  lemma BodiesAround(a: seq<File>, f: File, c: seq<File>)
    ensures Bodies(a + [f]) == Bodies(a) + f.body
    ensures Bodies(a + [f] + c) == Bodies(a) + (f.body + Bodies(c))
  {
    assert (a + [f])[..|a|] == a;
    BodiesConcat(a + [f], c);
    Sequences.Assoc(Bodies(a), f.body, Bodies(c));
  }

  lemma BodiesSplit(files: seq<File>, i: nat)
    requires i < |files|
    ensures Bodies(files) == Bodies(files[..i]) + (files[i].body + Bodies(files[i+1..]))
    ensures Bodies(files[..i+1]) == Bodies(files[..i]) + files[i].body
  {
    BodiesAround(files[..i], files[i], files[i+1..]);
    Sequences.SplitAt(files, i);
  }

  lemma {:induction false} BodyIn(files: seq<File>, i: nat)
    requires i < |files|
    ensures forall s :: s in files[i].body ==> s in Bodies(files)
  {
    BodiesSplit(files, i);
  }

  /** A run from db to t that has got past `passed` of the statements `all`, or
      has stopped: it does not change where everything ends, and if nothing fails
      it stops only where the statements themselves do. */
  ghost predicate Progress(db: Db, t: Db, ok: bool, env: Env, passed: seq<Stmt>, all: seq<Stmt>) {
    && Grows(db, t)
    && All(t.objects, all) == All(db.objects, all)
    && (ok ==> Applied(t.objects, passed))
    && (Calm(env) && !ok ==> (t.objects, false) == All(db.objects, all))
  }

  lemma ProgressTrans(db: Db, m: Db, t: Db, ok: bool, env: Env, passed: seq<Stmt>, all: seq<Stmt>)
    requires Grows(db, m) && All(m.objects, all) == All(db.objects, all) && Progress(m, t, ok, env, passed, all)
    ensures Progress(db, t, ok, env, passed, all)
  {
  }

  /** The next of the statements `all`: a are applied, s is due, b follow. */
  lemma StepKeeps(o: map<Obj, Def>, a: seq<Stmt>, s: Stmt, b: seq<Stmt>, all: seq<Stmt>)
    requires Applied(o, a) && all == a + ([s] + b)
    ensures !(s.needs <= o.Keys) ==> All(o, all) == (o, false)
    ensures s.needs <= o.Keys ==>
              var p := AddIfAbsent(o, s); o.Keys <= p.Keys && Applied(p, a + [s]) && All(p, all) == All(o, all)
  {
    AllSkips(o, a, [s] + b);
    AddGrows(o, s);
    if s.needs <= o.Keys {
      AllStep(o, a, s, b);
    }
  }

  /** The statements of a file, between those before and after it. */
  lemma {:induction false} ExecKeeps(db: Db, schema: string, f: File, k: nat, env: Env, before: seq<Stmt>, after: seq<Stmt>)
    requires k <= |f.body| && Applied(db.objects, before + f.body[..k])
    ensures var (t, ok) := ExecFrom(db, schema, f, k, env);
            t.recorded == db.recorded && Progress(db, t, ok, env, before + f.body, before + (f.body + after))
    decreases |f.body| - k
  {
    var all := before + (f.body + after);
    if k == |f.body| {
      assert f.body[..k] == f.body;
    } else {
      var a, s, b := before + f.body[..k], f.body[k], f.body[k+1..] + after;
      Sequences.Around(before, f.body, after, k);
      StepKeeps(db.objects, a, s, b, all);
      if s.needs <= db.objects.Keys && env(Exec(schema, f.version, k)).Done? {
        var next := db.(objects := AddIfAbsent(db.objects, s));
        ExecKeeps(next, schema, f, k + 1, env, before, after);
        var (t, ok) := ExecFrom(next, schema, f, k + 1, env);
        ProgressTrans(db, next, t, ok, env, before + f.body, all);
      }
    }
  }

  lemma VersionsPrefix(files: seq<File>, i: nat, j: nat)
    requires i < |files| && j <= |files| && Distinct(files)
    ensures files[i].version in Versions(files[..j]) <==> i < j
    ensures Versions(files[..i+1]) == Versions(files[..i]) + {files[i].version}
  {
    if i < j {
      assert files[..j][i] == files[i];
    }
    assert files[..i+1] == files[..i] + [files[i]];
  }

  lemma RegroupFile(p: seq<Stmt>, a: seq<Stmt>, f: seq<Stmt>, b: seq<Stmt>, q: seq<Stmt>)
    ensures (p + a) + (f + (b + q)) == p + ((a + (f + b)) + q)
    ensures (p + a) + f == p + (a + f)
  {
    Sequences.Assoc(f, b, q);
    Sequences.Assoc(a, f + b, q);
    Sequences.Assoc(p, a, (f + b) + q);
    Sequences.Assoc(p, a, f);
  }

  /** File i of a service whose first j versions are recorded, i <= j. */
  lemma FileKeeps(db: Db, schema: string, files: seq<File>, i: nat, j: nat, env: Env, before: seq<Stmt>, after: seq<Stmt>) returns (j': nat)
    requires i < |files| && i <= j && Distinct(files) && PrefixAt(db, schema, files, j)
    requires Applied(db.objects, before + Bodies(files[..i]))
    ensures var (t, ok) := RunFile(db, schema, files[i], env);
            && Progress(db, t, ok, env, before + Bodies(files[..i+1]), before + (Bodies(files) + after))
            && PrefixAt(t, schema, files, j') && j <= j' && (ok ==> i < j')
            && t.recorded == db.recorded[schema := t.recorded[schema]]
  {
    var f := files[i];
    var (t, ok) := RunFile(db, schema, f, env);
    BodiesSplit(files, i);
    VersionsPrefix(files, i, j);
    var pre, post := before + Bodies(files[..i]), Bodies(files[i+1..]) + after;
    RegroupFile(before, Bodies(files[..i]), f.body, Bodies(files[i+1..]), after);
    j' := j;
    if env(Check(schema, f.version)).Done? && f.version in db.recorded[schema] {
      assert files[..j][i] == f;
      BodyIn(files[..j], i);
      assert Applied(db.objects, f.body);
      assert db.recorded[schema := db.recorded[schema]] == db.recorded;
    } else {
      ExecKeeps(db, schema, f, 0, env, pre, post);
      var (next, done) := ExecFrom(db, schema, f, 0, env);
      PrefixGrows(db, next, schema, files, j);
      assert db.recorded[schema := db.recorded[schema]] == db.recorded;
      if done && i == j && env(Record(schema, f.version)).Effective() {
        j' := j + 1;
        assert Applied(t.objects, Bodies(files[..j'])) by {
          assert forall s :: s in Bodies(files[..j']) ==> s in pre + f.body;
        }
      }
    }
  }

  /** The files of a service from file i on. */
  lemma {:induction false} FilesKeep(db: Db, schema: string, files: seq<File>, i: nat, j: nat, env: Env, before: seq<Stmt>, after: seq<Stmt>) returns (j': nat)
    requires i <= |files| && i <= j && Distinct(files) && PrefixAt(db, schema, files, j)
    requires Applied(db.objects, before + Bodies(files[..i]))
    ensures var (t, ok) := RunFiles(db, schema, files, i, env);
            && Progress(db, t, ok, env, before + Bodies(files), before + (Bodies(files) + after))
            && PrefixAt(t, schema, files, j') && (ok ==> j' == |files|)
            && t.recorded == db.recorded[schema := t.recorded[schema]]
    decreases |files| - i
  {
    if i == |files| {
      assert files[..i] == files;
      j' := j;
      AllSkips(db.objects, before + Bodies(files), after);
      assert db.recorded[schema := db.recorded[schema]] == db.recorded;
    } else {
      j' := FileKeeps(db, schema, files, i, j, env, before, after);
      var (next, ok) := RunFile(db, schema, files[i], env);
      if ok {
        j' := FilesKeep(next, schema, files, i + 1, j', env, before, after);
      }
    }
  }

  lemma {:induction false} StatementsConcat(a: seq<Service>, b: seq<Service>)
    ensures Statements(a + b) == Statements(a) + Statements(b)
    decreases |b|
  {
    if b == [] {
      assert a + b == a;
    } else {
      assert (a + b)[..|a + b|-1] == a + b[..|b|-1];
      StatementsConcat(a, b[..|b|-1]);
    }
  }

  function Own(s: Service): seq<Stmt> {
    if s.files.Some? then Bodies(s.files.value) else []
  }

  lemma StatementsAround(a: seq<Service>, s: Service, c: seq<Service>)
    ensures Statements(a + [s]) == Statements(a) + Own(s)
    ensures Statements(a + [s] + c) == Statements(a) + (Own(s) + Statements(c))
  {
    assert (a + [s])[..|a|] == a;
    StatementsConcat(a + [s], c);
    Sequences.Assoc(Statements(a), Own(s), Statements(c));
  }

  lemma StatementsSplit(plan: seq<Service>, i: nat)
    requires i < |plan|
    ensures Statements(plan) == Statements(plan[..i]) + (Own(plan[i]) + Statements(plan[i+1..]))
    ensures Statements(plan[..i+1]) == Statements(plan[..i]) + Own(plan[i])
  {
    StatementsAround(plan[..i], plan[i], plan[i+1..]);
    Sequences.SplitAt(plan, i);
  }

  /** All versions of the service are recorded. */
  ghost predicate Recorded(db: Db, s: Service) {
    s.files.Some? ==> s.schema in db.recorded && db.recorded[s.schema] == Versions(s.files.value)
  }

  lemma ServiceKeeps(db: Db, s: Service, env: Env, before: seq<Stmt>, after: seq<Stmt>)
    requires ServiceOk(db, s) && (s.files.Some? ==> Distinct(s.files.value)) && Applied(db.objects, before)
    ensures var (t, ok) := RunService(db, s, env);
            && Progress(db, t, ok, env, before + Own(s), before + (Own(s) + after))
            && ServiceOk(t, s) && (ok ==> Recorded(t, s))
            && (forall q :: q != s.schema ==> (q in t.recorded <==> q in db.recorded) && (q in db.recorded ==> t.recorded[q] == db.recorded[q]))
  {
    if s.files.None? {
      assert before + Own(s) == before;
    } else {
      var files := s.files.value;
      var o := env(Tracking(s.schema));
      var m := CreateTracking(db, s.schema);
      var j: nat := 0;
      if s.schema in db.recorded {
        j :| PrefixAt(db, s.schema, files, j);
      } else {
        assert files[..0] == [] && Versions([]) == {};
        assert PrefixAt(m, s.schema, files, 0);
      }
      if o.Done? {
        assert Bodies(files[..0]) == [] && before + [] == before;
        var j' := FilesKeep(m, s.schema, files, 0, j, env, before, after);
        assert files[..|files|] == files;
      }
    }
  }

  lemma ServiceOkGrows(a: Db, b: Db, s: Service)
    requires ServiceOk(a, s) && Grows(a, b)
    requires s.schema in b.recorded <==> s.schema in a.recorded
    requires s.schema in a.recorded ==> b.recorded[s.schema] == a.recorded[s.schema]
    ensures ServiceOk(b, s)
  {
    if s.files.Some? && s.schema in a.recorded {
      var j :| PrefixAt(a, s.schema, s.files.value, j);
      PrefixGrows(a, b, s.schema, s.files.value, j);
    }
  }

  /** The recorded tables of schemas outside the plan's services from i on. */
  ghost predicate SameElsewhere(db: Db, t: Db, plan: seq<Service>, i: nat)
    requires i <= |plan|
  {
    forall q :: (forall k :: i <= k < |plan| && plan[k].files.Some? ==> plan[k].schema != q) ==>
      (q in t.recorded <==> q in db.recorded) && (q in db.recorded ==> t.recorded[q] == db.recorded[q])
  }

  /** One start of the script, from service i on. */
  lemma {:induction false} PlanKeeps(db: Db, plan: seq<Service>, i: nat, env: Env)
    requires i <= |plan| && WellFormed(plan) && Consistent(db, plan) && Applied(db.objects, Statements(plan[..i]))
    requires forall k :: 0 <= k < i ==> Recorded(db, plan[k])
    ensures var (t, ok) := RunFrom(db, plan, i, env);
            && Progress(db, t, ok, env, Statements(plan), Statements(plan)) && Consistent(t, plan)
            && (ok ==> forall s :: s in plan ==> Recorded(t, s))
            && SameElsewhere(db, t, plan, i)
    decreases |plan| - i
  {
    if i == |plan| {
      assert plan[..i] == plan;
    } else {
      var s := plan[i];
      StatementsSplit(plan, i);
      ServiceKeeps(db, s, env, Statements(plan[..i]), Statements(plan[i+1..]));
      var (next, ok) := RunService(db, s, env);
      forall k | 0 <= k < |plan| ensures ServiceOk(next, plan[k]) {
        if k != i { ServiceOkGrows(db, next, plan[k]); }
      }
      if ok {
        PlanKeeps(next, plan, i + 1, env);
        var (t, done) := RunFrom(next, plan, i + 1, env);
        ProgressTrans(db, next, t, done, env, Statements(plan), Statements(plan));
      }
    }
  }

  // ---------------------------------------------------------------- theorems

  /** Started from a consistent database and stopped anywhere, the script leaves
      every recorded version fully applied and, per schema, the recorded versions
      a prefix of the sorted file list; and it does not change where the
      statements lead. If nothing fails and the statements' needs are met, it
      ends there with every version recorded. */
  lemma OneStart(db: Db, plan: seq<Service>, env: Env)
    requires WellFormed(plan) && Consistent(db, plan)
    ensures var (t, ok) := Run(db, plan, env);
            && Consistent(t, plan) && All(t.objects, Statements(plan)) == All(db.objects, Statements(plan))
            && (Calm(env) || ok ==> (t.objects, ok) == All(db.objects, Statements(plan)))
            && (ok ==> forall s :: s in plan ==> Recorded(t, s))
            && SameElsewhere(db, t, plan, 0)
  {
    assert plan[..0] == [];
    PlanKeeps(db, plan, 0, env);
    var (t, ok) := Run(db, plan, env);
    if ok {
      AllSkips(t.objects, Statements(plan), []);
      assert Statements(plan) + [] == Statements(plan);
    }
  }

  lemma {:induction false} RestartsKeep(db: Db, plan: seq<Service>, envs: seq<Env>)
    requires WellFormed(plan) && Consistent(db, plan)
    ensures var t := Restarts(db, plan, envs);
            Consistent(t, plan) && All(t.objects, Statements(plan)) == All(db.objects, Statements(plan))
            && SameElsewhere(db, t, plan, 0)
    decreases |envs|
  {
    if envs != [] {
      OneStart(db, plan, envs[0]);
      RestartsKeep(Run(db, plan, envs[0]).0, plan, envs[1..]);
    }
  }

  /** Crash-restart convergence: stopped at any statement, restarted any number of
      times and finally left alone, the script ends with the same objects and the
      same verdict as one undisturbed run, and if that succeeds with the same
      recorded versions. */
  lemma CrashRestartConverges(db: Db, plan: seq<Service>, envs: seq<Env>, calm: Env)
    requires WellFormed(plan) && Consistent(db, plan) && Calm(calm)
    ensures var once, last := Run(db, plan, calm), Run(Restarts(db, plan, envs), plan, calm);
            && last.1 == once.1 && last.0.objects == once.0.objects
            && (once.1 ==> last.0 == once.0)
  {
    RestartsKeep(db, plan, envs);
    var m := Restarts(db, plan, envs);
    OneStart(db, plan, calm);
    OneStart(m, plan, calm);
    var a, b := Run(db, plan, calm), Run(m, plan, calm);
    if a.1 {
      forall q ensures (q in a.0.recorded <==> q in b.0.recorded) && (q in a.0.recorded ==> a.0.recorded[q] == b.0.recorded[q]) {
        if k :| 0 <= k < |plan| && plan[k].files.Some? && plan[k].schema == q {
          assert Recorded(a.0, plan[k]) && Recorded(b.0, plan[k]);
        }
      }
      assert a.0.recorded == b.0.recorded;
    }
  }

  /** A database where nothing is recorded yet is consistent. */
  lemma FreshIsConsistent(db: Db, plan: seq<Service>)
    requires db.recorded == map[]
    ensures Consistent(db, plan)
  {
  }
}
