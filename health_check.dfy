/** The health check and migration script (backend/db-health-check.js):
    which tables and required columns must exist, which migrations run,
    and when the database is reported healthy. What the database answers
    (the tables present, each table's columns, each migration's check and
    whether its change succeeded) is given as input. */
module HealthCheck {
  import opened Common

  /** A table the schema expects: all its columns, and those it requires. */
  datatype TableSchema = TableSchema(name: string, columns: seq<string>, required: seq<string>)

  /** `EXPECTED_SCHEMA`, in declaration order. */
  const ExpectedSchema: seq<TableSchema> := [
    TableSchema("users",
      ["id", "username", "email", "avatar_url", "created_at", "updated_at"],
      ["id", "username", "created_at", "updated_at"]),
    TableSchema("user_progress",
      ["user_id", "score", "inventory", "position", "avatar", "completed_npcs", "level_index", "updated_at"],
      ["user_id", "score", "inventory", "position", "completed_npcs", "level_index", "updated_at"]),
    TableSchema("task_completions",
      ["id", "user_id", "npc_id", "task_type", "submitted_content", "ai_feedback", "passed", "created_at"],
      ["id", "user_id", "npc_id", "task_type", "submitted_content", "passed", "created_at"])
  ]

  /** The names of `MIGRATIONS`, in the order they are tried. */
  const Migrations: seq<string> := ["add_level_index_to_user_progress", "add_avatar_to_user_progress", "add_score_index"]

  /** `checkTables()`: every expected table is among the existing ones. */
  method CheckTables(existing: seq<string>) returns (allExist: bool)
    ensures allExist <==> forall k :: 0 <= k < |ExpectedSchema| ==> ExpectedSchema[k].name in existing
  {
    allExist := true;
    var i := 0;
    while i < |ExpectedSchema|
      invariant 0 <= i <= |ExpectedSchema|
      invariant allExist <==> forall k :: 0 <= k < i ==> ExpectedSchema[k].name in existing
    {
      if ExpectedSchema[i].name !in existing {
        allExist := false;
      }
      i := i + 1;
    }
  }

  /** `{ table, column, issue: 'missing' }` */
  datatype Issue = Issue(table: string, column: string, issue: string)

  const MissingTag: string := "missing"

  /** The issues one table's required columns raise, in order. */
  function MissingRequired(table: string, required: seq<string>, present: seq<string>): seq<Issue>
  {
    if required == [] then []
    else
      var c := required[|required| - 1];
      MissingRequired(table, required[..|required| - 1], present)
        + (if c in present then [] else [Issue(table, c, MissingTag)])
  }

  /** The issues of a list of tables, table after table. */
  function SchemaIssues(tables: seq<TableSchema>, columns: string -> seq<string>): seq<Issue>
  {
    if tables == [] then []
    else
      var t := tables[|tables| - 1];
      SchemaIssues(tables[..|tables| - 1], columns) + MissingRequired(t.name, t.required, columns(t.name))
  }

  /** `checkSchema()`, where `columns(t)` is the column list the database
      reports for table `t`. Only required columns are checked for
      issues; a missing optional column is only logged. */
  method CheckSchema(columns: string -> seq<string>) returns (issues: seq<Issue>)
    ensures issues == SchemaIssues(ExpectedSchema, columns)
  {
    issues := [];
    var i := 0;
    while i < |ExpectedSchema|
      invariant 0 <= i <= |ExpectedSchema|
      invariant issues == SchemaIssues(ExpectedSchema[..i], columns)
    {
      var schema := ExpectedSchema[i];
      var present := columns(schema.name);
      var j := 0;
      while j < |schema.required|
        invariant 0 <= j <= |schema.required|
        invariant issues == SchemaIssues(ExpectedSchema[..i], columns) + MissingRequired(schema.name, schema.required[..j], present)
      {
        assert schema.required[..j + 1][..j] == schema.required[..j];
        if schema.required[j] !in present {
          issues := issues + [Issue(schema.name, schema.required[j], MissingTag)];
        }
        j := j + 1;
      }
      assert schema.required[..j] == schema.required;
      assert ExpectedSchema[..i + 1][..i] == ExpectedSchema[..i];
      i := i + 1;
    }
    assert ExpectedSchema[..i] == ExpectedSchema;
  }

  /** An issue of one table names a required column the table lacks, and
      every such column raises one. */
  lemma {:induction false} MissingRequiredMeans(table: string, required: seq<string>, present: seq<string>, x: Issue)
    ensures x in MissingRequired(table, required, present) <==>
      x.table == table && x.issue == MissingTag && x.column in required && x.column !in present
  {
    if required != [] {
      var init := required[..|required| - 1];
      MissingRequiredMeans(table, init, present, x);
      assert required == init + [required[|required| - 1]];
    }
  }

  /** The issues are exactly the required columns missing from some
      expected table, each tagged `missing`. */
  lemma {:induction false} SchemaIssuesMeans(tables: seq<TableSchema>, columns: string -> seq<string>, x: Issue)
    ensures x in SchemaIssues(tables, columns) <==>
      exists k :: 0 <= k < |tables| && x.table == tables[k].name && x.issue == MissingTag
        && x.column in tables[k].required && x.column !in columns(tables[k].name)
  {
    if tables != [] {
      var n := |tables| - 1;
      var init := tables[..n];
      SchemaIssuesMeans(init, columns, x);
      MissingRequiredMeans(tables[n].name, tables[n].required, columns(tables[n].name), x);
      assert forall k :: 0 <= k < n ==> init[k] == tables[k];
    }
  }

  /** A missing optional column (`email`, `avatar_url`, `avatar`,
      `ai_feedback`) never raises an issue. */
  lemma OptionalNeverIssues(columns: string -> seq<string>, x: Issue)
    requires x in SchemaIssues(ExpectedSchema, columns)
    ensures x.column !in {"email", "avatar_url", "avatar", "ai_feedback"}
  {
    SchemaIssuesMeans(ExpectedSchema, columns, x);
  }

  /** How many migrations succeeded: those reported not applied whose
      change went through. */
  function Applied(checks: seq<bool>, ups: seq<bool>): (n: nat)
    requires |checks| == |ups|
    ensures n <= |checks|
  {
    if checks == [] then 0
    else Applied(checks[..|checks| - 1], ups[..|ups| - 1]) + (if !checks[|checks| - 1] && ups[|ups| - 1] then 1 else 0)
  }

  /** `runMigrations()`: `checks[k]` is what migration k's check reports
      (already applied) and `ups[k]` whether its change succeeds. A
      change is attempted only for a migration not yet applied; a failing
      change is not counted and does not stop the ones after it. */
  method RunMigrations(checks: seq<bool>, ups: seq<bool>) returns (migrationsRun: nat, attempted: seq<bool>)
    requires |checks| == |Migrations| && |ups| == |Migrations|
    ensures migrationsRun == Applied(checks, ups) && migrationsRun <= |Migrations|
    ensures |attempted| == |Migrations|
    ensures forall k :: 0 <= k < |Migrations| ==> (attempted[k] <==> !checks[k])
  {
    migrationsRun := 0;
    attempted := [];
    var i := 0;
    while i < |Migrations|
      invariant 0 <= i <= |Migrations|
      invariant migrationsRun == Applied(checks[..i], ups[..i])
      invariant |attempted| == i
      invariant forall k :: 0 <= k < i ==> (attempted[k] <==> !checks[k])
    {
      assert checks[..i + 1][..i] == checks[..i] && ups[..i + 1][..i] == ups[..i];
      var alreadyApplied := checks[i];
      if alreadyApplied {
        attempted := attempted + [false];
      } else {
        attempted := attempted + [true];
        if ups[i] {
          migrationsRun := migrationsRun + 1;
        }
      }
      i := i + 1;
    }
    assert checks[..i] == checks && ups[..i] == ups;
  }

  datatype Report =
    | NotConnected                  // exit 1
    | TablesMissing                 // exit 1
    | Healthy(migrationsRun: nat)
    | NeedsAttention(issues: seq<Issue>)

  /** The script's `main()`: a missing credential or a failed connection, then a missing
      table, stop the script; otherwise the migrations run, the schema is
      checked, and the database is reported healthy iff no issue was found
      (the migration count is never negative). The index check and the row
      counts only log. */
  method HealthReport(credentials: bool, connectOk: bool, existing: seq<string>, columns: string -> seq<string>,
                      checks: seq<bool>, ups: seq<bool>) returns (r: Report)
    requires |checks| == |Migrations| && |ups| == |Migrations|
    ensures r.NotConnected? <==> !(credentials && connectOk)
    ensures r.TablesMissing? <==> (credentials && connectOk &&
      !(forall k :: 0 <= k < |ExpectedSchema| ==> ExpectedSchema[k].name in existing))
    ensures r.Healthy? <==> (credentials && connectOk &&
      (forall k :: 0 <= k < |ExpectedSchema| ==> ExpectedSchema[k].name in existing) &&
      SchemaIssues(ExpectedSchema, columns) == [])
    ensures r.Healthy? ==> r.migrationsRun == Applied(checks, ups)
    ensures r.NeedsAttention? ==> r.issues == SchemaIssues(ExpectedSchema, columns) && r.issues != []
  {
    if !(credentials && connectOk) {
      return NotConnected;
    }
    var tablesOk := CheckTables(existing);
    if !tablesOk {
      return TablesMissing;
    }
    var migrationsRun, _ := RunMigrations(checks, ups);
    var issues := CheckSchema(columns);
    if |issues| == 0 && migrationsRun >= 0 {
      r := Healthy(migrationsRun);
    } else {
      r := NeedsAttention(issues);
    }
  }
}
