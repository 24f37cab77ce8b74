/** The database manager: which columns of a record reach PostgreSQL, how the
    rows are cut into batches, the text of the upsert statement, which schema
    statements are sent to BigQuery, and the counts each operation returns.
    The PostgreSQL cursor is a sink that records what it receives; the BigQuery
    client records the queries and loads it is asked for. Rows the databases
    accept or reject, and the errors they raise, are not part of this model. */
module Database {
  import opened Common
  import opened Values
  import opened Seqs
  import opened Config

  // ---------------------------------------------------------------------------
  // Column filtering: `{k: v for k, v in record.items() if k in valid_columns}`

  function FilterColumns(r: Record, valid: set<string>): (f: Record)
    ensures |f| <= |r|
    ensures forall i :: 0 <= i < |f| ==> f[i].0 in valid
  {
    if r == [] then []
    else (if r[0].0 in valid then [r[0]] else []) + FilterColumns(r[1..], valid)
  }

  /** A filtered record has exactly the valid keys of the original, with the
      original values. */
  lemma {:induction false} FilterColumnsLookup(r: Record, valid: set<string>, k: string)
    ensures Lookup(FilterColumns(r, valid), k) == if k in valid then Lookup(r, k) else None
  {
    if r != [] {
      FilterColumnsLookup(r[1..], valid, k);
      if r[0].0 in valid {
        assert FilterColumns(r, valid) == [r[0]] + FilterColumns(r[1..], valid);
        assert FilterColumns(r, valid)[1..] == FilterColumns(r[1..], valid);
      } else {
        assert FilterColumns(r, valid) == FilterColumns(r[1..], valid);
      }
    }
  }

  /** Filtering keeps a dict a dict: no key repeats. */
  lemma {:induction false} FilterColumnsIsDict(r: Record, valid: set<string>)
    requires IsDict(r)
    ensures IsDict(FilterColumns(r, valid))
    ensures forall i :: 0 <= i < |FilterColumns(r, valid)| ==> Has(r, FilterColumns(r, valid)[i].0)
  {
    if r != [] {
      assert IsDict(r[1..]) by {
        forall i, j | 0 <= i < j < |r[1..]| ensures r[1..][i].0 != r[1..][j].0 {
          assert r[1..][i] == r[i + 1] && r[1..][j] == r[j + 1];
        }
      }
      FilterColumnsIsDict(r[1..], valid);
      var rest := FilterColumns(r[1..], valid);
      forall i | 0 <= i < |rest| ensures rest[i].0 != r[0].0 && Has(r, rest[i].0) {
        var k := rest[i].0;
        FilterColumnsLookup(r[1..], valid, k);
        LookupFindsKey(rest, k);
        LookupFindsKey(r[1..], k);
        var j :| 0 <= j < |r[1..]| && r[1..][j].0 == k;
        assert r[j + 1].0 == k;
        LookupFindsKey(r, k);
      }
      if r[0].0 in valid {
        assert FilterColumns(r, valid) == [r[0]] + rest;
      } else {
        assert FilterColumns(r, valid) == rest;
      }
    }
  }

  /** The keys of a dict in insertion order, `list(d.keys())`. */
  function Keys(r: Record): (ks: seq<string>)
    ensures |ks| == |r|
    ensures forall i :: 0 <= i < |r| ==> ks[i] == r[i].0
  {
    seq(|r|, i requires 0 <= i < |r| => r[i].0)
  }

  /** `[record.get(col) for col in columns]` */
  function RowValues(r: Record, columns: seq<string>): seq<Value> {
    seq(|columns|, i requires 0 <= i < |columns| => Get(r, columns[i]))
  }

  function Rows(records: seq<Record>, columns: seq<string>): (rows: seq<seq<Value>>)
    ensures |rows| == |records|
  {
    seq(|records|, i requires 0 <= i < |records| => RowValues(records[i], columns))
  }

  lemma RowsAppend(a: seq<Record>, b: seq<Record>, columns: seq<string>)
    ensures Rows(a + b, columns) == Rows(a, columns) + Rows(b, columns)
  {
    assert forall i :: 0 <= i < |a + b| ==> Rows(a + b, columns)[i] == (Rows(a, columns) + Rows(b, columns))[i];
  }

  /** A column the first record has and a later record lacks is sent as `None`. */
  lemma MissingColumnIsNull(r: Record, columns: seq<string>, i: nat)
    requires i < |columns| && !Has(r, columns[i])
    ensures RowValues(r, columns)[i] == Null
  {
  }

  // ---------------------------------------------------------------------------
  // Batching: `for i in range(0, len(filtered_data), batch_size)`

  /** `batch_size or config.pipeline.batch_size`: `None` and `0` fall back to the
      configured batch size, which may itself be 0 or negative. */
  function EffectiveBatchSize(batchSize: Option<int>, cfg: PipelineConfig): (n: int)
    ensures batchSize.None? || batchSize == Some(0) ==> n == cfg.batchSize
    ensures batchSize.Some? && batchSize.value != 0 ==> n == batchSize.value
    ensures n == 0 ==> cfg.batchSize == 0
  {
    if batchSize.None? || batchSize.value == 0 then cfg.batchSize else batchSize.value
  }

  /** The `ValueError` of `range(0, len(filtered_data), 0)`. */
  const ZeroStepError := "range() arg 3 must not be zero"

  /** The slices `xs[i:i + n]` for `i` in `range(0, len(xs), n)`. */
  function Chunks<T>(xs: seq<T>, n: nat): seq<seq<T>>
    requires n > 0
    decreases |xs|
  {
    if xs == [] then []
    else
      var k := if |xs| < n then |xs| else n;
      [xs[..k]] + Chunks(xs[k..], n)
  }

  function Flatten<T>(c: seq<seq<T>>): seq<T> {
    if c == [] then [] else c[0] + Flatten(c[1..])
  }

  /** The batches are consecutive: together they are the whole list, each holds
      `n` records except that the last may hold fewer, and none is empty. */
  lemma {:induction false} ChunksPartition<T>(xs: seq<T>, n: nat)
    requires n > 0
    ensures Flatten(Chunks(xs, n)) == xs
    ensures forall i :: 0 <= i < |Chunks(xs, n)| ==> 1 <= |Chunks(xs, n)[i]| <= n
    ensures forall i :: 0 <= i < |Chunks(xs, n)| - 1 ==> |Chunks(xs, n)[i]| == n
  {
    if xs != [] {
      var k := if |xs| < n then |xs| else n;
      var c := Chunks(xs, n);
      var rest := Chunks(xs[k..], n);
      ChunksPartition(xs[k..], n);
      assert c == [xs[..k]] + rest;
      assert c[1..] == rest;
      assert Flatten(c) == xs[..k] + Flatten(rest);
      assert xs[..k] + xs[k..] == xs;
      forall i | 0 <= i < |c| ensures 1 <= |c[i]| <= n {
        if i > 0 { assert c[i] == rest[i - 1]; }
      }
      forall i | 0 <= i < |c| - 1 ensures |c[i]| == n {
        if i > 0 { assert c[i] == rest[i - 1]; }
        else if rest == [] { assert false; }
        else { assert xs[k..] != []; }
      }
    }
  }

  /** One `executemany` call: the statement text and its rows of parameters. */
  datatype Execution = Execution(sql: string, rows: seq<seq<Value>>)

  function Placeholders(n: nat): string {
    Join(seq(n, _ => "%s"), ", ")
  }

  function InsertSql(table: string, columns: seq<string>): string {
    "INSERT INTO " + table + " (" + Join(columns, ", ") + ") VALUES (" + Placeholders(|columns|)
    + ") ON CONFLICT DO NOTHING"
  }

  function BatchExecutions(table: string, columns: seq<string>, batches: seq<seq<Record>>): (e: seq<Execution>)
    ensures |e| == |batches|
  {
    if batches == [] then []
    else [Execution(InsertSql(table, columns), Rows(batches[0], columns))]
         + BatchExecutions(table, columns, batches[1..])
  }

  /** The columns of the first filtered record name every row's values. */
  function InsertExecutions(table: string, filtered: seq<Record>, batchSize: int): seq<Execution> {
    if batchSize <= 0 || filtered == [] then []
    else BatchExecutions(table, Keys(filtered[0]), Chunks(filtered, batchSize))
  }

  function RowsSent(e: seq<Execution>): seq<seq<Value>> {
    if e == [] then [] else e[0].rows + RowsSent(e[1..])
  }

  lemma {:induction false} BatchExecutionsRows(table: string, columns: seq<string>, batches: seq<seq<Record>>)
    ensures RowsSent(BatchExecutions(table, columns, batches)) == Rows(Flatten(batches), columns)
  {
    if batches != [] {
      var e := BatchExecutions(table, columns, batches);
      BatchExecutionsRows(table, columns, batches[1..]);
      assert e[1..] == BatchExecutions(table, columns, batches[1..]);
      RowsAppend(batches[0], Flatten(batches[1..]), columns);
    }
  }

  /** The batch that starts at `i` is the first chunk of the rest of the list. */
  lemma ChunksUnfold<T>(xs: seq<T>, i: nat, n: nat)
    requires i < |xs| && n > 0
    ensures var k := if |xs| - i < n then |xs| - i else n;
      Chunks(xs[i..], n) == [xs[i..i + k]] + Chunks(xs[i + k..], n)
  {
    var k := if |xs| - i < n then |xs| - i else n;
    assert xs[i..][..k] == xs[i..i + k];
    assert xs[i..][k..] == xs[i + k..];
  }

  /** Sending the batch at `i` moves it from the pending batches to the sent ones. */
  lemma SendStep(table: string, columns: seq<string>, xs: seq<Record>, i: nat, k: nat, n: nat,
                 sent: seq<Execution>, total: seq<Execution>)
    requires i < |xs| && n > 0 && k == if |xs| - i < n then |xs| - i else n
    requires sent + BatchExecutions(table, columns, Chunks(xs[i..], n)) == total
    ensures (sent + [Execution(InsertSql(table, columns), Rows(xs[i..i + k], columns))])
      + BatchExecutions(table, columns, Chunks(xs[i + k..], n)) == total
  {
    ChunksUnfold(xs, i, n);
    BatchExecutionsCons(table, columns, xs[i..i + k], Chunks(xs[i + k..], n));
    AppendAssoc(sent, [Execution(InsertSql(table, columns), Rows(xs[i..i + k], columns))],
                BatchExecutions(table, columns, Chunks(xs[i + k..], n)));
  }

  /** Once every record is sent, nothing is pending. */
  lemma NothingPending(table: string, columns: seq<string>, xs: seq<Record>, n: nat, sent: seq<Execution>)
    requires n > 0
    ensures sent + BatchExecutions(table, columns, Chunks(xs[|xs|..], n)) == sent
  {
    assert xs[|xs|..] == [];
  }

  lemma BatchExecutionsCons(table: string, columns: seq<string>, batch: seq<Record>, rest: seq<seq<Record>>)
    ensures BatchExecutions(table, columns, [batch] + rest) ==
      [Execution(InsertSql(table, columns), Rows(batch, columns))] + BatchExecutions(table, columns, rest)
  {
    assert ([batch] + rest)[1..] == rest;
  }

  /** Every record is sent exactly once and in order, as the values of the first
      record's columns. */
  lemma InsertSendsEveryRowOnce(table: string, filtered: seq<Record>, batchSize: int)
    requires batchSize > 0 && filtered != []
    ensures RowsSent(InsertExecutions(table, filtered, batchSize)) == Rows(filtered, Keys(filtered[0]))
    ensures forall i :: 0 <= i < |InsertExecutions(table, filtered, batchSize)| ==>
      InsertExecutions(table, filtered, batchSize)[i].sql == InsertSql(table, Keys(filtered[0]))
  {
    var columns := Keys(filtered[0]);
    BatchExecutionsRows(table, columns, Chunks(filtered, batchSize));
    ChunksPartition(filtered, batchSize);
    BatchExecutionsSql(table, columns, Chunks(filtered, batchSize));
  }

  lemma {:induction false} BatchExecutionsSql(table: string, columns: seq<string>, batches: seq<seq<Record>>)
    ensures forall i :: 0 <= i < |batches| ==> BatchExecutions(table, columns, batches)[i].sql == InsertSql(table, columns)
  {
    if batches != [] {
      BatchExecutionsSql(table, columns, batches[1..]);
      var e := BatchExecutions(table, columns, batches);
      forall i | 0 <= i < |batches| ensures e[i].sql == InsertSql(table, columns) {
        if i > 0 { assert e[i] == BatchExecutions(table, columns, batches[1..])[i - 1]; }
      }
    }
  }

  // ---------------------------------------------------------------------------
  // upsert_postgres_data

  /** The columns not named in `conflict_columns`, in order. */
  function UpdatedColumns(columns: seq<string>, conflict: seq<string>): (r: seq<string>)
    ensures |r| <= |columns|
  {
    if columns == [] then []
    else (if columns[0] in conflict then [] else [columns[0]]) + UpdatedColumns(columns[1..], conflict)
  }

  lemma {:induction false} UpdatedColumnsMembers(columns: seq<string>, conflict: seq<string>, c: string)
    ensures c in UpdatedColumns(columns, conflict) <==> c in columns && c !in conflict
  {
    if columns != [] {
      UpdatedColumnsMembers(columns[1..], conflict, c);
      assert columns == [columns[0]] + columns[1..];
    }
  }

  /** Appending a column appends it to the update list when it is not a conflict column. */
  lemma {:induction false} UpdatedColumnsAppend(a: seq<string>, b: seq<string>, conflict: seq<string>)
    ensures UpdatedColumns(a + b, conflict) == UpdatedColumns(a, conflict) + UpdatedColumns(b, conflict)
  {
    if a != [] {
      assert (a + b)[1..] == a[1..] + b;
      UpdatedColumnsAppend(a[1..], b, conflict);
    } else {
      assert a + b == b;
    }
  }

  /** `[f"{col} = EXCLUDED.{col}" for col in columns if col not in conflict_columns]` */
  function SetItems(columns: seq<string>, conflict: seq<string>): (items: seq<string>)
    ensures |items| == |UpdatedColumns(columns, conflict)|
    ensures forall i :: 0 <= i < |items| ==>
      items[i] == UpdatedColumns(columns, conflict)[i] + " = EXCLUDED." + UpdatedColumns(columns, conflict)[i]
  {
    var u := UpdatedColumns(columns, conflict);
    seq(|u|, i requires 0 <= i < |u| => u[i] + " = EXCLUDED." + u[i])
  }

  function UpsertSql(table: string, columns: seq<string>, conflict: seq<string>): string {
    "INSERT INTO " + table + " (" + Join(columns, ", ") + ") VALUES (" + Placeholders(|columns|)
    + ") ON CONFLICT (" + Join(conflict, ", ") + ") DO UPDATE SET " + Join(SetItems(columns, conflict), ", ")
  }

  /** With no conflict columns every column is updated; a conflict column never is. */
  lemma SetClauseCovers(columns: seq<string>, conflict: seq<string>)
    ensures conflict == [] ==> UpdatedColumns(columns, conflict) == columns
    ensures forall c :: c in conflict ==> c !in UpdatedColumns(columns, conflict)
  {
    forall c | c in conflict ensures c !in UpdatedColumns(columns, conflict) {
      UpdatedColumnsMembers(columns, conflict, c);
    }
    if conflict == [] {
      NoConflictKeepsAll(columns);
    }
  }

  lemma {:induction false} NoConflictKeepsAll(columns: seq<string>)
    ensures UpdatedColumns(columns, []) == columns
  {
    if columns != [] {
      NoConflictKeepsAll(columns[1..]);
      assert columns == [columns[0]] + columns[1..];
    }
  }

  // ---------------------------------------------------------------------------
  // Schema statements: `[stmt.strip() for stmt in schema_sql.split(';') if stmt.strip()]`

  function NonEmptyStripped(piece: string): Option<string> {
    if Strip(piece) == "" then None else Some(Strip(piece))
  }

  function Statements(schema: string): seq<string> {
    FilterMap(Split(schema, ';'), NonEmptyStripped)
  }

  /** Stripping a piece adds no character to it. */
  lemma StripKeeps(p: string, c: char)
    requires c !in p
    ensures c !in Strip(p)
  {
    StripSlice(p);
    var a, b :| 0 <= a <= b <= |p| && Strip(p) == p[a..b];
    forall k | 0 <= k < b - a ensures p[a..b][k] != c {
      assert p[a..b][k] == p[a + k];
    }
  }

  /** Each statement is non-empty, holds no `;` and has no surrounding white space. */
  lemma StatementsWellFormed(schema: string)
    ensures forall i :: 0 <= i < |Statements(schema)| ==>
      var st := Statements(schema)[i];
      st != "" && ';' !in st && !IsSpace(st[0]) && !IsSpace(st[|st| - 1])
  {
    var parts := Split(schema, ';');
    FilterMapSelection(parts, NonEmptyStripped);
    forall i | 0 <= i < |Statements(schema)|
      ensures var st := Statements(schema)[i];
        st != "" && ';' !in st && !IsSpace(st[0]) && !IsSpace(st[|st| - 1])
    {
      var j := Kept(parts, NonEmptyStripped)[i];
      StripKeeps(parts[j], ';');
      assert NonEmptyStripped(parts[j]) == Some(Statements(schema)[i]);
    }
  }

  /** `statement.upper().startswith('CREATE TABLE')` */
  function CreateTableOnly(statement: string): Option<string> {
    if StartsWith(Upper(statement), "CREATE TABLE") then Some(statement) else None
  }

  function CreateTableStatements(schema: string): seq<string> {
    FilterMap(Statements(schema), CreateTableOnly)
  }

  /** Only `CREATE TABLE` statements are sent, in schema order, whatever their letter case. */
  lemma CreateTableStatementsSelect(schema: string)
    ensures forall i :: 0 <= i < |CreateTableStatements(schema)| ==>
      StartsWith(Upper(CreateTableStatements(schema)[i]), "CREATE TABLE")
      && CreateTableStatements(schema)[i] in Statements(schema)
    ensures forall st :: st in Statements(schema) && StartsWith(Upper(st), "CREATE TABLE") ==>
      st in CreateTableStatements(schema)
  {
    FilterMapMembers(Statements(schema), CreateTableOnly);
  }

  // ---------------------------------------------------------------------------
  // get_table_count

  /** A query's rows, or the exception it raises. */
  type QueryRunner = string -> Result<seq<Record>>

  /** `results[0]['count'] if results else 0` under the `except` that turns a
      failing query or a missing `count` key into 0. */
  function CountIn(rows: Result<seq<Record>>): (c: Value)
    ensures rows.Ok? && rows.value != [] && Lookup(rows.value[0], "count").Some? ==>
      c == Lookup(rows.value[0], "count").value
    ensures !(rows.Ok? && rows.value != [] && Lookup(rows.value[0], "count").Some?) ==> c == Int(0)
  {
    match rows
    case Err(_) => Int(0)
    case Ok(rs) =>
      if rs == [] then Int(0)
      else match Lookup(rs[0], "count")
        case None => Int(0)
        case Some(v) => v
  }

  function CountQuery(table: string, database: string, bq: BigQueryConfig): (q: Option<string>)
    ensures q.Some? <==> database == "postgres" || database == "bigquery"
  {
    if database == "postgres" then Some("SELECT COUNT(*) as count FROM " + table)
    else if database == "bigquery" then
      Some("SELECT COUNT(*) as count FROM `" + bq.DatasetReference() + "." + table + "`")
    else None
  }

  /** The statement loop of `create_bigquery_tables`: the `CREATE TABLE`
      statements, in schema order. */
  method SelectCreateTables(statements: seq<string>) returns (jobs: seq<string>)
    ensures jobs == FilterMap(statements, CreateTableOnly)
  {
    jobs := [];
    var i := 0;
    while i < |statements|
      invariant 0 <= i <= |statements|
      invariant jobs == FilterMap(statements[..i], CreateTableOnly)
    {
      FilterMapStep(statements, CreateTableOnly, i);
      if StartsWith(Upper(statements[i]), "CREATE TABLE") {
        jobs := jobs + [statements[i]];
      }
      i := i + 1;
    }
    assert statements[..i] == statements;
  }

  /** The filtering loop of `insert_postgres_data`: one filtered record per record. */
  method FilterRecords(data: seq<Record>, valid: set<string>) returns (filtered: seq<Record>)
    ensures filtered == FilterAll(data, valid)
  {
    filtered := [];
    var i := 0;
    while i < |data|
      invariant 0 <= i <= |data|
      invariant filtered == FilterAll(data[..i], valid)
    {
      filtered := filtered + [FilterColumns(data[i], valid)];
      i := i + 1;
      assert filtered == FilterAll(data[..i], valid);
    }
    assert data[..i] == data;
  }

  /** `[[record.get(col) for col in columns] for record in records]`, built row by row. */
  method BatchRows(records: seq<Record>, columns: seq<string>) returns (rows: seq<seq<Value>>)
    ensures rows == Rows(records, columns)
  {
    rows := [];
    var j := 0;
    while j < |records|
      invariant 0 <= j <= |records|
      invariant rows == Rows(records[..j], columns)
    {
      rows := rows + [RowValues(records[j], columns)];
      j := j + 1;
      assert rows == Rows(records[..j], columns);
    }
    assert records[..j] == records;
  }

  // ---------------------------------------------------------------------------
  // DatabaseManager

  class DatabaseManager {
    /** A PostgreSQL connection that is open. */
    var postgresOpen: bool
    /** `bigquery_client is not None` */
    var bigqueryConnected: bool
    /** Every `executemany` the PostgreSQL cursor received, in order. */
    var executions: seq<Execution>
    /** The queries sent to the BigQuery client. */
    var bigqueryJobs: seq<string>
    /** The BigQuery table loads: table name and number of rows. */
    var bigqueryLoads: seq<(string, nat)>

    /** `_initialize_connections`: PostgreSQL connects; BigQuery only when its
        library is installed and the client can be built. */
    constructor (bigqueryAvailable: bool)
      ensures postgresOpen && bigqueryConnected == bigqueryAvailable
      ensures executions == [] && bigqueryJobs == [] && bigqueryLoads == []
    {
      postgresOpen := true;
      bigqueryConnected := bigqueryAvailable;
      executions := [];
      bigqueryJobs := [];
      bigqueryLoads := [];
    }

    /** `insert_postgres_data` with the table's columns `valid`: an empty list
        returns 0 without opening a cursor; otherwise the filtered records go out
        in slices of the batch size, and the count is every record, or none when
        a negative batch size makes the range empty. A batch size of 0 makes
        `range` raise, and the error is re-raised after the rollback. */
    method InsertPostgresData(table: string, data: seq<Record>, batchSize: Option<int>,
                              cfg: PipelineConfig, valid: set<string>)
      returns (r: Result<int>)
      modifies this
      ensures data == [] ==> r == Ok(0) && executions == old(executions) && postgresOpen == old(postgresOpen)
      ensures data != [] ==> postgresOpen
      ensures data != [] ==> r == (var n := EffectiveBatchSize(batchSize, cfg);
        if n > 0 then Ok(|data|) else if n == 0 then Err(ZeroStepError) else Ok(0))
      ensures executions == old(executions) +
        InsertExecutions(table, FilterAll(data, valid), EffectiveBatchSize(batchSize, cfg))
      ensures bigqueryConnected == old(bigqueryConnected) && bigqueryJobs == old(bigqueryJobs)
      ensures bigqueryLoads == old(bigqueryLoads)
    {
      if data == [] {
        return Ok(0);
      }
      var n := EffectiveBatchSize(batchSize, cfg);
      postgresOpen := true;
      var filtered := FilterRecords(data, valid);
      if n == 0 {
        return Err(ZeroStepError);
      }
      if n < 0 {
        return Ok(0);
      }
      var inserted := SendBatches(table, filtered, n);
      r := Ok(inserted);
    }

    /** The batch loop of `insert_postgres_data`: one `executemany` per slice of
        `n` records, each over the first record's columns. */
    method SendBatches(table: string, filtered: seq<Record>, n: int) returns (inserted: int)
      requires filtered != [] && n > 0
      modifies this
      ensures inserted == |filtered|
      ensures executions == old(executions) + InsertExecutions(table, filtered, n)
      ensures postgresOpen == old(postgresOpen) && bigqueryConnected == old(bigqueryConnected)
      ensures bigqueryJobs == old(bigqueryJobs) && bigqueryLoads == old(bigqueryLoads)
    {
      var columns := Keys(filtered[0]);
      inserted := 0;
      var i := 0;
      while i < |filtered|
        invariant 0 <= i <= |filtered|
        invariant inserted == i
        invariant postgresOpen == old(postgresOpen) && bigqueryConnected == old(bigqueryConnected)
        invariant bigqueryJobs == old(bigqueryJobs) && bigqueryLoads == old(bigqueryLoads)
        invariant executions + BatchExecutions(table, columns, Chunks(filtered[i..], n)) ==
          old(executions) + BatchExecutions(table, columns, Chunks(filtered, n))
        decreases |filtered| - i
      {
        var k := if |filtered| - i < n then |filtered| - i else n;
        var batch := filtered[i..i + k];
        var batchValues := BatchRows(batch, columns);
        SendStep(table, columns, filtered, i, k, n, executions,
                 old(executions) + BatchExecutions(table, columns, Chunks(filtered, n)));
        executions := executions + [Execution(InsertSql(table, columns), batchValues)];
        inserted := inserted + |batch|;
        i := i + k;
      }
      NothingPending(table, columns, filtered, n, executions);
    }

    /** `upsert_postgres_data`: 0 for an empty list; otherwise one statement over
        the first record's columns, updating all but the conflict columns. */
    method UpsertPostgresData(table: string, data: seq<Record>, conflictColumns: seq<string>)
      returns (processed: int)
      modifies this
      ensures data == [] ==> processed == 0 && executions == old(executions) && postgresOpen == old(postgresOpen)
      ensures data != [] ==> processed == |data| && postgresOpen
      ensures data != [] ==> (executions == old(executions) +
        [Execution(UpsertSql(table, Keys(data[0]), conflictColumns), Rows(data, Keys(data[0])))])
      ensures bigqueryConnected == old(bigqueryConnected) && bigqueryJobs == old(bigqueryJobs)
      ensures bigqueryLoads == old(bigqueryLoads)
    {
      if data == [] {
        return 0;
      }
      postgresOpen := true;
      var columns := Keys(data[0]);
      var values := BatchRows(data, columns);
      executions := executions + [Execution(UpsertSql(table, columns, conflictColumns), values)];
      processed := |data|;
    }

    /** `create_bigquery_tables` on the text of the schema file: nothing without
        a client; otherwise each `CREATE TABLE` statement is sent in order. */
    method CreateBigqueryTables(schema: string)
      modifies this
      ensures bigqueryJobs == old(bigqueryJobs) + (if old(bigqueryConnected) then CreateTableStatements(schema) else [])
      ensures postgresOpen == old(postgresOpen) && bigqueryConnected == old(bigqueryConnected)
      ensures executions == old(executions) && bigqueryLoads == old(bigqueryLoads)
    {
      if !bigqueryConnected {
        return;
      }
      var statements := Statements(schema);
      var jobs := SelectCreateTables(statements);
      bigqueryJobs := bigqueryJobs + jobs;
    }

    /** `insert_bigquery_data`: 0 without a client or without data, else one load
        of every row. */
    method InsertBigqueryData(table: string, data: seq<Record>) returns (inserted: int)
      modifies this
      ensures !old(bigqueryConnected) || data == [] ==> inserted == 0 && bigqueryLoads == old(bigqueryLoads)
      ensures old(bigqueryConnected) && data != [] ==>
        inserted == |data| && bigqueryLoads == old(bigqueryLoads) + [(table, |data|)]
      ensures postgresOpen == old(postgresOpen) && bigqueryConnected == old(bigqueryConnected)
      ensures executions == old(executions) && bigqueryJobs == old(bigqueryJobs)
    {
      if !bigqueryConnected {
        return 0;
      }
      if data == [] {
        return 0;
      }
      bigqueryLoads := bigqueryLoads + [(table, |data|)];
      inserted := |data|;
    }

    /** `get_table_count`: the `count` of the first row of the count query; any
        error, an empty result, a missing client or an unknown database gives 0. */
    function TableCount(table: string, database: string, bq: BigQueryConfig,
                        queryPostgres: QueryRunner, queryBigquery: QueryRunner): (n: Value)
      reads this
      ensures CountQuery(table, database, bq).None? ==> n == Int(0)
      ensures database == "bigquery" && !bigqueryConnected ==> n == Int(0)
      ensures database == "postgres" ==> n == CountIn(queryPostgres(CountQuery(table, database, bq).value))
      ensures database == "bigquery" && bigqueryConnected ==>
        n == CountIn(queryBigquery(CountQuery(table, database, bq).value))
      ensures database == "postgres" && queryPostgres(CountQuery(table, database, bq).value).Err? ==> n == Int(0)
      ensures database == "postgres" && queryPostgres(CountQuery(table, database, bq).value) == Ok([]) ==> n == Int(0)
      ensures database == "bigquery" && bigqueryConnected && queryBigquery(CountQuery(table, database, bq).value).Err?
        ==> n == Int(0)
      ensures database == "bigquery" && bigqueryConnected && queryBigquery(CountQuery(table, database, bq).value) == Ok([])
        ==> n == Int(0)
    {
      match CountQuery(table, database, bq)
      case None => Int(0)
      case Some(query) =>
        if database == "postgres" then CountIn(queryPostgres(query))
        else if !bigqueryConnected then Int(0)
        else CountIn(queryBigquery(query))
    }

    /** `close_connections` */
    method CloseConnections()
      modifies this
      ensures !postgresOpen && !bigqueryConnected
      ensures executions == old(executions) && bigqueryJobs == old(bigqueryJobs) && bigqueryLoads == old(bigqueryLoads)
    {
      if postgresOpen {
        postgresOpen := false;
      }
      if bigqueryConnected {
        bigqueryConnected := false;
      }
    }
  }

  /** The filtered records, one per input record. */
  function FilterAll(data: seq<Record>, valid: set<string>): (f: seq<Record>)
    ensures |f| == |data|
    ensures forall i :: 0 <= i < |data| ==> f[i] == FilterColumns(data[i], valid)
  {
    seq(|data|, i requires 0 <= i < |data| => FilterColumns(data[i], valid))
  }
}
