/** Configuration of the pipeline: the business-rule, data-quality and performance
    constants every other module reads, the connection settings with the two
    strings derived from them, and the start-up check of required variables. */
module Config {
  import opened Common

  // ---------------------------------------------------------------------------
  // BUSINESS_RULES

  const MinTransactionAmount: real := 0.01
  const MaxTransactionAmount: real := 100000.0
  const ValidCurrencies: seq<string> := ["USD", "EUR", "GBP", "CAD"]
  const ValidPaymentMethods: seq<string> :=
    ["credit_card", "debit_card", "paypal", "apple_pay", "google_pay"]
  const ValidStatuses: seq<string> := ["pending", "completed", "failed", "refunded", "cancelled"]
  const HighValueThreshold: real := 500.0

  /** The high-value threshold lies strictly inside the accepted amount range. */
  lemma AmountBoundsOrdered()
    ensures MinTransactionAmount < HighValueThreshold < MaxTransactionAmount
  {
  }

  // ---------------------------------------------------------------------------
  // DATA_QUALITY_THRESHOLDS and PERFORMANCE_THRESHOLDS

  datatype QualityThresholds =
    QualityThresholds(completeness: real, accuracy: real, consistency: real, timeliness: real)

  const DataQualityThresholds: QualityThresholds := QualityThresholds(0.95, 0.99, 0.98, 0.90)

  /** Records per minute, MB per minute, seconds, percent, percent. */
  datatype PerformanceThresholds = PerformanceThresholds(
    transactionProcessing: int, dataLoading: int, queryResponse: int,
    memoryUsage: int, cpuUsage: int)

  const PerformanceThresholdValues: PerformanceThresholds :=
    PerformanceThresholds(1000, 10, 10, 80, 90)

  // ---------------------------------------------------------------------------
  // Connection settings (the dataclass defaults)

  datatype DatabaseConfig = DatabaseConfig(
    host: string, port: int, database: string, username: string, password: string)
  {
    /** `postgresql://{username}:{password}@{host}:{port}/{database}` */
    function ConnectionString(): string {
      "postgresql://" + (username + (":" + (password + ("@" + (host + (":" + (IntToString(port) + ("/" + database))))))))
    }

    /** No separator of the connection string occurs where it would be ambiguous. */
    predicate Unambiguous() {
      ':' !in username && '@' !in password && ':' !in host
    }
  }

  const DefaultDatabaseConfig: DatabaseConfig :=
    DatabaseConfig("localhost", 5432, "techmart", "postgres", "password")

  datatype BigQueryConfig = BigQueryConfig(projectId: string, datasetId: string, credentialsPath: string)
  {
    /** `{project_id}.{dataset_id}` */
    function DatasetReference(): string {
      projectId + ("." + datasetId)
    }
  }

  const DefaultBigQueryConfig: BigQueryConfig :=
    BigQueryConfig("techmart-analytics", "techmart_analytics", "")

  datatype PipelineConfig = PipelineConfig(
    batchSize: int, maxRetries: int, retryDelay: int,
    dataQualityThreshold: real, enableMonitoring: bool, logLevel: string)

  const DefaultPipelineConfig: PipelineConfig := PipelineConfig(1000, 3, 5, 0.95, true, "INFO")

  datatype DataSourceConfig = DataSourceConfig(
    transactionsPath: string, usersPath: string, productsPath: string,
    apiBaseUrl: string, apiTimeout: int)

  const DefaultDataSourceConfig: DataSourceConfig := DataSourceConfig(
    "data/sample_transactions.json", "data/sample_users.csv", "data/sample_products.json",
    "https://api.techmart.com", 30)

  // ---------------------------------------------------------------------------
  // Unambiguity of the derived strings

  /** The position of the first `c` in `s`, or `|s|` when there is none. */
  function FirstIndex(s: string, c: char): (i: nat)
    ensures i <= |s|
  {
    if s == [] || s[0] == c then 0 else 1 + FirstIndex(s[1..], c)
  }

  lemma {:induction false} FirstIndexAfterHead(a: string, c: char, r: string)
    requires c !in a
    ensures FirstIndex(a + [c] + r, c) == |a|
  {
    if a != [] {
      assert (a + [c] + r)[1..] == a[1..] + [c] + r;
      FirstIndexAfterHead(a[1..], c, r);
    }
  }

  /** Two texts that both continue with `c` right after a `c`-free head have the same head. */
  lemma SameHead(a: string, b: string, c: char, ra: string, rb: string)
    requires c !in a && c !in b
    requires a + ([c] + ra) == b + ([c] + rb)
    ensures a == b && ra == rb
  {
    var s := a + [c] + ra;
    assert s == a + ([c] + ra) == b + [c] + rb;
    FirstIndexAfterHead(a, c, ra);
    FirstIndexAfterHead(b, c, rb);
    assert a == s[..|a|] == b;
    assert ra == s[|a| + 1..] == rb;
  }

  lemma {:induction false} NatToStringInjective(m: nat, n: nat)
    requires NatToString(m) == NatToString(n)
    ensures m == n
  {
    NatToStringValue(m);
    NatToStringValue(n);
  }

  lemma IntToStringSign(n: int)
    ensures |IntToString(n)| >= 1
    ensures IntToString(n)[0] == '-' <==> n < 0
  {
    if n >= 0 {
      assert IsDigit(NatToString(n)[0]);
    }
  }

  lemma IntToStringInjective(m: int, n: int)
    requires IntToString(m) == IntToString(n)
    ensures m == n
  {
    IntToStringSign(m);
    IntToStringSign(n);
    if m < 0 {
      assert NatToString(-m) == IntToString(m)[1..] == NatToString(-n);
      NatToStringInjective(-m, -n);
    } else {
      NatToStringInjective(m, n);
    }
  }

  /** The connection string determines the settings it was made from, as long as
      the user name and host hold no ':' and the password holds no '@'. */
  lemma ConnectionStringDeterminesConfig(a: DatabaseConfig, b: DatabaseConfig)
    requires a.Unambiguous() && b.Unambiguous()
    requires a.ConnectionString() == b.ConnectionString()
    ensures a == b
  {
    var p := "postgresql://";
    var ta := "/" + a.database;
    var tb := "/" + b.database;
    var ha := ":" + (IntToString(a.port) + ta);
    var hb := ":" + (IntToString(b.port) + tb);
    var wa := "@" + (a.host + ha);
    var wb := "@" + (b.host + hb);
    var ua := ":" + (a.password + wa);
    var ub := ":" + (b.password + wb);
    assert (p + (a.username + ua))[|p|..] == a.username + ua;
    assert (p + (b.username + ub))[|p|..] == b.username + ub;
    SameHead(a.username, b.username, ':', a.password + wa, b.password + wb);
    SameHead(a.password, b.password, '@', a.host + ha, b.host + hb);
    SameHead(a.host, b.host, ':', IntToString(a.port) + ta, IntToString(b.port) + tb);
    assert '/' !in IntToString(a.port) && '/' !in IntToString(b.port);
    SameHead(IntToString(a.port), IntToString(b.port), '/', a.database, b.database);
    IntToStringInjective(a.port, b.port);
  }

  /** The dataset reference determines project and dataset when the project id holds no '.'. */
  lemma DatasetReferenceDeterminesIds(a: BigQueryConfig, b: BigQueryConfig)
    requires '.' !in a.projectId && '.' !in b.projectId
    requires a.DatasetReference() == b.DatasetReference()
    ensures a.projectId == b.projectId && a.datasetId == b.datasetId
  {
    SameHead(a.projectId, b.projectId, '.', a.datasetId, b.datasetId);
  }

  // ---------------------------------------------------------------------------
  // Config.validate

  const RequiredEnvVars: seq<string> :=
    ["POSTGRES_HOST", "POSTGRES_DB", "POSTGRES_USER", "POSTGRES_PASSWORD", "BIGQUERY_PROJECT_ID"]

  /** `not os.getenv(var)`: unset or set to the empty string. */
  predicate Unset(env: map<string, string>, v: string) {
    v !in env || env[v] == ""
  }

  /** The variables of `vars` that are unset, in order. */
  function MissingVars(env: map<string, string>, vars: seq<string>): (r: seq<string>)
    ensures forall v :: v in r <==> v in vars && Unset(env, v)
  {
    if vars == [] then []
    else (if Unset(env, vars[0]) then [vars[0]] else []) + MissingVars(env, vars[1..])
  }

  /** `Config.validate()`: raises naming the missing variables, otherwise True. */
  function Validate(env: map<string, string>): (r: Result<bool>)
    ensures r.Ok? <==> forall v :: v in RequiredEnvVars ==> v in env && env[v] != ""
    ensures r.Ok? ==> r.value
    ensures r.Err? ==> StartsWith(r.error, "Missing required environment variables: ")
    ensures r.Err? ==> r.error == "Missing required environment variables: " + Join(MissingVars(env, RequiredEnvVars), ", ")
  {
    var missing := MissingVars(env, RequiredEnvVars);
    if missing != [] then
      assert missing[0] in missing;
      Err("Missing required environment variables: " + Join(missing, ", "))
    else
      assert forall v :: v in RequiredEnvVars ==> v !in missing;
      Ok(true)
  }
}
