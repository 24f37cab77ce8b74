/** The staged orchestrator: extraction, transformation, loading, quality
    validation and analytics creation, run in that order. The first three stop the
    run when they fail; quality validation does not. The clock, the file readers
    and the database are taken from a `RunEnvironment`. */
module Pipeline {
  import opened Common
  import opened IsoTime
  import opened Values
  import opened Seqs
  import opened Config
  import opened Extractor
  import opened TransformedRecords
  import opened Transformer
  import opened Analytics
  import opened DataQuality
  import opened TransformedQuality

  const StageOrder: seq<string> :=
    ["extraction", "transformation", "loading", "quality_validation", "analytics_creation"]

  /** The exception each of the three stopping stages raises when it fails. */
  const FailureMessages: seq<string> :=
    ["Data extraction failed", "Data transformation failed", "Data loading failed"]

  /** The keys of the dictionary `create_analytics_tables` returns, in insertion order. */
  const AnalyticsTableNames: seq<string> :=
    ["daily_sales_summary", "user_analytics", "product_performance", "financial_reports"]

  // ---------------------------------------------------------------------------
  // Results

  datatype Counts = Counts(transactions: nat, users: nat, products: nat) {
    function Total(): nat { transactions + users + products }
  }

  /** The `scores` dictionary of the quality stage. */
  datatype QualityScores = QualityScores(
    overallScore: real, completeness: real, accuracy: real, consistency: real, timeliness: real)

  /** What each stage adds to its report beyond success, duration and error. */
  datatype StageDetail =
    | Extracted(recordsExtracted: Counts)
    | Transformed(recordsTransformed: Counts)
    | Loaded(loadingResults: seq<string>)
    | Validated(scores: Option<QualityScores>)
    | AnalyticsCreated(tablesCreated: nat)
    | NoDetail

  datatype StageReport = StageReport(
    success: bool, durationSeconds: real, error: Option<string>, detail: StageDetail)

  datatype Status = Running | Completed | Failed

  datatype PerformanceMetrics = PerformanceMetrics(
    totalDurationSeconds: real, totalRecordsProcessed: nat, recordsPerSecond: real,
    stageDurations: seq<(string, real)>)

  /** `pipeline_results`; an empty `data_quality_scores` or `performance_metrics`
      dictionary is `None`, and `stages` keeps its insertion order. */
  datatype PipelineResults = PipelineResults(
    startTime: real, endTime: Option<real>, durationSeconds: real, status: Status,
    stages: seq<(string, StageReport)>, errors: seq<string>,
    dataQualityScores: Option<QualityScores>, performanceMetrics: Option<PerformanceMetrics>)

  /** The transformed lists by kind; a kind missing from the raw data is `None`. */
  datatype TransformedData = TransformedData(
    transactions: Option<seq<TransactionRecord>>, users: Option<seq<UserRecord>>,
    products: Option<seq<ProductRecord>>)

  /** Everything a run reads from outside: the default source paths, the two file
      readers, the wall clock (`now` and `today` for the record logic, `startTime`
      and `endTime` in seconds for the run, one duration per stage) and the outcome
      of the database writes (`Some(message)` when the loading stage raises). */
  datatype RunEnvironment = RunEnvironment(
    dataSourceConfig: DataSourceConfig, readJson: Reader, readCsv: Reader,
    now: DateTime, today: Date, startTime: real, endTime: real,
    stageDuration: string -> real, loadError: Option<string>)

  /** `datetime.now()` is a valid naive date-time. */
  predicate ValidEnvironment(env: RunEnvironment) {
    ValidDateTime(env.now) && !env.now.Aware()
  }

  /** `len(data.get(kind, []))` */
  function Length<T>(xs: Option<seq<T>>): (n: nat)
    ensures xs.None? ==> n == 0
    ensures xs.Some? ==> n == |xs.value|
  {
    if xs.Some? then |xs.value| else 0
  }

  function StageNames(stages: seq<(string, StageReport)>): (names: seq<string>)
    ensures |names| == |stages|
    ensures forall i :: 0 <= i < |stages| ==> names[i] == stages[i].0
  {
    seq(|stages|, i requires 0 <= i < |stages| => stages[i].0)
  }

  // ---------------------------------------------------------------------------
  // _run_extraction_stage

  /** Explicit paths are used when the caller passes a non-empty dictionary;
      `None` and `{}` both fall back to the configured defaults. */
  function Extract(dataSources: Option<map<string, string>>, env: RunEnvironment): Result<SourceData> {
    if dataSources.Some? && |dataSources.value| > 0 then
      ExtractNamed(dataSources.value, env.readJson, env.readCsv)
    else
      ExtractAllSources(env.dataSourceConfig, env.readJson, env.readCsv)
  }

  function ExtractedCounts(data: SourceData): Counts {
    Counts(Length(data.transactions), Length(data.users), Length(data.products))
  }

  function ExtractionReport(r: Result<SourceData>, duration: real): StageReport {
    match r
    case Ok(data) => StageReport(true, duration, None, Extracted(ExtractedCounts(data)))
    case Err(e) => StageReport(false, duration, Some(e), NoDetail)
  }

  // ---------------------------------------------------------------------------
  // _run_transformation_stage

  /** Transactions are joined against whatever users and products were
      extracted (none when a kind is missing); a lookup without its id key makes
      the stage fail. Users and products are transformed when present. */
  function Transform(raw: SourceData, now: DateTime): Result<TransformedData>
    requires ValidDateTime(now) && !now.Aware()
  {
    var ts :=
      if raw.transactions.Some? then
        Some(TransformedTransactions(raw.transactions.value, raw.users.GetOr([]), raw.products.GetOr([])))
      else None;
    if ts.Some? && ts.value.Err? then Err(ts.value.error)
    else Ok(TransformedData(
      if ts.Some? then Some(ts.value.value) else None,
      if raw.users.Some? then Some(FilterMap(raw.users.value, u => TransformUser(u, now))) else None,
      if raw.products.Some? then Some(FilterMap(raw.products.value, TransformProduct)) else None))
  }

  function TransformedCounts(data: TransformedData): Counts {
    Counts(Length(data.transactions), Length(data.users), Length(data.products))
  }

  function TransformationReport(r: Result<TransformedData>, duration: real): StageReport {
    match r
    case Ok(data) => StageReport(true, duration, None, Transformed(TransformedCounts(data)))
    case Err(e) => StageReport(false, duration, Some(e), NoDetail)
  }

  /** The analytics tables built from the transformed lists, empty where a kind is missing. */
  predicate TablesFor(tables: AnalyticsTables, data: TransformedData, today: Date) {
    var txns := data.transactions.GetOr([]);
    && tables.dailySalesSummary == DailySalesSummary(txns)
    && IsUserAnalytics(tables.userAnalytics, txns, data.users.GetOr([]))
    && tables.productPerformance == ProductPerformance(txns, data.products.GetOr([]))
    && tables.financialReports == FinancialReports(txns, today)
  }

  // ---------------------------------------------------------------------------
  // _run_loading_stage

  /** The keys of `loading_results`: one PostgreSQL load per transformed kind, then
      one BigQuery load per analytics table, which the transformation always builds. */
  function LoadTargets(data: TransformedData): (targets: seq<string>)
    ensures |targets| == |AnalyticsTableNames| + (if data.transactions.Some? then 1 else 0)
      + (if data.users.Some? then 1 else 0) + (if data.products.Some? then 1 else 0)
    ensures forall i :: 0 <= i < |AnalyticsTableNames| ==>
      targets[|targets| - |AnalyticsTableNames| + i] == AnalyticsTableNames[i] + "_bigquery"
  {
    (if data.transactions.Some? then ["transactions_postgres"] else [])
    + (if data.users.Some? then ["users_postgres"] else [])
    + (if data.products.Some? then ["products_postgres"] else [])
    + seq(|AnalyticsTableNames|, i requires 0 <= i < |AnalyticsTableNames| => AnalyticsTableNames[i] + "_bigquery")
  }

  function LoadingReport(data: TransformedData, loadError: Option<string>, duration: real): StageReport {
    match loadError
    case None => StageReport(true, duration, None, Loaded(LoadTargets(data)))
    case Some(e) => StageReport(false, duration, Some(e), NoDetail)
  }

  // ---------------------------------------------------------------------------
  // _run_quality_validation_stage and _run_analytics_creation_stage

  /** The scorer runs on the transformed lists, each record seen as the dictionary
      the transformer produced. */
  function QualityOutcome(data: TransformedData, now: DateTime): Result<QualityReport>
    requires ValidDateTime(now)
  {
    AllTests(TransactionRecords(data.transactions.GetOr([])), UserRecords(data.users.GetOr([])),
             ProductRecords(data.products.GetOr([])), now)
  }

  /** Business rules are scored but not reported here. */
  function ScoresOf(q: QualityReport): QualityScores {
    QualityScores(q.overallScore, q.completeness.overallScore, q.accuracy.overallScore,
                  q.consistency.overallScore, q.timeliness.overallScore)
  }

  /** Success is `all_tests_passed`; a raising scorer gives empty scores. */
  function QualityStageReport(q: Result<QualityReport>, duration: real): StageReport {
    match q
    case Ok(report) => StageReport(report.allTestsPassed, duration, None, Validated(Some(ScoresOf(report))))
    case Err(e) => StageReport(false, duration, Some(e), Validated(None))
  }

  function AnalyticsReport(duration: real): StageReport {
    StageReport(true, duration, None, AnalyticsCreated(|AnalyticsTableNames|))
  }

  // ---------------------------------------------------------------------------
  // _calculate_performance_metrics

  /** The report stored under `name`, if any. */
  function FindStage(stages: seq<(string, StageReport)>, name: string): (r: Option<StageReport>)
    ensures r.None? <==> name !in StageNames(stages)
    ensures r.Some? ==> exists i :: 0 <= i < |stages| && stages[i] == (name, r.value)
  {
    if stages == [] then None
    else if stages[0].0 == name then Some(stages[0].1)
    else
      var r := FindStage(stages[1..], name);
      assert StageNames(stages) == [stages[0].0] + StageNames(stages[1..]);
      r
  }

  function StageDurations(stages: seq<(string, StageReport)>): (d: seq<(string, real)>)
    ensures |d| == |stages|
    ensures forall i :: 0 <= i < |stages| ==> d[i] == (stages[i].0, stages[i].1.durationSeconds)
  {
    seq(|stages|, i requires 0 <= i < |stages| => (stages[i].0, stages[i].1.durationSeconds))
  }

  /** The metrics of a run, or the empty dictionary when the extraction report
      with its counts is not there (the `KeyError` the function catches). */
  function PerformanceMetricsOf(stages: seq<(string, StageReport)>, duration: real): Option<PerformanceMetrics> {
    match FindStage(stages, "extraction")
    case Some(StageReport(_, _, _, Extracted(counts))) =>
      Some(PerformanceMetrics(
        duration, counts.Total(),
        if duration > 0.0 then counts.Total() as real / duration else 0.0,
        StageDurations(stages)))
    case _ => None
  }

  // ---------------------------------------------------------------------------
  // run_pipeline

  /** What the `try` block of `run_pipeline` leaves behind: the stage reports
      recorded so far, the message of the exception a stopping stage raised, and
      the quality scores once that stage has run. */
  datatype StagesOutcome = StagesOutcome(
    stages: seq<(string, StageReport)>, failure: Option<string>, scores: Option<QualityScores>)

  /** The stages over the outcomes of those that can fail: `transformed` is
      looked at only after a successful extraction and `quality` only after a
      successful loading. */
  function StagesRun(extracted: Result<SourceData>, transformed: Result<TransformedData>,
                     quality: Result<QualityReport>, env: RunEnvironment): StagesOutcome
  {
    var extraction := ("extraction", ExtractionReport(extracted, env.stageDuration("extraction")));
    if extracted.Err? then StagesOutcome([extraction], Some(FailureMessages[0]), None)
    else Preceded(extraction, StagesAfterExtraction(transformed, quality, env))
  }

  /** A stage recorded before the stages of the rest of the run. */
  function Preceded(stage: (string, StageReport), rest: StagesOutcome): (o: StagesOutcome)
    ensures o.stages == [stage] + rest.stages && o.failure == rest.failure && o.scores == rest.scores
  {
    StagesOutcome([stage] + rest.stages, rest.failure, rest.scores)
  }

  /** The stages from the transformation on. */
  function StagesAfterExtraction(transformed: Result<TransformedData>, quality: Result<QualityReport>,
                                 env: RunEnvironment): StagesOutcome
  {
    var transformation := ("transformation", TransformationReport(transformed, env.stageDuration("transformation")));
    if transformed.Err? then StagesOutcome([transformation], Some(FailureMessages[1]), None)
    else Preceded(transformation, StagesAfterTransformation(transformed.value, quality, env))
  }

  /** The stages from the loading on. */
  function StagesAfterTransformation(data: TransformedData, quality: Result<QualityReport>,
                                     env: RunEnvironment): StagesOutcome
  {
    var loading := ("loading", LoadingReport(data, env.loadError, env.stageDuration("loading")));
    if env.loadError.Some? then StagesOutcome([loading], Some(FailureMessages[2]), None)
    else
      var q := QualityStageReport(quality, env.stageDuration("quality_validation"));
      StagesOutcome([loading, ("quality_validation", q),
                     ("analytics_creation", AnalyticsReport(env.stageDuration("analytics_creation")))],
                    None, q.detail.scores)
  }

  /** The `except` path: the run stopped by the stage at position `|stages| - 1`. */
  function FailedRun(stages: seq<(string, StageReport)>, message: string, env: RunEnvironment): PipelineResults {
    PipelineResults(env.startTime, Some(env.endTime), env.endTime - env.startTime, Failed,
                    stages, [message], None, None)
  }

  /** The end of the `try` block: the run completes and its metrics are computed. */
  function CompletedRun(stages: seq<(string, StageReport)>, scores: Option<QualityScores>, env: RunEnvironment)
    : PipelineResults
  {
    var duration := env.endTime - env.startTime;
    PipelineResults(env.startTime, Some(env.endTime), duration, Completed, stages, [],
                    scores, PerformanceMetricsOf(stages, duration))
  }

  /** The state machine of `run_pipeline` over the outcomes of the stages that can fail. */
  function Orchestrate(extracted: Result<SourceData>, transformed: Result<TransformedData>,
                       quality: Result<QualityReport>, env: RunEnvironment): PipelineResults
  {
    var o := StagesRun(extracted, transformed, quality, env);
    if o.failure.Some? then FailedRun(o.stages, o.failure.value, env)
    else CompletedRun(o.stages, o.scores, env)
  }

  /** The outcome of each stage that can fail for a run with these sources; a
      stage that is not reached gets a placeholder that `Orchestrate` ignores. */
  function TransformedOf(dataSources: Option<map<string, string>>, env: RunEnvironment): Result<TransformedData>
    requires ValidEnvironment(env)
  {
    var e := Extract(dataSources, env);
    if e.Ok? then Transform(e.value, env.now) else Err("")
  }

  function QualityOf(dataSources: Option<map<string, string>>, env: RunEnvironment): Result<QualityReport>
    requires ValidEnvironment(env)
  {
    var t := TransformedOf(dataSources, env);
    if t.Ok? && env.loadError.None? then QualityOutcome(t.value, env.now) else Err("")
  }

  function RunResults(dataSources: Option<map<string, string>>, env: RunEnvironment): PipelineResults
    requires ValidEnvironment(env)
  {
    Orchestrate(Extract(dataSources, env), TransformedOf(dataSources, env), QualityOf(dataSources, env), env)
  }

  // ---------------------------------------------------------------------------
  // Properties of the state machine, whatever the stages report

  /** Stages appear in the fixed order, and a run never ends `running`. */
  lemma StagesInOrder(e: Result<SourceData>, t: Result<TransformedData>, q: Result<QualityReport>, env: RunEnvironment)
    ensures var r := Orchestrate(e, t, q, env);
      && 1 <= |r.stages| <= |StageOrder|
      && StageNames(r.stages) == StageOrder[..|r.stages|]
      && r.status != Running
  {
    var o := StagesRun(e, t, q, env);
    var names := StageNames(o.stages);
    if e.Err? {
      assert names == StageOrder[..1];
    } else if t.Err? {
      assert names == StageOrder[..2];
    } else if env.loadError.Some? {
      assert names == StageOrder[..3];
    } else {
      assert names == StageOrder;
    }
  }

  /** A run completes exactly when extraction, transformation and loading succeed;
      a completed run has all five stages and no error. */
  lemma CompletedIff(e: Result<SourceData>, t: Result<TransformedData>, q: Result<QualityReport>, env: RunEnvironment)
    ensures var r := Orchestrate(e, t, q, env);
      && (r.status == Completed <==> e.Ok? && t.Ok? && env.loadError.None?)
      && (r.status == Completed ==> |r.stages| == 5 && r.errors == [] && r.endTime == Some(env.endTime))
  {
  }

  /** A failed run stops at the first failing stage: the earlier stages succeeded
      and are kept, `errors` holds only that stage's message, and there are no
      scores and no metrics. */
  lemma FailedRunStops(e: Result<SourceData>, t: Result<TransformedData>, q: Result<QualityReport>, env: RunEnvironment)
    requires Orchestrate(e, t, q, env).status == Failed
    ensures var r := Orchestrate(e, t, q, env);
      && 1 <= |r.stages| <= 3
      && !r.stages[|r.stages| - 1].1.success
      && (forall i :: 0 <= i < |r.stages| - 1 ==> r.stages[i].1.success)
      && r.errors == [FailureMessages[|r.stages| - 1]]
      && r.dataQualityScores.None? && r.performanceMetrics.None?
      && r.endTime == Some(env.endTime) && r.durationSeconds == env.endTime - env.startTime
  {
  }

  /** A failing quality stage does not stop the run: once the three stopping
      stages succeed the run completes whatever the scorer reports, and its scores
      (empty when the scorer raises) become the run's quality scores. */
  lemma QualityNeverStops(e: Result<SourceData>, t: Result<TransformedData>, q: Result<QualityReport>, env: RunEnvironment)
    requires e.Ok? && t.Ok? && env.loadError.None?
    ensures var r := Orchestrate(e, t, q, env);
      && r.status == Completed
      && r.stages[3].0 == "quality_validation"
      && (r.stages[3].1.success <==> q.Ok? && q.value.allTestsPassed)
      && r.dataQualityScores == (if q.Ok? then Some(ScoresOf(q.value)) else None)
      && r.stages[4].1.success
  {
  }

  /** The metrics computed from stages that start with a successful extraction. */
  lemma MetricsOfStages(stages: seq<(string, StageReport)>, duration: real)
    requires |stages| > 0 && stages[0].0 == "extraction" && stages[0].1.detail.Extracted?
    ensures var m := PerformanceMetricsOf(stages, duration);
      && m.Some?
      && m.value.totalRecordsProcessed == stages[0].1.detail.recordsExtracted.Total()
      && m.value.totalDurationSeconds == duration
      && (duration > 0.0 ==> m.value.recordsPerSecond == m.value.totalRecordsProcessed as real / duration)
      && (duration <= 0.0 ==> m.value.recordsPerSecond == 0.0)
      && |m.value.stageDurations| == |stages|
      && (forall i :: 0 <= i < |stages| ==> m.value.stageDurations[i] == (stages[i].0, stages[i].1.durationSeconds))
  {
    assert FindStage(stages, "extraction") == Some(stages[0].1);
  }

  /** The metrics of a completed run: the records counted are the extraction
      counts, the rate is guarded against a zero duration, and one duration is
      reported per stage, under the stage's name. */
  lemma CompletedRunMetrics(e: Result<SourceData>, t: Result<TransformedData>, q: Result<QualityReport>, env: RunEnvironment)
    requires Orchestrate(e, t, q, env).status == Completed
    ensures var r := Orchestrate(e, t, q, env);
      && r.performanceMetrics.Some?
      && r.stages[0].1.detail.Extracted?
      && r.performanceMetrics.value.totalRecordsProcessed == r.stages[0].1.detail.recordsExtracted.Total()
      && r.performanceMetrics.value.totalDurationSeconds == r.durationSeconds
      && (r.durationSeconds > 0.0 ==>
            r.performanceMetrics.value.recordsPerSecond
            == r.performanceMetrics.value.totalRecordsProcessed as real / r.durationSeconds)
      && (r.durationSeconds <= 0.0 ==> r.performanceMetrics.value.recordsPerSecond == 0.0)
      && StageNames(r.stages) == StageOrder
      && |r.performanceMetrics.value.stageDurations| == |r.stages|
      && (forall i :: 0 <= i < |r.stages| ==>
            r.performanceMetrics.value.stageDurations[i] == (r.stages[i].0, r.stages[i].1.durationSeconds))
  {
    var o := StagesRun(e, t, q, env);
    assert o.stages[0] == ("extraction", ExtractionReport(e, env.stageDuration("extraction")));
    MetricsOfStages(o.stages, env.endTime - env.startTime);
    StagesInOrder(e, t, q, env);
  }

  // ---------------------------------------------------------------------------
  // Properties of the stages

  /** With explicit paths only the named kinds are extracted: a named kind counts
      the validated records read from its path, the others count 0. */
  lemma NamedSourcesCounts(sources: map<string, string>, env: RunEnvironment)
    requires |sources| > 0 && Extract(Some(sources), env).Ok?
    ensures var c := ExtractedCounts(Extract(Some(sources), env).value);
      && ("transactions" !in sources ==> c.transactions == 0)
      && ("users" !in sources ==> c.users == 0)
      && ("products" !in sources ==> c.products == 0)
    ensures var c := ExtractedCounts(Extract(Some(sources), env).value);
      && ("transactions" in sources ==>
            c.transactions == |FilterMap(env.readJson(sources["transactions"]).value, KeepTransaction)|)
      && ("users" in sources ==> c.users == |FilterMap(env.readCsv(sources["users"]).value, KeepUser)|)
      && ("products" in sources ==>
            c.products == |FilterMap(env.readJson(sources["products"]).value, KeepProduct)|)
  {
  }

  /** Extraction counts are the lengths of the validated lists. */
  lemma DefaultSourcesCounts(env: RunEnvironment)
    requires Extract(None, env).Ok?
    ensures var src := env.dataSourceConfig;
      ExtractedCounts(Extract(None, env).value) == Counts(
        |FilterMap(env.readJson(src.transactionsPath).value, KeepTransaction)|,
        |FilterMap(env.readCsv(src.usersPath).value, KeepUser)|,
        |FilterMap(env.readJson(src.productsPath).value, KeepProduct)|)
  {
  }

  /** `records_transformed` is the length of each transformed list, and a kind is
      transformed (and loaded to PostgreSQL) exactly when it was extracted. */
  lemma TransformedCountsAreLengths(raw: SourceData, now: DateTime)
    requires ValidDateTime(now) && !now.Aware() && Transform(raw, now).Ok?
    ensures var data := Transform(raw, now).value;
      && (data.transactions.Some? <==> raw.transactions.Some?)
      && (data.users.Some? <==> raw.users.Some?)
      && (data.products.Some? <==> raw.products.Some?)
      && (raw.users.Some? ==>
            TransformedCounts(data).users == |FilterMap(raw.users.value, u => TransformUser(u, now))|)
      && (raw.products.Some? ==>
            TransformedCounts(data).products == |FilterMap(raw.products.value, TransformProduct)|)
      && TransformedCounts(data).transactions <= Length(raw.transactions)
      && TransformedCounts(data).users <= Length(raw.users)
      && TransformedCounts(data).products <= Length(raw.products)
  {
  }

  /** The transformation fails exactly when there are transactions and a user or
      product lacks its id. */
  lemma TransformFailsIff(raw: SourceData, now: DateTime)
    requires ValidDateTime(now) && !now.Aware()
    ensures Transform(raw, now).Err? <==>
      raw.transactions.Some? &&
      (BuildLookup(raw.users.GetOr([]), "user_id").Err? || BuildLookup(raw.products.GetOr([]), "product_id").Err?)
  {
  }

  /** Because the scorer sees `transaction_timestamp` and no `timestamp`, a
      completed run never reports more than 7/8 completeness and reports 0
      timeliness. */
  lemma CompletedRunQuality(dataSources: Option<map<string, string>>, env: RunEnvironment)
    requires ValidEnvironment(env) && RunResults(dataSources, env).status == Completed
    requires RunResults(dataSources, env).dataQualityScores.Some?
    ensures RunResults(dataSources, env).dataQualityScores.value.completeness <= 7.0 / 8.0
    ensures RunResults(dataSources, env).dataQualityScores.value.timeliness == 0.0
  {
    var t := TransformedOf(dataSources, env);
    var q := QualityOf(dataSources, env);
    CompletedIff(Extract(dataSources, env), t, q, env);
    QualityNeverStops(Extract(dataSources, env), t, q, env);
    var data := t.value;
    var ts, us, ps := data.transactions.GetOr([]), data.users.GetOr([]), data.products.GetOr([]);
    AllTestsReport(TransactionRecords(ts), UserRecords(us), ProductRecords(ps), env.now);
    TransformedCompletenessAtMost(ts);
    TransformedTimelinessZero(ts, env.now, 24);
  }

  // ---------------------------------------------------------------------------
  // ECommerceAnalyticsPipeline

  datatype PipelineStatus = PipelineStatus(
    isRunning: bool, startTime: Option<real>, endTime: Option<real>, durationSeconds: Option<real>)

  class AnalyticsPipeline {
    var pipelineStartTime: Option<real>
    var pipelineEndTime: Option<real>
    /** How many times `close_connections` has been called on the database manager. */
    var connectionsClosed: nat

    /** The end time is only ever recorded after a start time. */
    predicate Valid()
      reads this
    {
      pipelineEndTime.Some? ==> pipelineStartTime.Some?
    }

    constructor ()
      ensures Valid()
      ensures pipelineStartTime.None? && pipelineEndTime.None? && connectionsClosed == 0
    {
      pipelineStartTime := None;
      pipelineEndTime := None;
      connectionsClosed := 0;
    }

    /** `get_pipeline_status` */
    function Status(): (s: PipelineStatus)
      requires Valid()
      reads this
      ensures s.isRunning <==> pipelineStartTime.Some? && pipelineEndTime.None?
      ensures s.startTime == pipelineStartTime && s.endTime == pipelineEndTime
      ensures s.durationSeconds.Some? <==> pipelineEndTime.Some?
      ensures s.durationSeconds.Some? ==> s.durationSeconds.value == pipelineEndTime.value - pipelineStartTime.value
    {
      PipelineStatus(
        pipelineStartTime.Some? && pipelineEndTime.None?, pipelineStartTime, pipelineEndTime,
        if pipelineEndTime.Some? then Some(pipelineEndTime.value - pipelineStartTime.value) else None)
    }

    method RunExtractionStage(dataSources: Option<map<string, string>>, env: RunEnvironment)
      returns (report: StageReport, data: Result<SourceData>)
      ensures data == Extract(dataSources, env)
      ensures report == ExtractionReport(data, env.stageDuration("extraction"))
      ensures report.success <==> data.Ok?
    {
      if dataSources.Some? && |dataSources.value| > 0 {
        data := ExtractNamed(dataSources.value, env.readJson, env.readCsv);
      } else {
        data := ExtractAllSources(env.dataSourceConfig, env.readJson, env.readCsv);
      }
      report := ExtractionReport(data, env.stageDuration("extraction"));
    }

    /** The transformed lists and, when the transformation succeeds, the analytics tables. */
    method RunTransformationStage(raw: SourceData, env: RunEnvironment)
      returns (report: StageReport, data: Result<TransformedData>, tables: Option<AnalyticsTables>)
      requires ValidEnvironment(env)
      ensures data == Transform(raw, env.now)
      ensures report == TransformationReport(data, env.stageDuration("transformation"))
      ensures report.success <==> data.Ok?
      ensures tables.Some? <==> data.Ok?
      ensures tables.Some? ==> TablesFor(tables.value, data.value, env.today)
    {
      var transactions: Option<seq<TransactionRecord>> := None;
      if raw.transactions.Some? {
        var t := TransformTransactions(raw.transactions.value, raw.users.GetOr([]), raw.products.GetOr([]));
        if t.Err? {
          data := Err(t.error);
          report := TransformationReport(data, env.stageDuration("transformation"));
          tables := None;
          return;
        }
        transactions := Some(t.value);
      }
      var users: Option<seq<UserRecord>> := None;
      if raw.users.Some? {
        var u := TransformUsers(raw.users.value, env.now);
        users := Some(u);
      }
      var products: Option<seq<ProductRecord>> := None;
      if raw.products.Some? {
        var p := TransformProducts(raw.products.value);
        products := Some(p);
      }
      var created := CreateAnalyticsTables(transactions.GetOr([]), users.GetOr([]), products.GetOr([]), env.today);
      data := Ok(TransformedData(transactions, users, products));
      tables := Some(created);
      report := TransformationReport(data, env.stageDuration("transformation"));
    }

    method RunQualityValidationStage(data: TransformedData, env: RunEnvironment)
      returns (report: StageReport, outcome: Result<QualityReport>)
      requires ValidEnvironment(env)
      ensures outcome == QualityOutcome(data, env.now)
      ensures report == QualityStageReport(outcome, env.stageDuration("quality_validation"))
      ensures report.success ==> report.detail.scores.Some?
    {
      outcome := RunAllTests(TransactionRecords(data.transactions.GetOr([])), UserRecords(data.users.GetOr([])),
                             ProductRecords(data.products.GetOr([])), env.now);
      report := QualityStageReport(outcome, env.stageDuration("quality_validation"));
    }

    /** The `try` block of `run_pipeline` up to the metrics: each stage's report
        is recorded in turn, and a stopping stage that fails raises, skipping the
        rest. The outcome of each stage reached is returned beside the reports;
        the placeholders stand for stages not reached. */
    method RunStages(dataSources: Option<map<string, string>>, env: RunEnvironment)
      returns (outcome: StagesOutcome, extracted: Result<SourceData>, transformed: Result<TransformedData>,
               validated: Result<QualityReport>, tables: Option<AnalyticsTables>)
      requires ValidEnvironment(env)
      ensures extracted == Extract(dataSources, env)
      ensures transformed == TransformedOf(dataSources, env)
      ensures validated == QualityOf(dataSources, env)
      ensures outcome == StagesRun(extracted, transformed, validated, env)
      ensures tables.Some? <==> extracted.Ok? && transformed.Ok?
      ensures tables.Some? ==> TablesFor(tables.value, transformed.value, env.today)
    {
      var extraction;
      extraction, extracted := RunExtractionStage(dataSources, env);
      if !extraction.success {
        transformed, validated, tables := Err(""), Err(""), None;
        return StagesOutcome([("extraction", extraction)], Some(FailureMessages[0]), None),
               extracted, transformed, validated, tables;
      }
      var rest;
      rest, transformed, validated, tables := RunFromTransformation(extracted.value, env);
      outcome := Preceded(("extraction", extraction), rest);
    }

    /** The rest of the `try` block once the extraction has succeeded: the
        stages recorded from here on follow the extraction's report. */
    method RunFromTransformation(raw: SourceData, env: RunEnvironment)
      returns (outcome: StagesOutcome, transformed: Result<TransformedData>,
               validated: Result<QualityReport>, tables: Option<AnalyticsTables>)
      requires ValidEnvironment(env)
      ensures transformed == Transform(raw, env.now)
      ensures validated == if transformed.Ok? && env.loadError.None? then QualityOutcome(transformed.value, env.now) else Err("")
      ensures outcome == StagesAfterExtraction(transformed, validated, env)
      ensures tables.Some? <==> transformed.Ok?
      ensures tables.Some? ==> TablesFor(tables.value, transformed.value, env.today)
    {
      var transformation;
      transformation, transformed, tables := RunTransformationStage(raw, env);
      if !transformation.success {
        validated := Err("");
        return StagesOutcome([("transformation", transformation)], Some(FailureMessages[1]), None),
               transformed, validated, tables;
      }
      var rest;
      rest, validated := RunFromLoading(transformed.value, env);
      outcome := Preceded(("transformation", transformation), rest);
    }

    /** The rest of the `try` block once the transformation has succeeded. */
    method RunFromLoading(data: TransformedData, env: RunEnvironment)
      returns (outcome: StagesOutcome, validated: Result<QualityReport>)
      requires ValidEnvironment(env)
      ensures validated == if env.loadError.None? then QualityOutcome(data, env.now) else Err("")
      ensures outcome == StagesAfterTransformation(data, validated, env)
    {
      var loading := LoadingReport(data, env.loadError, env.stageDuration("loading"));
      if !loading.success {
        validated := Err("");
        return StagesOutcome([("loading", loading)], Some(FailureMessages[2]), None), validated;
      }
      var quality;
      quality, validated := RunQualityValidationStage(data, env);
      var analytics := AnalyticsReport(env.stageDuration("analytics_creation"));
      outcome := StagesOutcome([("loading", loading), ("quality_validation", quality), ("analytics_creation", analytics)],
                               None, quality.detail.scores);
    }

    /** `run_pipeline`: a failing stopping stage ends the run as failed; the
        database connections are closed on every path. Only a completed run
        records its end time in the pipeline object. */
    method RunPipeline(dataSources: Option<map<string, string>>, env: RunEnvironment)
      returns (results: PipelineResults, tables: Option<AnalyticsTables>)
      requires Valid() && ValidEnvironment(env)
      modifies this
      ensures Valid()
      ensures results == RunResults(dataSources, env)
      ensures pipelineStartTime == Some(env.startTime)
      ensures pipelineEndTime == if results.status == Completed then Some(env.endTime) else old(pipelineEndTime)
      ensures connectionsClosed == old(connectionsClosed) + 1
      ensures tables.Some? <==> Extract(dataSources, env).Ok? && TransformedOf(dataSources, env).Ok?
      ensures tables.Some? ==> TablesFor(tables.value, TransformedOf(dataSources, env).value, env.today)
      ensures results.status == Failed && old(pipelineEndTime).None? ==> Status().isRunning
    {
      pipelineStartTime := Some(env.startTime);
      var outcome, extracted, transformed, validated;
      outcome, extracted, transformed, validated, tables := RunStages(dataSources, env);
      if outcome.failure.None? {
        pipelineEndTime := Some(env.endTime);
        results := CompletedRun(outcome.stages, outcome.scores, env);
      } else {
        results := FailedRun(outcome.stages, outcome.failure.value, env);
      }
      connectionsClosed := connectionsClosed + 1;
    }
  }
}
