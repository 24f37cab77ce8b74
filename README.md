# E-commerce analytics pipeline — a verified model

The pipeline takes batches of e-commerce records (transactions, users,
products) and runs them through five stages:

- **Extraction** reads them and drops the malformed ones.
- **Transformation** enriches the transactions by joining them with users and
  products, converts amounts to US dollars, applies three business rules and
  adds derived fields.
- **Loading** hands the results to a database layer over PostgreSQL and
  BigQuery.
- **Quality validation** scores the transformed data in five dimensions:
  completeness, accuracy, consistency, timeliness and business rules.
- **Analytics creation** builds four summary tables: daily sales, user
  analytics, product performance and a financial report.

An orchestrator runs the stages in order. It stops at the first stage that
fails, records the error and which stage stopped the run, and computes
performance metrics for a completed run. A small benchmark summary grades how
many performance tests passed and advises on the failed ones.

## How the model is built

- A raw record is modelled as `seq<(string, Value)>`: a dictionary in
  insertion order whose values are dynamically typed (`Values`).
  - `Lookup` models `d[k]`, where "absent" is the `KeyError`.
  - `Get` models `d.get(k)`.
  - `GetOr` models `d.get(k, default)`.
- The transformer's outputs are typed datatypes (`TransformedRecords`). They
  are projected back to records when the quality tests read them, because
  the tests read dictionaries.
- Loops the source runs become methods with loop invariants. Each is proved
  equal to a specification function, and the properties are proved about that
  function as lemmas. The only members that hold state are the orchestrator
  (`Pipeline.AnalyticsPipeline`: its start and end times) and the database
  manager (`Database.DatabaseManager`: its two connections and what it sent).
- Everything a run reads from outside becomes a parameter: file readers,
  HTTP responses, query results and the clock. The environment variables are
  a parameter of `Config.Validate`. The pipeline settings read from them
  (`BATCH_SIZE`, `MAX_RETRIES`, `RETRY_DELAY`) are a `PipelineConfig` value,
  passed to `Database.EffectiveBatchSize` and `Extractor.EffectiveRetries`.
  The database, BigQuery and data-source settings are constants holding
  their defaults.

Modules:

- `Common` — text helpers.
- `Seqs` — filtering with an optional map.
- `Config` — the configuration: constants, the connection string, `validate`.
- `IsoTime` — dates and ISO stamps.
- `Values` — raw records and Python's `float`/`int` conversion of values.
- `Extractor` — the validators, the retrying API read, extraction of all sources.
- `Transformer` — per-record transformation.
- `TransformedRecords` — the typed outputs and their dictionary form.
- `Grouping` — group-by over an accumulator map.
- `Analytics` — the four summary tables.
- `DataQuality` — the five quality tests.
- `TransformedQuality` — those tests applied to transformed data.
- `Pipeline` — the orchestrator.
- `Database` — the database manager.
- `Performance` — the benchmark summary.

## Model

| member | source | states |
|---|---|---|
| Config.AmountBoundsOrdered | src/config.py:118-125 | The minimum amount is below the high-value threshold, which is below the maximum amount. |
| Config.ConnectionStringDeterminesConfig | src/config.py:19-21 | Two database configurations with the same connection string are equal, provided no field holds a separator that would make the string ambiguous. |
| Config.DatasetReferenceDeterminesIds | src/config.py:30-32 | `project.dataset` determines both ids when the project id has no dot. |
| Config.MissingVars | src/config.py:72 | A variable is reported exactly when it is required and unset or set to the empty string. |
| Config.Validate | src/config.py:62-77 | Returns true exactly when all five required variables are set and non-empty. Otherwise it fails with "Missing required environment variables: " followed by the missing variables, in list order, joined by ", ". |
| Common.SplitJoin | src/database_manager.py:284 | Joining the pieces of `split(sep)` with `sep` gives back the text. |
| Common.Strip | src/database_manager.py:285 | The result has no leading or trailing whitespace and is no longer than the input. |
| Common.StripSlice | src/database_manager.py:285 | The result is a slice of the input, and everything cut off around it is whitespace. |
| Values.ToFloat | src/data_extractor.py:225 | `float(v)`: booleans and numbers convert to their value; null and dates fail; a string is read as a decimal numeral after its surrounding whitespace is stripped. |
| Values.ToInt | src/data_extractor.py:315 | `int(v)`: integers convert unchanged; floats truncate toward zero; null and dates fail. |
| Values.NatTextReadsBack | src/data_extractor.py:225 | The printed form of a natural number converts back to that number. |
| Values.IntTextReadsBack | src/data_extractor.py:315 | The printed form of an integer, negatives included, converts back to that integer. |
| IsoTime.ParseFormatIso | src/data_extractor.py:245-250 | Parsing the ISO form of a valid date-time gives back that date-time. |
| IsoTime.ZuluStampIsAware | src/data_extractor.py:247 | A naive date-time written in ISO form with `Z` appended reads back, after the replacement, as the same time at offset zero. |
| IsoTime.ZuluStampNeverNaive | src/data_extractor.py:247 | Any stamp ending in `Z` that parses after the replacement is aware, with offset zero. |
| IsoTime.OrdinalInjective | src/data_transformer.py:282 | Distinct valid dates have distinct day numbers, so the day differences computed from them are exact. |
| IsoTime.WeekdayNext | src/data_transformer.py:261 | The next day's weekday is one past the current day's, mod 7. |
| IsoTime.WeekdayAnchors | src/data_transformer.py:261 | 0001-01-01 and 2024-01-15 are Mondays, and 2024-02-29 is a Thursday. |
| Extractor.TransactionRejectedIffInvalid | src/data_extractor.py:212-258 | A transaction passes every check exactly when it has all six fields, an amount in the inclusive range, a known currency, method and status, and a stamp that parses; a missing method or status rejects it. |
| Extractor.ValidateTransactions | src/data_extractor.py:212-258 | The kept list holds exactly the valid transactions, unchanged and in input order. |
| Extractor.UserRejectedIffInvalid | src/data_extractor.py:260-293 | A user is kept exactly when the three fields are present, the email is a string holding `@`, the country is two characters long, and the tier is absent or one of standard, premium and vip. |
| Extractor.ValidateUsers | src/data_extractor.py:260-293 | The kept list holds exactly the valid users, unchanged and in input order. |
| Extractor.ProductRejectedIffInvalid | src/data_extractor.py:295-326 | A product is kept exactly when the three fields are present, `float(price) > 0`, and the inventory count is absent or converts by `int()` to a number at least 0. |
| Extractor.ValidateProducts | src/data_extractor.py:295-326 | The kept list holds exactly the valid products, unchanged and in input order. |
| Extractor.EffectiveRetries | src/data_extractor.py:150 | `max_retries or config`: both `None` and 0 fall back to the configured count. |
| Extractor.BackoffAt | src/data_extractor.py:170-176 | The wait after failed attempt `k` is `retry_delay * 2**k`. |
| Extractor.BackoffTotal | src/data_extractor.py:170-176 | Waits add up to `retry_delay * (2**n - 1)`. |
| Extractor.FirstSuccess | src/data_extractor.py:152-176 | The index returned is the first attempt that succeeded; every earlier attempt failed. |
| Extractor.ExtractProductsFromApi | src/data_extractor.py:136-176 | Sends requests 0..m, where m is the effective retry count. On the first success it returns those products, validated, after sleeping the backoff of each failed attempt before it. When all fail it re-raises the last error. A negative m sends nothing and returns `None`. |
| Extractor.DefaultScheduleAllFailing | src/data_extractor.py:150-176 | With the defaults, three retries sleep 5, 10 and 20 seconds. |
| Extractor.ExtractWith | src/data_extractor.py:28-134 | A read error is passed through; otherwise the records are filtered by the kind's validator. |
| Extractor.ExtractAllSources | src/data_extractor.py:178-210 | Reads transactions, users, then products; the first read error is re-raised; on success each list is the validated file content. |
| Extractor.ExtractNamed | src/pipeline.py:124-132 | Only the kinds named in the map are read; the others come back `None`. A named kind holds the validated records read from its path. The first failing read, in the order transactions, users, products, is the error. |
| Transformer.Rate | src/data_transformer.py:22-27 | The rate is the table's rate for the four listed currencies and 1 for any other value; it is always positive. |
| Transformer.ConvertToUsd | src/data_transformer.py:313-316 | The dollar amount times the rate is the amount. |
| Transformer.ConvertToUsdInverts | src/data_transformer.py:313-316 | Converting back undoes the rate; dollars stay as they are; the sign is kept. |
| Transformer.RatesCoverValidCurrencies | src/data_transformer.py:22-27 | The rate table covers exactly the currencies that extraction accepts. |
| Transformer.TransformSingleTransaction | src/data_transformer.py:189-203 | Succeeds exactly when the required keys are present and `float(amount)` succeeds. Each output field follows from its source field: the defaults for method and status, the dollar amount, high value on the raw amount, international when not in USD. |
| Transformer.HighValueIgnoresConversion | src/data_transformer.py:198 | 450 EUR exceeds 500 USD after conversion but is not flagged, because the flag reads the raw amount. |
| Transformer.BuildLookup | src/data_transformer.py:46-47 | Fails with the key's `KeyError` exactly when some record lacks the key; otherwise its keys are exactly the ids present. |
| Transformer.LookupFindsLast | src/data_transformer.py:46-47 | The record a lookup gives for an id is the last record carrying that id. |
| Transformer.Rules | src/data_transformer.py:230-252 | Payment risk is high exactly for high-value transactions outside credit card and PayPal. Transaction risk is medium exactly for international ones. Priority is high for VIP, medium for premium, otherwise standard. |
| Transformer.ApplyBusinessRules | src/data_transformer.py:230-252 | Sets the three rule fields from `Rules` and changes nothing else. |
| Transformer.BusinessRulesIdempotent | src/data_transformer.py:230-252 | Applying the rules twice equals applying them once. |
| Transformer.BusinessRulesReadFourFields | src/data_transformer.py:230-252 | The rules depend only on high value, payment method, international and user tier. |
| Transformer.ProfitMargin | src/data_transformer.py:267-272 | The margin is absent when the base price is not a number, or when the division by zero dollars raises. A base price at or below 0 gives margin 0; otherwise dollars minus base price equals the margin times dollars. |
| Transformer.MarginBelowOne | src/data_transformer.py:267-272 | A positive sale with a positive base price has a margin below 1. |
| Transformer.ParseTimestampValue | src/data_transformer.py:257-262 | A string stamp either parses or raises a caught ValueError; a date stamp raises the TypeError of `date.replace`, which is not caught; any other value raises a caught AttributeError. |
| Transformer.CalculateDerivedFields | src/data_transformer.py:254-274 | The derived fields are set exactly when the stamp is not a date and the margin is computable, and nothing else changes. Date, hour and weekday come from the stamp when it parses and are absent when the error is caught. |
| Transformer.UserJoinNeverDrops | src/data_transformer.py:57-63 | Whether a transaction survives does not depend on the user lookup. |
| Transformer.MissingUserFields | src/data_transformer.py:57-63 | An unknown user gives null user fields, the standard tier and standard priority. |
| Transformer.MissingProductDropsRecord | src/data_transformer.py:66-84 | An unknown product makes the margin computation raise, so the transaction is dropped. |
| Transformer.ValidatedTransactionKeptIff | src/data_transformer.py:29-87 | A validated transaction is kept exactly when its stamp is not a date and its product is known and has a numeric price. |
| Transformer.TransformedTransactions | src/data_transformer.py:29-87 | Fails exactly when a user or product record lacks its id, with that key's error. |
| Transformer.TransformTransactions | src/data_transformer.py:29-87 | The loop computes `TransformedTransactions`. |
| Transformer.TransformedTransactionsSelect | src/data_transformer.py:29-87 | The output is the transactions that transform, each at its input position, in input order; none that transforms is left out. |
| Transformer.TransformTransactionShape | src/data_transformer.py:189-274 | A kept transaction keeps its ids and amount and has its rule and derived fields set. |
| Transformer.TransformSingleUser | src/data_transformer.py:205-215 | Succeeds exactly when the required keys are present. Copies id, email, country, age group and registration date, with the tier and active defaults. |
| Transformer.CalculateUserDerivedFields | src/data_transformer.py:276-289 | Raises exactly for a date-valued or a zone-aware registration stamp; otherwise sets only the lifetime in days, 0 when the date is absent or does not parse. |
| Transformer.ZuluRegistrationDropsUser | src/data_transformer.py:276-289 | A registration stamp written with `Z` drops the user. |
| Transformer.LifetimeNonNegative | src/data_transformer.py:281-283 | A registration date not after now gives a lifetime of at least 0 days. |
| Transformer.TransformUsers | src/data_transformer.py:89-118 | The loop keeps, in order, exactly the users that transform. |
| Transformer.TransformSingleProduct | src/data_transformer.py:217-228 | Succeeds exactly when the keys are present and price and inventory convert. Copies id, name, category and supplier, applies the currency and inventory defaults, and computes the dollar price. |
| Transformer.InventoryStatus | src/data_transformer.py:294-300 | 0 is out of stock, below 10 is low stock, otherwise in stock, each as an if-and-only-if. |
| Transformer.PriceTier | src/data_transformer.py:302-309 | Below 50 is budget, below 200 is mid-range, otherwise premium, each as an if-and-only-if. |
| Transformer.PriceTierMonotone | src/data_transformer.py:302-309 | A dearer product never gets a cheaper tier. |
| Transformer.CalculateProductDerivedFields | src/data_transformer.py:291-311 | The inventory status is the band of the inventory count and the price tier is the band of the dollar price; every other field is kept. |
| Transformer.ValidatedProductTransforms | src/data_transformer.py:120-149 | A product that passed validation always transforms, with both tiers set and a positive dollar price. |
| Transformer.TransformProducts | src/data_transformer.py:120-149 | The loop keeps, in order, exactly the products that transform. |
| TransformedRecords.TransactionAsRecordFields | src/data_transformer.py:189-274 | The dictionary form of a transformed transaction holds the fields the transformer writes. |
| TransformedRecords.NoRawTimestamp | src/data_transformer.py:189-203 | A transformed transaction has no `timestamp` key; the stamp is kept as `transaction_timestamp`. |
| Grouping.Insert | src/data_transformer.py:328-340 | Adding a record updates only its key's accumulator, and a new key is appended to the key order. |
| Grouping.GroupContents | src/data_transformer.py:318-367 | A key has a group exactly when some record has that key, and the group's accumulator folds that key's records in order. |
| Grouping.GroupKeys | src/data_transformer.py:318-367 | The key order lists exactly the keys that occur. |
| Grouping.GroupSum | src/data_transformer.py:318-367 | Summing a measure over the groups gives the total over the keyed records. |
| Grouping.GroupInto | src/data_transformer.py:321-352 | The accumulating loop computes `GroupBy`. |
| Analytics.BreakdownTotals | src/data_transformer.py:342-352 | The currency breakdown adds up the raw amounts; the payment-method breakdown adds up the dollar amounts. |
| Analytics.Average | src/data_transformer.py:362 | Average order value, guarded to 0 for no orders; otherwise the average times the count is the total. |
| Analytics.CreateDailySalesSummary | src/data_transformer.py:318-367 | The loop computes the daily summary function. |
| Analytics.BuildDayRows | src/data_transformer.py:354-365 | The conversion loop gives one row per grouped date, in first-seen order, each from that date's totals. |
| Analytics.DailyRowsPerDate | src/data_transformer.py:318-367 | One row per date: dates are distinct, and a date has a row exactly when some transaction falls on it. |
| Analytics.DailyRowContents | src/data_transformer.py:338-365 | A row's revenue and count are those of its date's transactions. Its payment-method breakdown adds up to the revenue; its currency breakdown adds up to the raw amounts; unique customers are at most the count. |
| Analytics.DailyTotals | src/data_transformer.py:318-367 | The rows' revenues and counts add up to those of the dated transactions. |
| Analytics.LatestDateIsLatest | src/data_transformer.py:392-394 | The last order date is the latest date among the user's transactions. |
| Analytics.CreateUserAnalytics | src/data_transformer.py:369-417 | Builds one row per user id that occurs; each row holds its totals, the joined user fields and a preferred method and category picked from that user's transactions. |
| Analytics.BuildUserRows | src/data_transformer.py:396-415 | One row per grouped user id, in first-seen order; each row carries that user's totals and the fields of the joined user record. |
| Analytics.UserRowContents | src/data_transformer.py:386-411 | A row's orders, spend and last date are those of that user's transactions. |
| Analytics.UserRowPreferred | src/data_transformer.py:412-413 | The preferred method and category are each used by at least one of the user's transactions. |
| Analytics.PreferredMethodNotMode | src/data_transformer.py:412 | The preferred method can be one the user used less often: it is any member of the set. |
| Analytics.UserTotalsAddUp | src/data_transformer.py:369-417 | Spend and orders over all rows add up to the totals over all transactions. |
| Analytics.PerformanceTier | src/data_transformer.py:455 | Above 5000 is high, above 1000 is medium, otherwise low, each as an if-and-only-if. |
| Analytics.CreateProductPerformance | src/data_transformer.py:419-458 | The loop computes the product performance function. |
| Analytics.BuildProductRows | src/data_transformer.py:438-456 | One row per grouped product id, in first-seen order, each from its totals and the joined product. |
| Analytics.ProductRowContents | src/data_transformer.py:434-456 | A row's orders, revenue and unique customers are those of its product's transactions; a known product contributes its dollar price and inventory. |
| Analytics.CreateFinancialReports | src/data_transformer.py:460-492 | The loop computes the one-row financial report. |
| Analytics.FinancialReportTotals | src/data_transformer.py:460-492 | Counts every transaction; both breakdowns add up to the totals; no transactions gives zero revenue and zero average. |
| Analytics.DailyAndFinancialAgree | src/data_transformer.py:318-367 | Financial revenue equals the daily rows' revenue plus that of the undated transactions. |
| Analytics.CreateAnalyticsTables | src/data_transformer.py:151-187 | The four tables are the four reducers' results. |
| DataQuality.ThresholdsAgree | tests/test_data_quality.py:16-21 | The test thresholds are the configured quality thresholds. |
| DataQuality.CompletenessFieldScores | tests/test_data_quality.py:23-42 | One score per required field: the share of records with a present value. |
| DataQuality.CompletenessBounds | tests/test_data_quality.py:23-42 | The score is in [0, 1]; it passes exactly at 0.95 or above; no records give 0. |
| DataQuality.CompletenessFull | tests/test_data_quality.py:23-42 | When every field of every record is present, the score is 1. |
| DataQuality.CollectIssues | tests/test_data_quality.py:48-66 | The loop gathers the per-record issues in order and stops at the first record that raises. |
| DataQuality.AccuracyCheckReports | tests/test_data_quality.py:49-66 | Each of the four issues is reported exactly when its check fails. |
| DataQuality.AccuracyListsAgree | tests/test_data_quality.py:59-64 | The accuracy test uses the configured payment-method and status lists. |
| DataQuality.TestTransactionAccuracy | tests/test_data_quality.py:44-77 | The loop computes the accuracy function. |
| DataQuality.AccuracyBounds | tests/test_data_quality.py:44-77 | The score is between -3 and 1, because one record can fail 4 checks but only 1 is counted; it passes exactly at 0.99 or above. |
| DataQuality.CurrencyMapKeys | tests/test_data_quality.py:96 | The product currency map exists exactly when every product has an id, and its keys are those ids. |
| DataQuality.TestDataConsistency | tests/test_data_quality.py:79-113 | The loop computes the consistency function. |
| DataQuality.ConsistencyBounds | tests/test_data_quality.py:79-113 | Raises exactly when a user or product lacks its id. Otherwise the score is in [1/3, 1], 0 for no transactions, and passes at 0.98 or above. |
| DataQuality.CountTimely | tests/test_data_quality.py:120-130 | The loop counts the timely records and stops where the source raises. |
| DataQuality.TestDataTimeliness | tests/test_data_quality.py:115-141 | The timeliness test computes the timeliness function. |
| DataQuality.TimelinessBounds | tests/test_data_quality.py:115-141 | The timely count is at most the total, the score is in [0, 1], and the test passes at 0.90 or above. |
| DataQuality.NeverTimely | tests/test_data_quality.py:124-130 | A record without a stamp, or with a zone-aware stamp, is never timely. |
| DataQuality.TestBusinessRules | tests/test_data_quality.py:143-174 | The loop computes the business-rules function. |
| DataQuality.BusinessRulesBounds | tests/test_data_quality.py:143-174 | The score is in [1/3, 1] when there are transactions, 0 otherwise; it passes at 0.95 or above. |
| DataQuality.RunAllTests | tests/test_data_quality.py:176-201 | Runs the five tests and computes the report. |
| DataQuality.ReportSummary | tests/test_data_quality.py:186-201 | The overall score is the mean of the five scores; all tests pass exactly when 5 pass; passed plus failed is 5. |
| DataQuality.AllTestsReport | tests/test_data_quality.py:176-201 | When no test raises, the report is built from the five test results, with a 24-hour SLA. |
| DataQuality.AllTestsFails | tests/test_data_quality.py:176-201 | The run raises exactly when one of the four tests that can raise does. |
| TransformedQuality.TransformedCompletenessAtMost | src/pipeline.py:283-289 | Transformed transactions have no `timestamp` key, so completeness is at most 7/8. |
| TransformedQuality.TransformedTimelinessZero | src/pipeline.py:283-289 | Transformed transactions are never timely, so timeliness is 0. |
| TransformedQuality.TransformedConsistencyRuns | src/pipeline.py:283-289 | The consistency test never raises on transformed data. |
| Pipeline.LoadTargets | src/pipeline.py:223-272 | One load result per kind present, then one per analytics table, each named with a `_bigquery` suffix. |
| Pipeline.FindStage | src/pipeline.py:34-116 | Finds a stage exactly when its name was recorded, and returns that stage's report. |
| Pipeline.StageDurations | src/pipeline.py:349-369 | One duration per stage, in stage order. |
| Pipeline.StagesInOrder | src/pipeline.py:59-92 | The recorded stages are a non-empty prefix of extraction, transformation, loading, quality validation, analytics creation; a run never ends as running. |
| Pipeline.CompletedIff | src/pipeline.py:59-101 | A run completes exactly when extraction, transformation and loading succeed. A completed run has five stages, no errors and an end time. |
| Pipeline.FailedRunStops | src/pipeline.py:59-114 | A failed run ends at its first failing stage, with that stage's message as its only error, without scores or metrics, and with end time and duration set. |
| Pipeline.QualityNeverStops | src/pipeline.py:80-101 | Failing quality does not stop the run: quality succeeds exactly when all tests pass, and analytics still runs. |
| Pipeline.MetricsOfStages | src/pipeline.py:349-369 | Records processed is the extraction total; the rate is records per second, 0 for zero duration; one duration per stage. |
| Pipeline.CompletedRunMetrics | src/pipeline.py:94-101 | A completed run's metrics are those of its five stages over the run's duration. |
| Pipeline.NamedSourcesCounts | src/pipeline.py:118-162 | A kind not named in the sources counts 0; a named kind counts the validated records read from its path. |
| Pipeline.DefaultSourcesCounts | src/pipeline.py:118-162 | With no sources given, the counts are the sizes of the validated default files. |
| Pipeline.TransformedCountsAreLengths | src/pipeline.py:164-221 | A kind is transformed exactly when it was extracted, and never grows. |
| Pipeline.TransformFailsIff | src/pipeline.py:164-221 | Transformation fails exactly when there are transactions and some user or product lacks its id. |
| Pipeline.CompletedRunQuality | src/pipeline.py:274-318 | In a completed run with scores, completeness is at most 7/8 and timeliness is 0. |
| Pipeline.AnalyticsPipeline.constructor | src/pipeline.py:27-32 | A new pipeline has no start or end time. |
| Pipeline.AnalyticsPipeline.Status | src/pipeline.py:387-394 | Running exactly when started and not ended; the duration is present exactly when ended. |
| Pipeline.AnalyticsPipeline.RunExtractionStage | src/pipeline.py:118-162 | Its data is the extraction result; its report succeeds exactly when extraction does. |
| Pipeline.AnalyticsPipeline.RunTransformationStage | src/pipeline.py:164-221 | Its data is the transformation result, and the analytics tables are built exactly when transformation succeeds. |
| Pipeline.AnalyticsPipeline.RunQualityValidationStage | src/pipeline.py:274-318 | The outcome is the quality report or the error; a successful report carries scores. |
| Pipeline.AnalyticsPipeline.RunStages | src/pipeline.py:59-92 | Runs the stages and ties each result to its specification function. |
| Pipeline.AnalyticsPipeline.RunFromTransformation | src/pipeline.py:66-92 | After a successful extraction: the transformation, and the later stages only when it succeeds; tables are built exactly when it succeeds. |
| Pipeline.AnalyticsPipeline.RunFromLoading | src/pipeline.py:74-92 | After a successful transformation: quality is validated exactly when loading succeeds, and then analytics creation is recorded too. |
| Pipeline.AnalyticsPipeline.RunPipeline | src/pipeline.py:34-116 | The results are `RunResults`. The start time is set; the end time is set only for a completed run; connections are closed once. A failed first run leaves the pipeline reporting running. |
| Database.FilterColumnsLookup | src/database_manager.py:153-156 | A filtered record keeps a key's value exactly when the key is a table column. |
| Database.EffectiveBatchSize | src/database_manager.py:144 | `batch_size or config.pipeline.batch_size`: both `None` and 0 fall back to the configured size; the result is 0 only when the configured size is 0. |
| Database.ChunksPartition | src/database_manager.py:168-174 | Batches together are the whole list; each holds 1 to n records. |
| Database.InsertSendsEveryRowOnce | src/database_manager.py:160-174 | The batches send every filtered row exactly once, in order, each under the insert statement. |
| Database.MissingColumnIsNull | src/database_manager.py:165 | A column missing from a record is sent as null. |
| Database.UpdatedColumnsMembers | src/database_manager.py:221 | A column is updated exactly when it is not a conflict column. |
| Database.SetClauseCovers | src/database_manager.py:221 | The upsert SET clause assigns `EXCLUDED.c` to each non-conflict column. |
| Database.NoConflictKeepsAll | src/database_manager.py:221 | With no conflict columns, every column is updated. |
| Database.StatementsWellFormed | src/database_manager.py:283-288 | The schema's statements are non-empty, hold no `;` and have no surrounding whitespace. |
| Database.CreateTableStatementsSelect | src/database_manager.py:283-288 | Only the `CREATE TABLE` statements are run, in file order. |
| Database.SelectCreateTables | src/database_manager.py:285-288 | The statement loop computes the selection of `CREATE TABLE` statements, in schema order. |
| Database.CountQuery | src/database_manager.py:371-401 | A count query exists exactly for "postgres" and "bigquery". |
| Database.CountIn | src/database_manager.py:384-401 | A first row with a `count` key gives that value; a failing query, no rows or a missing key gives 0. |
| Database.FilterRecords | src/database_manager.py:153-156 | The loop filters every record to the table's columns. |
| Database.BatchRows | src/database_manager.py:163-166 | The loop builds one value row per record, in column order. |
| Database.DatabaseManager.constructor | src/database_manager.py:32-53 | PostgreSQL is open; BigQuery is connected exactly when available; nothing has been sent. |
| Database.DatabaseManager.InsertPostgresData | src/database_manager.py:128-194 | No data returns 0 and sends nothing. Otherwise it sends the batched inserts of the filtered records and returns the number of records; a negative batch size sends nothing and returns 0; a zero batch size sends nothing and raises the ValueError of `range`. |
| Database.DatabaseManager.SendBatches | src/database_manager.py:168-174 | The batch loop appends one execution per batch and counts every record. |
| Database.DatabaseManager.UpsertPostgresData | src/database_manager.py:196-242 | No data returns 0; otherwise one upsert statement over all rows, returning their number. |
| Database.DatabaseManager.CreateBigqueryTables | src/database_manager.py:272-294 | Runs the schema's create statements only when BigQuery is connected. |
| Database.DatabaseManager.InsertBigqueryData | src/database_manager.py:296-340 | Returns 0 without a client or data; otherwise loads every row once and returns their number. |
| Database.DatabaseManager.TableCount | src/database_manager.py:371-401 | For `postgres`, and for `bigquery` with a client, the count is the `count` of the query's first row. An unknown database, a missing client, a failing query or no rows all give 0. |
| Database.DatabaseManager.CloseConnections | src/database_manager.py:403-416 | Both connections are closed and nothing sent is lost. |
| Performance.ThresholdsAgree | tests/test_performance.py:17-23 | The benchmark thresholds are the configured performance thresholds. |
| Performance.PassedCountExtremes | tests/test_performance.py:261-262 | All tests pass exactly when the count is the total; none pass exactly when it is 0. |
| Performance.OverallScoreBounds | tests/test_performance.py:261-264 | The score is in [0, 1]; it is 1 exactly when all pass and 0 exactly when none pass or there are no tests. |
| Performance.GradeBands | tests/test_performance.py:277-288 | Each grade covers exactly its band of scores. |
| Performance.GradeMonotone | tests/test_performance.py:277-288 | A higher score never gets a worse grade. |
| Performance.GenerateRecommendations | tests/test_performance.py:290-303 | The loop computes the recommendations function. |
| Performance.RecommendationsFromFailures | tests/test_performance.py:290-303 | Each recommendation is the advice for a distinct failed test, in test order, and every failed test with advice gets one. |
| Performance.AdvicePriority | tests/test_performance.py:294-301 | Processing wins over memory, which wins over query; a name with none of the three gets no advice. |
| Performance.Summarize | tests/test_performance.py:258-275 | The score is the share of passed tests, the grade is the grade of that score, and the recommendations are those of the failed tests. No tests give score 0 and grade F; all tests passed give grade A and no recommendations. |
| Performance.SummaryGradeA | tests/test_performance.py:262-279 | The summary grade is A exactly when there are tests and at least nine in ten passed. |

## Overall quality score

- The overall quality score is the mean of all five test scores, business
  rules included (tests/test_data_quality.py:186-187). See
  `DataQuality.ReportSummary`.

## Left out

- File, CSV and JSON reading and HTTP requests: readers and attempt outcomes
  are parameters (`Extractor.Reader`, the `attempts` function).
  `time.sleep` is modelled as the list of waits.
- Logging throughout, and the dynamic import of the quality module in the
  quality stage.
- PostgreSQL and BigQuery mechanics and SQL semantics: the cursor is a sink
  that records each `executemany`. `ON CONFLICT` behaviour and the database
  exceptions with their rollback are not modelled.
- Database.DatabaseManager.constructor: the PostgreSQL connection is taken to
  succeed. `_initialize_connections` swallows a connection error whose text
  does not mention "PostgreSQL", and `get_postgres_cursor` later reconnects;
  neither path is modelled.
- Database.DatabaseManager.InsertPostgresData: the columns of the target
  table are a parameter (`valid`) instead of being read from the catalogue
  by `_get_table_columns`.
- The early `return 0` when `filtered_data` is empty is not modelled. It is
  never taken: `data` is non-empty there and `filtered_data` holds one
  entry per record.
- The SQL text is built without the source's line breaks and indentation.
- Database.DatabaseManager.CreateBigqueryTables: the schema file's text is a
  parameter, and reading the file is not modelled.
- Database.DatabaseManager.CreateBigqueryTables: the jobs are added to the
  recorded state together, after the statement loop. A query that fails
  midway would leave only the earlier jobs run; that failure is not modelled.
- `create_postgres_tables`, `query_postgres` and `query_bigquery` run SQL
  files and arbitrary queries. Their results enter `TableCount` as query
  runners.
- Floating point is modelled as exact `real` arithmetic. Rounding, NaN and
  infinity are not modelled.
- `float()` and `int()` of strings accept only plain decimal numerals.
- Date parsing accepts only the fixed form `YYYY-MM-DD[THH:MM:SS[±HH:MM]]`,
  not all of `fromisoformat`.
- Weekday names are the English ones.
- The clock is a parameter: `now`, `today`, the start and end times, and each
  stage's duration. Times have whole seconds: `datetime.now()` also carries
  microseconds, so a stamp within a second of the 24-hour cutoff of the
  timeliness test (tests/test_data_quality.py:117-127) can fall on the other
  side of the cutoff in the model.
- The text of the issue messages of the quality tests is not modelled: each
  issue is a datatype value.
- Dictionaries the source updates in place are modelled as new values.
- `run_incremental_pipeline` is not modelled: it only calls `run_pipeline`.
- The performance measurements themselves are not modelled: timing, memory,
  concurrency and scalability need timers, psutil and threads. Their results
  are an input to `Performance.Summarize`.
- tests/test_integration.py and run_challenge.py are not part of this model.
- Transformer.CalculateUserDerivedFields: a registration date before year 1
  cannot be written in the accepted form, so the OverflowError is not
  modelled.
- Python's distinction between `0` and `0.0` in the typed outputs, as in the
  default base price and the metrics of an empty run, is not modelled: there
  both are one number.
- Raw values compare structurally: `Int(1)`, `Float(1.0)` and `Bool(true)`
  are different values. Python treats `1`, `1.0` and `True` as one dictionary
  key and one set member, so ids of different numeric types that Python
  merges are different keys in the model. This affects
  `Transformer.BuildLookup`, `DataQuality.IdSet`, `Analytics.UserLookup`,
  `Analytics.ProductLookup`, the customer, payment-method and category sets,
  and the group-by keys.
- Common.Strip: only ASCII whitespace is removed. Python's `str.strip()` also
  removes Unicode spaces such as U+00A0, U+2003 and U+0085. The same holds
  for `Common.IsSpace`, `Database.Statements` and `Database.CreateTableOnly`.
- Common.IsUpperCase: only ASCII letters have a case, and `Common.Upper` only
  upper-cases ASCII letters. Python's `str.isupper()` and `str.upper()` also
  cover other letters, so a currency code such as `ABé` passes the model's
  format check, while the accuracy test's check (tests/test_data_quality.py:55)
  reports it.
