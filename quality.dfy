/** The data-quality scorer the pipeline runs after loading: five checks over raw
    transaction, user and product records, each giving a ratio score that passes
    at a threshold, and their mean. A check that would raise an uncaught Python
    exception gives `Err`. */
module DataQuality {
  import opened Common
  import opened IsoTime
  import opened Values
  import Config

  // ---------------------------------------------------------------------------
  // Results

  /** One entry of an issue or violation list; the text of the message is not
      modelled, only what it reports and the values it quotes. */
  datatype Issue =
    | InvalidAmount(amount: Value)
    | InvalidCurrencyFormat(currency: Value)
    | InvalidPaymentMethod(paymentMethod: Value)
    | InvalidStatus(status: Value)
    | MissingUser(transactionId: Value, userId: Value)
    | MissingProduct(transactionId: Value, productId: Value)
    | CurrencyMismatch(transactionId: Value)
    | NonPositiveCompleted(transactionId: Value)
    | RefundWithoutId
    | NonPreferredHighValue(transactionId: Value)

  datatype Details =
    | FieldScores(scores: seq<(string, real)>)
    | Issues(issues: seq<Issue>)
    | Timely(timelyRecords: nat, totalRecords: nat)

  datatype TestResult = TestResult(testName: string, overallScore: real, details: Details, passed: bool, threshold: real)

  /** `quality_thresholds` of the scorer. */
  const Thresholds: Config.QualityThresholds := Config.QualityThresholds(0.95, 0.99, 0.98, 0.90)
  const BusinessRulesThreshold: real := 0.95

  /** The scorer's thresholds are the configured data-quality thresholds. */
  lemma ThresholdsAgree()
    ensures Thresholds == Config.DataQualityThresholds
  {
  }

  /** `count / total if total > 0 else 0` */
  function Ratio(count: nat, total: nat): (r: real)
    ensures total == 0 ==> r == 0.0
    ensures total > 0 ==> r * total as real == count as real
    ensures count <= total ==> 0.0 <= r <= 1.0
  {
    if total > 0 then count as real / total as real else 0.0
  }

  /** `1 - (issues / checks) if checks > 0 else 0` */
  function IssueScore(issues: nat, checks: nat): (r: real)
    ensures checks == 0 ==> r == 0.0
    ensures checks > 0 ==> (1.0 - r) * checks as real == issues as real
    ensures checks > 0 ==> r <= 1.0
  {
    if checks > 0 then 1.0 - issues as real / checks as real else 0.0
  }

  /** With at most `k` issues per record over `m` checks per record the score is
      at least `1 - k/m`. */
  lemma IssueScoreAtLeast(issues: nat, n: nat, m: nat, k: nat)
    requires n > 0 && m > 0 && issues <= k * n
    ensures IssueScore(issues, m * n) >= 1.0 - k as real / m as real
  {
    var d := 1.0 - IssueScore(issues, m * n);
    assert d * (m * n) as real == issues as real;
    assert d * m as real * n as real <= k as real * n as real;
    if d * m as real > k as real {
      MulPositive(d * m as real - k as real, n as real);
    }
    assert d * m as real <= k as real;
    var q := k as real / m as real;
    assert q * m as real == k as real;
    if d > q {
      MulPositive(d - q, m as real);
    }
  }

  lemma MulPositive(a: real, b: real)
    requires a > 0.0 && b > 0.0
    ensures a * b > 0.0
  {
  }

  // ---------------------------------------------------------------------------
  // Completeness

  const RequiredFields: seq<string> :=
    ["transaction_id", "user_id", "product_id", "amount", "currency", "timestamp", "payment_method", "status"]

  /** `txn.get(field) is not None and txn.get(field) != ''` */
  predicate Present(v: Value) {
    !v.Null? && v != Str("")
  }

  function PresentCount(txns: seq<Record>, field: string): (c: nat)
    ensures c <= |txns|
  {
    if txns == [] then 0
    else PresentCount(txns[..|txns| - 1], field) + (if Present(Get(txns[|txns| - 1], field)) then 1 else 0)
  }

  /** The count is the number of records where the field is present: all of them
      when it is everywhere, none when it is nowhere. */
  lemma {:induction false} PresentCountExtremes(txns: seq<Record>, field: string)
    ensures (forall i :: 0 <= i < |txns| ==> Present(Get(txns[i], field))) ==> PresentCount(txns, field) == |txns|
    ensures (forall i :: 0 <= i < |txns| ==> !Present(Get(txns[i], field))) ==> PresentCount(txns, field) == 0
  {
    if txns != [] {
      var front := txns[..|txns| - 1];
      PresentCountExtremes(front, field);
      assert forall i :: 0 <= i < |front| ==> front[i] == txns[i];
    }
  }

  /** `{field: non_null_count / total_records ...}` in field order. */
  function FieldScoresOf(txns: seq<Record>, fields: seq<string>): (r: seq<(string, real)>)
    ensures |r| == |fields|
    ensures forall i :: 0 <= i < |fields| ==> r[i] == (fields[i], Ratio(PresentCount(txns, fields[i]), |txns|))
  {
    if fields == [] then []
    else [(fields[0], Ratio(PresentCount(txns, fields[0]), |txns|))] + FieldScoresOf(txns, fields[1..])
  }

  function SumScores(scores: seq<(string, real)>): real {
    if scores == [] then 0.0 else scores[0].1 + SumScores(scores[1..])
  }

  /** Scores in [lo, hi] sum to between `lo` and `hi` times their number. */
  lemma {:induction false} SumScoresBounds(scores: seq<(string, real)>, lo: real, hi: real)
    requires forall i :: 0 <= i < |scores| ==> lo <= scores[i].1 <= hi
    ensures lo * |scores| as real <= SumScores(scores) <= hi * |scores| as real
  {
    if scores != [] {
      SumScoresBounds(scores[1..], lo, hi);
      assert scores[0] == scores[0];
    }
  }

  /** One score of 0 among scores of at most 1 keeps the sum one below their number. */
  lemma {:induction false} SumScoresWithZero(scores: seq<(string, real)>, j: nat)
    requires j < |scores| && scores[j].1 == 0.0
    requires forall i :: 0 <= i < |scores| ==> 0.0 <= scores[i].1 <= 1.0
    ensures SumScores(scores) <= (|scores| - 1) as real
  {
    if j == 0 {
      SumScoresBounds(scores[1..], 0.0, 1.0);
    } else {
      SumScoresWithZero(scores[1..], j - 1);
    }
  }

  /** `test_transaction_completeness` */
  function TransactionCompleteness(txns: seq<Record>): TestResult {
    var scores := FieldScoresOf(txns, RequiredFields);
    var overall := SumScores(scores) / |RequiredFields| as real;
    TestResult("transaction_completeness", overall, FieldScores(scores), overall >= Thresholds.completeness,
               Thresholds.completeness)
  }

  /** Every field score is the fraction of the records having that field. */
  lemma CompletenessFieldScores(txns: seq<Record>, i: nat)
    requires i < 8
    ensures var r := TransactionCompleteness(txns);
      && r.details.FieldScores? && |r.details.scores| == 8
      && r.details.scores[i] == (RequiredFields[i], Ratio(PresentCount(txns, RequiredFields[i]), |txns|))
  {
  }

  /** The overall score is the mean of the field scores: it lies in [0, 1], is 0
      for no records, and passes at 0.95. */
  lemma CompletenessBounds(txns: seq<Record>)
    ensures var r := TransactionCompleteness(txns);
      && 0.0 <= r.overallScore <= 1.0
      && (r.passed <==> r.overallScore >= 0.95)
      && (txns == [] ==> r.overallScore == 0.0)
  {
    var scores := FieldScoresOf(txns, RequiredFields);
    SumScoresBounds(scores, 0.0, 1.0);
    if txns == [] {
      SumScoresBounds(scores, 0.0, 0.0);
    }
  }

  lemma CompletenessFull(txns: seq<Record>)
    requires txns != []
    requires forall i, j :: 0 <= i < |txns| && 0 <= j < 8 ==> Present(Get(txns[i], RequiredFields[j]))
    ensures TransactionCompleteness(txns).overallScore == 1.0
  {
    var scores := FieldScoresOf(txns, RequiredFields);
    forall j | 0 <= j < 8
      ensures scores[j].1 == 1.0
    {
      FieldFull(txns, RequiredFields, j);
    }
    SumScoresBounds(scores, 1.0, 1.0);
  }

  /** A field present in every record scores 1. */
  lemma FieldFull(txns: seq<Record>, fields: seq<string>, j: nat)
    requires txns != [] && j < |fields|
    requires forall i :: 0 <= i < |txns| ==> Present(Get(txns[i], fields[j]))
    ensures FieldScoresOf(txns, fields)[j].1 == 1.0
  {
    var c := PresentCount(txns, fields[j]);
    PresentCountExtremes(txns, fields[j]);
    assert c == |txns|;
    RatioWhole(|txns|);
  }

  lemma RatioWhole(n: nat)
    requires n > 0
    ensures Ratio(n, n) == 1.0
  {
  }

  // ---------------------------------------------------------------------------
  // Collecting issues record by record

  /** Runs `check` on each record in order and concatenates the issues; the first
      record whose check raises makes the whole loop raise. */
  function Collect(xs: seq<Record>, check: Record -> Result<seq<Issue>>): Result<seq<Issue>> {
    if xs == [] then Ok([])
    else
      match Collect(xs[..|xs| - 1], check)
      case Err(e) => Err(e)
      case Ok(front) =>
        match check(xs[|xs| - 1])
        case Err(e) => Err(e)
        case Ok(more) => Ok(front + more)
  }

  /** Once a prefix raises, so does the whole list, with the same error. */
  lemma {:induction false} CollectStops(xs: seq<Record>, check: Record -> Result<seq<Issue>>, i: nat)
    requires i <= |xs| && Collect(xs[..i], check).Err?
    ensures Collect(xs, check) == Collect(xs[..i], check)
    decreases |xs| - i
  {
    if i < |xs| {
      var front := xs[..|xs| - 1];
      assert front[..i] == xs[..i];
      CollectStops(front, check, i);
    } else {
      assert xs[..i] == xs;
    }
  }

  /** A check that never raises on these records never makes the loop raise. */
  lemma {:induction false} CollectTotal(xs: seq<Record>, check: Record -> Result<seq<Issue>>)
    requires forall i :: 0 <= i < |xs| ==> check(xs[i]).Ok?
    ensures Collect(xs, check).Ok?
  {
    if xs != [] {
      var front := xs[..|xs| - 1];
      assert forall i :: 0 <= i < |front| ==> front[i] == xs[i];
      CollectTotal(front, check);
    }
  }

  /** Two loops over the same records with at most `k` issues per record between
      them report at most `k` issues per record. */
  lemma {:induction false} CollectBound2(xs: seq<Record>, c1: Record -> Result<seq<Issue>>,
                                         c2: Record -> Result<seq<Issue>>, k: nat)
    requires Collect(xs, c1).Ok? && Collect(xs, c2).Ok?
    requires forall i :: 0 <= i < |xs| ==> c1(xs[i]).Ok? && c2(xs[i]).Ok? ==>
      |c1(xs[i]).value| + |c2(xs[i]).value| <= k
    ensures |Collect(xs, c1).value| + |Collect(xs, c2).value| <= k * |xs|
  {
    if xs != [] {
      var front := xs[..|xs| - 1];
      assert forall i :: 0 <= i < |front| ==> front[i] == xs[i];
      CollectBound2(front, c1, c2, k);
      CollectSnoc(xs, c1);
      CollectSnoc(xs, c2);
      assert k * |xs| == k * |front| + k;
    }
  }

  lemma {:induction false} CollectBound3(xs: seq<Record>, c1: Record -> Result<seq<Issue>>,
                                         c2: Record -> Result<seq<Issue>>, c3: Record -> Result<seq<Issue>>, k: nat)
    requires Collect(xs, c1).Ok? && Collect(xs, c2).Ok? && Collect(xs, c3).Ok?
    requires forall i :: 0 <= i < |xs| ==> c1(xs[i]).Ok? && c2(xs[i]).Ok? && c3(xs[i]).Ok? ==>
      |c1(xs[i]).value| + |c2(xs[i]).value| + |c3(xs[i]).value| <= k
    ensures |Collect(xs, c1).value| + |Collect(xs, c2).value| + |Collect(xs, c3).value| <= k * |xs|
  {
    if xs != [] {
      var front := xs[..|xs| - 1];
      assert forall i :: 0 <= i < |front| ==> front[i] == xs[i];
      CollectBound3(front, c1, c2, c3, k);
      CollectSnoc(xs, c1);
      CollectSnoc(xs, c2);
      CollectSnoc(xs, c3);
      assert k * |xs| == k * |front| + k;
    }
  }

  /** A loop that did not raise ran the check on every record, the last one included. */
  lemma CollectSnoc(xs: seq<Record>, check: Record -> Result<seq<Issue>>)
    requires xs != [] && Collect(xs, check).Ok?
    ensures Collect(xs[..|xs| - 1], check).Ok? && check(xs[|xs| - 1]).Ok?
    ensures |Collect(xs, check).value| == |Collect(xs[..|xs| - 1], check).value| + |check(xs[|xs| - 1]).value|
  {
  }

  /** The `for txn in transactions:` loop that appends to an issue list. */
  method CollectIssues(xs: seq<Record>, check: Record -> Result<seq<Issue>>) returns (r: Result<seq<Issue>>)
    ensures r == Collect(xs, check)
  {
    var issues: seq<Issue> := [];
    var i := 0;
    while i < |xs|
      invariant 0 <= i <= |xs|
      invariant Collect(xs[..i], check) == Ok(issues)
    {
      assert xs[..i + 1][..i] == xs[..i];
      match check(xs[i]) {
        case Err(e) =>
          CollectStops(xs, check, i + 1);
          return Err(e);
        case Ok(more) =>
          issues := issues + more;
      }
      i := i + 1;
    }
    assert xs[..i] == xs;
    return Ok(issues);
  }

  // ---------------------------------------------------------------------------
  // Accuracy

  const AccuracyPaymentMethods: seq<string> := ["credit_card", "debit_card", "paypal", "apple_pay", "google_pay"]
  const AccuracyStatuses: seq<string> := ["pending", "completed", "failed", "refunded", "cancelled"]

  /** The scorer's lists of payment methods and statuses are the configured ones. */
  lemma AccuracyListsAgree()
    ensures AccuracyPaymentMethods == Config.ValidPaymentMethods
    ensures AccuracyStatuses == Config.ValidStatuses
  {
  }

  /** The four checks on one transaction. `txn.get('amount', 0) <= 0` raises
      TypeError on a non-number, and `len(currency)` on a non-string. */
  function AccuracyCheck(txn: Record): Result<seq<Issue>> {
    match Num(GetOr(txn, "amount", Int(0)))
    case None => Err("TypeError: '<=' not supported for amount")
    case Some(amount) =>
      var currency := GetOr(txn, "currency", Str(""));
      match Len(currency)
      case None => Err("TypeError: currency has no len()")
      case Some(n) =>
        Ok((if amount <= 0.0 then [InvalidAmount(Get(txn, "amount"))] else [])
           + (if n != 3 || !IsUpperCase(currency.s) then [InvalidCurrencyFormat(currency)] else [])
           + (if !InStrings(Get(txn, "payment_method"), AccuracyPaymentMethods)
              then [InvalidPaymentMethod(Get(txn, "payment_method"))] else [])
           + (if !InStrings(Get(txn, "status"), AccuracyStatuses) then [InvalidStatus(Get(txn, "status"))] else []))
  }

  /** What the check reports on one transaction: each issue exactly when its
      condition holds, so never more than four. */
  lemma AccuracyCheckReports(txn: Record)
    requires AccuracyCheck(txn).Ok?
    ensures var issues := AccuracyCheck(txn).value;
      var amount := Num(GetOr(txn, "amount", Int(0))).value;
      var currency := GetOr(txn, "currency", Str(""));
      && |issues| <= 4
      && (InvalidAmount(Get(txn, "amount")) in issues <==> amount <= 0.0)
      && (InvalidCurrencyFormat(currency) in issues <==> |currency.s| != 3 || !IsUpperCase(currency.s))
      && (InvalidPaymentMethod(Get(txn, "payment_method")) in issues <==>
            !InStrings(Get(txn, "payment_method"), AccuracyPaymentMethods))
      && (InvalidStatus(Get(txn, "status")) in issues <==> !InStrings(Get(txn, "status"), AccuracyStatuses))
  {
  }

  function AccuracyResult(issues: seq<Issue>, n: nat): TestResult {
    var score := IssueScore(|issues|, n);
    TestResult("transaction_accuracy", score, Issues(issues), score >= Thresholds.accuracy, Thresholds.accuracy)
  }

  /** `test_transaction_accuracy` */
  function TransactionAccuracy(txns: seq<Record>): Result<TestResult> {
    match Collect(txns, AccuracyCheck)
    case Err(e) => Err(e)
    case Ok(issues) => Ok(AccuracyResult(issues, |txns|))
  }

  method TestTransactionAccuracy(txns: seq<Record>) returns (r: Result<TestResult>)
    ensures r == TransactionAccuracy(txns)
  {
    var issues := CollectIssues(txns, AccuracyCheck);
    match issues {
      case Err(e) => r := Err(e);
      case Ok(found) => r := Ok(AccuracyResult(found, |txns|));
    }
  }

  /** When the loop does not raise, no record's check raised. */
  lemma {:induction false} CollectOkEach(xs: seq<Record>, check: Record -> Result<seq<Issue>>)
    requires Collect(xs, check).Ok?
    ensures forall i :: 0 <= i < |xs| ==> check(xs[i]).Ok?
  {
    if xs != [] {
      var front := xs[..|xs| - 1];
      CollectOkEach(front, check);
      assert forall i :: 0 <= i < |front| ==> front[i] == xs[i];
    }
  }

  /** At most four issues per record keep the score in [-3, 1]; it is 0 for no
      records and passes at 0.99. */
  lemma AccuracyBounds(txns: seq<Record>)
    requires TransactionAccuracy(txns).Ok?
    ensures var r := TransactionAccuracy(txns).value;
      && -3.0 <= r.overallScore <= 1.0
      && (txns == [] ==> r.overallScore == 0.0)
      && (r.passed <==> r.overallScore >= 0.99)
  {
    CollectOkEach(txns, AccuracyCheck);
    var none: Record -> Result<seq<Issue>> := _ => Ok([]);
    forall i | 0 <= i < |txns| ensures |AccuracyCheck(txns[i]).value| + |none(txns[i]).value| <= 4 {
      AccuracyCheckReports(txns[i]);
    }
    CollectTotal(txns, none);
    CollectBound2(txns, AccuracyCheck, none, 4);
    if txns != [] {
      IssueScoreAtLeast(|Collect(txns, AccuracyCheck).value|, |txns|, 1, 4);
    }
  }

  // ---------------------------------------------------------------------------
  // Consistency

  /** `{r[key] for r in rs}`; a record without the key raises KeyError. */
  function IdSet(rs: seq<Record>, key: string): (r: Result<set<Value>>)
    ensures r.Ok? <==> forall i :: 0 <= i < |rs| ==> Has(rs[i], key)
  {
    if rs == [] then Ok({})
    else
      var front := rs[..|rs| - 1];
      assert forall i :: 0 <= i < |front| ==> front[i] == rs[i];
      match IdSet(front, key)
      case Err(e) => Err(e)
      case Ok(ids) =>
        match Lookup(rs[|rs| - 1], key)
        case None => Err("KeyError: '" + key + "'")
        case Some(id) => Ok(ids + {id})
  }

  /** `{p['product_id']: p.get('currency', 'USD') for p in products}` */
  function CurrencyMap(products: seq<Record>): (r: Result<map<Value, Value>>) {
    if products == [] then Ok(map[])
    else
      var p := products[|products| - 1];
      match CurrencyMap(products[..|products| - 1])
      case Err(e) => Err(e)
      case Ok(m) =>
        match Lookup(p, "product_id")
        case None => Err("KeyError: 'product_id'")
        case Some(id) => Ok(m[id := GetOr(p, "currency", Str("USD"))])
  }

  /** The product ids and the currency map are built from the same key, so they
      fail together and the map's keys are the ids. */
  lemma {:induction false} CurrencyMapKeys(products: seq<Record>)
    ensures CurrencyMap(products).Ok? <==> IdSet(products, "product_id").Ok?
    ensures CurrencyMap(products).Ok? ==> CurrencyMap(products).value.Keys == IdSet(products, "product_id").value
  {
    if products != [] {
      CurrencyMapKeys(products[..|products| - 1]);
    }
  }

  /** The referential checks of the first loop. */
  function ReferenceCheck(userIds: set<Value>, productIds: set<Value>, txn: Record): Result<seq<Issue>> {
    var id := Get(txn, "transaction_id");
    Ok((if Get(txn, "user_id") !in userIds then [MissingUser(id, Get(txn, "user_id"))] else [])
       + (if Get(txn, "product_id") !in productIds then [MissingProduct(id, Get(txn, "product_id"))] else []))
  }

  /** The currency check of the second loop, for transactions whose product is known. */
  function CurrencyCheck(currencies: map<Value, Value>, txn: Record): Result<seq<Issue>> {
    var productId := Get(txn, "product_id");
    Ok(if productId in currencies && Get(txn, "currency") != currencies[productId]
       then [CurrencyMismatch(Get(txn, "transaction_id"))] else [])
  }

  /** A transaction can miss its user and either miss its product or disagree with
      its product's currency, never both: at most two issues. */
  lemma ConsistencyPerRecord(userIds: set<Value>, productIds: set<Value>, currencies: map<Value, Value>, txn: Record)
    requires currencies.Keys == productIds
    ensures |ReferenceCheck(userIds, productIds, txn).value| + |CurrencyCheck(currencies, txn).value| <= 2
  {
  }

  function ConsistencyResult(issues: seq<Issue>, n: nat): TestResult {
    var score := IssueScore(|issues|, 3 * n);
    TestResult("data_consistency", score, Issues(issues), score >= Thresholds.consistency, Thresholds.consistency)
  }

  /** `test_data_consistency` */
  function DataConsistency(txns: seq<Record>, users: seq<Record>, products: seq<Record>): Result<TestResult> {
    match IdSet(users, "user_id")
    case Err(e) => Err(e)
    case Ok(userIds) =>
      match IdSet(products, "product_id")
      case Err(e) => Err(e)
      case Ok(productIds) =>
        CurrencyMapKeys(products);
        var currencies := CurrencyMap(products).value;
        var ref := (t: Record) => ReferenceCheck(userIds, productIds, t);
        var cur := (t: Record) => CurrencyCheck(currencies, t);
        CollectTotal(txns, ref);
        CollectTotal(txns, cur);
        Ok(ConsistencyResult(Collect(txns, ref).value + Collect(txns, cur).value, |txns|))
  }

  method TestDataConsistency(txns: seq<Record>, users: seq<Record>, products: seq<Record>)
    returns (r: Result<TestResult>)
    ensures r == DataConsistency(txns, users, products)
  {
    var users_ := IdSet(users, "user_id");
    if users_.Err? {
      return Err(users_.error);
    }
    var products_ := IdSet(products, "product_id");
    if products_.Err? {
      return Err(products_.error);
    }
    var userIds, productIds := users_.value, products_.value;
    CurrencyMapKeys(products);
    var currencies := CurrencyMap(products).value;
    var ref := (t: Record) => ReferenceCheck(userIds, productIds, t);
    var cur := (t: Record) => CurrencyCheck(currencies, t);
    CollectTotal(txns, ref);
    CollectTotal(txns, cur);
    var first := CollectIssues(txns, ref);
    var second := CollectIssues(txns, cur);
    r := Ok(ConsistencyResult(first.value + second.value, |txns|));
  }

  /** The consistency check fails exactly when a user or a product lacks its id;
      otherwise its score is 0 for no records and lies in [1/3, 1] otherwise. */
  lemma ConsistencyBounds(txns: seq<Record>, users: seq<Record>, products: seq<Record>)
    ensures DataConsistency(txns, users, products).Ok? <==>
      (forall i :: 0 <= i < |users| ==> Has(users[i], "user_id"))
      && (forall i :: 0 <= i < |products| ==> Has(products[i], "product_id"))
    ensures DataConsistency(txns, users, products).Ok? ==>
      var r := DataConsistency(txns, users, products).value;
      && (txns == [] ==> r.overallScore == 0.0)
      && (txns != [] ==> 1.0 / 3.0 <= r.overallScore <= 1.0)
      && (r.passed <==> r.overallScore >= 0.98)
  {
    if DataConsistency(txns, users, products).Ok? {
      var userIds := IdSet(users, "user_id").value;
      var productIds := IdSet(products, "product_id").value;
      CurrencyMapKeys(products);
      var currencies := CurrencyMap(products).value;
      var ref := (t: Record) => ReferenceCheck(userIds, productIds, t);
      var cur := (t: Record) => CurrencyCheck(currencies, t);
      CollectTotal(txns, ref);
      CollectTotal(txns, cur);
      forall i | 0 <= i < |txns|
        ensures |ref(txns[i]).value| + |cur(txns[i]).value| <= 2
      {
        ConsistencyPerRecord(userIds, productIds, currencies, txns[i]);
      }
      CollectBound2(txns, ref, cur, 2);
      if txns != [] {
        IssueScoreAtLeast(|Collect(txns, ref).value + Collect(txns, cur).value|, |txns|, 3, 2);
      }
    }
  }

  // ---------------------------------------------------------------------------
  // Timeliness

  /** Whether one transaction arrived within the SLA. `.replace` on a value that is
      neither a string nor a date raises AttributeError, which is not caught; a
      date's own `replace` raises TypeError, which is. An unparsable stamp
      (ValueError) and an aware one compared with the naive cutoff (TypeError) are
      not timely. */
  function TimelyCheck(txn: Record, cutoff: int): Result<bool> {
    match GetOr(txn, "timestamp", Str(""))
    case Str(s) =>
      (match ParseStamp(s)
       case None => Ok(false)
       case Some(t) => Ok(!t.Aware() && Seconds(t) >= cutoff))
    case DateValue(_) => Ok(false)
    case _ => Err("AttributeError: object has no attribute 'replace'")
  }

  function TimelyCount(txns: seq<Record>, cutoff: int): (r: Result<nat>)
    ensures r.Ok? ==> r.value <= |txns|
  {
    if txns == [] then Ok(0)
    else
      match TimelyCount(txns[..|txns| - 1], cutoff)
      case Err(e) => Err(e)
      case Ok(n) =>
        match TimelyCheck(txns[|txns| - 1], cutoff)
        case Err(e) => Err(e)
        case Ok(b) => Ok(n + if b then 1 else 0)
  }

  lemma {:induction false} TimelyCountStops(xs: seq<Record>, cutoff: int, i: nat)
    requires i <= |xs| && TimelyCount(xs[..i], cutoff).Err?
    ensures TimelyCount(xs, cutoff) == TimelyCount(xs[..i], cutoff)
    decreases |xs| - i
  {
    if i < |xs| {
      var front := xs[..|xs| - 1];
      assert front[..i] == xs[..i];
      TimelyCountStops(front, cutoff, i);
    } else {
      assert xs[..i] == xs;
    }
  }

  /** The loop that increments `timely_records`. */
  method CountTimely(txns: seq<Record>, cutoff: int) returns (r: Result<nat>)
    ensures r == TimelyCount(txns, cutoff)
  {
    var timely := 0;
    var i := 0;
    while i < |txns|
      invariant 0 <= i <= |txns|
      invariant TimelyCount(txns[..i], cutoff) == Ok(timely)
    {
      assert txns[..i + 1][..i] == txns[..i];
      match TimelyCheck(txns[i], cutoff) {
        case Err(e) =>
          TimelyCountStops(txns, cutoff, i + 1);
          return Err(e);
        case Ok(b) =>
          if b {
            timely := timely + 1;
          }
      }
      i := i + 1;
    }
    assert txns[..i] == txns;
    return Ok(timely);
  }

  /** `now - timedelta(hours=sla_hours)`, in seconds. */
  function Cutoff(now: DateTime, slaHours: int): int
    requires ValidDateTime(now)
  {
    Seconds(now) - slaHours * 3600
  }

  function TimelinessResult(timely: nat, n: nat): TestResult {
    var score := Ratio(timely, n);
    TestResult("data_timeliness", score, Timely(timely, n), score >= Thresholds.timeliness, Thresholds.timeliness)
  }

  /** `test_data_timeliness`; `now` is the naive local clock reading. */
  function DataTimeliness(txns: seq<Record>, now: DateTime, slaHours: int): Result<TestResult>
    requires ValidDateTime(now)
  {
    match TimelyCount(txns, Cutoff(now, slaHours))
    case Err(e) => Err(e)
    case Ok(timely) => Ok(TimelinessResult(timely, |txns|))
  }

  method TestDataTimeliness(txns: seq<Record>, now: DateTime, slaHours: int) returns (r: Result<TestResult>)
    requires ValidDateTime(now)
    ensures r == DataTimeliness(txns, now, slaHours)
  {
    var count := CountTimely(txns, Cutoff(now, slaHours));
    match count {
      case Err(e) => r := Err(e);
      case Ok(timely) => r := Ok(TimelinessResult(timely, |txns|));
    }
  }

  /** Timely records never exceed the total, so the score lies in [0, 1]; it is 0
      for no records and passes at 0.90. */
  lemma TimelinessBounds(txns: seq<Record>, now: DateTime, slaHours: int)
    requires ValidDateTime(now) && DataTimeliness(txns, now, slaHours).Ok?
    ensures var r := DataTimeliness(txns, now, slaHours).value;
      && r.details.Timely? && r.details.timelyRecords <= r.details.totalRecords == |txns|
      && 0.0 <= r.overallScore <= 1.0
      && (txns == [] ==> r.overallScore == 0.0)
      && (r.passed <==> r.overallScore >= 0.90)
  {
  }

  /** Aware stamps, the `Z` ones among them, and missing or empty stamps are never
      timely, whatever the cutoff. */
  lemma NeverTimely(txn: Record, cutoff: int)
    ensures Lookup(txn, "timestamp").None? ==> TimelyCheck(txn, cutoff) == Ok(false)
    ensures (Get(txn, "timestamp").Str? && ParseStamp(Get(txn, "timestamp").s).Some? &&
             ParseStamp(Get(txn, "timestamp").s).value.Aware()) ==> TimelyCheck(txn, cutoff) == Ok(false)
    ensures (Get(txn, "timestamp").Str? && |Get(txn, "timestamp").s| > 0 &&
             Get(txn, "timestamp").s[|Get(txn, "timestamp").s| - 1] == 'Z') ==> TimelyCheck(txn, cutoff) == Ok(false)
  {
    var v := Get(txn, "timestamp");
    if Lookup(txn, "timestamp").None? {
      MissingStampNotTimely(txn, cutoff);
    }
    if v.Str? && ParseStamp(v.s).Some? && ParseStamp(v.s).value.Aware() {
      AwareStampNotTimely(txn, cutoff);
    }
    if v.Str? && |v.s| > 0 && v.s[|v.s| - 1] == 'Z' {
      ZuluStampNeverNaive(v.s);
      if ParseStamp(v.s).Some? {
        AwareStampNotTimely(txn, cutoff);
      }
    }
  }

  lemma MissingStampNotTimely(txn: Record, cutoff: int)
    requires Lookup(txn, "timestamp").None?
    ensures TimelyCheck(txn, cutoff) == Ok(false)
  {
    assert ReplaceChar("", 'Z', "+00:00") == "";
  }

  lemma AwareStampNotTimely(txn: Record, cutoff: int)
    requires Get(txn, "timestamp").Str? && ParseStamp(Get(txn, "timestamp").s).Some?
    requires ParseStamp(Get(txn, "timestamp").s).value.Aware()
    ensures TimelyCheck(txn, cutoff) == Ok(false)
  {
  }

  /** When every stamp is missing or aware, the timeliness score is 0. */
  lemma {:induction false} NoneTimely(txns: seq<Record>, cutoff: int)
    requires forall i :: 0 <= i < |txns| ==> TimelyCheck(txns[i], cutoff) == Ok(false)
    ensures TimelyCount(txns, cutoff) == Ok(0)
  {
    if txns != [] {
      var front := txns[..|txns| - 1];
      assert forall i :: 0 <= i < |front| ==> front[i] == txns[i];
      NoneTimely(front, cutoff);
    }
  }

  // ---------------------------------------------------------------------------
  // Business rules

  /** Rule 1: a completed transaction needs a positive amount; the comparison is
      only reached, and only raises, for completed ones. */
  function CompletedRule(txn: Record): Result<seq<Issue>> {
    if Get(txn, "status") != Str("completed") then Ok([])
    else
      match Num(GetOr(txn, "amount", Int(0)))
      case None => Err("TypeError: '<=' not supported for amount")
      case Some(amount) => Ok(if amount <= 0.0 then [NonPositiveCompleted(Get(txn, "transaction_id"))] else [])
  }

  /** Rule 2: a refunded transaction needs a truthy transaction id. */
  function RefundRule(txn: Record): Result<seq<Issue>> {
    Ok(if Get(txn, "status") == Str("refunded") && !Truthy(Get(txn, "transaction_id")) then [RefundWithoutId] else [])
  }

  /** Rule 3: above 500 only credit card or PayPal; selecting the high-value
      transactions compares every amount, so any non-number raises. */
  function HighValueRule(txn: Record): Result<seq<Issue>> {
    match Num(GetOr(txn, "amount", Int(0)))
    case None => Err("TypeError: '>' not supported for amount")
    case Some(amount) =>
      Ok(if amount > 500.0 && !InStrings(Get(txn, "payment_method"), ["credit_card", "paypal"])
         then [NonPreferredHighValue(Get(txn, "transaction_id"))] else [])
  }

  /** A completed transaction is not refunded, and a non-positive amount is not
      above 500: at most two violations per transaction. */
  lemma BusinessRulesPerRecord(txn: Record)
    requires CompletedRule(txn).Ok? && RefundRule(txn).Ok? && HighValueRule(txn).Ok?
    ensures |CompletedRule(txn).value| + |RefundRule(txn).value| + |HighValueRule(txn).value| <= 2
  {
  }

  function BusinessRulesResult(violations: seq<Issue>, n: nat): TestResult {
    var score := IssueScore(|violations|, 3 * n);
    TestResult("business_rules", score, Issues(violations), score >= BusinessRulesThreshold, BusinessRulesThreshold)
  }

  /** `test_business_rules`: the three rule loops in order. */
  function BusinessRules(txns: seq<Record>): Result<TestResult> {
    match Collect(txns, CompletedRule)
    case Err(e) => Err(e)
    case Ok(first) =>
      CollectTotal(txns, RefundRule);
      var second := Collect(txns, RefundRule).value;
      match Collect(txns, HighValueRule)
      case Err(e) => Err(e)
      case Ok(third) => Ok(BusinessRulesResult(first + second + third, |txns|))
  }

  method TestBusinessRules(txns: seq<Record>) returns (r: Result<TestResult>)
    ensures r == BusinessRules(txns)
  {
    var first := CollectIssues(txns, CompletedRule);
    if first.Err? {
      return Err(first.error);
    }
    CollectTotal(txns, RefundRule);
    var second := CollectIssues(txns, RefundRule);
    var third := CollectIssues(txns, HighValueRule);
    if third.Err? {
      return Err(third.error);
    }
    r := Ok(BusinessRulesResult(first.value + second.value + third.value, |txns|));
  }

  /** The business-rule score is 0 for no records, lies in [1/3, 1] otherwise, and
      passes at 0.95. */
  lemma BusinessRulesBounds(txns: seq<Record>)
    requires BusinessRules(txns).Ok?
    ensures var r := BusinessRules(txns).value;
      && (txns == [] ==> r.overallScore == 0.0)
      && (txns != [] ==> 1.0 / 3.0 <= r.overallScore <= 1.0)
      && (r.passed <==> r.overallScore >= 0.95)
  {
    CollectTotal(txns, RefundRule);
    forall i | 0 <= i < |txns|
      ensures CompletedRule(txns[i]).Ok? && RefundRule(txns[i]).Ok? && HighValueRule(txns[i]).Ok? ==>
        |CompletedRule(txns[i]).value| + |RefundRule(txns[i]).value| + |HighValueRule(txns[i]).value| <= 2
    {
      if CompletedRule(txns[i]).Ok? && RefundRule(txns[i]).Ok? && HighValueRule(txns[i]).Ok? {
        BusinessRulesPerRecord(txns[i]);
      }
    }
    CollectBound3(txns, CompletedRule, RefundRule, HighValueRule, 2);
    if txns != [] {
      var v := Collect(txns, CompletedRule).value + Collect(txns, RefundRule).value + Collect(txns, HighValueRule).value;
      IssueScoreAtLeast(|v|, |txns|, 3, 2);
    }
  }

  // ---------------------------------------------------------------------------
  // run_all_tests

  datatype QualityReport = QualityReport(
    overallScore: real, allTestsPassed: bool, completeness: TestResult, accuracy: TestResult,
    consistency: TestResult, timeliness: TestResult, businessRules: TestResult,
    totalTests: nat, passedTests: nat, failedTests: nat)

  function PassCount(results: seq<TestResult>): (n: nat)
    ensures n <= |results|
  {
    if results == [] then 0 else (if results[0].passed then 1 else 0) + PassCount(results[1..])
  }

  function Report(c: TestResult, a: TestResult, k: TestResult, t: TestResult, b: TestResult): QualityReport {
    var results := [c, a, k, t, b];
    QualityReport(
      (c.overallScore + a.overallScore + k.overallScore + t.overallScore + b.overallScore) / 5.0,
      c.passed && a.passed && k.passed && t.passed && b.passed,
      c, a, k, t, b, 5, PassCount(results), 5 - PassCount(results))
  }

  /** `run_all_tests` with the default 24-hour SLA: the first check that raises
      makes the whole run raise. */
  function AllTests(txns: seq<Record>, users: seq<Record>, products: seq<Record>, now: DateTime)
    : Result<QualityReport>
    requires ValidDateTime(now)
  {
    var c := TransactionCompleteness(txns);
    match TransactionAccuracy(txns)
    case Err(e) => Err(e)
    case Ok(a) =>
      match DataConsistency(txns, users, products)
      case Err(e) => Err(e)
      case Ok(k) =>
        match DataTimeliness(txns, now, 24)
        case Err(e) => Err(e)
        case Ok(t) =>
          match BusinessRules(txns)
          case Err(e) => Err(e)
          case Ok(b) => Ok(Report(c, a, k, t, b))
  }

  method RunAllTests(txns: seq<Record>, users: seq<Record>, products: seq<Record>, now: DateTime)
    returns (r: Result<QualityReport>)
    requires ValidDateTime(now)
    ensures r == AllTests(txns, users, products, now)
  {
    var c := TransactionCompleteness(txns);
    var a := TestTransactionAccuracy(txns);
    if a.Err? {
      return Err(a.error);
    }
    var k := TestDataConsistency(txns, users, products);
    if k.Err? {
      return Err(k.error);
    }
    var t := TestDataTimeliness(txns, now, 24);
    if t.Err? {
      return Err(t.error);
    }
    var b := TestBusinessRules(txns);
    if b.Err? {
      return Err(b.error);
    }
    r := Ok(Report(c, a.value, k.value, t.value, b.value));
  }

  /** The overall score is the mean of all five scores, business rules included;
      everything passed iff each of the five did; passed and failed add up to 5. */
  lemma ReportSummary(c: TestResult, a: TestResult, k: TestResult, t: TestResult, b: TestResult)
    ensures var r := Report(c, a, k, t, b);
      && r.overallScore * 5.0 == c.overallScore + a.overallScore + k.overallScore + t.overallScore + b.overallScore
      && (r.allTestsPassed <==> r.passedTests == 5)
      && (r.allTestsPassed <==> (c.passed && a.passed && k.passed && t.passed && b.passed))
      && r.totalTests == 5 && r.passedTests + r.failedTests == 5
  {
    var results := [c, a, k, t, b];
    PassCountAll(results);
    assert (forall i :: 0 <= i < 5 ==> results[i].passed) <==>
      (c.passed && a.passed && k.passed && t.passed && b.passed) by {
      assert results[0] == c && results[1] == a && results[2] == k && results[3] == t && results[4] == b;
    }
  }

  lemma {:induction false} PassCountAll(results: seq<TestResult>)
    ensures PassCount(results) == |results| <==> forall i :: 0 <= i < |results| ==> results[i].passed
  {
    if results != [] {
      PassCountAll(results[1..]);
      assert forall i :: 1 <= i < |results| ==> results[i] == results[1..][i - 1];
    }
  }

  /** A successful run's report is built from the five check results. */
  lemma AllTestsReport(txns: seq<Record>, users: seq<Record>, products: seq<Record>, now: DateTime)
    requires ValidDateTime(now) && AllTests(txns, users, products, now).Ok?
    ensures AllTests(txns, users, products, now).value == Report(
      TransactionCompleteness(txns), TransactionAccuracy(txns).value, DataConsistency(txns, users, products).value,
      DataTimeliness(txns, now, 24).value, BusinessRules(txns).value)
  {
  }

  /** The run fails exactly when one of the four checks that can raise does. */
  lemma AllTestsFails(txns: seq<Record>, users: seq<Record>, products: seq<Record>, now: DateTime)
    requires ValidDateTime(now)
    ensures AllTests(txns, users, products, now).Err? <==>
      TransactionAccuracy(txns).Err? || DataConsistency(txns, users, products).Err?
      || DataTimeliness(txns, now, 24).Err? || BusinessRules(txns).Err?
  {
  }
}
