/** The boundary of the pipeline: the field checks that decide which raw records
    enter it, the retry schedule of the product API, and the order in which the
    three sources are read. Files and HTTP responses are inputs of the model. */
module Extractor {
  import opened Common
  import opened IsoTime
  import opened Values
  import opened Seqs
  import opened Config

  // ---------------------------------------------------------------------------
  // _validate_transactions

  const RequiredTransactionFields: seq<string> :=
    ["transaction_id", "user_id", "product_id", "amount", "currency", "timestamp"]

  /** Why a record is skipped: the warning the validator logs before `continue`. */
  datatype Rejection =
    | MissingFields
    | AmountNotNumeric
    | AmountOutOfRange
    | InvalidCurrency
    | InvalidPaymentMethod
    | InvalidStatus
    | InvalidTimestamp
    | InvalidEmail
    | InvalidCountry
    | InvalidTier
    | InvalidPrice
    | InvalidInventory

  predicate HasAll(r: Record, fields: seq<string>) {
    forall f :: f in fields ==> Has(r, f)
  }

  /** `datetime.fromisoformat(v.replace('Z', '+00:00'))` succeeds. A value that is
      not a string either has no `replace` (AttributeError, caught beside the
      ValueError) or is a date whose `replace` raises TypeError, which the outer
      handler catches; either way the transaction is skipped. */
  predicate ParsableTimestamp(v: Value) {
    v.Str? && ParseStamp(v.s).Some?
  }

  /** The first check a transaction fails, in the order the validator makes them;
      `None` when it is kept. A `float()` that raises is caught and skips the record. */
  function TransactionRejection(t: Record): Option<Rejection> {
    if !HasAll(t, RequiredTransactionFields) then Some(MissingFields)
    else
      match ToFloat(Get(t, "amount"))
      case None => Some(AmountNotNumeric)
      case Some(amount) =>
        if amount < MinTransactionAmount || amount > MaxTransactionAmount then Some(AmountOutOfRange)
        else if !InStrings(Get(t, "currency"), ValidCurrencies) then Some(InvalidCurrency)
        else if !InStrings(Get(t, "payment_method"), ValidPaymentMethods) then Some(InvalidPaymentMethod)
        else if !InStrings(Get(t, "status"), ValidStatuses) then Some(InvalidStatus)
        else if !ParsableTimestamp(Get(t, "timestamp")) then Some(InvalidTimestamp)
        else None
  }

  /** What a kept transaction is promised to satisfy. */
  predicate ValidTransaction(t: Record) {
    && HasAll(t, RequiredTransactionFields)
    && ToFloat(Get(t, "amount")).Some?
    && MinTransactionAmount <= ToFloat(Get(t, "amount")).value <= MaxTransactionAmount
    && InStrings(Get(t, "currency"), ValidCurrencies)
    && InStrings(Get(t, "payment_method"), ValidPaymentMethods)
    && InStrings(Get(t, "status"), ValidStatuses)
    && ParsableTimestamp(Get(t, "timestamp"))
  }

  function KeepTransaction(t: Record): Option<Record> {
    if TransactionRejection(t).None? then Some(t) else None
  }

  /** A transaction passes every check exactly when it has all six fields, an
      amount in the inclusive range, known currency, method and status, and a
      parsable timestamp; absent method or status are rejected. */
  lemma TransactionRejectedIffInvalid(t: Record)
    ensures TransactionRejection(t).None? <==> ValidTransaction(t)
    ensures !Has(t, "payment_method") || !Has(t, "status") ==> TransactionRejection(t).Some?
  {
  }

  /** The validator keeps exactly the valid transactions, unchanged and in order. */
  method ValidateTransactions(txns: seq<Record>) returns (r: seq<Record>)
    ensures r == FilterMap(txns, KeepTransaction)
    ensures SelectsExactly(txns, r, Kept(txns, KeepTransaction), ValidTransaction)
  {
    r := [];
    var i := 0;
    while i < |txns|
      invariant 0 <= i <= |txns|
      invariant r == FilterMap(txns[..i], KeepTransaction)
    {
      FilterMapStep(txns, KeepTransaction, i);
      var t := txns[i];
      i := i + 1;
      if TransactionRejection(t).Some? {
        continue;
      }
      r := r + [t];
    }
    assert txns[..i] == txns;
    forall t ensures KeepTransaction(t).Some? <==> ValidTransaction(t) {
      TransactionRejectedIffInvalid(t);
    }
    FilterMapSelectsExactly(txns, KeepTransaction, ValidTransaction);
  }

  // ---------------------------------------------------------------------------
  // _validate_users

  const RequiredUserFields: seq<string> := ["user_id", "email", "country"]
  const ValidTiers: seq<string> := ["standard", "premium", "vip"]

  /** `'@' in v`: a string test; any other value raises TypeError, which is caught. */
  predicate EmailHasAt(v: Value) {
    v.Str? && '@' in v.s
  }

  function UserRejection(u: Record): Option<Rejection> {
    if !HasAll(u, RequiredUserFields) then Some(MissingFields)
    else if !EmailHasAt(Get(u, "email")) then Some(InvalidEmail)
    else if Len(Get(u, "country")) != Some(2) then Some(InvalidCountry)
    else if Has(u, "customer_tier") && !InStrings(Get(u, "customer_tier"), ValidTiers) then Some(InvalidTier)
    else None
  }

  predicate ValidUser(u: Record) {
    && HasAll(u, RequiredUserFields)
    && Get(u, "email").Str? && '@' in Get(u, "email").s
    && Get(u, "country").Str? && |Get(u, "country").s| == 2
    && (Has(u, "customer_tier") ==> InStrings(Get(u, "customer_tier"), ValidTiers))
  }

  function KeepUser(u: Record): Option<Record> {
    if UserRejection(u).None? then Some(u) else None
  }

  /** A user is kept iff the three fields are present, the email is a string holding
      '@', the country a two-character string, and the tier absent or known. */
  lemma UserRejectedIffInvalid(u: Record)
    ensures UserRejection(u).None? <==> ValidUser(u)
  {
  }

  method ValidateUsers(users: seq<Record>) returns (r: seq<Record>)
    ensures r == FilterMap(users, KeepUser)
    ensures SelectsExactly(users, r, Kept(users, KeepUser), ValidUser)
  {
    r := [];
    var i := 0;
    while i < |users|
      invariant 0 <= i <= |users|
      invariant r == FilterMap(users[..i], KeepUser)
    {
      FilterMapStep(users, KeepUser, i);
      var u := users[i];
      i := i + 1;
      if UserRejection(u).Some? {
        continue;
      }
      r := r + [u];
    }
    assert users[..i] == users;
    forall u ensures KeepUser(u).Some? <==> ValidUser(u) {
      UserRejectedIffInvalid(u);
    }
    FilterMapSelectsExactly(users, KeepUser, ValidUser);
  }

  // ---------------------------------------------------------------------------
  // _validate_products

  const RequiredProductFields: seq<string> := ["product_id", "name", "price"]

  function ProductRejection(p: Record): Option<Rejection> {
    if !HasAll(p, RequiredProductFields) then Some(MissingFields)
    else
      match ToFloat(Get(p, "price"))
      case None => Some(InvalidPrice)
      case Some(price) =>
        if price <= 0.0 then Some(InvalidPrice)
        else if Has(p, "inventory_count") then
          match ToInt(Get(p, "inventory_count"))
          case None => Some(InvalidInventory)
          case Some(n) => if n < 0 then Some(InvalidInventory) else None
        else None
  }

  predicate ValidProduct(p: Record) {
    && HasAll(p, RequiredProductFields)
    && ToFloat(Get(p, "price")).Some? && ToFloat(Get(p, "price")).value > 0.0
    && (Has(p, "inventory_count") ==>
          ToInt(Get(p, "inventory_count")).Some? && ToInt(Get(p, "inventory_count")).value >= 0)
  }

  function KeepProduct(p: Record): Option<Record> {
    if ProductRejection(p).None? then Some(p) else None
  }

  /** A product is kept iff the three fields are present, `float(price) > 0`, and the
      inventory count is absent or `int()` of it is a non-negative number. */
  lemma ProductRejectedIffInvalid(p: Record)
    ensures ProductRejection(p).None? <==> ValidProduct(p)
  {
  }

  method ValidateProducts(products: seq<Record>) returns (r: seq<Record>)
    ensures r == FilterMap(products, KeepProduct)
    ensures SelectsExactly(products, r, Kept(products, KeepProduct), ValidProduct)
  {
    r := [];
    var i := 0;
    while i < |products|
      invariant 0 <= i <= |products|
      invariant r == FilterMap(products[..i], KeepProduct)
    {
      FilterMapStep(products, KeepProduct, i);
      var p := products[i];
      i := i + 1;
      if ProductRejection(p).Some? {
        continue;
      }
      r := r + [p];
    }
    assert products[..i] == products;
    forall p ensures KeepProduct(p).Some? <==> ValidProduct(p) {
      ProductRejectedIffInvalid(p);
    }
    FilterMapSelectsExactly(products, KeepProduct, ValidProduct);
  }

  // ---------------------------------------------------------------------------
  // extract_products_from_api: retries with exponential backoff

  function Pow2(k: nat): (p: nat)
    ensures p >= 1
  {
    if k == 0 then 1 else 2 * Pow2(k - 1)
  }

  /** `max_retries or config.pipeline.max_retries`: `None` and `0` both fall back. */
  function EffectiveRetries(maxRetries: Option<int>, cfg: PipelineConfig): (m: int)
    ensures maxRetries.None? || maxRetries.value == 0 ==> m == cfg.maxRetries
    ensures maxRetries.Some? && maxRetries.value != 0 ==> m == maxRetries.value
  {
    if maxRetries.Some? && maxRetries.value != 0 then maxRetries.value else cfg.maxRetries
  }

  /** The waits after the first `n` failed attempts: `retry_delay * 2**attempt`. */
  function Backoff(delay: int, n: nat): (w: seq<int>)
    ensures |w| == n
  {
    if n == 0 then [] else Backoff(delay, n - 1) + [delay * Pow2(n - 1)]
  }

  /** The wait after failed attempt `k` is `retry_delay * 2**k`. */
  lemma {:induction false} BackoffAt(delay: int, n: nat, k: nat)
    requires k < n
    ensures Backoff(delay, n)[k] == delay * Pow2(k)
  {
    if k < n - 1 {
      BackoffAt(delay, n - 1, k);
    }
  }

  function Sum(xs: seq<int>): int {
    if xs == [] then 0 else Sum(xs[..|xs| - 1]) + xs[|xs| - 1]
  }

  /** An all-failing run sleeps `retry_delay * (2**max_retries - 1)` seconds in total. */
  lemma {:induction false} BackoffTotal(delay: int, n: nat)
    ensures Sum(Backoff(delay, n)) == delay * (Pow2(n) - 1)
  {
    if n > 0 {
      BackoffTotal(delay, n - 1);
      var w := Backoff(delay, n);
      var p := Pow2(n - 1);
      assert w == Backoff(delay, n - 1) + [delay * p];
      assert w[..n - 1] == Backoff(delay, n - 1);
      assert Sum(w) == delay * (p - 1) + delay * p;
      DoubleLess(delay, p);
    }
  }

  lemma DoubleLess(a: int, p: int)
    ensures a * (p - 1) + a * p == a * (2 * p - 1)
  {
  }

  /** The index of the first successful attempt among `0..m`, or `m + 1` when all fail. */
  function FirstSuccess(attempts: nat -> Result<seq<Record>>, from: nat, m: nat): (k: nat)
    requires from <= m + 1
    ensures from <= k <= m + 1
    ensures forall j :: from <= j < k ==> attempts(j).Err?
    ensures k <= m ==> attempts(k).Ok?
    decreases m + 1 - from
  {
    if from == m + 1 || attempts(from).Ok? then from else FirstSuccess(attempts, from + 1, m)
  }

  /** What the call does: validated products, the re-raised last request error, or,
      when `max_retries + 1 <= 0` leaves the loop empty, the implicit `None`. */
  datatype ApiOutcome = Products(products: seq<Record>) | Raised(error: string) | ReturnedNone

  /** `attempts(k)` is the response of the `k`-th request, `Err` for a
      RequestException. Returns the outcome, the sleeps made and the number of
      requests sent. */
  method ExtractProductsFromApi(maxRetries: Option<int>, cfg: PipelineConfig,
                                attempts: nat -> Result<seq<Record>>)
    returns (outcome: ApiOutcome, sleeps: seq<int>, sent: nat)
    ensures var m := EffectiveRetries(maxRetries, cfg);
      m < 0 ==> outcome == ReturnedNone && sleeps == [] && sent == 0
    ensures var m := EffectiveRetries(maxRetries, cfg);
      m >= 0 ==>
        var k := FirstSuccess(attempts, 0, m);
        && sent == (if k <= m then k + 1 else m + 1)
        && sleeps == Backoff(cfg.retryDelay, if k <= m then k else m)
        && (k <= m ==> outcome == Products(FilterMap(attempts(k).value, KeepProduct)))
        && (k > m ==> outcome == Raised(attempts(m).error))
  {
    var m := EffectiveRetries(maxRetries, cfg);
    sleeps := [];
    sent := 0;
    var attempt := 0;
    while attempt < m + 1
      invariant 0 <= attempt
      invariant m >= 0 ==> attempt <= m
      invariant m >= 0 ==> attempt <= FirstSuccess(attempts, 0, m)
      invariant sent == attempt
      invariant sleeps == Backoff(cfg.retryDelay, attempt)
      invariant m < 0 ==> attempt == 0
      decreases m + 1 - attempt
    {
      var response := attempts(attempt);
      sent := sent + 1;
      if response.Ok? {
        var validated := ValidateProducts(response.value);
        outcome := Products(validated);
        return;
      }
      if attempt < m {
        sleeps := sleeps + [cfg.retryDelay * Pow2(attempt)];
      } else {
        outcome := Raised(response.error);
        return;
      }
      attempt := attempt + 1;
    }
    outcome := ReturnedNone;
  }

  /** With the default of three retries and a five-second delay, a request that
      never succeeds is sent four times and the run waits 5 + 10 + 20 seconds. */
  lemma DefaultScheduleAllFailing()
    ensures EffectiveRetries(None, DefaultPipelineConfig) == 3
    ensures EffectiveRetries(Some(0), DefaultPipelineConfig) == 3
    ensures Backoff(DefaultPipelineConfig.retryDelay, 3) == [5, 10, 20]
  {
  }

  // ---------------------------------------------------------------------------
  // extract_transactions / extract_users / extract_products / extract_all_sources

  /** The extracted lists by kind; a kind the caller did not ask for is `None`. */
  datatype SourceData = SourceData(
    transactions: Option<seq<Record>>, users: Option<seq<Record>>, products: Option<seq<Record>>)

  /** Reading a JSON or CSV file gives its records, or the error (`FileNotFoundError`,
      `JSONDecodeError`, `EmptyDataError`) that the extractor logs and re-raises. */
  type Reader = string -> Result<seq<Record>>

  function ExtractWith(read: Reader, path: string, keep: Record -> Option<Record>): (r: Result<seq<Record>>)
    ensures read(path).Err? ==> r == Err(read(path).error)
    ensures read(path).Ok? ==> r == Ok(FilterMap(read(path).value, keep))
  {
    match read(path)
    case Err(e) => Err(e)
    case Ok(records) => Ok(FilterMap(records, keep))
  }

  function ExtractTransactions(readJson: Reader, path: string): Result<seq<Record>> {
    ExtractWith(readJson, path, KeepTransaction)
  }

  function ExtractUsers(readCsv: Reader, path: string): Result<seq<Record>> {
    ExtractWith(readCsv, path, KeepUser)
  }

  function ExtractProducts(readJson: Reader, path: string): Result<seq<Record>> {
    ExtractWith(readJson, path, KeepProduct)
  }

  /** Transactions, then users, then products; the first failure is re-raised and
      no partial result is returned. */
  function ExtractAllSources(src: DataSourceConfig, readJson: Reader, readCsv: Reader): (r: Result<SourceData>)
    ensures r.Ok? <==>
      readJson(src.transactionsPath).Ok? && readCsv(src.usersPath).Ok? && readJson(src.productsPath).Ok?
    ensures readJson(src.transactionsPath).Err? ==> r == Err(readJson(src.transactionsPath).error)
    ensures readJson(src.transactionsPath).Ok? && readCsv(src.usersPath).Err? ==>
      r == Err(readCsv(src.usersPath).error)
    ensures readJson(src.transactionsPath).Ok? && readCsv(src.usersPath).Ok? && readJson(src.productsPath).Err? ==>
      r == Err(readJson(src.productsPath).error)
    ensures r.Ok? ==>
      && r.value.transactions == Some(FilterMap(readJson(src.transactionsPath).value, KeepTransaction))
      && r.value.users == Some(FilterMap(readCsv(src.usersPath).value, KeepUser))
      && r.value.products == Some(FilterMap(readJson(src.productsPath).value, KeepProduct))
  {
    match ExtractTransactions(readJson, src.transactionsPath)
    case Err(e) => Err(e)
    case Ok(txns) =>
      match ExtractUsers(readCsv, src.usersPath)
      case Err(e) => Err(e)
      case Ok(users) =>
        match ExtractProducts(readJson, src.productsPath)
        case Err(e) => Err(e)
        case Ok(products) => Ok(SourceData(Some(txns), Some(users), Some(products)))
  }

  /** `_run_extraction_stage` with explicit paths: only the kinds named in the map
      are extracted, in the order transactions, users, products. */
  function ExtractNamed(sources: map<string, string>, readJson: Reader, readCsv: Reader): (r: Result<SourceData>)
    ensures r.Ok? ==>
      && (r.value.transactions.Some? <==> "transactions" in sources)
      && (r.value.users.Some? <==> "users" in sources)
      && (r.value.products.Some? <==> "products" in sources)
    ensures r.Ok? <==>
      && ("transactions" in sources ==> readJson(sources["transactions"]).Ok?)
      && ("users" in sources ==> readCsv(sources["users"]).Ok?)
      && ("products" in sources ==> readJson(sources["products"]).Ok?)
    ensures r.Ok? && "transactions" in sources ==>
      r.value.transactions == Some(FilterMap(readJson(sources["transactions"]).value, KeepTransaction))
    ensures r.Ok? && "users" in sources ==>
      r.value.users == Some(FilterMap(readCsv(sources["users"]).value, KeepUser))
    ensures r.Ok? && "products" in sources ==>
      r.value.products == Some(FilterMap(readJson(sources["products"]).value, KeepProduct))
    ensures "transactions" in sources && readJson(sources["transactions"]).Err? ==>
      r == Err(readJson(sources["transactions"]).error)
    ensures ("transactions" in sources ==> readJson(sources["transactions"]).Ok?) &&
            "users" in sources && readCsv(sources["users"]).Err? ==>
      r == Err(readCsv(sources["users"]).error)
    ensures ("transactions" in sources ==> readJson(sources["transactions"]).Ok?) &&
            ("users" in sources ==> readCsv(sources["users"]).Ok?) &&
            "products" in sources && readJson(sources["products"]).Err? ==>
      r == Err(readJson(sources["products"]).error)
  {
    var t := if "transactions" in sources then Some(ExtractTransactions(readJson, sources["transactions"])) else None;
    var u := if "users" in sources then Some(ExtractUsers(readCsv, sources["users"])) else None;
    var p := if "products" in sources then Some(ExtractProducts(readJson, sources["products"])) else None;
    if t.Some? && t.value.Err? then Err(t.value.error)
    else if u.Some? && u.value.Err? then Err(u.value.error)
    else if p.Some? && p.value.Err? then Err(p.value.error)
    else Ok(SourceData(
      if t.Some? then Some(t.value.value) else None,
      if u.Some? then Some(u.value.value) else None,
      if p.Some? then Some(p.value.value) else None))
  }
}
