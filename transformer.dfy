/** The record-level part of the transformer: each raw transaction, user and
    product becomes a typed record (the dict the transformer builds), transactions
    are joined to their user and product by id, the three business rules and the
    derived fields are filled in, and a record whose conversion raises is skipped. */
module Transformer {
  import opened Common
  import opened IsoTime
  import opened Values
  import opened Seqs
  import opened Config
  import opened TransformedRecords

  // ---------------------------------------------------------------------------
  // Currency conversion

  /** `self.currency_rates`: units of the currency per US dollar. */
  const CurrencyRates: seq<(string, real)> := [("USD", 1.0), ("EUR", 0.85), ("GBP", 0.73), ("CAD", 1.25)]

  /** `self.currency_rates.get(currency, 1.0)` */
  function Rate(currency: Value): (rate: real)
    ensures rate > 0.0
    ensures (forall p :: p in CurrencyRates ==> currency != Str(p.0)) ==> rate == 1.0
    ensures forall p :: p in CurrencyRates && currency == Str(p.0) ==> rate == p.1
  {
    if currency == Str("USD") then 1.0
    else if currency == Str("EUR") then 0.85
    else if currency == Str("GBP") then 0.73
    else if currency == Str("CAD") then 1.25
    else 1.0
  }

  /** `_convert_to_usd`: `amount / rate`. */
  function ConvertToUsd(amount: real, currency: Value): (usd: real)
    ensures usd * Rate(currency) == amount
  {
    amount / Rate(currency)
  }

  /** Converting an amount expressed in a currency back to dollars recovers it;
      dollar amounts are unchanged; the sign is kept. */
  lemma ConvertToUsdInverts(usd: real, currency: Value)
    ensures ConvertToUsd(usd * Rate(currency), currency) == usd
    ensures ConvertToUsd(usd, Str("USD")) == usd
    ensures usd > 0.0 <==> ConvertToUsd(usd, currency) > 0.0
  {
  }

  /** The accepted currencies are exactly the currencies with a rate, so a validated
      transaction never falls back to the default rate of 1.0. */
  lemma RatesCoverValidCurrencies()
    ensures forall c :: c in ValidCurrencies <==> exists p :: p in CurrencyRates && p.0 == c
  {
    assert CurrencyRates[0].0 == "USD" && CurrencyRates[1].0 == "EUR";
    assert CurrencyRates[2].0 == "GBP" && CurrencyRates[3].0 == "CAD";
  }

  // ---------------------------------------------------------------------------
  // _transform_single_transaction

  const TransactionSourceFields: seq<string> :=
    ["transaction_id", "user_id", "product_id", "amount", "currency", "timestamp"]

  predicate HasFields(r: Record, fields: seq<string>) {
    forall f :: f in fields ==> Has(r, f)
  }

  /** `None` when `txn[k]` raises KeyError or `float(txn['amount'])` raises. */
  function TransformSingleTransaction(txn: Record): (r: Option<TxnBase>)
    ensures r.Some? <==> HasFields(txn, TransactionSourceFields) && ToFloat(Get(txn, "amount")).Some?
    ensures r.Some? ==>
      && Some(r.value.amount) == ToFloat(Get(txn, "amount"))
      && r.value.currency == Get(txn, "currency")
      && r.value.amountUsd == ConvertToUsd(r.value.amount, r.value.currency)
      && (r.value.isHighValue <==> r.value.amount > HighValueThreshold)
      && (r.value.isInternational <==> r.value.currency != Str("USD"))
      && r.value.paymentMethod == GetOr(txn, "payment_method", Str("unknown"))
      && r.value.status == GetOr(txn, "status", Str("pending"))
      && r.value.transactionTimestamp == Get(txn, "timestamp")
      && r.value.userId == Get(txn, "user_id") && r.value.productId == Get(txn, "product_id")
      && r.value.transactionId == Get(txn, "transaction_id")
  {
    if !HasFields(txn, TransactionSourceFields) then None
    else
      match ToFloat(Get(txn, "amount"))
      case None => None
      case Some(amount) =>
        var currency := Get(txn, "currency");
        Some(TxnBase(
          Get(txn, "transaction_id"), Get(txn, "user_id"), Get(txn, "product_id"),
          amount, currency, GetOr(txn, "payment_method", Str("unknown")),
          GetOr(txn, "status", Str("pending")), Get(txn, "timestamp"),
          ConvertToUsd(amount, currency), amount > HighValueThreshold, currency != Str("USD")))
  }

  /** `is_high_value` looks at the amount before conversion: 450 euros are worth more
      than 500 dollars and still are not high value. */
  lemma HighValueIgnoresConversion()
    ensures ConvertToUsd(450.0, Str("EUR")) > HighValueThreshold
    ensures !(450.0 > HighValueThreshold)
  {
  }

  // ---------------------------------------------------------------------------
  // Enrichment: `{r[key]: r for r in records}` and the joins

  /** The lookup dict built by a comprehension: a later record with the same id
      replaces an earlier one; a record without the key raises KeyError. */
  function BuildLookup(records: seq<Record>, key: string): (r: Result<map<Value, Record>>)
    ensures r.Ok? <==> forall i :: 0 <= i < |records| ==> Has(records[i], key)
    ensures r.Err? ==> r.error == "'" + key + "'"
    ensures r.Ok? ==> forall v :: v in r.value <==> exists i :: 0 <= i < |records| && Get(records[i], key) == v
  {
    if records == [] then Ok(map[])
    else
      var last := records[|records| - 1];
      match BuildLookup(records[..|records| - 1], key)
      case Err(e) => Err(e)
      case Ok(m) =>
        if !Has(last, key) then Err("'" + key + "'")
        else
          assert forall i :: 0 <= i < |records| - 1 ==> records[..|records| - 1][i] == records[i];
          Ok(m[Get(last, key) := last])
  }

  /** No record after position `i` carries the id `v`. */
  predicate LastWith(records: seq<Record>, key: string, v: Value, i: nat) {
    i < |records| && Get(records[i], key) == v &&
    forall j :: i < j < |records| ==> Get(records[j], key) != v
  }

  /** The record a lookup finds is the last one carrying that id. */
  lemma LookupFindsLast(records: seq<Record>, key: string, v: Value)
    requires BuildLookup(records, key).Ok? && v in BuildLookup(records, key).value
    ensures exists i: nat :: LastWith(records, key, v, i) && BuildLookup(records, key).value[v] == records[i]
  {
    var i := LastIndexFound(records, key, v);
  }

  /** The position of the record a lookup finds. */
  lemma {:induction false} LastIndexFound(records: seq<Record>, key: string, v: Value) returns (i: nat)
    requires BuildLookup(records, key).Ok? && v in BuildLookup(records, key).value
    ensures LastWith(records, key, v, i) && BuildLookup(records, key).value[v] == records[i]
  {
    var n := |records| - 1;
    LookupSnoc(records, key);
    if Get(records[n], key) == v {
      return n;
    }
    i := LastIndexFound(records[..n], key, v);
    LastWithSnoc(records, key, v, i);
  }

  /** The lookup of a list is that of all but its last record, updated by the last. */
  lemma LookupSnoc(records: seq<Record>, key: string)
    requires BuildLookup(records, key).Ok? && records != []
    ensures BuildLookup(records[..|records| - 1], key).Ok?
    ensures BuildLookup(records, key).value ==
      BuildLookup(records[..|records| - 1], key).value[Get(records[|records| - 1], key) := records[|records| - 1]]
  {
  }

  lemma LastWithSnoc(records: seq<Record>, key: string, v: Value, i: nat)
    requires records != [] && LastWith(records[..|records| - 1], key, v, i)
    requires Get(records[|records| - 1], key) != v
    ensures LastWith(records, key, v, i)
  {
    var n := |records| - 1;
    forall j | i < j < |records| ensures Get(records[j], key) != v {
      if j < n { assert records[..n][j] == records[j]; }
    }
  }

  /** `lookup.get(id, {})` */
  function Find(lookup: map<Value, Record>, id: Value): Record {
    if id in lookup then lookup[id] else []
  }

  /** The user keys copied with `.get`; a missing user gives `None`s and the tier
      `'standard'`. */
  function UserFieldsOf(user: Record): (r: UserFields)
    ensures user == [] ==> r == UserFields(Null, Str("standard"), Null, Null)
  {
    UserFields(Get(user, "country"), GetOr(user, "customer_tier", Str("standard")),
               Get(user, "age_group"), Get(user, "registration_date"))
  }

  /** The product keys copied with `.get`; a missing product gives `None`s. */
  function ProductFieldsOf(product: Record): (r: ProductFields)
    ensures product == [] ==> r == ProductFields(Null, Null, Null, Null)
  {
    ProductFields(Get(product, "name"), Get(product, "category"),
                  Get(product, "supplier_id"), Get(product, "price"))
  }

  function Enrich(b: TxnBase, users: map<Value, Record>, products: map<Value, Record>): TransactionRecord {
    TransactionRecord(b, UserFieldsOf(Find(users, b.userId)), ProductFieldsOf(Find(products, b.productId)), None, None)
  }

  // ---------------------------------------------------------------------------
  // _apply_business_rules

  const LowRiskMethods: seq<string> := ["credit_card", "paypal"]

  /** The three rules, from the four keys they read. */
  function Rules(isHighValue: bool, paymentMethod: Value, isInternational: bool, userTier: Value): (r: RuleFields)
    ensures r.paymentMethodRisk == "high" <==> isHighValue && !InStrings(paymentMethod, LowRiskMethods)
    ensures r.paymentMethodRisk == "high" || r.paymentMethodRisk == "low"
    ensures r.transactionRisk == "medium" <==> isInternational
    ensures r.transactionRisk == "medium" || r.transactionRisk == "low"
    ensures r.processingPriority == "high" <==> userTier == Str("vip")
    ensures r.processingPriority == "medium" <==> userTier == Str("premium")
    ensures r.processingPriority == "high" || r.processingPriority == "medium" || r.processingPriority == "standard"
  {
    RuleFields(
      if isHighValue && !InStrings(paymentMethod, LowRiskMethods) then "high" else "low",
      if isInternational then "medium" else "low",
      if userTier == Str("vip") then "high" else if userTier == Str("premium") then "medium" else "standard")
  }

  /** Writes the three rule keys from `is_high_value`, `payment_method`,
      `is_international` and `user_tier`; nothing else changes. */
  function ApplyBusinessRules(t: TransactionRecord): (r: TransactionRecord)
    ensures r.rules == Some(Rules(t.base.isHighValue, t.base.paymentMethod, t.base.isInternational, t.user.tier))
    ensures r.(rules := t.rules) == t
  {
    t.(rules := Some(Rules(t.base.isHighValue, t.base.paymentMethod, t.base.isInternational, t.user.tier)))
  }

  /** Applying the rules twice is applying them once. */
  lemma BusinessRulesIdempotent(t: TransactionRecord)
    ensures ApplyBusinessRules(ApplyBusinessRules(t)) == ApplyBusinessRules(t)
  {
  }

  /** Records agreeing on the four keys the rules read get the same rule outputs. */
  lemma BusinessRulesReadFourFields(a: TransactionRecord, b: TransactionRecord)
    requires a.base.isHighValue == b.base.isHighValue && a.base.paymentMethod == b.base.paymentMethod
    requires a.base.isInternational == b.base.isInternational && a.user.tier == b.user.tier
    ensures ApplyBusinessRules(a).rules == ApplyBusinessRules(b).rules
  {
  }

  // ---------------------------------------------------------------------------
  // _calculate_derived_fields

  /** The three outcomes of `datetime.fromisoformat(ts.replace('Z', '+00:00'))` inside
      `except (ValueError, AttributeError)`: a time; an error the handler catches (a
      string that does not parse, or a value without `replace`); or the TypeError of
      `date.replace('Z', '+00:00')`, which it does not catch. */
  datatype StampReading = Parsed(t: DateTime) | Caught | Uncaught

  function ParseTimestampValue(ts: Value): (r: StampReading)
    ensures r.Parsed? ==> ts.Str? && ParseStamp(ts.s) == Some(r.t) && ValidDateTime(r.t)
    ensures r.Uncaught? <==> ts.DateValue?
    ensures r.Caught? <==> (ts.Str? && ParseStamp(ts.s).None?) || !(ts.Str? || ts.DateValue?)
  {
    match ts
    case Str(s) =>
      (match ParseStamp(s)
       case Some(t) => Parsed(t)
       case None => Caught)
    case DateValue(_) => Uncaught
    case _ => Caught
  }

  /** `profit_margin_estimate`; `None` when `base_price > 0` raises TypeError (a
      missing or textual base price) or the division by a zero dollar amount raises. */
  function ProfitMargin(amountUsd: real, basePrice: Value): (m: Option<real>)
    ensures m.Some? <==> Num(basePrice).Some? && (Num(basePrice).value > 0.0 ==> amountUsd != 0.0)
    ensures m.Some? && Num(basePrice).value <= 0.0 ==> m.value == 0.0
    ensures m.Some? && Num(basePrice).value > 0.0 ==> m.value * amountUsd == amountUsd - Num(basePrice).value
  {
    match Num(basePrice)
    case None => None
    case Some(base) =>
      if base > 0.0 then
        if amountUsd == 0.0 then None else Some((amountUsd - base) / amountUsd)
      else Some(0.0)
  }

  /** For a positive dollar amount and base price the margin is below one. */
  lemma MarginBelowOne(amountUsd: real, basePrice: Value)
    requires amountUsd > 0.0 && Num(basePrice).Some? && Num(basePrice).value > 0.0
    ensures ProfitMargin(amountUsd, basePrice).Some? && ProfitMargin(amountUsd, basePrice).value < 1.0
  {
    var m := ProfitMargin(amountUsd, basePrice).value;
    assert m * amountUsd < 1.0 * amountUsd;
  }

  /** Date, hour and weekday name of the timestamp, all three `None` when the error is
      caught. A date-valued timestamp raises out of the step, and so does a margin
      that cannot be computed: either drops the record. */
  function CalculateDerivedFields(t: TransactionRecord): (r: Option<TransactionRecord>)
    ensures r.Some? <==>
      !t.base.transactionTimestamp.DateValue? && ProfitMargin(t.base.amountUsd, t.product.basePrice).Some?
    ensures r.Some? ==> r.value.(derived := t.derived) == t && r.value.derived.Some?
    ensures r.Some? ==> r.value.derived.value.profitMargin == ProfitMargin(t.base.amountUsd, t.product.basePrice).value
    ensures r.Some? ==>
      var d := r.value.derived.value;
      match ParseTimestampValue(t.base.transactionTimestamp)
      case Parsed(dt) => d.date == Some(dt.date) && d.hour == Some(dt.hour) && d.dayOfWeek == Some(DayName(dt.date))
      case _ => d.date.None? && d.hour.None? && d.dayOfWeek.None?
  {
    var reading := ParseTimestampValue(t.base.transactionTimestamp);
    if reading.Uncaught? then None
    else
      match ProfitMargin(t.base.amountUsd, t.product.basePrice)
      case None => None
      case Some(margin) =>
        var fields :=
          match reading
          case Parsed(dt) => DerivedFields(Some(dt.date), Some(dt.hour), Some(DayName(dt.date)), margin)
          case _ => DerivedFields(None, None, None, margin);
        Some(t.(derived := Some(fields)))
  }

  // ---------------------------------------------------------------------------
  // One transaction through the loop body of transform_transactions

  function TransformTransaction(txn: Record, users: map<Value, Record>, products: map<Value, Record>)
    : Option<TransactionRecord>
  {
    match TransformSingleTransaction(txn)
    case None => None
    case Some(base) => CalculateDerivedFields(ApplyBusinessRules(Enrich(base, users, products)))
  }

  /** The user join never decides whether a record survives. */
  lemma UserJoinNeverDrops(txn: Record, users: map<Value, Record>, other: map<Value, Record>,
                           products: map<Value, Record>)
    ensures TransformTransaction(txn, users, products).Some? <==> TransformTransaction(txn, other, products).Some?
  {
  }

  /** A transaction whose user is unknown is kept (when the rest succeeds) with `None`
      user fields, the tier `'standard'` and standard priority. */
  lemma MissingUserFields(txn: Record, users: map<Value, Record>, products: map<Value, Record>)
    requires Get(txn, "user_id") !in users
    requires TransformTransaction(txn, users, products).Some?
    ensures var r := TransformTransaction(txn, users, products).value;
      r.user == UserFields(Null, Str("standard"), Null, Null) && r.rules.value.processingPriority == "standard"
  {
  }

  /** A transaction whose product is unknown gets `product_base_price = None`, and
      `None > 0` raises: the record is dropped. */
  lemma MissingProductDropsRecord(txn: Record, users: map<Value, Record>, products: map<Value, Record>)
    requires Get(txn, "product_id") !in products
    ensures TransformTransaction(txn, users, products).None?
  {
  }

  /** A transaction that passed validation is kept exactly when its timestamp is not a
      date, its product is known and that product's raw `price` is a number (not a
      numeric string). */
  lemma ValidatedTransactionKeptIff(txn: Record, users: map<Value, Record>, products: map<Value, Record>)
    requires HasFields(txn, TransactionSourceFields)
    requires ToFloat(Get(txn, "amount")).Some? && ToFloat(Get(txn, "amount")).value >= MinTransactionAmount
    ensures TransformTransaction(txn, users, products).Some? <==>
      && !Get(txn, "timestamp").DateValue?
      && Get(txn, "product_id") in products && Num(Get(products[Get(txn, "product_id")], "price")).Some?
  {
    var base := TransformSingleTransaction(txn).value;
    ConvertToUsdInverts(base.amount, base.currency);
    assert base.amountUsd > 0.0;
  }

  /** `transform_transactions`: the lookups are built first (a user or product without
      its id raises out of the whole call); then each transaction is converted, and
      one whose conversion raises is skipped. */
  function TransformedTransactions(txns: seq<Record>, users: seq<Record>, products: seq<Record>)
    : (r: Result<seq<TransactionRecord>>)
    ensures r.Ok? <==> BuildLookup(users, "user_id").Ok? && BuildLookup(products, "product_id").Ok?
    ensures r.Err? ==> r.error == "'user_id'" || r.error == "'product_id'"
  {
    match BuildLookup(users, "user_id")
    case Err(e) => Err(e)
    case Ok(ul) =>
      match BuildLookup(products, "product_id")
      case Err(e) => Err(e)
      case Ok(pl) => Ok(FilterMap(txns, t => TransformTransaction(t, ul, pl)))
  }

  method TransformTransactions(txns: seq<Record>, users: seq<Record>, products: seq<Record>)
    returns (r: Result<seq<TransactionRecord>>)
    ensures r == TransformedTransactions(txns, users, products)
  {
    var userLookup := BuildLookup(users, "user_id");
    if userLookup.Err? {
      return Err(userLookup.error);
    }
    var productLookup := BuildLookup(products, "product_id");
    if productLookup.Err? {
      return Err(productLookup.error);
    }
    var ul, pl := userLookup.value, productLookup.value;
    var out: seq<TransactionRecord> := [];
    var i := 0;
    while i < |txns|
      invariant 0 <= i <= |txns|
      invariant out == FilterMap(txns[..i], t => TransformTransaction(t, ul, pl))
    {
      FilterMapStep(txns, t => TransformTransaction(t, ul, pl), i);
      var transformed := TransformTransaction(txns[i], ul, pl);
      i := i + 1;
      if transformed.None? {
        continue;
      }
      out := out + [transformed.value];
    }
    assert txns[..i] == txns;
    r := Ok(out);
  }

  /** The output is an order-preserving selection of the input: each record comes
      from a distinct, increasing input position and keeps that input's ids and
      amount, and every input that converts is present. */
  lemma TransformedTransactionsSelect(txns: seq<Record>, users: seq<Record>, products: seq<Record>)
    requires TransformedTransactions(txns, users, products).Ok?
    ensures var out := TransformedTransactions(txns, users, products).value;
      var ul := BuildLookup(users, "user_id").value;
      var pl := BuildLookup(products, "product_id").value;
      var pos := Kept(txns, t => TransformTransaction(t, ul, pl));
      && |out| <= |txns| && |pos| == |out|
      && (forall k :: 0 <= k < |out| ==> pos[k] < |txns| && TransformTransaction(txns[pos[k]], ul, pl) == Some(out[k]))
      && (forall k, l :: 0 <= k < l < |out| ==> pos[k] < pos[l])
      && (forall i :: 0 <= i < |txns| && TransformTransaction(txns[i], ul, pl).Some? ==> i in pos)
  {
    var ul := BuildLookup(users, "user_id").value;
    var pl := BuildLookup(products, "product_id").value;
    FilterMapSelection(txns, t => TransformTransaction(t, ul, pl));
  }

  /** Every transformed transaction keeps its input's ids and amount, has the rules
      applied and the derived fields filled in. */
  lemma TransformTransactionShape(txn: Record, users: map<Value, Record>, products: map<Value, Record>)
    requires TransformTransaction(txn, users, products).Some?
    ensures var r := TransformTransaction(txn, users, products).value;
      && r.base.transactionId == Get(txn, "transaction_id") && r.base.userId == Get(txn, "user_id")
      && Some(r.base.amount) == ToFloat(Get(txn, "amount"))
      && r.rules.Some? && r.derived.Some?
  {
  }

  // ---------------------------------------------------------------------------
  // Users

  /** `_transform_single_user`: `None` when `user[k]` raises KeyError. */
  function TransformSingleUser(u: Record): (r: Option<UserRecord>)
    ensures r.Some? <==> HasFields(u, UserSourceFields)
    ensures r.Some? ==>
      && r.value.userId == Get(u, "user_id") && r.value.email == Get(u, "email")
      && r.value.country == Get(u, "country") && r.value.ageGroup == Get(u, "age_group")
      && r.value.registrationDate == Get(u, "registration_date")
      && r.value.customerTier == GetOr(u, "customer_tier", Str("standard"))
      && r.value.isActive == GetOr(u, "is_active", Bool(true))
      && r.value.customerLifetimeDays.None?
  {
    if !HasFields(u, UserSourceFields) then None
    else Some(UserRecord(
      Get(u, "user_id"), Get(u, "email"), Get(u, "country"), Get(u, "age_group"),
      GetOr(u, "customer_tier", Str("standard")), Get(u, "registration_date"),
      GetOr(u, "is_active", Bool(true)), None))
  }

  /** `_calculate_user_derived_fields` with `datetime.now()` as `now` (naive local
      time): whole days since registration, 0 when there is no registration date or
      it does not parse. An aware registration stamp (`...Z` or an offset) makes
      `now - reg_date` raise TypeError, and a date-valued one makes `replace` raise
      it; neither is caught here, so the user is dropped. */
  function CalculateUserDerivedFields(u: UserRecord, now: DateTime): (r: Option<UserRecord>)
    requires ValidDateTime(now) && !now.Aware()
    ensures r.None? <==>
      || u.registrationDate.DateValue?
      || (Truthy(u.registrationDate) && ParseTimestampValue(u.registrationDate).Parsed? &&
          ParseTimestampValue(u.registrationDate).t.Aware())
    ensures r.Some? ==> r.value == u.(customerLifetimeDays := r.value.customerLifetimeDays)
    ensures r.Some? ==>
      r.value.customerLifetimeDays == Some(
        match ParseTimestampValue(u.registrationDate)
        case Parsed(reg) => DaysBetween(now, reg)
        case _ => 0)
  {
    if Truthy(u.registrationDate) then
      match ParseTimestampValue(u.registrationDate)
      case Uncaught => None
      case Caught => Some(u.(customerLifetimeDays := Some(0)))
      case Parsed(reg) =>
        if reg.Aware() then None
        else Some(u.(customerLifetimeDays := Some(DaysBetween(now, reg))))
    else Some(u.(customerLifetimeDays := Some(0)))
  }

  function TransformUser(u: Record, now: DateTime): Option<UserRecord>
    requires ValidDateTime(now) && !now.Aware()
  {
    match TransformSingleUser(u)
    case None => None
    case Some(base) => CalculateUserDerivedFields(base, now)
  }

  /** A user registered at a UTC stamp such as `2023-06-01T09:30:00Z` is dropped. */
  lemma ZuluRegistrationDropsUser(u: Record, now: DateTime, reg: DateTime)
    requires ValidDateTime(now) && !now.Aware() && HasFields(u, UserSourceFields)
    requires ValidDateTime(reg) && !reg.Aware()
    requires Get(u, "registration_date") == Str(FormatIso(reg) + "Z")
    ensures TransformUser(u, now).None?
  {
    ZuluStampIsAware(reg);
  }

  /** A registration in the past gives a non-negative lifetime. */
  lemma LifetimeNonNegative(u: UserRecord, now: DateTime)
    requires ValidDateTime(now) && !now.Aware()
    requires ParseTimestampValue(u.registrationDate).Parsed?
    requires Seconds(ParseTimestampValue(u.registrationDate).t) <= Seconds(now)
    ensures CalculateUserDerivedFields(u, now).Some? ==>
      CalculateUserDerivedFields(u, now).value.customerLifetimeDays.value >= 0
  {
  }

  method TransformUsers(users: seq<Record>, now: DateTime) returns (r: seq<UserRecord>)
    requires ValidDateTime(now) && !now.Aware()
    ensures r == FilterMap(users, u => TransformUser(u, now))
  {
    r := [];
    var i := 0;
    while i < |users|
      invariant 0 <= i <= |users|
      invariant r == FilterMap(users[..i], u => TransformUser(u, now))
    {
      FilterMapStep(users, u => TransformUser(u, now), i);
      var transformed := TransformUser(users[i], now);
      i := i + 1;
      if transformed.None? {
        continue;
      }
      r := r + [transformed.value];
    }
    assert users[..i] == users;
  }

  // ---------------------------------------------------------------------------
  // Products

  const ProductSourceFields: seq<string> := ["product_id", "name", "price"]

  /** `_transform_single_product`: `None` when a key is missing, `float(price)` raises,
      or `int(product.get('inventory_count', 0))` raises. */
  function TransformSingleProduct(p: Record): (r: Option<ProductRecord>)
    ensures r.Some? <==>
      HasFields(p, ProductSourceFields) && ToFloat(Get(p, "price")).Some? &&
      ToInt(GetOr(p, "inventory_count", Int(0))).Some?
    ensures r.Some? ==>
      && r.value.productId == Get(p, "product_id") && r.value.name == Get(p, "name")
      && r.value.category == Get(p, "category") && r.value.supplierId == Get(p, "supplier_id")
      && r.value.price == ToFloat(Get(p, "price")).value
      && r.value.currency == GetOr(p, "currency", Str("USD"))
      && r.value.priceUsd == ConvertToUsd(r.value.price, r.value.currency)
      && r.value.inventoryCount == ToInt(GetOr(p, "inventory_count", Int(0))).value
      && r.value.inventoryStatus.None? && r.value.priceTier.None?
  {
    if !HasFields(p, ProductSourceFields) then None
    else
      match ToFloat(Get(p, "price"))
      case None => None
      case Some(price) =>
        match ToInt(GetOr(p, "inventory_count", Int(0)))
        case None => None
        case Some(inventory) =>
          var currency := GetOr(p, "currency", Str("USD"));
          Some(ProductRecord(
            Get(p, "product_id"), Get(p, "name"), Get(p, "category"), price, currency,
            inventory, Get(p, "supplier_id"), ConvertToUsd(price, currency), None, None))
  }

  /** Stock status: exactly 0 is out of stock, anything below 10 (negative counts
      included) is low, the rest in stock. */
  function InventoryStatus(count: int): (s: string)
    ensures s == "out_of_stock" <==> count == 0
    ensures s == "low_stock" <==> count != 0 && count < 10
    ensures s == "in_stock" <==> count >= 10
  {
    if count == 0 then "out_of_stock" else if count < 10 then "low_stock" else "in_stock"
  }

  /** Price tier on the dollar price: below 50, below 200, the rest. */
  function PriceTier(priceUsd: real): (s: string)
    ensures s == "budget" <==> priceUsd < 50.0
    ensures s == "mid_range" <==> 50.0 <= priceUsd < 200.0
    ensures s == "premium" <==> priceUsd >= 200.0
  {
    if priceUsd < 50.0 then "budget" else if priceUsd < 200.0 then "mid_range" else "premium"
  }

  function TierRank(tier: string): int {
    if tier == "budget" then 0 else if tier == "mid_range" then 1 else 2
  }

  /** A dearer product never lands in a cheaper tier. */
  lemma PriceTierMonotone(a: real, b: real)
    requires a <= b
    ensures TierRank(PriceTier(a)) <= TierRank(PriceTier(b))
  {
  }

  /** `_calculate_product_derived_fields`: the two bands are added and every
      other field is kept. */
  function CalculateProductDerivedFields(p: ProductRecord): (r: ProductRecord)
    ensures r.inventoryStatus == Some(InventoryStatus(p.inventoryCount))
    ensures r.priceTier == Some(PriceTier(p.priceUsd))
    ensures r.(inventoryStatus := p.inventoryStatus, priceTier := p.priceTier) == p
  {
    p.(inventoryStatus := Some(InventoryStatus(p.inventoryCount)), priceTier := Some(PriceTier(p.priceUsd)))
  }

  function TransformProduct(p: Record): Option<ProductRecord> {
    match TransformSingleProduct(p)
    case None => None
    case Some(base) => Some(CalculateProductDerivedFields(base))
  }

  /** A product that passed validation is always transformed; its tiers are set. */
  lemma ValidatedProductTransforms(p: Record)
    requires HasFields(p, ProductSourceFields)
    requires ToFloat(Get(p, "price")).Some? && ToFloat(Get(p, "price")).value > 0.0
    requires Has(p, "inventory_count") ==> ToInt(Get(p, "inventory_count")).Some?
    ensures TransformProduct(p).Some?
    ensures TransformProduct(p).value.inventoryStatus.Some? && TransformProduct(p).value.priceTier.Some?
    ensures TransformProduct(p).value.priceUsd > 0.0
  {
    var price := ToFloat(Get(p, "price")).value;
    ConvertToUsdInverts(price, GetOr(p, "currency", Str("USD")));
    if !Has(p, "inventory_count") {
      assert GetOr(p, "inventory_count", Int(0)) == Int(0);
    }
  }

  method TransformProducts(products: seq<Record>) returns (r: seq<ProductRecord>)
    ensures r == FilterMap(products, TransformProduct)
  {
    r := [];
    var i := 0;
    while i < |products|
      invariant 0 <= i <= |products|
      invariant r == FilterMap(products[..i], TransformProduct)
    {
      FilterMapStep(products, TransformProduct, i);
      var transformed := TransformProduct(products[i]);
      i := i + 1;
      if transformed.None? {
        continue;
      }
      r := r + [transformed.value];
    }
    assert products[..i] == products;
  }
}
