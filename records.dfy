/** The records the transformer produces: a typed form of each dict it builds,
    and the dict itself as the quality tests read it. */
module TransformedRecords {
  import opened Common
  import opened IsoTime
  import opened Values

  // ---------------------------------------------------------------------------
  // The transformed transaction

  /** The dict `_transform_single_transaction` builds. */
  datatype TxnBase = TxnBase(
    transactionId: Value, userId: Value, productId: Value,
    amount: real, currency: Value, paymentMethod: Value, status: Value,
    transactionTimestamp: Value, amountUsd: real, isHighValue: bool, isInternational: bool)

  /** The keys added from the user: `user_country`, `user_tier`, `user_age_group`,
      `user_registration_date`. */
  datatype UserFields = UserFields(country: Value, tier: Value, ageGroup: Value, registrationDate: Value)

  /** The keys added from the product: `product_name`, `product_category`,
      `product_supplier`, `product_base_price`. */
  datatype ProductFields = ProductFields(name: Value, category: Value, supplier: Value, basePrice: Value)

  /** `payment_method_risk`, `transaction_risk`, `processing_priority` */
  datatype RuleFields = RuleFields(paymentMethodRisk: string, transactionRisk: string, processingPriority: string)

  /** `transaction_date`, `transaction_hour`, `transaction_day_of_week` (all `None`
      when the timestamp does not parse) and `profit_margin_estimate`. */
  datatype DerivedFields = DerivedFields(
    date: Option<Date>, hour: Option<int>, dayOfWeek: Option<string>, profitMargin: real)

  /** The transaction dict as the loop body grows it: the rule and derived keys are
      absent (`None`) until their step has run. */
  datatype TransactionRecord = TransactionRecord(
    base: TxnBase, user: UserFields, product: ProductFields,
    rules: Option<RuleFields>, derived: Option<DerivedFields>)
  {
    /** `txn.get('transaction_date')` */
    function TransactionDate(): Option<Date> {
      if derived.Some? then derived.value.date else None
    }
  }

  function OptionValue<T>(o: Option<T>, f: T -> Value): Value {
    if o.Some? then f(o.value) else Null
  }

  function DateOf(d: Date): Value { DateValue(d) }
  function TextOf(s: string): Value { Str(s) }
  function IntOf(i: int): Value { Int(i) }

  /** The keys `_transform_single_transaction` writes, in order. */
  function BaseAsRecord(b: TxnBase): Record {
    [("transaction_id", b.transactionId), ("user_id", b.userId), ("product_id", b.productId),
     ("amount", Float(b.amount)), ("currency", b.currency), ("payment_method", b.paymentMethod),
     ("status", b.status), ("transaction_timestamp", b.transactionTimestamp),
     ("amount_usd", Float(b.amountUsd)), ("is_high_value", Bool(b.isHighValue)),
     ("is_international", Bool(b.isInternational))]
  }

  function UserFieldsAsRecord(u: UserFields): Record {
    [("user_country", u.country), ("user_tier", u.tier), ("user_age_group", u.ageGroup),
     ("user_registration_date", u.registrationDate)]
  }

  function ProductFieldsAsRecord(p: ProductFields): Record {
    [("product_name", p.name), ("product_category", p.category),
     ("product_supplier", p.supplier), ("product_base_price", p.basePrice)]
  }

  /** A step that has not run has written no keys. */
  function RulesAsRecord(rules: Option<RuleFields>): Record {
    match rules
    case None => []
    case Some(f) =>
      [("payment_method_risk", Str(f.paymentMethodRisk)), ("transaction_risk", Str(f.transactionRisk)),
       ("processing_priority", Str(f.processingPriority))]
  }

  function DerivedAsRecord(derived: Option<DerivedFields>): Record {
    match derived
    case None => []
    case Some(f) =>
      [("transaction_date", OptionValue(f.date, DateOf)),
       ("transaction_hour", OptionValue(f.hour, IntOf)),
       ("transaction_day_of_week", OptionValue(f.dayOfWeek, TextOf)),
       ("profit_margin_estimate", Float(f.profitMargin))]
  }

  /** The transformed transaction as the dict the quality tests read, keys in the
      order the transformer inserts them. */
  function TransactionAsRecord(t: TransactionRecord): Record {
    BaseAsRecord(t.base) + UserFieldsAsRecord(t.user) + ProductFieldsAsRecord(t.product)
      + RulesAsRecord(t.rules) + DerivedAsRecord(t.derived)
  }

  lemma BaseAsRecordFields(b: TxnBase)
    ensures var r := BaseAsRecord(b);
      && Lookup(r, "transaction_id") == Some(b.transactionId)
      && Lookup(r, "user_id") == Some(b.userId)
      && Lookup(r, "product_id") == Some(b.productId)
      && Lookup(r, "amount") == Some(Float(b.amount))
  {
    var r := BaseAsRecord(b);
    LookupFirst(r, 0);
    LookupFirst(r, 1);
    LookupFirst(r, 2);
    LookupFirst(r, 3);
  }

  lemma BaseAsRecordMoreFields(b: TxnBase)
    ensures var r := BaseAsRecord(b);
      && Lookup(r, "currency") == Some(b.currency)
      && Lookup(r, "payment_method") == Some(b.paymentMethod)
      && Lookup(r, "status") == Some(b.status)
      && Lookup(r, "transaction_timestamp") == Some(b.transactionTimestamp)
  {
    var r := BaseAsRecord(b);
    LookupFirst(r, 4);
    LookupFirst(r, 5);
    LookupFirst(r, 6);
    LookupFirst(r, 7);
  }

  /** No block holds the raw `timestamp` key. */
  lemma NoRawTimestamp(t: TransactionRecord)
    ensures Lookup(BaseAsRecord(t.base), "timestamp").None?
    ensures Lookup(UserFieldsAsRecord(t.user), "timestamp").None?
    ensures Lookup(ProductFieldsAsRecord(t.product), "timestamp").None?
    ensures Lookup(RulesAsRecord(t.rules), "timestamp").None?
    ensures Lookup(DerivedAsRecord(t.derived), "timestamp").None?
  {
    LookupAbsent(BaseAsRecord(t.base), "timestamp");
    LookupAbsent(UserFieldsAsRecord(t.user), "timestamp");
    LookupAbsent(ProductFieldsAsRecord(t.product), "timestamp");
    LookupAbsent(RulesAsRecord(t.rules), "timestamp");
    LookupAbsent(DerivedAsRecord(t.derived), "timestamp");
  }

  /** A key of the first block is found there, whatever the later blocks hold. */
  lemma FoundInBase(t: TransactionRecord, k: string)
    requires Lookup(BaseAsRecord(t.base), k).Some?
    ensures Lookup(TransactionAsRecord(t), k) == Lookup(BaseAsRecord(t.base), k)
  {
    var b, u, p := BaseAsRecord(t.base), UserFieldsAsRecord(t.user), ProductFieldsAsRecord(t.product);
    var q, d := RulesAsRecord(t.rules), DerivedAsRecord(t.derived);
    assert TransactionAsRecord(t) == b + (u + p + q + d);
    LookupAppend(b, u + p + q + d, k);
  }

  /** The keys the quality tests read: the first seven are the source fields, and
      the raw `timestamp` has been renamed `transaction_timestamp`. */
  lemma TransactionAsRecordFields(t: TransactionRecord)
    ensures var r := TransactionAsRecord(t);
      && Get(r, "transaction_id") == t.base.transactionId
      && Get(r, "user_id") == t.base.userId
      && Get(r, "product_id") == t.base.productId
      && Get(r, "amount") == Float(t.base.amount)
      && Get(r, "currency") == t.base.currency
      && Get(r, "payment_method") == t.base.paymentMethod
      && Get(r, "status") == t.base.status
      && !Has(r, "timestamp")
      && Get(r, "transaction_timestamp") == t.base.transactionTimestamp
  {
    BaseAsRecordFields(t.base);
    BaseAsRecordMoreFields(t.base);
    FoundInBase(t, "transaction_id");
    FoundInBase(t, "user_id");
    FoundInBase(t, "product_id");
    FoundInBase(t, "amount");
    FoundInBase(t, "currency");
    FoundInBase(t, "payment_method");
    FoundInBase(t, "status");
    FoundInBase(t, "transaction_timestamp");
    NoRawTimestamp(t);
    var b, u, p := BaseAsRecord(t.base), UserFieldsAsRecord(t.user), ProductFieldsAsRecord(t.product);
    var q, d := RulesAsRecord(t.rules), DerivedAsRecord(t.derived);
    LookupAppend(b + u + p + q, d, "timestamp");
    LookupAppend(b + u + p, q, "timestamp");
    LookupAppend(b + u, p, "timestamp");
    LookupAppend(b, u, "timestamp");
  }

  /** The dict `_transform_single_user` builds; `customer_lifetime_days` is absent
      (`None`) until the derived step has run. */
  datatype UserRecord = UserRecord(
    userId: Value, email: Value, country: Value, ageGroup: Value, customerTier: Value,
    registrationDate: Value, isActive: Value, customerLifetimeDays: Option<int>)

  /** The dict `_transform_single_product` builds; the two derived keys are absent
      until the derived step has run. */
  datatype ProductRecord = ProductRecord(
    productId: Value, name: Value, category: Value, price: real, currency: Value,
    inventoryCount: int, supplierId: Value, priceUsd: real,
    inventoryStatus: Option<string>, priceTier: Option<string>)

  const UserSourceFields: seq<string> := ["user_id", "email", "country"]


  /** The transformed user as a dict, keys in insertion order. */
  function UserAsRecord(u: UserRecord): Record {
    [("user_id", u.userId), ("email", u.email), ("country", u.country), ("age_group", u.ageGroup),
     ("customer_tier", u.customerTier), ("registration_date", u.registrationDate),
     ("is_active", u.isActive)]
      + (if u.customerLifetimeDays.Some? then [("customer_lifetime_days", Int(u.customerLifetimeDays.value))] else [])
  }

  /** The transformed product as a dict, keys in insertion order. */
  function ProductAsRecord(p: ProductRecord): Record {
    [("product_id", p.productId), ("name", p.name), ("category", p.category), ("price", Float(p.price)),
     ("currency", p.currency), ("inventory_count", Int(p.inventoryCount)),
     ("supplier_id", p.supplierId), ("price_usd", Float(p.priceUsd))]
      + (if p.inventoryStatus.Some? then [("inventory_status", Str(p.inventoryStatus.value))] else [])
      + (if p.priceTier.Some? then [("price_tier", Str(p.priceTier.value))] else [])
  }

  /** The consistency test reads `user['user_id']`, which a transformed user always has. */
  lemma UserAsRecordId(u: UserRecord)
    ensures Lookup(UserAsRecord(u), "user_id") == Some(u.userId)
  {
  }

  /** The consistency test reads `product['product_id']` and `product.get('currency')`. */
  lemma ProductAsRecordFields(p: ProductRecord)
    ensures Lookup(ProductAsRecord(p), "product_id") == Some(p.productId)
    ensures Lookup(ProductAsRecord(p), "currency") == Some(p.currency)
  {
    var head := [("product_id", p.productId), ("name", p.name), ("category", p.category), ("price", Float(p.price)),
                 ("currency", p.currency), ("inventory_count", Int(p.inventoryCount)),
                 ("supplier_id", p.supplierId), ("price_usd", Float(p.priceUsd))];
    var rest := (if p.inventoryStatus.Some? then [("inventory_status", Str(p.inventoryStatus.value))] else [])
      + (if p.priceTier.Some? then [("price_tier", Str(p.priceTier.value))] else []);
    assert ProductAsRecord(p) == head + rest;
    LookupFirst(head, 0);
    LookupFirst(head, 4);
    LookupAppend(head, rest, "product_id");
    LookupAppend(head, rest, "currency");
  }
}
