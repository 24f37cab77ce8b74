/** The four analytics tables `create_analytics_tables` builds from the transformed
    records: the daily sales summary, user analytics, product performance and the
    financial report. Each reducer is a group-by in insertion order followed by
    one row per group. */
module Analytics {
  import opened Common
  import opened IsoTime
  import opened Values
  import opened Grouping
  import opened TransformedRecords

  // ---------------------------------------------------------------------------
  // Keys and weights read from a transformed transaction

  /** `txn.get('transaction_date')`; a transaction without one is skipped by the
      daily summary. */
  function DateKey(t: TransactionRecord): Option<Date> { t.TransactionDate() }
  function UserKey(t: TransactionRecord): Option<Value> { Some(t.base.userId) }
  function ProductKey(t: TransactionRecord): Option<Value> { Some(t.base.productId) }
  function CurrencyKey(t: TransactionRecord): Option<Value> { Some(t.base.currency) }
  function MethodKey(t: TransactionRecord): Option<Value> { Some(t.base.paymentMethod) }

  /** `txn['amount_usd']` and `txn['amount']` */
  function Usd(t: TransactionRecord): real { t.base.amountUsd }
  function Amount(t: TransactionRecord): real { t.base.amount }
  function One(t: TransactionRecord): real { 1.0 }

  function AddUsd(s: real, t: TransactionRecord): real { s + t.base.amountUsd }
  function AddAmount(s: real, t: TransactionRecord): real { s + t.base.amount }
  function Identity(s: real): real { s }

  /** A dict from currency or payment method to a running total. */
  type Breakdown = Groups<Value, real>

  /** `revenue_by_currency`: raw, unconverted amounts per currency. */
  function RevenueByCurrency(txns: seq<TransactionRecord>): Breakdown {
    GroupBy(txns, CurrencyKey, 0.0, AddAmount)
  }

  /** `revenue_by_payment_method`: dollar amounts per payment method. */
  function RevenueByMethod(txns: seq<TransactionRecord>): Breakdown {
    GroupBy(txns, MethodKey, 0.0, AddUsd)
  }

  /** The total of a breakdown's values. */
  function BreakdownTotal(b: Breakdown): real {
    SumOver(b.order, b.acc, Identity)
  }

  /** The currency breakdown adds up to the raw amounts, the payment-method
      breakdown to the dollar amounts. */
  lemma BreakdownTotals(txns: seq<TransactionRecord>)
    ensures BreakdownTotal(RevenueByCurrency(txns)) == SumOf(txns, Amount)
    ensures BreakdownTotal(RevenueByMethod(txns)) == SumOf(txns, Usd)
  {
    GroupSum(txns, CurrencyKey, 0.0, AddAmount, Identity, Amount);
    KeyedAll(txns, CurrencyKey);
    GroupSum(txns, MethodKey, 0.0, AddUsd, Identity, Usd);
    KeyedAll(txns, MethodKey);
  }

  function UserIdOf(t: TransactionRecord): Value { t.base.userId }
  function MethodOf(t: TransactionRecord): Value { t.base.paymentMethod }
  /** `txn.get('product_category', 'unknown')`: the key is always present, so the
      default is never used. */
  function CategoryOf(t: TransactionRecord): Value { t.product.category }

  /** `{f(txn) for txn in txns}` */
  function ValuesOf(txns: seq<TransactionRecord>, f: TransactionRecord -> Value): (r: set<Value>)
    ensures |r| <= |txns|
  {
    if txns == [] then {} else ValuesOf(txns[..|txns| - 1], f) + {f(txns[|txns| - 1])}
  }

  /** The set holds exactly the values of the transactions. */
  lemma {:induction false} ValuesOfMembers(txns: seq<TransactionRecord>, f: TransactionRecord -> Value)
    ensures forall t :: t in txns ==> f(t) in ValuesOf(txns, f)
    ensures forall v :: v in ValuesOf(txns, f) ==> exists t :: t in txns && f(t) == v
  {
    if txns != [] {
      var front := txns[..|txns| - 1];
      ValuesOfMembers(front, f);
      assert forall t :: t in front ==> t in txns;
      assert forall t :: t in txns ==> t in front || t == txns[|txns| - 1];
    }
  }

  // ---------------------------------------------------------------------------
  // _create_daily_sales_summary

  /** `daily_data[date]` while the loop runs. */
  datatype DayTotals = DayTotals(
    revenue: real, count: nat, customers: set<Value>, byCurrency: Breakdown, byMethod: Breakdown)

  const DayZero: DayTotals := DayTotals(0.0, 0, {}, EmptyGroups(), EmptyGroups())

  /** The updates of the loop body for one transaction. */
  function AddToDay(a: DayTotals, t: TransactionRecord): DayTotals {
    DayTotals(a.revenue + t.base.amountUsd, a.count + 1, a.customers + {t.base.userId},
              Insert(a.byCurrency, t.base.currency, t, 0.0, AddAmount),
              Insert(a.byMethod, t.base.paymentMethod, t, 0.0, AddUsd))
  }

  /** The accumulator of one day, directly from that day's transactions. */
  function DayOf(txns: seq<TransactionRecord>): DayTotals {
    DayTotals(SumOf(txns, Usd), |txns|, ValuesOf(txns, UserIdOf), RevenueByCurrency(txns), RevenueByMethod(txns))
  }

  /** Folding the loop body over a day's transactions gives its totals, distinct
      customers and the two breakdowns of those transactions. */
  lemma {:induction false} FoldDay(txns: seq<TransactionRecord>)
    ensures Fold(DayZero, AddToDay, txns) == DayOf(txns)
  {
    if txns != [] {
      FoldDay(txns[..|txns| - 1]);
      DayOfSnoc(txns);
    }
  }

  /** Adding the last transaction to the totals of the others gives the totals. */
  lemma DayOfSnoc(txns: seq<TransactionRecord>)
    requires txns != []
    ensures DayOf(txns) == AddToDay(DayOf(txns[..|txns| - 1]), txns[|txns| - 1])
  {
    var front := txns[..|txns| - 1];
    var x := txns[|txns| - 1];
    var a := DayOf(front);
    var b := AddToDay(a, x);
    CurrencySnoc(txns, a.byCurrency, x);
    MethodSnoc(txns, a.byMethod, x);
    CustomersSnoc(txns, a.customers, x);
    RevenueSnoc(txns, a.revenue, x);
    var c := DayOf(txns);
    assert c.revenue == b.revenue && c.count == b.count;
    assert c.customers == b.customers;
    assert c.byCurrency == b.byCurrency;
    assert c.byMethod == b.byMethod;
  }

  lemma CurrencySnoc(txns: seq<TransactionRecord>, before: Breakdown, x: TransactionRecord)
    requires txns != [] && before == RevenueByCurrency(txns[..|txns| - 1]) && x == txns[|txns| - 1]
    ensures RevenueByCurrency(txns) == Insert(before, x.base.currency, x, 0.0, AddAmount)
  {
  }

  lemma MethodSnoc(txns: seq<TransactionRecord>, before: Breakdown, x: TransactionRecord)
    requires txns != [] && before == RevenueByMethod(txns[..|txns| - 1]) && x == txns[|txns| - 1]
    ensures RevenueByMethod(txns) == Insert(before, x.base.paymentMethod, x, 0.0, AddUsd)
  {
  }

  lemma CustomersSnoc(txns: seq<TransactionRecord>, before: set<Value>, x: TransactionRecord)
    requires txns != [] && before == ValuesOf(txns[..|txns| - 1], UserIdOf) && x == txns[|txns| - 1]
    ensures ValuesOf(txns, UserIdOf) == before + {x.base.userId}
  {
  }

  lemma RevenueSnoc(txns: seq<TransactionRecord>, before: real, x: TransactionRecord)
    requires txns != [] && before == SumOf(txns[..|txns| - 1], Usd) && x == txns[|txns| - 1]
    ensures SumOf(txns, Usd) == before + x.base.amountUsd
  {
  }

  datatype DailyRow = DailyRow(
    date: Date, totalRevenue: real, totalTransactions: nat, uniqueCustomers: nat,
    averageOrderValue: real, revenueByCurrency: Breakdown, revenueByPaymentMethod: Breakdown)

  /** Average order value: `total / count if count > 0 else 0`. */
  function Average(total: real, count: nat): (avg: real)
    ensures count == 0 ==> avg == 0.0
    ensures count > 0 ==> avg * count as real == total
  {
    if count > 0 then total / count as real else 0.0
  }

  function DayRow(date: Date, a: DayTotals): DailyRow {
    DailyRow(date, a.revenue, a.count, |a.customers|, Average(a.revenue, a.count), a.byCurrency, a.byMethod)
  }

  function DailyGroups(txns: seq<TransactionRecord>): (g: Groups<Date, DayTotals>)
    ensures g.WellFormed()
  {
    GroupBy(txns, DateKey, DayZero, AddToDay)
  }

  /** The rows in the dict's insertion order. */
  function DayRows(order: seq<Date>, acc: map<Date, DayTotals>): (rows: seq<DailyRow>)
    requires forall d :: d in order ==> d in acc
    ensures |rows| == |order|
    ensures forall i :: 0 <= i < |order| ==> rows[i] == DayRow(order[i], acc[order[i]])
  {
    if order == [] then [] else DayRows(order[..|order| - 1], acc) + [DayRow(order[|order| - 1], acc[order[|order| - 1]])]
  }

  function DailySalesSummary(txns: seq<TransactionRecord>): seq<DailyRow> {
    var g := DailyGroups(txns);
    DayRows(g.order, g.acc)
  }

  method CreateDailySalesSummary(txns: seq<TransactionRecord>) returns (rows: seq<DailyRow>)
    ensures rows == DailySalesSummary(txns)
  {
    var order, acc := GroupInto(txns, DateKey, DayZero, AddToDay);
    assert Groups(order, acc) == DailyGroups(txns);
    rows := BuildDayRows(order, acc);
  }

  /** The second loop of the daily summary: one row per date, in insertion order. */
  method BuildDayRows(order: seq<Date>, acc: map<Date, DayTotals>) returns (rows: seq<DailyRow>)
    requires forall d :: d in order ==> d in acc
    ensures rows == DayRows(order, acc)
  {
    rows := [];
    var j := 0;
    while j < |order|
      invariant 0 <= j <= |order|
      invariant rows == DayRows(order[..j], acc)
    {
      DayRowsSnoc(order, acc, j);
      rows := rows + [DayRow(order[j], acc[order[j]])];
      j := j + 1;
    }
    assert order[..j] == order;
  }

  lemma DayRowsSnoc(order: seq<Date>, acc: map<Date, DayTotals>, j: nat)
    requires j < |order| && forall d :: d in order ==> d in acc
    ensures DayRows(order[..j + 1], acc) == DayRows(order[..j], acc) + [DayRow(order[j], acc[order[j]])]
  {
    assert order[..j + 1][..j] == order[..j];
  }

  /** One row per distinct transaction date: the rows' dates never repeat, and a date
      has a row exactly when some transaction has it. */
  lemma DailyRowsPerDate(txns: seq<TransactionRecord>, d: Date)
    ensures var rows := DailySalesSummary(txns);
      && (forall i, j :: 0 <= i < j < |rows| ==> rows[i].date != rows[j].date)
      && ((exists i :: 0 <= i < |rows| && rows[i].date == d) <==>
          (exists k :: 0 <= k < |txns| && txns[k].TransactionDate() == Some(d)))
  {
    var g := DailyGroups(txns);
    GroupKeys(txns, DateKey, DayZero, AddToDay, d);
    var rows := DailySalesSummary(txns);
    if exists i :: 0 <= i < |rows| && rows[i].date == d {
      var i :| 0 <= i < |rows| && rows[i].date == d;
      assert g.order[i] == d;
    }
    if d in g.order {
      var i :| 0 <= i < |g.order| && g.order[i] == d;
      assert rows[i].date == d;
    }
  }

  /** Summing a row field over `DayRows` sums the accumulator's measure over the keys. */
  lemma {:induction false} DayRowsSum(order: seq<Date>, acc: map<Date, DayTotals>,
                                      f: DailyRow -> real, m: DayTotals -> real)
    requires forall d :: d in order ==> d in acc
    requires forall d, a :: f(DayRow(d, a)) == m(a)
    ensures SumOf(DayRows(order, acc), f) == SumOver(order, acc, m)
  {
    if order != [] {
      var front := order[..|order| - 1];
      DayRowsSum(front, acc, f, m);
      var rows := DayRows(order, acc);
      assert rows[..|rows| - 1] == DayRows(front, acc);
    }
  }

  function RowRevenue(r: DailyRow): real { r.totalRevenue }
  function RowCount(r: DailyRow): real { r.totalTransactions as real }
  function DayRevenue(a: DayTotals): real { a.revenue }
  function DayCount(a: DayTotals): real { a.count as real }

  /** The rows' revenues add up to the dollar amounts of the dated transactions and
      their counts to the number of dated transactions. */
  lemma DailyTotals(txns: seq<TransactionRecord>)
    ensures SumOf(DailySalesSummary(txns), RowRevenue) == SumOf(Keyed(txns, DateKey), Usd)
    ensures SumOf(DailySalesSummary(txns), RowCount) == |Keyed(txns, DateKey)| as real
  {
    var g := DailyGroups(txns);
    DayRowsSum(g.order, g.acc, RowRevenue, DayRevenue);
    GroupSum(txns, DateKey, DayZero, AddToDay, DayRevenue, Usd);
    DayRowsSum(g.order, g.acc, RowCount, DayCount);
    GroupSum(txns, DateKey, DayZero, AddToDay, DayCount, One);
    SumOfOnes(Keyed(txns, DateKey), One);
  }

  /** Within a row: the revenue is that day's dollar amounts; the payment-method
      breakdown adds up to it; the currency breakdown adds up to the day's raw
      amounts; there is at least one transaction and no more customers than
      transactions. */
  lemma DailyRowContents(txns: seq<TransactionRecord>, i: nat)
    requires i < |DailySalesSummary(txns)|
    ensures var row := DailySalesSummary(txns)[i];
      var day := Members(txns, DateKey, row.date);
      && row.totalRevenue == SumOf(day, Usd)
      && row.totalTransactions == |day| >= 1
      && BreakdownTotal(row.revenueByPaymentMethod) == row.totalRevenue
      && BreakdownTotal(row.revenueByCurrency) == SumOf(day, Amount)
      && row.uniqueCustomers <= row.totalTransactions
  {
    var g := DailyGroups(txns);
    var d := g.order[i];
    GroupContents(txns, DateKey, DayZero, AddToDay, d);
    var day := Members(txns, DateKey, d);
    FoldDay(day);
    BreakdownTotals(day);
  }

  // ---------------------------------------------------------------------------
  // _create_user_analytics

  /** `user_data[user_id]` while the loop runs. */
  datatype UserTotals = UserTotals(
    spent: real, orders: nat, lastOrderDate: Option<Date>, methods: set<Value>, categories: set<Value>)

  const UserZero: UserTotals := UserTotals(0.0, 0, None, {}, {})

  /** `if txn_date and (not last or txn_date > last): last = txn_date` */
  function Later(last: Option<Date>, date: Option<Date>): Option<Date> {
    if date.Some? && (last.None? || DateLess(last.value, date.value)) then date else last
  }

  function AddToUser(a: UserTotals, t: TransactionRecord): UserTotals {
    UserTotals(a.spent + t.base.amountUsd, a.orders + 1, Later(a.lastOrderDate, t.TransactionDate()),
               a.methods + {t.base.paymentMethod}, a.categories + {t.product.category})
  }

  /** The latest date among the transactions: `None` exactly when none is dated,
      otherwise a date one of them has and that none of them exceeds. */
  predicate IsLatestDate(txns: seq<TransactionRecord>, last: Option<Date>) {
    && (last.None? <==> forall t :: t in txns ==> t.TransactionDate().None?)
    && (last.Some? ==> exists t :: t in txns && t.TransactionDate() == last)
    && (last.Some? ==> forall t :: t in txns && t.TransactionDate().Some? ==>
          !DateLess(last.value, t.TransactionDate().value))
  }

  /** The latest date by the same comparison, written as a direct recursion. */
  function LatestDate(txns: seq<TransactionRecord>): Option<Date> {
    if txns == [] then None
    else Later(LatestDate(txns[..|txns| - 1]), txns[|txns| - 1].TransactionDate())
  }

  lemma {:induction false} LatestDateIsLatest(txns: seq<TransactionRecord>)
    ensures IsLatestDate(txns, LatestDate(txns))
  {
    if txns != [] {
      var front := txns[..|txns| - 1];
      LatestDateIsLatest(front);
      assert front + [txns[|txns| - 1]] == txns;
      LaterIsLatest(front, txns[|txns| - 1], LatestDate(front));
    }
  }

  /** What a user's totals should be, stated directly. */
  function UserOf(txns: seq<TransactionRecord>): UserTotals {
    UserTotals(SumOf(txns, Usd), |txns|, LatestDate(txns), ValuesOf(txns, MethodOf), ValuesOf(txns, CategoryOf))
  }

  /** Adding the last transaction to the totals of the others gives the totals. */
  lemma UserOfSnoc(txns: seq<TransactionRecord>)
    requires txns != []
    ensures UserOf(txns) == AddToUser(UserOf(txns[..|txns| - 1]), txns[|txns| - 1])
  {
    var front := txns[..|txns| - 1];
    var x := txns[|txns| - 1];
    assert ValuesOf(txns, MethodOf) == ValuesOf(front, MethodOf) + {x.base.paymentMethod};
    assert ValuesOf(txns, CategoryOf) == ValuesOf(front, CategoryOf) + {x.product.category};
  }

  /** Folding the loop body over one user's transactions gives the sums, the sets
      and the latest date. */
  lemma {:induction false} FoldUser(txns: seq<TransactionRecord>)
    ensures Fold(UserZero, AddToUser, txns) == UserOf(txns)
  {
    if txns == [] {
      assert ValuesOf(txns, MethodOf) == {} && ValuesOf(txns, CategoryOf) == {};
    } else {
      var front := txns[..|txns| - 1];
      FoldUser(front);
      UserOfSnoc(txns);
    }
  }

  lemma LaterIsLatest(front: seq<TransactionRecord>, x: TransactionRecord, last: Option<Date>)
    requires IsLatestDate(front, last)
    ensures IsLatestDate(front + [x], Later(last, x.TransactionDate()))
  {
    var txns := front + [x];
    assert forall t :: t in txns <==> t in front || t == x;
  }

  datatype UserRow = UserRow(
    userId: Value, email: Value, country: Value, customerTier: Value,
    totalSpent: real, totalOrders: nat, averageOrderValue: real, lastOrderDate: Option<Date>,
    preferredPaymentMethod: Option<Value>, preferredCategory: Option<Value>, isHighValueCustomer: bool)

  /** `{user['user_id']: user for user in users}`: a later user with the same id
      replaces an earlier one. */
  function UserLookup(users: seq<UserRecord>): (m: map<Value, UserRecord>)
    ensures forall v :: v in m ==> m[v].userId == v && m[v] in users
    ensures forall u :: u in users ==> u.userId in m
  {
    if users == [] then map[]
    else
      var front := users[..|users| - 1];
      var u := users[|users| - 1];
      assert forall w :: w in users ==> w in front || w == u;
      UserLookup(front)[u.userId := u]
  }

  function UserGroups(txns: seq<TransactionRecord>): (g: Groups<Value, UserTotals>)
    ensures g.WellFormed()
  {
    GroupBy(txns, UserKey, UserZero, AddToUser)
  }

  /** `max(s, key=list(s).count) if s else None`: every element of a set occurs
      once in its list, so `max` returns whichever element the set yields first;
      the model leaves that choice open and only asks for a member. */
  predicate PicksMember(pick: Option<Value>, s: set<Value>) {
    if s == {} then pick.None? else pick.Some? && pick.value in s
  }

  /** The row for user `id` with totals `a`, joined to its user when there is one. */
  predicate UserRowFits(row: UserRow, id: Value, a: UserTotals, lookup: map<Value, UserRecord>) {
    && row.userId == id
    && (id in lookup ==>
          row.email == lookup[id].email && row.country == lookup[id].country
          && row.customerTier == lookup[id].customerTier)
    && (id !in lookup ==> row.email == Null && row.country == Null && row.customerTier == Str("standard"))
    && row.totalSpent == a.spent && row.totalOrders == a.orders
    && row.averageOrderValue == Average(a.spent, a.orders)
    && row.lastOrderDate == a.lastOrderDate
    && PicksMember(row.preferredPaymentMethod, a.methods)
    && PicksMember(row.preferredCategory, a.categories)
    && (row.isHighValueCustomer <==> a.spent > 1000.0)
  }

  /** One row per user group, in insertion order. */
  predicate IsUserAnalytics(rows: seq<UserRow>, txns: seq<TransactionRecord>, users: seq<UserRecord>) {
    var g := UserGroups(txns);
    RowsFit(rows, g.order, g.acc, UserLookup(users))
  }

  /** Row `i` fits key `i` of the order and its accumulator. */
  predicate RowsFit(rows: seq<UserRow>, order: seq<Value>, acc: map<Value, UserTotals>, lookup: map<Value, UserRecord>) {
    && |rows| == |order|
    && forall i :: 0 <= i < |rows| ==> order[i] in acc && UserRowFits(rows[i], order[i], acc[order[i]], lookup)
  }

  lemma RowsFitSnoc(rows: seq<UserRow>, row: UserRow, order: seq<Value>, id: Value,
                    acc: map<Value, UserTotals>, lookup: map<Value, UserRecord>)
    requires RowsFit(rows, order, acc, lookup) && id in acc && UserRowFits(row, id, acc[id], lookup)
    ensures RowsFit(rows + [row], order + [id], acc, lookup)
  {
  }

  method Pick(s: set<Value>) returns (pick: Option<Value>)
    ensures PicksMember(pick, s)
  {
    if s == {} {
      pick := None;
    } else {
      var v :| v in s;
      pick := Some(v);
    }
  }

  /** The row the loop body builds for user `id` with totals `a`, given the two picks. */
  function UserRowOf(id: Value, a: UserTotals, lookup: map<Value, UserRecord>,
                     method_: Option<Value>, category: Option<Value>): UserRow {
    var known := id in lookup;
    UserRow(id,
      if known then lookup[id].email else Null,
      if known then lookup[id].country else Null,
      if known then lookup[id].customerTier else Str("standard"),
      a.spent, a.orders, Average(a.spent, a.orders), a.lastOrderDate, method_, category, a.spent > 1000.0)
  }

  lemma UserRowOfFits(id: Value, a: UserTotals, lookup: map<Value, UserRecord>,
                      method_: Option<Value>, category: Option<Value>)
    requires PicksMember(method_, a.methods) && PicksMember(category, a.categories)
    ensures UserRowFits(UserRowOf(id, a, lookup, method_, category), id, a, lookup)
  {
  }

  method CreateUserAnalytics(txns: seq<TransactionRecord>, users: seq<UserRecord>) returns (rows: seq<UserRow>)
    ensures IsUserAnalytics(rows, txns, users)
  {
    var order, acc := GroupInto(txns, UserKey, UserZero, AddToUser);
    assert Groups(order, acc) == UserGroups(txns);
    rows := BuildUserRows(order, acc, UserLookup(users));
  }

  /** The second loop of the user analytics: one row per user id, in insertion order. */
  method BuildUserRows(order: seq<Value>, acc: map<Value, UserTotals>, lookup: map<Value, UserRecord>)
    returns (rows: seq<UserRow>)
    requires forall k :: k in order ==> k in acc
    ensures RowsFit(rows, order, acc, lookup)
  {
    rows := [];
    var j := 0;
    while j < |order|
      invariant 0 <= j <= |order|
      invariant RowsFit(rows, order[..j], acc, lookup)
    {
      var id := order[j];
      var a := acc[id];
      var method_ := Pick(a.methods);
      var category := Pick(a.categories);
      UserRowOfFits(id, a, lookup, method_, category);
      RowsFitSnoc(rows, UserRowOf(id, a, lookup, method_, category), order[..j], id, acc, lookup);
      assert order[..j + 1] == order[..j] + [id];
      rows := rows + [UserRowOf(id, a, lookup, method_, category)];
      j := j + 1;
    }
    assert order[..j] == order;
  }

  /** What a user row says about that user's transactions: at least one order; the
      spend is their dollar total; the last order date is the latest of their dates;
      the preferred payment method and category are ones they used. */
  lemma UserRowContents(rows: seq<UserRow>, txns: seq<TransactionRecord>, users: seq<UserRecord>, i: nat)
    requires IsUserAnalytics(rows, txns, users) && i < |rows|
    ensures var mine := Members(txns, UserKey, rows[i].userId);
      && rows[i].totalOrders == |mine| >= 1
      && rows[i].totalSpent == SumOf(mine, Usd)
      && IsLatestDate(mine, rows[i].lastOrderDate)
  {
    var g := UserGroups(txns);
    var id := g.order[i];
    GroupContents(txns, UserKey, UserZero, AddToUser, id);
    var mine := Members(txns, UserKey, id);
    FoldUser(mine);
    LatestDateIsLatest(mine);
  }

  /** The preferred payment method and category of a user row are ones that user's
      transactions used. */
  lemma UserRowPreferred(rows: seq<UserRow>, txns: seq<TransactionRecord>, users: seq<UserRecord>, i: nat)
    requires IsUserAnalytics(rows, txns, users) && i < |rows|
    ensures var mine := Members(txns, UserKey, rows[i].userId);
      && rows[i].preferredPaymentMethod.Some? && rows[i].preferredCategory.Some?
      && (exists t :: t in mine && t.base.paymentMethod == rows[i].preferredPaymentMethod.value)
      && (exists t :: t in mine && t.product.category == rows[i].preferredCategory.value)
  {
    var g := UserGroups(txns);
    var id := g.order[i];
    GroupContents(txns, UserKey, UserZero, AddToUser, id);
    var mine := Members(txns, UserKey, id);
    FoldUser(mine);
    assert UserRowFits(rows[i], id, UserOf(mine), UserLookup(users));
    PicksUsed(mine, rows[i].preferredPaymentMethod, rows[i].preferredCategory);
  }

  /** What `PicksMember` gives on a non-empty group of transactions. */
  lemma PicksUsed(mine: seq<TransactionRecord>, method_: Option<Value>, category: Option<Value>)
    requires mine != []
    requires PicksMember(method_, UserOf(mine).methods) && PicksMember(category, UserOf(mine).categories)
    ensures method_.Some? && category.Some?
    ensures exists t :: t in mine && t.base.paymentMethod == method_.value
    ensures exists t :: t in mine && t.product.category == category.value
  {
    ValuesOfHas(mine, MethodOf, mine[0]);
    ValuesOfHas(mine, CategoryOf, mine[0]);
    var t := ValuesOfWitness(mine, MethodOf, method_.value);
    assert t.base.paymentMethod == method_.value;
    var u := ValuesOfWitness(mine, CategoryOf, category.value);
    assert u.product.category == category.value;
  }

  lemma ValuesOfHas(txns: seq<TransactionRecord>, f: TransactionRecord -> Value, t: TransactionRecord)
    requires t in txns
    ensures f(t) in ValuesOf(txns, f)
  {
    ValuesOfMembers(txns, f);
  }

  lemma ValuesOfWitness(txns: seq<TransactionRecord>, f: TransactionRecord -> Value, v: Value)
    returns (t: TransactionRecord)
    requires v in ValuesOf(txns, f)
    ensures t in txns && f(t) == v
  {
    ValuesOfMembers(txns, f);
    t :| t in txns && f(t) == v;
  }

  /** The preferred payment method need not be the most used one: a user paying
      twice by card and once by PayPal may get PayPal. */
  lemma PreferredMethodNotMode(t1: TransactionRecord, t2: TransactionRecord, t3: TransactionRecord)
    requires t1.base.paymentMethod == t2.base.paymentMethod == Str("credit_card")
    requires t3.base.paymentMethod == Str("paypal")
    ensures PicksMember(Some(Str("paypal")), ValuesOf([t1, t2, t3], MethodOf))
  {
    assert t3 in [t1, t2, t3];
  }

  function UserSpent(r: UserRow): real { r.totalSpent }
  function UserOrders(r: UserRow): real { r.totalOrders as real }
  function TotalsSpent(a: UserTotals): real { a.spent }
  function TotalsOrders(a: UserTotals): real { a.orders as real }

  /** Summing a field over rows that fit the groups sums the groups' measure. */
  lemma {:induction false} UserRowsSum(rows: seq<UserRow>, order: seq<Value>, acc: map<Value, UserTotals>,
                                       lookup: map<Value, UserRecord>, f: UserRow -> real, m: UserTotals -> real)
    requires |rows| == |order| && forall k :: k in order ==> k in acc
    requires forall i :: 0 <= i < |rows| ==> UserRowFits(rows[i], order[i], acc[order[i]], lookup)
    requires forall r, id, a :: UserRowFits(r, id, a, lookup) ==> f(r) == m(a)
    ensures SumOf(rows, f) == SumOver(order, acc, m)
  {
    if rows != [] {
      var n := |rows| - 1;
      UserRowsSum(rows[..n], order[..n], acc, lookup, f, m);
    }
  }

  /** Every transaction belongs to exactly one user row: the spends add up to the
      dollar total and the order counts to the number of transactions. */
  lemma UserTotalsAddUp(rows: seq<UserRow>, txns: seq<TransactionRecord>, users: seq<UserRecord>)
    requires IsUserAnalytics(rows, txns, users)
    ensures SumOf(rows, UserSpent) == SumOf(txns, Usd)
    ensures SumOf(rows, UserOrders) == |txns| as real
  {
    var g := UserGroups(txns);
    var lookup := UserLookup(users);
    UserRowsSum(rows, g.order, g.acc, lookup, UserSpent, TotalsSpent);
    UserRowsSum(rows, g.order, g.acc, lookup, UserOrders, TotalsOrders);
    GroupSum(txns, UserKey, UserZero, AddToUser, TotalsSpent, Usd);
    GroupSum(txns, UserKey, UserZero, AddToUser, TotalsOrders, One);
    KeyedAll(txns, UserKey);
    SumOfOnes(txns, One);
  }

  // ---------------------------------------------------------------------------
  // _create_product_performance

  datatype ProductTotals = ProductTotals(revenue: real, orders: nat, customers: set<Value>)

  const ProductZero: ProductTotals := ProductTotals(0.0, 0, {})

  function AddToProduct(a: ProductTotals, t: TransactionRecord): ProductTotals {
    ProductTotals(a.revenue + t.base.amountUsd, a.orders + 1, a.customers + {t.base.userId})
  }

  lemma {:induction false} FoldProduct(txns: seq<TransactionRecord>)
    ensures Fold(ProductZero, AddToProduct, txns) ==
      ProductTotals(SumOf(txns, Usd), |txns|, ValuesOf(txns, UserIdOf))
  {
    if txns != [] {
      var front := txns[..|txns| - 1];
      FoldProduct(front);
      assert ValuesOf(txns, UserIdOf) == ValuesOf(front, UserIdOf) + {txns[|txns| - 1].base.userId};
    }
  }

  /** `'high'` above 5000 dollars of revenue, `'medium'` above 1000, else `'low'`. */
  function PerformanceTier(revenue: real): (tier: string)
    ensures tier == "high" <==> revenue > 5000.0
    ensures tier == "medium" <==> 1000.0 < revenue <= 5000.0
    ensures tier == "low" <==> revenue <= 1000.0
  {
    if revenue > 5000.0 then "high" else if revenue > 1000.0 then "medium" else "low"
  }

  datatype ProductRow = ProductRow(
    productId: Value, productName: Value, category: Value, basePrice: real,
    totalRevenue: real, totalOrders: nat, uniqueCustomers: nat, averageOrderValue: real,
    inventoryCount: int, performanceTier: string)

  /** `{product['product_id']: product for product in products}` */
  function ProductLookup(products: seq<ProductRecord>): (m: map<Value, ProductRecord>)
    ensures forall v :: v in m ==> m[v].productId == v && m[v] in products
    ensures forall p :: p in products ==> p.productId in m
  {
    if products == [] then map[]
    else
      var front := products[..|products| - 1];
      var p := products[|products| - 1];
      assert forall w :: w in products ==> w in front || w == p;
      ProductLookup(front)[p.productId := p]
  }

  /** The row for product `id`; an unknown product has no name or category, base
      price 0 and inventory 0. */
  function ProductRowOf(id: Value, a: ProductTotals, lookup: map<Value, ProductRecord>): ProductRow {
    var known := id in lookup;
    ProductRow(id,
      if known then lookup[id].name else Null,
      if known then lookup[id].category else Null,
      if known then lookup[id].priceUsd else 0.0,
      a.revenue, a.orders, |a.customers|, Average(a.revenue, a.orders),
      if known then lookup[id].inventoryCount else 0,
      PerformanceTier(a.revenue))
  }

  function ProductRows(order: seq<Value>, acc: map<Value, ProductTotals>, lookup: map<Value, ProductRecord>)
    : (rows: seq<ProductRow>)
    requires forall k :: k in order ==> k in acc
    ensures |rows| == |order|
    ensures forall i :: 0 <= i < |order| ==> rows[i] == ProductRowOf(order[i], acc[order[i]], lookup)
  {
    if order == [] then []
    else ProductRows(order[..|order| - 1], acc, lookup) + [ProductRowOf(order[|order| - 1], acc[order[|order| - 1]], lookup)]
  }

  function ProductGroups(txns: seq<TransactionRecord>): (g: Groups<Value, ProductTotals>)
    ensures g.WellFormed()
  {
    GroupBy(txns, ProductKey, ProductZero, AddToProduct)
  }

  function ProductPerformance(txns: seq<TransactionRecord>, products: seq<ProductRecord>): seq<ProductRow> {
    var g := ProductGroups(txns);
    ProductRows(g.order, g.acc, ProductLookup(products))
  }

  method CreateProductPerformance(txns: seq<TransactionRecord>, products: seq<ProductRecord>)
    returns (rows: seq<ProductRow>)
    ensures rows == ProductPerformance(txns, products)
  {
    var order, acc := GroupInto(txns, ProductKey, ProductZero, AddToProduct);
    assert Groups(order, acc) == ProductGroups(txns);
    rows := BuildProductRows(order, acc, ProductLookup(products));
  }

  /** The second loop of the product performance: one row per product, in insertion order. */
  method BuildProductRows(order: seq<Value>, acc: map<Value, ProductTotals>, lookup: map<Value, ProductRecord>)
    returns (rows: seq<ProductRow>)
    requires forall k :: k in order ==> k in acc
    ensures rows == ProductRows(order, acc, lookup)
  {
    rows := [];
    var j := 0;
    while j < |order|
      invariant 0 <= j <= |order|
      invariant rows == ProductRows(order[..j], acc, lookup)
    {
      ProductRowsSnoc(order, acc, lookup, j);
      rows := rows + [ProductRowOf(order[j], acc[order[j]], lookup)];
      j := j + 1;
    }
    assert order[..j] == order;
  }

  lemma ProductRowsSnoc(order: seq<Value>, acc: map<Value, ProductTotals>, lookup: map<Value, ProductRecord>, j: nat)
    requires j < |order| && forall k :: k in order ==> k in acc
    ensures ProductRows(order[..j + 1], acc, lookup) ==
      ProductRows(order[..j], acc, lookup) + [ProductRowOf(order[j], acc[order[j]], lookup)]
  {
    assert order[..j + 1][..j] == order[..j];
  }

  /** A product row counts that product's transactions, their dollar total and
      their distinct customers, and takes price and stock from the product. */
  lemma ProductRowContents(txns: seq<TransactionRecord>, products: seq<ProductRecord>, i: nat)
    requires i < |ProductPerformance(txns, products)|
    ensures var row := ProductPerformance(txns, products)[i];
      var mine := Members(txns, ProductKey, row.productId);
      && row.totalOrders == |mine| >= 1
      && row.totalRevenue == SumOf(mine, Usd)
      && row.uniqueCustomers == |ValuesOf(mine, UserIdOf)| <= row.totalOrders
      && ((exists p :: p in products && p.productId == row.productId) ==>
           exists p :: p in products && p.productId == row.productId &&
             row.basePrice == p.priceUsd && row.inventoryCount == p.inventoryCount)
  {
    var g := ProductGroups(txns);
    var id := g.order[i];
    GroupContents(txns, ProductKey, ProductZero, AddToProduct, id);
    FoldProduct(Members(txns, ProductKey, id));
    var lookup := ProductLookup(products);
    if exists p :: p in products && p.productId == id {
      var p :| p in products && p.productId == id;
      assert lookup[id] in products;
    }
  }

  // ---------------------------------------------------------------------------
  // _create_financial_reports

  datatype FinancialReport = FinancialReport(
    reportDate: Date, reportType: string, periodStart: Date, periodEnd: Date,
    totalRevenue: real, totalTransactions: nat, averageOrderValue: real,
    revenueByCurrency: Breakdown, revenueByPaymentMethod: Breakdown)

  /** The single report row; `today` is `datetime.now().date()`. */
  function FinancialReports(txns: seq<TransactionRecord>, today: Date): seq<FinancialReport> {
    var total := SumOf(txns, Usd);
    [FinancialReport(today, "daily", today, today, total, |txns|, Average(total, |txns|),
                     RevenueByCurrency(txns), RevenueByMethod(txns))]
  }

  method CreateFinancialReports(txns: seq<TransactionRecord>, today: Date) returns (rows: seq<FinancialReport>)
    ensures rows == FinancialReports(txns, today)
  {
    var total := SumOf(txns, Usd);
    var currencies, byCurrency := GroupInto(txns, CurrencyKey, 0.0, AddAmount);
    var methods, byMethod := GroupInto(txns, MethodKey, 0.0, AddUsd);
    rows := [FinancialReport(today, "daily", today, today, total, |txns|, Average(total, |txns|),
                             Groups(currencies, byCurrency), Groups(methods, byMethod))];
  }

  /** The report covers every transaction: its breakdowns add up to its raw and
      dollar totals, and the average of an empty list is 0. */
  lemma FinancialReportTotals(txns: seq<TransactionRecord>, today: Date)
    ensures var r := FinancialReports(txns, today)[0];
      && r.totalTransactions == |txns|
      && BreakdownTotal(r.revenueByPaymentMethod) == r.totalRevenue
      && BreakdownTotal(r.revenueByCurrency) == SumOf(txns, Amount)
      && (txns == [] ==> r.averageOrderValue == 0.0 && r.totalRevenue == 0.0)
  {
    BreakdownTotals(txns);
  }

  /** The daily summary drops undated transactions and the financial report does
      not: the report's total is the daily revenues plus the undated dollar amounts. */
  lemma DailyAndFinancialAgree(txns: seq<TransactionRecord>, today: Date)
    ensures FinancialReports(txns, today)[0].totalRevenue ==
      SumOf(DailySalesSummary(txns), RowRevenue) + SumOf(Unkeyed(txns, DateKey), Usd)
  {
    DailyTotals(txns);
    KeyedSplitSum(txns, DateKey, Usd);
  }

  // ---------------------------------------------------------------------------
  // create_analytics_tables

  datatype AnalyticsTables = AnalyticsTables(
    dailySalesSummary: seq<DailyRow>, userAnalytics: seq<UserRow>,
    productPerformance: seq<ProductRow>, financialReports: seq<FinancialReport>)

  method CreateAnalyticsTables(txns: seq<TransactionRecord>, users: seq<UserRecord>,
                               products: seq<ProductRecord>, today: Date)
    returns (tables: AnalyticsTables)
    ensures tables.dailySalesSummary == DailySalesSummary(txns)
    ensures IsUserAnalytics(tables.userAnalytics, txns, users)
    ensures tables.productPerformance == ProductPerformance(txns, products)
    ensures tables.financialReports == FinancialReports(txns, today)
  {
    var daily := CreateDailySalesSummary(txns);
    var userRows := CreateUserAnalytics(txns, users);
    var productRows := CreateProductPerformance(txns, products);
    var financial := CreateFinancialReports(txns, today);
    tables := AnalyticsTables(daily, userRows, productRows, financial);
  }
}
