/** The analytics engine (src/hooks/useAnalytics.tsx): pure functions of a
    product snapshot and a ledger snapshot. Calendar arithmetic (start and end
    of a day or month, "now") is not modelled: every period arrives as an
    inclusive window of integer timestamps. */
module Analytics {
  import opened Js
  import opened Seqs
  import opened Inventory

  /** A `{ start, end }` interval, both ends inclusive. */
  datatype Window = Window(start: int, end: int)

  predicate Within(t: Txn, w: Window) { w.start <= t.createdAt <= w.end }

  function InWindow(w: Window): Txn -> bool { (t: Txn) => Within(t, w) }

  /** `getTransactionsForPeriod`: `isWithinInterval(created_at, { start, end })`. */
  function TransactionsForPeriod(ts: seq<Txn>, w: Window): (r: seq<Txn>)
    ensures |r| <= |ts|
    ensures forall i :: 0 <= i < |r| ==> w.start <= r[i].createdAt <= w.end
    ensures w.start > w.end ==> r == []
  {
    FilterEmpty(ts, InWindow(w));
    Filter(ts, InWindow(w))
  }

  /** The period filter keeps exactly the entries with start ≤ created_at ≤ end,
      both ends included, in their original order. */
  lemma PeriodFilterInOrder(ts: seq<Txn>, w: Window)
    ensures var r := TransactionsForPeriod(ts, w); var idx := KeptIndices(ts, InWindow(w));
      && |idx| == |r|
      && (forall k :: 0 <= k < |idx| ==> idx[k] < |ts| && r[k] == ts[idx[k]])
      && (forall k, l :: 0 <= k < l < |idx| ==> idx[k] < idx[l])
      && (forall i :: 0 <= i < |ts| ==> (i in idx <==> w.start <= ts[i].createdAt <= w.end))
  {
    FilterIsOrderedSubsequence(ts, InWindow(w));
  }

  /** Σ total_amount of the sales and of the purchases among `ts`. */
  function SalesTotal(ts: seq<Txn>): int { SumBy(Filter(ts, IsVente), Total) }
  function PurchasesTotal(ts: seq<Txn>): int { SumBy(Filter(ts, IsAchat), Total) }

  datatype PeriodStats = PeriodStats(
    revenue: int,
    expenses: int,
    profit: int,
    grossMargin: real,
    transactions: int,
    quantitySold: int,
    quantityPurchased: int)

  /** `revenue > 0 ? (profit / revenue) * 100 : 0`, rounded to two decimals. */
  function GrossMargin(revenue: int, profit: int): real
  {
    if revenue > 0 then Round2(profit as real / revenue as real * 100.0) else 0.0
  }

  /** `getPeriodStats`. The sums are of integer totals, so `Math.round` leaves
      them unchanged. */
  function GetPeriodStats(ts: seq<Txn>, w: Window): (r: PeriodStats)
    ensures r.revenue == SalesTotal(TransactionsForPeriod(ts, w))
    ensures r.expenses == PurchasesTotal(TransactionsForPeriod(ts, w))
    ensures r.profit == r.revenue - r.expenses
    ensures r.transactions == |TransactionsForPeriod(ts, w)|
    ensures r.revenue <= 0 ==> r.grossMargin == 0.0
    ensures r.revenue > 0 ==> r.grossMargin == Round2(r.profit as real / r.revenue as real * 100.0)
    ensures r.quantitySold == SumBy(Filter(TransactionsForPeriod(ts, w), IsVente), Quantity)
    ensures r.quantityPurchased == SumBy(Filter(TransactionsForPeriod(ts, w), IsAchat), Quantity)
  {
    var period := TransactionsForPeriod(ts, w);
    var revenue := SalesTotal(period);
    var expenses := PurchasesTotal(period);
    var profit := revenue - expenses;
    RoundOfInt(revenue);
    RoundOfInt(expenses);
    RoundOfInt(profit);
    PeriodStats(
      Round(revenue as real), Round(expenses as real), Round(profit as real),
      GrossMargin(revenue, profit),
      |period|,
      SumBy(Filter(period, IsVente), Quantity),
      SumBy(Filter(period, IsAchat), Quantity))
  }

  /** Every entry in the window is a sale or a purchase: revenue plus
      expenses is the window's whole turnover, the quantities split the same
      way, and the counts of sales and purchases add up to `transactions`. */
  lemma PeriodStatsPartition(ts: seq<Txn>, w: Window)
    ensures var r := GetPeriodStats(ts, w); var period := TransactionsForPeriod(ts, w);
      && r.revenue + r.expenses == SumBy(period, Total)
      && r.quantitySold + r.quantityPurchased == SumBy(period, Quantity)
      && |Filter(period, IsVente)| + |Filter(period, IsAchat)| == r.transactions
  {
    var period := TransactionsForPeriod(ts, w);
    SumByPartition(period, Total, IsVente, IsAchat);
    SumByPartition(period, Quantity, IsVente, IsAchat);
    FilterPartitionLength(period, IsVente, IsAchat);
  }

  /** revenue = 100000 and expenses = 60000 give profit 40000 and a 40.00 margin. */
  lemma MarginExample()
    ensures GrossMargin(100000, 100000 - 60000) == 40.0
  {
    assert 40000 as real / 100000 as real * 100.0 == 40.0;
    assert Round(40.0 * 100.0) == 4000;
  }

  /** With nonnegative expenses the margin never exceeds 100. */
  lemma MarginAtMostHundred(revenue: int, expenses: int)
    requires expenses >= 0
    ensures GrossMargin(revenue, revenue - expenses) <= 100.0
  {
    if revenue > 0 {
      var x := (revenue - expenses) as real / revenue as real * 100.0;
      assert (revenue - expenses) as real <= revenue as real;
      assert x <= 100.0;
      RoundMonotone(x * 100.0, 10000.0);
      RoundOfInt(10000);
    }
  }

  /** One row of `productPerformance`. */
  datatype Performance = Performance(
    productId: ProductId,
    productName: string,
    totalSold: int,
    totalRevenue: int,
    averageSellingPrice: int,
    stockRotation: real,
    currentStock: int,
    alertThreshold: int,
    isLowStock: bool)

  /** `totalSold / stock_quantity` to two decimals, 0 unless the stock is positive. */
  function Rotation(sold: int, stock: int): real
  {
    if stock > 0 then Round2(sold as real / stock as real) else 0.0
  }

  /** The performance of one product over its all-time sales. */
  function PerformanceOf(ts: seq<Txn>, p: Product): (r: Performance)
    ensures r.productId == p.id && r.currentStock == p.stock && r.alertThreshold == p.alertThreshold
    ensures r.totalSold == Sold(ts, p.id)
    ensures r.totalRevenue == SumBy(Filter(ts, SalesOf(p.id)), Total)
    ensures r.totalSold > 0 ==> r.averageSellingPrice == Round(r.totalRevenue as real / r.totalSold as real)
    ensures r.isLowStock <==> p.stock <= p.alertThreshold
    ensures r.productName == p.name
    ensures p.stock > 0 ==> r.stockRotation == Round2(r.totalSold as real / p.stock as real)
    ensures p.stock <= 0 ==> r.stockRotation == 0.0
  {
    var sales := Filter(ts, SalesOf(p.id));
    var sold := SumBy(sales, Quantity);
    var revenue := SumBy(sales, Total);
    var average := if sold > 0 then revenue as real / sold as real else 0.0;
    RoundOfInt(revenue);
    Performance(p.id, p.name, sold, Round(revenue as real), Round(average),
                Rotation(sold, p.stock), p.stock, p.alertThreshold, p.stock <= p.alertThreshold)
  }

  /** 30 units sold against a stock of 10 give a rotation of 3.00; a stock of
      0 gives 0 rather than a division by zero. */
  lemma RotationExamples()
    ensures Rotation(30, 10) == 3.0
    ensures forall sold :: Rotation(sold, 0) == 0.0
  {
    assert 30 as real / 10 as real == 3.0;
    assert Round(3.0 * 100.0) == 300;
  }

  /** The average price is the rounded mean price of the product's sales, and
      0 when it has none. */
  lemma AverageOfNoSales(ts: seq<Txn>, p: Product)
    requires forall i :: 0 <= i < |ts| ==> !(ts[i].productId == p.id && ts[i].kind == Vente)
    ensures PerformanceOf(ts, p).totalSold == 0
    ensures PerformanceOf(ts, p).totalRevenue == 0
    ensures PerformanceOf(ts, p).averageSellingPrice == 0
  {
    NoSales(ts, p.id);
    RoundOfInt(0);
  }

  lemma {:induction false} NoSales(ts: seq<Txn>, pid: ProductId)
    requires forall i :: 0 <= i < |ts| ==> !(ts[i].productId == pid && ts[i].kind == Vente)
    ensures Filter(ts, SalesOf(pid)) == []
  {
    if |ts| > 0 {
      NoSales(ts[1..], pid);
    }
  }

  predicate SortedByRevenue(s: seq<Performance>)
  {
    forall i, j :: 0 <= i < j < |s| ==> s[i].totalRevenue >= s[j].totalRevenue
  }

  /** Inserts `x` in front of the first row whose revenue does not exceed its own. */
  function InsertByRevenue(x: Performance, s: seq<Performance>): (r: seq<Performance>)
    ensures SortedByRevenue(s) ==> SortedByRevenue(r)
    ensures multiset(r) == multiset(s) + multiset{x}
    ensures |r| == |s| + 1
    ensures r[0] == x || (|s| > 0 && r[0] == s[0])
  {
    if |s| == 0 then [x]
    else if s[0].totalRevenue <= x.totalRevenue then
      ConsSorted(x, s);
      [x] + s
    else
      var rest := InsertByRevenue(x, s[1..]);
      assert s == [s[0]] + s[1..];
      assert SortedByRevenue(s) ==> SortedByRevenue([s[0]] + rest) by {
        if SortedByRevenue(s) {
          ConsSorted(s[0], rest);
        }
      }
      [s[0]] + rest
  }

  /** A row at least as profitable as the head of a sorted list can go in front. */
  lemma ConsSorted(h: Performance, s: seq<Performance>)
    requires SortedByRevenue(s) ==> |s| == 0 || h.totalRevenue >= s[0].totalRevenue
    ensures SortedByRevenue(s) ==> SortedByRevenue([h] + s)
  {
    if SortedByRevenue(s) {
      forall i, j | 0 <= i < j < |[h] + s|
        ensures ([h] + s)[i].totalRevenue >= ([h] + s)[j].totalRevenue
      {
        if i > 0 {
          assert ([h] + s)[i] == s[i - 1];
        } else {
          assert s[0].totalRevenue >= s[j - 1].totalRevenue;
        }
      }
    }
  }

  /** `.sort((a, b) => b.totalRevenue - a.totalRevenue)`: a stable sort by
      non-increasing revenue. */
  function SortByRevenue(s: seq<Performance>): (r: seq<Performance>)
    ensures SortedByRevenue(r)
    ensures multiset(r) == multiset(s)
    ensures |r| == |s|
  {
    if |s| == 0 then []
    else
      assert s == [s[0]] + s[1..];
      InsertByRevenue(s[0], SortByRevenue(s[1..]))
  }

  function HasRevenue(v: int): Performance -> bool { (p: Performance) => p.totalRevenue == v }

  /** Filtering by a revenue value distributes over a leading row. */
  lemma TiesOfCons(h: Performance, s: seq<Performance>, v: int)
    ensures Filter([h] + s, HasRevenue(v)) == (if h.totalRevenue == v then [h] else []) + Filter(s, HasRevenue(v))
  {
    FilterAppend([h], s, HasRevenue(v));
    assert Filter([h], HasRevenue(v)) == (if h.totalRevenue == v then [h] else []);
  }

  /** Inserting a row puts it in front of the rows of equal revenue. */
  lemma {:induction false} InsertKeepsTies(x: Performance, s: seq<Performance>, v: int)
    ensures Filter(InsertByRevenue(x, s), HasRevenue(v))
         == (if x.totalRevenue == v then [x] else []) + Filter(s, HasRevenue(v))
  {
    if |s| == 0 || s[0].totalRevenue <= x.totalRevenue {
      assert InsertByRevenue(x, s) == [x] + s;
      TiesOfCons(x, s, v);
    } else {
      InsertKeepsTies(x, s[1..], v);
      InsertTiesStep(x, s, v);
    }
  }

  /** The step of `InsertKeepsTies` where `x` goes behind the first row. */
  lemma InsertTiesStep(x: Performance, s: seq<Performance>, v: int)
    requires |s| > 0 && s[0].totalRevenue > x.totalRevenue
    requires Filter(InsertByRevenue(x, s[1..]), HasRevenue(v))
          == (if x.totalRevenue == v then [x] else []) + Filter(s[1..], HasRevenue(v))
    ensures Filter(InsertByRevenue(x, s), HasRevenue(v))
         == (if x.totalRevenue == v then [x] else []) + Filter(s, HasRevenue(v))
  {
    var rest := InsertByRevenue(x, s[1..]);
    var tx: seq<Performance> := if x.totalRevenue == v then [x] else [];
    var t0: seq<Performance> := if s[0].totalRevenue == v then [s[0]] else [];
    var f := Filter(s[1..], HasRevenue(v));
    assert Filter(InsertByRevenue(x, s), HasRevenue(v)) == t0 + (tx + f) by {
      assert InsertByRevenue(x, s) == [s[0]] + rest;
      TiesOfCons(s[0], rest, v);
    }
    assert Filter(s, HasRevenue(v)) == t0 + f;
    SwapEmpty(t0, tx, f);
  }

  /** Of two sequences at most one of which is non-empty, either may go first. */
  lemma SwapEmpty(a: seq<Performance>, b: seq<Performance>, f: seq<Performance>)
    requires a == [] || b == []
    ensures a + (b + f) == b + (a + f)
  {
    if a == [] {
      assert a + (b + f) == b + f;
      assert a + f == f;
    } else {
      assert b + f == f;
      assert b + (a + f) == a + f;
    }
  }

  /** Stability: the rows that share a revenue keep their catalog order. */
  lemma {:induction false} SortIsStable(s: seq<Performance>, v: int)
    ensures Filter(SortByRevenue(s), HasRevenue(v)) == Filter(s, HasRevenue(v))
  {
    if |s| > 0 {
      SortIsStable(s[1..], v);
      InsertKeepsTies(s[0], SortByRevenue(s[1..]), v);
    }
  }

  /** Two sequences with the same multiset hold the same elements. */
  lemma SameElements(a: seq<Performance>, b: seq<Performance>)
    requires multiset(a) == multiset(b)
    ensures forall i :: 0 <= i < |a| ==> a[i] in b
    ensures forall k :: 0 <= k < |b| ==> b[k] in a
  {
    forall i | 0 <= i < |a| ensures a[i] in b {
      assert a[i] in multiset(a);
    }
    forall k | 0 <= k < |b| ensures b[k] in a {
      assert b[k] in multiset(b);
    }
  }

  /** One unsorted row per product, in catalog order. */
  function Rows(products: seq<Product>, ts: seq<Txn>): (r: seq<Performance>)
    ensures |r| == |products|
    ensures forall i :: 0 <= i < |products| ==> r[i] == PerformanceOf(ts, products[i])
  {
    seq(|products|, i requires 0 <= i < |products| => PerformanceOf(ts, products[i]))
  }

  /** `productPerformance`: one record per product, sorted by revenue. */
  function ProductPerformance(products: seq<Product>, ts: seq<Txn>): (r: seq<Performance>)
    ensures |r| == |products|
    ensures SortedByRevenue(r)
    ensures multiset(r) == multiset(Rows(products, ts))
    ensures forall i :: 0 <= i < |products| ==> PerformanceOf(ts, products[i]) in r
    ensures forall k :: 0 <= k < |r| ==> exists i :: 0 <= i < |products| && r[k] == PerformanceOf(ts, products[i])
  {
    var rows := Rows(products, ts);
    var r := SortByRevenue(rows);
    SameElements(rows, r);
    r
  }

  /** `alert.type` and `alert.severity`. */
  datatype AlertKind = LowStock | RevenueDrop | ExpenseAnomaly
  datatype Severity = LowSeverity | Medium | High

  /** The structured `data` payload; messages are presentation and left out. */
  datatype AlertData =
    | StockData(currentStock: int, threshold: int)
    | RevenueData(current: int, previous: int)
    | ExpenseData(current: int, average: real)

  datatype Alert = Alert(id: string, kind: AlertKind, severity: Severity, productId: Option<ProductId>, data: AlertData)

  function LowStockAlert(p: Product): Alert
  {
    Alert("low_stock_" + p.id, LowStock, if p.stock == 0 then High else Medium,
          Some(p.id), StockData(p.stock, p.alertThreshold))
  }

  /** The low-stock rule: one alert per product at or under its threshold,
      in catalog order; high severity exactly when the product is out of stock. */
  function LowStockAlerts(products: seq<Product>): (r: seq<Alert>)
    ensures |r| == |Filter(products, IsLow)|
    ensures forall k :: 0 <= k < |r| ==> r[k] == LowStockAlert(Filter(products, IsLow)[k])
    ensures forall k :: 0 <= k < |r| ==>
      && r[k].kind == LowStock
      && r[k].data.StockData? && r[k].data.currentStock <= r[k].data.threshold
      && (r[k].severity == High <==> r[k].data.currentStock == 0)
      && (r[k].severity != High ==> r[k].severity == Medium)
  {
    var low := Filter(products, IsLow);
    seq(|low|, k requires 0 <= k < |low| => LowStockAlert(low[k]))
  }

  /** A product is reported by the low-stock rule exactly when its stock is
      at or under its threshold. */
  lemma LowStockAlertIff(products: seq<Product>, i: int)
    requires 0 <= i < |products|
    ensures LowStockAlert(products[i]) in LowStockAlerts(products) <==> products[i].stock <= products[i].alertThreshold
  {
    var low := Filter(products, IsLow);
    var r := LowStockAlerts(products);
    FilterMembers(products, IsLow);
    if IsLow(products[i]) {
      var k :| 0 <= k < |low| && low[k] == products[i];
      assert r[k] == LowStockAlert(products[i]);
    }
  }

  /** Threshold 10: stock 10 is reported with medium severity, stock 0 with
      high severity, stock 11 not at all. */
  lemma LowStockBoundary(p: Product)
    requires p.alertThreshold == 10
    ensures p.stock == 10 ==> LowStockAlerts([p]) == [LowStockAlert(p)] && LowStockAlert(p).severity == Medium
    ensures p.stock == 0 ==> LowStockAlerts([p]) == [LowStockAlert(p)] && LowStockAlert(p).severity == High
    ensures p.stock == 11 ==> LowStockAlerts([p]) == []
  {
  }

  /** The revenue-drop rule: last month earned something and this month
      earned less than 80% of it. */
  predicate RevenueDropFires(current: int, previous: int)
  {
    previous > 0 && (current as real) < (previous as real) * 0.8
  }

  /** 100000 then 79000 is a drop; 100000 then 80000 is not. */
  lemma RevenueDropBoundary()
    ensures RevenueDropFires(79000, 100000)
    ensures !RevenueDropFires(80000, 100000)
  {
  }

  /** `Math.ceil(n / 30)` for a count n ≥ 0. */
  function CeilDiv30(n: nat): (c: nat)
    ensures 30 * c >= n && 30 * (c - 1) < n
  {
    (n + 29) / 30
  }

  /** All-time purchase spending divided by max(1, ceil(N/30)) where N counts
      every entry: a rough "per 30 entries" average, not a calendar one. */
  function AverageMonthlyExpenses(ts: seq<Txn>): real
  {
    var months := if CeilDiv30(|ts|) > 1 then CeilDiv30(|ts|) else 1;
    PurchasesTotal(ts) as real / months as real
  }

  predicate ExpenseAnomalyFires(currentExpenses: int, average: real)
  {
    currentExpenses as real > average * 1.5
  }

  function DropAlert(cur: PeriodStats, prev: PeriodStats): Alert
  {
    Alert("revenue_drop", RevenueDrop, High, None, RevenueData(cur.revenue, prev.revenue))
  }

  function AnomalyAlert(cur: PeriodStats, average: real): Alert
  {
    Alert("expense_anomaly", ExpenseAnomaly, Medium, None, ExpenseData(cur.expenses, average))
  }

  /** `alerts` for the given current and previous calendar months: the
      low-stock alerts in catalog order, then at most one revenue-drop alert,
      then at most one expense-anomaly alert. */
  function Alerts(products: seq<Product>, ts: seq<Txn>, thisMonth: Window, lastMonth: Window): (r: seq<Alert>)
    ensures var low := LowStockAlerts(products);
      var cur := GetPeriodStats(ts, thisMonth);
      var prev := GetPeriodStats(ts, lastMonth);
      var drop := RevenueDropFires(cur.revenue, prev.revenue);
      var anomaly := ExpenseAnomalyFires(cur.expenses, AverageMonthlyExpenses(ts));
      && |r| == |low| + (if drop then 1 else 0) + (if anomaly then 1 else 0)
      && r[..|low|] == low
      && (drop ==> r[|low|] == DropAlert(cur, prev))
      && (anomaly ==> r[|r| - 1] == AnomalyAlert(cur, AverageMonthlyExpenses(ts)))
  {
    var cur := GetPeriodStats(ts, thisMonth);
    var prev := GetPeriodStats(ts, lastMonth);
    var average := AverageMonthlyExpenses(ts);
    var drop := if RevenueDropFires(cur.revenue, prev.revenue) then [DropAlert(cur, prev)] else [];
    var anomaly := if ExpenseAnomalyFires(cur.expenses, average) then [AnomalyAlert(cur, average)] else [];
    LowStockAlerts(products) + drop + anomaly
  }

  predicate HasKind(r: seq<Alert>, kind: AlertKind)
  {
    exists k :: 0 <= k < |r| && r[k].kind == kind
  }

  /** The three rules are independent: a revenue-drop alert is present exactly
      when its rule fires, an expense-anomaly alert exactly when its rule
      fires, and neither depends on the catalog. */
  lemma RulesAreIndependent(products: seq<Product>, ts: seq<Txn>, thisMonth: Window, lastMonth: Window)
    ensures var r := Alerts(products, ts, thisMonth, lastMonth);
      var cur := GetPeriodStats(ts, thisMonth);
      && (HasKind(r, RevenueDrop) <==> RevenueDropFires(cur.revenue, GetPeriodStats(ts, lastMonth).revenue))
      && (HasKind(r, ExpenseAnomaly) <==> ExpenseAnomalyFires(cur.expenses, AverageMonthlyExpenses(ts)))
  {
    var low := LowStockAlerts(products);
    var cur := GetPeriodStats(ts, thisMonth);
    var prev := GetPeriodStats(ts, lastMonth);
    var average := AverageMonthlyExpenses(ts);
    var drop := if RevenueDropFires(cur.revenue, prev.revenue) then [DropAlert(cur, prev)] else [];
    var anomaly := if ExpenseAnomalyFires(cur.expenses, average) then [AnomalyAlert(cur, average)] else [];
    KindsOfConcat(low, drop, anomaly);
  }

  /** In a concatenation of groups that each hold one kind of alert, a kind
      is present exactly when its group is non-empty. */
  lemma KindsOfConcat(low: seq<Alert>, drop: seq<Alert>, anomaly: seq<Alert>)
    requires forall k :: 0 <= k < |low| ==> low[k].kind == LowStock
    requires forall k :: 0 <= k < |drop| ==> drop[k].kind == RevenueDrop
    requires forall k :: 0 <= k < |anomaly| ==> anomaly[k].kind == ExpenseAnomaly
    ensures HasKind(low + drop + anomaly, RevenueDrop) <==> drop != []
    ensures HasKind(low + drop + anomaly, ExpenseAnomaly) <==> anomaly != []
  {
    var r := low + drop + anomaly;
    if drop != [] {
      assert r[|low|] == drop[0];
    }
    if anomaly != [] {
      assert r[|low| + |drop|] == anomaly[0];
    }
    forall k | 0 <= k < |r|
      ensures r[k].kind == RevenueDrop ==> drop != []
      ensures r[k].kind == ExpenseAnomaly ==> anomaly != []
    {
      if k < |low| {
        assert r[k] == low[k];
      } else if k < |low| + |drop| {
        assert r[k] == drop[k - |low|];
      } else {
        assert r[k] == anomaly[k - |low| - |drop|];
      }
    }
  }

  /** One point of the monthly or daily chart series. */
  datatype ChartPoint = ChartPoint(revenue: int, expenses: int, profit: int)

  function PointOf(s: PeriodStats): ChartPoint { ChartPoint(s.revenue, s.expenses, s.profit) }

  /** Consecutive inclusive buckets, oldest first: each starts right after the
      previous one ends. */
  predicate Contiguous(buckets: seq<Window>)
  {
    && (forall i :: 0 <= i < |buckets| ==> buckets[i].start <= buckets[i].end)
    && (forall i, j :: 0 <= i < |buckets| && j == i + 1 < |buckets| ==> buckets[i].end + 1 == buckets[j].start)
  }

  /** One point per bucket, each the period statistics of that bucket. */
  function Series(ts: seq<Txn>, buckets: seq<Window>): (r: seq<ChartPoint>)
    ensures |r| == |buckets|
    ensures forall i :: 0 <= i < |r| ==> r[i] == PointOf(GetPeriodStats(ts, buckets[i]))
  {
    seq(|buckets|, i requires 0 <= i < |buckets| => PointOf(GetPeriodStats(ts, buckets[i])))
  }

  datatype Charts = Charts(monthly: seq<ChartPoint>, daily: seq<ChartPoint>)

  /** `chartData`: the trailing 12 calendar months and the trailing 30 days,
      oldest first; the caller supplies the bucket boundaries. */
  function ChartData(ts: seq<Txn>, months: seq<Window>, days: seq<Window>): (r: Charts)
    requires |months| == 12 && |days| == 30
    ensures |r.monthly| == 12 && |r.daily| == 30
    ensures forall i :: 0 <= i < 12 ==> r.monthly[i] == PointOf(GetPeriodStats(ts, months[i]))
    ensures forall i :: 0 <= i < 30 ==> r.daily[i] == PointOf(GetPeriodStats(ts, days[i]))
  {
    Charts(Series(ts, months), Series(ts, days))
  }

  function SumRevenue(points: seq<ChartPoint>): int
  {
    if |points| == 0 then 0 else points[0].revenue + SumRevenue(points[1..])
  }

  function SumExpenses(points: seq<ChartPoint>): int
  {
    if |points| == 0 then 0 else points[0].expenses + SumExpenses(points[1..])
  }

  function OfKind(k: Kind): Txn -> bool { (t: Txn) => t.kind == k }

  function InWindowOfKind(w: Window, k: Kind): Txn -> bool { (t: Txn) => Within(t, w) && t.kind == k }

  /** The revenue and the expenses of a window are sums over the sales and
      the purchases whose date falls inside it. */
  lemma RevenueOfWindow(ts: seq<Txn>, w: Window)
    ensures GetPeriodStats(ts, w).revenue == SumBy(Filter(ts, InWindowOfKind(w, Vente)), Total)
    ensures GetPeriodStats(ts, w).expenses == SumBy(Filter(ts, InWindowOfKind(w, Achat)), Total)
  {
    var period := TransactionsForPeriod(ts, w);
    FilterFilter(ts, InWindow(w), OfKind(Vente), InWindowOfKind(w, Vente));
    FilterFilter(ts, InWindow(w), OfKind(Achat), InWindowOfKind(w, Achat));
    FilterCongruent(period, IsVente, OfKind(Vente));
    FilterCongruent(period, IsAchat, OfKind(Achat));
  }

  /** Two adjacent windows split the total of the entries of one kind in
      their union. */
  lemma SplitKind(ts: seq<Txn>, a: int, b: int, c: int, k: Kind)
    requires a <= b + 1 && b <= c
    ensures SumBy(Filter(ts, InWindowOfKind(Window(a, c), k)), Total)
         == SumBy(Filter(ts, InWindowOfKind(Window(a, b), k)), Total)
          + SumBy(Filter(ts, InWindowOfKind(Window(b + 1, c), k)), Total)
  {
    SumByDisjointUnion(ts, Total, InWindowOfKind(Window(a, c), k),
      InWindowOfKind(Window(a, b), k), InWindowOfKind(Window(b + 1, c), k));
  }

  /** Two adjacent windows split the revenue and the expenses of their union. */
  lemma SplitWindow(ts: seq<Txn>, a: int, b: int, c: int)
    requires a <= b + 1 && b <= c
    ensures GetPeriodStats(ts, Window(a, c)).revenue
         == GetPeriodStats(ts, Window(a, b)).revenue + GetPeriodStats(ts, Window(b + 1, c)).revenue
    ensures GetPeriodStats(ts, Window(a, c)).expenses
         == GetPeriodStats(ts, Window(a, b)).expenses + GetPeriodStats(ts, Window(b + 1, c)).expenses
  {
    RevenueOfWindow(ts, Window(a, c));
    RevenueOfWindow(ts, Window(a, b));
    RevenueOfWindow(ts, Window(b + 1, c));
    SplitKind(ts, a, b, c, Vente);
    SplitKind(ts, a, b, c, Achat);
  }

  /** The revenue and the expenses of the points of a series add up to
      `total`. */
  predicate AddsUpTo(points: seq<ChartPoint>, total: PeriodStats)
  {
    SumRevenue(points) == total.revenue && SumExpenses(points) == total.expenses
  }

  /** The chart series add up: over contiguous buckets, the revenues and the
      expenses of the points sum to those of the whole span. */
  lemma {:induction false} SeriesAddsUp(ts: seq<Txn>, buckets: seq<Window>)
    requires |buckets| > 0 && Contiguous(buckets)
    ensures AddsUpTo(Series(ts, buckets), GetPeriodStats(ts, Window(buckets[0].start, buckets[|buckets| - 1].end)))
  {
    var points := Series(ts, buckets);
    if |buckets| == 1 {
      assert points[1..] == [];
    } else {
      var rest := buckets[1..];
      assert Contiguous(rest) by {
        assert forall i :: 0 <= i < |rest| ==> rest[i] == buckets[i + 1];
      }
      SeriesAddsUp(ts, rest);
      ContiguousOrdered(rest);
      assert buckets[0].end + 1 == buckets[1].start;
      SeriesStep(ts, buckets);
    }
  }

  /** The sums of a series are its first point plus the sums of the rest. */
  lemma SeriesHead(ts: seq<Txn>, buckets: seq<Window>)
    requires |buckets| > 0
    ensures SumRevenue(Series(ts, buckets))
         == GetPeriodStats(ts, buckets[0]).revenue + SumRevenue(Series(ts, buckets[1..]))
    ensures SumExpenses(Series(ts, buckets))
         == GetPeriodStats(ts, buckets[0]).expenses + SumExpenses(Series(ts, buckets[1..]))
  {
    var points := Series(ts, buckets);
    assert points[1..] == Series(ts, buckets[1..]);
  }

  /** One step of `SeriesAddsUp`: the first bucket plus the span of the rest. */
  lemma SeriesStep(ts: seq<Txn>, buckets: seq<Window>)
    requires |buckets| > 1
    requires buckets[0].start <= buckets[0].end + 1 == buckets[1].start <= buckets[|buckets| - 1].end + 1
    requires AddsUpTo(Series(ts, buckets[1..]), GetPeriodStats(ts, Window(buckets[1].start, buckets[|buckets| - 1].end)))
    ensures AddsUpTo(Series(ts, buckets), GetPeriodStats(ts, Window(buckets[0].start, buckets[|buckets| - 1].end)))
  {
    SeriesHead(ts, buckets);
    SplitWindow(ts, buckets[0].start, buckets[0].end, buckets[|buckets| - 1].end);
  }

  /** In contiguous buckets the first one starts no later than the last one ends. */
  lemma {:induction false} ContiguousOrdered(buckets: seq<Window>)
    requires |buckets| > 0 && Contiguous(buckets)
    ensures buckets[0].start <= buckets[|buckets| - 1].end
  {
    if |buckets| > 1 {
      var rest := buckets[1..];
      assert forall i :: 0 <= i < |rest| ==> rest[i] == buckets[i + 1];
      ContiguousOrdered(rest);
    }
  }
}
