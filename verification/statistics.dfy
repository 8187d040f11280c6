/** The dashboard counters and chart feeds (src/hooks/useStatistics.tsx).
    "The current month" is the calendar month of the clock, given as an
    inclusive window of timestamps. */
module Statistics {
  import opened Js
  import opened Seqs
  import opened Inventory
  import opened Analytics

  datatype Stats = Stats(
    totalProducts: nat,
    totalStock: int,
    lowStockProducts: nat,
    totalRevenue: int,
    monthlyRevenue: int)

  /** `stats`. The sums are of integer totals, so `Math.round` leaves them
      unchanged. */
  function GetStats(products: seq<Product>, ts: seq<Txn>, month: Window): (r: Stats)
    ensures r.totalProducts == |products|
    ensures r.lowStockProducts <= r.totalProducts
    ensures r.totalRevenue == SalesTotal(ts)
  {
    var sales := Filter(ts, IsVente);
    var total := SumBy(sales, Total);
    var monthly := SumBy(Filter(sales, InWindow(month)), Total);
    RoundOfInt(total);
    RoundOfInt(monthly);
    Stats(|products|, SumBy(products, Stock), |Filter(products, IsLow)|,
          Round(total as real), Round(monthly as real))
  }

  /** The low-stock counter counts exactly the products at or under their
      threshold: one per low-stock alert of the analytics engine. */
  lemma LowStockCountMatchesAlerts(products: seq<Product>, ts: seq<Txn>, month: Window)
    ensures GetStats(products, ts, month).lowStockProducts == |LowStockAlerts(products)|
    ensures GetStats(products, ts, month).lowStockProducts
         == |KeptIndices(products, IsLow)|
    ensures forall i :: 0 <= i < |products| ==>
      (i in KeptIndices(products, IsLow) <==> products[i].stock <= products[i].alertThreshold)
  {
    FilterIsOrderedSubsequence(products, IsLow);
  }

  /** The monthly revenue is the revenue the analytics engine reports for the
      same month. */
  lemma MonthlyRevenueIsPeriodRevenue(products: seq<Product>, ts: seq<Txn>, month: Window)
    ensures GetStats(products, ts, month).monthlyRevenue == GetPeriodStats(ts, month).revenue
  {
    var both := (t: Txn) => IsVente(t) && Within(t, month);
    FilterFilter(ts, IsVente, InWindow(month), both);
    FilterFilter(ts, InWindow(month), IsVente, both);
  }

  /** With nonnegative totals the month never earns more than all time. */
  lemma MonthlyAtMostTotal(products: seq<Product>, ts: seq<Txn>, month: Window)
    requires forall i :: 0 <= i < |ts| ==> ts[i].total >= 0
    ensures GetStats(products, ts, month).monthlyRevenue <= GetStats(products, ts, month).totalRevenue
  {
    var sales := Filter(ts, IsVente);
    FilterMembers(ts, IsVente);
    forall i | 0 <= i < |sales| ensures Total(sales[i]) >= 0 {
      assert sales[i] in ts;
    }
    SumByFilterLe(sales, Total, InWindow(month));
  }

  /** With a consistent store the stock counter is the net of the whole
      ledger over the catalog. */
  lemma {:induction false} TotalStockIsNet(products: seq<Product>, ts: seq<Txn>, month: Window)
    requires Consistent(products, ts)
    ensures GetStats(products, ts, month).totalStock == SumBy(products, (p: Product) => Net(ts, p.id))
    ensures GetStats(products, ts, month).totalStock >= 0
  {
    NetSum(products, ts);
  }

  lemma {:induction false} NetSum(products: seq<Product>, ts: seq<Txn>)
    requires Consistent(products, ts)
    ensures SumBy(products, Stock) == SumBy(products, (p: Product) => Net(ts, p.id))
    ensures SumBy(products, Stock) >= 0
  {
    if |products| > 0 {
      assert Consistent(products[1..], ts) by {
        forall i | 0 <= i < |products[1..]|
          ensures products[1..][i].stock == Net(ts, products[1..][i].id) && products[1..][i].stock >= 0
        {
          assert products[1..][i] == products[i + 1];
        }
      }
      NetSum(products[1..], ts);
    }
  }

  /** One slice of the purchase/sale chart. */
  datatype Slice = Slice(name: string, count: nat, amount: int)

  /** One bar of the stock chart. */
  datatype StockBar = StockBar(name: string, stock: int, alert: int)

  datatype Feeds = Feeds(transactionData: seq<Slice>, stockData: seq<StockBar>)

  function Bar(p: Product): StockBar
  {
    StockBar(Ellipsize(p.name, 10), p.stock, p.alertThreshold)
  }

  /** `chartData`: nothing at all without transactions, even when products
      exist; otherwise the purchase and sale slices, and bars for the first
      five products. */
  function ChartFeeds(products: seq<Product>, ts: seq<Txn>): (r: Feeds)
    ensures |ts| == 0 <==> r.transactionData == []
    ensures |ts| == 0 ==> r.stockData == []
    ensures |ts| > 0 ==>
      && |r.transactionData| == 2
      && r.transactionData[0].name == "Achats" && r.transactionData[1].name == "Ventes"
      && r.transactionData[0].count == |Filter(ts, IsAchat)|
      && r.transactionData[1].count == |Filter(ts, IsVente)|
      && r.transactionData[0].count + r.transactionData[1].count == |ts|
      && r.transactionData[0].amount + r.transactionData[1].amount == SumBy(ts, Total)
      && r.transactionData[0].amount == PurchasesTotal(ts)
      && |r.stockData| == Min(5, |products|)
      && (forall i :: 0 <= i < |r.stockData| ==> r.stockData[i] == Bar(products[i]))
  {
    if |ts| == 0 then Feeds([], [])
    else
      var purchases := Filter(ts, IsAchat);
      var sales := Filter(ts, IsVente);
      FilterPartitionLength(ts, IsAchat, IsVente);
      SumByPartition(ts, Total, IsAchat, IsVente);
      RoundOfInt(SumBy(purchases, Total));
      RoundOfInt(SumBy(sales, Total));
      var slices := [
        Slice("Achats", |purchases|, Round(SumBy(purchases, Total) as real)),
        Slice("Ventes", |sales|, Round(SumBy(sales, Total) as real))];
      var bars := seq(|products|, i requires 0 <= i < |products| => Bar(products[i]));
      Feeds(slices, Prefix(bars, 5))
  }

  /** A stock bar's label is the product name when it has at most ten
      characters, and otherwise its first ten characters followed by "...". */
  lemma BarLabel(p: Product)
    ensures |p.name| <= 10 ==> Bar(p).name == p.name
    ensures |p.name| > 10 ==> Bar(p).name == p.name[..10] + "..." && |Bar(p).name| == 13
  {
  }
}
