/** The per-product analysis panel (src/components/ProductAnalysis.tsx). It
    receives the rows of the analytics engine, best first, and derives the
    summary cards, the top-five bar chart, the revenue pie, the rotation
    badge, the stock gauge and the status badge. */
module ProductAnalysisView {
  import opened Js
  import opened Seqs
  import opened Inventory
  import opened Analytics
  import DashboardPage

  /** "Produits actifs": all rows, and those with at least one sale. */
  predicate HasSales(p: Performance) { p.totalSold > 0 }

  /** The "avec ventes" line under the product count. */
  function SalesCount(perf: seq<Performance>): (n: nat)
    ensures n <= |perf|
    ensures n == 0 <==> forall i :: 0 <= i < |perf| ==> perf[i].totalSold <= 0
  {
    FilterEmpty(perf, HasSales);
    |Filter(perf, HasSales)|
  }

  /** "Alertes stock": rows flagged low. */
  predicate LowRow(p: Performance) { p.isLowStock }

  function AlertCount(perf: seq<Performance>): (n: nat)
    ensures n <= |perf|
    ensures n == 0 <==> forall i :: 0 <= i < |perf| ==> !perf[i].isLowStock
  {
    FilterEmpty(perf, LowRow);
    |Filter(perf, LowRow)|
  }

  /** The alert card of this panel counts exactly the low-stock alerts of
      the analytics engine, although it counts the sorted rows. */
  lemma AlertCountMatchesAlerts(products: seq<Product>, ts: seq<Txn>)
    ensures AlertCount(ProductPerformance(products, ts)) == |LowStockAlerts(products)|
  {
    var rows := Rows(products, ts);
    FilterLengthPermutation(ProductPerformance(products, ts), rows, LowRow);
    FilterLengthAligned(rows, products, LowRow, IsLow);
  }

  /** "Meilleure vente": `productPerformance[0]?.productName || 'Aucun'` and
      `productPerformance[0]?.totalRevenue || 0`. */
  function BestSellerName(perf: seq<Performance>): (r: string)
    ensures r != ""
    ensures |perf| > 0 && perf[0].productName != "" ==> r == perf[0].productName
  {
    if |perf| > 0 && perf[0].productName != "" then perf[0].productName else "Aucun"
  }

  function BestSellerRevenue(perf: seq<Performance>): (r: int)
    ensures perf == [] ==> r == 0
    ensures perf != [] ==> exists j :: 0 <= j < |perf| && r == perf[j].totalRevenue
    ensures SortedByRevenue(perf) ==> forall j :: 0 <= j < |perf| ==> perf[j].totalRevenue <= r
  {
    if |perf| > 0 then perf[0].totalRevenue else 0
  }

  /** The best-seller card shows a revenue no product exceeds. */
  lemma BestSellerIsTop(products: seq<Product>, ts: seq<Txn>, i: int)
    requires 0 <= i < |products|
    ensures BestSellerRevenue(ProductPerformance(products, ts)) >= PerformanceOf(ts, products[i]).totalRevenue
  {
    var r := ProductPerformance(products, ts);
    var j :| 0 <= j < |r| && r[j] == PerformanceOf(ts, products[i]);
    assert j == 0 || r[0].totalRevenue >= r[j].totalRevenue;
  }

  /** A bar of the top-products chart: the name cut to 15 characters. */
  datatype TopBar = TopBar(name: string, revenue: int, sold: int)

  function TopProductsChart(perf: seq<Performance>): (r: seq<TopBar>)
    ensures |r| == Min(5, |perf|)
    ensures forall i :: 0 <= i < |r| ==> r[i].revenue == perf[i].totalRevenue && r[i].sold == perf[i].totalSold
    ensures forall i :: 0 <= i < |r| ==> |r[i].name| <= 18
  {
    var top := Prefix(perf, 5);
    seq(|top|, i requires 0 <= i < |top| =>
      EllipsizeBounds(top[i].productName, 15);
      TopBar(Ellipsize(top[i].productName, 15), top[i].totalRevenue, top[i].totalSold))
  }

  /** A name of at most 15 characters is shown whole; a longer one is cut to
      its first 15 characters followed by "...". */
  lemma TopBarLabel(perf: seq<Performance>, i: int)
    requires 0 <= i < Min(5, |perf|)
    ensures |perf[i].productName| <= 15 ==> TopProductsChart(perf)[i].name == perf[i].productName
    ensures |perf[i].productName| > 15 ==> TopProductsChart(perf)[i].name == perf[i].productName[..15] + "..."
  {
  }

  /** Every product left out of the chart earns no more than every product
      in it. */
  lemma TopChartShowsBest(products: seq<Product>, ts: seq<Txn>)
    ensures var perf := ProductPerformance(products, ts);
      var bars := TopProductsChart(perf);
      forall i, j :: 0 <= i < |bars| <= j < |perf| ==> bars[i].revenue >= perf[j].totalRevenue
  {
  }

  /** A slice of the revenue pie. */
  datatype PieSlice = PieSlice(name: string, value: int)

  function Slices(perf: seq<Performance>): (r: seq<PieSlice>)
    ensures |r| == |perf|
    ensures forall i :: 0 <= i < |r| ==> r[i] == PieSlice(perf[i].productName, perf[i].totalRevenue)
  {
    if perf == [] then [] else [PieSlice(perf[0].productName, perf[0].totalRevenue)] + Slices(perf[1..])
  }

  function Revenue(p: Performance): int { p.totalRevenue }

  function SliceValue(s: PieSlice): int { s.value }

  /** The six best products by name, then an "Autres" slice for the rest when
      there is a seventh product and the rest earned something. */
  function RevenueChartData(perf: seq<Performance>): (r: seq<PieSlice>)
    ensures |r| == Min(6, |perf|) || |r| == 7 == Min(6, |perf|) + 1
    ensures r[..Min(6, |perf|)] == Slices(Prefix(perf, 6))
    ensures |r| == 7 <==> |perf| > 6 && SumBy(perf[6..], Revenue) > 0
    ensures |r| == 7 ==> r[6] == PieSlice("Autres", SumBy(perf[6..], Revenue))
  {
    var slices := Slices(Prefix(perf, 6));
    if |perf| > 6 && SumBy(perf[6..], Revenue) > 0 then slices + [PieSlice("Autres", SumBy(perf[6..], Revenue))]
    else slices
  }

  lemma {:induction false} SlicesSum(perf: seq<Performance>)
    ensures SumBy(Slices(perf), SliceValue) == SumBy(perf, Revenue)
  {
    if perf != [] {
      SlicesSum(perf[1..]);
      assert Slices(perf)[1..] == Slices(perf[1..]);
    }
  }

  /** With nonnegative revenues the pie accounts for the whole revenue, and
      the "Autres" slice is the only one that can aggregate products. */
  lemma PieCoversRevenue(perf: seq<Performance>)
    requires forall i :: 0 <= i < |perf| ==> perf[i].totalRevenue >= 0
    ensures SumBy(RevenueChartData(perf), SliceValue) == SumBy(perf, Revenue)
  {
    if |perf| > 6 {
      PieWithRest(perf);
    } else {
      SlicesSum(Prefix(perf, 6));
      assert Prefix(perf, 6) == perf;
    }
  }

  lemma PieWithRest(perf: seq<Performance>)
    requires |perf| > 6
    requires forall i :: 0 <= i < |perf| ==> perf[i].totalRevenue >= 0
    ensures SumBy(RevenueChartData(perf), SliceValue) == SumBy(perf, Revenue)
  {
    var first := Prefix(perf, 6);
    var rest := perf[6..];
    SlicesSum(first);
    assert perf == first + rest;
    SumByAppend(first, rest, Revenue);
    SumByNonneg(rest, Revenue);
    if SumBy(rest, Revenue) > 0 {
      SumByAppend(Slices(first), [PieSlice("Autres", SumBy(rest, Revenue))], SliceValue);
    }
  }

  /** The rotation badge. */
  datatype RotationBadge = Weak | Fair | Good | Excellent

  function Rank(b: RotationBadge): nat
  {
    match b
    case Weak => 0
    case Fair => 1
    case Good => 2
    case Excellent => 3
  }

  /** "Excellente" from 3, "Bonne" from 1.5, "Correcte" from 0.5, else "Faible". */
  function RotationBadgeOf(rotation: real): (b: RotationBadge)
    ensures b == Excellent <==> rotation >= 3.0
    ensures b == Good <==> 1.5 <= rotation < 3.0
    ensures b == Fair <==> 0.5 <= rotation < 1.5
    ensures b == Weak <==> rotation < 0.5
  {
    if rotation >= 3.0 then Excellent
    else if rotation >= 1.5 then Good
    else if rotation >= 0.5 then Fair
    else Weak
  }

  /** A faster rotation never earns a lower badge; a product without stock
      is rated "Faible" whatever it sold. */
  lemma RotationBadgeMonotone(x: real, y: real)
    requires x <= y
    ensures Rank(RotationBadgeOf(x)) <= Rank(RotationBadgeOf(y))
  {
  }

  lemma EmptyStockRatesWeak(ts: seq<Txn>, p: Product)
    requires p.stock <= 0
    ensures RotationBadgeOf(PerformanceOf(ts, p).stockRotation) == Weak
  {
  }

  /** The stock gauge, `Math.min(currentStock / (alertThreshold * 2) * 100, 100)`.
      A zero threshold divides by zero: a positive stock gives `Infinity`,
      shown full, while zero or negative stock give `NaN` or `-Infinity`,
      here `None`. */
  function StockPercentage(current: int, threshold: int): (r: Option<real>)
    ensures r.Some? ==> r.value <= 100.0
    ensures threshold == 0 ==> (r.Some? <==> current > 0)
    ensures threshold != 0 ==> r.Some?
  {
    if threshold == 0 then (if current > 0 then Some(100.0) else None)
    else
      var v := current as real / (threshold * 2) as real * 100.0;
      Some(if v < 100.0 then v else 100.0)
  }

  /** For a positive threshold the gauge is a fraction of twice the
      threshold: empty at no stock, full from twice the threshold on, and
      growing with the stock in between. */
  lemma GaugeScale(current: int, more: int, threshold: int)
    requires threshold > 0 && 0 <= current <= more
    ensures StockPercentage(current, threshold).value >= 0.0
    ensures current == 0 ==> StockPercentage(current, threshold) == Some(0.0)
    ensures current >= 2 * threshold ==> StockPercentage(current, threshold) == Some(100.0)
    ensures StockPercentage(current, threshold).value <= StockPercentage(more, threshold).value
  {
    var d := (threshold * 2) as real;
    assert current as real / d <= more as real / d;
    if current >= 2 * threshold {
      assert current as real / d >= 1.0;
    }
  }

  /** The status column: "Rupture", "Stock faible" or "OK". */
  datatype RowStatus = Rupture | StockFaible | Ok

  function RowStatusOf(p: Performance): (r: RowStatus)
    ensures r == Ok <==> !p.isLowStock
    ensures r == Rupture <==> p.isLowStock && p.currentStock == 0
  {
    if p.isLowStock then (if p.currentStock == 0 then Rupture else StockFaible) else Ok
  }

  /** This panel's status and the dashboard's badge agree on which products
      are low; "Rupture" is the empty case of a low product. */
  lemma RowStatusMatchesDashboard(ts: seq<Txn>, p: Product)
    ensures RowStatusOf(PerformanceOf(ts, p)) == Ok <==> DashboardPage.StatusOf(p) != DashboardPage.StockLow
    ensures RowStatusOf(PerformanceOf(ts, p)) == Rupture <==> p.stock == 0 && p.alertThreshold >= 0
  {
  }
}
