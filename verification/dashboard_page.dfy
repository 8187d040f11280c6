/** The dashboard (src/pages/Dashboard.tsx): the low-stock list, the stock
    total and value cards, the per-row price and status badge, and the
    confirmed delete. It computes its own figures from the product list
    rather than reading them from the statistics hook; the lemmas here show
    where the two agree. */
module DashboardPage {
  import opened Js
  import opened Seqs
  import opened Inventory
  import opened Ledger
  import opened Catalog
  import opened Analytics
  import opened Statistics

  /** `getLowStockProducts`. */
  function LowStockProducts(products: seq<Product>): (r: seq<Product>)
    ensures |r| <= |products|
    ensures forall i :: 0 <= i < |r| ==> r[i].stock <= r[i].alertThreshold
  {
    Filter(products, IsLow)
  }

  /** The low-stock card, the statistics counter and the analytics engine
      agree: the card lists one product per low-stock alert, and a product is
      listed exactly when it is at or under its threshold. */
  lemma LowStockListAgrees(products: seq<Product>, ts: seq<Txn>, month: Window)
    ensures |LowStockProducts(products)| == GetStats(products, ts, month).lowStockProducts
    ensures |LowStockProducts(products)| == |LowStockAlerts(products)|
    ensures forall i :: 0 <= i < |products| ==>
      (products[i] in LowStockProducts(products) <==> products[i].stock <= products[i].alertThreshold)
  {
    LowStockCountMatchesAlerts(products, ts, month);
    FilterMembers(products, IsLow);
  }

  /** `getTotalStock`. */
  function TotalStock(products: seq<Product>): (n: int)
    ensures (forall i :: 0 <= i < |products| ==> products[i].stock >= 0) ==> n >= 0
  {
    assert (forall i :: 0 <= i < |products| ==> products[i].stock >= 0) ==> SumBy(products, Stock) >= 0 by {
      if forall i :: 0 <= i < |products| ==> products[i].stock >= 0 {
        SumByNonneg(products, Stock);
      }
    }
    SumBy(products, Stock)
  }

  /** The stock card equals the statistics hook's total and, while the stock
      invariant holds, the sum over products of their ledger nets. */
  lemma TotalStockAgrees(products: seq<Product>, ts: seq<Txn>, month: Window)
    ensures TotalStock(products) == GetStats(products, ts, month).totalStock
    ensures Consistent(products, ts) ==> TotalStock(products) == SumBy(products, (p: Product) => Net(ts, p.id))
    ensures Consistent(products, ts) ==> TotalStock(products) >= 0
  {
    if Consistent(products, ts) {
      NetSum(products, ts);
    }
  }

  /** Sum over products of stock × price. */
  function ValueAt(products: seq<Product>, price: Product -> real): real
  {
    if products == [] then 0.0 else products[0].stock as real * price(products[0]) + ValueAt(products[1..], price)
  }

  /** Nonnegative stocks and prices give a nonnegative value. */
  lemma {:induction false} ValueAtNonneg(products: seq<Product>, price: Product -> real)
    requires forall i :: 0 <= i < |products| ==> products[i].stock >= 0 && price(products[i]) >= 0.0
    ensures ValueAt(products, price) >= 0.0
  {
    if products != [] {
      ValueAtNonneg(products[1..], price);
      assert products[0].stock as real * price(products[0]) >= 0.0;
    }
  }

  /** `getStockValue`, priced with `selling_price_per_unit || selling_price_per_bottle`. */
  function StockValue(products: seq<Product>): (v: real)
    ensures (forall i :: 0 <= i < |products| ==> products[i].stock >= 0 && DisplayPrice(products[i]) >= 0.0) ==> v >= 0.0
  {
    assert (forall i :: 0 <= i < |products| ==> products[i].stock >= 0 && DisplayPrice(products[i]) >= 0.0)
      ==> ValueAt(products, DisplayPrice) >= 0.0 by {
      if forall i :: 0 <= i < |products| ==> products[i].stock >= 0 && DisplayPrice(products[i]) >= 0.0 {
        ValueAtNonneg(products, DisplayPrice);
      }
    }
    ValueAt(products, DisplayPrice)
  }

  /** Two pricings that agree on every product give the same value. */
  lemma {:induction false} ValueAtCongruent(products: seq<Product>, f: Product -> real, g: Product -> real)
    requires forall i :: 0 <= i < |products| ==> f(products[i]) == g(products[i])
    ensures ValueAt(products, f) == ValueAt(products, g)
  {
    if products != [] {
      ValueAtCongruent(products[1..], f, g);
    }
  }

  /** The stock value is the catalog value the ledger would charge for the
      whole stock, as long as no product stores a per-unit price of 0. */
  lemma StockValueAtLedgerPrices(products: seq<Product>)
    requires forall i :: 0 <= i < |products| ==> products[i].sellingPricePerUnit != Some(0)
    ensures StockValue(products) == ValueAt(products, DefaultPrice)
  {
    forall i | 0 <= i < |products| ensures DisplayPrice(products[i]) == DefaultPrice(products[i]) {
      DisplayPriceVersusDefault(products[i]);
    }
    ValueAtCongruent(products, DisplayPrice, DefaultPrice);
  }

  /** The price column: `Math.round(selling_price_per_unit || selling_price_per_bottle)`. */
  function PriceLabel(p: Product): (r: int)
    ensures p.sellingPricePerUnit.Some? && p.sellingPricePerUnit != Some(0) ==> r == p.sellingPricePerUnit.value
    ensures p.sellingPricePerUnit.None? || p.sellingPricePerUnit == Some(0) ==> r == Round(p.sellingPricePerBottle)
  {
    RoundOfInt(if p.sellingPricePerUnit.Some? then p.sellingPricePerUnit.value else 0);
    Round(DisplayPrice(p))
  }

  /** The row badge: "Stock bas", "Attention", "Normal". */
  datatype Status = StockLow | Attention | Normal

  function StatusOf(p: Product): (r: Status)
    ensures r == StockLow <==> p.stock <= p.alertThreshold
    ensures r == Attention <==> p.alertThreshold < p.stock <= 2 * p.alertThreshold
    ensures r == Normal <==> p.stock > p.alertThreshold && p.stock > 2 * p.alertThreshold
  {
    if IsLow(p) then StockLow
    else if p.stock <= p.alertThreshold * 2 then Attention
    else Normal
  }

  /** A product is in the low-stock card exactly when its row badge reads
      "Stock bas". */
  lemma BadgeMatchesLowList(products: seq<Product>, i: int)
    requires 0 <= i < |products|
    ensures StatusOf(products[i]) == StockLow <==> products[i] in LowStockProducts(products)
  {
    FilterMembers(products, IsLow);
  }

  /** More stock never gives a worse badge. */
  lemma BadgeMonotone(p: Product, more: int)
    requires more >= p.stock
    ensures StatusOf(p) == Normal ==> StatusOf(p.(stock := more)) == Normal
    ensures StatusOf(p) == Attention ==> StatusOf(p.(stock := more)) != StockLow
  {
  }

  /** A negative threshold has no "Attention" band: the badge jumps straight
      from "Stock bas" to "Normal". */
  lemma NegativeThresholdSkipsAttention(p: Product)
    requires p.alertThreshold < 0
    ensures StatusOf(p) != Attention
  {
  }

  /** `handleDeleteProduct`: the browser confirmation, then `deleteProduct`. */
  function HandleDelete(confirmed: bool, submitting: bool, st: Store, id: ProductId, deleteFails: bool): (r: Store)
    ensures !confirmed ==> r == st
    ensures r.ledger == st.ledger
    ensures confirmed && !submitting && !deleteFails ==>
      forall i :: 0 <= i < |r.products| ==> r.products[i].id != id
  {
    if confirmed then DeleteProduct(submitting, st, id, deleteFails).0 else st
  }

  /** Deleting from the dashboard removes the product from the low-stock
      card as well, and keeps every other low-stock product in it. */
  lemma DeleteLeavesLowList(st: Store, id: ProductId, i: int)
    requires 0 <= i < |st.products|
    ensures forall k :: 0 <= k < |LowStockProducts(HandleDelete(true, false, st, id, false).products)| ==>
      LowStockProducts(HandleDelete(true, false, st, id, false).products)[k].id != id
    ensures st.products[i].id != id && IsLow(st.products[i]) ==>
      st.products[i] in LowStockProducts(HandleDelete(true, false, st, id, false).products)
  {
    var r := HandleDelete(true, false, st, id, false).products;
    FilterMembers(r, IsLow);
    var low := LowStockProducts(r);
    forall k | 0 <= k < |low| ensures low[k].id != id {
      FilterMembers(r, IsLow);
      assert low[k] in r;
    }
  }
}
