/** The records the hooks share: catalog products, ledger entries
    (`transactions` rows typed 'achat' for a purchase and 'vente' for a sale),
    and the reconciliation invariant that ties a product's denormalised
    `stock_quantity` to the ledger: stock equals purchases minus sales, and is
    never negative. */
module Inventory {
  import opened Js
  import opened Seqs

  type ProductId = string

  /** `transaction_type`. */
  datatype Kind = Achat | Vente

  /** A `products` row. `sellingPricePerUnit` may be null on legacy rows,
      which is why the ledger falls back to `sellingPricePerBottle`; the
      per-unit purchase cost is null when it was not a finite number. */
  datatype Product = Product(
    id: ProductId,
    orgId: string,
    name: string,
    stock: int,
    bottlesPerCase: Option<int>,
    unitsPerPackage: Option<int>,
    unitLabel: string,
    purchaseCostPerUnit: Option<int>,
    sellingPricePerBottle: real,
    sellingPricePerUnit: Option<int>,
    alertThreshold: int,
    createdAt: int)

  /** A `transactions` row; `productName` is the joined `products.name`. */
  datatype Txn = Txn(
    productId: ProductId,
    orgId: string,
    userId: string,
    kind: Kind,
    quantity: int,
    unitPrice: Option<int>,
    total: int,
    createdAt: int,
    productName: string)

  predicate IsAchat(t: Txn) { t.kind == Achat }
  predicate IsVente(t: Txn) { t.kind == Vente }
  function Quantity(t: Txn): int { t.quantity }
  function Total(t: Txn): int { t.total }

  /** `selling_price_per_unit ?? selling_price_per_bottle`: the catalog
      price a sale or purchase defaults to. */
  function DefaultPrice(p: Product): real
  {
    match p.sellingPricePerUnit
    case Some(v) => v as real
    case None => p.sellingPricePerBottle
  }

  /** `selling_price_per_unit || selling_price_per_bottle`: the price the
      pages display. Unlike `??`, `||` also falls back on a stored 0. */
  function DisplayPrice(p: Product): real
  {
    match p.sellingPricePerUnit
    case Some(v) => if v != 0 then v as real else p.sellingPricePerBottle
    case None => p.sellingPricePerBottle
  }

  /** The displayed price and the ledger's default price agree except on a
      product whose per-unit price is stored as 0: there the ledger prices at
      0 and the pages show the per-bottle price. */
  lemma DisplayPriceVersusDefault(p: Product)
    ensures DisplayPrice(p) == DefaultPrice(p) <==> p.sellingPricePerUnit != Some(0) || p.sellingPricePerBottle == 0.0
  {
  }

  /** `stock_quantity <= alert_threshold`: the one low-stock test every view uses. */
  predicate IsLow(p: Product) { p.stock <= p.alertThreshold }
  function Stock(p: Product): int { p.stock }

  /** The signed effect of one ledger entry on the stock of product `pid`. */
  function Delta(t: Txn, pid: ProductId): int
  {
    if t.productId != pid then 0
    else if t.kind == Achat then t.quantity
    else -t.quantity
  }

  function DeltaFor(pid: ProductId): Txn -> int { (t: Txn) => Delta(t, pid) }

  /** Net stock movement of product `pid` recorded in the ledger. */
  function Net(ledger: seq<Txn>, pid: ProductId): int
  {
    SumBy(ledger, DeltaFor(pid))
  }

  function PurchasesOf(pid: ProductId): Txn -> bool { (t: Txn) => t.productId == pid && t.kind == Achat }
  function SalesOf(pid: ProductId): Txn -> bool { (t: Txn) => t.productId == pid && t.kind == Vente }

  /** Units purchased and sold for `pid` over the whole ledger. */
  function Purchased(ledger: seq<Txn>, pid: ProductId): int
  {
    SumBy(Filter(ledger, PurchasesOf(pid)), Quantity)
  }

  function Sold(ledger: seq<Txn>, pid: ProductId): int
  {
    SumBy(Filter(ledger, SalesOf(pid)), Quantity)
  }

  /** The net movement is Σ achat.quantity − Σ vente.quantity for that product. */
  lemma {:induction false} NetIsPurchasedMinusSold(ledger: seq<Txn>, pid: ProductId)
    ensures Net(ledger, pid) == Purchased(ledger, pid) - Sold(ledger, pid)
  {
    if |ledger| > 0 {
      NetIsPurchasedMinusSold(ledger[1..], pid);
      var t := ledger[0];
      var hp := if PurchasesOf(pid)(t) then [t] else [];
      var hs := if SalesOf(pid)(t) then [t] else [];
      SumByAppend(hp, Filter(ledger[1..], PurchasesOf(pid)), Quantity);
      SumByAppend(hs, Filter(ledger[1..], SalesOf(pid)), Quantity);
    }
  }

  /** Appending one entry moves the net of its own product only. */
  lemma NetAppend(ledger: seq<Txn>, t: Txn, pid: ProductId)
    ensures Net(ledger + [t], pid) == Net(ledger, pid) + Delta(t, pid)
  {
    SumByAppend(ledger, [t], DeltaFor(pid));
  }

  /** The reconciliation invariant: every product's stock equals the net of
      its ledger history and is never negative. */
  predicate Consistent(products: seq<Product>, ledger: seq<Txn>)
  {
    forall i :: 0 <= i < |products| ==>
      products[i].stock == Net(ledger, products[i].id) && products[i].stock >= 0
  }

  /** `.eq('id', id).maybeSingle()` on the product list: the first row with that id. */
  function FindProduct(products: seq<Product>, id: ProductId): (r: Option<Product>)
    ensures r.None? <==> forall i :: 0 <= i < |products| ==> products[i].id != id
    ensures r.Some? ==> r.value in products && r.value.id == id
  {
    if |products| == 0 then None
    else if products[0].id == id then Some(products[0])
    else FindProduct(products[1..], id)
  }

  /** `.update({ stock_quantity }).eq('id', id)` on the product list. */
  function SetStock(products: seq<Product>, id: ProductId, stock: int): seq<Product>
  {
    seq(|products|, i requires 0 <= i < |products| =>
      if products[i].id == id then products[i].(stock := stock) else products[i])
  }
}
