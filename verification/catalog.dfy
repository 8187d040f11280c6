/** `addProduct` and `deleteProduct` (src/hooks/useProducts.tsx). Creating a
    product converts packages to units, derives the per-unit purchase cost,
    inserts the product, then writes a companion initial 'achat' entry so that
    the stock is backed by the ledger from the start. A failed companion write
    is only a warning: the product stays and the call still succeeds. */
module Catalog {
  import opened Js
  import opened Seqs
  import opened Inventory
  import opened Ledger

  /** `addType`: 'casier' (by package) or 'bouteille' (by unit). */
  datatype AddMode = ByPackage | ByUnit

  /** The argument of `addProduct`. Prices are the parsed form values. */
  datatype ProductRequest = ProductRequest(
    name: string,
    mode: AddMode,
    quantity: int,
    bottlesPerCase: Option<int>,
    unitsPerPackage: Option<int>,
    unitLabel: Option<string>,
    purchasePrice: real,
    sellingPrice: real,
    alertThreshold: int)

  /** What the store answers to the product insert (`.select().maybeSingle()`). */
  datatype InsertReply = InsertError | NoRowReturned | Inserted(id: ProductId)

  datatype ProductReplies = ProductReplies(product: InsertReply, entryInsertFails: bool, now: int)

  /** `Created(warning)`: the call returned true; `warning` is set when the
      initial ledger entry could not be written. */
  datatype ProductOutcome = ProductSkipped | InvalidProduct | ProductInsertFailed | Created(warning: bool)

  datatype ProductCall = ProductCall(outcome: ProductOutcome, store: Store, submitting: bool)
  {
    predicate Returned() { outcome.Created? }
  }

  /** `!name.trim() || quantity <= 0 || purchasePrice <= 0 || sellingPricePerBottle <= 0`. */
  predicate ValidRequest(req: ProductRequest)
  {
    Trim(req.name) != "" && req.quantity > 0 && req.purchasePrice > 0.0 && req.sellingPrice > 0.0
  }

  /** Units per package: `unitsPerPackage ?? bottlesPerCase ?? 1` by package, 1 by unit. */
  function UnitsPerPackage(req: ProductRequest): (u: int)
    ensures req.mode == ByUnit ==> u == 1
    ensures req.mode == ByPackage && req.unitsPerPackage.Some? ==> u == req.unitsPerPackage.value
    ensures req.mode == ByPackage && req.unitsPerPackage.None? && req.bottlesPerCase.Some? ==> u == req.bottlesPerCase.value
    ensures req.mode == ByPackage && req.unitsPerPackage.None? && req.bottlesPerCase.None? ==> u == 1
  {
    if req.mode == ByPackage then Coalesce(req.unitsPerPackage, Coalesce(req.bottlesPerCase, 1)) else 1
  }

  /** `Math.round(purchasePrice / unitsPerPackage)`. A zero package size makes
      the division non-finite, which the store receives as null. */
  function CostPerUnit(purchasePrice: real, units: int): (c: Option<int>)
    ensures c.None? <==> units == 0
    ensures c.Some? ==> purchasePrice / units as real - 0.5 < c.value as real <= purchasePrice / units as real + 0.5
  {
    if units == 0 then None else Some(Round(purchasePrice / units as real))
  }

  /** `unitLabel?.trim() || 'unité'`. */
  function LabelOrDefault(given: Option<string>): (l: string)
    ensures l != ""
    ensures given.Some? && Trim(given.value) != "" ==> l == Trim(given.value)
  {
    if given.Some? && Trim(given.value) != "" then Trim(given.value) else "unité"
  }

  /** `alertThreshold || 10`: zero is falsy. */
  function ThresholdOrDefault(t: int): (r: int)
    ensures r != 0
    ensures t != 0 ==> r == t
  {
    if t == 0 then 10 else t
  }

  /** The row inserted into `products`. */
  function NewProduct(orgId: string, req: ProductRequest, id: ProductId, now: int): Product
  {
    var units := UnitsPerPackage(req);
    Product(
      id, orgId, Trim(req.name), req.quantity * units,
      if req.mode == ByPackage then Some(Coalesce(req.bottlesPerCase, units)) else None,
      if req.mode == ByPackage then Some(units) else None,
      LabelOrDefault(req.unitLabel),
      CostPerUnit(req.purchasePrice, units),
      req.sellingPrice,
      Some(Round(req.sellingPrice)),
      ThresholdOrDefault(req.alertThreshold),
      now)
  }

  /** The companion initial purchase. Its quantity is the new stock, while its
      total is `Math.round(purchasePrice) × quantity` (packages), which need not
      equal the per-unit cost times the stock. */
  function InitialEntry(userId: string, p: Product, req: ProductRequest, now: int): (e: Txn)
    ensures e.kind == Achat && e.productId == p.id && e.orgId == p.orgId
    ensures Delta(e, p.id) == p.stock
    ensures e.unitPrice == p.purchaseCostPerUnit
    ensures e.total == Round(req.purchasePrice) * req.quantity
  {
    Txn(p.id, p.orgId, userId, Achat, p.stock, p.purchaseCostPerUnit,
        Round(req.purchasePrice) * req.quantity, now, p.name)
  }

  /** `addProduct`. The new product goes to the front of the list, matching
      the `created_at` descending order the hook lists products in. */
  function AddProduct(s: Session, st: Store, req: ProductRequest, o: ProductReplies): (r: ProductCall)
    ensures r.outcome.ProductSkipped? <==> s.user.None? || s.org.None? || s.submitting
    ensures r.outcome.ProductSkipped? ==> r.submitting == s.submitting
    ensures !r.outcome.ProductSkipped? ==> !r.submitting
    ensures r.outcome.InvalidProduct? <==> Ready(s) && !ValidRequest(req)
    ensures !r.Returned() ==> r.store == st
    ensures r.Returned() <==> Ready(s) && ValidRequest(req) && o.product.Inserted?
    ensures r.Returned() ==> |r.store.products| == |st.products| + 1 && r.store.products[1..] == st.products
    ensures r.outcome == Created(true) ==> r.store.ledger == st.ledger
    ensures r.outcome == Created(false) ==> |r.store.ledger| == |st.ledger| + 1
    ensures r.Returned() ==> r.outcome == Created(o.entryInsertFails)
    ensures r.outcome == Created(false) ==>
      r.store.ledger == st.ledger + [InitialEntry(s.user.value, r.store.products[0], req, o.now)]
  {
    if s.user.None? || s.org.None? || s.submitting then ProductCall(ProductSkipped, st, s.submitting)
    else if !ValidRequest(req) then ProductCall(InvalidProduct, st, false)
    else match o.product
      case InsertError => ProductCall(ProductInsertFailed, st, false)
      case NoRowReturned => ProductCall(ProductInsertFailed, st, false)
      case Inserted(id) =>
        var p := NewProduct(s.org.value, req, id, o.now);
        var products := [p] + st.products;
        if o.entryInsertFails then ProductCall(Created(true), Store(products, st.ledger), false)
        else ProductCall(Created(false), Store(products, st.ledger + [InitialEntry(s.user.value, p, req, o.now)]), false)
  }

  /** Package conversion: stock = quantity × units and the per-unit cost is
      the rounded package price over the units; 5 packages of 12 bought at
      1200 a package give 60 units at 100 each. */
  lemma PackageConversion(s: Session, st: Store, req: ProductRequest, o: ProductReplies)
    requires AddProduct(s, st, req, o).Returned()
    ensures var p := AddProduct(s, st, req, o).store.products[0];
      && p.stock == req.quantity * UnitsPerPackage(req)
      && p.purchaseCostPerUnit == CostPerUnit(req.purchasePrice, UnitsPerPackage(req))
      && (req.mode == ByUnit ==> p.stock == req.quantity && p.unitsPerPackage.None? && p.bottlesPerCase.None?)
      && (req.mode == ByPackage ==> p.unitsPerPackage == Some(UnitsPerPackage(req)))
  {
  }

  lemma FivePackagesOfTwelve()
    ensures var req := ProductRequest("Bière", ByPackage, 5, None, Some(12), None, 1200.0, 800.0, 0);
      && UnitsPerPackage(req) == 12
      && req.quantity * UnitsPerPackage(req) == 60
      && CostPerUnit(req.purchasePrice, 12) == Some(100)
  {
    assert 1200.0 / 12 as real == 100.0;
  }

  /** Stored defaults: the trimmed name, the unit label or 'unité', a zero
      alert threshold replaced by 10, and the selling price kept both raw and
      rounded. */
  lemma StoredDefaults(s: Session, st: Store, req: ProductRequest, o: ProductReplies)
    requires AddProduct(s, st, req, o).Returned()
    ensures var p := AddProduct(s, st, req, o).store.products[0];
      && p.id == o.product.id
      && p.name == Trim(req.name) && p.name != ""
      && p.unitLabel == LabelOrDefault(req.unitLabel)
      && (req.alertThreshold == 0 ==> p.alertThreshold == 10)
      && (req.alertThreshold != 0 ==> p.alertThreshold == req.alertThreshold)
      && p.sellingPricePerBottle == req.sellingPrice
      && p.sellingPricePerUnit == Some(Round(req.sellingPrice))
  {
  }

  /** The initial entry records the whole new stock as an 'achat', so right
      after creation the new product's stock equals the net of its ledger,
      provided the store's fresh id has no earlier ledger history. */
  lemma {:induction false} InitialEntryBacksStock(s: Session, st: Store, req: ProductRequest, o: ProductReplies)
    requires AddProduct(s, st, req, o).outcome == Created(false)
    requires Net(st.ledger, o.product.id) == 0
    ensures var r := AddProduct(s, st, req, o);
      && r.store.ledger[|st.ledger|].kind == Achat
      && r.store.ledger[|st.ledger|].quantity == r.store.products[0].stock
      && r.store.ledger[|st.ledger|].total == Round(req.purchasePrice) * req.quantity
      && r.store.products[0].stock == Net(r.store.ledger, o.product.id)
  {
    var r := AddProduct(s, st, req, o);
    var e := r.store.ledger[|st.ledger|];
    assert r.store.ledger == st.ledger + [e];
    NetAppend(st.ledger, e, o.product.id);
  }

  /** The whole store stays consistent across a creation whose companion entry
      was written, when the package size is nonnegative and the new id is
      fresh in the ledger. */
  lemma {:induction false} AddProductPreservesConsistency(s: Session, st: Store, req: ProductRequest, o: ProductReplies)
    requires Consistent(st.products, st.ledger)
    requires AddProduct(s, st, req, o).outcome != Created(true)
    requires UnitsPerPackage(req) >= 0
    requires o.product.Inserted? ==> forall i :: 0 <= i < |st.ledger| ==> st.ledger[i].productId != o.product.id
    requires o.product.Inserted? ==> forall i :: 0 <= i < |st.products| ==> st.products[i].id != o.product.id
    ensures Consistent(AddProduct(s, st, req, o).store.products, AddProduct(s, st, req, o).store.ledger)
  {
    var r := AddProduct(s, st, req, o);
    if r.Returned() {
      var id := o.product.id;
      NetOfUnseenId(st.ledger, id);
      InitialEntryBacksStock(s, st, req, o);
      var e := r.store.ledger[|st.ledger|];
      assert r.store.ledger == st.ledger + [e];
      forall i | 0 <= i < |r.store.products|
        ensures r.store.products[i].stock == Net(r.store.ledger, r.store.products[i].id)
        ensures r.store.products[i].stock >= 0
      {
        if i > 0 {
          var q := r.store.products[i];
          assert q == st.products[i - 1];
          NetAppend(st.ledger, e, q.id);
        }
      }
    }
  }

  /** An id that no entry mentions has net zero. */
  lemma {:induction false} NetOfUnseenId(ledger: seq<Txn>, id: ProductId)
    requires forall i :: 0 <= i < |ledger| ==> ledger[i].productId != id
    ensures Net(ledger, id) == 0
  {
    if |ledger| > 0 {
      NetOfUnseenId(ledger[1..], id);
    }
  }

  /** Warning path: when the companion entry fails, the product is kept and
      the call still returns true, yet a positive stock is then not backed by
      the ledger. */
  lemma WarningPathKeepsProduct(s: Session, st: Store, req: ProductRequest, o: ProductReplies)
    requires Ready(s) && ValidRequest(req) && o.product.Inserted? && o.entryInsertFails
    requires Net(st.ledger, o.product.id) == 0
    requires UnitsPerPackage(req) > 0
    ensures var r := AddProduct(s, st, req, o);
      && r.Returned() && r.outcome.warning
      && r.store.products[0].id == o.product.id
      && r.store.ledger == st.ledger
      && r.store.products[0].stock != Net(r.store.ledger, o.product.id)
  {
  }

  /** The hook itself does not check the package size: a negative size from
      a caller other than the form creates a product with negative stock. */
  lemma NegativePackageSizeGivesNegativeStock()
    ensures var s := Session(Some("u"), Some("org"), false);
      var req := ProductRequest("Eau", ByPackage, 2, None, Some(-6), None, 600.0, 150.0, 5);
      var r := AddProduct(s, Store([], []), req, ProductReplies(Inserted("p1"), false, 0));
      r.Returned() && r.store.products[0].stock == -12 && !Consistent(r.store.products, r.store.ledger)
  {
    var s := Session(Some("u"), Some("org"), false);
    var req := ProductRequest("Eau", ByPackage, 2, None, Some(-6), None, 600.0, 150.0, 5);
    TrimBlank(req.name);
    assert !IsSpace(req.name[0]);
  }

  /** Total of the initial entry versus cost × stock: a package of 3 bought at
      1000 is recorded with total 1000, while its stock of 3 at the rounded
      cost of 333 is worth 999. */
  lemma InitialTotalIsPackagePrice()
    ensures var req := ProductRequest("Jus", ByPackage, 1, None, Some(3), None, 1000.0, 500.0, 0);
      && CostPerUnit(req.purchasePrice, 3) == Some(333)
      && Round(req.purchasePrice) * req.quantity == 1000
      && 333 * (req.quantity * UnitsPerPackage(req)) == 999
  {
    RoundOfInt(1000);
  }

  /** `deleteProduct`: single-flight on `isSubmitting`; removes the product
      row and nothing else, leaving its ledger entries in place. */
  function DeleteProduct(submitting: bool, st: Store, id: ProductId, deleteFails: bool): (r: (Store, bool))
    ensures r.0.ledger == st.ledger
    ensures submitting || deleteFails ==> r.0 == st
    ensures r.1 == submitting
    ensures !submitting && !deleteFails ==>
      forall i :: 0 <= i < |r.0.products| ==> r.0.products[i].id != id && r.0.products[i] in st.products
    ensures !submitting && !deleteFails ==>
      forall i :: 0 <= i < |st.products| && st.products[i].id != id ==> st.products[i] in r.0.products
  {
    if submitting || deleteFails then (st, submitting)
    else
      FilterMembers(st.products, (p: Product) => p.id != id);
      (Store(Filter(st.products, (p: Product) => p.id != id), st.ledger), false)
  }

  /** Deleting a product keeps the stock invariant for the products that remain. */
  lemma DeletePreservesConsistency(submitting: bool, st: Store, id: ProductId, deleteFails: bool)
    requires Consistent(st.products, st.ledger)
    ensures Consistent(DeleteProduct(submitting, st, id, deleteFails).0.products, st.ledger)
  {
    var r := DeleteProduct(submitting, st, id, deleteFails).0;
    forall i | 0 <= i < |r.products|
      ensures r.products[i].stock == Net(st.ledger, r.products[i].id) && r.products[i].stock >= 0
    {
      var j :| 0 <= j < |st.products| && st.products[j] == r.products[i];
    }
  }
}
