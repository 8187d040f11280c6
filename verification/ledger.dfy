/** `addTransaction` (src/hooks/useTransactions.tsx): records a purchase or
    a sale against one product. The call is a state transition over an
    in-memory store; each store call's outcome is an explicit reply, and the
    clock is a parameter. The order of writes is the hook's own: the ledger row
    is inserted first, the product's stock updated second, and a failed update
    does not roll the insert back. */
module Ledger {
  import opened Js
  import opened Seqs
  import opened Inventory

  /** The rows the hooks can see: products and the ledger. */
  datatype Store = Store(products: seq<Product>, ledger: seq<Txn>)

  /** The caller's context: signed-in user, resolved organization id, and
      the hook's `isSubmitting` flag. */
  datatype Session = Session(user: Option<string>, org: Option<string>, submitting: bool)

  /** The argument of `addTransaction`. */
  datatype TxnRequest = TxnRequest(productId: ProductId, kind: Kind, quantity: int, pricePerUnit: Option<real>)

  /** What the store answers to the three calls, and the insert's timestamp. */
  datatype TxnReplies = TxnReplies(productFetchFails: bool, insertFails: bool, updateFails: bool, now: int)

  datatype TxnError =
    | InvalidData
    | ProductNotFound
    | InsufficientStock(available: int)
    | InsertFailed
    | UpdateFailed

  /** `Skipped` is the guard's early `return false`, which leaves
      `isSubmitting` alone; every other outcome passes through the `finally`. */
  datatype TxnOutcome = Skipped | Recorded | Failed(error: TxnError)

  datatype TxnCall = TxnCall(outcome: TxnOutcome, store: Store, submitting: bool)
  {
    /** The boolean `addTransaction` resolves to. */
    predicate Returned() { outcome.Recorded? }
  }

  /** `Math.round(pricePerUnit ?? selling_price_per_unit ?? selling_price_per_bottle)`,
      for purchases and sales alike. */
  function ResolvePrice(explicit: Option<real>, p: Product): (price: int)
    ensures explicit.Some? ==> price == Round(explicit.value)
    ensures explicit.None? && p.sellingPricePerUnit.Some? ==> price == p.sellingPricePerUnit.value
    ensures explicit.None? && p.sellingPricePerUnit.None? ==> price == Round(p.sellingPricePerBottle)
  {
    RoundOfInt(if p.sellingPricePerUnit.Some? then p.sellingPricePerUnit.value else 0);
    Round(Coalesce(explicit, DefaultPrice(p)))
  }

  /** The row inserted into `transactions`. */
  function Entry(s: Session, req: TxnRequest, p: Product, now: int): Txn
    requires s.user.Some? && s.org.Some?
  {
    var price := ResolvePrice(req.pricePerUnit, p);
    Txn(req.productId, s.org.value, s.user.value, req.kind, req.quantity,
        Some(price), price * req.quantity, now, p.name)
  }

  /** `addTransaction`. */
  function AddTransaction(s: Session, st: Store, req: TxnRequest, o: TxnReplies): (r: TxnCall)
    ensures r.outcome.Skipped? <==> s.user.None? || s.org.None? || s.submitting
    ensures r.outcome.Skipped? ==> r.store == st && r.submitting == s.submitting
    ensures !r.outcome.Skipped? ==> !r.submitting
    ensures r.outcome.Recorded? || r.outcome == Failed(UpdateFailed) <==> |r.store.ledger| == |st.ledger| + 1
    ensures r.outcome.Recorded? || r.outcome == Failed(UpdateFailed) ==> r.store.ledger[..|st.ledger|] == st.ledger
    ensures !r.outcome.Recorded? ==> r.store.products == st.products
    ensures !r.outcome.Recorded? && r.outcome != Failed(UpdateFailed) ==> r.store == st
    ensures r.outcome == Failed(InvalidData) <==> Ready(s) && (req.productId == "" || req.quantity <= 0)
    ensures r.outcome == Failed(ProductNotFound) <==>
              && Ready(s) && req.productId != "" && req.quantity > 0
              && (o.productFetchFails || FindProduct(st.products, req.productId).None?)
    ensures r.outcome.Failed? && r.outcome.error.InsufficientStock? <==>
              && Ready(s) && req.productId != "" && req.quantity > 0 && !o.productFetchFails
              && FindProduct(st.products, req.productId).Some? && req.kind == Vente
              && FindProduct(st.products, req.productId).value.stock < req.quantity
    ensures r.outcome == Failed(InsertFailed) <==> Ready(s) && Admissible(st, req, o) && o.insertFails
    ensures r.outcome == Failed(UpdateFailed) <==> Ready(s) && Admissible(st, req, o) && !o.insertFails && o.updateFails
    ensures r.outcome.Recorded? <==> Ready(s) && Admissible(st, req, o) && !o.insertFails && !o.updateFails
  {
    if s.user.None? || s.org.None? || s.submitting then TxnCall(Skipped, st, s.submitting)
    else if req.productId == "" || req.quantity <= 0 then TxnCall(Failed(InvalidData), st, false)
    else if o.productFetchFails then TxnCall(Failed(ProductNotFound), st, false)
    else match FindProduct(st.products, req.productId)
      case None => TxnCall(Failed(ProductNotFound), st, false)
      case Some(p) =>
        if req.kind == Vente && p.stock < req.quantity then
          TxnCall(Failed(InsufficientStock(p.stock)), st, false)
        else
          var newStock := if req.kind == Achat then p.stock + req.quantity else p.stock - req.quantity;
          if o.insertFails then TxnCall(Failed(InsertFailed), st, false)
          else
            var ledger := st.ledger + [Entry(s, req, p, o.now)];
            assert ledger[..|st.ledger|] == st.ledger;
            if o.updateFails then TxnCall(Failed(UpdateFailed), Store(st.products, ledger), false)
            else TxnCall(Recorded, Store(SetStock(st.products, req.productId, newStock), ledger), false)
  }

  predicate Ready(s: Session) { s.user.Some? && s.org.Some? && !s.submitting }

  /** The request passes every check before the two writes: a valid id and
      quantity, a product the store returns, and enough stock for a sale. */
  predicate Admissible(st: Store, req: TxnRequest, o: TxnReplies)
  {
    && req.productId != "" && req.quantity > 0 && !o.productFetchFails
    && FindProduct(st.products, req.productId).Some?
    && (req.kind == Achat || FindProduct(st.products, req.productId).value.stock >= req.quantity)
  }

  /** An empty product id, a nonpositive quantity, or an id the store does
      not know is refused with nothing written. */
  lemma RejectsInvalidRequest(s: Session, st: Store, req: TxnRequest, o: TxnReplies)
    requires Ready(s)
    requires req.productId == "" || req.quantity <= 0 || FindProduct(st.products, req.productId).None?
    ensures !AddTransaction(s, st, req, o).Returned()
    ensures AddTransaction(s, st, req, o).store == st
    ensures AddTransaction(s, st, req, o).outcome.Failed?
  {
  }

  /** No oversell: a sale of more than the current stock is refused, naming the
      available stock, and nothing is written. */
  lemma NoOversell(s: Session, st: Store, req: TxnRequest, o: TxnReplies)
    requires Ready(s) && req.productId != "" && req.quantity > 0 && !o.productFetchFails
    requires req.kind == Vente
    requires FindProduct(st.products, req.productId).Some?
    requires req.quantity > FindProduct(st.products, req.productId).value.stock
    ensures AddTransaction(s, st, req, o).outcome
      == Failed(InsufficientStock(FindProduct(st.products, req.productId).value.stock))
    ensures AddTransaction(s, st, req, o).store == st
  {
  }

  /** Selling exactly the whole stock is allowed and leaves the product at 0. */
  lemma SellWholeStock(s: Session, st: Store, req: TxnRequest, o: TxnReplies)
    requires Ready(s) && req.productId != "" && !o.productFetchFails && !o.insertFails && !o.updateFails
    requires req.kind == Vente
    requires FindProduct(st.products, req.productId).Some?
    requires req.quantity == FindProduct(st.products, req.productId).value.stock > 0
    ensures AddTransaction(s, st, req, o).Returned()
    ensures FindProduct(AddTransaction(s, st, req, o).store.products, req.productId).Some?
    ensures FindProduct(AddTransaction(s, st, req, o).store.products, req.productId).value.stock == 0
  {
    var r := AddTransaction(s, st, req, o);
    var p := FindProduct(st.products, req.productId).value;
    var i :| 0 <= i < |st.products| && st.products[i] == p;
    assert r.store.products[i].stock == 0;
    FindIsUnique(r.store.products, req.productId, i);
  }

  /** In a list where every row with a given id agrees on its stock, the row
      `FindProduct` returns has that stock. */
  lemma FindIsUnique(products: seq<Product>, id: ProductId, i: int)
    requires 0 <= i < |products| && products[i].id == id
    requires forall j :: 0 <= j < |products| && products[j].id == id ==> products[j].stock == products[i].stock
    ensures FindProduct(products, id).Some?
    ensures FindProduct(products, id).value.stock == products[i].stock
  {
    if products[0].id != id {
      FindIsUnique(products[1..], id, i - 1);
    }
  }

  /** A recorded call appends exactly one entry, priced by `ResolvePrice`
      with total = price × quantity, and moves the stock of the target
      product by +quantity (purchase) or −quantity (sale); every other
      product is unchanged. */
  lemma RecordedEffect(s: Session, st: Store, req: TxnRequest, o: TxnReplies)
    requires AddTransaction(s, st, req, o).Returned()
    ensures var p := FindProduct(st.products, req.productId).value;
      var r := AddTransaction(s, st, req, o);
      var e := r.store.ledger[|st.ledger|];
      && r.store.ledger == st.ledger + [e]
      && e.productId == req.productId && e.kind == req.kind && e.quantity == req.quantity > 0
      && e.unitPrice == Some(ResolvePrice(req.pricePerUnit, p))
      && e.total == ResolvePrice(req.pricePerUnit, p) * req.quantity
      && e.createdAt == o.now
      && |r.store.products| == |st.products|
      && (forall i :: 0 <= i < |st.products| && st.products[i].id != req.productId ==>
            r.store.products[i] == st.products[i])
      && (forall i :: 0 <= i < |st.products| && st.products[i].id == req.productId ==>
            r.store.products[i] == st.products[i].(stock := p.stock + Delta(e, req.productId)))
  {
  }

  /** The stock invariant is kept by every call except one whose stock update
      failed after its ledger insert succeeded. */
  lemma {:induction false} PreservesConsistency(s: Session, st: Store, req: TxnRequest, o: TxnReplies)
    requires Consistent(st.products, st.ledger)
    requires AddTransaction(s, st, req, o).outcome != Failed(UpdateFailed)
    ensures Consistent(AddTransaction(s, st, req, o).store.products, AddTransaction(s, st, req, o).store.ledger)
  {
    var r := AddTransaction(s, st, req, o);
    if r.outcome.Recorded? {
      RecordedEffect(s, st, req, o);
      var p := FindProduct(st.products, req.productId).value;
      var e := r.store.ledger[|st.ledger|];
      forall i | 0 <= i < |r.store.products|
        ensures r.store.products[i].stock == Net(r.store.ledger, r.store.products[i].id)
        ensures r.store.products[i].stock >= 0
      {
        var q := st.products[i];
        NetAppend(st.ledger, e, q.id);
        if q.id == req.productId {
          var j :| 0 <= j < |st.products| && st.products[j] == p;
          assert p.stock == Net(st.ledger, p.id);
        }
      }
    }
  }

  /** No rollback: when the stock update fails, the call returns false but
      the new entry stays in the ledger while the stock does not move, so the
      product's stock now differs from the net of its ledger by exactly the
      entry's quantity. */
  lemma UpdateFailureKeepsEntry(s: Session, st: Store, req: TxnRequest, o: TxnReplies)
    requires Consistent(st.products, st.ledger)
    requires AddTransaction(s, st, req, o).outcome == Failed(UpdateFailed)
    ensures var r := AddTransaction(s, st, req, o);
      && !r.Returned()
      && r.store.products == st.products
      && |r.store.ledger| == |st.ledger| + 1
      && r.store.ledger[|st.ledger|].productId == req.productId
      && FindProduct(st.products, req.productId).Some?
      && Net(r.store.ledger, req.productId)
         == FindProduct(st.products, req.productId).value.stock + Delta(r.store.ledger[|st.ledger|], req.productId)
      && Net(r.store.ledger, req.productId) != FindProduct(st.products, req.productId).value.stock
  {
    var r := AddTransaction(s, st, req, o);
    var p := FindProduct(st.products, req.productId).value;
    var e := r.store.ledger[|st.ledger|];
    assert r.store.ledger == st.ledger + [e];
    NetAppend(st.ledger, e, req.productId);
    var j :| 0 <= j < |st.products| && st.products[j] == p;
  }
}
