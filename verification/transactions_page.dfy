/** The purchase/sale form (src/pages/Transactions.tsx): a product picker, the
    kind, two digit-only fields, the submit rule, the request handed to
    `addTransaction`, the reset after success, and the running total shown
    under the form. */
module TransactionsPage {
  import opened Js
  import opened Digits
  import opened Inventory
  import opened Ledger

  datatype TxnField = ProductField | KindField | QuantityField | PriceField

  datatype TxnForm = TxnForm(productId: string, kind: Kind, quantity: string, pricePerUnit: string)

  /** The initial state, restored after a successful submission: a sale. */
  const BlankTxnForm := TxnForm("", Vente, "", "")

  /** The two text fields hold digits only. */
  predicate Sanitized(f: TxnForm) { AllDigits(f.quantity) && AllDigits(f.pricePerUnit) }

  /** Typing into the quantity or price field goes through the sanitiser;
      the other fields are pickers. */
  function EditQuantity(f: TxnForm, typed: string): (r: TxnForm)
    ensures r.quantity == Sanitize(typed)
    ensures r.productId == f.productId && r.kind == f.kind && r.pricePerUnit == f.pricePerUnit
    ensures Sanitized(f) ==> Sanitized(r)
  {
    f.(quantity := Sanitize(typed))
  }

  function EditPrice(f: TxnForm, typed: string): (r: TxnForm)
    ensures r.pricePerUnit == Sanitize(typed)
    ensures r.productId == f.productId && r.kind == f.kind && r.quantity == f.quantity
    ensures Sanitized(f) ==> Sanitized(r)
  {
    f.(pricePerUnit := Sanitize(typed))
  }

  /** One user interaction with the form: a pick in the product list or the
      kind radio group, which store the picked value as is, or typing into
      one of the two number fields; `Cleared` is the reset after a
      successful submission. */
  datatype TxnInput =
    | PickProduct(id: string)
    | PickKind(kind: Kind)
    | TypeQuantity(text: string)
    | TypePrice(text: string)
    | Cleared

  function TxnStep(f: TxnForm, i: TxnInput): TxnForm
  {
    match i
    case PickProduct(id) => f.(productId := id)
    case PickKind(kind) => f.(kind := kind)
    case TypeQuantity(text) => EditQuantity(f, text)
    case TypePrice(text) => EditPrice(f, text)
    case Cleared => BlankTxnForm
  }

  /** The form after a sequence of interactions, the last one applied last. */
  function TxnReplay(f: TxnForm, inputs: seq<TxnInput>): TxnForm
  {
    if inputs == [] then f
    else TxnStep(TxnReplay(f, inputs[..|inputs| - 1]), inputs[|inputs| - 1])
  }

  /** Every form the user can reach from the blank one is sanitised, so the
      sanitised-fields premise of `Request` and `HandleSubmit` holds on the
      page. */
  lemma {:induction false} ReachableTxnFormsAreSanitized(inputs: seq<TxnInput>)
    ensures Sanitized(TxnReplay(BlankTxnForm, inputs))
  {
    if inputs != [] {
      ReachableTxnFormsAreSanitized(inputs[..|inputs| - 1]);
    }
  }

  /** The submit button is disabled while no product or no quantity is
      chosen, and while a submission is in flight. */
  predicate SubmitEnabled(f: TxnForm, submitting: bool)
    ensures SubmitEnabled(f, submitting) && Sanitized(f) ==> ParseInt(f.quantity).Some?
  {
    f.productId != "" && f.quantity != "" && !submitting
  }

  /** The browser's constraint validation before `onSubmit`: the quantity is
      `required`, and so is the price of a purchase. */
  predicate RequiredFilled(f: TxnForm)
  {
    f.quantity != "" && (f.kind == Achat ==> f.pricePerUnit != "")
  }

  /** The argument `handleSubmit` passes: `parseInt(quantity)`, and the price
      only when its field is not empty. */
  function Request(f: TxnForm): (r: TxnRequest)
    requires Sanitized(f)
    ensures r.productId == f.productId && r.kind == f.kind
    ensures r.pricePerUnit.None? <==> f.pricePerUnit == ""
    ensures f.quantity == "" ==> r.quantity == 0
    ensures f.quantity != "" ==> r.quantity == Value(f.quantity)
    ensures f.pricePerUnit != "" ==> r.pricePerUnit == Some(Value(f.pricePerUnit) as real)
  {
    ParseSanitized(f.quantity);
    ParseSanitized(f.pricePerUnit);
    TxnRequest(
      f.productId, f.kind,
      Coalesce(ParseInt(f.quantity), 0),
      if f.pricePerUnit == "" then None else Some(ParseInt(f.pricePerUnit).value as real))
  }

  /** `handleSubmit`: the call and the form state after it. */
  function HandleSubmit(f: TxnForm, s: Session, st: Store, o: TxnReplies): (r: (TxnForm, TxnCall))
    requires Sanitized(f)
    ensures r.1 == AddTransaction(s, st, Request(f), o)
    ensures r.0 == (if r.1.Returned() then BlankTxnForm else f)
  {
    var call := AddTransaction(s, st, Request(f), o);
    (if call.Returned() then BlankTxnForm else f, call)
  }

  /** A press of the submit button: nothing while it is disabled or while the
      browser refuses the form, otherwise `handleSubmit`. A purchase is
      therefore always sent with the price typed for it. */
  function Press(f: TxnForm, s: Session, st: Store, o: TxnReplies): (r: (TxnForm, Option<TxnCall>))
    requires Sanitized(f)
    ensures r.1.Some? <==> SubmitEnabled(f, s.submitting) && RequiredFilled(f)
    ensures r.1.Some? ==> r.1.value == AddTransaction(s, st, Request(f), o)
    ensures r.1.Some? && f.kind == Achat ==> Request(f).pricePerUnit == Some(Value(f.pricePerUnit) as real)
    ensures r.1.None? ==> r.0 == f
  {
    if SubmitEnabled(f, s.submitting) && RequiredFilled(f) then
      var h := HandleSubmit(f, s, st, o);
      (h.0, Some(h.1))
    else (f, None)
  }

  /** Through an enabled button on a form the browser accepts, the hook is
      called and never skipped, a purchase carries its typed price, and a
      request that the form lets through is refused by the hook only for a zero
      quantity, a product it cannot find, a lack of stock or a store error. */
  lemma EnabledSubmitReachesHook(f: TxnForm, s: Session, st: Store, o: TxnReplies)
    requires Sanitized(f) && SubmitEnabled(f, s.submitting) && RequiredFilled(f)
    requires s.user.Some? && s.org.Some?
    ensures Press(f, s, st, o).1 == Some(AddTransaction(s, st, Request(f), o))
    ensures f.kind == Achat ==> Request(f).pricePerUnit.Some?
    ensures !AddTransaction(s, st, Request(f), o).outcome.Skipped?
    ensures AddTransaction(s, st, Request(f), o).outcome == Failed(InvalidData) <==> Value(f.quantity) == 0
  {
  }

  /** The running total (`calculatedTotal`), as a number; the page prints it
      with French digit grouping, and prints "0" where this is 0. */
  function CalculatedTotal(f: TxnForm, focused: Option<TxnField>, products: seq<Product>): (total: int)
    requires Sanitized(f)
    ensures focused == Some(QuantityField) || focused == Some(PriceField) ==> total == 0
    ensures FindProduct(products, f.productId).None? || f.quantity == "" || Value(f.quantity) == 0 ==> total == 0
    ensures (&& focused != Some(QuantityField) && focused != Some(PriceField) && f.quantity != ""
             && FindProduct(products, f.productId).Some?) ==>
      total == Value(f.quantity) * Round(if f.pricePerUnit != "" then Value(f.pricePerUnit) as real
                                         else DisplayPrice(FindProduct(products, f.productId).value))
  {
    ParseSanitized(f.quantity);
    ParseSanitized(f.pricePerUnit);
    RoundOfInt(if f.pricePerUnit == "" then 0 else Value(f.pricePerUnit));
    if focused == Some(QuantityField) || focused == Some(PriceField) then 0
    else if f.quantity == "" then 0
    else match FindProduct(products, f.productId)
      case None => 0
      case Some(p) =>
        var quantity := ParseInt(f.quantity);
        var raw := if f.pricePerUnit != "" then ParseInt(f.pricePerUnit).value as real else DisplayPrice(p);
        var unit := Round(raw);
        if quantity.None? || quantity.value <= 0 then 0
        else quantity.value * unit
  }

  /** The total announced before submitting is the total the ledger records,
      except when the price is left to the catalog and the product's per-unit
      price is stored as 0: the page then shows the per-bottle price (`||`)
      while the hook prices at 0 (`??`). */
  lemma TotalMatchesLedger(f: TxnForm, s: Session, st: Store, o: TxnReplies)
    requires Sanitized(f)
    requires AddTransaction(s, st, Request(f), o).Returned()
    requires f.pricePerUnit != "" || FindProduct(st.products, f.productId).value.sellingPricePerUnit != Some(0)
    ensures CalculatedTotal(f, None, st.products) == AddTransaction(s, st, Request(f), o).store.ledger[|st.ledger|].total
  {
    var req := Request(f);
    RecordedEffect(s, st, req, o);
    var p := FindProduct(st.products, f.productId).value;
    var shown := if f.pricePerUnit != "" then Value(f.pricePerUnit) as real else DisplayPrice(p);
    assert f.quantity != "" && req.quantity == Value(f.quantity);
    assert CalculatedTotal(f, None, st.products) == Value(f.quantity) * Round(shown);
    assert ResolvePrice(req.pricePerUnit, p) == Round(shown) by {
      if f.pricePerUnit == "" && p.sellingPricePerUnit.Some? {
        RoundOfInt(p.sellingPricePerUnit.value);
      }
    }
  }

  /** The exception, on a product priced 0 per unit and 500 per bottle: two
      units are announced at 1000 and recorded at 0. */
  lemma ZeroUnitPriceShowsBottlePrice()
    ensures var p := Product("p", "o", "Beaufort", 10, None, None, "unité", None, 500.0, Some(0), 3, 0);
      var f := TxnForm("p", Vente, "2", "");
      var s := Session(Some("u"), Some("o"), false);
      var st := Store([p], []);
      var o := TxnReplies(false, false, false, 7);
      && CalculatedTotal(f, None, st.products) == 1000
      && AddTransaction(s, st, Request(f), o).Returned()
      && AddTransaction(s, st, Request(f), o).store.ledger[0].total == 0
  {
    var f := TxnForm("p", Vente, "2", "");
    assert f.quantity[..1] == "2" && "2"[..0] == "";
    assert Value(f.quantity) == 2;
    ParseSanitized(f.quantity);
    RoundOfInt(500);
    RoundOfInt(0);
  }

  /** A successful submission clears the form; any other outcome keeps it. */
  lemma ResetOnlyOnSuccess(f: TxnForm, s: Session, st: Store, o: TxnReplies)
    requires Sanitized(f) && f != BlankTxnForm
    ensures HandleSubmit(f, s, st, o).0 == BlankTxnForm <==> AddTransaction(s, st, Request(f), o).Returned()
  {
  }
}
