/** The product creation form (src/pages/AddProduct.tsx): text fields, the
    client-side validation that decides whether `addProduct` is called at
    all, the payload built from the text, the package preview shown while the
    user types, and the reset after a successful creation. */
module AddProductPage {
  import opened Js
  import opened Digits
  import opened Inventory
  import opened Ledger
  import opened Catalog

  datatype FormField = Name | UnitLabel | Quantity | BottlesPerCase | PurchasePrice | SellingPrice | AlertThreshold

  /** The five fields whose input handler runs the digit sanitiser. */
  predicate IsNumeric(field: FormField) { !field.Name? && !field.UnitLabel? }

  datatype Form = Form(
    name: string,
    unitLabel: string,
    addType: AddMode,
    quantity: string,
    bottlesPerCase: string,
    purchasePrice: string,
    sellingPrice: string,
    alertThreshold: string)

  /** The initial state, restored after a successful submission. */
  const BlankForm := Form("", "unité", ByPackage, "", "", "", "", "")

  function Get(f: Form, field: FormField): string
  {
    match field
    case Name => f.name
    case UnitLabel => f.unitLabel
    case Quantity => f.quantity
    case BottlesPerCase => f.bottlesPerCase
    case PurchasePrice => f.purchasePrice
    case SellingPrice => f.sellingPrice
    case AlertThreshold => f.alertThreshold
  }

  /** Every numeric field holds digits only. */
  predicate Sanitized(f: Form)
  {
    forall field :: IsNumeric(field) ==> AllDigits(Get(f, field))
  }

  /** `handleInputChange` behind each field's `onChange`. */
  function Edit(f: Form, field: FormField, typed: string): (r: Form)
    ensures Get(r, field) == if IsNumeric(field) then Sanitize(typed) else typed
    ensures forall g :: g != field ==> Get(r, g) == Get(f, g)
    ensures r.addType == f.addType
    ensures Sanitized(f) ==> Sanitized(r)
  {
    match field
    case Name => f.(name := typed)
    case UnitLabel => f.(unitLabel := typed)
    case Quantity => f.(quantity := Sanitize(typed))
    case BottlesPerCase => f.(bottlesPerCase := Sanitize(typed))
    case PurchasePrice => f.(purchasePrice := Sanitize(typed))
    case SellingPrice => f.(sellingPrice := Sanitize(typed))
    case AlertThreshold => f.(alertThreshold := Sanitize(typed))
  }

  /** The mode radio group, which calls `handleInputChange("addType", …)`
      with the picked value and no sanitiser. */
  function SetMode(f: Form, mode: AddMode): (r: Form)
    ensures r.addType == mode
    ensures forall g :: Get(r, g) == Get(f, g)
    ensures Sanitized(f) ==> Sanitized(r)
  {
    f.(addType := mode)
  }

  /** One user interaction with the form: typing into a field or picking a mode. */
  datatype Input = Typed(field: FormField, text: string) | PickMode(mode: AddMode)

  function Step(f: Form, i: Input): Form
  {
    match i
    case Typed(field, text) => Edit(f, field, text)
    case PickMode(mode) => SetMode(f, mode)
  }

  /** The form after a sequence of interactions, the last one applied last. */
  function Replay(f: Form, inputs: seq<Input>): Form
  {
    if inputs == [] then f
    else Step(Replay(f, inputs[..|inputs| - 1]), inputs[|inputs| - 1])
  }

  /** Every form the user can reach from the blank one, whatever fields they
      type into and whichever mode they pick, is sanitised. */
  lemma {:induction false} ReachableFormsAreSanitized(inputs: seq<Input>)
    ensures Sanitized(Replay(BlankForm, inputs))
  {
    if inputs != [] {
      ReachableFormsAreSanitized(inputs[..|inputs| - 1]);
    }
  }

  /** The mode is the one picked last, whatever was typed after it, or the
      blank form's package mode when none was picked. */
  lemma {:induction false} ReplayMode(inputs: seq<Input>)
    ensures (forall k :: 0 <= k < |inputs| ==> !inputs[k].PickMode?) ==> Replay(BlankForm, inputs).addType == ByPackage
    ensures forall k ::
              (&& 0 <= k < |inputs| && inputs[k].PickMode?
               && (forall l :: k < l < |inputs| ==> !inputs[l].PickMode?)) ==>
              Replay(BlankForm, inputs).addType == inputs[k].mode
  {
    if inputs != [] {
      var prefix := inputs[..|inputs| - 1];
      assert forall k :: 0 <= k < |prefix| ==> prefix[k] == inputs[k];
      ReplayMode(prefix);
    }
    forall k | 0 <= k < |inputs| && inputs[k].PickMode? && (forall l :: k < l < |inputs| ==> !inputs[l].PickMode?)
      ensures Replay(BlankForm, inputs).addType == inputs[k].mode
    {
      ReplayModeFrom(inputs, k);
    }
  }

  lemma {:induction false} ReplayModeFrom(inputs: seq<Input>, k: nat)
    requires k < |inputs| && inputs[k].PickMode?
    requires forall l :: k < l < |inputs| ==> !inputs[l].PickMode?
    ensures Replay(BlankForm, inputs).addType == inputs[k].mode
  {
    if k < |inputs| - 1 {
      var prefix := inputs[..|inputs| - 1];
      assert prefix[k] == inputs[k];
      assert forall l :: k < l < |prefix| ==> prefix[l] == inputs[l];
      ReplayModeFrom(prefix, k);
    }
  }

  /** The checks at the top of `handleSubmit`, then the payload. The prices
      are read with `parseFloat`, which agrees with `parseInt` on the
      sanitised text the fields hold; `parseInt(alertThreshold) || 10`
      replaces both `NaN` and 0. */
  function Payload(f: Form): (r: Option<ProductRequest>)
    ensures r.None? <==>
      || Trim(f.name) == ""
      || !Positive(ParseInt(f.quantity))
      || (f.addType == ByPackage && !Positive(ParseInt(f.bottlesPerCase)))
      || !Positive(ParseInt(f.purchasePrice))
      || !Positive(ParseInt(f.sellingPrice))
    ensures r.Some? ==> r.value.name == f.name && r.value.mode == f.addType && r.value.unitLabel == Some(f.unitLabel)
    ensures r.Some? && f.addType == ByUnit ==> r.value.bottlesPerCase.None? && r.value.unitsPerPackage.None?
    ensures r.Some? && f.addType == ByPackage ==>
      r.value.unitsPerPackage == MapInt(ParseInt(f.bottlesPerCase)) && r.value.bottlesPerCase == MapInt(ParseInt(f.bottlesPerCase))
    ensures r.Some? ==>
              && r.value.quantity == ParseInt(f.quantity).value
              && r.value.purchasePrice == ParseInt(f.purchasePrice).value as real
              && r.value.sellingPrice == ParseInt(f.sellingPrice).value as real
  {
    if Trim(f.name) == "" then None
    else if !Positive(ParseInt(f.quantity)) then None
    else if f.addType == ByPackage && !Positive(ParseInt(f.bottlesPerCase)) then None
    else if !Positive(ParseInt(f.purchasePrice)) then None
    else if !Positive(ParseInt(f.sellingPrice)) then None
    else
      var package := if f.addType == ByPackage then ParseInt(f.bottlesPerCase) else None;
      Some(ProductRequest(
        f.name, f.addType, ParseInt(f.quantity).value,
        MapInt(package), MapInt(package),
        Some(f.unitLabel),
        ParseInt(f.purchasePrice).value as real,
        ParseInt(f.sellingPrice).value as real,
        ThresholdOrDefault(Coalesce(ParseInt(f.alertThreshold), 0))))
  }

  function MapInt(n: Option<nat>): (r: Option<int>)
    ensures r.Some? <==> n.Some?
    ensures r.Some? ==> r.value == n.value
  {
    if n.Some? then Some(n.value) else None
  }

  /** The page is stricter than the hook: whatever it submits passes the
      hook's own validation, has a positive package size and a positive
      alert threshold, so the stock it creates is positive and its
      per-unit cost is a number. */
  lemma PayloadIsValid(f: Form)
    requires Payload(f).Some?
    ensures ValidRequest(Payload(f).value)
    ensures UnitsPerPackage(Payload(f).value) > 0
    ensures Payload(f).value.alertThreshold > 0
    ensures Payload(f).value.quantity * UnitsPerPackage(Payload(f).value) > 0
    ensures CostPerUnit(Payload(f).value.purchasePrice, UnitsPerPackage(Payload(f).value)).Some?
  {
    var req := Payload(f).value;
    TrimBlank(f.name);
    assert Trim(req.name) != "";
    assert req.quantity > 0 && UnitsPerPackage(req) > 0;
  }

  /** An empty or zero threshold field submits the default 10; any other
      number is submitted as typed. */
  lemma ThresholdDefault(f: Form)
    requires AllDigits(f.alertThreshold) && Payload(f).Some?
    ensures f.alertThreshold == "" ==> Payload(f).value.alertThreshold == 10
    ensures f.alertThreshold != "" && Value(f.alertThreshold) > 0 ==> Payload(f).value.alertThreshold == Value(f.alertThreshold)
    ensures f.alertThreshold != "" && Value(f.alertThreshold) == 0 ==> Payload(f).value.alertThreshold == 10
  {
    ParseSanitized(f.alertThreshold);
  }

  /** The preview card under the package fields (`calculatedInfo`). */
  datatype Preview = Preview(totalBottles: int, pricePerBottle: int)

  /** Hidden while a field it depends on has focus, outside package mode, and
      while any of the three numbers is missing or not positive. */
  function CalculatedInfo(f: Form, focused: Option<FormField>): (r: Option<Preview>)
    ensures r.Some? <==>
              && focused != Some(Quantity) && focused != Some(BottlesPerCase) && focused != Some(PurchasePrice)
              && f.addType == ByPackage
              && Positive(ParseInt(f.quantity)) && Positive(ParseInt(f.bottlesPerCase)) && Positive(ParseInt(f.purchasePrice))
    ensures r.Some? ==>
              && r.value.totalBottles == ParseInt(f.quantity).value * ParseInt(f.bottlesPerCase).value
              && r.value.totalBottles > 0
              && r.value.pricePerBottle == Round(ParseInt(f.purchasePrice).value as real / ParseInt(f.bottlesPerCase).value as real)
  {
    if focused == Some(Quantity) || focused == Some(BottlesPerCase) || focused == Some(PurchasePrice) then None
    else if f.addType != ByPackage then None
    else
      var q := ParseInt(f.quantity);
      var b := ParseInt(f.bottlesPerCase);
      var p := ParseInt(f.purchasePrice);
      if !Positive(q) || !Positive(b) || !Positive(p) then None
      else Some(Preview(q.value * b.value, Round(p.value as real / b.value as real)))
  }

  /** The preview announces what `addProduct` will store: when a previewed
      form is submitted and the product is created, its stock is the
      previewed total and its per-unit cost the previewed price. */
  lemma PreviewMatchesCreatedProduct(f: Form, focused: Option<FormField>, s: Session, st: Store, o: ProductReplies)
    requires CalculatedInfo(f, focused).Some? && Payload(f).Some?
    requires AddProduct(s, st, Payload(f).value, o).Returned()
    ensures AddProduct(s, st, Payload(f).value, o).store.products[0].stock == CalculatedInfo(f, focused).value.totalBottles
    ensures AddProduct(s, st, Payload(f).value, o).store.products[0].purchaseCostPerUnit
      == Some(CalculatedInfo(f, focused).value.pricePerBottle)
  {
    PackageConversion(s, st, Payload(f).value, o);
  }

  /** A form with a preview and a name and selling price can be submitted. */
  lemma PreviewedFormSubmits(f: Form, focused: Option<FormField>)
    requires CalculatedInfo(f, focused).Some?
    requires Trim(f.name) != "" && Positive(ParseInt(f.sellingPrice))
    ensures Payload(f).Some?
  {
  }

  /** `handleSubmit`: the new form state and the `addProduct` call, if any. */
  function HandleSubmit(f: Form, s: Session, st: Store, o: ProductReplies): (r: (Form, Option<ProductCall>))
    ensures r.1.None? <==> Payload(f).None?
    ensures r.1.Some? ==> r.1.value == AddProduct(s, st, Payload(f).value, o)
    ensures r.0 == BlankForm || r.0 == f
    ensures r.0 != f ==> r.1.Some? && r.1.value.Returned()
  {
    match Payload(f)
    case None => (f, None)
    case Some(req) =>
      var call := AddProduct(s, st, req, o);
      (if call.Returned() then BlankForm else f, Some(call))
  }

  /** The browser's constraint validation, which runs before `onSubmit`:
      every rendered field marked `required` is non-empty. The package-size
      field is rendered only in package mode. */
  predicate RequiredFilled(f: Form)
  {
    && f.name != "" && f.unitLabel != "" && f.quantity != ""
    && (f.addType == ByPackage ==> f.bottlesPerCase != "")
    && f.purchasePrice != "" && f.sellingPrice != ""
  }

  /** A press of the submit button: the browser's checks, then `handleSubmit`.
      Of those checks only the unit label's matters, since `handleSubmit`
      refuses every other empty field itself. */
  function Press(f: Form, s: Session, st: Store, o: ProductReplies): (r: (Form, Option<ProductCall>))
    ensures r.1.Some? <==> Payload(f).Some? && f.unitLabel != ""
    ensures r.1.Some? ==> r.1.value == AddProduct(s, st, Payload(f).value, o)
    ensures r.1.Some? ==> Payload(f).value.unitLabel.Some? && Payload(f).value.unitLabel.value != ""
    ensures r.0 == BlankForm || r.0 == f
    ensures r.0 != f ==> r.1.Some? && r.1.value.Returned()
  {
    if RequiredFilled(f) then HandleSubmit(f, s, st, o) else (f, None)
  }

  /** The form is cleared exactly when a product was created; a refused or
      failed submission keeps what the user typed. */
  lemma ResetOnlyOnSuccess(f: Form, s: Session, st: Store, o: ProductReplies)
    requires f != BlankForm
    ensures HandleSubmit(f, s, st, o).0 == BlankForm
      <==> Payload(f).Some? && AddProduct(s, st, Payload(f).value, o).Returned()
  {
  }

  /** Through the form, `addProduct` keeps the stock invariant whenever the
      companion entry is written and the new id is fresh: the form itself
      rules out the negative package size that would break it. */
  lemma SubmitPreservesConsistency(f: Form, s: Session, st: Store, o: ProductReplies)
    requires Consistent(st.products, st.ledger)
    requires Payload(f).Some?
    requires AddProduct(s, st, Payload(f).value, o).outcome != Created(true)
    requires o.product.Inserted? ==> forall i :: 0 <= i < |st.ledger| ==> st.ledger[i].productId != o.product.id
    requires o.product.Inserted? ==> forall i :: 0 <= i < |st.products| ==> st.products[i].id != o.product.id
    ensures Consistent(AddProduct(s, st, Payload(f).value, o).store.products, AddProduct(s, st, Payload(f).value, o).store.ledger)
  {
    PayloadIsValid(f);
    AddProductPreservesConsistency(s, st, Payload(f).value, o);
  }
}
