/** The single-product sale form of `src/components/SalesForm.jsx`: the selected
    product key, quantity, unit price, client and payment fields; the total it
    shows, its validity, and what a submission sends and reports. */
module SalesForm {
  import opened Js
  import opened Rows

  const InvalidMessage :=
    "Veuillez sélectionner un produit, saisir une quantité et un prix valides, et renseigner le client."
  const NoSaveMessage :=
    "La fonction onSave n'est pas fournie par le parent. Vérifiez le composant parent."
  const SaveErrorPrefix := "Erreur lors de l'enregistrement : "
  const GenericSaveError := "Une erreur s'est produite lors de l'enregistrement."

  datatype NumberField = Quantity | Price

  /** The sale handed to the parent's `onSave`. */
  datatype SalePayload = SalePayload(
    productId: Value,
    quantity: Numeric,
    price: Numeric,
    total: int,
    client: string,
    paymentMethod: string,
    status: string)

  /** How the parent's `onSave` ends: it returns (or resolves), or it throws an
      error whose `message` property (`err?.message`) is given. */
  datatype SaveResult = Saved | Threw(message: Value)

  /** What a submission does: the payload handed to `onSave`, if any; the error
      shown afterwards; and whether `onCancel` closed the form. */
  datatype Submission = Submission(sent: Option<SalePayload>, error: string, closed: bool)

  /** The price a selection puts in the form: `Number(product.price) || 0` for the
      catalog product with that key, 0 when there is none. */
  function CatalogPrice(catalog: seq<Record>, key: string): int {
    match Find(catalog, key)
    case Some(product) => OrZero(ToNumber(Get(product, "price")))
    case None => 0
  }

  class SaleForm {
    const catalog: seq<Record>
    /** The key chosen in the product `<select>`, kept as a string. */
    var productId: string
    var quantity: Value
    var price: Value
    var client: string
    var paymentMethod: string
    var status: string
    var error: string

    /** The initial form: no product, quantity 1, price 0, payment in cash, unpaid. */
    constructor (catalog: seq<Record>)
      ensures this.catalog == catalog && productId == ""
      ensures quantity == Num(Int(1)) && price == Num(Int(0))
      ensures client == "" && paymentMethod == "cash" && status == "unpaid" && error == ""
    {
      this.catalog := catalog;
      productId, quantity, price := "", Num(Int(1)), Num(Int(0));
      client, paymentMethod, status, error := "", "cash", "unpaid", "";
    }

    /** `selectedProduct`: the catalog product whose key is the selected one. */
    function Selected(): Option<Record>
      reads this`productId
    {
      Find(catalog, productId)
    }

    /** `totalAmount`: quantity times price, or 0 when either is not a finite number. */
    function TotalAmount(): (r: int)
      reads this`quantity, this`price
      ensures (ToNumber(quantity).NaN? || ToNumber(price).NaN?) ==> r == 0
      ensures ToNumber(quantity).Int? && ToNumber(price).Int? ==> r == ToNumber(quantity).i * ToNumber(price).i
    {
      OrZero(Mul(ToNumber(quantity), ToNumber(price)))
    }

    /** `isValid`: a product is selected, quantity and price are finite numbers
        greater than zero, and the trimmed client is not empty. */
    predicate IsValid()
      reads this`productId, this`quantity, this`price, this`client
    {
      productId != "" && Positive(ToNumber(quantity)) && Positive(ToNumber(price)) && Trim(client) != ""
    }

    /** The payload of `handleSubmit`: the selected product's own `id` when the key
        is found in the catalog (the raw key otherwise), the converted numbers and
        the total. */
    function Payload(): SalePayload
      reads this`productId, this`quantity, this`price, this`client, this`paymentMethod, this`status
    {
      var id := match Selected() case Some(product) => Get(product, "id") case None => Str(productId);
      SalePayload(id, ToNumber(quantity), ToNumber(price), TotalAmount(), client, paymentMethod, status)
    }

    /** What `handleSubmit` does, given whether the parent passed `onSave` and
        `onCancel` and how `onSave` ends. */
    function Outcome(hasOnSave: bool, hasOnCancel: bool, save: SaveResult): Submission
      reads this`productId, this`quantity, this`price, this`client, this`paymentMethod, this`status
    {
      if !IsValid() then Submission(None, InvalidMessage, false)
      else if !hasOnSave then Submission(None, NoSaveMessage, false)
      else match save
        case Saved => Submission(Some(Payload()), "", hasOnCancel)
        case Threw(message) =>
          Submission(Some(Payload()),
                     if Truthy(message) then SaveErrorPrefix + ToString(message) else GenericSaveError,
                     false)
    }

    /** `handleProductChange`: the key is stored and the price is replaced by the
        catalog price of that product. Nothing else changes. */
    method SelectProduct(key: string)
      modifies this`productId, this`price
      ensures productId == key && price == Num(Int(CatalogPrice(catalog, key)))
    {
      productId := key;
      price := Num(Int(CatalogPrice(catalog, key)));
    }

    /** `handleNumberChange(key)`: `''` for an empty input, the number otherwise. */
    method ChangeNumber(field: NumberField, raw: string)
      modifies this`quantity, this`price
      ensures field == Quantity ==> quantity == NumberInput(raw) && price == old(price)
      ensures field == Price ==> price == NumberInput(raw) && quantity == old(quantity)
    {
      match field
      case Quantity => quantity := NumberInput(raw);
      case Price => price := NumberInput(raw);
    }

    method SetClient(value: string)
      modifies this`client
      ensures client == value
    {
      client := value;
    }

    method SetPaymentMethod(value: string)
      modifies this`paymentMethod
      ensures paymentMethod == value
    {
      paymentMethod := value;
    }

    method SetStatus(value: string)
      modifies this`status
      ensures status == value
    {
      status := value;
    }

    /** `handleSubmit`: the error is cleared, then set by whichever check fails or
        by the error `onSave` throws. */
    method Submit(hasOnSave: bool, hasOnCancel: bool, save: SaveResult) returns (result: Submission)
      modifies this`error
      ensures result == old(Outcome(hasOnSave, hasOnCancel, save))
      ensures error == result.error
    {
      var valid, payload := IsValid(), Payload();
      error := "";
      if !valid {
        error := InvalidMessage;
        return Submission(None, InvalidMessage, false);
      }
      if !hasOnSave {
        error := NoSaveMessage;
        return Submission(None, NoSaveMessage, false);
      }
      match save
      case Saved =>
        return Submission(Some(payload), "", hasOnCancel);
      case Threw(message) =>
        error := if Truthy(message) then SaveErrorPrefix + ToString(message) else GenericSaveError;
        return Submission(Some(payload), error, false);
    }
  }

  /** A valid form shows a positive total: the product of its quantity and price. */
  lemma ValidTotal(f: SaleForm)
    requires f.IsValid()
    ensures f.TotalAmount() == ToNumber(f.quantity).i * ToNumber(f.price).i
    ensures f.TotalAmount() > 0
  {
    var q, p := ToNumber(f.quantity).i, ToNumber(f.price).i;
    assert q > 0 && p > 0;
    assert q * p > 0 by {
      ProductOfPositives(q, p);
    }
  }

  /** A sale is handed to `onSave` exactly when the form is valid and the parent
      passed `onSave`; its numbers are then positive and its total is their product.
      The form closes only after a save that did not throw, and the error stays
      empty exactly when the sale was saved. */
  lemma SubmissionContract(f: SaleForm, hasOnSave: bool, hasOnCancel: bool, save: SaveResult)
    ensures var r := f.Outcome(hasOnSave, hasOnCancel, save);
      (r.sent.Some? <==> f.IsValid() && hasOnSave) &&
      (r.sent.Some? ==>
        Positive(r.sent.value.quantity) && Positive(r.sent.value.price) &&
        r.sent.value.total == r.sent.value.quantity.i * r.sent.value.price.i &&
        r.sent.value.total > 0) &&
      (r.closed <==> r.sent.Some? && save.Saved? && hasOnCancel) &&
      (r.error == "" <==> r.sent.Some? && save.Saved?)
  {
    if f.IsValid() {
      ValidTotal(f);
    }
  }

  /** In a catalog with distinct keys, selecting the key of a catalog product puts
      that product's price in the form, and the payload carries that product's own id. */
  lemma SelectionFromCatalog(f: SaleForm, i: nat)
    requires i < |f.catalog|
    requires forall j, k :: 0 <= j < k < |f.catalog| ==> RowKey(f.catalog[j]) != RowKey(f.catalog[k])
    requires f.productId == RowKey(f.catalog[i])
    ensures CatalogPrice(f.catalog, f.productId) == OrZero(ToNumber(Get(f.catalog[i], "price")))
    ensures f.Payload().productId == Get(f.catalog[i], "id")
  {
    FindOwnKey(f.catalog, i);
  }

  /** Selecting a product puts a usable (positive) price in the form exactly when
      the catalog has a product with that key and its price is a positive number. */
  lemma SelectedPricePositive(catalog: seq<Record>, key: string)
    ensures CatalogPrice(catalog, key) > 0 <==>
      Find(catalog, key).Some? && Positive(ToNumber(Get(Find(catalog, key).value, "price")))
  {
  }
}
