/** The multi-product invoice form of `src/components/InvoiceGenerator.jsx`: a list of
    selected product keys, a dictionary of per-product details (quantity and unit
    price), the client and the payment fields; its total, its validity and the
    payload it inserts. */
module InvoiceGenerator {
  import opened Js
  import opened Rows

  const InvalidFormMessage := "Veuillez remplir tous les champs obligatoires correctement."
  const InvalidLineMessage :=
    "La quantité et le prix doivent être renseignés et supérieurs à zéro pour chaque produit."

  /** One product line of the inserted sale. */
  datatype PayloadLine = PayloadLine(id: string, quantity: Numeric, price: Numeric)

  /** The row `handleSubmit` inserts into the sales table. */
  datatype Payload = Payload(
    products: seq<PayloadLine>,
    client: string,
    paymentMethod: string,
    status: string,
    total: int,
    noTaxInfo: bool)

  const InsertErrorMessage := "Erreur lors de la création de la facture."

  /** How the insert into the sales table ends: it succeeds, or it fails with an
      error whose `message` property is given. */
  datatype InsertResult = InsertOk | InsertFailed(message: Value)

  /** What a submission does: the payload whose insert is attempted, if any; the
      error shown afterwards; whether `onCreated` and `onClose` are called. */
  datatype Submission = Submission(attempted: Option<Payload>, error: string, created: bool, closed: bool)

  /** `form.productsDetails[key] || {}`: a details object is always truthy. */
  function DetailsOf(details: map<string, Record>, key: string): Record {
    if key in details then details[key] else map[]
  }

  /** One catalog product's share of the total: quantity times price, each read as
      `Number(x) || 0`, so a missing or non-numeric value counts as 0. */
  function LineTotal(details: map<string, Record>, product: Record): int {
    var d := DetailsOf(details, RowKey(product));
    OrZero(ToNumber(Get(d, "quantity"))) * OrZero(ToNumber(Get(d, "price")))
  }

  /** `totalAmount`: the catalog is filtered on `product_ids.includes(String(p.id))`,
      then the line totals are summed. */
  function Total(catalog: seq<Record>, ids: seq<string>, details: map<string, Record>): int {
    if catalog == [] then 0
    else
      var last := catalog[|catalog| - 1];
      Total(catalog[..|catalog| - 1], ids, details) + (if RowKey(last) in ids then LineTotal(details, last) else 0)
  }

  /** The total depends on which keys are selected, not on their order or on how
      often a key occurs: each catalog product contributes at most once. */
  lemma {:induction false} TotalBySelection(catalog: seq<Record>, ids1: seq<string>, ids2: seq<string>,
                                             details: map<string, Record>)
    requires forall k :: k in ids1 <==> k in ids2
    ensures Total(catalog, ids1, details) == Total(catalog, ids2, details)
  {
    if catalog != [] {
      TotalBySelection(catalog[..|catalog| - 1], ids1, ids2, details);
    }
  }

  /** Selecting a key that is already selected leaves the total unchanged. */
  lemma TotalIgnoresRepeats(catalog: seq<Record>, ids: seq<string>, key: string, details: map<string, Record>)
    requires key in ids
    ensures Total(catalog, ids + [key], details) == Total(catalog, ids, details)
  {
    TotalBySelection(catalog, ids + [key], ids, details);
  }

  /** Quantity and price both greater than zero (`Number(x) > 0`). */
  predicate DetailsPositive(d: Record) {
    Positive(ToNumber(Get(d, "quantity"))) && Positive(ToNumber(Get(d, "price")))
  }

  /** The per-product check of `handleSubmit`: neither value may be falsy or at most 0. */
  predicate StrictlyFilled(d: Record) {
    var q, p := Get(d, "quantity"), Get(d, "price");
    !(!Truthy(q) || !Truthy(p) || AtMostZero(q) || AtMostZero(p))
  }

  /** Every selected key passes the per-product check. */
  predicate AllFilled(ids: seq<string>, details: map<string, Record>) {
    forall k :: k in ids ==> StrictlyFilled(DetailsOf(details, k))
  }

  /** The `for (const id of form.product_ids)` loop of `handleSubmit`: the position
      of the first key that fails the per-product check, if there is one. */
  method FirstUnfilled(ids: seq<string>, details: map<string, Record>) returns (bad: Option<nat>)
    ensures bad.None? <==> AllFilled(ids, details)
    ensures bad.Some? ==> bad.value < |ids| && !StrictlyFilled(DetailsOf(details, ids[bad.value]))
    ensures bad.Some? ==> forall j :: 0 <= j < bad.value ==> StrictlyFilled(DetailsOf(details, ids[j]))
  {
    ghost var filled := seq(|ids|, j requires 0 <= j < |ids| => StrictlyFilled(DetailsOf(details, ids[j])));
    var i := 0;
    while i < |ids|
      invariant 0 <= i <= |ids|
      invariant forall j :: 0 <= j < i ==> filled[j]
    {
      var ok := StrictlyFilled(DetailsOf(details, ids[i]));
      assert ok == filled[i];
      if !ok {
        assert ids[i] in ids;
        assert forall j :: 0 <= j < i ==> StrictlyFilled(DetailsOf(details, ids[j])) by {
          forall j | 0 <= j < i ensures StrictlyFilled(DetailsOf(details, ids[j])) {
            assert filled[j];
          }
        }
        return Some(i);
      }
      i := i + 1;
    }
    forall k | k in ids ensures StrictlyFilled(DetailsOf(details, k)) {
      var j :| 0 <= j < |ids| && ids[j] == k;
      assert filled[j];
    }
    return None;
  }

  /** When every selected key has a positive quantity and price, the total is not
      negative, and it is positive as soon as one catalog product is selected. */
  lemma {:induction false} TotalOfPositiveLines(catalog: seq<Record>, ids: seq<string>, details: map<string, Record>)
    requires forall k :: k in ids ==> DetailsPositive(DetailsOf(details, k))
    ensures Total(catalog, ids, details) >= 0
    ensures (exists i :: 0 <= i < |catalog| && RowKey(catalog[i]) in ids) ==> Total(catalog, ids, details) > 0
  {
    if catalog != [] {
      var init, last := catalog[..|catalog| - 1], catalog[|catalog| - 1];
      TotalOfPositiveLines(init, ids, details);
      assert Total(catalog, ids, details) ==
        Total(init, ids, details) + (if RowKey(last) in ids then LineTotal(details, last) else 0);
      if RowKey(last) in ids {
        var d := DetailsOf(details, RowKey(last));
        var q, p := ToNumber(Get(d, "quantity")).i, ToNumber(Get(d, "price")).i;
        assert LineTotal(details, last) == q * p;
        ProductOfPositives(q, p);
      } else {
        if exists i :: 0 <= i < |catalog| && RowKey(catalog[i]) in ids {
          var i :| 0 <= i < |catalog| && RowKey(catalog[i]) in ids;
          assert i < |init| && init[i] == catalog[i];
          assert RowKey(init[i]) in ids;
        }
      }
    }
  }

  /** `prev.product_ids.filter(pid => pid !== key)`: every other key stays, in order. */
  function Without(ids: seq<string>, key: string): (r: seq<string>)
    ensures forall k :: k in r <==> k in ids && k != key
    ensures |r| <= |ids|
    ensures key !in ids ==> r == ids
    ensures multiset(r) == multiset(ids)[key := 0]
  {
    if ids == [] then []
    else
      assert ids == [ids[0]] + ids[1..];
      (if ids[0] == key then [] else [ids[0]]) + Without(ids[1..], key)
  }

  /** The filter works element by element, so it keeps the order of the ids that stay. */
  lemma {:induction false} WithoutAppend(a: seq<string>, b: seq<string>, key: string)
    ensures Without(a + b, key) == Without(a, key) + Without(b, key)
  {
    if a != [] {
      var rest, h := a[1..], if a[0] == key then [] else [a[0]];
      assert (a + b)[0] == a[0] && (a + b)[1..] == rest + b;
      WithoutAppend(rest, b, key);
      assert Without(a + b, key) == h + Without(rest + b, key);
      assert Without(a, key) == h + Without(rest, key);
    } else {
      assert a + b == b;
    }
  }

  /** The details created when a product is checked: quantity 1 and the catalog
      price read as `Number(prod.price) || 0`, or 0 when no product has that key. */
  function FreshDetails(catalog: seq<Record>, key: string): Record {
    var price := match Find(catalog, key)
      case Some(prod) => OrZero(ToNumber(Get(prod, "price")))
      case None => 0;
    map["quantity" := Num(Int(1)), "price" := Num(Int(price))]
  }

  /** The payload lines: one per selected key, in selection order, with the
      quantity and price converted by `Number`. */
  function Lines(ids: seq<string>, details: map<string, Record>): seq<PayloadLine> {
    seq(|ids|, i requires 0 <= i < |ids| =>
      PayloadLine(ids[i], ToNumber(Get(DetailsOf(details, ids[i]), "quantity")),
                  ToNumber(Get(DetailsOf(details, ids[i]), "price"))))
  }

  class InvoiceForm {
    /** The product catalog, as fetched when the form opens. */
    const catalog: seq<Record>
    var productIds: seq<string>
    var details: map<string, Record>
    var client: string
    var paymentMethod: string
    var status: string
    /** Stored in the payload; no control of the form ever sets it. */
    var noTaxInfo: bool
    var error: string

    /** Every selected key has its details entry, and the no-tax flag is off. */
    predicate Valid()
      reads this`productIds, this`details, this`noTaxInfo
    {
      (forall k :: k in productIds ==> k in details) && !noTaxInfo
    }

    /** The initial form: nothing selected, payment in cash, status unpaid. */
    constructor (catalog: seq<Record>)
      ensures Valid()
      ensures this.catalog == catalog && productIds == [] && details == map[]
      ensures client == "" && paymentMethod == "cash" && status == "unpaid"
      ensures !noTaxInfo && error == ""
    {
      this.catalog := catalog;
      productIds, details := [], map[];
      client, paymentMethod, status := "", "cash", "unpaid";
      noTaxInfo, error := false, "";
    }

    function TotalAmount(): int
      reads this`productIds, this`details
    {
      Total(catalog, productIds, details)
    }

    /** `isValid`: something is selected, every selected product has a quantity and
        a price greater than zero, and the trimmed client is not empty. */
    predicate IsValid()
      reads this`productIds, this`details, this`client
    {
      |productIds| > 0 &&
      (forall k :: k in productIds ==> DetailsPositive(DetailsOf(details, k))) &&
      Trim(client) != ""
    }

    function SubmittedPayload(): Payload
      reads this`productIds, this`details, this`client, this`paymentMethod, this`status, this`noTaxInfo
    {
      Payload(Lines(productIds, details), client, paymentMethod, status, TotalAmount(), noTaxInfo)
    }

    /** What `handleSubmit` does, given whether the parent passed `onCreated` and
        `onClose` and how the insert ends: the validity check, then the
        per-product check, then the insert. */
    function Outcome(hasOnCreated: bool, hasOnClose: bool, insert: InsertResult): Submission
      reads this`productIds, this`details, this`client, this`paymentMethod, this`status, this`noTaxInfo
    {
      if !IsValid() then Submission(None, InvalidFormMessage, false, false)
      else if !AllFilled(productIds, details) then
        Submission(None, InvalidLineMessage, false, false)
      else match insert
        case InsertOk => Submission(Some(SubmittedPayload()), "", hasOnCreated, hasOnClose)
        case InsertFailed(message) =>
          Submission(Some(SubmittedPayload()), if Truthy(message) then ToString(message) else InsertErrorMessage,
                     false, false)
    }

    /** `handleProductCheck(id)`: checking appends the key and creates its details
        unless it already has some; unchecking removes every occurrence of the key
        and its details. Nothing else changes. */
    method Check(id: Value, checked: bool)
      requires Valid()
      modifies this
      ensures Valid()
      ensures var key := ToString(id);
        (checked ==>
          productIds == old(productIds) + [key] &&
          details == (if key in old(details) then old(details)
                      else old(details)[key := FreshDetails(catalog, key)])) &&
        (!checked ==>
          productIds == Without(old(productIds), key) && details == old(details) - {key})
      ensures client == old(client) && paymentMethod == old(paymentMethod) && status == old(status)
      ensures noTaxInfo == old(noTaxInfo) && error == old(error)
    {
      var key := ToString(id);
      var ids := if checked then productIds + [key] else Without(productIds, key);
      var newDetails := details;
      if checked && key !in newDetails {
        newDetails := newDetails[key := FreshDetails(catalog, key)];
      }
      if !checked {
        newDetails := newDetails - {key};
      }
      productIds, details := ids, newDetails;
    }

    /** `handleProductDetailChange(id, key)`: only that field of that product's
        details changes, to `''` for an empty input and to the number otherwise. */
    method ChangeDetail(id: string, key: string, raw: string)
      requires Valid()
      modifies this`details
      ensures Valid()
      ensures details == old(details)[id := DetailsOf(old(details), id)[key := NumberInput(raw)]]
    {
      details := details[id := DetailsOf(details, id)[key := NumberInput(raw)]];
    }

    method SetClient(value: string)
      modifies this`client
      ensures client == value
    {
      client := value;
    }

    method SetPaymentMethod(value: string)
      modifies this`paymentMethod
      ensures paymentMethod == value
    {
      paymentMethod := value;
    }

    method SetStatus(value: string)
      modifies this`status
      ensures status == value
    {
      status := value;
    }

    /** `handleSubmit`: clears the error, rejects an invalid form, then walks the
        selected keys looking for one without a positive quantity and price
        (`SubmitDecidedByValidity`: there is none left to find); then the insert
        is attempted. */
    method Submit(hasOnCreated: bool, hasOnClose: bool, insert: InsertResult) returns (result: Submission)
      modifies this`error
      ensures result == old(Outcome(hasOnCreated, hasOnClose, insert))
      ensures error == result.error
    {
      var valid, payload := IsValid(), SubmittedPayload();
      error := "";
      if !valid {
        error := InvalidFormMessage;
        return Submission(None, InvalidFormMessage, false, false);
      }
      var unfilled := FirstUnfilled(productIds, details);
      if unfilled.Some? {
        error := InvalidLineMessage;
        return Submission(None, InvalidLineMessage, false, false);
      }
      match insert
      case InsertOk =>
        return Submission(Some(payload), "", hasOnCreated, hasOnClose);
      case InsertFailed(message) =>
        error := if Truthy(message) then ToString(message) else InsertErrorMessage;
        return Submission(Some(payload), error, false, false);
    }
  }

  /** The per-product check of `handleSubmit` never rejects a form that `isValid`
      accepts: an insert is attempted exactly when the form is valid, a form that
      is turned away always gets the general message, the error stays empty
      exactly when the insert succeeds, and the callbacks run only after an
      insert that succeeded. */
  lemma SubmitDecidedByValidity(f: InvoiceForm, hasOnCreated: bool, hasOnClose: bool, insert: InsertResult)
    ensures var r := f.Outcome(hasOnCreated, hasOnClose, insert);
      (r.attempted.Some? <==> f.IsValid()) &&
      (r.attempted.Some? ==> r.attempted.value == f.SubmittedPayload()) &&
      (r.attempted.None? ==> r.error == InvalidFormMessage) &&
      (r.error == "" <==> f.IsValid() && insert.InsertOk?) &&
      (r.created ==> f.IsValid() && insert.InsertOk? && hasOnCreated) &&
      (r.closed ==> f.IsValid() && insert.InsertOk? && hasOnClose)
  {
    if f.IsValid() {
      ValidLinesFilled(f);
    }
  }

  /** A form that `isValid` accepts passes the per-product check. */
  lemma ValidLinesFilled(f: InvoiceForm)
    requires f.IsValid()
    ensures forall k :: k in f.productIds ==> StrictlyFilled(DetailsOf(f.details, k))
  {
    forall k | k in f.productIds ensures StrictlyFilled(DetailsOf(f.details, k)) {
      var d := DetailsOf(f.details, k);
      PositiveIsTruthy(Get(d, "quantity"));
      PositiveIsTruthy(Get(d, "price"));
    }
  }

  /** The payload of a valid form has one line per selected key, in order, with
      positive whole quantities and prices; its total is `totalAmount`, which is
      then not negative; and its no-tax flag is off. */
  lemma PayloadOfValidForm(f: InvoiceForm)
    requires f.Valid() && f.IsValid()
    ensures var p := f.SubmittedPayload();
      |p.products| == |f.productIds| &&
      (forall i :: 0 <= i < |p.products| ==>
        p.products[i].id == f.productIds[i] &&
        Positive(p.products[i].quantity) && Positive(p.products[i].price)) &&
      p.total == f.TotalAmount() && p.total >= 0 &&
      p.client == f.client && !p.noTaxInfo
  {
    TotalOfPositiveLines(f.catalog, f.productIds, f.details);
    var p := f.SubmittedPayload();
    forall i | 0 <= i < |p.products|
      ensures Positive(p.products[i].quantity) && Positive(p.products[i].price)
    {
      assert f.productIds[i] in f.productIds;
    }
  }
}
