/** The product form of `src/components/ProductForm.jsx`: its initial values and
    its change handler. */
module ProductForm {
  import opened Js

  /** `product?.[key]`. */
  function Field(product: Option<Record>, key: string): Value {
    match product
    case Some(p) => Get(p, key)
    case None => Undefined
  }

  /** `categories[0]`: undefined for an empty list. */
  function FirstCategory(categories: seq<Value>): Value {
    if categories == [] then Undefined else categories[0]
  }

  /** The initial `formData`: each field of the product being edited, or its
      default when the product is missing or the field is falsy — `''` for the
      name, the first category (then `''`) for the category, 0 for price and stock. */
  function InitialForm(product: Option<Record>, categories: seq<Value>): (r: Record)
    ensures r.Keys == {"name", "category", "price", "stock"}
    ensures Truthy(Field(product, "name")) ==> r["name"] == Field(product, "name")
    ensures !Truthy(Field(product, "name")) ==> r["name"] == Str("")
    ensures Truthy(Field(product, "category")) ==> r["category"] == Field(product, "category")
    ensures !Truthy(Field(product, "category")) && Truthy(FirstCategory(categories)) ==> r["category"] == categories[0]
    ensures !Truthy(Field(product, "category")) && !Truthy(FirstCategory(categories)) ==> r["category"] == Str("")
    ensures Truthy(Field(product, "price")) ==> r["price"] == Field(product, "price")
    ensures !Truthy(Field(product, "price")) ==> r["price"] == Num(Int(0))
    ensures Truthy(Field(product, "stock")) ==> r["stock"] == Field(product, "stock")
    ensures !Truthy(Field(product, "stock")) ==> r["stock"] == Num(Int(0))
  {
    map[
      "name" := Or(Field(product, "name"), Str("")),
      "category" := Or(Or(Field(product, "category"), FirstCategory(categories)), Str("")),
      "price" := Or(Field(product, "price"), Num(Int(0))),
      "stock" := Or(Field(product, "stock"), Num(Int(0)))]
  }

  /** A new product starts with an empty name, the first category if it is truthy
      (else `''`), and price and stock 0. */
  lemma NewProductDefaults(categories: seq<Value>)
    ensures InitialForm(None, categories) == map[
      "name" := Str(""),
      "category" := (if categories != [] && Truthy(categories[0]) then categories[0] else Str("")),
      "price" := Num(Int(0)),
      "stock" := Num(Int(0))]
  {
  }

  predicate NumericField(name: string) {
    name == "price" || name == "stock"
  }

  /** `handleChange`: the named field becomes `parseFloat(value)` for price and
      stock and the raw string for any other field; the others stay as they were. */
  function Change(form: Record, name: string, value: string): (r: Record)
    ensures r.Keys == form.Keys + {name}
    ensures NumericField(name) ==> r[name] == Num(ParseFloat(value))
    ensures !NumericField(name) ==> r[name] == Str(value)
    ensures forall k :: k != name ==> Get(r, k) == Get(form, k)
  {
    form[name := if NumericField(name) then Num(ParseFloat(value)) else Str(value)]
  }

  /** The last edit of a field wins, and edits of two different fields commute. */
  lemma ChangesCompose(form: Record, n1: string, v1: string, n2: string, v2: string)
    ensures Change(Change(form, n1, v1), n1, v2) == Change(form, n1, v2)
    ensures n1 != n2 ==> Change(Change(form, n1, v1), n2, v2) == Change(Change(form, n2, v2), n1, v1)
  {
  }

  /** Typing the decimal digits of a whole number into price or stock stores that
      number; clearing the field stores NaN. */
  lemma NumericEntry(form: Record, name: string, i: int)
    requires NumericField(name)
    ensures Get(Change(form, name, IntToString(i)), name) == Num(Int(i))
    ensures Get(Change(form, name, ""), name) == Num(NaN)
  {
    ParseFloatOfInt(i);
  }
}
