/** The invoice list of `src/pages/Invoices.jsx`: sales fetched with their joined
    product are decorated with a product name, and each row shows a reference, an
    amount and a status badge. */
module InvoicesPage {
  import opened Js
  import opened Rows

  const UnknownProduct := "Produit inconnu"

  /** A sale row as the query returns it: its own columns, and the joined
      `product` object (`null` when the sale has no product). */
  datatype JoinedSale = JoinedSale(fields: Record, product: Option<Record>)

  /** `sale.product?.name`. */
  function JoinedName(sale: JoinedSale): Value {
    match sale.product
    case Some(p) => Get(p, "name")
    case None => Undefined
  }

  /** `{ ...sale, product_name: sale.product?.name || 'Produit inconnu' }`. */
  function Decorate(sale: JoinedSale): (r: JoinedSale)
    ensures Truthy(JoinedName(sale)) ==> Get(r.fields, "product_name") == JoinedName(sale)
    ensures !Truthy(JoinedName(sale)) ==> Get(r.fields, "product_name") == Str(UnknownProduct)
    ensures forall k :: k != "product_name" ==> Get(r.fields, k) == Get(sale.fields, k)
    ensures r.product == sale.product
  {
    JoinedSale(sale.fields["product_name" := Or(JoinedName(sale), Str(UnknownProduct))], sale.product)
  }

  /** The `data.map` of `fetchSales`: length and order are kept. */
  function DecorateAll(sales: seq<JoinedSale>): (r: seq<JoinedSale>)
    ensures |r| == |sales|
    ensures forall i :: 0 <= i < |sales| ==> r[i] == Decorate(sales[i])
  {
    seq(|sales|, i requires 0 <= i < |sales| => Decorate(sales[i]))
  }

  /** Every decorated sale shows a product name, and decorating leaves the row
      amount (`quantity * price`) as it was. */
  lemma DecoratedRows(sales: seq<JoinedSale>)
    ensures forall i :: 0 <= i < |sales| ==>
      Truthy(Get(DecorateAll(sales)[i].fields, "product_name")) &&
      LineAmount(DecorateAll(sales)[i].fields) == LineAmount(sales[i].fields)
  {
    forall i | 0 <= i < |sales|
      ensures LineAmount(DecorateAll(sales)[i].fields) == LineAmount(sales[i].fields)
    {
      var d := DecorateAll(sales)[i];
      assert Get(d.fields, "quantity") == Get(sales[i].fields, "quantity");
      assert Get(d.fields, "price") == Get(sales[i].fields, "price");
    }
  }

  /** A `<span className=…>` with its text. */
  datatype Badge = Badge(className: string, text: string)

  /** The text React renders for a value: strings and numbers as text, nothing for
      `null`, `undefined` and booleans. */
  function RenderedText(v: Value): string {
    match v
    case Str(s) => s
    case Num(n) => ToString(Num(n))
    case _ => ""
  }

  /** `getStatusBadge(status)`: the `switch` compares with `===`. */
  function StatusBadge(status: Value): Badge {
    if StrictEquals(status, Str("paid")) then Badge("badge success", "Payée ✅")
    else if StrictEquals(status, Str("unpaid")) then Badge("badge warning", "Non payée ❌")
    else if StrictEquals(status, Str("proforma")) then Badge("badge info", "Pro forma 📝")
    else Badge("badge", RenderedText(status))
  }

  /** The three statuses get three different badges, none of which an unknown
      status can get; an unknown status shows its own text under the plain class. */
  lemma BadgesDistinct(other: Value)
    requires other != Str("paid") && other != Str("unpaid") && other != Str("proforma")
    ensures StatusBadge(Str("paid")) != StatusBadge(Str("unpaid"))
    ensures StatusBadge(Str("paid")) != StatusBadge(Str("proforma"))
    ensures StatusBadge(Str("unpaid")) != StatusBadge(Str("proforma"))
    ensures StatusBadge(other) == Badge("badge", RenderedText(other))
    ensures other.Str? ==> StatusBadge(other).text == other.s
  {
  }

  /** `'#' + sale.id.slice(0, 8)`. */
  function Reference(id: string): (r: string)
    ensures |r| == 1 + (if |id| < 8 then |id| else 8)
    ensures r[0] == '#' && r[1..] <= id
  {
    "#" + (if |id| < 8 then id else id[..8])
  }
}
