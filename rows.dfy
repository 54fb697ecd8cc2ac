/** Rules about sale and product rows that several screens share. */
module Rows {
  import opened Js

  /** `sale.quantity * sale.price` (also `Number(sale.quantity) * Number(sale.price)`,
      the same thing, since `*` converts both operands with `Number`): the product of
      the two numbers, or NaN as soon as either field is not a number. */
  function LineAmount(sale: Record): (r: Numeric)
    ensures r.Int? <==> ToNumber(Get(sale, "quantity")).Int? && ToNumber(Get(sale, "price")).Int?
    ensures r.Int? ==> r.i == ToNumber(Get(sale, "quantity")).i * ToNumber(Get(sale, "price")).i
  {
    Mul(ToNumber(Get(sale, "quantity")), ToNumber(Get(sale, "price")))
  }

  /** `String(row.id)`: the key under which a row is looked up and selected. */
  function RowKey(row: Record): string {
    ToString(Get(row, "id"))
  }

  /** The position that `rows.find(p => String(p.id) === key)` stops at: the first
      row whose key is `key`, if there is one. */
  function FindIndex(rows: seq<Record>, key: string): (r: Option<nat>)
    ensures r.Some? ==> r.value < |rows| && RowKey(rows[r.value]) == key
    ensures r.Some? ==> forall j :: 0 <= j < r.value ==> RowKey(rows[j]) != key
    ensures r.None? ==> forall j :: 0 <= j < |rows| ==> RowKey(rows[j]) != key
  {
    if rows == [] then None
    else if RowKey(rows[0]) == key then Some(0)
    else match FindIndex(rows[1..], key)
      case None => None
      case Some(k) => Some(k + 1)
  }

  /** `rows.find(p => String(p.id) === key)`. */
  function Find(rows: seq<Record>, key: string): (r: Option<Record>)
    ensures r.Some? <==> exists j :: 0 <= j < |rows| && RowKey(rows[j]) == key
    ensures r.Some? ==> RowKey(r.value) == key && r.value in rows
    ensures r.Some? ==> exists j :: 0 <= j < |rows| && rows[j] == r.value && forall i :: 0 <= i < j ==> RowKey(rows[i]) != key
  {
    match FindIndex(rows, key)
    case None => None
    case Some(k) => Some(rows[k])
  }

  /** In a catalog whose keys are distinct, looking up the key of a row finds that row. */
  lemma FindOwnKey(rows: seq<Record>, i: nat)
    requires i < |rows|
    requires forall j, k :: 0 <= j < k < |rows| ==> RowKey(rows[j]) != RowKey(rows[k])
    ensures Find(rows, RowKey(rows[i])) == Some(rows[i])
  {
    var r := FindIndex(rows, RowKey(rows[i]));
    assert r.Some?;
  }
}
