/** The one-off migration of `migrate_sales_products.js`, which fills in the
    missing product names of the product lines stored in old sales. The reads and
    writes of the database are not modelled: the products and the sales come in
    as parameters and the updates the script would issue come out, in order. */
module Migration {
  import opened Js
  import opened Rows

  /** The `products` column of a sale: an array of product lines, or anything else. */
  datatype ProductsField = Entries(entries: seq<Record>) | NotAnArray

  datatype StoredSale = StoredSale(id: Value, products: ProductsField)

  /** `supabase.from('sales').update({ products }).eq('id', saleId)`. */
  datatype Update = Update(saleId: Value, products: seq<Record>)

  /** `productMap`: `String(p.id)` to `p.name`, a later product overwriting an
      earlier one with the same key. */
  function NameMap(products: seq<Record>): map<string, Value> {
    if products == [] then map[]
    else
      var last := products[|products| - 1];
      NameMap(products[..|products| - 1])[RowKey(last) := Get(last, "name")]
  }

  /** The map holds a key exactly when some product has it, with the name of the
      last product that has it. */
  lemma {:induction false} NameMapLookup(products: seq<Record>, k: string)
    ensures k in NameMap(products) <==> exists i :: 0 <= i < |products| && RowKey(products[i]) == k
    ensures k in NameMap(products) ==>
      exists i :: 0 <= i < |products| && RowKey(products[i]) == k && NameMap(products)[k] == Get(products[i], "name") &&
        forall j :: i < j < |products| ==> RowKey(products[j]) != k
  {
    if products != [] {
      var init, last := products[..|products| - 1], products[|products| - 1];
      NameMapLookup(init, k);
      if RowKey(last) != k {
        if k in NameMap(init) {
          var i :| 0 <= i < |init| && RowKey(init[i]) == k && NameMap(init)[k] == Get(init[i], "name") &&
            forall j :: i < j < |init| ==> RowKey(init[j]) != k;
          assert products[i] == init[i];
          assert forall j :: i < j < |products| ==> RowKey(products[j]) != k by {
            forall j | i < j < |products| ensures RowKey(products[j]) != k {
              if j < |init| {
                assert products[j] == init[j];
              }
            }
          }
        }
        if exists i :: 0 <= i < |products| && RowKey(products[i]) == k {
          var i :| 0 <= i < |products| && RowKey(products[i]) == k;
          assert i < |init| && init[i] == products[i];
        }
      }
    }
  }

  /** The `products.forEach` that fills `productMap`. */
  method BuildProductMap(products: seq<Record>) returns (productMap: map<string, Value>)
    ensures productMap == NameMap(products)
  {
    productMap := map[];
    var i := 0;
    while i < |products|
      invariant 0 <= i <= |products|
      invariant productMap == NameMap(products[..i])
    {
      assert products[..i + 1][..i] == products[..i];
      productMap := productMap[RowKey(products[i]) := Get(products[i], "name")];
      i := i + 1;
    }
    assert products[..i] == products;
  }

  /** `productMap[String(p.id)]`: undefined for a key the map does not hold. */
  function Lookup(productMap: map<string, Value>, key: string): Value {
    if key in productMap then productMap[key] else Undefined
  }

  /** `!p.name && productMap[String(p.id)]`. */
  predicate Fillable(p: Record, productMap: map<string, Value>) {
    !Truthy(Get(p, "name")) && Truthy(Lookup(productMap, RowKey(p)))
  }

  /** The callback of `sale.products.map`: a line without a name whose key the map
      knows gets the map's name and keeps every other field; any other line is
      returned as it is. */
  function Fill(p: Record, productMap: map<string, Value>): (r: Record)
    ensures Fillable(p, productMap) ==>
      Get(r, "name") == Lookup(productMap, RowKey(p)) && forall k :: k != "name" ==> Get(r, k) == Get(p, k)
    ensures !Fillable(p, productMap) ==> r == p
    ensures !Fillable(r, productMap)
  {
    if Fillable(p, productMap) then p["name" := Lookup(productMap, RowKey(p))] else p
  }

  /** `newProducts`: every line passed through `Fill`, in order. */
  function FillAll(entries: seq<Record>, productMap: map<string, Value>): (r: seq<Record>)
    ensures |r| == |entries|
    ensures forall i :: 0 <= i < |entries| ==> r[i] == Fill(entries[i], productMap)
  {
    if entries == [] then []
    else FillAll(entries[..|entries| - 1], productMap) + [Fill(entries[|entries| - 1], productMap)]
  }

  predicate AnyFillable(entries: seq<Record>, productMap: map<string, Value>) {
    exists i :: 0 <= i < |entries| && Fillable(entries[i], productMap)
  }

  /** The updates the loop over the sales issues: one per sale whose products are
      an array with at least one line to fill, in the order of the sales. */
  function Updates(sales: seq<StoredSale>, productMap: map<string, Value>): seq<Update> {
    if sales == [] then []
    else
      var last := sales[|sales| - 1];
      Updates(sales[..|sales| - 1], productMap) +
      (if last.products.Entries? && AnyFillable(last.products.entries, productMap)
       then [Update(last.id, FillAll(last.products.entries, productMap))] else [])
  }

  /** The per-sale `map` with its `updated` flag. */
  method FillEntries(entries: seq<Record>, productMap: map<string, Value>)
    returns (newProducts: seq<Record>, updated: bool)
    ensures newProducts == FillAll(entries, productMap)
    ensures updated <==> AnyFillable(entries, productMap)
  {
    newProducts, updated := [], false;
    var i := 0;
    while i < |entries|
      invariant 0 <= i <= |entries|
      invariant newProducts == FillAll(entries[..i], productMap)
      invariant updated <==> AnyFillable(entries[..i], productMap)
    {
      var p := entries[i];
      FillStep(entries, i, productMap);
      if Fillable(p, productMap) {
        updated := true;
      }
      newProducts := newProducts + [Fill(p, productMap)];
      i := i + 1;
    }
    assert entries[..i] == entries;
  }

  /** What one more line does to the filled lines and to the flag. */
  lemma FillStep(entries: seq<Record>, i: nat, productMap: map<string, Value>)
    requires i < |entries|
    ensures FillAll(entries[..i + 1], productMap) == FillAll(entries[..i], productMap) + [Fill(entries[i], productMap)]
    ensures AnyFillable(entries[..i + 1], productMap) <==>
      AnyFillable(entries[..i], productMap) || Fillable(entries[i], productMap)
  {
    var prefix := entries[..i + 1];
    assert prefix[..i] == entries[..i];
    assert prefix[i] == entries[i];
    if AnyFillable(prefix, productMap) && !Fillable(entries[i], productMap) {
      var j :| 0 <= j < |prefix| && Fillable(prefix[j], productMap);
      assert entries[..i][j] == prefix[j];
    }
    if AnyFillable(entries[..i], productMap) {
      var j :| 0 <= j < i && Fillable(entries[..i][j], productMap);
      assert prefix[j] == entries[..i][j];
    }
  }

  /** `migrateSalesProducts`: the product map is built, then each sale whose
      products are an array is rewritten, and an update is issued only when a line
      was filled. Sales whose products are not an array are skipped. */
  method Migrate(products: seq<Record>, sales: seq<StoredSale>) returns (updates: seq<Update>)
    ensures updates == Updates(sales, NameMap(products))
  {
    var productMap := BuildProductMap(products);
    updates := [];
    var i := 0;
    while i < |sales|
      invariant 0 <= i <= |sales|
      invariant updates == Updates(sales[..i], productMap)
    {
      assert sales[..i + 1][..i] == sales[..i];
      var sale := sales[i];
      if sale.products.Entries? {
        var newProducts, updated := FillEntries(sale.products.entries, productMap);
        if updated {
          updates := updates + [Update(sale.id, newProducts)];
        }
      }
      i := i + 1;
    }
    assert sales[..i] == sales;
  }

  /** A sale's lines change exactly when one of them can be filled, which is when
      `updated` is set. */
  lemma ChangedIffFillable(entries: seq<Record>, productMap: map<string, Value>)
    ensures FillAll(entries, productMap) != entries <==> AnyFillable(entries, productMap)
  {
    var r := FillAll(entries, productMap);
    if AnyFillable(entries, productMap) {
      var i :| 0 <= i < |entries| && Fillable(entries[i], productMap);
      assert !Fillable(r[i], productMap);
    } else {
      assert r == entries;
    }
  }

  /** Filling twice is filling once: a filled line has a truthy name. */
  lemma FillIdempotent(entries: seq<Record>, productMap: map<string, Value>)
    ensures FillAll(FillAll(entries, productMap), productMap) == FillAll(entries, productMap)
    ensures !AnyFillable(FillAll(entries, productMap), productMap)
  {
  }

  /** The sales as the updates leave them. */
  function Apply(sales: seq<StoredSale>, productMap: map<string, Value>): seq<StoredSale> {
    seq(|sales|, i requires 0 <= i < |sales| =>
      match sales[i].products
      case Entries(e) => StoredSale(sales[i].id, Entries(FillAll(e, productMap)))
      case NotAnArray => sales[i])
  }

  /** Running the migration again on the migrated sales, with the same products,
      issues no update. */
  lemma {:induction false} SecondRunDoesNothing(sales: seq<StoredSale>, productMap: map<string, Value>)
    ensures Updates(Apply(sales, productMap), productMap) == []
  {
    if sales != [] {
      var init := sales[..|sales| - 1];
      SecondRunDoesNothing(init, productMap);
      var applied := Apply(sales, productMap);
      assert applied[..|applied| - 1] == Apply(init, productMap);
      var last := sales[|sales| - 1];
      if last.products.Entries? {
        FillIdempotent(last.products.entries, productMap);
      }
    }
  }

  /** Sale `sale` issues the update `u`: its products are an array with a line to
      fill, and `u` carries its id and the filled lines. */
  predicate Issues(sale: StoredSale, productMap: map<string, Value>, u: Update) {
    sale.id == u.saleId && sale.products.Entries? &&
    AnyFillable(sale.products.entries, productMap) &&
    u.products == FillAll(sale.products.entries, productMap)
  }

  /** An update is issued for a sale exactly when its products are an array with
      a line to fill, and it carries the filled lines. */
  lemma {:induction false} UpdatesExact(sales: seq<StoredSale>, productMap: map<string, Value>, u: Update)
    ensures u in Updates(sales, productMap) <==> exists i :: 0 <= i < |sales| && Issues(sales[i], productMap, u)
  {
    if sales != [] {
      var init, last := sales[..|sales| - 1], sales[|sales| - 1];
      UpdatesExact(init, productMap, u);
      var tail := if last.products.Entries? && AnyFillable(last.products.entries, productMap)
        then [Update(last.id, FillAll(last.products.entries, productMap))] else [];
      assert Updates(sales, productMap) == Updates(init, productMap) + tail;
      assert u in tail <==> Issues(last, productMap, u);
      if u in Updates(sales, productMap) {
        if u in tail {
          assert Issues(sales[|sales| - 1], productMap, u);
        } else {
          var i :| 0 <= i < |init| && Issues(init[i], productMap, u);
          assert Issues(sales[i], productMap, u);
        }
      } else {
        forall i | 0 <= i < |sales| ensures !Issues(sales[i], productMap, u) {
          if i < |init| {
            assert init[i] == sales[i];
          }
        }
      }
    }
  }
}
