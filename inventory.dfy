/** The sales overview of `src/components/Inventory.jsx`: the total of the paid
    sales of the period and what each sale card shows. */
module Inventory {
  import opened Js
  import opened Rows

  /** `sale.status === 'paid'`. */
  predicate IsPaid(sale: Record) {
    StrictEquals(Get(sale, "status"), Str("paid"))
  }

  /** The amount of a sale, both in the paid total and on its card: the stored
      total when it is a number greater than zero, `quantity * price` otherwise. */
  function SaleAmount(sale: Record): Numeric {
    var total := ToNumber(Get(sale, "total"));
    if Positive(total) then total else LineAmount(sale)
  }

  /** `.filter(sale => sale.status === 'paid')`: the paid sales, in order. */
  function PaidSales(data: seq<Record>): (r: seq<Record>)
    ensures forall s :: s in r <==> s in data && IsPaid(s)
    ensures |r| <= |data|
  {
    if data == [] then []
    else PaidSales(data[..|data| - 1]) + (if IsPaid(data[|data| - 1]) then [data[|data| - 1]] else [])
  }

  /** `.reduce((sum, sale) => sum + amount(sale), 0)`. */
  function SumAmounts(sales: seq<Record>): Numeric {
    if sales == [] then Int(0) else Add(SumAmounts(sales[..|sales| - 1]), SaleAmount(sales[|sales| - 1]))
  }

  /** `paidSalesTotal`, where a missing result (`data || []`) counts as no sales. */
  function PaidTotal(data: Option<seq<Record>>): (r: Numeric)
    ensures data.None? || data.value == [] ==> r == Int(0)
  {
    match data
    case None => Int(0)
    case Some(sales) => SumAmounts(PaidSales(sales))
  }

  /** The filter and the sum both split over a concatenation. */
  lemma {:induction false} PaidTotalAppend(a: seq<Record>, b: seq<Record>)
    ensures PaidSales(a + b) == PaidSales(a) + PaidSales(b)
    ensures PaidTotal(Some(a + b)) == Add(PaidTotal(Some(a)), PaidTotal(Some(b)))
  {
    SumAppend(PaidSales(a), PaidSales(b));
    FilterAppend(a, b);
  }

  lemma {:induction false} FilterAppend(a: seq<Record>, b: seq<Record>)
    ensures PaidSales(a + b) == PaidSales(a) + PaidSales(b)
  {
    if b == [] {
      assert a + b == a;
    } else {
      var init := b[..|b| - 1];
      assert (a + b)[..|a + b| - 1] == a + init;
      FilterAppend(a, init);
    }
  }

  lemma {:induction false} SumAppend(a: seq<Record>, b: seq<Record>)
    ensures SumAmounts(a + b) == Add(SumAmounts(a), SumAmounts(b))
  {
    if b == [] {
      assert a + b == a;
      AddLaws(SumAmounts(a), Int(0), Int(0));
    } else {
      var init := b[..|b| - 1];
      assert (a + b)[..|a + b| - 1] == a + init;
      SumAppend(a, init);
      AddLaws(SumAmounts(a), SumAmounts(init), SaleAmount(b[|b| - 1]));
    }
  }

  /** A sale that is not paid (unpaid, pro forma or anything else) leaves the
      total unchanged wherever it is in the list; a paid one adds its amount. */
  lemma OneMoreSale(a: seq<Record>, sale: Record, b: seq<Record>)
    ensures !IsPaid(sale) ==> PaidTotal(Some(a + [sale] + b)) == PaidTotal(Some(a + b))
    ensures IsPaid(sale) ==>
      PaidTotal(Some(a + [sale] + b)) == Add(PaidTotal(Some(a + b)), SaleAmount(sale))
  {
    PaidSalesSplit(a, sale, b);
    FilterAppend(a, b);
    if IsPaid(sale) {
      var pa, pb := PaidSales(a), PaidSales(b);
      SumAppend(pa + [sale], pb);
      SumAppend(pa, pb);
      assert (pa + [sale])[..|pa|] == pa;
      var x, y, z := SumAmounts(pa), SaleAmount(sale), SumAmounts(pb);
      assert PaidTotal(Some(a + [sale] + b)) == Add(Add(x, y), z);
      assert PaidTotal(Some(a + b)) == Add(x, z);
      AddLaws(x, y, z);
      AddLaws(x, z, y);
      AddLaws(y, z, Int(0));
    } else {
      assert PaidSales(a) + [] + PaidSales(b) == PaidSales(a) + PaidSales(b);
    }
  }

  /** The paid sales of `a + [sale] + b`: those of `a`, `sale` if it is paid, those of `b`. */
  lemma PaidSalesSplit(a: seq<Record>, sale: Record, b: seq<Record>)
    ensures PaidSales(a + [sale] + b) == PaidSales(a) + (if IsPaid(sale) then [sale] else []) + PaidSales(b)
  {
    FilterAppend(a + [sale], b);
    FilterAppend(a, [sale]);
    assert [sale][..0] == [];
  }

  /** The total is a number exactly when every paid sale has a numeric amount. */
  lemma {:induction false} PaidTotalNumeric(data: seq<Record>)
    ensures PaidTotal(Some(data)).Int? <==> forall s :: s in data && IsPaid(s) ==> SaleAmount(s).Int?
  {
    SumNumeric(PaidSales(data));
  }

  lemma {:induction false} SumNumeric(sales: seq<Record>)
    ensures SumAmounts(sales).Int? <==> forall s :: s in sales ==> SaleAmount(s).Int?
  {
    if sales != [] {
      var init := sales[..|sales| - 1];
      SumNumeric(init);
      assert sales == init + [sales[|sales| - 1]];
    }
  }

  /** The status shown on a sale card. */
  datatype StatusLabel = StatusLabel(className: string, text: string, icon: string)

  /** "Payée" for a paid sale; "Non payée" for every other status. */
  function Label(sale: Record): (r: StatusLabel)
    ensures r.text == "Payée" <==> IsPaid(sale)
    ensures r.text == "Non payée" <==> !IsPaid(sale)
  {
    if IsPaid(sale) then StatusLabel("sale-value sale-status-payee", "Payée", "✅")
    else StatusLabel("sale-value sale-status-attente", "Non payée", "❌")
  }
}
