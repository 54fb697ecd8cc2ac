/** The invoice of one sale: tax, net to pay, the rows of the printed table and the
    exported PDF, as `src/components/Invoice.jsx` computes them. */
module Invoice {
  import opened Js

  /** `Math.round(t * 0.18)` for a whole amount `t`: the integer nearest to 18% of
      `t`, a half rounded up. It is never negative and never above `t` for `t >= 0`. */
  function Tva(t: int): (r: int)
    ensures 100 * r - 50 <= 18 * t < 100 * r + 50
    ensures 0 <= t ==> 0 <= r <= t
  {
    (18 * t + 50) / 100
  }

  /** `Math.round(x * 0.18)` on a JavaScript number: NaN stays NaN. */
  function TvaOf(n: Numeric): Numeric {
    if n.Int? then Int(Tva(n.i)) else NaN
  }

  /** The two derived figures of an invoice: the TVA and the net to pay. */
  datatype Figures = Figures(tva: Numeric, net: Value)

  /** The figures shown on screen: `sale.total` is used as it is. */
  function ScreenFigures(sale: Record): Figures {
    var total := Get(sale, "total");
    var tva := TvaOf(ToNumber(total));
    Figures(tva, Plus(total, Num(tva)))
  }

  /** The figures written to the PDF: a falsy `sale.total` counts as 0. */
  function PdfFigures(sale: Record): Figures {
    var total := Or(Get(sale, "total"), Num(Int(0)));
    var tva := TvaOf(ToNumber(total));
    Figures(tva, Plus(total, Num(tva)))
  }

  /** For a whole-number total `t`, the TVA is 18% of `t` rounded and the net to pay
      is `t` plus that TVA, hence at least `t` when `t` is not negative. */
  lemma NumericTotalFigures(sale: Record, t: int)
    requires Get(sale, "total") == Num(Int(t))
    ensures ScreenFigures(sale) == Figures(Int(Tva(t)), Num(Int(t + Tva(t))))
    ensures 0 <= t ==> t <= t + Tva(t)
  {
  }

  /** The PDF figures never fail: a missing, null, zero, NaN or empty total gives a
      TVA of 0 and a net of 0. */
  lemma PdfFallback(sale: Record)
    requires !Truthy(Get(sale, "total"))
    ensures PdfFigures(sale) == Figures(Int(0), Num(Int(0)))
  {
  }

  /** The screen and the PDF show the same TVA and net to pay exactly when the
      total is not `undefined`, NaN or the empty string; in particular they agree
      for every numeric total. */
  lemma ScreenPdfAgree(sale: Record)
    ensures ScreenFigures(sale) == PdfFigures(sale) <==>
      Get(sale, "total") != Undefined && Get(sale, "total") != Num(NaN) && Get(sale, "total") != Str("")
  {
    var total := Get(sale, "total");
    if total == Undefined || total == Num(NaN) {
      assert ScreenFigures(sale).tva == NaN;
      assert PdfFigures(sale).tva == Int(0);
    } else if total == Str("") {
      assert ScreenFigures(sale).net.Str?;
      assert PdfFigures(sale).net.Num?;
    } else if Truthy(total) {
      assert Or(total, Num(Int(0))) == total;
    } else {
      FalsyNumberLikeZero(sale);
    }
  }

  /** The falsy totals other than `undefined`, NaN and `''` (that is `null`, `false`
      and 0) give the same figures as a total of 0 on screen and in the PDF. */
  lemma FalsyNumberLikeZero(sale: Record)
    requires var total := Get(sale, "total");
      total == Null || total == Bool(false) || total == Num(Int(0))
    ensures ScreenFigures(sale) == Figures(Int(0), Num(Int(0)))
    ensures PdfFigures(sale) == Figures(Int(0), Num(Int(0)))
  {
    assert Tva(0) == 0;
  }

  // ---------------------------------------------------------------------------
  // Table cells

  /** A table cell: a value rendered as it is, or an amount rendered as
      `amount.toLocaleString() + ' FCFA'` (locale formatting is not modelled). */
  datatype Cell = Plain(v: Value) | Money(amount: Value)

  /** The empty cell `''`. */
  const Blank: Cell := Plain(Str(""))

  /** `x?.key` on an object that may be absent. */
  function Field(r: Option<Record>, key: string): Value {
    if r.Some? then Get(r.value, key) else Undefined
  }

  /** The five source fields of the line-item row: product id, product name,
      quantity, unit price and sale total. */
  function LineSources(sale: Record, product: Option<Record>): seq<Value> {
    [Field(product, "id"), Field(product, "name"), Get(sale, "quantity"),
     Get(sale, "price"), Get(sale, "total")]
  }

  /** An amount cell of the PDF: empty when the amount is falsy. */
  function MoneyOrBlank(v: Value): Cell {
    if Truthy(v) then Money(v) else Blank
  }

  /** The single line-item row of the PDF table, with its empty-cell fallbacks. */
  function PdfLineRow(sale: Record, product: Option<Record>): seq<Cell> {
    [Plain(Or(Field(product, "id"), Str(""))),
     Plain(Or(Field(product, "name"), Str(""))),
     Plain(Or(Get(sale, "quantity"), Str(""))),
     MoneyOrBlank(Get(sale, "price")),
     MoneyOrBlank(Get(sale, "total"))]
  }

  /** The body of the PDF line-item table: one row, for the single product. */
  function PdfBody(sale: Record, product: Option<Record>): (rows: seq<seq<Cell>>)
    ensures |rows| == 1 && |rows[0]| == 5
  {
    [PdfLineRow(sale, product)]
  }

  /** Each PDF line-item cell is empty exactly when its source field is missing or
      falsy; otherwise it shows that field. */
  lemma PdfCellFallback(sale: Record, product: Option<Record>, k: nat)
    requires k < 5
    ensures PdfBody(sale, product)[0][k] == Blank <==> !Truthy(LineSources(sale, product)[k])
    ensures Truthy(LineSources(sale, product)[k]) ==>
      PdfBody(sale, product)[0][k] in {Plain(LineSources(sale, product)[k]), Money(LineSources(sale, product)[k])}
  {
  }

  /** The line-item row on screen: the product is required there (`product.id`),
      and the fields are shown without fallbacks. */
  function ScreenLineRow(sale: Record, product: Record): seq<Cell> {
    [Plain(Get(product, "id")), Plain(Get(product, "name")), Plain(Get(sale, "quantity")),
     Money(Get(sale, "price")), Money(Get(sale, "total"))]
  }

  /** When every source field is present and truthy, the PDF shows the same line
      item as the screen. */
  lemma LineRowsAgree(sale: Record, product: Record)
    requires forall k :: 0 <= k < 5 ==> Truthy(LineSources(sale, Some(product))[k])
    ensures PdfBody(sale, Some(product)) == [ScreenLineRow(sale, product)]
  {
    assert Truthy(LineSources(sale, Some(product))[0]);
    assert Truthy(LineSources(sale, Some(product))[1]);
    assert Truthy(LineSources(sale, Some(product))[2]);
    assert Truthy(LineSources(sale, Some(product))[3]);
    assert Truthy(LineSources(sale, Some(product))[4]);
  }

  /** The totals row of the PDF: total, TVA and net to pay, each empty when falsy. */
  function PdfTotalsRow(sale: Record): seq<Cell> {
    var f := PdfFigures(sale);
    [MoneyOrBlank(Get(sale, "total")), MoneyOrBlank(Num(f.tva)), MoneyOrBlank(f.net)]
  }

  /** For a whole-number total `t`, a totals cell is empty exactly when its figure is 0. */
  lemma TotalsRowBlanks(sale: Record, t: int)
    requires Get(sale, "total") == Num(Int(t))
    ensures var row := PdfTotalsRow(sale);
      (row[0] == Blank <==> t == 0) &&
      (row[1] == Blank <==> Tva(t) == 0) &&
      (row[2] == Blank <==> t + Tva(t) == 0)
  {
    var tva := Tva(t);
    assert PdfFigures(sale) == Figures(Int(tva), Num(Int(t + tva))) by {
      if t == 0 {
        assert Or(Num(Int(t)), Num(Int(0))) == Num(Int(0));
      } else {
        assert Or(Num(Int(t)), Num(Int(0))) == Num(Int(t));
      }
    }
  }

  /** A falsy total leaves the whole totals row empty. */
  lemma TotalsRowOfFalsyTotal(sale: Record)
    requires !Truthy(Get(sale, "total"))
    ensures PdfTotalsRow(sale) == [Blank, Blank, Blank]
  {
    PdfFallback(sale);
  }

  // ---------------------------------------------------------------------------
  // The exported document

  /** `Facture_${sale.client}_${sale.id}.pdf`. */
  function FileName(sale: Record): string {
    "Facture_" + ToString(Get(sale, "client")) + "_" + ToString(Get(sale, "id")) + ".pdf"
  }

  /** The file name is built from the client and the id and nothing else: for
      clients without an underscore, equal names mean equal client and id texts. */
  lemma FileNameDetermines(a: Record, b: Record)
    requires '_' !in ToString(Get(a, "client")) && '_' !in ToString(Get(b, "client"))
    requires FileName(a) == FileName(b)
    ensures ToString(Get(a, "client")) == ToString(Get(b, "client"))
    ensures ToString(Get(a, "id")) == ToString(Get(b, "id"))
  {
    var ca, cb := ToString(Get(a, "client")), ToString(Get(b, "client"));
    var ia, ib := ToString(Get(a, "id")), ToString(Get(b, "id"));
    var n := FileName(a);
    UnderscoreAfterClient(ca, ia);
    UnderscoreAfterClient(cb, ib);
    assert |ca| == |cb|;
    assert ca == n[8..8 + |ca|];
    assert ia == n[9 + |ca|..|n| - 4];
  }

  /** In a file name, the first underscore after the prefix ends the client text. */
  lemma UnderscoreAfterClient(c: string, i: string)
    requires '_' !in c
    ensures var n := "Facture_" + c + "_" + i + ".pdf";
      |n| == 13 + |c| + |i| && n[8 + |c|] == '_' &&
      n[8..8 + |c|] == c && n[9 + |c|..|n| - 4] == i &&
      forall k :: 8 <= k < 8 + |c| ==> n[k] != '_'
  {
    var n := "Facture_" + c + "_" + i + ".pdf";
    forall k | 8 <= k < 8 + |c| ensures n[k] != '_' {
      assert n[k] == c[k - 8];
    }
  }

  /** `Mode de règlement : ${sale.payment_method || ''}`. */
  function PaymentLine(sale: Record): string {
    "Mode de règlement : " + ToString(Or(Get(sale, "payment_method"), Str("")))
  }

  /** The logo step: `addImage` is attempted only for a non-empty string logo, and
      an exception it throws is swallowed, so the logo is then simply missing. */
  function DrawnLogo(logo: Value, addImageThrows: bool): (r: Option<string>)
    ensures r.Some? <==> logo.Str? && logo.s != "" && !addImageThrows
    ensures r.Some? ==> r.value == logo.s
  {
    if Truthy(logo) && logo.Str? && !addImageThrows then Some(logo.s) else None
  }

  /** What `handleDownloadPDF` produces, apart from drawing coordinates, fonts and
      colours. `addImageThrows` stands for the image library rejecting the logo. */
  datatype PdfDocument = PdfDocument(
    logo: Option<string>,
    lineItems: seq<seq<Cell>>,
    totals: seq<Cell>,
    paymentLine: string,
    fileName: string)

  function ExportPdf(sale: Record, product: Option<Record>, logo: Value, addImageThrows: bool): PdfDocument {
    PdfDocument(DrawnLogo(logo, addImageThrows), PdfBody(sale, product), PdfTotalsRow(sale),
      PaymentLine(sale), FileName(sale))
  }

  /** The logo, and any failure while adding it, affect only the logo: the tables,
      the payment line and the file name are the same with or without it. */
  lemma LogoIsolated(sale: Record, product: Option<Record>, logo: Value, addImageThrows: bool)
    ensures ExportPdf(sale, product, logo, addImageThrows) ==
      ExportPdf(sale, product, Undefined, false).(logo := DrawnLogo(logo, addImageThrows))
    ensures ExportPdf(sale, product, logo, addImageThrows).fileName ==
      "Facture_" + ToString(Get(sale, "client")) + "_" + ToString(Get(sale, "id")) + ".pdf"
  {
  }
}
