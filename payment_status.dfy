/** The payment-status chart of `src/components/Charts/PaymentStatus.jsx`: counts
    and amounts per invoice status, the pie slices and the summary. */
module PaymentStatus {
  import opened Js
  import opened Rows

  /** The three keys of the `statusCount` and `statusAmount` dictionaries. */
  datatype Status = Paid | Unpaid | Proforma

  /** One pie slice; its `status` is the entry it was built from, whose `Key` is
      the string the source stores there. */
  datatype Slice = Slice(name: string, value: nat, amount: Numeric, color: string, status: Status)

  /** The per-status amounts, which the summary carries only when there is data. */
  datatype Amounts = Amounts(paid: Numeric, unpaid: Numeric, proforma: Numeric)

  datatype Summary = Summary(total: nat, paid: nat, unpaid: nat, proforma: nat, amounts: Option<Amounts>)

  /** What `formatPercentage` shows: `'0%'` for a zero total; otherwise the ratio,
      whose decimal formatting is not part of this model. */
  datatype Percentage = ZeroPercent | Ratio(value: nat, total: nat)

  function Key(s: Status): string {
    match s
    case Paid => "paid"
    case Unpaid => "unpaid"
    case Proforma => "proforma"
  }

  function Name(s: Status): string {
    match s
    case Paid => "Payées"
    case Unpaid => "Non payées"
    case Proforma => "Pro forma"
  }

  function Color(s: Status): string {
    match s
    case Paid => "#2e7d32"
    case Unpaid => "#d32f2f"
    case Proforma => "#1976d2"
  }

  /** `sale.status || 'unpaid'`, as the dictionary key it is used as. */
  function StatusKey(sale: Record): string {
    ToString(Or(Get(sale, "status"), Str("unpaid")))
  }

  /** The dictionary entry a sale is counted under, if its key is one of the three. */
  function StatusOf(sale: Record): (r: Option<Status>)
    ensures r.Some? <==> StatusKey(sale) in {"paid", "unpaid", "proforma"}
    ensures r.Some? ==> Key(r.value) == StatusKey(sale)
  {
    var k := StatusKey(sale);
    if k == "paid" then Some(Paid)
    else if k == "unpaid" then Some(Unpaid)
    else if k == "proforma" then Some(Proforma)
    else None
  }

  /** The number of sales counted under `s`. */
  function Count(data: seq<Record>, s: Status): nat {
    if data == [] then 0
    else Count(data[..|data| - 1], s) + (if StatusOf(data[|data| - 1]) == Some(s) then 1 else 0)
  }

  /** The sum of the amounts (`quantity * price`) of those sales; one NaN amount
      makes the sum NaN. */
  function Amount(data: seq<Record>, s: Status): Numeric {
    if data == [] then Int(0)
    else
      var last := data[|data| - 1];
      if StatusOf(last) == Some(s) then Add(Amount(data[..|data| - 1], s), LineAmount(last))
      else Amount(data[..|data| - 1], s)
  }

  function SliceOf(data: seq<Record>, s: Status): Slice {
    Slice(Name(s), Count(data, s), Amount(data, s), Color(s), s)
  }

  /** `.filter(item => item.value > 0)`: the slices with a positive count, in order. */
  function NonEmpty(slices: seq<Slice>): (r: seq<Slice>)
    ensures forall x :: x in r <==> x in slices && x.value > 0
    ensures |r| <= |slices|
  {
    if slices == [] then []
    else (if slices[0].value > 0 then [slices[0]] else []) + NonEmpty(slices[1..])
  }

  /** The chart: the slices paid, unpaid and pro forma, in that fixed order, with the
      empty ones filtered out. */
  function Chart(data: seq<Record>): seq<Slice> {
    NonEmpty([SliceOf(data, Paid), SliceOf(data, Unpaid), SliceOf(data, Proforma)])
  }

  function SummaryOf(data: seq<Record>): Summary {
    Summary(|data|, Count(data, Paid), Count(data, Unpaid), Count(data, Proforma),
            Some(Amounts(Amount(data, Paid), Amount(data, Unpaid), Amount(data, Proforma))))
  }

  /** `processChartData`: no data (missing or empty) gives an empty chart and an
      all-zero summary; otherwise each sale is tallied under its status, then the
      slices and the summary are built from the tallies. */
  method ProcessChartData(data: Option<seq<Record>>) returns (chart: seq<Slice>, summary: Summary)
    ensures data.None? || data.value == [] ==> chart == [] && summary == Summary(0, 0, 0, 0, None)
    ensures data.Some? && data.value != [] ==> chart == Chart(data.value) && summary == SummaryOf(data.value)
  {
    if data.None? || data.value == [] {
      return [], Summary(0, 0, 0, 0, None);
    }
    var sales := data.value;
    var counts: map<Status, nat> := map[Paid := 0, Unpaid := 0, Proforma := 0];
    var amounts: map<Status, Numeric> := map[Paid := Int(0), Unpaid := Int(0), Proforma := Int(0)];
    var i := 0;
    assert sales[..0] == [];
    while i < |sales|
      invariant 0 <= i <= |sales|
      invariant Paid in counts && Unpaid in counts && Proforma in counts
      invariant Paid in amounts && Unpaid in amounts && Proforma in amounts
      invariant forall s :: s in counts ==> counts[s] == Count(sales[..i], s)
      invariant forall s :: s in amounts ==> amounts[s] == Amount(sales[..i], s)
    {
      var sale := sales[i];
      forall s ensures Count(sales[..i + 1], s) == Count(sales[..i], s) + (if StatusOf(sale) == Some(s) then 1 else 0)
        && Amount(sales[..i + 1], s) == if StatusOf(sale) == Some(s) then Add(Amount(sales[..i], s), LineAmount(sale)) else Amount(sales[..i], s)
      {
        TallyStep(sales, i, s);
      }
      var status := StatusOf(sale);
      if status.Some? {
        var s := status.value;
        counts := counts[s := counts[s] + 1];
        amounts := amounts[s := Add(amounts[s], LineAmount(sale))];
      }
      i := i + 1;
    }
    assert sales[..i] == sales;
    var slices := [
      Slice(Name(Paid), counts[Paid], amounts[Paid], Color(Paid), Paid),
      Slice(Name(Unpaid), counts[Unpaid], amounts[Unpaid], Color(Unpaid), Unpaid),
      Slice(Name(Proforma), counts[Proforma], amounts[Proforma], Color(Proforma), Proforma)];
    chart := NonEmpty(slices);
    summary := Summary(|sales|, counts[Paid], counts[Unpaid], counts[Proforma],
                       Some(Amounts(amounts[Paid], amounts[Unpaid], amounts[Proforma])));
  }

  /** What one more sale does to the count and the amount of a status. */
  lemma TallyStep(sales: seq<Record>, i: nat, s: Status)
    requires i < |sales|
    ensures Count(sales[..i + 1], s) == Count(sales[..i], s) + (if StatusOf(sales[i]) == Some(s) then 1 else 0)
    ensures Amount(sales[..i + 1], s) ==
      if StatusOf(sales[i]) == Some(s) then Add(Amount(sales[..i], s), LineAmount(sales[i])) else Amount(sales[..i], s)
  {
    assert sales[..i + 1][..i] == sales[..i];
  }

  /** `formatPercentage(value, total)`. */
  function FormatPercentage(value: nat, total: nat): (r: Percentage)
    ensures r == ZeroPercent <==> total == 0
  {
    if total == 0 then ZeroPercent else Ratio(value, total)
  }

  /** A sale without a status, or with any falsy one, is counted as unpaid. */
  lemma MissingStatusIsUnpaid(sale: Record)
    requires !Truthy(Get(sale, "status"))
    ensures StatusOf(sale) == Some(Unpaid)
  {
  }

  /** The number of sales counted under one of the three statuses. */
  function Tallied(data: seq<Record>): nat {
    Count(data, Paid) + Count(data, Unpaid) + Count(data, Proforma)
  }

  /** The last sale adds one to the tally when it has one of the three statuses. */
  lemma TalliedStep(data: seq<Record>)
    requires data != []
    ensures Tallied(data) == Tallied(data[..|data| - 1]) + (if StatusOf(data[|data| - 1]).Some? then 1 else 0)
  {
  }

  /** The three counts never exceed the number of sales (`summary.total`), and they
      add up to it exactly when every sale has one of the three statuses. */
  lemma {:induction false} CountsWithinTotal(data: seq<Record>)
    ensures Count(data, Paid) + Count(data, Unpaid) + Count(data, Proforma) <= |data|
    ensures Count(data, Paid) + Count(data, Unpaid) + Count(data, Proforma) == |data| <==>
            forall i :: 0 <= i < |data| ==> StatusOf(data[i]).Some?
  {
    if data != [] {
      var init := data[..|data| - 1];
      CountsWithinTotal(init);
      TalliedStep(data);
      assert forall i :: 0 <= i < |init| ==> init[i] == data[i];
    }
  }

  /** Counting and summing split over a concatenation: each sale contributes its
      own share, whichever list it is in. */
  lemma {:induction false} TalliesSplit(a: seq<Record>, b: seq<Record>, s: Status)
    ensures Count(a + b, s) == Count(a, s) + Count(b, s)
    ensures Amount(a + b, s) == Add(Amount(a, s), Amount(b, s))
  {
    if b == [] {
      assert a + b == a;
      AddLaws(Amount(a, s), Int(0), Int(0));
    } else {
      var init, last := b[..|b| - 1], b[|b| - 1];
      assert (a + b)[..|a + b| - 1] == a + init;
      assert (a + b)[|a + b| - 1] == last;
      TalliesSplit(a, init, s);
      if StatusOf(last) == Some(s) {
        AddLaws(Amount(a, s), Amount(init, s), LineAmount(last));
      }
    }
  }

  /** A sale whose status is none of the three changes neither the chart nor the
      counts and amounts of the summary; it is only counted in the total. */
  lemma UnknownStatusIgnored(data: seq<Record>, sale: Record)
    requires StatusOf(sale).None?
    ensures Chart(data + [sale]) == Chart(data)
    ensures var before, after := SummaryOf(data), SummaryOf(data + [sale]);
      after == before.(total := before.total + 1)
  {
    assert (data + [sale])[..|data|] == data;
  }

  /** The amount under a status is a number exactly when every sale counted under
      it has a numeric quantity and price; it is then the sum of their amounts. */
  lemma {:induction false} AmountNumeric(data: seq<Record>, s: Status)
    ensures Amount(data, s).Int? <==>
            forall i :: 0 <= i < |data| && StatusOf(data[i]) == Some(s) ==> LineAmount(data[i]).Int?
  {
    if data != [] {
      AmountNumeric(data[..|data| - 1], s);
      NumericStep(data, s);
    }
    assert NumericUnder(data, s) <==>
      forall i :: 0 <= i < |data| && StatusOf(data[i]) == Some(s) ==> LineAmount(data[i]).Int?;
  }

  /** Every sale counted under `s` has a numeric amount. */
  predicate NumericUnder(data: seq<Record>, s: Status) {
    forall i :: 0 <= i < |data| && StatusOf(data[i]) == Some(s) ==> LineAmount(data[i]).Int?
  }

  lemma NumericStep(data: seq<Record>, s: Status)
    requires data != []
    ensures NumericUnder(data, s) <==>
      NumericUnder(data[..|data| - 1], s) && (StatusOf(data[|data| - 1]) == Some(s) ==> LineAmount(data[|data| - 1]).Int?)
  {
    var init, n := data[..|data| - 1], |data| - 1;
    if NumericUnder(data, s) {
      forall i | 0 <= i < n && StatusOf(init[i]) == Some(s) ensures LineAmount(init[i]).Int? {
        assert init[i] == data[i];
      }
    }
    if NumericUnder(init, s) && (StatusOf(data[n]) == Some(s) ==> LineAmount(data[n]).Int?) {
      forall i | 0 <= i < |data| && StatusOf(data[i]) == Some(s) ensures LineAmount(data[i]).Int? {
        if i < n {
          assert init[i] == data[i];
        }
      }
    }
  }

  /** The position of a status in the fixed order paid, unpaid, pro forma. */
  function Rank(s: Status): int {
    match s
    case Paid => 0
    case Unpaid => 1
    case Proforma => 2
  }

  /** The slices are in strictly increasing status order. */
  predicate RankOrdered(c: seq<Slice>) {
    forall i, j :: 0 <= i < j < |c| ==> Rank(c[i].status) < Rank(c[j].status)
  }

  /** The filter keeps an ordered list of slices ordered. */
  lemma {:induction false} NonEmptyOrdered(s: seq<Slice>)
    requires RankOrdered(s)
    ensures RankOrdered(NonEmpty(s))
  {
    if s != [] {
      var rest := s[1..];
      TailOrdered(s);
      NonEmptyOrdered(rest);
      var r := NonEmpty(rest);
      KeptAfterHead(s);
      if s[0].value > 0 {
        ConsOrdered(s[0], r);
      } else {
        assert NonEmpty(s) == r;
      }
    }
  }

  /** A slice placed before an ordered run of later statuses keeps it ordered. */
  lemma ConsOrdered(h: Slice, r: seq<Slice>)
    requires RankOrdered(r)
    requires forall y :: y in r ==> Rank(h.status) < Rank(y.status)
    ensures RankOrdered([h] + r)
  {
    var c := [h] + r;
    forall i, j | 0 <= i < j < |c| ensures Rank(c[i].status) < Rank(c[j].status) {
      if i == 0 {
        assert c[j] in r;
      } else {
        assert c[i] == r[i - 1] && c[j] == r[j - 1];
      }
    }
  }

  lemma TailOrdered(s: seq<Slice>)
    requires s != [] && RankOrdered(s)
    ensures RankOrdered(s[1..])
  {
    var rest := s[1..];
    forall i, j | 0 <= i < j < |rest| ensures Rank(rest[i].status) < Rank(rest[j].status) {
      assert rest[i] == s[i + 1] && rest[j] == s[j + 1];
    }
  }

  /** What the filter keeps after the head comes after it in the order. */
  lemma KeptAfterHead(s: seq<Slice>)
    requires s != [] && RankOrdered(s)
    ensures forall y :: y in NonEmpty(s[1..]) ==> Rank(s[0].status) < Rank(y.status)
  {
    forall y | y in NonEmpty(s[1..]) ensures Rank(s[0].status) < Rank(y.status) {
      var k :| 0 <= k < |s[1..]| && s[1..][k] == y;
      assert s[k + 1] == y;
    }
  }

  /** Filtering three slices keeps them in their order. */
  lemma FilterKeepsOrder(p: Slice, u: Slice, f: Slice)
    requires p.status == Paid && u.status == Unpaid && f.status == Proforma
    ensures RankOrdered(NonEmpty([p, u, f]))
  {
    NonEmptyOrdered([p, u, f]);
  }

  /** The chart holds a slice for a status exactly when some sale has it, each
      slice counts at least one sale, and the slices keep the order paid, unpaid,
      pro forma. */
  lemma ChartShape(data: seq<Record>, s: Status)
    ensures (exists x :: x in Chart(data) && x.status == s) <==> Count(data, s) > 0
    ensures forall x :: x in Chart(data) ==> x.value > 0
    ensures forall i, j :: 0 <= i < j < |Chart(data)| ==> Rank(Chart(data)[i].status) < Rank(Chart(data)[j].status)
  {
    if Count(data, s) > 0 {
      assert SliceOf(data, s) in Chart(data);
    }
    var p, u, f := SliceOf(data, Paid), SliceOf(data, Unpaid), SliceOf(data, Proforma);
    FilterKeepsOrder(p, u, f);
    assert Chart(data) == NonEmpty([p, u, f]);
  }
}
