/** The sales-over-time chart of `src/components/Charts/DailySales.jsx`: sales are
    grouped into buckets by a date key, each bucket sums the amounts and counts
    the sales, the buckets are ordered and the last seven are kept.

    The key is derived from `created_at` with locale date formatting that depends on
    the time range; here it is the parameter `keyOf`. */
module DailySales {
  import opened Js
  import opened Rows

  /** One bar: the key, the summed amount and the number of sales. */
  datatype Bucket = Bucket(date: string, total: Numeric, count: nat)

  /** The keys in the order they first appear, which is the order in which
      `salesByDate` receives them and `Object.values` returns its buckets. */
  function Keys(data: seq<Record>, keyOf: Record -> string): seq<string> {
    if data == [] then []
    else
      var init, k := data[..|data| - 1], keyOf(data[|data| - 1]);
      Keys(init, keyOf) + (if k in Keys(init, keyOf) then [] else [k])
  }

  /** The number of sales with key `k`. */
  function CountOf(data: seq<Record>, keyOf: Record -> string, k: string): nat {
    if data == [] then 0
    else CountOf(data[..|data| - 1], keyOf, k) + (if keyOf(data[|data| - 1]) == k then 1 else 0)
  }

  /** The sum of the amounts (`quantity * price`) of the sales with key `k`. */
  function TotalOf(data: seq<Record>, keyOf: Record -> string, k: string): Numeric {
    if data == [] then Int(0)
    else
      var last := data[|data| - 1];
      if keyOf(last) == k then Add(TotalOf(data[..|data| - 1], keyOf, k), LineAmount(last))
      else TotalOf(data[..|data| - 1], keyOf, k)
  }

  function BucketOf(data: seq<Record>, keyOf: Record -> string, k: string): Bucket {
    Bucket(k, TotalOf(data, keyOf, k), CountOf(data, keyOf, k))
  }

  /** The buckets of the keys `keys`, in that order. */
  function BucketsFor(keys: seq<string>, data: seq<Record>, keyOf: Record -> string): (r: seq<Bucket>)
    ensures |r| == |keys|
    ensures forall j :: 0 <= j < |keys| ==> r[j] == BucketOf(data, keyOf, keys[j])
  {
    if keys == [] then []
    else BucketsFor(keys[..|keys| - 1], data, keyOf) + [BucketOf(data, keyOf, keys[|keys| - 1])]
  }

  /** The buckets before sorting, one per key, in first-appearance order. */
  function Buckets(data: seq<Record>, keyOf: Record -> string): seq<Bucket> {
    BucketsFor(Keys(data, keyOf), data, keyOf)
  }

  /** The series shown: the buckets, sorted by key except in the daily view, of
      which the last seven are kept. */
  function Series(data: seq<Record>, daily: bool, keyOf: Record -> string): seq<Bucket> {
    var buckets := Buckets(data, keyOf);
    LastSeven(if daily then buckets else Sort(buckets))
  }

  /** `processChartData`: missing or empty data gives an empty series. Otherwise
      each sale's amount is added to the bucket of its key, creating the bucket
      (total 0, count 0) the first time the key is seen; the buckets are then
      sorted and cut down to the last seven. */
  method ProcessChartData(data: Option<seq<Record>>, daily: bool, keyOf: Record -> string)
    returns (series: seq<Bucket>)
    ensures data.None? || data.value == [] ==> series == []
    ensures data.Some? && data.value != [] ==> series == Series(data.value, daily, keyOf)
  {
    if data.None? || data.value == [] {
      return [];
    }
    var sales := data.value;
    var order: seq<string> := [];
    var salesByDate: map<string, Bucket> := map[];
    var i := 0;
    assert sales[..0] == [];
    while i < |sales|
      invariant 0 <= i <= |sales|
      invariant order == Keys(sales[..i], keyOf)
      invariant forall k :: k in salesByDate <==> k in order
      invariant forall k :: k in salesByDate ==> salesByDate[k] == BucketOf(sales[..i], keyOf, k)
    {
      var sale := sales[i];
      var key := keyOf(sale);
      var total := LineAmount(sale);
      StepFacts(sales, i, keyOf);
      if key !in salesByDate {
        KeyAbsent(sales[..i], keyOf, key);
        salesByDate := salesByDate[key := Bucket(key, Int(0), 0)];
        order := order + [key];
      }
      var b := salesByDate[key];
      salesByDate := salesByDate[key := b.(total := Add(b.total, total), count := b.count + 1)];
      i := i + 1;
    }
    assert sales[..i] == sales;
    var processed := seq(|order|, j requires 0 <= j < |order| => salesByDate[order[j]]);
    CollectBuckets(order, salesByDate, sales, keyOf);
    assert processed == Buckets(sales, keyOf);
    if !daily {
      processed := Sort(processed);
    }
    if |processed| > 7 {
      processed := processed[|processed| - 7..];
    }
    return processed;
  }

  /** What one more sale does to the keys and to the buckets. */
  lemma StepFacts(sales: seq<Record>, i: nat, keyOf: Record -> string)
    requires i < |sales|
    ensures var prefix, x := sales[..i], sales[i];
      Keys(sales[..i + 1], keyOf) ==
        Keys(prefix, keyOf) + (if keyOf(x) in Keys(prefix, keyOf) then [] else [keyOf(x)])
    ensures var prefix, x := sales[..i], sales[i];
      forall k :: BucketOf(sales[..i + 1], keyOf, k) ==
        if k == keyOf(x) then Bucket(k, Add(TotalOf(prefix, keyOf, k), LineAmount(x)), CountOf(prefix, keyOf, k) + 1)
        else BucketOf(prefix, keyOf, k)
  {
    var prefix, x := sales[..i], sales[i];
    assert sales[..i + 1] == prefix + [x];
    assert (prefix + [x])[..|prefix|] == prefix;
    forall k ensures BucketOf(prefix + [x], keyOf, k) ==
      if k == keyOf(x) then Bucket(k, Add(TotalOf(prefix, keyOf, k), LineAmount(x)), CountOf(prefix, keyOf, k) + 1)
      else BucketOf(prefix, keyOf, k)
    {
      BucketOfStep(prefix, x, keyOf, k);
    }
  }

  /** The buckets the loop collected, listed in key order, are `Buckets`. */
  lemma CollectBuckets(order: seq<string>, m: map<string, Bucket>, data: seq<Record>, keyOf: Record -> string)
    requires order == Keys(data, keyOf)
    requires forall k :: k in m <==> k in order
    requires forall k :: k in m ==> m[k] == BucketOf(data, keyOf, k)
    ensures |order| == |Buckets(data, keyOf)|
    ensures forall j :: 0 <= j < |order| ==> order[j] in m && m[order[j]] == Buckets(data, keyOf)[j]
  {
  }

  /** A key absent from the first-appearance list has no sales, hence a bucket
      that starts at total 0 and count 0. */
  lemma {:induction false} KeyAbsent(data: seq<Record>, keyOf: Record -> string, k: string)
    requires k !in Keys(data, keyOf)
    ensures CountOf(data, keyOf, k) == 0 && TotalOf(data, keyOf, k) == Int(0)
  {
    if data != [] {
      KeyAbsent(data[..|data| - 1], keyOf, k);
    }
  }

  /** `slice(-7)` when there are more than seven buckets. */
  function LastSeven(s: seq<Bucket>): (r: seq<Bucket>)
    ensures |r| == if |s| > 7 then 7 else |s|
    ensures r == s[|s| - |r|..]
  {
    if |s| > 7 then s[|s| - 7..] else s
  }

  // ---------------------------------------------------------------------------
  // Ordering of the keys: `localeCompare`, taken here as the lexicographic order
  // of code points.

  predicate LessEq(a: string, b: string) {
    a == [] || (b != [] && (a[0] < b[0] || (a[0] == b[0] && LessEq(a[1..], b[1..]))))
  }

  lemma {:induction false} LessEqTotal(a: string, b: string)
    ensures LessEq(a, b) || LessEq(b, a)
  {
    if a != [] && b != [] && a[0] == b[0] {
      LessEqTotal(a[1..], b[1..]);
    }
  }

  lemma {:induction false} LessEqTransitive(a: string, b: string, c: string)
    requires LessEq(a, b) && LessEq(b, c)
    ensures LessEq(a, c)
  {
    if a != [] && a[0] == b[0] && b[0] == c[0] {
      LessEqTransitive(a[1..], b[1..], c[1..]);
    }
  }

  predicate SortedByDate(s: seq<Bucket>) {
    forall i, j :: 0 <= i < j < |s| ==> LessEq(s[i].date, s[j].date)
  }

  /** Places `x` before the first element it does not follow. */
  function Insert(x: Bucket, s: seq<Bucket>): seq<Bucket> {
    if s == [] then [x]
    else if LessEq(x.date, s[0].date) then [x] + s
    else [s[0]] + Insert(x, s[1..])
  }

  /** The sort of `processedData` with the comparator `a.date.localeCompare(b.date)`,
      as a stable insertion sort. */
  function Sort(s: seq<Bucket>): seq<Bucket> {
    if s == [] then [] else Insert(s[0], Sort(s[1..]))
  }

  lemma {:induction false} InsertContents(x: Bucket, s: seq<Bucket>)
    ensures multiset(Insert(x, s)) == multiset(s) + multiset{x}
    ensures |Insert(x, s)| == |s| + 1
  {
    if s != [] && !LessEq(x.date, s[0].date) {
      InsertContents(x, s[1..]);
      assert s == [s[0]] + s[1..];
    }
  }

  lemma {:induction false} InsertSorted(x: Bucket, s: seq<Bucket>)
    requires SortedByDate(s)
    ensures SortedByDate(Insert(x, s))
  {
    if s != [] {
      if LessEq(x.date, s[0].date) {
        forall j | 1 < j < |s| + 1 ensures LessEq(([x] + s)[0].date, ([x] + s)[j].date) {
          LessEqTransitive(x.date, s[0].date, s[j - 1].date);
        }
      } else {
        LessEqTotal(x.date, s[0].date);
        InsertSorted(x, s[1..]);
        InsertContents(x, s[1..]);
        var r := Insert(x, s[1..]);
        forall j | 0 <= j < |r| ensures LessEq(s[0].date, r[j].date) {
          assert r[j] in multiset(s[1..]) + multiset{x};
          if r[j] in multiset(s[1..]) {
            var k :| 0 <= k < |s[1..]| && s[1..][k] == r[j];
            assert s[k + 1] == r[j];
          }
        }
      }
    }
  }

  /** The sort returns the same buckets, ordered by key. */
  lemma {:induction false} SortCorrect(s: seq<Bucket>)
    ensures SortedByDate(Sort(s))
    ensures multiset(Sort(s)) == multiset(s)
  {
    if s != [] {
      SortCorrect(s[1..]);
      InsertSorted(s[0], Sort(s[1..]));
      InsertContents(s[0], Sort(s[1..]));
      assert s == [s[0]] + s[1..];
    }
  }

  // ---------------------------------------------------------------------------
  // Properties of the aggregation.

  /** The number of sales, the sum of all their amounts. */
  function AllAmounts(data: seq<Record>): Numeric {
    if data == [] then Int(0) else Add(AllAmounts(data[..|data| - 1]), LineAmount(data[|data| - 1]))
  }

  function SumCounts(bs: seq<Bucket>): nat {
    if bs == [] then 0 else SumCounts(bs[..|bs| - 1]) + bs[|bs| - 1].count
  }

  function SumTotals(bs: seq<Bucket>): Numeric {
    if bs == [] then Int(0) else Add(SumTotals(bs[..|bs| - 1]), bs[|bs| - 1].total)
  }

  predicate Distinct(keys: seq<string>) {
    forall i, j :: 0 <= i < j < |keys| ==> keys[i] != keys[j]
  }

  /** Each key occurs once in the first-appearance list, and the list holds exactly
      the keys of the sales. */
  lemma {:induction false} KeysExact(data: seq<Record>, keyOf: Record -> string)
    ensures Distinct(Keys(data, keyOf))
    ensures forall k :: k in Keys(data, keyOf) <==> exists i :: 0 <= i < |data| && keyOf(data[i]) == k
  {
    if data != [] {
      var init := data[..|data| - 1];
      KeysExact(init, keyOf);
      forall k ensures k in Keys(data, keyOf) <==> exists i :: 0 <= i < |data| && keyOf(data[i]) == k {
        if k in Keys(init, keyOf) {
          var i :| 0 <= i < |init| && keyOf(init[i]) == k;
          assert data[i] == init[i];
        }
        if exists i :: 0 <= i < |data| && keyOf(data[i]) == k {
          var i :| 0 <= i < |data| && keyOf(data[i]) == k;
          if i < |init| {
            assert init[i] == data[i];
          }
        }
      }
    }
  }

  /** Every bucket counts at least one sale: a bucket is only created for a key
      that some sale has. */
  lemma {:induction false} BucketsNonEmpty(data: seq<Record>, keyOf: Record -> string)
    ensures forall b :: b in Buckets(data, keyOf) ==> b.count >= 1
  {
    if data != [] {
      var init, k0 := data[..|data| - 1], keyOf(data[|data| - 1]);
      BucketsNonEmpty(init, keyOf);
      forall b | b in Buckets(data, keyOf) ensures b.count >= 1 {
        var j :| 0 <= j < |Keys(data, keyOf)| && b == Buckets(data, keyOf)[j];
        var k := Keys(data, keyOf)[j];
        if k != k0 {
          var keysInit := Keys(init, keyOf);
          assert j < |keysInit| && keysInit[j] == k;
          assert BucketOf(init, keyOf, k) in Buckets(init, keyOf);
        }
      }
    }
  }

  /** Adding one more sale to the data adds 1 and its amount to the buckets of a
      list of distinct keys when its key is one of them, and nothing otherwise. */
  lemma {:induction false} BucketsStep(keys: seq<string>, init: seq<Record>, x: Record, keyOf: Record -> string)
    requires Distinct(keys)
    ensures var before, after := BucketsFor(keys, init, keyOf), BucketsFor(keys, init + [x], keyOf);
      SumCounts(after) == SumCounts(before) + (if keyOf(x) in keys then 1 else 0) &&
      SumTotals(after) == (if keyOf(x) in keys then Add(SumTotals(before), LineAmount(x)) else SumTotals(before))
  {
    var data := init + [x];
    assert data[..|data| - 1] == init;
    if keys != [] {
      var rest, k := keys[..|keys| - 1], keys[|keys| - 1];
      BucketsStep(rest, init, x, keyOf);
      var before, after := BucketsFor(keys, init, keyOf), BucketsFor(keys, data, keyOf);
      assert before[..|before| - 1] == BucketsFor(rest, init, keyOf);
      assert after[..|after| - 1] == BucketsFor(rest, data, keyOf);
      assert keyOf(x) in keys <==> keyOf(x) in rest || keyOf(x) == k;
      var s0, t0 := SumTotals(BucketsFor(rest, init, keyOf)), TotalOf(init, keyOf, k);
      if keyOf(x) == k {
        assert k !in rest;
        AddLaws(s0, t0, LineAmount(x));
      } else if keyOf(x) in rest {
        AddLaws(s0, LineAmount(x), t0);
        AddLaws(s0, t0, LineAmount(x));
        AddLaws(LineAmount(x), t0, Int(0));
      }
    }
  }

  /** Appending a key appends its bucket. */
  lemma BucketsForAppend(keys: seq<string>, k: string, data: seq<Record>, keyOf: Record -> string)
    ensures BucketsFor(keys + [k], data, keyOf) == BucketsFor(keys, data, keyOf) + [BucketOf(data, keyOf, k)]
  {
    var all := keys + [k];
    assert all[..|all| - 1] == keys;
  }

  /** A bucket's figures after one more sale. */
  lemma BucketOfStep(init: seq<Record>, x: Record, keyOf: Record -> string, k: string)
    ensures var b := BucketOf(init + [x], keyOf, k);
      b.count == CountOf(init, keyOf, k) + (if keyOf(x) == k then 1 else 0) &&
      b.total == (if keyOf(x) == k then Add(TotalOf(init, keyOf, k), LineAmount(x)) else TotalOf(init, keyOf, k))
  {
    var data := init + [x];
    assert data[..|data| - 1] == init;
  }

  /** The step of `BucketsAddUp` for a sale whose key already has a bucket. */
  lemma StepOldKey(init: seq<Record>, x: Record, keyOf: Record -> string)
    requires keyOf(x) in Keys(init, keyOf)
    ensures var before, after := Buckets(init, keyOf), Buckets(init + [x], keyOf);
      SumCounts(after) == SumCounts(before) + 1 &&
      SumTotals(after) == Add(SumTotals(before), LineAmount(x))
  {
    var data := init + [x];
    assert data[..|data| - 1] == init;
    assert Keys(data, keyOf) == Keys(init, keyOf);
    KeysExact(init, keyOf);
    BucketsStep(Keys(init, keyOf), init, x, keyOf);
  }

  /** The step of `BucketsAddUp` for a sale whose key is new. */
  lemma StepNewKey(init: seq<Record>, x: Record, keyOf: Record -> string)
    requires keyOf(x) !in Keys(init, keyOf)
    ensures var before, after := Buckets(init, keyOf), Buckets(init + [x], keyOf);
      SumCounts(after) == SumCounts(before) + 1 &&
      SumTotals(after) == Add(SumTotals(before), LineAmount(x))
  {
    var data := init + [x];
    var keys, k0 := Keys(init, keyOf), keyOf(x);
    assert data[..|data| - 1] == init;
    assert Keys(data, keyOf) == keys + [k0];
    KeysExact(init, keyOf);
    BucketsStep(keys, init, x, keyOf);
    BucketsForAppend(keys, k0, data, keyOf);
    var rest := BucketsFor(keys, data, keyOf);
    var bs := rest + [BucketOf(data, keyOf, k0)];
    assert bs[..|bs| - 1] == rest;
    KeyAbsent(init, keyOf, k0);
    BucketOfStep(init, x, keyOf, k0);
    AddLaws(Int(0), LineAmount(x), Int(0));
  }

  /** Before the cut to seven, the counts of the buckets add up to the number of
      sales and their totals to the sum of all the amounts. */
  lemma {:induction false} BucketsAddUp(data: seq<Record>, keyOf: Record -> string)
    ensures SumCounts(Buckets(data, keyOf)) == |data|
    ensures SumTotals(Buckets(data, keyOf)) == AllAmounts(data)
  {
    if data != [] {
      var init, x := data[..|data| - 1], data[|data| - 1];
      assert data == init + [x];
      BucketsAddUp(init, keyOf);
      if keyOf(x) in Keys(init, keyOf) {
        StepOldKey(init, x, keyOf);
      } else {
        StepNewKey(init, x, keyOf);
      }
    }
  }

  /** Each bucket of the series is one of the buckets of the data, so it counts at
      least one sale; there are at most seven. */
  lemma SeriesMembers(data: seq<Record>, daily: bool, keyOf: Record -> string)
    ensures |Series(data, daily, keyOf)| <= 7
    ensures forall b :: b in Series(data, daily, keyOf) ==> b in multiset(Buckets(data, keyOf)) && b.count >= 1
  {
    var buckets := Buckets(data, keyOf);
    BucketsNonEmpty(data, keyOf);
    SortCorrect(buckets);
    var s := if daily then buckets else Sort(buckets);
    assert multiset(s) == multiset(buckets);
    forall b | b in LastSeven(s) ensures b in multiset(buckets) {
      assert b in s;
    }
  }

  /** Outside the daily view the series is sorted by key, and every bucket cut off
      has a key that comes before the keys of the buckets kept. */
  lemma SeriesSorted(data: seq<Record>, keyOf: Record -> string)
    ensures var r, sorted := Series(data, false, keyOf), Sort(Buckets(data, keyOf));
      SortedByDate(r) &&
      forall i, j :: 0 <= i < |sorted| - |r| <= j < |sorted| ==> LessEq(sorted[i].date, sorted[j].date)
  {
    var s := Sort(Buckets(data, keyOf));
    SortCorrect(Buckets(data, keyOf));
    var r := LastSeven(s);
    forall i, j | 0 <= i < j < |r| ensures LessEq(r[i].date, r[j].date) {
      assert r[i] == s[|s| - |r| + i] && r[j] == s[|s| - |r| + j];
    }
  }
}
