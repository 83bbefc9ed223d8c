/** The admin dashboard: four headline figures (today's revenue, this month's
    revenue, active products, number of orders), a bar chart of the revenue of
    each of the last seven days, and a pie chart of how many products each
    category holds. Everything here only reads the store. */
module Dashboard {
  import opened Seqs
  import opened Text
  import opened Types
  import opened Db
  import opened Dates

  // ----- dates -----

  /** The month of a day: its first seven characters (`substring(0, 7)`). */
  function MonthKey(today: string): (m: string)
    ensures StartsWith(today, m)
    ensures |today| >= 7 ==> |m| == 7
  {
    Take(today, 7)
  }

  // ----- revenue -----

  predicate SoldOn(s: Sale, key: string)
  {
    StartsWith(s.createdAt, key)
  }

  /** The filter callback `s => s.createdAt.startsWith(key)`. */
  function SoldOnKey(key: string): Sale -> bool
  {
    s => SoldOn(s, key)
  }

  function Amount(s: Sale): real
  {
    s.totalAmount
  }

  /** Revenue of the sales whose timestamp starts with `key` (a day or a month). */
  function Revenue(sales: seq<Sale>, key: string): real
  {
    SumOf(Filter(sales, SoldOnKey(key)), Amount)
  }

  /** What one sale adds to the revenue under `key`. */
  function AmountOn(key: string, s: Sale): real
  {
    if SoldOn(s, key) then s.totalAmount else 0.0
  }

  function AmountOnKey(key: string): Sale -> real
  {
    s => AmountOn(key, s)
  }

  /** Revenue, written as a sum over every sale. */
  lemma RevenueAsSum(sales: seq<Sale>, key: string)
    ensures Revenue(sales, key) == SumOf(sales, AmountOnKey(key))
  {
    SumOfFilter(sales, SoldOnKey(key), Amount, AmountOnKey(key));
  }

  /** The revenue of a day never exceeds the revenue of any prefix of it, in
      particular of its month, as long as no sale has a negative total. */
  lemma RevenueOfPrefix(sales: seq<Sale>, day: string, prefix: string)
    requires StartsWith(day, prefix)
    requires forall i :: 0 <= i < |sales| ==> sales[i].totalAmount >= 0.0
    ensures Revenue(sales, day) <= Revenue(sales, prefix)
  {
    RevenueAsSum(sales, day);
    RevenueAsSum(sales, prefix);
    forall i | 0 <= i < |sales|
      ensures AmountOnKey(day)(sales[i]) <= AmountOnKey(prefix)(sales[i])
    {
      if SoldOn(sales[i], day) {
        StartsWithTransitive(sales[i].createdAt, day, prefix);
      }
    }
    SumOfMonotone(sales, AmountOnKey(day), AmountOnKey(prefix));
  }

  /** With no negative totals, revenue is never negative and a day's revenue
      never exceeds the revenue of a prefix of it. */
  lemma RevenueBounds(sales: seq<Sale>, day: string, prefix: string)
    requires StartsWith(day, prefix)
    ensures (forall i :: 0 <= i < |sales| ==> sales[i].totalAmount >= 0.0) ==>
              0.0 <= Revenue(sales, day) <= Revenue(sales, prefix)
  {
    if forall i :: 0 <= i < |sales| ==> sales[i].totalAmount >= 0.0 {
      RevenueOfPrefix(sales, day, prefix);
      SumOfNonNegative(Filter(sales, SoldOnKey(day)), Amount);
    }
  }

  // ----- headline figures -----

  datatype Stats = Stats(todaySales: real, monthSales: real, activeProducts: nat, totalOrders: nat)

  /** The four headline figures for the moment whose ISO timestamp is `nowIso`. */
  function ComputeStats(ps: seq<Product>, sales: seq<Sale>, nowIso: string): (r: Stats)
    ensures r.todaySales == Revenue(sales, DateOf(nowIso))
    ensures r.monthSales == Revenue(sales, MonthKey(DateOf(nowIso)))
    ensures r.activeProducts == |ActiveProducts(ps)| <= |ps|
    ensures r.totalOrders == |sales|
    ensures (forall i :: 0 <= i < |sales| ==> sales[i].totalAmount >= 0.0) ==>
              0.0 <= r.todaySales <= r.monthSales
  {
    var today := DateOf(nowIso);
    var month := MonthKey(today);
    RevenueBounds(sales, today, month);
    Stats(Revenue(sales, today), Revenue(sales, month), |ActiveProducts(ps)|, |sales|)
  }

  // ----- the seven-day chart -----

  datatype ChartPoint = ChartPoint(date: string, fullDate: string, amount: real)

  /** `dateStr.split('-').slice(1).join('/')`: the axis label of a day. */
  function DayLabel(day: string): string
  {
    Join(Split(day, '-')[1..], '/')
  }

  /** The label of a `YYYY-MM-DD` day is `MM/DD`. */
  lemma DayLabelOfIsoDay(day: string)
    requires IsIsoDay(day)
    ensures DayLabel(day) == day[5..7] + "/" + day[8..]
  {
    var y, m, d := day[..4], day[5..7], day[8..];
    forall s | s in [y, m, d] ensures FreeOf(s, '-') {
      forall i | 0 <= i < |s| ensures s[i] != '-' {
        assert IsDigit(s[i]);
      }
    }
    assert Join([y, m, d], '-') == day by {
      assert Join([m, d], '-') == m + ['-'] + d;
      assert day == y + ['-'] + (m + ['-'] + d);
    }
    SplitJoin([y, m, d], '-');
    assert [y, m, d][1..] == [m, d];
    assert [m, d][1..] == [d];
    assert Join([m, d], '/') == m + "/" + d;
  }

  /** The chart's days, from the timestamps of the seven moments the chart is
      drawn for (six days ago through now). */
  function ChartDays(stamps: seq<string>): (days: seq<string>)
    ensures |days| == |stamps|
  {
    seq(|stamps|, i requires 0 <= i < |stamps| => DateOf(stamps[i]))
  }

  /** One bar per day: its `MM/DD` label, the day, and that day's revenue. */
  function ChartData(sales: seq<Sale>, stamps: seq<string>): (r: seq<ChartPoint>)
    requires |stamps| == 7
    ensures |r| == 7
    ensures forall i :: 0 <= i < 7 ==> r[i].fullDate == ChartDays(stamps)[i]
    ensures forall i :: 0 <= i < 7 ==>
              (IsIsoDay(r[i].fullDate) ==> r[i].date == r[i].fullDate[5..7] + "/" + r[i].fullDate[8..])
    ensures forall i :: 0 <= i < 7 ==> r[i].amount == SumOf(sales, AmountOnKey(r[i].fullDate))
  {
    var days := ChartDays(stamps);
    forall i | 0 <= i < 7 ensures IsIsoDay(days[i]) ==> DayLabel(days[i]) == days[i][5..7] + "/" + days[i][8..] {
      if IsIsoDay(days[i]) { DayLabelOfIsoDay(days[i]); }
    }
    forall i | 0 <= i < 7 ensures Revenue(sales, days[i]) == SumOf(sales, AmountOnKey(days[i])) {
      RevenueAsSum(sales, days[i]);
    }
    seq(7, i requires 0 <= i < 7 => ChartPoint(DayLabel(days[i]), days[i], Revenue(sales, days[i])))
  }

  function PointAmount(p: ChartPoint): real
  {
    p.amount
  }

  /** A sale falls on one of `days`. */
  predicate InWindow(s: Sale, days: seq<string>)
  {
    exists i :: 0 <= i < |days| && SoldOn(s, days[i])
  }

  function InWindowOf(days: seq<string>): Sale -> bool
  {
    s => InWindow(s, days)
  }

  /** What one sale adds to all of the bars of `days` together. */
  function DayHits(s: Sale, days: seq<string>): real
  {
    SumOf(days, (d: string) => AmountOn(d, s))
  }

  function DayHitsOf(days: seq<string>): Sale -> real
  {
    s => DayHits(s, days)
  }

  function RevenueOf(sales: seq<Sale>): string -> real
  {
    d => Revenue(sales, d)
  }

  lemma RevenueSnoc(init: seq<Sale>, x: Sale, key: string)
    ensures Revenue(init + [x], key) == Revenue(init, key) + AmountOn(key, x)
  {
    FilterAppend(init, [x], SoldOnKey(key));
    assert Filter([x], SoldOnKey(key)) == if SoldOn(x, key) then [x] else [];
    SumOfAppend(Filter(init, SoldOnKey(key)), Filter([x], SoldOnKey(key)), Amount);
    if SoldOn(x, key) {
      SumOfSingleton(x, Amount);
    }
  }

  /** Summing the bars is summing, sale by sale, what each sale adds to them. */
  lemma {:induction false} BarsBySale(sales: seq<Sale>, days: seq<string>)
    ensures SumOf(days, RevenueOf(sales)) == SumOf(sales, DayHitsOf(days))
  {
    if |sales| == 0 {
      forall i | 0 <= i < |days| ensures RevenueOf(sales)(days[i]) == 0.0 {
        assert Filter(sales, SoldOnKey(days[i])) == [];
      }
      SumOfNonNegative(days, RevenueOf(sales));
      SumOfMonotone(days, RevenueOf(sales), (d: string) => 0.0);
      ZeroSum(days);
    } else {
      var init, x := sales[..|sales| - 1], sales[|sales| - 1];
      assert sales == init + [x];
      forall i | 0 <= i < |days|
        ensures RevenueOf(sales)(days[i]) == RevenueOf(init)(days[i]) + ((d: string) => AmountOn(d, x))(days[i])
      {
        RevenueSnoc(init, x, days[i]);
      }
      SumOfAdd(days, RevenueOf(init), (d: string) => AmountOn(d, x), RevenueOf(sales));
      BarsBySale(init, days);
    }
  }

  lemma {:induction false} ZeroSum(days: seq<string>)
    ensures SumOf(days, (d: string) => 0.0) == 0.0
  {
    if |days| > 0 {
      ZeroSum(days[..|days| - 1]);
    }
  }

  /** When the days are distinct and all of one length, a sale falls on at most
      one of them, so it adds its total to the bars once or not at all. */
  lemma {:induction false} DayHitsOnce(s: Sale, days: seq<string>, len: nat)
    requires NoDuplicates(days)
    requires forall i :: 0 <= i < |days| ==> |days[i]| == len
    ensures DayHits(s, days) == if InWindow(s, days) then s.totalAmount else 0.0
  {
    if |days| > 0 {
      var init, d := days[..|days| - 1], days[|days| - 1];
      DayHitsOnce(s, init, len);
      assert InWindow(s, days) <==> InWindow(s, init) || SoldOn(s, d) by {
        if InWindow(s, days) {
          var i :| 0 <= i < |days| && SoldOn(s, days[i]);
          if i < |days| - 1 { assert SoldOn(s, init[i]); }
        }
        if InWindow(s, init) {
          var i :| 0 <= i < |init| && SoldOn(s, init[i]);
          assert SoldOn(s, days[i]);
        }
        if SoldOn(s, d) { assert SoldOn(s, days[|days| - 1]); }
      }
    }
  }

  function ChartTotal(points: seq<ChartPoint>): real
  {
    SumOf(points, PointAmount)
  }

  /** Over seven distinct well-formed days, the bars add up to the revenue of
      the sales that fall on any of those days: no sale is counted twice. */
  lemma ChartCoversWindow(sales: seq<Sale>, stamps: seq<string>)
    requires |stamps| == 7
    requires NoDuplicates(ChartDays(stamps))
    requires forall i :: 0 <= i < 7 ==> IsIsoDay(ChartDays(stamps)[i])
    ensures ChartTotal(ChartData(sales, stamps)) ==
            SumOf(Filter(sales, InWindowOf(ChartDays(stamps))), Amount)
  {
    var days := ChartDays(stamps);
    var points := ChartData(sales, stamps);
    forall i | 0 <= i < 7 ensures PointAmount(points[i]) == RevenueOf(sales)(days[i]) {
      RevenueAsSum(sales, days[i]);
    }
    SumOfPointwise(points, PointAmount, days, RevenueOf(sales));
    BarsBySale(sales, days);
    forall i | 0 <= i < |sales|
      ensures DayHitsOf(days)(sales[i]) == if InWindowOf(days)(sales[i]) then Amount(sales[i]) else 0.0
    {
      DayHitsOnce(sales[i], days, 10);
    }
    SumOfFilter(sales, InWindowOf(days), Amount, DayHitsOf(days));
  }

  // ----- products per category -----

  datatype CategorySlice = CategorySlice(name: string, value: nat)

  function SliceNames(slices: seq<CategorySlice>): (r: seq<string>)
    ensures |r| == |slices|
  {
    seq(|slices|, i requires 0 <= i < |slices| => slices[i].name)
  }

  /** The number of products the pie chart covers. */
  function TotalValue(slices: seq<CategorySlice>): nat
  {
    if |slices| == 0 then 0 else TotalValue(slices[..|slices| - 1]) + slices[|slices| - 1].value
  }

  /** The position of the slice for `name`, or -1 when there is none yet. */
  function SliceIndex(slices: seq<CategorySlice>, name: string): (k: int)
    ensures -1 <= k < |slices|
    ensures k >= 0 ==> slices[k].name == name
    ensures k < 0 ==> forall i :: 0 <= i < |slices| ==> slices[i].name != name
  {
    if |slices| == 0 then -1
    else if slices[|slices| - 1].name == name then |slices| - 1
    else SliceIndex(slices[..|slices| - 1], name)
  }

  /** Counting one more product in one slice adds one to the total. */
  lemma {:induction false} TotalValueBump(slices: seq<CategorySlice>, k: nat)
    requires k < |slices|
    ensures TotalValue(slices[k := slices[k].(value := slices[k].value + 1)]) == TotalValue(slices) + 1
  {
    var bumped := slices[k := slices[k].(value := slices[k].value + 1)];
    var n := |slices|;
    if k == n - 1 {
      assert bumped[..n - 1] == slices[..n - 1];
    } else {
      var init := slices[..n - 1];
      assert bumped[..n - 1] == init[k := init[k].(value := init[k].value + 1)];
      TotalValueBump(init, k);
    }
  }

  /** `slices` is the tally of the categories `seen` so far: one slice per
      distinct category in order of first appearance, each with its count. */
  ghost predicate Tally(slices: seq<CategorySlice>, seen: seq<string>)
  {
    SliceNames(slices) == Distinct(seen) &&
    (forall j :: 0 <= j < |slices| ==> slices[j].value == Count(seen, slices[j].name)) &&
    TotalValue(slices) == |seen|
  }

  /** Counting a category not seen before opens a new slice with count one. */
  lemma TallyNew(slices: seq<CategorySlice>, seen: seq<string>, c: string)
    requires Tally(slices, seen)
    requires forall i :: 0 <= i < |slices| ==> slices[i].name != c
    ensures Tally(slices + [CategorySlice(c, 1)], seen + [c])
  {
    var next := seen + [c];
    assert next[..|seen|] == seen;
    CountPositive(seen, c);
    var after := slices + [CategorySlice(c, 1)];
    assert SliceNames(after) == SliceNames(slices) + [c];
    assert after[..|slices|] == slices;
  }

  /** Counting a category seen before adds one to its slice. */
  lemma TallySeen(slices: seq<CategorySlice>, seen: seq<string>, c: string, k: nat)
    requires Tally(slices, seen)
    requires k < |slices| && slices[k].name == c
    ensures Tally(slices[k := slices[k].(value := slices[k].value + 1)], seen + [c])
  {
    var next := seen + [c];
    assert next[..|seen|] == seen;
    assert SliceNames(slices)[k] == c;
    TotalValueBump(slices, k);
    var after := slices[k := slices[k].(value := slices[k].value + 1)];
    assert SliceNames(after) == SliceNames(slices);
    forall j | 0 <= j < |after| ensures after[j].value == Count(next, after[j].name) {
      if j != k {
        assert SliceNames(slices)[j] != SliceNames(slices)[k];
      }
    }
  }

  /** The pie chart's data: one slice per category, in order of first
      appearance, holding how many products carry that category. */
  method CategoryData(ps: seq<Product>) returns (slices: seq<CategorySlice>)
    ensures SliceNames(slices) == Distinct(ProductCategories(ps))
    ensures FirstAppearances(SliceNames(slices), ProductCategories(ps))
    ensures forall j :: 0 <= j < |slices| ==> slices[j].value == Count(ProductCategories(ps), slices[j].name)
    ensures TotalValue(slices) == |ps|
  {
    ghost var cats := ProductCategories(ps);
    slices := [];
    for i := 0 to |ps|
      invariant Tally(slices, cats[..i])
    {
      var c := ps[i].category;
      assert cats[..i + 1] == cats[..i] + [c];
      var k := SliceIndex(slices, c);
      if k < 0 {
        TallyNew(slices, cats[..i], c);
        slices := slices + [CategorySlice(c, 1)];
      } else {
        TallySeen(slices, cats[..i], c, k);
        slices := slices[k := slices[k].(value := slices[k].value + 1)];
      }
    }
    assert cats[..|ps|] == cats;
    DistinctFirstAppearances(cats);
  }
}
