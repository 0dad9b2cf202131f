/**
 * The aggregations behind the three market charts (paladium_desktop.py:192-228):
 * total quantity per item and its top 20, mean and median price per top item,
 * and price/quantity points grouped by category. Each accumulating loop of
 * the source is a method proved against a group-by specification; a row
 * whose conversion raises is skipped by the source's `try`/`except`, and is
 * simply absent from the specification.
 */
module Charts {
  import opened Wrappers
  import opened PyValue
  import opened PyConvert
  import opened Normalizer
  import opened PyDict
  import opened Ranking
  import opened Stats

  /** `s[:n]`. */
  function Take<T>(s: seq<T>, n: nat): (r: seq<T>)
    ensures |r| <= n && r <= s
    ensures |s| <= n ==> r == s
  {
    if |s| <= n then s else s[..n]
  }

  function SumInts(s: seq<int>): int {
    if s == [] then 0 else SumInts(s[..|s| - 1]) + s[|s| - 1]
  }

  // ---- top quantities (194-198) ----

  /** What one row adds to `qty`: nothing when its item cannot be a key or
      its quantity does not go through `int()`. */
  function QtyContribution(r: Row): Option<(Key, int)> {
    if HashKey(r.item).Some? && ToInt(r.quantity).Some? then
      Some((HashKey(r.item).value, ToInt(r.quantity).value))
    else None
  }

  function QtyContributions(rows: seq<Row>): seq<(Key, int)> {
    if rows == [] then []
    else
      QtyContributions(rows[..|rows| - 1])
      + match QtyContribution(rows[|rows| - 1]) case Some(c) => [c] case None => []
  }

  /** The `(item, total)` pairs of `qty.items()`: each item once, in the order
      it first contributed, with the sum of all its contributions. */
  function Totals(rows: seq<Row>): seq<(Key, int)> {
    var s := QtyContributions(rows);
    var ks := Keys(s);
    seq(|ks|, i requires 0 <= i < |ks| => (ks[i], SumInts(Group(s, ks[i]))))
  }

  /** `qty` holds the totals of the contributions `s`: their keys in
      first-contribution order, each with the sum of its contributions. */
  ghost predicate TotalsOf(qty: Dict<Key, int>, s: seq<(Key, int)>) {
    && qty.Valid()
    && qty.order == Keys(s)
    && forall k | k in qty.entries :: qty.entries[k] == SumInts(Group(s, k))
  }

  /** The `qty` loop: `qty[item] = qty.get(item, 0) + int(quantity)`, a row
      whose item is not hashable or whose quantity `int()` rejects raising
      inside the `try` and adding nothing. */
  method TotalQuantities(rows: seq<Row>) returns (qty: Dict<Key, int>)
    ensures TotalsOf(qty, QtyContributions(rows))
  {
    qty := EmptyDict();
    for i := 0 to |rows|
      invariant TotalsOf(qty, QtyContributions(rows[..i]))
    {
      QtyStep(rows, i);
      var c := QtyContribution(rows[i]);
      if c.Some? {
        var (item, n) := c.value;
        SumStep(qty, QtyContributions(rows[..i]), item, n);
        qty := qty.Put(item, qty.GetOr(item, 0) + n);
      } else {
        assert QtyContributions(rows[..i]) + [] == QtyContributions(rows[..i]);
      }
    }
    assert rows[..|rows|] == rows;
  }

  lemma QtyStep(rows: seq<Row>, i: nat)
    requires i < |rows|
    ensures QtyContributions(rows[..i + 1]) == QtyContributions(rows[..i])
              + match QtyContribution(rows[i]) case Some(c) => [c] case None => []
  {
    assert rows[..i + 1][..i] == rows[..i];
  }

  /** One step of the `qty` loop keeps the dict equal to the totals of the
      contributions seen so far. */
  lemma SumStep(qty: Dict<Key, int>, s: seq<(Key, int)>, k: Key, n: int)
    requires TotalsOf(qty, s)
    ensures TotalsOf(qty.Put(k, qty.GetOr(k, 0) + n), s + [(k, n)])
  {
    KeysDistinct(s);
    KeysSnoc(s, k, n);
    SumIntsGroupSnoc(s, k, n);
    assert k in qty.entries <==> k in Keys(s);
    assert qty.GetOr(k, 0) == SumInts(Group(s, k));
    TotalsPut(qty, s, k, n, qty.Put(k, qty.GetOr(k, 0) + n));
  }

  lemma SumIntsGroupSnoc<K>(s: seq<(K, int)>, k: K, n: int)
    ensures SumInts(Group(s + [(k, n)], k)) == SumInts(Group(s, k)) + n
  {
    GroupSnocSame(s, k, n);
    var g := Group(s, k);
    assert (g + [n])[..|g|] == g;
  }

  /** Setting the entry of `k` to its total after one more contribution
      under `k` keeps the dict in step with the contributions. */
  lemma TotalsPut(qty: Dict<Key, int>, s: seq<(Key, int)>, k: Key, n: int, d: Dict<Key, int>)
    requires TotalsOf(qty, s)
    requires d.Valid() && d.order == Keys(s + [(k, n)])
    requires d.entries == qty.entries[k := SumInts(Group(s + [(k, n)], k))]
    ensures TotalsOf(d, s + [(k, n)])
  {
    forall k' | k' in d.entries && k' != k ensures d.entries[k'] == SumInts(Group(s + [(k, n)], k')) {
      GroupSnocOther(s, k, n, k');
    }
  }

  /** The top-20 list: `sorted(qty.items(), key=total, reverse=True)[:20]`. */
  function Top20(rows: seq<Row>): seq<(Key, int)> {
    Top(Totals(rows), 20)
  }

  /** The `qty` dict lists each item once, in first-contribution order, with
      the total of its contributions; rows that contributed nothing are not
      in it. */
  lemma TotalsMeaning(rows: seq<Row>)
    ensures forall i, j | 0 <= i < j < |Totals(rows)| :: Totals(rows)[i].0 != Totals(rows)[j].0
    ensures forall k :: (exists i | 0 <= i < |Totals(rows)| :: Totals(rows)[i].0 == k)
                        <==> Group(QtyContributions(rows), k) != []
    ensures forall i | 0 <= i < |Totals(rows)| ::
              Totals(rows)[i].1 == SumInts(Group(QtyContributions(rows), Totals(rows)[i].0))
  {
    var s := QtyContributions(rows);
    KeysDistinct(s);
    forall k ensures (exists i | 0 <= i < |Totals(rows)| :: Totals(rows)[i].0 == k)
                     <==> Group(s, k) != []
    {
      if Group(s, k) != [] {
        var i :| 0 <= i < |Keys(s)| && Keys(s)[i] == k;
        assert Totals(rows)[i].0 == k;
      }
    }
  }

  // ---- prices per item (204-207) ----

  /** What one row hands to `prices.setdefault(item, []).append(...)`: its
      item, when that can be a key, and its price when `float()` takes it.
      An unhashable item raises before `setdefault`, so the row does nothing. */
  function PriceContribution(r: Row): Option<(Key, Option<real>)> {
    if HashKey(r.item).Some? then Some((HashKey(r.item).value, ToFloat(r.price))) else None
  }

  function PriceContributions(rows: seq<Row>): seq<(Key, Option<real>)> {
    if rows == [] then []
    else
      PriceContributions(rows[..|rows| - 1])
      + match PriceContribution(rows[|rows| - 1]) case Some(c) => [c] case None => []
  }

  /** The prices that converted, in order. */
  function Converted(s: seq<Option<real>>): seq<real> {
    if s == [] then []
    else Converted(s[..|s| - 1]) + match s[|s| - 1] case Some(x) => [x] case None => []
  }

  /** The prices of the rows whose item is `k`, where they go through
      `float()`, in row order. */
  function PricesOf(rows: seq<Row>, k: Key): seq<real> {
    Converted(Group(PriceContributions(rows), k))
  }

  /** `prices` is what the `prices` loop builds from the contributions `s`:
      an entry for every item met, converted price or not, holding the
      item's converted prices in order. */
  ghost predicate PricesFrom(prices: Dict<Key, seq<real>>, s: seq<(Key, Option<real>)>) {
    && prices.Valid()
    && (forall k :: k in prices.entries <==> Group(s, k) != [])
    && (forall k :: prices.GetOr(k, []) == Converted(Group(s, k)))
  }

  /** The `prices` loop: `prices.setdefault(item, []).append(float(price))`.
      `setdefault` runs before `float()`, so an item whose prices all fail to
      convert still gets an (empty) entry; the two steps are one `Put` of the
      item's list, extended by the price when it converted. */
  method PricesByItem(rows: seq<Row>) returns (prices: Dict<Key, seq<real>>)
    ensures PricesFrom(prices, PriceContributions(rows))
  {
    prices := EmptyDict();
    for i := 0 to |rows|
      invariant PricesFrom(prices, PriceContributions(rows[..i]))
    {
      PriceStep(rows, i);
      var c := PriceContribution(rows[i]);
      if c.Some? {
        var (item, p) := c.value;
        SetdefaultStep(prices, PriceContributions(rows[..i]), item, p);
        var lst := prices.GetOr(item, []);
        prices := prices.Put(item, lst + Converted([p]));
      } else {
        assert PriceContributions(rows[..i]) + [] == PriceContributions(rows[..i]);
      }
    }
    assert rows[..|rows|] == rows;
  }

  lemma PriceStep(rows: seq<Row>, i: nat)
    requires i < |rows|
    ensures PriceContributions(rows[..i + 1]) == PriceContributions(rows[..i])
              + match PriceContribution(rows[i]) case Some(c) => [c] case None => []
  {
    assert rows[..i + 1][..i] == rows[..i];
  }

  lemma ConvertedSnoc(g: seq<Option<real>>, p: Option<real>)
    ensures Converted(g + [p]) == Converted(g) + match p case Some(x) => [x] case None => []
  {
    assert (g + [p])[..|g|] == g;
  }

  /** One `setdefault(...).append(...)` step: the item gets an entry, and its
      list grows by the price when the price converted. */
  lemma SetdefaultStep(prices: Dict<Key, seq<real>>, s: seq<(Key, Option<real>)>, k: Key, p: Option<real>)
    requires PricesFrom(prices, s)
    ensures PricesFrom(prices.Put(k, prices.GetOr(k, []) + Converted([p])), s + [(k, p)])
  {
    ConvertedGroupSnoc(s, k, p);
    PricesFromPut(prices, s, k, p, prices.Put(k, prices.GetOr(k, []) + Converted([p])));
  }

  lemma ConvertedGroupSnoc<K>(s: seq<(K, Option<real>)>, k: K, p: Option<real>)
    ensures Converted(Group(s + [(k, p)], k)) == Converted(Group(s, k)) + Converted([p])
  {
    GroupSnocSame(s, k, p);
    ConvertedSnoc(Group(s, k), p);
    assert [p][..0] == [];
  }

  /** Setting the entry of `k` to its converted group after one more
      contribution under `k` keeps the dict in step with the contributions. */
  lemma PricesFromPut(prices: Dict<Key, seq<real>>, s: seq<(Key, Option<real>)>, k: Key, p: Option<real>,
                      d: Dict<Key, seq<real>>)
    requires PricesFrom(prices, s)
    requires d.Valid() && d.entries == prices.entries[k := Converted(Group(s + [(k, p)], k))]
    ensures PricesFrom(d, s + [(k, p)])
  {
    forall k'
      ensures k' in d.entries <==> Group(s + [(k, p)], k') != []
      ensures d.GetOr(k', []) == Converted(Group(s + [(k, p)], k'))
    {
      if k' == k {
        GroupSnocSame(s, k, p);
      } else {
        GroupSnocOther(s, k, p, k');
        assert prices.GetOr(k', []) == Converted(Group(s, k'));
      }
    }
  }

  /** The chart loop over the top items: `avg` and `med` of each one's prices,
      `prices.get(name, [])`. */
  method PriceStats(top: seq<(Key, int)>, prices: Dict<Key, seq<real>>) returns (stats: seq<(real, real)>)
    ensures |stats| == |top|
    ensures forall i | 0 <= i < |top| ::
              stats[i] == (Mean(prices.GetOr(top[i].0, [])), Median(prices.GetOr(top[i].0, [])))
  {
    stats := [];
    for i := 0 to |top|
      invariant |stats| == i
      invariant forall j | 0 <= j < i ::
                  stats[j] == (Mean(prices.GetOr(top[j].0, [])), Median(prices.GetOr(top[j].0, [])))
    {
      var lst := prices.GetOr(top[i].0, []);
      stats := stats + [(Mean(lst), Median(lst))];
    }
  }

  // ---- price/quantity by category (219-228) ----

  /** `r.get("category") or "N/A"`. */
  function CategoryOf(r: Row): Json {
    Or(r.category, JStr("N/A"))
  }

  /** The point one row adds, under its category: both price and quantity
      must go through `float()`, and the category must be usable as a key. */
  function PointOf(r: Row): Option<(Key, (real, real))> {
    if ToFloat(r.price).Some? && ToFloat(r.quantity).Some? && HashKey(CategoryOf(r)).Some? then
      Some((HashKey(CategoryOf(r)).value, (ToFloat(r.price).value, ToFloat(r.quantity).value)))
    else None
  }

  function Points(rows: seq<Row>): seq<(Key, (real, real))> {
    if rows == [] then []
    else Points(rows[..|rows| - 1]) + match PointOf(rows[|rows| - 1]) case Some(c) => [c] case None => []
  }

  /** A row with convertible numbers and an empty or missing category is
      plotted under "N/A". */
  lemma MissingCategoryIsNA(r: Row)
    requires ToFloat(r.price).Some? && ToFloat(r.quantity).Some? && !Truthy(r.category)
    ensures PointOf(r) == Some((KStr("N/A"), (ToFloat(r.price).value, ToFloat(r.quantity).value)))
  {
  }

  /** `d` maps the keys of the contributions `s`, in first-seen order, to
      their groups. */
  ghost predicate GroupedAs<V>(d: Dict<Key, seq<V>>, s: seq<(Key, V)>) {
    && d.Valid()
    && d.order == Keys(s)
    && forall k | k in d.entries :: d.entries[k] == Group(s, k)
  }

  /** The `by_cat` loop: `by_cat.setdefault(cat, []).append((p, q))`, a row
      whose price or quantity `float()` rejects, or whose category is not
      hashable, raising inside the `try` and adding nothing. */
  method ByCategory(rows: seq<Row>) returns (byCat: Dict<Key, seq<(real, real)>>)
    ensures GroupedAs(byCat, Points(rows))
  {
    byCat := EmptyDict();
    for i := 0 to |rows|
      invariant GroupedAs(byCat, Points(rows[..i]))
    {
      PointsStep(rows, i);
      var pt := PointOf(rows[i]);
      if pt.Some? {
        var (cat, xy) := pt.value;
        AppendStep(byCat, Points(rows[..i]), cat, xy);
        byCat := byCat.Put(cat, byCat.GetOr(cat, []) + [xy]);
      } else {
        assert Points(rows[..i]) + [] == Points(rows[..i]);
      }
    }
    assert rows[..|rows|] == rows;
  }

  lemma PointsStep(rows: seq<Row>, i: nat)
    requires i < |rows|
    ensures Points(rows[..i + 1]) == Points(rows[..i])
              + match PointOf(rows[i]) case Some(c) => [c] case None => []
  {
    assert rows[..i + 1][..i] == rows[..i];
  }

  /** One step of the `by_cat` loop keeps the dict equal to the grouping of
      the points seen so far. */
  lemma AppendStep<V>(d: Dict<Key, seq<V>>, s: seq<(Key, V)>, k: Key, v: V)
    requires GroupedAs(d, s)
    ensures GroupedAs(d.Put(k, d.GetOr(k, []) + [v]), s + [(k, v)])
  {
    var d' := d.Put(k, d.GetOr(k, []) + [v]);
    KeysDistinct(s);
    KeysSnoc(s, k, v);
    assert k in d.entries <==> k in Keys(s);
    forall k' | k' in d'.entries ensures d'.entries[k'] == Group(s + [(k, v)], k') {
      if k' == k {
        GroupSnocSame(s, k, v);
      } else {
        GroupSnocOther(s, k, v, k');
      }
    }
  }

  /** The scatter series: `list(by_cat.items())[:6]`, each with `pts[:200]`. */
  method ScatterSeries(byCat: Dict<Key, seq<(real, real)>>) returns (series: seq<(Key, seq<(real, real)>)>)
    requires byCat.Valid()
    ensures |series| == if |byCat.order| < 6 then |byCat.order| else 6
    ensures forall i | 0 <= i < |series| ::
              series[i] == (byCat.order[i], Take(byCat.entries[byCat.order[i]], 200))
  {
    var items := Take(byCat.Items(), 6);
    series := [];
    for i := 0 to |items|
      invariant |series| == i
      invariant forall j | 0 <= j < i :: series[j] == (byCat.order[j], Take(byCat.entries[byCat.order[j]], 200))
    {
      var (cat, pts) := items[i];
      series := series + [(cat, Take(pts, 200))];
    }
  }

  // ---- all three charts ----

  datatype ChartData = ChartData(
    top: seq<(Key, int)>,
    stats: seq<(real, real)>,
    scatter: seq<(Key, seq<(real, real)>)>)

  /** What the charts show for `rows`: the top-20 totals; for each of those
      items the mean and median of its prices; and at most six categories,
      the first ones met, each with at most its first 200 points. */
  ghost predicate ChartsFor(c: ChartData, rows: seq<Row>) {
    && c.top == Top20(rows)
    && |c.stats| == |c.top|
    && (forall i | 0 <= i < |c.top| ::
          c.stats[i] == (Mean(PricesOf(rows, c.top[i].0)), Median(PricesOf(rows, c.top[i].0))))
    && |c.scatter| == (if |Keys(Points(rows))| < 6 then |Keys(Points(rows))| else 6)
    && (forall i | 0 <= i < |c.scatter| ::
          && i < |Keys(Points(rows))|
          && c.scatter[i].0 == Keys(Points(rows))[i]
          && c.scatter[i].1 == Take(Group(Points(rows), Keys(Points(rows))[i]), 200))
  }

  /** `_charts(rows)`: the data behind the three charts. */
  method ComputeCharts(rows: seq<Row>) returns (c: ChartData)
    ensures ChartsFor(c, rows)
  {
    var qty := TotalQuantities(rows);
    assert qty.Items() == Totals(rows);
    var top := Top(qty.Items(), 20);
    var prices := PricesByItem(rows);
    var stats := PriceStats(top, prices);
    var byCat := ByCategory(rows);
    var scatter := ScatterSeries(byCat);
    c := ChartData(top, stats, scatter);
  }

  /** The chart data for `rows`, built directly from the specifications. */
  ghost function ChartsOf(rows: seq<Row>): (c: ChartData)
    ensures ChartsFor(c, rows)
  {
    var top := Top20(rows);
    var cats := Keys(Points(rows));
    ChartData(
      top,
      seq(|top|, i requires 0 <= i < |top| => (Mean(PricesOf(rows, top[i].0)), Median(PricesOf(rows, top[i].0)))),
      seq(if |cats| < 6 then |cats| else 6,
          i requires 0 <= i < |cats| && i < 6 => (cats[i], Take(Group(Points(rows), cats[i]), 200))))
  }

  /** The charts are a function of the rows: two chart data sets for the same
      rows are the same. */
  lemma ChartsForUnique(c1: ChartData, c2: ChartData, rows: seq<Row>)
    requires ChartsFor(c1, rows) && ChartsFor(c2, rows)
    ensures c1 == c2
  {
    assert c1.stats == c2.stats;
    assert c1.scatter == c2.scatter;
  }
}
