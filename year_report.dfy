/** The sections of the year-in-review page (script.js) with their rendering stripped:
    each `display*` function becomes a method of `Dashboard` returning what it would
    draw. The loaded deals (`dealsData`) are the class's one field. */
module YearReport {
  import opened Wrappers
  import opened Values
  import opened Sequences
  import opened Ranking
  import opened Deals
  import opened Grouping

  const TopLimit := 5

  /** The month names of the chart, in calendar order. */
  const Calendar: seq<Month> := seq(12, i requires 0 <= i < 12 => (i + 1) as Month)

  predicate Increasing(s: seq<Month>) {
    forall i, j :: 0 <= i < j < |s| ==> s[i] < s[j]
  }

  lemma {:induction false} FilterIncreasing(s: seq<Month>, p: Month -> bool)
    requires Increasing(s)
    ensures Increasing(Filter(s, p))
    decreases |s|
  {
    if s != [] {
      var q := s[..|s| - 1];
      FilterIncreasing(q, p);
      var f := Filter(q, p);
      forall i | 0 <= i < |f|
        ensures f[i] < s[|s| - 1]
      {
        var j :| 0 <= j < |q| && q[j] == f[i];
      }
    }
  }

  // ---------------------------------------------------------------------
  // Rankings
  // ---------------------------------------------------------------------

  /** `Object.entries(acc).sort((a, b) => b[1].volume - a[1].volume).slice(0, 5)`. */
  function TopOf<K(==)>(deals: seq<Deal>, key: Deal -> Option<K>): seq<Entry<K>> {
    Take(SortDescending(Entries(GroupOf(deals, key)), EntryVolume), TopLimit)
  }

  function KeysOf<K(==)>(es: seq<Entry<K>>): (ks: seq<K>)
    ensures |ks| == |es| && forall i :: 0 <= i < |es| ==> ks[i] == es[i].key
  {
    seq(|es|, i requires 0 <= i < |es| => es[i].key)
  }

  /** The top list has min(5, number of buckets) entries, in non-increasing volume, and
      each is a bucket holding its own deals' sums. */
  lemma TopOfBuckets<K>(deals: seq<Deal>, key: Deal -> Option<K>)
    ensures |TopOf(deals, key)| == Min(TopLimit, |GroupOf(deals, key).order|)
    ensures NonIncreasing(TopOf(deals, key), EntryVolume)
    ensures forall i :: 0 <= i < |TopOf(deals, key)| ==>
      TopOf(deals, key)[i].key in GroupOf(deals, key).totals
      && TopOf(deals, key)[i].totals == Sum(InBucket(deals, key, TopOf(deals, key)[i].key))
  {
    TopOfRanking(Entries(GroupOf(deals, key)), EntryVolume, TopLimit);
    EntriesAreBuckets(deals, key);
  }

  /** No bucket left out of the top list has more volume than the fifth entry. */
  lemma TopOfOmitted<K>(deals: seq<Deal>, key: Deal -> Option<K>, k: K)
    requires k in GroupOf(deals, key).totals && k !in KeysOf(TopOf(deals, key))
    ensures |TopOf(deals, key)| == TopLimit
    ensures GroupOf(deals, key).totals[k].volume <= TopOf(deals, key)[TopLimit - 1].totals.volume
  {
    var g := GroupOf(deals, key);
    var top := TopOf(deals, key);
    TopOfRanking(Entries(g), EntryVolume, TopLimit);
    EntriesAreBuckets(deals, key);
    var e := Entry(k, g.totals[k]);
    assert e in Entries(g);
    assert forall i :: 0 <= i < |top| ==> top[i] != e;
  }

  /** Entries of equal volume keep the order in which their buckets were created. */
  lemma TopOfStable<K>(deals: seq<Deal>, key: Deal -> Option<K>, v: real)
    ensures Tied(TopOf(deals, key), EntryVolume, v) <= Tied(Entries(GroupOf(deals, key)), EntryVolume, v)
  {
    var es := Entries(GroupOf(deals, key));
    var ranked := SortDescending(es, EntryVolume);
    SortStable(es, EntryVolume, v);
    if TopLimit <= |ranked| {
      TiedPrefix(ranked, EntryVolume, v, TopLimit);
    }
  }

  /** The shared body of `displayTopClients` and `displayTopProducts`. */
  method TopFive<K(==)>(deals: seq<Deal>, key: Deal -> Option<K>) returns (top: seq<Entry<K>>)
    ensures top == TopOf(deals, key)
  {
    var order, totals := Accumulate(deals, key);
    top := Take(SortDescending(Entries(Groups(order, totals)), EntryVolume), TopLimit);
  }

  /** The shared body of `displayBasisChart` and `displayGeographyChart`: the buckets by
      volume, and `sorted.reduce((sum, [, data]) => sum + data.volume, 0)`. */
  method Shares<K(==)>(deals: seq<Deal>, key: Deal -> Option<K>) returns (sorted: seq<Entry<K>>, totalVolume: real)
    ensures sorted == SortDescending(Entries(GroupOf(deals, key)), EntryVolume)
    ensures NonIncreasing(sorted, EntryVolume)
    ensures totalVolume == SumOf(Bucketed(deals, key), Volume)
  {
    var order, totals := Accumulate(deals, key);
    var es := Entries(Groups(order, totals));
    sorted := SortDescending(es, EntryVolume);
    totalVolume := SumOf(sorted, EntryVolume);
    SortedDescending(es, EntryVolume);
    SumOfSorted(es, EntryVolume, EntryVolume);
    TotalOfVolume(es);
    Conservation(deals, key);
  }

  // ---------------------------------------------------------------------
  // Average prices
  // ---------------------------------------------------------------------

  datatype PriceRow = PriceRow(product: Value, avgPrice: real, volume: real)

  /** `avgPrice: totalVolume > 0 ? totalValue / totalVolume : 0`. */
  function PriceRowOf(e: Entry<Value>): PriceRow {
    PriceRow(e.key, if e.totals.volume > 0.0 then e.totals.value / e.totals.volume else 0.0, e.totals.volume)
  }

  function PriceRows(es: seq<Entry<Value>>): (rows: seq<PriceRow>)
    ensures |rows| == |es| && forall i :: 0 <= i < |es| ==> rows[i] == PriceRowOf(es[i])
  {
    seq(|es|, i requires 0 <= i < |es| => PriceRowOf(es[i]))
  }

  predicate PositivePrice(r: PriceRow) {
    r.avgPrice > 0.0
  }

  function RowVolume(r: PriceRow): real {
    r.volume
  }

  /** `.map(...).filter(p => p.avgPrice > 0).sort((a, b) => b.volume - a.volume)`. */
  function AvgPriceRanking(deals: seq<Deal>): seq<PriceRow> {
    SortDescending(Filter(PriceRows(Entries(GroupOf(deals, ProductKey))), PositivePrice), RowVolume)
  }

  /** The average-price list is in non-increasing volume. */
  lemma AvgPriceOrder(deals: seq<Deal>)
    ensures NonIncreasing(AvgPriceRanking(deals), RowVolume)
  {
    SortedDescending(Filter(PriceRows(Entries(GroupOf(deals, ProductKey))), PositivePrice), RowVolume);
  }

  /** Every listed product has a positive volume, and its price is the volume-weighted
      average sum(price * volume) / sum(volume) over its deals, which is positive. */
  lemma AvgPriceListed(deals: seq<Deal>, i: nat)
    requires i < |AvgPriceRanking(deals)|
    ensures var row := AvgPriceRanking(deals)[i];
      var b := InBucket(deals, ProductKey, row.product);
      && row.avgPrice > 0.0
      && SumOf(b, Volume) > 0.0
      && row.volume == SumOf(b, Volume)
      && row.avgPrice == SumOf(b, Weighted) / SumOf(b, Volume)
  {
    var es := Entries(GroupOf(deals, ProductKey));
    var rows := PriceRows(es);
    var kept := Filter(rows, PositivePrice);
    var row := AvgPriceRanking(deals)[i];
    assert row in multiset(kept);
    assert row in kept;
    var j :| 0 <= j < |rows| && rows[j] == row;
    assert es[j] in es;
    EntriesAreBuckets(deals, ProductKey);
  }

  /** Every product whose volume-weighted average price is positive is listed. */
  lemma AvgPriceComplete(deals: seq<Deal>, k: Value)
    requires InBucket(deals, ProductKey, k) != []
    requires SumOf(InBucket(deals, ProductKey, k), Volume) > 0.0
    requires SumOf(InBucket(deals, ProductKey, k), Weighted) / SumOf(InBucket(deals, ProductKey, k), Volume) > 0.0
    ensures exists i :: 0 <= i < |AvgPriceRanking(deals)| && AvgPriceRanking(deals)[i].product == k
  {
    var g := GroupOf(deals, ProductKey);
    var es := Entries(g);
    var rows := PriceRows(es);
    var kept := Filter(rows, PositivePrice);
    var ranked := AvgPriceRanking(deals);
    BucketContents(deals, ProductKey, k);
    EntriesAreBuckets(deals, ProductKey);
    var e := Entry(k, g.totals[k]);
    var j :| 0 <= j < |es| && es[j] == e;
    assert PositivePrice(rows[j]);
    assert rows[j] in kept;
    assert rows[j] in multiset(ranked);
    var n :| 0 <= n < |ranked| && ranked[n] == rows[j];
  }

  // ---------------------------------------------------------------------
  // Record deals, clients, timeline order
  // ---------------------------------------------------------------------

  /** The index `reduce((max, deal) => measure(deal) > measure(max) ? deal : max, deals[0])`
      ends on after the first `n` deals: a maximum, and the earliest one. */
  function RecordIndex(deals: seq<Deal>, measure: Deal -> real, n: nat): (j: nat)
    requires 1 <= n <= |deals|
    ensures j < n
    ensures forall i :: 0 <= i < n ==> measure(deals[i]) <= measure(deals[j])
    ensures forall i :: 0 <= i < j ==> measure(deals[i]) < measure(deals[j])
  {
    if n == 1 then 0
    else
      var j := RecordIndex(deals, measure, n - 1);
      if measure(deals[n - 1]) > measure(deals[j]) then n - 1 else j
  }

  /** The record deal; `None` is the `undefined` an empty list reduces to. */
  function RecordBy(deals: seq<Deal>, measure: Deal -> real): (r: Option<Deal>)
    ensures r.None? <==> deals == []
    ensures r.Some? ==> r.value in deals
    ensures r.Some? ==> forall i :: 0 <= i < |deals| ==> measure(deals[i]) <= measure(r.value)
  {
    if deals == [] then None else Some(deals[RecordIndex(deals, measure, |deals|)])
  }

  /** The values `new Set(dealsData.map(d => d['Покупатель']))` holds. */
  function Buyers(deals: seq<Deal>): (b: set<Option<Value>>)
    ensures |b| <= |deals|
    ensures forall i :: 0 <= i < |deals| ==> Buyer(deals[i]) in b
    ensures forall c :: c in b ==> exists i :: 0 <= i < |deals| && Buyer(deals[i]) == c
    decreases |deals|
  {
    if deals == [] then {}
    else Buyers(deals[..|deals| - 1]) + {Buyer(deals[|deals| - 1])}
  }

  function MonthIndex(ym: YearMonth): int {
    ym.year * 12 + ym.month
  }

  /** Descending by this score is ascending by month. */
  function Earliness(e: Entry<YearMonth>): real {
    -(MonthIndex(e.key) as real)
  }

  /** The timeline: the month buckets sorted by date, oldest first. */
  function TimelineOf(deals: seq<Deal>): seq<Entry<YearMonth>> {
    SortDescending(Entries(GroupOf(deals, MonthYearKey)), Earliness)
  }

  /** Each timeline entry is a month bucket with its own deals' sums. */
  lemma TimelineBuckets(deals: seq<Deal>)
    ensures forall i :: 0 <= i < |TimelineOf(deals)| ==>
      TimelineOf(deals)[i].key in GroupOf(deals, MonthYearKey).totals
      && TimelineOf(deals)[i].totals == Sum(InBucket(deals, MonthYearKey, TimelineOf(deals)[i].key))
  {
    var es := Entries(GroupOf(deals, MonthYearKey));
    var months := TimelineOf(deals);
    EntriesAreBuckets(deals, MonthYearKey);
    forall i | 0 <= i < |months|
      ensures months[i] in es
    {
      assert months[i] in multiset(es);
    }
  }

  /** A month has a timeline entry exactly when some deal was confirmed in it. */
  lemma TimelineComplete(deals: seq<Deal>, ym: YearMonth)
    ensures (exists i :: 0 <= i < |TimelineOf(deals)| && TimelineOf(deals)[i].key == ym)
      <==> InBucket(deals, MonthYearKey, ym) != []
  {
    var g := GroupOf(deals, MonthYearKey);
    var months := TimelineOf(deals);
    BucketContents(deals, MonthYearKey, ym);
    TimelineBuckets(deals);
    if ym in g.totals {
      EntriesAreBuckets(deals, MonthYearKey);
      var e := Entry(ym, g.totals[ym]);
      assert e in multiset(months);
      var i :| 0 <= i < |months| && months[i] == e;
    }
  }

  /** Different months have different indices. */
  lemma MonthIndexInjective(a: YearMonth, b: YearMonth)
    ensures MonthIndex(a) == MonthIndex(b) ==> a == b
  {
  }

  /** Two timeline entries with the same month are the same entry. */
  lemma TimelineKeyed(deals: seq<Deal>, i: nat, j: nat)
    requires i < j < |TimelineOf(deals)|
    ensures TimelineOf(deals)[i].key == TimelineOf(deals)[j].key ==> TimelineOf(deals)[i] == TimelineOf(deals)[j]
  {
    TimelineBuckets(deals);
  }

  /** The timeline is in strictly increasing month order: each month appears once. */
  lemma TimelineChronological(deals: seq<Deal>)
    ensures forall i, j :: 0 <= i < j < |TimelineOf(deals)| ==>
      MonthIndex(TimelineOf(deals)[i].key) < MonthIndex(TimelineOf(deals)[j].key)
  {
    var es := Entries(GroupOf(deals, MonthYearKey));
    var months := TimelineOf(deals);
    SortedDescending(es, Earliness);
    EntriesDistinct(deals, MonthYearKey);
    PermutationDistinct(es, months);
    forall i, j | 0 <= i < j < |months|
      ensures MonthIndex(months[i].key) < MonthIndex(months[j].key)
    {
      assert Earliness(months[i]) >= Earliness(months[j]);
      TimelineKeyed(deals, i, j);
      MonthIndexInjective(months[i].key, months[j].key);
    }
  }

  // ---------------------------------------------------------------------
  // The page
  // ---------------------------------------------------------------------

  datatype Hero = Hero(totalDeals: nat, totalVolume: real, totalRevenue: real)

  datatype Final = Final(totalDeals: nat, totalVolume: real, uniqueClients: nat)

  /** The grand totals agree with every section that buckets all deals: the bucket deal
      counts add up to the number of deals and the bucket volumes to the total volume. */
  lemma SectionsAgree(deals: seq<Deal>)
    ensures TotalOf(Entries(GroupOf(deals, ClientKey))).deals == |deals|
    ensures TotalOf(Entries(GroupOf(deals, ClientKey))).volume == SumOf(deals, Volume)
    ensures TotalOf(Entries(GroupOf(deals, ClientKey))).revenue == SumOf(deals, Revenue)
    ensures TotalOf(Entries(GroupOf(deals, ProductKey))).deals == |deals|
    ensures TotalOf(Entries(GroupOf(deals, ProductKey))).volume == SumOf(deals, Volume)
    ensures TotalOf(Entries(GroupOf(deals, BasisKey))).deals == |deals|
    ensures TotalOf(Entries(GroupOf(deals, BasisKey))).volume == SumOf(deals, Volume)
    ensures TotalOf(Entries(GroupOf(deals, RegionKey))).deals == |deals|
    ensures TotalOf(Entries(GroupOf(deals, RegionKey))).volume == SumOf(deals, Volume)
  {
    ConservationTotal(deals, ClientKey);
    ConservationTotal(deals, ProductKey);
    ConservationTotal(deals, BasisKey);
    ConservationTotal(deals, RegionKey);
  }

  class Dashboard {
    /** `dealsData`. */
    var deals: seq<Deal>

    constructor ()
      ensures deals == []
    {
      deals := [];
    }

    /** `loadData` after the fetch: keep the deals confirmed in 2025. */
    method LoadData(data: seq<Deal>)
      modifies this
      ensures deals == YearFilter(data)
      ensures forall i :: 0 <= i < |deals| ==> InTargetYear(deals[i])
    {
      deals := Filter(data, InTargetYear);
    }

    /** `displayHeroStats`: the deal count and the two `reduce` sums, which agree with
        the client buckets of the top-clients section added up. */
    method HeroStats() returns (h: Hero)
      ensures h.totalDeals == |deals|
      ensures h.totalVolume == SumOf(deals, Volume)
      ensures h.totalRevenue == SumOf(deals, Revenue)
      ensures h.totalDeals == TotalOf(Entries(GroupOf(deals, ClientKey))).deals
      ensures h.totalVolume == TotalOf(Entries(GroupOf(deals, ClientKey))).volume
      ensures h.totalRevenue == TotalOf(Entries(GroupOf(deals, ClientKey))).revenue
    {
      var totalVolume, totalRevenue := 0.0, 0.0;
      for i := 0 to |deals|
        invariant totalVolume == SumOf(deals[..i], Volume)
        invariant totalRevenue == SumOf(deals[..i], Revenue)
      {
        assert deals[..i + 1][..i] == deals[..i];
        totalVolume := totalVolume + Volume(deals[i]);
        totalRevenue := totalRevenue + Revenue(deals[i]);
      }
      assert deals[..|deals|] == deals;
      h := Hero(|deals|, totalVolume, totalRevenue);
      SectionsAgree(deals);
    }

    /** `displayMonthlyChart`: the months with at least one deal, in calendar order, with
        each month's deal count and volume. */
    method MonthlyChart() returns (labels: seq<Month>, volumes: seq<real>, counts: seq<nat>)
      ensures |volumes| == |labels| && |counts| == |labels|
      ensures Increasing(labels)
      ensures forall m: Month :: m in labels <==> InBucket(deals, MonthKey, m) != []
      ensures forall i :: 0 <= i < |labels| ==>
        counts[i] == |InBucket(deals, MonthKey, labels[i])| >= 1
        && volumes[i] == SumOf(InBucket(deals, MonthKey, labels[i]), Volume)
    {
      var order, totals := Accumulate(deals, MonthKey);
      var present := m => m in totals;
      labels := Filter(Calendar, present);
      volumes := seq(|labels|, i requires 0 <= i < |labels| => Lookup(totals, labels[i]).volume);
      counts := seq(|labels|, i requires 0 <= i < |labels| => Lookup(totals, labels[i]).deals);
      FilterIncreasing(Calendar, present);
      forall m: Month
        ensures m in labels <==> InBucket(deals, MonthKey, m) != []
      {
        BucketContents(deals, MonthKey, m);
        assert Calendar[m - 1] == m;
      }
      forall i | 0 <= i < |labels|
        ensures counts[i] == |InBucket(deals, MonthKey, labels[i])| >= 1
        ensures volumes[i] == SumOf(InBucket(deals, MonthKey, labels[i]), Volume)
      {
        BucketContents(deals, MonthKey, labels[i]);
      }
    }

    method TopClients() returns (top: seq<Entry<Value>>)
      ensures top == TopOf(deals, ClientKey)
    {
      top := TopFive(deals, ClientKey);
    }

    method TopProducts() returns (top: seq<Entry<Value>>)
      ensures top == TopOf(deals, ProductKey)
    {
      top := TopFive(deals, ProductKey);
    }

    /** `displayAvgPrices`. */
    method AvgPrices() returns (rows: seq<PriceRow>)
      ensures rows == AvgPriceRanking(deals)
    {
      var order, totals := Accumulate(deals, ProductKey);
      rows := SortDescending(Filter(PriceRows(Entries(Groups(order, totals))), PositivePrice), RowVolume);
    }

    /** `displayBasisChart`: the doughnut's slices and its total, which is the total volume. */
    method BasisChart() returns (sorted: seq<Entry<Value>>, totalVolume: real)
      ensures sorted == SortDescending(Entries(GroupOf(deals, BasisKey)), EntryVolume)
      ensures NonIncreasing(sorted, EntryVolume)
      ensures totalVolume == SumOf(deals, Volume)
    {
      sorted, totalVolume := Shares(deals, BasisKey);
      FilterAll(deals, d => Keyed(BasisKey, d));
    }

    method GeographyChart() returns (sorted: seq<Entry<Value>>, totalVolume: real)
      ensures sorted == SortDescending(Entries(GroupOf(deals, RegionKey)), EntryVolume)
      ensures NonIncreasing(sorted, EntryVolume)
      ensures totalVolume == SumOf(deals, Volume)
    {
      sorted, totalVolume := Shares(deals, RegionKey);
      FilterAll(deals, d => Keyed(RegionKey, d));
    }

    /** `displayRecordDeal`: the earliest deal of largest volume and the earliest of largest
        revenue; both `None` when there are no deals (where the page then fails). */
    method RecordDeal() returns (byVolume: Option<Deal>, byRevenue: Option<Deal>)
      ensures byVolume.None? <==> deals == []
      ensures byRevenue.None? <==> deals == []
      ensures byVolume.Some? ==>
        exists j :: (0 <= j < |deals| && deals[j] == byVolume.value
          && (forall i :: 0 <= i < |deals| ==> Volume(deals[i]) <= Volume(deals[j]))
          && (forall i :: 0 <= i < j ==> Volume(deals[i]) < Volume(deals[j])))
      ensures byRevenue.Some? ==>
        exists j :: (0 <= j < |deals| && deals[j] == byRevenue.value
          && (forall i :: 0 <= i < |deals| ==> Revenue(deals[i]) <= Revenue(deals[j]))
          && (forall i :: 0 <= i < j ==> Revenue(deals[i]) < Revenue(deals[j])))
    {
      byVolume := RecordBy(deals, Volume);
      byRevenue := RecordBy(deals, Revenue);
      if deals != [] {
        var j := RecordIndex(deals, Volume, |deals|);
        var k := RecordIndex(deals, Revenue, |deals|);
        assert deals[j] == byVolume.value;
        assert deals[k] == byRevenue.value;
      }
    }

    /** `displayTimeline`: one entry per month with deals, oldest first. */
    method Timeline() returns (months: seq<Entry<YearMonth>>)
      ensures months == TimelineOf(deals)
      ensures |months| == |GroupOf(deals, MonthYearKey).order|
      ensures forall i, j :: 0 <= i < j < |months| ==> MonthIndex(months[i].key) < MonthIndex(months[j].key)
      ensures forall ym: YearMonth ::
        (exists i :: 0 <= i < |months| && months[i].key == ym) <==> InBucket(deals, MonthYearKey, ym) != []
      ensures forall i :: 0 <= i < |months| ==>
        months[i].totals == Sum(InBucket(deals, MonthYearKey, months[i].key))
    {
      var order, totals := Accumulate(deals, MonthYearKey);
      months := SortDescending(Entries(Groups(order, totals)), Earliness);
      assert months == TimelineOf(deals);
      TimelineBuckets(deals);
      TimelineChronological(deals);
      forall ym: YearMonth
        ensures (exists i :: 0 <= i < |months| && months[i].key == ym) <==> InBucket(deals, MonthYearKey, ym) != []
      {
        TimelineComplete(deals, ym);
      }
    }

    method FinalStats() returns (f: Final)
      ensures f.totalDeals == |deals|
      ensures f.totalVolume == SumOf(deals, Volume)
      ensures f.uniqueClients == |Buyers(deals)| <= f.totalDeals
      ensures deals != [] ==> f.uniqueClients >= 1
    {
      f := Final(|deals|, SumOf(deals, Volume), |Buyers(deals)|);
      if deals != [] {
        assert Buyer(deals[0]) in Buyers(deals);
      }
    }
  }
}
