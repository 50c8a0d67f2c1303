/** The same beads are totalled by several routes: the grand totals of the
    summary cards, the per-colour summaries, the per-type breakdown, the
    unaffiliated size breakdown and the per-parade charts. These lemmas show
    that the routes agree. */
module Consistency {
  import opened Objects
  import opened Dataset
  import opened Statistics
  import opened BeadData
  import opened ParadeData

  // ---------------------------------------------------------------------
  // Per-colour summaries against the grand totals

  /** Folding a colour's buckets into medallion + regular loses and adds
      nothing: the two parts together are everything its buckets hold. */
  lemma {:induction false} AccumulateMatchesLedger(ledger: Entries<Bucket>, keys: seq<string>)
    ensures Accumulate(ledger, keys).medallion.count + Accumulate(ledger, keys).regular.count == LedgerTotal(ledger, keys, ByCount)
    ensures Accumulate(ledger, keys).medallion.weight + Accumulate(ledger, keys).regular.weight == LedgerTotal(ledger, keys, ByWeight)
  {
    if keys != [] {
      AccumulateMatchesLedger(ledger, keys[..|keys| - 1]);
    }
  }

  /** Summing `count` (or `weight`) over the colours of `getBeadData` gives
      the statistics' `totalBeadsCount` (or `totalBeadsWeight`). */
  lemma {:induction false} BeadDataMatchesStatistics(beads: Entries<Entries<Bucket>>, keys: seq<string>, metric: Metric)
    requires DistinctKeys(beads)
    ensures SummaryTotal(BeadDataOf(beads, keys), metric) == BeadTotal(beads, keys, metric)
  {
    if beads != [] {
      var init := beads[..|beads| - 1];
      var last := beads[|beads| - 1];
      DistinctInit(beads);
      BeadDataMatchesStatistics(init, keys, metric);
      BeadDataAppends(beads, keys);
      var prev := BeadDataOf(init, keys);
      var entry := (last.0, Summarise(last.1, keys));
      AccumulateMatchesLedger(last.1, keys);
      assert (prev + [entry])[..|prev|] == prev;
    }
  }

  // ---------------------------------------------------------------------
  // The type breakdown against the grand total

  /** medallionData[i] + regularData[i], summed over the given keys. */
  function TypeColumnsTotal(beads: Entries<Entries<Bucket>>, keys: seq<string>): nat {
    if keys == [] then 0
    else
      var key := keys[|keys| - 1];
      TypeColumnsTotal(beads, keys[..|keys| - 1]) + TypeColumn(beads, key, Medallion) + TypeColumn(beads, key, Regular)
  }

  lemma {:induction false} ColumnsOfNoColours(keys: seq<string>)
    ensures TypeColumnsTotal([], keys) == 0
  {
    if keys != [] {
      ColumnsOfNoColours(keys[..|keys| - 1]);
    }
  }

  lemma {:induction false} ColumnsAddColour(beads: Entries<Entries<Bucket>>, colour: (string, Entries<Bucket>), keys: seq<string>)
    ensures TypeColumnsTotal(beads + [colour], keys) == TypeColumnsTotal(beads, keys) + LedgerTotal(colour.1, keys, ByCount)
  {
    if keys != [] {
      ColumnsAddColour(beads, colour, keys[..|keys| - 1]);
      assert (beads + [colour])[..|beads|] == beads;
    }
  }

  /** Every bead of the grand total is in exactly one bar of the type
      breakdown: the medallion and regular columns over all parade keys add
      up to `totalBeadsCount`. */
  lemma {:induction false} TypeBreakdownMatchesStatistics(beads: Entries<Entries<Bucket>>, keys: seq<string>)
    ensures TypeColumnsTotal(beads, keys) == BeadTotal(beads, keys, ByCount)
  {
    if beads == [] {
      ColumnsOfNoColours(keys);
    } else {
      var init := beads[..|beads| - 1];
      TypeBreakdownMatchesStatistics(init, keys);
      ColumnsAddColour(init, beads[|beads| - 1], keys);
      assert beads == init + [beads[|beads| - 1]];
    }
  }

  // ---------------------------------------------------------------------
  // The type breakdown against the per-parade charts

  /** For a named parade the type breakdown's columns are the per-parade
      figures: the medallion column is `getMedallionCountByParade`'s value and
      both columns together are `getBeadCountByParade`'s. */
  lemma {:induction false} NamedColumnsMatchParade(beads: Entries<Entries<Bucket>>, key: string)
    requires key != Unaffiliated
    ensures TypeColumn(beads, key, Medallion) == ParadeSum(beads, key, MedallionCount)
    ensures TypeColumn(beads, key, Medallion) + TypeColumn(beads, key, Regular) == ParadeSum(beads, key, BeadCount)
  {
    if beads != [] {
      NamedColumnsMatchParade(beads[..|beads| - 1], key);
    }
  }

  /** A per-parade metric summed over the parades, one term per parade. */
  function ParadeMetricTotal(d: Dataset, ps: seq<Parade>, m: ParadeMetric): nat {
    if ps == [] then 0
    else ParadeMetricTotal(d, ps[..|ps| - 1], m) + MetricOf(d, ps[|ps| - 1].keyName, m)
  }

  /** The columns of the unaffiliated key and of the first `i` parades. */
  lemma {:induction false} ColumnsByParadePrefix(d: Dataset, i: nat)
    requires i <= |d.parades|
    requires forall j :: 0 <= j < |d.parades| ==> d.parades[j].keyName != Unaffiliated
    ensures TypeColumnsTotal(d.beads, ParadeKeys(d)[..i + 1])
      == TypeColumn(d.beads, Unaffiliated, Medallion) + TypeColumn(d.beads, Unaffiliated, Regular)
         + ParadeMetricTotal(d, d.parades[..i], Beads(BeadCount))
  {
    var keys := ParadeKeys(d);
    if i == 0 {
      assert keys[..1] == [Unaffiliated];
      assert keys[..1][..0] == [];
    } else {
      ColumnsByParadePrefix(d, i - 1);
      assert keys[..i + 1][..i] == keys[..i];
      assert d.parades[..i][..i - 1] == d.parades[..i - 1];
      NamedColumnsMatchParade(d.beads, d.parades[i - 1].keyName);
    }
  }

  /** `totalBeadsCount` is the unaffiliated beads of every size
      (`getUnaffiliatedSizeData`) plus each named parade's bead count,
      provided no named parade uses the reserved key. */
  lemma GrandTotalSplitsByParade(d: Dataset)
    requires forall j :: 0 <= j < |d.parades| ==> d.parades[j].keyName != Unaffiliated
    ensures var s := SizeBreakdownOf(d.beads);
      BeadTotal(d.beads, ParadeKeys(d), ByCount)
      == s.small + s.medium + s.large + s.nonSphere + s.medallion + s.special
         + ParadeMetricTotal(d, d.parades, Beads(BeadCount))
  {
    TypeBreakdownMatchesStatistics(d.beads, ParadeKeys(d));
    ColumnsByParadePrefix(d, |d.parades|);
    assert ParadeKeys(d)[..|d.parades| + 1] == ParadeKeys(d);
    assert d.parades[..|d.parades|] == d.parades;
    SizeBreakdownMatchesTypes(d.beads);
  }

  // ---------------------------------------------------------------------
  // Per-parade charts keyed by short name

  /** With distinct short names a per-parade result has one entry per
      parade, in order, and its values add up to the metric summed over the
      parades. */
  lemma PerParadeSum(d: Dataset, ps: seq<Parade>, m: ParadeMetric)
    requires forall i, j :: 0 <= i < j < |ps| ==> ps[i].shortName != ps[j].shortName
    ensures |PerParade(d, ps, m)| == |ps|
    ensures forall i :: 0 <= i < |ps| ==> PerParade(d, ps, m)[i] == (ps[i].shortName, MetricOf(d, ps[i].keyName, m))
    ensures Sum(PerParade(d, ps, m)) == ParadeMetricTotal(d, ps, m)
  {
    PerParadeAt(d, ps, m);
    SlotsDistinct(ps);
    PerParadeSumsUp(d, ps, m);
  }

  lemma {:induction false} PerParadeSumsUp(d: Dataset, ps: seq<Parade>, m: ParadeMetric)
    requires forall i, j :: 0 <= i < j < |ps| ==> ps[i].shortName != ps[j].shortName
    ensures Sum(PerParade(d, ps, m)) == ParadeMetricTotal(d, ps, m)
  {
    if ps != [] {
      var init := ps[..|ps| - 1];
      var p := ps[|ps| - 1];
      PerParadeSumsUp(d, init, m);
      PerParadeFresh(d, ps, m);
      SumSnoc(PerParade(d, init, m), p.shortName, MetricOf(d, p.keyName, m));
    }
  }

  /** With distinct short names and no parade on the reserved key,
      `totalBeadsCount` is the unaffiliated size breakdown plus the sum of
      `getBeadCountByParade`. */
  lemma GrandTotalMatchesParadeChart(d: Dataset)
    requires forall j :: 0 <= j < |d.parades| ==> d.parades[j].keyName != Unaffiliated
    requires forall i, j :: 0 <= i < j < |d.parades| ==> d.parades[i].shortName != d.parades[j].shortName
    ensures var s := SizeBreakdownOf(d.beads);
      BeadTotal(d.beads, ParadeKeys(d), ByCount)
      == s.small + s.medium + s.large + s.nonSphere + s.medallion + s.special
         + Sum(PerParade(d, d.parades, Beads(BeadCount)))
  {
    GrandTotalSplitsByParade(d);
    PerParadeSum(d, d.parades, Beads(BeadCount));
  }

  /** The per-parade chart that shows a metric: `getBeadCountByParade` for
      counts, `getBeadWeightByParade` for weights. */
  function ChartMetric(metric: Metric): BeadMetric {
    if metric == ByCount then BeadCount else BeadWeight
  }

  /** The grand total over one more key adds that key's beads over all colours. */
  lemma {:induction false} BeadTotalAddKey(beads: Entries<Entries<Bucket>>, keys: seq<string>, key: string, metric: Metric)
    ensures BeadTotal(beads, keys + [key], metric) == BeadTotal(beads, keys, metric) + BeadTotal(beads, [key], metric)
  {
    assert (keys + [key])[..|keys|] == keys;
    assert [key][..0] == [];
    if beads != [] {
      var ledger := beads[|beads| - 1].1;
      BeadTotalAddKey(beads[..|beads| - 1], keys, key, metric);
      assert LedgerTotal(ledger, keys + [key], metric) == LedgerTotal(ledger, keys, metric) + BucketTotal(ledger, key, metric);
      assert LedgerTotal(ledger, [key], metric) == BucketTotal(ledger, key, metric);
    }
  }

  /** Under a named key the grand total reads every colour as the per-parade
      charts do: medallion plus regular. */
  lemma {:induction false} NamedKeyMatchesParade(beads: Entries<Entries<Bucket>>, key: string, metric: Metric)
    requires key != Unaffiliated
    ensures BeadTotal(beads, [key], metric) == ParadeSum(beads, key, ChartMetric(metric))
  {
    assert [key][..0] == [];
    if beads != [] {
      var ledger := beads[|beads| - 1].1;
      NamedKeyMatchesParade(beads[..|beads| - 1], key, metric);
      assert LedgerTotal(ledger, [key], metric) == BucketTotal(ledger, key, metric);
      assert BucketTotal(ledger, key, metric) == ColourContribution(ledger, key, ChartMetric(metric));
    }
  }

  /** The grand total over the unaffiliated key and the first `i` parades. */
  lemma {:induction false} BeadsByParadePrefix(d: Dataset, metric: Metric, i: nat)
    requires i <= |d.parades|
    requires forall j :: 0 <= j < |d.parades| ==> d.parades[j].keyName != Unaffiliated
    ensures BeadTotal(d.beads, ParadeKeys(d)[..i + 1], metric)
      == BeadTotal(d.beads, [Unaffiliated], metric) + ParadeMetricTotal(d, d.parades[..i], Beads(ChartMetric(metric)))
  {
    var keys := ParadeKeys(d);
    if i == 0 {
      assert keys[..1] == [Unaffiliated];
    } else {
      BeadsByParadePrefix(d, metric, i - 1);
      assert keys[..i + 1] == keys[..i] + [d.parades[i - 1].keyName];
      assert d.parades[..i][..i - 1] == d.parades[..i - 1];
      BeadTotalAddKey(d.beads, keys[..i], d.parades[i - 1].keyName, metric);
      NamedKeyMatchesParade(d.beads, d.parades[i - 1].keyName, metric);
    }
  }

  /** With distinct short names and no parade on the reserved key,
      `totalBeadsWeight` is the unaffiliated beads' weight plus the sum of
      `getBeadWeightByParade`, and `totalBeadsCount` is the unaffiliated
      beads' count plus the sum of `getBeadCountByParade`. */
  lemma GrandTotalsMatchParadeCharts(d: Dataset, metric: Metric)
    requires forall j :: 0 <= j < |d.parades| ==> d.parades[j].keyName != Unaffiliated
    requires forall i, j :: 0 <= i < j < |d.parades| ==> d.parades[i].shortName != d.parades[j].shortName
    ensures BeadTotal(d.beads, ParadeKeys(d), metric)
      == BeadTotal(d.beads, [Unaffiliated], metric) + Sum(PerParade(d, d.parades, Beads(ChartMetric(metric))))
  {
    BeadsByParadePrefix(d, metric, |d.parades|);
    assert ParadeKeys(d)[..|d.parades| + 1] == ParadeKeys(d);
    assert d.parades[..|d.parades|] == d.parades;
    PerParadeSum(d, d.parades, Beads(ChartMetric(metric)));
  }

  /** Doubloons over the first `i` parades and the unaffiliated key. */
  lemma {:induction false} DoubloonsByParadePrefix(d: Dataset, i: nat)
    requires i <= |d.parades|
    ensures TallyTotal(d.doubloons, ParadeKeys(d)[..i + 1])
      == TallyCount(Get(d.doubloons, Unaffiliated)) + ParadeMetricTotal(d, d.parades[..i], DoubloonCount)
  {
    var keys := ParadeKeys(d);
    if i == 0 {
      assert keys[..1] == [Unaffiliated];
      assert keys[..1][..0] == [];
    } else {
      DoubloonsByParadePrefix(d, i - 1);
      assert keys[..i + 1][..i] == keys[..i];
      assert d.parades[..i][..i - 1] == d.parades[..i - 1];
    }
  }

  /** `totalDoubloons` is the unaffiliated doubloons plus, with distinct
      short names, the sum of `getDoubloonsData`. */
  lemma DoubloonTotalMatchesChart(d: Dataset)
    requires forall i, j :: 0 <= i < j < |d.parades| ==> d.parades[i].shortName != d.parades[j].shortName
    ensures TallyTotal(d.doubloons, ParadeKeys(d))
      == TallyCount(Get(d.doubloons, Unaffiliated)) + Sum(PerParade(d, d.parades, DoubloonCount))
  {
    DoubloonsByParadePrefix(d, |d.parades|);
    assert ParadeKeys(d)[..|d.parades| + 1] == ParadeKeys(d);
    assert d.parades[..|d.parades|] == d.parades;
    PerParadeSum(d, d.parades, DoubloonCount);
  }

  // ---------------------------------------------------------------------
  // Item totals against the parade comparison

  /** Items of all types, summed key by key instead of type by type. */
  function ItemsOverKeys(items: Entries<Entries<Tally>>, keys: seq<string>): nat {
    if keys == [] then 0
    else ItemsOverKeys(items, keys[..|keys| - 1]) + ItemsAt(items, keys[|keys| - 1])
  }

  lemma {:induction false} ItemsOverNoTypes(keys: seq<string>)
    ensures ItemsOverKeys([], keys) == 0
  {
    if keys != [] {
      ItemsOverNoTypes(keys[..|keys| - 1]);
    }
  }

  lemma {:induction false} ItemsOverAddType(items: Entries<Entries<Tally>>, item: (string, Entries<Tally>), keys: seq<string>)
    ensures ItemsOverKeys(items + [item], keys) == ItemsOverKeys(items, keys) + TallyTotal(item.1, keys)
  {
    if keys != [] {
      ItemsOverAddType(items, item, keys[..|keys| - 1]);
      assert (items + [item])[..|items|] == items;
    }
  }

  /** Summing type by type (`calculateStatistics`) or parade by parade (the
      comparison chart) gives the same number of items. */
  lemma {:induction false} ItemsExchange(items: Entries<Entries<Tally>>, keys: seq<string>)
    ensures ItemsOverKeys(items, keys) == ItemTotal(items, keys)
  {
    if items == [] {
      ItemsOverNoTypes(keys);
    } else {
      var init := items[..|items| - 1];
      ItemsExchange(init, keys);
      ItemsOverAddType(init, items[|items| - 1], keys);
      assert items == init + [items[|items| - 1]];
    }
  }

  /** Items and stuffed animals over the unaffiliated key and the first `i` parades. */
  lemma {:induction false} ItemsByParadePrefix(d: Dataset, i: nat)
    requires i <= |d.parades|
    ensures ItemsOverKeys(d.items, ParadeKeys(d)[..i + 1]) + TallyTotal(d.stuffedAnimals, ParadeKeys(d)[..i + 1])
      == ItemsAt(d.items, Unaffiliated) + TallyCount(Get(d.stuffedAnimals, Unaffiliated))
         + ParadeMetricTotal(d, d.parades[..i], ItemCount)
  {
    var keys := ParadeKeys(d);
    if i == 0 {
      assert keys[..1] == [Unaffiliated];
      assert keys[..1][..0] == [];
    } else {
      ItemsByParadePrefix(d, i - 1);
      assert keys[..i + 1][..i] == keys[..i];
      assert d.parades[..i][..i - 1] == d.parades[..i - 1];
    }
  }

  /** `totalItems + totalStuffedAnimals` is the unaffiliated items and stuffed
      animals plus, with distinct short names, the sum of the comparison
      chart's `itemsData`. */
  lemma ItemTotalsMatchComparison(d: Dataset)
    requires forall i, j :: 0 <= i < j < |d.parades| ==> d.parades[i].shortName != d.parades[j].shortName
    ensures ItemTotal(d.items, ParadeKeys(d)) + TallyTotal(d.stuffedAnimals, ParadeKeys(d))
      == ItemsAt(d.items, Unaffiliated) + TallyCount(Get(d.stuffedAnimals, Unaffiliated))
         + Sum(PerParade(d, d.parades, ItemCount))
  {
    ItemsExchange(d.items, ParadeKeys(d));
    ItemsByParadePrefix(d, |d.parades|);
    assert ParadeKeys(d)[..|d.parades| + 1] == ParadeKeys(d);
    assert d.parades[..|d.parades|] == d.parades;
    PerParadeSum(d, d.parades, ItemCount);
  }
}
