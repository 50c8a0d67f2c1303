/** The grand totals shown on the summary cards (`calculateStatistics`).
    Every total runs over the reserved unaffiliated key followed by the key
    of each named parade, in that order. */
module Statistics {
  import opened Objects
  import opened Dataset

  datatype Stats = Stats(
    totalBeadsCount: nat,
    totalBeadsWeight: nat,
    totalDoubloons: nat,
    totalItems: nat,
    totalStuffedAnimals: nat,
    totalSpecials: nat)

  /** What one colour ledger holds under `key`, 0 when it has no bucket there. */
  function BucketTotal(ledger: Entries<Bucket>, key: string, metric: Metric): nat {
    match Get(ledger, key)
    case None => 0
    case Some(b) => RawAmount(key, b, metric)
  }

  /** One colour's beads over the given parade keys. */
  function LedgerTotal(ledger: Entries<Bucket>, keys: seq<string>, metric: Metric): nat {
    if keys == [] then 0
    else LedgerTotal(ledger, keys[..|keys| - 1], metric) + BucketTotal(ledger, keys[|keys| - 1], metric)
  }

  /** All colours' beads over the given parade keys. */
  function BeadTotal(beads: Entries<Entries<Bucket>>, keys: seq<string>, metric: Metric): nat {
    if beads == [] then 0
    else BeadTotal(beads[..|beads| - 1], keys, metric) + LedgerTotal(beads[|beads| - 1].1, keys, metric)
  }

  /** Sum of the counts a parade-keyed tally object holds under the given keys. */
  function TallyTotal(m: Entries<Tally>, keys: seq<string>): nat {
    if keys == [] then 0
    else TallyTotal(m, keys[..|keys| - 1]) + TallyCount(Get(m, keys[|keys| - 1]))
  }

  /** All item types' counts over the given parade keys. */
  function ItemTotal(items: Entries<Entries<Tally>>, keys: seq<string>): nat {
    if items == [] then 0
    else ItemTotal(items[..|items| - 1], keys) + TallyTotal(items[|items| - 1].1, keys)
  }

  /** `Object.values(specials).reduce((sum, item) => sum + (item.count || 0), 0)` */
  function SpecialsTotal(specials: Entries<Tally>): nat {
    if specials == [] then 0
    else SpecialsTotal(specials[..|specials| - 1]) + TallyCount(Some(specials[|specials| - 1].1))
  }

  /** The specials total of two lists laid end to end is the sum of their totals. */
  lemma {:induction false} SpecialsTotalSplit(a: Entries<Tally>, b: Entries<Tally>)
    ensures SpecialsTotal(a + b) == SpecialsTotal(a) + SpecialsTotal(b)
    decreases |b|
  {
    if b != [] {
      assert (a + b)[..|a + b| - 1] == a + b[..|b| - 1];
      SpecialsTotalSplit(a, b[..|b| - 1]);
    } else {
      assert a + b == a;
    }
  }

  /** The inner loop of the bead total for one colour: its buckets under
      `parades`, read by each key's bucket shape. */
  method ColourTotals(colorData: Entries<Bucket>, parades: seq<string>) returns (count: nat, weight: nat)
    ensures count == LedgerTotal(colorData, parades, ByCount)
    ensures weight == LedgerTotal(colorData, parades, ByWeight)
  {
    count, weight := 0, 0;
    for p := 0 to |parades|
      invariant count == LedgerTotal(colorData, parades[..p], ByCount)
      invariant weight == LedgerTotal(colorData, parades[..p], ByWeight)
    {
      var parade := parades[p];
      assert parades[..p + 1][..p] == parades[..p];
      match Get(colorData, parade)
      case None =>
      case Some(paradeData) =>
        if parade == Unaffiliated {
          count := count + Amount(paradeData.small, ByCount) + Amount(paradeData.medium, ByCount)
            + Amount(paradeData.large, ByCount) + Amount(paradeData.nonSphere, ByCount);
          weight := weight + Amount(paradeData.small, ByWeight) + Amount(paradeData.medium, ByWeight)
            + Amount(paradeData.large, ByWeight) + Amount(paradeData.nonSphere, ByWeight);
          count := count + Amount(OtherMedallion(paradeData), ByCount) + Amount(OtherSpecial(paradeData), ByCount);
          weight := weight + Amount(OtherMedallion(paradeData), ByWeight) + Amount(OtherSpecial(paradeData), ByWeight);
        } else {
          count := count + Amount(paradeData.medallion, ByCount) + Amount(paradeData.regular, ByCount);
          weight := weight + Amount(paradeData.medallion, ByWeight) + Amount(paradeData.regular, ByWeight);
        }
    }
    assert parades[..|parades|] == parades;
  }

  /** A loop over parade keys adding `m[parade].count || 0` when present. */
  method SumTallies(m: Entries<Tally>, parades: seq<string>) returns (total: nat)
    ensures total == TallyTotal(m, parades)
  {
    total := 0;
    for p := 0 to |parades|
      invariant total == TallyTotal(m, parades[..p])
    {
      assert parades[..p + 1][..p] == parades[..p];
      total := total + TallyCount(Get(m, parades[p]));
    }
    assert parades[..|parades|] == parades;
  }

  method CalculateStatistics(d: Dataset) returns (stats: Stats)
    ensures stats.totalBeadsCount == BeadTotal(d.beads, ParadeKeys(d), ByCount)
    ensures stats.totalBeadsWeight == BeadTotal(d.beads, ParadeKeys(d), ByWeight)
    ensures stats.totalDoubloons == TallyTotal(d.doubloons, ParadeKeys(d))
    ensures stats.totalItems == ItemTotal(d.items, ParadeKeys(d))
    ensures stats.totalStuffedAnimals == TallyTotal(d.stuffedAnimals, ParadeKeys(d))
    ensures stats.totalSpecials == SpecialsTotal(d.specials)
  {
    var parades := ParadeKeys(d);

    var beadsCount, beadsWeight := 0, 0;
    for c := 0 to |d.beads|
      invariant beadsCount == BeadTotal(d.beads[..c], parades, ByCount)
      invariant beadsWeight == BeadTotal(d.beads[..c], parades, ByWeight)
    {
      assert d.beads[..c + 1][..c] == d.beads[..c];
      var count, weight := ColourTotals(d.beads[c].1, parades);
      beadsCount, beadsWeight := beadsCount + count, beadsWeight + weight;
    }
    assert d.beads[..|d.beads|] == d.beads;

    var doubloons := SumTallies(d.doubloons, parades);

    var items := 0;
    for i := 0 to |d.items|
      invariant items == ItemTotal(d.items[..i], parades)
    {
      assert d.items[..i + 1][..i] == d.items[..i];
      var itemCount := SumTallies(d.items[i].1, parades);
      items := items + itemCount;
    }
    assert d.items[..|d.items|] == d.items;

    var stuffed := SumTallies(d.stuffedAnimals, parades);

    stats := Stats(beadsCount, beadsWeight, doubloons, items, stuffed, SpecialsTotal(d.specials));
  }
}
