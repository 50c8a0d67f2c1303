/** Per-colour and per-type bead summaries (`getBeadData`,
    `getBeadDataByType`, `getUnaffiliatedSizeData`). The unaffiliated bucket
    is size-based; these functions fold it into the medallion / regular split
    that the named parades use: the four sizes and `other.special` count as
    regular beads, `other.medallion` as medallion beads. */
module BeadData {
  import opened Objects
  import opened Dataset

  datatype CountWeight = CountWeight(count: nat, weight: nat)

  /** The count or the weight of a `{count, weight}` pair. */
  function Part(cw: CountWeight, metric: Metric): nat {
    if metric == ByCount then cw.count else cw.weight
  }

  /** Counts (not weights) of the unaffiliated beads by size; `other` holds `other.special`. */
  datatype Sizes = Sizes(small: nat, medium: nat, large: nat, nonSphere: nat, other: nat)

  datatype ColourSummary = ColourSummary(
    count: nat,
    weight: nat,
    medallion: CountWeight,
    regular: CountWeight,
    unaffiliatedSizes: Sizes)

  /** The record each colour starts from. */
  const EmptySummary: ColourSummary :=
    ColourSummary(0, 0, CountWeight(0, 0), CountWeight(0, 0), Sizes(0, 0, 0, 0, 0))

  function SizesTotal(s: Sizes): nat {
    s.small + s.medium + s.large + s.nonSphere + s.other
  }

  /** `acc.count += m.count || 0; acc.weight += m.weight || 0` when `m` is present. */
  function Plus(acc: CountWeight, m: Option<Measure>): CountWeight {
    CountWeight(acc.count + Amount(m, ByCount), acc.weight + Amount(m, ByWeight))
  }

  /** The updates `getBeadData` makes for the bucket found under `key`. */
  function AddBucket(acc: ColourSummary, key: string, b: Bucket): ColourSummary {
    if key == Unaffiliated then
      var s := acc.unaffiliatedSizes;
      acc.(
        regular := Plus(Plus(Plus(Plus(Plus(acc.regular, b.small), b.medium), b.large), b.nonSphere), OtherSpecial(b)),
        medallion := Plus(acc.medallion, OtherMedallion(b)),
        unaffiliatedSizes := Sizes(
          s.small + Amount(b.small, ByCount),
          s.medium + Amount(b.medium, ByCount),
          s.large + Amount(b.large, ByCount),
          s.nonSphere + Amount(b.nonSphere, ByCount),
          s.other + Amount(OtherSpecial(b), ByCount)))
    else
      acc.(medallion := Plus(acc.medallion, b.medallion), regular := Plus(acc.regular, b.regular))
  }

  /** The summary of one colour after visiting `keys` in order (totals not yet set). */
  function Accumulate(ledger: Entries<Bucket>, keys: seq<string>): ColourSummary {
    if keys == [] then EmptySummary
    else
      var acc := Accumulate(ledger, keys[..|keys| - 1]);
      var key := keys[|keys| - 1];
      match Get(ledger, key)
      case None => acc
      case Some(b) => AddBucket(acc, key, b)
  }

  /** `data[color]` as `getBeadData` leaves it: totals are medallion plus regular. */
  function Summarise(ledger: Entries<Bucket>, keys: seq<string>): ColourSummary {
    var acc := Accumulate(ledger, keys);
    acc.(count := acc.medallion.count + acc.regular.count, weight := acc.medallion.weight + acc.regular.weight)
  }

  /** The object `getBeadData` builds, colour by colour. */
  function BeadDataOf(beads: Entries<Entries<Bucket>>, keys: seq<string>): Entries<ColourSummary> {
    if beads == [] then []
    else
      var last := beads[|beads| - 1];
      Put(BeadDataOf(beads[..|beads| - 1], keys), last.0, Summarise(last.1, keys))
  }

  /** Sum of `count` (or `weight`) over all colours of a `getBeadData` result. */
  function SummaryTotal(data: Entries<ColourSummary>, metric: Metric): nat {
    if data == [] then 0
    else
      var s := data[|data| - 1].1;
      SummaryTotal(data[..|data| - 1], metric) + (if metric == ByCount then s.count else s.weight)
  }

  /** One colour's summary: the inner loop of `getBeadData`. */
  method SummariseColour(colorData: Entries<Bucket>, parades: seq<string>) returns (s: ColourSummary)
    ensures s == Summarise(colorData, parades)
  {
    s := EmptySummary;
    for p := 0 to |parades|
      invariant s == Accumulate(colorData, parades[..p])
    {
      var parade := parades[p];
      assert parades[..p + 1][..p] == parades[..p];
      match Get(colorData, parade)
      case None =>
      case Some(paradeData) =>
        s := AddBucket(s, parade, paradeData);
    }
    assert parades[..|parades|] == parades;
    s := s.(count := s.medallion.count + s.regular.count, weight := s.medallion.weight + s.regular.weight);
  }

  method GetBeadData(d: Dataset) returns (data: Entries<ColourSummary>)
    ensures data == BeadDataOf(d.beads, ParadeKeys(d))
  {
    var parades := ParadeKeys(d);
    data := [];
    for c := 0 to |d.beads|
      invariant data == BeadDataOf(d.beads[..c], parades)
    {
      assert d.beads[..c + 1][..c] == d.beads[..c];
      var summary := SummariseColour(d.beads[c].1, parades);
      data := Put(data, d.beads[c].0, summary);
    }
    assert d.beads[..|d.beads|] == d.beads;
  }

  /** Every colour of a `getBeadData` result has `count == medallion.count +
      regular.count` and `weight == medallion.weight + regular.weight`. */
  lemma {:induction false} SummaryTotalsSplit(beads: Entries<Entries<Bucket>>, keys: seq<string>)
    ensures forall i :: 0 <= i < |BeadDataOf(beads, keys)| ==>
      && BeadDataOf(beads, keys)[i].1.count == BeadDataOf(beads, keys)[i].1.medallion.count + BeadDataOf(beads, keys)[i].1.regular.count
      && BeadDataOf(beads, keys)[i].1.weight == BeadDataOf(beads, keys)[i].1.medallion.weight + BeadDataOf(beads, keys)[i].1.regular.weight
  {
    if beads != [] {
      SummaryTotalsSplit(beads[..|beads| - 1], keys);
    }
  }

  /** With distinct colour keys the result has exactly the colours of `beads`, in order. */
  lemma {:induction false} BeadDataKeys(beads: Entries<Entries<Bucket>>, keys: seq<string>)
    requires DistinctKeys(beads)
    ensures Keys(BeadDataOf(beads, keys)) == Keys(beads)
  {
    if beads != [] {
      DistinctInit(beads);
      BeadDataKeys(beads[..|beads| - 1], keys);
    }
  }

  /** With distinct colour keys each colour appends its own summary. */
  lemma BeadDataAppends(beads: Entries<Entries<Bucket>>, keys: seq<string>)
    requires DistinctKeys(beads) && beads != []
    ensures var last := beads[|beads| - 1];
      BeadDataOf(beads, keys) == BeadDataOf(beads[..|beads| - 1], keys) + [(last.0, Summarise(last.1, keys))]
  {
    var init := beads[..|beads| - 1];
    var last := beads[|beads| - 1];
    DistinctInit(beads);
    BeadDataKeys(init, keys);
    PutFresh(BeadDataOf(init, keys), last.0, Summarise(last.1, keys));
  }

  /** With distinct colour keys the result lists exactly the colours of
      `beads`, in their order, each with the summary of its own ledger. */
  lemma BeadDataColours(beads: Entries<Entries<Bucket>>, keys: seq<string>)
    requires DistinctKeys(beads)
    ensures Keys(BeadDataOf(beads, keys)) == Keys(beads)
    ensures forall i :: 0 <= i < |beads| ==> BeadDataOf(beads, keys)[i].1 == Summarise(beads[i].1, keys)
  {
    BeadDataKeys(beads, keys);
    BeadDataValues(beads, keys);
  }

  lemma {:induction false} BeadDataValues(beads: Entries<Entries<Bucket>>, keys: seq<string>)
    requires DistinctKeys(beads)
    ensures |BeadDataOf(beads, keys)| == |beads|
    ensures forall i :: 0 <= i < |beads| ==> BeadDataOf(beads, keys)[i].1 == Summarise(beads[i].1, keys)
  {
    if beads != [] {
      var init := beads[..|beads| - 1];
      var last := beads[|beads| - 1];
      DistinctInit(beads);
      BeadDataValues(init, keys);
      BeadDataAppends(beads, keys);
      var prev := BeadDataOf(init, keys);
      var r := prev + [(last.0, Summarise(last.1, keys))];
      forall i | 0 <= i < |beads| ensures r[i].1 == Summarise(beads[i].1, keys) {
        if i < |init| {
          assert r[i] == prev[i] && beads[i] == init[i];
        } else {
          assert beads[i] == last;
        }
      }
    }
  }

  /** A colour whose ledger has no buckets at all keeps the zero record. */
  lemma EmptyLedgerSummary(keys: seq<string>)
    ensures Summarise([], keys) == EmptySummary
  {
    EmptyLedgerAccumulate(keys);
  }

  lemma {:induction false} EmptyLedgerAccumulate(keys: seq<string>)
    ensures Accumulate([], keys) == EmptySummary
  {
    if keys != [] {
      EmptyLedgerAccumulate(keys[..|keys| - 1]);
    }
  }

  /** One colour's beads of type `t` (counted or weighed) under the
      unaffiliated key, once per visit of it in `keys`. */
  function UnaffiliatedTypeTotal(ledger: Entries<Bucket>, keys: seq<string>, t: BeadType, metric: Metric): nat {
    if keys == [] then 0
    else
      var key := keys[|keys| - 1];
      UnaffiliatedTypeTotal(ledger, keys[..|keys| - 1], t, metric) + (if key == Unaffiliated then TypeAt(key, Get(ledger, key), t, metric) else 0)
  }

  /** One colour's beads of type `t` (counted or weighed) under the named (not unaffiliated) keys. */
  function NamedTypeTotal(ledger: Entries<Bucket>, keys: seq<string>, t: BeadType, metric: Metric): nat {
    if keys == [] then 0
    else
      var key := keys[|keys| - 1];
      NamedTypeTotal(ledger, keys[..|keys| - 1], t, metric) + (if key == Unaffiliated then 0 else TypeAt(key, Get(ledger, key), t, metric))
  }

  /** What one bucket adds to each part of a colour's summary. */
  lemma AddBucketEffect(acc: ColourSummary, key: string, b: Bucket, metric: Metric)
    ensures SizesTotal(AddBucket(acc, key, b).unaffiliatedSizes)
      == SizesTotal(acc.unaffiliatedSizes) + (if key == Unaffiliated then TypeAt(key, Some(b), Regular, ByCount) else 0)
    ensures Part(AddBucket(acc, key, b).regular, metric) == Part(acc.regular, metric) + TypeAt(key, Some(b), Regular, metric)
    ensures Part(AddBucket(acc, key, b).medallion, metric) == Part(acc.medallion, metric) + TypeAt(key, Some(b), Medallion, metric)
  {
  }

  /** How `getBeadData` folds the unaffiliated bucket into `unaffiliatedSizes`:
      each visit adds the bucket's sizes and `other.special` (counts only),
      nothing else does. */
  lemma {:induction false} UnaffiliatedSizesFolding(ledger: Entries<Bucket>, keys: seq<string>)
    ensures SizesTotal(Accumulate(ledger, keys).unaffiliatedSizes) == UnaffiliatedTypeTotal(ledger, keys, Regular, ByCount)
  {
    if keys != [] {
      var init := keys[..|keys| - 1];
      var key := keys[|keys| - 1];
      UnaffiliatedSizesFolding(ledger, init);
      match Get(ledger, key)
      case None =>
      case Some(b) => AddBucketEffect(Accumulate(ledger, init), key, b, ByCount);
    }
  }

  /** `regular` (its count, or its weight) is the unaffiliated sizes and
      `other.special` of each unaffiliated visit plus the named keys'
      `regular`: nothing else reaches it. */
  lemma {:induction false} RegularFolding(ledger: Entries<Bucket>, keys: seq<string>, metric: Metric)
    ensures Part(Accumulate(ledger, keys).regular, metric)
      == UnaffiliatedTypeTotal(ledger, keys, Regular, metric) + NamedTypeTotal(ledger, keys, Regular, metric)
  {
    if keys != [] {
      var init := keys[..|keys| - 1];
      var key := keys[|keys| - 1];
      RegularFolding(ledger, init, metric);
      match Get(ledger, key)
      case None =>
      case Some(b) => AddBucketEffect(Accumulate(ledger, init), key, b, metric);
    }
  }

  /** `medallion` (its count, or its weight) is `other.medallion` of each
      unaffiliated visit plus the named keys' `medallion`. */
  lemma {:induction false} MedallionFolding(ledger: Entries<Bucket>, keys: seq<string>, metric: Metric)
    ensures Part(Accumulate(ledger, keys).medallion, metric)
      == UnaffiliatedTypeTotal(ledger, keys, Medallion, metric) + NamedTypeTotal(ledger, keys, Medallion, metric)
  {
    if keys != [] {
      var init := keys[..|keys| - 1];
      var key := keys[|keys| - 1];
      MedallionFolding(ledger, init, metric);
      match Get(ledger, key)
      case None =>
      case Some(b) => AddBucketEffect(Accumulate(ledger, init), key, b, metric);
    }
  }

  /** The parade keys visit the unaffiliated key once when no named parade uses it. */
  lemma {:induction false} UnaffiliatedVisitedOnce(d: Dataset, ledger: Entries<Bucket>, t: BeadType, metric: Metric, i: nat)
    requires i <= |d.parades|
    requires forall j :: 0 <= j < |d.parades| ==> d.parades[j].keyName != Unaffiliated
    ensures UnaffiliatedTypeTotal(ledger, ParadeKeys(d)[..i + 1], t, metric) == TypeAt(Unaffiliated, Get(ledger, Unaffiliated), t, metric)
  {
    var keys := ParadeKeys(d);
    if i == 0 {
      assert keys[..1] == [Unaffiliated];
      assert keys[..1][..0] == [];
    } else {
      UnaffiliatedVisitedOnce(d, ledger, t, metric, i - 1);
      assert keys[..i + 1][..i] == keys[..i];
    }
  }

  /** Over the parade keys of a dataset whose named parades avoid the reserved
      key, a colour's `unaffiliatedSizes` add up to exactly its unaffiliated
      bucket's regular beads, which `regular.count` contains. */
  lemma UnaffiliatedSizesInRegular(d: Dataset, ledger: Entries<Bucket>)
    requires forall j :: 0 <= j < |d.parades| ==> d.parades[j].keyName != Unaffiliated
    ensures var s := Summarise(ledger, ParadeKeys(d));
      && SizesTotal(s.unaffiliatedSizes) == TypeAt(Unaffiliated, Get(ledger, Unaffiliated), Regular, ByCount)
      && s.regular.count == SizesTotal(s.unaffiliatedSizes) + NamedTypeTotal(ledger, ParadeKeys(d), Regular, ByCount)
  {
    UnaffiliatedVisitedOnce(d, ledger, Regular, ByCount, |d.parades|);
    assert ParadeKeys(d)[..|d.parades| + 1] == ParadeKeys(d);
    UnaffiliatedSizesFolding(ledger, ParadeKeys(d));
    RegularFolding(ledger, ParadeKeys(d), ByCount);
  }

  /** Over the parade keys of a dataset whose named parades avoid the reserved
      key, a colour's `medallion` count (or weight) is its unaffiliated
      `other.medallion` plus its named `medallion` records, and its `regular`
      count (or weight) is its unaffiliated sizes and `other.special` plus its
      named `regular` records. */
  lemma SummaryParts(d: Dataset, ledger: Entries<Bucket>, metric: Metric)
    requires forall j :: 0 <= j < |d.parades| ==> d.parades[j].keyName != Unaffiliated
    ensures var s := Summarise(ledger, ParadeKeys(d));
      && Part(s.medallion, metric) == TypeAt(Unaffiliated, Get(ledger, Unaffiliated), Medallion, metric) + NamedTypeTotal(ledger, ParadeKeys(d), Medallion, metric)
      && Part(s.regular, metric) == TypeAt(Unaffiliated, Get(ledger, Unaffiliated), Regular, metric) + NamedTypeTotal(ledger, ParadeKeys(d), Regular, metric)
  {
    UnaffiliatedVisitedOnce(d, ledger, Medallion, metric, |d.parades|);
    UnaffiliatedVisitedOnce(d, ledger, Regular, metric, |d.parades|);
    assert ParadeKeys(d)[..|d.parades| + 1] == ParadeKeys(d);
    MedallionFolding(ledger, ParadeKeys(d), metric);
    RegularFolding(ledger, ParadeKeys(d), metric);
  }

  // ---------------------------------------------------------------------
  // getBeadDataByType

  datatype BeadType = Medallion | Regular

  /** One colour's beads of one type under `key`, counted or weighed (the
      type breakdown counts them; `getBeadData` also moves their weights):
      under the unaffiliated key `other.medallion` is the medallion part and
      the sizes plus `other.special` the regular part; elsewhere `medallion`
      and `regular` themselves. */
  function TypeAt(key: string, bucket: Option<Bucket>, t: BeadType, metric: Metric): nat {
    match bucket
    case None => 0
    case Some(b) =>
      if key == Unaffiliated then
        (if t == Medallion then Amount(OtherMedallion(b), metric)
         else SizeAmount(b, metric) + Amount(OtherSpecial(b), metric))
      else
        (if t == Medallion then Amount(b.medallion, metric) else Amount(b.regular, metric))
  }

  /** One entry of `medallionData` / `regularData`: all colours under one key. */
  function TypeColumn(beads: Entries<Entries<Bucket>>, key: string, t: BeadType): nat {
    if beads == [] then 0
    else TypeColumn(beads[..|beads| - 1], key, t) + TypeAt(key, Get(beads[|beads| - 1].1, key), t, ByCount)
  }

  /** No parade before position `i` carries `key`, and the one at `i` does. */
  predicate FirstCarrying(parades: seq<Parade>, key: string, i: nat)
    requires i < |parades|
  {
    parades[i].keyName == key && forall j :: 0 <= j < i ==> parades[j].keyName != key
  }

  /** `parades.find(pr => pr.keyName === key)` */
  function FindParade(parades: seq<Parade>, key: string): (r: Option<Parade>)
    ensures r.Some? ==> r.value in parades && r.value.keyName == key
    ensures r.None? ==> forall i :: 0 <= i < |parades| ==> parades[i].keyName != key
    ensures r.Some? ==> exists i :: 0 <= i < |parades| && parades[i] == r.value && FirstCarrying(parades, key, i)
  {
    if parades == [] then None
    else if parades[0].keyName == key then Some(parades[0])
    else
      var r := FindParade(parades[1..], key);
      assert r.Some? ==> exists i :: 0 <= i < |parades| && parades[i] == r.value && FirstCarrying(parades, key, i) by {
        if r.Some? {
          var i :| 0 <= i < |parades[1..]| && parades[1..][i] == r.value && FirstCarrying(parades[1..], key, i);
          assert parades[i + 1] == r.value;
          forall j | 0 <= j < i + 1 ensures parades[j].keyName != key {
            if j > 0 {
              assert parades[j] == parades[1..][j - 1];
            }
          }
        }
      }
      r
  }

  /** The chart label of a parade key. */
  function Label(parades: seq<Parade>, key: string): string {
    if key == Unaffiliated then "Unaffiliated"
    else match FindParade(parades, key)
      case Some(p) => p.shortName
      case None => key
  }

  datatype TypeBreakdown = TypeBreakdown(paradeLabels: seq<string>, medallionData: seq<nat>, regularData: seq<nat>)

  /** The inner `forEach` over colours of one `medallionData` / `regularData` entry. */
  method SumTypeColumn(beads: Entries<Entries<Bucket>>, key: string, t: BeadType) returns (total: nat)
    ensures total == TypeColumn(beads, key, t)
  {
    total := 0;
    for c := 0 to |beads|
      invariant total == TypeColumn(beads[..c], key, t)
    {
      assert beads[..c + 1][..c] == beads[..c];
      total := total + TypeAt(key, Get(beads[c].1, key), t, ByCount);
    }
    assert beads[..|beads|] == beads;
  }

  /** `parades.map(parade => <sum over colours>)` for one bead type. */
  method TypeColumns(beads: Entries<Entries<Bucket>>, parades: seq<string>, t: BeadType) returns (data: seq<nat>)
    ensures |data| == |parades|
    ensures forall i :: 0 <= i < |parades| ==> data[i] == TypeColumn(beads, parades[i], t)
  {
    data := [];
    for i := 0 to |parades|
      invariant |data| == i
      invariant forall j :: 0 <= j < i ==> data[j] == TypeColumn(beads, parades[j], t)
    {
      var total := SumTypeColumn(beads, parades[i], t);
      data := data + [total];
    }
  }

  method GetBeadDataByType(d: Dataset) returns (t: TypeBreakdown)
    ensures |t.paradeLabels| == |t.medallionData| == |t.regularData| == 1 + |d.parades|
    ensures t.paradeLabels[0] == "Unaffiliated"
    ensures forall i :: 0 <= i < 1 + |d.parades| ==>
      && t.paradeLabels[i] == Label(d.parades, ParadeKeys(d)[i])
      && t.medallionData[i] == TypeColumn(d.beads, ParadeKeys(d)[i], Medallion)
      && t.regularData[i] == TypeColumn(d.beads, ParadeKeys(d)[i], Regular)
  {
    var parades := ParadeKeys(d);
    var paradeLabels := seq(|parades|, i requires 0 <= i < |parades| => Label(d.parades, parades[i]));
    var medallionData := TypeColumns(d.beads, parades, Medallion);
    var regularData := TypeColumns(d.beads, parades, Regular);
    t := TypeBreakdown(paradeLabels, medallionData, regularData);
  }

  /** A named parade's label is its short name, provided its key is not the
      reserved one and no earlier parade shares its key. */
  lemma {:induction false} LabelOfParade(parades: seq<Parade>, i: nat)
    requires i < |parades|
    requires parades[i].keyName != Unaffiliated
    requires forall j :: 0 <= j < i ==> parades[j].keyName != parades[i].keyName
    ensures Label(parades, parades[i].keyName) == parades[i].shortName
  {
    if i > 0 {
      LabelOfParade(parades[1..], i - 1);
    }
  }

  // ---------------------------------------------------------------------
  // getUnaffiliatedSizeData

  /** Counts of unaffiliated beads by size, over all colours. */
  datatype SizeBreakdown = SizeBreakdown(small: nat, medium: nat, large: nat, nonSphere: nat, medallion: nat, special: nat)

  function AddUnaffiliated(s: SizeBreakdown, bucket: Option<Bucket>): SizeBreakdown {
    match bucket
    case None => s
    case Some(b) =>
      SizeBreakdown(
        s.small + Amount(b.small, ByCount),
        s.medium + Amount(b.medium, ByCount),
        s.large + Amount(b.large, ByCount),
        s.nonSphere + Amount(b.nonSphere, ByCount),
        s.medallion + Amount(OtherMedallion(b), ByCount),
        s.special + Amount(OtherSpecial(b), ByCount))
  }

  function SizeBreakdownOf(beads: Entries<Entries<Bucket>>): SizeBreakdown {
    if beads == [] then SizeBreakdown(0, 0, 0, 0, 0, 0)
    else AddUnaffiliated(SizeBreakdownOf(beads[..|beads| - 1]), Get(beads[|beads| - 1].1, Unaffiliated))
  }

  method GetUnaffiliatedSizeData(d: Dataset) returns (sizeData: SizeBreakdown)
    ensures sizeData == SizeBreakdownOf(d.beads)
  {
    sizeData := SizeBreakdown(0, 0, 0, 0, 0, 0);
    for c := 0 to |d.beads|
      invariant sizeData == SizeBreakdownOf(d.beads[..c])
    {
      assert d.beads[..c + 1][..c] == d.beads[..c];
      sizeData := AddUnaffiliated(sizeData, Get(d.beads[c].1, Unaffiliated));
    }
    assert d.beads[..|d.beads|] == d.beads;
  }

  /** The size breakdown and the first column of the type breakdown agree:
      its medallion count is `medallionData[0]`, and small + medium + large
      + nonSphere + special is `regularData[0]`. */
  lemma {:induction false} SizeBreakdownMatchesTypes(beads: Entries<Entries<Bucket>>)
    ensures SizeBreakdownOf(beads).medallion == TypeColumn(beads, Unaffiliated, Medallion)
    ensures var s := SizeBreakdownOf(beads);
      s.small + s.medium + s.large + s.nonSphere + s.special == TypeColumn(beads, Unaffiliated, Regular)
  {
    if beads != [] {
      SizeBreakdownMatchesTypes(beads[..|beads| - 1]);
    }
  }
}
