/** The per-parade summaries behind the "Beads by Parade" charts and the
    parade comparison (`getBeadCountByParade`, `getBeadWeightByParade`,
    `getMedallionCountByParade`, `getColorVarietyByParade`,
    `getColorDistributionByParade`, `getParadeComparisonData`,
    `getDoubloonsData`). They visit the named parades only — never the
    unaffiliated key — read every bucket as medallion / regular, and store
    each parade's value under its short name, so a later parade with the same
    short name overwrites an earlier one in place. */
module ParadeData {
  import opened Objects
  import opened Dataset

  datatype BeadMetric = BeadCount | BeadWeight | MedallionCount | ColourVariety

  datatype ParadeMetric = Beads(metric: BeadMetric) | ItemCount | DoubloonCount

  /** What one colour adds to a parade's bead metric. */
  function ColourContribution(ledger: Entries<Bucket>, key: string, m: BeadMetric): nat {
    match Get(ledger, key)
    case None => 0
    case Some(b) =>
      match m
      case BeadCount => NamedAmount(b, ByCount)
      case BeadWeight => NamedAmount(b, ByWeight)
      case MedallionCount => Amount(b.medallion, ByCount)
      case ColourVariety => if NamedAmount(b, ByCount) > 0 then 1 else 0
  }

  /** A bead metric of the parade `key`, over all colours. */
  function ParadeSum(beads: Entries<Entries<Bucket>>, key: string, m: BeadMetric): nat {
    if beads == [] then 0
    else ParadeSum(beads[..|beads| - 1], key, m) + ColourContribution(beads[|beads| - 1].1, key, m)
  }

  /** Throwable items of the parade `key`, over all item types. */
  function ItemsAt(items: Entries<Entries<Tally>>, key: string): nat {
    if items == [] then 0
    else ItemsAt(items[..|items| - 1], key) + TallyCount(Get(items[|items| - 1].1, key))
  }

  /** The value a per-parade function stores for the parade `key`. */
  function MetricOf(d: Dataset, key: string, m: ParadeMetric): nat {
    match m
    case Beads(bm) => ParadeSum(d.beads, key, bm)
    case ItemCount => ItemsAt(d.items, key) + TallyCount(Get(d.stuffedAnimals, key))
    case DoubloonCount => TallyCount(Get(d.doubloons, key))
  }

  /** `data[parade.shortName] = value(parade.keyName)` for each parade in order. */
  function PerParade(d: Dataset, ps: seq<Parade>, m: ParadeMetric): Entries<nat> {
    if ps == [] then []
    else
      var p := ps[|ps| - 1];
      Put(PerParade(d, ps[..|ps| - 1], m), p.shortName, MetricOf(d, p.keyName, m))
  }

  /** One more parade: its value is assigned under its short name. */
  lemma PerParadeStep(d: Dataset, ps: seq<Parade>, i: nat, m: ParadeMetric)
    requires i < |ps|
    ensures PerParade(d, ps[..i + 1], m) == Put(PerParade(d, ps[..i], m), ps[i].shortName, MetricOf(d, ps[i].keyName, m))
  {
    assert ps[..i + 1][..i] == ps[..i];
  }

  /** Which parade key ends up behind each short name: the last parade
      carrying that short name. */
  function Slots(ps: seq<Parade>): Entries<string> {
    if ps == [] then []
    else
      var p := ps[|ps| - 1];
      Put(Slots(ps[..|ps| - 1]), p.shortName, p.keyName)
  }

  /** Each per-parade result holds, at every position, the metric of the
      parade key behind that position's short name. */
  lemma {:induction false} PerParadeAt(d: Dataset, ps: seq<Parade>, m: ParadeMetric)
    ensures Keys(PerParade(d, ps, m)) == Keys(Slots(ps))
    ensures forall j :: 0 <= j < |Slots(ps)| ==> PerParade(d, ps, m)[j].1 == MetricOf(d, Slots(ps)[j].1, m)
  {
    if ps != [] {
      var p := ps[|ps| - 1];
      PerParadeAt(d, ps[..|ps| - 1], m);
      PutAligned(PerParade(d, ps[..|ps| - 1], m), Slots(ps[..|ps| - 1]), p.shortName, MetricOf(d, p.keyName, m), p.keyName);
    }
  }

  /** With distinct short names every parade keeps its own slot, in order. */
  lemma {:induction false} SlotsDistinct(ps: seq<Parade>)
    requires forall i, j :: 0 <= i < j < |ps| ==> ps[i].shortName != ps[j].shortName
    ensures |Slots(ps)| == |ps|
    ensures forall i :: 0 <= i < |ps| ==> Slots(ps)[i] == (ps[i].shortName, ps[i].keyName)
  {
    if ps != [] {
      var init := ps[..|ps| - 1];
      var p := ps[|ps| - 1];
      SlotsDistinct(init);
      assert p.shortName !in Keys(Slots(init)) by {
        forall i | 0 <= i < |init| ensures Keys(Slots(init))[i] != p.shortName {
          assert init[i] == ps[i];
        }
      }
      PutFresh(Slots(init), p.shortName, p.keyName);
    }
  }

  /** The short names of `ps`, each once, in order of first appearance. */
  function FirstAppearances(ps: seq<Parade>): seq<string> {
    if ps == [] then []
    else
      var prev := FirstAppearances(ps[..|ps| - 1]);
      var name := ps[|ps| - 1].shortName;
      if name in prev then prev else prev + [name]
  }

  /** The key of the last parade in `ps` whose short name is `name`, if any. */
  function LastKey(ps: seq<Parade>, name: string): (r: Option<string>)
    ensures r.None? <==> forall i :: 0 <= i < |ps| ==> ps[i].shortName != name
    ensures r.Some? ==> exists i :: 0 <= i < |ps| && ps[i].keyName == r.value && LastCarrying(ps, name, i)
  {
    if ps == [] then None
    else if ps[|ps| - 1].shortName == name then Some(ps[|ps| - 1].keyName)
    else
      var init := ps[..|ps| - 1];
      var r := LastKey(init, name);
      assert r.Some? ==> exists i :: 0 <= i < |ps| && ps[i].keyName == r.value && LastCarrying(ps, name, i) by {
        if r.Some? {
          var i :| 0 <= i < |init| && init[i].keyName == r.value && LastCarrying(init, name, i);
          assert ps[i] == init[i];
          forall l | i < l < |ps| ensures ps[l].shortName != name {
            if l < |init| {
              assert ps[l] == init[l];
            }
          }
        }
      }
      assert r.None? <==> forall i :: 0 <= i < |ps| ==> ps[i].shortName != name by {
        if r.None? {
          forall i | 0 <= i < |ps| ensures ps[i].shortName != name {
            if i < |init| {
              assert ps[i] == init[i];
            }
          }
        } else {
          var i :| 0 <= i < |init| && init[i].keyName == r.value && LastCarrying(init, name, i);
          assert ps[i] == init[i];
        }
      }
      r
  }

  /** The parade at `i` has short name `name` and no later parade has it. */
  predicate LastCarrying(ps: seq<Parade>, name: string, i: nat)
    requires i < |ps|
  {
    ps[i].shortName == name && forall l :: i < l < |ps| ==> ps[l].shortName != name
  }

  /** For any parades, short names repeated or not: the slots hold every
      short name once, in order of first appearance, each with the key of
      the last parade carrying it. */
  lemma SlotsShape(ps: seq<Parade>)
    ensures Keys(Slots(ps)) == FirstAppearances(ps)
    ensures DistinctKeys(Slots(ps))
    ensures forall i :: 0 <= i < |ps| ==> ps[i].shortName in Keys(Slots(ps))
    ensures forall j :: 0 <= j < |Slots(ps)| ==> Some(Slots(ps)[j].1) == LastKey(ps, Slots(ps)[j].0)
  {
    SlotsKeys(ps);
    FirstAppearancesDistinct(ps);
    SlotsGet(ps);
    forall i | 0 <= i < |ps| ensures ps[i].shortName in Keys(Slots(ps)) {
      assert Get(Slots(ps), ps[i].shortName).Some?;
    }
    forall j | 0 <= j < |Slots(ps)| ensures Some(Slots(ps)[j].1) == LastKey(ps, Slots(ps)[j].0) {
      GetDistinct(Slots(ps), j);
    }
  }

  lemma {:induction false} SlotsKeys(ps: seq<Parade>)
    ensures Keys(Slots(ps)) == FirstAppearances(ps)
  {
    if ps != [] {
      var p := ps[|ps| - 1];
      SlotsKeys(ps[..|ps| - 1]);
      PutKeys(Slots(ps[..|ps| - 1]), p.shortName, p.keyName);
    }
  }

  lemma {:induction false} FirstAppearancesDistinct(ps: seq<Parade>)
    ensures forall i, j :: 0 <= i < j < |FirstAppearances(ps)| ==> FirstAppearances(ps)[i] != FirstAppearances(ps)[j]
  {
    if ps != [] {
      FirstAppearancesDistinct(ps[..|ps| - 1]);
    }
  }

  /** Reading a short name from the slots gives the key of the last parade carrying it. */
  lemma {:induction false} SlotsGet(ps: seq<Parade>)
    ensures forall name :: Get(Slots(ps), name) == LastKey(ps, name)
  {
    if ps != [] {
      var p := ps[|ps| - 1];
      SlotsGet(ps[..|ps| - 1]);
      PutGet(Slots(ps[..|ps| - 1]), p.shortName, p.keyName);
    }
  }

  /** With distinct short names each parade appends its own entry. */
  lemma PerParadeFresh(d: Dataset, ps: seq<Parade>, m: ParadeMetric)
    requires ps != []
    requires forall i, j :: 0 <= i < j < |ps| ==> ps[i].shortName != ps[j].shortName
    ensures var p := ps[|ps| - 1];
      PerParade(d, ps, m) == PerParade(d, ps[..|ps| - 1], m) + [(p.shortName, MetricOf(d, p.keyName, m))]
  {
    var init := ps[..|ps| - 1];
    var p := ps[|ps| - 1];
    var prev := PerParade(d, init, m);
    PerParadeAt(d, init, m);
    SlotsDistinct(init);
    assert p.shortName !in Keys(prev) by {
      forall i | 0 <= i < |init| ensures Keys(prev)[i] != p.shortName {
        assert init[i] == ps[i];
      }
    }
    PutFresh(prev, p.shortName, MetricOf(d, p.keyName, m));
  }

  // ---------------------------------------------------------------------
  // Colour distribution

  /** `data[shortName]` of `getColorDistributionByParade`: colour to count,
      for the colours with a positive count at the parade `key`. */
  function DistributionAt(beads: Entries<Entries<Bucket>>, key: string): Entries<nat> {
    if beads == [] then []
    else
      var prev := DistributionAt(beads[..|beads| - 1], key);
      var colour := beads[|beads| - 1];
      var count := ColourContribution(colour.1, key, BeadCount);
      if count > 0 then Put(prev, colour.0, count) else prev
  }

  /** One more colour: it is assigned only when its count is positive. */
  lemma DistributionStep(beads: Entries<Entries<Bucket>>, key: string, c: nat)
    requires c < |beads|
    ensures var count := ColourContribution(beads[c].1, key, BeadCount);
      DistributionAt(beads[..c + 1], key)
      == if count > 0 then Put(DistributionAt(beads[..c], key), beads[c].0, count) else DistributionAt(beads[..c], key)
  {
    assert beads[..c + 1][..c] == beads[..c];
  }

  function Distributions(d: Dataset, ps: seq<Parade>): Entries<Entries<nat>> {
    if ps == [] then []
    else
      var p := ps[|ps| - 1];
      Put(Distributions(d, ps[..|ps| - 1]), p.shortName, DistributionAt(d.beads, p.keyName))
  }

  /** One more parade: its distribution is assigned under its short name. */
  lemma DistributionsStep(d: Dataset, ps: seq<Parade>, i: nat)
    requires i < |ps|
    ensures Distributions(d, ps[..i + 1]) == Put(Distributions(d, ps[..i]), ps[i].shortName, DistributionAt(d.beads, ps[i].keyName))
  {
    assert ps[..i + 1][..i] == ps[..i];
  }

  lemma {:induction false} DistributionsAt(d: Dataset, ps: seq<Parade>)
    ensures Keys(Distributions(d, ps)) == Keys(Slots(ps))
    ensures forall j :: 0 <= j < |Slots(ps)| ==> Distributions(d, ps)[j].1 == DistributionAt(d.beads, Slots(ps)[j].1)
  {
    if ps != [] {
      var p := ps[|ps| - 1];
      DistributionsAt(d, ps[..|ps| - 1]);
      PutAligned(Distributions(d, ps[..|ps| - 1]), Slots(ps[..|ps| - 1]), p.shortName, DistributionAt(d.beads, p.keyName), p.keyName);
    }
  }

  /** Only colours of `beads` appear in a distribution. */
  lemma {:induction false} DistributionColours(beads: Entries<Entries<Bucket>>, key: string)
    ensures forall c :: c in Keys(DistributionAt(beads, key)) ==> c in Keys(beads)
  {
    if beads != [] {
      var init := beads[..|beads| - 1];
      DistributionColours(init, key);
      forall c | c in Keys(init) ensures c in Keys(beads) {
        var i :| 0 <= i < |init| && Keys(init)[i] == c;
        assert Keys(beads)[i] == c;
      }
    }
  }

  /** With distinct colour keys each colour with a positive count is appended
      at the end of the distribution built so far. */
  lemma DistributionAppends(beads: Entries<Entries<Bucket>>, key: string)
    requires DistinctKeys(beads) && beads != []
    ensures var colour := beads[|beads| - 1];
      var count := ColourContribution(colour.1, key, BeadCount);
      var prev := DistributionAt(beads[..|beads| - 1], key);
      DistributionAt(beads, key) == if count > 0 then prev + [(colour.0, count)] else prev
  {
    var init := beads[..|beads| - 1];
    var colour := beads[|beads| - 1];
    var count := ColourContribution(colour.1, key, BeadCount);
    DistinctInit(beads);
    DistributionColours(init, key);
    if count > 0 {
      PutFresh(DistributionAt(init, key), colour.0, count);
    }
  }

  /** For one parade, with distinct colour keys: the distribution has one
      entry per colour with a positive count (so as many as the colour
      variety), its values are all positive and they add up to the parade's
      bead count. */
  lemma DistributionTotals(beads: Entries<Entries<Bucket>>, key: string)
    requires DistinctKeys(beads)
    ensures AllPositive(DistributionAt(beads, key))
    ensures |DistributionAt(beads, key)| == ParadeSum(beads, key, ColourVariety)
    ensures Sum(DistributionAt(beads, key)) == ParadeSum(beads, key, BeadCount)
  {
    DistributionPositive(beads, key);
    DistributionSize(beads, key);
    DistributionSum(beads, key);
  }

  lemma {:induction false} DistributionPositive(beads: Entries<Entries<Bucket>>, key: string)
    requires DistinctKeys(beads)
    ensures AllPositive(DistributionAt(beads, key))
  {
    if beads != [] {
      DistinctInit(beads);
      DistributionPositive(beads[..|beads| - 1], key);
      DistributionAppends(beads, key);
    }
  }

  lemma {:induction false} DistributionSize(beads: Entries<Entries<Bucket>>, key: string)
    requires DistinctKeys(beads)
    ensures |DistributionAt(beads, key)| == ParadeSum(beads, key, ColourVariety)
  {
    if beads != [] {
      DistinctInit(beads);
      DistributionSize(beads[..|beads| - 1], key);
      DistributionAppends(beads, key);
    }
  }

  lemma {:induction false} DistributionSum(beads: Entries<Entries<Bucket>>, key: string)
    requires DistinctKeys(beads)
    ensures Sum(DistributionAt(beads, key)) == ParadeSum(beads, key, BeadCount)
  {
    if beads != [] {
      var init := beads[..|beads| - 1];
      var colour := beads[|beads| - 1];
      DistinctInit(beads);
      DistributionSum(init, key);
      DistributionAppends(beads, key);
      var count := ColourContribution(colour.1, key, BeadCount);
      if count > 0 {
        SumSnoc(DistributionAt(init, key), colour.0, count);
      }
    }
  }

  /** For one parade, with distinct colour keys: a colour appears in the
      distribution exactly when its count there is positive, and then with
      that count. */
  lemma DistributionMembers(beads: Entries<Entries<Bucket>>, key: string)
    requires DistinctKeys(beads)
    ensures forall i :: 0 <= i < |beads| ==>
      (beads[i].0 in Keys(DistributionAt(beads, key)) <==> ColourContribution(beads[i].1, key, BeadCount) > 0)
    ensures forall i :: 0 <= i < |beads| && ColourContribution(beads[i].1, key, BeadCount) > 0 ==>
      Get(DistributionAt(beads, key), beads[i].0) == Some(ColourContribution(beads[i].1, key, BeadCount))
  {
    DistributionKeys(beads, key);
    DistributionValues(beads, key);
  }

  lemma {:induction false} DistributionKeys(beads: Entries<Entries<Bucket>>, key: string)
    requires DistinctKeys(beads)
    ensures forall i :: 0 <= i < |beads| ==>
      (beads[i].0 in Keys(DistributionAt(beads, key)) <==> ColourContribution(beads[i].1, key, BeadCount) > 0)
  {
    if beads != [] {
      var init := beads[..|beads| - 1];
      var colour := beads[|beads| - 1];
      var count := ColourContribution(colour.1, key, BeadCount);
      DistinctInit(beads);
      DistributionKeys(init, key);
      DistributionColours(init, key);
      DistributionAppends(beads, key);
      var prev := DistributionAt(init, key);
      var ks := Keys(DistributionAt(beads, key));
      if count > 0 {
        KeysAppend(prev, colour.0, count);
        assert ks == Keys(prev) + [colour.0];
      } else {
        assert ks == Keys(prev);
      }
      assert colour.0 !in Keys(prev);
      forall i | 0 <= i < |beads|
        ensures beads[i].0 in ks <==> ColourContribution(beads[i].1, key, BeadCount) > 0
      {
        if i < |init| {
          assert init[i] == beads[i] && init[i].0 != colour.0;
          assert beads[i].0 in ks <==> init[i].0 in Keys(prev);
        } else {
          assert beads[i] == colour;
        }
      }
    }
  }

  lemma {:induction false} DistributionValues(beads: Entries<Entries<Bucket>>, key: string)
    requires DistinctKeys(beads)
    ensures forall i :: 0 <= i < |beads| && ColourContribution(beads[i].1, key, BeadCount) > 0 ==>
      Get(DistributionAt(beads, key), beads[i].0) == Some(ColourContribution(beads[i].1, key, BeadCount))
  {
    if beads != [] {
      var init := beads[..|beads| - 1];
      var colour := beads[|beads| - 1];
      DistinctInit(beads);
      DistributionValues(init, key);
      var prev := DistributionAt(init, key);
      var count := ColourContribution(colour.1, key, BeadCount);
      var r := DistributionAt(beads, key);
      assert r == if count > 0 then Put(prev, colour.0, count) else prev;
      if count > 0 {
        PutGet(prev, colour.0, count);
      }
      forall i | 0 <= i < |beads| && ColourContribution(beads[i].1, key, BeadCount) > 0
        ensures Get(r, beads[i].0) == Some(ColourContribution(beads[i].1, key, BeadCount))
      {
        if i < |init| {
          assert init[i] == beads[i] && init[i].0 != colour.0;
        }
      }
    }
  }

  /** A parade never has more medallion beads than beads. */
  lemma {:induction false} MedallionsWithinBeads(beads: Entries<Entries<Bucket>>, key: string)
    ensures ParadeSum(beads, key, MedallionCount) <= ParadeSum(beads, key, BeadCount)
  {
    if beads != [] {
      MedallionsWithinBeads(beads[..|beads| - 1], key);
    }
  }

  /** A parade's colour variety never exceeds the number of colours. */
  lemma {:induction false} VarietyWithinColours(beads: Entries<Entries<Bucket>>, key: string)
    ensures ParadeSum(beads, key, ColourVariety) <= |beads|
  {
    if beads != [] {
      VarietyWithinColours(beads[..|beads| - 1], key);
    }
  }

  /** The per-parade results side by side, position by position (each keyed
      by short name): distribution entries are positive, there are as many
      as the colour variety, they add up to the bead count, and the
      medallion count is at most the bead count. */
  lemma ParadeFamilyAgrees(d: Dataset)
    requires DistinctKeys(d.beads)
    ensures
      var dist := Distributions(d, d.parades);
      var variety := PerParade(d, d.parades, Beads(ColourVariety));
      var count := PerParade(d, d.parades, Beads(BeadCount));
      var medallions := PerParade(d, d.parades, Beads(MedallionCount));
      && Keys(dist) == Keys(variety) == Keys(count) == Keys(medallions)
      && forall j :: 0 <= j < |dist| ==>
        && AllPositive(dist[j].1)
        && |dist[j].1| == variety[j].1
        && Sum(dist[j].1) == count[j].1
        && medallions[j].1 <= count[j].1
  {
    var slots := Slots(d.parades);
    DistributionsAt(d, d.parades);
    PerParadeAt(d, d.parades, Beads(ColourVariety));
    PerParadeAt(d, d.parades, Beads(BeadCount));
    PerParadeAt(d, d.parades, Beads(MedallionCount));
    forall j | 0 <= j < |slots|
      ensures AllPositive(DistributionAt(d.beads, slots[j].1))
      ensures |DistributionAt(d.beads, slots[j].1)| == ParadeSum(d.beads, slots[j].1, ColourVariety)
      ensures Sum(DistributionAt(d.beads, slots[j].1)) == ParadeSum(d.beads, slots[j].1, BeadCount)
      ensures ParadeSum(d.beads, slots[j].1, MedallionCount) <= ParadeSum(d.beads, slots[j].1, BeadCount)
    {
      DistributionTotals(d.beads, slots[j].1);
      MedallionsWithinBeads(d.beads, slots[j].1);
    }
  }

  // ---------------------------------------------------------------------
  // The loops

  /** The inner `forEach` over colours for one parade key. */
  method SumBeadMetric(beads: Entries<Entries<Bucket>>, key: string, m: BeadMetric) returns (total: nat)
    ensures total == ParadeSum(beads, key, m)
  {
    total := 0;
    for c := 0 to |beads|
      invariant total == ParadeSum(beads[..c], key, m)
    {
      assert beads[..c + 1][..c] == beads[..c];
      var colorData := beads[c].1;
      match Get(colorData, key)
      case None =>
      case Some(paradeData) =>
        match m
        case BeadCount =>
          total := total + Amount(paradeData.medallion, ByCount) + Amount(paradeData.regular, ByCount);
        case BeadWeight =>
          total := total + Amount(paradeData.medallion, ByWeight) + Amount(paradeData.regular, ByWeight);
        case MedallionCount =>
          total := total + Amount(paradeData.medallion, ByCount);
        case ColourVariety =>
          var count := Amount(paradeData.medallion, ByCount) + Amount(paradeData.regular, ByCount);
          if count > 0 {
            total := total + 1;
          }
    }
    assert beads[..|beads|] == beads;
  }

  /** The `forEach` over item types for one parade key. */
  method SumItems(items: Entries<Entries<Tally>>, key: string) returns (total: nat)
    ensures total == ItemsAt(items, key)
  {
    total := 0;
    for i := 0 to |items|
      invariant total == ItemsAt(items[..i], key)
    {
      assert items[..i + 1][..i] == items[..i];
      total := total + TallyCount(Get(items[i].1, key));
    }
    assert items[..|items|] == items;
  }

  method MetricFor(d: Dataset, key: string, m: ParadeMetric) returns (value: nat)
    ensures value == MetricOf(d, key, m)
  {
    match m
    case Beads(bm) =>
      value := SumBeadMetric(d.beads, key, bm);
    case ItemCount =>
      value := SumItems(d.items, key);
      value := value + TallyCount(Get(d.stuffedAnimals, key));
    case DoubloonCount =>
      value := TallyCount(Get(d.doubloons, key));
  }

  /** The outer `mardiGrasData.parades.forEach` shared by the per-parade functions. */
  method ByParade(d: Dataset, m: ParadeMetric) returns (data: Entries<nat>)
    ensures data == PerParade(d, d.parades, m)
  {
    data := [];
    for i := 0 to |d.parades|
      invariant data == PerParade(d, d.parades[..i], m)
    {
      PerParadeStep(d, d.parades, i, m);
      var parade := d.parades[i];
      var value := MetricFor(d, parade.keyName, m);
      data := Put(data, parade.shortName, value);
    }
    assert d.parades[..|d.parades|] == d.parades;
  }

  method GetBeadCountByParade(d: Dataset) returns (data: Entries<nat>)
    ensures data == PerParade(d, d.parades, Beads(BeadCount))
  {
    data := ByParade(d, Beads(BeadCount));
  }

  method GetBeadWeightByParade(d: Dataset) returns (data: Entries<nat>)
    ensures data == PerParade(d, d.parades, Beads(BeadWeight))
  {
    data := ByParade(d, Beads(BeadWeight));
  }

  method GetMedallionCountByParade(d: Dataset) returns (data: Entries<nat>)
    ensures data == PerParade(d, d.parades, Beads(MedallionCount))
  {
    data := ByParade(d, Beads(MedallionCount));
  }

  method GetColorVarietyByParade(d: Dataset) returns (data: Entries<nat>)
    ensures data == PerParade(d, d.parades, Beads(ColourVariety))
  {
    data := ByParade(d, Beads(ColourVariety));
  }

  /** Doubloons per named parade (the unaffiliated key is not visited). */
  method GetDoubloonsData(d: Dataset) returns (data: Entries<nat>)
    ensures data == PerParade(d, d.parades, DoubloonCount)
  {
    data := ByParade(d, DoubloonCount);
  }

  /** One parade's colour distribution: the inner loop of `getColorDistributionByParade`. */
  method DistributionFor(beads: Entries<Entries<Bucket>>, key: string) returns (dist: Entries<nat>)
    ensures dist == DistributionAt(beads, key)
  {
    dist := [];
    for c := 0 to |beads|
      invariant dist == DistributionAt(beads[..c], key)
    {
      DistributionStep(beads, key, c);
      var color := beads[c].0;
      var colorData := beads[c].1;
      match Get(colorData, key)
      case None =>
        assert ColourContribution(colorData, key, BeadCount) == 0;
      case Some(paradeData) =>
        var count := Amount(paradeData.medallion, ByCount) + Amount(paradeData.regular, ByCount);
        assert count == ColourContribution(colorData, key, BeadCount);
        if count > 0 {
          dist := Put(dist, color, count);
        }
    }
    assert beads[..|beads|] == beads;
  }

  method GetColorDistributionByParade(d: Dataset) returns (data: Entries<Entries<nat>>)
    ensures data == Distributions(d, d.parades)
  {
    data := [];
    for i := 0 to |d.parades|
      invariant data == Distributions(d, d.parades[..i])
    {
      DistributionsStep(d, d.parades, i);
      var parade := d.parades[i];
      var dist := DistributionFor(d.beads, parade.keyName);
      data := Put(data, parade.shortName, dist);
    }
    assert d.parades[..|d.parades|] == d.parades;
  }

  datatype Comparison = Comparison(itemsData: Entries<nat>, weightData: Entries<nat>)

  /** Items (all item types plus stuffed animals) and bead weight per named
      parade; the weights are exactly those of `getBeadWeightByParade`. */
  method GetParadeComparisonData(d: Dataset) returns (c: Comparison)
    ensures c.itemsData == PerParade(d, d.parades, ItemCount)
    ensures c.weightData == PerParade(d, d.parades, Beads(BeadWeight))
  {
    var itemsData, weightData := [], [];
    for i := 0 to |d.parades|
      invariant itemsData == PerParade(d, d.parades[..i], ItemCount)
      invariant weightData == PerParade(d, d.parades[..i], Beads(BeadWeight))
    {
      PerParadeStep(d, d.parades, i, ItemCount);
      PerParadeStep(d, d.parades, i, Beads(BeadWeight));
      var parade := d.parades[i];
      var totalItems := MetricFor(d, parade.keyName, ItemCount);
      itemsData := Put(itemsData, parade.shortName, totalItems);
      var totalWeight := MetricFor(d, parade.keyName, Beads(BeadWeight));
      weightData := Put(weightData, parade.shortName, totalWeight);
    }
    assert d.parades[..|d.parades|] == d.parades;
    c := Comparison(itemsData, weightData);
  }
}
