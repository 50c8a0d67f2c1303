/** The shape of the tracker's dataset (`mardiGrasData`) and the small
    reading helpers every aggregation shares: a missing bucket, a missing
    `{count, weight}` record and a missing field all read as 0. */
module Dataset {
  import opened Objects

  /** A `{count, weight}` record; either field may be absent. */
  datatype Measure = Measure(count: Option<nat>, weight: Option<nat>)

  /** The `other` record of an unaffiliated bucket. */
  datatype OtherBeads = OtherBeads(medallion: Option<Measure>, special: Option<Measure>)

  /** What a colour ledger holds under one parade key. Named parades fill
      `medallion`/`regular`; the reserved unaffiliated key fills the size
      fields and `other`. Which fields are read is decided by the key, never
      by the bucket, so one record carries them all. */
  datatype Bucket = Bucket(
    medallion: Option<Measure>,
    regular: Option<Measure>,
    small: Option<Measure>,
    medium: Option<Measure>,
    large: Option<Measure>,
    nonSphere: Option<Measure>,
    other: Option<OtherBeads>)

  /** A `{count}` record (doubloons, items, stuffed animals, specials). */
  datatype Tally = Tally(count: Option<nat>)

  /** The fields of a parade record the aggregation reads. */
  datatype Parade = Parade(keyName: string, shortName: string)

  /** `mardiGrasData`: `beads` maps colour to ledger (parade key to bucket),
      `items` maps item type to parade key to tally, `stuffedAnimals` is
      `throws.stuffedAnimals.parade` and `specials` is `throws.specials.items`. */
  datatype Dataset = Dataset(
    parades: seq<Parade>,
    beads: Entries<Entries<Bucket>>,
    doubloons: Entries<Tally>,
    items: Entries<Entries<Tally>>,
    stuffedAnimals: Entries<Tally>,
    specials: Entries<Tally>)

  /** The reserved key of beads caught away from any named parade. */
  const Unaffiliated: string := "unaffiliated"

  datatype Metric = ByCount | ByWeight

  /** `m ? (m.count || 0) : 0`, or the same for `weight`. */
  function Amount(m: Option<Measure>, metric: Metric): nat {
    match m
    case None => 0
    case Some(x) => (if metric == ByCount then x.count else x.weight).GetOr(0)
  }

  /** `t ? (t.count || 0) : 0`, also written `t?.count || 0`. */
  function TallyCount(t: Option<Tally>): nat {
    match t
    case None => 0
    case Some(x) => x.count.GetOr(0)
  }

  /** `b.other && b.other.medallion` */
  function OtherMedallion(b: Bucket): Option<Measure> {
    if b.other.Some? then b.other.value.medallion else None
  }

  /** `b.other && b.other.special` */
  function OtherSpecial(b: Bucket): Option<Measure> {
    if b.other.Some? then b.other.value.special else None
  }

  /** small + medium + large + nonSphere of an unaffiliated bucket. */
  function SizeAmount(b: Bucket, metric: Metric): nat {
    Amount(b.small, metric) + Amount(b.medium, metric) + Amount(b.large, metric) + Amount(b.nonSphere, metric)
  }

  /** medallion + regular of a named-parade bucket. */
  function NamedAmount(b: Bucket, metric: Metric): nat {
    Amount(b.medallion, metric) + Amount(b.regular, metric)
  }

  /** Everything a bucket holds, read the way its key says: the four sizes,
      `other.medallion` and `other.special` under the unaffiliated key,
      `medallion` and `regular` under any other key. */
  function RawAmount(key: string, b: Bucket, metric: Metric): nat {
    if key == Unaffiliated then
      SizeAmount(b, metric) + Amount(OtherMedallion(b), metric) + Amount(OtherSpecial(b), metric)
    else
      NamedAmount(b, metric)
  }

  /** `['unaffiliated', ...parades.map(p => p.keyName)]` */
  function ParadeKeys(d: Dataset): (keys: seq<string>)
    ensures |keys| == 1 + |d.parades|
    ensures keys[0] == Unaffiliated
    ensures forall i :: 0 <= i < |d.parades| ==> keys[i + 1] == d.parades[i].keyName
  {
    [Unaffiliated] + seq(|d.parades|, i requires 0 <= i < |d.parades| => d.parades[i].keyName)
  }
}
