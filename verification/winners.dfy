/** Leaderboard winners (`renderWinners`, `getParadeWinners`). Each scan
    starts from an empty name with value 0 and takes an entry only when its
    value is strictly greater than the best so far, so the first entry to
    reach the maximum wins, and when nothing is positive the name stays
    empty. */
module Winners {
  import opened Objects
  import opened Dataset
  import opened BeadData
  import opened ParadeData

  datatype Winner = Winner(name: string, value: nat)

  /** What a scan over `entries` returns: a value no entry exceeds; when it
      is positive, the first entry holding it; when it is 0, the empty name. */
  predicate IsLeader(entries: Entries<nat>, w: Winner) {
    && (forall i :: 0 <= i < |entries| ==> entries[i].1 <= w.value)
    && (w.value == 0 ==> w.name == "")
    && (w.value > 0 ==> exists i :: 0 <= i < |entries| && entries[i] == (w.name, w.value) && FirstReaching(entries, i))
  }

  /** No entry before `i` reaches the value at `i`. */
  predicate FirstReaching(entries: Entries<nat>, i: nat)
    requires i < |entries|
  {
    forall j :: 0 <= j < i ==> entries[j].1 < entries[i].1
  }

  /** The argmax scan. */
  method Leader(entries: Entries<nat>) returns (w: Winner)
    ensures IsLeader(entries, w)
    ensures (forall i :: 0 <= i < |entries| ==> entries[i].1 == 0) <==> w == Winner("", 0)
  {
    w := Winner("", 0);
    for i := 0 to |entries|
      invariant forall j :: 0 <= j < i ==> entries[j].1 <= w.value
      invariant w.value == 0 ==> w.name == ""
      invariant w.value > 0 ==> exists k :: 0 <= k < i && entries[k] == (w.name, w.value) && FirstReaching(entries, k)
    {
      if entries[i].1 > w.value {
        w := Winner(entries[i].0, entries[i].1);
      }
    }
  }

  /** The scan's result is determined by its contract: two winners of the
      same entries are the same winner. */
  lemma LeaderUnique(entries: Entries<nat>, v: Winner, w: Winner)
    requires IsLeader(entries, v) && IsLeader(entries, w)
    ensures v == w
  {
    LeaderBelow(entries, v, w);
    LeaderBelow(entries, w, v);
    if v.value > 0 {
      var i :| 0 <= i < |entries| && entries[i] == (v.name, v.value) && FirstReaching(entries, i);
      var k :| 0 <= k < |entries| && entries[k] == (w.name, w.value) && FirstReaching(entries, k);
      FirstReachingUnique(entries, i, k);
    }
  }

  /** Two positions that are both first to reach the same value are the same position. */
  lemma FirstReachingUnique(entries: Entries<nat>, i: nat, k: nat)
    requires i < |entries| && k < |entries|
    requires entries[i].1 == entries[k].1
    requires FirstReaching(entries, i) && FirstReaching(entries, k)
    ensures i == k
  {
  }

  /** A winner's value is reached by an entry, so no other winner's value is below it. */
  lemma LeaderBelow(entries: Entries<nat>, v: Winner, w: Winner)
    requires IsLeader(entries, v) && IsLeader(entries, w)
    ensures v.value <= w.value
  {
    if v.value > 0 {
      var i :| 0 <= i < |entries| && entries[i] == (v.name, v.value) && FirstReaching(entries, i);
      assert entries[i].1 <= w.value;
    }
  }

  /** The `count` (or `weight`) column of a `getBeadData` result. */
  function Column(data: Entries<ColourSummary>, metric: Metric): (column: Entries<nat>)
    ensures Keys(column) == Keys(data)
  {
    seq(|data|, i requires 0 <= i < |data| => (data[i].0, if metric == ByCount then data[i].1.count else data[i].1.weight))
  }

  /** The two colour winners of the summary cards: most beads and heaviest. */
  method BeadWinners(d: Dataset) returns (countWinner: Winner, weightWinner: Winner)
    ensures IsLeader(Column(BeadDataOf(d.beads, ParadeKeys(d)), ByCount), countWinner)
    ensures IsLeader(Column(BeadDataOf(d.beads, ParadeKeys(d)), ByWeight), weightWinner)
  {
    var beadData := GetBeadData(d);
    countWinner := Leader(Column(beadData, ByCount));
    weightWinner := Leader(Column(beadData, ByWeight));
  }

  datatype ParadeWinners = ParadeWinners(mostGenerous: Winner, heaviest: Winner, mostColorful: Winner, medallionKing: Winner)

  method GetParadeWinners(d: Dataset) returns (w: ParadeWinners)
    ensures IsLeader(PerParade(d, d.parades, Beads(BeadCount)), w.mostGenerous)
    ensures IsLeader(PerParade(d, d.parades, Beads(BeadWeight)), w.heaviest)
    ensures IsLeader(PerParade(d, d.parades, Beads(ColourVariety)), w.mostColorful)
    ensures IsLeader(PerParade(d, d.parades, Beads(MedallionCount)), w.medallionKing)
  {
    var countData := GetBeadCountByParade(d);
    var weightData := GetBeadWeightByParade(d);
    var colorVarietyData := GetColorVarietyByParade(d);
    var medallionData := GetMedallionCountByParade(d);
    var mostGenerous := Leader(countData);
    var heaviest := Leader(weightData);
    var mostColorful := Leader(colorVarietyData);
    var medallionKing := Leader(medallionData);
    w := ParadeWinners(mostGenerous, heaviest, mostColorful, medallionKing);
  }
}
