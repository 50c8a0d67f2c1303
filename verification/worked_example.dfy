/** A worked example of `getBeadData`: one colour, purple, with 10 regular
    beads (100 g) at parade A and 2 medallions (40 g) at parade B, and no
    unaffiliated bucket. */
module WorkedExample {
  import opened Objects
  import opened Dataset
  import opened BeadData

  const AtA: Bucket := Bucket(None, Some(Measure(Some(10), Some(100))), None, None, None, None, None)
  const AtB: Bucket := Bucket(Some(Measure(Some(2), Some(40))), None, None, None, None, None, None)
  const Purple: Entries<Bucket> := [("A", AtA), ("B", AtB)]
  const Parades: Dataset := Dataset([Parade("A", "A"), Parade("B", "B")], [("purple", Purple)], [], [], [], [])

  const AfterA: ColourSummary := ColourSummary(0, 0, CountWeight(0, 0), CountWeight(10, 100), Sizes(0, 0, 0, 0, 0))
  const AfterB: ColourSummary := ColourSummary(0, 0, CountWeight(2, 40), CountWeight(10, 100), Sizes(0, 0, 0, 0, 0))

  lemma PurpleLookups()
    ensures Get(Purple, Unaffiliated) == None
    ensures Get(Purple, "A") == Some(AtA)
    ensures Get(Purple, "B") == Some(AtB)
  {
    assert Keys(Purple) == ["A", "B"];
    assert Position(["A", "B"], Unaffiliated) == 2;
  }

  lemma PurpleSteps()
    ensures AddBucket(EmptySummary, "A", AtA) == AfterA
    ensures AddBucket(AfterA, "B", AtB) == AfterB
  {
    NamedStep(EmptySummary, "A", AtA);
    NamedStep(AfterA, "B", AtB);
  }

  /** Under a named key a bucket's `medallion` and `regular` are added as they are. */
  lemma NamedStep(acc: ColourSummary, key: string, b: Bucket)
    requires key != Unaffiliated
    ensures AddBucket(acc, key, b) == acc.(medallion := Plus(acc.medallion, b.medallion), regular := Plus(acc.regular, b.regular))
  {
  }

  lemma PurpleAfterUnaffiliated()
    ensures Accumulate(Purple, [Unaffiliated]) == EmptySummary
  {
    PurpleLookups();
    assert [Unaffiliated][..0] == [];
  }

  lemma PurpleAfterA()
    ensures Accumulate(Purple, [Unaffiliated, "A"]) == AfterA
  {
    var keys := [Unaffiliated, "A"];
    assert keys[..1] == [Unaffiliated];
    PurpleAfterUnaffiliated();
    PurpleLookups();
    AccumulateStep(Purple, keys, EmptySummary, AtA);
    assert Accumulate(Purple, keys) == AddBucket(EmptySummary, "A", AtA);
    PurpleSteps();
  }

  lemma PurpleAccumulates()
    ensures Accumulate(Purple, [Unaffiliated, "A", "B"]) == AfterB
  {
    var keys := [Unaffiliated, "A", "B"];
    assert keys[..2] == [Unaffiliated, "A"];
    PurpleAfterA();
    PurpleLookups();
    AccumulateStep(Purple, keys, AfterA, AtB);
    assert Accumulate(Purple, keys) == AddBucket(AfterA, "B", AtB);
    PurpleSteps();
  }

  /** One step of the fold, for a key whose bucket is present. */
  lemma AccumulateStep(ledger: Entries<Bucket>, keys: seq<string>, before: ColourSummary, b: Bucket)
    requires keys != []
    requires Accumulate(ledger, keys[..|keys| - 1]) == before
    requires Get(ledger, keys[|keys| - 1]) == Some(b)
    ensures Accumulate(ledger, keys) == AddBucket(before, keys[|keys| - 1], b)
  {
  }

  /** Purple summarises to 12 beads weighing 140 g: 2 medallions (40 g) and
      10 regular beads (100 g). */
  lemma PurpleSummary()
    ensures BeadDataOf(Parades.beads, ParadeKeys(Parades))
      == [("purple", ColourSummary(12, 140, CountWeight(2, 40), CountWeight(10, 100), Sizes(0, 0, 0, 0, 0)))]
  {
    assert ParadeKeys(Parades) == [Unaffiliated, "A", "B"];
    PurpleAccumulates();
    assert Parades.beads[..0] == [];
    PutFresh([], "purple", Summarise(Purple, [Unaffiliated, "A", "B"]));
  }
}
