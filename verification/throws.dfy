/** Totals per throwable item type (`getItemsData`): for each item type, its
    counts under the unaffiliated key and every named parade key. */
module Throws {
  import opened Objects
  import opened Dataset
  import opened Statistics

  /** The object `getItemsData` builds: item type to total count. */
  function ItemsDataOf(items: Entries<Entries<Tally>>, keys: seq<string>): Entries<nat> {
    if items == [] then []
    else
      var last := items[|items| - 1];
      Put(ItemsDataOf(items[..|items| - 1], keys), last.0, TallyTotal(last.1, keys))
  }

  /** One more item type: its total is assigned under its key. */
  lemma ItemsDataStep(items: Entries<Entries<Tally>>, keys: seq<string>, i: nat)
    requires i < |items|
    ensures ItemsDataOf(items[..i + 1], keys) == Put(ItemsDataOf(items[..i], keys), items[i].0, TallyTotal(items[i].1, keys))
  {
    assert items[..i + 1][..i] == items[..i];
  }

  method GetItemsData(d: Dataset) returns (data: Entries<nat>)
    ensures data == ItemsDataOf(d.items, ParadeKeys(d))
  {
    var parades := ParadeKeys(d);
    data := [];
    for i := 0 to |d.items|
      invariant data == ItemsDataOf(d.items[..i], parades)
    {
      ItemsDataStep(d.items, parades, i);
      var item := d.items[i].0;
      var total := SumTallies(d.items[i].1, parades);
      data := Put(data, item, total);
    }
    assert d.items[..|d.items|] == d.items;
  }

  /** With distinct item keys, `getItemsData` has exactly the item types of
      `throws.items`, in order, and its values add up to the statistics'
      `totalItems`. */
  lemma ItemsDataMatchesStatistics(items: Entries<Entries<Tally>>, keys: seq<string>)
    requires DistinctKeys(items)
    ensures Keys(ItemsDataOf(items, keys)) == Keys(items)
    ensures forall i :: 0 <= i < |items| ==> ItemsDataOf(items, keys)[i].1 == TallyTotal(items[i].1, keys)
    ensures Sum(ItemsDataOf(items, keys)) == ItemTotal(items, keys)
  {
    ItemsDataValues(items, keys);
    ItemsDataSum(items, keys);
  }

  /** With distinct item keys every item type is a fresh key, so it is appended. */
  lemma {:induction false} ItemsDataAppends(items: Entries<Entries<Tally>>, keys: seq<string>)
    requires DistinctKeys(items) && items != []
    ensures Keys(ItemsDataOf(items[..|items| - 1], keys)) == Keys(items[..|items| - 1])
    ensures ItemsDataOf(items, keys)
      == ItemsDataOf(items[..|items| - 1], keys) + [(items[|items| - 1].0, TallyTotal(items[|items| - 1].1, keys))]
    decreases |items|, 0
  {
    var init := items[..|items| - 1];
    var last := items[|items| - 1];
    DistinctInit(items);
    ItemsDataKeys(init, keys);
    PutFresh(ItemsDataOf(init, keys), last.0, TallyTotal(last.1, keys));
  }

  lemma {:induction false} ItemsDataKeys(items: Entries<Entries<Tally>>, keys: seq<string>)
    requires DistinctKeys(items)
    ensures Keys(ItemsDataOf(items, keys)) == Keys(items)
    decreases |items|, 1
  {
    if items != [] {
      var init := items[..|items| - 1];
      var last := items[|items| - 1];
      ItemsDataAppends(items, keys);
      DistinctInit(items);
      KeysAppend(ItemsDataOf(init, keys), last.0, TallyTotal(last.1, keys));
    }
  }

  lemma {:induction false} ItemsDataValues(items: Entries<Entries<Tally>>, keys: seq<string>)
    requires DistinctKeys(items)
    ensures |ItemsDataOf(items, keys)| == |items|
    ensures forall i :: 0 <= i < |items| ==> ItemsDataOf(items, keys)[i].1 == TallyTotal(items[i].1, keys)
  {
    if items != [] {
      var init := items[..|items| - 1];
      DistinctInit(items);
      ItemsDataValues(init, keys);
      ItemsDataAppends(items, keys);
      var r := ItemsDataOf(items, keys);
      forall i | 0 <= i < |items| ensures r[i].1 == TallyTotal(items[i].1, keys) {
        if i < |init| {
          assert init[i] == items[i];
        }
      }
    }
  }

  lemma {:induction false} ItemsDataSum(items: Entries<Entries<Tally>>, keys: seq<string>)
    requires DistinctKeys(items)
    ensures Sum(ItemsDataOf(items, keys)) == ItemTotal(items, keys)
  {
    if items != [] {
      var init := items[..|items| - 1];
      var last := items[|items| - 1];
      DistinctInit(items);
      ItemsDataSum(init, keys);
      ItemsDataAppends(items, keys);
      SumSnoc(ItemsDataOf(init, keys), last.0, TallyTotal(last.1, keys));
    }
  }

  /** An item type listed under none of the visited keys totals 0: absent
      parade entries contribute nothing. */
  lemma {:induction false} AbsentParadesCountZero(m: Entries<Tally>, keys: seq<string>)
    requires forall k :: k in keys ==> k !in Keys(m)
    ensures TallyTotal(m, keys) == 0
  {
    if keys != [] {
      AbsentParadesCountZero(m, keys[..|keys| - 1]);
    }
  }
}
