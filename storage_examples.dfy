/**
 * Runs of the item store that the application's tests describe, each on a
 * fresh store, with the outcome the tests expect stated as a postcondition.
 * Clock readings are arbitrary distinct values, except where a shared reading
 * is the point of the run.
 */
module StorageExamples {
  import opened Types
  import opened ItemList
  import opened Frequency
  import opened Storage

  /** Adding to an empty store yields an open item with the given name and category, first in the list. */
  method AddToEmpty() returns (item: ShoppingItem, listed: seq<ShoppingItem>)
    ensures item.name == "牛乳" && item.category == Food && !item.completed && |item.id| > 0
    ensures listed == [item]
  {
    var store := new ItemStore(Missing, Missing);
    item := store.AddItem("牛乳", Food, 1000, 1000);
    listed := store.GetItems();
  }

  /** The most recent addition comes first. */
  method NewestFirst() returns (listed: seq<ShoppingItem>)
    ensures |listed| == 2 && listed[0].name == "卵" && listed[1].name == "牛乳"
  {
    var store := new ItemStore(Missing, Missing);
    var milk := store.AddItem("牛乳", Food, 1000, 1000);
    var egg := store.AddItem("卵", Food, 1010, 1010);
    listed := store.GetItems();
  }

  /** Adding a name twice counts it twice. */
  method AddTwiceCountsTwo() returns (top: seq<FrequentItem>)
    ensures top == [FrequentItem("牛乳", Food, 2)]
  {
    var store := new ItemStore(Missing, Missing);
    var first := store.AddItem("牛乳", Food, 1000, 1000);
    BumpEmpty("牛乳", Food);
    BumpSole(FrequentItem("牛乳", Food, 1), Food);
    var second := store.AddItem("牛乳", Food, 1010, 1010);
    SoleTop(FrequentItem("牛乳", Food, 2));
    top := store.GetFrequentItems();
  }

  /** Toggling completes an item with a time stamp; toggling again reopens it and drops the stamp. */
  method ToggleBackAndForth() returns (once: seq<ShoppingItem>, twice: seq<ShoppingItem>)
    ensures |once| == 1 && once[0].completed && once[0].completedAt == Some(2000)
    ensures |twice| == 1 && !twice[0].completed && twice[0].completedAt == None
  {
    var store := new ItemStore(Missing, Missing);
    var item := store.AddItem("牛乳", Food, 1000, 1000);
    once := store.ToggleItem(item.id, 2000);
    twice := store.ToggleItem(item.id, 3000);
  }

  /** Toggling an id no item has leaves the list as it was. */
  method ToggleUnknownId() returns (listed: seq<ShoppingItem>)
    ensures |listed| == 1 && !listed[0].completed
  {
    var store := new ItemStore(Missing, Missing);
    var item := store.AddItem("牛乳", Food, 1000, 1000);
    listed := store.ToggleItem("non-existent-id", 2000);
  }

  /** Deleting by id removes that item and keeps the other. */
  method DeleteOne() returns (listed: seq<ShoppingItem>, egg: ShoppingItem)
    ensures |listed| == 1 && listed[0].name == "卵" && listed[0].id == egg.id
  {
    var store := new ItemStore(Missing, Missing);
    var milk := store.AddItem("牛乳", Food, 1000, 1000);
    egg := store.AddItem("卵", Food, 1010, 1010);
    NumeralInjective(1000, 1010);
    listed := store.DeleteItem(milk.id);
  }

  /** Deleting an id no item has keeps every item. */
  method DeleteUnknownId() returns (listed: seq<ShoppingItem>)
    ensures |listed| == 1
  {
    var store := new ItemStore(Missing, Missing);
    var item := store.AddItem("牛乳", Food, 1000, 1000);
    listed := store.DeleteItem("non-existent-id");
  }

  /**
   * Two additions within the same millisecond get the same id, so one delete
   * removes both.
   */
  method SameMillisecondDeleteRemovesBoth() returns (listed: seq<ShoppingItem>)
    ensures listed == []
  {
    var store := new ItemStore(Missing, Missing);
    var milk := store.AddItem("牛乳", Food, 1000, 1000);
    var egg := store.AddItem("卵", Food, 1000, 1000);
    listed := store.DeleteItem(milk.id);
  }

  /** The first addition to an empty index records the name once. */
  lemma BumpEmpty(name: string, category: Category)
    ensures Bumped([], name, category) == [FrequentItem(name, category, 1)]
  {
  }

  /** A read of an index with one entry returns that entry. */
  lemma SoleTop(e: FrequentItem)
    ensures TopFrequent([e]) == [e]
  {
    assert [e][..0] == [];
  }

  /** A second addition of the only name in the index raises its count. */
  lemma BumpSole(e: FrequentItem, category: Category)
    ensures Bumped([e], e.name, category) == [e.(count := e.count + 1)]
  {
  }

  /** A name other than the only one in the index is appended after it. */
  lemma AddSecond(e: FrequentItem, name: string, category: Category)
    requires name != e.name
    ensures Bumped([e], name, category) == [e, FrequentItem(name, category, 1)]
  {
  }

  /** Two entries already in descending order of count are read back as they are. */
  lemma AlreadyOrdered(x: FrequentItem, y: FrequentItem)
    requires x.count >= y.count
    ensures TopFrequent([x, y]) == [x, y]
  {
    assert [x, y][..1] == [x];
    assert SortByCount([x]) == [x];
    assert Insert([x], y) == [x, y];
  }

  /** The most frequent name comes first. */
  method MostFrequentFirst() returns (top: seq<FrequentItem>)
    ensures top == [FrequentItem("牛乳", Food, 3), FrequentItem("卵", Food, 1)]
  {
    var store := new ItemStore(Missing, Missing);
    var milk3, egg1 := FrequentItem("牛乳", Food, 3), FrequentItem("卵", Food, 1);
    var a := store.AddItem("牛乳", Food, 1000, 1000);
    BumpEmpty("牛乳", Food);
    BumpSole(FrequentItem("牛乳", Food, 1), Food);
    var b := store.AddItem("牛乳", Food, 1010, 1010);
    BumpSole(FrequentItem("牛乳", Food, 2), Food);
    var c := store.AddItem("牛乳", Food, 1020, 1020);
    AddSecond(milk3, "卵", Food);
    var d := store.AddItem("卵", Food, 1030, 1030);
    AlreadyOrdered(milk3, egg1);
    top := store.GetFrequentItems();
  }

  /** An unreadable shopping list reads as empty, and the next addition replaces it. */
  method CorruptItemsReadEmpty() returns (before: seq<ShoppingItem>, after: seq<ShoppingItem>)
    ensures before == []
    ensures |after| == 1 && after[0].name == "牛乳"
  {
    var store := new ItemStore(Corrupt, Missing);
    before := store.GetItems();
    var item := store.AddItem("牛乳", Food, 1000, 1000);
    after := store.GetItems();
  }

  /** An unreadable frequency index reads as empty and an addition leaves it unreadable. */
  method CorruptIndexReadsEmpty() returns (before: seq<FrequentItem>, after: seq<FrequentItem>,
                                           listed: seq<ShoppingItem>)
    ensures before == [] && after == []
    ensures |listed| == 1 && listed[0].name == "牛乳"
  {
    var store := new ItemStore(Missing, Corrupt);
    before := store.GetFrequentItems();
    var item := store.AddItem("牛乳", Food, 1000, 1000);
    after := store.GetFrequentItems();
    listed := store.GetItems();
  }

  /** What is saved is what is read back. */
  method SaveThenGet(xs: seq<ShoppingItem>) returns (r: seq<ShoppingItem>)
    ensures r == xs
  {
    var store := new ItemStore(Corrupt, Missing);
    store.SaveItems(xs);
    r := store.GetItems();
  }
}
