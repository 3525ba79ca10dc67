/**
 * The item store: a key-value backing store holding the shopping list under
 * `shopping_items` and the frequency index under `frequent_items`. Adding,
 * toggling and deleting read the list, change it, write it back and return
 * it, and adding also reads, bumps and writes the index; reading the list or
 * the index only reads, and saving the list only writes.
 */
module Storage {
  import opened Types
  import opened ItemList
  import opened Frequency

  /** The key of the shopping list. */
  const ItemsKey: string := "shopping_items"
  /** The key of the frequency index. */
  const FrequentKey: string := "frequent_items"

  /** The two keys differ, so writing one leaves what the other holds as it was. */
  lemma KeysDistinct()
    ensures ItemsKey != FrequentKey
  {
  }

  /**
   * What a read of a key finds once decoded: nothing (the key is absent or
   * holds the empty text), text that does not decode, or a list of entries.
   */
  datatype Stored<T> = Missing | Corrupt | Valid(entries: seq<T>)

  /** The list a read yields: the stored entries, or the empty list when there are none to decode. */
  function Contents<T>(st: Stored<T>): seq<T>
  {
    if st.Valid? then st.entries else []
  }

  /**
   * The frequency index after one addition of `name`: bumped when it decodes
   * (a missing index counts as empty), left as it is when it does not.
   */
  function Recorded(st: Stored<FrequentItem>, name: string, category: Category): Stored<FrequentItem>
  {
    if st.Corrupt? then st else Valid(Bumped(Contents(st), name, category))
  }

  /** An unreadable index is skipped; a readable one gains exactly one addition of the name. */
  lemma RecordedSpec(st: Stored<FrequentItem>, name: string, category: Category, other: string)
    ensures st.Corrupt? ==> Recorded(st, name, category) == st
    ensures !st.Corrupt? ==> Recorded(st, name, category).Valid?
    ensures !st.Corrupt? ==>
      TotalFor(Contents(Recorded(st, name, category)), other) ==
        TotalFor(Contents(st), other) + (if other == name then 1 else 0)
    ensures !st.Corrupt? && UniqueNames(Contents(st)) ==> UniqueNames(Contents(Recorded(st, name, category)))
  {
    if !st.Corrupt? {
      BumpedTotals(Contents(st), name, category, other);
      if UniqueNames(Contents(st)) {
        BumpedUnique(Contents(st), name, category);
      }
    }
  }

  class ItemStore {
    /** What is stored under `ItemsKey`. */
    var items: Stored<ShoppingItem>
    /** What is stored under `FrequentKey`. */
    var frequent: Stored<FrequentItem>

    constructor (items: Stored<ShoppingItem>, frequent: Stored<FrequentItem>)
      ensures this.items == items && this.frequent == frequent
    {
      this.items := items;
      this.frequent := frequent;
    }

    /** Reads the shopping list; a missing, empty or unreadable key reads as the empty list. */
    method GetItems() returns (r: seq<ShoppingItem>)
      ensures items.Valid? ==> r == items.entries
      ensures !items.Valid? ==> r == []
    {
      match items {
        case Valid(xs) => r := xs;
        case Missing => r := [];
        case Corrupt => r := [];
      }
    }

    /** Writes the shopping list, replacing whatever was stored, readable or not. */
    method SaveItems(xs: seq<ShoppingItem>)
      modifies this
      ensures items == Valid(xs) && frequent == old(frequent)
    {
      items := Valid(xs);
    }

    /**
     * Adds an item in front of the list and records its name in the frequency
     * index. The id is the decimal numeral of the clock reading `idTime`; the
     * creation time is a second reading `createdTime`.
     */
    method AddItem(name: string, category: Category, idTime: int, createdTime: int)
      returns (item: ShoppingItem)
      modifies this
      ensures item == ShoppingItem(Numeral(idTime), name, category, false, createdTime, None)
      ensures items == Valid([item] + Contents(old(items)))
      ensures frequent == Recorded(old(frequent), name, category)
      ensures AllWellFormed(Contents(old(items))) ==> AllWellFormed(Contents(items))
    {
      var xs := GetItems();
      item := ShoppingItem(Numeral(idTime), name, category, false, createdTime, None);
      xs := [item] + xs;
      SaveItems(xs);
      UpdateFrequentItem(name, category);
    }

    /**
     * Flips the completion of the first item with the id, stamping it with
     * `now` when it becomes completed and clearing the stamp otherwise. The
     * list is written back and returned even when no item has the id.
     */
    method ToggleItem(id: string, now: int) returns (r: seq<ShoppingItem>)
      modifies this
      ensures r == Toggled(Contents(old(items)), id, now)
      ensures items == Valid(r) && frequent == old(frequent)
      ensures AllWellFormed(Contents(old(items))) ==> AllWellFormed(r)
    {
      var xs := GetItems();
      var index := FindIndex(xs, id);
      if index != -1 {
        xs := xs[index := xs[index].(completed := !xs[index].completed)];
        xs := xs[index := xs[index].(completedAt := if xs[index].completed then Some(now) else None)];
      }
      SaveItems(xs);
      r := xs;
      if AllWellFormed(Contents(old(items))) {
        ToggledWellFormed(Contents(old(items)), id, now);
      }
    }

    /** Removes every item with the id, writes the rest back and returns it. */
    method DeleteItem(id: string) returns (r: seq<ShoppingItem>)
      modifies this
      ensures r == Without(Contents(old(items)), id)
      ensures items == Valid(r) && frequent == old(frequent)
      ensures AllWellFormed(Contents(old(items))) ==> AllWellFormed(r)
    {
      var xs := GetItems();
      r := Without(xs, id);
      SaveItems(r);
      if AllWellFormed(xs) {
        WithoutWellFormed(xs, id);
      }
    }

    /**
     * Reads the frequency index, sorts a copy by count, most frequent first,
     * and returns the first ten; nothing is written back.
     */
    method GetFrequentItems() returns (r: seq<FrequentItem>)
      ensures r == TopFrequent(Contents(frequent))
      ensures |r| <= MaxFrequent && Sorted(r)
      ensures multiset(r) <= multiset(Contents(frequent))
    {
      var xs: seq<FrequentItem>;
      match frequent {
        case Valid(entries) => xs := entries;
        case Missing => xs := [];
        case Corrupt => xs := [];
      }
      var a := new FrequentItem[|xs|](k requires 0 <= k < |xs| => xs[k]);
      assert a[..] == xs;
      SortInPlace(a);
      var n := if a.Length < MaxFrequent then a.Length else MaxFrequent;
      r := a[..n];
      TopFrequentSpec(xs);
    }

    /**
     * Records one addition of `name`: the first entry with that name has its
     * count raised, or a new entry with count 1 is appended. An index that does
     * not decode is left alone.
     */
    method UpdateFrequentItem(name: string, category: Category)
      modifies this
      ensures frequent == Recorded(old(frequent), name, category)
      ensures items == old(items)
    {
      if !frequent.Corrupt? {
        var xs := Contents(frequent);
        var existing := FindByName(xs, name);
        match existing {
          case Some(k) =>
            xs := xs[k := xs[k].(count := xs[k].count + 1)];
          case None =>
            xs := xs + [FrequentItem(name, category, 1)];
        }
        frequent := Valid(xs);
      }
    }
  }
}
