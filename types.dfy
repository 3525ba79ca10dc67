/**
 * The records of the shopping list: the closed set of categories, a shopping
 * item and an entry of the frequency index, plus an Option for the optional
 * `completedAt` field and for "not found" search results.
 */
module Types {

  datatype Option<+T> = None | Some(value: T)

  /** The three categories; `Label` gives the text the application stores. */
  datatype Category = Food | Daily | Other

  function Label(c: Category): string
  {
    match c
    case Food => "食品"
    case Daily => "日用品"
    case Other => "その他"
  }

  /** The three labels are distinct, so a stored label names exactly one category. */
  lemma LabelInjective(a: Category, b: Category)
    ensures Label(a) == Label(b) <==> a == b
  {
  }

  /**
   * One entry of the shopping list. `createdAt` and `completedAt` are clock
   * readings in milliseconds; `completedAt` is absent (None) unless set by a toggle.
   */
  datatype ShoppingItem = ShoppingItem(
    id: string,
    name: string,
    category: Category,
    completed: bool,
    createdAt: int,
    completedAt: Option<int>)

  /** One entry of the frequency index: how often `name` was added. */
  datatype FrequentItem = FrequentItem(name: string, category: Category, count: int)

  /** The intended item invariant: a completion time is present exactly when the item is completed. */
  predicate WellFormed(item: ShoppingItem)
  {
    item.completedAt.Some? <==> item.completed
  }

  predicate AllWellFormed(items: seq<ShoppingItem>)
  {
    forall i :: 0 <= i < |items| ==> WellFormed(items[i])
  }
}
