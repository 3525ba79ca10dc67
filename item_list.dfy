/**
 * The list operations the item store applies to the shopping list between a
 * read and a write: search by id, removal by id, flipping the completion of
 * the first item with an id, and the decimal ids made from clock readings.
 */
module ItemList {
  import opened Types

  // ---------------------------------------------------------------------------
  // Search by id (Array.prototype.findIndex)
  // ---------------------------------------------------------------------------

  /** The position of the first item with the given id, or -1 when there is none. */
  function FindIndex(xs: seq<ShoppingItem>, id: string): (k: int)
    ensures -1 <= k < |xs|
    ensures k >= 0 ==> xs[k].id == id
    ensures forall j :: 0 <= j < |xs| && (k == -1 || j < k) ==> xs[j].id != id
  {
    if |xs| == 0 then -1
    else if xs[0].id == id then 0
    else
      var k := FindIndex(xs[1..], id);
      if k == -1 then -1 else k + 1
  }

  /** Some item of `xs` has the id. */
  predicate HasId(xs: seq<ShoppingItem>, id: string)
  {
    exists j :: 0 <= j < |xs| && xs[j].id == id
  }

  lemma FindIndexFound(xs: seq<ShoppingItem>, id: string)
    ensures FindIndex(xs, id) != -1 <==> HasId(xs, id)
  {
  }

  // ---------------------------------------------------------------------------
  // Removal by id (Array.prototype.filter with item.id !== id)
  // ---------------------------------------------------------------------------

  /** The items whose id differs from `id`, in their original order. */
  function Without(xs: seq<ShoppingItem>, id: string): (r: seq<ShoppingItem>)
    ensures |r| <= |xs|
    ensures forall j :: 0 <= j < |r| ==> r[j].id != id
    ensures forall x :: multiset(r)[x] == if x.id == id then 0 else multiset(xs)[x]
  {
    if |xs| == 0 then []
    else
      assert xs == [xs[0]] + xs[1..];
      if xs[0].id == id then Without(xs[1..], id)
      else [xs[0]] + Without(xs[1..], id)
  }

  /** Removal distributes over concatenation, so the kept items stay in their order. */
  lemma {:induction false} WithoutAppend(a: seq<ShoppingItem>, b: seq<ShoppingItem>, id: string)
    ensures Without(a + b, id) == Without(a, id) + Without(b, id)
    decreases |a|
  {
    if |a| == 0 {
      assert a + b == b;
    } else {
      assert (a + b)[1..] == a[1..] + b;
      WithoutAppend(a[1..], b, id);
    }
  }

  lemma {:induction false} WithoutMissing(xs: seq<ShoppingItem>, id: string)
    requires !HasId(xs, id)
    ensures Without(xs, id) == xs
    decreases |xs|
  {
    if |xs| > 0 {
      forall j | 0 <= j < |xs[1..]|
        ensures xs[1..][j].id != id
      {
        assert xs[1..][j] == xs[j + 1];
      }
      WithoutMissing(xs[1..], id);
    }
  }

  lemma {:induction false} WithoutPresent(xs: seq<ShoppingItem>, id: string)
    requires HasId(xs, id)
    ensures |Without(xs, id)| < |xs|
    decreases |xs|
  {
    if xs[0].id != id {
      var j :| 0 <= j < |xs| && xs[j].id == id;
      assert xs[1..][j - 1] == xs[j];
      WithoutPresent(xs[1..], id);
    }
  }

  /** Removing a missing id changes nothing, and removing a present one shortens the list. */
  lemma WithoutUnchanged(xs: seq<ShoppingItem>, id: string)
    ensures Without(xs, id) == xs <==> !HasId(xs, id)
    ensures HasId(xs, id) ==> |Without(xs, id)| < |xs|
  {
    if HasId(xs, id) {
      WithoutPresent(xs, id);
    } else {
      WithoutMissing(xs, id);
    }
  }

  /** Removing twice is removing once. */
  lemma WithoutIdempotent(xs: seq<ShoppingItem>, id: string)
    ensures Without(Without(xs, id), id) == Without(xs, id)
  {
    WithoutUnchanged(Without(xs, id), id);
  }

  /** Removal keeps every item well formed that was. */
  lemma WithoutWellFormed(xs: seq<ShoppingItem>, id: string)
    requires AllWellFormed(xs)
    ensures AllWellFormed(Without(xs, id))
  {
    var r := Without(xs, id);
    forall j | 0 <= j < |r|
      ensures WellFormed(r[j])
    {
      assert r[j] in multiset(r);
      assert r[j] in multiset(xs);
    }
  }

  // ---------------------------------------------------------------------------
  // Toggling the first item with an id
  // ---------------------------------------------------------------------------

  /** An item with `completed` flipped and `completedAt` set to `now` or cleared to match. */
  function Flipped(item: ShoppingItem, now: int): (r: ShoppingItem)
  {
    var done := !item.completed;
    item.(completed := done, completedAt := if done then Some(now) else None)
  }

  /** What flipping means: only the completion fields change, and they agree afterwards. */
  lemma FlippedSpec(item: ShoppingItem, now: int)
    ensures Flipped(item, now).completed == !item.completed
    ensures Flipped(item, now).completedAt == Some(now) <==> !item.completed
    ensures WellFormed(Flipped(item, now))
    ensures Flipped(item, now).id == item.id && Flipped(item, now).name == item.name
    ensures Flipped(item, now).category == item.category
    ensures Flipped(item, now).createdAt == item.createdAt
  {
  }

  /** The list with the first item whose id is `id` flipped; unchanged when no item has it. */
  function Toggled(xs: seq<ShoppingItem>, id: string, now: int): (r: seq<ShoppingItem>)
  {
    var k := FindIndex(xs, id);
    if k == -1 then xs else xs[k := Flipped(xs[k], now)]
  }

  /**
   * Toggling keeps the length and every item but the first with the id; that one
   * is flipped, and a later item with the same id is left alone.
   */
  lemma ToggledSpec(xs: seq<ShoppingItem>, id: string, now: int)
    ensures |Toggled(xs, id, now)| == |xs|
    ensures !HasId(xs, id) ==> Toggled(xs, id, now) == xs
    ensures forall j :: 0 <= j < |xs| ==>
      Toggled(xs, id, now)[j] ==
        if xs[j].id == id && (forall i :: 0 <= i < j ==> xs[i].id != id)
        then Flipped(xs[j], now) else xs[j]
  {
    var k := FindIndex(xs, id);
    forall j | 0 <= j < |xs|
      ensures Toggled(xs, id, now)[j] ==
        if xs[j].id == id && (forall i :: 0 <= i < j ==> xs[i].id != id)
        then Flipped(xs[j], now) else xs[j]
    {
      if k != -1 && j > k {
        assert xs[k].id == id;
      }
    }
  }

  /** Toggling never changes an id, so the same item is found again. */
  lemma ToggledKeepsIds(xs: seq<ShoppingItem>, id: string, now: int)
    ensures forall j :: 0 <= j < |xs| ==> Toggled(xs, id, now)[j].id == xs[j].id
    ensures FindIndex(Toggled(xs, id, now), id) == FindIndex(xs, id)
  {
    var r := Toggled(xs, id, now);
    assert forall j :: 0 <= j < |xs| ==> r[j].id == xs[j].id;
  }

  /** Toggling keeps every item well formed, whatever state the flipped one was in. */
  lemma ToggledWellFormed(xs: seq<ShoppingItem>, id: string, now: int)
    requires AllWellFormed(xs)
    ensures AllWellFormed(Toggled(xs, id, now))
  {
    ToggledSpec(xs, id, now);
  }

  /**
   * Toggling twice restores the completion flag; an item that was open ends up
   * open again with no completion time, so a well-formed open list comes back as it was.
   */
  lemma {:induction false} ToggleTwice(xs: seq<ShoppingItem>, id: string, t1: int, t2: int)
    ensures forall j :: 0 <= j < |xs| ==> Toggled(Toggled(xs, id, t1), id, t2)[j].completed == xs[j].completed
    ensures AllWellFormed(xs) && FindIndex(xs, id) != -1 && !xs[FindIndex(xs, id)].completed ==>
      Toggled(Toggled(xs, id, t1), id, t2) == xs
  {
    ToggledKeepsIds(xs, id, t1);
  }

  // ---------------------------------------------------------------------------
  // Ids made from clock readings (Number.prototype.toString, base 10)
  // ---------------------------------------------------------------------------

  function DigitChar(d: nat): char
    requires d < 10
  {
    "0123456789"[d]
  }

  /** The decimal numeral of `n`, without leading zeros. */
  function Digits(n: nat): (s: string)
    ensures |s| >= 1
    ensures n >= 10 ==> |s| >= 2
    ensures s[0] != '0' || n == 0
    ensures forall i :: 0 <= i < |s| ==> '0' <= s[i] <= '9'
  {
    if n < 10 then [DigitChar(n)] else Digits(n / 10) + [DigitChar(n % 10)]
  }

  /**
   * The decimal numeral of a clock reading as `toString` writes it: the digits
   * of its magnitude, after a minus sign when the reading is before the epoch.
   */
  function Numeral(n: int): (s: string)
    ensures |s| >= 1
    ensures s[0] == '-' <==> n < 0
    ensures forall i :: 0 <= i < |s| && (i > 0 || n >= 0) ==> '0' <= s[i] <= '9'
  {
    if n < 0 then "-" + Digits(-n) else Digits(n)
  }

  /** Two clock readings give the same id exactly when they are equal. */
  lemma NumeralInjective(m: int, n: int)
    ensures Numeral(m) == Numeral(n) <==> m == n
  {
    if Numeral(m) == Numeral(n) {
      SameSign(m, n);
      if m < 0 {
        NegativeNumeralInjective(m, n);
      } else {
        UnsignedNumeralInjective(m, n);
      }
    }
  }

  /** The same id comes from two readings on the same side of the epoch. */
  lemma SameSign(m: int, n: int)
    requires Numeral(m) == Numeral(n)
    ensures m < 0 <==> n < 0
  {
  }

  /** Behind the sign of a negative reading stands the numeral of its magnitude. */
  lemma SignedNumeral(n: int)
    requires n < 0
    ensures Numeral(n)[1..] == Numeral(-n)
  {
  }

  lemma NegativeNumeralInjective(m: int, n: int)
    requires m < 0 && n < 0 && Numeral(m) == Numeral(n)
    ensures m == n
  {
    SignedNumeral(m);
    SignedNumeral(n);
    UnsignedNumeralInjective(-m, -n);
  }

  lemma UnsignedNumeralInjective(a: int, b: int)
    requires a >= 0 && b >= 0 && Numeral(a) == Numeral(b)
    ensures a == b
  {
    DigitsInjective(a, b);
  }

  /** Two non-negative readings have the same digits exactly when they are equal. */
  lemma {:induction false} DigitsInjective(m: nat, n: nat)
    ensures Digits(m) == Digits(n) <==> m == n
    decreases m
  {
    if m >= 10 && n >= 10 && Digits(m) == Digits(n) {
      var s := Digits(m);
      assert s[..|s| - 1] == Digits(m / 10);
      assert s[..|s| - 1] == Digits(n / 10);
      DigitsInjective(m / 10, n / 10);
      assert DigitChar(m % 10) == DigitChar(n % 10);
    }
  }

  /**
   * Two items whose ids come from the same clock reading share an id: a toggle
   * then reaches only the front one, and a delete removes both.
   */
  lemma SameIdFrontTakesToggleDeleteTakesBoth(a: ShoppingItem, b: ShoppingItem,
                                               xs: seq<ShoppingItem>, now: int)
    requires a.id == b.id
    ensures Toggled([a, b] + xs, a.id, now) == [Flipped(a, now), b] + xs
    ensures Without([a, b] + xs, a.id) == Without(xs, a.id)
  {
    assert ([a, b] + xs)[1..] == [b] + xs;
    assert ([b] + xs)[1..] == xs;
  }
}
