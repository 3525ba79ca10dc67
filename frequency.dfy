/**
 * The frequency index: how often each name was added. Adding a name bumps its
 * entry or appends a new one; reading the index orders it by count, most
 * frequent first, keeping entries with equal counts in their stored order, and
 * keeps the first ten.
 */
module Frequency {
  import opened Types

  /** How many entries a read of the index returns at most. */
  const MaxFrequent: nat := 10

  // ---------------------------------------------------------------------------
  // Bumping a name (Array.prototype.find, then count++ or push)
  // ---------------------------------------------------------------------------

  /** The position of the first entry with exactly this name, if any. */
  function FindByName(xs: seq<FrequentItem>, name: string): (r: Option<nat>)
    ensures r.Some? ==> r.value < |xs| && xs[r.value].name == name
    ensures forall j :: 0 <= j < |xs| && (r.None? || j < r.value) ==> xs[j].name != name
  {
    if |xs| == 0 then None
    else if xs[0].name == name then Some(0)
    else
      match FindByName(xs[1..], name)
      case None => None
      case Some(k) => Some(k + 1)
  }

  predicate HasName(xs: seq<FrequentItem>, name: string)
  {
    exists j :: 0 <= j < |xs| && xs[j].name == name
  }

  /** The index after one more addition of `name` under `category`. */
  function Bumped(xs: seq<FrequentItem>, name: string, category: Category): (r: seq<FrequentItem>)
  {
    match FindByName(xs, name)
    case Some(k) => xs[k := xs[k].(count := xs[k].count + 1)]
    case None => xs + [FrequentItem(name, category, 1)]
  }

  /**
   * A known name has the count of its first entry raised by one, its category
   * kept, and nothing else changed; an unknown name is appended with count 1.
   */
  lemma BumpedSpec(xs: seq<FrequentItem>, name: string, category: Category)
    ensures |Bumped(xs, name, category)| == if HasName(xs, name) then |xs| else |xs| + 1
    ensures forall j :: 0 <= j < |xs| ==>
      Bumped(xs, name, category)[j].name == xs[j].name &&
      Bumped(xs, name, category)[j].category == xs[j].category
    ensures forall j :: 0 <= j < |xs| ==>
      Bumped(xs, name, category)[j].count ==
        if xs[j].name == name && (forall i :: 0 <= i < j ==> xs[i].name != name)
        then xs[j].count + 1 else xs[j].count
    ensures !HasName(xs, name) ==> Bumped(xs, name, category)[|xs|] == FrequentItem(name, category, 1)
  {
    var r := Bumped(xs, name, category);
    match FindByName(xs, name)
    case None =>
    case Some(k) =>
      forall j | 0 <= j < |xs|
        ensures r[j].count ==
          if xs[j].name == name && (forall i :: 0 <= i < j ==> xs[i].name != name)
          then xs[j].count + 1 else xs[j].count
      {
        if j > k {
          assert xs[k].name == name;
        }
      }
  }

  /** The sum of the counts of the entries named `name`. */
  function TotalFor(xs: seq<FrequentItem>, name: string): int
  {
    if |xs| == 0 then 0
    else (if xs[0].name == name then xs[0].count else 0) + TotalFor(xs[1..], name)
  }

  lemma {:induction false} TotalForAppend(xs: seq<FrequentItem>, e: FrequentItem, name: string)
    ensures TotalFor(xs + [e], name) == TotalFor(xs, name) + (if e.name == name then e.count else 0)
    decreases |xs|
  {
    if |xs| == 0 {
      assert (xs + [e])[1..] == [];
    } else {
      assert (xs + [e])[1..] == xs[1..] + [e];
      TotalForAppend(xs[1..], e, name);
    }
  }

  lemma {:induction false} TotalForUpdate(xs: seq<FrequentItem>, k: nat, e: FrequentItem, name: string)
    requires k < |xs| && e.name == xs[k].name
    ensures TotalFor(xs[k := e], name) ==
      TotalFor(xs, name) + (if e.name == name then e.count - xs[k].count else 0)
    decreases k
  {
    if k == 0 {
      assert xs[k := e][1..] == xs[1..];
    } else {
      assert xs[k := e][1..] == xs[1..][k - 1 := e];
      TotalForUpdate(xs[1..], k - 1, e, name);
    }
  }

  /** One addition of `name` raises the total count of `name` by one and of no other name. */
  lemma BumpedTotals(xs: seq<FrequentItem>, name: string, category: Category, other: string)
    ensures TotalFor(Bumped(xs, name, category), other) ==
      TotalFor(xs, other) + (if other == name then 1 else 0)
  {
    match FindByName(xs, name)
    case None =>
      TotalForAppend(xs, FrequentItem(name, category, 1), other);
    case Some(k) =>
      TotalForUpdate(xs, k, xs[k].(count := xs[k].count + 1), other);
  }

  /** No two entries share a name. */
  predicate UniqueNames(xs: seq<FrequentItem>)
  {
    forall i, j :: 0 <= i < j < |xs| ==> xs[i].name != xs[j].name
  }

  /** Bumping keeps names unique, so an index built only by bumping has one entry per name. */
  lemma BumpedUnique(xs: seq<FrequentItem>, name: string, category: Category)
    requires UniqueNames(xs)
    ensures UniqueNames(Bumped(xs, name, category))
  {
    BumpedSpec(xs, name, category);
  }

  // ---------------------------------------------------------------------------
  // Ordering by count (Array.prototype.sort with (a, b) => b.count - a.count)
  // ---------------------------------------------------------------------------

  /** Counts never increase along the sequence. */
  predicate Sorted(s: seq<FrequentItem>)
  {
    forall i, j :: 0 <= i < j < |s| ==> s[i].count >= s[j].count
  }

  /** `x` placed after every entry of `t` whose count is at least its own. */
  function Insert(t: seq<FrequentItem>, x: FrequentItem): (r: seq<FrequentItem>)
    ensures |r| == |t| + 1
  {
    if |t| == 0 then [x]
    else if t[0].count < x.count then [x] + t
    else [t[0]] + Insert(t[1..], x)
  }

  lemma {:induction false} InsertPermutes(t: seq<FrequentItem>, x: FrequentItem)
    ensures multiset(Insert(t, x)) == multiset(t) + multiset{x}
    decreases |t|
  {
    if |t| > 0 {
      assert t == [t[0]] + t[1..];
      InsertPermutes(t[1..], x);
    }
  }

  /**
   * The stable descending order by count: the entries are inserted one by one
   * in stored order, each after the earlier ones with a count at least its own.
   */
  function SortByCount(s: seq<FrequentItem>): (r: seq<FrequentItem>)
    ensures |r| == |s|
  {
    if |s| == 0 then []
    else Insert(SortByCount(s[..|s| - 1]), s[|s| - 1])
  }

  /** The order is a permutation of the stored entries. */
  lemma {:induction false} SortByCountPermutes(s: seq<FrequentItem>)
    ensures multiset(SortByCount(s)) == multiset(s)
    decreases |s|
  {
    if |s| > 0 {
      assert s == s[..|s| - 1] + [s[|s| - 1]];
      SortByCountPermutes(s[..|s| - 1]);
      InsertPermutes(SortByCount(s[..|s| - 1]), s[|s| - 1]);
    }
  }

  lemma {:induction false} InsertSorted(t: seq<FrequentItem>, x: FrequentItem)
    requires Sorted(t)
    ensures Sorted(Insert(t, x))
    decreases |t|
  {
    if |t| > 0 && t[0].count >= x.count {
      InsertSorted(t[1..], x);
      var rest := Insert(t[1..], x);
      InsertBounded(t[1..], x, t[0].count);
      assert Insert(t, x) == [t[0]] + rest;
    }
  }

  /** Inserting keeps every count at most `bound` when the entries and `x` have that property. */
  lemma {:induction false} InsertBounded(t: seq<FrequentItem>, x: FrequentItem, bound: int)
    requires forall k :: 0 <= k < |t| ==> t[k].count <= bound
    requires x.count <= bound
    ensures forall k :: 0 <= k < |Insert(t, x)| ==> Insert(t, x)[k].count <= bound
    decreases |t|
  {
    if |t| > 0 && t[0].count >= x.count {
      InsertBounded(t[1..], x, bound);
      assert Insert(t, x) == [t[0]] + Insert(t[1..], x);
    }
  }

  /** The order is non-increasing in count. */
  lemma {:induction false} SortByCountSorted(s: seq<FrequentItem>)
    ensures Sorted(SortByCount(s))
    decreases |s|
  {
    if |s| > 0 {
      SortByCountSorted(s[..|s| - 1]);
      InsertSorted(SortByCount(s[..|s| - 1]), s[|s| - 1]);
    }
  }

  /** Where `Insert` puts `x` when the entries before `p` count at least `x` and the one at `p` less. */
  lemma {:induction false} InsertAt(t: seq<FrequentItem>, x: FrequentItem, p: nat)
    requires p <= |t|
    requires forall k :: 0 <= k < p ==> t[k].count >= x.count
    requires p < |t| ==> t[p].count < x.count
    ensures Insert(t, x) == t[..p] + [x] + t[p..]
    decreases p
  {
    if p > 0 {
      InsertAt(t[1..], x, p - 1);
      assert t[1..][..p - 1] == t[1..p];
      assert t[1..][p - 1..] == t[p..];
      assert t[..p] == [t[0]] + t[1..p];
    }
  }

  // ---------------------------------------------------------------------------
  // Stability: entries with equal counts keep their stored order
  // ---------------------------------------------------------------------------

  /** The entries with count `c`, in order. */
  function WithCount(s: seq<FrequentItem>, c: int): seq<FrequentItem>
  {
    if |s| == 0 then []
    else (if s[0].count == c then [s[0]] else []) + WithCount(s[1..], c)
  }

  lemma {:induction false} WithCountAppend(a: seq<FrequentItem>, b: seq<FrequentItem>, c: int)
    ensures WithCount(a + b, c) == WithCount(a, c) + WithCount(b, c)
    decreases |a|
  {
    if |a| == 0 {
      assert a + b == b;
    } else {
      var head := if a[0].count == c then [a[0]] else [];
      assert (a + b)[0] == a[0];
      assert (a + b)[1..] == a[1..] + b;
      assert WithCount(a + b, c) == head + WithCount(a[1..] + b, c);
      WithCountAppend(a[1..], b, c);
      assert WithCount(a, c) == head + WithCount(a[1..], c);
      assert head + (WithCount(a[1..], c) + WithCount(b, c)) == (head + WithCount(a[1..], c)) + WithCount(b, c);
    }
  }

  lemma {:induction false} WithCountNone(t: seq<FrequentItem>, c: int)
    requires forall k :: 0 <= k < |t| ==> t[k].count < c
    ensures WithCount(t, c) == []
    decreases |t|
  {
    if |t| > 0 {
      WithCountNone(t[1..], c);
    }
  }

  lemma {:induction false} InsertWithCount(t: seq<FrequentItem>, x: FrequentItem, c: int)
    requires Sorted(t)
    ensures WithCount(Insert(t, x), c) == WithCount(t, c) + (if x.count == c then [x] else [])
    decreases |t|
  {
    if |t| == 0 {
    } else if t[0].count < x.count {
      assert ([x] + t)[1..] == t;
      if x.count == c {
        WithCountNone(t, c);
      }
    } else {
      var rest := Insert(t[1..], x);
      var head := if t[0].count == c then [t[0]] else [];
      assert ([t[0]] + rest)[0] == t[0];
      assert ([t[0]] + rest)[1..] == rest;
      assert WithCount(Insert(t, x), c) == head + WithCount(rest, c);
      InsertWithCount(t[1..], x, c);
      assert WithCount(t, c) == head + WithCount(t[1..], c);
    }
  }

  /** Entries with equal counts appear in the order in which they are stored. */
  lemma {:induction false} SortByCountStable(s: seq<FrequentItem>, c: int)
    ensures WithCount(SortByCount(s), c) == WithCount(s, c)
    decreases |s|
  {
    if |s| > 0 {
      var init, last := s[..|s| - 1], s[|s| - 1];
      SortByCountStable(init, c);
      SortByCountSorted(init);
      InsertWithCount(SortByCount(init), last, c);
      assert s == init + [last];
      WithCountAppend(init, [last], c);
      assert [last][1..] == [];
    }
  }

  /** The order is a stable descending order by count, and only that one is. */
  lemma SortByCountSpec(s: seq<FrequentItem>)
    ensures Sorted(SortByCount(s))
    ensures multiset(SortByCount(s)) == multiset(s)
    ensures forall c :: WithCount(SortByCount(s), c) == WithCount(s, c)
  {
    SortByCountSorted(s);
    SortByCountPermutes(s);
    forall c
      ensures WithCount(SortByCount(s), c) == WithCount(s, c)
    {
      SortByCountStable(s, c);
    }
  }

  /** Sorting one entry more is inserting that entry into the sorted rest. */
  lemma SortByCountSnoc(s: seq<FrequentItem>, i: nat)
    requires i < |s|
    ensures SortByCount(s[..i + 1]) == Insert(SortByCount(s[..i]), s[i])
  {
    assert s[..i + 1][..i] == s[..i];
  }

  /** One step of the insertion sort: `x` placed at `j` among the sorted entries `t`. */
  lemma SortStep(t: seq<FrequentItem>, x: FrequentItem, j: nat, b: seq<FrequentItem>)
    requires Sorted(t) && j <= |t| < |b|
    requires forall k :: 0 <= k < j ==> b[k] == t[k]
    requires b[j] == x
    requires forall k :: j < k <= |t| ==> b[k] == t[k - 1]
    requires forall k :: j <= k < |t| ==> t[k].count < x.count
    requires j > 0 ==> t[j - 1].count >= x.count
    ensures b[..|t| + 1] == Insert(t, x)
  {
    forall k | 0 <= k < j
      ensures t[k].count >= x.count
    {
      assert t[k].count >= t[j - 1].count;
    }
    InsertAt(t, x, j);
    var u := t[..j] + [x] + t[j..];
    forall k | 0 <= k <= |t|
      ensures b[k] == u[k]
    {
      if k > j {
        assert u[k] == t[j..][k - j - 1];
      }
    }
    assert b[..|t| + 1] == u;
  }

  /**
   * Moves `a[i]` left past the entries just before it with a smaller count and
   * returns the position where it lands.
   */
  method ShiftIn(a: array<FrequentItem>, i: nat) returns (j: nat)
    requires i < a.Length
    modifies a
    ensures j <= i
    ensures forall k :: 0 <= k < j ==> a[k] == old(a[k])
    ensures a[j] == old(a[i])
    ensures forall k :: j < k <= i ==> a[k] == old(a[k - 1])
    ensures forall k :: i < k < a.Length ==> a[k] == old(a[k])
    ensures forall k :: j <= k < i ==> old(a[k]).count < old(a[i]).count
    ensures j > 0 ==> old(a[j - 1]).count >= old(a[i]).count
  {
    var x := a[i];
    j := i;
    while j > 0 && a[j - 1].count < x.count
      invariant j <= i
      invariant forall k :: 0 <= k < j ==> a[k] == old(a[k])
      invariant forall k :: j < k <= i ==> a[k] == old(a[k - 1])
      invariant forall k :: i < k < a.Length ==> a[k] == old(a[k])
      invariant forall k :: j <= k < i ==> old(a[k]).count < x.count
    {
      a[j] := a[j - 1];
      j := j - 1;
    }
    a[j] := x;
  }

  /**
   * The in-place insertion sort: each entry in turn is moved left past the
   * already sorted entries with a smaller count.
   */
  method SortInPlace(a: array<FrequentItem>)
    modifies a
    ensures a[..] == SortByCount(old(a[..]))
  {
    ghost var s := a[..];
    var i := 0;
    while i < a.Length
      invariant 0 <= i <= a.Length
      invariant a[..i] == SortByCount(s[..i])
      invariant forall k :: i <= k < a.Length ==> a[k] == s[k]
    {
      ghost var t := a[..i];
      var j := ShiftIn(a, i);
      SortByCountSorted(s[..i]);
      SortStep(t, s[i], j, a[..]);
      SortByCountSnoc(s, i);
      i := i + 1;
    }
    assert a[..] == a[..a.Length];
    assert s == s[..a.Length];
  }

  // ---------------------------------------------------------------------------
  // The first ten (slice(0, 10))
  // ---------------------------------------------------------------------------

  /** The most frequent entries as a read of the index returns them. */
  function TopFrequent(s: seq<FrequentItem>): (r: seq<FrequentItem>)
    ensures |r| == if |s| < MaxFrequent then |s| else MaxFrequent
  {
    var t := SortByCount(s);
    t[..if |t| < MaxFrequent then |t| else MaxFrequent]
  }

  /**
   * A read returns at most ten entries, ordered by count, drawn from the stored
   * ones, and all of them when there are at most ten.
   */
  lemma TopFrequentSpec(s: seq<FrequentItem>)
    ensures |TopFrequent(s)| <= MaxFrequent
    ensures Sorted(TopFrequent(s))
    ensures multiset(TopFrequent(s)) <= multiset(s)
    ensures |s| <= MaxFrequent ==> multiset(TopFrequent(s)) == multiset(s)
  {
    var t := SortByCount(s);
    var r := TopFrequent(s);
    SortByCountSorted(s);
    SortByCountPermutes(s);
    assert t == r + t[|r|..];
  }

  /** In a sorted sequence, every entry before position `n` counts at least as much as any entry from `n` on. */
  lemma SortedSplit(t: seq<FrequentItem>, n: nat, x: FrequentItem)
    requires Sorted(t) && n <= |t|
    requires x in multiset(t[n..])
    ensures forall i :: 0 <= i < n ==> t[i].count >= x.count
  {
    assert x in t[n..];
    var j :| 0 <= j < |t[n..]| && t[n..][j] == x;
    assert t[n + j] == x;
  }

  /** No stored entry left out of a read counts more than an entry the read returns. */
  lemma TopFrequentDominates(s: seq<FrequentItem>, x: FrequentItem)
    requires x in multiset(s) - multiset(TopFrequent(s))
    ensures forall i :: 0 <= i < |TopFrequent(s)| ==> TopFrequent(s)[i].count >= x.count
  {
    var t := SortByCount(s);
    var r := TopFrequent(s);
    SortByCountSorted(s);
    SortByCountPermutes(s);
    assert t == r + t[|r|..];
    assert multiset(t) == multiset(r) + multiset(t[|r|..]);
    SortedSplit(t, |r|, x);
  }

  /** Among entries of equal count, a read returns the ones stored first. */
  lemma TopFrequentStable(s: seq<FrequentItem>, c: int)
    ensures WithCount(TopFrequent(s), c) <= WithCount(s, c)
  {
    var t := SortByCount(s);
    var r := TopFrequent(s);
    assert t == r + t[|r|..];
    WithCountAppend(r, t[|r|..], c);
    SortByCountStable(s, c);
  }
}
