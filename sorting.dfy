/**
 * Sorting a roll buffer in descending order, as `std::sort` with
 * `std::greater<>()` does before the rolls of the two sides are compared.
 */
module Sorting {
  import opened Dice

  /** Each roll is at least as high as every roll after it. */
  predicate NonIncreasing(s: seq<uint8>)
  {
    forall i, j :: 0 <= i < j < |s| ==> s[i] >= s[j]
  }

  /** Putting `y` in front of a non-increasing sequence whose head is at most `y` keeps it non-increasing. */
  lemma PrependKeepsNonIncreasing(y: uint8, s: seq<uint8>)
    requires NonIncreasing(s)
    requires s != [] ==> y >= s[0]
    ensures NonIncreasing([y] + s)
  {
  }

  /** Inserts `x` before the first element it is at least as high as. */
  function Insert(x: uint8, s: seq<uint8>): (r: seq<uint8>)
    ensures |r| == |s| + 1
  {
    if s == [] || x >= s[0] then [x] + s
    else [s[0]] + Insert(x, s[1..])
  }

  /** Inserting adds exactly one copy of `x` to the elements. */
  lemma {:induction false} InsertAddsElement(x: uint8, s: seq<uint8>)
    ensures multiset(Insert(x, s)) == multiset(s) + multiset{x}
  {
    if s != [] && x < s[0] {
      InsertAddsElement(x, s[1..]);
      assert s == [s[0]] + s[1..];
    }
  }

  /** The inserted sequence starts either with `x` or with the old head. */
  lemma InsertHead(x: uint8, s: seq<uint8>)
    ensures Insert(x, s)[0] == x || (s != [] && Insert(x, s)[0] == s[0])
  {
  }

  /** Inserting into a non-increasing sequence keeps it non-increasing. */
  lemma {:induction false} InsertKeepsOrder(x: uint8, s: seq<uint8>)
    requires NonIncreasing(s)
    ensures NonIncreasing(Insert(x, s))
  {
    if s == [] || x >= s[0] {
      PrependKeepsNonIncreasing(x, s);
    } else {
      assert NonIncreasing(s[1..]);
      InsertKeepsOrder(x, s[1..]);
      InsertHead(x, s[1..]);
      PrependKeepsNonIncreasing(s[0], Insert(x, s[1..]));
    }
  }

  /** The rolls in descending order: the reference definition of the sort (insertion sort). */
  function SortDesc(s: seq<uint8>): (r: seq<uint8>)
    ensures |r| == |s|
  {
    if s == [] then [] else Insert(s[0], SortDesc(s[1..]))
  }

  /** `SortDesc` yields a non-increasing rearrangement of its input. */
  lemma {:induction false} SortDescSortsAndPermutes(s: seq<uint8>)
    ensures NonIncreasing(SortDesc(s))
    ensures multiset(SortDesc(s)) == multiset(s)
  {
    if s != [] {
      SortDescSortsAndPermutes(s[1..]);
      InsertKeepsOrder(s[0], SortDesc(s[1..]));
      InsertAddsElement(s[0], SortDesc(s[1..]));
      assert s == [s[0]] + s[1..];
    }
  }

  /** The head of a non-increasing sequence is at least every element of it. */
  lemma HeadIsMaximum(s: seq<uint8>, x: uint8)
    requires NonIncreasing(s)
    requires x in multiset(s)
    ensures s[0] >= x
  {
    var k :| 0 <= k < |s| && s[k] == x;
  }

  /** Dropping the head of a non-empty sequence removes one copy of it from its elements. */
  lemma TailElements(s: seq<uint8>)
    requires s != []
    ensures multiset(s[1..]) == multiset(s) - multiset{s[0]}
  {
    assert s == [s[0]] + s[1..];
  }

  /**
   * Two non-increasing sequences with the same non-empty elements start with
   * the same roll, and what follows is again two non-increasing sequences with
   * the same elements.
   */
  lemma SameHead(s: seq<uint8>, t: seq<uint8>)
    requires NonIncreasing(s) && NonIncreasing(t)
    requires multiset(s) == multiset(t)
    requires s != []
    ensures t != [] && s[0] == t[0]
    ensures NonIncreasing(s[1..]) && NonIncreasing(t[1..])
    ensures multiset(s[1..]) == multiset(t[1..])
  {
    assert s[0] in multiset(s);
    assert |multiset(t)| == |t|;
    assert t[0] in multiset(t);
    HeadIsMaximum(t, s[0]);
    HeadIsMaximum(s, t[0]);
    TailElements(s);
    TailElements(t);
  }

  /**
   * A sequence has only one non-increasing arrangement: two non-increasing
   * sequences with the same elements are equal. So any correct sort (such as
   * `std::sort`, which is not stable) yields exactly `SortDesc`.
   */
  lemma {:induction false} NonIncreasingArrangementUnique(s: seq<uint8>, t: seq<uint8>)
    requires NonIncreasing(s) && NonIncreasing(t)
    requires multiset(s) == multiset(t)
    ensures s == t
    decreases |s|
  {
    if s == [] {
      assert |t| == |multiset(t)| == 0;
    } else {
      SameHead(s, t);
      NonIncreasingArrangementUnique(s[1..], t[1..]);
      assert s == [s[0]] + s[1..];
      assert t == [t[0]] + t[1..];
    }
  }

  /** Exchanges two adjacent rolls of `a`. */
  method SwapAdjacent(a: array<uint8>, j: nat)
    requires 0 < j < a.Length
    modifies a
    ensures a[j - 1] == old(a[j]) && a[j] == old(a[j - 1])
    ensures forall k :: 0 <= k < a.Length && k != j - 1 && k != j ==> a[k] == old(a[k])
    ensures multiset(a[..]) == multiset(old(a[..]))
  {
    a[j - 1], a[j] := a[j], a[j - 1];
  }

  /** Sorts `a` in place into descending order (insertion sort). */
  method SortDescending(a: array<uint8>)
    modifies a
    ensures NonIncreasing(a[..])
    ensures multiset(a[..]) == multiset(old(a[..]))
    ensures a[..] == SortDesc(old(a[..]))
  {
    var i := 0;
    while i < a.Length
      invariant 0 <= i <= a.Length
      invariant NonIncreasing(a[..i])
      invariant multiset(a[..]) == multiset(old(a[..]))
    {
      var j := i;
      while j > 0 && a[j - 1] < a[j]
        invariant 0 <= j <= i
        invariant multiset(a[..]) == multiset(old(a[..]))
        invariant forall p, q :: 0 <= p < q <= i && p != j && q != j ==> a[p] >= a[q]
        invariant forall q :: j < q <= i ==> a[q] < a[j]
      {
        SwapAdjacent(a, j);
        j := j - 1;
      }
      i := i + 1;
    }
    assert a[..a.Length] == a[..];
    SortDescSortsAndPermutes(old(a[..]));
    NonIncreasingArrangementUnique(a[..], SortDesc(old(a[..])));
  }
}
