/**
 * The playlist cursor of the player screen (`PlayerViewController.Model`):
 * a fixed list of player items built once from URL strings, and an index
 * that `nextItem()` advances circularly.
 *
 * Player items are an opaque type parameter. Whether a string parses as a
 * URL is an uninterpreted predicate `parses`, and building the item for a
 * parsed string is an uninterpreted function `toItem`.
 */
module Playlist {
  import opened Wrappers

  /** The items `init(urlStrings:)` keeps: one per string that parses, in input order. */
  function ParsedItems<Item>(urlStrings: seq<string>, parses: string -> bool, toItem: string -> Item): (items: seq<Item>)
    ensures |items| <= |urlStrings|
    ensures (forall i :: 0 <= i < |urlStrings| ==> parses(urlStrings[i])) ==> |items| == |urlStrings|
    ensures (forall i :: 0 <= i < |urlStrings| ==> !parses(urlStrings[i])) ==> items == []
  {
    if urlStrings == [] then []
    else
      (if parses(urlStrings[0]) then [toItem(urlStrings[0])] else [])
      + ParsedItems(urlStrings[1..], parses, toItem)
  }

  /** Shifts every index of `idx` up by one. */
  function Shifted(idx: seq<nat>): (r: seq<nat>)
    ensures |r| == |idx| && forall k :: 0 <= k < |idx| ==> r[k] == idx[k] + 1
  {
    seq(|idx|, k requires 0 <= k < |idx| => idx[k] + 1)
  }

  /**
   * `idx` lists, strictly increasing, exactly the positions of the strings of
   * `urlStrings` that parse, and item `k` of `items` is built from string `idx[k]`.
   */
  ghost predicate IsOrderedFilter<Item>(urlStrings: seq<string>, parses: string -> bool, toItem: string -> Item,
                                        items: seq<Item>, idx: seq<nat>)
  {
    |idx| == |items| &&
    (forall k :: 0 <= k < |idx| ==> idx[k] < |urlStrings| && parses(urlStrings[idx[k]]) && items[k] == toItem(urlStrings[idx[k]])) &&
    (forall k, l :: 0 <= k < l < |idx| ==> idx[k] < idx[l]) &&
    (forall i :: 0 <= i < |urlStrings| && parses(urlStrings[i]) ==> i in idx)
  }

  /** Dropping a string that does not parse shifts the filter's positions by one. */
  lemma OrderedFilterSkip<Item>(head: string, rest: seq<string>, parses: string -> bool, toItem: string -> Item,
                                items: seq<Item>, idx: seq<nat>)
    requires IsOrderedFilter(rest, parses, toItem, items, idx)
    requires !parses(head)
    ensures IsOrderedFilter([head] + rest, parses, toItem, items, Shifted(idx))
  {
    var all, shifted := [head] + rest, Shifted(idx);
    SkipBuildsItems(head, rest, parses, toItem, items, idx);
    SkipIsIncreasing(idx);
    forall i | 0 <= i < |all| && parses(all[i])
      ensures i in shifted
    {
      assert i != 0 && all[i] == rest[i - 1];
      var k :| 0 <= k < |idx| && idx[k] == i - 1;
      assert shifted[k] == i;
    }
  }

  lemma SkipBuildsItems<Item>(head: string, rest: seq<string>, parses: string -> bool, toItem: string -> Item,
                              items: seq<Item>, idx: seq<nat>)
    requires |idx| == |items|
    requires forall k :: 0 <= k < |idx| ==> idx[k] < |rest| && parses(rest[idx[k]]) && items[k] == toItem(rest[idx[k]])
    ensures var all, shifted := [head] + rest, Shifted(idx);
      forall k :: 0 <= k < |shifted| ==> shifted[k] < |all| && parses(all[shifted[k]]) && items[k] == toItem(all[shifted[k]])
  {
    var all, shifted := [head] + rest, Shifted(idx);
    forall k | 0 <= k < |shifted|
      ensures shifted[k] < |all| && parses(all[shifted[k]]) && items[k] == toItem(all[shifted[k]])
    {
      assert all[shifted[k]] == rest[idx[k]];
    }
  }

  lemma SkipIsIncreasing(idx: seq<nat>)
    requires forall k, l :: 0 <= k < l < |idx| ==> idx[k] < idx[l]
    ensures var shifted := Shifted(idx);
      forall k, l :: 0 <= k < l < |shifted| ==> shifted[k] < shifted[l]
  {
  }

  /** Keeping a string that parses puts position 0 in front of the shifted positions. */
  lemma OrderedFilterKeep<Item>(head: string, rest: seq<string>, parses: string -> bool, toItem: string -> Item,
                                items: seq<Item>, idx: seq<nat>)
    requires IsOrderedFilter(rest, parses, toItem, items, idx)
    requires parses(head)
    ensures IsOrderedFilter([head] + rest, parses, toItem, [toItem(head)] + items, [0] + Shifted(idx))
  {
    var all, allIdx, allItems := [head] + rest, [0] + Shifted(idx), [toItem(head)] + items;
    assert |allIdx| == |allItems|;
    KeepBuildsItems(head, rest, parses, toItem, items, idx);
    KeepIsIncreasing(idx);
    forall i | 0 <= i < |all| && parses(all[i])
      ensures i in allIdx
    {
      if i == 0 {
        assert allIdx[0] == 0;
      } else {
        assert all[i] == rest[i - 1];
        var k :| 0 <= k < |idx| && idx[k] == i - 1;
        assert allIdx[k + 1] == i;
      }
    }
  }

  lemma KeepBuildsItems<Item>(head: string, rest: seq<string>, parses: string -> bool, toItem: string -> Item,
                              items: seq<Item>, idx: seq<nat>)
    requires |idx| == |items|
    requires forall k :: 0 <= k < |idx| ==> idx[k] < |rest| && parses(rest[idx[k]]) && items[k] == toItem(rest[idx[k]])
    requires parses(head)
    ensures var all, allIdx, allItems := [head] + rest, [0] + Shifted(idx), [toItem(head)] + items;
      forall k :: 0 <= k < |allIdx| ==> allIdx[k] < |all| && parses(all[allIdx[k]]) && allItems[k] == toItem(all[allIdx[k]])
  {
    var all, allIdx, allItems := [head] + rest, [0] + Shifted(idx), [toItem(head)] + items;
    forall k | 0 <= k < |allIdx|
      ensures allIdx[k] < |all| && parses(all[allIdx[k]]) && allItems[k] == toItem(all[allIdx[k]])
    {
      if k > 0 {
        assert allIdx[k] == idx[k - 1] + 1 && allItems[k] == items[k - 1];
        assert all[allIdx[k]] == rest[idx[k - 1]];
      }
    }
  }

  lemma KeepIsIncreasing(idx: seq<nat>)
    requires forall k, l :: 0 <= k < l < |idx| ==> idx[k] < idx[l]
    ensures var allIdx := [0] + Shifted(idx);
      forall k, l :: 0 <= k < l < |allIdx| ==> allIdx[k] < allIdx[l]
  {
    var allIdx := [0] + Shifted(idx);
    forall k, l | 0 <= k < l < |allIdx|
      ensures allIdx[k] < allIdx[l]
    {
      assert allIdx[l] == idx[l - 1] + 1;
      if k > 0 {
        assert allIdx[k] == idx[k - 1] + 1;
      }
    }
  }

  /**
   * `ParsedItems` is exactly the in-order filter of the input: the returned
   * `idx` lists, strictly increasing, the positions of all the strings that
   * parse, and item `k` is built from string `idx[k]`.
   */
  lemma {:induction false} ParsedItemsIsOrderedFilter<Item>(urlStrings: seq<string>, parses: string -> bool, toItem: string -> Item)
    returns (idx: seq<nat>)
    ensures IsOrderedFilter(urlStrings, parses, toItem, ParsedItems(urlStrings, parses, toItem), idx)
    decreases |urlStrings|
  {
    if urlStrings == [] {
      return [];
    }
    var head, rest := urlStrings[0], urlStrings[1..];
    assert urlStrings == [head] + rest;
    var restIdx := ParsedItemsIsOrderedFilter(rest, parses, toItem);
    var tail := ParsedItems(rest, parses, toItem);
    if parses(head) {
      assert ParsedItems(urlStrings, parses, toItem) == [toItem(head)] + tail;
      OrderedFilterKeep(head, rest, parses, toItem, tail, restIdx);
      idx := [0] + Shifted(restIdx);
    } else {
      assert ParsedItems(urlStrings, parses, toItem) == tail;
      OrderedFilterSkip(head, rest, parses, toItem, tail, restIdx);
      idx := Shifted(restIdx);
    }
  }

  /**
   * One step of `nextItem()` on the index: forward while a next item exists,
   * back to 0 otherwise, unchanged on an empty list.
   */
  function Step(index: int, count: nat): (next: int)
    ensures 0 <= index < count ==> 0 <= next < count
    ensures count == 0 && 0 <= index ==> next == index
  {
    if index + 1 < count then index + 1
    else if 0 < count then 0
    else index
  }

  /** On a non-empty list the step is the successor modulo the length. */
  lemma StepIsSuccessorModCount(index: int, count: nat)
    requires 0 <= index < count
    ensures Step(index, count) == (index + 1) % count
  {
    if index + 1 == count {
      assert (index + 1) % count == 0;
    }
  }

  /** The index after `k` calls of `nextItem()` starting at `index`. */
  function Position(count: nat, index: int, k: nat): (p: int)
    requires 0 <= index < count
    ensures 0 <= p < count
    decreases k
  {
    if k == 0 then index else Position(count, Step(index, count), k - 1)
  }

  /** The items returned by `k` consecutive calls of `nextItem()` starting at `index`. */
  function Cycle<Item>(items: seq<Item>, index: int, k: nat): (played: seq<Item>)
    requires 0 <= index < |items|
    ensures |played| == k
    decreases k
  {
    if k == 0 then []
    else
      var next := Step(index, |items|);
      [items[next]] + Cycle(items, next, k - 1)
  }

  /** `a + b` calls are `a` calls followed by `b` calls from where the first `a` left the index. */
  lemma {:induction false} CycleAppend<Item>(items: seq<Item>, index: int, a: nat, b: nat)
    requires 0 <= index < |items|
    ensures Cycle(items, index, a + b) == Cycle(items, index, a) + Cycle(items, Position(|items|, index, a), b)
    ensures Position(|items|, index, a + b) == Position(|items|, Position(|items|, index, a), b)
    decreases a
  {
    if a > 0 {
      var next := Step(index, |items|);
      CycleAppend(items, next, a - 1, b);
      assert a + b - 1 == (a - 1) + b;
    }
  }

  /** While no wrap-around happens, the calls return the next items of the list in order. */
  lemma {:induction false} CycleRun<Item>(items: seq<Item>, index: int, k: nat)
    requires 0 <= index && index + k < |items|
    ensures Cycle(items, index, k) == items[index + 1..index + 1 + k]
    ensures Position(|items|, index, k) == index + k
    decreases k
  {
    if k > 0 {
      CycleRun(items, index + 1, k - 1);
    }
  }

  /** From the last item, `m + 1` calls wrap around to item 0 and go on up to item `m`. */
  lemma CycleFromLast<Item>(items: seq<Item>, m: nat)
    requires m < |items|
    ensures Cycle(items, |items| - 1, m + 1) == items[..m + 1]
    ensures Position(|items|, |items| - 1, m + 1) == m
  {
    var n := |items|;
    assert Step(n - 1, n) == 0;
    assert Cycle(items, n - 1, m + 1) == [items[0]] + Cycle(items, 0, m);
    assert Position(n, n - 1, m + 1) == Position(n, 0, m);
    CycleRun(items, 0, m);
    assert [items[0]] + items[1..1 + m] == items[..m + 1];
  }

  /**
   * `|items|` calls from any valid index return the list rotated to start just
   * after that index, and bring the index back to where it started.
   */
  lemma CycleIsRotation<Item>(items: seq<Item>, index: int)
    requires 0 <= index < |items|
    ensures Cycle(items, index, |items|) == items[index + 1..] + items[..index + 1]
    ensures Position(|items|, index, |items|) == index
  {
    var n := |items|;
    var first := n - 1 - index;
    CycleRun(items, index, first);
    assert items[index + 1..index + 1 + first] == items[index + 1..];
    CycleAppend(items, index, first, index + 1);
    assert first + (index + 1) == n;
    CycleFromLast(items, index);
  }

  /** A full cycle returns every item of the list, each as often as it occurs in the list. */
  lemma CycleIsPermutation<Item>(items: seq<Item>, index: int)
    requires 0 <= index < |items|
    ensures multiset(Cycle(items, index, |items|)) == multiset(items)
  {
    CycleIsRotation(items, index);
    assert items == items[..index + 1] + items[index + 1..];
  }

  /** In a list without repeated items every item occurs exactly once. */
  lemma {:induction false} DistinctOccursOnce<T>(s: seq<T>, x: T)
    requires forall p, q :: 0 <= p < q < |s| ==> s[p] != s[q]
    requires x in s
    ensures multiset(s)[x] == 1
  {
    assert s == [s[0]] + s[1..];
    if s[0] == x {
      assert x !in s[1..] by {
        forall q | 0 <= q < |s[1..]| ensures s[1..][q] != x {
          assert s[1..][q] == s[q + 1];
        }
      }
    } else {
      DistinctOccursOnce(s[1..], x);
    }
  }

  /** When the list holds distinct items, a full cycle returns each of them exactly once. */
  lemma CycleReturnsEachItemOnce<Item>(items: seq<Item>, index: int, x: Item)
    requires 0 <= index < |items|
    requires forall p, q :: 0 <= p < q < |items| ==> items[p] != items[q]
    requires x in items
    ensures multiset(Cycle(items, index, |items|))[x] == 1
  {
    CycleIsPermutation(items, index);
    DistinctOccursOnce(items, x);
  }

  /** The calls repeat with period `|items|`: call `|items| + k` returns what call `k` returned. */
  lemma CycleIsPeriodic<Item>(items: seq<Item>, index: int, k: nat)
    requires 0 <= index < |items|
    ensures Cycle(items, index, |items| + k) == Cycle(items, index, |items|) + Cycle(items, index, k)
  {
    CycleAppend(items, index, |items|, k);
    CycleIsRotation(items, index);
  }

  /** Call `|items| + 1` returns the same item as call 1. */
  lemma CycleWrapsAround<Item>(items: seq<Item>, index: int)
    requires 0 <= index < |items|
    ensures Cycle(items, index, |items| + 1)[|items|] == Cycle(items, index, 1)[0]
  {
    CycleIsPeriodic(items, index, 1);
  }

  /** From a fresh cursor the first call returns the second item, or the only one. */
  lemma FirstCallFromFresh<Item>(items: seq<Item>)
    requires |items| > 0
    ensures Cycle(items, 0, 1) == if |items| >= 2 then [items[1]] else [items[0]]
  {
  }

  /** `PlayerViewController.Model`: the fixed list of items and the index of the one playing. */
  class Model<Item> {
    const items: seq<Item>
    var currentIndex: int
    /** Everything `NextItem` has returned since construction, in order. */
    ghost var Played: seq<Item>

    ghost predicate Valid()
      reads this
    {
      if |items| == 0 then currentIndex == 0 && Played == []
      else
        0 <= currentIndex < |items| &&
        Played == Cycle(items, 0, |Played|) &&
        currentIndex == Position(|items|, 0, |Played|)
    }

    constructor (urlStrings: seq<string>, parses: string -> bool, toItem: string -> Item)
      ensures Valid()
      ensures items == ParsedItems(urlStrings, parses, toItem)
      ensures currentIndex == 0 && Played == []
    {
      items := ParsedItems(urlStrings, parses, toItem);
      currentIndex := 0;
      Played := [];
    }

    method NextItem() returns (item: Option<Item>)
      requires Valid()
      modifies this`currentIndex, this`Played
      ensures Valid()
      ensures |items| == 0 ==> item == None && currentIndex == old(currentIndex) && Played == old(Played)
      ensures |items| > 0 ==>
        0 <= currentIndex < |items| &&
        currentIndex == (old(currentIndex) + 1) % |items| &&
        item == Some(items[currentIndex]) &&
        Played == old(Played) + [items[currentIndex]]
    {
      ghost var k := |Played|;
      if currentIndex + 1 < |items| {
        currentIndex := currentIndex + 1;
        item := Some(items[currentIndex]);
      } else if 0 < |items| {
        currentIndex := 0;
        item := Some(items[currentIndex]);
      } else {
        return None;
      }
      Played := Played + [items[currentIndex]];
      CycleAppend(items, 0, k, 1);
      StepIsSuccessorModCount(old(currentIndex), |items|);
    }
  }
}
