/**
 * The size bookkeeping of the linear-scan tracker (src/index.js, compiled
 * as dist/virtual-list.js): a plain array of measured sizes, read through
 * `getSize`, summed by `_getOffsetByRange` and scanned twice by
 * `_getRangeByOffset`.
 *
 * The array is only ever read as `sizes[i] || averageSize`, so a hole, a
 * slot past the end and a stored 0 all read the same; they are all 0 here.
 * This module holds the value-level definitions the tracker's loops are
 * proved against, and the lemmas about them.
 */
module ScanSizes {
  import opened Rounding
  import opened Wrappers

  /**
   * A rendered element: the item index from its data attribute (`None`
   * when the attribute is missing or empty) and its measured size.
   */
  datatype Item = Item(index: Option<nat>, size: nat)

  /** `sizes[i]`, with a hole or a slot past the end read as 0. */
  function Lookup(s: seq<nat>, i: int): nat
  {
    if 0 <= i < |s| then s[i] else 0
  }

  /** `getSize(i)`: the measured size when it is non-zero, otherwise the average. */
  function SizeOf(s: seq<nat>, avg: nat, i: int): (r: nat)
    ensures Lookup(s, i) != 0 ==> r == Lookup(s, i)
    ensures Lookup(s, i) == 0 ==> r == avg
  {
    if 0 <= i < |s| && s[i] != 0 then s[i] else avg
  }

  /** `_getOffsetByRange(a, b)`: the sum of `getSize(i)` for `a <= i < b`. */
  function OffsetByRange(s: seq<nat>, avg: nat, a: int, b: int): nat
    decreases b - a
  {
    if b <= a then 0 else OffsetByRange(s, avg, a, b - 1) + SizeOf(s, avg, b - 1)
  }

  /** Offsets over adjacent ranges add up. */
  lemma {:induction false} OffsetSplit(s: seq<nat>, avg: nat, a: int, b: int, c: int)
    requires a <= b <= c
    ensures OffsetByRange(s, avg, a, c) == OffsetByRange(s, avg, a, b) + OffsetByRange(s, avg, b, c)
    decreases c - b
  {
    if b < c {
      OffsetSplit(s, avg, a, b, c - 1);
    }
  }

  /** An offset over an empty or reversed range is 0, and it grows with the end of the range. */
  lemma OffsetMonotone(s: seq<nat>, avg: nat, a: int, b: int, c: int)
    requires a <= b <= c
    ensures OffsetByRange(s, avg, a, b) <= OffsetByRange(s, avg, a, c)
  {
    OffsetSplit(s, avg, a, b, c);
  }

  /** With a positive average every item takes at least 1, so an offset is at least the number of items it spans. */
  lemma {:induction false} OffsetAtLeastCount(s: seq<nat>, avg: nat, a: int, b: int)
    requires avg >= 1 && a <= b
    ensures OffsetByRange(s, avg, a, b) >= b - a
    decreases b - a
  {
    if a < b {
      OffsetAtLeastCount(s, avg, a, b - 1);
    }
  }

  // ---------------------------------------------------------------------------
  // Storing measured sizes

  /** `sizes[k] = v`, growing the array with holes when k is past its end. */
  function Store(s: seq<nat>, k: nat, v: nat): (t: seq<nat>)
    ensures |t| == if k < |s| then |s| else k + 1
    ensures forall i :: 0 <= i < |t| ==> t[i] == if i == k then v else Lookup(s, i)
  {
    if k < |s| then s[k := v] else s + seq(k - |s|, _ => 0) + [v]
  }

  /** Records one rendered element; one without an index writes no array slot. */
  function StoreItem(s: seq<nat>, it: Item): seq<nat>
  {
    if it.index.Some? then Store(s, it.index.value, it.size) else s
  }

  /** Records the elements in order (the loop of `_onUpdate`). */
  function StoreAll(s: seq<nat>, items: seq<Item>): seq<nat>
    decreases |items|
  {
    if items == [] then s else StoreAll(StoreItem(s, items[0]), items[1..])
  }

  /** A slot that no element names keeps its size. */
  lemma {:induction false} StoreAllUntouched(s: seq<nat>, items: seq<Item>, k: nat)
    requires forall j :: 0 <= j < |items| ==> items[j].index != Some(k)
    ensures Lookup(StoreAll(s, items), k) == Lookup(s, k)
    decreases |items|
  {
    if items != [] {
      StoreAllUntouched(StoreItem(s, items[0]), items[1..], k);
    }
  }

  /** The last element naming a slot decides its size. */
  lemma {:induction false} StoreAllLastWins(s: seq<nat>, items: seq<Item>, j: nat)
    requires j < |items| && items[j].index.Some?
    requires forall i :: j < i < |items| ==> items[i].index != items[j].index
    ensures Lookup(StoreAll(s, items), items[j].index.value) == items[j].size
    decreases |items|
  {
    var k := items[j].index.value;
    if j == 0 {
      StoreAllUntouched(StoreItem(s, items[0]), items[1..], k);
    } else {
      StoreAllLastWins(StoreItem(s, items[0]), items[1..], j - 1);
    }
  }

  /** `sizes.length = n`: truncates, or extends with holes. */
  function Resize(s: seq<nat>, n: nat): (t: seq<nat>)
    ensures |t| == n
    ensures forall i :: 0 <= i < n ==> t[i] == Lookup(s, i)
  {
    if n <= |s| then s[..n] else s + seq(n - |s|, _ => 0)
  }

  // ---------------------------------------------------------------------------
  // The measuring walk of `_onCreate`

  /** The state of the `_onCreate` walk: the array, the rendered size and the end index. */
  datatype Walk = Walk(sizes: seq<nat>, rendering: int, end: int)

  /**
   * The loop of `_onCreate`, from `start`: while the rendered size is below
   * the viewport and `end` is below the item count, record the next element
   * (stopping when there is none) and advance.
   */
  function CreateWalk(s: seq<nat>, items: seq<Item>, start: int, count: nat, clientSize: int,
                      rendering: int, end: int): Walk
    requires start <= end
    decreases count - end
  {
    if rendering < clientSize && end < count then
      if end - start >= |items| then Walk(s, rendering, end)
      else
        var it := items[end - start];
        CreateWalk(StoreItem(s, it), items, start, count, clientSize, rendering + it.size, end + 1)
    else Walk(s, rendering, end)
  }

  function SumSizes(items: seq<Item>): nat
  {
    if items == [] then 0 else SumSizes(items[..|items| - 1]) + items[|items| - 1].size
  }

  /** Recording a non-empty run is recording its first element, then the rest. */
  lemma {:induction false} StoreAllStep(s: seq<nat>, items: seq<Item>, i: nat, n: nat)
    requires i < n <= |items|
    ensures StoreAll(s, items[i..n]) == StoreAll(StoreItem(s, items[i]), items[i + 1..n])
  {
    var run := items[i..n];
    assert run[0] == items[i] && run[1..] == items[i + 1..n];
  }

  /** The sizes of a prefix one element longer add that element's size. */
  lemma {:induction false} SumSizesStep(items: seq<Item>, i: nat)
    requires i < |items|
    ensures SumSizes(items[..i + 1]) == SumSizes(items[..i]) + items[i].size
  {
    assert items[..i + 1][..i] == items[..i];
  }

  /**
   * Where the walk stops: at or past where it started, within the elements,
   * and exactly when the viewport is filled, the item count is reached or
   * the elements run out (that it did not stop earlier is `CreateWalkUnfilled`).
   */
  lemma {:induction false} CreateWalkStops(s: seq<nat>, items: seq<Item>, start: int, count: nat, clientSize: int,
                                           rendering: int, end: int)
    requires start <= end && end - start <= |items|
    ensures var w := CreateWalk(s, items, start, count, clientSize, rendering, end);
      end <= w.end && w.end - start <= |items| &&
      (w.rendering >= clientSize || w.end >= count || w.end - start == |items|)
    decreases count - end
  {
    if rendering < clientSize && end < count && end - start < |items| {
      var it := items[end - start];
      CreateWalkStops(StoreItem(s, it), items, start, count, clientSize, rendering + it.size, end + 1);
    }
  }

  /** The walk records the elements it consumes, in order. */
  lemma {:induction false} CreateWalkStores(s: seq<nat>, items: seq<Item>, start: int, count: nat, clientSize: int,
                                            rendering: int, end: int)
    requires start <= end && end - start <= |items|
    ensures var w := CreateWalk(s, items, start, count, clientSize, rendering, end);
      end <= w.end && w.end - start <= |items| &&
      w.sizes == StoreAll(s, items[end - start..w.end - start])
    decreases count - end
  {
    var i := end - start;
    if rendering < clientSize && end < count && i < |items| {
      var it := items[i];
      var w := CreateWalk(StoreItem(s, it), items, start, count, clientSize, rendering + it.size, end + 1);
      assert CreateWalk(s, items, start, count, clientSize, rendering, end) == w;
      CreateWalkStores(StoreItem(s, it), items, start, count, clientSize, rendering + it.size, end + 1);
      StoreAllStep(s, items, i, w.end - start);
    } else {
      assert CreateWalk(s, items, start, count, clientSize, rendering, end) == Walk(s, rendering, end);
      assert items[i..i] == [];
    }
  }

  /** The walk adds the sizes of the elements it consumes. */
  lemma {:induction false} CreateWalkRendering(s: seq<nat>, items: seq<Item>, start: int, count: nat, clientSize: int,
                                               rendering: int, end: int)
    requires start <= end && end - start <= |items|
    ensures var w := CreateWalk(s, items, start, count, clientSize, rendering, end);
      end <= w.end && w.end - start <= |items| &&
      w.rendering == rendering + SumSizes(items[..w.end - start]) - SumSizes(items[..end - start])
    decreases count - end
  {
    CreateWalkStops(s, items, start, count, clientSize, rendering, end);
    var i := end - start;
    if rendering < clientSize && end < count && i < |items| {
      var it := items[i];
      var w := CreateWalk(StoreItem(s, it), items, start, count, clientSize, rendering + it.size, end + 1);
      assert CreateWalk(s, items, start, count, clientSize, rendering, end) == w;
      CreateWalkRendering(StoreItem(s, it), items, start, count, clientSize, rendering + it.size, end + 1);
      SumSizesStep(items, i);
    } else {
      assert CreateWalk(s, items, start, count, clientSize, rendering, end) == Walk(s, rendering, end);
    }
  }

  /**
   * What the walk does: it consumes a prefix of the elements, recording them
   * in order and adding their sizes; it stops exactly when the viewport is
   * filled, the item count is reached or the elements run out (that it
   * did not stop earlier is `CreateWalkUnfilled`).
   */
  lemma CreateWalkSpec(s: seq<nat>, items: seq<Item>, start: int, count: nat, clientSize: int,
                       rendering: int, end: int)
    requires start <= end && end - start <= |items|
    ensures var w := CreateWalk(s, items, start, count, clientSize, rendering, end);
      var n := w.end - start;
      end <= w.end && n <= |items| &&
      w.sizes == StoreAll(s, items[end - start..n]) &&
      w.rendering == rendering + SumSizes(items[..n]) - SumSizes(items[..end - start]) &&
      (w.rendering >= clientSize || w.end >= count || n == |items|)
  {
    CreateWalkStops(s, items, start, count, clientSize, rendering, end);
    CreateWalkStores(s, items, start, count, clientSize, rendering, end);
    CreateWalkRendering(s, items, start, count, clientSize, rendering, end);
  }

  /** Before each element the walk consumes, the viewport is not yet filled and the item count not reached. */
  lemma {:induction false} CreateWalkUnfilled(s: seq<nat>, items: seq<Item>, start: int, count: nat, clientSize: int,
                                              rendering: int, end: int)
    requires start <= end && end - start <= |items|
    ensures var w := CreateWalk(s, items, start, count, clientSize, rendering, end);
      var n := w.end - start;
      end <= w.end && n <= |items| &&
      (forall k :: end - start <= k < n ==>
         rendering + SumSizes(items[..k]) - SumSizes(items[..end - start]) < clientSize && start + k < count)
    decreases count - end
  {
    var i := end - start;
    if rendering < clientSize && end < count && i < |items| {
      var it := items[i];
      var w := CreateWalk(StoreItem(s, it), items, start, count, clientSize, rendering + it.size, end + 1);
      assert CreateWalk(s, items, start, count, clientSize, rendering, end) == w;
      CreateWalkUnfilled(StoreItem(s, it), items, start, count, clientSize, rendering + it.size, end + 1);
      var n := w.end - start;
      SumSizesStep(items, i);
      forall k | i <= k < n
        ensures rendering + SumSizes(items[..k]) - SumSizes(items[..i]) < clientSize && start + k < count
      {
        if k == i {
          assert start + k == end;
        } else {
          assert rendering + it.size + SumSizes(items[..k]) - SumSizes(items[..i + 1]) < clientSize;
        }
      }
    }
  }

  // ---------------------------------------------------------------------------
  // The two scans of `_getRangeByOffset`

  /** Where the first scan stopped: whether it found the start, at which index, and the offset so far. */
  datatype First = First(found: bool, end: nat, acc: nat)

  /**
   * The first scan: from `end`, stop at the first item whose bottom edge
   * (`acc + getSize(end)`) reaches `target`; otherwise add its size and move on.
   */
  function FirstPass(s: seq<nat>, avg: nat, count: nat, target: int, end: nat, acc: nat): (f: First)
    ensures end <= count ==> end <= f.end <= count
    ensures !f.found ==> f.end == (if end <= count then count else end)
    decreases count - end
  {
    if end >= count then First(false, end, acc)
    else if acc + SizeOf(s, avg, end) >= target then First(true, end, acc)
    else FirstPass(s, avg, count, target, end + 1, acc + SizeOf(s, avg, end))
  }

  /**
   * The second scan: from `end`, add item sizes until the offset past
   * `front` exceeds the viewport or the item count is reached.
   */
  function SecondPass(s: seq<nat>, avg: nat, count: nat, clientSize: int, front: nat, end: nat, acc: nat): (r: (nat, nat))
    ensures end <= r.0 && (end < count ==> end < r.0)
    decreases count - end
  {
    if end >= count then (end, acc)
    else
      var acc' := acc + SizeOf(s, avg, end);
      if acc' - front > clientSize then (end + 1, acc')
      else SecondPass(s, avg, count, clientSize, front, end + 1, acc')
  }

  /** The raw result of both scans: the start found, its front, the end reached and the offset there. */
  datatype Scan = Scan(found: bool, start: nat, front: nat, end: nat, offset: nat)

  function Passes(s: seq<nat>, avg: nat, count: nat, target: int, clientSize: int): (p: Scan)
    ensures count > 0 ==> p.end > 0
  {
    var f := FirstPass(s, avg, count, target, 0, 0);
    var start := if f.found then f.end else 0;
    var front := if f.found then f.acc else 0;
    var r := SecondPass(s, avg, count, clientSize, front, f.end, f.acc);
    Scan(f.found, start, front, r.0, r.1)
  }

  /** The `(start, front, end)` that `_getRangeByOffset` returns, and the average it stores. */
  datatype Window = Window(start: int, front: nat, end: int, average: nat)

  /**
   * The scans divide by zero without items, and the fallback divides by the
   * new average: both must be non-zero.
   */
  predicate ScanReady(s: seq<nat>, avg: nat, count: nat, target: int, clientSize: nat)
  {
    count > 0 &&
    var p := Passes(s, avg, count, target, clientSize);
    p.offset < target ==> RoundDiv(p.offset, p.end) >= 1
  }

  /**
   * `_getRangeByOffset` as a value: the scans, the new average
   * `round(offset / end)`, `end` widened by one and clamped to the last
   * index, and when the scans ended above the scroll position, a start that
   * many viewport-lengths of average items before the end.
   */
  function RangeByOffset(s: seq<nat>, avg: nat, count: nat, target: int, clientSize: nat): Window
    requires ScanReady(s, avg, count, target, clientSize)
  {
    var p := Passes(s, avg, count, target, clientSize);
    var average := RoundDiv(p.offset, p.end);
    var end := Min(Max(0, count - 1), p.end + 1);
    if p.offset < target then
      var start := end - RoundDiv(clientSize, average);
      Window(start, OffsetByRange(s, average, 0, start), end, average)
    else Window(p.start, p.front, end, average)
  }

  /**
   * The first scan from index 0 finds the first item whose cumulative
   * offset through it reaches `target`, with `acc` the offset before it; when
   * no item reaches it, the scan covers all items.
   */
  lemma {:induction false} FirstPassSpec(s: seq<nat>, avg: nat, count: nat, target: int, end: nat, acc: nat)
    requires end <= count && acc == OffsetByRange(s, avg, 0, end)
    requires forall j :: 1 <= j <= end ==> OffsetByRange(s, avg, 0, j) < target
    ensures var f := FirstPass(s, avg, count, target, end, acc);
      f.acc == OffsetByRange(s, avg, 0, f.end) &&
      (forall j :: 1 <= j <= f.end ==> OffsetByRange(s, avg, 0, j) < target) &&
      (f.found ==> f.end < count && OffsetByRange(s, avg, 0, f.end + 1) >= target) &&
      (!f.found ==> f.end == count)
    decreases count - end
  {
    if end < count && acc + SizeOf(s, avg, end) < target {
      FirstPassSpec(s, avg, count, target, end + 1, acc + SizeOf(s, avg, end));
    }
  }

  /**
   * The second scan, started at `end` with the offset there, stops at the
   * first index j after `start` whose items from `start` add up to more
   * than the viewport, or at the item count.
   */
  lemma {:induction false} SecondPassSpec(s: seq<nat>, avg: nat, count: nat, clientSize: int, start: nat, end: nat, acc: nat)
    requires start <= end <= count && acc == OffsetByRange(s, avg, 0, end)
    requires forall j :: start < j <= end ==> OffsetByRange(s, avg, start, j) <= clientSize
    ensures var r := SecondPass(s, avg, count, clientSize, OffsetByRange(s, avg, 0, start), end, acc);
      end <= r.0 <= count && r.1 == OffsetByRange(s, avg, 0, r.0) &&
      (r.0 == count || OffsetByRange(s, avg, start, r.0) > clientSize) &&
      (forall j :: start < j < r.0 ==> OffsetByRange(s, avg, start, j) <= clientSize)
    decreases count - end
  {
    if end < count {
      var front := OffsetByRange(s, avg, 0, start);
      var acc' := acc + SizeOf(s, avg, end);
      OffsetSplit(s, avg, 0, start, end + 1);
      if acc' - front <= clientSize {
        SecondPassSpec(s, avg, count, clientSize, start, end + 1, acc');
      }
    }
  }

  /**
   * What `_getRangeByOffset` computes. The end is the last index at most.
   * The new average is the rounded mean size of the items scanned. When some
   * item reaches the scroll position, the start is the first such item, the
   * front is the offset of the items before it, and the scanned run from
   * the start exceeds the viewport unless it reached the item count (and no
   * shorter run does); the fallback is not taken. Otherwise the fallback is
   * taken: the start lies a viewport of average items before the end and the
   * front is its offset under the new average.
   */
  lemma RangeByOffsetSpec(s: seq<nat>, avg: nat, count: nat, target: int, clientSize: nat)
    requires ScanReady(s, avg, count, target, clientSize)
    ensures var w := RangeByOffset(s, avg, count, target, clientSize);
      var p := Passes(s, avg, count, target, clientSize);
      w.end <= count - 1 && w.end == Min(count - 1, p.end + 1) &&
      p.offset == OffsetByRange(s, avg, 0, p.end) && w.average == RoundDiv(p.offset, p.end) &&
      (p.found ==>
         p.start < count && w.start == p.start &&
         OffsetByRange(s, avg, 0, p.start + 1) >= target &&
         (forall j :: 1 <= j <= p.start ==> OffsetByRange(s, avg, 0, j) < target) &&
         w.front == OffsetByRange(s, avg, 0, p.start) &&
         (p.end == count || OffsetByRange(s, avg, p.start, p.end) > clientSize) &&
         (forall j :: p.start < j < p.end ==> OffsetByRange(s, avg, p.start, j) <= clientSize)) &&
      (!p.found ==>
         p.end == count &&
         (forall j :: 1 <= j <= count ==> OffsetByRange(s, avg, 0, j) < target) &&
         p.offset < target && w.average >= 1 &&
         w.start == w.end - RoundDiv(clientSize, w.average) &&
         w.front == OffsetByRange(s, w.average, 0, w.start))
  {
    FirstPassSpec(s, avg, count, target, 0, 0);
    var f := FirstPass(s, avg, count, target, 0, 0);
    var p := Passes(s, avg, count, target, clientSize);
    if f.found {
      SecondPassSpec(s, avg, count, clientSize, f.end, f.end, f.acc);
      OffsetMonotone(s, avg, 0, f.end + 1, p.end);
    } else {
      assert p.offset == f.acc;
      assert OffsetByRange(s, avg, 0, count) < target;
    }
  }

  /**
   * Round trip of `scrollToIndex` with the first scan: with a positive
   * average, scrolling to item i (offset `_getOffsetByRange(0, i)`) makes the
   * scan start at the item just before it, or at 0.
   */
  lemma ScrollRoundTrip(s: seq<nat>, avg: nat, count: nat, i: nat)
    requires avg >= 1 && i < count
    ensures var f := FirstPass(s, avg, count, OffsetByRange(s, avg, 0, i), 0, 0);
      f.found && f.end == Max(0, i - 1)
  {
    var target := OffsetByRange(s, avg, 0, i);
    FirstPassSpec(s, avg, count, target, 0, 0);
    var f := FirstPass(s, avg, count, target, 0, 0);
    var k := Max(0, i - 1);
    if f.found && f.end < k {
      OffsetSplit(s, avg, 0, f.end + 1, i);
      OffsetAtLeastCount(s, avg, f.end + 1, i);
    }
  }

  // ---------------------------------------------------------------------------
  // Scroll direction

  /** The direction `_onRefresh` records. */
  datatype Direction = NoDirection | Forward | Backward

  /** `_onRefresh`'s classification of a scroll from `previous` to `current`, with a dead band of 1. */
  function DirectionOf(previous: int, current: int): (d: Direction)
    ensures d == Forward <==> current < previous - 1
    ensures d == Backward <==> current > previous + 1
    ensures d == NoDirection <==> Abs(current - previous) <= 1
  {
    if current < previous - 1 then Forward
    else if current > previous + 1 then Backward
    else NoDirection
  }
}
