/**
 * The linear-scan range tracker of src/index.js (and its compiled form
 * dist/virtual-list.js): a `Virtual` object that measures rendered
 * elements into a plain size array, scans the array from index 0 on every
 * scroll to find the rendered slice, and keeps a total size that never
 * shrinks.
 *
 * The DOM is not modelled: rendered elements arrive as `Item`s (data index
 * and measured size), the viewport size, scroll offset, scroll size and
 * visibility are parameters, a write to the scroll position is a returned
 * command, and a dispatched `onScroll`/`onUpdate` event is a returned value.
 */
module VirtualList {
  import opened Rounding
  import opened Wrappers
  import opened ScanSizes

  /** `this.range`. */
  datatype Range = Range(start: int, end: int, front: nat, behind: int, total: int)

  /** The payload of `onScroll`. */
  datatype ScrollEvent = ScrollEvent(top: bool, bottom: bool, offset: int, direction: Direction)

  /** What `scrollToIndex` writes: the scroll size (`scrollToBottom`), or an offset. */
  datatype ScrollCommand = ToBottom | ToOffset(offset: int)

  /**
   * The range `_updateRange({start, end, front})` stores: the space after
   * the window estimated at the average size per item, and a total that
   * is the larger of the old total and front, window and behind added up.
   */
  function Moved(total: int, s: seq<nat>, avg: nat, count: nat, start: int, end: int, front: nat): (r: Range)
    ensures r.start == start && r.end == end && r.front == front
    ensures r.behind == (Max(0, count - 1) - end) * avg
    ensures end <= Max(0, count - 1) ==> r.behind >= 0
    ensures r.total >= total && r.total >= front + OffsetByRange(s, avg, start, end) + r.behind
    ensures r.total == total || r.total == front + OffsetByRange(s, avg, start, end) + r.behind
  {
    var behind := (Max(0, count - 1) - end) * avg;
    Range(start, end, front, behind, Max(total, front + OffsetByRange(s, avg, start, end) + behind))
  }

  class Virtual {
    /** `options.itemCount` and `options.ignoreSize`. */
    const itemCount: nat
    const ignoreSize: int

    var sizes: seq<nat>
    var range: Range
    var offset: int
    var lastStart: int
    var averageSize: nat
    var scrollDirection: Direction

    /** The stored end never passes the last index, and the space behind it is never negative. */
    ghost predicate Valid()
      reads this
    {
      range.end <= LastIndex() && range.behind >= 0
    }

    /** The state the constructor sets up before its first `_onCreate`. */
    constructor (itemCount: nat, ignoreSize: int)
      ensures Valid()
      ensures this.itemCount == itemCount && this.ignoreSize == ignoreSize
      ensures sizes == [] && range == Range(0, 0, 0, 0, 0) && offset == 0 && lastStart == 0
      ensures averageSize == 0 && scrollDirection == NoDirection
    {
      this.itemCount := itemCount;
      this.ignoreSize := ignoreSize;
      sizes := [];
      range := Range(0, 0, 0, 0, 0);
      offset := 0;
      lastStart := 0;
      averageSize := 0;
      scrollDirection := NoDirection;
    }

    /** `_getLength()`: the last index, 0 for an empty list. */
    function LastIndex(): (r: nat)
      reads this
      ensures itemCount == 0 ==> r == 0
      ensures itemCount > 0 ==> r + 1 == itemCount
    {
      Max(0, itemCount - 1)
    }

    /** `getSize(index)`. */
    function GetSize(index: int): nat
      reads this
    {
      SizeOf(sizes, averageSize, index)
    }

    /** `_getOffsetByRange(start, end)`: the sum of `getSize(i)` for `start <= i < end`. */
    method GetOffsetByRange(start: int, end: int) returns (r: nat)
      ensures r == OffsetByRange(sizes, averageSize, start, end)
    {
      r := 0;
      var i := start;
      while i < end
        invariant i == start || start < i <= end
        invariant r == OffsetByRange(sizes, averageSize, start, i)
        decreases end - i
      {
        r := r + GetSize(i);
        i := i + 1;
      }
    }

    /**
     * `scrollToIndex(index)`: past the last index, scroll to the bottom;
     * otherwise to the offset of the items before `index` plus `ignoreSize`.
     */
    method ScrollToIndex(index: int) returns (command: ScrollCommand)
      ensures index > LastIndex() ==> command == ToBottom
      ensures index <= LastIndex() ==> command == ToOffset(OffsetByRange(sizes, averageSize, 0, index) + ignoreSize)
    {
      if index > LastIndex() {
        command := ToBottom;
      } else {
        var o := GetOffsetByRange(0, index);
        command := ToOffset(o + ignoreSize);
      }
    }

    /**
     * Round trip of `scrollToIndex` with `_getRangeByOffset`: with a positive
     * average, once the scroll offset is where `scrollToIndex(i)` puts it, the
     * first scan starts at the item just before i (or at 0).
     */
    lemma ScrollToIndexRoundTrip(i: nat)
      requires averageSize >= 1 && i <= LastIndex() && itemCount > 0
      requires offset == OffsetByRange(sizes, averageSize, 0, i) + ignoreSize
      ensures var f := FirstPass(sizes, averageSize, itemCount, offset - ignoreSize, 0, 0);
        f.found && f.end == Max(0, i - 1)
    {
      ScrollRoundTrip(sizes, averageSize, itemCount, i);
    }

    /**
     * `_getRangeByOffset()`: two scans from index 0 at the current offset;
     * stores the new average size, and returns `(start, front, end)`.
     */
    method GetRangeByOffset(clientSize: nat) returns (start: int, front: nat, end: int)
      requires ScanReady(sizes, averageSize, itemCount, offset - ignoreSize, clientSize)
      modifies this
      ensures var w := RangeByOffset(old(sizes), old(averageSize), itemCount, old(offset) - ignoreSize, clientSize);
        start == w.start && front == w.front && end == w.end && averageSize == w.average
      ensures sizes == old(sizes) && range == old(range) && offset == old(offset)
      ensures lastStart == old(lastStart) && scrollDirection == old(scrollDirection)
    {
      var target := offset - ignoreSize;
      ghost var p := Passes(sizes, averageSize, itemCount, target, clientSize);
      ghost var f := FirstPass(sizes, averageSize, itemCount, target, 0, 0);
      start := 0;
      front := 0;
      var e: nat := 0;
      var acc: nat := 0;
      while e < itemCount
        invariant e <= itemCount
        invariant f == FirstPass(sizes, averageSize, itemCount, target, e, acc)
        invariant start == 0 && front == 0
        decreases itemCount - e
      {
        var size := GetSize(e);
        if acc + size >= target {
          start := e;
          front := acc;
          break;
        }
        acc := acc + size;
        e := e + 1;
      }
      assert f.end == e && f.acc == acc && start == p.start && front == p.front;
      while e < itemCount
        invariant SecondPass(sizes, averageSize, itemCount, clientSize, front, f.end, f.acc) ==
                  SecondPass(sizes, averageSize, itemCount, clientSize, front, e, acc)
        decreases itemCount - e
      {
        acc := acc + GetSize(e);
        e := e + 1;
        if acc - front > clientSize {
          break;
        }
      }
      assert e == p.end && acc == p.offset;
      averageSize := RoundDiv(acc, e);
      end := Min(LastIndex(), e + 1);
      if acc < target {
        start := end - RoundDiv(clientSize, averageSize);
        front := GetOffsetByRange(0, start);
      }
    }

    /**
     * `_updateRange({start, end, front})`: store the window, estimate the
     * space behind it, and grow the total when the new sum exceeds it.
     */
    method UpdateRange(start: int, end: int, front: nat) returns (emitted: Range)
      requires end <= LastIndex()
      modifies this
      ensures range == Moved(old(range.total), sizes, averageSize, itemCount, start, end, front)
      ensures emitted == range && range.total >= old(range.total) && Valid()
      ensures sizes == old(sizes) && offset == old(offset) && averageSize == old(averageSize)
      ensures lastStart == old(lastStart) && scrollDirection == old(scrollDirection)
    {
      var behind := (LastIndex() - end) * averageSize;
      var renderingSize := GetOffsetByRange(start, end);
      ghost var moved := Moved(range.total, sizes, averageSize, itemCount, start, end, front);
      assert behind == moved.behind;
      range := Range(start, end, front, behind, Max(range.total, front + renderingSize + behind));
      assert range == moved;
      emitted := range;
    }

    /**
     * `_onUpdate()`: record the rendered elements that carry an index,
     * rescan, and store the new window unless both its ends are unchanged.
     */
    method OnUpdate(items: seq<Item>, clientSize: nat) returns (emitted: Option<Range>)
      requires Valid()
      requires ScanReady(StoreAll(sizes, items), averageSize, itemCount, offset - ignoreSize, clientSize)
      modifies this
      ensures Valid()
      ensures sizes == StoreAll(old(sizes), items) && lastStart == old(range.start)
      ensures offset == old(offset) && scrollDirection == old(scrollDirection)
      ensures Updated(items, clientSize, emitted)
      ensures range.total >= old(range.total)
    {
      var ledger := sizes;
      var i := 0;
      while i < |items|
        invariant i <= |items|
        invariant StoreAll(sizes, items) == StoreAll(ledger, items[i..])
      {
        assert items[i..][1..] == items[i + 1..];
        if items[i].index.Some? {
          ledger := Store(ledger, items[i].index.value, items[i].size);
        }
        i := i + 1;
      }
      assert items[i..] == [];
      sizes := ledger;
      lastStart := range.start;
      var start, front, end := GetRangeByOffset(clientSize);
      RangeByOffsetSpec(sizes, old(averageSize), itemCount, offset - ignoreSize, clientSize);
      if start == range.start && end == range.end {
        emitted := None;
        return;
      }
      var r := UpdateRange(start, end, front);
      emitted := Some(r);
    }

    /**
     * What `_onUpdate` leaves behind, from the state before it: the
     * elements recorded in the array, the old start kept as `lastStart`,
     * the average from the scans (run with the old average) and the range
     * moved to their window, with `onUpdate` emitted, unless the window's
     * start and end are the stored ones.
     */
    twostate predicate Updated(items: seq<Item>, clientSize: nat, new emitted: Option<Range>)
      reads this
    {
      sizes == StoreAll(old(sizes), items) && lastStart == old(range.start) &&
      ScanReady(sizes, old(averageSize), itemCount, offset - ignoreSize, clientSize) &&
      var w := RangeByOffset(sizes, old(averageSize), itemCount, offset - ignoreSize, clientSize);
      averageSize == w.average &&
      if w.start == old(range.start) && w.end == old(range.end) then range == old(range) && emitted == None
      else range == Moved(old(range.total), sizes, averageSize, itemCount, w.start, w.end, w.front) &&
           emitted == Some(range)
    }

    /** The start value of the `_onCreate` walk's rendered size: how far the range's front reaches past the scroll position. */
    function CreateRendering(scrollOffset: int): int
      reads this
    {
      Max(0, range.front - Abs(scrollOffset - ignoreSize))
    }

    /** The `_onCreate` walk from the stored start. */
    function CreateRun(items: seq<Item>, clientSize: nat, scrollOffset: int): Walk
      reads this
    {
      CreateWalk(sizes, items, range.start, itemCount, clientSize, CreateRendering(scrollOffset), range.start)
    }

    /**
     * What `_onCreate` leaves behind, from the state before it: nothing for
     * a hidden element or no rendered children; otherwise the walk's
     * records in an array of `itemCount` slots, the average of the sizes
     * up to the walk's end, and the range from the stored start to one
     * past the walk, emitted as `onUpdate`. A walk that ends at index 0 or
     * before (reachable once the scan's fallback stored a negative start)
     * is `degenerate`: the division by its end yields no natural average,
     * and only the records and the array's length are kept.
     */
    twostate predicate Created(visible: bool, items: seq<Item>, clientSize: nat, scrollOffset: int,
                               new emitted: Option<Range>, degenerate: bool)
      reads this
    {
      (!visible || items == [] ==>
         sizes == old(sizes) && range == old(range) && averageSize == old(averageSize) &&
         emitted == None && !degenerate) &&
      (visible && items != [] ==>
         var w := old(CreateRun(items, clientSize, scrollOffset));
         w.rendering >= 0 &&
         sizes == Resize(w.sizes, itemCount) &&
         (degenerate <==> w.end <= 0) &&
         (degenerate ==> range == old(range) && averageSize == old(averageSize) && emitted == None) &&
         (!degenerate ==>
            averageSize == RoundDiv(old(range.front) + w.rendering, w.end) &&
            range == Moved(old(range.total), sizes, averageSize, itemCount,
                           old(range.start), Min(LastIndex(), w.end + 1), old(range.front)) &&
            emitted == Some(range)))
    }

    /**
     * `_onCreate()`: for a visible element with rendered children, walk
     * from the stored start recording element sizes until the viewport is
     * filled, set the average to the mean size up to the walk's end, set
     * the array's length to the item count, and store the range up to one
     * past the walk (clamped to the last index). A walk ending at index 0
     * or before reports `degenerate` instead of storing an average.
     */
    method OnCreate(visible: bool, items: seq<Item>, clientSize: nat, scrollOffset: int)
      returns (emitted: Option<Range>, degenerate: bool)
      requires Valid()
      modifies this
      ensures Valid()
      ensures Created(visible, items, clientSize, scrollOffset, emitted, degenerate)
      ensures range.total >= old(range.total)
      ensures offset == old(offset) && lastStart == old(lastStart) && scrollDirection == old(scrollDirection)
    {
      if !visible || items == [] {
        return None, false;
      }
      ghost var run := CreateRun(items, clientSize, scrollOffset);
      var rendering := CreateRendering(scrollOffset);
      var end := range.start;
      var ledger := sizes;
      while rendering < clientSize && end < itemCount
        invariant range.start <= end && 0 <= rendering
        invariant run == CreateWalk(ledger, items, range.start, itemCount, clientSize, rendering, end)
        decreases itemCount - end
      {
        if end - range.start >= |items| {
          break;
        }
        var item := items[end - range.start];
        if item.index.Some? {
          ledger := Store(ledger, item.index.value, item.size);
        }
        rendering := rendering + item.size;
        end := end + 1;
      }
      assert run == Walk(ledger, rendering, end);
      if end <= 0 {
        sizes := Resize(ledger, itemCount);
        return None, true;
      }
      degenerate := false;
      averageSize := RoundDiv(range.front + rendering, end);
      sizes := Resize(ledger, itemCount);
      end := Min(LastIndex(), end + 1);
      var r := UpdateRange(range.start, end, range.front);
      emitted := Some(r);
    }

    /** The early exit of `_onRefresh`: no direction, or the range already at the end being scrolled to. */
    predicate Halts(d: Direction)
      reads this
    {
      d == NoDirection || (d == Forward && range.start == 0) || (d == Backward && range.end == LastIndex())
    }

    /**
     * What `_onRefresh` does once there is an average, from the state
     * before it: nothing for a hidden element; otherwise the direction by
     * the dead band, the new offset and the `onScroll` event, then either
     * the early exit, which changes nothing else, or `_onUpdate`.
     */
    twostate predicate Scrolled(visible: bool, items: seq<Item>, scrollOffset: int, clientSize: nat, scrollSize: int,
                                new event: Option<ScrollEvent>, new emitted: Option<Range>)
      reads this
    {
      (!visible ==>
         event == None && emitted == None && sizes == old(sizes) && range == old(range) &&
         offset == old(offset) && averageSize == old(averageSize) && scrollDirection == old(scrollDirection) &&
         lastStart == old(lastStart)) &&
      (visible ==>
         scrollDirection == DirectionOf(old(offset), scrollOffset) && offset == scrollOffset &&
         event == Some(ScrollEvent(itemCount != 0 && scrollOffset <= 0, clientSize + scrollOffset + 1 >= scrollSize,
                                   scrollOffset, scrollDirection)) &&
         (old(Halts(DirectionOf(offset, scrollOffset))) ==>
            emitted == None && sizes == old(sizes) && range == old(range) && averageSize == old(averageSize) &&
            lastStart == old(lastStart)) &&
         (!old(Halts(DirectionOf(offset, scrollOffset))) ==> Updated(items, clientSize, emitted)))
    }

    /**
     * `_onRefresh()` for a scroll to `scrollOffset`: without an average yet,
     * `_onCreate` instead; for a visible element, classify the direction
     * with a dead band of 1, store the offset, emit `onScroll`, and unless
     * the early exit applies, `_onUpdate`. The total never shrinks.
     */
    method OnRefresh(visible: bool, items: seq<Item>, scrollOffset: int, clientSize: nat, scrollSize: int)
      returns (event: Option<ScrollEvent>, emitted: Option<Range>, degenerate: bool)
      requires Valid()
      requires averageSize >= 1 && visible && !Halts(DirectionOf(offset, scrollOffset)) ==>
        ScanReady(StoreAll(sizes, items), averageSize, itemCount, scrollOffset - ignoreSize, clientSize)
      modifies this
      ensures Valid()
      ensures old(averageSize) < 1 ==>
        event == None && offset == old(offset) && scrollDirection == old(scrollDirection) &&
        lastStart == old(lastStart) && Created(visible, items, clientSize, scrollOffset, emitted, degenerate) &&
        (emitted.Some? <==> visible && items != [] && !degenerate)
      ensures old(averageSize) >= 1 ==> !degenerate && Scrolled(visible, items, scrollOffset, clientSize, scrollSize, event, emitted)
      ensures range.total >= old(range.total)
    {
      event := None;
      emitted := None;
      degenerate := false;
      if averageSize < 1 {
        emitted, degenerate := OnCreate(visible, items, clientSize, scrollOffset);
        return;
      }
      if !visible {
        return;
      }
      if scrollOffset < offset - 1 {
        scrollDirection := Forward;
      } else if scrollOffset > offset + 1 {
        scrollDirection := Backward;
      } else {
        scrollDirection := NoDirection;
      }
      offset := scrollOffset;
      event := Some(ScrollEvent(itemCount != 0 && scrollOffset <= 0, clientSize + scrollOffset + 1 >= scrollSize,
                                scrollOffset, scrollDirection));
      if Halts(scrollDirection) {
        return;
      }
      emitted := OnUpdate(items, clientSize);
    }

    /**
     * `refresh()`: with an average above 1, `_onRefresh`; otherwise (an
     * average of exactly 1 included) measure again with `_onCreate`.
     */
    method Refresh(visible: bool, items: seq<Item>, scrollOffset: int, clientSize: nat, scrollSize: int)
      returns (event: Option<ScrollEvent>, emitted: Option<Range>, degenerate: bool)
      requires Valid()
      requires averageSize > 1 && visible && !Halts(DirectionOf(offset, scrollOffset)) ==>
        ScanReady(StoreAll(sizes, items), averageSize, itemCount, scrollOffset - ignoreSize, clientSize)
      modifies this
      ensures Valid()
      ensures old(averageSize) <= 1 ==>
        event == None && offset == old(offset) && scrollDirection == old(scrollDirection) &&
        lastStart == old(lastStart) && Created(visible, items, clientSize, scrollOffset, emitted, degenerate) &&
        (emitted.Some? <==> visible && items != [] && !degenerate)
      ensures old(averageSize) > 1 ==> !degenerate && Scrolled(visible, items, scrollOffset, clientSize, scrollSize, event, emitted)
      ensures range.total >= old(range.total)
    {
      if averageSize > 1 {
        event, emitted, degenerate := OnRefresh(visible, items, scrollOffset, clientSize, scrollSize);
      } else {
        event := None;
        emitted, degenerate := OnCreate(visible, items, clientSize, scrollOffset);
      }
    }

    /**
     * `_onRefresh()` as compiled in dist/virtual-list.js: the same, except
     * that without an average it calls `_onInit`, which the object does not
     * have, so the call throws a `TypeError` instead of measuring.
     */
    method OnRefreshCompiled(visible: bool, items: seq<Item>, scrollOffset: int, clientSize: nat, scrollSize: int)
      returns (event: Option<ScrollEvent>, emitted: Option<Range>, thrown: bool)
      requires Valid()
      requires averageSize >= 1 && visible && !Halts(DirectionOf(offset, scrollOffset)) ==>
        ScanReady(StoreAll(sizes, items), averageSize, itemCount, scrollOffset - ignoreSize, clientSize)
      modifies this
      ensures Valid()
      ensures thrown <==> old(averageSize) < 1
      ensures thrown ==>
        event == None && emitted == None && sizes == old(sizes) && range == old(range) &&
        offset == old(offset) && averageSize == old(averageSize) && scrollDirection == old(scrollDirection) &&
        lastStart == old(lastStart)
      ensures !thrown ==> Scrolled(visible, items, scrollOffset, clientSize, scrollSize, event, emitted)
      ensures range.total >= old(range.total)
    {
      if averageSize < 1 {
        return None, None, true;
      }
      thrown := false;
      var degenerate;
      event, emitted, degenerate := OnRefresh(visible, items, scrollOffset, clientSize, scrollSize);
    }
  }

  /**
   * A tracker whose first `_onCreate` found nothing rendered (so it has no
   * average yet): the compiled `_onRefresh` throws on the first scroll,
   * where src/index.js measures the rendered elements instead.
   */
  method FreshTrackerScroll() returns (compiledThrows: bool, sourceEmitted: Option<Range>)
    ensures compiledThrows
    ensures sourceEmitted.Some?
  {
    var items := [Item(Some(0), 40), Item(Some(1), 40), Item(Some(2), 40)];
    var compiled := new Virtual(3, 0);
    var _, _, thrown := compiled.OnRefreshCompiled(true, items, 10, 100, 120);
    compiledThrows := thrown;
    var source := new Virtual(3, 0);
    assert source.CreateRun(items, 100, 10).end == 3;
    var _, emitted, _ := source.OnRefresh(true, items, 10, 100, 120);
    sourceEmitted := emitted;
  }
}
